/** The client list page (`src/pages/Clientes.tsx`): five clients per page, a
    modal form that creates or edits a client, and a confirmation before a
    client is deleted. */
module Clientes {
  import opened Common

  /** A client as the page holds it; `id` (`id_cliente`) may be absent. */
  datatype Cliente = Cliente(id: Option<string>, nome: string, telefone: string, cpf: string)

  /** The form's three fields. */
  datatype ClienteForm = ClienteForm(nome: string, telefone: string, cpf: string)

  const EmptyForm: ClienteForm := ClienteForm("", "", "")

  /** `itensPorPagina`. */
  const PageSize: int := 5

  const ClientesUrl: string := ApiBase + "/clientes"

  function Min(a: int, b: int): int {
    if a <= b then a else b
  }

  /** `clientes.slice((page - 1) * 5, page * 5)`: the clients at indices
      `(page - 1) * 5` up to `page * 5 - 1` that exist. Pages are numbered from 1. */
  function Page(clients: seq<Cliente>, page: int): (r: seq<Cliente>)
    requires page >= 1
    ensures |r| <= PageSize
    ensures |r| == if |clients| <= (page - 1) * PageSize then 0 else Min(PageSize, |clients| - (page - 1) * PageSize)
    ensures forall k :: 0 <= k < |r| ==> r[k] == clients[(page - 1) * PageSize + k]
  {
    clients[Min((page - 1) * PageSize, |clients|)..Min(page * PageSize, |clients|)]
  }

  /** `Math.ceil(n / 5)`: the fewest pages of five that hold `n` clients. */
  function TotalPages(n: nat): (t: nat)
    ensures t * PageSize >= n
    ensures t == 0 || (t - 1) * PageSize < n
    ensures t == 0 <==> n == 0
  {
    (n + PageSize - 1) / PageSize
  }

  /** Client `k` lies on page `k / 5 + 1`, which is a real page, at position
      `k % 5`, and on no other page. */
  lemma EveryClientOnOnePage(clients: seq<Cliente>, k: int)
    requires 0 <= k < |clients|
    ensures var p := k / PageSize + 1;
      1 <= p <= TotalPages(|clients|) &&
      k % PageSize < |Page(clients, p)| && Page(clients, p)[k % PageSize] == clients[k]
    ensures forall q :: 1 <= q && (q - 1) * PageSize <= k < q * PageSize <==> q == k / PageSize + 1
  {
    var p := k / PageSize + 1;
    assert k == (p - 1) * PageSize + k % PageSize;
  }

  /** Pages `1` to `count`, one after the other. */
  function Pages(clients: seq<Cliente>, count: nat): seq<Cliente> {
    if count == 0 then [] else Pages(clients, count - 1) + Page(clients, count)
  }

  lemma {:induction false} PagesArePrefix(clients: seq<Cliente>, count: nat)
    ensures Pages(clients, count) == clients[..Min(count * PageSize, |clients|)]
  {
    if count > 0 {
      PagesArePrefix(clients, count - 1);
      var lo, hi := Min((count - 1) * PageSize, |clients|), Min(count * PageSize, |clients|);
      assert clients[..lo] + clients[lo..hi] == clients[..hi];
    }
  }

  /** Reading every page in order gives back the whole list, and a page past
      the last one is empty. */
  lemma PagesCoverList(clients: seq<Cliente>, page: int)
    requires page >= 1
    ensures Pages(clients, TotalPages(|clients|)) == clients
    ensures page > TotalPages(|clients|) ==> Page(clients, page) == []
  {
    PagesArePrefix(clients, TotalPages(|clients|));
    assert clients[..|clients|] == clients;
  }

  /** `cliente?.id_cliente || null`: the id when it is present and not empty. */
  function EditTarget(c: Cliente): (r: Option<string>)
    ensures r.Some? <==> c.id.Some? && c.id.value != ""
    ensures r.Some? ==> r == c.id
  {
    if c.id.Some? && Truthy(c.id.value) then c.id else None
  }

  /** The request `handleSubmit` sends: PATCH on `/clientes/{id}` while a
      client is edited, POST on `/clientes` otherwise, with the form as body. */
  function SubmitRequest(editingId: Option<string>, form: ClienteForm): (r: HttpRequest<ClienteForm>)
    ensures r.verb == Patch <==> editingId.Some? && Truthy(editingId.value)
    ensures r.verb == Post <==> !(editingId.Some? && Truthy(editingId.value))
    ensures r.verb == Patch ==> r.url == ClientesUrl + "/" + editingId.value
    ensures r.verb == Post ==> r.url == ClientesUrl
    ensures r.body == Some(form)
  {
    match editingId
    case Some(id) =>
      if Truthy(id) then HttpRequest(Patch, ClientesUrl + "/" + id, Some(form))
      else HttpRequest(Post, ClientesUrl, Some(form))
    case None => HttpRequest(Post, ClientesUrl, Some(form))
  }

  /** The three inputs of the modal form. */
  datatype Campo = Nome | Telefone | Cpf

  /** The page's state. */
  class ClientesPage {
    var clients: seq<Cliente>
    var form: ClienteForm
    var modalOpen: bool
    var confirmOpen: bool
    var toDelete: Option<Cliente>
    var currentPage: int
    var editingId: Option<string>

    /** Pages are numbered from 1, and an edited client always has an id. */
    predicate Valid()
      reads this
    {
      currentPage >= 1 && (editingId.Some? ==> editingId.value != "")
    }

    /** The clients the table shows. */
    function Shown(): (r: seq<Cliente>)
      reads this
      requires Valid()
      ensures |r| <= PageSize
    {
      Page(clients, currentPage)
    }

    constructor()
      ensures Valid()
      ensures clients == [] && form == EmptyForm && !modalOpen && !confirmOpen
      ensures toDelete == None && currentPage == 1 && editingId == None
    {
      clients := [];
      form := EmptyForm;
      modalOpen := false;
      confirmOpen := false;
      toDelete := None;
      currentPage := 1;
      editingId := None;
    }

    /** `fetchClientes` completed with `data`. */
    method Loaded(data: seq<Cliente>)
      requires Valid()
      modifies this
      ensures Valid()
      ensures clients == data
      ensures form == old(form) && modalOpen == old(modalOpen) && confirmOpen == old(confirmOpen)
      ensures toDelete == old(toDelete) && currentPage == old(currentPage) && editingId == old(editingId)
    {
      clients := data;
    }

    /** "Novo Cliente": an empty form for a new client. */
    method OpenNew()
      requires Valid()
      modifies this
      ensures Valid()
      ensures form == EmptyForm && editingId == None && modalOpen
      ensures clients == old(clients) && confirmOpen == old(confirmOpen)
      ensures toDelete == old(toDelete) && currentPage == old(currentPage)
    {
      form := EmptyForm;
      editingId := None;
      modalOpen := true;
    }

    /** `abrirEdicao`: copies the client's fields into the form and edits its id. */
    method OpenEdit(c: Cliente)
      requires Valid()
      modifies this
      ensures Valid()
      ensures form == ClienteForm(c.nome, c.telefone, c.cpf)
      ensures editingId == EditTarget(c) && modalOpen
      ensures clients == old(clients) && confirmOpen == old(confirmOpen)
      ensures toDelete == old(toDelete) && currentPage == old(currentPage)
    {
      form := ClienteForm(c.nome, c.telefone, c.cpf);
      editingId := EditTarget(c);
      modalOpen := true;
    }

    /** The modal's close button: nothing but the modal changes. */
    method CloseModal()
      requires Valid()
      modifies this
      ensures Valid()
      ensures !modalOpen
      ensures clients == old(clients) && form == old(form) && editingId == old(editingId)
      ensures confirmOpen == old(confirmOpen) && toDelete == old(toDelete) && currentPage == old(currentPage)
    {
      modalOpen := false;
    }

    /** The `onChange` of one input: `setForm({ ...form, [campo]: value })`,
        which replaces that field and keeps the other two. */
    method Change(campo: Campo, value: string)
      requires Valid()
      modifies this
      ensures Valid()
      ensures form.nome == (if campo.Nome? then value else old(form.nome))
      ensures form.telefone == (if campo.Telefone? then value else old(form.telefone))
      ensures form.cpf == (if campo.Cpf? then value else old(form.cpf))
      ensures clients == old(clients) && editingId == old(editingId) && modalOpen == old(modalOpen)
      ensures confirmOpen == old(confirmOpen) && toDelete == old(toDelete) && currentPage == old(currentPage)
    {
      match campo
      case Nome => form := form.(nome := value);
      case Telefone => form := form.(telefone := value);
      case Cpf => form := form.(cpf := value);
    }

    /** `handleSubmit`: sends the form; only an ok reply clears the form, stops
        editing, closes the modal and asks for the list again (`refetch`). The
        three inputs are `required`, so the browser submits only a form whose
        fields are all filled in. */
    method Submit(response: Response) returns (request: HttpRequest<ClienteForm>, refetch: bool)
      requires Valid()
      requires form.nome != "" && form.telefone != "" && form.cpf != ""
      modifies this
      ensures Valid()
      ensures request == SubmitRequest(old(editingId), old(form))
      ensures refetch == response.IsOk()
      ensures response.IsOk() ==> form == EmptyForm && editingId == None && !modalOpen
      ensures !response.IsOk() ==>
        form == old(form) && editingId == old(editingId) && modalOpen == old(modalOpen)
      ensures clients == old(clients) && confirmOpen == old(confirmOpen)
      ensures toDelete == old(toDelete) && currentPage == old(currentPage)
    {
      request := SubmitRequest(editingId, form);
      refetch := false;
      if response.IsOk() {
        form := EmptyForm;
        editingId := None;
        modalOpen := false;
        refetch := true;
      }
    }

    /** The delete button of a row. */
    method AskDelete(c: Cliente)
      requires Valid()
      modifies this
      ensures Valid()
      ensures toDelete == Some(c) && confirmOpen
      ensures clients == old(clients) && form == old(form) && editingId == old(editingId)
      ensures modalOpen == old(modalOpen) && currentPage == old(currentPage)
    {
      toDelete := Some(c);
      confirmOpen := true;
    }

    /** "Cancelar": hides the confirmation and keeps the chosen client. */
    method CancelDelete()
      requires Valid()
      modifies this
      ensures Valid()
      ensures !confirmOpen
      ensures toDelete == old(toDelete) && clients == old(clients) && form == old(form)
      ensures editingId == old(editingId) && modalOpen == old(modalOpen) && currentPage == old(currentPage)
    {
      confirmOpen := false;
    }

    /** `confirmarExclusao`: without an id nothing is sent and nothing changes.
        Otherwise a DELETE is sent; once it settles, whatever its status, the
        target is cleared, the confirmation closed and the list fetched again.
        A rejected request throws and changes nothing. */
    method ConfirmDelete(response: Response) returns (request: Option<HttpRequest<ClienteForm>>, refetch: bool)
      requires Valid()
      modifies this
      ensures Valid()
      ensures var id := if old(toDelete).Some? then old(toDelete).value.id else None;
        request == if id.Some? && Truthy(id.value) then Some(HttpRequest(Delete, ClientesUrl + "/" + id.value, None)) else None
      ensures refetch <==> request.Some? && response.Resolved?
      ensures refetch ==> toDelete == None && !confirmOpen
      ensures !refetch ==> toDelete == old(toDelete) && confirmOpen == old(confirmOpen)
      ensures clients == old(clients) && form == old(form) && editingId == old(editingId)
      ensures modalOpen == old(modalOpen) && currentPage == old(currentPage)
    {
      request := None;
      refetch := false;
      if toDelete.Some? && toDelete.value.id.Some? && Truthy(toDelete.value.id.value) {
        request := Some(HttpRequest(Delete, ClientesUrl + "/" + toDelete.value.id.value, None));
        if response.Resolved? {
          toDelete := None;
          confirmOpen := false;
          refetch := true;
        }
      }
    }

    /** Button `i + 1` of the pager, one for each page that exists. */
    method GoToPage(i: nat)
      requires Valid()
      requires i < TotalPages(|clients|)
      modifies this
      ensures Valid()
      ensures currentPage == i + 1 && currentPage <= TotalPages(|clients|)
      ensures 0 < |Shown()|
      ensures clients == old(clients) && form == old(form) && editingId == old(editingId)
      ensures modalOpen == old(modalOpen) && confirmOpen == old(confirmOpen) && toDelete == old(toDelete)
    {
      currentPage := i + 1;
    }
  }
}
