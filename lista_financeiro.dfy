/** The finance list page (`src/pages/ListaFinanceiro.tsx`): a list of entries,
    a status filter over it and deletion by id. The page replaces its list and
    its filter wholesale, so both operations are functions from the old list to
    the new one. */
module ListaFinanceiro {
  import opened Common
  import opened Seqs

  /** A finance entry as this page reads it; `status` is declared as
      `"Entrada" | "Saída"` but arrives from the backend unchecked. */
  datatype Lancamento = Lancamento(
    id: string,
    descricao: string,
    tipo: string,
    valor: string,
    categoria: string,
    status: string)

  const Entrada: string := "Entrada"
  const Saida: string := "Saída"

  /** The three filter buttons. */
  datatype Filtro = Todos | Entradas | Saidas {
    /** The status a status filter selects. */
    function Label(): string
      requires !Todos?
    {
      if Entradas? then Entrada else Saida
    }
  }

  /** `filtro === "todos" ? true : item.status === filtro`. */
  function Shows(filtro: Filtro): Lancamento -> bool {
    (item: Lancamento) => if filtro.Todos? then true else item.status == filtro.Label()
  }

  /** `filtrados`: the entries the current filter lets through, in list order. */
  function Visible(lista: seq<Lancamento>, filtro: Filtro): (r: seq<Lancamento>)
    ensures |r| <= |lista|
    ensures !filtro.Todos? ==> forall i :: 0 <= i < |r| ==> r[i].status == filtro.Label()
    ensures !filtro.Todos? ==> forall x :: multiset(r)[x] == if x.status == filtro.Label() then multiset(lista)[x] else 0
  {
    FilterMultiset(lista, Shows(filtro));
    Filter(lista, Shows(filtro))
  }

  /** With "Todos" the whole list is shown. */
  lemma VisibleAll(lista: seq<Lancamento>)
    ensures Visible(lista, Todos) == lista
  {
    FilterKeepsAll(lista, Shows(Todos));
  }

  /** The shown entries keep the list's order: the view of a concatenation is
      the concatenation of the views. */
  lemma VisibleKeepsOrder(a: seq<Lancamento>, b: seq<Lancamento>, filtro: Filtro)
    ensures Visible(a + b, filtro) == Visible(a, filtro) + Visible(b, filtro)
  {
    FilterConcat(a, b, Shows(filtro));
  }

  /** When every status is "Entrada" or "Saída", the two status views split the
      list: every entry lands in exactly one of them, as often as in the list. */
  lemma EntradasSaidasPartition(lista: seq<Lancamento>)
    requires forall i :: 0 <= i < |lista| ==> lista[i].status == Entrada || lista[i].status == Saida
    ensures multiset(Visible(lista, Entradas)) + multiset(Visible(lista, Saidas)) == multiset(lista)
    ensures |Visible(lista, Entradas)| + |Visible(lista, Saidas)| == |lista|
  {
    var e, s := Visible(lista, Entradas), Visible(lista, Saidas);
    assert Entrada != Saida by {
      assert Entrada[0] != Saida[0];
    }
    forall x ensures (multiset(e) + multiset(s))[x] == multiset(lista)[x] {
      if x in multiset(lista) {
        var i :| 0 <= i < |lista| && lista[i] == x;
      }
    }
    assert multiset(e) + multiset(s) == multiset(lista);
    assert |multiset(e) + multiset(s)| == |multiset(lista)|;
  }

  /** `lista.filter(item => item.id !== id)`. */
  function WithoutId(lista: seq<Lancamento>, id: string): seq<Lancamento> {
    Filter(lista, (item: Lancamento) => item.id != id)
  }

  /** What `excluirLancamento(id)` does: the request it sends, and the list
      once that request settled. */
  datatype Deletion = Deletion(request: HttpRequest<Lancamento>, lista: seq<Lancamento>)

  /** `excluirLancamento(id)`: sends DELETE `/financeiro/{id}` with no body; an
      ok reply then removes every entry with that same id and keeps the rest,
      while an error status or a rejected request leaves the list as it was. */
  function ExcluirLancamento(lista: seq<Lancamento>, id: string, response: Response): (r: Deletion)
    ensures r.request.verb == Delete && r.request.body == None
    ensures r.request.url == ApiBase + "/financeiro/" + id
    ensures response.IsOk() ==> forall i :: 0 <= i < |r.lista| ==> r.lista[i].id != id
    ensures response.IsOk() ==> forall x :: multiset(r.lista)[x] == if x.id == id then 0 else multiset(lista)[x]
    ensures !response.IsOk() ==> r.lista == lista
  {
    FilterMultiset(lista, (item: Lancamento) => item.id != id);
    Deletion(HttpRequest(Delete, ApiBase + "/financeiro/" + id, None),
             if response.IsOk() then WithoutId(lista, id) else lista)
  }

  /** Deleting keeps the other entries in their order, and deleting an id that
      no entry has changes nothing. */
  lemma DeleteKeepsOthers(a: seq<Lancamento>, b: seq<Lancamento>, id: string, response: Response)
    ensures ExcluirLancamento(a + b, id, response).lista ==
      ExcluirLancamento(a, id, response).lista + ExcluirLancamento(b, id, response).lista
    ensures (forall i :: 0 <= i < |a| ==> a[i].id != id) ==> ExcluirLancamento(a, id, response).lista == a
  {
    var keep := (item: Lancamento) => item.id != id;
    FilterConcat(a, b, keep);
    if forall i :: 0 <= i < |a| ==> a[i].id != id {
      FilterKeepsAll(a, keep);
    }
  }
}
