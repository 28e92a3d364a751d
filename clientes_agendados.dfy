/** The scheduled-clients page (`src/pages/ClientesAgendados.tsx`): a list kept
    only in the page, which starts with three sample clients and grows by one
    at each complete submission of a modal form. */
module ClientesAgendados {

  datatype ClienteAgendado = ClienteAgendado(nome: string, telefone: string, cpf: string)

  const EmptyAgendadoForm: ClienteAgendado := ClienteAgendado("", "", "")

  /** The sample list the page starts with. */
  const InitialClientes: seq<ClienteAgendado> := [
    ClienteAgendado("Ana Maria", "(11) 97654-0988", "123.456.789-00"),
    ClienteAgendado("Joyce", "(11) 97654-0988", "123.456.789-00"),
    ClienteAgendado("Fernanda", "(11) 97654-0988", "123.456.789-00")
  ]

  /** The `name` attributes of the form's inputs. */
  const AgendadoFieldNames: seq<string> := ["nome", "telefone", "cpf"]

  /** `formData.nome && formData.telefone && formData.cpf`. */
  predicate Complete(c: ClienteAgendado) {
    c.nome != "" && c.telefone != "" && c.cpf != ""
  }

  /** The value of the field called `name`. */
  function AgendadoField(c: ClienteAgendado, name: string): string
    requires name in AgendadoFieldNames
  {
    if name == "nome" then c.nome else if name == "telefone" then c.telefone else c.cpf
  }

  /** `{ ...prev, [name]: value }`: the named field takes `value`, the others
      keep theirs. */
  function WithAgendadoField(c: ClienteAgendado, name: string, value: string): (r: ClienteAgendado)
    requires name in AgendadoFieldNames
    ensures AgendadoField(r, name) == value
    ensures forall n :: n in AgendadoFieldNames && n != name ==> AgendadoField(r, n) == AgendadoField(c, n)
  {
    if name == "nome" then c.(nome := value)
    else if name == "telefone" then c.(telefone := value)
    else c.(cpf := value)
  }

  class ClientesAgendadosPage {
    var clientes: seq<ClienteAgendado>
    var formData: ClienteAgendado
    var showModal: bool

    /** Every listed client has all three fields filled in. */
    predicate Valid()
      reads this
    {
      forall i :: 0 <= i < |clientes| ==> Complete(clientes[i])
    }

    constructor()
      ensures Valid()
      ensures clientes == InitialClientes && |clientes| == 3
      ensures formData == EmptyAgendadoForm && !showModal
    {
      clientes := InitialClientes;
      formData := EmptyAgendadoForm;
      showModal := false;
    }

    /** `handleChange` for the input called `name`. */
    method Change(name: string, value: string)
      requires Valid()
      requires name in AgendadoFieldNames
      modifies this
      ensures Valid()
      ensures formData == WithAgendadoField(old(formData), name, value)
      ensures clientes == old(clientes) && showModal == old(showModal)
    {
      formData := WithAgendadoField(formData, name, value);
    }

    /** The floating "+" button. */
    method Open()
      requires Valid()
      modifies this
      ensures Valid()
      ensures showModal
      ensures clientes == old(clientes) && formData == old(formData)
    {
      showModal := true;
    }

    /** "Cancelar": hides the modal and keeps what was typed. */
    method Cancel()
      requires Valid()
      modifies this
      ensures Valid()
      ensures !showModal
      ensures clientes == old(clientes) && formData == old(formData)
    {
      showModal := false;
    }

    /** `handleSubmit`: a complete form is appended at the end of the list,
        after which the form is emptied and the modal closed; an incomplete
        one changes nothing. */
    method Submit() returns (accepted: bool)
      requires Valid()
      modifies this
      ensures Valid()
      ensures accepted <==> Complete(old(formData))
      ensures accepted ==> clientes == old(clientes) + [old(formData)] && formData == EmptyAgendadoForm && !showModal
      ensures !accepted ==> clientes == old(clientes) && formData == old(formData) && showModal == old(showModal)
    {
      accepted := Complete(formData);
      if accepted {
        clientes := clientes + [formData];
        formData := EmptyAgendadoForm;
        showModal := false;
      }
    }
  }
}
