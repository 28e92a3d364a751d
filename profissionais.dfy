/** The professionals page (`src/pages/Profissionais.tsx`): an eight-field
    registration form, shown and hidden by a toggle button, whose submission is
    checked for four required fields before it is sent. */
module Profissionais {
  import opened Common

  /** `formData`: every field is a string. */
  datatype ProfForm = ProfForm(
    nome: string,
    email: string,
    senha: string,
    cargo: string,
    horario: string,
    servicos: string,
    perfil: string,
    telefone: string)

  const EmptyProfForm: ProfForm := ProfForm("", "", "", "", "", "", "", "")

  /** The `name` attributes of the form's inputs. */
  const FieldNames: seq<string> := ["nome", "email", "senha", "cargo", "horario", "servicos", "perfil", "telefone"]

  /** `camposObrigatorios`. */
  const RequiredFields: seq<string> := ["nome", "email", "senha", "cargo"]

  const ProfissionaisUrl: string := ApiBase + "/profissionais"

  /** `(formData as any)[name]`: the field's value, absent for a name the form does not have. */
  function FieldValue(form: ProfForm, name: string): Option<string> {
    match name
    case "nome" => Some(form.nome)
    case "email" => Some(form.email)
    case "senha" => Some(form.senha)
    case "cargo" => Some(form.cargo)
    case "horario" => Some(form.horario)
    case "servicos" => Some(form.servicos)
    case "perfil" => Some(form.perfil)
    case "telefone" => Some(form.telefone)
    case _ => None
  }

  /** `!value`: an absent value and the empty string are falsy. */
  predicate Falsy(v: Option<string>) {
    v.None? || v.value == ""
  }

  /** `names.some(campo => !formData[campo])`, scanning from the first name. */
  function SomeFalsy(form: ProfForm, names: seq<string>): (b: bool)
    ensures b <==> exists i :: 0 <= i < |names| && Falsy(FieldValue(form, names[i]))
  {
    if names == [] then false
    else if Falsy(FieldValue(form, names[0])) then true
    else
      var rest := SomeFalsy(form, names[1..]);
      assert (exists i :: 1 <= i < |names| && Falsy(FieldValue(form, names[i]))) ==> rest by {
        if exists i :: 1 <= i < |names| && Falsy(FieldValue(form, names[i])) {
          var i :| 1 <= i < |names| && Falsy(FieldValue(form, names[i]));
          assert names[1..][i - 1] == names[i];
        }
      }
      rest
  }

  /** `algumVazio`. */
  function AnyEmpty(form: ProfForm): bool {
    SomeFalsy(form, RequiredFields)
  }

  /** Validation fails exactly when nome, email, senha or cargo is empty. */
  lemma AnyEmptyIffRequiredEmpty(form: ProfForm)
    ensures AnyEmpty(form) <==> form.nome == "" || form.email == "" || form.senha == "" || form.cargo == ""
  {
    if form.nome == "" || form.email == "" || form.senha == "" || form.cargo == "" {
      var i := if form.nome == "" then 0 else if form.email == "" then 1 else if form.senha == "" then 2 else 3;
      assert Falsy(FieldValue(form, RequiredFields[i]));
    }
  }

  /** horario, servicos, perfil and telefone never decide validation: any
      values in them give the same verdict. */
  lemma OptionalFieldsNeverRequired(form: ProfForm, horario: string, servicos: string, perfil: string, telefone: string)
    ensures AnyEmpty(form.(horario := horario, servicos := servicos, perfil := perfil, telefone := telefone)) == AnyEmpty(form)
  {
    AnyEmptyIffRequiredEmpty(form);
    AnyEmptyIffRequiredEmpty(form.(horario := horario, servicos := servicos, perfil := perfil, telefone := telefone));
  }

  /** The request `handleSubmit` sends for `form`, or none when validation
      fails. A form that passes validation has an email, so every request is a
      PATCH on `/profissionais/{email}`: the POST branch is never taken. */
  function RequestFor(form: ProfForm): (r: Option<HttpRequest<ProfForm>>)
    ensures r.None? <==> form.nome == "" || form.email == "" || form.senha == "" || form.cargo == ""
    ensures r.Some? ==> r.value == HttpRequest(Patch, ProfissionaisUrl + "/" + form.email, Some(form))
  {
    AnyEmptyIffRequiredEmpty(form);
    if AnyEmpty(form) then None
    else if Truthy(form.email) then Some(HttpRequest(Patch, ProfissionaisUrl + "/" + form.email, Some(form)))
    else Some(HttpRequest(Post, ProfissionaisUrl, Some(form)))
  }

  /** `{ ...prev, [name]: value }` for one of the form's input names. */
  function WithField(form: ProfForm, name: string, value: string): (r: ProfForm)
    requires name in FieldNames
    ensures FieldValue(r, name) == Some(value)
    ensures forall n :: n != name ==> FieldValue(r, n) == FieldValue(form, n)
  {
    match name
    case "nome" => form.(nome := value)
    case "email" => form.(email := value)
    case "senha" => form.(senha := value)
    case "cargo" => form.(cargo := value)
    case "horario" => form.(horario := value)
    case "servicos" => form.(servicos := value)
    case "perfil" => form.(perfil := value)
    case _ => form.(telefone := value)
  }

  /** The page's form state. */
  class ProfissionaisPage {
    var formData: ProfForm
    var showForm: bool

    constructor()
      ensures formData == EmptyProfForm && !showForm
    {
      formData := EmptyProfForm;
      showForm := false;
    }

    /** `handleChange` for the input called `name`. */
    method Change(name: string, value: string)
      requires name in FieldNames
      modifies this
      ensures formData == WithField(old(formData), name, value)
      ensures showForm == old(showForm)
    {
      formData := WithField(formData, name, value);
    }

    /** The "Novo Profissional"/"Cancelar" button. */
    method Toggle()
      modifies this
      ensures showForm == !old(showForm)
      ensures formData == old(formData)
    {
      showForm := !showForm;
    }

    /** `handleSubmit`: an invalid form sends nothing and changes nothing; an
        ok reply resets all eight fields and hides the form, and asks for the
        list again (`refetch`); an error status or a rejected request leaves
        the form as it was. */
    method Submit(response: Response) returns (request: Option<HttpRequest<ProfForm>>, refetch: bool)
      modifies this
      ensures request == RequestFor(old(formData))
      ensures refetch <==> request.Some? && response.IsOk()
      ensures refetch ==> formData == EmptyProfForm && !showForm
      ensures !refetch ==> formData == old(formData) && showForm == old(showForm)
    {
      request := RequestFor(formData);
      refetch := false;
      if request.None? {
        return;
      }
      if response.IsOk() {
        formData := EmptyProfForm;
        showForm := false;
        refetch := true;
      }
    }
  }
}
