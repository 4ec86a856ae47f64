/** The contact form of the marketing page
    (frontend/src/components/ZyphWebsite.js): the form state, the per-field
    checks run before sending, and the submit handler, whose network
    exchange is an input. */
module ContactForm {
  import opened Wrappers
  import opened Text
  import opened Validation

  datatype Field = Nombre | Empresa | Email | Telefono | Mensaje

  /** The place of each field in the order the checks run. */
  function Rank(f: Field): nat {
    match f
    case Nombre => 0
    case Empresa => 1
    case Email => 2
    case Telefono => 3
    case Mensaje => 4
  }

  datatype FormData = FormData(
    nombre: string,
    empresa: string,
    email: string,
    telefono: string,
    mensaje: string)
  {
    function Get(f: Field): string {
      match f
      case Nombre => nombre
      case Empresa => empresa
      case Email => email
      case Telefono => telefono
      case Mensaje => mensaje
    }

    /** `{...prev, [field]: value}`: `f` now reads `v`, every other field
        reads as before. */
    function With(f: Field, v: string): (r: FormData)
      ensures r.Get(f) == v
      ensures forall g :: g != f ==> r.Get(g) == Get(g)
    {
      match f
      case Nombre => this.(nombre := v)
      case Empresa => this.(empresa := v)
      case Email => this.(email := v)
      case Telefono => this.(telefono := v)
      case Mensaje => this.(mensaje := v)
    }
  }

  const EmptyForm: FormData := FormData("", "", "", "", "")

  const NombreError: string := "El nombre debe tener al menos 2 caracteres"
  const EmpresaError: string := "La empresa es obligatoria"
  const EmailError: string := "Email inválido"
  const TelefonoError: string := "Teléfono inválido"
  const MensajeError: string := "El mensaje debe tener al menos 10 caracteres"

  /** The five messages, in the order of the checks. */
  const ErrorMessages: seq<string> := [NombreError, EmpresaError, EmailError, TelefonoError, MensajeError]

  function ErrorMessage(f: Field): string {
    ErrorMessages[Rank(f)]
  }

  /** Whether a field passes its check. Lengths are those of the raw,
      untrimmed strings, counted in UTF-16 code units; the email and phone
      checks use the same patterns as the service's validators. No check
      lets an empty field through. */
  function Passes(form: FormData, f: Field): (b: bool)
    ensures b && f == Nombre ==> form.nombre != ""
    ensures b && f == Empresa ==> form.empresa != ""
    ensures b && f == Email ==> form.email != ""
    ensures b && f == Telefono ==> form.telefono != ""
    ensures b && f == Mensaje ==> form.mensaje != ""
  {
    match f
    case Nombre => !(Trim(form.nombre) == "" || Utf16Length(form.nombre) < 2)
    case Empresa => Trim(form.empresa) != ""
    case Email => ValidateEmail(form.email)
    case Telefono => ValidatePhone(form.telefono)
    case Mensaje => !(Trim(form.mensaje) == "" || Utf16Length(form.mensaje) < 10)
  }

  predicate FormValid(form: FormData) {
    forall f :: Passes(form, f)
  }

  /** The error list `validateForm` returns: the message of every failing
      check, each once, in the order nombre, empresa, email, telefono,
      mensaje; it is empty exactly when every check passes. */
  function FormErrors(form: FormData): (errors: seq<string>)
    ensures forall f :: ErrorMessage(f) in errors <==> !Passes(form, f)
    ensures forall i :: 0 <= i < |errors| ==> errors[i] in ErrorMessages
    ensures forall i, j :: 0 <= i < j < |errors| ==> MessageRank(errors[i]) < MessageRank(errors[j])
    ensures errors == [] <==> FormValid(form)
  {
    var errors := ErrorsBefore(form, 5);
    assert forall f :: Rank(f) < 5;
    assert ErrorMessages[..5] == ErrorMessages;
    assert errors != [] ==> ErrorMessage(FieldAt(MessageRank(errors[0]))) == errors[0];
    errors
  }

  /** The place of a message among the five. */
  function MessageRank(m: string): (k: nat)
    requires m in ErrorMessages
    ensures k < |ErrorMessages| && ErrorMessages[k] == m
  {
    if m == NombreError then 0
    else if m == EmpresaError then 1
    else if m == EmailError then 2
    else if m == TelefonoError then 3
    else 4
  }

  /** The messages of the failing checks ranked below `n`, in rank order. */
  function ErrorsBefore(form: FormData, n: nat): (errors: seq<string>)
    requires n <= 5
    ensures forall f :: ErrorMessage(f) in errors <==> Rank(f) < n && !Passes(form, f)
    ensures forall i :: 0 <= i < |errors| ==> errors[i] in ErrorMessages[..n]
    ensures forall i, j :: 0 <= i < j < |errors| ==> MessageRank(errors[i]) < MessageRank(errors[j])
  {
    if n == 0 then []
    else
      var f := FieldAt(n - 1);
      var errors := ErrorsBefore(form, n - 1);
      if Passes(form, f) then errors else errors + [ErrorMessage(f)]
  }

  function FieldAt(k: nat): (f: Field)
    requires k < 5
    ensures Rank(f) == k
  {
    if k == 0 then Nombre
    else if k == 1 then Empresa
    else if k == 2 then Email
    else if k == 3 then Telefono
    else Mensaje
  }

  /** `validateForm`: the checks run one after the other, each failing one
      pushing its message. */
  method ValidateForm(form: FormData) returns (errors: seq<string>)
    ensures errors == FormErrors(form)
  {
    errors := [];
    if Trim(form.nombre) == "" || Utf16Length(form.nombre) < 2 {
      errors := errors + [NombreError];
    }
    assert errors == ErrorsBefore(form, 1);
    if Trim(form.empresa) == "" {
      errors := errors + [EmpresaError];
    }
    assert errors == ErrorsBefore(form, 2);
    if !ValidateEmail(form.email) {
      errors := errors + [EmailError];
    }
    assert errors == ErrorsBefore(form, 3);
    if !ValidatePhone(form.telefono) {
      errors := errors + [TelefonoError];
    }
    assert errors == ErrorsBefore(form, 4);
    if Trim(form.mensaje) == "" || Utf16Length(form.mensaje) < 10 {
      errors := errors + [MensajeError];
    }
    assert errors == ErrorsBefore(form, 5);
  }

  /** The three text checks in terms of the raw strings: the name must not
      be all whitespace and must be at least two code units long, the company
      must not be all whitespace, and the message must not be all whitespace
      and must be at least ten code units long, with no upper bound on
      either length. */
  lemma TextChecks(form: FormData)
    ensures Passes(form, Nombre) <==> !AllWhitespace(form.nombre) && Utf16Length(form.nombre) >= 2
    ensures Passes(form, Empresa) <==> !AllWhitespace(form.empresa)
    ensures Passes(form, Mensaje) <==> !AllWhitespace(form.mensaje) && Utf16Length(form.mensaje) >= 10
  {
  }

  /** The name is measured before trimming: two spaces are long enough but
      trim to nothing and fail, while a space and a letter pass. */
  lemma NombreCheckExamples(form: FormData)
    ensures !Passes(form.With(Nombre, "  "), Nombre)
    ensures Passes(form.With(Nombre, " a"), Nombre)
  {
  }

  /** What the form shows while idle or after an exchange. */
  datatype StatusKind = Success | Error
  datatype SubmitStatus = SubmitStatus(kind: StatusKind, message: string)

  /** The outcome of the request, which the model receives as an input: the
      server answered (with the HTTP `ok` flag and the `success` and `error`
      fields of the JSON body), or the request or the reading of its body
      threw. */
  datatype FetchOutcome =
    | Answered(ok: bool, success: bool, error: Option<string>)
    | ConnectionFailed

  const SentText: string := "¡Mensaje enviado correctamente! Te contactaremos pronto."
  const DefaultErrorText: string := "Error al enviar el mensaje. Intenta nuevamente."
  const ConnectionErrorText: string := "Error de conexión. Verifica tu internet e intenta nuevamente."

  /** `result.error || default`: the server's error text unless it is
      missing or empty; the form never shows an empty error. */
  function ServerErrorText(error: Option<string>): (t: string)
    ensures t != ""
    ensures t == DefaultErrorText || error == Some(t)
    ensures error.Some? && error.value != "" ==> t == error.value
  {
    if error.Some? && error.value != "" then error.value else DefaultErrorText
  }

  /** The component's state: the five field values, the status line and the
      submitting flag. */
  class ContactFormState {
    var formData: FormData
    var submitStatus: Option<SubmitStatus>
    var isSubmitting: bool

    constructor ()
      ensures formData == EmptyForm && submitStatus == None && !isSubmitting
    {
      formData := EmptyForm;
      submitStatus := None;
      isSubmitting := false;
    }

    /** `handleInputChange`: one field takes the typed value, the other four
        keep theirs, and any status shown is cleared. */
    method HandleInputChange(field: Field, value: string)
      modifies this
      ensures formData == old(formData).With(field, value)
      ensures forall g :: g != field ==> formData.Get(g) == old(formData).Get(g)
      ensures formData.Get(field) == value
      ensures submitStatus == None
      ensures isSubmitting == old(isSubmitting)
    {
      formData := formData.With(field, value);
      if submitStatus.Some? {
        submitStatus := None;
      }
    }

    /** `handleSubmit`. If a check fails, the first error is shown and no
        request is made (`sent` is `None`); `formData` and `isSubmitting` are
        left alone. Otherwise the current form is sent (`sent` holds it) and
        `outcome` is what came back: a successful answer shows the success
        text and empties the form, any other answer shows the server's error
        text or the default one, a failed connection shows the connection
        error; on each of these paths the form is no longer submitting. */
    method HandleSubmit(outcome: FetchOutcome) returns (sent: Option<FormData>)
      modifies this
      ensures var errors := FormErrors(old(formData));
        errors != [] ==>
          && sent == None
          && submitStatus == Some(SubmitStatus(Error, errors[0]))
          && formData == old(formData)
          && isSubmitting == old(isSubmitting)
      ensures FormValid(old(formData)) ==> sent == Some(old(formData)) && !isSubmitting
      ensures FormValid(old(formData)) && outcome.Answered? && outcome.ok && outcome.success ==>
        && submitStatus == Some(SubmitStatus(Success, SentText))
        && formData == EmptyForm
      ensures FormValid(old(formData)) && outcome.Answered? && !(outcome.ok && outcome.success) ==>
        && submitStatus == Some(SubmitStatus(Error, ServerErrorText(outcome.error)))
        && formData == old(formData)
      ensures FormValid(old(formData)) && outcome.ConnectionFailed? ==>
        && submitStatus == Some(SubmitStatus(Error, ConnectionErrorText))
        && formData == old(formData)
    {
      var validationErrors := ValidateForm(formData);
      if |validationErrors| > 0 {
        submitStatus := Some(SubmitStatus(Error, validationErrors[0]));
        return None;
      }

      isSubmitting := true;
      submitStatus := None;
      sent := Some(formData);

      match outcome {
        case Answered(ok, success, error) =>
          if ok && success {
            submitStatus := Some(SubmitStatus(Success, SentText));
            formData := EmptyForm;
          } else {
            submitStatus := Some(SubmitStatus(Error, ServerErrorText(error)));
          }
        case ConnectionFailed =>
          submitStatus := Some(SubmitStatus(Error, ConnectionErrorText));
      }
      isSubmitting := false;
    }
  }
}
