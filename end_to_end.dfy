/** How the form and the route fit together: the form sends its five fields
    as strings, and it reads the route's reply as the outcome of its
    request. */
module EndToEnd {
  import opened Wrappers
  import opened Text
  import opened ContactApi
  import opened ContactForm

  /** The body `JSON.stringify(formData)` carries: all five fields, present,
      so the route's presence check passes exactly when no field is empty. */
  function RequestOf(form: FormData): (req: ContactRequest)
    ensures AllFieldsPresent(req) <==> forall f :: form.Get(f) != ""
  {
    assert form.Get(Nombre) == form.nombre && form.Get(Empresa) == form.empresa
        && form.Get(Email) == form.email && form.Get(Telefono) == form.telefono
        && form.Get(Mensaje) == form.mensaje;
    ContactRequest(Some(form.nombre), Some(form.empresa), Some(form.email),
                   Some(form.telefono), Some(form.mensaje))
  }

  /** What the form reads from a reply: `response.ok` holds for a 2xx
      status, and the body's `success` and `error` fields. Every reply of
      the route is an answer; it carries an error text exactly when it is a
      failure. */
  function AnswerOf(reply: Reply): (a: FetchOutcome)
    ensures a.Answered?
    ensures a.success <==> reply.body.Created?
    ensures a.error.Some? <==> reply.body.Failed?
  {
    Answered(200 <= reply.status < 300, reply.body.Success(),
             if reply.body.Failed? then Some(reply.body.error) else None)
  }

  /** A form that passes its own checks is never turned away by the route's
      presence check: each check implies its field is non-empty. */
  lemma ValidFormPassesPresenceCheck(form: FormData)
    requires FormValid(form)
    ensures AllFieldsPresent(RequestOf(form))
  {
    forall f
      ensures form.Get(f) != ""
    {
      assert Passes(form, f);
    }
  }

  /** The route's 201 reply reads as a success; its 400 and 500 replies read
      as failures whose text the form shows as it is, since neither text is
      empty. */
  lemma RepliesAsShown(reply: Reply, id: nat)
    requires reply == Reply(201, Created(CreatedMessage, id))
          || reply == Reply(400, Failed(MissingFieldsError))
          || reply == Reply(500, Failed(InternalError))
    ensures var a := AnswerOf(reply);
            && (a.ok && a.success <==> reply.status == 201)
            && (reply.body.Failed? ==> ServerErrorText(a.error) == reply.body.error)
  {
  }
}
