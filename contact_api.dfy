/** The contact record of the service and its `POST /api/contact` route
    (backend/server.js): a presence check on the five form fields, one
    insertion into the contact store, and a reply of 400, 201 or 500. */
module ContactApi {
  import opened Wrappers

  /** The request body as the route reads it: each of the five fields may
      be missing. */
  datatype ContactRequest = ContactRequest(
    nombre: Option<string>,
    empresa: Option<string>,
    email: Option<string>,
    telefono: Option<string>,
    mensaje: Option<string>)

  /** JavaScript truthiness of a string field: the only falsy values a
      string field can take are a missing field and the empty string. */
  function Truthy(field: Option<string>): (b: bool)
    ensures !b <==> field == None || field == Some("")
  {
    field.Some? && field.value != ""
  }

  /** The route's guard `!nombre || !empresa || !email || !telefono || !mensaje`,
      negated: every field is present and non-empty, so the route reads a
      non-empty string from each. */
  function AllFieldsPresent(req: ContactRequest): (b: bool)
    ensures b ==> && req.nombre.Some? && req.empresa.Some? && req.email.Some?
                  && req.telefono.Some? && req.mensaje.Some?
    ensures b ==> && req.nombre.value != "" && req.empresa.value != "" && req.email.value != ""
                  && req.telefono.value != "" && req.mensaje.value != ""
  {
    && Truthy(req.nombre) && Truthy(req.empresa) && Truthy(req.email)
    && Truthy(req.telefono) && Truthy(req.mensaje)
  }

  /** The values the schema admits for `estado`, and its default. */
  const Estados: seq<string> := ["nuevo", "contactado", "cerrado"]
  const DefaultEstado: string := "nuevo"

  /** A stored contact. `id` stands for the document identifier that is
      assigned when the document is built; `fechaCreacion` is the clock
      reading taken at the same moment. */
  datatype Contact = Contact(
    id: nat,
    nombre: string,
    empresa: string,
    email: string,
    telefono: string,
    mensaje: string,
    fechaCreacion: int,
    estado: string,
    ip: string)

  /** The schema's validators: the five required strings are non-empty and
      `estado` is one of the three admitted values. */
  function SchemaValid(c: Contact): (b: bool)
    ensures b ==> c.estado == "nuevo" || c.estado == "contactado" || c.estado == "cerrado"
    ensures b ==> c.nombre != [] && c.mensaje != []
  {
    && c.nombre != "" && c.empresa != "" && c.email != ""
    && c.telefono != "" && c.mensaje != ""
    && c.estado in Estados
  }

  const MissingFieldsError: string := "Todos los campos son obligatorios"
  const CreatedMessage: string := "Mensaje enviado correctamente. Te contactaremos pronto."
  const InternalError: string := "Error interno del servidor. Intenta nuevamente más tarde."

  /** The JSON body of a reply: `{success: true, message, contactId}` or
      `{success: false, error}`. */
  datatype ReplyBody =
    | Created(message: string, contactId: nat)
    | Failed(error: string)
  {
    predicate Success() { Created? }
  }

  datatype Reply = Reply(status: nat, body: ReplyBody)

  /** The contacts collection, as far as the route sees it. */
  class ContactStore {
    var contacts: seq<Contact>
    var nextId: nat

    /** Every stored contact passed the schema and has an identifier of its
        own, below the next one to be handed out. */
    ghost predicate Valid()
      reads this
    {
      && (forall i :: 0 <= i < |contacts| ==> SchemaValid(contacts[i]) && contacts[i].id < nextId)
      && (forall i, j :: 0 <= i < j < |contacts| ==> contacts[i].id != contacts[j].id)
    }

    constructor ()
      ensures Valid() && contacts == [] && nextId == 0
    {
      contacts := [];
      nextId := 0;
    }

    /** The route body. `ip` is the request address; `now` is the clock
        reading; `storageUp` says whether the save reaches the database
        (when it does not, the save throws and the catch block answers).
        A missing field is answered with 400 and nothing is built; otherwise
        a document is built (taking an identifier), and it is either saved
        and answered with 201, or the save fails and the answer is 500. */
    method HandleContact(req: ContactRequest, ip: string, now: int, storageUp: bool)
        returns (reply: Reply)
      requires Valid()
      modifies this
      ensures Valid()
      ensures !AllFieldsPresent(req) ==>
        && reply == Reply(400, Failed(MissingFieldsError))
        && contacts == old(contacts) && nextId == old(nextId)
      ensures AllFieldsPresent(req) && !storageUp ==>
        && reply == Reply(500, Failed(InternalError))
        && contacts == old(contacts)
      ensures AllFieldsPresent(req) && storageUp ==>
        && reply == Reply(201, Created(CreatedMessage, old(nextId)))
        && contacts == old(contacts) + [Contact(old(nextId), req.nombre.value, req.empresa.value,
                                                req.email.value, req.telefono.value, req.mensaje.value,
                                                now, DefaultEstado, ip)]
      ensures reply.body.Success() ==>
        forall i :: 0 <= i < |old(contacts)| ==> old(contacts)[i].id != reply.body.contactId
    {
      if !AllFieldsPresent(req) {
        return Reply(400, Failed(MissingFieldsError));
      }
      var contact := Contact(nextId, req.nombre.value, req.empresa.value, req.email.value,
                             req.telefono.value, req.mensaje.value, now, DefaultEstado, ip);
      nextId := nextId + 1;
      if !storageUp {
        return Reply(500, Failed(InternalError));
      }
      contacts := contacts + [contact];
      reply := Reply(201, Created(CreatedMessage, contact.id));
    }
  }

  /** A contact the route builds passes the schema's validators: the
      presence check is at least as strict as `required`, and the default
      `estado` is an admitted value. */
  lemma BuiltContactSchemaValid(req: ContactRequest, id: nat, ip: string, now: int)
    requires AllFieldsPresent(req)
    ensures SchemaValid(Contact(id, req.nombre.value, req.empresa.value, req.email.value,
                                req.telefono.value, req.mensaje.value, now, DefaultEstado, ip))
  {
  }
}
