/** The records the application shows and edits: clients, the data a client
    form submits, and the three appointment states. */
module Domain {
  import opened Wrappers

  /** The appointment states. Their lower-case literals are what the
      `appointments.status` column stores and what the forms submit. */
  datatype Status = Pendiente | Confirmado | Realizado

  function StatusLiteral(st: Status): string {
    match st
    case Pendiente => "pendiente"
    case Confirmado => "confirmado"
    case Realizado => "realizado"
  }

  /** Recognises exactly the three literals of the status enum. */
  function ParseStatus(s: string): (r: Option<Status>)
    ensures r.Some? <==> s == "pendiente" || s == "confirmado" || s == "realizado"
    ensures r.Some? ==> StatusLiteral(r.value) == s
  {
    if s == "pendiente" then Some(Pendiente)
    else if s == "confirmado" then Some(Confirmado)
    else if s == "realizado" then Some(Realizado)
    else None
  }

  lemma StatusLiteralRoundTrip(st: Status)
    ensures ParseStatus(StatusLiteral(st)) == Some(st)
  {
  }

  /** What a client form submits: every client field but the identifier.
      `notes` is optional (`None` is `undefined`). */
  datatype ClientData = ClientData(name: string, email: string, phone: string, notes: Option<string>)

  /** A client as the views hold it; `id` is the string form of the numeric
      key (or of the timestamp the in-memory page uses). */
  datatype Client = Client(id: string, name: string, email: string, phone: string, notes: Option<string>) {

    /** The client without its identifier (`Omit<Client, "id">`). */
    function Data(): ClientData {
      ClientData(name, email, phone, notes)
    }
  }

  /** `{ ...data, id }`: the submitted fields under the given identifier. */
  function WithId(data: ClientData, id: string): (c: Client)
    ensures c.id == id && c.Data() == data
  {
    Client(id, data.name, data.email, data.phone, data.notes)
  }

  /** One failed rule of a form schema: the field and the message shown under
      it (`None` when the schema relies on the validation library's default). */
  datatype Issue = Issue(field: string, message: Option<string>)
}
