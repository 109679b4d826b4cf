/** The client data hooks: `useClients` turns backend rows into `Client`
    records, and `useAddClient`, `useUpdateClient` and `useDeleteClient` build
    the backend write and settle its outcome on the "clients" query key. */
module ClientsHook {
  import opened Wrappers
  import opened JsText
  import opened Domain
  import opened HookEffects

  const ClientsKey := "clients"

  /** A row of the `clients` table; every column but the key may be null. */
  datatype ClientRow = ClientRow(id: int, name: Option<string>, email: Option<string>,
                                 phone: Option<string>, notes: Option<string>)

  /** The view model of one row. Every field is a string, `notes` included,
      and the identifier reads back to the row's key. */
  function ToClient(row: ClientRow): (c: Client)
    ensures c.id == NumberToString(row.id) && ParseInt(c.id) == Some(row.id)
    ensures c.name == OrEmpty(row.name) && c.email == OrEmpty(row.email)
    ensures c.phone == OrEmpty(row.phone)
    ensures c.notes == Some(OrEmpty(row.notes))
  {
    ParseIntNumberToString(row.id);
    Client(NumberToString(row.id), OrEmpty(row.name), OrEmpty(row.email), OrEmpty(row.phone),
           Some(OrEmpty(row.notes)))
  }

  /** The query function of `useClients`: a read error is rethrown, so no
      partial list is ever produced; otherwise every row is mapped, in the
      order the backend returned them. */
  function FetchClients(resp: ReadResponse<ClientRow>): (r: Result<seq<Client>, string>)
    ensures r.Err? <==> resp.ReadError?
    ensures resp.ReadError? ==> r.error == resp.message
    ensures resp.Rows? ==> |r.value| == |resp.rows|
    ensures resp.Rows? ==> forall i :: 0 <= i < |resp.rows| ==> r.value[i] == ToClient(resp.rows[i])
  {
    match resp
    case ReadError(e) => Err(e)
    case Rows(rows) => Ok(seq(|rows|, i requires 0 <= i < |rows| => ToClient(rows[i])))
  }

  // ---------------------------------------------------------------------------
  // Writes
  // ---------------------------------------------------------------------------

  /** The backend call a client mutation makes. `None` as a target is `NaN`,
      what `parseInt` yields on an identifier with no leading digits. */
  datatype ClientWrite =
    | Insert(row: ClientData)
    | Update(target: Option<int>, patch: ClientData)
    | Delete(target: Option<int>)

  /** `useAddClient`: the submitted data is inserted as it is. */
  function AddClientRequest(data: ClientData): (w: ClientWrite)
    ensures w.Insert? && w.row == data
  {
    Insert(data)
  }

  /** `useUpdateClient`: everything but `id` is sent, filtered on `parseInt(id)`. */
  function UpdateClientRequest(c: Client): (w: ClientWrite)
    ensures w.Update? && w.patch == c.Data() && w.target == ParseInt(c.id)
  {
    Update(ParseInt(c.id), c.Data())
  }

  /** `useDeleteClient`: filtered on `parseInt(id)`. */
  function DeleteClientRequest(id: string): (w: ClientWrite)
    ensures w.Delete? && w.target == ParseInt(id)
  {
    Delete(ParseInt(id))
  }

  /** Editing a client that was read from a row updates exactly that row and
      sends the edited fields unchanged. */
  lemma UpdateTargetsReadRow(row: ClientRow, edited: ClientData)
    ensures UpdateClientRequest(WithId(edited, ToClient(row).id)) == Update(Some(row.id), edited)
  {
  }

  /** Deleting a client that was read from a row targets exactly that row. */
  lemma DeleteTargetsReadRow(row: ClientRow)
    ensures DeleteClientRequest(ToClient(row).id) == Delete(Some(row.id))
  {
  }

  // ---------------------------------------------------------------------------
  // Outcomes
  // ---------------------------------------------------------------------------

  datatype ClientOp = AddClient | UpdateClient | DeleteClient

  function ClientMutation(op: ClientOp): Mutation {
    match op
    case AddClient =>
      Mutation(ClientsKey, "Cliente agregado", "El cliente se ha registrado exitosamente.",
               "No se pudo agregar el cliente. Inténtalo de nuevo.")
    case UpdateClient =>
      Mutation(ClientsKey, "Cliente actualizado", "Los datos del cliente se han actualizado exitosamente.",
               "No se pudo actualizar el cliente. Inténtalo de nuevo.")
    case DeleteClient =>
      Mutation(ClientsKey, "Cliente eliminado", "El cliente se ha eliminado exitosamente.",
               "No se pudo eliminar el cliente. Inténtalo de nuevo.")
  }

  /** `onSuccess` / `onError` of the three client mutation hooks. */
  function SettleClient(ui: Ui, op: ClientOp, outcome: Outcome): (r: Ui)
    ensures |r.toasts| == |ui.toasts| + 1 && r.toasts[..|ui.toasts|] == ui.toasts
    ensures outcome.Success? ==> r.stale == ui.stale + {"clients"} && !r.toasts[|ui.toasts|].destructive
    ensures outcome.Success? && op == AddClient ==> r.toasts[|ui.toasts|].title == "Cliente agregado"
    ensures outcome.Success? && op == UpdateClient ==> r.toasts[|ui.toasts|].title == "Cliente actualizado"
    ensures outcome.Success? && op == DeleteClient ==> r.toasts[|ui.toasts|].title == "Cliente eliminado"
    ensures outcome.Failure? ==> r.stale == ui.stale
    ensures outcome.Failure? ==> r.toasts[|ui.toasts|].title == "Error" && r.toasts[|ui.toasts|].destructive
  {
    Settle(ui, ClientMutation(op), outcome)
  }

  /** A client mutation never marks the appointments stale, even though
      appointments show a copy of the client's name. */
  lemma ClientMutationKeepsAppointments(ui: Ui, op: ClientOp, outcome: Outcome)
    ensures "appointments" in SettleClient(ui, op, outcome).stale <==> "appointments" in ui.stale
  {
  }
}
