/** The appointment data hooks: `useAppointments` turns backend rows (joined
    with the client's name) into `Appointment` records, and
    `useAddAppointment` and `useUpdateAppointmentStatus` build the backend
    write and settle its outcome on the "appointments" query key. */
module AppointmentsHook {
  import opened Wrappers
  import opened JsText
  import opened Domain
  import opened HookEffects
  import ClientsHook

  const AppointmentsKey := "appointments"

  /** Shown when an appointment has no joined client or the client has no name. */
  const UnknownClient := "Cliente desconocido"

  /** The `clients(name)` part of the joined select; null when no client matched. */
  datatype JoinedClient = JoinedClient(name: Option<string>)

  /** A row of the `appointments` table with its join. `status` is whatever
      string the column holds: the hook casts it without checking. */
  datatype AppointmentRow = AppointmentRow(id: int, date: Option<string>, time: Option<string>,
                                           clientId: Option<int>, client: Option<JoinedClient>,
                                           status: string)

  /** The view model of an appointment. `status` stays a plain string because
      the read path never validates it. */
  datatype Appointment = Appointment(id: string, date: string, time: string, clientId: string,
                                     clientName: string, status: string)

  /** `appointment.clients?.name || "Cliente desconocido"`. */
  function ClientName(join: Option<JoinedClient>): (name: string)
    ensures name != ""
    ensures join.Some? && join.value.name.Some? && join.value.name.value != "" ==>
              name == join.value.name.value
    ensures join.None? || join.value.name.None? || join.value.name.value == "" ==>
              name == UnknownClient
  {
    if join.Some? && join.value.name.Some? && join.value.name.value != "" then join.value.name.value
    else UnknownClient
  }

  /** `appointment.client_id?.toString() || ""`: the rendering of a number is
      never empty, so only a missing key gives "". */
  function ClientIdText(clientId: Option<int>): (s: string)
    ensures s == "" <==> clientId.None?
    ensures clientId.Some? ==> s == NumberToString(clientId.value)
    ensures clientId.Some? ==> ParseInt(s) == Some(clientId.value)
  {
    match clientId
    case None => ""
    case Some(n) => ParseIntNumberToString(n); NumberToString(n)
  }

  function ToAppointment(row: AppointmentRow): (a: Appointment)
    ensures a.id == NumberToString(row.id) && ParseInt(a.id) == Some(row.id)
    ensures a.date == OrEmpty(row.date) && a.time == OrEmpty(row.time)
    ensures a.clientId == ClientIdText(row.clientId)
    ensures a.clientName == ClientName(row.client) && a.clientName != ""
    ensures a.status == row.status
  {
    ParseIntNumberToString(row.id);
    Appointment(NumberToString(row.id), OrEmpty(row.date), OrEmpty(row.time),
                ClientIdText(row.clientId), ClientName(row.client), row.status)
  }

  /** The query function of `useAppointments`: a read error is rethrown;
      otherwise every row is mapped, in the order the backend returned them. */
  function FetchAppointments(resp: ReadResponse<AppointmentRow>): (r: Result<seq<Appointment>, string>)
    ensures r.Err? <==> resp.ReadError?
    ensures resp.ReadError? ==> r.error == resp.message
    ensures resp.Rows? ==> |r.value| == |resp.rows|
    ensures resp.Rows? ==> forall i :: 0 <= i < |resp.rows| ==> r.value[i] == ToAppointment(resp.rows[i])
  {
    match resp
    case ReadError(e) => Err(e)
    case Rows(rows) => Ok(seq(|rows|, i requires 0 <= i < |rows| => ToAppointment(rows[i])))
  }

  /** An appointment whose client is missing from the join still reads, with
      the sentinel as its client name. */
  lemma MissingClientReadsAsUnknown(row: AppointmentRow)
    requires row.client.None?
    ensures ToAppointment(row).clientName == UnknownClient
  {
  }

  // ---------------------------------------------------------------------------
  // Writes
  // ---------------------------------------------------------------------------

  /** What the appointment form submits. */
  datatype AppointmentData = AppointmentData(date: string, time: string, clientId: string, status: Status)

  /** The row `useAddAppointment` inserts; `None` as `client_id` is `NaN`. */
  datatype AppointmentInsert = AppointmentInsert(date: string, time: string, clientId: Option<int>,
                                                 status: Status)

  /** The write `useUpdateAppointmentStatus` makes: only `status`, on one row. */
  datatype StatusUpdate = StatusUpdate(target: Option<int>, status: Status)

  function AddAppointmentRequest(data: AppointmentData): (w: AppointmentInsert)
    ensures w.date == data.date && w.time == data.time && w.status == data.status
    ensures w.clientId == ParseInt(data.clientId)
  {
    AppointmentInsert(data.date, data.time, ParseInt(data.clientId), data.status)
  }

  function StatusRequest(id: string, status: Status): (w: StatusUpdate)
    ensures w.target == ParseInt(id) && w.status == status
  {
    StatusUpdate(ParseInt(id), status)
  }

  /** The client picker offers the identifiers `useClients` produced, so the
      inserted `client_id` is the key of the chosen client row. */
  lemma AddReferencesChosenClient(date: string, time: string, client: ClientsHook.ClientRow, status: Status)
    ensures AddAppointmentRequest(AppointmentData(date, time, ClientsHook.ToClient(client).id, status)).clientId
            == Some(client.id)
  {
  }

  /** Changing the status from a table row updates exactly the row it was read from. */
  lemma StatusChangeTargetsReadRow(row: AppointmentRow, status: Status)
    ensures StatusRequest(ToAppointment(row).id, status) == StatusUpdate(Some(row.id), status)
  {
  }

  // ---------------------------------------------------------------------------
  // Outcomes
  // ---------------------------------------------------------------------------

  datatype AppointmentOp = AddAppointment | UpdateStatus

  function AppointmentMutation(op: AppointmentOp): Mutation {
    match op
    case AddAppointment =>
      Mutation(AppointmentsKey, "Turno creado", "El turno se ha creado exitosamente.",
               "No se pudo crear el turno. Inténtalo de nuevo.")
    case UpdateStatus =>
      Mutation(AppointmentsKey, "Estado actualizado", "El estado del turno se ha actualizado exitosamente.",
               "No se pudo actualizar el estado. Inténtalo de nuevo.")
  }

  /** `onSuccess` / `onError` of the two appointment mutation hooks. */
  function SettleAppointment(ui: Ui, op: AppointmentOp, outcome: Outcome): (r: Ui)
    ensures |r.toasts| == |ui.toasts| + 1 && r.toasts[..|ui.toasts|] == ui.toasts
    ensures outcome.Success? ==> r.stale == ui.stale + {"appointments"} && !r.toasts[|ui.toasts|].destructive
    ensures outcome.Success? && op == AddAppointment ==> r.toasts[|ui.toasts|].title == "Turno creado"
    ensures outcome.Success? && op == UpdateStatus ==> r.toasts[|ui.toasts|].title == "Estado actualizado"
    ensures outcome.Failure? ==> r.stale == ui.stale
    ensures outcome.Failure? ==> r.toasts[|ui.toasts|].title == "Error" && r.toasts[|ui.toasts|].destructive
  {
    Settle(ui, AppointmentMutation(op), outcome)
  }

  /** An appointment mutation never marks the clients stale. */
  lemma AppointmentMutationKeepsClients(ui: Ui, op: AppointmentOp, outcome: Outcome)
    ensures "clients" in SettleAppointment(ui, op, outcome).stale <==> "clients" in ui.stale
  {
  }
}
