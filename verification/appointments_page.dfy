/** The appointments page wires the form and the table to the appointment
    hooks. This module follows one submission and one status change from the
    button to the toasts, with the backend's answer as an input. */
module AppointmentsPage {
  import opened Wrappers
  import opened JsText
  import Domain
  import opened HookEffects
  import opened AppointmentsHook
  import opened AppointmentForm

  datatype PageSubmit = PageSubmit(insert: Option<AppointmentInsert>, form: AppointmentFormValues, ui: Ui)

  /** Submitting the form: the data goes to `mutate`, the form resets and
      shows its own "Turno creado" toast at once; the hook's toast and cache
      effect follow when the backend answers. */
  function SubmitOnPage(ui: Ui, v: AppointmentFormValues, outcome: Outcome): (r: PageSubmit)
    ensures ValidateAppointment(v).Err? ==> r.insert.None? && r.form == v && r.ui == ui
    ensures ValidateAppointment(v).Ok? ==>
              && r.insert == Some(AddAppointmentRequest(ValidateAppointment(v).value))
              && r.form == Defaults
              && |r.ui.toasts| == |ui.toasts| + 2
              && r.ui.toasts[..|ui.toasts|] == ui.toasts
              && r.ui.toasts[|ui.toasts|] == SubmitToast
  {
    var s := Submit(v);
    match s.submitted
    case None => PageSubmit(None, s.form, ui)
    case Some(data) =>
      var shown := ui.(toasts := ui.toasts + s.toasts);
      var r := PageSubmit(Some(AddAppointmentRequest(data)), s.form, SettleAppointment(shown, AddAppointment, outcome));
      assert r.ui.toasts[..|ui.toasts|] == shown.toasts[..|ui.toasts|];
      r
  }

  /** A valid submission that the backend accepts shows "Turno creado" twice;
      one it rejects still shows "Turno creado", followed by "Error". Only the
      appointments key is ever marked stale. */
  lemma SubmitToastsFollowOutcome(ui: Ui, v: AppointmentFormValues, outcome: Outcome)
    requires ValidateAppointment(v).Ok?
    ensures var r := SubmitOnPage(ui, v, outcome);
            && r.ui.toasts[|ui.toasts|].title == "Turno creado"
            && (outcome.Success? ==> r.ui.toasts[|ui.toasts| + 1].title == "Turno creado"
                                     && r.ui.stale == ui.stale + {"appointments"})
            && (outcome.Failure? ==> r.ui.toasts[|ui.toasts| + 1].title == "Error"
                                     && r.ui.stale == ui.stale)
  {
  }

  /** The evidently intended submission: the form hands the data over and
      resets without a toast of its own, so the hook alone reports the
      backend's answer, once. */
  function SubmitReportingOnce(ui: Ui, v: AppointmentFormValues, outcome: Outcome): (r: PageSubmit)
    ensures ValidateAppointment(v).Err? ==> r.insert.None? && r.form == v && r.ui == ui
    ensures ValidateAppointment(v).Ok? ==>
              && r.insert == Some(AddAppointmentRequest(ValidateAppointment(v).value))
              && r.form == Defaults
              && |r.ui.toasts| == |ui.toasts| + 1
              && r.ui.toasts[..|ui.toasts|] == ui.toasts
              && (r.ui.toasts[|ui.toasts|].title == "Turno creado" <==> outcome.Success?)
              && (r.ui.toasts[|ui.toasts|].destructive <==> outcome.Failure?)
  {
    var s := Submit(v);
    match s.submitted
    case None => PageSubmit(None, s.form, ui)
    case Some(data) =>
      PageSubmit(Some(AddAppointmentRequest(data)), s.form, SettleAppointment(ui, AddAppointment, outcome))
  }

  // ---------------------------------------------------------------------------
  // Status changes
  // ---------------------------------------------------------------------------

  /** `handleStatusChange`: the table's select hands the row's identifier and
      the chosen status to the status mutation, which writes that status on
      row `parseInt(id)` and then settles the backend's answer. */
  function ChangeStatusOnPage(ui: Ui, id: string, status: Domain.Status, outcome: Outcome): (r: (StatusUpdate, Ui))
    ensures r.0.target == ParseInt(id) && r.0.status == status
    ensures |r.1.toasts| == |ui.toasts| + 1 && r.1.toasts[..|ui.toasts|] == ui.toasts
    ensures outcome.Success? ==> r.1.stale == ui.stale + {"appointments"}
    ensures outcome.Success? ==> r.1.toasts[|ui.toasts|].title == "Estado actualizado"
    ensures outcome.Failure? ==> r.1.stale == ui.stale && r.1.toasts[|ui.toasts|].title == "Error"
  {
    (StatusRequest(id, status), SettleAppointment(ui, UpdateStatus, outcome))
  }

  /** A status change on an appointment read from a row writes that row, and
      only the appointments are ever marked stale. */
  lemma StatusChangeWritesReadRow(ui: Ui, row: AppointmentRow, status: Domain.Status, outcome: Outcome)
    ensures var r := ChangeStatusOnPage(ui, ToAppointment(row).id, status, outcome);
            && r.0 == StatusUpdate(Some(row.id), status)
            && ("clients" in r.1.stale <==> "clients" in ui.stale)
  {
    StatusChangeTargetsReadRow(row, status);
    AppointmentMutationKeepsClients(ui, UpdateStatus, outcome);
  }
}
