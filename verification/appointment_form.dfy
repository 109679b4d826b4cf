/** The appointment form: its validation schema, its default values, and the
    submit sequence (hand the data over, reset, then toast). */
module AppointmentForm {
  import opened Wrappers
  import opened JsText
  import opened Domain
  import opened HookEffects
  import opened AppointmentsHook

  /** The raw form values; `status` is whatever the select holds. */
  datatype AppointmentFormValues = AppointmentFormValues(date: string, time: string, clientId: string,
                                                         status: string)

  const Defaults := AppointmentFormValues("", "", "", "pendiente")

  /** `appointmentSchema`: three non-empty strings (`min(1)`) and the status
      enum, whose message is the validation library's default. */
  function AppointmentIssues(v: AppointmentFormValues): seq<Issue> {
    (if Utf16Length(v.date) < 1 then [Issue("date", Some("Selecciona una fecha"))] else [])
    + (if Utf16Length(v.time) < 1 then [Issue("time", Some("Selecciona una hora"))] else [])
    + (if Utf16Length(v.clientId) < 1 then [Issue("clientId", Some("Selecciona un cliente"))] else [])
    + (if ParseStatus(v.status).None? then [Issue("status", None)] else [])
  }

  function ValidateAppointment(v: AppointmentFormValues): (r: Result<AppointmentData, seq<Issue>>)
    ensures r.Ok? <==> v.date != "" && v.time != "" && v.clientId != ""
                       && (v.status == "pendiente" || v.status == "confirmado" || v.status == "realizado")
    ensures r.Ok? ==> r.value.date == v.date && r.value.time == v.time && r.value.clientId == v.clientId
    ensures r.Ok? ==> StatusLiteral(r.value.status) == v.status
    ensures r.Err? ==> 1 <= |r.error| <= 4
  {
    var issues := AppointmentIssues(v);
    if issues == [] then Ok(AppointmentData(v.date, v.time, v.clientId, ParseStatus(v.status).value))
    else Err(issues)
  }

  /** The untouched default form fails on its three empty fields, and only on
      them: its status is valid. */
  lemma DefaultsRejected()
    ensures ValidateAppointment(Defaults).Err?
    ensures ValidateAppointment(Defaults).error
            == [Issue("date", Some("Selecciona una fecha")), Issue("time", Some("Selecciona una hora")),
                Issue("clientId", Some("Selecciona un cliente"))]
  {
    assert ParseStatus("pendiente") == Some(Pendiente);
  }

  /** The outcome of pressing the submit button. */
  datatype FormSubmit = FormSubmit(submitted: Option<AppointmentData>, form: AppointmentFormValues,
                                   toasts: seq<Toast>)

  const SubmitToast := Toast("Turno creado", "El turno se ha registrado correctamente.", false)

  /** `form.handleSubmit(handleSubmit)`: invalid values stay in the form and
      nothing else happens; valid data goes to `onSubmit` once, the form goes
      back to its defaults and one "Turno creado" toast is shown, before and
      regardless of the backend's answer. */
  function Submit(v: AppointmentFormValues): (r: FormSubmit)
    ensures ValidateAppointment(v).Err? ==> r.submitted.None? && r.form == v && r.toasts == []
    ensures ValidateAppointment(v).Ok? ==> r.submitted == Some(ValidateAppointment(v).value)
    ensures ValidateAppointment(v).Ok? ==> r.form == Defaults && r.toasts == [SubmitToast]
  {
    match ValidateAppointment(v)
    case Err(_) => FormSubmit(None, v, [])
    case Ok(data) => FormSubmit(Some(data), Defaults, [SubmitToast])
  }
}
