/** The client form: its validation schema, the values it resets to, and what
    a valid submission does. */
module ClientForm {
  import opened Wrappers
  import opened JsText
  import opened Domain
  import opened HookEffects

  const NameMessage := "El nombre debe tener al menos 2 caracteres"
  const EmailMessage := "Ingresa un email válido"
  const PhoneMessage := "El teléfono debe tener al menos 8 dígitos"

  /** `clientSchema`, with `isEmail` standing for the validation library's
      e-mail check. Lengths are JavaScript lengths (UTF-16 code units), and
      `notes` is optional, so it never fails. Issues come in field order. */
  function ClientIssues(v: ClientData, isEmail: string -> bool): seq<Issue> {
    (if Utf16Length(v.name) < 2 then [Issue("name", Some(NameMessage))] else [])
    + (if !isEmail(v.email) then [Issue("email", Some(EmailMessage))] else [])
    + (if Utf16Length(v.phone) < 8 then [Issue("phone", Some(PhoneMessage))] else [])
  }

  function ValidateClient(v: ClientData, isEmail: string -> bool): (r: Result<ClientData, seq<Issue>>)
    ensures r.Ok? <==> Utf16Length(v.name) >= 2 && isEmail(v.email) && Utf16Length(v.phone) >= 8
    ensures r.Ok? ==> r.value == v
    ensures r.Err? ==> 1 <= |r.error| <= 3
    ensures r.Err? ==> (Utf16Length(v.name) < 2 <==> r.error[0] == Issue("name", Some(NameMessage)))
  {
    var issues := ClientIssues(v, isEmail);
    if issues == [] then Ok(v) else Err(issues)
  }

  /** Whatever the notes say, and whether they are there at all, the verdict
      is the same. */
  lemma NotesNeverReject(v: ClientData, notes: Option<string>, isEmail: string -> bool)
    ensures ValidateClient(v.(notes := notes), isEmail).Ok? == ValidateClient(v, isEmail).Ok?
  {
  }

  /** Any eight characters make a phone number: the schema checks length only. */
  lemma PhoneIsLengthOnly(name: string, email: string, isEmail: string -> bool)
    requires Utf16Length(name) >= 2 && isEmail(email)
    ensures ValidateClient(ClientData(name, email, "abcdefgh", None), isEmail).Ok?
  {
    assert Utf16Length("abcdefgh") == 8;
  }

  /** A single character outside the BMP (an emoji, say) is two UTF-16 code
      units long, so it passes the two-character minimum for names. */
  lemma OneAstralCharacterIsALongEnoughName(c: char, email: string, phone: string, isEmail: string -> bool)
    requires !IsBmp(c) && isEmail(email) && Utf16Length(phone) >= 8
    ensures ValidateClient(ClientData([c], email, phone, None), isEmail).Ok?
  {
    assert [c][1..] == [];
  }

  // ---------------------------------------------------------------------------
  // Values and submission
  // ---------------------------------------------------------------------------

  /** The default values, and what the form resets to when nothing is edited. */
  const EmptyValues := ClientData("", "", "", Some(""))

  /** The reset the form performs whenever the edited client changes. */
  function ResetValues(editing: Option<Client>): (v: ClientData)
    ensures editing.Some? ==> v == editing.value.Data()
    ensures editing.None? ==> v.name == "" && v.email == "" && v.phone == "" && v.notes == Some("")
  {
    match editing
    case Some(c) => c.Data()
    case None => EmptyValues
  }

  /** The untouched empty form is rejected, starting with the name. */
  lemma EmptyValuesRejected(isEmail: string -> bool)
    ensures ValidateClient(EmptyValues, isEmail).Err?
    ensures ValidateClient(EmptyValues, isEmail).error[0].field == "name"
  {
  }

  const SavedDescription := "Los datos se han guardado correctamente."

  datatype Submission = Rejected(issues: seq<Issue>) | Submitted(data: ClientData, toast: Toast)

  /** `form.handleSubmit(handleSubmit)`: invalid values stop at the schema;
      valid ones go to `onSubmit` once and a toast follows, titled by whether
      a client is being edited, whatever `onSubmit` then does. */
  function Submit(v: ClientData, editing: Option<Client>, isEmail: string -> bool): (r: Submission)
    ensures r.Submitted? <==> ValidateClient(v, isEmail).Ok?
    ensures r.Rejected? ==> r.issues == ValidateClient(v, isEmail).error
    ensures r.Submitted? ==> r.data == v && !r.toast.destructive && r.toast.description == SavedDescription
    ensures r.Submitted? && editing.Some? ==> r.toast.title == "Cliente actualizado"
    ensures r.Submitted? && editing.None? ==> r.toast.title == "Cliente registrado"
  {
    match ValidateClient(v, isEmail)
    case Err(issues) => Rejected(issues)
    case Ok(data) =>
      Submitted(data, Toast(if editing.Some? then "Cliente actualizado" else "Cliente registrado",
                            SavedDescription, false))
  }
}
