# client-shift-log in Dafny

A model of the logic inside a small client and appointment manager for a
freelancer. The application is a React front end on a hosted backend. The
model covers the parts that compute something:

- **The in-memory client roster** of the clients page. Add, edit and delete
  run over a list. One client at a time can be selected for editing, and the
  client form's values follow that selection. A count line uses Spanish
  singular and plural.
- **The data hooks.**
  - Backend rows become view models: the numeric key becomes a string,
    missing fields become `""`, and an appointment without a joined client
    shows "Cliente desconocido".
  - Mutations send payloads whose string identifiers are read back with
    `parseInt`.
  - Each mutation settles the backend's answer. Success marks the resource's
    query key stale and shows one success toast. Failure leaves the keys alone
    and shows one destructive "Error" toast.
- **The forms**: the client and appointment validation schemas, default and
  reset values, and what a submission does, including its toast.
- **The appointment table**: `formatTime`, the status label table, and the
  rule of one row per appointment or the empty state.

JavaScript's own primitives are modelled where the application's behaviour
depends on them:

- `length` counts UTF-16 code units. The schemas' minimum lengths use it.
- `Number.prototype.toString` is modelled on integers.
- `parseInt` follows section 19.2.5 of ECMA-262: leading white space, a sign,
  a `0x` prefix, then the longest run of digits. `NaN` is `None`.

The backend and the clock are inputs:

- Each mutation takes the backend's answer as an `Outcome`
  (`Success | Failure`).
- Each read takes a `ReadResponse` (`Rows | ReadError`).
- The add on the clients page takes the clock reading `now`.
- The delete takes the answer of the confirmation dialog as a boolean.
- The e-mail check is an `isEmail` predicate passed in.

Modules, one per source file, plus three shared ones:

| module | file | models |
|---|---|---|
| `Wrappers` | wrappers.dfy | `Option` (null/undefined) and `Result` (value or thrown error) |
| `JsText` | jstext.dfy | UTF-16 length, integer `toString`, `parseInt` |
| `Domain` | domain.dfy | `Client`, `ClientData`, `Status`, form issues |
| `HookEffects` | effects.dfy | stale query keys plus the toast log, and `Settle` |
| `ClientsHook` | clients_hook.dfy | src/hooks/useClients.ts |
| `AppointmentsHook` | appointments_hook.dfy | src/hooks/useAppointments.ts |
| `ClientForm` | client_form.dfy | src/components/clients/ClientForm.tsx |
| `AppointmentForm` | appointment_form.dfy | src/components/appointments/AppointmentForm.tsx |
| `AppointmentTable` | appointment_table.dfy | src/components/appointments/AppointmentTable.tsx |
| `ClientsPage` | clients_page.dfy | src/pages/Clients.tsx |
| `AppointmentsPage` | appointments_page.dfy | the form-to-hook wiring of src/pages/Appointments.tsx |

### Behaviour of the code worth knowing

- **Deleting a missing identifier.** `useDeleteClient` has no not-found
  branch. It passes on whatever the backend answers, and the model takes that
  answer as its input.
- **Appointment toasts.** The appointment form shows its own "Turno creado"
  toast on every valid submit, before the backend answers, and the add hook
  then shows its own toast. A successful add therefore shows "Turno creado"
  twice, and a failed one shows "Turno creado" and then "Error"
  (`AppointmentsPage.SubmitToastsFollowOutcome`). The client form also
  toasts on every valid submit.
- **Defaults.** Absent text columns read as `""`. No field defaults to a
  number. Row keys are always present; the other numeric column,
  `client_id`, may be missing and then reads as `""`.
- **Status on read.** The status read back from the backend is cast without a
  check. `Appointment.status` is therefore a plain string, and the table's
  label lookup gives no label for a string outside the enum.

## Model

| member | source | states |
|---|---|---|
| JsText.Utf16Length | src/components/clients/ClientForm.tsx:13-15 | the string length the schema's `min` sees: between the character count and twice it, equal to the character count exactly when every character is in the BMP |
| JsText.NumberToString | src/hooks/useClients.ts:25 | the rendering of an integer key is never empty, is all digits for a non-negative key, and is a minus sign then digits for a negative one |
| JsText.DecimalDigitsValue | src/hooks/useClients.ts:25 | reading the decimal rendering of a natural number digit by digit gives the number back |
| JsText.ParseIntReadsNumberPrefix | src/hooks/useClients.ts:77 | `parseInt` on a rendered integer followed by any text that does not continue the number returns that integer; only "x"/"X" after a lone zero switches to hexadecimal |
| JsText.ParseIntNumberToString | src/hooks/useClients.ts:25-77 | the identifier round trip: `parseInt(n.toString()) == n` for every integer |
| JsText.ParseIntSkipsLeadingSpace | src/hooks/useClients.ts:111 | leading white space never changes what `parseInt` reads |
| Domain.ParseStatus | src/components/appointments/AppointmentForm.tsx:15 | a string is a status exactly when it is "pendiente", "confirmado" or "realizado", and the status found renders back to that string |
| Domain.StatusLiteralRoundTrip | src/hooks/useAppointments.ts:11 | every status written as its literal is recognised as itself |
| Domain.WithId | src/pages/Clients.tsx:18-21 | `{...clientData, id}` carries exactly the submitted fields under the given identifier |
| HookEffects.Settle | src/hooks/useClients.ts:50-64 | a settled mutation appends exactly one toast and keeps the earlier ones; on success it adds its own key to the stale set and shows its success toast; on failure the stale set is unchanged and the toast is a destructive "Error" |
| HookEffects.SettleIsolatesKeys | src/hooks/useClients.ts:51 | a mutation never changes the staleness of any key but its own |
| HookEffects.SettleAllAccounts | src/hooks/useClients.ts:50-129 | over any sequence of settled mutations: one toast each, one destructive toast per failure, and the stale set grows by the keys of the successful ones only |
| JsText.OrEmpty | src/hooks/useClients.ts:26-29 | `v \|\| ""` keeps a present string and turns a missing one into "" |
| ClientsHook.ToClient | src/hooks/useClients.ts:24-30 | a mapped client's identifier is the key's decimal rendering `id.toString()`, which parses back to the key; every text field is the column or "" when null, and `notes` is always present |
| ClientsHook.FetchClients | src/hooks/useClients.ts:16-31 | a read error becomes an error and never a partial list; otherwise one client per row, in the backend's order |
| ClientsHook.AddClientRequest | src/hooks/useClients.ts:40-49 | the submitted data is inserted unchanged |
| ClientsHook.UpdateClientRequest | src/hooks/useClients.ts:73-77 | the update sends every field but `id` and targets `parseInt(id)` |
| ClientsHook.DeleteClientRequest | src/hooks/useClients.ts:107-111 | the delete targets `parseInt(id)` |
| ClientsHook.UpdateTargetsReadRow | src/hooks/useClients.ts:73-77 | editing a client read from a row updates exactly that row with the edited fields |
| ClientsHook.DeleteTargetsReadRow | src/hooks/useClients.ts:107-113 | deleting a client read from a row targets exactly that row |
| ClientsHook.SettleClient | src/hooks/useClients.ts:50-129 | on success add, update and delete mark "clients" stale and show "Cliente agregado", "Cliente actualizado" or "Cliente eliminado"; on failure no key changes and one destructive "Error" toast is shown |
| ClientsHook.ClientMutationKeepsAppointments | src/hooks/useClients.ts:51 | a client mutation never marks "appointments" stale |
| AppointmentsHook.ClientName | src/hooks/useAppointments.ts:35 | the joined client's name when it is present and non-empty, "Cliente desconocido" otherwise; never empty |
| AppointmentsHook.ClientIdText | src/hooks/useAppointments.ts:34 | "" exactly when `client_id` is missing; otherwise `client_id.toString()`, which parses back to `client_id` |
| AppointmentsHook.ToAppointment | src/hooks/useAppointments.ts:30-37 | a mapped appointment's identifier is `id.toString()`, which parses back to the row's key; date and time default to "", the client name is never empty, and the status is passed on unchecked |
| AppointmentsHook.FetchAppointments | src/hooks/useAppointments.ts:17-38 | a read error becomes an error; otherwise one appointment per row, in the backend's order |
| AppointmentsHook.MissingClientReadsAsUnknown | src/hooks/useAppointments.ts:35 | an appointment whose client is missing from the join reads with "Cliente desconocido" |
| AppointmentsHook.AddAppointmentRequest | src/hooks/useAppointments.ts:55-60 | date, time and status pass through unchanged and `client_id` is `parseInt(clientId)` |
| AppointmentsHook.StatusRequest | src/hooks/useAppointments.ts:90-94 | only `status` is written, on row `parseInt(id)` |
| AppointmentsHook.AddReferencesChosenClient | src/hooks/useAppointments.ts:58 | choosing a client read by `useClients` inserts that client row's key as `client_id` |
| AppointmentsHook.StatusChangeTargetsReadRow | src/hooks/useAppointments.ts:94 | a status change from a table row updates exactly the row it was read from |
| AppointmentsHook.SettleAppointment | src/hooks/useAppointments.ts:67-115 | on success add and status update mark "appointments" stale and show "Turno creado" or "Estado actualizado"; on failure no key changes and one destructive "Error" toast is shown |
| AppointmentsHook.AppointmentMutationKeepsClients | src/hooks/useAppointments.ts:68 | an appointment mutation never marks "clients" stale |
| ClientForm.ValidateClient | src/components/clients/ClientForm.tsx:12-17 | accepted exactly when the name is at least 2 and the phone at least 8 UTF-16 units long and the e-mail passes the check; accepted data is unchanged; the name issue comes first |
| ClientForm.NotesNeverReject | src/components/clients/ClientForm.tsx:16 | the notes, present or absent, never change the verdict |
| ClientForm.PhoneIsLengthOnly | src/components/clients/ClientForm.tsx:15 | eight letters are an acceptable phone number |
| ClientForm.OneAstralCharacterIsALongEnoughName | src/components/clients/ClientForm.tsx:13 | a one-character name outside the BMP passes the two-character minimum |
| ClientForm.ResetValues | src/components/clients/ClientForm.tsx:38-49 | with a client being edited the form resets to that client's fields, otherwise to empty fields |
| ClientForm.EmptyValuesRejected | src/components/clients/ClientForm.tsx:30-35 | the untouched default form is rejected, on the name first |
| ClientForm.Submit | src/components/clients/ClientForm.tsx:51-57 | invalid values are rejected with the schema's issues; valid ones are submitted unchanged with one toast, "Cliente actualizado" when editing and "Cliente registrado" otherwise |
| AppointmentForm.ValidateAppointment | src/components/appointments/AppointmentForm.tsx:11-16 | accepted exactly when date, time and client are non-empty and the status is one of the three literals; the accepted data carries the same fields |
| AppointmentForm.DefaultsRejected | src/components/appointments/AppointmentForm.tsx:33-38 | the default form fails on date, time and client, and not on its status |
| AppointmentForm.Submit | src/components/appointments/AppointmentForm.tsx:41-48 | invalid values stay and nothing happens; valid data is submitted once, the form returns to its defaults and one "Turno creado" toast is shown |
| AppointmentsPage.SubmitOnPage | src/pages/Appointments.tsx:12-19 | a valid submission inserts `AddAppointmentRequest` of the data, resets the form, and appends two toasts, the form's "Turno creado" first; an invalid one changes nothing |
| AppointmentsPage.SubmitToastsFollowOutcome | src/components/appointments/AppointmentForm.tsx:41-48 | after a valid submission the second toast is "Turno creado" when the backend accepts and "Error" when it rejects, and only "appointments" can become stale |
| AppointmentsPage.SubmitReportingOnce | src/components/appointments/AppointmentForm.tsx:41-48 | the corrected submission: a valid one inserts the data, resets the form and appends exactly one toast, "Turno creado" exactly when the backend accepts and destructive exactly when it rejects |
| AppointmentsPage.ChangeStatusOnPage | src/pages/Appointments.tsx:21-23 | a status change writes the chosen status on row `parseInt(id)` and appends one toast; on success "Estado actualizado" and "appointments" becomes stale, on failure "Error" and nothing becomes stale |
| AppointmentsPage.StatusChangeWritesReadRow | src/pages/Appointments.tsx:21-23 | a status change on an appointment read from a row writes exactly that row, and never marks the clients stale |
| AppointmentTable.FormatTime | src/components/appointments/AppointmentTable.tsx:50-52 | a prefix of the input of length min(5, length) |
| AppointmentTable.FormatTimeIdempotent | src/components/appointments/AppointmentTable.tsx:51 | formatting a formatted time changes nothing |
| AppointmentTable.FormatTimeDropsSeconds | src/components/appointments/AppointmentTable.tsx:51 | "HH:MM:SS" is shown as "HH:MM", and "HH:MM" as itself |
| AppointmentTable.StatusLabel | src/components/appointments/AppointmentTable.tsx:27-35 | a label exists exactly for the three status literals |
| AppointmentTable.LabelCapitalisesLiteral | src/components/appointments/AppointmentTable.tsx:27-31 | each label is its status literal with an upper-case initial |
| AppointmentTable.LabelsInjective | src/components/appointments/AppointmentTable.tsx:27-31 | different statuses have different labels |
| AppointmentTable.Render | src/components/appointments/AppointmentTable.tsx:62-121 | the empty state exactly for no appointments; otherwise one row per appointment, in order, with its key, client name, date, formatted time, label and selected status |
| AppointmentTable.StatusSelectTargetsRow | src/components/appointments/AppointmentTable.tsx:82-101 | the status select of the i-th rendered row of a successful read updates the i-th backend row and writes the chosen status |
| ClientsPage.AppendClient | src/pages/Clients.tsx:17-23 | one client longer; the old clients are an unchanged prefix; the new last client is the submitted fields under the identifier `now.toString()`, which parses back to the clock reading |
| ClientsPage.EditClients | src/pages/Clients.tsx:27-31 | same length and order; every client with the selected id becomes the submitted data under that id; all others are untouched |
| ClientsPage.DeleteClients | src/pages/Clients.tsx:38 | exactly the clients without that id remain, each as many times as before and in their original order (a subsequence with the same multiset minus that id) |
| ClientsPage.AddThenDeleteRestores | src/pages/Clients.tsx:17-40 | deleting a just-added client whose clock identifier was fresh restores the roster |
| ClientsPage.DeleteIdempotent | src/pages/Clients.tsx:38 | deleting the same id twice is deleting it once |
| ClientsPage.EditKeepsIdentifiers | src/pages/Clients.tsx:27-31 | an edit keeps every identifier at its position |
| ClientsPage.EditIdempotent | src/pages/Clients.tsx:27-31 | submitting the same edit twice equals submitting it once |
| ClientsPage.EditAfterDeleteChangesNothing | src/pages/Clients.tsx:25-40 | editing a client deleted in the meantime leaves the roster unchanged |
| ClientsPage.SubmitAfterDeletingSelection | src/pages/Clients.tsx:25-40 | after the selected client is deleted it stays selected, and the next valid submission reports "Cliente actualizado" while the roster stays as the delete left it |
| ClientsPage.SaveUntouchedEditChangesNothing | src/components/clients/ClientForm.tsx:38-49 | opening a valid client for editing and saving the form untouched leaves the roster exactly as it was, because the reset form holds the client's own fields |
| ClientsPage.Select | src/components/clients/ClientForm.tsx:38-49 | changing the selection resets the form to the selected client or to empty values; keeping it keeps the form |
| ClientsPage.StartEditing | src/pages/Clients.tsx:42-44 | the client becomes the selection and the roster is unchanged |
| ClientsPage.CancelEditing | src/pages/Clients.tsx:46-48 | the selection is cleared, the roster is unchanged, and a previous selection empties the form |
| ClientsPage.HandleAdd | src/pages/Clients.tsx:17-23 | the roster gains the client; the selection and the form values are untouched |
| ClientsPage.HandleEdit | src/pages/Clients.tsx:25-34 | without a selection nothing changes; with one the roster is edited, the selection cleared and the form emptied |
| ClientsPage.HandleDelete | src/pages/Clients.tsx:36-40 | a declined delete changes nothing; a confirmed one removes the id; the selection stays either way |
| ClientsPage.OnSubmit | src/pages/Clients.tsx:56 | with a selection the submit edits the selected client's entries in place, clears the selection and empties the form; without one it appends the submitted client and leaves the selection and form alone |
| ClientsPage.SubmitForm | src/pages/Clients.tsx:55-59 | invalid form values change nothing and show nothing; valid ones go through `onSubmit` and show one toast; an edit empties the form, an add leaves the submitted values in it |
| ClientsPage.CountLabel | src/pages/Clients.tsx:69-72 | "No hay clientes registrados aún." for 0, "1 cliente registrado" for 1, and the count then " clientes registrados" from 2 on |
| ClientsPage.CountLabelStartsWithCount | src/pages/Clients.tsx:71 | the count line of a non-empty roster reads back, with `parseInt`, to the count |
| ClientsPage.RenderList | src/pages/Clients.tsx:76-96 | the call to action exactly for an empty roster; otherwise one card per client in roster order |

## Findings

| source | as written | input that shows it | evidently intended | confidence | as-written member | corrected member |
|---|---|---|---|---|---|---|
| src/components/appointments/AppointmentForm.tsx:44-47 | the form shows a "Turno creado" toast on every valid submit, before the backend answers, and the add hook shows its own toast afterwards | any valid form submission that the backend rejects: the toasts are "Turno creado" and then "Error" | the hook alone reports the outcome, with one toast per submission | medium; not executed | AppointmentsPage.SubmitToastsFollowOutcome | AppointmentsPage.SubmitReportingOnce |

The rest of the model keeps the code as written (`AppointmentsPage.SubmitOnPage`).
`AppointmentsPage.SubmitReportingOnce` states the intended behaviour next to it.

## Left out

- Backend I/O and the query library's caching, refetching and de-duplication
  of in-flight reads. These are library code. Backend answers are inputs.
- Server-side ordering (`order("created_at")` and `order("date")`). The reads
  only promise to keep the order the backend gives.
- `Date.now()` and `window.confirm`. They are inputs, and the model does not
  assume clock identifiers are unique.
- The e-mail regular expression of the validation library. It is the
  `isEmail` parameter.
- `formatDate`, `new Date` and locale formatting. They depend on locale and
  time zone. The table row keeps the raw date handed to them.
- `console.error` logging in the `onError` handlers. It is I/O.
- The loading and error screens of the appointments page, the dashboard's
  count queries, the sidebar, the navigation, the client card and the other
  rendering-only files, along with all styling and badge colour classes.
- The toast component's display limit. Toasts are modelled as the log of
  notification calls.
- JsText.NumberToString: keys are unbounded integers. JavaScript numbers lose
  precision above 2^53 and switch to exponent notation from 10^21, which the
  model does not reproduce.
- AppointmentTable.FormatTime: counts characters, not UTF-16 code units. A
  time string with a character outside the BMP in its first five units would
  be cut inside a surrogate pair by `slice`.
- AppointmentTable.StatusLabel: a status string naming a property that every
  JavaScript object inherits (such as "constructor") would find a value in
  the `labels` object. The model gives no label for it.
- ClientsPage.Select: compares selections by value. React compares the
  `editingClient` object by reference.
- AppointmentForm.ValidateAppointment: the status issue carries no message,
  because the schema uses the validation library's default text.
