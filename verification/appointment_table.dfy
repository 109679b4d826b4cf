/** The appointment table: how a time and a status are displayed and which
    rows are drawn. */
module AppointmentTable {
  import opened Wrappers
  import opened Domain
  import opened AppointmentsHook
  import HookEffects

  /** `timeString.slice(0, 5)`: keeps at most the first five characters. */
  function FormatTime(s: string): (r: string)
    ensures r <= s
    ensures |r| == if |s| < 5 then |s| else 5
  {
    if |s| <= 5 then s else s[..5]
  }

  lemma FormatTimeIdempotent(s: string)
    ensures FormatTime(FormatTime(s)) == FormatTime(s)
  {
  }

  /** A backend time "HH:MM:SS" is shown as "HH:MM"; a time without seconds is
      shown unchanged. */
  lemma FormatTimeDropsSeconds(h1: char, h2: char, m1: char, m2: char, s1: char, s2: char)
    ensures FormatTime([h1, h2, ':', m1, m2, ':', s1, s2]) == [h1, h2, ':', m1, m2]
    ensures FormatTime([h1, h2, ':', m1, m2]) == [h1, h2, ':', m1, m2]
  {
  }

  /** The `labels` table of `getStatusBadge`, looked up with whatever string
      the row holds; a string outside the enum finds no label. */
  function StatusLabel(status: string): (badge: Option<string>)
    ensures badge.Some? <==> ParseStatus(status).Some?
  {
    match ParseStatus(status)
    case Some(Pendiente) => Some("Pendiente")
    case Some(Confirmado) => Some("Confirmado")
    case Some(Realizado) => Some("Realizado")
    case None => None
  }

  /** Each label is its status literal with a capital initial. */
  lemma LabelCapitalisesLiteral(st: Status)
    ensures var text := StatusLabel(StatusLiteral(st)).value;
            && |text| == |StatusLiteral(st)| >= 1
            && text[1..] == StatusLiteral(st)[1..]
            && text[0] as int == StatusLiteral(st)[0] as int - 32
  {
    StatusLiteralRoundTrip(st);
  }

  /** Different statuses never share a label. */
  lemma LabelsInjective(a: Status, b: Status)
    ensures StatusLabel(StatusLiteral(a)) == StatusLabel(StatusLiteral(b)) ==> a == b
  {
    StatusLiteralRoundTrip(a);
    StatusLiteralRoundTrip(b);
  }

  // ---------------------------------------------------------------------------
  // Rows
  // ---------------------------------------------------------------------------

  /** One table row. `date` is the raw date handed to the locale formatter. */
  datatype Row = Row(key: string, clientName: string, date: string, time: string,
                     badge: Option<string>, selected: string)

  datatype TableView = EmptyState | Table(rows: seq<Row>)

  function RowOf(a: Appointment): Row {
    Row(a.id, a.clientName, a.date, FormatTime(a.time), StatusLabel(a.status), a.status)
  }

  /** The empty-state message for no appointments; otherwise one row per
      appointment, in the order given. */
  function Render(appointments: seq<Appointment>): (v: TableView)
    ensures v.EmptyState? <==> appointments == []
    ensures v.Table? ==> |v.rows| == |appointments|
    ensures v.Table? ==> forall i :: 0 <= i < |appointments| ==>
              && v.rows[i].key == appointments[i].id
              && v.rows[i].clientName == appointments[i].clientName
              && v.rows[i].date == appointments[i].date
              && v.rows[i].time == FormatTime(appointments[i].time)
              && v.rows[i].badge == StatusLabel(appointments[i].status)
              && v.rows[i].selected == appointments[i].status
  {
    if |appointments| == 0 then EmptyState
    else Table(seq(|appointments|, i requires 0 <= i < |appointments| => RowOf(appointments[i])))
  }

  /** The status select in table row `i` updates backend row `i`: the row key
      shown is the identifier read from that row. */
  lemma StatusSelectTargetsRow(rows: seq<AppointmentRow>, i: int, status: Status)
    requires 0 <= i < |rows|
    ensures var v := Render(FetchAppointments(HookEffects.Rows(rows)).value);
            && v.Table?
            && StatusRequest(v.rows[i].key, status) == StatusUpdate(Some(rows[i].id), status)
  {
    var appointments := FetchAppointments(HookEffects.Rows(rows)).value;
    assert appointments[i] == ToAppointment(rows[i]);
  }
}
