/** The clients page keeps its roster in memory: add, edit and delete work on
    a list, one client at a time can be selected for editing, and the client
    form's values follow the selection. */
module ClientsPage {
  import opened Wrappers
  import opened JsText
  import opened Domain
  import opened HookEffects
  import ClientForm

  // ---------------------------------------------------------------------------
  // The roster
  // ---------------------------------------------------------------------------

  /** `handleAddClient`: the new client goes last, under the identifier made
      from the clock reading `now` (milliseconds). */
  function AppendClient(clients: seq<Client>, data: ClientData, now: nat): (r: seq<Client>)
    ensures |r| == |clients| + 1
    ensures r[..|clients|] == clients
    ensures r[|clients|] == WithId(data, NumberToString(now))
    ensures r[|clients|].Data() == data && ParseInt(r[|clients|].id) == Some(now)
  {
    ParseIntNumberToString(now);
    clients + [WithId(data, NumberToString(now))]
  }

  /** The `map` of `handleEditClient`: every client carrying `id` becomes the
      submitted data under that same id; the others stay as they are. */
  function EditClients(clients: seq<Client>, id: string, data: ClientData): (r: seq<Client>)
    ensures |r| == |clients|
    ensures forall i :: 0 <= i < |clients| && clients[i].id == id ==> r[i] == WithId(data, id)
    ensures forall i :: 0 <= i < |clients| && clients[i].id != id ==> r[i] == clients[i]
    decreases |clients|
  {
    if clients == [] then []
    else [if clients[0].id == id then WithId(data, id) else clients[0]] + EditClients(clients[1..], id, data)
  }

  /** `a` can be obtained from `b` by deleting elements. */
  predicate IsSubsequence(a: seq<Client>, b: seq<Client>)
    decreases |b|
  {
    if a == [] then true
    else if b == [] then false
    else if a[0] == b[0] then IsSubsequence(a[1..], b[1..])
    else IsSubsequence(a, b[1..])
  }

  /** The `filter` of `handleDeleteClient`: every client carrying `id` goes,
      the others stay in their relative order. */
  function DeleteClients(clients: seq<Client>, id: string): (r: seq<Client>)
    ensures |r| <= |clients|
    ensures forall c :: c in r <==> c in clients && c.id != id
    ensures IsSubsequence(r, clients)
    ensures forall c :: multiset(r)[c] == if c.id == id then 0 else multiset(clients)[c]
    decreases |clients|
  {
    if clients == [] then []
    else
      assert clients == [clients[0]] + clients[1..];
      if clients[0].id == id then DeleteClients(clients[1..], id)
      else [clients[0]] + DeleteClients(clients[1..], id)
  }

  /** An identifier no client carries. */
  predicate Fresh(clients: seq<Client>, id: string) {
    forall i :: 0 <= i < |clients| ==> clients[i].id != id
  }

  lemma {:induction false} DeleteAbsent(clients: seq<Client>, id: string)
    requires Fresh(clients, id)
    ensures DeleteClients(clients, id) == clients
    decreases |clients|
  {
    if clients != [] {
      DeleteAbsent(clients[1..], id);
    }
  }

  lemma {:induction false} DeleteDistributes(a: seq<Client>, b: seq<Client>, id: string)
    ensures DeleteClients(a + b, id) == DeleteClients(a, id) + DeleteClients(b, id)
    decreases |a|
  {
    if a == [] {
      assert a + b == b;
    } else {
      assert (a + b)[1..] == a[1..] + b;
      DeleteDistributes(a[1..], b, id);
    }
  }

  /** Deleting the client just added, when its clock identifier was fresh,
      gives back the roster as it was. */
  lemma AddThenDeleteRestores(clients: seq<Client>, data: ClientData, now: nat)
    requires Fresh(clients, NumberToString(now))
    ensures DeleteClients(AppendClient(clients, data, now), NumberToString(now)) == clients
  {
    var id := NumberToString(now);
    DeleteDistributes(clients, [WithId(data, id)], id);
    DeleteAbsent(clients, id);
    assert DeleteClients([WithId(data, id)], id) == [];
  }

  /** Deleting twice is deleting once. */
  lemma {:induction false} DeleteIdempotent(clients: seq<Client>, id: string)
    ensures DeleteClients(DeleteClients(clients, id), id) == DeleteClients(clients, id)
  {
    var r := DeleteClients(clients, id);
    assert Fresh(r, id) by {
      forall i | 0 <= i < |r| ensures r[i].id != id {
        assert r[i] in r;
      }
    }
    DeleteAbsent(r, id);
  }

  /** An edit keeps every identifier in its place, so a roster without
      duplicate identifiers keeps none. */
  lemma EditKeepsIdentifiers(clients: seq<Client>, id: string, data: ClientData)
    ensures forall i :: 0 <= i < |clients| ==> EditClients(clients, id, data)[i].id == clients[i].id
  {
  }

  /** Submitting the same edit twice changes nothing more. */
  lemma EditIdempotent(clients: seq<Client>, id: string, data: ClientData)
    ensures EditClients(EditClients(clients, id, data), id, data) == EditClients(clients, id, data)
  {
    var once := EditClients(clients, id, data);
    var twice := EditClients(once, id, data);
    assert forall i :: 0 <= i < |clients| ==> twice[i] == once[i];
  }

  /** Editing a client that has been deleted in the meantime changes nothing. */
  lemma EditAfterDeleteChangesNothing(clients: seq<Client>, id: string, data: ClientData)
    ensures EditClients(DeleteClients(clients, id), id, data) == DeleteClients(clients, id)
  {
    var r := DeleteClients(clients, id);
    forall i | 0 <= i < |r| ensures r[i].id != id {
      assert r[i] in r;
    }
    assert EditClients(r, id, data) == r;
  }

  // ---------------------------------------------------------------------------
  // The page
  // ---------------------------------------------------------------------------

  /** The page state: the roster, the client being edited (`editingClient`),
      and the values the client form holds. */
  datatype Page = Page(clients: seq<Client>, editing: Option<Client>, form: ClientData)

  /** The form's effect on `editingClient`: whenever the selection changes,
      the form resets to the selected client or to empty values. */
  function Select(p: Page, editing: Option<Client>): (r: Page)
    ensures r.clients == p.clients && r.editing == editing
    ensures editing != p.editing ==> r.form == ClientForm.ResetValues(editing)
    ensures editing == p.editing ==> r.form == p.form
  {
    if editing == p.editing then p
    else Page(p.clients, editing, ClientForm.ResetValues(editing))
  }

  function StartEditing(p: Page, c: Client): (r: Page)
    ensures r.editing == Some(c) && r.clients == p.clients
    ensures p.editing != Some(c) ==> r.form == c.Data()
  {
    Select(p, Some(c))
  }

  function CancelEditing(p: Page): (r: Page)
    ensures r.editing.None? && r.clients == p.clients
    ensures p.editing.Some? ==> r.form == ClientForm.EmptyValues
  {
    Select(p, None)
  }

  /** `handleAddClient` on the page; the selection and the form are untouched. */
  function HandleAdd(p: Page, data: ClientData, now: nat): (r: Page)
    ensures r.clients == AppendClient(p.clients, data, now)
    ensures r.editing == p.editing && r.form == p.form
  {
    p.(clients := AppendClient(p.clients, data, now))
  }

  /** `handleEditClient`: without a selection nothing happens; with one, the
      roster is edited and the selection cleared, which empties the form. */
  function HandleEdit(p: Page, data: ClientData): (r: Page)
    ensures p.editing.None? ==> r == p
    ensures p.editing.Some? ==> r.clients == EditClients(p.clients, p.editing.value.id, data)
    ensures p.editing.Some? ==> r.editing.None? && r.form == ClientForm.EmptyValues
  {
    match p.editing
    case None => p
    case Some(e) => Select(p.(clients := EditClients(p.clients, e.id, data)), None)
  }

  /** `handleDeleteClient`, with the answer of the confirmation dialog as an
      input. The selection is kept even when it is the deleted client. */
  function HandleDelete(p: Page, id: string, confirmed: bool): (r: Page)
    ensures !confirmed ==> r == p
    ensures confirmed ==> r.clients == DeleteClients(p.clients, id)
    ensures r.editing == p.editing && r.form == p.form
  {
    if confirmed then p.(clients := DeleteClients(p.clients, id)) else p
  }

  /** The form's `onSubmit`: `handleEditClient` while a client is selected,
      `handleAddClient` otherwise. */
  function OnSubmit(p: Page, data: ClientData, now: nat): (r: Page)
    ensures p.editing.Some? ==> r.clients == EditClients(p.clients, p.editing.value.id, data)
    ensures p.editing.Some? ==> r.editing.None? && r.form == ClientForm.EmptyValues
    ensures p.editing.None? ==> r.clients == AppendClient(p.clients, data, now)
    ensures p.editing.None? ==> r.editing == p.editing && r.form == p.form
  {
    if p.editing.Some? then HandleEdit(p, data) else HandleAdd(p, data, now)
  }

  /** Pressing the form's submit button: the held values are validated; valid
      ones go through `onSubmit` and then one toast is shown. */
  function SubmitForm(p: Page, isEmail: string -> bool, now: nat): (r: (Page, seq<Toast>))
    ensures ClientForm.ValidateClient(p.form, isEmail).Err? ==> r == (p, [])
    ensures ClientForm.ValidateClient(p.form, isEmail).Ok? ==> r.0 == OnSubmit(p, p.form, now) && |r.1| == 1
    ensures ClientForm.ValidateClient(p.form, isEmail).Ok? && p.editing.Some? ==>
              r.1[0].title == "Cliente actualizado" && r.0.form == ClientForm.EmptyValues
    ensures ClientForm.ValidateClient(p.form, isEmail).Ok? && p.editing.None? ==>
              r.1[0].title == "Cliente registrado" && r.0.form == p.form
  {
    match ClientForm.Submit(p.form, p.editing, isEmail)
    case Rejected(_) => (p, [])
    case Submitted(data, toast) => (OnSubmit(p, data, now), [toast])
  }

  /** Deleting the selected client keeps it selected, so the next valid
      submission still reports "Cliente actualizado" while the roster stays
      exactly as the delete left it. */
  lemma SubmitAfterDeletingSelection(p: Page, isEmail: string -> bool, now: nat)
    requires p.editing.Some? && ClientForm.ValidateClient(p.form, isEmail).Ok?
    ensures var q := HandleDelete(p, p.editing.value.id, true);
            var r := SubmitForm(q, isEmail, now);
            && r.0.clients == q.clients
            && r.1[0].title == "Cliente actualizado"
  {
    EditAfterDeleteChangesNothing(p.clients, p.editing.value.id, p.form);
  }

  /** Opening a client and saving the untouched form changes nothing: the
      form was reset to the client's own fields, and the edit writes them
      back under the same identifier. */
  lemma SaveUntouchedEditChangesNothing(p: Page, c: Client, isEmail: string -> bool, now: nat)
    requires p.editing != Some(c)
    requires forall i :: 0 <= i < |p.clients| && p.clients[i].id == c.id ==> p.clients[i] == c
    requires ClientForm.ValidateClient(c.Data(), isEmail).Ok?
    ensures SubmitForm(StartEditing(p, c), isEmail, now).0.clients == p.clients
  {
    var q := StartEditing(p, c);
    assert q.form == c.Data();
    assert WithId(c.Data(), c.id) == c;
    var r := EditClients(p.clients, c.id, c.Data());
    assert forall i :: 0 <= i < |p.clients| ==> r[i] == p.clients[i];
  }

  // ---------------------------------------------------------------------------
  // The list header and body
  // ---------------------------------------------------------------------------

  /** The count line above the list, with Spanish singular and plural. */
  function CountLabel(n: nat): (s: string)
    ensures n == 0 ==> s == "No hay clientes registrados aún."
    ensures n == 1 ==> s == "1 cliente registrado"
    ensures n >= 2 ==> s == NumberToString(n) + " clientes registrados"
  {
    if n == 0 then "No hay clientes registrados aún."
    else
      var plural := if n != 1 then "s" else "";
      NumberToString(n) + " cliente" + plural + " registrado" + plural
  }

  /** The count line of a non-empty roster starts with the count itself. */
  lemma CountLabelStartsWithCount(n: nat)
    requires n >= 1
    ensures ParseInt(CountLabel(n)) == Some(n)
  {
    var rest := if n == 1 then " cliente registrado" else " clientes registrados";
    assert CountLabel(n) == NumberToString(n) + rest;
    ParseIntReadsNumberPrefix(n, rest);
  }

  datatype ListView = EmptyPrompt | Cards(cards: seq<Client>)

  /** The call to action for an empty roster; otherwise one card per client, in
      roster order. */
  function RenderList(clients: seq<Client>): (v: ListView)
    ensures v.EmptyPrompt? <==> clients == []
    ensures v.Cards? ==> v.cards == clients
  {
    if |clients| == 0 then EmptyPrompt else Cards(clients)
  }
}
