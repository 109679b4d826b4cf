/** What a data hook does once the backend has answered a mutation: on
    success it marks the resource's cache key stale (`invalidateQueries`) and
    shows a success toast; on failure it leaves the cache alone and shows one
    destructive "Error" toast. The backend answer is an input, so the model
    performs no I/O. */
module HookEffects {

  /** A toast as passed to the notification sink; `destructive` is the
      `variant: "destructive"` flag of the error toasts. */
  datatype Toast = Toast(title: string, description: string, destructive: bool)

  /** The observable state a mutation touches: the query keys invalidated so
      far and the log of toasts shown, oldest first. */
  datatype Ui = Ui(stale: set<string>, toasts: seq<Toast>)

  /** How the backend call of a mutation ended. */
  datatype Outcome = Success | Failure(reason: string)

  /** The answer of a `select`: the rows, or the error the read rethrows. */
  datatype ReadResponse<R> = Rows(rows: seq<R>) | ReadError(message: string)

  /** The fixed parts of one mutation hook: the query key it invalidates and
      the texts of its two toasts. */
  datatype Mutation = Mutation(key: string, successTitle: string, successDescription: string,
                               errorDescription: string)

  const ErrorTitle := "Error"

  function Notify(ui: Ui, t: Toast): Ui {
    ui.(toasts := ui.toasts + [t])
  }

  /** `onSuccess` / `onError` of a mutation hook, given the backend outcome. */
  function Settle(ui: Ui, m: Mutation, outcome: Outcome): (r: Ui)
    ensures |r.toasts| == |ui.toasts| + 1 && r.toasts[..|ui.toasts|] == ui.toasts
    ensures outcome.Success? ==>
              && r.stale == ui.stale + {m.key}
              && r.toasts[|ui.toasts|] == Toast(m.successTitle, m.successDescription, false)
    ensures outcome.Failure? ==>
              && r.stale == ui.stale
              && r.toasts[|ui.toasts|] == Toast(ErrorTitle, m.errorDescription, true)
  {
    match outcome
    case Success => Notify(ui.(stale := ui.stale + {m.key}), Toast(m.successTitle, m.successDescription, false))
    case Failure(_) => Notify(ui, Toast(ErrorTitle, m.errorDescription, true))
  }

  /** A mutation never touches the staleness of any key but its own. */
  lemma SettleIsolatesKeys(ui: Ui, m: Mutation, outcome: Outcome, k: string)
    requires k != m.key
    ensures k in Settle(ui, m, outcome).stale <==> k in ui.stale
  {
  }

  // ---------------------------------------------------------------------------
  // Several mutations in a row
  // ---------------------------------------------------------------------------

  /** Settles a sequence of mutations in the order their backend calls resolved. */
  function SettleAll(ui: Ui, calls: seq<(Mutation, Outcome)>): Ui
    decreases |calls|
  {
    if calls == [] then ui
    else SettleAll(Settle(ui, calls[0].0, calls[0].1), calls[1..])
  }

  /** The keys of the mutations that succeeded. */
  function SucceededKeys(calls: seq<(Mutation, Outcome)>): set<string>
    decreases |calls|
  {
    if calls == [] then {}
    else (if calls[0].1.Success? then {calls[0].0.key} else {}) + SucceededKeys(calls[1..])
  }

  function FailureCount(calls: seq<(Mutation, Outcome)>): nat
    decreases |calls|
  {
    if calls == [] then 0
    else (if calls[0].1.Failure? then 1 else 0) + FailureCount(calls[1..])
  }

  function DestructiveCount(ts: seq<Toast>): nat
    decreases |ts|
  {
    if ts == [] then 0
    else DestructiveCount(ts[..|ts| - 1]) + (if ts[|ts| - 1].destructive then 1 else 0)
  }

  /** Exactly one toast per settled mutation, exactly one destructive toast per
      failure, and the stale keys grow by the keys of the successful ones only. */
  lemma {:induction false} SettleAllAccounts(ui: Ui, calls: seq<(Mutation, Outcome)>)
    ensures var r := SettleAll(ui, calls);
            && |r.toasts| == |ui.toasts| + |calls|
            && r.toasts[..|ui.toasts|] == ui.toasts
            && r.stale == ui.stale + SucceededKeys(calls)
            && DestructiveCount(r.toasts) == DestructiveCount(ui.toasts) + FailureCount(calls)
    decreases |calls|
  {
    if calls != [] {
      var next := Settle(ui, calls[0].0, calls[0].1);
      assert next.toasts[..|ui.toasts|] == ui.toasts;
      assert DestructiveCount(next.toasts) == DestructiveCount(ui.toasts)
                                             + (if calls[0].1.Failure? then 1 else 0) by {
        assert next.toasts[..|next.toasts| - 1] == ui.toasts;
      }
      SettleAllAccounts(next, calls[1..]);
      var r := SettleAll(next, calls[1..]);
      assert r.toasts[..|ui.toasts|] == r.toasts[..|next.toasts|][..|ui.toasts|];
    }
  }
}
