/**
 * The progress record a background worker publishes to the user interface
 * (src/gui/shared_state.rs), and the worker-side reporter that drives it.
 *
 * The `Mutex`, the `Arc` and the repaint request are left out: the model has
 * one sequential owner. The `AtomicU32` counter is an ordinary field.
 */
module SharedProgress {
  import opened Wrappers

  const U32_LIMIT: int := 0x1_0000_0000

  /** Rust's `u32`. */
  newtype u32 = x: int | 0 <= x < U32_LIMIT

  /** The status text `post_complete` writes. */
  const DONE_MESSAGE: string := "Done! Reboot for changes to take full effect."

  /** Adding one to a `u32` counter, wrapping at 2^32 like `fetch_add`. */
  function Increment(c: u32): u32
  {
    ((c as int + 1) % U32_LIMIT) as u32
  }

  // ---------------------------------------------------------------------
  // Value-level view of the record
  // ---------------------------------------------------------------------

  /** A copy of every field of `SharedState` except the `f32` progress. */
  datatype Progress = Progress(
    totalOps: u32,
    completedOps: u32,
    statusMessage: string,
    logMessages: seq<string>,
    isRunning: bool,
    isComplete: bool,
    error: Option<string>)

  /** The derived `Default`: zero counters, empty texts, both flags off, no error. */
  const Idle: Progress := Progress(0, 0, "", [], false, false, None)

  /** The record as `reset(n)` leaves it, whatever it held before. */
  function Started(n: u32): Progress
  {
    Progress(n, 0, "", [], true, false, None)
  }

  /**
   * The record's two flag invariants: it is never running and complete at
   * once, and an error is only ever recorded on a stopped run.
   */
  ghost predicate Consistent(p: Progress)
  {
    !(p.isRunning && p.isComplete) && (p.error.Some? ==> !p.isRunning)
  }

  /** One call a worker makes on its `WorkerContext`. */
  datatype Report =
    | Status(text: string)     // post_status
    | Advance                  // report_progress
    | Complete                 // post_complete
    | Failure(reason: string)  // post_error

  predicate IsTerminal(e: Report)
  {
    e.Complete? || e.Failure?
  }

  /** A worker context together with the record it reports into. */
  datatype Run = Run(shared: Progress, counter: u32, totalOps: u32)

  /** `WorkerContext::new(shared, ctx, n, inputs)`. */
  function Begin(n: u32): Run
  {
    Run(Started(n), 0, n)
  }

  /** The effect of one report on the worker and the record. */
  function Step(r: Run, e: Report): Run
  {
    match e
    case Status(text) =>
      r.(shared := r.shared.(statusMessage := text, logMessages := r.shared.logMessages + [text]))
    case Advance =>
      var c := Increment(r.counter);
      r.(counter := c, shared := r.shared.(completedOps := c))
    case Complete =>
      r.(shared := r.shared.(isRunning := false, isComplete := true, statusMessage := DONE_MESSAGE))
    case Failure(reason) =>
      r.(shared := r.shared.(isRunning := false, error := Some(reason),
                             statusMessage := "Error: " + reason,
                             logMessages := r.shared.logMessages + ["ERROR: " + reason]))
  }

  /** The effect of a sequence of reports, applied in order. */
  function Replay(r: Run, es: seq<Report>): Run
    decreases |es|
  {
    if es == [] then r else Step(Replay(r, es[..|es| - 1]), es[|es| - 1])
  }

  /** The log line a single report appends, if any. */
  function LogLine(e: Report): seq<string>
  {
    match e
    case Status(text) => [text]
    case Failure(reason) => ["ERROR: " + reason]
    case _ => []
  }

  /** The log lines a sequence of reports appends, in order. */
  function LogLines(es: seq<Report>): seq<string>
    decreases |es|
  {
    if es == [] then [] else LogLines(es[..|es| - 1]) + LogLine(es[|es| - 1])
  }

  /** How many `report_progress` calls a sequence of reports holds. */
  function Advances(es: seq<Report>): nat
    decreases |es|
  {
    if es == [] then 0 else Advances(es[..|es| - 1]) + (if es[|es| - 1].Advance? then 1 else 0)
  }

  // ---------------------------------------------------------------------
  // Properties of runs
  // ---------------------------------------------------------------------

  /** Both the default record and a freshly reset one satisfy the flag invariants. */
  lemma IdleAndStartedConsistent(n: u32)
    ensures Consistent(Idle) && Consistent(Started(n))
  {
  }

  /** Every report keeps the flag invariants, so every run does. */
  lemma {:induction false} ReplayConsistent(r: Run, es: seq<Report>)
    requires Consistent(r.shared)
    ensures Consistent(Replay(r, es).shared)
    decreases |es|
  {
    if es != [] {
      ReplayConsistent(r, es[..|es| - 1]);
    }
  }

  /**
   * The log only grows by appends: after any reports it is the earlier log
   * followed by exactly one line per `post_status` and `post_error`.
   */
  lemma {:induction false} ReplayLog(r: Run, es: seq<Report>)
    ensures Replay(r, es).shared.logMessages == r.shared.logMessages + LogLines(es)
    decreases |es|
  {
    if es != [] {
      ReplayLog(r, es[..|es| - 1]);
    }
  }

  lemma {:induction false} LogLinesAppend(es: seq<Report>, k: nat)
    requires k <= |es|
    ensures LogLines(es[..k]) <= LogLines(es)
    decreases |es|
  {
    if k < |es| {
      LogLinesAppend(es[..|es| - 1], k);
      assert es[..|es| - 1][..k] == es[..k];
    } else {
      assert es[..k] == es;
    }
  }

  /** A log prefix observed at any point of a run is still a prefix later on. */
  lemma LogPrefixStable(r: Run, es: seq<Report>, k: nat)
    requires k <= |es|
    ensures Replay(r, es[..k]).shared.logMessages <= Replay(r, es).shared.logMessages
  {
    ReplayLog(r, es[..k]);
    ReplayLog(r, es);
    LogLinesAppend(es, k);
  }

  /**
   * After `WorkerContext::new(…, n, …)` and any reports holding k progress
   * calls (fewer than 2^32), the worker counter and the published
   * `completed_ops` both equal k, and `total_ops` is still n on both sides.
   */
  lemma {:induction false} ReplayCounts(n: u32, es: seq<Report>)
    requires Advances(es) < U32_LIMIT
    ensures Replay(Begin(n), es).counter as int == Advances(es)
    ensures Replay(Begin(n), es).shared.completedOps as int == Advances(es)
    ensures Replay(Begin(n), es).shared.totalOps == Replay(Begin(n), es).totalOps == n
    decreases |es|
  {
    if es != [] {
      ReplayCounts(n, es[..|es| - 1]);
    }
  }

  /**
   * With no bound on the number of calls, the worker counter and the
   * published `completed_ops` agree and equal the number of
   * `report_progress` calls modulo 2^32: the count wraps to 0 after
   * 2^32 - 1.
   */
  lemma {:induction false} ReplayCountsWrap(n: u32, es: seq<Report>)
    ensures Replay(Begin(n), es).counter as int == Advances(es) % U32_LIMIT
    ensures Replay(Begin(n), es).shared.completedOps == Replay(Begin(n), es).counter
    decreases |es|
  {
    if es != [] {
      var init := es[..|es| - 1];
      ReplayCountsWrap(n, init);
      if es[|es| - 1].Advance? {
        var a := Advances(init);
        assert (a % U32_LIMIT + 1) % U32_LIMIT == (a + 1) % U32_LIMIT;
      }
    }
  }

  lemma {:induction false} AdvancesPrefix(es: seq<Report>, k: nat)
    requires k <= |es|
    ensures Advances(es[..k]) <= Advances(es)
    decreases |es|
  {
    if k < |es| {
      AdvancesPrefix(es[..|es| - 1], k);
      assert es[..|es| - 1][..k] == es[..k];
    } else {
      assert es[..k] == es;
    }
  }

  /** The published `completed_ops` never decreases during a run (below 2^32 calls). */
  lemma CompletedNeverDecreases(n: u32, es: seq<Report>, k: nat)
    requires k <= |es| && Advances(es) < U32_LIMIT
    ensures Replay(Begin(n), es[..k]).shared.completedOps <= Replay(Begin(n), es).shared.completedOps
  {
    AdvancesPrefix(es, k);
    ReplayCounts(n, es[..k]);
    ReplayCounts(n, es);
  }

  /**
   * `report_progress` does not clamp: `completed_ops <= total_ops` holds
   * exactly when the worker made at most `total_ops` progress calls.
   */
  lemma CompletedWithinTotal(n: u32, es: seq<Report>)
    requires Advances(es) < U32_LIMIT
    ensures Replay(Begin(n), es).shared.completedOps <= Replay(Begin(n), es).shared.totalOps
            <==> Advances(es) <= n as int
  {
    ReplayCounts(n, es);
  }

  /** Before its terminal call a run is running, not complete and error-free. */
  lemma {:induction false} RunningUntilTerminal(n: u32, es: seq<Report>)
    requires forall i :: 0 <= i < |es| ==> !IsTerminal(es[i])
    ensures Replay(Begin(n), es).shared.isRunning
    ensures !Replay(Begin(n), es).shared.isComplete
    ensures Replay(Begin(n), es).shared.error == None
    decreases |es|
  {
    if es != [] {
      RunningUntilTerminal(n, es[..|es| - 1]);
    }
  }

  /**
   * A run that ends in its single terminal call: `post_complete` leaves a
   * complete record with no error and the fixed message; `post_error(e)`
   * leaves a stopped, incomplete record holding `e`, with the error line
   * last in the log.
   */
  lemma RunOutcome(n: u32, body: seq<Report>, last: Report)
    requires forall i :: 0 <= i < |body| ==> !IsTerminal(body[i])
    requires IsTerminal(last)
    ensures var p := Replay(Begin(n), body + [last]).shared;
      && !p.isRunning
      && (last.Complete? ==> p.isComplete && p.error == None && p.statusMessage == DONE_MESSAGE)
      && (last.Failure? ==>
            && !p.isComplete && p.error == Some(last.reason)
            && p.statusMessage == "Error: " + last.reason
            && |p.logMessages| > 0 && p.logMessages[|p.logMessages| - 1] == "ERROR: " + last.reason)
  {
    var es := body + [last];
    assert es[..|es| - 1] == body;
    RunningUntilTerminal(n, body);
  }

  // ---------------------------------------------------------------------
  // The mutable objects
  // ---------------------------------------------------------------------

  /** `SharedState`: the record the worker writes and the interface reads. */
  class SharedState {
    var totalOps: u32
    var completedOps: u32
    var statusMessage: string
    var logMessages: seq<string>
    var isRunning: bool
    var isComplete: bool
    var error: Option<string>

    function Snapshot(): Progress
      reads this
    {
      Progress(totalOps, completedOps, statusMessage, logMessages, isRunning, isComplete, error)
    }

    /** `SharedState::default()`. */
    constructor ()
      ensures totalOps == 0 && completedOps == 0
      ensures statusMessage == "" && logMessages == []
      ensures !isRunning && !isComplete && error == None
      ensures Snapshot() == Idle
    {
      totalOps, completedOps := 0, 0;
      statusMessage, logMessages := "", [];
      isRunning, isComplete, error := false, false, None;
    }

    /** `reset(n)`: reinitialises every field, whatever it held, and starts a run. */
    method Reset(n: u32)
      modifies this
      ensures totalOps == n && completedOps == 0
      ensures statusMessage == "" && logMessages == []
      ensures isRunning && !isComplete && error == None
      ensures Snapshot() == Started(n)
    {
      totalOps := n;
      completedOps := 0;
      statusMessage := "";
      logMessages := [];
      isRunning := true;
      isComplete := false;
      error := None;
    }
  }

  /** `WorkerContext`: the per-run reporter a worker holds. */
  class WorkerContext {
    const shared: SharedState
    /** The `AtomicU32` counter of successful operations. */
    var completedOps: u32
    const totalOps: u32
    /** The snapshot of the selection's input values taken for this run. */
    const inputValues: map<string, string>

    function Current(): Run
      reads this, shared
    {
      Run(shared.Snapshot(), completedOps, totalOps)
    }

    /** `WorkerContext::new`: resets the shared record to `n` operations and starts counting at 0. */
    constructor (shared: SharedState, n: u32, inputValues: map<string, string>)
      modifies shared
      ensures this.shared == shared && totalOps == n && completedOps == 0
      ensures this.inputValues == inputValues
      ensures shared.totalOps == n && shared.completedOps == 0
      ensures shared.statusMessage == "" && shared.logMessages == []
      ensures shared.isRunning && !shared.isComplete && shared.error == None
      ensures Current() == Begin(n)
    {
      shared.Reset(n);
      this.shared := shared;
      completedOps := 0;
      totalOps := n;
      this.inputValues := inputValues;
    }

    /** `post_status(text)`: shows `text` and appends it to the log; nothing else changes. */
    method PostStatus(text: string)
      modifies shared
      ensures shared.statusMessage == text
      ensures shared.logMessages == old(shared.logMessages) + [text]
      ensures shared.totalOps == old(shared.totalOps) && shared.completedOps == old(shared.completedOps)
      ensures shared.isRunning == old(shared.isRunning) && shared.isComplete == old(shared.isComplete)
      ensures shared.error == old(shared.error)
      ensures Current() == Step(old(Current()), Status(text))
    {
      shared.statusMessage := text;
      shared.logMessages := shared.logMessages + [text];
    }

    /**
     * `report_progress`: bumps the worker counter by one (wrapping at 2^32)
     * and publishes the new value as the record's `completed_ops`.
     */
    method ReportProgress()
      modifies this, shared
      ensures completedOps == Increment(old(completedOps))
      ensures old(completedOps) as int + 1 < U32_LIMIT ==> completedOps as int == old(completedOps) as int + 1
      ensures shared.completedOps == completedOps
      ensures shared.totalOps == old(shared.totalOps)
      ensures shared.statusMessage == old(shared.statusMessage) && shared.logMessages == old(shared.logMessages)
      ensures shared.isRunning == old(shared.isRunning) && shared.isComplete == old(shared.isComplete)
      ensures shared.error == old(shared.error)
      ensures Current() == Step(old(Current()), Advance)
    {
      completedOps := Increment(completedOps);
      shared.completedOps := completedOps;
    }

    /** `post_complete`: stops the run as complete with the fixed message. */
    method PostComplete()
      modifies shared
      ensures !shared.isRunning && shared.isComplete
      ensures shared.statusMessage == DONE_MESSAGE
      ensures shared.totalOps == old(shared.totalOps) && shared.completedOps == old(shared.completedOps)
      ensures shared.logMessages == old(shared.logMessages) && shared.error == old(shared.error)
      ensures Current() == Step(old(Current()), Complete)
    {
      shared.isRunning := false;
      shared.isComplete := true;
      shared.statusMessage := DONE_MESSAGE;
    }

    /** `post_error(reason)`: stops the run, records the error and logs one error line. */
    method PostError(reason: string)
      modifies shared
      ensures !shared.isRunning && shared.error == Some(reason)
      ensures shared.statusMessage == "Error: " + reason
      ensures shared.logMessages == old(shared.logMessages) + ["ERROR: " + reason]
      ensures shared.totalOps == old(shared.totalOps) && shared.completedOps == old(shared.completedOps)
      ensures shared.isComplete == old(shared.isComplete)
      ensures Current() == Step(old(Current()), Failure(reason))
    {
      shared.isRunning := false;
      shared.error := Some(reason);
      shared.statusMessage := "Error: " + reason;
      shared.logMessages := shared.logMessages + ["ERROR: " + reason];
    }
  }
}
