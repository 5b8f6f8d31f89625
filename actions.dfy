/** The actions a workout is built from, their durations, and what executing
    one does to an execution context.

    Executing an action is specified by the function `Exec`, which threads a
    snapshot of the context and returns the new snapshot, the outcome and the
    trace of leaf steps that actually ran.  The methods `Execute` and
    `ExecuteSequence` do the same on a live `ExecutionContext` object and are
    proved to agree with `Exec`. */
module Actions {
  import opened Context

  /** A wait that speaks `prompt` before it waits.  Its delay and speech
      services are outside this model: running it is one recorded step. */
  datatype WaitWithPromptAction = WaitWithPromptAction(id: nat, duration: int, prompt: string)

  /** The inner action of a prepare action always speaks "prepare". */
  type PrepareInner = w: WaitWithPromptAction | w.prompt == "prepare"
    witness WaitWithPromptAction(0, 0, "prepare")

  datatype Action =
    /** Any other action (a test double, say): running it records `id` and,
        when `cancels` holds, cancels the context it runs in. */
    | Leaf(id: nat, duration: int, cancels: bool)
    | WaitWithPrompt(wait: WaitWithPromptAction)
    /** A prepare action holds one read-only inner wait-with-prompt. */
    | Prepare(inner: PrepareInner)
    | Sequence(children: seq<Action>)

  /** Completion, or failure by cancellation. */
  datatype Outcome = Ok | Cancelled

  /** A leaf step that actually ran (skipped children leave none). */
  datatype Event = Executed(id: nat) | Prompted(id: nat, text: string)

  datatype Execution = Execution(state: State, outcome: Outcome, trace: seq<Event>)

  /** A leaf lasts its own span, a prepare action as long as its inner
      wait, and a sequence as long as all its children together. */
  function Duration(a: Action): (r: int)
    ensures a.Sequence? ==> r == Sum(Durations(a.children))
    decreases a, 1, 0
  {
    match a
    case Leaf(_, d, _) => d
    case WaitWithPrompt(w) => w.duration
    case Prepare(inner) => inner.duration
    case Sequence(cs) =>
      assert Durations(cs)[0..] == Durations(cs);
      DurationFrom(a, 0)
  }

  /** The total duration of the children of `a` from index `i` on. */
  function DurationFrom(a: Action, i: nat): (r: int)
    requires a.Sequence? && i <= |a.children|
    ensures r == Sum(Durations(a.children)[i..])
    decreases a, 0, |a.children| - i
  {
    var ds := Durations(a.children);
    if i == |a.children| then
      assert ds[i..] == [];
      0
    else
      assert ds[i..] == [ds[i]] + ds[i + 1..];
      assert [ds[i]][..0] == [];
      SumAppend([ds[i]], ds[i + 1..]);
      Duration(a.children[i]) + DurationFrom(a, i + 1)
  }

  /** The durations of `cs`, child by child. */
  function Durations(cs: seq<Action>): seq<int>
  {
    seq(|cs|, i requires 0 <= i < |cs| => Duration(cs[i]))
  }

  /** A child is fast-forwarded when there is skip-ahead left and it covers
      the child's whole duration. */
  predicate Skips(s: State, child: Action): (r: bool)
    ensures r ==> s.skipAhead > 0
    ensures r && ValidState(s) ==>
              Step(s, AddProgress(Duration(child))).skipAhead == s.skipAhead - Duration(child)
  {
    s.skipAhead > 0 && s.skipAhead >= Duration(child)
  }

  function Prepend(t: seq<Event>, e: Execution): Execution
  {
    e.(trace := t + e.trace)
  }

  /** What a wait-with-prompt does, as far as this model sees it. */
  function ExecWait(w: WaitWithPromptAction, s: State): Execution
  {
    Execution(s, Ok, [Prompted(w.id, w.prompt)])
  }

  /** Executing `a` in state `s`.  Execution never clears the cancel flag,
      an action fails with cancellation only if the context ended up
      cancelled, and a sequence fails with cancellation exactly then. */
  function Exec(a: Action, s: State): (r: Execution)
    ensures s.isCancelled ==> r.state.isCancelled
    ensures r.outcome == Cancelled ==> r.state.isCancelled
    ensures a.Sequence? ==> (r.outcome == Cancelled <==> r.state.isCancelled)
    decreases a, 1, 0
  {
    match a
    case Leaf(id, _, cancels) => Execution(if cancels then Step(s, Cancel) else s, Ok, [Executed(id)])
    case WaitWithPrompt(w) => ExecWait(w, s)
    case Prepare(inner) => ExecWait(inner, s)
    case Sequence(_) => ExecFrom(a, 0, s)
  }

  /** Executing the children of the sequence `a` from index `i` on: stop with
      `Cancelled` once the context is cancelled; fast-forward a child that the
      skip-ahead covers by reporting its duration as progress; otherwise run
      it, and stop if it failed with cancellation. */
  function ExecFrom(a: Action, i: nat, s: State): (r: Execution)
    requires a.Sequence? && i <= |a.children|
    ensures s.isCancelled ==> r.state.isCancelled
    ensures r.outcome == Cancelled <==> r.state.isCancelled
    decreases a, 0, |a.children| - i
  {
    if s.isCancelled then Execution(s, Cancelled, [])
    else if i == |a.children| then Execution(s, Ok, [])
    else
      var child := a.children[i];
      if Skips(s, child) then ExecFrom(a, i + 1, Step(s, AddProgress(Duration(child))))
      else
        var r := Exec(child, s);
        if r.outcome == Cancelled then r else Prepend(r.trace, ExecFrom(a, i + 1, r.state))
  }

  // ---------------------------------------------------------------------------
  // Execution against a live context

  method Execute(a: Action, ctx: ExecutionContext) returns (r: Outcome, ghost trace: seq<Event>)
    requires ctx.Valid()
    modifies ctx
    ensures ctx.Valid() && old(ctx.history) <= ctx.history
    ensures Execution(ctx.Snapshot(), r, trace) == Exec(a, old(ctx.Snapshot()))
    decreases a, 1
  {
    match a
    case Leaf(id, _, cancels) =>
      if cancels {
        ctx.Cancel();
      }
      r, trace := Ok, [Executed(id)];
    case WaitWithPrompt(w) =>
      r, trace := Ok, [Prompted(w.id, w.prompt)];
    case Prepare(inner) =>
      r, trace := Ok, [Prompted(inner.id, inner.prompt)];
    case Sequence(_) =>
      r, trace := ExecuteSequence(a, ctx);
  }

  method ExecuteSequence(a: Action, ctx: ExecutionContext) returns (r: Outcome, ghost trace: seq<Event>)
    requires a.Sequence? && ctx.Valid()
    modifies ctx
    ensures ctx.Valid() && old(ctx.history) <= ctx.history
    ensures Execution(ctx.Snapshot(), r, trace) == ExecFrom(a, 0, old(ctx.Snapshot()))
    decreases a, 0
  {
    var children := a.children;
    var i := 0;
    trace := [];
    while i < |children|
      invariant 0 <= i <= |children|
      invariant ctx.Valid() && old(ctx.history) <= ctx.history
      invariant Prepend(trace, ExecFrom(a, i, ctx.Snapshot())) == ExecFrom(a, 0, old(ctx.Snapshot()))
    {
      if ctx.isCancelled {
        return Cancelled, trace;
      }
      var child := children[i];
      var d := Duration(child);
      if ctx.skipAhead > 0 && ctx.skipAhead >= d {
        ctx.AddProgress(d);
      } else {
        assert child in a.children;
        var cr;
        ghost var ct;
        cr, ct := Execute(child, ctx);
        trace := trace + ct;
        if cr == Cancelled {
          return Cancelled, trace;
        }
      }
      i := i + 1;
    }
    if ctx.isCancelled {
      r := Cancelled;
    } else {
      r := Ok;
    }
  }

  // ---------------------------------------------------------------------------
  // Durations

  /** A sequence lasts exactly as long as all its children together;
      with no children it lasts zero. */
  lemma DurationIsSumOfChildren(cs: seq<Action>)
    ensures Duration(Sequence(cs)) == Sum(Durations(cs))
    ensures cs == [] ==> Duration(Sequence(cs)) == 0
  {
  }

  /** Splitting the children of a sequence splits its duration. */
  lemma DurationAppend(xs: seq<Action>, ys: seq<Action>)
    ensures Duration(Sequence(xs + ys)) == Duration(Sequence(xs)) + Duration(Sequence(ys))
  {
    DurationIsSumOfChildren(xs + ys);
    DurationIsSumOfChildren(xs);
    DurationIsSumOfChildren(ys);
    assert Durations(xs + ys) == Durations(xs) + Durations(ys);
    SumAppend(Durations(xs), Durations(ys));
  }

  // ---------------------------------------------------------------------------
  // Cancellation

  /** A sequence started in a cancelled context runs nothing and fails. */
  lemma CancelledSequenceRunsNothing(cs: seq<Action>, s: State)
    requires s.isCancelled
    ensures Exec(Sequence(cs), s) == Execution(s, Cancelled, [])
  {
  }

  // ---------------------------------------------------------------------------
  // Pause

  function WithPause(e: Execution, paused: bool): Execution
  {
    e.(state := e.state.(isPaused := paused))
  }

  /** Nothing a sequence decides (which children to skip, which to run, when
      to stop) depends on the pause flag; in particular children are skipped
      the same way when the context is paused. */
  lemma {:induction false} PauseIsIgnored(a: Action, s: State, paused: bool)
    ensures Exec(a, s.(isPaused := paused)) == WithPause(Exec(a, s), paused)
    decreases a, 1
  {
    if a.Sequence? {
      PauseIsIgnoredFrom(a, 0, s, paused);
    }
  }

  lemma {:induction false} PauseIsIgnoredFrom(a: Action, i: nat, s: State, paused: bool)
    requires a.Sequence? && i <= |a.children|
    ensures ExecFrom(a, i, s.(isPaused := paused)) == WithPause(ExecFrom(a, i, s), paused)
    decreases a, 0, |a.children| - i
  {
    var p := s.(isPaused := paused);
    if !s.isCancelled && i < |a.children| {
      var child := a.children[i];
      if Skips(s, child) {
        var next := Step(s, AddProgress(Duration(child)));
        assert Step(p, AddProgress(Duration(child))) == next.(isPaused := paused);
        PauseIsIgnoredFrom(a, i + 1, next, paused);
      } else {
        PauseIsIgnored(child, s, paused);
        var r := Exec(child, s);
        if r.outcome != Cancelled {
          PauseIsIgnoredFrom(a, i + 1, r.state, paused);
        }
      }
    }
  }

  // ---------------------------------------------------------------------------
  // Skipping

  /** A skipped child runs nothing; the skip-ahead loses exactly its duration
      (no clamping is needed), and the progress counters gain it. */
  lemma SkipReportsDuration(a: Action, i: nat, s: State)
    requires a.Sequence? && i < |a.children|
    requires ValidState(s) && !s.isCancelled && Skips(s, a.children[i])
    ensures ExecFrom(a, i, s) == ExecFrom(a, i + 1, Step(s, AddProgress(Duration(a.children[i]))))
    ensures Step(s, AddProgress(Duration(a.children[i]))).skipAhead == s.skipAhead - Duration(a.children[i])
    ensures Step(s, AddProgress(Duration(a.children[i]))).progress == s.progress + Duration(a.children[i])
  {
  }

  // ---------------------------------------------------------------------------
  // Sequences of plain leaves

  /** The children of `cs` are leaves, none of which cancels before index `k`
      (children of other kinds may follow the first `k + 1` when only
      `cs[..k + 1]` is constrained). */
  ghost predicate LeavesQuietBefore(cs: seq<Action>, k: int)
  {
    forall j :: 0 <= j < |cs| ==> cs[j].Leaf? && (j < k ==> !cs[j].cancels)
  }

  /** No child of `cs` is covered by the skip-ahead of `s`. */
  ghost predicate NoneSkipped(s: State, cs: seq<Action>)
  {
    forall j :: 0 <= j < |cs| ==> !Skips(s, cs[j])
  }

  lemma {:induction false} QuietLeavesFrom(a: Action, i: nat, s: State)
    requires a.Sequence? && i <= |a.children|
    requires LeavesQuietBefore(a.children, |a.children|) && NoneSkipped(s, a.children)
    requires !s.isCancelled
    ensures ExecFrom(a, i, s).state == s && ExecFrom(a, i, s).outcome == Ok
    ensures |ExecFrom(a, i, s).trace| == |a.children| - i
    ensures forall j :: i <= j < |a.children| ==> ExecFrom(a, i, s).trace[j - i] == Executed(a.children[j].id)
    decreases |a.children| - i
  {
    if i < |a.children| {
      QuietLeavesFrom(a, i + 1, s);
    }
  }

  /** With nothing skipped and nothing cancelled, each child runs exactly
      once, in declared order, whatever its duration, and the sequence
      completes. */
  lemma QuietLeavesRunOnceInOrder(cs: seq<Action>, s: State)
    requires LeavesQuietBefore(cs, |cs|) && NoneSkipped(s, cs) && !s.isCancelled
    ensures Exec(Sequence(cs), s).outcome == Ok && Exec(Sequence(cs), s).state == s
    ensures |Exec(Sequence(cs), s).trace| == |cs|
    ensures forall j :: 0 <= j < |cs| ==> Exec(Sequence(cs), s).trace[j] == Executed(cs[j].id)
  {
    QuietLeavesFrom(Sequence(cs), 0, s);
  }

  lemma {:induction false} CancellingLeafFrom(a: Action, k: nat, i: nat, s: State)
    requires a.Sequence? && i <= k < |a.children|
    requires LeavesQuietBefore(a.children[..k + 1], k) && a.children[k].cancels
    requires NoneSkipped(s, a.children[..k + 1]) && !s.isCancelled
    ensures ExecFrom(a, i, s).state == Step(s, Cancel) && ExecFrom(a, i, s).outcome == Cancelled
    ensures |ExecFrom(a, i, s).trace| == k + 1 - i
    ensures forall j :: i <= j <= k ==> ExecFrom(a, i, s).trace[j - i] == Executed(a.children[j].id)
    decreases k - i
  {
    assert a.children[..k + 1][i] == a.children[i];
    if i < k {
      CancellingLeafFrom(a, k, i + 1, s);
    }
  }

  /** When child `k` cancels the context, children `0..k` have each run once,
      in order, no later child runs, and the sequence fails with
      cancellation. */
  lemma CancellingChildStopsSequence(cs: seq<Action>, k: nat, s: State)
    requires k < |cs| && LeavesQuietBefore(cs[..k + 1], k) && cs[k].cancels
    requires NoneSkipped(s, cs[..k + 1]) && !s.isCancelled
    ensures Exec(Sequence(cs), s).outcome == Cancelled
    ensures Exec(Sequence(cs), s).state == Step(s, Cancel)
    ensures |Exec(Sequence(cs), s).trace| == k + 1
    ensures forall j :: 0 <= j <= k ==> Exec(Sequence(cs), s).trace[j] == Executed(cs[j].id)
    ensures forall e :: e in Exec(Sequence(cs), s).trace ==> e.Executed?
    ensures forall j' :: k < j' < |cs| && cs[j'].Leaf? && (forall j :: 0 <= j <= k ==> cs[j].id != cs[j'].id) ==>
              Executed(cs[j'].id) !in Exec(Sequence(cs), s).trace
  {
    CancellingLeafFrom(Sequence(cs), k, 0, s);
  }
}
