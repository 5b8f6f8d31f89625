/** The mutable state of one run of a workout: cancellation, pause, the current
    exercise / set / repetition markers and the three time accumulators that
    every progress delta feeds.

    Durations are TimeSpan ticks, written as `int`.

    The context is modelled twice, on purpose:
    - `State` is a value snapshot of every field, and `Step` says what each
      operation does to it; `Run` folds a whole history of operations.  The
      reactive pipelines of the C# context derive their values from the stream of
      operations in exactly this way, and the lemmas below state what those
      pipelines promise about whole histories (progress is the sum of all deltas,
      skip-ahead is the clamped remainder of the resume offset, and so on).
    - `ExecutionContext` is the class whose methods overwrite its fields one
      operation at a time; its invariant says that its fields are the fold of
      the history of operations applied to it so far. */
module Context {

  datatype Option<T> = None | Some(value: T)

  /** An exercise is compared by reference identity; we name it by an id. */
  type ExerciseId = nat

  /** `max(0, t)`: the clamp applied to the skip-ahead the context publishes. */
  function Clamp(t: int): (r: int)
    ensures r >= 0 && r >= t
    ensures r == t || r == 0
  {
    if t < 0 then 0 else t
  }

  /** A snapshot of every field of the context.  `skipAheadRunning` is the
      accumulator of the skip-ahead pipeline: the resume offset minus all
      deltas so far, before the clamp. */
  datatype State = State(
    isCancelled: bool,
    isPaused: bool,
    currentExercise: Option<ExerciseId>,
    currentSet: int,
    currentRepetition: int,
    progress: int,
    currentExerciseProgress: int,
    skipAhead: int,
    skipAheadRunning: int)

  /** The published skip-ahead is always the clamped accumulator. */
  ghost predicate ValidState(s: State)
  {
    s.skipAhead == Clamp(s.skipAheadRunning)
  }

  /** The state right after construction with resume offset `skipAhead`. */
  function Initial(skipAhead: int): (s: State)
    ensures ValidState(s)
  {
    State(false, false, None, 0, 0, 0, 0, Clamp(skipAhead), skipAhead)
  }

  /** Every operation that changes the context. */
  datatype Command =
    | Cancel
    | SetPaused(paused: bool)
    | AddProgress(delta: int)
    | SetCurrentExercise(exercise: Option<ExerciseId>)
    | SetCurrentSet(number: int)
    | SetCurrentRepetition(repetition: int)

  /** The effect of one operation.  Assigning the exercise that is already
      current changes nothing (the property is only raised when it changes), so
      it does not restart the per-exercise progress. */
  function Step(s: State, c: Command): (r: State)
    ensures r.isCancelled == (s.isCancelled || c.Cancel?)
    ensures r.isPaused == (if c.SetPaused? then c.paused else s.isPaused)
    ensures r.currentExercise == (if c.SetCurrentExercise? then c.exercise else s.currentExercise)
    ensures r.currentSet == (if c.SetCurrentSet? then c.number else s.currentSet)
    ensures r.currentRepetition == (if c.SetCurrentRepetition? then c.repetition else s.currentRepetition)
    ensures r.progress == s.progress + (if c.AddProgress? then c.delta else 0)
    ensures r.skipAheadRunning == s.skipAheadRunning - (if c.AddProgress? then c.delta else 0)
    ensures r.currentExerciseProgress ==
              if c.AddProgress? then s.currentExerciseProgress + c.delta
              else if c.SetCurrentExercise? && c.exercise != s.currentExercise then 0
              else s.currentExerciseProgress
    ensures ValidState(s) ==> ValidState(r)
  {
    match c
    case Cancel => s.(isCancelled := true)
    case SetPaused(b) => s.(isPaused := b)
    case AddProgress(d) =>
      s.(progress := s.progress + d,
         currentExerciseProgress := s.currentExerciseProgress + d,
         skipAheadRunning := s.skipAheadRunning - d,
         skipAhead := Clamp(s.skipAheadRunning - d))
    case SetCurrentExercise(e) =>
      if e == s.currentExercise then s
      else s.(currentExercise := e, currentExerciseProgress := 0)
    case SetCurrentSet(n) => s.(currentSet := n)
    case SetCurrentRepetition(n) => s.(currentRepetition := n)
  }

  /** The state after applying a history of operations, oldest first. */
  function Run(s: State, h: seq<Command>): State
  {
    if h == [] then s else Step(Run(s, h[..|h| - 1]), h[|h| - 1])
  }

  /** The progress deltas of a history, in the order they were reported. */
  function Deltas(h: seq<Command>): seq<int>
  {
    if h == [] then []
    else Deltas(h[..|h| - 1]) + (if h[|h| - 1].AddProgress? then [h[|h| - 1].delta] else [])
  }

  function Sum(xs: seq<int>): int
  {
    if xs == [] then 0 else Sum(xs[..|xs| - 1]) + xs[|xs| - 1]
  }

  /** No operation of the history names an exercise other than `e`. */
  ghost predicate KeepsExercise(h: seq<Command>, e: Option<ExerciseId>)
  {
    forall i :: 0 <= i < |h| && h[i].SetCurrentExercise? ==> h[i].exercise == e
  }

  ghost predicate NonNegative(xs: seq<int>)
  {
    forall i :: 0 <= i < |xs| ==> xs[i] >= 0
  }

  /** The condition `WaitWhilePaused` waits for: neither paused nor cancelled. */
  predicate Resumable(s: State)
  {
    !s.isPaused && !s.isCancelled
  }

  /** `WaitWhilePaused` subscribed in state `s`, while the operations `future`
      happen afterwards: it completes after the first `k` of them, for the least
      `k` at which the context is resumable (`k == 0`: at once), and never
      (`None`) if no such point comes.  `k` starts the search. */
  function WaitWhilePaused(s: State, future: seq<Command>, k: nat): (r: Option<nat>)
    requires k <= |future|
    ensures r.Some? ==> k <= r.value <= |future| && Resumable(Run(s, future[..r.value]))
    ensures r.Some? ==> forall j :: k <= j < r.value ==> !Resumable(Run(s, future[..j]))
    ensures r.None? ==> forall j :: k <= j <= |future| ==> !Resumable(Run(s, future[..j]))
    decreases |future| - k
  {
    if Resumable(Run(s, future[..k])) then Some(k)
    else if k == |future| then None
    else WaitWhilePaused(s, future, k + 1)
  }

  // ---------------------------------------------------------------------------
  // Histories

  lemma {:induction false} RunAppend(s: State, a: seq<Command>, b: seq<Command>)
    ensures Run(s, a + b) == Run(Run(s, a), b)
    decreases |b|
  {
    if b == [] {
      assert a + b == a;
    } else {
      var b' := b[..|b| - 1];
      assert (a + b)[..|a + b| - 1] == a + b';
      RunAppend(s, a, b');
    }
  }

  lemma {:induction false} SumAppend(xs: seq<int>, ys: seq<int>)
    ensures Sum(xs + ys) == Sum(xs) + Sum(ys)
    decreases |ys|
  {
    if ys == [] {
      assert xs + ys == xs;
    } else {
      var ys' := ys[..|ys| - 1];
      assert (xs + ys)[..|xs + ys| - 1] == xs + ys';
      SumAppend(xs, ys');
    }
  }

  lemma {:induction false} SumNonNegative(xs: seq<int>)
    requires NonNegative(xs)
    ensures Sum(xs) >= 0
    decreases |xs|
  {
    if xs != [] {
      var xs' := xs[..|xs| - 1];
      assert NonNegative(xs') by {
        forall i | 0 <= i < |xs'| ensures xs'[i] >= 0 { assert xs'[i] == xs[i]; }
      }
      SumNonNegative(xs');
    }
  }

  // ---------------------------------------------------------------------------
  // Cancellation

  /** Cancelling twice is cancelling once. */
  lemma CancelIdempotent(s: State)
    ensures Step(Step(s, Cancel), Cancel) == Step(s, Cancel)
    ensures Step(s, Cancel).isCancelled
  {
  }

  /** No operation ever clears the cancel flag. */
  lemma {:induction false} CancelIsPermanent(s: State, h: seq<Command>)
    requires s.isCancelled
    ensures Run(s, h).isCancelled
    decreases |h|
  {
    if h != [] {
      CancelIsPermanent(s, h[..|h| - 1]);
    }
  }

  /** The context is cancelled after a history iff it was cancelled before it
      or the history contains `Cancel`. */
  lemma {:induction false} CancelledIffCancelIssued(s: State, h: seq<Command>)
    ensures Run(s, h).isCancelled <==> (s.isCancelled || Cancel in h)
    decreases |h|
  {
    if h != [] {
      var h' := h[..|h| - 1];
      CancelledIffCancelIssued(s, h');
      assert h == h' + [h[|h| - 1]];
      assert Cancel in h <==> (Cancel in h' || h[|h| - 1] == Cancel);
    }
  }

  /** Once the context is cancelled, `WaitWhilePaused` never completes,
      whatever happens afterwards (unpausing included). */
  lemma CancelledNeverResumes(s: State, future: seq<Command>)
    requires s.isCancelled
    ensures WaitWhilePaused(s, future, 0) == None
  {
    var r := WaitWhilePaused(s, future, 0);
    if r.Some? {
      CancelIsPermanent(s, future[..r.value]);
    }
  }

  /** Never paused and not cancelled: `WaitWhilePaused` completes at once. */
  lemma ResumableCompletesAtOnce(s: State, future: seq<Command>)
    requires !s.isPaused && !s.isCancelled
    ensures WaitWhilePaused(s, future, 0) == Some(0)
  {
    assert future[..0] == [];
  }

  /** Paused and not cancelled: `WaitWhilePaused` completes right after the
      pause is cleared, and not before. */
  lemma {:induction false} CompletesWhenUnpaused(s: State, busy: seq<Command>, future: seq<Command>)
    requires s.isPaused && !s.isCancelled
    requires forall i :: 0 <= i < |busy| ==> !busy[i].SetPaused? && !busy[i].Cancel?
    ensures WaitWhilePaused(s, busy + [SetPaused(false)] + future, 0) == Some(|busy| + 1)
  {
    var h := busy + [SetPaused(false)] + future;
    forall j | 0 <= j <= |busy| ensures Run(s, h[..j]).isPaused && !Run(s, h[..j]).isCancelled {
      assert h[..j] == busy[..j];
      ControlUnchanged(s, busy[..j]);
    }
    assert h[..|busy| + 1] == busy + [SetPaused(false)];
    ControlUnchanged(s, busy);
  }

  /** A history without pause or cancel operations leaves both flags alone. */
  lemma {:induction false} ControlUnchanged(s: State, h: seq<Command>)
    requires forall i :: 0 <= i < |h| ==> !h[i].SetPaused? && !h[i].Cancel?
    ensures Run(s, h).isPaused == s.isPaused && Run(s, h).isCancelled == s.isCancelled
    decreases |h|
  {
    if h != [] {
      ControlUnchanged(s, h[..|h| - 1]);
    }
  }

  // ---------------------------------------------------------------------------
  // The accumulators

  /** Progress grows by exactly the sum of the deltas reported. */
  lemma {:induction false} ProgressIsSumOfDeltas(s: State, h: seq<Command>)
    ensures Run(s, h).progress == s.progress + Sum(Deltas(h))
    decreases |h|
  {
    if h != [] {
      var h' := h[..|h| - 1];
      ProgressIsSumOfDeltas(s, h');
      var last := if h[|h| - 1].AddProgress? then [h[|h| - 1].delta] else [];
      SumAppend(Deltas(h'), last);
    }
  }

  /** From a fresh context, progress is the sum of every delta reported. */
  lemma FreshProgressIsSum(offset: int, h: seq<Command>)
    ensures Initial(offset).progress == 0
    ensures Run(Initial(offset), h).progress == Sum(Deltas(h))
  {
    ProgressIsSumOfDeltas(Initial(offset), h);
  }

  /** With non-negative deltas, progress never decreases. */
  lemma ProgressNeverDecreases(s: State, h: seq<Command>)
    requires NonNegative(Deltas(h))
    ensures Run(s, h).progress >= s.progress
  {
    ProgressIsSumOfDeltas(s, h);
    SumNonNegative(Deltas(h));
  }

  /** The skip-ahead accumulator loses exactly the deltas reported, and the
      published value stays its clamp. */
  lemma {:induction false} SkipAheadRunningIsRemainder(s: State, h: seq<Command>)
    requires ValidState(s)
    ensures Run(s, h).skipAheadRunning == s.skipAheadRunning - Sum(Deltas(h))
    ensures ValidState(Run(s, h))
    decreases |h|
  {
    if h != [] {
      var h' := h[..|h| - 1];
      SkipAheadRunningIsRemainder(s, h');
      var last := if h[|h| - 1].AddProgress? then [h[|h| - 1].delta] else [];
      SumAppend(Deltas(h'), last);
    }
  }

  /** Skip-ahead is `max(0, offset - sum of deltas)`: the clamp applies to the
      published value, not to the running difference. */
  lemma FreshSkipAheadIsClampedRemainder(offset: int, h: seq<Command>)
    ensures Initial(offset).skipAhead == Clamp(offset)
    ensures Run(Initial(offset), h).skipAhead == Clamp(offset - Sum(Deltas(h)))
  {
    SkipAheadRunningIsRemainder(Initial(offset), h);
  }

  /** With non-negative deltas skip-ahead is never negative and never grows. */
  lemma SkipAheadNeverIncreases(s: State, h: seq<Command>)
    requires ValidState(s)
    requires NonNegative(Deltas(h))
    ensures 0 <= Run(s, h).skipAhead <= s.skipAhead
  {
    SkipAheadRunningIsRemainder(s, h);
    SumNonNegative(Deltas(h));
  }

  /** An example where clamping the running difference would give a different
      answer: offset 5, then deltas 10 and -8.  The context publishes 3; a
      running clamp would give 8. */
  lemma ClampAppliesToOutput()
    ensures Run(Initial(5), [AddProgress(10), AddProgress(-8)]).skipAhead == 3
    ensures Clamp(Clamp(5 - 10) - (-8)) == 8
  {
    var h := [AddProgress(10), AddProgress(-8)];
    assert h[..1] == [AddProgress(10)];
    assert h[..1][..0] == [];
  }

  /** While the exercise does not change, per-exercise progress grows by
      exactly the deltas reported. */
  lemma {:induction false} ExerciseProgressAccumulates(s: State, h: seq<Command>)
    requires KeepsExercise(h, s.currentExercise)
    ensures Run(s, h).currentExercise == s.currentExercise
    ensures Run(s, h).currentExerciseProgress == s.currentExerciseProgress + Sum(Deltas(h))
    decreases |h|
  {
    if h != [] {
      var h' := h[..|h| - 1];
      assert KeepsExercise(h', s.currentExercise) by {
        forall i | 0 <= i < |h'| && h'[i].SetCurrentExercise?
          ensures h'[i].exercise == s.currentExercise
        {
          assert h'[i] == h[i];
        }
      }
      ExerciseProgressAccumulates(s, h');
      var last := if h[|h| - 1].AddProgress? then [h[|h| - 1].delta] else [];
      SumAppend(Deltas(h'), last);
    }
  }

  /** Per-exercise progress is the sum of the deltas reported since the
      exercise last changed: after a change to `e`, and any history that keeps
      `e`, it equals the deltas of that history alone. */
  lemma ExerciseChangeRestartsProgress(s: State, before: seq<Command>, e: Option<ExerciseId>, after: seq<Command>)
    requires Run(s, before).currentExercise != e
    requires KeepsExercise(after, e)
    ensures Run(s, before + [SetCurrentExercise(e)] + after).currentExercise == e
    ensures Run(s, before + [SetCurrentExercise(e)] + after).currentExerciseProgress == Sum(Deltas(after))
  {
    RunAppend(s, before + [SetCurrentExercise(e)], after);
    RunAppend(s, before, [SetCurrentExercise(e)]);
    var m := Run(s, before + [SetCurrentExercise(e)]);
    assert [SetCurrentExercise(e)][..0] == [];
    assert m.currentExercise == e && m.currentExerciseProgress == 0;
    ExerciseProgressAccumulates(m, after);
  }

  /** Setting the exercise that is already current changes nothing at all. */
  lemma SameExerciseKeepsProgress(s: State)
    ensures Step(s, SetCurrentExercise(s.currentExercise)) == s
  {
  }

  // ---------------------------------------------------------------------------
  // The object

  class ExecutionContext {
    var isCancelled: bool
    var isPaused: bool
    var currentExercise: Option<ExerciseId>
    var currentSet: int
    var currentRepetition: int
    var progress: int
    var currentExerciseProgress: int
    var skipAhead: int
    /** The accumulator of the skip-ahead pipeline, before the clamp. */
    var skipAheadRunning: int

    /** The resume offset given at construction. */
    ghost const offset: int
    /** Every operation applied to this context, oldest first. */
    ghost var history: seq<Command>

    /** The value of every field, as one snapshot. */
    function Snapshot(): State
      reads this
    {
      State(isCancelled, isPaused, currentExercise, currentSet, currentRepetition,
                    progress, currentExerciseProgress, skipAhead, skipAheadRunning)
    }

    /** The fields are the fold of the history over the initial state. */
    ghost predicate Valid()
      reads this
    {
      Snapshot() == Run(Initial(offset), history)
    }

    /** The source's default for the resume offset is zero. */
    constructor (skipAhead: int := 0)
      ensures Valid() && history == [] && offset == skipAhead
      ensures Snapshot() == Initial(skipAhead)
      ensures !isCancelled && !isPaused && progress == 0 && currentExerciseProgress == 0
      ensures this.skipAhead == Clamp(skipAhead)
    {
      isCancelled, isPaused := false, false;
      currentExercise, currentSet, currentRepetition := None, 0, 0;
      progress, currentExerciseProgress := 0, 0;
      this.skipAhead, skipAheadRunning := Clamp(skipAhead), skipAhead;
      offset, history := skipAhead, [];
    }

    method Cancel()
      requires Valid()
      modifies this
      ensures Valid() && history == old(history) + [Command.Cancel]
      ensures Snapshot() == old(Snapshot()).(isCancelled := true)
    {
      isCancelled := true;
      history := history + [Command.Cancel];
      assert history[..|history| - 1] == old(history);
    }

    method SetPaused(paused: bool)
      requires Valid()
      modifies this
      ensures Valid() && history == old(history) + [Command.SetPaused(paused)]
      ensures Snapshot() == old(Snapshot()).(isPaused := paused)
    {
      isPaused := paused;
      history := history + [Command.SetPaused(paused)];
      assert history[..|history| - 1] == old(history);
    }

    method AddProgress(delta: int)
      requires Valid()
      modifies this
      ensures Valid() && history == old(history) + [Command.AddProgress(delta)]
      ensures progress == old(progress) + delta
      ensures currentExerciseProgress == old(currentExerciseProgress) + delta
      ensures skipAheadRunning == old(skipAheadRunning) - delta
      ensures skipAhead == Clamp(old(skipAheadRunning) - delta)
      ensures isCancelled == old(isCancelled) && isPaused == old(isPaused)
      ensures currentExercise == old(currentExercise) && currentSet == old(currentSet)
      ensures currentRepetition == old(currentRepetition)
      ensures Snapshot() == Step(old(Snapshot()), Command.AddProgress(delta))
    {
      ghost var before := Snapshot();
      progress := progress + delta;
      currentExerciseProgress := currentExerciseProgress + delta;
      skipAheadRunning := skipAheadRunning - delta;
      skipAhead := Clamp(skipAheadRunning);
      assert Snapshot() == Step(before, Command.AddProgress(delta));
      history := history + [Command.AddProgress(delta)];
      assert history[..|history| - 1] == old(history);
    }

    method SetCurrentExercise(exercise: Option<ExerciseId>)
      requires Valid()
      modifies this
      ensures Valid() && history == old(history) + [Command.SetCurrentExercise(exercise)]
      ensures currentExercise == exercise
      ensures currentExerciseProgress ==
              if exercise == old(currentExercise) then old(currentExerciseProgress) else 0
      ensures Snapshot() == Step(old(Snapshot()), Command.SetCurrentExercise(exercise))
    {
      if exercise != currentExercise {
        currentExercise := exercise;
        currentExerciseProgress := 0;
      }
      history := history + [Command.SetCurrentExercise(exercise)];
      assert history[..|history| - 1] == old(history);
    }

    method SetCurrentSet(number: int)
      requires Valid()
      modifies this
      ensures Valid() && history == old(history) + [Command.SetCurrentSet(number)]
      ensures Snapshot() == old(Snapshot()).(currentSet := number)
    {
      currentSet := number;
      history := history + [Command.SetCurrentSet(number)];
      assert history[..|history| - 1] == old(history);
    }

    method SetCurrentRepetition(repetition: int)
      requires Valid()
      modifies this
      ensures Valid() && history == old(history) + [Command.SetCurrentRepetition(repetition)]
      ensures Snapshot() == old(Snapshot()).(currentRepetition := repetition)
    {
      currentRepetition := repetition;
      history := history + [Command.SetCurrentRepetition(repetition)];
      assert history[..|history| - 1] == old(history);
    }
  }
}
