/** The behaviour of a sequence action in the concrete situations its unit
    tests set up, derived from the general model. */
module SequenceScenarios {
  import opened Context
  import opened Actions

  const TicksPerSecond: int := 10_000_000

  function Seconds(n: int): int
  {
    n * TicksPerSecond
  }

  /** A child that records `id` when run and does nothing else. */
  function Plain(id: nat, seconds: int): Action
  {
    Leaf(id, Seconds(seconds), false)
  }

  /** No children: zero duration, and a run in a fresh context completes. */
  lemma EmptySequence()
    ensures Duration(Sequence([])) == 0
    ensures Exec(Sequence([]), Initial(0)) == Execution(Initial(0), Ok, [])
  {
    DurationIsSumOfChildren([]);
  }

  /** 10 s + 1 s + 7 s = 18 s. */
  lemma DurationOfThreeChildren()
    ensures Duration(Sequence([Plain(1, 10), Plain(2, 1), Plain(3, 7)])) == Seconds(18)
  {
    var cs := [Plain(1, 10), Plain(2, 1), Plain(3, 7)];
    DurationIsSumOfChildren(cs);
    var ds := Durations(cs);
    assert ds[..2][..1][..0] == [];
  }

  /** Three zero-duration children in a fresh context each run exactly once. */
  lemma EachChildRunsOnce()
    ensures Exec(Sequence([Plain(1, 0), Plain(2, 0), Plain(3, 0)]), Initial(0))
         == Execution(Initial(0), Ok, [Executed(1), Executed(2), Executed(3)])
  {
    var cs := [Plain(1, 0), Plain(2, 0), Plain(3, 0)];
    QuietLeavesRunOnceInOrder(cs, Initial(0));
  }

  /** Ten children numbered 1..10 run in that order. */
  lemma ChildrenRunInOrder()
    ensures Exec(Sequence(seq(10, i requires 0 <= i < 10 => Plain(i + 1, 0))), Initial(0)).trace
         == seq(10, i requires 0 <= i < 10 => Executed(i + 1))
  {
    var cs := seq(10, i requires 0 <= i < 10 => Plain(i + 1, 0));
    QuietLeavesRunOnceInOrder(cs, Initial(0));
  }

  /** Resuming 11 s in, children of 3 s and 8 s are fast-forwarded and only
      the 2 s child runs, once, whether or not the context is paused. */
  lemma SkipsChildrenCoveredBySkipAhead()
    ensures Exec(Sequence([Plain(1, 3), Plain(2, 8), Plain(3, 2)]), Initial(Seconds(11))).trace
         == [Executed(3)]
    ensures Exec(Sequence([Plain(1, 3), Plain(2, 8), Plain(3, 2)]),
                 Step(Initial(Seconds(11)), SetPaused(true))).trace
         == [Executed(3)]
    ensures Exec(Sequence([Plain(1, 3), Plain(2, 8), Plain(3, 2)]), Initial(Seconds(11))).outcome == Ok
  {
    var a := Sequence([Plain(1, 3), Plain(2, 8), Plain(3, 2)]);
    var s0 := Initial(Seconds(11));
    var s1 := Step(s0, AddProgress(Seconds(3)));
    var s2 := Step(s1, AddProgress(Seconds(8)));
    assert s2.skipAhead == 0;
    assert ExecFrom(a, 2, s2) == Execution(s2, Ok, [Executed(3)]);
    assert ExecFrom(a, 0, s0) == ExecFrom(a, 1, s1) == ExecFrom(a, 2, s2);
    PauseIsIgnored(a, s0, true);
  }

  /** The second of three children cancels: the first two have run once,
      the third never runs, and the sequence fails with cancellation. */
  lemma CancellationStopsTheSequence()
    ensures Exec(Sequence([Plain(1, 0), Leaf(2, 0, true), Plain(3, 0)]), Initial(0)).outcome == Cancelled
    ensures Exec(Sequence([Plain(1, 0), Leaf(2, 0, true), Plain(3, 0)]), Initial(0)).trace
         == [Executed(1), Executed(2)]
  {
    var cs := [Plain(1, 0), Leaf(2, 0, true), Plain(3, 0)];
    CancellingChildStopsSequence(cs, 1, Initial(0));
  }
}
