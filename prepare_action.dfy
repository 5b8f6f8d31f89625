/** A prepare action: a wait-with-prompt whose prompt is always "prepare".
    Its duration and its execution are those of the inner action. */
module PrepareActions {
  import opened Context
  import opened Actions

  /** The constructor: wraps a fresh inner wait-with-prompt of the given
      duration and the fixed prompt. */
  function NewPrepare(id: nat, duration: int): (a: Action)
    ensures a.Prepare? && a.inner.prompt == "prepare" && a.inner.id == id
    ensures Duration(a) == duration
  {
    Prepare(WaitWithPromptAction(id, duration, "prepare"))
  }

  /** Duration and execution delegate to the inner action, on the same
      context. */
  lemma PrepareDelegates(p: PrepareInner, s: State)
    ensures Duration(Prepare(p)) == Duration(WaitWithPrompt(p))
    ensures Exec(Prepare(p), s) == Exec(WaitWithPrompt(p), s)
  {
  }

  /** Running a prepare action records one prompt "prepare".  That step is
      all this model sees of the inner wait-with-prompt. */
  lemma PrepareSpeaksPrepare(id: nat, duration: int, s: State)
    ensures Exec(NewPrepare(id, duration), s) == Execution(s, Ok, [Prompted(id, "prepare")])
  {
  }

  /** Inside a sequence, a prepare action that the skip-ahead covers is
      fast-forwarded: it never speaks, and its duration is reported. */
  lemma SkippedPrepareIsSilent(id: nat, duration: int, rest: seq<Action>, s: State)
    requires ValidState(s) && !s.isCancelled
    requires s.skipAhead > 0 && s.skipAhead >= duration
    ensures Exec(Sequence([NewPrepare(id, duration)] + rest), s)
         == ExecFrom(Sequence([NewPrepare(id, duration)] + rest), 1, Step(s, AddProgress(duration)))
    ensures Step(s, AddProgress(duration)).skipAhead == s.skipAhead - duration
  {
    var a := Sequence([NewPrepare(id, duration)] + rest);
    SkipReportsDuration(a, 0, s);
  }
}
