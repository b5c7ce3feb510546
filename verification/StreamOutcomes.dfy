/**
 Which outcome a streaming session comes to: when it is charged, when its reservation is given back, what is logged.
 */
module StreamOutcomes {
  import opened StreamSession

  /**
   The client or the upstream has let the session down: a callback started, a chunk was not sent, the provider threw.
   */
  predicate Disturbs(e: Step) { e.Callback? || e.SendFails? || e.UpstreamThrows? }

  /** An access threw. */
  predicate Fails(e: Step) { (e.Exec? || e.DeltaAbort? || e.InCallback?) && !e.ok }

  ghost predicate Disturbed(steps: seq<Step>, n: nat)
    requires n <= |steps|
  {
    exists i | 0 <= i < n :: Disturbs(steps[i])
  }

  ghost predicate Failed(steps: seq<Step>, n: nat)
    requires n <= |steps|
  {
    exists i | 0 <= i < n :: Fails(steps[i])
  }

  // ---------- Undisturbed sessions ----------

  /** Nobody gives anything back, or is about to. */
  predicate Calm(s: Session) {
    && s.callbacks == [] && !s.exec.InDelta? && !s.exec.ExecReleasing? && !s.exec.ExecLogging?
    && s.done.givenBack == 0 && s.done.giveBackFailed == 0
    && (s.exec.Charging? || s.exec.Catching? ==> s.settled)
  }

  lemma CalmStays(s: Session, e: Step)
    requires Calm(s) && Enabled(s, e) && !Disturbs(e)
    ensures Calm(Next(s, e))
  {
  }

  lemma {:induction false} CalmRun(states: seq<Session>, steps: seq<Step>, n: nat)
    requires Run(states, steps) && n <= |steps| && !Disturbed(steps, n)
    ensures Calm(states[n])
  {
    if n > 0 {
      assert forall i | 0 <= i < n :: !Disturbs(steps[i]);
      assert !Disturbed(steps, n - 1);
      CalmRun(states, steps, n - 1);
      assert StepAt(states, steps, n - 1);
      CalmStays(states[n - 1], steps[n - 1]);
    }
  }

  /** A reservation is given back only in a session that was disturbed. */
  lemma ReleasedForAReason(states: seq<Session>, steps: seq<Step>, n: nat)
    requires Run(states, steps) && n <= |steps| && states[n].done.givenBack + states[n].done.giveBackFailed > 0
    ensures exists i | 0 <= i < n :: Disturbs(steps[i])
  {
    if !Disturbed(steps, n) {
      CalmRun(states, steps, n);
    }
  }

  /** How far an undisturbed session has come in which nothing fails. */
  predicate Smooth(s: Session) {
    var charged := Tally(1, 0, 0, 0, 1, 0);
    match s.exec
    case Streaming => !s.settled && !s.serverCompleted && s.done == START.done
    case Ending(_) => !s.settled && !s.serverCompleted && s.done == START.done
    case Charging(_) => s.settled && !s.serverCompleted && s.done == START.done
    case Returned => s.settled && !s.serverCompleted && s.done == charged
    case SendingFinal => s.serverCompleted && s.done == charged
    case SendingDone => s.serverCompleted && s.done == charged.(finals := 1)
    case Completing => s.serverCompleted && s.done == charged.(finals := 2)
    case Finished => s.done == charged.(finals := 2)
    case _ => false
  }

  lemma SmoothStays(s: Session, e: Step)
    requires Calm(s) && Smooth(s) && Enabled(s, e) && !Disturbs(e) && !Fails(e)
    ensures Smooth(Next(s, e))
  {
  }

  lemma {:induction false} SmoothRun(states: seq<Session>, steps: seq<Step>, n: nat)
    requires Run(states, steps) && n <= |steps| && !Disturbed(steps, n) && !Failed(steps, n)
    ensures Smooth(states[n])
  {
    if n > 0 {
      assert forall i | 0 <= i < n :: !Disturbs(steps[i]) && !Fails(steps[i]);
      assert !Disturbed(steps, n - 1) && !Failed(steps, n - 1);
      SmoothRun(states, steps, n - 1);
      CalmRun(states, steps, n - 1);
      assert StepAt(states, steps, n - 1);
      SmoothStays(states[n - 1], steps[n - 1]);
    }
  }

  /** An undisturbed session in which nothing fails is charged, logged once, and its client told the end. */
  lemma UndisturbedIsCharged(states: seq<Session>, steps: seq<Step>, n: nat)
    requires Run(states, steps) && n <= |steps| && states[n].exec.Finished?
    requires forall i | 0 <= i < n :: !Disturbs(steps[i]) && !Fails(steps[i])
    ensures states[n].done == Tally(1, 0, 0, 0, 1, 2)
  {
    SmoothRun(states, steps, n);
  }

  // ---------- What is charged ----------

  /** What is about to be charged is what the provider reported. */
  ghost predicate Reported(s: Session, steps: seq<Step>, n: nat)
    requires n <= |steps|
  {
    s.exec.Ending? || s.exec.Charging? ==> exists i | 0 <= i < n :: steps[i] == UpstreamEnds(s.exec.actual)
  }

  lemma ReportedStays(s: Session, steps: seq<Step>, n: nat)
    requires n < |steps| && Enabled(s, steps[n]) && Reported(s, steps, n)
    ensures Reported(Next(s, steps[n]), steps, n + 1)
  {
    var t := Next(s, steps[n]);
    if t.exec.Ending? || t.exec.Charging? {
      if steps[n] != UpstreamEnds(t.exec.actual) {
        assert s.exec.Ending? || s.exec.Charging?;
        assert s.exec.actual == t.exec.actual;
        var i :| 0 <= i < n && steps[i] == UpstreamEnds(s.exec.actual);
        assert 0 <= i < n + 1;
      }
    }
  }

  lemma {:induction false} ChargesWhatWasReported(states: seq<Session>, steps: seq<Step>, n: nat)
    requires Run(states, steps) && n <= |steps|
    ensures states[n].exec.Charging? ==> exists i | 0 <= i < n :: steps[i] == UpstreamEnds(states[n].exec.actual)
    ensures Reported(states[n], steps, n)
  {
    if n > 0 {
      ChargesWhatWasReported(states, steps, n - 1);
      assert StepAt(states, steps, n - 1);
      ReportedStays(states[n - 1], steps, n - 1);
    }
  }

  // ---------- What is logged ----------

  /** Nothing failed so far: every charge and every release has its row, or its writer is about to write it. */
  predicate RowsExact(s: Session) {
    && s.done.chargeFailed == 0 && s.done.giveBackFailed == 0
    && Loggers(s) + s.done.rows == s.done.charged + s.done.givenBack
  }

  lemma ExecRows(s: Session)
    requires RowsExact(s) && Enabled(s, Exec(true))
    ensures RowsExact(ExecStep(s, true))
  {
  }

  lemma DeltaRows(s: Session)
    requires RowsExact(s) && s.exec.InDelta?
    ensures RowsExact(DeltaStep(s, true))
  {
  }

  lemma CallbackRows(s: Session, i: nat)
    requires RowsExact(s) && Enabled(s, InCallback(i, true))
    ensures RowsExact(CallbackStep(s, i, true))
  {
    CountOfUpdate(s.callbacks, Logging, i, AbortStep(s, s.callbacks[i], true).1);
  }

  lemma RowsStayExact(s: Session, e: Step)
    requires RowsExact(s) && Enabled(s, e) && !Fails(e)
    ensures RowsExact(Next(s, e))
  {
    match e
    case Callback => CountOfNew(s.callbacks, Logging, Entering);
    case InCallback(i, _) => CallbackRows(s, i);
    case Exec(_) => ExecRows(s);
    case DeltaAbort(_) => DeltaRows(s);
    case _ =>
  }

  lemma {:induction false} RowsRun(states: seq<Session>, steps: seq<Step>, n: nat)
    requires Run(states, steps) && n <= |steps| && !Failed(steps, n)
    ensures RowsExact(states[n])
  {
    if n > 0 {
      assert forall i | 0 <= i < n :: !Fails(steps[i]);
      assert !Failed(steps, n - 1);
      RowsRun(states, steps, n - 1);
      assert StepAt(states, steps, n - 1);
      RowsStayExact(states[n - 1], steps[n - 1]);
    }
  }

  /** If nothing failed, a session that is over was either charged or given back, and has exactly one row. */
  lemma WithoutFailureOneRow(states: seq<Session>, steps: seq<Step>, n: nat)
    requires Run(states, steps) && n <= |steps| && forall i | 0 <= i < n :: !Fails(steps[i])
    requires states[n].exec.Finished? && AllLeft(states[n].callbacks)
    ensures var t := states[n].done; t.charged + t.givenBack == 1 && t.rows == 1
  {
    RowsRun(states, steps, n);
    EverySessionIsDecided(states, steps, n);
    NobodyWaits(states[n].callbacks, Logging);
  }
}
