/**
 The threads of a streaming call as they are written: abortOnDisconnect, executeStream and the executor's runnable.
 Between any two accesses the other threads may move; what happens is a stretch of a run of StreamSession.
 */
module StreamThreads {
  import opened StreamSession
  import opened StreamOutcomes

  ghost predicate Path(states: seq<Session>, steps: seq<Step>) {
    |states| == |steps| + 1 && forall i: nat | i < |steps| :: StepAt(states, steps, i)
  }

  /** What holds at the start of a stretch holds all along it. */
  lemma {:induction false} PathKeeps(states: seq<Session>, steps: seq<Step>, i: nat)
    requires Path(states, steps) && i < |states| && Inv(states[0])
    ensures Inv(states[i])
  {
    if i > 0 {
      PathKeeps(states, steps, i - 1);
      assert StepAt(states, steps, i - 1);
      StepKeeps(states[i - 1], steps[i - 1]);
    }
  }

  /** The step belongs to another thread than callback i. */
  predicate NotCallback(e: Step, i: nat) { !(e.InCallback? && e.i == i) }

  lemma OthersKeepCallback(s: Session, e: Step, i: nat)
    requires Enabled(s, e) && NotCallback(e, i) && i < |s.callbacks|
    ensures i < |Next(s, e).callbacks| && Next(s, e).callbacks[i] == s.callbacks[i]
  {
    if e.Exec? {
      assert ExecStep(s, e.ok).callbacks == s.callbacks;
    }
  }

  /** The step belongs to a callback. */
  predicate NotExecutor(e: Step) { e.Callback? || e.InCallback? }

  // ---------- What one thread does in a stretch ----------

  datatype Thread = OfCallback(i: nat) | Executor

  predicate Own(e: Step, t: Thread) { if t.Executor? then !NotExecutor(e) else !NotCallback(e, t.i) }

  function Mine(steps: seq<Step>, t: Thread): seq<Step> {
    if steps == [] then []
    else Mine(steps[..|steps| - 1], t) + if Own(steps[|steps| - 1], t) then [steps[|steps| - 1]] else []
  }

  ghost predicate WentBy(states: seq<Session>, steps: seq<Step>, a: Session, b: Session, t: Thread, own: seq<Step>) {
    Path(states, steps) && states[0] == a && states[|steps|] == b && Mine(steps, t) == own
  }

  /** From a, steps lead to b, and those of the thread are `own`. */
  ghost predicate Went(a: Session, b: Session, t: Thread, own: seq<Step>) {
    exists states: seq<Session>, steps: seq<Step> :: WentBy(states, steps, a, b, t, own)
  }

  lemma WentNowhere(a: Session, t: Thread)
    ensures Went(a, a, t, [])
  {
    assert WentBy([a], [], a, a, t, []);
  }

  lemma WentOn(a: Session, b: Session, t: Thread, own: seq<Step>, e: Step)
    requires Went(a, b, t, own) && Enabled(b, e)
    ensures Went(a, Next(b, e), t, own + if Own(e, t) then [e] else [])
  {
    var states: seq<Session>, steps: seq<Step> :| WentBy(states, steps, a, b, t, own);
    var states', steps' := states + [Next(b, e)], steps + [e];
    forall i: nat | i < |steps'| ensures StepAt(states', steps', i) {
      if i < |steps| {
        assert StepAt(states, steps, i);
      }
    }
    assert steps'[..|steps|] == steps;
    assert WentBy(states', steps', a, Next(b, e), t, own + if Own(e, t) then [e] else []);
  }

  /** Whatever a thread does in such a stretch, a good session stays good and safe. */
  lemma WentKeeps(a: Session, b: Session, t: Thread, own: seq<Step>)
    requires Went(a, b, t, own) && Inv(a)
    ensures Inv(b) && Safe(b)
  {
    var states: seq<Session>, steps: seq<Step> :| WentBy(states, steps, a, b, t, own);
    PathKeeps(states, steps, |steps|);
  }

  /** How many of the steps threw. */
  function Failures(own: seq<Step>): nat {
    if own == [] then 0 else Failures(own[..|own| - 1]) + if Fails(own[|own| - 1]) then 1 else 0
  }

  lemma FailuresOn(own: seq<Step>, e: Step)
    ensures Failures(own + [e]) == Failures(own) + if Fails(e) then 1 else 0
  {
    assert (own + [e])[..|own|] == own;
  }

  /** `acts` are the steps of the thread that runs here, `faults` how many of its calls threw. */
  class StreamSessionState {
    var settled: bool
    var serverCompleted: bool
    var clientGone: bool
    var exec: Exec
    var callbacks: seq<Abort>
    var done: Tally
    ghost var acts: seq<Step>
    ghost var faults: nat

    function View(): Session
      reads this
    {
      Session(settled, serverCompleted, clientGone, exec, callbacks, done)
    }

    method Become(s: Session)
      modifies `settled, `serverCompleted, `clientGone, `exec, `callbacks, `done
      ensures View() == s
    {
      settled, serverCompleted, clientGone, exec, callbacks, done := s.settled, s.serverCompleted, s.clientGone, s.exec,
          s.callbacks, s.done;
    }

    /** Any number of steps of the other threads. */
    method OthersThanCallback(ghost start: Session, i: nat)
      requires Went(start, View(), OfCallback(i), acts) && i < |callbacks|
      modifies `settled, `serverCompleted, `clientGone, `exec, `callbacks, `done
      ensures Went(start, View(), OfCallback(i), acts) && i < |callbacks| && callbacks[i] == old(callbacks[i])
    {
      var n: nat := *;
      while n > 0
        invariant Went(start, View(), OfCallback(i), acts) && i < |callbacks| && callbacks[i] == old(callbacks[i])
      {
        var e: Step := *;
        if Enabled(View(), e) && NotCallback(e, i) {
          OthersKeepCallback(View(), e, i);
          WentOn(start, View(), OfCallback(i), acts, e);
          assert acts + [] == acts;
          Become(Next(View(), e));
        }
        n := n - 1;
      }
    }

    method OthersThanExecutor(ghost start: Session)
      requires Went(start, View(), Executor, acts)
      modifies `settled, `serverCompleted, `clientGone, `exec, `callbacks, `done
      ensures Went(start, View(), Executor, acts) && exec == old(exec)
    {
      var n: nat := *;
      while n > 0
        invariant Went(start, View(), Executor, acts) && exec == old(exec)
      {
        var e: Step := *;
        if Enabled(View(), e) && NotExecutor(e) {
          WentOn(start, View(), Executor, acts, e);
          assert acts + [] == acts;
          Become(Next(View(), e));
        }
        n := n - 1;
      }
    }

    /** The thread's own step from `before`. */
    ghost method Acted(start: Session, t: Thread, before: Session, e: Step)
      requires Went(start, before, t, acts) && Enabled(before, e) && Own(e, t)
      modifies `acts
      ensures acts == old(acts) + [e] && Went(start, Next(before, e), t, acts)
      ensures Failures(acts) == Failures(old(acts)) + if Fails(e) then 1 else 0
    {
      WentOn(start, before, t, acts, e);
      FailuresOn(acts, e);
      acts := acts + [e];
    }

    // ---------- The accesses ----------

    /** A call may throw. */
    method Call() returns (threw: bool)
      modifies `faults
      ensures faults == old(faults) + if threw then 1 else 0
    {
      threw := *;
      if threw {
        faults := faults + 1;
      }
    }

    method CompareAndSetCompleted() returns (won: bool)
      modifies `serverCompleted
      ensures won == !old(serverCompleted) && serverCompleted
    {
      won := !serverCompleted;
      if won {
        serverCompleted := true;
      }
    }

    method CompareAndSetSettled() returns (won: bool)
      modifies `settled
      ensures won == !old(settled) && settled
    {
      won := !settled;
      if won {
        settled := true;
      }
    }

    /** release: the account is another module's; it may throw before it takes effect. */
    method Release() returns (threw: bool)
      modifies `done, `faults
      ensures faults == old(faults) + if threw then 1 else 0
      ensures done == if threw then FailToGiveBack(old(done)) else GiveBack(old(done))
    {
      threw := Call();
      done := if threw then FailToGiveBack(done) else GiveBack(done);
    }

    method WriteFailureLog() returns (threw: bool)
      modifies `done, `faults
      ensures faults == old(faults) + if threw then 1 else 0
      ensures done == if threw then old(done) else WriteRow(old(done))
    {
      threw := Call();
      if !threw {
        done := WriteRow(done);
      }
    }

    method Settle() returns (threw: bool)
      modifies `done, `faults
      ensures faults == old(faults) + if threw then 1 else 0
      ensures done == if threw then FailToCharge(old(done)) else Charge(old(done))
    {
      threw := Call();
      done := if threw then FailToCharge(done) else Charge(done);
    }

    /** A chunk handed to the emitter, whether or not that throws. */
    method SendToEmitter() returns (threw: bool)
      modifies `done, `faults
      ensures faults == old(faults) + if threw then 1 else 0
      ensures done == SendEnd(old(done))
    {
      threw := *;
      if threw {
        faults := faults + 1;
      }
      done := SendEnd(done);
    }

    // ---------- The container's callback ----------

    ghost predicate AtCallback(start: Session, i: nat, a: Abort)
      reads this
    {
      Went(start, View(), OfCallback(i), acts) && Failures(acts) == faults && i < |callbacks| && callbacks[i] == a
    }

    /** The next access of callback i, which does not throw, has been made. */
    ghost method CallbackMoved(start: Session, i: nat, before: Session, ok: bool)
      requires Went(start, before, OfCallback(i), acts) && Enabled(before, InCallback(i, ok))
      requires View() == Next(before, InCallback(i, ok))
      requires Failures(acts) + (if ok then 0 else 1) == faults
      modifies `acts
      ensures Went(start, View(), OfCallback(i), acts) && Failures(acts) == faults
    {
      Acted(start, OfCallback(i), before, InCallback(i, ok));
    }

    /** The compare-and-set of `settled` in abortStream. */
    method TakeOver(ghost start: Session, i: nat) returns (won: bool)
      requires AtCallback(start, i, TakingOver)
      modifies this
      ensures AtCallback(start, i, if won then Releasing else Closing) && faults == old(faults)
    {
      OthersThanCallback(start, i);
      ghost var before := View();
      won := CompareAndSetSettled();
      callbacks := callbacks[i := if won then Releasing else Closing];
      CallbackMoved(start, i, before, true);
    }

    method ReleaseAsOwner(ghost start: Session, i: nat) returns (threw: bool)
      requires AtCallback(start, i, Releasing)
      modifies this
      ensures AtCallback(start, i, if threw then Left(true) else Logging)
      ensures faults == old(faults) + if threw then 1 else 0
    {
      OthersThanCallback(start, i);
      ghost var before := View();
      threw := Release();
      callbacks := callbacks[i := if threw then Left(true) else Logging];
      CallbackMoved(start, i, before, !threw);
    }

    method LogAsOwner(ghost start: Session, i: nat) returns (threw: bool)
      requires AtCallback(start, i, Logging)
      modifies this
      ensures AtCallback(start, i, if threw then Left(true) else Closing)
      ensures faults == old(faults) + if threw then 1 else 0
    {
      OthersThanCallback(start, i);
      ghost var before := View();
      threw := WriteFailureLog();
      callbacks := callbacks[i := if threw then Left(true) else Closing];
      CallbackMoved(start, i, before, !threw);
    }

    /** abortStream, called by callback i: a release and a failure row, if nobody else has taken over. */
    method AbortStream(ghost start: Session, i: nat) returns (threw: bool)
      requires AtCallback(start, i, TakingOver)
      modifies this
      ensures AtCallback(start, i, if threw then Left(true) else Closing)
      ensures faults == old(faults) + if threw then 1 else 0
    {
      var won := TakeOver(start, i);
      threw := false;
      if won {
        threw := ReleaseAsOwner(start, i);
        if !threw {
          threw := LogAsOwner(start, i);
        }
      }
    }

    method MarkGone(ghost start: Session, i: nat)
      requires AtCallback(start, i, MarkingGone)
      modifies this
      ensures AtCallback(start, i, StoppingUpstream) && faults == old(faults)
    {
      OthersThanCallback(start, i);
      ghost var before := View();
      clientGone := true;
      callbacks := callbacks[i := StoppingUpstream];
      CallbackMoved(start, i, before, true);
    }

    /** The upstream connection is cut, if there is one; that may throw, and then nothing more is done here. */
    method StopUpstream(ghost start: Session, i: nat) returns (threw: bool)
      requires AtCallback(start, i, StoppingUpstream)
      modifies this
      ensures AtCallback(start, i, if threw then Left(true) else TakingOver)
      ensures faults == old(faults) + if threw then 1 else 0
    {
      OthersThanCallback(start, i);
      ghost var before := View();
      threw := Call();
      callbacks := callbacks[i := if threw then Left(true) else TakingOver];
      CallbackMoved(start, i, before, !threw);
    }

    /** The emitter is completed; what it throws is ignored. */
    method CloseEmitter(ghost start: Session, i: nat)
      requires AtCallback(start, i, Closing)
      modifies this
      ensures AtCallback(start, i, Left(false)) && faults == old(faults)
    {
      OthersThanCallback(start, i);
      ghost var before := View();
      callbacks := callbacks[i := Left(false)];
      CallbackMoved(start, i, before, true);
    }

    /** abortOnDisconnect once it has won `serverCompleted`. */
    method AbortAsOwner(ghost start: Session, i: nat) returns (threw: bool)
      requires AtCallback(start, i, MarkingGone)
      modifies this
      ensures AtCallback(start, i, Left(threw)) && faults == old(faults) + if threw then 1 else 0
    {
      MarkGone(start, i);
      threw := StopUpstream(start, i);
      if !threw {
        threw := AbortStream(start, i);
        if !threw {
          CloseEmitter(start, i);
        }
      }
    }

    method WinCompletion(ghost start: Session, i: nat) returns (won: bool)
      requires AtCallback(start, i, Entering)
      modifies this
      ensures AtCallback(start, i, if won then MarkingGone else Left(false)) && faults == old(faults)
    {
      OthersThanCallback(start, i);
      ghost var before := View();
      won := CompareAndSetCompleted();
      callbacks := callbacks[i := if won then MarkingGone else Left(false)];
      CallbackMoved(start, i, before, true);
    }

    /** abortOnDisconnect, started by the container: it ends with an exception if and only if one of its calls threw. */
    method AbortOnDisconnect(i: nat) returns (threw: bool)
      requires i < |callbacks| && callbacks[i] == Entering
      modifies this
      ensures AtCallback(old(View()), i, Left(threw)) && faults == if threw then 1 else 0
    {
      ghost var start := View();
      acts, faults := [], 0;
      WentNowhere(start, OfCallback(i));
      var won := WinCompletion(start, i);
      threw := false;
      if won {
        threw := AbortAsOwner(start, i);
      }
    }

    // ---------- The executor's runnable ----------

    ghost predicate AtExec(start: Session, x: Exec)
      reads this
    {
      Went(start, View(), Executor, acts) && Failures(acts) == faults && exec == x
    }

    ghost method ExecMoved(start: Session, before: Session, e: Step)
      requires Went(start, before, Executor, acts) && Enabled(before, e) && Own(e, Executor)
      requires View() == Next(before, e)
      requires Failures(acts) + (if Fails(e) then 1 else 0) == faults
      modifies `acts
      ensures Went(start, View(), Executor, acts) && Failures(acts) == faults && acts == old(acts) + [e]
    {
      Acted(start, Executor, before, e);
    }

    /** The compare-and-set of `settled` in the catch block. */
    method TakeOverInCatch(ghost start: Session) returns (won: bool)
      requires AtExec(start, Catching)
      modifies this
      ensures AtExec(start, if won then ExecReleasing else Erred) && faults == old(faults) && old(acts) <= acts
    {
      OthersThanExecutor(start);
      ghost var before := View();
      won := CompareAndSetSettled();
      exec := if won then ExecReleasing else Erred;
      ExecMoved(start, before, Step.Exec(true));
    }

    method ReleaseInCatch(ghost start: Session) returns (threw: bool)
      requires AtExec(start, ExecReleasing)
      modifies this
      ensures AtExec(start, if threw then Erred else ExecLogging) && old(acts) <= acts
      ensures faults == old(faults) + if threw then 1 else 0
    {
      OthersThanExecutor(start);
      ghost var before := View();
      threw := Release();
      exec := if threw then Erred else ExecLogging;
      ExecMoved(start, before, Step.Exec(!threw));
    }

    method LogInCatch(ghost start: Session)
      requires AtExec(start, ExecLogging)
      modifies this
      ensures AtExec(start, Erred) && old(acts) <= acts && faults <= old(faults) + 1
    {
      OthersThanExecutor(start);
      ghost var before := View();
      var threw := WriteFailureLog();
      exec := Erred;
      ExecMoved(start, before, Step.Exec(!threw));
    }

    /** The catch block of executeStream: a release and a failure row, if nobody else has taken over. */
    method Recover(ghost start: Session)
      requires AtExec(start, Catching)
      modifies this
      ensures AtExec(start, Erred) && old(acts) <= acts && faults <= old(faults) + 1
    {
      var won := TakeOverInCatch(start);
      if won {
        var threw := ReleaseInCatch(start);
        if !threw {
          LogInCatch(start);
        }
      }
    }

    method TakeOverAtEnd(ghost start: Session, actual: int) returns (won: bool)
      requires AtExec(start, Ending(actual))
      modifies this
      ensures AtExec(start, if won then Charging(actual) else Returned) && faults == old(faults) && old(acts) <= acts
    {
      OthersThanExecutor(start);
      ghost var before := View();
      won := CompareAndSetSettled();
      exec := if won then Charging(actual) else Returned;
      ExecMoved(start, before, Step.Exec(true));
    }

    method ChargeAtEnd(ghost start: Session, actual: int) returns (threw: bool)
      requires AtExec(start, Charging(actual))
      modifies this
      ensures AtExec(start, if threw then Catching else Returned) && old(acts) <= acts
      ensures faults == old(faults) + if threw then 1 else 0
    {
      OthersThanExecutor(start);
      ghost var before := View();
      threw := Settle();
      exec := if threw then Catching else Returned;
      ExecMoved(start, before, Step.Exec(!threw));
    }

    /** executeStream from where the provider has returned: `actual` is what the usage costs, or the estimate. */
    method SettleStream(ghost start: Session, actual: int) returns (threw: bool)
      requires AtExec(start, Ending(actual))
      modifies this
      ensures AtExec(start, if threw then Catching else Returned) && old(acts) <= acts
      ensures faults == old(faults) + if threw then 1 else 0
    {
      var won := TakeOverAtEnd(start, actual);
      threw := false;
      if won {
        threw := ChargeAtEnd(start, actual);
      }
    }

    method SendFinalChunk(ghost start: Session) returns (threw: bool)
      requires AtExec(start, SendingFinal)
      modifies this
      ensures AtExec(start, if threw then Completing else SendingDone) && old(acts) <= acts
      ensures faults == old(faults) + if threw then 1 else 0
    {
      OthersThanExecutor(start);
      ghost var before := View();
      threw := SendToEmitter();
      exec := if threw then Completing else SendingDone;
      ExecMoved(start, before, Step.Exec(!threw));
    }

    /** [DONE]; what sending it throws is caught. */
    method SendDoneMark(ghost start: Session)
      requires AtExec(start, SendingDone)
      modifies this
      ensures AtExec(start, Completing) && old(acts) <= acts && faults == old(faults)
    {
      OthersThanExecutor(start);
      ghost var before := View();
      done := SendEnd(done);
      exec := Completing;
      ExecMoved(start, before, Step.Exec(true));
    }

    method WinCompletionAtEnd(ghost start: Session, threw: bool) returns (won: bool)
      requires AtExec(start, if threw then Erred else Returned)
      modifies this
      ensures AtExec(start, if !won then Finished else if threw then Completing else SendingFinal)
      ensures faults == old(faults) && old(acts) <= acts
    {
      OthersThanExecutor(start);
      ghost var before := View();
      won := CompareAndSetCompleted();
      exec := if !won then Finished else if threw then Completing else SendingFinal;
      ExecMoved(start, before, Step.Exec(true));
    }

    /** complete or completeWithError. */
    method Complete(ghost start: Session)
      requires AtExec(start, Completing)
      modifies this
      ensures AtExec(start, Finished) && old(acts) <= acts && faults == old(faults)
    {
      OthersThanExecutor(start);
      ghost var before := View();
      exec := Finished;
      ExecMoved(start, before, Step.Exec(true));
    }

    /** The race for `serverCompleted` at the end of the run, then the final chunk, [DONE] and completion. */
    method Conclude(ghost start: Session, threw: bool)
      requires AtExec(start, if threw then Erred else Returned)
      modifies this
      ensures AtExec(start, Finished) && old(acts) <= acts && faults <= old(faults) + 1
    {
      var won := WinCompletionAtEnd(start, threw);
      if won {
        if !threw {
          var broke := SendFinalChunk(start);
          if !broke {
            SendDoneMark(start);
          }
        }
        Complete(start);
      }
    }

    method BeginEnd(ghost start: Session, failed: bool, actual: int)
      requires exec.Streaming? && View() == start
      modifies this
      ensures AtExec(start, if failed then Catching else Ending(actual)) && faults == 0
      ensures acts == [if failed then UpstreamThrows else UpstreamEnds(actual)]
    {
      acts, faults := [], 0;
      WentNowhere(start, Executor);
      exec := if failed then Catching else Ending(actual);
      ExecMoved(start, start, if failed then UpstreamThrows else UpstreamEnds(actual));
    }

    /** The runnable from the moment the provider returns or throws; `failed`: it threw. */
    method RunToTheEnd(failed: bool, actual: int)
      requires exec.Streaming?
      modifies this
      ensures AtExec(old(View()), Finished)
      ensures acts != [] && acts[0] == if failed then UpstreamThrows else UpstreamEnds(actual)
    {
      ghost var start := View();
      BeginEnd(start, failed, actual);
      var threw := failed;
      if !failed {
        threw := SettleStream(start, actual);
      }
      if threw {
        Recover(start);
      }
      Conclude(start, threw);
    }
  }
}
