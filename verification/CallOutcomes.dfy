/** Which outcome a plain call comes to, among whatever else the account is used for. */
module CallOutcomes {
  import opened GatewayRuns
  import opened Credits
  import S = StreamSession

  /** The provider threw, or an access of the k-th call did. */
  predicate Troubles(e: Step, k: nat) {
    e.InCall? && e.i == k && match e.c
    case Answered(_) => false
    case ProviderThrew => true
    case Settle(ok) => !ok
    case Release(ok) => !ok
    case Log(ok) => !ok
  }

  ghost predicate Troubled(steps: seq<Step>, n: nat, k: nat)
    requires n <= |steps|
  {
    exists j | 0 <= j < n :: Troubles(steps[j], k)
  }

  /** A call without trouble waits, settles what the provider reported, or has been charged and logged. */
  predicate Smooth(c: Call) {
    match c.pc
    case Asking => c.done == NOTHING
    case Settling(_) => c.done == NOTHING
    case Over => c.done == S.Tally(1, 0, 0, 0, 1, 0)
    case _ => false
  }

  ghost predicate Answers(c: Call, steps: seq<Step>, n: nat, k: nat)
    requires n <= |steps|
  {
    c.pc.Settling? ==>
      exists j | 0 <= j < n :: steps[j].InCall? && steps[j].i == k && steps[j].c == Answered(c.pc.actual)
  }

  /** A step changes the k-th call only if it is one of its own, or its beginning. */
  lemma CallAfter(g: State, e: Step, k: nat)
    requires Enabled(g, e) && k < |Next(g, e).calls|
    ensures var c := Next(g, e).calls[k];
            if k == |g.calls| then e.BeginCall? && c == Call(e.estimate, Asking, NOTHING)
            else if e.InCall? && e.i == k then k < |g.calls| && CallEnabled(g.calls[k], e.c)
                                               && c == NextCall(g.calls[k], e.c)
            else k < |g.calls| && c == g.calls[k]
  {
  }

  lemma {:induction false} SmoothRun(states: seq<State>, steps: seq<Step>, ok: int -> bool, n: nat, k: nat)
    requires Run(states, steps, ok) && n <= |steps| && k < |states[n].calls| && !Troubled(steps, n, k)
    ensures Smooth(states[n].calls[k])
  {
    if n > 0 {
      assert StepAt(states, steps, n - 1);
      CallAfter(states[n - 1], steps[n - 1], k);
      if k < |states[n - 1].calls| {
        assert forall j | 0 <= j < n :: !Troubles(steps[j], k);
        assert !Troubled(steps, n - 1, k);
        SmoothRun(states, steps, ok, n - 1, k);
      }
    }
  }

  lemma {:induction false} AnswersRun(states: seq<State>, steps: seq<Step>, ok: int -> bool, n: nat, k: nat)
    requires Run(states, steps, ok) && n <= |steps| && k < |states[n].calls|
    ensures Answers(states[n].calls[k], steps, n, k)
  {
    if n > 0 {
      assert StepAt(states, steps, n - 1);
      CallAfter(states[n - 1], steps[n - 1], k);
      if k < |states[n - 1].calls| {
        AnswersRun(states, steps, ok, n - 1, k);
        var c, now := states[n - 1].calls[k], states[n].calls[k];
        if now.pc.Settling? {
          if c.pc.Settling? {
            assert now == c;
            var j :| 0 <= j < n - 1 && steps[j].InCall? && steps[j].i == k && steps[j].c == Answered(c.pc.actual);
            assert 0 <= j < n;
          } else {
            assert steps[n - 1].c == Answered(now.pc.actual);
          }
        }
      }
    }
  }

  /** What a call settles is what the provider reported for it. */
  lemma SettlesWhatWasReported(states: seq<State>, steps: seq<Step>, ok: int -> bool, n: nat, k: nat)
    requires Run(states, steps, ok) && n <= |steps| && k < |states[n].calls| && states[n].calls[k].pc.Settling?
    ensures exists j | 0 <= j < n ::
              steps[j].InCall? && steps[j].i == k && steps[j].c == Answered(states[n].calls[k].pc.actual)
  {
    AnswersRun(states, steps, ok, n, k);
  }

  /** A call that is over without trouble was charged and has one row; one that was given back had trouble. */
  lemma CallIsChargedOrHadTrouble(states: seq<State>, steps: seq<Step>, ok: int -> bool, n: nat, k: nat)
    requires Run(states, steps, ok) && n <= |steps| && k < |states[n].calls|
    ensures states[n].calls[k].pc.Over? && (forall j | 0 <= j < n :: !Troubles(steps[j], k)) ==>
              states[n].calls[k].done == S.Tally(1, 0, 0, 0, 1, 0)
    ensures states[n].calls[k].done.givenBack > 0 ==> exists j | 0 <= j < n :: Troubles(steps[j], k)
  {
    if !Troubled(steps, n, k) {
      SmoothRun(states, steps, ok, n, k);
    }
  }
}
