/** What the invariants of the grant protocol say about whole runs, and where the design stops being safe. */
module GrantTheorems {
  import opened GrantProtocol
  import opened GrantSafety

  /** Safety of one state: no order is both granted and rolled back, no reservation is returned twice. */
  ghost predicate Safe(st: State) {
    && (forall o <- st.redis.markers :: !IsGranted(st.db, o))
    && (forall i, j | 0 <= i < j < |st.redis.returned| :: st.redis.returned[i] != st.redis.returned[j])
    && (forall o <- st.redis.delivery :: st.redis.delivery[o].Acked? ==>
        (IsGranted(st.db, o) <==> o !in st.redis.returned))
  }

  lemma InvIsSafe(st: State)
    requires Inv(st)
    ensures Safe(st)
  {
    forall o | o in st.redis.delivery && st.redis.delivery[o].Acked?
      ensures IsGranted(st.db, o) <==> o !in st.redis.returned
    {
      assert Settled(st, o);
    }
  }

  ghost predicate AllDisciplined(states: seq<State>, steps: seq<Step>)
    requires |states| == |steps| + 1
  {
    forall i | 0 <= i < |steps| :: Disciplined(states[i], steps[i])
  }

  lemma InitIsInv(st: State)
    requires Init(st)
    ensures Inv(st)
  {
    forall w: WorkerId ensures Stands(st, w, PcOf(st, w)) {
      assert PcOf(st, w) == Idle;
    }
    assert forall s :: Sold(st.db, s) == {};
    assert forall s, u: UserId :: GrantedTo(st.db, s, u) == {};
  }

  lemma {:induction false} InvContinues(states: seq<State>, steps: seq<Step>, n: nat)
    requires Continues(states, steps) && AllDisciplined(states, steps) && Inv(states[0]) && n <= |steps|
    ensures Inv(states[n])
  {
    if n > 0 {
      InvContinues(states, steps, n - 1);
      assert StepAt(states, steps, n - 1);
      StepKeeps(states[n - 1], steps[n - 1]);
    }
  }

  /**
   Under arbitrary redelivery, retries, exceptions, crashes, expiry, administrator updates and dead
   letters, an acknowledged order is granted or rolled back and not both, at most once.
   */
  lemma {:induction false} EveryRunIsSafe(states: seq<State>, steps: seq<Step>, n: nat)
    requires Run(states, steps) && AllDisciplined(states, steps) && n <= |steps|
    ensures Inv(states[n]) && Safe(states[n])
  {
    InitIsInv(states[0]);
    InvContinues(states, steps, n);
    InvIsSafe(states[n]);
  }

  // ---------- Facts that hold of any run, disciplined or not ----------

  /** Order rows are written once; rollback markers stay; a message once acknowledged stays so. */
  ghost predicate Persists(a: State, b: State) {
    && (forall o <- a.db.orders :: o in b.db.orders && b.db.orders[o] == a.db.orders[o])
    && a.redis.markers <= b.redis.markers
    && a.redis.returned <= b.redis.returned
    && a.db.grants <= b.db.grants
    && (forall o | o in a.redis.msgs && o in a.redis.delivery :: o in b.redis.msgs && o in b.redis.delivery)
    && (forall o | o in a.redis.msgs && IsAcked(a.redis, o) :: IsAcked(b.redis, o))
    && (forall o | o in a.redis.msgs && IsRead(a.redis, o) :: IsRead(b.redis, o))
  }

  lemma PersistsTransitive(a: State, b: State, c: State)
    requires Persists(a, b) && Persists(b, c)
    ensures Persists(a, c)
  {
  }

  lemma OutsidePersists(a: State, e: OutsideAct)
    requires OutsideEnabled(a, e)
    ensures Persists(a, NextOutside(a, e))
  {
  }

  lemma ProcessPersists(a: State, w: WorkerId, e: ProcessAct)
    requires ProcessEnabled(a, w, e)
    ensures Persists(a, NextProcess(a, w, e))
  {
  }

  lemma HandlePersists(a: State, w: WorkerId, e: HandleAct)
    requires HandleEnabled(a, w, e)
    ensures Persists(a, NextHandle(a, w, e))
  {
  }

  lemma DeadPersists(a: State, w: WorkerId, e: DeadAct)
    requires DeadEnabled(a, w, e)
    ensures Persists(a, NextDead(a, w, e))
  {
  }

  lemma StepPersists(a: State, e: Step)
    requires Enabled(a, e)
    ensures Persists(a, Next(a, e))
  {
    match e {
      case Outside(x) => OutsidePersists(a, x);
      case Process(w, x) => ProcessPersists(a, w, x);
      case Handle(w, x) => HandlePersists(a, w, x);
      case Dead(w, x) => DeadPersists(a, w, x);
    }
  }

  lemma PersistsAt(states: seq<State>, steps: seq<Step>, k: nat)
    requires Continues(states, steps) && k < |steps|
    ensures Persists(states[k], states[k + 1])
  {
    assert StepAt(states, steps, k);
    StepPersists(states[k], steps[k]);
  }

  lemma {:induction false} HistoryIsNeverRewritten(states: seq<State>, steps: seq<Step>, i: nat, j: nat)
    requires Continues(states, steps) && i <= j <= |steps|
    ensures Persists(states[i], states[j])
    decreases j - i
  {
    if i == j {
      assert Persists(states[i], states[i]);
    } else {
      HistoryIsNeverRewritten(states, steps, i, j - 1);
      PersistsAt(states, steps, j - 1);
      assert j - 1 + 1 == j;
      PersistsTransitive(states[i], states[j - 1], states[j]);
    }
  }

  /** The step runs the rollback script for order o. */
  predicate RollsBack(st: State, e: Step, o: OrderId)
    requires Enabled(st, e)
  {
    ((e.Handle? && e.handle.Return?) || (e.Dead? && e.dead.ReturnDead?)) && PcOf(st, e.w).job.order == o
  }

  /** However a run goes on after a rollback, a further run of the script for that order changes nothing. */
  lemma SecondRollbackChangesNothing(states: seq<State>, steps: seq<Step>, i: nat, j: nat, o: OrderId, m: Msg,
                                     sync: int)
    requires Continues(states, steps) && i < j <= |steps| && Enabled(states[i], steps[i])
             && RollsBack(states[i], steps[i], o)
    ensures RollbackScript(states[j].redis, o, m, sync) == states[j].redis
  {
    assert StepAt(states, steps, i);
    assert o in states[i + 1].redis.markers;
    HistoryIsNeverRewritten(states, steps, i + 1, j);
  }

  // ---------- Where discipline is needed ----------

  /** The dead-letter worker that stood in the window goes on: its two steps roll back a granted order. */
  lemma OpenWindowBreaks(a: State, e: Step, v: WorkerId)
    requires Inv(a) && Grants(a, e) && PcOf(a, v).DeadRecord? && PcOf(a, v).job.order == PcOf(a, e.w).job.order
    ensures var b := Next(a, e);
            && Enabled(b, Dead(v, RecordDead)) && !Grants(b, Dead(v, RecordDead))
            && var c := Next(b, Dead(v, RecordDead));
            && Enabled(c, Dead(v, ReturnDead)) && !Grants(c, Dead(v, ReturnDead))
            && !Safe(Next(c, Dead(v, ReturnDead)))
  {
    var o := PcOf(a, e.w).job.order;
    assert Stands(a, e.w, PcOf(a, e.w));
    var b := Next(a, e);
    assert IsGranted(b.db, o) && PcOf(b, v) == PcOf(a, v) && b.redis == a.redis;
    var c := Next(b, Dead(v, RecordDead));
    assert c.db == b.db && PcOf(c, v) == DeadReturn(PcOf(a, v).job);
    var d := Next(c, Dead(v, ReturnDead));
    assert o in d.redis.markers && IsGranted(d.db, o);
  }

  /** From b, every disciplined way of going on stays safe. */
  ghost predicate SafeOnward(b: State) {
    forall states: seq<State>, steps: seq<Step> ::
      Continues(states, steps) && AllDisciplined(states, steps) && states[0] == b ==> Safe(states[|steps|])
  }

  lemma DisciplinedIsSafeOnward(a: State, e: Step)
    requires Inv(a) && Enabled(a, e) && Disciplined(a, e)
    ensures SafeOnward(Next(a, e))
  {
    StepKeeps(a, e);
    forall states: seq<State>, steps: seq<Step>
      | Continues(states, steps) && AllDisciplined(states, steps) && states[0] == Next(a, e)
      ensures Safe(states[|steps|])
    {
      InvContinues(states, steps, |steps|);
      InvIsSafe(states[|steps|]);
    }
  }

  lemma TwoStepsOn(b: State, x: Step, y: Step)
    requires Enabled(b, x) && Disciplined(b, x) && Enabled(Next(b, x), y) && Disciplined(Next(b, x), y)
    requires SafeOnward(b)
    ensures Safe(Next(Next(b, x), y))
  {
    var steps := [x, y];
    var states := [b, Next(b, x), Next(Next(b, x), y)];
    assert StepAt(states, steps, 0) && StepAt(states, steps, 1);
    assert Continues(states, steps) && AllDisciplined(states, steps);
    assert states[|steps|] == Next(Next(b, x), y);
  }

  /** Discipline is exactly what a step owes: it keeps every way of going on safe if and only if it is disciplined. */
  lemma DisciplineIsExact(a: State, e: Step)
    requires Inv(a) && Enabled(a, e)
    ensures Disciplined(a, e) <==> SafeOnward(Next(a, e))
  {
    if Disciplined(a, e) {
      DisciplinedIsSafeOnward(a, e);
    } else if SafeOnward(Next(a, e)) {
      var v: WorkerId :| PcOf(a, v).DeadRecord? && PcOf(a, v).job.order == PcOf(a, e.w).job.order;
      OpenWindowBreaks(a, e, v);
      TwoStepsOn(Next(a, e), Dead(v, RecordDead), Dead(v, ReturnDead));
    }
  }
}
