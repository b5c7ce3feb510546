/** Why a reservation is given back, and who holds a SKU's row lock. */
module GrantReasons {
  import opened GrantProtocol
  import opened GrantSafety
  import opened GrantAnyRun
  import opened GrantTheorems

  // ---------- Row locks ----------

  /** A row lock is held by a worker between its stock update and its commit, and by nobody else. */
  ghost predicate RowsHeld(st: State) {
    forall s <- st.rowLocks :: PcOf(st, st.rowLocks[s]).Deducted?
  }

  /** Worker w moves; whoever holds a row lock afterwards held it before and is not w, or is w and may hold it. */
  lemma RowsStillHeld(a: State, b: State, w: WorkerId, pc: Pc)
    requires RowsHeld(a) && b.workers == a.workers[w := pc]
    requires forall s <- b.rowLocks :: if b.rowLocks[s] == w then pc.Deducted?
                                       else s in a.rowLocks && a.rowLocks[s] == b.rowLocks[s]
    ensures RowsHeld(b)
  {
    forall s | s in b.rowLocks ensures PcOf(b, b.rowLocks[s]).Deducted? {
      assert b.rowLocks[s] != w ==> PcOf(b, b.rowLocks[s]) == PcOf(a, a.rowLocks[s]);
    }
  }

  lemma ProcessHoldsRows(a: State, w: WorkerId, e: ProcessAct)
    requires RowsHeld(a) && ProcessEnabled(a, w, e)
    ensures RowsHeld(NextProcess(a, w, e))
  {
    var b := NextProcess(a, w, e);
    RowsStillHeld(a, b, w, PcOf(b, w));
  }

  lemma HandleHoldsRows(a: State, w: WorkerId, e: HandleAct)
    requires RowsHeld(a) && HandleEnabled(a, w, e)
    ensures RowsHeld(NextHandle(a, w, e))
  {
    var b := NextHandle(a, w, e);
    RowsStillHeld(a, b, w, PcOf(b, w));
  }

  lemma DeadHoldsRows(a: State, w: WorkerId, e: DeadAct)
    requires RowsHeld(a) && DeadEnabled(a, w, e)
    ensures RowsHeld(NextDead(a, w, e))
  {
    var b := NextDead(a, w, e);
    RowsStillHeld(a, b, w, PcOf(b, w));
  }

  lemma StepHoldsRows(a: State, e: Step)
    requires RowsHeld(a) && Enabled(a, e)
    ensures RowsHeld(Next(a, e))
  {
    match e {
      case Outside(x) => assert forall w :: PcOf(Next(a, e), w) == PcOf(a, w);
      case Process(w, x) => ProcessHoldsRows(a, w, x);
      case Handle(w, x) => HandleHoldsRows(a, w, x);
      case Dead(w, x) => DeadHoldsRows(a, w, x);
    }
  }

  lemma {:induction false} RowsHeldOn(states: seq<State>, steps: seq<Step>, n: nat)
    requires Continues(states, steps) && RowsHeld(states[0]) && n <= |steps|
    ensures RowsHeld(states[n])
  {
    if n > 0 {
      RowsHeldOn(states, steps, n - 1);
      assert StepAt(states, steps, n - 1);
      StepHoldsRows(states[n - 1], steps[n - 1]);
    }
  }

  // ---------- Reasons ----------

  /** The grant has to be refused: it failed before, the SKU is gone, its user has all he may have, or none is left. */
  ghost predicate Refusable(st: State, o: OrderId) {
    o in st.redis.msgs &&
    var s, u := st.redis.msgs[o].sku, st.redis.msgs[o].user;
    || (o in st.db.orders && st.db.orders[o].status == Failed)
    || s !in st.db.skus || !st.db.skus[s].live
    || st.db.skus[s].stock <= 0
    || |GrantedTo(st.db, s, u)| >= (if st.db.skus[s].limitCount <= 0 then 1 else st.db.skus[s].limitCount)
  }

  /** The compensator has tried the message once too often, and it is not granted. */
  ghost predicate DeadLetter(st: State, o: OrderId) {
    !IsGranted(st.db, o) && exists w: WorkerId :: TriedTooOften(PcOf(st, w), o)
  }

  predicate TriedTooOften(pc: Pc, o: OrderId) {
    pc.DeadCheck? && pc.job.order == o && pc.job.origin.Compensate? && pc.job.origin.seen > MAX_DELIVERY
  }

  ghost predicate WasRefusable(states: seq<State>, k: nat, o: OrderId)
    requires k < |states|
  {
    exists j: nat :: j <= k && Refusable(states[j], o)
  }

  ghost predicate WasDeadLetter(states: seq<State>, k: nat, o: OrderId)
    requires k < |states|
  {
    exists j: nat :: j <= k && DeadLetter(states[j], o)
  }

  /** What a worker knows where it stands, and what a rollback rests on. */
  ghost predicate Known(states: seq<State>, k: nat, pc: Pc)
    requires k < |states|
  {
    && (pc.Refused? || pc.Recorded? || pc.Returning? ==> WasRefusable(states, k, pc.job.order))
    && (pc.DeadCheck? ==> TriedTooOften(pc, pc.job.order))
    && (pc.DeadRecord? || pc.DeadReturn? ==> WasDeadLetter(states, k, pc.job.order))
  }

  ghost predicate Grounds(states: seq<State>, k: nat)
    requires k < |states|
  {
    && (forall w: WorkerId :: Known(states, k, PcOf(states[k], w)))
    && (forall o <- states[k].redis.returned :: WasRefusable(states, k, o) || WasDeadLetter(states, k, o))
  }

  lemma StillKnown(states: seq<State>, k: nat, pc: Pc)
    requires k + 1 < |states| && Known(states, k, pc)
    ensures Known(states, k + 1, pc)
  {
  }

  lemma StillGround(states: seq<State>, k: nat, o: OrderId)
    requires k + 1 < |states| && (WasRefusable(states, k, o) || WasDeadLetter(states, k, o))
    ensures WasRefusable(states, k + 1, o) || WasDeadLetter(states, k + 1, o)
  {
  }

  /** What the moving worker knows afterwards. */
  lemma MovedKnows(states: seq<State>, steps: seq<Step>, k: nat)
    requires Continues(states, steps) && k < |steps| && Grounds(states, k) && !steps[k].Outside?
    ensures Known(states, k + 1, PcOf(states[k + 1], steps[k].w))
  {
    var a, e := states[k], steps[k];
    assert StepAt(states, steps, k);
    assert Known(states, k, PcOf(a, e.w));
    StillKnown(states, k, PcOf(a, e.w));
    if e.Handle? {
      HandleKnows(states, k, e.w, e.handle);
    } else if e.Dead? {
      DeadKnows(states, k, e.w, e.dead);
    }
  }

  lemma HandleKnows(states: seq<State>, k: nat, w: WorkerId, e: HandleAct)
    requires k + 1 < |states| && HandleEnabled(states[k], w, e) && states[k + 1] == NextHandle(states[k], w, e)
    requires Known(states, k + 1, PcOf(states[k], w))
    ensures Known(states, k + 1, PcOf(states[k + 1], w))
  {
    var a := states[k];
    var o := PcOf(a, w).job.order;
    if e.Check? {
      CheckRefuses(a, w);
      assert Refusable(a, o) ==> WasRefusable(states, k + 1, o);
    } else if e.Deduct? && !CanDeduct(a.db, MsgOf(a, PcOf(a, w)).sku) {
      assert Refusable(a, o);
    }
  }

  /** The opening reads send a message back only for a reason. */
  lemma CheckRefuses(a: State, w: WorkerId)
    requires HandleEnabled(a, w, Check)
    ensures var pc := PcOf(NextHandle(a, w, Check), w);
            && (pc.Counted? || pc.Acking? || pc.Returning?) && pc.job == PcOf(a, w).job
            && (pc.Returning? ==> Refusable(a, pc.job.order))
  {
  }

  lemma DeadKnows(states: seq<State>, k: nat, w: WorkerId, e: DeadAct)
    requires k + 1 < |states| && DeadEnabled(states[k], w, e) && states[k + 1] == NextDead(states[k], w, e)
    requires Known(states, k + 1, PcOf(states[k], w))
    ensures Known(states, k + 1, PcOf(states[k + 1], w))
  {
    var a := states[k];
    var o := PcOf(a, w).job.order;
    if e.AskGranted? && !IsGranted(a.db, o) {
      assert TriedTooOften(PcOf(a, w), o);
      assert DeadLetter(a, o);
    }
  }

  lemma OutsideReturnsNone(a: State, e: OutsideAct)
    requires OutsideEnabled(a, e)
    ensures NextOutside(a, e).redis.returned == a.redis.returned
  {
  }

  lemma ProcessReturnsNone(a: State, w: WorkerId, e: ProcessAct)
    requires ProcessEnabled(a, w, e)
    ensures NextProcess(a, w, e).redis.returned == a.redis.returned
  {
  }

  lemma HandleReturns(a: State, w: WorkerId, e: HandleAct)
    requires HandleEnabled(a, w, e)
    ensures NextHandle(a, w, e).redis.returned == a.redis.returned
            || (PcOf(a, w).Returning? && NextHandle(a, w, e).redis.returned ==
                a.redis.returned + [PcOf(a, w).job.order])
  {
  }

  lemma DeadReturns(a: State, w: WorkerId, e: DeadAct)
    requires DeadEnabled(a, w, e)
    ensures NextDead(a, w, e).redis.returned == a.redis.returned
            || (PcOf(a, w).DeadReturn? && NextDead(a, w, e).redis.returned == a.redis.returned + [PcOf(a, w).job.order])
  {
  }

  /** What is newly given back is the moving worker's order. */
  lemma NewlyReturned(a: State, e: Step, o: OrderId)
    requires Enabled(a, e) && o in Next(a, e).redis.returned && o !in a.redis.returned
    ensures !e.Outside? && (PcOf(a, e.w).Returning? || PcOf(a, e.w).DeadReturn?) && PcOf(a, e.w).job.order == o
  {
    match e {
      case Outside(x) => OutsideReturnsNone(a, x);
      case Process(w, x) => ProcessReturnsNone(a, w, x);
      case Handle(w, x) => HandleReturns(a, w, x);
      case Dead(w, x) => DeadReturns(a, w, x);
    }
  }

  lemma StepGrounds(states: seq<State>, steps: seq<Step>, k: nat)
    requires Continues(states, steps) && k < |steps| && Grounds(states, k)
    ensures Grounds(states, k + 1)
  {
    var a, e, b := states[k], steps[k], states[k + 1];
    assert StepAt(states, steps, k);
    forall w: WorkerId ensures Known(states, k + 1, PcOf(b, w)) {
      if !e.Outside? && e.w == w {
        MovedKnows(states, steps, k);
      } else {
        assert PcOf(b, w) == PcOf(a, w) && Known(states, k, PcOf(a, w));
        StillKnown(states, k, PcOf(a, w));
      }
    }
    forall o | o in b.redis.returned ensures WasRefusable(states, k + 1, o) || WasDeadLetter(states, k + 1, o) {
      if o !in a.redis.returned {
        NewlyReturned(a, e, o);
        assert Known(states, k, PcOf(a, e.w));
      }
      StillGround(states, k, o);
    }
  }

  lemma {:induction false} RunGrounds(states: seq<State>, steps: seq<Step>, k: nat)
    requires Run(states, steps) && k <= |steps|
    ensures Grounds(states, k)
  {
    if k == 0 {
      assert forall w: WorkerId :: PcOf(states[0], w) == Idle;
    } else {
      RunGrounds(states, steps, k - 1);
      StepGrounds(states, steps, k - 1);
    }
  }

  /**
   In any run a reservation is given back only if, at some moment before, the grant had to be refused, or the message
   was a dead letter that was not granted.
   */
  lemma ReturnedForAReason(states: seq<State>, steps: seq<Step>, k: nat, o: OrderId)
    requires Run(states, steps) && k <= |steps| && o in states[k].redis.returned
    ensures exists j: nat :: j <= k && (Refusable(states[j], o) || DeadLetter(states[j], o))
  {
    RunGrounds(states, steps, k);
  }

  /** So an acknowledged order that never had to be refused and was no dead letter is granted. */
  lemma AcknowledgedIsGranted(states: seq<State>, steps: seq<Step>, k: nat, o: OrderId)
    requires Run(states, steps) && k <= |steps| && IsAcked(states[k].redis, o)
    requires forall j: nat | j <= k :: !Refusable(states[j], o) && !DeadLetter(states[j], o)
    ensures IsGranted(states[k].db, o) && o !in states[k].redis.returned
  {
    EveryRunSettlesOnce(states, steps, k);
    if o in states[k].redis.returned {
      ReturnedForAReason(states, steps, k, o);
    }
  }

  // ---------- No claim is lost without a trace ----------

  /** There is no row of the SKU to take the amount from, or the user has all he may have of it. */
  ghost predicate NothingToShow(st: State, o: OrderId) {
    o in st.redis.msgs &&
    var s, u := st.redis.msgs[o].sku, st.redis.msgs[o].user;
    || s !in st.db.skus || !st.db.skus[s].live
    || |GrantedTo(st.db, s, u)| >= (if st.db.skus[s].limitCount <= 0 then 1 else st.db.skus[s].limitCount)
  }

  /** The order has a row, or there was a moment when it could or need not have one. */
  ghost predicate Traced(states: seq<State>, k: nat, o: OrderId)
    requires k < |states|
  {
    o in states[k].db.orders || exists j: nat :: j <= k && NothingToShow(states[j], o)
  }

  predicate PastRecording(pc: Pc) { pc.Recorded? || pc.Returning? || pc.DeadReturn? }

  ghost predicate AllTraced(states: seq<State>, k: nat)
    requires k < |states|
  {
    && (forall w: WorkerId :: PastRecording(PcOf(states[k], w)) ==> Traced(states, k, PcOf(states[k], w).job.order))
    && (forall o <- states[k].redis.returned :: Traced(states, k, o))
  }

  lemma StillTraced(states: seq<State>, steps: seq<Step>, k: nat, o: OrderId)
    requires Continues(states, steps) && k < |steps| && Traced(states, k, o)
    ensures Traced(states, k + 1, o)
  {
    assert StepAt(states, steps, k);
    StepPersists(states[k], steps[k]);
  }

  /** Where the recording of a failure leaves its order. */
  lemma RecordingTraces(a: State, w: WorkerId, pc: Pc)
    requires Working(a, w)
    ensures var o := PcOf(a, w).job.order; o in DoRecord(a, w, pc).db.orders || NothingToShow(a, o)
  {
  }

  /** The opening reads send back only what is recorded or has nothing to show. */
  lemma CheckTraces(a: State, w: WorkerId)
    requires HandleEnabled(a, w, Check)
    ensures var o := PcOf(a, w).job.order;
            PcOf(DoCheck(a, w), w).Returning? ==> o in a.db.orders || NothingToShow(a, o)
  {
  }

  lemma HandleTraces(a: State, w: WorkerId, e: HandleAct)
    requires HandleEnabled(a, w, e) && PastRecording(PcOf(NextHandle(a, w, e), w)) && !PastRecording(PcOf(a, w))
    ensures var o := PcOf(a, w).job.order;
            && PcOf(NextHandle(a, w, e), w).job.order == o
            && (o in NextHandle(a, w, e).db.orders || NothingToShow(a, o))
  {
    match e {
      case Check => CheckTraces(a, w);
      case Record => RecordingTraces(a, w, Recorded(PcOf(a, w).job));
      case _ =>
    }
  }

  lemma DeadTraces(a: State, w: WorkerId, e: DeadAct)
    requires DeadEnabled(a, w, e) && PastRecording(PcOf(NextDead(a, w, e), w)) && !PastRecording(PcOf(a, w))
    ensures var o := PcOf(a, w).job.order;
            && PcOf(NextDead(a, w, e), w).job.order == o
            && (o in NextDead(a, w, e).db.orders || NothingToShow(a, o))
  {
    if e.RecordDead? {
      RecordingTraces(a, w, DeadReturn(PcOf(a, w).job));
    }
  }

  lemma OthersStand(a: State, e: Step, w: WorkerId)
    requires Enabled(a, e) && (e.Outside? || e.w != w)
    ensures PcOf(Next(a, e), w) == PcOf(a, w)
  {
  }

  /** Past the recording a worker's order does not change. */
  lemma StaysPast(a: State, e: Step)
    requires Enabled(a, e) && !e.Outside? && PastRecording(PcOf(a, e.w)) && PastRecording(PcOf(Next(a, e), e.w))
    ensures PcOf(Next(a, e), e.w).job.order == PcOf(a, e.w).job.order
  {
  }

  lemma MoverTraced(states: seq<State>, steps: seq<Step>, k: nat)
    requires Continues(states, steps) && k < |steps| && AllTraced(states, k) && !steps[k].Outside?
    requires PastRecording(PcOf(states[k + 1], steps[k].w))
    ensures Traced(states, k + 1, PcOf(states[k + 1], steps[k].w).job.order)
  {
    var a, e := states[k], steps[k];
    assert StepAt(states, steps, k);
    if PastRecording(PcOf(a, e.w)) {
      StaysPast(a, e);
      StillTraced(states, steps, k, PcOf(a, e.w).job.order);
    } else {
      match e {
        case Process(w, x) =>
        case Handle(w, x) => HandleTraces(a, w, x);
        case Dead(w, x) => DeadTraces(a, w, x);
      }
    }
  }

  lemma StepTraced(states: seq<State>, steps: seq<Step>, k: nat)
    requires Continues(states, steps) && k < |steps| && AllTraced(states, k)
    ensures AllTraced(states, k + 1)
  {
    var a, e, b := states[k], steps[k], states[k + 1];
    assert StepAt(states, steps, k);
    forall w: WorkerId | PastRecording(PcOf(b, w)) ensures Traced(states, k + 1, PcOf(b, w).job.order) {
      if e.Outside? || e.w != w {
        OthersStand(a, e, w);
        StillTraced(states, steps, k, PcOf(a, w).job.order);
      } else {
        MoverTraced(states, steps, k);
      }
    }
    forall o | o in b.redis.returned ensures Traced(states, k + 1, o) {
      if o !in a.redis.returned {
        NewlyReturned(a, e, o);
      }
      StillTraced(states, steps, k, o);
    }
  }

  lemma {:induction false} RunTraced(states: seq<State>, steps: seq<Step>, k: nat)
    requires Run(states, steps) && k <= |steps|
    ensures AllTraced(states, k)
  {
    if k == 0 {
      assert forall w: WorkerId :: PcOf(states[0], w) == Idle;
    } else {
      RunTraced(states, steps, k - 1);
      StepTraced(states, steps, k - 1);
    }
  }

  /**
   In any run an order whose reservation was given back has its row, failed or granted, unless at some moment before its
   SKU was gone or its user had all he may have.
   */
  lemma ReturnedIsRecorded(states: seq<State>, steps: seq<Step>, k: nat, o: OrderId)
    requires Run(states, steps) && k <= |steps| && o in states[k].redis.returned
    ensures o in states[k].db.orders || exists j: nat :: j <= k && NothingToShow(states[j], o)
  {
    RunTraced(states, steps, k);
  }

  // ---------- Deliveries ----------

  /** How often the order's message was handed out in the first n steps. */
  function Deliveries(steps: seq<Step>, n: nat, o: OrderId): nat
    requires n <= |steps|
  {
    if n == 0 then 0 else Deliveries(steps, n - 1, o) + if HandsOut(steps[n - 1], o) then 1 else 0
  }

  predicate HandsOut(e: Step, o: OrderId) {
    (e.Outside? && e.out == Deliver(o)) || (e.Process? && e.process.Reclaim? && e.process.order == o)
  }

  function SeenBy(pc: Pc): nat {
    if pc.Idle? || pc.job.origin.Poll? then 0 else pc.job.origin.seen
  }

  /** The pending count is the number of deliveries. */
  ghost predicate CountsMessages(st: State, steps: seq<Step>, n: nat)
    requires n <= |steps|
  {
    && (forall o <- st.redis.delivery | st.redis.delivery[o].Pending? ::
          st.redis.delivery[o].count == Deliveries(steps, n, o))
    && (forall o <- st.redis.delivery | st.redis.delivery[o].Unread? :: Deliveries(steps, n, o) == 0)
    && (forall o | o !in st.redis.delivery :: Deliveries(steps, n, o) == 0)
  }

  /** No worker has been shown more deliveries than there were. */
  ghost predicate NoneShownMore(st: State, steps: seq<Step>, n: nat)
    requires n <= |steps|
  {
    forall w: WorkerId | !PcOf(st, w).Idle? :: SeenBy(PcOf(st, w)) <= Deliveries(steps, n, PcOf(st, w).job.order)
  }

  /** What a step of the others does to the deliveries. */
  lemma OutsideDelivers(a: State, x: OutsideAct)
    requires OutsideEnabled(a, x) && a.redis.delivery.Keys == a.redis.msgs.Keys
    ensures var b := NextOutside(a, x);
            forall o :: if HandsOut(Outside(x), o) then
                          o in a.redis.delivery && a.redis.delivery[o].Unread? && o in b.redis.delivery
                          && b.redis.delivery[o] == Pending(1)
                        else if o in a.redis.delivery then
                          o in b.redis.delivery && b.redis.delivery[o] == a.redis.delivery[o]
                        else o in b.redis.delivery ==> b.redis.delivery[o].Unread?
  {
  }

  lemma OutsideCounts(a: State, x: OutsideAct, steps: seq<Step>, n: nat)
    requires OutsideEnabled(a, x) && n < |steps| && steps[n] == Outside(x) && CountsMessages(a, steps, n)
    requires a.redis.delivery.Keys == a.redis.msgs.Keys
    ensures CountsMessages(NextOutside(a, x), steps, n + 1)
  {
    OutsideDelivers(a, x);
    forall o ensures Deliveries(steps, n + 1, o) == Deliveries(steps, n, o) + if HandsOut(Outside(x), o) then 1 else 0 {
    }
  }

  lemma WorkerCounts(a: State, e: Step, steps: seq<Step>, n: nat)
    requires Enabled(a, e) && !e.Outside? && n < |steps| && steps[n] == e && CountsMessages(a, steps, n)
    ensures CountsMessages(Next(a, e), steps, n + 1)
  {
    WorkerDelivers(a, e);
    forall o ensures Deliveries(steps, n + 1, o) == Deliveries(steps, n, o) + if HandsOut(e, o) then 1 else 0 {
    }
  }

  lemma OutsideShowsNone(a: State, x: OutsideAct, steps: seq<Step>, n: nat)
    requires OutsideEnabled(a, x) && n < |steps| && NoneShownMore(a, steps, n)
    ensures NoneShownMore(NextOutside(a, x), steps, n + 1)
  {
    var b := NextOutside(a, x);
    assert forall w :: PcOf(b, w) == PcOf(a, w);
  }

  lemma WorkerShown(a: State, e: Step, steps: seq<Step>, n: nat)
    requires Enabled(a, e) && !e.Outside? && n < |steps| && steps[n] == e
    requires CountsMessages(a, steps, n) && NoneShownMore(a, steps, n)
    ensures NoneShownMore(Next(a, e), steps, n + 1)
  {
    var b := Next(a, e);
    forall w: WorkerId | !PcOf(b, w).Idle?
      ensures SeenBy(PcOf(b, w)) <= Deliveries(steps, n + 1, PcOf(b, w).job.order)
    {
      if w != e.w {
        OthersStand(a, e, w);
      } else {
        WorkerSees(a, e);
        if e.Process? && e.process.Reclaim? {
          ClaimedIsPending(a, e);
        }
      }
    }
  }

  lemma ClaimedIsPending(a: State, e: Step)
    requires Enabled(a, e) && e.Process? && e.process.Reclaim?
    ensures var o := e.process.order; o in a.redis.delivery && a.redis.delivery[o].Pending?
  {
  }

  /** What a worker's step does to the deliveries. */
  lemma WorkerDelivers(a: State, e: Step)
    requires Enabled(a, e) && !e.Outside?
    ensures var b := Next(a, e);
            forall o :: if HandsOut(e, o) then
                          o in a.redis.delivery && a.redis.delivery[o].Pending? && o in b.redis.delivery
                          && b.redis.delivery[o] == Pending(a.redis.delivery[o].count + 1)
                        else if o in a.redis.delivery then
                          o in b.redis.delivery
                          && (b.redis.delivery[o] == a.redis.delivery[o] || b.redis.delivery[o].Acked?)
                        else o in b.redis.delivery ==> b.redis.delivery[o].Acked?
  {
  }

  /** A worker is shown a count only when it claims, and it is not above the message's. */
  lemma WorkerSees(a: State, e: Step)
    requires Enabled(a, e) && !e.Outside? && !PcOf(Next(a, e), e.w).Idle?
    ensures var pc := PcOf(Next(a, e), e.w);
            || (e.Process? && e.process.Start? && SeenBy(pc) == 0)
            || (e.Process? && e.process.Reclaim? && pc.job.order == e.process.order
                && SeenBy(pc) <= a.redis.delivery[pc.job.order].count)
            || (!PcOf(a, e.w).Idle? && pc.job.order == PcOf(a, e.w).job.order && SeenBy(pc) == SeenBy(PcOf(a, e.w)))
  {
  }

  lemma {:induction false} RunCounts(states: seq<State>, steps: seq<Step>, k: nat)
    requires Run(states, steps) && k <= |steps|
    ensures CountsMessages(states[k], steps, k) && NoneShownMore(states[k], steps, k)
  {
    if k == 0 {
      assert forall w: WorkerId :: PcOf(states[0], w) == Idle;
    } else {
      RunCounts(states, steps, k - 1);
      assert StepAt(states, steps, k - 1);
      var a, e := states[k - 1], steps[k - 1];
      if e.Outside? {
        AnyRunKeeps(states, steps, k - 1);
        OutsideCounts(a, e.out, steps, k - 1);
        OutsideShowsNone(a, e.out, steps, k - 1);
      } else {
        WorkerCounts(a, e, steps, k - 1);
        WorkerShown(a, e, steps, k - 1);
      }
    }
  }

  /** In any run a message is treated as a dead letter only after it was handed out more than MAX_DELIVERY times. */
  lemma DeadLetterWasDelivered(states: seq<State>, steps: seq<Step>, k: nat, o: OrderId)
    requires Run(states, steps) && k <= |steps| && DeadLetter(states[k], o)
    ensures Deliveries(steps, k, o) > MAX_DELIVERY
  {
    RunCounts(states, steps, k);
    var w: WorkerId :| TriedTooOften(PcOf(states[k], w), o);
    assert SeenBy(PcOf(states[k], w)) <= Deliveries(steps, k, o);
  }
}
