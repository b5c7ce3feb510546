/** What every run of the grant protocol keeps, through the dead-letter window and otherwise. */
module GrantAnyRun {
  import opened Wrappers
  import opened GrantProtocol
  import opened GrantSafety

  /** What worker w, standing at `pc`, may rely on even if other workers commit inside the window. */
  ghost predicate Holds(st: State, w: WorkerId, pc: Pc) {
    pc.Idle? || (
      && pc.job.order in st.redis.msgs
      && var m := MsgOf(st, pc);
      && (HoldsLock(pc) ==> m.user in st.locks && st.locks[m.user] == w)
      && (pc.Counted? || pc.Deducted? ==> !AtLimit(st.db, m.sku, m.user))
      && (pc.Deducted? ==> m.sku in st.rowLocks && st.rowLocks[m.sku] == w && CanDeduct(st.db, m.sku))
      && (pc.Acking? || pc.Unlocking? || pc.DeadAck? ==> Settled(st, pc.job.order)))
  }

  ghost predicate AllHold(st: State) {
    forall w: WorkerId :: Holds(st, w, PcOf(st, w))
  }

  ghost predicate StoresKept(st: State) {
    && st.redis.delivery.Keys == st.redis.msgs.Keys
    && (forall o <- st.redis.msgs :: st.redis.msgs[o].sku in st.db.skus)
    && (forall o <- st.db.orders ::
          o in st.redis.msgs && st.db.orders[o].user == st.redis.msgs[o].user
              && st.db.orders[o].sku == st.redis.msgs[o].sku)
    && (forall o <- st.redis.delivery :: st.redis.delivery[o].Acked? ==> Settled(st, o))
    && ReturnedOnce(st.redis)
    && (forall s <- st.rowLocks :: s in st.db.skus)
  }

  ghost predicate Kept(st: State) {
    DbOk(st.db) && StoresKept(st) && AllHold(st)
  }

  /** A grant on the way from a to b was made by `actor`, who holds the buyer's lock. */
  ghost predicate LockedGrant(a: State, b: State, g: Option<OrderId>, actor: WorkerId) {
    g.Some? ==>
      && g.value in b.db.orders
      && b.db.orders[g.value].user in a.locks && a.locks[b.db.orders[g.value].user] == actor
  }

  lemma HoldsFrame(a: State, b: State, g: Option<OrderId>, actor: WorkerId, w: WorkerId)
    requires Extends(a, b, g) && LockedGrant(a, b, g, actor) && w != actor && KeepsLocks(a, b, w) && StoresKept(a)
    requires Holds(a, w, PcOf(a, w))
    ensures Holds(b, w, PcOf(a, w))
  {
    var pc := PcOf(a, w);
    if pc.Counted? || pc.Deducted? {
      GrantedGrows(a, b, g, MsgOf(a, pc).sku, MsgOf(a, pc).user);
    }
  }

  /** Everyone but w holds what it held; w moves to `pc`. */
  lemma OthersHold(a: State, b: State, g: Option<OrderId>, w: WorkerId, pc: Pc)
    requires StoresKept(a) && AllHold(a) && Extends(a, b, g) && LockedGrant(a, b, g, w)
    requires b.workers == a.workers[w := pc] && Holds(b, w, pc)
    requires forall v: WorkerId | v != w :: KeepsLocks(a, b, v)
    ensures AllHold(b)
  {
    forall v: WorkerId ensures Holds(b, v, PcOf(b, v)) {
      if v != w {
        assert PcOf(b, v) == PcOf(a, v);
        HoldsFrame(a, b, g, w, v);
      }
    }
  }

  /** A step of worker w that changes neither orders nor SKUs. */
  ghost predicate Quiet(a: State, b: State, w: WorkerId) {
    && b.db == a.db && b.redis.msgs == a.redis.msgs && a.redis.markers <= b.redis.markers
    && b.redis.delivery.Keys == a.redis.delivery.Keys
    && (forall o <- b.redis.delivery :: b.redis.delivery[o].Acked? ==> a.redis.delivery[o].Acked? || Settled(b, o))
    && ReturnedOnce(b.redis)
    && OthersKeepLocks(a, b, w)
    && (forall s <- b.rowLocks :: s in b.db.skus)
  }

  lemma QuietKeeps(a: State, b: State, w: WorkerId, pc: Pc)
    requires StoresKept(a) && AllHold(a) && Quiet(a, b, w) && b.workers == a.workers[w := pc] && Holds(b, w, pc)
    ensures StoresKept(b) && AllHold(b)
  {
    OthersHold(a, b, None, w, pc);
  }

  lemma ReturnedStays(r: Redis, o: OrderId, m: Msg, sync: int)
    requires ReturnedOnce(r)
    ensures ReturnedOnce(RollbackScript(r, o, m, sync)) && o in RollbackScript(r, o, m, sync).markers
  {
    var r' := RollbackScript(r, o, m, sync);
    assert forall p :: p in r'.returned <==> p in r.returned || (p == o && o !in r.markers);
  }

  /** Picking a message up, or giving it up. */
  lemma PickUpKept(a: State, w: WorkerId, e: ProcessAct)
    requires StoresKept(a) && AllHold(a) && ProcessEnabled(a, w, e) && (e.Start? || e.Reclaim? || e.TakeLock?)
    ensures StoresKept(NextProcess(a, w, e)) && AllHold(NextProcess(a, w, e))
  {
    assert Holds(a, w, PcOf(a, w));
    var b := NextProcess(a, w, e);
    QuietKeeps(a, b, w, PcOf(b, w));
  }

  lemma EscapeKept(a: State, w: WorkerId)
    requires StoresKept(a) && AllHold(a) && !PcOf(a, w).Idle?
    ensures StoresKept(Escape(a, w, PcOf(a, w).job)) && AllHold(Escape(a, w, PcOf(a, w).job))
  {
    assert Holds(a, w, PcOf(a, w));
    var b := Escape(a, w, PcOf(a, w).job);
    QuietKeeps(a, b, w, PcOf(b, w));
  }

  lemma BrokeKept(a: State, w: WorkerId, interrupted: bool)
    requires StoresKept(a) && AllHold(a) && HoldsLock(PcOf(a, w))
    ensures StoresKept(Broke(a, w, PcOf(a, w).job, interrupted)) && AllHold(Broke(a, w, PcOf(a, w).job, interrupted))
  {
    var job := PcOf(a, w).job;
    if job.attempt < MAX_ATTEMPTS && !interrupted {
      assert Holds(a, w, PcOf(a, w));
      QuietKeeps(a, Broke(a, w, job, interrupted), w, Locked(job.(attempt := job.attempt + 1)));
    } else {
      EscapeKept(a, w);
    }
  }

  lemma IdleKept(a: State, w: WorkerId)
    requires StoresKept(a) && AllHold(a)
    ensures StoresKept(Goto(a, w, Idle)) && AllHold(Goto(a, w, Idle))
    ensures StoresKept(Goto(Unlock(a, w), w, Idle)) && AllHold(Goto(Unlock(a, w), w, Idle))
    ensures StoresKept(DoCrash(a, w)) && AllHold(DoCrash(a, w))
  {
    QuietKeeps(a, Goto(a, w, Idle), w, Idle);
    QuietKeeps(a, Goto(Unlock(a, w), w, Idle), w, Idle);
    QuietKeeps(a, DoCrash(a, w), w, Idle);
  }

  lemma ProcessKept(a: State, w: WorkerId, e: ProcessAct)
    requires StoresKept(a) && AllHold(a) && ProcessEnabled(a, w, e)
    ensures StoresKept(NextProcess(a, w, e)) && AllHold(NextProcess(a, w, e)) && NextProcess(a, w, e).db == a.db
  {
    match e {
      case LockBusy => EscapeKept(a, w);
      case Throw(interrupted) =>
        if InDeadLetter(PcOf(a, w)) {
          IdleKept(a, w);
        } else {
          BrokeKept(a, w, interrupted);
        }
      case Finish => IdleKept(a, w);
      case Crash => IdleKept(a, w);
      case _ => PickUpKept(a, w, e);
    }
  }

  /** An order row written by worker w: the messages' own, and no acknowledgement loses its ground. */
  lemma WrittenKept(a: State, b: State, g: Option<OrderId>, w: WorkerId, pc: Pc)
    requires StoresKept(a) && AllHold(a) && Extends(a, b, g) && LockedGrant(a, b, g, w)
    requires b.redis == a.redis && b.rowLocks.Keys <= a.rowLocks.Keys && b.workers == a.workers[w := pc]
             && Holds(b, w, pc)
    requires forall v: WorkerId | v != w :: KeepsLocks(a, b, v)
    requires forall o <- b.db.orders ::
               o in b.redis.msgs && b.db.orders[o].user == b.redis.msgs[o].user
                   && b.db.orders[o].sku == b.redis.msgs[o].sku
    ensures StoresKept(b) && AllHold(b)
  {
    OthersHold(a, b, g, w, pc);
    forall o | o in b.redis.delivery && b.redis.delivery[o].Acked? ensures Settled(b, o) {
      assert Settled(a, o);
    }
  }

  lemma CommitKept(a: State, w: WorkerId)
    requires StoresKept(a) && AllHold(a) && Working(a, w) && PcOf(a, w).Deducted?
    requires CanInsert(a.db, PcOf(a, w).job.order, MsgOf(a, PcOf(a, w)).sku)
    ensures StoresKept(DoCommit(a, w)) && AllHold(DoCommit(a, w))
  {
    assert Holds(a, w, PcOf(a, w));
    var job := PcOf(a, w).job;
    WrittenKept(a, DoCommit(a, w), Some(job.order), w, Acking(job));
  }

  lemma RecordKept(a: State, w: WorkerId, pc: Pc)
    requires StoresKept(a) && AllHold(a) && Working(a, w)
    requires (PcOf(a, w).Refused? && pc == Recorded(PcOf(a, w).job))
             || (PcOf(a, w).DeadRecord? && pc == DeadReturn(PcOf(a, w).job))
    ensures StoresKept(DoRecord(a, w, pc)) && AllHold(DoRecord(a, w, pc))
  {
    assert Holds(a, w, PcOf(a, w));
    WrittenKept(a, DoRecord(a, w, pc), None, w, pc);
  }

  lemma ReturnKept(a: State, w: WorkerId, sync: int, pc: Pc)
    requires StoresKept(a) && AllHold(a) && Working(a, w)
    requires (PcOf(a, w).Returning? && pc == Acking(PcOf(a, w).job))
             || (PcOf(a, w).DeadReturn? && pc == DeadAck(PcOf(a, w).job))
    ensures StoresKept(DoReturn(a, w, sync, pc)) && AllHold(DoReturn(a, w, sync, pc))
  {
    assert Holds(a, w, PcOf(a, w));
    ReturnedStays(a.redis, PcOf(a, w).job.order, MsgOf(a, PcOf(a, w)), sync);
    QuietKeeps(a, DoReturn(a, w, sync, pc), w, pc);
  }

  /** Reads, the stock update that is not yet visible, and the acknowledgement. */
  lemma CheckKept(a: State, w: WorkerId)
    requires StoresKept(a) && AllHold(a) && Working(a, w) && PcOf(a, w).Locked?
    ensures StoresKept(DoCheck(a, w)) && AllHold(DoCheck(a, w))
  {
    assert Holds(a, w, PcOf(a, w));
    QuietKeeps(a, DoCheck(a, w), w, PcOf(DoCheck(a, w), w));
  }

  lemma DeductKept(a: State, w: WorkerId)
    requires StoresKept(a) && AllHold(a) && Working(a, w) && PcOf(a, w).Counted?
             && MsgOf(a, PcOf(a, w)).sku !in a.rowLocks
    ensures StoresKept(DoDeduct(a, w)) && AllHold(DoDeduct(a, w))
  {
    assert Holds(a, w, PcOf(a, w));
    QuietKeeps(a, DoDeduct(a, w), w, PcOf(DoDeduct(a, w), w));
  }

  lemma AckKept(a: State, w: WorkerId, pc: Pc)
    requires StoresKept(a) && AllHold(a) && Working(a, w) && (PcOf(a, w).Acking? || PcOf(a, w).DeadAck?)
    requires pc == Idle || (PcOf(a, w).Acking? && pc == Unlocking(PcOf(a, w).job))
    ensures StoresKept(DoAck(a, w, pc)) && AllHold(DoAck(a, w, pc))
  {
    assert Holds(a, w, PcOf(a, w));
    QuietKeeps(a, DoAck(a, w, pc), w, pc);
  }

  lemma MovedKept(a: State, w: WorkerId, pc: Pc)
    requires StoresKept(a) && AllHold(a) && Working(a, w) && !pc.Idle? && pc.job == PcOf(a, w).job
    requires (PcOf(a, w).Recorded? && pc.Returning?) || (PcOf(a, w).DeadCheck? && pc.DeadRecord?)
             || (PcOf(a, w).DeadCheck? && pc.DeadAck? && IsGranted(a.db, pc.job.order))
    ensures StoresKept(Goto(a, w, pc)) && AllHold(Goto(a, w, pc))
  {
    assert Holds(a, w, PcOf(a, w));
    QuietKeeps(a, Goto(a, w, pc), w, pc);
  }

  lemma HandleKept(a: State, w: WorkerId, e: HandleAct)
    requires StoresKept(a) && AllHold(a) && HandleEnabled(a, w, e)
    ensures StoresKept(NextHandle(a, w, e)) && AllHold(NextHandle(a, w, e))
  {
    var job, m := PcOf(a, w).job, MsgOf(a, PcOf(a, w));
    match e {
      case Check => CheckKept(a, w);
      case Deduct => DeductKept(a, w);
      case Commit =>
        if CanInsert(a.db, job.order, m.sku) {
          CommitKept(a, w);
        } else {
          BrokeKept(a, w, false);
        }
      case Record => RecordKept(a, w, Recorded(job));
      case ReadStock => MovedKept(a, w, Returning(job, SyncTarget(a.db, m.sku)));
      case Return => ReturnKept(a, w, PcOf(a, w).sync, Acking(job));
      case Ack => AckKept(a, w, Unlocking(job));
    }
  }

  lemma DeadKept(a: State, w: WorkerId, e: DeadAct)
    requires StoresKept(a) && AllHold(a) && DeadEnabled(a, w, e)
    ensures StoresKept(NextDead(a, w, e)) && AllHold(NextDead(a, w, e))
  {
    var job := PcOf(a, w).job;
    match e {
      case AskGranted => MovedKept(a, w, if IsGranted(a.db, job.order) then DeadAck(job) else DeadRecord(job));
      case RecordDead => RecordKept(a, w, DeadReturn(job));
      case ReturnDead => ReturnKept(a, w, PLUS_ONE, DeadAck(job));
      case AckDead => AckKept(a, w, Idle);
    }
  }

  /** Nobody moves, no lock changes and no row-locked SKU changes. */
  lemma AllHoldStill(a: State, b: State)
    requires StoresKept(a) && AllHold(a) && Extends(a, b, None) && b.workers == a.workers && b.locks == a.locks
             && b.rowLocks == a.rowLocks
    requires forall s <- a.rowLocks :: s in a.db.skus ==> s in b.db.skus && b.db.skus[s] == a.db.skus[s]
    ensures AllHold(b)
  {
    forall v: WorkerId ensures Holds(b, v, PcOf(b, v)) {
      assert PcOf(b, v) == PcOf(a, v);
      HoldsFrame(a, b, None, v + 1, v);
    }
  }

  lemma RedisOnlyHold(a: State, r: Redis)
    requires StoresKept(a) && AllHold(a) && r.markers == a.redis.markers
    requires forall o <- a.redis.msgs :: o in r.msgs && r.msgs[o] == a.redis.msgs[o]
    ensures AllHold(a.(redis := r))
  {
    AllHoldStill(a, a.(redis := r));
  }

  lemma AdminHold(a: State, e: OutsideAct)
    requires StoresKept(a) && AllHold(a) && OutsideEnabled(a, e) && (e.CreateSku? || e.DeleteSku? || e.SetStock?)
    ensures AllHold(NextOutside(a, e))
  {
    AllHoldStill(a, NextOutside(a, e));
  }

  lemma OutsideHold(a: State, e: OutsideAct)
    requires StoresKept(a) && AllHold(a) && OutsideEnabled(a, e)
    ensures AllHold(NextOutside(a, e))
  {
    if e.CreateSku? || e.DeleteSku? || e.SetStock? {
      AdminHold(a, e);
    } else {
      RedisOnlyHold(a, NextOutside(a, e).redis);
    }
  }

  lemma OutsideStores(a: State, e: OutsideAct)
    requires StoresKept(a) && OutsideEnabled(a, e)
    ensures StoresKept(NextOutside(a, e))
  {
    var b := NextOutside(a, e);
    forall o | o in b.redis.delivery && b.redis.delivery[o].Acked? ensures Settled(b, o) {
      assert Settled(a, o);
    }
  }

  /** Every step keeps this, disciplined or not. */
  lemma AnyStepKeeps(a: State, e: Step)
    requires Kept(a) && Enabled(a, e)
    ensures Kept(Next(a, e))
  {
    match e {
      case Outside(x) =>
        OutsideHold(a, x);
        OutsideStores(a, x);
        OutsideKeepsDb(a, x);
      case Process(w, x) => ProcessKept(a, w, x);
      case Handle(w, x) =>
        assert Holds(a, w, PcOf(a, w));
        HandleKept(a, w, x);
        HandleKeepsDb(a, w, x);
      case Dead(w, x) =>
        DeadKept(a, w, x);
        DeadKeepsDb(a, w, x);
    }
  }

  lemma InitIsKept(st: State)
    requires Init(st)
    ensures Kept(st)
  {
    forall w: WorkerId ensures Holds(st, w, PcOf(st, w)) {
      assert PcOf(st, w) == Idle;
    }
    assert forall s :: Sold(st.db, s) == {};
    assert forall s, u: UserId :: GrantedTo(st.db, s, u) == {};
  }

  lemma {:induction false} AnyRunKeeps(states: seq<State>, steps: seq<Step>, n: nat)
    requires Run(states, steps) && n <= |steps|
    ensures Kept(states[n])
  {
    if n == 0 {
      InitIsKept(states[0]);
    } else {
      AnyRunKeeps(states, steps, n - 1);
      assert StepAt(states, steps, n - 1);
      AnyStepKeeps(states[n - 1], steps[n - 1]);
    }
  }

  /** In any run no reservation is returned twice, and an acknowledged order is granted or its reservation returned. */
  lemma {:induction false} EveryRunSettlesOnce(states: seq<State>, steps: seq<Step>, n: nat)
    requires Run(states, steps) && n <= |steps|
    ensures var st := states[n];
            && (forall i, j | 0 <= i < j < |st.redis.returned| :: st.redis.returned[i] != st.redis.returned[j])
            && (forall o <- st.redis.delivery :: st.redis.delivery[o].Acked? ==>
                IsGranted(st.db, o) || o in st.redis.returned)
  {
    AnyRunKeeps(states, steps, n);
  }

  /** In any run: never oversold, never above a user's limit, and the ledger matches the granted orders one to one. */
  lemma {:induction false} EveryRunBalances(states: seq<State>, steps: seq<Step>, n: nat, s: SkuId, u: UserId,
                                            o: OrderId)
    requires Run(states, steps) && n <= |steps| && s in states[n].db.skus
    ensures var db := states[n].db;
            && db.skus[s].stock >= 0
            && s in db.supply && db.skus[s].stock + |Sold(db, s)| == db.supply[s]
            && |GrantedTo(db, s, u)| <= (if db.skus[s].limitCount <= 0 then 1 else db.skus[s].limitCount)
            && (IsGranted(db, o) <==> exists i :: 0 <= i < |db.grants| && db.grants[i].ref == o)
            && (forall i, j | 0 <= i < |db.grants| && 0 <= j < |db.grants| && db.grants[i].ref == db.grants[j].ref ::
                i == j)
            && (IsGranted(db, o) ==> GrantEntry(o, db.orders[o].user, db.orders[o].amount) in db.grants)
  {
    AnyRunKeeps(states, steps, n);
    var db := states[n].db;
    if IsGranted(db, o) {
      var i :| 0 <= i < |db.grants| && db.grants[i].ref == o;
      assert db.grants[i] == GrantEntry(o, db.orders[o].user, db.orders[o].amount);
    }
  }
}
