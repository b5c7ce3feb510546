/**
 Safety of the grant protocol over every run: an order ends granted or rolled back, never both,
 whatever is redelivered, retried, crashed or dead-lettered.
 */
module GrantSafety {
  import opened Wrappers
  import opened GrantProtocol

  /** The database will never grant this order: it failed, its SKU is gone, or its buyer is at the limit. */
  predicate Lost(st: State, o: OrderId)
    requires o in st.redis.msgs
  {
    && !IsGranted(st.db, o)
    && (o in st.db.orders || !Live(st.db, st.redis.msgs[o].sku)
        || AtLimit(st.db, st.redis.msgs[o].sku, st.redis.msgs[o].user))
  }

  /** The reservation has been used up one way or the other. */
  predicate Settled(st: State, o: OrderId) {
    IsGranted(st.db, o) || o in st.redis.markers
  }

  // ---------- Invariants ----------

  /** Exactly one ledger row for each granted order, with its id, user and amount, and no other row. */
  ghost predicate LedgerExact(db: Db) {
    && (forall i | 0 <= i < |db.grants| ::
          var e := db.grants[i];
          IsGranted(db, e.ref) && db.orders[e.ref].user == e.user && db.orders[e.ref].amount == e.amount)
    && (forall i, j | 0 <= i < j < |db.grants| :: db.grants[i].ref != db.grants[j].ref)
    && (forall o | o in db.orders && IsGranted(db, o) :: exists i :: 0 <= i < |db.grants| && db.grants[i].ref == o)
  }

  /** Stock is never oversold and every unit of supply is in stock or in a granted order. */
  ghost predicate StockConserved(db: Db) {
    forall s <- db.skus ::
      && db.skus[s].stock >= 0
      && s in db.supply
      && db.skus[s].stock + |Sold(db, s)| == db.supply[s]
  }

  ghost predicate LimitsKept(db: Db) {
    forall s <- db.skus, u: UserId :: |GrantedTo(db, s, u)| <= db.skus[s].Limit()
  }

  ghost predicate DbOk(db: Db) {
    && LedgerExact(db)
    && StockConserved(db)
    && LimitsKept(db)
    && (forall o <- db.orders :: db.orders[o].sku in db.skus)
    && (forall o <- db.orders :: db.orders[o].amount == db.skus[db.orders[o].sku].tokenAmount)
    && (forall o | o in db.orders && IsGranted(db, o) :: db.orders[o].amount > 0)
  }

  ghost predicate ReturnedOnce(r: Redis) {
    && (forall i, j | 0 <= i < j < |r.returned| :: r.returned[i] != r.returned[j])
    && (forall o :: o in r.returned <==> o in r.markers)
  }

  /** The orders, messages, markers and acknowledgements fit together. */
  ghost predicate StoresOk(st: State) {
    && st.redis.delivery.Keys == st.redis.msgs.Keys
    && (forall o <- st.redis.msgs :: st.redis.msgs[o].sku in st.db.skus)
    && (forall o <- st.db.orders ::
          o in st.redis.msgs && st.db.orders[o].user == st.redis.msgs[o].user
              && st.db.orders[o].sku == st.redis.msgs[o].sku)
    && (forall o <- st.redis.markers :: o in st.redis.msgs && Lost(st, o))
    && (forall o <- st.redis.delivery :: st.redis.delivery[o].Acked? ==> Settled(st, o))
    && ReturnedOnce(st.redis)
    && (forall s <- st.rowLocks :: s in st.db.skus)
  }

  /** What worker w, standing at `pc`, may rely on whatever the other workers do. */
  ghost predicate Stands(st: State, w: WorkerId, pc: Pc) {
    pc.Idle? || (
      && pc.job.order in st.redis.msgs
      && var m := MsgOf(st, pc);
      && (HoldsLock(pc) ==> m.user in st.locks && st.locks[m.user] == w)
      && (pc.Counted? || pc.Deducted? ==> !AtLimit(st.db, m.sku, m.user))
      && (pc.Deducted? ==> m.sku in st.rowLocks && st.rowLocks[m.sku] == w && CanDeduct(st.db, m.sku))
      && (pc.Counted? || pc.Deducted? || pc.Refused? || pc.DeadRecord? ==> !IsGranted(st.db, pc.job.order))
      && (pc.Recorded? || pc.Returning? || pc.DeadReturn? ==> Lost(st, pc.job.order))
      && (pc.Acking? || pc.Unlocking? || pc.DeadAck? ==> Settled(st, pc.job.order)))
  }

  ghost predicate WorkersOk(st: State) {
    forall w: WorkerId :: Stands(st, w, PcOf(st, w))
  }

  ghost predicate Coherent(st: State) {
    StoresOk(st) && WorkersOk(st)
  }

  ghost predicate Inv(st: State) {
    && DbOk(st.db)
    && Coherent(st)
  }

  /**
   The one interleaving the design does not rule out: a grant commits while a compensator stands
   between `orderGranted` and `recordFailedOrder` for the same order.
   */
  ghost predicate WindowOpen(st: State, o: OrderId) {
    exists w: WorkerId :: PcOf(st, w).DeadRecord? && PcOf(st, w).job.order == o
  }

  /** Step e would insert a granted order. */
  ghost predicate Grants(st: State, e: Step) {
    && e.Handle? && e.handle.Commit? && Enabled(st, e)
    && CanInsert(st.db, PcOf(st, e.w).job.order, MsgOf(st, PcOf(st, e.w)).sku)
  }

  ghost predicate Disciplined(st: State, e: Step) {
    Grants(st, e) ==> !WindowOpen(st, PcOf(st, e.w).job.order)
  }

  // ---------- How the stores evolve ----------

  /** From a to b the stores only grow; `g` is the order granted on the way, if any. */
  ghost predicate Extends(a: State, b: State, g: Option<OrderId>) {
    && (forall o <- a.redis.msgs :: o in b.redis.msgs && b.redis.msgs[o] == a.redis.msgs[o])
    && (forall o <- a.db.orders :: o in b.db.orders && b.db.orders[o] == a.db.orders[o])
    && (forall o <- b.db.orders :: o in a.db.orders || b.db.orders[o].status == Failed || g == Some(o))
    && a.redis.markers <= b.redis.markers
    && (forall s <- a.db.skus ::
          s in b.db.skus && b.db.skus[s].limitCount == a.db.skus[s].limitCount
              && (b.db.skus[s].live ==> a.db.skus[s].live))
  }

  lemma GrantedGrows(a: State, b: State, g: Option<OrderId>, s: SkuId, u: UserId)
    requires Extends(a, b, g)
    ensures |GrantedTo(a.db, s, u)| <= |GrantedTo(b.db, s, u)|
    ensures (g.None? || g.value !in b.db.orders || b.db.orders[g.value].user != u)
            ==> GrantedTo(a.db, s, u) == GrantedTo(b.db, s, u)
  {
    assert GrantedTo(a.db, s, u) <= GrantedTo(b.db, s, u);
    SubsetCardinality(GrantedTo(a.db, s, u), GrantedTo(b.db, s, u));
  }

  lemma SubsetCardinality<T>(x: set<T>, y: set<T>)
    requires x <= y
    ensures |x| <= |y|
  {
    if x != {} {
      var e :| e in x;
      SubsetCardinality(x - {e}, y - {e});
    }
  }

  lemma LostStays(a: State, b: State, g: Option<OrderId>, o: OrderId)
    requires Extends(a, b, g) && o in a.redis.msgs && Lost(a, o) && g != Some(o)
    requires a.redis.msgs[o].sku in a.db.skus
    ensures Lost(b, o)
  {
    GrantedGrows(a, b, g, a.redis.msgs[o].sku, a.redis.msgs[o].user);
  }

  /** The part of a grant that matters to the others: it is not Lost, and its user lock is with worker `by`. */
  ghost predicate GrantBy(a: State, b: State, g: Option<OrderId>, actor: WorkerId) {
    g.Some? ==>
      && g.value in b.db.orders && g.value in a.redis.msgs && !Lost(a, g.value)
      && b.db.orders[g.value].user == a.redis.msgs[g.value].user
      && b.db.orders[g.value].user in a.locks && a.locks[b.db.orders[g.value].user] == actor
      && !WindowOpen(a, g.value)
  }

  ghost predicate KeepsLocks(a: State, b: State, w: WorkerId) {
    && (forall u | u in a.locks && a.locks[u] == w :: u in b.locks && b.locks[u] == w)
    && (forall s | s in a.rowLocks && a.rowLocks[s] == w ::
          s in b.rowLocks && b.rowLocks[s] == w && (s in a.db.skus ==> s in b.db.skus && b.db.skus[s] == a.db.skus[s]))
  }

  lemma LockedFrame(a: State, b: State, g: Option<OrderId>, actor: WorkerId, w: WorkerId)
    requires Extends(a, b, g) && GrantBy(a, b, g, actor) && w != actor && KeepsLocks(a, b, w) && StoresOk(a)
    requires HoldsLock(PcOf(a, w)) && Stands(a, w, PcOf(a, w))
    ensures !IsGranted(a.db, PcOf(a, w).job.order) ==> !IsGranted(b.db, PcOf(a, w).job.order)
    ensures AtLimit(b.db, MsgOf(a, PcOf(a, w)).sku, MsgOf(a, PcOf(a, w)).user)
            == AtLimit(a.db, MsgOf(a, PcOf(a, w)).sku, MsgOf(a, PcOf(a, w)).user)
  {
    var m := MsgOf(a, PcOf(a, w));
    assert g.Some? ==> m.user != b.db.orders[g.value].user;
    GrantedGrows(a, b, g, m.sku, m.user);
  }

  /** What worker w relies on survives a step of somebody else. */
  lemma StandsFrame(a: State, b: State, g: Option<OrderId>, actor: WorkerId, w: WorkerId)
    requires Extends(a, b, g) && GrantBy(a, b, g, actor) && w != actor && KeepsLocks(a, b, w) && StoresOk(a)
    requires Stands(a, w, PcOf(a, w))
    ensures Stands(b, w, PcOf(a, w))
  {
    var pc := PcOf(a, w);
    if pc.Counted? || pc.Deducted? || pc.Refused? {
      LockedFrame(a, b, g, actor, w);
    } else if pc.Recorded? || pc.Returning? || pc.DeadReturn? {
      LostStays(a, b, g, pc.job.order);
    }
  }

  // ---------- Steps that leave orders, SKUs, messages and markers alone ----------

  ghost predicate SameFacts(a: State, b: State) {
    && b.db == a.db
    && b.redis.msgs == a.redis.msgs
    && b.redis.markers == a.redis.markers
    && b.redis.returned == a.redis.returned
  }

  /** Everyone else's locks stay. */
  ghost predicate OthersKeepLocks(a: State, b: State, w: WorkerId) {
    && (forall u | u in a.locks && a.locks[u] != w :: u in b.locks && b.locks[u] == a.locks[u])
    && (forall s | s in a.rowLocks && a.rowLocks[s] != w :: s in b.rowLocks && b.rowLocks[s] == a.rowLocks[s])
  }

  ghost predicate AcksJustified(a: State, b: State) {
    && b.redis.delivery.Keys == a.redis.delivery.Keys
    && (forall o <- b.redis.delivery :: b.redis.delivery[o].Acked? ==> a.redis.delivery[o].Acked? || Settled(b, o))
  }

  lemma QuietStores(a: State, b: State)
    requires StoresOk(a) && SameFacts(a, b) && AcksJustified(a, b)
    requires forall s <- b.rowLocks :: s in b.db.skus
    ensures StoresOk(b)
  {
    forall o <- b.redis.markers ensures o in b.redis.msgs && Lost(b, o) {
      assert Lost(a, o);
    }
  }

  lemma QuietWorkers(a: State, b: State, w: WorkerId, pc: Pc)
    requires StoresOk(a) && WorkersOk(a)
    requires SameFacts(a, b) && OthersKeepLocks(a, b, w) && b.workers == a.workers[w := pc] && Stands(b, w, pc)
    ensures WorkersOk(b)
  {
    forall v: WorkerId ensures Stands(b, v, PcOf(b, v)) {
      if v != w {
        assert PcOf(b, v) == PcOf(a, v);
        StandsFrame(a, b, None, w, v);
      }
    }
  }

  /** A worker moves on to `pc`, where it can stand. */
  lemma Moved(a: State, b: State, w: WorkerId, pc: Pc)
    requires Coherent(a)
    requires SameFacts(a, b) && OthersKeepLocks(a, b, w) && b.workers == a.workers[w := pc] && Stands(b, w, pc)
    requires AcksJustified(a, b)
    requires forall s <- b.rowLocks :: s in b.db.skus
    ensures Coherent(b)
  {
    QuietStores(a, b);
    QuietWorkers(a, b, w, pc);
  }

  lemma StartKeeps(a: State, w: WorkerId, o: OrderId)
    requires Coherent(a) && o in a.redis.delivery
    ensures Coherent(DoStart(a, w, o))
  {
    Moved(a, DoStart(a, w, o), w, Got(Job(o, Poll, 1)));
  }

  lemma ReclaimKeeps(a: State, w: WorkerId, o: OrderId, seen: nat)
    requires Coherent(a) && o in a.redis.delivery && a.redis.delivery[o].Pending?
    ensures Coherent(DoReclaim(a, w, o, seen))
  {
    Moved(a, DoReclaim(a, w, o, seen), w, Got(Job(o, Compensate(seen), 1)));
  }

  lemma LockKeeps(a: State, w: WorkerId)
    requires Coherent(a) && Working(a, w) && PcOf(a, w).Got? && MsgOf(a, PcOf(a, w)).user !in a.locks
    ensures Coherent(DoTakeLock(a, w))
  {
    Moved(a, DoTakeLock(a, w), w, Locked(PcOf(a, w).job));
  }

  lemma CheckKeeps(a: State, w: WorkerId)
    requires Coherent(a) && Working(a, w) && PcOf(a, w).Locked?
    ensures Coherent(DoCheck(a, w))
  {
    assert Stands(a, w, PcOf(a, w));
    var job, m := PcOf(a, w).job, MsgOf(a, PcOf(a, w));
    Moved(a, DoCheck(a, w), w, AfterCheck(job, CheckGrant(a.db, job.order, m.sku, m.user)));
  }

  lemma DeductKeeps(a: State, w: WorkerId)
    requires Coherent(a) && Working(a, w) && PcOf(a, w).Counted? && MsgOf(a, PcOf(a, w)).sku !in a.rowLocks
    ensures Coherent(DoDeduct(a, w))
  {
    assert Stands(a, w, PcOf(a, w));
    Moved(a, DoDeduct(a, w), w,
          if CanDeduct(a.db, MsgOf(a, PcOf(a, w)).sku) then Deducted(PcOf(a, w).job) else Refused(PcOf(a, w).job));
  }

  lemma EscapeKeeps(a: State, w: WorkerId)
    requires Coherent(a) && !PcOf(a, w).Idle?
    ensures Coherent(Escape(a, w, PcOf(a, w).job))
  {
    assert Stands(a, w, PcOf(a, w));
    var job := PcOf(a, w).job;
    Moved(a, Escape(a, w, job), w,
          if job.origin.Compensate? && job.origin.seen > MAX_DELIVERY then DeadCheck(job) else Idle);
  }

  lemma BrokeKeeps(a: State, w: WorkerId, interrupted: bool)
    requires Coherent(a) && HoldsLock(PcOf(a, w))
    ensures Coherent(Broke(a, w, PcOf(a, w).job, interrupted))
  {
    assert Stands(a, w, PcOf(a, w));
    var job := PcOf(a, w).job;
    if job.attempt < MAX_ATTEMPTS && !interrupted {
      Moved(a, Broke(a, w, job, interrupted), w, Locked(job.(attempt := job.attempt + 1)));
    } else {
      EscapeKeeps(a, w);
    }
  }

  lemma IdleKeeps(a: State, w: WorkerId)
    requires Coherent(a)
    ensures Coherent(Goto(a, w, Idle)) && Coherent(Goto(Unlock(a, w), w, Idle)) && Coherent(DoCrash(a, w))
  {
    Moved(a, Goto(a, w, Idle), w, Idle);
    Moved(a, Goto(Unlock(a, w), w, Idle), w, Idle);
    Moved(a, DoCrash(a, w), w, Idle);
  }

  lemma AckKeeps(a: State, w: WorkerId, pc: Pc)
    requires Coherent(a) && Working(a, w) && (PcOf(a, w).Acking? || PcOf(a, w).DeadAck?)
    requires pc == Idle || (PcOf(a, w).Acking? && pc == Unlocking(PcOf(a, w).job))
    ensures Coherent(DoAck(a, w, pc))
  {
    assert Stands(a, w, PcOf(a, w));
    Moved(a, DoAck(a, w, pc), w, pc);
  }

  lemma AskKeeps(a: State, w: WorkerId)
    requires Coherent(a) && Working(a, w) && PcOf(a, w).DeadCheck?
    ensures Coherent(DoAsk(a, w))
  {
    var job := PcOf(a, w).job;
    Moved(a, DoAsk(a, w), w, if IsGranted(a.db, job.order) then DeadAck(job) else DeadRecord(job));
  }

  lemma ReadStockKeeps(a: State, w: WorkerId)
    requires Coherent(a) && Working(a, w) && PcOf(a, w).Recorded?
    ensures Coherent(DoReadStock(a, w))
  {
    assert Stands(a, w, PcOf(a, w));
    Moved(a, DoReadStock(a, w), w, Returning(PcOf(a, w).job, SyncTarget(a.db, MsgOf(a, PcOf(a, w)).sku)));
  }

  // ---------- Steps that change orders, SKUs, messages or markers ----------

  /** Everyone but w stands where it stood. */
  lemma OthersStand(a: State, b: State, g: Option<OrderId>, w: WorkerId, pc: Pc)
    requires Coherent(a) && Extends(a, b, g) && GrantBy(a, b, g, w)
    requires b.workers == a.workers[w := pc] && Stands(b, w, pc)
    requires forall v: WorkerId | v != w :: KeepsLocks(a, b, v)
    ensures WorkersOk(b)
  {
    forall v: WorkerId ensures Stands(b, v, PcOf(b, v)) {
      if v != w {
        assert PcOf(b, v) == PcOf(a, v);
        StandsFrame(a, b, g, w, v);
      }
    }
  }

  /** Markers and acknowledgements stay justified when only the database changes. */
  lemma MarkersStay(a: State, b: State, g: Option<OrderId>)
    requires StoresOk(a) && Extends(a, b, g) && b.redis == a.redis.(stock := b.redis.stock)
    requires g.Some? ==> g.value in a.redis.msgs && !Lost(a, g.value)
    requires b.rowLocks.Keys <= a.rowLocks.Keys
    requires forall o <- b.db.orders ::
               o in b.redis.msgs && b.db.orders[o].user == b.redis.msgs[o].user
                   && b.db.orders[o].sku == b.redis.msgs[o].sku
    ensures StoresOk(b)
  {
    forall o <- b.redis.markers ensures o in b.redis.msgs && Lost(b, o) {
      LostStays(a, b, g, o);
    }
    forall o | o in b.redis.delivery && b.redis.delivery[o].Acked? ensures Settled(b, o) {
      assert Settled(a, o);
    }
  }

  /** Publishing a grant touches the committing worker's row lock and SKU only. */
  lemma CommitLocks(a: State, w: WorkerId, v: WorkerId)
    requires Working(a, w) && Stands(a, w, PcOf(a, w)) && PcOf(a, w).Deducted? && v != w
    requires CanInsert(a.db, PcOf(a, w).job.order, MsgOf(a, PcOf(a, w)).sku)
    ensures KeepsLocks(a, DoCommit(a, w), v)
  {
  }

  lemma CommitKeeps(a: State, w: WorkerId)
    requires Coherent(a) && Working(a, w) && PcOf(a, w).Deducted?
    requires CanInsert(a.db, PcOf(a, w).job.order, MsgOf(a, PcOf(a, w)).sku)
    requires !WindowOpen(a, PcOf(a, w).job.order)
    ensures Coherent(DoCommit(a, w))
  {
    assert Stands(a, w, PcOf(a, w));
    var job := PcOf(a, w).job;
    MarkersStay(a, DoCommit(a, w), Some(job.order));
    forall v: WorkerId | v != w ensures KeepsLocks(a, DoCommit(a, w), v) {
      CommitLocks(a, w, v);
    }
    OthersStand(a, DoCommit(a, w), Some(job.order), w, Acking(job));
  }

  lemma RecordKeeps(a: State, w: WorkerId, pc: Pc)
    requires Coherent(a) && Working(a, w)
    requires (PcOf(a, w).Refused? && pc == Recorded(PcOf(a, w).job))
             || (PcOf(a, w).DeadRecord? && pc == DeadReturn(PcOf(a, w).job))
    ensures Coherent(DoRecord(a, w, pc))
  {
    assert Stands(a, w, PcOf(a, w));
    MarkersStay(a, DoRecord(a, w, pc), None);
    OthersStand(a, DoRecord(a, w, pc), None, w, pc);
  }

  lemma ReturnStores(a: State, b: State, o: OrderId, sync: int)
    requires StoresOk(a) && o in a.redis.msgs && Lost(a, o)
    requires b.db == a.db && b.redis == RollbackScript(a.redis, o, a.redis.msgs[o], sync) && b.rowLocks == a.rowLocks
    ensures StoresOk(b)
  {
    assert forall p <- a.redis.msgs :: Lost(b, p) == Lost(a, p);
    var r, r' := a.redis.returned, b.redis.returned;
    assert forall p :: p in r' <==> p in r || (p == o && o !in a.redis.markers);
  }

  lemma ReturnKeeps(a: State, w: WorkerId, sync: int, pc: Pc)
    requires Coherent(a) && Working(a, w)
    requires (PcOf(a, w).Returning? && pc == Acking(PcOf(a, w).job))
             || (PcOf(a, w).DeadReturn? && pc == DeadAck(PcOf(a, w).job))
    ensures Coherent(DoReturn(a, w, sync, pc))
  {
    assert Stands(a, w, PcOf(a, w));
    ReturnStores(a, DoReturn(a, w, sync, pc), PcOf(a, w).job.order, sync);
    OthersStand(a, DoReturn(a, w, sync, pc), None, w, pc);
  }

  /** No worker moves, nothing is granted and no row-locked SKU changes: every worker stands where it stood. */
  lemma AllStand(a: State, b: State)
    requires Coherent(a) && Extends(a, b, None) && b.workers == a.workers && b.locks == a.locks
             && b.rowLocks == a.rowLocks
    requires forall s <- a.rowLocks :: s in a.db.skus ==> s in b.db.skus && b.db.skus[s] == a.db.skus[s]
    ensures WorkersOk(b)
  {
    forall v: WorkerId ensures Stands(b, v, PcOf(b, v)) {
      assert PcOf(b, v) == PcOf(a, v);
      StandsFrame(a, b, None, v + 1, v);
    }
  }

  lemma ClaimStores(a: State, r: Redis, o: OrderId, m: Msg)
    requires StoresOk(a) && o !in a.redis.msgs && m.sku in a.db.skus
    requires r.msgs == a.redis.msgs[o := m] && r.delivery == a.redis.delivery[o := Unread]
    requires r.markers == a.redis.markers && r.returned == a.redis.returned
    ensures StoresOk(a.(redis := r))
  {
    assert forall p <- a.redis.msgs :: Lost(a.(redis := r), p) == Lost(a, p);
  }

  lemma ClaimKeeps(a: State, s: SkuId, u: UserId, o: OrderId, limit: int, xaddOk: bool)
    requires Coherent(a) && o !in a.redis.msgs && s in a.db.skus
    ensures Coherent(a.(redis := GrantScript(a.redis, s, u, o, limit, xaddOk).0))
  {
    var r := GrantScript(a.redis, s, u, o, limit, xaddOk).0;
    if r.msgs == a.redis.msgs {
      QuietStores(a, a.(redis := r));
    } else {
      ClaimStores(a, r, o, Msg(s, u, limit));
    }
    AllStand(a, a.(redis := r));
  }

  lemma RedisChoreKeeps(a: State, r: Redis)
    requires Coherent(a)
    requires r.msgs == a.redis.msgs && r.markers == a.redis.markers && r.returned == a.redis.returned
    requires AcksJustified(a, a.(redis := r))
    ensures Coherent(a.(redis := r))
  {
    var b := a.(redis := r);
    QuietStores(a, b);
    AllStand(a, b);
  }

  /** Administrator steps: the orders stay, limits stay, a deleted SKU stays deleted. */
  lemma AdminKeeps(a: State, b: State)
    requires Coherent(a) && b.db.orders == a.db.orders && Extends(a, b, None)
    requires b == a.(db := b.db, redis := a.redis.(stock := b.redis.stock))
    requires forall s <- a.rowLocks :: s in a.db.skus ==> s in b.db.skus && b.db.skus[s] == a.db.skus[s]
    ensures Coherent(b)
  {
    AllStand(a, b);
    MarkersStay(a, b, None);
  }

  lemma CreateKeeps(a: State, s: SkuId, row: Sku)
    requires Coherent(a) && s !in a.db.skus && row.live
    ensures Coherent(DoCreate(a, s, row))
  {
    AdminKeeps(a, DoCreate(a, s, row));
  }

  lemma DeleteKeeps(a: State, s: SkuId)
    requires Coherent(a) && Live(a.db, s) && s !in a.rowLocks
    ensures Coherent(DoDelete(a, s))
  {
    AdminKeeps(a, DoDelete(a, s));
  }

  lemma SetStockKeeps(a: State, s: SkuId, stock: int)
    requires Coherent(a) && Live(a.db, s) && s !in a.rowLocks
    ensures Coherent(DoSetStock(a, s, stock))
  {
    AdminKeeps(a, DoSetStock(a, s, stock));
  }

  // ---------- The database ----------

  lemma PersistLedger(db: Db, o: OrderId, s: SkuId, u: UserId)
    requires LedgerExact(db) && CanInsert(db, o, s)
    ensures LedgerExact(PersistGrant(db, o, s, u))
  {
    var d := PersistGrant(db, o, s, u);
    assert d.grants[|db.grants|].ref == o;
    forall p | p in d.orders && IsGranted(d, p) ensures exists i :: 0 <= i < |d.grants| && d.grants[i].ref == p {
      if p != o {
        assert IsGranted(db, p);
        var i :| 0 <= i < |db.grants| && db.grants[i].ref == p;
        assert d.grants[i].ref == p;
      }
    }
  }

  lemma AddFresh<T>(x: set<T>, y: set<T>, e: T)
    requires e !in x && y == x + {e}
    ensures |y| == |x| + 1
  {
  }

  lemma SoldAfter(db: Db, o: OrderId, s: SkuId, u: UserId, t: SkuId)
    requires o !in db.orders && Live(db, s)
    ensures |Sold(PersistGrant(db, o, s, u), t)| == |Sold(db, t)| + if t == s then 1 else 0
  {
    var d := PersistGrant(db, o, s, u);
    forall p ensures p in Sold(d, t) <==> p in Sold(db, t) || (t == s && p == o) {
      assert p in d.orders <==> p in db.orders || p == o;
    }
    if t == s {
      AddFresh(Sold(db, t), Sold(d, t), o);
    } else {
      assert Sold(d, t) == Sold(db, t);
    }
  }

  lemma GrantedAfter(db: Db, o: OrderId, s: SkuId, u: UserId, t: SkuId, v: UserId)
    requires o !in db.orders && Live(db, s)
    ensures |GrantedTo(PersistGrant(db, o, s, u), t, v)| == |GrantedTo(db, t, v)| + if t == s && v == u then 1 else 0
  {
    var d := PersistGrant(db, o, s, u);
    forall p ensures p in GrantedTo(d, t, v) <==> p in GrantedTo(db, t, v) || (t == s && v == u && p == o) {
      assert p in d.orders <==> p in db.orders || p == o;
    }
    if t == s && v == u {
      AddFresh(GrantedTo(db, t, v), GrantedTo(d, t, v), o);
    } else {
      assert GrantedTo(d, t, v) == GrantedTo(db, t, v);
    }
  }

  lemma PersistStock(db: Db, o: OrderId, s: SkuId, u: UserId)
    requires StockConserved(db) && o !in db.orders && CanDeduct(db, s)
    ensures StockConserved(PersistGrant(db, o, s, u))
  {
    forall t <- db.skus ensures |Sold(PersistGrant(db, o, s, u), t)| == |Sold(db, t)| + if t == s then 1 else 0 {
      SoldAfter(db, o, s, u, t);
    }
  }

  lemma PersistLimits(db: Db, o: OrderId, s: SkuId, u: UserId)
    requires LimitsKept(db) && o !in db.orders && Live(db, s) && !AtLimit(db, s, u)
    ensures LimitsKept(PersistGrant(db, o, s, u))
  {
    forall t, v: UserId | t in db.skus
      ensures |GrantedTo(PersistGrant(db, o, s, u), t, v)| == |GrantedTo(db, t, v)| + if t == s && v == u then 1 else 0
    {
      GrantedAfter(db, o, s, u, t, v);
    }
  }

  lemma PersistKeeps(db: Db, o: OrderId, s: SkuId, u: UserId)
    requires DbOk(db) && CanInsert(db, o, s) && CanDeduct(db, s) && !AtLimit(db, s, u)
    ensures DbOk(PersistGrant(db, o, s, u))
  {
    PersistLedger(db, o, s, u);
    PersistStock(db, o, s, u);
    PersistLimits(db, o, s, u);
  }

  /** Whatever leaves the granted orders alone leaves ledger and limits alone. */
  lemma SameGrants(db: Db, d: Db)
    requires DbOk(db) && d.grants == db.grants
    requires forall o :: IsGranted(d, o) <==> IsGranted(db, o)
    requires forall o <- db.orders :: o in d.orders && d.orders[o] == db.orders[o]
    requires forall s <- db.skus :: s in d.skus && d.skus[s].limitCount == db.skus[s].limitCount
    ensures LedgerExact(d)
    ensures forall s, u: UserId :: GrantedTo(d, s, u) == GrantedTo(db, s, u)
    ensures forall s :: Sold(d, s) == Sold(db, s)
    ensures LimitsKept(d)
  {
    forall p | p in d.orders && IsGranted(d, p) ensures exists i :: 0 <= i < |d.grants| && d.grants[i].ref == p {
      assert IsGranted(db, p);
    }
    assert forall s, u: UserId :: GrantedTo(d, s, u) == GrantedTo(db, s, u);
    forall s, u: UserId | s in d.skus ensures |GrantedTo(d, s, u)| <= d.skus[s].Limit() {
      if s !in db.skus {
        assert GrantedTo(db, s, u) == {};
      }
    }
  }

  lemma RecordKeepsDb(db: Db, o: OrderId, s: SkuId, u: UserId)
    requires DbOk(db)
    ensures DbOk(RecordFailed(db, o, s, u))
  {
    SameGrants(db, RecordFailed(db, o, s, u));
  }

  lemma CreateKeepsDb(a: State, s: SkuId, row: Sku)
    requires DbOk(a.db) && s !in a.db.skus && row.live && row.stock >= 0
    ensures DbOk(DoCreate(a, s, row).db)
  {
    SameGrants(a.db, DoCreate(a, s, row).db);
    assert Sold(a.db, s) == {};
  }

  lemma DeleteKeepsDb(a: State, s: SkuId)
    requires DbOk(a.db) && Live(a.db, s)
    ensures DbOk(DoDelete(a, s).db)
  {
    SameGrants(a.db, DoDelete(a, s).db);
  }

  lemma SetStockKeepsDb(a: State, s: SkuId, stock: int)
    requires DbOk(a.db) && Live(a.db, s) && stock >= 0
    ensures DbOk(DoSetStock(a, s, stock).db)
  {
    SameGrants(a.db, DoSetStock(a, s, stock).db);
  }

  // ---------- Every step, every run ----------

  lemma ProcessKeeps(a: State, w: WorkerId, e: ProcessAct)
    requires Coherent(a) && ProcessEnabled(a, w, e)
    ensures Coherent(NextProcess(a, w, e)) && NextProcess(a, w, e).db == a.db
  {
    match e {
      case Start(o) => StartKeeps(a, w, o);
      case Reclaim(o, seen) => ReclaimKeeps(a, w, o, seen);
      case TakeLock => LockKeeps(a, w);
      case LockBusy => EscapeKeeps(a, w);
      case Throw(i) =>
        if InDeadLetter(PcOf(a, w)) { IdleKeeps(a, w); } else { BrokeKeeps(a, w, i); }
      case Finish => IdleKeeps(a, w);
      case Crash => IdleKeeps(a, w);
    }
  }

  lemma HandleKeeps(a: State, w: WorkerId, e: HandleAct)
    requires Coherent(a) && HandleEnabled(a, w, e) && Disciplined(a, Handle(w, e))
    ensures Coherent(NextHandle(a, w, e))
  {
    var job, m := PcOf(a, w).job, MsgOf(a, PcOf(a, w));
    match e {
      case Check => CheckKeeps(a, w);
      case Deduct => DeductKeeps(a, w);
      case Commit =>
        if CanInsert(a.db, job.order, m.sku) { CommitKeeps(a, w); } else { BrokeKeeps(a, w, false); }
      case Record => RecordKeeps(a, w, Recorded(job));
      case ReadStock => ReadStockKeeps(a, w);
      case Return => ReturnKeeps(a, w, PcOf(a, w).sync, Acking(job));
      case Ack => AckKeeps(a, w, Unlocking(job));
    }
  }

  lemma HandleKeepsDb(a: State, w: WorkerId, e: HandleAct)
    requires DbOk(a.db) && HandleEnabled(a, w, e)
    requires PcOf(a, w).Deducted? ==>
               !AtLimit(a.db, MsgOf(a, PcOf(a, w)).sku, MsgOf(a, PcOf(a, w)).user)
                   && CanDeduct(a.db, MsgOf(a, PcOf(a, w)).sku)
    ensures DbOk(NextHandle(a, w, e).db)
  {
    var job, m := PcOf(a, w).job, MsgOf(a, PcOf(a, w));
    if e.Commit? && CanInsert(a.db, job.order, m.sku) {
      PersistKeeps(a.db, job.order, m.sku, m.user);
    } else if e.Record? {
      RecordKeepsDb(a.db, job.order, m.sku, m.user);
    }
  }

  lemma DeadKeeps(a: State, w: WorkerId, e: DeadAct)
    requires Coherent(a) && DeadEnabled(a, w, e)
    ensures Coherent(NextDead(a, w, e))
  {
    var job := PcOf(a, w).job;
    match e {
      case AskGranted => AskKeeps(a, w);
      case RecordDead => RecordKeeps(a, w, DeadReturn(job));
      case ReturnDead => ReturnKeeps(a, w, PLUS_ONE, DeadAck(job));
      case AckDead => AckKeeps(a, w, Idle);
    }
  }

  lemma DeadKeepsDb(a: State, w: WorkerId, e: DeadAct)
    requires DbOk(a.db) && DeadEnabled(a, w, e)
    ensures DbOk(NextDead(a, w, e).db)
  {
    if e.RecordDead? {
      RecordKeepsDb(a.db, PcOf(a, w).job.order, MsgOf(a, PcOf(a, w)).sku, MsgOf(a, PcOf(a, w)).user);
    }
  }

  lemma OutsideKeeps(a: State, e: OutsideAct)
    requires Coherent(a) && OutsideEnabled(a, e)
    ensures Coherent(NextOutside(a, e))
  {
    match e {
      case Claim(s, u, o, limit, ok) => ClaimKeeps(a, s, u, o, limit, ok);
      case CreateSku(s, row) => CreateKeeps(a, s, row);
      case DeleteSku(s) => DeleteKeeps(a, s);
      case SetStock(s, stock) => SetStockKeeps(a, s, stock);
      case _ => RedisChoreKeeps(a, NextOutside(a, e).redis);
    }
  }

  lemma OutsideKeepsDb(a: State, e: OutsideAct)
    requires DbOk(a.db) && OutsideEnabled(a, e)
    ensures DbOk(NextOutside(a, e).db)
  {
    match e {
      case CreateSku(s, row) => CreateKeepsDb(a, s, row);
      case DeleteSku(s) => DeleteKeepsDb(a, s);
      case SetStock(s, stock) => SetStockKeepsDb(a, s, stock);
      case _ =>
    }
  }

  lemma StepKeeps(a: State, e: Step)
    requires Inv(a) && Enabled(a, e) && Disciplined(a, e)
    ensures Inv(Next(a, e))
  {
    match e {
      case Outside(x) => OutsideKeeps(a, x); OutsideKeepsDb(a, x);
      case Process(w, x) => ProcessKeeps(a, w, x);
      case Handle(w, x) =>
        assert Stands(a, w, PcOf(a, w));
        HandleKeeps(a, w, x);
        HandleKeepsDb(a, w, x);
      case Dead(w, x) => DeadKeeps(a, w, x); DeadKeepsDb(a, w, x);
    }
  }
}
