/**
 The Redis stock against the database stock.  Drift is what Redis has reserved or still offers beyond
 what the database holds; it never goes up, and while it is zero no reservation is refused for lack of stock.
 */
module GrantDrift {
  import opened GrantProtocol
  import opened GrantSafety
  import opened GrantTheorems

  /** Reservations of SKU s that are neither granted nor returned. */
  function InFlight(st: State, s: SkuId): set<OrderId> {
    set o | o in st.redis.msgs && st.redis.msgs[o].sku == s && !Settled(st, o)
  }

  predicate Tracked(st: State, s: SkuId) {
    Live(st.db, s) && s in st.redis.stock
  }

  function Drift(st: State, s: SkuId): int
    requires Tracked(st, s)
  {
    st.redis.stock[s] + |InFlight(st, s)| - st.db.skus[s].stock
  }

  /** The worker has been refused for lack of stock and has not yet run the rollback script. */
  predicate Refusing(pc: Pc) {
    pc.Refused? || pc.Recorded? || (pc.Returning? && pc.sync >= 0)
  }

  /** A refusal was about an empty stock, and the stock is still empty. */
  ghost predicate RefusalOk(st: State, pc: Pc) {
    Refusing(pc) ==>
      && pc.job.order in st.redis.msgs
      && var s := MsgOf(st, pc).sku;
      && (Live(st.db, s) ==> st.db.skus[s].stock == 0)
      && (pc.Returning? ==> pc.sync == 0)
  }

  ghost predicate RefusalsOk(st: State) {
    forall w: WorkerId :: RefusalOk(st, PcOf(st, w))
  }

  ghost predicate CountersOk(st: State) {
    && (forall s <- st.redis.stock :: st.redis.stock[s] >= 0)
    && (forall o <- st.redis.msgs :: st.redis.msgs[o].sku in st.redis.stock)
    && (forall s <- st.redis.stock :: Tracked(st, s) ==> Drift(st, s) >= 0)
  }

  /** The rollback script is about to overwrite the Redis stock of s with the figure read from the database. */
  ghost predicate Overwrites(st: State, e: Step, s: SkuId) {
    && e.Handle? && e.handle.Return? && Enabled(st, e)
    && PcOf(st, e.w).sync >= 0 && PcOf(st, e.w).job.order !in st.redis.markers && MsgOf(st, PcOf(st, e.w)).sku == s
  }

  /** An overwrite owes this: not more than Redis offers with the unit given back, and the database stays covered. */
  ghost predicate OverwriteOk(st: State, e: Step) {
    forall s | Overwrites(st, e, s) && Tracked(st, s) ::
      && PcOf(st, e.w).sync <= st.redis.stock[s] + 1
      && st.db.skus[s].stock <= PcOf(st, e.w).sync + |InFlight(st, s)| - 1
  }

  /** A stock update owes this: it does not take away more than Redis still offers. */
  ghost predicate RestockOk(st: State, e: Step) {
    e.Outside? && e.out.SetStock? && OutsideEnabled(st, e.out) && e.out.sku in st.redis.stock ==>
      st.redis.stock[e.out.sku] + e.out.stock - st.db.skus[e.out.sku].stock >= 0
  }

  ghost predicate Calm(st: State, e: Step) {
    OverwriteOk(st, e) && RestockOk(st, e)
  }

  /** No administrator changes the stock of a SKU between a refusal and its rollback. */
  ghost predicate Unhurried(st: State, e: Step) {
    e.Outside? && e.out.SetStock? && OutsideEnabled(st, e.out) && e.out.stock != st.db.skus[e.out.sku].stock ==>
      forall w: WorkerId :: Refusing(PcOf(st, w)) && Working(st, w) ==> MsgOf(st, PcOf(st, w)).sku != e.out.sku
  }

  // ---------- In-flight reservations, one change at a time ----------

  lemma SameInFlight(a: State, b: State, s: SkuId)
    requires b.redis.msgs == a.redis.msgs && b.redis.markers == a.redis.markers
    requires forall o <- a.redis.msgs :: IsGranted(b.db, o) == IsGranted(a.db, o)
    ensures InFlight(b, s) == InFlight(a, s)
  {
  }

  lemma SettlesOne(a: State, b: State, o: OrderId, s: SkuId)
    requires b.redis.msgs == a.redis.msgs && o in a.redis.msgs && !Settled(a, o) && Settled(b, o)
    requires forall p <- a.redis.msgs :: p != o ==> Settled(b, p) == Settled(a, p)
    ensures |InFlight(b, s)| == |InFlight(a, s)| - if a.redis.msgs[o].sku == s then 1 else 0
  {
    if a.redis.msgs[o].sku == s {
      AddFresh(InFlight(b, s), InFlight(a, s), o);
    } else {
      assert InFlight(b, s) == InFlight(a, s);
    }
  }

  lemma ReservesOne(a: State, b: State, o: OrderId, m: Msg, s: SkuId)
    requires o !in a.redis.msgs && b.redis.msgs == a.redis.msgs[o := m] && b.redis.markers == a.redis.markers
    requires b.db == a.db && !Settled(a, o)
    ensures |InFlight(b, s)| == |InFlight(a, s)| + if m.sku == s then 1 else 0
  {
    if m.sku == s {
      AddFresh(InFlight(a, s), InFlight(b, s), o);
    } else {
      assert InFlight(b, s) == InFlight(a, s);
    }
  }

  // ---------- Steps ----------

  /** What every step owes: the counters stay sane and no drift grows. */
  ghost predicate NoDriftUp(a: State, b: State) {
    && CountersOk(b)
    && forall s <- a.redis.stock :: Tracked(a, s) && Tracked(b, s) ==> Drift(b, s) <= Drift(a, s)
  }

  /** Steps that touch no stock, no order status, no message and no marker. */
  lemma StillDrift(a: State, b: State)
    requires CountersOk(a)
    requires b.redis.stock == a.redis.stock && b.redis.msgs == a.redis.msgs && b.redis.markers == a.redis.markers
    requires b.db.skus == a.db.skus && forall o :: IsGranted(b.db, o) == IsGranted(a.db, o)
    ensures NoDriftUp(a, b)
  {
    forall s ensures InFlight(b, s) == InFlight(a, s) {
      SameInFlight(a, b, s);
    }
  }

  lemma CommitDrift(a: State, w: WorkerId)
    requires CountersOk(a) && StoresOk(a) && Working(a, w) && PcOf(a, w).Deducted? && Stands(a, w, PcOf(a, w))
    requires CanInsert(a.db, PcOf(a, w).job.order, MsgOf(a, PcOf(a, w)).sku)
    ensures NoDriftUp(a, DoCommit(a, w))
  {
    var b, o := DoCommit(a, w), PcOf(a, w).job.order;
    assert !Settled(a, o) by {
      assert !Lost(a, o);
    }
    forall s ensures |InFlight(b, s)| == |InFlight(a, s)| - if a.redis.msgs[o].sku == s then 1 else 0 {
      SettlesOne(a, b, o, s);
    }
  }

  /** What a rollback leaves: the law of both its flavours, for an order not settled before. */
  lemma ReturnLaw(a: State, w: WorkerId, sync: int, pc: Pc)
    requires CountersOk(a) && Working(a, w) && !Settled(a, PcOf(a, w).job.order)
    requires Tracked(a, MsgOf(a, PcOf(a, w)).sku)
    ensures var b, s := DoReturn(a, w, sync, pc), MsgOf(a, PcOf(a, w)).sku;
            && Tracked(b, s)
            && Drift(b, s) == (if sync >= 0 then sync else a.redis.stock[s] + 1)
                + |InFlight(a, s)| - 1 - a.db.skus[s].stock
  {
    SettlesOne(a, DoReturn(a, w, sync, pc), PcOf(a, w).job.order, MsgOf(a, PcOf(a, w)).sku);
  }

  lemma ReturnElsewhere(a: State, w: WorkerId, sync: int, pc: Pc, t: SkuId)
    requires CountersOk(a) && Working(a, w) && !Settled(a, PcOf(a, w).job.order) && t != MsgOf(a, PcOf(a, w)).sku
    ensures var b := DoReturn(a, w, sync, pc);
            Tracked(b, t) == Tracked(a, t)
                && (Tracked(a, t) ==> Drift(b, t) == Drift(a, t) && b.redis.stock[t] == a.redis.stock[t])
  {
    SettlesOne(a, DoReturn(a, w, sync, pc), PcOf(a, w).job.order, t);
  }

  /** A rollback lets no drift grow, and leaves none below zero, if and only if the law says so. */
  lemma ReturnDriftIff(a: State, w: WorkerId, sync: int, pc: Pc)
    requires CountersOk(a) && Working(a, w) && !IsGranted(a.db, PcOf(a, w).job.order)
    ensures var s := MsgOf(a, PcOf(a, w)).sku;
            NoDriftUp(a, DoReturn(a, w, sync, pc)) <==>
            (sync >= 0 && PcOf(a, w).job.order !in a.redis.markers && Tracked(a, s) ==>
               sync <= a.redis.stock[s] + 1 && a.db.skus[s].stock <= sync + |InFlight(a, s)| - 1)
  {
    var b, o, s := DoReturn(a, w, sync, pc), PcOf(a, w).job.order, MsgOf(a, PcOf(a, w)).sku;
    if o in a.redis.markers {
      StillDrift(a, b);
    } else {
      forall t | t != s ensures Tracked(b, t) == Tracked(a, t) && (Tracked(a, t) ==> Drift(b, t) == Drift(a, t)) {
        ReturnElsewhere(a, w, sync, pc, t);
      }
      if Tracked(a, s) {
        ReturnLaw(a, w, sync, pc);
      }
    }
  }

  lemma AcceptedDrift(a: State, b: State, o: OrderId, m: Msg)
    requires CountersOk(a) && o !in a.redis.msgs && !Settled(a, o) && b.db == a.db
    requires m.sku in a.redis.stock && a.redis.stock[m.sku] > 0
    requires b.redis.msgs == a.redis.msgs[o := m] && b.redis.markers == a.redis.markers
    requires b.redis.stock == a.redis.stock[m.sku := a.redis.stock[m.sku] - 1]
    ensures NoDriftUp(a, b)
  {
    forall t ensures |InFlight(b, t)| == |InFlight(a, t)| + if t == m.sku then 1 else 0 {
      ReservesOne(a, b, o, m, t);
    }
  }

  lemma ClaimDrift(a: State, s: SkuId, u: UserId, o: OrderId, limit: int, xaddOk: bool)
    requires CountersOk(a) && StoresOk(a) && o !in a.redis.msgs
    ensures NoDriftUp(a, a.(redis := GrantScript(a.redis, s, u, o, limit, xaddOk).0))
  {
    var b := a.(redis := GrantScript(a.redis, s, u, o, limit, xaddOk).0);
    assert !Settled(a, o);
    if b.redis.msgs == a.redis.msgs {
      assert b.redis.stock == a.redis.stock;
      StillDrift(a, b);
    } else {
      AcceptedDrift(a, b, o, Msg(s, u, limit));
    }
  }

  /** A Redis key appears for a SKU nobody has claimed yet: it starts without drift. */
  lemma FreshKeyDrift(a: State, b: State, s: SkuId)
    requires CountersOk(a) && s !in a.redis.stock
    requires b.redis.msgs == a.redis.msgs && b.redis.markers == a.redis.markers && b.db.orders == a.db.orders
    requires s in b.redis.stock && b.redis.stock == a.redis.stock[s := b.redis.stock[s]]
    requires s in b.db.skus && b.db.skus[s].stock == b.redis.stock[s] >= 0
    requires forall t <- a.db.skus :: t != s ==> t in b.db.skus && b.db.skus[t] == a.db.skus[t]
    requires forall t <- b.db.skus :: t != s ==> t in a.db.skus
    ensures NoDriftUp(a, b)
  {
    assert InFlight(a, s) == {};
    forall t ensures InFlight(b, t) == InFlight(a, t) {
      SameInFlight(a, b, t);
    }
  }

  lemma SetStockDrift(a: State, s: SkuId, stock: int)
    requires CountersOk(a) && Live(a.db, s) && stock >= 0
    requires s in a.redis.stock ==> a.redis.stock[s] + stock - a.db.skus[s].stock >= 0
    ensures NoDriftUp(a, DoSetStock(a, s, stock))
  {
    var b := DoSetStock(a, s, stock);
    if s in a.redis.stock {
      forall t ensures InFlight(b, t) == InFlight(a, t) {
        SameInFlight(a, b, t);
      }
    } else {
      FreshKeyDrift(a, b, s);
    }
  }

  lemma DeleteDrift(a: State, s: SkuId)
    requires CountersOk(a) && Live(a.db, s)
    ensures NoDriftUp(a, DoDelete(a, s))
  {
    forall t ensures InFlight(DoDelete(a, s), t) == InFlight(a, t) {
      SameInFlight(a, DoDelete(a, s), t);
    }
  }

  /** createSku overwrites any stale Redis key of the new id; before, no SKU had that id. */
  lemma CreateDrift(a: State, s: SkuId, row: Sku)
    requires CountersOk(a) && StoresOk(a) && s !in a.db.skus && row.live && row.stock >= 0
    ensures NoDriftUp(a, DoCreate(a, s, row))
  {
    assert InFlight(a, s) == {};
    forall t ensures InFlight(DoCreate(a, s, row), t) == InFlight(a, t) {
      SameInFlight(a, DoCreate(a, s, row), t);
    }
  }

  lemma OutsideDrift(a: State, e: OutsideAct)
    requires CountersOk(a) && StoresOk(a) && StockConserved(a.db) && OutsideEnabled(a, e) && RestockOk(a, Outside(e))
    ensures NoDriftUp(a, NextOutside(a, e))
  {
    match e {
      case Claim(s, u, o, limit, ok) => ClaimDrift(a, s, u, o, limit, ok);
      case CreateSku(s, row) => CreateDrift(a, s, row);
      case DeleteSku(s) => DeleteDrift(a, s);
      case SetStock(s, stock) => SetStockDrift(a, s, stock);
      case InitStock(s) =>
        if s in a.redis.stock { StillDrift(a, NextOutside(a, e)); } else { InitStockDrift(a, s); }
      case _ => StillDrift(a, NextOutside(a, e));
    }
  }

  lemma InitStockDrift(a: State, s: SkuId)
    requires CountersOk(a) && Live(a.db, s) && s !in a.redis.stock && a.db.skus[s].stock >= 0
    ensures NoDriftUp(a, NextOutside(a, InitStock(s)))
  {
    FreshKeyDrift(a, NextOutside(a, InitStock(s)), s);
  }

  lemma HandleReturnIff(a: State, w: WorkerId)
    requires CountersOk(a) && HandleEnabled(a, w, Return) && Stands(a, w, PcOf(a, w))
    ensures NoDriftUp(a, NextHandle(a, w, Return)) <==> OverwriteOk(a, Handle(w, Return))
  {
    ReturnDriftIff(a, w, PcOf(a, w).sync, Acking(PcOf(a, w).job));
    var s := MsgOf(a, PcOf(a, w)).sku;
    assert PcOf(a, w).sync >= 0 && PcOf(a, w).job.order !in a.redis.markers ==> Overwrites(a, Handle(w, Return), s);
  }

  lemma HandleDrift(a: State, w: WorkerId, e: HandleAct)
    requires CountersOk(a) && StoresOk(a) && HandleEnabled(a, w, e) && Stands(a, w, PcOf(a, w)) && !e.Return?
    ensures NoDriftUp(a, NextHandle(a, w, e))
  {
    if e.Commit? && CanInsert(a.db, PcOf(a, w).job.order, MsgOf(a, PcOf(a, w)).sku) {
      CommitDrift(a, w);
    } else {
      StillDrift(a, NextHandle(a, w, e));
    }
  }

  lemma DeadDrift(a: State, w: WorkerId, e: DeadAct)
    requires CountersOk(a) && DeadEnabled(a, w, e) && Stands(a, w, PcOf(a, w))
    ensures NoDriftUp(a, NextDead(a, w, e))
  {
    match e {
      case ReturnDead => ReturnDriftIff(a, w, PLUS_ONE, DeadAck(PcOf(a, w).job));
      case _ => StillDrift(a, NextDead(a, w, e));
    }
  }

  lemma ProcessDrift(a: State, w: WorkerId, e: ProcessAct)
    requires CountersOk(a) && ProcessEnabled(a, w, e)
    ensures NoDriftUp(a, NextProcess(a, w, e))
  {
    StillDrift(a, NextProcess(a, w, e));
  }

  // ---------- Every step, every run ----------

  /** Taking away more than Redis offers leaves its counter below zero. */
  lemma RestockIff(a: State, e: OutsideAct)
    requires CountersOk(a) && StoresOk(a) && StockConserved(a.db) && OutsideEnabled(a, e)
    ensures NoDriftUp(a, NextOutside(a, e)) <==> RestockOk(a, Outside(e))
  {
    if RestockOk(a, Outside(e)) {
      OutsideDrift(a, e);
    } else {
      assert NextOutside(a, e).redis.stock[e.sku] < 0;
    }
  }

  /** Calm is exactly what a step owes: the counters stay sane and no drift grows if and only if the step is calm. */
  lemma CalmIsExact(a: State, e: Step)
    requires Inv(a) && CountersOk(a) && Enabled(a, e)
    ensures NoDriftUp(a, Next(a, e)) <==> Calm(a, e)
  {
    match e {
      case Outside(x) => RestockIff(a, x);
      case Process(w, x) => ProcessDrift(a, w, x);
      case Handle(w, x) =>
        assert Stands(a, w, PcOf(a, w));
        if x.Return? {
          HandleReturnIff(a, w);
        } else {
          HandleDrift(a, w, x);
        }
      case Dead(w, x) =>
        assert Stands(a, w, PcOf(a, w));
        DeadDrift(a, w, x);
    }
  }

  /** At the start Redis offers, SKU by SKU, at least what the database holds. */
  ghost predicate InitCovered(st: State) {
    && (forall s <- st.redis.stock :: st.redis.stock[s] >= 0)
    && (forall s <- st.redis.stock :: Tracked(st, s) ==> st.redis.stock[s] >= st.db.skus[s].stock)
  }

  ghost predicate AllCalm(states: seq<State>, steps: seq<Step>)
    requires |states| == |steps| + 1
  {
    forall i | 0 <= i < |steps| :: Disciplined(states[i], steps[i]) && Calm(states[i], steps[i])
  }

  lemma {:induction false} CountersContinue(states: seq<State>, steps: seq<Step>, n: nat)
    requires Continues(states, steps) && AllCalm(states, steps) && Inv(states[0]) && CountersOk(states[0])
             && n <= |steps|
    ensures Inv(states[n]) && CountersOk(states[n])
  {
    if n > 0 {
      CountersContinue(states, steps, n - 1);
      assert StepAt(states, steps, n - 1);
      StepKeeps(states[n - 1], steps[n - 1]);
      CalmIsExact(states[n - 1], steps[n - 1]);
    }
  }

  lemma DriftAt(states: seq<State>, steps: seq<Step>, k: nat, s: SkuId)
    requires Continues(states, steps) && AllCalm(states, steps) && Inv(states[0]) && CountersOk(states[0])
             && k < |steps|
    requires Tracked(states[k], s) && Tracked(states[k + 1], s)
    ensures Drift(states[k + 1], s) <= Drift(states[k], s)
  {
    CountersContinue(states, steps, k);
    assert StepAt(states, steps, k);
    CalmIsExact(states[k], steps[k]);
  }

  ghost predicate TrackedAll(states: seq<State>, i: nat, j: nat, s: SkuId)
    requires j < |states|
  {
    forall k: nat | i <= k <= j :: Tracked(states[k], s)
  }

  /** Over any calm stretch of a run the drift of a SKU never goes up. */
  lemma {:induction false} DriftNeverGrows(states: seq<State>, steps: seq<Step>, i: nat, j: nat, s: SkuId)
    requires Continues(states, steps) && AllCalm(states, steps) && Inv(states[0]) && CountersOk(states[0])
    requires i <= j <= |steps| && TrackedAll(states, i, j, s)
    ensures Drift(states[j], s) <= Drift(states[i], s)
    decreases j - i
  {
    if i < j {
      DriftNeverGrows(states, steps, i, j - 1, s);
      DriftAt(states, steps, j - 1, s);
    }
  }

  /** A calm run that starts covered stays covered: the drift of every SKU is at least zero in every state. */
  lemma CoveredRuns(states: seq<State>, steps: seq<Step>, n: nat, s: SkuId)
    requires Run(states, steps) && AllCalm(states, steps) && InitCovered(states[0]) && n <= |steps|
             && Tracked(states[n], s)
    ensures Drift(states[n], s) >= 0
  {
    InitIsInv(states[0]);
    InitIsCounted(states[0]);
    CountersContinue(states, steps, n);
  }

  lemma InitIsCounted(st: State)
    requires Init(st) && InitCovered(st)
    ensures CountersOk(st)
  {
    assert forall s :: InFlight(st, s) == {};
  }

  /** Without drift a reservation that still stands is never refused for lack of stock. */
  lemma NoDriftNoRefusal(a: State, w: WorkerId)
    requires Inv(a) && CountersOk(a) && HandleEnabled(a, w, Deduct)
    requires Tracked(a, MsgOf(a, PcOf(a, w)).sku) && Drift(a, MsgOf(a, PcOf(a, w)).sku) <= 0
    requires PcOf(a, w).job.order !in a.redis.markers
    ensures PcOf(NextHandle(a, w, Deduct), w).Deducted?
  {
    var o, s := PcOf(a, w).job.order, MsgOf(a, PcOf(a, w)).sku;
    assert Stands(a, w, PcOf(a, w));
    assert o in InFlight(a, s);
  }

  /** From zero drift on, a calm run never refuses a standing reservation for lack of stock. */
  lemma NoRefusalFromZeroDrift(states: seq<State>, steps: seq<Step>, i: nat, j: nat, w: WorkerId)
    requires Continues(states, steps) && AllCalm(states, steps) && Inv(states[0]) && CountersOk(states[0])
             && i <= j < |steps|
    requires steps[j] == Handle(w, Deduct) && Enabled(states[j], steps[j])
             && PcOf(states[j], w).job.order !in states[j].redis.markers
    requires var s := MsgOf(states[j], PcOf(states[j], w)).sku; TrackedAll(states, i, j, s) && Drift(states[i], s) == 0
    ensures !PcOf(states[j + 1], w).Refused?
  {
    DriftNeverGrows(states, steps, i, j, MsgOf(states[j], PcOf(states[j], w)).sku);
    CountersContinue(states, steps, j);
    assert StepAt(states, steps, j);
    NoDriftNoRefusal(states[j], w);
  }

  /** The same of whole runs: where Redis and the database start even, nobody is refused for lack of stock. */
  lemma EvenRunsNeverRefuse(states: seq<State>, steps: seq<Step>, j: nat, w: WorkerId)
    requires Run(states, steps) && AllCalm(states, steps) && InitCovered(states[0]) && j < |steps|
    requires steps[j] == Handle(w, Deduct) && Enabled(states[j], steps[j])
             && PcOf(states[j], w).job.order !in states[j].redis.markers
    requires var s := MsgOf(states[j], PcOf(states[j], w)).sku;
             TrackedAll(states, 0, j, s) && states[0].redis.stock[s] == states[0].db.skus[s].stock
    ensures !PcOf(states[j + 1], w).Refused?
  {
    var s := MsgOf(states[j], PcOf(states[j], w)).sku;
    InitIsInv(states[0]);
    InitIsCounted(states[0]);
    assert InFlight(states[0], s) == {};
    NoRefusalFromZeroDrift(states, steps, 0, j, w);
  }

  /** An overwrite lowers the drift by at least one if and only if it sets no more than Redis has. */
  lemma OverwriteLowersIff(a: State, w: WorkerId)
    requires Inv(a) && CountersOk(a) && HandleEnabled(a, w, Return)
    requires var s := MsgOf(a, PcOf(a, w)).sku; Tracked(a, s) && Overwrites(a, Handle(w, Return), s)
    ensures var b, s := NextHandle(a, w, Return), MsgOf(a, PcOf(a, w)).sku;
            && Tracked(b, s)
            && (Drift(b, s) <= Drift(a, s) - 1 <==> PcOf(a, w).sync <= a.redis.stock[s])
  {
    assert Stands(a, w, PcOf(a, w));
    ReturnLaw(a, w, PcOf(a, w).sync, Acking(PcOf(a, w).job));
  }

  // ---------- Runs without a restock between a refusal and its rollback ----------

  /** An empty stock stays empty while somebody is refusing on it. */
  ghost predicate EmptyStays(a: State, b: State) {
    && (forall o <- a.redis.msgs :: o in b.redis.msgs && b.redis.msgs[o] == a.redis.msgs[o])
    && (forall o <- a.redis.msgs ::
          var s := a.redis.msgs[o].sku;
          Live(b.db, s) && (exists w: WorkerId :: Refusing(PcOf(a, w)) && PcOf(a, w).job.order == o)
          ==> Live(a.db, s) && (a.db.skus[s].stock == 0 ==> b.db.skus[s].stock == 0))
  }

  lemma RefusalFrame(a: State, b: State, w: WorkerId)
    requires EmptyStays(a, b) && RefusalOk(a, PcOf(a, w))
    ensures RefusalOk(b, PcOf(a, w))
  {
  }

  lemma RefusalsFrame(a: State, b: State, w: WorkerId)
    requires EmptyStays(a, b) && RefusalsOk(a)
    requires forall v: WorkerId :: v != w ==> PcOf(b, v) == PcOf(a, v)
    requires RefusalOk(b, PcOf(b, w))
    ensures RefusalsOk(b)
  {
    forall v: WorkerId ensures RefusalOk(b, PcOf(b, v)) {
      if v != w {
        assert RefusalOk(a, PcOf(a, v));
        RefusalFrame(a, b, v);
      }
    }
  }

  lemma OutsideRefusals(a: State, e: OutsideAct)
    requires RefusalsOk(a) && StoresOk(a) && OutsideEnabled(a, e) && Unhurried(a, Outside(e))
    ensures RefusalsOk(NextOutside(a, e))
  {
    var b := NextOutside(a, e);
    forall v: WorkerId ensures RefusalOk(b, PcOf(b, v)) {
      assert RefusalOk(a, PcOf(a, v)) && PcOf(b, v) == PcOf(a, v);
    }
  }

  lemma ProcessRefusals(a: State, w: WorkerId, e: ProcessAct)
    requires RefusalsOk(a) && ProcessEnabled(a, w, e)
    ensures RefusalsOk(NextProcess(a, w, e))
  {
    var b := NextProcess(a, w, e);
    RefusalsFrame(a, b, w);
  }

  /** A refusal starts on an empty stock, and hands the empty stock to the rollback. */
  lemma RefusalStarts(a: State, w: WorkerId, e: HandleAct)
    requires RefusalOk(a, PcOf(a, w)) && StockConserved(a.db) && HandleEnabled(a, w, e) && (e.Deduct? || e.ReadStock?)
    ensures RefusalOk(NextHandle(a, w, e), PcOf(NextHandle(a, w, e), w)) && NextHandle(a, w, e).db == a.db
  {
  }

  lemma HandleMoves(a: State, w: WorkerId, e: HandleAct)
    requires HandleEnabled(a, w, e) && Stands(a, w, PcOf(a, w))
    ensures EmptyStays(a, NextHandle(a, w, e))
    ensures forall v: WorkerId :: v != w ==> PcOf(NextHandle(a, w, e), v) == PcOf(a, v)
  {
  }

  lemma HandleRefusals(a: State, w: WorkerId, e: HandleAct)
    requires RefusalsOk(a) && StockConserved(a.db) && Stands(a, w, PcOf(a, w)) && HandleEnabled(a, w, e)
    ensures RefusalsOk(NextHandle(a, w, e))
  {
    var b := NextHandle(a, w, e);
    assert RefusalOk(a, PcOf(a, w));
    HandleMoves(a, w, e);
    if e.Deduct? || e.ReadStock? {
      RefusalStarts(a, w, e);
    }
    RefusalsFrame(a, b, w);
  }

  lemma DeadRefusals(a: State, w: WorkerId, e: DeadAct)
    requires RefusalsOk(a) && DeadEnabled(a, w, e)
    ensures RefusalsOk(NextDead(a, w, e))
  {
    var b := NextDead(a, w, e);
    RefusalsFrame(a, b, w);
  }

  /** Then every overwrite is calm, and lowers the drift by at least one. */
  lemma HandleReturnDrift(a: State, w: WorkerId)
    requires CountersOk(a) && StoresOk(a) && HandleEnabled(a, w, Return) && Stands(a, w, PcOf(a, w))
             && RefusalOk(a, PcOf(a, w))
    ensures OverwriteOk(a, Handle(w, Return))
    ensures var s := MsgOf(a, PcOf(a, w)).sku;
            Tracked(a, s) && Overwrites(a, Handle(w, Return), s) ==>
                Drift(NextHandle(a, w, Return), s) <= Drift(a, s) - 1
  {
    var o, s := PcOf(a, w).job.order, MsgOf(a, PcOf(a, w)).sku;
    if Tracked(a, s) && Overwrites(a, Handle(w, Return), s) {
      assert o in InFlight(a, s);
      ReturnLaw(a, w, PcOf(a, w).sync, Acking(PcOf(a, w).job));
    }
  }

  lemma UnhurriedStep(a: State, e: Step)
    requires Inv(a) && CountersOk(a) && RefusalsOk(a) && Enabled(a, e) && Unhurried(a, e) && RestockOk(a, e)
    ensures Calm(a, e) && RefusalsOk(Next(a, e))
  {
    match e {
      case Outside(x) => OutsideRefusals(a, x);
      case Process(w, x) => ProcessRefusals(a, w, x);
      case Handle(w, x) =>
        assert Stands(a, w, PcOf(a, w)) && RefusalOk(a, PcOf(a, w));
        if x.Return? {
          HandleReturnDrift(a, w);
        }
        HandleRefusals(a, w, x);
      case Dead(w, x) => DeadRefusals(a, w, x);
    }
  }

  ghost predicate AllUnhurried(states: seq<State>, steps: seq<Step>)
    requires |states| == |steps| + 1
  {
    forall i | 0 <= i < |steps| ::
      Disciplined(states[i], steps[i]) && Unhurried(states[i], steps[i]) && RestockOk(states[i], steps[i])
  }

  lemma {:induction false} UnhurriedContinues(states: seq<State>, steps: seq<Step>, n: nat)
    requires Run(states, steps) && AllUnhurried(states, steps) && InitCovered(states[0]) && n <= |steps|
    ensures Inv(states[n]) && CountersOk(states[n]) && RefusalsOk(states[n])
  {
    if n == 0 {
      InitIsInv(states[0]);
      InitIsCounted(states[0]);
      forall w: WorkerId ensures RefusalOk(states[0], PcOf(states[0], w)) {
        assert PcOf(states[0], w) == Idle;
      }
    } else {
      UnhurriedContinues(states, steps, n - 1);
      assert StepAt(states, steps, n - 1);
      StepKeeps(states[n - 1], steps[n - 1]);
      UnhurriedStep(states[n - 1], steps[n - 1]);
      CalmIsExact(states[n - 1], steps[n - 1]);
    }
  }

  /** A run that starts covered and in which no stock is changed between a refusal and its rollback is calm. */
  lemma UnhurriedRunsAreCalm(states: seq<State>, steps: seq<Step>)
    requires Run(states, steps) && AllUnhurried(states, steps) && InitCovered(states[0])
    ensures AllCalm(states, steps)
  {
    forall i | 0 <= i < |steps| ensures Calm(states[i], steps[i]) {
      UnhurriedContinues(states, steps, i);
      assert StepAt(states, steps, i);
      UnhurriedStep(states[i], steps[i]);
    }
  }

  /** In such a run every overwrite lowers the drift by at least one. */
  lemma UnhurriedOverwritesLower(states: seq<State>, steps: seq<Step>, k: nat, s: SkuId)
    requires Run(states, steps) && AllUnhurried(states, steps) && InitCovered(states[0]) && k < |steps|
    requires Tracked(states[k], s) && Overwrites(states[k], steps[k], s)
    ensures Tracked(states[k + 1], s) && Drift(states[k + 1], s) <= Drift(states[k], s) - 1
  {
    UnhurriedContinues(states, steps, k);
    assert StepAt(states, steps, k);
    assert RefusalOk(states[k], PcOf(states[k], steps[k].w));
    OverwriteLowersIff(states[k], steps[k].w);
  }

  /** What a restock to v between a refusal's stock read and its rollback leaves, whatever was read. */
  lemma RestockInTheWindow(a: State, w: WorkerId, v: int)
    requires CountersOk(a) && StoresOk(a) && HandleEnabled(a, w, Return) && PcOf(a, w).sync >= 0
    requires !Settled(a, PcOf(a, w).job.order) && v >= 0
    requires Tracked(a, MsgOf(a, PcOf(a, w)).sku) && MsgOf(a, PcOf(a, w)).sku !in a.rowLocks
    ensures var s := MsgOf(a, PcOf(a, w)).sku;
            && OutsideEnabled(a, SetStock(s, v))
            && var b := NextOutside(a, SetStock(s, v));
            && HandleEnabled(b, w, Return)
            && var c := NextHandle(b, w, Return);
            && Tracked(c, s) && Drift(c, s) == PcOf(a, w).sync + |InFlight(a, s)| - 1 - v
  {
    var s, o := MsgOf(a, PcOf(a, w)).sku, PcOf(a, w).job.order;
    var b := NextOutside(a, SetStock(s, v));
    SameInFlight(a, b, s);
    SettlesOne(b, NextHandle(b, w, Return), o, s);
  }
}
