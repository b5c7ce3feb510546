/**
 Runs of overlapping requests: every access is a step, every request keeps its own scope, and the binlog's event comes
 some time after the commit.
 */
module CacheRuns {
  import opened Wrappers
  import opened CacheLevels
  import opened CacheUpdates
  import opened CacheReads

  datatype Op =
    | Begin(r: Request)                               // the interceptor empties the request's scope
    | Read(r: Request, k: Key)
    | StoreLate(r: Request, k: Key, got: Got)         // what a read loaded earlier is stored only now
    | ChangeSku(r: Request, s: Sku)                   // updateSku
    | ChangeActivity(r: Request, a: ActivityId, to: Activity)
    | CommitRow(id: SkuId, row: Option<Sku>)          // an insert, update or delete that evicts nothing
    | GrantStock(id: SkuId)                           // grantTokenOrder's stock update
    | BinlogEvent(r: Request, id: SkuId)              // handleSkuChange

  function Serve(n: Node, op: Op): Node {
    match op
    case Begin(r) => n.(scopes := n.scopes[r := map[]])
    case Read(r, k) => Get(n, r, k).0
    case StoreLate(r, k, got) => Store(n, r, k, got).0
    case ChangeSku(r, s) => UpdateSku(n, r, s)
    case ChangeActivity(r, a, to) => UpdateActivity(n, r, a, to)
    case CommitRow(id, to) => Commit(n, id, to)
    case GrantStock(id) => Deduct(n, id)
    case BinlogEvent(r, id) => SyncSku(n, r, id)
  }

  /** Rows and loaded values belong to their keys. */
  predicate Legit(op: Op) {
    match op
    case StoreLate(_, k, got) => KeyedGot(k, got)
    case CommitRow(id, to) => to.Some? ==> to.value.id == id
    case _ => true
  }

  /** The SKUs whose change has not been followed by an eviction of all that shows them. */
  ghost function Waiting(n: Node, waiting: set<SkuId>, op: Op): set<SkuId> {
    match op
    case ChangeSku(_, s) =>
      if s.id !in n.skus then waiting else if NoneMissed(n, s.id) then waiting - {s.id} else waiting + {s.id}
    case CommitRow(id, _) => waiting + {id}
    case GrantStock(id) => if id in n.skus && n.skus[id].stock > 0 then waiting + {id} else waiting
    case BinlogEvent(_, id) => if NoneMissed(n, id) then waiting - {id} else waiting
    case _ => waiting
  }

  /** Only reads can spoil anything else. */
  ghost predicate Clean(n: Node, waiting: set<SkuId>, op: Op) {
    match op
    case Read(r, k) => CleanRead(n, r, k, waiting)
    case StoreLate(_, k, got) => got.Threw? || MayStand(n, k, got, waiting)
    case _ => true
  }

  // ---------- Evictions and commits ----------

  lemma ScopesAfterEvict(n: Node, r: Request, gone: set<Key>)
    requires KeyedScopes(n)
    ensures KeyedScopes(Evict(n, r, gone))
  {
    var m := Evict(n, r, gone);
    forall q: Request ensures KeyedLevel(Scope(m, q)) {
      assert KeyedLevel(Scope(n, q));
      assert q != r ==> Scope(m, q) == Scope(n, q);
      forall k | k in Scope(m, q) ensures KeyedGot(k, AsGot(Scope(m, q)[k])) {
        assert k in Scope(n, q) && Scope(m, q)[k] == Scope(n, q)[k];
      }
    }
  }

  lemma EvictBut(n: Node, r: Request, gone: set<Key>, waiting: set<SkuId>)
    requires WellKeyed(n) && CoherentBut(n, waiting)
    ensures var m := Evict(n, r, gone); WellKeyed(m) && SameTables(n, m) && CoherentBut(m, waiting)
  {
    ScopesAfterEvict(n, r, gone);
    MayStandSame(n, Evict(n, r, gone), waiting);
  }

  /** Everything that does not show the SKU says what it said. */
  lemma Unaffected(n: Node, id: SkuId, to: Option<Sku>, k: Key, waiting: set<SkuId>)
    requires id in waiting && !DependsOn(n, k, waiting)
    ensures InTables(Commit(n, id, to), k) == InTables(n, k)
  {
    var m := Commit(n, id, to);
    if k.ActivityKey? && k.activity in n.activities && n.activities[k.activity].online {
      var fields := IdFields(n.activities[k.activity].skuIds);
      forall x | Reads(fields, x) ensures Optional(n.skus, x) == Optional(m.skus, x) {
        RefersIsReads(n.activities[k.activity].skuIds, x);
      }
      ListsAgree(n.skus, m.skus, fields);
    }
  }

  /** An aggregate that cannot be built for want of its activity cannot be built after a commit either. */
  lemma StaysNull(n: Node, id: SkuId, to: Option<Sku>, a: ActivityId)
    ensures InTables(n, ActivityKey(a)).Null? ==> InTables(Commit(n, id, to), ActivityKey(a)).Null?
  {
  }

  lemma MayStandAfterCommit(n: Node, id: SkuId, to: Option<Sku>, k: Key, got: Got, waiting: set<SkuId>)
    requires MayStand(n, k, got, waiting) && !got.Threw?
    ensures MayStand(Commit(n, id, to), k, got, waiting + {id})
  {
    var m := Commit(n, id, to);
    if !DependsOn(n, k, waiting + {id}) {
      Unaffected(n, id, to, k, waiting + {id});
      assert !DependsOn(n, k, waiting);
    } else if k.ActivityKey? {
      StaysNull(n, id, to, k.activity);
      assert DependsOn(m, k, waiting + {id});
    }
  }

  lemma CommitBut(n: Node, id: SkuId, to: Option<Sku>, waiting: set<SkuId>)
    requires WellKeyed(n) && CoherentBut(n, waiting) && (to.Some? ==> to.value.id == id)
    ensures var m := Commit(n, id, to); WellKeyed(m) && CoherentBut(m, waiting + {id})
  {
    var m := Commit(n, id, to);
    forall k | k in m.l1 ensures MayStand(m, k, Has(m.l1[k]), waiting + {id}) {
      MayStandAfterCommit(n, id, to, k, Has(m.l1[k]), waiting);
    }
    forall k | k in m.l2 ensures MayStand(m, k, AsGot(m.l2[k]), waiting + {id}) {
      MayStandAfterCommit(n, id, to, k, AsGot(m.l2[k]), waiting);
    }
    forall q: Request ensures KeyedLevel(Scope(m, q)) {
      assert Scope(m, q) == Scope(n, q) && KeyedLevel(Scope(n, q));
    }
  }

  // ---------- A SKU need not be waited for any more ----------

  /** No aggregate that reads the SKU is left, and its own entry is right. */
  ghost predicate Cleansed(n: Node, id: SkuId) {
    && (SkuKey(id) in n.l1 ==> Has(n.l1[SkuKey(id)]) == InTables(n, SkuKey(id)))
    && (SkuKey(id) in n.l2 ==> AsGot(n.l2[SkuKey(id)]) == InTables(n, SkuKey(id)))
    && forall a | a in n.activities && Cached(n, a) :: !Refers(n.activities[a].skuIds, id)
  }

  lemma StandsWithout(n: Node, k: Key, got: Got, waiting: set<SkuId>, id: SkuId)
    requires MayStand(n, k, got, waiting)
    requires k == SkuKey(id) ==> got == InTables(n, k)
    requires k.ActivityKey? && got.Has? && k.activity in n.activities ==> !Refers(n.activities[k.activity].skuIds, id)
    ensures MayStand(n, k, got, waiting - {id})
  {
    if got != InTables(n, k) && k.ActivityKey? {
      var x :| x in waiting && Refers(n.activities[k.activity].skuIds, x);
      assert x in waiting - {id};
    }
  }

  lemma CleansedBut(n: Node, waiting: set<SkuId>, id: SkuId)
    requires CoherentBut(n, waiting) && Cleansed(n, id)
    ensures CoherentBut(n, waiting - {id})
  {
    forall k | k in n.l1 ensures MayStand(n, k, Has(n.l1[k]), waiting - {id}) {
      assert k.ActivityKey? ==> Cached(n, k.activity);
      StandsWithout(n, k, Has(n.l1[k]), waiting, id);
    }
    forall k | k in n.l2 ensures MayStand(n, k, AsGot(n.l2[k]), waiting - {id}) {
      assert k.ActivityKey? && n.l2[k].Some? ==> Cached(n, k.activity);
      StandsWithout(n, k, AsGot(n.l2[k]), waiting, id);
    }
  }

  /** If none is missed, no aggregate that reads the SKU is left after those found have gone. */
  lemma NoneLeft(n: Node, m: Node, id: SkuId)
    requires NoneMissed(n, id) && m.activities == n.activities
    requires forall a :: Cached(m, a) ==> Cached(n, a) && ActivityKey(a) !in AggregatesOf(n, id)
    ensures forall a | a in m.activities && Cached(m, a) :: !Refers(m.activities[a].skuIds, id)
  {
    forall a | a in m.activities && Cached(m, a) ensures !Refers(m.activities[a].skuIds, id) {
      assert FoundInSet(id, n.activities[a].skuIds) ==> ActivityKey(a) in AggregatesOf(n, id);
    }
  }

  lemma WithAndWithout(waiting: set<SkuId>, id: SkuId)
    ensures waiting + {id} - {id} == waiting - {id}
  {
  }

  lemma ChangeSkuBut(n: Node, r: Request, s: Sku, waiting: set<SkuId>)
    requires WellKeyed(n) && CoherentBut(n, waiting)
    ensures var m := UpdateSku(n, r, s); WellKeyed(m) && CoherentBut(m, Waiting(n, waiting, ChangeSku(r, s)))
  {
    if s.id in n.skus {
      var c, m, gone := Commit(n, s.id, Some(s)), UpdateSku(n, r, s), {SkuKey(s.id)} + AggregatesOf(n, s.id);
      CommitBut(n, s.id, Some(s), waiting);
      EvictBut(c, r, gone, waiting + {s.id});
      if NoneMissed(n, s.id) {
        NoneLeft(n, m, s.id);
        CleansedBut(m, waiting + {s.id}, s.id);
        WithAndWithout(waiting, s.id);
      }
    }
  }

  lemma WriteThroughBut(n: Node, id: SkuId, waiting: set<SkuId>)
    requires WellKeyed(n) && CoherentBut(n, waiting) && id in n.skus
    ensures var m := WriteThrough(n, id); WellKeyed(m) && SameTables(n, m) && CoherentBut(m, waiting)
  {
    var v, m := Some(OneSku(n.skus[id])), WriteThrough(n, id);
    PutL2But(n, SkuKey(id), v, waiting);
    MayStandSame(n.(l2 := n.l2[SkuKey(id) := v]), m, waiting);
    forall q: Request ensures KeyedLevel(Scope(m, q)) {
      assert Scope(m, q) == Scope(n, q) && KeyedLevel(Scope(n, q));
    }
  }

  lemma WrittenOrDropped(n: Node, r: Request, id: SkuId, waiting: set<SkuId>)
    requires WellKeyed(n) && CoherentBut(n, waiting)
    ensures var m := if id in n.skus then WriteThrough(n, id) else Evict(n, r, {SkuKey(id)});
            WellKeyed(m) && SameTables(n, m) && CoherentBut(m, waiting)
  {
    if id in n.skus {
      WriteThroughBut(n, id, waiting);
    } else {
      EvictBut(n, r, {SkuKey(id)}, waiting);
    }
  }

  lemma SyncBut(n: Node, r: Request, id: SkuId, waiting: set<SkuId>)
    requires WellKeyed(n) && CoherentBut(n, waiting)
    ensures var m := SyncSku(n, r, id); WellKeyed(m) && CoherentBut(m, waiting)
  {
    WrittenOrDropped(n, r, id, waiting);
    var w := if id in n.skus then WriteThrough(n, id) else Evict(n, r, {SkuKey(id)});
    EvictBut(w, r, AggregatesOf(w, id), waiting);
  }

  lemma EventCleanses(n: Node, r: Request, id: SkuId)
    requires NoneMissed(n, id)
    ensures Cleansed(SyncSku(n, r, id), id)
  {
    SyncedSku(n, r, id);
    TablesDecide(n, SyncSku(n, r, id), SkuKey(id));
    EventLeavesNone(n, r, id);
  }

  lemma CleansingBut(n: Node, r: Request, id: SkuId, waiting: set<SkuId>)
    requires WellKeyed(n) && CoherentBut(n, waiting) && NoneMissed(n, id)
    ensures CoherentBut(SyncSku(n, r, id), waiting - {id})
  {
    SyncBut(n, r, id, waiting);
    EventCleanses(n, r, id);
    CleansedBut(SyncSku(n, r, id), waiting, id);
  }

  lemma BinlogEventBut(n: Node, r: Request, id: SkuId, waiting: set<SkuId>)
    requires WellKeyed(n) && CoherentBut(n, waiting)
    ensures WellKeyed(SyncSku(n, r, id)) && CoherentBut(SyncSku(n, r, id), Waiting(n, waiting, BinlogEvent(r, id)))
  {
    SyncBut(n, r, id, waiting);
    if NoneMissed(n, id) {
      CleansingBut(n, r, id, waiting);
    }
  }

  lemma EventLeavesNone(n: Node, r: Request, id: SkuId)
    requires NoneMissed(n, id)
    ensures var m := SyncSku(n, r, id);
            forall a | a in m.activities && Cached(m, a) :: !Refers(m.activities[a].skuIds, id)
  {
    var m := SyncSku(n, r, id);
    forall a | Cached(m, a) ensures Cached(n, a) && ActivityKey(a) !in AggregatesOf(n, id) {
    }
    NoneLeft(n, m, id);
  }

  lemma ChangeActivityBut(n: Node, r: Request, a: ActivityId, to: Activity, waiting: set<SkuId>)
    requires WellKeyed(n) && CoherentBut(n, waiting)
    ensures var m := UpdateActivity(n, r, a, to); WellKeyed(m) && CoherentBut(m, waiting)
  {
    var c, m := n.(activities := n.activities[a := to]), UpdateActivity(n, r, a, to);
    forall k, got | k != ActivityKey(a) ensures MayStand(m, k, got, waiting) <==> MayStand(n, k, got, waiting) {
      assert InTables(m, k) == InTables(n, k);
    }
    forall q: Request ensures KeyedLevel(Scope(c, q)) {
      assert Scope(c, q) == Scope(n, q) && KeyedLevel(Scope(n, q));
    }
    ScopesAfterEvict(c, r, {ActivityKey(a)});
  }

  lemma BeginBut(n: Node, r: Request, waiting: set<SkuId>)
    requires WellKeyed(n) && CoherentBut(n, waiting)
    ensures var m := Serve(n, Begin(r)); WellKeyed(m) && CoherentBut(m, waiting)
  {
    var m := Serve(n, Begin(r));
    MayStandSame(n, m, waiting);
    forall q: Request ensures KeyedLevel(Scope(m, q)) {
      assert q != r ==> Scope(m, q) == Scope(n, q) && KeyedLevel(Scope(n, q));
    }
  }

  // ---------- Every step, every run ----------

  /**
   A step keeps the cache coherent but for the SKUs that wait then; of reads and late stores, exactly the clean ones
   do.
   */
  lemma StepKeeps(n: Node, waiting: set<SkuId>, op: Op)
    requires WellKeyed(n) && CoherentBut(n, waiting) && Legit(op)
    ensures WellKeyed(Serve(n, op))
    ensures CoherentBut(Serve(n, op), Waiting(n, waiting, op)) <==> Clean(n, waiting, op)
  {
    match op
    case Begin(r) => BeginBut(n, r, waiting);
    case Read(r, k) => ReadKeepsIff(n, r, k, waiting);
    case StoreLate(r, k, got) => StoreIff(n, r, k, got, waiting);
    case ChangeSku(r, s) => ChangeSkuBut(n, r, s, waiting);
    case ChangeActivity(r, a, to) => ChangeActivityBut(n, r, a, to, waiting);
    case CommitRow(id, to) => CommitBut(n, id, to, waiting);
    case GrantStock(id) =>
      if id in n.skus && n.skus[id].stock > 0 {
        CommitBut(n, id, Some(n.skus[id].(stock := n.skus[id].stock - 1)), waiting);
      }
    case BinlogEvent(r, id) => BinlogEventBut(n, r, id, waiting);
  }

  function ServeAll(n: Node, ops: seq<Op>): Node {
    if ops == [] then n else Serve(ServeAll(n, ops[..|ops| - 1]), ops[|ops| - 1])
  }

  ghost function WaitingAll(n: Node, waiting: set<SkuId>, ops: seq<Op>): set<SkuId> {
    if ops == [] then waiting
    else
      var before := ops[..|ops| - 1];
      Waiting(ServeAll(n, before), WaitingAll(n, waiting, before), ops[|ops| - 1])
  }

  ghost predicate AllClean(n: Node, waiting: set<SkuId>, ops: seq<Op>) {
    ops == [] || (
      var before := ops[..|ops| - 1];
      && AllClean(n, waiting, before)
      && Legit(ops[|ops| - 1])
      && Clean(ServeAll(n, before), WaitingAll(n, waiting, before), ops[|ops| - 1]))
  }

  lemma {:induction false} RunKeeps(n: Node, waiting: set<SkuId>, ops: seq<Op>)
    requires WellKeyed(n) && CoherentBut(n, waiting) && AllClean(n, waiting, ops)
    ensures WellKeyed(ServeAll(n, ops)) && CoherentBut(ServeAll(n, ops), WaitingAll(n, waiting, ops))
    decreases |ops|
  {
    if ops != [] {
      var before := ops[..|ops| - 1];
      RunKeeps(n, waiting, before);
      StepKeeps(ServeAll(n, before), WaitingAll(n, waiting, before), ops[|ops| - 1]);
    }
  }

  /**
   After any run whose reads are clean, a request that begins then gets what the tables say of everything that shows
   no SKU still waiting for its event; and once none waits the cache is coherent.
   */
  lemma EveryReadIsRight(n: Node, ops: seq<Op>, r: Request, k: Key)
    requires WellKeyed(n) && Coherent(n) && AllClean(n, {}, ops)
    ensures var m := Serve(ServeAll(n, ops), Begin(r));
            !DependsOn(m, k, WaitingAll(n, {}, ops)) ==> Get(m, r, k).1 == InTables(m, k)
    ensures WaitingAll(n, {}, ops) == {} ==> Coherent(ServeAll(n, ops))
  {
    var end, waiting := ServeAll(n, ops), WaitingAll(n, {}, ops);
    NothingWaits(n);
    RunKeeps(n, {}, ops);
    NothingWaits(end);
    BeginBut(end, r, waiting);
    if !DependsOn(Serve(end, Begin(r)), k, waiting) {
      FreshReadIsRight(Serve(end, Begin(r)), r, k, waiting);
    }
  }

  /** A run may start from empty levels over any tables whose rows carry their ids. */
  lemma EmptyCacheIsCoherent(skus: map<SkuId, Sku>, activities: map<ActivityId, Activity>)
    requires Keyed(skus)
    ensures var n := Node(skus, activities, map[], map[], map[]); WellKeyed(n) && Coherent(n)
  {
  }

  // ---------- Requests that nothing overlaps ----------

  lemma LevelsKeepTables(n: Node, r: Request, k: Key, got: Got)
    ensures FromLevels(n, r, k).Some? ==> SameTables(n, FromLevels(n, r, k).value.0)
    ensures SameTables(n, Store(n, r, k, got).0)
  {
  }

  lemma {:induction false} SkusKeepTables(n: Node, r: Request, fields: seq<string>)
    ensures SameTables(n, GetSkus(n, r, fields).0)
    decreases |fields|
  {
    if fields != [] && ParseLong(Trim(fields[0])).Some? {
      var id := ParseLong(Trim(fields[0])).value;
      LevelsKeepTables(n, r, SkuKey(id), InTables(n, SkuKey(id)));
      SkusKeepTables(GetSku(n, r, id).0, r, fields[1..]);
    }
  }

  lemma LoadKeepsTables(n: Node, r: Request, a: ActivityId)
    ensures SameTables(n, LoadActivity(n, r, a).0)
  {
    if a in n.activities {
      SkusKeepTables(n, r, IdFields(n.activities[a].skuIds));
    }
  }

  lemma ReadKeepsTables(n: Node, r: Request, k: Key)
    ensures SameTables(n, Get(n, r, k).0)
  {
    LevelsKeepTables(n, r, k, InTables(n, k));
    if k.ActivityKey? {
      var (m, got) := LoadActivity(n, r, k.activity);
      LoadKeepsTables(n, r, k.activity);
      LevelsKeepTables(m, r, k, got);
    }
  }

  /** A scope that says only what the tables say makes every read clean. */
  lemma CoherentScopeIsClean(n: Node, r: Request, k: Key, waiting: set<SkuId>)
    requires ScopeCoherent(n, r)
    ensures CleanRead(n, r, k, waiting)
  {
  }

  lemma OneMore(n: Node, waiting: set<SkuId>, ops: seq<Op>, op: Op)
    ensures ServeAll(n, ops + [op]) == Serve(ServeAll(n, ops), op)
    ensures WaitingAll(n, waiting, ops + [op]) == Waiting(ServeAll(n, ops), WaitingAll(n, waiting, ops), op)
    ensures AllClean(n, waiting, ops + [op]) <==>
            AllClean(n, waiting, ops) && Legit(op) && Clean(ServeAll(n, ops), WaitingAll(n, waiting, ops), op)
  {
    assert (ops + [op])[..|ops|] == ops;
  }

  ghost predicate CanonicalTables(n: Node) { forall a <- n.activities :: Canonical(n.activities[a].skuIds) }

  /** One access or change, by the request that begins with it. */
  ghost predicate Single(op: Op) {
    op.Read? || op.ChangeSku? || op.BinlogEvent? || (op.ChangeActivity? && Canonical(op.to.skuIds))
  }

  function RequestOf(op: Op): Request { if op.CommitRow? || op.GrantStock? then 0 else op.r }

  ghost function OneByOne(ops: seq<Op>): seq<Op>
    requires forall op <- ops :: Single(op)
  {
    if ops == [] then [] else OneByOne(ops[..|ops| - 1]) + [Begin(RequestOf(ops[|ops| - 1]))] + [ops[|ops| - 1]]
  }

  lemma SingleIsClean(n: Node, op: Op)
    requires Single(op) && CanonicalTables(n)
    ensures var m := Serve(n, Begin(RequestOf(op)));
            Clean(m, {}, op) && Waiting(m, {}, op) == {} && CanonicalTables(Serve(m, op))
  {
    var m := Serve(n, Begin(RequestOf(op)));
    match op
    case Read(r, k) =>
      CoherentScopeIsClean(m, r, k, {});
      ReadKeepsTables(m, r, k);
    case ChangeSku(_, s) => CanonicalMissesNone(m, s.id);
    case BinlogEvent(_, id) => CanonicalMissesNone(m, id);
    case ChangeActivity(_, _, _) =>
  }

  /** All has been clean, nothing is waiting, and the lists are plain. */
  ghost predicate Settled(n: Node, ops: seq<Op>) {
    AllClean(n, {}, ops) && WaitingAll(n, {}, ops) == {} && CanonicalTables(ServeAll(n, ops))
  }

  lemma OneRequestMore(n: Node, before: seq<Op>, op: Op)
    requires Settled(n, before) && Single(op)
    ensures Settled(n, before + [Begin(RequestOf(op))] + [op])
  {
    OneMore(n, {}, before, Begin(RequestOf(op)));
    OneMore(n, {}, before + [Begin(RequestOf(op))], op);
    SingleIsClean(ServeAll(n, before), op);
  }

  /** With plain lists and requests one after the other, all is clean and nothing is ever waiting. */
  lemma {:induction false} OneByOneIsClean(n: Node, ops: seq<Op>)
    requires CanonicalTables(n) && forall op <- ops :: Single(op)
    ensures Settled(n, OneByOne(ops))
    decreases |ops|
  {
    if ops != [] {
      var rest := ops[..|ops| - 1];
      forall op | op in rest ensures Single(op) {
        assert op in ops;
      }
      OneByOneIsClean(n, rest);
      OneRequestMore(n, OneByOne(rest), ops[|ops| - 1]);
    }
  }

  // ---------- Values that are stored late ----------

  /** The step changes something that is shown under the key. */
  ghost predicate Touches(n: Node, op: Op, k: Key) {
    match op
    case ChangeSku(_, s) => s.id in n.skus && DependsOn(n, k, {s.id})
    case ChangeActivity(_, a, _) => k == ActivityKey(a)
    case CommitRow(id, _) => DependsOn(n, k, {id})
    case GrantStock(id) => id in n.skus && n.skus[id].stock > 0 && DependsOn(n, k, {id})
    case _ => false
  }

  lemma UntouchedStays(n: Node, op: Op, k: Key)
    requires !Touches(n, op, k)
    ensures InTables(Serve(n, op), k) == InTables(n, k)
  {
    match op
    case Begin(_) => TablesDecide(n, Serve(n, op), k);
    case Read(r, j) =>
      ReadKeepsTables(n, r, j);
      TablesDecide(n, Serve(n, op), k);
    case StoreLate(r, j, got) =>
      LevelsKeepTables(n, r, j, got);
      TablesDecide(n, Serve(n, op), k);
    case ChangeSku(r, s) =>
      if s.id in n.skus {
        Unaffected(n, s.id, Some(s), k, {s.id});
        TablesDecide(Commit(n, s.id, Some(s)), Serve(n, op), k);
      }
    case ChangeActivity(_, _, _) =>
    case CommitRow(id, row) => Unaffected(n, id, row, k, {id});
    case GrantStock(id) =>
      if id in n.skus && n.skus[id].stock > 0 {
        Unaffected(n, id, Some(n.skus[id].(stock := n.skus[id].stock - 1)), k, {id});
      }
    case BinlogEvent(r, id) =>
      SyncedSku(n, r, id);
      TablesDecide(n, Serve(n, op), k);
  }

  ghost predicate TouchedAt(n: Node, ops: seq<Op>, j: nat, k: Key)
    requires j < |ops|
  {
    Touches(ServeAll(n, ops[..j]), ops[j], k)
  }

  lemma {:induction false} UntouchedSince(n: Node, ops: seq<Op>, i: nat, j: nat, k: Key)
    requires i <= j <= |ops| && forall x: nat | i <= x < j :: !TouchedAt(n, ops, x, k)
    ensures InTables(ServeAll(n, ops[..j]), k) == InTables(ServeAll(n, ops[..i]), k)
    decreases j - i
  {
    if i < j {
      UntouchedSince(n, ops, i, j - 1, k);
      assert !TouchedAt(n, ops, j - 1, k);
      assert ops[..j][..j - 1] == ops[..j - 1] && ops[..j][j - 1] == ops[j - 1];
      UntouchedStays(ServeAll(n, ops[..j - 1]), ops[j - 1], k);
    }
  }

  /** What was right when it was loaded may be stored at any later time if nothing that it shows has changed since. */
  lemma LateStoreIsClean(n: Node, ops: seq<Op>, i: nat, r: Request, k: Key, got: Got, waiting: set<SkuId>)
    requires i <= |ops| && got == InTables(ServeAll(n, ops[..i]), k)
    requires forall x: nat | i <= x < |ops| :: !TouchedAt(n, ops, x, k)
    ensures Clean(ServeAll(n, ops), waiting, StoreLate(r, k, got))
  {
    UntouchedSince(n, ops, i, |ops|, k);
    assert ops[..|ops|] == ops;
  }

  /** A SKU row loaded before it was changed and stored after all that the change evicts: the old row is back. */
  lemma LateStoreSpoils(n: Node, r0: Request, r: Request, s: Sku)
    requires WellKeyed(n) && Coherent(n) && s.id in n.skus && n.skus[s.id] != s && NoneMissed(n, s.id)
    ensures var got := InTables(n, SkuKey(s.id));
            !Coherent(Serve(Serve(n, ChangeSku(r0, s)), StoreLate(r, SkuKey(s.id), got)))
  {
    var m, k := UpdateSku(n, r0, s), SkuKey(s.id);
    UpdateIsCoherentIff(n, r0, s);
    NothingWaits(n);
    ChangeSkuBut(n, r0, s, {});
    NothingWaits(m);
    StoreIff(m, r, k, InTables(n, k), {});
    NothingWaits(Store(m, r, k, InTables(n, k)).0);
  }

  // ---------- Requests at the same time ----------

  lemma RunOf(n: Node, a: Op, b: Op, c: Op)
    ensures ServeAll(n, [a, b, c]) == Serve(Serve(Serve(n, a), b), c)
  {
    OneMore(n, {}, [], a);
    OneMore(n, {}, [a], b);
    OneMore(n, {}, [a, b], c);
    assert [] + [a] == [a] && [a] + [b] == [a, b] && [a, b] + [c] == [a, b, c];
  }

  lemma UpdateLeavesScope(n: Node, r0: Request, r: Request, s: Sku, a: ActivityId)
    requires r0 != r && s.id in n.skus && a in n.activities && FoundInSet(s.id, n.activities[a].skuIds)
    ensures var m := UpdateSku(n, r0, s);
            Scope(m, r) == Scope(n, r) && ActivityKey(a) !in m.l1 && ActivityKey(a) !in m.l2
  {
    assert ActivityKey(a) in AggregatesOf(n, s.id);
  }

  lemma ReadIsInScope(n: Node, r: Request, id: SkuId)
    requires WellKeyed(n) && Coherent(n) && Scope(n, r) == map[]
    ensures var m := Get(n, r, SkuKey(id)).0;
            && Scope(m, r).Keys == {SkuKey(id)} && AsGot(Scope(m, r)[SkuKey(id)]) == InTables(n, SkuKey(id))
  {
    NothingWaits(n);
    GetSkuBut(n, r, id, {});
  }

  /** The reads of one request with another's update between them: the aggregate is stored with the old row. */
  lemma OldScopeSpoilsAggregate(n: Node, r0: Request, r: Request, s: Sku, a: ActivityId)
    requires WellKeyed(n) && Coherent(n) && r0 != r && Scope(n, r) == map[]
    requires s.id in n.skus && n.skus[s.id] != s && NoneMissed(Get(n, r, SkuKey(s.id)).0, s.id)
    requires InTables(n, ActivityKey(a)).Has? && Refers(n.activities[a].skuIds, s.id)
             && FoundInSet(s.id, n.activities[a].skuIds)
    ensures !Coherent(ServeAll(n, [Read(r, SkuKey(s.id)), ChangeSku(r0, s), Read(r, ActivityKey(a))]))
  {
    var k := SkuKey(s.id);
    RunOf(n, Read(r, k), ChangeSku(r0, s), Read(r, ActivityKey(a)));
    NothingWaits(n);
    GetSkuBut(n, r, s.id, {});
    ReadIsInScope(n, r, s.id);
    var n1 := Get(n, r, k).0;
    var n2 := UpdateSku(n1, r0, s);
    NothingWaits(n1);
    UpdateIsCoherentIff(n1, r0, s);
    ChangeSkuBut(n1, r0, s, {});
    UpdateLeavesScope(n1, r0, r, s, a);
    RefersIsReads(n.activities[a].skuIds, s.id);
    SameFieldsFail(n.skus, n2.skus, IdFields(n.activities[a].skuIds));
    RebuildIsCoherentIff(n2, r, a);
  }
}
