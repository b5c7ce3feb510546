/**
 Reads of overlapping requests, each with its own scope, while the binlog events of some commits are still to come:
 exactly which read spoils the shared levels.
 */
module CacheReads {
  import opened Wrappers
  import opened CacheLevels
  import opened CacheUpdates

  // ---------- Entries that belong to their keys ----------

  predicate KeyedValue(k: Key, v: Value) {
    k.SkuKey? ==> v.OneSku? && v.s.id == k.sku
  }

  predicate KeyedGot(k: Key, got: Got) { got.Has? ==> KeyedValue(k, got.v) }

  ghost predicate KeyedLevel(level: map<Key, Option<Value>>) {
    forall k <- level :: KeyedGot(k, AsGot(level[k]))
  }

  ghost predicate KeyedScopes(n: Node) { forall r: Request :: KeyedLevel(Scope(n, r)) }

  ghost predicate WellKeyed(n: Node) {
    && Keyed(n.skus)
    && (forall k <- n.l1 :: KeyedValue(k, n.l1[k]))
    && KeyedLevel(n.l2)
    && KeyedScopes(n)
  }

  // ---------- Coherence but for SKUs whose events are still to come ----------

  /** What is kept under the key shows one of these SKUs. */
  ghost predicate DependsOn(n: Node, k: Key, waiting: set<SkuId>) {
    match k
    case SkuKey(id) => id in waiting
    case ActivityKey(a) => a in n.activities && exists id :: id in waiting && Refers(n.activities[a].skuIds, id)
  }

  /** An entry that may stand: what the tables say, or an old value of something that shows a waiting SKU. */
  ghost predicate MayStand(n: Node, k: Key, got: Got, waiting: set<SkuId>) {
    got == InTables(n, k) || (DependsOn(n, k, waiting) && (k.ActivityKey? ==> got.Has?))
  }

  ghost predicate CoherentBut(n: Node, waiting: set<SkuId>) {
    && (forall k | k in n.l1 :: MayStand(n, k, Has(n.l1[k]), waiting))
    && (forall k | k in n.l2 :: MayStand(n, k, AsGot(n.l2[k]), waiting))
  }

  lemma NothingWaits(n: Node)
    ensures CoherentBut(n, {}) <==> Coherent(n)
  {
    forall k, got ensures MayStand(n, k, got, {}) <==> got == InTables(n, k) {
    }
  }

  // ---------- Storing and asking the levels ----------

  lemma MayStandSame(n: Node, m: Node, waiting: set<SkuId>)
    requires SameTables(n, m)
    ensures forall k, got :: MayStand(m, k, got, waiting) <==> MayStand(n, k, got, waiting)
  {
    forall k ensures InTables(m, k) == InTables(n, k) {
      TablesDecide(n, m, k);
    }
  }

  lemma ScopeAfterPut(n: Node, r: Request, k: Key, v: Option<Value>)
    ensures Scope(PutScope(n, r, k, v), r) == Scope(n, r)[k := v]
    ensures forall q | q != r :: Scope(PutScope(n, r, k, v), q) == Scope(n, q)
  {
  }

  lemma PutScopeBut(n: Node, r: Request, k: Key, v: Option<Value>, waiting: set<SkuId>)
    requires WellKeyed(n) && KeyedGot(k, AsGot(v))
    ensures var m := PutScope(n, r, k, v);
            WellKeyed(m) && SameTables(n, m) && (CoherentBut(m, waiting) <==> CoherentBut(n, waiting))
  {
    var m := PutScope(n, r, k, v);
    MayStandSame(n, m, waiting);
    ScopeAfterPut(n, r, k, v);
    forall q: Request ensures KeyedLevel(Scope(m, q)) {
      assert KeyedLevel(Scope(n, q));
    }
  }

  lemma PutL1But(n: Node, k: Key, v: Value, waiting: set<SkuId>)
    requires WellKeyed(n) && KeyedValue(k, v) && CoherentBut(n, waiting)
    ensures var m := n.(l1 := n.l1[k := v]);
            WellKeyed(m) && SameTables(n, m) && (CoherentBut(m, waiting) <==> MayStand(n, k, Has(v), waiting))
  {
    var m := n.(l1 := n.l1[k := v]);
    MayStandSame(n, m, waiting);
    forall q: Request ensures KeyedLevel(Scope(m, q)) {
      assert Scope(m, q) == Scope(n, q) && KeyedLevel(Scope(n, q));
    }
    assert k in m.l1 && m.l1[k] == v;
  }

  lemma PutL2But(n: Node, k: Key, v: Option<Value>, waiting: set<SkuId>)
    requires WellKeyed(n) && KeyedGot(k, AsGot(v)) && CoherentBut(n, waiting)
    ensures var m := n.(l2 := n.l2[k := v]);
            WellKeyed(m) && SameTables(n, m) && (CoherentBut(m, waiting) <==> MayStand(n, k, AsGot(v), waiting))
  {
    var m := n.(l2 := n.l2[k := v]);
    MayStandSame(n, m, waiting);
    forall q: Request ensures KeyedLevel(Scope(m, q)) {
      assert Scope(m, q) == Scope(n, q) && KeyedLevel(Scope(n, q));
    }
    assert k in m.l2 && m.l2[k] == v;
  }

  lemma WriteBackBut(n: Node, r: Request, k: Key, v: Value, waiting: set<SkuId>)
    requires WellKeyed(n) && KeyedValue(k, v) && CoherentBut(n, waiting)
    ensures var m := WriteBack(n, r, k, v);
            WellKeyed(m) && SameTables(n, m) && (CoherentBut(m, waiting) <==> MayStand(n, k, Has(v), waiting))
  {
    PutScopeBut(n, r, k, Some(v), waiting);
    PutL1But(PutScope(n, r, k, Some(v)), k, v, waiting);
    MayStandSame(n, PutScope(n, r, k, Some(v)), waiting);
  }

  /** A loaded value may be stored, however long ago it was loaded, if and only if it may stand. */
  lemma StoreIff(n: Node, r: Request, k: Key, got: Got, waiting: set<SkuId>)
    requires WellKeyed(n) && KeyedGot(k, got) && CoherentBut(n, waiting)
    ensures var m := Store(n, r, k, got).0;
            && WellKeyed(m) && SameTables(n, m)
            && (CoherentBut(m, waiting) <==> got.Threw? || MayStand(n, k, got, waiting))
  {
    match got
    case Threw =>
    case Null =>
      PutL2But(n, k, None, waiting);
      PutScopeBut(n.(l2 := n.l2[k := None]), r, k, None, waiting);
      assert Store(n, r, k, Null).0 == PutScope(n.(l2 := n.l2[k := None]), r, k, None);
    case Has(v) =>
      L2AndBack(n, r, k, v, waiting);
  }

  lemma L2AndBack(n: Node, r: Request, k: Key, v: Value, waiting: set<SkuId>)
    requires WellKeyed(n) && KeyedValue(k, v) && CoherentBut(n, waiting)
    ensures var m := Store(n, r, k, Has(v)).0;
            WellKeyed(m) && SameTables(n, m) && (CoherentBut(m, waiting) <==> MayStand(n, k, Has(v), waiting))
  {
    var m := Store(n, r, k, Has(v)).0;
    WriteBackBut(n, r, k, v, waiting);
    MayStandSame(n, m, waiting);
    if MayStand(n, k, Has(v), waiting) {
      PutL2But(WriteBack(n, r, k, v), k, Some(v), waiting);
      MayStandSame(n, WriteBack(n, r, k, v), waiting);
    } else {
      assert k in m.l2 && m.l2[k] == Some(v);
      forall q: Request ensures KeyedLevel(Scope(m, q)) {
        assert Scope(m, q) == Scope(WriteBack(n, r, k, v), q) && KeyedLevel(Scope(WriteBack(n, r, k, v), q));
      }
    }
  }

  /** An answer from the levels spoils nothing, whatever the request's scope holds. */
  lemma LevelsBut(n: Node, r: Request, k: Key, waiting: set<SkuId>)
    requires WellKeyed(n) && CoherentBut(n, waiting) && FromLevels(n, r, k).Some?
    ensures var (m, got) := FromLevels(n, r, k).value;
            && WellKeyed(m) && SameTables(n, m) && CoherentBut(m, waiting) && KeyedGot(k, got)
            && (k !in Scope(n, r) ==> MayStand(n, k, got, waiting))
  {
    if k in Scope(n, r) {
      assert KeyedLevel(Scope(n, r));
    } else if k in n.l1 {
      PutScopeBut(n, r, k, Some(n.l1[k]), waiting);
    } else if n.l2[k].Some? {
      WriteBackBut(n, r, k, n.l2[k].value, waiting);
    } else {
      PutScopeBut(n, r, k, None, waiting);
    }
  }

  // ---------- What an aggregate is built from ----------

  /** The scope after one more key has been read through it. */
  ghost predicate Gained(before: map<Key, Option<Value>>, k: Key, got: Got, after: map<Key, Option<Value>>) {
    && k in after && got == AsGot(after[k])
    && after == before[k := after[k]]
    && (k in before ==> after[k] == before[k])
  }

  lemma LevelsGain(n: Node, r: Request, k: Key)
    requires FromLevels(n, r, k).Some?
    ensures var (m, got) := FromLevels(n, r, k).value; Gained(Scope(n, r), k, got, Scope(m, r))
  {
    if k in Scope(n, r) {
      assert Scope(n, r)[k := Scope(n, r)[k]] == Scope(n, r);
    }
  }

  lemma GetSkuBut(n: Node, r: Request, id: SkuId, waiting: set<SkuId>)
    requires WellKeyed(n) && CoherentBut(n, waiting)
    ensures var (m, got) := GetSku(n, r, id);
            && WellKeyed(m) && SameTables(n, m) && CoherentBut(m, waiting)
            && Gained(Scope(n, r), SkuKey(id), got, Scope(m, r))
            && (SkuKey(id) !in Scope(n, r) && id !in waiting ==> got == InTables(n, SkuKey(id)))
  {
    var k := SkuKey(id);
    if FromLevels(n, r, k).Some? {
      LevelsBut(n, r, k, waiting);
      LevelsGain(n, r, k);
    } else {
      StoreIff(n, r, k, InTables(n, k), waiting);
    }
  }

  /** The SKUs that a scope holds. */
  function Held(scope: map<Key, Option<Value>>): map<SkuId, Sku> {
    map k | k in scope && k.SkuKey? && scope[k].Some? && scope[k].value.OneSku? :: k.sku := scope[k].value.s
  }

  lemma HeldAt(scope: map<Key, Option<Value>>, id: SkuId)
    requires KeyedLevel(scope)
    ensures Keyed(Held(scope))
    ensures Optional(Held(scope), id) ==
            if SkuKey(id) in scope && scope[SkuKey(id)].Some? then Some(scope[SkuKey(id)].value.s) else None
  {
    forall k | k in scope && k.SkuKey? && scope[k].Some?
           ensures scope[k].value.OneSku? && scope[k].value.s.id == k.sku {
      assert KeyedGot(k, AsGot(scope[k]));
    }
    if SkuKey(id) in scope && scope[SkuKey(id)].Some? {
      assert id in Held(scope);
    }
  }

  ghost predicate Within(a: map<Key, Option<Value>>, b: map<Key, Option<Value>>) {
    forall k <- a :: k in b && b[k] == a[k]
  }

  /**
   From `before` the scope has grown to `after`, by SKUs that are right unless they wait, and holds the named ones.
   */
  ghost predicate ReadThrough(n: Node, before: map<Key, Option<Value>>, after: map<Key, Option<Value>>,
                              waiting: set<SkuId>) {
    && Within(before, after)
    && forall k | k in after && k !in before ::
         k.SkuKey? && (k.sku !in waiting ==> AsGot(after[k]) == InTables(n, k))
  }

  ghost predicate HoldsAll(scope: map<Key, Option<Value>>, fields: seq<string>) {
    forall id | Reads(fields, id) :: SkuKey(id) in scope
  }

  lemma OneMoreRead(n: Node, before: map<Key, Option<Value>>, id: SkuId, got: Got, mid: map<Key, Option<Value>>,
                    after: map<Key, Option<Value>>, waiting: set<SkuId>)
    requires Gained(before, SkuKey(id), got, mid) && ReadThrough(n, mid, after, waiting)
    requires SkuKey(id) !in before && id !in waiting ==> got == InTables(n, SkuKey(id))
    ensures ReadThrough(n, before, after, waiting)
    ensures SkuKey(id) in after && AsGot(after[SkuKey(id)]) == got
  {
    forall k | k in before ensures k in after && after[k] == before[k] {
      assert k in mid && mid[k] == before[k];
    }
  }

  lemma HoldsOneMore(scope: map<Key, Option<Value>>, fields: seq<string>)
    requires fields != [] && HoldsAll(scope, fields[1..])
    requires ParseLong(Trim(fields[0])).Some? ==> SkuKey(ParseLong(Trim(fields[0])).value) in scope
    ensures HoldsAll(scope, fields)
  {
    forall id | Reads(fields, id) ensures SkuKey(id) in scope {
      ReadsRest(fields, id);
    }
  }

  /** The list is what the request's scope holds in the end. */
  lemma {:induction false} GetSkusBut(n: Node, r: Request, fields: seq<string>, waiting: set<SkuId>)
    requires WellKeyed(n) && CoherentBut(n, waiting)
    ensures var (m, list) := GetSkus(n, r, fields);
            && WellKeyed(m) && SameTables(n, m) && CoherentBut(m, waiting)
            && ReadThrough(n, Scope(n, r), Scope(m, r), waiting)
            && (list.Some? ==> HoldsAll(Scope(m, r), fields))
            && list == SkusOf(Held(Scope(m, r)), fields)
    decreases |fields|
  {
    if fields != [] {
      var id := ParseLong(Trim(fields[0]));
      if id.Some? {
        var (n1, got) := GetSku(n, r, id.value);
        GetSkuBut(n, r, id.value, waiting);
        GetSkusBut(n1, r, fields[1..], waiting);
        var m := GetSkus(n1, r, fields[1..]).0;
        SameReadThrough(n, n1, Scope(n1, r), Scope(m, r), waiting);
        OneMoreRead(n, Scope(n, r), id.value, got, Scope(n1, r), Scope(m, r), waiting);
        assert KeyedLevel(Scope(m, r));
        HeldAt(Scope(m, r), id.value);
        if GetSkus(n1, r, fields[1..]).1.Some? {
          HoldsOneMore(Scope(m, r), fields);
        }
        FirstOfList(got, Scope(m, r), id.value, GetSkus(n1, r, fields[1..]).1);
      }
    }
  }

  lemma SameReadThrough(n: Node, m: Node, before: map<Key, Option<Value>>, after: map<Key, Option<Value>>,
                        waiting: set<SkuId>)
    requires SameTables(n, m) && ReadThrough(m, before, after, waiting)
    ensures ReadThrough(n, before, after, waiting)
  {
    forall k ensures InTables(m, k) == InTables(n, k) {
      TablesDecide(n, m, k);
    }
  }

  lemma FirstOfList(got: Got, scope: map<Key, Option<Value>>, id: SkuId, rest: Option<seq<Sku>>)
    requires KeyedLevel(scope) && SkuKey(id) in scope && AsGot(scope[SkuKey(id)]) == got
    ensures (if got.Has? && got.v.OneSku? then [got.v.s] else []) ==
            (if id in Held(scope) then [Held(scope)[id]] else [])
  {
    HeldAt(scope, id);
    assert KeyedGot(SkuKey(id), got);
  }

  // ---------- Exactly which read spoils the shared levels ----------

  /** On every SKU that the fields name, the request's scope says what the tables say, or nothing. */
  ghost predicate ScopeAgrees(n: Node, r: Request, fields: seq<string>) {
    forall id | Reads(fields, id) && SkuKey(id) in Scope(n, r) ::
           AsGot(Scope(n, r)[SkuKey(id)]) == InTables(n, SkuKey(id))
  }

  /** The read finds the aggregate nowhere and builds it. */
  ghost predicate Rebuilds(n: Node, r: Request, k: Key) {
    k.ActivityKey? && FromLevels(n, r, k).None? && InTables(n, k).Has?
  }

  lemma AgreementIff(n: Node, before: map<Key, Option<Value>>, after: map<Key, Option<Value>>, fields: seq<string>,
                     id: SkuId, waiting: set<SkuId>)
    requires KeyedLevel(after) && ReadThrough(n, before, after, waiting) && HoldsAll(after, fields)
    requires Reads(fields, id) && id !in waiting
    ensures Optional(Held(after), id) == Optional(n.skus, id) <==>
            (SkuKey(id) in before ==> AsGot(before[SkuKey(id)]) == InTables(n, SkuKey(id)))
  {
    var k := SkuKey(id);
    HeldAt(after, id);
    assert k in after && KeyedGot(k, AsGot(after[k]));
    assert Optional(Held(after), id) == Optional(n.skus, id) <==> AsGot(after[k]) == InTables(n, k);
  }

  lemma ListIsRightIff(n: Node, before: map<Key, Option<Value>>, after: map<Key, Option<Value>>, fields: seq<string>,
                       waiting: set<SkuId>)
    requires Keyed(n.skus) && KeyedLevel(after) && ReadThrough(n, before, after, waiting) && HoldsAll(after, fields)
    requires SkusOf(n.skus, fields).Some? && forall id | Reads(fields, id) :: id !in waiting
    ensures SkusOf(Held(after), fields) == SkusOf(n.skus, fields) <==>
            forall id | Reads(fields, id) && SkuKey(id) in before ::
                   AsGot(before[SkuKey(id)]) == InTables(n, SkuKey(id))
  {
    HeldAt(after, 0);
    SameFieldsFail(n.skus, Held(after), fields);
    ListsAgreeIff(Held(after), n.skus, fields);
    forall id | Reads(fields, id)
      ensures Optional(Held(after), id) == Optional(n.skus, id) <==>
              (SkuKey(id) in before ==> AsGot(before[SkuKey(id)]) == InTables(n, SkuKey(id)))
    {
      AgreementIff(n, before, after, fields, id, waiting);
    }
  }

  /** What is loaded for an aggregate is right exactly if the scope agrees. */
  lemma LoadIsRightIff(n: Node, r: Request, a: ActivityId, waiting: set<SkuId>)
    requires WellKeyed(n) && CoherentBut(n, waiting) && InTables(n, ActivityKey(a)).Has?
    ensures var (m, got) := LoadActivity(n, r, a);
            && WellKeyed(m) && SameTables(n, m) && CoherentBut(m, waiting) && got.Has?
            && (!DependsOn(n, ActivityKey(a), waiting) ==>
                  (got == InTables(n, ActivityKey(a)) <==> ScopeAgrees(n, r, IdFields(n.activities[a].skuIds))))
  {
    var fields := IdFields(n.activities[a].skuIds);
    GetSkusBut(n, r, fields, waiting);
    var (m, list) := GetSkus(n, r, fields);
    SameFieldsFail(n.skus, Held(Scope(m, r)), fields);
    if !DependsOn(n, ActivityKey(a), waiting) {
      forall id | Reads(fields, id) ensures id !in waiting {
        RefersIsReads(n.activities[a].skuIds, id);
      }
      assert KeyedLevel(Scope(m, r));
      ListIsRightIff(n, Scope(n, r), Scope(m, r), fields, waiting);
    }
  }

  /** What a read may do: anything but build an aggregate from a scope that disagrees with the tables. */
  ghost predicate CleanRead(n: Node, r: Request, k: Key, waiting: set<SkuId>) {
    Rebuilds(n, r, k) && !DependsOn(n, k, waiting) ==> ScopeAgrees(n, r, IdFields(n.activities[k.activity].skuIds))
  }

  lemma RebuildIff(n: Node, r: Request, a: ActivityId, waiting: set<SkuId>)
    requires WellKeyed(n) && CoherentBut(n, waiting) && Rebuilds(n, r, ActivityKey(a))
    ensures var m := Get(n, r, ActivityKey(a)).0;
            WellKeyed(m) && SameTables(n, m) && (CoherentBut(m, waiting) <==> CleanRead(n, r, ActivityKey(a), waiting))
  {
    var k := ActivityKey(a);
    LoadIsRightIff(n, r, a, waiting);
    var (m, got) := LoadActivity(n, r, a);
    StoreIff(m, r, k, got, waiting);
    MayStandSame(n, m, waiting);
  }

  /** An activity that is not there or not online, or whose fields cannot be read. */
  lemma NothingToBuild(n: Node, r: Request, a: ActivityId, waiting: set<SkuId>)
    requires WellKeyed(n) && CoherentBut(n, waiting) && FromLevels(n, r, ActivityKey(a)).None?
             && !InTables(n, ActivityKey(a)).Has?
    ensures var m := Get(n, r, ActivityKey(a)).0; WellKeyed(m) && SameTables(n, m) && CoherentBut(m, waiting)
    ensures Get(n, r, ActivityKey(a)).1 == InTables(n, ActivityKey(a))
  {
    var k := ActivityKey(a);
    if a in n.activities && n.activities[a].online {
      var fields := IdFields(n.activities[a].skuIds);
      GetSkusBut(n, r, fields, waiting);
      SameFieldsFail(n.skus, Held(Scope(GetSkus(n, r, fields).0, r)), fields);
      assert Get(n, r, k) == (GetSkus(n, r, fields).0, Threw);
    } else {
      StoreIff(n, r, k, Null, waiting);
    }
  }

  /** A read keeps the shared levels as coherent as they are if and only if it is clean. */
  lemma ReadKeepsIff(n: Node, r: Request, k: Key, waiting: set<SkuId>)
    requires WellKeyed(n) && CoherentBut(n, waiting)
    ensures var m := Get(n, r, k).0;
            WellKeyed(m) && SameTables(n, m) && (CoherentBut(m, waiting) <==> CleanRead(n, r, k, waiting))
  {
    if FromLevels(n, r, k).Some? {
      LevelsBut(n, r, k, waiting);
    } else if k.SkuKey? {
      GetSkuBut(n, r, k.sku, waiting);
    } else if InTables(n, k).Has? {
      RebuildIff(n, r, k.activity, waiting);
    } else {
      NothingToBuild(n, r, k.activity, waiting);
    }
  }

  /** With no event outstanding: rebuilding an absent aggregate keeps the cache coherent exactly if the scope agrees. */
  lemma RebuildIsCoherentIff(n: Node, r: Request, a: ActivityId)
    requires WellKeyed(n) && Coherent(n) && Rebuilds(n, r, ActivityKey(a))
    ensures Coherent(Get(n, r, ActivityKey(a)).0) <==> ScopeAgrees(n, r, IdFields(n.activities[a].skuIds))
  {
    NothingWaits(n);
    NothingWaits(Get(n, r, ActivityKey(a)).0);
    RebuildIff(n, r, a, {});
  }

  /** A request whose scope is empty gets what the tables say of everything that shows no waiting SKU. */
  lemma FreshReadIsRight(n: Node, r: Request, k: Key, waiting: set<SkuId>)
    requires WellKeyed(n) && CoherentBut(n, waiting) && Scope(n, r) == map[] && !DependsOn(n, k, waiting)
    ensures Get(n, r, k).1 == InTables(n, k)
  {
    if FromLevels(n, r, k).Some? {
      LevelsBut(n, r, k, waiting);
    } else if k.SkuKey? {
      GetSkuBut(n, r, k.sku, waiting);
    } else if InTables(n, k).Has? {
      LoadIsRightIff(n, r, k.activity, waiting);
    } else {
      NothingToBuild(n, r, k.activity, waiting);
    }
  }
}
