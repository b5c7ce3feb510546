/** The cache service and the services over it as they are written, on one node and one request at a time. */
module CacheService {
  import opened Wrappers
  import opened CacheLevels
  import opened CacheUpdates

  type Token = nat

  // ---------- The locks of the keys ----------

  /** SETNX with the caller's token, unlock.lua with it, and a lease that runs out. */
  datatype LockOp = Take(k: Key, token: Token) | Give(k: Key, token: Token) | Lapse(k: Key)

  function LocksAfter(locks: map<Key, Token>, op: LockOp): map<Key, Token> {
    match op
    case Take(k, token) => if k in locks then locks else locks[k := token]
    case Give(k, token) => if k in locks && locks[k] == token then locks - {k} else locks
    case Lapse(k) => locks - {k}
  }

  function LocksAfterAll(locks: map<Key, Token>, ops: seq<LockOp>): map<Key, Token> {
    if ops == [] then locks else LocksAfter(LocksAfterAll(locks, ops[..|ops| - 1]), ops[|ops| - 1])
  }

  /** The owner's own give and the end of its lease. */
  predicate Ends(op: LockOp, k: Key, token: Token) { op == Lapse(k) || op == Give(k, token) }

  /** Whatever the others try, a lock stays with its owner until it lapses or the owner gives it back. */
  lemma {:induction false} LockStaysWithOwner(locks: map<Key, Token>, ops: seq<LockOp>, k: Key, token: Token)
    requires k in locks && locks[k] == token && forall op <- ops :: !Ends(op, k, token)
    ensures var end := LocksAfterAll(locks, ops); k in end && end[k] == token
    decreases |ops|
  {
    if ops != [] {
      forall op | op in ops[..|ops| - 1] ensures !Ends(op, k, token) {
        assert op in ops;
      }
      LockStaysWithOwner(locks, ops[..|ops| - 1], k, token);
      assert ops[|ops| - 1] in ops;
    }
  }

  /** Once the lease has lapsed and another has taken the lock over, the former owner cannot give it back. */
  lemma TakenOverStays(locks: map<Key, Token>, ops: seq<LockOp>, k: Key, mine: Token, other: Token)
    requires k !in locks && mine != other && forall op <- ops :: !Ends(op, k, other)
    ensures var held := LocksAfterAll(LocksAfter(locks, Take(k, other)), ops);
            LocksAfter(held, Give(k, mine)) == held && k in held && held[k] == other
  {
    LockStaysWithOwner(LocksAfter(locks, Take(k, other)), ops, k, other);
  }

  /** What the tables give for a list of activities: those not online left out, None if one cannot be read. */
  function Details(n: Node, found: seq<ActivityId>): Option<seq<Value>> {
    if found == [] then Some([])
    else
      var before, got := Details(n, found[..|found| - 1]), InTables(n, ActivityKey(found[|found| - 1]));
      if before.None? || got.Threw? then None else Some(before.value + if got.Has? then [got.v] else [])
  }

  lemma DetailsOn(n: Node, found: seq<ActivityId>, i: nat)
    requires i < |found|
    ensures var before, got := Details(n, found[..i]), InTables(n, ActivityKey(found[i]));
            Details(n, found[..i + 1]) ==
            if before.None? || got.Threw? then None else Some(before.value + if got.Has? then [got.v] else [])
  {
    assert found[..i + 1][..i] == found[..i] && found[..i + 1][i] == found[i];
  }

  lemma {:induction false} DetailsStop(n: Node, found: seq<ActivityId>, i: nat)
    requires i <= |found| && Details(n, found[..i]).None?
    ensures Details(n, found).None?
    decreases |found| - i
  {
    if i == |found| {
      assert found[..i] == found;
    } else {
      DetailsOn(n, found, i);
      DetailsStop(n, found, i + 1);
    }
  }

  /** A query of a table for a key, and whether the key's lock was held. */
  datatype Query = Query(k: Key, locked: bool)

  /** What was asked since was asked behind the lock of its key. */
  ghost predicate AllLocked(before: seq<Query>, after: seq<Query>) {
    before <= after && forall i | |before| <= i < |after| :: after[i].locked
  }

  class CacheNode {
    var skus: map<SkuId, Sku>
    var activities: map<ActivityId, Activity>
    var l1: map<Key, Value>
    var l2: map<Key, Option<Value>>
    var scopes: map<Request, map<Key, Option<Value>>>
    var locks: map<Key, Token>
    var nextToken: Token
    ghost var queries: seq<Query>

    function View(): Node
      reads this
    {
      Node(skus, activities, l1, l2, scopes)
    }

    // ---------- The lock of a key ----------

    method TryLock(k: Key) returns (acquired: bool, token: Token)
      modifies `locks, `nextToken
      ensures acquired <==> k !in old(locks)
      ensures locks == LocksAfter(old(locks), Take(k, token))
    {
      token := nextToken;
      nextToken := nextToken + 1;
      acquired := k !in locks;
      if acquired {
        locks := locks[k := token];
      }
    }

    method ReleaseLock(k: Key, token: Token)
      modifies `locks
      ensures locks == LocksAfter(old(locks), Give(k, token))
    {
      if k in locks && locks[k] == token {
        locks := locks - {k};
      }
    }

    // ---------- Reading ----------

    method SelectSku(id: SkuId) returns (got: Got)
      modifies `queries
      ensures got == InTables(View(), SkuKey(id))
      ensures queries == old(queries) + [Query(SkuKey(id), SkuKey(id) in locks)]
    {
      got := if id in skus then Has(OneSku(skus[id])) else Null;
      queries := queries + [Query(SkuKey(id), SkuKey(id) in locks)];
    }

    method SelectActivity(id: ActivityId) returns (found: Option<Activity>)
      modifies `queries
      ensures found == Optional(activities, id)
      ensures queries == old(queries) + [Query(ActivityKey(id), ActivityKey(id) in locks)]
    {
      found := if id in activities then Some(activities[id]) else None;
      queries := queries + [Query(ActivityKey(id), ActivityKey(id) in locks)];
    }

    method PutInScope(r: Request, k: Key, v: Option<Value>)
      modifies `scopes
      ensures View() == PutScope(old(View()), r, k, v)
    {
      scopes := scopes[r := Scope(View(), r)[k := v]];
    }

    method WriteBackToUpperLevels(r: Request, k: Key, v: Value)
      modifies `scopes, `l1
      ensures View() == WriteBack(old(View()), r, k, v)
    {
      PutInScope(r, k, Some(v));
      l1 := l1[k := v];
    }

    /** The levels from the request's own to Redis. */
    method AskLevels(r: Request, k: Key) returns (got: Option<Got>)
      modifies `scopes, `l1
      ensures got.Some? <==> FromLevels(old(View()), r, k).Some?
      ensures got.Some? ==> FromLevels(old(View()), r, k) == Some((View(), got.value))
      ensures got.None? ==> View() == old(View())
    {
      if k in Scope(View(), r) {
        return Some(AsGot(Scope(View(), r)[k]));
      }
      if k in l1 {
        got := Some(Has(l1[k]));
        PutInScope(r, k, Some(l1[k]));
        return;
      }
      if k in l2 {
        if l2[k].Some? {
          got := Some(Has(l2[k].value));
          WriteBackToUpperLevels(r, k, l2[k].value);
        } else {
          got := Some(Null);
          PutInScope(r, k, None);
        }
        return;
      }
      got := None;
    }

    method StoreLoaded(r: Request, k: Key, loaded: Got)
      modifies `scopes, `l1, `l2
      ensures View() == Store(old(View()), r, k, loaded).0
    {
      match loaded {
        case Threw =>
        case Null =>
          l2 := l2[k := None];
          PutInScope(r, k, None);
        case Has(v) =>
          l2 := l2[k := Some(v)];
          WriteBackToUpperLevels(r, k, v);
      }
    }

    /** get for a SKU: four levels, the last one behind the key's lock. */
    method GetSkuWithCache(r: Request, id: SkuId) returns (got: Got)
      requires SkuKey(id) !in locks
      modifies `scopes, `l1, `l2, `locks, `nextToken, `queries
      ensures (View(), got) == GetSku(old(View()), r, id)
      ensures locks == old(locks)
      ensures queries == old(queries) + if old(Held(View(), r, SkuKey(id))) then [] else [Query(SkuKey(id), true)]
    {
      var k := SkuKey(id);
      var hit := AskLevels(r, k);
      if hit.Some? {
        return hit.value;
      }
      var acquired, token := TryLock(k);
      got := SelectSku(id);
      StoreLoaded(r, k, got);
      ReleaseLock(k, token);
    }

    /** The loop over the ids of an activity; a field that is no number ends it with an exception. */
    method LoadSkus(r: Request, fields: seq<string>) returns (list: Option<seq<Sku>>)
      requires forall id :: SkuKey(id) !in locks
      modifies `scopes, `l1, `l2, `locks, `nextToken, `queries
      ensures (View(), list) == GetSkus(old(View()), r, fields)
      ensures locks == old(locks) && AllLocked(old(queries), queries)
      decreases |fields|
    {
      if fields == [] {
        return Some([]);
      }
      var id := ParseLong(Trim(fields[0]));
      if id.None? {
        return None;
      }
      var got := GetSkuWithCache(r, id.value);
      list := LoadSkus(r, fields[1..]);
      if list.Some? {
        list := Some((if got.Has? && got.v.OneSku? then [got.v.s] else []) + list.value);
      }
    }

    /** getActivityDetail: the aggregate of the activity and its SKUs, which are read through the same cache. */
    method GetActivityDetail(r: Request, id: ActivityId) returns (got: Got)
      requires ActivityKey(id) !in locks && forall s :: SkuKey(s) !in locks
      modifies `scopes, `l1, `l2, `locks, `nextToken, `queries
      ensures (View(), got) == GetActivity(old(View()), r, id)
      ensures locks == old(locks) && AllLocked(old(queries), queries)
      ensures old(Held(View(), r, ActivityKey(id))) ==> queries == old(queries)
      ensures !old(Held(View(), r, ActivityKey(id))) ==> old(queries) + [Query(ActivityKey(id), true)] <= queries
    {
      var k := ActivityKey(id);
      var hit := AskLevels(r, k);
      if hit.Some? {
        return hit.value;
      }
      var acquired, token := TryLock(k);
      got := LoadDetail(r, id);
      StoreLoaded(r, k, got);
      ReleaseLock(k, token);
    }

    /** The loader: the activity's row and, if it is running, its SKUs. */
    method LoadDetail(r: Request, id: ActivityId) returns (got: Got)
      requires ActivityKey(id) in locks && forall s :: SkuKey(s) !in locks
      modifies `scopes, `l1, `l2, `locks, `nextToken, `queries
      ensures (View(), got) == LoadActivity(old(View()), r, id)
      ensures locks == old(locks) && AllLocked(old(queries), queries)
      ensures old(queries) + [Query(ActivityKey(id), true)] <= queries
    {
      var found := SelectActivity(id);
      if found.None? || !found.value.online {
        got := Null;
      } else {
        var list := LoadSkus(r, IdFields(found.value.skuIds));
        got := if list.Some? then Has(Detail(found.value, list.value)) else Threw;
      }
    }

    /** A read through a coherent cache: the tables' answer, a coherent cache, no lock left behind. */
    method Read(r: Request, k: Key) returns (got: Got)
      requires Coherent(View()) && ScopeCoherent(View(), r) && locks == map[]
      modifies `scopes, `l1, `l2, `locks, `nextToken, `queries
      ensures got == InTables(View(), k) && SameTables(old(View()), View())
      ensures Coherent(View()) && ScopeCoherent(View(), r) && locks == map[]
      ensures AllLocked(old(queries), queries) && (old(Held(View(), r, k)) ==> queries == old(queries))
    {
      ghost var n := View();
      GetIsRight(n, r, k);
      match k {
        case SkuKey(id) => got := GetSkuWithCache(r, id);
        case ActivityKey(id) => got := GetActivityDetail(r, id);
      }
      TablesDecide(n, View(), k);
    }

    /** listOnlineActivities: the activities that the query gave, each aggregate read in the same request. */
    method ListOnlineActivities(r: Request, found: seq<ActivityId>) returns (list: Option<seq<Value>>)
      requires Coherent(View()) && ScopeCoherent(View(), r) && locks == map[]
      modifies `scopes, `l1, `l2, `locks, `nextToken, `queries
      ensures list == Details(old(View()), found)
      ensures Coherent(View()) && ScopeCoherent(View(), r) && locks == map[]
    {
      var details: seq<Value> := [];
      for i := 0 to |found|
        invariant Coherent(View()) && ScopeCoherent(View(), r) && locks == map[] && SameTables(old(View()), View())
        invariant Details(old(View()), found[..i]) == Some(details)
      {
        DetailsOn(old(View()), found, i);
        var got := Read(r, ActivityKey(found[i]));
        TablesDecide(old(View()), View(), ActivityKey(found[i]));
        if got.Threw? {
          DetailsStop(old(View()), found, i + 1);
          return None;
        }
        assert details + [] == details;
        if got.Has? {
          details := details + [got.v];
        }
      }
      assert found[..|found|] == found;
      list := Some(details);
    }

    // ---------- Updating ----------

    method Delete(r: Request, k: Key)
      modifies `scopes, `l1, `l2
      ensures View() == Evict(old(View()), r, {k})
    {
      if r in scopes {
        scopes := scopes[r := scopes[r] - {k}];
      }
      l1 := l1 - {k};
      l2 := l2 - {k};
    }

    lemma EvictNone(n: Node, r: Request)
      ensures Evict(n, r, {}) == n
    {
      assert n.l1 - {} == n.l1 && n.l2 - {} == n.l2;
      if r in n.scopes {
        assert n.scopes[r] - {} == n.scopes[r] && n.scopes[r := n.scopes[r]] == n.scopes;
      }
    }

    lemma PurgeTwice<V>(m: map<Key, V>, a: set<Key>, b: set<Key>)
      ensures Purge(Purge(m, a), b) == Purge(m, a + b)
    {
    }

    lemma EvictTwice(n: Node, r: Request, a: set<Key>, b: set<Key>)
      ensures Evict(Evict(n, r, a), r, b) == Evict(n, r, a + b)
    {
      PurgeTwice(n.l1, a, b);
      PurgeTwice(n.l2, a, b);
      if r in n.scopes {
        PurgeTwice(n.scopes[r], a, b);
      }
    }

    /** The aggregates that the database finds for the SKU are deleted one by one, in any order. */
    method InvalidateActivitiesContaining(r: Request, id: SkuId)
      modifies `scopes, `l1, `l2
      ensures View() == Evict(old(View()), r, AggregatesOf(old(View()), id))
    {
      var todo := AggregatesOf(View(), id);
      ghost var was, all, gone := View(), todo, {};
      EvictNone(was, r);
      while todo != {}
        invariant gone + todo == all && View() == Evict(was, r, gone)
        decreases todo
      {
        var k :| k in todo;
        Delete(r, k);
        EvictTwice(was, r, gone, {k});
        gone := gone + {k};
        todo := todo - {k};
      }
      assert gone == all;
    }

    /** updateSku: false for a SKU that is not there. */
    method ChangeSku(r: Request, s: Sku) returns (ok: bool)
      modifies `skus, `scopes, `l1, `l2
      ensures ok <==> s.id in old(skus)
      ensures View() == CacheUpdates.UpdateSku(old(View()), r, s)
    {
      if s.id !in skus {
        return false;
      }
      skus := skus[s.id := s];
      ghost var changed := View();
      Delete(r, SkuKey(s.id));
      InvalidateActivitiesContaining(r, s.id);
      EvictTwice(changed, r, {SkuKey(s.id)}, AggregatesOf(changed, s.id));
      ok := true;
    }

    /** handleSkuChange, after the row was inserted, changed or deleted. */
    method HandleSkuChange(r: Request, id: SkuId)
      modifies `scopes, `l1, `l2
      ensures View() == SyncSku(old(View()), r, id)
    {
      if id in skus {
        l2 := l2[SkuKey(id) := Some(OneSku(skus[id]))];
        l1 := l1 - {SkuKey(id)};
      } else {
        Delete(r, SkuKey(id));
      }
      InvalidateActivitiesContaining(r, id);
    }
  }
}
