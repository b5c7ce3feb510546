/** Changes of the tables and what they evict: exactly when the cache stays coherent, or becomes so again. */
module CacheUpdates {
  import opened Numerals
  import opened Wrappers
  import opened CacheLevels

  function Purge<V>(m: map<Key, V>, gone: set<Key>): map<Key, V> { m - gone }

  /** delete, for several keys: both shared levels and the scope of the request that deletes. */
  function Evict(n: Node, r: Request, gone: set<Key>): Node {
    n.(l1 := Purge(n.l1, gone), l2 := Purge(n.l2, gone),
       scopes := if r in n.scopes then n.scopes[r := Purge(n.scopes[r], gone)] else n.scopes)
  }

  /** The activities that the database finds for a SKU. */
  function AggregatesOf(n: Node, id: SkuId): set<Key> {
    set a | a in n.activities && FoundInSet(id, n.activities[a].skuIds) :: ActivityKey(a)
  }

  /** A commit that evicts nothing: a row inserted, changed or, for None, deleted. */
  function Commit(n: Node, id: SkuId, to: Option<Sku>): Node {
    n.(skus := if to.Some? then n.skus[id := to.value] else n.skus - {id})
  }

  /** grantTokenOrder's `stock = stock - 1 where stock > 0`. */
  function Deduct(n: Node, id: SkuId): Node {
    if id in n.skus && n.skus[id].stock > 0
    then Commit(n, id, Some(n.skus[id].(stock := n.skus[id].stock - 1)))
    else n
  }

  /** updateSku: the row, then the SKU's key and the aggregates found. It refuses a SKU that does not exist. */
  function UpdateSku(n: Node, r: Request, s: Sku): Node {
    if s.id !in n.skus then n
    else Evict(Commit(n, s.id, Some(s)), r, {SkuKey(s.id)} + AggregatesOf(n, s.id))
  }

  /** An activity is saved and its own aggregate evicted. */
  function UpdateActivity(n: Node, r: Request, id: ActivityId, a: Activity): Node {
    Evict(n.(activities := n.activities[id := a]), r, {ActivityKey(id)})
  }

  /** writeThrough of the row as it is now: into Redis, and out of the JVM cache. */
  function WriteThrough(n: Node, id: SkuId): Node
    requires id in n.skus
  {
    n.(l2 := n.l2[SkuKey(id) := Some(OneSku(n.skus[id]))], l1 := n.l1 - {SkuKey(id)})
  }

  /** handleSkuChange on the binlog's event: write the row through, or drop it, and drop the aggregates found. */
  function SyncSku(n: Node, r: Request, id: SkuId): Node {
    var m := if id in n.skus then WriteThrough(n, id) else Evict(n, r, {SkuKey(id)});
    Evict(m, r, AggregatesOf(m, id))
  }

  // ---------- What exactly they do to each key ----------

  /** The key is in none of the levels that the request sees. */
  ghost predicate Nowhere(n: Node, r: Request, k: Key) { k !in n.l1 && k !in n.l2 && k !in Scope(n, r) }

  ghost predicate SameAt<V(!new)>(a: map<Key, V>, b: map<Key, V>, k: Key) {
    (k in a <==> k in b) && (k in a ==> a[k] == b[k])
  }

  /** Nothing has changed about the key, in any level. */
  ghost predicate Untouched(n: Node, m: Node, k: Key) {
    SameAt(n.l1, m.l1, k) && SameAt(n.l2, m.l2, k) && forall q :: SameAt(Scope(n, q), Scope(m, q), k)
  }

  /** An aggregate whose list has the SKU's own text as a field. */
  ghost predicate Matched(n: Node, k: Key, id: SkuId) {
    k.ActivityKey? && k.activity in n.activities && Signed(id) in Fields(n.activities[k.activity].skuIds)
  }

  lemma EvictIsExact(n: Node, r: Request, gone: set<Key>, k: Key)
    ensures var m := Evict(n, r, gone);
            SameTables(n, m) && if k in gone then Nowhere(m, r, k) else Untouched(n, m, k)
  {
    var m := Evict(n, r, gone);
    forall q ensures Scope(m, q) == if q == r then Purge(Scope(n, q), gone) else Scope(n, q) {
    }
  }

  lemma MatchedIsFound(n: Node, k: Key, id: SkuId)
    ensures k in AggregatesOf(n, id) <==> Matched(n, k, id)
  {
    if Matched(n, k, id) {
      assert FoundInSet(id, n.activities[k.activity].skuIds) && k == ActivityKey(k.activity);
    }
  }

  /** updateSku changes the one row, takes the SKU and exactly the matched aggregates out, and touches no other key. */
  lemma UpdateIsExact(n: Node, r: Request, s: Sku, k: Key)
    requires s.id in n.skus
    ensures var m := UpdateSku(n, r, s);
            && m.skus == n.skus[s.id := s] && m.activities == n.activities
            && if k == SkuKey(s.id) || Matched(n, k, s.id) then Nowhere(m, r, k) else Untouched(n, m, k)
  {
    var c := Commit(n, s.id, Some(s));
    EvictIsExact(c, r, {SkuKey(s.id)} + AggregatesOf(n, s.id), k);
    MatchedIsFound(n, k, s.id);
    assert forall q :: Scope(c, q) == Scope(n, q);
  }

  /**
   The event writes the present row into Redis, or takes the SKU out where there is none, takes exactly the matched
   aggregates out, and touches no other key.
   */
  lemma SyncIsExact(n: Node, r: Request, id: SkuId, k: Key)
    ensures var m := SyncSku(n, r, id);
            && SameTables(n, m)
            && if k == SkuKey(id) then
                 k !in m.l1 && if id in n.skus then k in m.l2 && m.l2[k] == Some(OneSku(n.skus[id])) else k !in m.l2
               else if Matched(n, k, id) then Nowhere(m, r, k)
               else Untouched(n, m, k)
  {
    var c := if id in n.skus then WriteThrough(n, id) else Evict(n, r, {SkuKey(id)});
    EvictIsExact(n, r, {SkuKey(id)}, k);
    EvictIsExact(c, r, AggregatesOf(c, id), k);
    MatchedIsFound(c, k, id);
    assert SkuKey(id) !in AggregatesOf(c, id);
    if id in n.skus {
      assert forall q :: Scope(c, q) == Scope(n, q);
    }
  }

  // ---------- When two tables give the same list ----------

  /** Some field names the SKU. */
  ghost predicate Reads(fields: seq<string>, id: SkuId) {
    exists i :: 0 <= i < |fields| && ParseLong(Trim(fields[i])) == Some(id)
  }

  lemma ReadsRest(fields: seq<string>, id: SkuId)
    requires fields != []
    ensures Reads(fields, id) <==> ParseLong(Trim(fields[0])) == Some(id) || Reads(fields[1..], id)
  {
    if Reads(fields[1..], id) {
      var i :| 0 <= i < |fields[1..]| && ParseLong(Trim(fields[1..][i])) == Some(id);
      assert fields[i + 1] == fields[1..][i];
    }
    if Reads(fields, id) && ParseLong(Trim(fields[0])) != Some(id) {
      var i :| 0 <= i < |fields| && ParseLong(Trim(fields[i])) == Some(id);
      assert fields[1..][i - 1] == fields[i];
    }
  }

  ghost predicate AgreeOn(a: map<SkuId, Sku>, b: map<SkuId, Sku>, fields: seq<string>) {
    forall id | Reads(fields, id) :: Optional(a, id) == Optional(b, id)
  }

  /** A row carries its own id. */
  ghost predicate Keyed(skus: map<SkuId, Sku>) {
    forall id <- skus :: skus[id].id == id
  }

  /** What the first field adds to the list. */
  lemma FirstField(a: map<SkuId, Sku>, fields: seq<string>)
    requires fields != [] && SkusOf(a, fields).Some?
    ensures var id := ParseLong(Trim(fields[0]));
            && id.Some? && SkusOf(a, fields[1..]).Some?
            && var first := Optional(a, id.value);
            SkusOf(a, fields).value == (if first.Some? then [first.value] else []) + SkusOf(a, fields[1..]).value
  {
  }

  lemma {:induction false} ListsAgree(a: map<SkuId, Sku>, b: map<SkuId, Sku>, fields: seq<string>)
    requires AgreeOn(a, b, fields)
    ensures SkusOf(a, fields) == SkusOf(b, fields)
    decreases |fields|
  {
    if fields != [] {
      forall id | Reads(fields[1..], id) ensures Optional(a, id) == Optional(b, id) {
        ReadsRest(fields, id);
      }
      ListsAgree(a, b, fields[1..]);
      var id := ParseLong(Trim(fields[0]));
      if id.Some? {
        ReadsRest(fields, id.value);
      }
    }
  }

  /** Whether the fields can be read as numbers has nothing to do with the rows. */
  lemma {:induction false} SameFieldsFail(a: map<SkuId, Sku>, b: map<SkuId, Sku>, fields: seq<string>)
    ensures SkusOf(a, fields).None? <==> SkusOf(b, fields).None?
    decreases |fields|
  {
    if fields != [] {
      SameFieldsFail(a, b, fields[1..]);
    }
  }

  lemma {:induction false} InList(a: map<SkuId, Sku>, fields: seq<string>, s: Sku)
    requires SkusOf(a, fields).Some?
    ensures s in SkusOf(a, fields).value <==> exists id :: Reads(fields, id) && Optional(a, id) == Some(s)
    decreases |fields|
  {
    if fields != [] {
      FirstField(a, fields);
      InList(a, fields[1..], s);
      var first := ParseLong(Trim(fields[0])).value;
      ReadsRest(fields, first);
      forall id ensures Reads(fields, id) <==> id == first || Reads(fields[1..], id) {
        ReadsRest(fields, id);
      }
    }
  }

  /** A row that only one of them gives for a SKU that is named is in only one of the lists. */
  lemma OneSided(a: map<SkuId, Sku>, b: map<SkuId, Sku>, fields: seq<string>, id: SkuId)
    requires Keyed(a) && Keyed(b) && SkusOf(a, fields).Some? && SkusOf(b, fields).Some?
    requires Reads(fields, id) && id in a && Optional(a, id) != Optional(b, id)
    ensures a[id] in SkusOf(a, fields).value && a[id] !in SkusOf(b, fields).value
  {
    InList(a, fields, a[id]);
    InList(b, fields, a[id]);
  }

  /** The lists are the same exactly if the tables agree on every SKU that is named. */
  lemma ListsAgreeIff(a: map<SkuId, Sku>, b: map<SkuId, Sku>, fields: seq<string>)
    requires Keyed(a) && Keyed(b) && SkusOf(a, fields).Some?
    ensures SkusOf(a, fields) == SkusOf(b, fields) <==> AgreeOn(a, b, fields)
  {
    SameFieldsFail(a, b, fields);
    if AgreeOn(a, b, fields) {
      ListsAgree(a, b, fields);
    } else {
      var id :| Reads(fields, id) && Optional(a, id) != Optional(b, id);
      if id in a {
        OneSided(a, b, fields, id);
      } else {
        OneSided(b, a, fields, id);
      }
    }
  }

  lemma RefersIsReads(text: string, id: SkuId)
    ensures Refers(text, id) <==> Reads(IdFields(text), id)
  {
    var fields := IdFields(text);
    if Refers(text, id) {
      var f :| f in fields && ParseLong(Trim(f)) == Some(id);
      var i :| 0 <= i < |fields| && fields[i] == f;
    }
  }

  // ---------- What a changed row changes ----------

  /** The tables after a change of this one SKU. */
  ghost predicate RowChanged(n: Node, m: Node, id: SkuId) {
    && m.activities == n.activities && Keyed(n.skus) && Keyed(m.skus)
    && Optional(m.skus, id) != Optional(n.skus, id)
    && forall x | x != id :: Optional(m.skus, x) == Optional(n.skus, x)
  }

  /** What is kept under the key is about this SKU. */
  ghost predicate About(n: Node, id: SkuId, k: Key) {
    k == SkuKey(id) || (k.ActivityKey? && InTables(n, k).Has? && Refers(n.activities[k.activity].skuIds, id))
  }

  lemma Changed(n: Node, m: Node, id: SkuId, k: Key)
    requires RowChanged(n, m, id)
    ensures InTables(m, k) == InTables(n, k) <==> !About(n, id, k)
  {
    match k
    case SkuKey(x) => assert InTables(n, k) == InTables(m, k) <==> Optional(n.skus, x) == Optional(m.skus, x);
    case ActivityKey(a) =>
      if a in n.activities && n.activities[a].online {
        var fields := IdFields(n.activities[a].skuIds);
        SameFieldsFail(n.skus, m.skus, fields);
        RefersIsReads(n.activities[a].skuIds, id);
        if SkusOf(n.skus, fields).Some? {
          ListsAgreeIff(n.skus, m.skus, fields);
          assert AgreeOn(n.skus, m.skus, fields) <==> !Reads(fields, id);
        }
      }
  }

  /** A level still holds what it held. */
  ghost predicate Kept(n: Node, m: Node, k: Key) {
    || (k in n.l1 && k in m.l1 && m.l1[k] == n.l1[k])
    || (k in n.l2 && k in m.l2 && m.l2[k] == n.l2[k])
  }

  /** Everything in the shared levels is kept from before, or right. */
  ghost predicate KeptOrRight(n: Node, m: Node) {
    && (forall k | k in m.l1 :: (k in n.l1 && m.l1[k] == n.l1[k]) || Has(m.l1[k]) == InTables(m, k))
    && (forall k | k in m.l2 :: (k in n.l2 && m.l2[k] == n.l2[k]) || AsGot(m.l2[k]) == InTables(m, k))
  }

  /** After a changed row the cache is coherent if and only if nothing about it has been kept. */
  lemma CoherentAfterIff(n: Node, m: Node, id: SkuId)
    requires Coherent(n) && RowChanged(n, m, id) && KeptOrRight(n, m)
    ensures Coherent(m) <==> forall k | Kept(n, m, k) :: !About(n, id, k)
  {
    if forall k | Kept(n, m, k) :: !About(n, id, k) {
      forall k | k in m.l1 ensures Has(m.l1[k]) == InTables(m, k) {
        Changed(n, m, id, k);
        assert k in n.l1 && m.l1[k] == n.l1[k] ==> Kept(n, m, k);
      }
      forall k | k in m.l2 ensures AsGot(m.l2[k]) == InTables(m, k) {
        Changed(n, m, id, k);
        assert k in n.l2 && m.l2[k] == n.l2[k] ==> Kept(n, m, k);
      }
    } else {
      var k :| Kept(n, m, k) && About(n, id, k);
      Changed(n, m, id, k);
    }
  }

  // ---------- Exactly when an update leaves the cache coherent ----------

  /** The aggregate of the activity is in one of the shared levels. */
  predicate Cached(n: Node, a: ActivityId) {
    ActivityKey(a) in n.l1 || (ActivityKey(a) in n.l2 && n.l2[ActivityKey(a)].Some?)
  }

  /** No cached aggregate reads the SKU through a text that the database does not match with its id. */
  ghost predicate NoneMissed(n: Node, id: SkuId) {
    forall a | a in n.activities && Cached(n, a) && Refers(n.activities[a].skuIds, id) ::
           FoundInSet(id, n.activities[a].skuIds)
  }

  /** Nothing cached is about the SKU. */
  ghost predicate NothingCached(n: Node, id: SkuId) {
    && SkuKey(id) !in n.l1 && SkuKey(id) !in n.l2
    && forall a | a in n.activities && Cached(n, a) :: !Refers(n.activities[a].skuIds, id)
  }

  lemma CachedIsOnline(n: Node, a: ActivityId)
    requires Coherent(n) && Cached(n, a)
    ensures a in n.activities && InTables(n, ActivityKey(a)).Has?
  {
  }

  /** A change that keeps of the aggregates just those that the database does not find for the SKU. */
  ghost predicate FoundAreGone(n: Node, m: Node, id: SkuId) {
    && !Kept(n, m, SkuKey(id))
    && forall a | a in n.activities && InTables(n, ActivityKey(a)).Has? ::
         Kept(n, m, ActivityKey(a)) <==> Cached(n, a) && !FoundInSet(id, n.activities[a].skuIds)
  }

  lemma FoundAreGoneIff(n: Node, m: Node, id: SkuId)
    requires Coherent(n) && RowChanged(n, m, id) && KeptOrRight(n, m) && FoundAreGone(n, m, id)
    ensures Coherent(m) <==> NoneMissed(n, id)
  {
    CoherentAfterIff(n, m, id);
    if NoneMissed(n, id) {
      forall k | Kept(n, m, k) ensures !About(n, id, k) {
      }
    } else {
      var a :| a in n.activities && Cached(n, a) && Refers(n.activities[a].skuIds, id)
          && !FoundInSet(id, n.activities[a].skuIds);
      CachedIsOnline(n, a);
      assert Kept(n, m, ActivityKey(a)) && About(n, id, ActivityKey(a));
    }
  }

  /** After updateSku the cache is coherent if and only if no cached aggregate is missed. */
  lemma UpdateIsCoherentIff(n: Node, r: Request, s: Sku)
    requires Coherent(n) && Keyed(n.skus) && s.id in n.skus && n.skus[s.id] != s
    ensures Coherent(UpdateSku(n, r, s)) <==> NoneMissed(n, s.id)
  {
    var m := UpdateSku(n, r, s);
    forall a | a in n.activities && InTables(n, ActivityKey(a)).Has?
      ensures Kept(n, m, ActivityKey(a)) <==> Cached(n, a) && !FoundInSet(s.id, n.activities[a].skuIds)
    {
      assert ActivityKey(a) in AggregatesOf(n, s.id) <==> FoundInSet(s.id, n.activities[a].skuIds);
    }
    FoundAreGoneIff(n, m, s.id);
  }

  // ---------- A commit that evicts nothing, and the binlog's event ----------

  /** The row, and with it every aggregate that reads it, is stale until the event: unless nothing was cached. */
  lemma CommitIsCoherentIff(n: Node, id: SkuId, to: Option<Sku>)
    requires Coherent(n) && Keyed(n.skus) && Optional(n.skus, id) != to && (to.Some? ==> to.value.id == id)
    ensures Coherent(Commit(n, id, to)) <==> NothingCached(n, id)
  {
    var m := Commit(n, id, to);
    CoherentAfterIff(n, m, id);
    if NothingCached(n, id) {
      forall k | Kept(n, m, k) ensures !About(n, id, k) {
        if k.ActivityKey? && InTables(n, k).Has? {
          assert Cached(n, k.activity);
        }
      }
    } else if SkuKey(id) in n.l1 || SkuKey(id) in n.l2 {
      assert Kept(n, m, SkuKey(id));
    } else {
      var a :| a in n.activities && Cached(n, a) && Refers(n.activities[a].skuIds, id);
      CachedIsOnline(n, a);
      assert Kept(n, m, ActivityKey(a));
    }
  }

  /** A grant's stock update leaves the SKU and the aggregates that show it stale. */
  lemma DeductIsCoherentIff(n: Node, id: SkuId)
    requires Coherent(n) && Keyed(n.skus) && id in n.skus && n.skus[id].stock > 0
    ensures Coherent(Deduct(n, id)) <==> NothingCached(n, id)
  {
    CommitIsCoherentIff(n, id, Some(n.skus[id].(stock := n.skus[id].stock - 1)));
  }

  /** After the event the SKU's entry is the present row, or none. */
  lemma SyncedSku(m: Node, r: Request, id: SkuId)
    ensures var x, k := SyncSku(m, r, id), SkuKey(id);
            && k !in x.l1
            && (k in x.l2 ==> AsGot(x.l2[k]) == InTables(m, k))
            && SameTables(m, x)
            && (forall j | j in x.l1 :: j in m.l1 && x.l1[j] == m.l1[j])
            && (forall j | j in x.l2 && j != k :: j in m.l2 && x.l2[j] == m.l2[j])
  {
  }

  lemma SyncedIsNotOld(n: Node, m: Node, r: Request, id: SkuId)
    requires Coherent(n) && RowChanged(n, m, id) && m.l1 == n.l1 && m.l2 == n.l2
    ensures !Kept(n, SyncSku(m, r, id), SkuKey(id)) && KeptOrRight(n, SyncSku(m, r, id))
  {
    var k, x := SkuKey(id), SyncSku(m, r, id);
    SyncedSku(m, r, id);
    Changed(n, m, id, k);
    TablesDecide(m, x, k);
  }

  /** The event brings the cache back to what the tables say, if and only if no cached aggregate is missed. */
  lemma SyncRestoresIff(n: Node, r: Request, id: SkuId, to: Option<Sku>)
    requires Coherent(n) && Keyed(n.skus) && Optional(n.skus, id) != to && (to.Some? ==> to.value.id == id)
    ensures Coherent(SyncSku(Commit(n, id, to), r, id)) <==> NoneMissed(n, id)
  {
    var c := Commit(n, id, to);
    var m := SyncSku(c, r, id);
    SyncedIsNotOld(n, c, r, id);
    forall a | a in n.activities && InTables(n, ActivityKey(a)).Has?
      ensures Kept(n, m, ActivityKey(a)) <==> Cached(n, a) && !FoundInSet(id, n.activities[a].skuIds)
    {
      assert ActivityKey(a) in AggregatesOf(c, id) <==> FoundInSet(id, n.activities[a].skuIds);
    }
    FoundAreGoneIff(n, m, id);
  }

  // ---------- Which texts are never missed ----------

  /** Every field is the plain text of the number it is read as: no blanks, no leading zeros, no plus sign. */
  ghost predicate Canonical(text: string) {
    forall f <- IdFields(text) :: ParseLong(Trim(f)).Some? ==> f == Signed(ParseLong(Trim(f)).value)
  }

  lemma {:induction false} DroppedOnly(fields: seq<string>, f: string)
    requires f in DropTrailing(fields)
    ensures f in fields
    decreases |fields|
  {
    if fields[|fields| - 1] == "" {
      DroppedOnly(fields[..|fields| - 1], f);
    }
  }

  lemma CanonicalIsNeverMissed(text: string, id: SkuId)
    requires Canonical(text) && Refers(text, id)
    ensures FoundInSet(id, text)
  {
    var f :| f in IdFields(text) && ParseLong(Trim(f)) == Some(id);
    DroppedOnly(Fields(text), f);
  }

  lemma CanonicalMissesNone(n: Node, id: SkuId)
    requires forall a <- n.activities :: Canonical(n.activities[a].skuIds)
    ensures NoneMissed(n, id)
  {
    forall a | a in n.activities && Cached(n, a) && Refers(n.activities[a].skuIds, id)
           ensures FoundInSet(id, n.activities[a].skuIds) {
      CanonicalIsNeverMissed(n.activities[a].skuIds, id);
    }
  }

  lemma SameRowIsSafe(n: Node, r: Request, s: Sku)
    requires Coherent(n) && s.id in n.skus && n.skus[s.id] == s
    ensures Coherent(UpdateSku(n, r, s))
  {
    var m := UpdateSku(n, r, s);
    assert n.skus[s.id := s] == n.skus;
    forall k ensures InTables(m, k) == InTables(n, k) {
      TablesDecide(n, m, k);
    }
  }

  /** With canonical lists every update keeps the cache coherent. */
  lemma CanonicalListsAreSafe(n: Node, r: Request, s: Sku)
    requires Coherent(n) && Keyed(n.skus) && s.id in n.skus
    requires forall a <- n.activities :: Canonical(n.activities[a].skuIds)
    ensures Coherent(UpdateSku(n, r, s))
  {
    if n.skus[s.id] != s {
      CanonicalMissesNone(n, s.id);
      UpdateIsCoherentIff(n, r, s);
    } else {
      SameRowIsSafe(n, r, s);
    }
  }

  /** validateActivity's look at the text: not blank, and every field the id of a SKU that exists. */
  predicate Accepted(skus: map<SkuId, Sku>, text: string) {
    && NotBlank(text)
    && forall f <- DropTrailing(Fields(text)) :: ParseLong(Trim(f)).Some? && ParseLong(Trim(f)).value in skus
  }

  /** "07" is accepted, read as 7, and not found as 7: the aggregate keeps the old row. */
  lemma LeadingZeroIsMissed(skus: map<SkuId, Sku>)
    requires 7 in skus
    ensures Accepted(skus, "07") && Refers("07", 7) && !FoundInSet(7, "07") && !Canonical("07")
  {
    assert Fields("") == [""];
    assert "7"[1..] == "" && ['7'] + "" == "7" && [""][1..] == [];
    assert Fields("7") == ["7"] + [] == ["7"];
    assert "07"[1..] == "7" && ['0'] + "7" == "07" && ["7"][1..] == [];
    assert Fields("07") == ["07"] + [] == ["07"];
    assert "07"[0] in "07" && NotBlank("07");
    assert IdFields("07") == ["07"];
    assert Trim("07") == "07";
    assert "07"[..1] == "0" && "0"[..0] == "" && Digits("0") == 0 && Digits("07") == 7;
    assert ParseLong("07") == Some(7);
    assert Signed(7) == "7" && "7" != "07" by {
      assert |"7"| != |"07"|;
    }
  }
}
