/** The cache levels over the SKU and activity tables, as values: what a read and an update do to them. */
module CacheLevels {
  import opened Numerals
  import opened Wrappers

  type SkuId = int
  type ActivityId = int
  type Request = nat

  datatype Sku = Sku(id: SkuId, row: string, stock: int)
  datatype Activity = Activity(skuIds: string, online: bool, row: string)

  datatype Key = SkuKey(sku: SkuId) | ActivityKey(activity: ActivityId)
  datatype Value = OneSku(s: Sku) | Detail(a: Activity, skus: seq<Sku>)

  /** What a read gives: a value, null, or the exception of a list of ids that cannot be read. */
  datatype Got = Has(v: Value) | Null | Threw

  /** `l2` keeps None for the null marker; `scopes` is L0, one map for each request. */
  datatype Node = Node(
    skus: map<SkuId, Sku>, activities: map<ActivityId, Activity>,
    l1: map<Key, Value>, l2: map<Key, Option<Value>>, scopes: map<Request, map<Key, Option<Value>>>)

  // ---------- The text of sku_ids ----------

  /** The fields between the commas. */
  function Fields(text: string): seq<string> {
    if text == "" then [""]
    else
      var rest := Fields(text[1..]);
      if text[0] == ',' then [""] + rest
      else if rest == [] then [[text[0]]] else [[text[0]] + rest[0]] + rest[1..]
  }

  /** Java's split: without the empty fields at the end. */
  function DropTrailing(fields: seq<string>): seq<string> {
    if fields == [] then [] else if fields[|fields| - 1] == "" then DropTrailing(fields[..|fields| - 1]) else fields
  }

  function TrimLeft(s: string): string { if s != "" && s[0] <= ' ' then TrimLeft(s[1..]) else s }

  function TrimRight(s: string): string { if s != "" && s[|s| - 1] <= ' ' then TrimRight(s[..|s| - 1]) else s }

  function Trim(s: string): string { TrimRight(TrimLeft(s)) }

  predicate AllDigits(s: string) { s != "" && forall c <- s :: '0' <= c <= '9' }

  function Digit(c: char): nat { if '0' <= c <= '9' then (c - '0') as nat else 0 }

  function Digits(s: string): nat {
    if s == "" then 0 else 10 * Digits(s[..|s| - 1]) + Digit(s[|s| - 1])
  }

  predicate InLong(n: int) { -0x8000_0000_0000_0000 <= n < 0x8000_0000_0000_0000 }

  function AsLong(n: int): Option<int> { if InLong(n) then Some(n) else None }

  /** Long.valueOf: an optional sign and digits, so that zeros may lead; 64 bits. */
  function ParseLong(s: string): Option<int> {
    if AllDigits(s) then AsLong(Digits(s))
    else if s != "" && s[0] == '+' && AllDigits(s[1..]) then AsLong(Digits(s[1..]))
    else if s != "" && s[0] == '-' && AllDigits(s[1..]) then AsLong(0 - Digits(s[1..]))
    else None
  }

  /** StrUtil.isNotBlank. */
  predicate NotBlank(s: string) { exists c <- s :: c > ' ' }

  /** The fields that getActivityDetail reads. */
  function IdFields(text: string): seq<string> { if NotBlank(text) then DropTrailing(Fields(text)) else [] }

  /** FIND_IN_SET(id, sku_ids) > 0: a field that is the id's own text, blanks and leading zeros included. */
  predicate FoundInSet(id: SkuId, text: string) { Signed(id) in Fields(text) }

  /** getActivityDetail reads the SKU through this activity. */
  predicate Refers(text: string, id: SkuId) { exists f <- IdFields(text) :: ParseLong(Trim(f)) == Some(id) }

  // ---------- What the tables say ----------

  function Optional<K, V>(m: map<K, V>, k: K): Option<V> { if k in m then Some(m[k]) else None }

  /** The SKUs of the fields in order, the missing ones left out; None if a field is no number. */
  function SkusOf(skus: map<SkuId, Sku>, fields: seq<string>): Option<seq<Sku>> {
    if fields == [] then Some([])
    else
      var id := ParseLong(Trim(fields[0]));
      if id.None? then None
      else
        var rest := SkusOf(skus, fields[1..]);
        if rest.None? then None
        else Some((if id.value in skus then [skus[id.value]] else []) + rest.value)
  }

  function InTables(n: Node, k: Key): Got {
    match k
    case SkuKey(id) => if id in n.skus then Has(OneSku(n.skus[id])) else Null
    case ActivityKey(id) =>
      if id !in n.activities || !n.activities[id].online then Null
      else
        var skus := SkusOf(n.skus, IdFields(n.activities[id].skuIds));
        if skus.None? then Threw else Has(Detail(n.activities[id], skus.value))
  }

  function AsGot(v: Option<Value>): Got { if v.Some? then Has(v.value) else Null }

  // ---------- Coherence ----------

  /** The two shared levels hold nothing but what the tables say, null markers included. */
  ghost predicate Coherent(n: Node) {
    && (forall k | k in n.l1 :: Has(n.l1[k]) == InTables(n, k))
    && (forall k | k in n.l2 :: AsGot(n.l2[k]) == InTables(n, k))
  }

  function Scope(n: Node, r: Request): map<Key, Option<Value>> { if r in n.scopes then n.scopes[r] else map[] }

  ghost predicate ScopeCoherent(n: Node, r: Request) {
    forall k | k in Scope(n, r) :: AsGot(Scope(n, r)[k]) == InTables(n, k)
  }

  ghost predicate SameTables(n: Node, m: Node) { m.skus == n.skus && m.activities == n.activities }

  // ---------- A read ----------

  function PutScope(n: Node, r: Request, k: Key, v: Option<Value>): Node {
    n.(scopes := n.scopes[r := Scope(n, r)[k := v]])
  }

  function WriteBack(n: Node, r: Request, k: Key, v: Value): Node { PutScope(n, r, k, Some(v)).(l1 := n.l1[k := v]) }

  /** What the levels answer, None if the database has to be asked. */
  function FromLevels(n: Node, r: Request, k: Key): Option<(Node, Got)> {
    if k in Scope(n, r) then Some((n, AsGot(Scope(n, r)[k])))
    else if k in n.l1 then Some((PutScope(n, r, k, Some(n.l1[k])), Has(n.l1[k])))
    else if k in n.l2 && n.l2[k].Some? then Some((WriteBack(n, r, k, n.l2[k].value), Has(n.l2[k].value)))
    else if k in n.l2 then Some((PutScope(n, r, k, None), Null))
    else None
  }

  /** The loader's answer goes down into Redis and back up; an exception leaves nothing. */
  function Store(n: Node, r: Request, k: Key, got: Got): (Node, Got) {
    match got
    case Threw => (n, Threw)
    case Null => (PutScope(n, r, k, None).(l2 := n.l2[k := None]), Null)
    case Has(v) => (WriteBack(n, r, k, v).(l2 := n.l2[k := Some(v)]), Has(v))
  }

  function GetSku(n: Node, r: Request, id: SkuId): (Node, Got) {
    var k := SkuKey(id);
    var hit := FromLevels(n, r, k);
    if hit.Some? then hit.value else Store(n, r, k, InTables(n, k))
  }

  /** The SKUs of an activity, each read through the cache in the same request. */
  function GetSkus(n: Node, r: Request, fields: seq<string>): (Node, Option<seq<Sku>>)
    decreases |fields|
  {
    if fields == [] then (n, Some([]))
    else
      var id := ParseLong(Trim(fields[0]));
      if id.None? then (n, None)
      else
        var (m, got) := GetSku(n, r, id.value);
        var (m', rest) := GetSkus(m, r, fields[1..]);
        (m', if rest.None? then None else Some((if got.Has? && got.v.OneSku? then [got.v.s] else []) + rest.value))
  }

  function LoadActivity(n: Node, r: Request, id: ActivityId): (Node, Got) {
    if id !in n.activities || !n.activities[id].online then (n, Null)
    else
      var (m, skus) := GetSkus(n, r, IdFields(n.activities[id].skuIds));
      (m, if skus.None? then Threw else Has(Detail(n.activities[id], skus.value)))
  }

  function GetActivity(n: Node, r: Request, id: ActivityId): (Node, Got) {
    var k := ActivityKey(id);
    var hit := FromLevels(n, r, k);
    if hit.Some? then hit.value
    else
      var (m, got) := LoadActivity(n, r, id);
      Store(m, r, k, got)
  }

  function Get(n: Node, r: Request, k: Key): (Node, Got) {
    match k
    case SkuKey(id) => GetSku(n, r, id)
    case ActivityKey(id) => GetActivity(n, r, id)
  }

  // ---------- A coherent cache answers what the tables say, and stays coherent ----------

  ghost predicate Right(n: Node, r: Request, m: Node) {
    SameTables(n, m) && Coherent(m) && ScopeCoherent(m, r)
  }

  lemma TablesDecide(n: Node, m: Node, k: Key)
    requires SameTables(n, m)
    ensures InTables(m, k) == InTables(n, k)
  {
  }

  lemma PutScopeKeeps(n: Node, r: Request, k: Key, v: Option<Value>)
    requires Coherent(n) && ScopeCoherent(n, r) && AsGot(v) == InTables(n, k)
    ensures Right(n, r, PutScope(n, r, k, v))
  {
    var m := PutScope(n, r, k, v);
    forall x ensures InTables(m, x) == InTables(n, x) {
      TablesDecide(n, m, x);
    }
    assert Scope(m, r) == Scope(n, r)[k := v];
  }

  lemma WriteBackKeeps(n: Node, r: Request, k: Key, v: Value)
    requires Coherent(n) && ScopeCoherent(n, r) && Has(v) == InTables(n, k)
    ensures Right(n, r, WriteBack(n, r, k, v))
  {
    PutScopeKeeps(n, r, k, Some(v));
    var p, m := PutScope(n, r, k, Some(v)), WriteBack(n, r, k, v);
    forall x ensures InTables(m, x) == InTables(n, x) {
      TablesDecide(n, m, x);
    }
    assert Scope(m, r) == Scope(p, r);
  }

  /** An entry of the Redis level that says what the tables say. */
  lemma L2Keeps(n: Node, r: Request, k: Key, v: Option<Value>)
    requires Coherent(n) && ScopeCoherent(n, r) && AsGot(v) == InTables(n, k)
    ensures Right(n, r, n.(l2 := n.l2[k := v]))
  {
    var m := n.(l2 := n.l2[k := v]);
    forall x ensures InTables(m, x) == InTables(n, x) {
      TablesDecide(n, m, x);
    }
    assert Scope(m, r) == Scope(n, r);
  }

  lemma StoreKeeps(n: Node, r: Request, k: Key, got: Got)
    requires Coherent(n) && ScopeCoherent(n, r) && got == InTables(n, k)
    ensures Right(n, r, Store(n, r, k, got).0) && Store(n, r, k, got).1 == got
  {
    if got.Has? {
      WriteBackKeeps(n, r, k, got.v);
      TablesDecide(n, WriteBack(n, r, k, got.v), k);
      L2Keeps(WriteBack(n, r, k, got.v), r, k, Some(got.v));
    } else if got.Null? {
      PutScopeKeeps(n, r, k, None);
      TablesDecide(n, PutScope(n, r, k, None), k);
      L2Keeps(PutScope(n, r, k, None), r, k, None);
    }
  }

  lemma LevelsAreRight(n: Node, r: Request, k: Key)
    requires Coherent(n) && ScopeCoherent(n, r)
    ensures var hit := FromLevels(n, r, k); hit.Some? ==> Right(n, r, hit.value.0) && hit.value.1 == InTables(n, k)
  {
    if k in Scope(n, r) {
    } else if k in n.l1 {
      PutScopeKeeps(n, r, k, Some(n.l1[k]));
    } else if k in n.l2 {
      if n.l2[k].Some? {
        WriteBackKeeps(n, r, k, n.l2[k].value);
      } else {
        PutScopeKeeps(n, r, k, None);
      }
    }
  }

  lemma GetSkuIsRight(n: Node, r: Request, id: SkuId)
    requires Coherent(n) && ScopeCoherent(n, r)
    ensures Right(n, r, GetSku(n, r, id).0) && GetSku(n, r, id).1 == InTables(n, SkuKey(id))
  {
    LevelsAreRight(n, r, SkuKey(id));
    if FromLevels(n, r, SkuKey(id)).None? {
      StoreKeeps(n, r, SkuKey(id), InTables(n, SkuKey(id)));
    }
  }

  lemma {:induction false} GetSkusIsRight(n: Node, r: Request, fields: seq<string>)
    requires Coherent(n) && ScopeCoherent(n, r)
    ensures Right(n, r, GetSkus(n, r, fields).0) && GetSkus(n, r, fields).1 == SkusOf(n.skus, fields)
    decreases |fields|
  {
    if fields != [] {
      var id := ParseLong(Trim(fields[0]));
      if id.Some? {
        GetSkuIsRight(n, r, id.value);
        GetSkusIsRight(GetSku(n, r, id.value).0, r, fields[1..]);
      }
    }
  }

  /** A read gives what the tables say, whichever level answers. */
  lemma GetIsRight(n: Node, r: Request, k: Key)
    requires Coherent(n) && ScopeCoherent(n, r)
    ensures Right(n, r, Get(n, r, k).0) && Get(n, r, k).1 == InTables(n, k)
  {
    match k
    case SkuKey(id) => GetSkuIsRight(n, r, id);
    case ActivityKey(id) =>
      LevelsAreRight(n, r, k);
      if FromLevels(n, r, k).None? {
        if id in n.activities && n.activities[id].online {
          GetSkusIsRight(n, r, IdFields(n.activities[id].skuIds));
        }
        var m := LoadActivity(n, r, id).0;
        TablesDecide(n, m, k);
        StoreKeeps(m, r, k, LoadActivity(n, r, id).1);
      }
  }

  // ---------- Which level answers ----------

  /** Some level has the key. */
  predicate Held(n: Node, r: Request, k: Key) { k in Scope(n, r) || k in n.l1 || k in n.l2 }

  /** Only the request's own scope and the JVM level may have gained the key. */
  ghost predicate OnlyCopied(n: Node, r: Request, m: Node) {
    SameTables(n, m) && m.l2 == n.l2 && forall q | q != r :: Scope(m, q) == Scope(n, q)
  }

  lemma HeldIsAnswered(n: Node, r: Request, k: Key)
    requires Held(n, r, k)
    ensures FromLevels(n, r, k) == Some(Get(n, r, k))
  {
  }

  lemma ScopePut(n: Node, r: Request, k: Key, v: Option<Value>)
    ensures var m := PutScope(n, r, k, v);
            && Scope(m, r) == Scope(n, r)[k := v] && (forall q | q != r :: Scope(m, q) == Scope(n, q))
            && m == n.(scopes := m.scopes)
  {
  }

  /** The first level that has the key answers, whatever the tables say, and the levels above it get its answer. */
  lemma FirstLevelAnswers(n: Node, r: Request, k: Key)
    requires Held(n, r, k)
    ensures var (m, got) := Get(n, r, k);
            && OnlyCopied(n, r, m)
            && (if k in Scope(n, r) then got == AsGot(Scope(n, r)[k]) && m == n
                else if k in n.l1 then
                  got == Has(n.l1[k]) && m.l1 == n.l1 && Scope(m, r) == Scope(n, r)[k := Some(n.l1[k])]
                else
                  && got == AsGot(n.l2[k]) && Scope(m, r) == Scope(n, r)[k := n.l2[k]]
                  && m.l1 == if n.l2[k].Some? then n.l1[k := n.l2[k].value] else n.l1)
  {
    HeldIsAnswered(n, r, k);
    if k !in Scope(n, r) {
      CopiedUp(n, r, k);
    }
  }

  lemma CopiedUp(n: Node, r: Request, k: Key)
    requires k !in Scope(n, r) && (k in n.l1 || k in n.l2)
    ensures var v := if k in n.l1 then Some(n.l1[k]) else n.l2[k];
            var l1 := if k !in n.l1 && v.Some? then n.l1[k := v.value] else n.l1;
            FromLevels(n, r, k) == Some((PutScope(n, r, k, v).(l1 := l1), AsGot(v)))
            && OnlyCopied(n, r, PutScope(n, r, k, v).(l1 := l1))
            && Scope(PutScope(n, r, k, v).(l1 := l1), r) == Scope(n, r)[k := v]
  {
    var v := if k in n.l1 then Some(n.l1[k]) else n.l2[k];
    ScopePut(n, r, k, v);
  }

  /** What has been loaded stands in every level, null as the marker in Redis. */
  lemma StoredEverywhere(n: Node, r: Request, k: Key, got: Got)
    requires !got.Threw?
    ensures var m := Store(n, r, k, got).0;
            && SameTables(n, m)
            && k in m.l2 && AsGot(m.l2[k]) == got && k in Scope(m, r) && AsGot(Scope(m, r)[k]) == got
            && (got.Has? ==> k in m.l1 && Has(m.l1[k]) == got) && (got.Null? ==> m.l1 == n.l1)
  {
  }

  lemma LoadedIsStored(n: Node, r: Request, k: Key)
    requires !Held(n, r, k) && !Get(n, r, k).1.Threw?
    ensures var (m, got) := Get(n, r, k);
            && k in m.l2 && AsGot(m.l2[k]) == got && (k in m.l1 ==> Has(m.l1[k]) == got)
  {
    match k
    case SkuKey(id) => StoredEverywhere(n, r, k, InTables(n, k));
    case ActivityKey(id) =>
      var (m, got) := LoadActivity(n, r, id);
      if id in n.activities && n.activities[id].online {
        SkuReadsLeave(n, r, IdFields(n.activities[id].skuIds), id);
      }
      StoredEverywhere(m, r, k, got);
  }

  /** Reading SKUs puts no activity into the JVM level. */
  lemma {:induction false} SkuReadsLeave(n: Node, r: Request, fields: seq<string>, a: ActivityId)
    ensures ActivityKey(a) in GetSkus(n, r, fields).0.l1 <==> ActivityKey(a) in n.l1
    decreases |fields|
  {
    if fields != [] {
      var id := ParseLong(Trim(fields[0]));
      if id.Some? {
        SkuReadsLeave(GetSku(n, r, id.value).0, r, fields[1..], a);
      }
    }
  }

  /**
   One load serves everybody: until it is evicted every other request is given it, whatever the tables say by then.
   */
  lemma OneLoadServesAll(n: Node, r: Request, k: Key, q: Request, skus: map<SkuId, Sku>,
                         activities: map<ActivityId, Activity>)
    requires !Held(n, r, k) && !Get(n, r, k).1.Threw?
    ensures var (m, got) := Get(n, r, k);
            var later := m.(skus := skus, activities := activities);
            k !in Scope(m, q) ==> Get(later, q, k).1 == got
  {
    var (m, got) := Get(n, r, k);
    var later := m.(skus := skus, activities := activities);
    LoadedIsStored(n, r, k);
    assert Scope(later, q) == Scope(m, q);
    if k !in Scope(m, q) {
      FirstLevelAnswers(later, q, k);
    }
  }
}
