/** The keep-alive component: a cache of component instances with the least recently used pruned. */
module KeepAlive {
  import opened Numerals
  import opened Sequences
  import opened Wrappers

  /** A vnode's key, as it stands in `keys`. */
  datatype Key = Word(text: string) | Number(n: int)

  /** The same key as a property name of `cache`. */
  function Text(k: Key): string { if k.Word? then k.text else Signed(k.n) }

  type Instance = nat

  /** A cached vnode: the component's name and tag, and its instance. */
  datatype Entry = Entry(name: Option<string>, tag: string, instance: Instance)

  type Pattern = string -> bool

  /** Not included, or excluded: such a component is rendered without the cache. */
  predicate Bypassed(name: Option<string>, included: Option<Pattern>, excluded: Option<Pattern>) {
    || (included.Some? && (name.None? || !included.value(name.value)))
    || (excluded.Some? && name.Some? && excluded.value(name.value))
  }

  // ---------- The state and its operations as values ----------

  datatype State = State(keys: seq<Key>, cache: map<string, Entry>, destroyed: seq<Instance>)

  const EMPTY := State([], map[], [])

  /** The entry goes by the key's text, the key itself by identity. */
  function PruneEntry(s: State, k: Key, current: Option<string>): State {
    var t := Text(k);
    State(Without(s.keys, k), s.cache - {t},
          if t in s.cache && (current.None? || s.cache[t].tag != current.value) then s.destroyed + [s.cache[t].instance]
          else s.destroyed)
  }

  function Fresh(s: State, k: Key, e: Entry): State { s.(keys := s.keys + [k], cache := s.cache[Text(k) := e]) }

  /** `limit` is max as a number, None without one; `current` is the tag of the vnode shown now. */
  function Access(s: State, k: Key, e: Entry, limit: Option<int>, current: Option<string>): State {
    if Text(k) in s.cache then s.(keys := Without(s.keys, k) + [k])
    else
      var t := Fresh(s, k, e);
      if limit.Some? && |t.keys| > limit.value then PruneEntry(t, t.keys[0], current) else t
  }

  predicate Unwanted(e: Entry, wanted: Pattern) { e.name.Some? && !wanted(e.name.value) }

  /** The property names whose entries a filter takes out. */
  function Gone(s: State, wanted: Pattern): set<string> { set t | t in s.cache && Unwanted(s.cache[t], wanted) }

  function Words(texts: set<string>): set<Key> { set t | t in texts :: Word(t) }

  /** Takes the first occurrence of each out. */
  function WithoutEach(s: seq<Key>, gone: set<Key>): seq<Key> {
    if s == [] then []
    else if s[0] in gone then WithoutEach(s[1..], gone - {s[0]})
    else [s[0]] + WithoutEach(s[1..], gone)
  }

  /** pruneCache walks over the property names: what it looks for in `keys` are strings. */
  function PruneAll(s: State, wanted: Pattern): State {
    s.(keys := WithoutEach(s.keys, Words(Gone(s, wanted))), cache := s.cache - Gone(s, wanted))
  }

  // ---------- Consistency ----------

  ghost predicate Apart(keys: seq<Key>) {
    forall i, j | 0 <= i < j < |keys| :: Text(keys[i]) != Text(keys[j])
  }

  function Texts(keys: seq<Key>): set<string> { set k | k in keys :: Text(k) }

  /** The order of use names exactly the live entries, each once. */
  ghost predicate Consistent(s: State) {
    Apart(s.keys) && Texts(s.keys) == s.cache.Keys
  }

  lemma ApartIsNoDuplicates(s: seq<Key>)
    requires Apart(s)
    ensures NoDuplicates(s)
  {
  }

  lemma {:induction false} WithoutKeeps(s: seq<Key>, k: Key)
    requires NoDuplicates(s)
    ensures NoDuplicates(Without(s, k)) && forall x :: x in Without(s, k) <==> x in s && x != k
    ensures |Without(s, k)| == if k in s then |s| - 1 else |s|
  {
    if s != [] && s[0] != k {
      WithoutKeeps(s[1..], k);
      var r := Without(s[1..], k);
      assert s[0] !in r by {
        assert s[0] !in s[1..];
      }
      forall x ensures x in [s[0]] + r <==> x in s && x != k {
        assert x in r <==> x in s[1..] && x != k;
      }
    }
  }

  /** Keys with different texts and no duplicates are apart. */
  lemma ApartByTexts(s: seq<Key>, r: seq<Key>)
    requires Apart(s) && NoDuplicates(r) && forall x <- r :: x in s
    ensures Apart(r)
  {
    forall i, j | 0 <= i < j < |r| ensures Text(r[i]) != Text(r[j]) {
      assert r[i] in s && r[j] in s;
      var x :| 0 <= x < |s| && s[x] == r[i];
      var y :| 0 <= y < |s| && s[y] == r[j];
      assert x != y;
    }
  }

  /** Only this key has its text. */
  lemma TextOnce(s: seq<Key>, k: Key, x: Key)
    requires Apart(s) && k in s && x in s && Text(x) == Text(k)
    ensures x == k
  {
    var i :| 0 <= i < |s| && s[i] == k;
    var j :| 0 <= j < |s| && s[j] == x;
  }

  lemma WithoutTexts(s: seq<Key>, k: Key)
    requires Apart(s) && k in s
    ensures Apart(Without(s, k)) && Texts(Without(s, k)) == Texts(s) - {Text(k)}
  {
    ApartIsNoDuplicates(s);
    WithoutKeeps(s, k);
    ApartByTexts(s, Without(s, k));
    forall t ensures t in Texts(Without(s, k)) <==> t in Texts(s) - {Text(k)} {
      if t in Texts(s) && t != Text(k) {
        var x :| x in s && Text(x) == t;
        assert x in Without(s, k);
      }
      if t in Texts(Without(s, k)) {
        var x :| x in Without(s, k) && Text(x) == t;
        if t == Text(k) {
          TextOnce(s, k, x);
        }
      }
    }
  }

  lemma Pushed(s: seq<Key>, k: Key)
    requires Apart(s)
    ensures Apart(s + [k]) <==> Text(k) !in Texts(s)
    ensures Texts(s + [k]) == Texts(s) + {Text(k)}
  {
    assert forall x :: x in s + [k] <==> x in s || x == k;
    if Text(k) in Texts(s) {
      var x :| x in s && Text(x) == Text(k);
      var i :| 0 <= i < |s| && s[i] == x;
      assert (s + [k])[i] == x && (s + [k])[|s|] == k;
    }
  }

  // ---------- Exactly when an operation keeps it ----------

  /** The key is cached under its own identity, if its text is cached at all. */
  predicate Owns(s: State, k: Key) { Text(k) in s.cache ==> k in s.keys }

  lemma PruneKeepsIff(s: State, k: Key, current: Option<string>)
    requires Consistent(s)
    ensures Consistent(PruneEntry(s, k, current)) <==> Owns(s, k)
  {
    if k in s.keys {
      WithoutTexts(s.keys, k);
    } else {
      WithoutAbsent(s.keys, k);
    }
  }

  lemma FreshKeeps(s: State, k: Key, e: Entry)
    requires Consistent(s) && Text(k) !in s.cache
    ensures Consistent(Fresh(s, k, e))
  {
    Pushed(s.keys, k);
  }

  /** An access keeps the two in step exactly if the key is not cached as another key with the same text. */
  lemma AccessKeepsIff(s: State, k: Key, e: Entry, limit: Option<int>, current: Option<string>)
    requires Consistent(s)
    ensures Consistent(Access(s, k, e, limit, current)) <==> Owns(s, k)
  {
    if Text(k) in s.cache {
      if k in s.keys {
        WithoutTexts(s.keys, k);
        Pushed(Without(s.keys, k), k);
      } else {
        WithoutAbsent(s.keys, k);
        Pushed(s.keys, k);
      }
    } else {
      FreshKeeps(s, k, e);
      var t := Fresh(s, k, e);
      assert t.keys[0] in t.keys;
      PruneKeepsIff(t, t.keys[0], current);
    }
  }

  lemma {:induction false} WithoutEachKeeps(s: seq<Key>, gone: set<Key>)
    requires NoDuplicates(s)
    ensures NoDuplicates(WithoutEach(s, gone)) && forall x :: x in WithoutEach(s, gone) <==> x in s && x !in gone
    decreases |s|
  {
    if s != [] {
      assert s[0] !in s[1..];
      var less := if s[0] in gone then gone - {s[0]} else gone;
      WithoutEachKeeps(s[1..], less);
      var r := WithoutEach(s[1..], less);
      forall x ensures x in WithoutEach(s, gone) <==> x in s && x !in gone {
        assert x in s <==> x == s[0] || x in s[1..];
        assert x in r <==> x in s[1..] && x !in less;
      }
    }
  }

  /** Every entry that the filter takes out is cached under a string. */
  ghost predicate Nameable(s: State, wanted: Pattern) {
    forall t <- Gone(s, wanted) :: Word(t) in s.keys
  }

  lemma LeftBehind(s: State, wanted: Pattern, t: string)
    requires Consistent(s) && t in Gone(s, wanted) && Word(t) !in s.keys
    ensures !Consistent(PruneAll(s, wanted))
  {
    ApartIsNoDuplicates(s.keys);
    WithoutEachKeeps(s.keys, Words(Gone(s, wanted)));
    assert t in Texts(s.keys);
    var k :| k in s.keys && Text(k) == t;
    assert k in PruneAll(s, wanted).keys && t in Texts(PruneAll(s, wanted).keys);
  }

  /** pruneCache keeps the two in step exactly if what it takes out is cached under strings. */
  lemma PruneAllKeepsIff(s: State, wanted: Pattern)
    requires Consistent(s)
    ensures Consistent(PruneAll(s, wanted)) <==> Nameable(s, wanted)
  {
    var gone, p := Gone(s, wanted), PruneAll(s, wanted);
    if Nameable(s, wanted) {
      ApartIsNoDuplicates(s.keys);
      WithoutEachKeeps(s.keys, Words(gone));
      ApartByTexts(s.keys, p.keys);
      forall t ensures t in Texts(p.keys) <==> t in p.cache {
        if t in Texts(p.keys) {
          var k :| k in p.keys && Text(k) == t;
          if t in gone {
            TextOnce(s.keys, Word(t), k);
          }
          assert t in Texts(s.keys);
        }
        if t in p.cache {
          assert t in Texts(s.keys);
          var k :| k in s.keys && Text(k) == t;
          assert k in p.keys;
        }
      }
    } else {
      var t :| t in gone && Word(t) !in s.keys;
      LeftBehind(s, wanted, t);
    }
  }

  // ---------- Whole lives ----------

  datatype Act = Show(k: Key, e: Entry, current: Option<string>) | Filter(wanted: Pattern)

  function Acted(s: State, a: Act, limit: Option<int>): State {
    match a
    case Show(k, e, current) => Access(s, k, e, limit, current)
    case Filter(wanted) => PruneAll(s, wanted)
  }

  function ActedAll(acts: seq<Act>, limit: Option<int>): State {
    if acts == [] then EMPTY else Acted(ActedAll(acts[..|acts| - 1], limit), acts[|acts| - 1], limit)
  }

  ghost predicate Sound(s: State, a: Act) {
    match a
    case Show(k, _, _) => Owns(s, k)
    case Filter(wanted) => Nameable(s, wanted)
  }

  lemma ActKeepsIff(s: State, a: Act, limit: Option<int>)
    requires Consistent(s)
    ensures Consistent(Acted(s, a, limit)) <==> Sound(s, a)
  {
    match a
    case Show(k, e, current) => AccessKeepsIff(s, k, e, limit, current);
    case Filter(wanted) => PruneAllKeepsIff(s, wanted);
  }

  ghost predicate ConsistentAt(acts: seq<Act>, limit: Option<int>, i: nat)
    requires i <= |acts|
  {
    Consistent(ActedAll(acts[..i], limit))
  }

  ghost predicate SoundAt(acts: seq<Act>, limit: Option<int>, i: nat)
    requires i < |acts|
  {
    Sound(ActedAll(acts[..i], limit), acts[i])
  }

  lemma NextState(acts: seq<Act>, limit: Option<int>, i: nat)
    requires i < |acts|
    ensures ActedAll(acts[..i + 1], limit) == Acted(ActedAll(acts[..i], limit), acts[i], limit)
  {
    assert acts[..i + 1][..i] == acts[..i] && acts[..i + 1][i] == acts[i];
  }

  lemma {:induction false} SoundSoFar(acts: seq<Act>, limit: Option<int>, i: nat)
    requires i <= |acts| && forall j: nat | j < i :: SoundAt(acts, limit, j)
    ensures ConsistentAt(acts, limit, i)
  {
    if i == 0 {
      assert acts[..0] == [];
    } else {
      SoundSoFar(acts, limit, i - 1);
      NextState(acts, limit, i - 1);
      assert SoundAt(acts, limit, i - 1);
      ActKeepsIff(ActedAll(acts[..i - 1], limit), acts[i - 1], limit);
    }
  }

  /** Over a whole life the order of use names exactly the live entries if and only if every act is sound. */
  lemma AlwaysConsistentIff(acts: seq<Act>, limit: Option<int>)
    ensures (forall i: nat | i <= |acts| :: ConsistentAt(acts, limit, i)) <==>
            (forall i: nat | i < |acts| :: SoundAt(acts, limit, i))
  {
    if forall i: nat | i < |acts| :: SoundAt(acts, limit, i) {
      forall i: nat | i <= |acts| ensures ConsistentAt(acts, limit, i) {
        SoundSoFar(acts, limit, i);
      }
    } else if forall i: nat | i <= |acts| :: ConsistentAt(acts, limit, i) {
      var i: nat :| i < |acts| && !SoundAt(acts, limit, i);
      assert ConsistentAt(acts, limit, i) && ConsistentAt(acts, limit, i + 1);
      NextState(acts, limit, i);
      ActKeepsIff(ActedAll(acts[..i], limit), acts[i], limit);
    }
  }

  // ---------- String keys ----------

  ghost predicate AllWords(keys: seq<Key>) { forall k <- keys :: k.Word? }

  lemma {:induction false} SubWords(s: seq<Key>, k: Key, gone: set<Key>)
    requires AllWords(s)
    ensures AllWords(Without(s, k)) && AllWords(WithoutEach(s, gone))
    decreases |s|
  {
    if s != [] {
      SubWords(s[1..], k, gone);
      SubWords(s[1..], k, gone - {s[0]});
    }
  }

  lemma WordsStay(s: State, a: Act, limit: Option<int>)
    requires AllWords(s.keys) && (a.Show? ==> a.k.Word?)
    ensures AllWords(Acted(s, a, limit).keys)
  {
    match a
    case Show(k, e, current) =>
      SubWords(s.keys, k, {});
      SubWords(Fresh(s, k, e).keys, Fresh(s, k, e).keys[0], {});
    case Filter(wanted) => SubWords(s.keys, Word(""), Words(Gone(s, wanted)));
  }

  lemma WordsAreSound(s: State, a: Act)
    requires Consistent(s) && AllWords(s.keys) && (a.Show? ==> a.k.Word?)
    ensures Sound(s, a)
  {
    forall t | t in s.cache ensures Word(t) in s.keys {
      assert t in Texts(s.keys);
      var k :| k in s.keys && Text(k) == t;
    }
  }

  /** With strings for keys it never matters what is shown or filtered. */
  lemma {:induction false} StringKeysAreSafe(acts: seq<Act>, limit: Option<int>)
    requires forall a <- acts :: a.Show? ==> a.k.Word?
    ensures Consistent(ActedAll(acts, limit)) && AllWords(ActedAll(acts, limit).keys)
    decreases |acts|
  {
    if acts != [] {
      var before, a := acts[..|acts| - 1], acts[|acts| - 1];
      assert forall b <- before :: b in acts;
      StringKeysAreSafe(before, limit);
      WordsAreSound(ActedAll(before, limit), a);
      ActKeepsIff(ActedAll(before, limit), a, limit);
      WordsStay(ActedAll(before, limit), a, limit);
    }
  }

  // ---------- A number for a key ----------

  lemma ShownFirst(s: State, k: Key, e: Entry, limit: Option<int>, before: seq<Key>)
    requires s.keys == before && s.cache == map[] && (limit.Some? ==> limit.value > |before|)
    ensures var t := Access(s, k, e, limit, None); t.keys == before + [k] && t.cache == map[Text(k) := e]
  {
  }

  /** The filter takes the entry out and leaves the number. */
  lemma NumberStays(s: State, k: Key, e: Entry, wanted: Pattern)
    requires s.keys == [k] && s.cache == map[Text(k) := e] && k.Number? && Unwanted(e, wanted)
    ensures PruneAll(s, wanted).keys == [k] && PruneAll(s, wanted).cache == map[]
  {
    var gone := Words(Gone(s, wanted));
    assert k !in gone && s.keys[1..] == [] && WithoutEach(s.keys, gone) == [k] + WithoutEach([], gone);
    assert Text(k) in Gone(s, wanted);
  }

  lemma TwiceIsNotApart(s: State, k: Key)
    requires s.keys == [k, k]
    ensures !Consistent(s)
  {
    assert s.keys[0] == s.keys[1];
  }

  /** Shown, filtered out and shown again, a component with a number for a key stands in `keys` twice. */
  lemma NumberStandsTwice(k: Key, e: Entry, wanted: Pattern, limit: Option<int>)
    requires k.Number? && Unwanted(e, wanted) && (limit.Some? ==> limit.value >= 2)
    ensures var filtered := Acted(Acted(EMPTY, Show(k, e, None), limit), Filter(wanted), limit);
            var end := Acted(filtered, Show(k, e, None), limit);
            end.keys == [k, k] && !Consistent(end)
  {
    var s1 := Acted(EMPTY, Show(k, e, None), limit);
    ShownFirst(EMPTY, k, e, limit, []);
    assert [] + [k] == [k];
    NumberStays(s1, k, e, wanted);
    var s2 := Acted(s1, Filter(wanted), limit);
    ShownFirst(s2, k, e, limit, [k]);
    assert [k] + [k] == [k, k];
    TwiceIsNotApart(Acted(s2, Show(k, e, None), limit), k);
  }

  // ---------- The component ----------

  class KeepAliveInstance {
    var keys: seq<Key>
    var cache: map<string, Entry>
    var destroyed: seq<Instance>

    function View(): State
      reads this
    {
      State(keys, cache, destroyed)
    }

    constructor ()
      ensures View() == EMPTY && Consistent(View())
    {
      keys, cache, destroyed := [], map[], [];
    }

    method Remove(k: Key)
      modifies `keys
      ensures keys == Without(old(keys), k)
    {
      keys := Without(keys, k);
    }

    method PruneCacheEntry(k: Key, current: Option<string>)
      modifies this
      ensures View() == PruneEntry(old(View()), k, current)
    {
      var t := Text(k);
      if t in cache && (current.None? || cache[t].tag != current.value) {
        destroyed := destroyed + [cache[t].instance];
      }
      cache := cache - {t};
      Remove(k);
    }

    /** render: the instance shown, a cached one if there is one, the new one otherwise. */
    method Render(k: Key, e: Entry, included: Option<Pattern>, excluded: Option<Pattern>, limit: Option<int>,
                  current: Option<string>)
      returns (shown: Instance)
      modifies this
      ensures var left := (included.Some? && (e.name.None? || !included.value(e.name.value)))
                          || (excluded.Some? && e.name.Some? && excluded.value(e.name.value));
              var hit := !left && Text(k) in old(cache);
              && View() == (if left then old(View()) else Access(old(View()), k, e, limit, current))
              && shown == if hit then old(cache)[Text(k)].instance else e.instance
      ensures old(Consistent(View())) && old(Owns(View(), k)) ==> Consistent(View())
    {
      if Consistent(View()) {
        AccessKeepsIff(View(), k, e, limit, current);
      }
      shown := e.instance;
      if !Bypassed(e.name, included, excluded) {
        if Text(k) in cache {
          shown := cache[Text(k)].instance;
          Remove(k);
          keys := keys + [k];
        } else {
          cache := cache[Text(k) := e];
          keys := keys + [k];
          if limit.Some? && |keys| > limit.value {
            PruneCacheEntry(keys[0], current);
          }
        }
      }
    }

    /** pruneCache: every named entry that the filter does not want goes, whatever the order of the walk. */
    method PruneCache(wanted: Pattern, current: Option<string>)
      modifies this
      ensures keys == PruneAll(old(View()), wanted).keys && cache == PruneAll(old(View()), wanted).cache
      ensures old(destroyed) <= destroyed
      ensures Elems(destroyed[|old(destroyed)|..]) == Doomed(old(cache), Gone(old(View()), wanted), current)
      ensures old(Consistent(View())) ==> (Consistent(View()) <==> Nameable(old(View()), wanted))
    {
      ghost var was := View();
      Walk(wanted, current);
      if Consistent(was) {
        PruneAllKeepsIff(was, wanted);
      }
    }

    /** The loop over the property names. */
    method Walk(wanted: Pattern, current: Option<string>)
      modifies this
      ensures keys == PruneAll(old(View()), wanted).keys && cache == PruneAll(old(View()), wanted).cache
      ensures old(destroyed) <= destroyed
      ensures Elems(destroyed[|old(destroyed)|..]) == Doomed(old(cache), Gone(old(View()), wanted), current)
    {
      ghost var was, all, gone := View(), Gone(View(), wanted), {};
      WithoutNone(keys);
      var todo := cache.Keys;
      while todo != {}
        invariant todo <= was.cache.Keys && gone == all - todo
        invariant keys == WithoutEach(was.keys, Words(gone)) && cache == was.cache - gone
        invariant was.destroyed <= destroyed
        invariant Elems(destroyed[|was.destroyed|..]) == Doomed(was.cache, gone, current)
        decreases todo
      {
        var t :| t in todo;
        if t in cache && Unwanted(cache[t], wanted) {
          ghost var sofar := destroyed;
          PruneCacheEntry(Word(t), current);
          OneMoreDoomed(was, gone, t, current, sofar, destroyed);
          OneMoreGone(was.keys, gone, t);
          gone := gone + {t};
        }
        todo := todo - {t};
      }
      assert gone == all;
    }
  }

  /** The instances of the entries, except where the vnode shown now has the entry's tag. */
  function Doomed(cache: map<string, Entry>, gone: set<string>, current: Option<string>): set<Instance> {
    set t | t in gone && t in cache && current != Some(cache[t].tag) :: cache[t].instance
  }

  lemma OneMoreDoomed(was: State, gone: set<string>, t: string, current: Option<string>, sofar: seq<Instance>,
                      now: seq<Instance>)
    requires t in was.cache && was.destroyed <= sofar
    requires Elems(sofar[|was.destroyed|..]) == Doomed(was.cache, gone, current)
    requires now == if current != Some(was.cache[t].tag) then sofar + [was.cache[t].instance] else sofar
    ensures was.destroyed <= now && Elems(now[|was.destroyed|..]) == Doomed(was.cache, gone + {t}, current)
  {
    var n := |was.destroyed|;
    if current != Some(was.cache[t].tag) {
      assert now[n..] == sofar[n..] + [was.cache[t].instance];
      assert Doomed(was.cache, gone + {t}, current) == Doomed(was.cache, gone, current) + {was.cache[t].instance};
    } else {
      assert Doomed(was.cache, gone + {t}, current) == Doomed(was.cache, gone, current);
    }
  }

  /** Pruning the oldest destroys its instance, unless the vnode shown now has its tag, and no other. */
  lemma AccessDestroys(s: State, k: Key, e: Entry, limit: Option<int>, current: Option<string>)
    requires Consistent(s) && Owns(s, k) && (limit.Some? ==> limit.value >= 1)
    ensures var t := Access(s, k, e, limit, current);
            && s.destroyed <= t.destroyed
            && Elems(t.destroyed[|s.destroyed|..]) == Doomed(s.cache, s.cache.Keys - t.cache.Keys, current)
  {
    var t := Access(s, k, e, limit, current);
    if Text(k) !in s.cache && limit.Some? && |s.keys| + 1 > limit.value {
      var first := (s.keys + [k])[0];
      assert first == s.keys[0] && Text(first) in Texts(s.keys);
      assert s.cache.Keys - t.cache.Keys == {Text(first)};
      OneMoreDoomed(s, {}, Text(first), current, s.destroyed, t.destroyed);
      assert {} + {Text(first)} == {Text(first)};
    } else {
      assert s.cache.Keys - t.cache.Keys == {};
    }
  }

  /** A new include or exclude takes out exactly those named entries that would no longer be cached if shown. */
  lemma FilterMatchesRender(s: State, pattern: Pattern, t: string)
    requires t in s.cache && s.cache[t].name.Some?
    ensures t in PruneAll(s, pattern).cache <==> !Bypassed(s.cache[t].name, Some(pattern), None)
    ensures var others := name => !pattern(name);
            t in PruneAll(s, others).cache <==> !Bypassed(s.cache[t].name, None, Some(pattern))
  {
  }

  lemma {:induction false} WithoutNone(s: seq<Key>)
    ensures Words({}) == {} && WithoutEach(s, {}) == s
    decreases |s|
  {
    if s != [] {
      WithoutNone(s[1..]);
    }
  }

  lemma {:induction false} WithoutOneMore(s: seq<Key>, gone: set<Key>, k: Key)
    requires k !in gone
    ensures Without(WithoutEach(s, gone), k) == WithoutEach(s, gone + {k})
    decreases |s|
  {
    if s != [] {
      var x := s[0];
      if x in gone {
        WithoutOneMore(s[1..], gone - {x}, k);
        assert gone + {k} - {x} == gone - {x} + {k};
      } else if x == k {
        assert gone + {k} - {k} == gone;
        assert ([x] + WithoutEach(s[1..], gone))[1..] == WithoutEach(s[1..], gone);
      } else {
        WithoutOneMore(s[1..], gone, k);
        assert ([x] + WithoutEach(s[1..], gone))[1..] == WithoutEach(s[1..], gone);
      }
    }
  }

  lemma OneMoreGone(s: seq<Key>, gone: set<string>, t: string)
    requires t !in gone
    ensures Without(WithoutEach(s, Words(gone)), Word(t)) == WithoutEach(s, Words(gone + {t}))
  {
    WithoutOneMore(s, Words(gone), Word(t));
    assert Words(gone) + {Word(t)} == Words(gone + {t});
  }

  // ---------- What is in the cache after any accesses ----------

  /** The distinct keys, in the order of their last occurrence. */
  function ByLastUse(uses: seq<Key>): seq<Key> {
    if uses == [] then []
    else if uses[0] in uses[1..] then ByLastUse(uses[1..])
    else [uses[0]] + ByLastUse(uses[1..])
  }

  function Last(s: seq<Key>, n: nat): seq<Key> {
    if |s| <= n then s else s[|s| - n..]
  }

  datatype Use = Use(key: Key, entry: Entry, current: Option<string>)

  function Keys(uses: seq<Use>): seq<Key> {
    seq(|uses|, i requires 0 <= i < |uses| => uses[i].key)
  }

  function After(uses: seq<Use>, n: nat): State {
    if uses == [] then EMPTY
    else var u := uses[|uses| - 1]; Access(After(uses[..|uses| - 1], n), u.key, u.entry, Some(n), u.current)
  }

  lemma {:induction false} LastUses(uses: seq<Key>)
    ensures NoDuplicates(ByLastUse(uses)) && forall k :: k in ByLastUse(uses) <==> k in uses
  {
    if uses != [] {
      LastUses(uses[1..]);
      assert uses == [uses[0]] + uses[1..];
    }
  }

  lemma {:induction false} OneMoreUse(uses: seq<Key>, k: Key)
    ensures ByLastUse(uses + [k]) == Without(ByLastUse(uses), k) + [k]
  {
    if uses == [] {
      assert [k][1..] == [];
    } else {
      var rest := uses[1..];
      assert (uses + [k])[1..] == rest + [k];
      OneMoreUse(rest, k);
      LastUses(rest);
      if uses[0] in rest {
        assert uses[0] in rest + [k];
      } else if uses[0] == k {
        assert k in rest + [k];
        WithoutAbsent(ByLastUse(rest), k);
      } else {
        assert [uses[0]] + (Without(ByLastUse(rest), k) + [k]) == [uses[0]] + Without(ByLastUse(rest), k) + [k];
      }
    }
  }

  /** Taking a key out of the older part leaves the newer part alone. */
  lemma {:induction false} WithoutLater(a: seq<Key>, b: seq<Key>, k: Key)
    ensures Without(a + b, k) == if k in a then Without(a, k) + b else a + Without(b, k)
  {
    if a == [] {
      assert a + b == b;
    } else {
      assert (a + b)[1..] == a[1..] + b;
      if a[0] != k {
        WithoutLater(a[1..], b, k);
      }
    }
  }

  lemma InOneHalf(a: seq<Key>, b: seq<Key>, k: Key)
    requires NoDuplicates(a + b)
    ensures NoDuplicates(b) && (k in b ==> k !in a)
  {
    forall i, j | 0 <= i < j < |b| ensures b[i] != b[j] {
      assert (a + b)[|a| + i] == b[i] && (a + b)[|a| + j] == b[j];
    }
    if k in b {
      var j :| 0 <= j < |b| && b[j] == k;
      forall i | 0 <= i < |a| ensures a[i] != k {
        assert (a + b)[i] == a[i] && (a + b)[|a| + j] == b[j];
      }
    }
  }

  lemma LastOfConcat(a: seq<Key>, x: seq<Key>, n: nat)
    requires |x| <= n && (a != [] ==> |x| == n)
    ensures Last(a + x, n) == x
  {
    if a == [] {
      assert a + x == x;
    }
  }

  /** What an access makes of the keys in use. */
  function Moved(kept: seq<Key>, k: Key, n: nat): seq<Key> {
    if k in kept then Without(kept, k) + [k]
    else if |kept + [k]| > n then Without(kept + [k], (kept + [k])[0])
    else kept + [k]
  }

  lemma MovedHit(a: seq<Key>, kept: seq<Key>, k: Key, n: nat)
    requires NoDuplicates(a + kept) && |kept| <= n && (a != [] ==> |kept| == n) && k in kept
    ensures Moved(kept, k, n) == Last(Without(a + kept, k) + [k], n)
  {
    InOneHalf(a, kept, k);
    WithoutLater(a, kept, k);
    WithoutKeeps(kept, k);
    assert Without(a + kept, k) + [k] == a + (Without(kept, k) + [k]);
    LastOfConcat(a, Without(kept, k) + [k], n);
  }

  /** A full cache: the oldest key makes room. */
  lemma MovedFull(a: seq<Key>, kept: seq<Key>, k: Key, n: nat)
    requires |kept| == n >= 1 && k !in kept
    ensures Moved(kept, k, n) == Last(a + kept + [k], n)
  {
    var x := kept[1..] + [k];
    assert (kept + [k])[0] == kept[0] && Without(kept + [k], kept[0]) == (kept + [k])[1..] == x;
    assert (a + kept) + [k] == (a + [kept[0]]) + x;
    LastOfConcat(a + [kept[0]], x, n);
  }

  lemma MovedMiss(a: seq<Key>, kept: seq<Key>, k: Key, n: nat)
    requires NoDuplicates(a + kept) && |kept| <= n && (a != [] ==> |kept| == n) && k !in kept && n >= 1
    ensures Moved(kept, k, n) == Last(Without(a + kept, k) + [k], n)
  {
    WithoutLater(a, kept, k);
    WithoutAbsent(kept, k);
    var a' := if k in a then Without(a, k) else a;
    assert Without(a + kept, k) == a' + kept;
    if |kept| == n {
      MovedFull(a', kept, k, n);
    } else {
      assert a == [] && a' + kept + [k] == [] + (kept + [k]);
      LastOfConcat([], kept + [k], n);
    }
  }

  /** One access moves the last n keys in use on by one use. */
  lemma AccessByLastUse(r: seq<Key>, k: Key, n: nat)
    requires NoDuplicates(r) && n >= 1
    ensures Moved(Last(r, n), k, n) == Last(Without(r, k) + [k], n)
  {
    var kept := Last(r, n);
    var a := r[..|r| - |kept|];
    assert r == a + kept;
    if k in kept {
      MovedHit(a, kept, k, n);
    } else {
      MovedMiss(a, kept, k, n);
    }
  }

  lemma KeysOn(uses: seq<Use>)
    requires uses != []
    ensures Keys(uses) == Keys(uses[..|uses| - 1]) + [uses[|uses| - 1].key]
  {
  }

  /** No two of the keys have the same text: all strings, or all numbers, or at least not 1 beside "1". */
  ghost predicate Unmixed(keys: seq<Key>) {
    forall k, x | k in keys && x in keys && Text(k) == Text(x) :: k == x
  }

  /** Strings among themselves, or numbers among themselves, are never mixed up. */
  lemma OneKindIsUnmixed(keys: seq<Key>)
    requires AllWords(keys) || forall k <- keys :: k.Number?
    ensures Unmixed(keys)
  {
    forall k, x | k in keys && x in keys && Text(k) == Text(x) ensures k == x {
      if k.Number? {
        SignedInjective(k.n, x.n);
      }
    }
  }

  lemma AccessMoves(s: State, u: Use, n: nat)
    requires Consistent(s) && Owns(s, u.key)
    ensures Access(s, u.key, u.entry, Some(n), u.current).keys == Moved(s.keys, u.key, n)
  {
    assert u.key in s.keys ==> Text(u.key) in Texts(s.keys);
  }

  lemma UnmixedOwns(s: State, uses: seq<Key>, k: Key)
    requires Consistent(s) && Unmixed(uses + [k]) && forall x <- s.keys :: x in uses
    ensures Owns(s, k)
  {
    if Text(k) in s.cache {
      assert Text(k) in Texts(s.keys);
      var x :| x in s.keys && Text(x) == Text(k);
      assert x in uses + [k] && k in uses + [k];
    }
  }

  /**
   After any accesses the keys are exactly the last n distinct ones, ordered by last access, and each has its entry.
   */
  lemma {:induction false} KeysAreLastUsed(uses: seq<Use>, n: nat)
    requires n >= 1 && Unmixed(Keys(uses))
    ensures Consistent(After(uses, n))
    ensures After(uses, n).keys == Last(ByLastUse(Keys(uses)), n)
  {
    if uses != [] {
      var before, u := uses[..|uses| - 1], uses[|uses| - 1];
      KeysOn(uses);
      assert forall k <- Keys(before) :: k in Keys(uses);
      KeysAreLastUsed(before, n);
      OneMoreUse(Keys(before), u.key);
      LastUses(Keys(before));
      UnmixedOwns(After(before, n), Keys(before), u.key);
      AccessByLastUse(ByLastUse(Keys(before)), u.key, n);
      AccessMoves(After(before, n), u, n);
      AccessKeepsIff(After(before, n), u.key, u.entry, Some(n), u.current);
    }
  }

  // ---------- An instance stays as long as its key is among the last n ----------

  ghost predicate InUse(uses: seq<Use>, k: Key, n: nat) {
    k in Last(ByLastUse(Keys(uses)), n)
  }

  lemma AccessKeepsEntries(s: State, u: Use, n: nat, t: string)
    requires t in s.cache && t in Access(s, u.key, u.entry, Some(n), u.current).cache
    ensures Access(s, u.key, u.entry, Some(n), u.current).cache[t] == s.cache[t]
  {
  }

  lemma UsedIsCached(uses: seq<Use>, k: Key, n: nat)
    requires n >= 1 && Unmixed(Keys(uses)) && InUse(uses, k, n)
    ensures Text(k) in After(uses, n).cache
  {
    KeysAreLastUsed(uses, n);
    assert Text(k) in Texts(After(uses, n).keys);
  }

  lemma UnmixedBefore(uses: seq<Use>)
    requires Unmixed(Keys(uses)) && uses != []
    ensures Unmixed(Keys(uses[..|uses| - 1]))
  {
    KeysOn(uses);
    var before := Keys(uses[..|uses| - 1]);
    assert forall k <- before :: k in Keys(uses);
  }

  /** An access leaves the entries of the keys that stay as they are. */
  lemma EntryStays(uses: seq<Use>, k: Key, n: nat)
    requires n >= 1 && uses != [] && Unmixed(Keys(uses)) && InUse(uses, k, n) && InUse(uses[..|uses| - 1], k, n)
    ensures Text(k) in After(uses, n).cache && Text(k) in After(uses[..|uses| - 1], n).cache
    ensures After(uses, n).cache[Text(k)] == After(uses[..|uses| - 1], n).cache[Text(k)]
  {
    UnmixedBefore(uses);
    UsedIsCached(uses, k, n);
    UsedIsCached(uses[..|uses| - 1], k, n);
    AccessKeepsEntries(After(uses[..|uses| - 1], n), uses[|uses| - 1], n, Text(k));
  }

  ghost predicate StaysInUse(uses: seq<Use>, m: nat, k: Key, n: nat) {
    forall i | m <= i <= |uses| :: InUse(uses[..i], k, n)
  }

  lemma StayedBefore(uses: seq<Use>, m: nat, k: Key, n: nat)
    requires m < |uses| && StaysInUse(uses, m, k, n)
    ensures StaysInUse(uses[..|uses| - 1], m, k, n) && InUse(uses, k, n) && InUse(uses[..|uses| - 1], k, n)
  {
    assert uses[..|uses|] == uses;
    var before := uses[..|uses| - 1];
    forall i | m <= i <= |before| ensures InUse(before[..i], k, n) {
      assert before[..i] == uses[..i];
    }
  }

  /** As long as a key stays among the last n, every access to it shows the instance it was given first. */
  lemma {:induction false} InstanceIsKept(uses: seq<Use>, m: nat, k: Key, n: nat)
    requires n >= 1 && m <= |uses| && Unmixed(Keys(uses)) && StaysInUse(uses, m, k, n)
    ensures Text(k) in After(uses, n).cache && Text(k) in After(uses[..m], n).cache
    ensures After(uses, n).cache[Text(k)] == After(uses[..m], n).cache[Text(k)]
    decreases |uses|
  {
    if m == |uses| {
      assert uses[..m] == uses;
      UsedIsCached(uses, k, n);
    } else {
      StayedBefore(uses, m, k, n);
      EntryStays(uses, k, n);
      UnmixedBefore(uses);
      assert uses[..|uses| - 1][..m] == uses[..m];
      InstanceIsKept(uses[..|uses| - 1], m, k, n);
    }
  }
}
