/** The default keys of nested children: which vnodes of the result get one, and that no two get the same. */
module DefaultKeys {
  import opened NormalizeChildren
  import opened Numerals
  import opened Wrappers

  // ---------- Default keys tell places apart ----------

  /** nestedIndex of the children at the end of a path of indices. */
  function PathText(path: seq<nat>): string {
    if path == [] then "" else "_" + Decimal(path[0]) + PathText(path[1..])
  }

  lemma {:induction false} PathTextOn(path: seq<nat>, i: nat)
    ensures PathText(path + [i]) == PathText(path) + "_" + Decimal(i)
  {
    if path == [] {
      assert [i][1..] == [];
      assert "_" + Decimal(i) + "" == "" + "_" + Decimal(i);
    } else {
      assert (path + [i])[1..] == path[1..] + [i];
      PathTextOn(path[1..], i);
      assert "_" + Decimal(path[0]) + (PathText(path[1..]) + "_" + Decimal(i)) ==
             "_" + Decimal(path[0]) + PathText(path[1..]) + "_" + Decimal(i);
    }
  }

  /** A text that does not start with a digit. */
  predicate NoDigitFirst(s: string) { s == "" || !('0' <= s[0] <= '9') }

  /** A number ends where the digits end. */
  lemma DigitsEnd(a: string, r: string, b: string, s: string)
    requires (forall k | 0 <= k < |a| :: '0' <= a[k] <= '9') && (forall k | 0 <= k < |b| :: '0' <= b[k] <= '9')
    requires NoDigitFirst(r) && NoDigitFirst(s) && a + r == b + s
    ensures a == b && r == s
  {
    if |a| == |b| {
      assert (a + r)[..|a|] == a && (b + s)[..|a|] == b;
      assert (a + r)[|a|..] == r && (b + s)[|a|..] == s;
    } else if |a| < |b| {
      OutOfDigits(a, r, b, s);
    } else {
      OutOfDigits(b, s, a, r);
    }
  }

  lemma OutOfDigits(a: string, r: string, b: string, s: string)
    requires |a| < |b| && (forall k | 0 <= k < |b| :: '0' <= b[k] <= '9') && NoDigitFirst(r)
    ensures a + r != b + s
  {
    assert (b + s)[|a|] == b[|a|];
    if r != "" {
      assert (a + r)[|a|] == r[0];
    }
  }

  lemma {:induction false} PathTextInjective(p: seq<nat>, q: seq<nat>)
    requires PathText(p) == PathText(q)
    ensures p == q
    decreases |p|
  {
    if p != [] && q != [] {
      var a, r, b, s := Decimal(p[0]), PathText(p[1..]), Decimal(q[0]), PathText(q[1..]);
      assert PathText(p)[1..] == a + r && PathText(q)[1..] == b + s;
      DecimalDigits(p[0]);
      DecimalDigits(q[0]);
      DigitsEnd(a, r, b, s);
      DecimalInjective(p[0], q[0]);
      PathTextInjective(p[1..], q[1..]);
      assert p == [p[0]] + p[1..] && q == [q[0]] + q[1..];
    }
  }

  function Framed(s: string): string { "__vlist" + s + "__" }

  lemma Unframed(x: string, y: string)
    requires Framed(x) == Framed(y)
    ensures x == y
  {
    assert Framed(x)[7..|x| + 7] == x && Framed(y)[7..|y| + 7] == y;
  }

  lemma KeyIsPath(p: seq<nat>, i: nat)
    ensures DefaultKey(PathText(p), i) == Framed(PathText(p + [i]))
  {
    PathTextOn(p, i);
    assert "__vlist" + PathText(p) + "_" + Decimal(i) + "__" == "__vlist" + (PathText(p) + "_" + Decimal(i)) + "__";
  }

  /** Two places anywhere in the nested lists have different texts, and so different default keys. */
  lemma PlacesTellApart(p: seq<nat>, q: seq<nat>)
    requires Framed(PathText(p)) == Framed(PathText(q))
    ensures p == q
  {
    Unframed(PathText(p), PathText(q));
    PathTextInjective(p, q);
  }

  /** nestedIndex of the children at the end of a path: none for the outermost. */
  function IndexOf(path: seq<nat>): Option<string> { if path == [] then None else Some(PathText(path)) }

  /** The lists inside a list are indexed by their path. */
  lemma DeeperIsPath(path: seq<nat>, i: nat)
    ensures Deeper(IndexOf(path), i) == PathText(path + [i])
  {
    PathTextOn(path, i);
  }

  // ---------- Where the vnodes of the result come from ----------

  /** For a vnode of the result that was given a default key, the path of indices to its place. */
  type Place = Option<seq<nat>>

  predicate GetsKey(v: VNode, isVList: bool, path: seq<nat>) { isVList && v.tag.Some? && v.key.None? && path != [] }

  function PlacesJoined(places: seq<Place>, more: seq<Place>, merges: bool): (joined: seq<Place>)
    requires merges ==> places != [] && more != []
    ensures |joined| == |places| + |more| - if merges then 1 else 0
  {
    if merges then places[|places| - 1 := None] + more[1..] else places + more
  }

  function PlacesAdded(res: seq<VNode>, places: seq<Place>, c: Child, more: seq<VNode>, morePlaces: seq<Place>,
                       isVList: bool, path: seq<nat>, i: nat): (added: seq<Place>)
    requires |places| == |res| && |morePlaces| == |more|
    ensures |added| == |Added(res, c, more, isVList, IndexOf(path), i)|
  {
    match c
    case Undefined => places
    case Boolean(_) => places
    case Nested(items, _) =>
      if items == [] then places
      else PlacesJoined(places, morePlaces, more != [] && IsText(more[0]) && EndsInText(res))
    case Primitive(t) =>
      if EndsInText(res) then places[|places| - 1 := None] else if t != "" then places + [None] else places
    case Node(v) =>
      if IsText(v) && EndsInText(res) then places[|places| - 1 := None]
      else places + [if GetsKey(v, isVList, path) then Some(path + [i]) else None]
  }

  /** Beside what the first n children come to, the places of the default keys. */
  function Places(children: seq<Child>, isVList: bool, path: seq<nat>, n: nat): (places: seq<Place>)
    requires n <= |children|
    ensures |places| == |Normalized(children, isVList, IndexOf(path), n)|
    decreases children, n
  {
    if n == 0 then []
    else
      var c := children[n - 1];
      DeeperIsPath(path, n - 1);
      PlacesAdded(Normalized(children, isVList, IndexOf(path), n - 1), Places(children, isVList, path, n - 1), c,
                  if c.Nested? then Normalized(c.items, c.isVList, IndexOf(path + [n - 1]), |c.items|) else [],
                  if c.Nested? then Places(c.items, c.isVList, path + [n - 1], |c.items|) else [],
                  isVList, path, n - 1)
  }

  /** The vnodes among the first n children and inside them. */
  function Supplied(children: seq<Child>, n: nat): set<VNode>
    requires n <= |children|
    decreases children, n
  {
    if n == 0 then {}
    else
      var c := children[n - 1];
      Supplied(children, n - 1) +
      if c.Node? then {c.v} else if c.Nested? then Supplied(c.items, |c.items|) else {}
  }

  /** A vnode with a place is one that came without a key; one without is as it came, or a text made of texts. */
  predicate ComesFrom(v: VNode, place: Place, supplied: set<VNode>) {
    if place.Some? then v.key == Some(Framed(PathText(place.value))) && v.(key := None) in supplied
    else v in supplied || (v.text.Some? && v == TextNode(v.text.value))
  }

  ghost predicate AllComeFrom(res: seq<VNode>, places: seq<Place>, supplied: set<VNode>) {
    |res| == |places| && forall x | 0 <= x < |res| :: ComesFrom(res[x], places[x], supplied)
  }

  /** The places lie inside the list at the path, among its first n children, each for one vnode. */
  ghost predicate Inside(places: seq<Place>, path: seq<nat>, n: nat) {
    && (forall x | 0 <= x < |places| && places[x].Some? ::
          |places[x].value| > |path| && path <= places[x].value && places[x].value[|path|] < n)
    && (forall x, y | 0 <= x < y < |places| && places[x].Some? && places[y].Some? :: places[x] != places[y])
  }

  // ---------- One child more ----------

  lemma MoreSupplied(res: seq<VNode>, places: seq<Place>, a: set<VNode>, b: set<VNode>)
    requires AllComeFrom(res, places, a) && a <= b
    ensures AllComeFrom(res, places, b)
  {
  }

  lemma MergedComesFrom(res: seq<VNode>, places: seq<Place>, text: string, supplied: set<VNode>)
    requires AllComeFrom(res, places, supplied) && EndsInText(res)
    ensures AllComeFrom(Merged(res, text), places[|places| - 1 := None], supplied)
  {
  }

  lemma OneMoreComesFrom(res: seq<VNode>, places: seq<Place>, v: VNode, place: Place, supplied: set<VNode>)
    requires AllComeFrom(res, places, supplied) && ComesFrom(v, place, supplied)
    ensures AllComeFrom(res + [v], places + [place], supplied)
  {
  }

  lemma ConcatComesFrom(a: seq<VNode>, p: seq<Place>, b: seq<VNode>, q: seq<Place>, supplied: set<VNode>)
    requires AllComeFrom(a, p, supplied) && AllComeFrom(b, q, supplied)
    ensures AllComeFrom(a + b, p + q, supplied)
  {
  }

  lemma JoinedComeFrom(res: seq<VNode>, places: seq<Place>, more: seq<VNode>, morePlaces: seq<Place>,
                       supplied: set<VNode>)
    requires AllComeFrom(res, places, supplied) && AllComeFrom(more, morePlaces, supplied)
    ensures AllComeFrom(Joined(res, more),
            PlacesJoined(places, morePlaces, more != [] && IsText(more[0]) && EndsInText(res)), supplied)
  {
    if more != [] && IsText(more[0]) && EndsInText(res) {
      MergedComesFrom(res, places, more[0].text.value, supplied);
      ConcatComesFrom(Merged(res, more[0].text.value), places[|places| - 1 := None], more[1..], morePlaces[1..],
          supplied);
    } else {
      ConcatComesFrom(res, places, more, morePlaces, supplied);
    }
  }

  lemma KeyedComesFrom(v: VNode, isVList: bool, path: seq<nat>, i: nat, supplied: set<VNode>)
    requires v in supplied
    ensures ComesFrom(WithKey(v, isVList, IndexOf(path), i),
                      if GetsKey(v, isVList, path) then Some(path + [i]) else None, supplied)
  {
    if GetsKey(v, isVList, path) {
      KeyIsPath(path, i);
      assert v.(key := Some(DefaultKey(PathText(path), i))).(key := None) == v;
    }
  }

  lemma AddedComeFrom(res: seq<VNode>, places: seq<Place>, c: Child, more: seq<VNode>, morePlaces: seq<Place>,
                      isVList: bool, path: seq<nat>, i: nat, supplied: set<VNode>)
    requires AllComeFrom(res, places, supplied) && AllComeFrom(more, morePlaces, supplied)
             && (c.Node? ==> c.v in supplied)
    ensures AllComeFrom(Added(res, c, more, isVList, IndexOf(path), i),
                        PlacesAdded(res, places, c, more, morePlaces, isVList, path, i), supplied)
  {
    match c
    case Undefined =>
    case Boolean(_) =>
    case Nested(_, _) => JoinedComeFrom(res, places, more, morePlaces, supplied);
    case Primitive(t) =>
      if EndsInText(res) {
        MergedComesFrom(res, places, t, supplied);
      } else if t != "" {
        OneMoreComesFrom(res, places, TextNode(t), None, supplied);
      }
    case Node(v) =>
      if IsText(v) && EndsInText(res) {
        MergedComesFrom(res, places, v.text.value, supplied);
      } else {
        KeyedComesFrom(v, isVList, path, i, supplied);
        OneMoreComesFrom(res, places, WithKey(v, isVList, IndexOf(path), i),
                         if GetsKey(v, isVList, path) then Some(path + [i]) else None, supplied);
      }
  }

  lemma InsideMore(places: seq<Place>, path: seq<nat>, n: nat)
    requires Inside(places, path, n)
    ensures Inside(places, path, n + 1)
    ensures places != [] ==> Inside(places[|places| - 1 := None], path, n + 1)
    ensures Inside(places + [None], path, n + 1) && Inside(places + [Some(path + [n])], path, n + 1)
  {
    assert (path + [n])[..|path|] == path;
  }

  lemma InsideOneDeeper(more: seq<Place>, path: seq<nat>, n: nat, m: nat, x: nat)
    requires Inside(more, path + [n], m) && x < |more| && more[x].Some?
    ensures |more[x].value| > |path| && path <= more[x].value && more[x].value[|path|] == n
  {
    var p := more[x].value;
    assert p[..|path| + 1] == path + [n];
    assert p[..|path|] == p[..|path| + 1][..|path|] == path;
    assert p[|path|] == p[..|path| + 1][|path|];
  }

  /** The places of a nested list are all under its own index. */
  lemma InsideBoth(places: seq<Place>, more: seq<Place>, path: seq<nat>, n: nat, m: nat)
    requires Inside(places, path, n) && Inside(more, path + [n], m)
    ensures Inside(places + more, path, n + 1)
  {
    var both := places + more;
    forall x | 0 <= x < |more| && more[x].Some?
      ensures |more[x].value| > |path| && path <= more[x].value && more[x].value[|path|] == n
    {
      InsideOneDeeper(more, path, n, m, x);
    }
    forall x, y | 0 <= x < y < |both| && both[x].Some? && both[y].Some? ensures both[x] != both[y] {
      if x >= |places| {
        assert both[x] == more[x - |places|] && both[y] == more[y - |places|];
      } else if y >= |places| {
        assert both[y] == more[y - |places|];
      }
    }
  }

  lemma TailInside(more: seq<Place>, path: seq<nat>, m: nat)
    requires Inside(more, path, m) && more != []
    ensures Inside(more[1..], path, m)
  {
  }

  lemma AddedInside(res: seq<VNode>, places: seq<Place>, c: Child, more: seq<VNode>, morePlaces: seq<Place>,
                    isVList: bool, path: seq<nat>, i: nat, m: nat)
    requires |places| == |res| && |morePlaces| == |more| && Inside(places, path, i) && Inside(morePlaces, path + [i], m)
    ensures Inside(PlacesAdded(res, places, c, more, morePlaces, isVList, path, i), path, i + 1)
  {
    InsideMore(places, path, i);
    if c.Nested? && c.items != [] {
      if more != [] && IsText(more[0]) && EndsInText(res) {
        TailInside(morePlaces, path + [i], m);
        InsideLess(places, path, i);
        InsideBoth(places[|places| - 1 := None], morePlaces[1..], path, i, m);
      } else {
        InsideBoth(places, morePlaces, path, i, m);
      }
    }
  }

  lemma InsideLess(places: seq<Place>, path: seq<nat>, n: nat)
    requires Inside(places, path, n) && places != []
    ensures Inside(places[|places| - 1 := None], path, n)
  {
  }

  // ---------- The whole list ----------

  lemma {:induction false} PlacesAreRight(children: seq<Child>, isVList: bool, path: seq<nat>, n: nat)
    requires n <= |children|
    ensures Inside(Places(children, isVList, path, n), path, n)
    ensures AllComeFrom(Normalized(children, isVList, IndexOf(path), n), Places(children, isVList, path, n),
            Supplied(children, n))
    decreases children, n
  {
    if n > 0 {
      var c, supplied := children[n - 1], Supplied(children, n);
      var res, places := Normalized(children, isVList, IndexOf(path), n - 1), Places(children, isVList, path, n - 1);
      PlacesAreRight(children, isVList, path, n - 1);
      MoreSupplied(res, places, Supplied(children, n - 1), supplied);
      DeeperIsPath(path, n - 1);
      if c.Nested? {
        var deeper := path + [n - 1];
        var more, morePlaces := Normalized(c.items, c.isVList, IndexOf(deeper), |c.items|),
            Places(c.items, c.isVList, deeper, |c.items|);
        PlacesAreRight(c.items, c.isVList, deeper, |c.items|);
        MoreSupplied(more, morePlaces, Supplied(c.items, |c.items|), supplied);
        AddedComeFrom(res, places, c, more, morePlaces, isVList, path, n - 1, supplied);
        AddedInside(res, places, c, more, morePlaces, isVList, path, n - 1, |c.items|);
      } else {
        AddedComeFrom(res, places, c, [], [], isVList, path, n - 1, supplied);
        AddedInside(res, places, c, [], [], isVList, path, n - 1, 0);
      }
    }
  }

  /** The vnodes that were given a default key have pairwise different keys, whatever keys the others came with. */
  lemma DefaultKeysDiffer(children: seq<Child>, isVList: bool, x: nat, y: nat)
    requires var places := Places(children, isVList, [], |children|);
             x < y < |places| && places[x].Some? && places[y].Some?
    ensures var res := Normalized(children, isVList, None, |children|);
            res[x].key.Some? && res[y].key.Some? && res[x].key != res[y].key
  {
    var places := Places(children, isVList, [], |children|);
    PlacesAreRight(children, isVList, [], |children|);
    if Framed(PathText(places[x].value)) == Framed(PathText(places[y].value)) {
      PlacesTellApart(places[x].value, places[y].value);
    }
  }
}
