/** Where the two-ended child diff stands, what each of its moves keeps, and what is true at the end. */
module ChildDiff {
  import opened Sequences
  import opened Wrappers
  import opened VDom

  function ElmOf(v: VNode): Elm {
    if v.elm.Some? then v.elm.value else 0
  }

  function Elms(vs: seq<VNode>): seq<Elm> {
    seq(|vs|, i requires 0 <= i < |vs| => ElmOf(vs[i]))
  }

  /** The elements of the entries that have not been set to undefined. */
  function Alive(vs: seq<Option<VNode>>): seq<Elm> {
    if vs == [] then [] else (if vs[0].Some? then [ElmOf(vs[0].value)] else []) + Alive(vs[1..])
  }

  lemma {:induction false} AliveConcat(a: seq<Option<VNode>>, b: seq<Option<VNode>>)
    ensures Alive(a + b) == Alive(a) + Alive(b)
  {
    if a == [] {
      assert a + b == b;
    } else {
      assert (a + b)[1..] == a[1..] + b && (a + b)[0] == a[0];
      AliveConcat(a[1..], b);
      Regroup(if a[0].Some? then [ElmOf(a[0].value)] else [], Alive(a[1..]), Alive(b));
    }
  }

  /** The loop's state: the arrays, the parent's children, the four indices, the next unused element id. */
  datatype Cfg = Cfg(
    was: seq<Option<VNode>>,
    neu: seq<VNode>,
    dom: seq<Elm>,
    os: int, oe: int, ns: int, ne: int,
    next: Elm)

  ghost predicate DistinctKeys(vs: seq<VNode>) {
    forall i, j | 0 <= i < |vs| && 0 <= j < |vs| && vs[i].key.Some? && vs[i].key == vs[j].key :: i == j
  }

  /** What updateChildren is called with: the parent holds the old elements in order, the new vnodes have none yet. */
  ghost predicate InputOk(old0: seq<VNode>, new0: seq<VNode>, dom0: seq<Elm>, base: Elm) {
    && (forall i | 0 <= i < |old0| :: old0[i].elm.Some?)
    && (forall j | 0 <= j < |new0| :: new0[j].elm.None?)
    && dom0 == Elms(old0) && Distinct(dom0) && (forall e <- dom0 :: e < base)
    && DistinctKeys(old0) && DistinctKeys(new0)
  }

  /** Two vnodes with the same defined key that sameVnode accepts: the second must keep the first one's element. */
  predicate MustKeep(a: VNode, b: VNode) {
    a.key.Some? && SameVnode(a, b)
  }

  /** A new vnode that is no placeholder of an async component, and an old one that sameVnode accepts for it. */
  predicate Fits(node: VNode, o: VNode) {
    !node.isAsyncPlaceholder && SameVnode(node, o)
  }

  /** Then sameVnode accepts them in the other order too. */
  lemma FitsBothWays(node: VNode, o: VNode)
    requires Fits(node, o)
    ensures SameVnode(o, node) && (node.key.Some? ==> MustKeep(o, node))
  {
  }

  // ---------- The invariant ----------

  ghost predicate Bounds(c: Cfg) {
    0 <= c.os <= c.oe + 1 <= |c.was| && 0 <= c.ns <= c.ne + 1 <= |c.neu|
  }

  /** Old entry i has been dealt with. */
  ghost predicate Gone(c: Cfg, i: int) {
    0 <= i < |c.was| && (i < c.os || i > c.oe || c.was[i].None?)
  }

  /** New entry j has its element. */
  ghost predicate Done(c: Cfg, j: int) {
    0 <= j < |c.neu| && (j < c.ns || j > c.ne)
  }

  ghost predicate Shape(old0: seq<VNode>, new0: seq<VNode>, c: Cfg) {
    && Bounds(c) && |c.was| == |old0| && |c.neu| == |new0|
    && (forall i | 0 <= i < |c.was| && !Gone(c, i) :: c.was[i] == Some(old0[i]))
    && (forall j | 0 <= j < |c.neu| :: c.neu[j] == new0[j].(elm := c.neu[j].elm))
    && (forall j | 0 <= j < |c.neu| :: c.neu[j].elm.Some? <==> Done(c, j))
  }

  /** `src[j]` names the old entry whose element new entry j keeps, None for a created element. */
  ghost predicate SourceOk(old0: seq<VNode>, new0: seq<VNode>, c: Cfg, src: seq<Option<nat>>, base: Elm, j: int)
    requires |src| == |c.neu| == |new0| && 0 <= j < |src|
  {
    match src[j]
    case None => base <= ElmOf(c.neu[j]) < c.next
    case Some(i) => i < |old0| && Gone(c, i) && c.neu[j].elm == old0[i].elm && SameVnode(old0[i], new0[j])
  }

  ghost predicate KeptBySomeone(c: Cfg, src: seq<Option<nat>>, i: int)
    requires |src| == |c.neu|
  {
    exists j :: 0 <= j < |src| && Done(c, j) && src[j] == Some(i)
  }

  ghost predicate Sources(old0: seq<VNode>, new0: seq<VNode>, c: Cfg, src: seq<Option<nat>>, base: Elm) {
    && |src| == |c.neu| == |new0| && |c.was| == |old0|
    && (forall j | 0 <= j < |src| && Done(c, j) :: SourceOk(old0, new0, c, src, base, j))
    && (forall i | 0 <= i < |old0| && Gone(c, i) :: KeptBySomeone(c, src, i))
    && (forall i, j | 0 <= i < |old0| && 0 <= j < |src| && Done(c, j) && MustKeep(old0[i], new0[j]) ::
        src[j] == Some(i))
    && (forall i, j | 0 <= i < |old0| && !Gone(c, i) && 0 <= j < |src| && Done(c, j) && src[j].None? ::
        !Fits(new0[j], old0[i]))
  }

  ghost function Front(c: Cfg): seq<Elm>
    requires Bounds(c)
  {
    Elms(c.neu[..c.ns])
  }

  ghost function Middle(c: Cfg): seq<Elm>
    requires Bounds(c)
  {
    Alive(c.was[c.os..c.oe + 1])
  }

  ghost function Back(c: Cfg): seq<Elm>
    requires Bounds(c)
  {
    Elms(c.neu[c.ne + 1..])
  }

  /** Finished prefix, surviving old middle, finished suffix. */
  ghost predicate DomOk(c: Cfg) {
    && Bounds(c)
    && c.dom == Front(c) + Middle(c) + Back(c)
    && Distinct(c.dom) && (forall e <- c.dom :: e < c.next)
  }

  ghost predicate DiffInv(old0: seq<VNode>, new0: seq<VNode>, base: Elm, c: Cfg, src: seq<Option<nat>>) {
    Shape(old0, new0, c) && Sources(old0, new0, c, src, base) && DomOk(c)
  }

  // ---------- The moves ----------

  function Give(neu: seq<VNode>, j: nat, e: Elm): seq<VNode>
    requires j < |neu|
  {
    neu[j := neu[j].(elm := Some(e))]
  }

  function SkipStart(c: Cfg): Cfg { c.(os := c.os + 1) }

  function SkipEnd(c: Cfg): Cfg { c.(oe := c.oe - 1) }

  function KeepStart(c: Cfg, e: Elm): Cfg
    requires 0 <= c.ns < |c.neu|
  {
    c.(neu := Give(c.neu, c.ns, e), os := c.os + 1, ns := c.ns + 1)
  }

  function KeepEnd(c: Cfg, e: Elm): Cfg
    requires 0 <= c.ne < |c.neu|
  {
    c.(neu := Give(c.neu, c.ne, e), oe := c.oe - 1, ne := c.ne - 1)
  }

  /** The first old vnode matches the last new one: its element goes after the last old element. */
  function StartToEnd(c: Cfg, e: Elm, last: Elm): Cfg
    requires 0 <= c.ne < |c.neu|
  {
    c.(neu := Give(c.neu, c.ne, e), dom := InsertBefore(c.dom, e, NextSibling(c.dom, last)), os := c.os + 1,
        ne := c.ne - 1)
  }

  /** The last old vnode matches the first new one: its element goes before the first old element. */
  function EndToStart(c: Cfg, e: Elm, first: Elm): Cfg
    requires 0 <= c.ns < |c.neu|
  {
    c.(neu := Give(c.neu, c.ns, e), dom := InsertBefore(c.dom, e, Some(first)), oe := c.oe - 1, ns := c.ns + 1)
  }

  function Pull(c: Cfg, i: nat, e: Elm, first: Elm): Cfg
    requires 0 <= c.ns < |c.neu| && i < |c.was|
  {
    c.(neu := Give(c.neu, c.ns, e), was := c.was[i := None], dom := InsertBefore(c.dom, e, Some(first)), ns := c.ns + 1)
  }

  function Create(c: Cfg, anchor: Option<Elm>): Cfg
    requires 0 <= c.ns < |c.neu|
  {
    c.(neu := Give(c.neu, c.ns, c.next), dom := InsertBefore(c.dom, c.next, anchor), ns := c.ns + 1, next := c.next + 1)
  }

  // ---------- What the moves keep: who keeps which element ----------

  /** New entry j takes the element of old entry i, and nothing else changes hands. */
  lemma Takes(old0: seq<VNode>, new0: seq<VNode>, base: Elm, c: Cfg, d: Cfg, src: seq<Option<nat>>, i: nat, j: nat)
    requires Sources(old0, new0, c, src, base) && i < |old0| && j < |new0| && !Done(c, j)
    requires |d.was| == |c.was| && |d.neu| == |c.neu| && d.next == c.next
    requires forall k :: Gone(d, k) <==> Gone(c, k) || k == i
    requires forall k :: Done(d, k) <==> Done(c, k) || k == j
    requires forall k | 0 <= k < |c.neu| && k != j :: d.neu[k] == c.neu[k]
    requires d.neu[j].elm == old0[i].elm && SameVnode(old0[i], new0[j]) && DistinctKeys(old0)
    ensures Sources(old0, new0, d, src[j := Some(i)], base)
  {
    var src' := src[j := Some(i)];
    forall k | 0 <= k < |src'| && Done(d, k) ensures SourceOk(old0, new0, d, src', base, k) {
      if k != j {
        assert SourceOk(old0, new0, c, src, base, k);
      }
    }
    forall k | 0 <= k < |old0| && Gone(d, k) ensures KeptBySomeone(d, src', k) {
      if k == i {
        assert Done(d, j) && src'[j] == Some(k);
      } else {
        assert KeptBySomeone(c, src, k);
        var l :| 0 <= l < |src| && Done(c, l) && src[l] == Some(k);
        assert Done(d, l) && src'[l] == Some(k);
      }
    }
  }

  /** New entry j gets a created element: no old vnode may have a claim on it. */
  lemma Creates(old0: seq<VNode>, new0: seq<VNode>, base: Elm, c: Cfg, d: Cfg, src: seq<Option<nat>>, j: nat)
    requires Sources(old0, new0, c, src, base) && j < |new0| && !Done(c, j)
    requires d.was == c.was && |d.neu| == |c.neu| && base <= c.next && d.next == c.next + 1
    requires forall k :: Gone(d, k) <==> Gone(c, k)
    requires forall k :: Done(d, k) <==> Done(c, k) || k == j
    requires forall k | 0 <= k < |c.neu| && k != j :: d.neu[k] == c.neu[k]
    requires d.neu[j].elm == Some(c.next)
    requires forall i | 0 <= i < |old0| :: !MustKeep(old0[i], new0[j])
    requires forall i | 0 <= i < |old0| && !Gone(c, i) :: !Fits(new0[j], old0[i])
    ensures Sources(old0, new0, d, src[j := None], base)
  {
    var src' := src[j := None];
    forall k | 0 <= k < |src'| && Done(d, k) ensures SourceOk(old0, new0, d, src', base, k) {
      if k != j {
        assert SourceOk(old0, new0, c, src, base, k);
      }
    }
    forall k | 0 <= k < |old0| && Gone(d, k) ensures KeptBySomeone(d, src', k) {
      assert KeptBySomeone(c, src, k);
      var l :| 0 <= l < |src| && Done(c, l) && src[l] == Some(k);
      assert Done(d, l) && src'[l] == Some(k);
    }
  }

  /** Steps over undefined entries change neither who is gone nor who is done. */
  lemma SkipsKeepSources(old0: seq<VNode>, new0: seq<VNode>, base: Elm, c: Cfg, d: Cfg, src: seq<Option<nat>>)
    requires Sources(old0, new0, c, src, base) && d.neu == c.neu && d.was == c.was && d.next == c.next
    requires forall k :: Gone(d, k) <==> Gone(c, k)
    requires forall k :: Done(d, k) <==> Done(c, k)
    ensures Sources(old0, new0, d, src, base)
  {
    forall k | 0 <= k < |src| && Done(d, k) ensures SourceOk(old0, new0, d, src, base, k) {
      assert SourceOk(old0, new0, c, src, base, k);
    }
    forall k | 0 <= k < |old0| && Gone(d, k) ensures KeptBySomeone(d, src, k) {
      assert KeptBySomeone(c, src, k);
      var l :| 0 <= l < |src| && Done(c, l) && src[l] == Some(k);
      assert Done(d, l);
    }
  }

  /** An old vnode with the key of a waiting new vnode has not been dealt with: only that new vnode could keep it. */
  lemma KeyStillWaits(old0: seq<VNode>, new0: seq<VNode>, base: Elm, c: Cfg, src: seq<Option<nat>>, i: nat, j: nat)
    requires Sources(old0, new0, c, src, base) && DistinctKeys(new0)
    requires i < |old0| && j < |new0| && !Done(c, j) && new0[j].key.Some? && old0[i].key == new0[j].key
    ensures !Gone(c, i)
  {
  }

  // ---------- What the moves keep: the order of the parent's children ----------

  function Survivor(v: Option<VNode>): seq<Elm> {
    if v.Some? then [ElmOf(v.value)] else []
  }

  lemma AliveAround(was: seq<Option<VNode>>, lo: nat, i: nat, hi: nat)
    requires lo <= i < hi <= |was|
    ensures Alive(was[lo..hi]) == Alive(was[lo..i]) + Survivor(was[i]) + Alive(was[i + 1..hi])
  {
    var rest := was[i..hi];
    assert was[lo..hi] == was[lo..i] + rest;
    AliveConcat(was[lo..i], rest);
    assert rest[1..] == was[i + 1..hi] && rest[0] == was[i];
  }

  lemma MiddleOff(was: seq<Option<VNode>>, lo: nat, hi: nat)
    requires lo < hi <= |was|
    ensures Alive(was[lo..hi]) == Survivor(was[lo]) + Alive(was[lo + 1..hi])
  {
    AliveAround(was, lo, lo, hi);
    assert was[lo..lo] == [];
  }

  lemma GiveFront(neu: seq<VNode>, ns: nat, ne: nat, e: Elm)
    requires ns <= ne < |neu|
    ensures Elms(Give(neu, ns, e)[..ns + 1]) == Elms(neu[..ns]) + [e]
    ensures Elms(Give(neu, ns, e)[ne + 1..]) == Elms(neu[ne + 1..])
  {
  }

  lemma GiveBack(neu: seq<VNode>, ns: nat, ne: nat, e: Elm)
    requires ns <= ne < |neu|
    ensures Elms(Give(neu, ne, e)[ne..]) == [e] + Elms(neu[ne + 1..])
    ensures Elms(Give(neu, ne, e)[..ns]) == Elms(neu[..ns])
  {
  }

  /** The loop runs while both ranges are non-empty. */
  ghost predicate Running(c: Cfg) {
    Bounds(c) && c.os <= c.oe && c.ns <= c.ne
  }

  lemma StartOff(c: Cfg)
    requires Bounds(c) && c.os <= c.oe
    ensures Middle(c) == Survivor(c.was[c.os]) + Alive(c.was[c.os + 1..c.oe + 1])
  {
    AliveAround(c.was, c.os, c.os, c.oe + 1);
    assert c.was[c.os..c.os] == [];
  }

  lemma EndOff(c: Cfg)
    requires Bounds(c) && c.os <= c.oe
    ensures Middle(c) == Alive(c.was[c.os..c.oe]) + Survivor(c.was[c.oe])
  {
    AliveAround(c.was, c.os, c.oe, c.oe + 1);
    assert c.was[c.oe + 1..c.oe + 1] == [];
  }

  lemma BothOff(c: Cfg)
    requires Bounds(c) && c.os < c.oe
    ensures Middle(c) == Survivor(c.was[c.os]) + Alive(c.was[c.os + 1..c.oe]) + Survivor(c.was[c.oe])
    ensures Alive(c.was[c.os + 1..c.oe + 1]) == Alive(c.was[c.os + 1..c.oe]) + Survivor(c.was[c.oe])
    ensures Alive(c.was[c.os..c.oe]) == Survivor(c.was[c.os]) + Alive(c.was[c.os + 1..c.oe])
  {
    AliveAround(c.was, c.os, c.oe, c.oe + 1);
    AliveAround(c.was, c.os + 1, c.oe, c.oe + 1);
    assert c.was[c.oe + 1..c.oe + 1] == [];
    MiddleOff(c.was, c.os, c.oe);
  }

  lemma SkipStartDom(c: Cfg)
    requires DomOk(c) && Running(c) && c.was[c.os].None?
    ensures DomOk(SkipStart(c))
  {
    StartOff(c);
    NothingBeside(Alive(c.was[c.os + 1..c.oe + 1]));
    SameDom(c, SkipStart(c));
  }

  lemma SkipEndDom(c: Cfg)
    requires DomOk(c) && Running(c) && c.was[c.oe].None?
    ensures DomOk(SkipEnd(c))
  {
    EndOff(c);
    NothingBeside(Alive(c.was[c.os..c.oe]));
    SameDom(c, SkipEnd(c));
  }

  lemma SameDom(c: Cfg, d: Cfg)
    requires DomOk(c) && Bounds(d) && d.dom == c.dom && d.next == c.next
    requires Front(d) == Front(c) && Middle(d) == Middle(c) && Back(d) == Back(c)
    ensures DomOk(d)
  {
  }

  /** A configuration with the same parent and the same elements in the same places, differently divided. */
  lemma Divided(c: Cfg, d: Cfg, p: seq<Elm>, m: seq<Elm>, s: seq<Elm>)
    requires DomOk(c) && Bounds(d) && d.next == c.next && d.dom == c.dom
    requires Front(d) == p && Middle(d) == m && Back(d) == s && c.dom == p + m + s
    ensures DomOk(d)
  {
  }

  lemma FlattenFront<T>(p: seq<T>, a: seq<T>, m: seq<T>, s: seq<T>)
    ensures p + (a + m) + s == (p + a) + m + s
  {
  }

  lemma FlattenBack<T>(p: seq<T>, m: seq<T>, a: seq<T>, s: seq<T>)
    ensures p + (m + a) + s == p + m + (a + s)
  {
  }

  lemma KeepStartDom(c: Cfg)
    requires DomOk(c) && Running(c) && c.was[c.os].Some?
    ensures DomOk(KeepStart(c, ElmOf(c.was[c.os].value)))
  {
    var e, m := ElmOf(c.was[c.os].value), Alive(c.was[c.os + 1..c.oe + 1]);
    StartOff(c);
    GiveFront(c.neu, c.ns, c.ne, e);
    FlattenFront(Front(c), [e], m, Back(c));
    Divided(c, KeepStart(c, e), Front(c) + [e], m, Back(c));
  }

  lemma KeepEndDom(c: Cfg)
    requires DomOk(c) && Running(c) && c.was[c.oe].Some?
    ensures DomOk(KeepEnd(c, ElmOf(c.was[c.oe].value)))
  {
    var e, m := ElmOf(c.was[c.oe].value), Alive(c.was[c.os..c.oe]);
    EndOff(c);
    GiveBack(c.neu, c.ns, c.ne, e);
    FlattenBack(Front(c), m, [e], Back(c));
    Divided(c, KeepEnd(c, e), Front(c), m, [e] + Back(c));
  }

  lemma Flatten4<T>(p: seq<T>, a: seq<T>, b: seq<T>, c: seq<T>, t: seq<T>, s: seq<T>)
    ensures p + (a + b + c + t) + s == (p + (a + b)) + c + (t + s)
    ensures (p + (a + b)) + (t + s) == p + ((a + b + t) + s)
  {
  }

  lemma FlattenForward<T>(p: seq<T>, a: seq<T>, m: seq<T>, z: seq<T>, s: seq<T>)
    ensures p + (a + m + z) + s == (p + a + m) + z + s
    ensures p + (a + m + z) + s == p + a + (m + z + s)
  {
  }

  lemma RegroupForward<T>(p: seq<T>, a: seq<T>, m: seq<T>, z: seq<T>, s: seq<T>)
    ensures p + (m + z + s) == (p + m + z) + s
    ensures (p + m + z) + a + s == p + (m + z) + (a + s)
  {
  }

  lemma ForwardDom(p: seq<Elm>, e: Elm, m: seq<Elm>, last: Elm, s: seq<Elm>)
    requires Distinct(p + ([e] + m + [last]) + s)
    ensures var dom := p + ([e] + m + [last]) + s;
            var now := InsertBefore(dom, e, NextSibling(dom, last));
            now == p + (m + [last]) + ([e] + s) && Distinct(now) && multiset(now) == multiset(dom)
  {
    FlattenForward(p, [e], m, [last], s);
    RegroupForward(p, [e], m, [last], s);
    DistinctParts(p + [e] + m, last, s);
    NextSiblingAt(p + [e] + m, last, s);
    MoveTo(p, e, m + [last] + s, p + m + [last], s);
  }

  lemma BackwardDom(p: seq<Elm>, first: Elm, m: seq<Elm>, e: Elm, t: seq<Elm>, s: seq<Elm>)
    requires Distinct(p + ([first] + m + [e] + t) + s)
    ensures var dom := p + ([first] + m + [e] + t) + s;
            var now := InsertBefore(dom, e, Some(first));
            now == (p + [e]) + ([first] + m + t) + s && Distinct(now) && multiset(now) == multiset(dom)
  {
    Flatten4(p, [first], m, [e], t, s);
    var r := ([first] + m + t) + s;
    MoveTo(p + ([first] + m), e, t + s, p, r);
    assert r[0] == first;
    assert p + [e] + r == (p + [e]) + ([first] + m + t) + s;
  }

  lemma SameMembers(was: seq<Elm>, now: seq<Elm>, next: Elm)
    requires multiset(was) == multiset(now) && forall e <- was :: e < next
    ensures forall e <- now :: e < next
  {
    forall e | e in now ensures e < next {
      assert e in multiset(now);
      assert e in multiset(was);
      assert e in was;
    }
  }

  lemma Rearranged(c: Cfg, d: Cfg)
    requires DomOk(c) && Bounds(d) && d.next == c.next
    requires d.dom == Front(d) + Middle(d) + Back(d) && Distinct(d.dom) && multiset(d.dom) == multiset(c.dom)
    ensures DomOk(d)
  {
    SameMembers(c.dom, d.dom, c.next);
  }

  lemma ForwardParts(c: Cfg, d: Cfg, p: seq<Elm>, e: Elm, m: seq<Elm>, last: Elm, s: seq<Elm>)
    requires DomOk(c) && Bounds(d) && d.next == c.next
    requires Front(c) == p && Middle(c) == [e] + m + [last] && Back(c) == s
    requires Front(d) == p && Middle(d) == m + [last] && Back(d) == [e] + s
    requires d.dom == InsertBefore(c.dom, e, NextSibling(c.dom, last))
    ensures DomOk(d)
  {
    ForwardDom(p, e, m, last, s);
    Rearranged(c, d);
  }

  lemma BackwardParts(c: Cfg, d: Cfg, p: seq<Elm>, first: Elm, m: seq<Elm>, e: Elm, t: seq<Elm>, s: seq<Elm>)
    requires DomOk(c) && Bounds(d) && d.next == c.next
    requires Front(c) == p && Middle(c) == [first] + m + [e] + t && Back(c) == s
    requires Front(d) == p + [e] && Middle(d) == [first] + m + t && Back(d) == s
    requires d.dom == InsertBefore(c.dom, e, Some(first))
    ensures DomOk(d)
  {
    BackwardDom(p, first, m, e, t, s);
    Rearranged(c, d);
  }

  lemma StartToEndParts(c: Cfg, e: Elm, last: Elm)
    requires Running(c) && c.os < c.oe && c.was[c.os].Some? && c.was[c.oe].Some?
    requires e == ElmOf(c.was[c.os].value) && last == ElmOf(c.was[c.oe].value)
    ensures var m, d := Alive(c.was[c.os + 1..c.oe]), StartToEnd(c, e, last);
            && Middle(c) == [e] + m + [last] && Middle(d) == m + [last]
            && Front(d) == Front(c) && Back(d) == [e] + Back(c)
  {
    BothOff(c);
    GiveBack(c.neu, c.ns, c.ne, e);
  }

  lemma StartToEndDom(c: Cfg)
    requires DomOk(c) && Running(c) && c.os < c.oe && c.was[c.os].Some? && c.was[c.oe].Some?
    ensures DomOk(StartToEnd(c, ElmOf(c.was[c.os].value), ElmOf(c.was[c.oe].value)))
  {
    var e, last := ElmOf(c.was[c.os].value), ElmOf(c.was[c.oe].value);
    StartToEndParts(c, e, last);
    ForwardParts(c, StartToEnd(c, e, last), Front(c), e, Alive(c.was[c.os + 1..c.oe]), last, Back(c));
  }

  lemma EndToStartParts(c: Cfg, e: Elm, first: Elm)
    requires Running(c) && c.os < c.oe && c.was[c.os].Some? && c.was[c.oe].Some?
    requires e == ElmOf(c.was[c.oe].value) && first == ElmOf(c.was[c.os].value)
    ensures var m, d := Alive(c.was[c.os + 1..c.oe]), EndToStart(c, e, first);
            && Middle(c) == [first] + m + [e] + [] && Middle(d) == [first] + m + []
            && Front(d) == Front(c) + [e] && Back(d) == Back(c)
  {
    BothOff(c);
    GiveFront(c.neu, c.ns, c.ne, e);
  }

  lemma EndToStartDom(c: Cfg)
    requires DomOk(c) && Running(c) && c.os < c.oe && c.was[c.os].Some? && c.was[c.oe].Some?
    ensures DomOk(EndToStart(c, ElmOf(c.was[c.oe].value), ElmOf(c.was[c.os].value)))
  {
    var e, first := ElmOf(c.was[c.oe].value), ElmOf(c.was[c.os].value);
    EndToStartParts(c, e, first);
    BackwardParts(c, EndToStart(c, e, first), Front(c), first, Alive(c.was[c.os + 1..c.oe]), e, [], Back(c));
  }

  /** Old entry i, strictly inside the range, taken out of the middle. */
  lemma PulledFrom(was: seq<Option<VNode>>, lo: nat, i: nat, hi: nat)
    requires lo < i < hi <= |was| && was[lo].Some? && was[i].Some?
    ensures Alive(was[lo..hi]) == [ElmOf(was[lo].value)] + Alive(was[lo + 1..i]) + [ElmOf(was[i].value)]
            + Alive(was[i + 1..hi])
  {
    AliveAround(was, lo, i, hi);
    MiddleOff(was, lo, i);
  }

  lemma LeftAfterPull(was: seq<Option<VNode>>, lo: nat, i: nat, hi: nat)
    requires lo < i < hi <= |was| && was[lo].Some?
    ensures Alive(was[i := None][lo..hi]) == [ElmOf(was[lo].value)] + Alive(was[lo + 1..i]) + Alive(was[i + 1..hi])
  {
    var was' := was[i := None];
    AliveAround(was', lo, i, hi);
    MiddleOff(was, lo, i);
    assert was'[lo..i] == was[lo..i] && was'[i + 1..hi] == was[i + 1..hi];
  }

  lemma PullFrame(c: Cfg, i: nat, e: Elm, first: Elm)
    requires Running(c) && c.os < i <= c.oe
    ensures var d := Pull(c, i, e, first); Bounds(d) && Middle(d) == Alive(c.was[i := None][c.os..c.oe + 1])
  {
  }

  lemma MiddleBeforePull(c: Cfg, i: nat)
    requires Running(c) && c.os < i <= c.oe && c.was[c.os].Some? && c.was[i].Some?
    ensures Middle(c) == [ElmOf(c.was[c.os].value)] + Alive(c.was[c.os + 1..i]) + [ElmOf(c.was[i].value)]
            + Alive(c.was[i + 1..c.oe + 1])
  {
    PulledFrom(c.was, c.os, i, c.oe + 1);
  }

  lemma MiddleAfterPull(c: Cfg, i: nat, e: Elm, first: Elm)
    requires Running(c) && c.os < i <= c.oe && c.was[c.os].Some?
    ensures var d := Pull(c, i, e, first);
            Bounds(d) && Middle(d) == [ElmOf(c.was[c.os].value)] + Alive(c.was[c.os + 1..i])
                + Alive(c.was[i + 1..c.oe + 1])
  {
    PullFrame(c, i, e, first);
    LeftAfterPull(c.was, c.os, i, c.oe + 1);
  }

  lemma PullParts(c: Cfg, i: nat, e: Elm, first: Elm)
    requires Running(c) && c.os < i <= c.oe && c.was[c.os].Some? && c.was[i].Some?
    requires e == ElmOf(c.was[i].value) && first == ElmOf(c.was[c.os].value)
    ensures var m, t, d := Alive(c.was[c.os + 1..i]), Alive(c.was[i + 1..c.oe + 1]), Pull(c, i, e, first);
            && Middle(c) == [first] + m + [e] + t && Middle(d) == [first] + m + t
            && Front(d) == Front(c) + [e] && Back(d) == Back(c)
  {
    MiddleBeforePull(c, i);
    MiddleAfterPull(c, i, e, first);
    GiveFront(c.neu, c.ns, c.ne, e);
  }

  lemma PullDom(c: Cfg, i: nat)
    requires DomOk(c) && Running(c) && c.os < i <= c.oe && c.was[c.os].Some? && c.was[i].Some?
    ensures DomOk(Pull(c, i, ElmOf(c.was[i].value), ElmOf(c.was[c.os].value)))
  {
    var e, first := ElmOf(c.was[i].value), ElmOf(c.was[c.os].value);
    PullParts(c, i, e, first);
    BackwardParts(c, Pull(c, i, e, first), Front(c), first, Alive(c.was[c.os + 1..i]), e, Alive(c.was[i + 1..c.oe + 1]),
        Back(c));
  }

  lemma CreateAt(p: seq<Elm>, x: Elm, q: seq<Elm>)
    requires Distinct(p + q) && x !in p + q
    ensures var now := InsertBefore(p + q, x, if q == [] then None else Some(q[0]));
            now == p + [x] + q && Distinct(now) && multiset(now) == multiset(p + q + [x])
  {
    assert x !in p && x !in q;
    InsertNew(p, x, q);
  }

  lemma CreateNew(p: seq<Elm>, x: Elm, m: seq<Elm>, s: seq<Elm>)
    requires Distinct(p + m + s) && x !in p + m + s
    ensures var now := InsertBefore(p + m + s, x, if m + s == [] then None else Some((m + s)[0]));
            now == (p + [x]) + m + s && Distinct(now) && multiset(now) == multiset(p + m + s + [x])
  {
    Regroup(p, m, s);
    CreateAt(p, x, m + s);
    Regroup(p + [x], m, s);
  }

  lemma BelowAll(was: seq<Elm>, now: seq<Elm>, x: Elm)
    requires (forall e <- was :: e < x) && multiset(now) == multiset(was + [x])
    ensures forall e <- now :: e < x + 1
  {
    SameMembers(was + [x], now, x + 1);
  }

  lemma CreateParts(c: Cfg, d: Cfg, p: seq<Elm>, m: seq<Elm>, s: seq<Elm>)
    requires DomOk(c) && Bounds(d) && d.next == c.next + 1
    requires Front(c) == p && Middle(c) == m && Back(c) == s
    requires Front(d) == p + [c.next] && Middle(d) == m && Back(d) == s
    requires d.dom == InsertBefore(c.dom, c.next, if m + s == [] then None else Some((m + s)[0]))
    ensures DomOk(d)
  {
    assert c.next !in c.dom;
    CreateNew(p, c.next, m, s);
    BelowAll(c.dom, d.dom, c.next);
  }

  lemma CreateFrame(c: Cfg, anchor: Option<Elm>)
    requires Bounds(c) && c.ns <= c.ne
    ensures var d := Create(c, anchor);
            Bounds(d) && Front(d) == Front(c) + [c.next] && Middle(d) == Middle(c) && Back(d) == Back(c)
  {
    GiveFront(c.neu, c.ns, c.ne, c.next);
  }

  /** A created element goes in front of whatever follows the finished prefix. */
  lemma CreateDom(c: Cfg)
    requires DomOk(c) && c.ns <= c.ne
    ensures var r := Middle(c) + Back(c); DomOk(Create(c, if r == [] then None else Some(r[0])))
  {
    var r := Middle(c) + Back(c);
    var anchor := if r == [] then None else Some(r[0]);
    CreateFrame(c, anchor);
    CreateParts(c, Create(c, anchor), Front(c), Middle(c), Back(c));
  }
}
