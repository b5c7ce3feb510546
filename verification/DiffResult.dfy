/** How the diff starts and ends, and what its result says about every old and every new vnode. */
module DiffResult {
  import opened Sequences
  import opened Wrappers
  import opened VDom
  import opened ChildDiff
  import opened DiffTurns

  // ---------- The start ----------

  function Entries(vs: seq<VNode>): seq<Option<VNode>> {
    seq(|vs|, i requires 0 <= i < |vs| => Some(vs[i]))
  }

  lemma {:induction false} AllAlive(vs: seq<VNode>)
    ensures Alive(Entries(vs)) == Elms(vs)
  {
    if vs != [] {
      assert Entries(vs)[1..] == Entries(vs[1..]);
      AllAlive(vs[1..]);
      assert Elms(vs) == [ElmOf(vs[0])] + Elms(vs[1..]);
    }
  }

  function Nothing(n: nat): seq<Option<nat>> { seq(n, _ => None) }

  lemma Starts(old0: seq<VNode>, new0: seq<VNode>, base: Elm, c: Cfg)
    requires InputOk(old0, new0, c.dom, base)
    requires c.was == Entries(old0) && c.neu == new0 && c.next == base
    requires c.os == 0 && c.oe == |old0| - 1 && c.ns == 0 && c.ne == |new0| - 1
    ensures TurnOk(old0, new0, base, c, Nothing(|new0|), None)
  {
    AllAlive(old0);
    assert c.was[c.os..c.oe + 1] == c.was;
    assert Front(c) == [] && Back(c) == [];
  }

  // ---------- Adding the rest ----------

  /** addVnodes' reference element: the one that follows the new range, which adding does not change. */
  function Following(neu: seq<VNode>, ne: int): Option<Elm>
    requires -1 <= ne < |neu|
  {
    if ne + 1 < |neu| then Some(ElmOf(neu[ne + 1])) else None
  }

  lemma AddKeeps(old0: seq<VNode>, new0: seq<VNode>, base: Elm, c: Cfg, src: seq<Option<nat>>)
    requires DiffInv(old0, new0, base, c, src) && base <= c.next && DistinctKeys(new0) && c.os > c.oe && c.ns <= c.ne
    ensures DiffInv(old0, new0, base, Create(c, Following(c.neu, c.ne)), src[c.ns := None])
  {
    NobodyLeft(old0, new0, base, c, src);
    CreateInv(old0, new0, base, c, src);
    assert Middle(c) == [];
    assert Middle(c) + Back(c) == Back(c);
  }

  // ---------- Removing the rest ----------

  /** The first old entry of the range taken out of the parent, if it is still there. */
  function Drop(c: Cfg): Cfg
    requires 0 <= c.os < |c.was|
  {
    if c.was[c.os].Some? then c.(os := c.os + 1, dom := Without(c.dom, ElmOf(c.was[c.os].value))) else SkipStart(c)
  }

  lemma DistinctFewer(p: seq<Elm>, x: Elm, q: seq<Elm>)
    requires Distinct(p + [x] + q)
    ensures Distinct(p + q) && Without(p + [x] + q, x) == p + q
  {
    DistinctParts(p, x, q);
    WithoutAt(p, x, q);
    forall y ensures multiset(p + q)[y] <= 1 {
      assert multiset(p + [x] + q)[y] <= 1;
    }
  }

  lemma DropParts(p: seq<Elm>, x: Elm, m: seq<Elm>, s: seq<Elm>, next: Elm)
    requires Distinct(p + ([x] + m) + s) && forall e <- p + ([x] + m) + s :: e < next
    ensures Distinct(p + m + s) && Without(p + ([x] + m) + s, x) == p + m + s
    ensures forall e <- p + m + s :: e < next
  {
    forall e | e in p + m + s ensures e < next {
      assert e in p + ([x] + m) + s;
    }
    assert p + ([x] + m) + s == p + [x] + (m + s);
    DistinctFewer(p, x, m + s);
    assert p + (m + s) == p + m + s;
  }

  lemma DropMiddle(c: Cfg)
    requires Bounds(c) && c.os <= c.oe
    ensures Middle(c) == Survivor(c.was[c.os]) + Middle(Drop(c)) && Front(c) == Front(Drop(c))
            && Back(c) == Back(Drop(c))
  {
    StartOff(c);
  }

  lemma DropFrom(c: Cfg, d: Cfg, p: seq<Elm>, x: Elm, m: seq<Elm>, s: seq<Elm>)
    requires DomOk(c) && Bounds(d) && d.next == c.next && d.dom == Without(c.dom, x)
    requires Front(c) == p == Front(d) && Middle(c) == [x] + m && Middle(d) == m && Back(c) == s == Back(d)
    ensures DomOk(d)
  {
    DropParts(p, x, m, s, c.next);
  }

  lemma DropKeeps(c: Cfg)
    requires DomOk(c) && c.os <= c.oe
    ensures DomOk(Drop(c))
    ensures Middle(c) == Survivor(c.was[c.os]) + Middle(Drop(c))
  {
    DropMiddle(c);
    if c.was[c.os].Some? {
      DropFrom(c, Drop(c), Front(c), ElmOf(c.was[c.os].value), Middle(Drop(c)), Back(c));
    } else {
      assert Middle(c) == Middle(Drop(c));
    }
  }

  lemma {:induction false} InAlive(was: seq<Option<VNode>>, e: Elm)
    ensures e in Alive(was) <==> exists i :: 0 <= i < |was| && was[i].Some? && ElmOf(was[i].value) == e
  {
    if was != [] {
      InAlive(was[1..], e);
      if e in Alive(was[1..]) {
        var i :| 0 <= i < |was[1..]| && was[1..][i].Some? && ElmOf(was[1..][i].value) == e;
        assert was[i + 1] == was[1..][i];
      }
      forall i | 0 <= i < |was| && was[i].Some? && ElmOf(was[i].value) == e ensures e in Alive(was) {
        if i > 0 {
          assert was[1..][i - 1] == was[i];
        }
      }
    }
  }

  lemma InMiddle(c: Cfg, e: Elm)
    requires Bounds(c)
    ensures e in Middle(c) <==> exists i :: c.os <= i <= c.oe && c.was[i].Some? && ElmOf(c.was[i].value) == e
  {
    var range := c.was[c.os..c.oe + 1];
    InAlive(range, e);
    if e in Middle(c) {
      var i :| 0 <= i < |range| && range[i].Some? && ElmOf(range[i].value) == e;
      assert c.was[c.os + i] == range[i];
    }
    forall i | c.os <= i <= c.oe && c.was[i].Some? && ElmOf(c.was[i].value) == e ensures e in Middle(c) {
      assert range[i - c.os] == c.was[i];
    }
  }

  lemma MiddleApart(p: seq<Elm>, m: seq<Elm>, s: seq<Elm>, e: Elm)
    requires Distinct(p + m + s)
    ensures Distinct(m) && Distinct(p + s) && (e in m ==> e !in p + s)
  {
    assert multiset(p + m + s) == multiset(p + s) + multiset(m);
    forall y ensures multiset(m)[y] <= 1 && multiset(p + s)[y] <= 1 {
      assert multiset(p + m + s)[y] <= 1;
    }
    assert multiset(p + m + s)[e] <= 1;
  }

  /** An old vnode that has been dealt with has given its element away. */
  lemma GoneIsInUse(old0: seq<VNode>, new0: seq<VNode>, base: Elm, c: Cfg, src: seq<Option<nat>>, i: nat)
    requires Sources(old0, new0, c, src, base) && Bounds(c) && i < |old0| && Gone(c, i)
    ensures ElmOf(old0[i]) in Front(c) + Back(c)
  {
    assert KeptBySomeone(c, src, i);
    var j :| 0 <= j < |src| && Done(c, j) && src[j] == Some(i);
    assert SourceOk(old0, new0, c, src, base, j);
    InPlace(c, j);
  }

  /** When every new vnode has its element, the survivors of the old range are exactly the old elements not in use. */
  lemma UnusedInMiddle(old0: seq<VNode>, new0: seq<VNode>, base: Elm, c: Cfg, src: seq<Option<nat>>, e: Elm)
    requires Old(old0) && DiffInv(old0, new0, base, c, src) && c.ns > c.ne
    ensures e in Middle(c) <==> e in Elms(old0) && e !in Front(c) + Back(c)
  {
    InMiddle(c, e);
    MiddleApart(Front(c), Middle(c), Back(c), e);
    if e in Middle(c) {
      var i :| c.os <= i <= c.oe && c.was[i].Some? && ElmOf(c.was[i].value) == e;
      assert c.was[i] == Some(old0[i]);
      assert Elms(old0)[i] == e;
    }
    if e in Elms(old0) && e !in Front(c) + Back(c) {
      var i :| 0 <= i < |old0| && Elms(old0)[i] == e;
      if Gone(c, i) {
        GoneIsInUse(old0, new0, base, c, src, i);
        assert false;
      }
    }
  }

  lemma InPlace(c: Cfg, j: int)
    requires Bounds(c) && Done(c, j)
    ensures ElmOf(c.neu[j]) in Front(c) + Back(c)
  {
    if j < c.ns {
      assert Front(c)[j] == ElmOf(c.neu[j]);
    } else {
      assert Back(c)[j - (c.ne + 1)] == ElmOf(c.neu[j]);
    }
  }

  /** What has been taken out: each once, and exactly the old elements that no new vnode keeps. */
  ghost predicate Removed(before: seq<Elm>, after: seq<Elm>, gone: seq<Elm>) {
    Distinct(gone) && forall e :: e in gone <==> e in before && e !in after
  }

  // ---------- The result ----------

  /** Where each new vnode's element comes from: an old vnode that sameVnode accepts, or it was created. */
  ghost predicate FromSource(old0: seq<VNode>, v: VNode, v0: VNode, from: Option<nat>, base: Elm) {
    match from
    case None => v.elm.Some? && base <= v.elm.value
    case Some(i) => i < |old0| && v.elm == old0[i].elm && SameVnode(old0[i], v0)
  }

  /** No old element goes whose vnode fits a new vnode for which an element was created. */
  ghost predicate NoneMissed(old0: seq<VNode>, new0: seq<VNode>, dom: seq<Elm>, src: seq<Option<nat>>)
    requires |src| == |new0|
  {
    forall i, j | 0 <= i < |old0| && 0 <= j < |new0| && src[j].None? && ElmOf(old0[i]) !in dom ::
      !Fits(new0[j], old0[i])
  }

  /** The parent holds the new vnodes' elements in order; only elements changed; nothing that must be kept is lost. */
  ghost predicate Patched(old0: seq<VNode>, new0: seq<VNode>, base: Elm, neu: seq<VNode>, dom: seq<Elm>,
                          src: seq<Option<nat>>) {
    && |neu| == |new0| == |src|
    && dom == Elms(neu) && Distinct(dom)
    && (forall j | 0 <= j < |neu| ::
          neu[j] == new0[j].(elm := neu[j].elm) && FromSource(old0, neu[j], new0[j], src[j], base))
    && (forall i, j | 0 <= i < |old0| && 0 <= j < |neu| && MustKeep(old0[i], new0[j]) :: src[j] == Some(i))
    && NoneMissed(old0, new0, dom, src)
  }

  lemma NoneMissedAtEnd(old0: seq<VNode>, new0: seq<VNode>, base: Elm, c: Cfg, src: seq<Option<nat>>)
    requires Sources(old0, new0, c, src, base) && Bounds(c) && c.ns > c.ne
    ensures NoneMissed(old0, new0, Front(c) + Back(c), src)
  {
    forall i, j | 0 <= i < |old0| && 0 <= j < |new0| && src[j].None? && ElmOf(old0[i]) !in Front(c) + Back(c)
      ensures !Fits(new0[j], old0[i])
    {
      if Gone(c, i) {
        GoneIsInUse(old0, new0, base, c, src, i);
      }
      assert Done(c, j);
    }
  }

  lemma PatchedAtEnd(old0: seq<VNode>, new0: seq<VNode>, base: Elm, c: Cfg, src: seq<Option<nat>>)
    requires Shape(old0, new0, c) && Sources(old0, new0, c, src, base) && c.ns > c.ne && Distinct(Front(c) + Back(c))
    ensures Patched(old0, new0, base, c.neu, Front(c) + Back(c), src)
  {
    assert c.neu[..c.ns] + c.neu[c.ne + 1..] == c.neu;
    NoneMissedAtEnd(old0, new0, base, c, src);
    forall j | 0 <= j < |c.neu|
      ensures c.neu[j] == new0[j].(elm := c.neu[j].elm) && FromSource(old0, c.neu[j], new0[j], src[j], base)
    {
      assert Done(c, j) && SourceOk(old0, new0, c, src, base, j);
    }
  }

  lemma RemovedAtEnd(old0: seq<VNode>, new0: seq<VNode>, base: Elm, c: Cfg, src: seq<Option<nat>>)
    requires Old(old0) && DiffInv(old0, new0, base, c, src) && c.ns > c.ne
    ensures Removed(Elms(old0), Front(c) + Back(c), Middle(c)) && Distinct(Front(c) + Back(c))
  {
    MiddleApart(Front(c), Middle(c), Back(c), 0);
    forall e ensures e in Middle(c) <==> e in Elms(old0) && e !in Front(c) + Back(c) {
      UnusedInMiddle(old0, new0, base, c, src, e);
    }
  }

  // ---------- The two ways to finish ----------

  function AddAll(c: Cfg): Cfg
    requires 0 <= c.ns <= c.ne + 1 <= |c.neu|
    decreases c.ne - c.ns
  {
    if c.ns > c.ne then c else AddAll(Create(c, Following(c.neu, c.ne)))
  }

  function DropAll(c: Cfg): Cfg
    requires 0 <= c.os <= c.oe + 1 <= |c.was|
    decreases c.oe - c.os
  {
    if c.os > c.oe then c else DropAll(Drop(c))
  }

  lemma {:induction false} AddAllKeeps(old0: seq<VNode>, new0: seq<VNode>, base: Elm, c: Cfg, src: seq<Option<nat>>)
    returns (src': seq<Option<nat>>)
    requires DiffInv(old0, new0, base, c, src) && base <= c.next && DistinctKeys(new0) && c.os > c.oe
    ensures DiffInv(old0, new0, base, AddAll(c), src') && AddAll(c).ns == AddAll(c).ne + 1
            && AddAll(c).os > AddAll(c).oe
    decreases c.ne - c.ns
  {
    src' := src;
    if c.ns <= c.ne {
      AddKeeps(old0, new0, base, c, src);
      src' := AddAllKeeps(old0, new0, base, Create(c, Following(c.neu, c.ne)), src[c.ns := None]);
    }
  }

  lemma {:induction false} DropAllKeeps(c: Cfg)
    requires DomOk(c)
    ensures DropAll(c).dom == Front(c) + Back(c)
    decreases c.oe - c.os
  {
    if c.os <= c.oe {
      DropKeeps(c);
      DropAllKeeps(Drop(c));
      DropMiddle(c);
    }
  }

  /** The state after the loop is finished off: what is left is added or removed. */
  function FinishOff(c: Cfg): Cfg
    requires Bounds(c)
  {
    if c.os > c.oe then AddAll(c) else if c.ns > c.ne then DropAll(c) else c
  }

  lemma AddingFinishes(old0: seq<VNode>, new0: seq<VNode>, base: Elm, c: Cfg, src: seq<Option<nat>>)
    returns (src': seq<Option<nat>>)
    requires Old(old0) && DistinctKeys(new0) && DiffInv(old0, new0, base, c, src) && base <= c.next && c.os > c.oe
    ensures Patched(old0, new0, base, AddAll(c).neu, AddAll(c).dom, src')
    ensures Removed(Elms(old0), AddAll(c).dom, [])
  {
    src' := AddAllKeeps(old0, new0, base, c, src);
    NothingLeft(old0, new0, base, AddAll(c), src');
  }

  lemma NoMiddle(c: Cfg)
    requires DomOk(c) && c.os > c.oe
    ensures Middle(c) == [] && c.dom == Front(c) + Back(c)
  {
  }

  lemma NothingLeft(old0: seq<VNode>, new0: seq<VNode>, base: Elm, c: Cfg, src: seq<Option<nat>>)
    requires Old(old0) && DiffInv(old0, new0, base, c, src) && c.ns > c.ne && c.os > c.oe
    ensures Patched(old0, new0, base, c.neu, c.dom, src) && Removed(Elms(old0), c.dom, [])
  {
    NoMiddle(c);
    FullyPlaced(old0, new0, base, c, src);
  }

  lemma RemovingFinishes(old0: seq<VNode>, new0: seq<VNode>, base: Elm, c: Cfg, src: seq<Option<nat>>)
    requires Old(old0) && DiffInv(old0, new0, base, c, src) && c.ns > c.ne
    ensures Patched(old0, new0, base, DropAll(c).neu, DropAll(c).dom, src)
    ensures Removed(Elms(old0), DropAll(c).dom, Middle(c))
  {
    FullyPlaced(old0, new0, base, c, src);
    DropAllKeeps(c);
    DropAllNeu(c);
  }

  lemma FinishesOff(old0: seq<VNode>, new0: seq<VNode>, base: Elm, c: Cfg, src: seq<Option<nat>>)
    returns (src': seq<Option<nat>>)
    requires Old(old0) && DistinctKeys(new0) && DiffInv(old0, new0, base, c, src) && base <= c.next && !Running(c)
    ensures Patched(old0, new0, base, FinishOff(c).neu, FinishOff(c).dom, src')
    ensures Removed(Elms(old0), FinishOff(c).dom, Middle(c))
  {
    if c.os > c.oe {
      src' := AddingFinishes(old0, new0, base, c, src);
      assert Middle(c) == [];
    } else {
      src' := src;
      RemovingFinishes(old0, new0, base, c, src);
    }
  }

  lemma FullyPlaced(old0: seq<VNode>, new0: seq<VNode>, base: Elm, c: Cfg, src: seq<Option<nat>>)
    requires Old(old0) && DiffInv(old0, new0, base, c, src) && c.ns > c.ne
    ensures Patched(old0, new0, base, c.neu, Front(c) + Back(c), src)
            && Removed(Elms(old0), Front(c) + Back(c), Middle(c))
  {
    RemovedAtEnd(old0, new0, base, c, src);
    PatchedAtEnd(old0, new0, base, c, src);
  }

  lemma {:induction false} DropAllNeu(c: Cfg)
    requires Bounds(c)
    ensures DropAll(c).neu == c.neu
    decreases c.oe - c.os
  {
    if c.os <= c.oe {
      DropAllNeu(Drop(c));
    }
  }

  /** No element is shared: two new vnodes with one element are the same vnode. */
  lemma ElmsDiffer(vs: seq<VNode>, i: nat, j: nat)
    requires Distinct(Elms(vs)) && i < j < |vs|
    ensures ElmOf(vs[i]) != ElmOf(vs[j])
  {
    var es := Elms(vs);
    assert es == es[..i] + [es[i]] + es[i + 1..];
    DistinctParts(es[..i], es[i], es[i + 1..]);
    assert es[j] == es[i + 1..][j - i - 1];
  }

  ghost predicate Keeps(v: VNode, o: VNode) { v.elm == o.elm }

  /** Reuse is exact: an old element in the parent is kept by exactly one new vnode, and sameVnode accepts the pair. */
  lemma OldKeptOnceOrGone(old0: seq<VNode>, new0: seq<VNode>, base: Elm, dom0: seq<Elm>, neu: seq<VNode>, dom: seq<Elm>,
                          src: seq<Option<nat>>, i: nat)
    requires InputOk(old0, new0, dom0, base) && Patched(old0, new0, base, neu, dom, src) && i < |old0|
    ensures ElmOf(old0[i]) in dom <==> exists j :: 0 <= j < |neu| && Keeps(neu[j], old0[i])
    ensures forall j | 0 <= j < |neu| && Keeps(neu[j], old0[i]) :: SameVnode(old0[i], new0[j]) && src[j] == Some(i)
    ensures forall j, k | 0 <= j < |neu| && 0 <= k < |neu| && Keeps(neu[j], old0[i]) && Keeps(neu[k], old0[i]) :: j == k
  {
    assert dom0[i] == ElmOf(old0[i]) && dom0[i] in dom0;
    if ElmOf(old0[i]) in dom {
      var j :| 0 <= j < |dom| && dom[j] == ElmOf(old0[i]);
      assert FromSource(old0, neu[j], new0[j], src[j], base);
      assert Keeps(neu[j], old0[i]);
    }
    forall j | 0 <= j < |neu| && Keeps(neu[j], old0[i])
           ensures SameVnode(old0[i], new0[j]) && src[j] == Some(i) && ElmOf(old0[i]) in dom {
      assert FromSource(old0, neu[j], new0[j], src[j], base);
      assert dom[j] == ElmOf(neu[j]);
      var k := src[j].value;
      if k < i {
        ElmsDiffer(old0, k, i);
      } else if i < k {
        ElmsDiffer(old0, i, k);
      }
    }
    forall j, k | 0 <= j < |neu| && 0 <= k < |neu| && Keeps(neu[j], old0[i]) && Keeps(neu[k], old0[i]) ensures j == k {
      if j < k {
        ElmsDiffer(neu, j, k);
      } else if k < j {
        ElmsDiffer(neu, k, j);
      }
    }
  }

  /**
   Reuse is complete for keys: a keyed new vnode keeps the element of the old vnode with its key whenever sameVnode
   allows.
   */
  lemma KeyedAlwaysKept(old0: seq<VNode>, new0: seq<VNode>, base: Elm, dom0: seq<Elm>, neu: seq<VNode>, dom: seq<Elm>,
                        src: seq<Option<nat>>, i: nat, j: nat)
    requires InputOk(old0, new0, dom0, base) && Patched(old0, new0, base, neu, dom, src)
    requires i < |old0| && j < |new0| && new0[j].key.Some? && old0[i].key == new0[j].key
    ensures Keeps(neu[j], old0[i]) <==> SameVnode(old0[i], new0[j])
    ensures SameVnode(old0[i], new0[j]) ==> dom[j] == dom0[i]
  {
    assert FromSource(old0, neu[j], new0[j], src[j], base);
    OldKeptOnceOrGone(old0, new0, base, dom0, neu, dom, src, i);
    if SameVnode(old0[i], new0[j]) {
      assert MustKeep(old0[i], new0[j]);
    }
  }

  lemma KeptIsOld(old0: seq<VNode>, new0: seq<VNode>, base: Elm, dom0: seq<Elm>, neu: seq<VNode>, dom: seq<Elm>,
                  src: seq<Option<nat>>, j: nat)
    requires InputOk(old0, new0, dom0, base) && Patched(old0, new0, base, neu, dom, src) && j < |new0|
    ensures src[j].Some? ==> ElmOf(neu[j]) in dom0
  {
    assert FromSource(old0, neu[j], new0[j], src[j], base);
    if src[j].Some? {
      assert dom0[src[j].value] == ElmOf(old0[src[j].value]);
    }
  }

  /**
   Reuse is as large as it can be: an old vnode whose element goes and a new one whose element was created are never a
   pair that sameVnode accepts in either order, async placeholders apart.
   */
  lemma NoReuseMissed(old0: seq<VNode>, new0: seq<VNode>, base: Elm, dom0: seq<Elm>, neu: seq<VNode>, dom: seq<Elm>,
                      src: seq<Option<nat>>, i: nat, j: nat)
    requires InputOk(old0, new0, dom0, base) && Patched(old0, new0, base, neu, dom, src)
    requires i < |old0| && ElmOf(old0[i]) !in dom && j < |new0| && ElmOf(neu[j]) !in dom0
    requires !new0[j].isAsyncPlaceholder
    ensures !SameVnode(new0[j], old0[i])
    ensures !old0[i].isAsyncPlaceholder ==> !SameVnode(old0[i], new0[j])
  {
    KeptIsOld(old0, new0, base, dom0, neu, dom, src, j);
    assert !Fits(new0[j], old0[i]);
  }

  /**
   A new vnode that is such a placeholder can miss its match: the scan stops at an old vnode that sameVnode accepts only
   in the order the scan asks in, and an element is created although the next old vnode would do in both.
   */
  lemma PlaceholderMisses(c: Cfg, div: VNode, node: VNode, near: VNode, span: VNode)
    requires div == VNode(None, Some("div"), false, None, false, None, Some(1))
    requires node == VNode(None, Some("p"), false, None, true, Some(Factory(7, false)), None)
    requires near == node.(tag := Some("ul"), isAsyncPlaceholder := false, elm := Some(2))
    requires span == div.(tag := Some("span"), elm := Some(4))
    requires c == Cfg(Entries([div, near, node.(elm := Some(3)), span]), [node], [1, 2, 3, 4], 0, 3, 0, 0, 5)
    ensures Running(c) && !Direct(c) && FindsWaiting(c, map[])
    ensures PlaceTurn(c, map[]) == Create(c, Some(1))
    ensures SameVnode(node, c.was[2].value) && SameVnode(c.was[2].value, node)
  {
    var idx := FirstMatch(c.was, node, 0, 3);
    assert !Accepts(c.was, node, 0) && Accepts(c.was, node, 1);
    assert idx == Some(1);
  }
}
