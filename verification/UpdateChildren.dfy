/** updateChildren: the two-ended keyed diff, run in place on the two child arrays and the DOM parent. */
module UpdateChildren {
  import opened Sequences
  import opened Wrappers
  import opened VDom
  import opened ChildDiff
  import opened DiffTurns
  import opened DiffResult

  method CreateKeyToOldIdx(children: array<Option<VNode>>, begin: nat, end: int) returns (m: map<Key, nat>)
    requires begin <= end + 1 <= children.Length
    requires forall i | begin <= i <= end :: children[i].Some?
    ensures IndexesKeys(children[..], begin, end, m)
  {
    m := map[];
    var i := begin;
    while i <= end
      invariant begin <= i <= end + 1
      invariant IndexesKeys(children[..], begin, i - 1, m)
    {
      var key := children[i].value.key;
      if key.Some? {
        m := m[key.value := i];
      }
      i := i + 1;
    }
  }

  /** findIdxInOld: the end index itself is not looked at. */
  method FindIdxInOld(node: VNode, oldCh: array<Option<VNode>>, start: nat, end: nat) returns (idx: Option<nat>)
    requires start <= end <= oldCh.Length
    ensures idx == FirstMatch(oldCh[..], node, start, end)
    ensures idx.Some? ==> start <= idx.value < end && oldCh[idx.value].Some?
                          && SameVnode(node, oldCh[idx.value].value)
    ensures forall i | start <= i < (if idx.Some? then idx.value else end) ::
              oldCh[i].None? || !SameVnode(node, oldCh[i].value)
  {
    var i := start;
    while i < end
      invariant start <= i <= end
      invariant FirstMatch(oldCh[..], node, start, end) == FirstMatch(oldCh[..], node, i, end)
      invariant forall k | start <= k < i :: oldCh[k].None? || !SameVnode(node, oldCh[k].value)
    {
      if oldCh[i].Some? && SameVnode(node, oldCh[i].value) {
        return Some(i);
      }
      i := i + 1;
    }
    return None;
  }

  // ---------- The parent element ----------

  /** `removed` is the history of the removals asked for. */
  class ParentNode {
    var kids: seq<Elm>
    var nextId: Elm
    ghost var removed: seq<Elm>

    method InsertBefore(x: Elm, anchor: Option<Elm>)
      modifies `kids
      ensures kids == VDom.InsertBefore(old(kids), x, anchor)
    {
      var rest := Without(kids, x);
      kids := if anchor.Some? then InFrontOf(rest, x, anchor.value) else rest + [x];
    }

    method RemoveChild(x: Elm)
      modifies `kids, `removed
      ensures kids == Without(old(kids), x) && removed == old(removed) + [x]
    {
      kids := Without(kids, x);
      removed := removed + [x];
    }

    /** createElm: a fresh element, inserted. */
    method CreateElm(anchor: Option<Elm>) returns (e: Elm)
      modifies `kids, `nextId
      ensures e == old(nextId) && nextId == e + 1 && kids == VDom.InsertBefore(old(kids), e, anchor)
    {
      e := nextId;
      nextId := nextId + 1;
      InsertBefore(e, anchor);
    }
  }

  /** patchVnode, as far as the diff is concerned: the new vnode takes over the old one's element. */
  method PatchVnode(oldVnode: VNode, newCh: array<VNode>, j: nat)
    requires j < newCh.Length && oldVnode.elm.Some?
    modifies newCh
    ensures newCh[..] == Give(old(newCh[..]), j, ElmOf(oldVnode))
  {
    newCh[j] := newCh[j].(elm := oldVnode.elm);
  }

  method SetElm(newCh: array<VNode>, j: nat, e: Elm)
    requires j < newCh.Length
    modifies newCh
    ensures newCh[..] == Give(old(newCh[..]), j, e)
  {
    newCh[j] := newCh[j].(elm := Some(e));
  }

  // ---------- The loop's variables ----------

  function At(oldCh: array<Option<VNode>>, i: int): Option<VNode>
    reads oldCh
  {
    if 0 <= i < oldCh.Length then oldCh[i] else None
  }

  /** The four indices, the two old vnodes read ahead, and the lazily built key map. */
  datatype Cursor = Cursor(os: int, oe: int, ns: int, ne: int,
                           oldStart: Option<VNode>, oldEnd: Option<VNode>, keys: Option<map<Key, nat>>)

  ghost function Snap(parent: ParentNode, oldCh: array<Option<VNode>>, newCh: array<VNode>, k: Cursor): Cfg
    reads parent, oldCh, newCh
  {
    Cfg(oldCh[..], newCh[..], parent.kids, k.os, k.oe, k.ns, k.ne, parent.nextId)
  }

  /** The vnodes read ahead are the ones in the array: no write to the array makes them stale. */
  ghost predicate ReadAhead(oldCh: array<Option<VNode>>, k: Cursor)
    reads oldCh
  {
    k.oldStart == At(oldCh, k.os) && k.oldEnd == At(oldCh, k.oe)
  }

  ghost predicate HaveElms(c: Cfg) {
    Bounds(c) && forall i | c.os <= i <= c.oe && c.was[i].Some? :: c.was[i].value.elm.Some?
  }

  /** The first six branches; `taken` is false when none of them applies. */
  method DirectBranch(parent: ParentNode, oldCh: array<Option<VNode>>, newCh: array<VNode>, k: Cursor)
    returns (taken: bool, k': Cursor)
    requires ReadAhead(oldCh, k) && HaveElms(Snap(parent, oldCh, newCh, k)) && Running(Snap(parent, oldCh, newCh, k))
    modifies parent`kids, parent`nextId, newCh
    ensures taken == Direct(old(Snap(parent, oldCh, newCh, k)))
    ensures taken ==> Snap(parent, oldCh, newCh, k') == DirectTurn(old(Snap(parent, oldCh, newCh, k)))
    ensures taken ==> k'.keys == k.keys && ReadAhead(oldCh, k')
    ensures !taken ==> k' == k && Snap(parent, oldCh, newCh, k) == old(Snap(parent, oldCh, newCh, k))
  {
    taken, k' := true, k;
    if k.oldStart.None? {
      k' := k'.(os := k.os + 1, oldStart := At(oldCh, k.os + 1));
    } else if k.oldEnd.None? {
      k' := k'.(oe := k.oe - 1, oldEnd := At(oldCh, k.oe - 1));
    } else if SameVnode(k.oldStart.value, newCh[k.ns]) {
      PatchVnode(k.oldStart.value, newCh, k.ns);
      k' := k'.(os := k.os + 1, oldStart := At(oldCh, k.os + 1), ns := k.ns + 1);
    } else if SameVnode(k.oldEnd.value, newCh[k.ne]) {
      PatchVnode(k.oldEnd.value, newCh, k.ne);
      k' := k'.(oe := k.oe - 1, oldEnd := At(oldCh, k.oe - 1), ne := k.ne - 1);
    } else if SameVnode(k.oldStart.value, newCh[k.ne]) {
      PatchVnode(k.oldStart.value, newCh, k.ne);
      parent.InsertBefore(ElmOf(k.oldStart.value), NextSibling(parent.kids, ElmOf(k.oldEnd.value)));
      k' := k'.(os := k.os + 1, oldStart := At(oldCh, k.os + 1), ne := k.ne - 1);
    } else if SameVnode(k.oldEnd.value, newCh[k.ns]) {
      PatchVnode(k.oldEnd.value, newCh, k.ns);
      parent.InsertBefore(ElmOf(k.oldEnd.value), Some(ElmOf(k.oldStart.value)));
      k' := k'.(oe := k.oe - 1, oldEnd := At(oldCh, k.oe - 1), ns := k.ns + 1);
    } else {
      taken := false;
    }
  }

  method PullHere(parent: ParentNode, oldCh: array<Option<VNode>>, newCh: array<VNode>, k: Cursor, i: nat, first: Elm)
    requires 0 <= k.ns < newCh.Length && i < oldCh.Length && oldCh[i].Some? && oldCh[i].value.elm.Some?
    modifies parent`kids, parent`nextId, oldCh, newCh
    ensures Snap(parent, oldCh, newCh, k.(ns := k.ns + 1)) ==
            Pull(old(Snap(parent, oldCh, newCh, k)), i, ElmOf(old(oldCh[i].value)), first)
  {
    var vnodeToMove := oldCh[i].value;
    PatchVnode(vnodeToMove, newCh, k.ns);
    oldCh[i] := None;
    parent.InsertBefore(ElmOf(vnodeToMove), Some(first));
  }

  method CreateHere(parent: ParentNode, oldCh: array<Option<VNode>>, newCh: array<VNode>, k: Cursor,
                    anchor: Option<Elm>)
    requires 0 <= k.ns < newCh.Length
    modifies parent`kids, parent`nextId, newCh
    ensures Snap(parent, oldCh, newCh, k.(ns := k.ns + 1)) == Create(old(Snap(parent, oldCh, newCh, k)), anchor)
  {
    var e := parent.CreateElm(anchor);
    SetElm(newCh, k.ns, e);
  }

  method Lookup(node: VNode, oldCh: array<Option<VNode>>, os: nat, oe: nat, m: map<Key, nat>) returns (idx: Option<nat>)
    requires os <= oe < oldCh.Length
    ensures idx == Find(oldCh[..], node, os, oe, m)
  {
    if node.key.Some? {
      idx := if node.key.value in m then Some(m[node.key.value]) else None;
    } else {
      idx := FindIdxInOld(node, oldCh, os, oe);
    }
  }

  /** The last branch. Neither end of the old range is undefined by it, so what was read ahead stays right. */
  method LookupBranch(parent: ParentNode, oldCh: array<Option<VNode>>, newCh: array<VNode>, k: Cursor, m: map<Key, nat>)
    returns (k': Cursor)
    requires ReadAhead(oldCh, k) && HaveElms(Snap(parent, oldCh, newCh, k))
    requires Running(Snap(parent, oldCh, newCh, k)) && !Direct(Snap(parent, oldCh, newCh, k))
    requires FindsWaiting(Snap(parent, oldCh, newCh, k), m)
    modifies parent`kids, parent`nextId, oldCh, newCh
    ensures Snap(parent, oldCh, newCh, k') == PlaceTurn(old(Snap(parent, oldCh, newCh, k)), m)
    ensures k'.keys == k.keys && ReadAhead(oldCh, k')
  {
    var node, first := newCh[k.ns], ElmOf(k.oldStart.value);
    var idx := Lookup(node, oldCh, k.os, k.oe, m);
    k' := k.(ns := k.ns + 1);
    if idx.Some? && SameVnode(oldCh[idx.value].value, node) {
      PullHere(parent, oldCh, newCh, k, idx.value, first);
    } else {
      CreateHere(parent, oldCh, newCh, k, Some(first));
    }
  }

  /** One turn of the loop: it keeps the invariant and uses up one entry of one of the arrays at least. */
  method Turn(parent: ParentNode, oldCh: array<Option<VNode>>, newCh: array<VNode>, k: Cursor,
              ghost old0: seq<VNode>, ghost new0: seq<VNode>, ghost base: Elm, ghost src: seq<Option<nat>>)
    returns (k': Cursor, ghost src': seq<Option<nat>>)
    requires TurnOk(old0, new0, base, Snap(parent, oldCh, newCh, k), src, k.keys)
    requires ReadAhead(oldCh, k) && Running(Snap(parent, oldCh, newCh, k))
    modifies parent`kids, parent`nextId, oldCh, newCh
    ensures TurnOk(old0, new0, base, Snap(parent, oldCh, newCh, k'), src', k'.keys) && ReadAhead(oldCh, k')
    ensures k'.oe - k'.os + k'.ne - k'.ns < k.oe - k.os + k.ne - k.ns
  {
    ghost var c := Snap(parent, oldCh, newCh, k);
    var taken;
    taken, k' := DirectBranch(parent, oldCh, newCh, k);
    if taken {
      src' := DirectTurnKeeps(old0, new0, base, c, src, k.keys);
    } else {
      if k'.keys.None? {
        var m := CreateKeyToOldIdx(oldCh, k.os, k.oe);
        k' := k'.(keys := Some(m));
        KeysBuilt(old0, new0, c, m);
      }
      src' := PlaceTurnKeeps(old0, new0, base, c, src, k'.keys.value);
      k' := LookupBranch(parent, oldCh, newCh, k', k'.keys.value);
    }
  }

  /** addVnodes: the rest of the new vnodes, all in front of the same element. */
  method AddVnodes(parent: ParentNode, refElm: Option<Elm>, oldCh: array<Option<VNode>>, newCh: array<VNode>, k: Cursor)
    returns (k': Cursor)
    requires 0 <= k.ns <= k.ne + 1 <= newCh.Length && refElm == Following(newCh[..], k.ne)
    modifies parent`kids, parent`nextId, newCh
    ensures Snap(parent, oldCh, newCh, k') == AddAll(old(Snap(parent, oldCh, newCh, k)))
  {
    k' := k;
    while k'.ns <= k.ne
      invariant 0 <= k'.ns <= k.ne + 1 && k'.ne == k.ne
      invariant AddAll(Snap(parent, oldCh, newCh, k')) == AddAll(old(Snap(parent, oldCh, newCh, k)))
      invariant refElm == Following(newCh[..], k.ne)
      decreases k.ne - k'.ns
    {
      CreateHere(parent, oldCh, newCh, k', refElm);
      k' := k'.(ns := k'.ns + 1);
    }
  }

  method DropHere(parent: ParentNode, oldCh: array<Option<VNode>>, ghost newCh: array<VNode>, k: Cursor)
    returns (k': Cursor)
    requires 0 <= k.os < oldCh.Length
    modifies parent`kids, parent`removed
    ensures k' == k.(os := k.os + 1) && Snap(parent, oldCh, newCh, k') == Drop(old(Snap(parent, oldCh, newCh, k)))
    ensures parent.removed == old(parent.removed) + Survivor(oldCh[k.os])
  {
    if oldCh[k.os].Some? {
      parent.RemoveChild(ElmOf(oldCh[k.os].value));
    }
    k' := k.(os := k.os + 1);
  }

  /** The next survivor goes over to what has been removed. */
  lemma OneRemoved(removed: seq<Elm>, was: seq<Option<VNode>>, i: nat, hi: nat)
    requires i < hi <= |was|
    ensures removed + Alive(was[i..hi]) == removed + Survivor(was[i]) + Alive(was[i + 1..hi])
  {
    MiddleOff(was, i, hi);
    Regroup(removed, Survivor(was[i]), Alive(was[i + 1..hi]));
  }

  method RemoveOne(parent: ParentNode, oldCh: array<Option<VNode>>, ghost newCh: array<VNode>, k: Cursor,
                   ghost was: seq<Option<VNode>>, ghost hi: nat)
    returns (k': Cursor)
    requires oldCh[..] == was && 0 <= k.os < hi <= |was|
    modifies parent`kids, parent`removed
    ensures k' == k.(os := k.os + 1) && Snap(parent, oldCh, newCh, k') == Drop(old(Snap(parent, oldCh, newCh, k)))
    ensures parent.removed + Alive(was[k'.os..hi]) == old(parent.removed) + Alive(was[k.os..hi])
  {
    assert was[k.os] == oldCh[k.os];
    OneRemoved(parent.removed, was, k.os, hi);
    k' := DropHere(parent, oldCh, newCh, k);
  }

  /** removeVnodes: what is left of the old range goes. */
  method RemoveVnodes(parent: ParentNode, oldCh: array<Option<VNode>>, ghost newCh: array<VNode>, k: Cursor)
    returns (k': Cursor)
    requires 0 <= k.os <= k.oe + 1 <= oldCh.Length
    modifies parent`kids, parent`removed
    ensures Snap(parent, oldCh, newCh, k') == DropAll(old(Snap(parent, oldCh, newCh, k)))
    ensures parent.removed == old(parent.removed) + Alive(oldCh[..][k.os..k.oe + 1])
  {
    k' := k;
    ghost var was, hi := oldCh[..], k.oe + 1;
    ghost var all := parent.removed + Alive(was[k.os..hi]);
    while k'.os <= k.oe
      invariant k.os <= k'.os <= hi && k'.oe == k.oe
      invariant DropAll(Snap(parent, oldCh, newCh, k')) == DropAll(old(Snap(parent, oldCh, newCh, k)))
      invariant parent.removed + Alive(was[k'.os..hi]) == all
      decreases k.oe - k'.os
    {
      k' := RemoveOne(parent, oldCh, newCh, k', was, hi);
    }
    NothingBeside(parent.removed);
  }

  method RunLoop(parent: ParentNode, oldCh: array<Option<VNode>>, newCh: array<VNode>, ghost old0: seq<VNode>)
    returns (k: Cursor, ghost src: seq<Option<nat>>)
    requires oldCh[..] == Entries(old0) && InputOk(old0, newCh[..], parent.kids, parent.nextId)
    modifies parent`kids, parent`nextId, oldCh, newCh
    ensures TurnOk(old0, old(newCh[..]), old(parent.nextId), Snap(parent, oldCh, newCh, k), src, k.keys)
    ensures !Running(Snap(parent, oldCh, newCh, k))
  {
    ghost var new0, base := newCh[..], parent.nextId;
    k := Cursor(0, oldCh.Length - 1, 0, newCh.Length - 1, At(oldCh, 0), At(oldCh, oldCh.Length - 1), None);
    src := Nothing(newCh.Length);
    Starts(old0, new0, base, Snap(parent, oldCh, newCh, k));
    while k.os <= k.oe && k.ns <= k.ne
      invariant TurnOk(old0, new0, base, Snap(parent, oldCh, newCh, k), src, k.keys) && ReadAhead(oldCh, k)
      decreases k.oe - k.os + k.ne - k.ns
    {
      k, src := Turn(parent, oldCh, newCh, k, old0, new0, base, src);
    }
  }

  /** What follows the loop: add the rest of the new vnodes or remove the rest of the old ones. */
  method FinishLoop(parent: ParentNode, oldCh: array<Option<VNode>>, newCh: array<VNode>, k: Cursor)
    returns (k': Cursor)
    requires Bounds(Snap(parent, oldCh, newCh, k))
    requires forall j | 0 <= j < newCh.Length :: newCh[j].elm.Some? <==> Done(Snap(parent, oldCh, newCh, k), j)
    modifies parent, newCh
    ensures Snap(parent, oldCh, newCh, k') == FinishOff(old(Snap(parent, oldCh, newCh, k)))
    ensures parent.removed == old(parent.removed) + if k.ns > k.ne then old(Middle(Snap(parent, oldCh, newCh, k)))
            else []
  {
    k' := k;
    if k.os > k.oe {
      var refElm := if k.ne + 1 < newCh.Length then newCh[k.ne + 1].elm else None;
      k' := AddVnodes(parent, refElm, oldCh, newCh, k);
    } else if k.ns > k.ne {
      k' := RemoveVnodes(parent, oldCh, newCh, k);
    }
  }

  /**
   * updateChildren, with moves allowed: the parent ends up with exactly the new vnodes' elements in order, every
   * element comes from where it may, and exactly the old elements that are not kept have been removed, each once.
   */
  method UpdateChildren(parent: ParentNode, oldCh: array<Option<VNode>>, newCh: array<VNode>, ghost old0: seq<VNode>)
    returns (ghost src: seq<Option<nat>>, ghost gone: seq<Elm>)
    requires oldCh[..] == Entries(old0) && InputOk(old0, newCh[..], parent.kids, parent.nextId)
    modifies parent, oldCh, newCh
    ensures Patched(old0, old(newCh[..]), old(parent.nextId), newCh[..], parent.kids, src)
    ensures parent.removed == old(parent.removed) + gone && Removed(old(parent.kids), parent.kids, gone)
  {
    var k;
    k, src := RunLoop(parent, oldCh, newCh, old0);
    ghost var c := Snap(parent, oldCh, newCh, k);
    gone := Middle(c);
    src := FinishesOff(old0, old(newCh[..]), old(parent.nextId), c, src);
    k := FinishLoop(parent, oldCh, newCh, k);
  }
}
