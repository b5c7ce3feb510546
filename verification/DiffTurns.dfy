/** One turn of the diff's loop: which branch is taken, what it does to the state, and that it keeps the invariant. */
module DiffTurns {
  import opened Wrappers
  import opened VDom
  import opened ChildDiff

  // ---------- One lemma for each branch of the loop ----------

  lemma KeepStartFacts(old0: seq<VNode>, new0: seq<VNode>, base: Elm, c: Cfg, src: seq<Option<nat>>)
    requires Old(old0) && Shape(old0, new0, c) && Sources(old0, new0, c, src, base) && Running(c)
    requires c.was[c.os].Some? && SameVnode(c.was[c.os].value, c.neu[c.ns])
    ensures var d := KeepStart(c, ElmOf(c.was[c.os].value));
            Shape(old0, new0, d) && Sources(old0, new0, d, src[c.ns := Some(c.os)], base)
  {
    Takes(old0, new0, base, c, KeepStart(c, ElmOf(c.was[c.os].value)), src, c.os, c.ns);
  }

  lemma KeepStartInv(old0: seq<VNode>, new0: seq<VNode>, base: Elm, c: Cfg, src: seq<Option<nat>>)
    requires Old(old0) && DiffInv(old0, new0, base, c, src) && Running(c)
    requires c.was[c.os].Some? && SameVnode(c.was[c.os].value, c.neu[c.ns])
    ensures DiffInv(old0, new0, base, KeepStart(c, ElmOf(c.was[c.os].value)), src[c.ns := Some(c.os)])
  {
    KeepStartDom(c);
    KeepStartFacts(old0, new0, base, c, src);
  }

  lemma KeepEndFacts(old0: seq<VNode>, new0: seq<VNode>, base: Elm, c: Cfg, src: seq<Option<nat>>)
    requires Old(old0) && Shape(old0, new0, c) && Sources(old0, new0, c, src, base) && Running(c)
    requires c.was[c.oe].Some? && SameVnode(c.was[c.oe].value, c.neu[c.ne])
    ensures var d := KeepEnd(c, ElmOf(c.was[c.oe].value));
            Shape(old0, new0, d) && Sources(old0, new0, d, src[c.ne := Some(c.oe)], base)
  {
    Takes(old0, new0, base, c, KeepEnd(c, ElmOf(c.was[c.oe].value)), src, c.oe, c.ne);
  }

  lemma KeepEndInv(old0: seq<VNode>, new0: seq<VNode>, base: Elm, c: Cfg, src: seq<Option<nat>>)
    requires Old(old0) && DiffInv(old0, new0, base, c, src) && Running(c)
    requires c.was[c.oe].Some? && SameVnode(c.was[c.oe].value, c.neu[c.ne])
    ensures DiffInv(old0, new0, base, KeepEnd(c, ElmOf(c.was[c.oe].value)), src[c.ne := Some(c.oe)])
  {
    KeepEndDom(c);
    KeepEndFacts(old0, new0, base, c, src);
  }

  lemma StartToEndFacts(old0: seq<VNode>, new0: seq<VNode>, base: Elm, c: Cfg, src: seq<Option<nat>>)
    requires Old(old0) && Shape(old0, new0, c) && Sources(old0, new0, c, src, base) && Running(c)
    requires c.was[c.os].Some? && c.was[c.oe].Some?
    requires !SameVnode(c.was[c.oe].value, c.neu[c.ne]) && SameVnode(c.was[c.os].value, c.neu[c.ne])
    ensures var d := StartToEnd(c, ElmOf(c.was[c.os].value), ElmOf(c.was[c.oe].value));
            Shape(old0, new0, d) && Sources(old0, new0, d, src[c.ne := Some(c.os)], base)
  {
    Takes(old0, new0, base, c, StartToEnd(c, ElmOf(c.was[c.os].value), ElmOf(c.was[c.oe].value)), src, c.os, c.ne);
  }

  lemma StartToEndInv(old0: seq<VNode>, new0: seq<VNode>, base: Elm, c: Cfg, src: seq<Option<nat>>)
    requires Old(old0) && DiffInv(old0, new0, base, c, src) && Running(c)
    requires c.was[c.os].Some? && c.was[c.oe].Some?
    requires !SameVnode(c.was[c.oe].value, c.neu[c.ne]) && SameVnode(c.was[c.os].value, c.neu[c.ne])
    ensures DiffInv(old0, new0, base, StartToEnd(c, ElmOf(c.was[c.os].value), ElmOf(c.was[c.oe].value)),
            src[c.ne := Some(c.os)])
  {
    StartToEndDom(c);
    StartToEndFacts(old0, new0, base, c, src);
  }

  lemma EndToStartFacts(old0: seq<VNode>, new0: seq<VNode>, base: Elm, c: Cfg, src: seq<Option<nat>>)
    requires Old(old0) && Shape(old0, new0, c) && Sources(old0, new0, c, src, base) && Running(c)
    requires c.was[c.os].Some? && c.was[c.oe].Some?
    requires !SameVnode(c.was[c.os].value, c.neu[c.ns]) && SameVnode(c.was[c.oe].value, c.neu[c.ns])
    ensures var d := EndToStart(c, ElmOf(c.was[c.oe].value), ElmOf(c.was[c.os].value));
            Shape(old0, new0, d) && Sources(old0, new0, d, src[c.ns := Some(c.oe)], base)
  {
    Takes(old0, new0, base, c, EndToStart(c, ElmOf(c.was[c.oe].value), ElmOf(c.was[c.os].value)), src, c.oe, c.ns);
  }

  lemma EndToStartInv(old0: seq<VNode>, new0: seq<VNode>, base: Elm, c: Cfg, src: seq<Option<nat>>)
    requires Old(old0) && DiffInv(old0, new0, base, c, src) && Running(c)
    requires c.was[c.os].Some? && c.was[c.oe].Some?
    requires !SameVnode(c.was[c.os].value, c.neu[c.ns]) && SameVnode(c.was[c.oe].value, c.neu[c.ns])
    ensures DiffInv(old0, new0, base, EndToStart(c, ElmOf(c.was[c.oe].value), ElmOf(c.was[c.os].value)),
            src[c.ns := Some(c.oe)])
  {
    EndToStartDom(c);
    EndToStartFacts(old0, new0, base, c, src);
  }

  lemma PullFacts(old0: seq<VNode>, new0: seq<VNode>, base: Elm, c: Cfg, src: seq<Option<nat>>, i: nat)
    requires Old(old0) && Shape(old0, new0, c) && Sources(old0, new0, c, src, base) && Running(c)
    requires c.os <= i <= c.oe && c.was[c.os].Some? && c.was[i].Some?
    requires !SameVnode(c.was[c.os].value, c.neu[c.ns]) && SameVnode(c.was[i].value, c.neu[c.ns])
    ensures var d := Pull(c, i, ElmOf(c.was[i].value), ElmOf(c.was[c.os].value));
            Shape(old0, new0, d) && Sources(old0, new0, d, src[c.ns := Some(i)], base)
  {
    Takes(old0, new0, base, c, Pull(c, i, ElmOf(c.was[i].value), ElmOf(c.was[c.os].value)), src, i, c.ns);
  }

  lemma PullInv(old0: seq<VNode>, new0: seq<VNode>, base: Elm, c: Cfg, src: seq<Option<nat>>, i: nat)
    requires Old(old0) && DiffInv(old0, new0, base, c, src) && Running(c)
    requires c.os <= i <= c.oe && c.was[c.os].Some? && c.was[i].Some?
    requires !SameVnode(c.was[c.os].value, c.neu[c.ns]) && SameVnode(c.was[i].value, c.neu[c.ns])
    ensures DiffInv(old0, new0, base, Pull(c, i, ElmOf(c.was[i].value), ElmOf(c.was[c.os].value)), src[c.ns := Some(i)])
  {
    PullDom(c, i);
    PullFacts(old0, new0, base, c, src, i);
  }

  lemma SkipStartFacts(old0: seq<VNode>, new0: seq<VNode>, base: Elm, c: Cfg, src: seq<Option<nat>>)
    requires Shape(old0, new0, c) && Sources(old0, new0, c, src, base) && Running(c) && c.was[c.os].None?
    ensures Shape(old0, new0, SkipStart(c)) && Sources(old0, new0, SkipStart(c), src, base)
  {
    SkipsKeepSources(old0, new0, base, c, SkipStart(c), src);
  }

  lemma SkipStartInv(old0: seq<VNode>, new0: seq<VNode>, base: Elm, c: Cfg, src: seq<Option<nat>>)
    requires DiffInv(old0, new0, base, c, src) && Running(c) && c.was[c.os].None?
    ensures DiffInv(old0, new0, base, SkipStart(c), src)
  {
    SkipStartDom(c);
    SkipStartFacts(old0, new0, base, c, src);
  }

  lemma SkipEndFacts(old0: seq<VNode>, new0: seq<VNode>, base: Elm, c: Cfg, src: seq<Option<nat>>)
    requires Shape(old0, new0, c) && Sources(old0, new0, c, src, base) && Running(c) && c.was[c.oe].None?
    ensures Shape(old0, new0, SkipEnd(c)) && Sources(old0, new0, SkipEnd(c), src, base)
  {
    SkipsKeepSources(old0, new0, base, c, SkipEnd(c), src);
  }

  lemma SkipEndInv(old0: seq<VNode>, new0: seq<VNode>, base: Elm, c: Cfg, src: seq<Option<nat>>)
    requires DiffInv(old0, new0, base, c, src) && Running(c) && c.was[c.oe].None?
    ensures DiffInv(old0, new0, base, SkipEnd(c), src)
  {
    SkipEndDom(c);
    SkipEndFacts(old0, new0, base, c, src);
  }

  /**
   What a created element goes in front of: the first surviving old element, else the finished suffix, else nothing.
   */
  ghost function Anchor(c: Cfg): Option<Elm>
    requires Bounds(c)
  {
    var r := Middle(c) + Back(c);
    if r == [] then None else Some(r[0])
  }

  lemma CreateFacts(old0: seq<VNode>, new0: seq<VNode>, base: Elm, c: Cfg, src: seq<Option<nat>>, anchor: Option<Elm>)
    requires Shape(old0, new0, c) && Sources(old0, new0, c, src, base) && c.ns <= c.ne && base <= c.next
    requires forall i | 0 <= i < |old0| :: !MustKeep(old0[i], new0[c.ns])
    requires forall i | 0 <= i < |old0| && !Gone(c, i) :: !Fits(new0[c.ns], old0[i])
    ensures Shape(old0, new0, Create(c, anchor)) && Sources(old0, new0, Create(c, anchor), src[c.ns := None], base)
  {
    Creates(old0, new0, base, c, Create(c, anchor), src, c.ns);
  }

  lemma CreateInv(old0: seq<VNode>, new0: seq<VNode>, base: Elm, c: Cfg, src: seq<Option<nat>>)
    requires DiffInv(old0, new0, base, c, src) && c.ns <= c.ne && base <= c.next
    requires forall i | 0 <= i < |old0| :: !MustKeep(old0[i], new0[c.ns])
    requires forall i | 0 <= i < |old0| && !Gone(c, i) :: !Fits(new0[c.ns], old0[i])
    ensures DiffInv(old0, new0, base, Create(c, Anchor(c)), src[c.ns := None])
  {
    CreateDom(c);
    CreateFacts(old0, new0, base, c, src, Anchor(c));
  }

  ghost predicate Old(old0: seq<VNode>) {
    DistinctKeys(old0) && forall i | 0 <= i < |old0| :: old0[i].elm.Some?
  }

  // ---------- The lookup of old vnodes ----------

  /** The map from key to old index is right for every old vnode still waiting. */
  ghost predicate KeyMapOk(old0: seq<VNode>, c: Cfg, m: map<Key, nat>)
    requires |c.was| == |old0|
  {
    && (forall k <- m :: m[k] < |old0| && old0[m[k]].key == Some(k))
    && (forall i | 0 <= i < |old0| && !Gone(c, i) && old0[i].key.Some? ::
        old0[i].key.value in m && m[old0[i].key.value] == i)
  }

  /** No old vnode must give its element to a keyed new vnode that the map does not know. */
  lemma NobodyMustKeep(old0: seq<VNode>, new0: seq<VNode>, base: Elm, c: Cfg, src: seq<Option<nat>>, m: map<Key, nat>)
    requires Shape(old0, new0, c) && Sources(old0, new0, c, src, base) && DistinctKeys(new0) && c.ns <= c.ne
             && KeyMapOk(old0, c, m)
    requires new0[c.ns].key.Some? ==>
               new0[c.ns].key.value !in m || !SameVnode(old0[m[new0[c.ns].key.value]], new0[c.ns])
    ensures forall i | 0 <= i < |old0| :: !MustKeep(old0[i], new0[c.ns])
  {
    forall i | 0 <= i < |old0| ensures !MustKeep(old0[i], new0[c.ns]) {
      if MustKeep(old0[i], new0[c.ns]) {
        KeyStillWaits(old0, new0, base, c, src, i, c.ns);
      }
    }
  }

  /** Once the old range is used up, every keyed old vnode has been kept by the new vnode with its key. */
  lemma NobodyLeft(old0: seq<VNode>, new0: seq<VNode>, base: Elm, c: Cfg, src: seq<Option<nat>>)
    requires Shape(old0, new0, c) && Sources(old0, new0, c, src, base) && DistinctKeys(new0) && c.ns <= c.ne
             && c.os > c.oe
    ensures forall i | 0 <= i < |old0| :: !MustKeep(old0[i], new0[c.ns])
  {
    forall i | 0 <= i < |old0| ensures !MustKeep(old0[i], new0[c.ns]) {
      if MustKeep(old0[i], new0[c.ns]) {
        KeyStillWaits(old0, new0, base, c, src, i, c.ns);
      }
    }
  }

  /** What createKeyToOldIdx returns: the last index of each key in the range. */
  ghost predicate IndexesKeys(was: seq<Option<VNode>>, begin: int, end: int, m: map<Key, nat>)
    requires 0 <= begin <= end + 1 <= |was| && forall i | begin <= i <= end :: was[i].Some?
  {
    && (forall k <- m :: begin <= m[k] <= end && was[m[k]].value.key == Some(k))
    && (forall i | begin <= i <= end && was[i].value.key.Some? ::
        was[i].value.key.value in m && m[was[i].value.key.value] >= i)
  }

  /** The entry is not undefined, and sameVnode accepts it for the node. */
  predicate Accepts(was: seq<Option<VNode>>, node: VNode, i: int) {
    0 <= i < |was| && was[i].Some? && SameVnode(node, was[i].value)
  }

  /** The first entry of the range that is not undefined and that sameVnode accepts. */
  function FirstMatch(was: seq<Option<VNode>>, node: VNode, lo: nat, hi: nat): (idx: Option<nat>)
    requires lo <= hi <= |was|
    ensures idx.Some? ==> lo <= idx.value < hi && Accepts(was, node, idx.value)
    ensures forall i | lo <= i < (if idx.Some? then idx.value else hi) :: !Accepts(was, node, i)
    decreases hi - lo
  {
    if lo == hi then None
    else if Accepts(was, node, lo) then Some(lo)
    else FirstMatch(was, node, lo + 1, hi)
  }

  // ---------- One turn of the loop, on the state as a value ----------

  /** The six branches that need no lookup. */
  ghost predicate Direct(c: Cfg)
    requires Running(c)
  {
    || c.was[c.os].None? || c.was[c.oe].None?
    || SameVnode(c.was[c.os].value, c.neu[c.ns]) || SameVnode(c.was[c.oe].value, c.neu[c.ne])
    || SameVnode(c.was[c.os].value, c.neu[c.ne]) || SameVnode(c.was[c.oe].value, c.neu[c.ns])
  }

  ghost function DirectTurn(c: Cfg): Cfg
    requires Running(c) && Direct(c)
  {
    if c.was[c.os].None? then SkipStart(c)
    else if c.was[c.oe].None? then SkipEnd(c)
    else
      var first, last := c.was[c.os].value, c.was[c.oe].value;
      if SameVnode(first, c.neu[c.ns]) then KeepStart(c, ElmOf(first))
      else if SameVnode(last, c.neu[c.ne]) then KeepEnd(c, ElmOf(last))
      else if SameVnode(first, c.neu[c.ne]) then StartToEnd(c, ElmOf(first), ElmOf(last))
      else EndToStart(c, ElmOf(last), ElmOf(first))
  }

  /** Where the next new vnode's match is looked for: by key in the map, without a key by a scan. */
  function Find(was: seq<Option<VNode>>, node: VNode, os: nat, oe: nat, m: map<Key, nat>): Option<nat>
    requires os <= oe < |was|
  {
    if node.key.Some? then (if node.key.value in m then Some(m[node.key.value]) else None)
    else FirstMatch(was, node, os, oe)
  }

  ghost predicate FindsWaiting(c: Cfg, m: map<Key, nat>)
    requires Running(c)
  {
    var idx := Find(c.was, c.neu[c.ns], c.os, c.oe, m);
    idx.Some? ==> c.os <= idx.value <= c.oe && c.was[idx.value].Some?
  }

  /** The last branch: pull the match to the front of the old range, or create an element there. */
  ghost function PlaceTurn(c: Cfg, m: map<Key, nat>): Cfg
    requires Running(c) && !Direct(c) && FindsWaiting(c, m)
  {
    var idx := Find(c.was, c.neu[c.ns], c.os, c.oe, m);
    var first := ElmOf(c.was[c.os].value);
    if idx.Some? && SameVnode(c.was[idx.value].value, c.neu[c.ns])
    then Pull(c, idx.value, ElmOf(c.was[idx.value].value), first)
    else Create(c, Some(first))
  }

  /** Until the key map is built nothing is undefined; once built it stays right. */
  ghost predicate KeysOk(old0: seq<VNode>, c: Cfg, keys: Option<map<Key, nat>>)
    requires |c.was| == |old0| && Bounds(c)
  {
    match keys
    case None => forall i | c.os <= i <= c.oe :: c.was[i].Some?
    case Some(m) => KeyMapOk(old0, c, m)
  }

  lemma KeysStay(old0: seq<VNode>, c: Cfg, d: Cfg, keys: Option<map<Key, nat>>)
    requires |c.was| == |old0| == |d.was| && Bounds(c) && Bounds(d) && KeysOk(old0, c, keys)
    requires forall i :: Gone(c, i) ==> Gone(d, i)
    requires keys.None? ==> d.was == c.was && c.os <= d.os && d.oe <= c.oe
    ensures KeysOk(old0, d, keys)
  {
  }

  lemma KeysBuilt(old0: seq<VNode>, new0: seq<VNode>, c: Cfg, m: map<Key, nat>)
    requires Old(old0) && Shape(old0, new0, c) && KeysOk(old0, c, None) && IndexesKeys(c.was, c.os, c.oe, m)
    ensures KeyMapOk(old0, c, m)
  {
  }

  /** What the loop relies on: the fixed inputs and the invariant of the diff. */
  ghost predicate TurnOk(old0: seq<VNode>, new0: seq<VNode>, base: Elm, c: Cfg, src: seq<Option<nat>>,
                         keys: Option<map<Key, nat>>) {
    && Old(old0) && DistinctKeys(new0)
    && DiffInv(old0, new0, base, c, src) && base <= c.next
    && KeysOk(old0, c, keys)
  }

  lemma DirectTurnKeeps(old0: seq<VNode>, new0: seq<VNode>, base: Elm, c: Cfg, src: seq<Option<nat>>,
                        keys: Option<map<Key, nat>>)
    returns (src': seq<Option<nat>>)
    requires TurnOk(old0, new0, base, c, src, keys) && Running(c) && Direct(c)
    ensures TurnOk(old0, new0, base, DirectTurn(c), src', keys)
  {
    src' := DirectInv(old0, new0, base, c, src);
    DirectMoves(c);
    KeysStay(old0, c, DirectTurn(c), keys);
  }

  /** What the direct branches leave alone. */
  lemma DirectMoves(c: Cfg)
    requires Running(c) && Direct(c)
    ensures var d := DirectTurn(c);
            && d.was == c.was && d.next == c.next && c.os <= d.os && d.oe <= c.oe && Bounds(d)
            && (forall i :: Gone(c, i) ==> Gone(d, i))
  {
  }

  lemma DirectInv(old0: seq<VNode>, new0: seq<VNode>, base: Elm, c: Cfg, src: seq<Option<nat>>)
    returns (src': seq<Option<nat>>)
    requires Old(old0) && DiffInv(old0, new0, base, c, src) && Running(c) && Direct(c)
    ensures DiffInv(old0, new0, base, DirectTurn(c), src')
  {
    src' := src;
    if c.was[c.os].None? {
      SkipStartInv(old0, new0, base, c, src);
    } else if c.was[c.oe].None? {
      SkipEndInv(old0, new0, base, c, src);
    } else {
      var first, last := c.was[c.os].value, c.was[c.oe].value;
      if SameVnode(first, c.neu[c.ns]) {
        KeepStartInv(old0, new0, base, c, src);
        src' := src[c.ns := Some(c.os)];
      } else if SameVnode(last, c.neu[c.ne]) {
        KeepEndInv(old0, new0, base, c, src);
        src' := src[c.ne := Some(c.oe)];
      } else if SameVnode(first, c.neu[c.ne]) {
        StartToEndInv(old0, new0, base, c, src);
        src' := src[c.ne := Some(c.os)];
      } else {
        EndToStartInv(old0, new0, base, c, src);
        src' := src[c.ns := Some(c.oe)];
      }
    }
  }

  /** The map never leads to an entry that has been dealt with. */
  lemma FoundWaits(old0: seq<VNode>, new0: seq<VNode>, base: Elm, c: Cfg, src: seq<Option<nat>>, m: map<Key, nat>)
    requires TurnOk(old0, new0, base, c, src, Some(m)) && Running(c)
    ensures FindsWaiting(c, m)
    ensures var key := new0[c.ns].key;
            c.neu[c.ns].key == key && (key.Some? && key.value in m ==> c.was[m[key.value]] == Some(old0[m[key.value]]))
  {
    var key := new0[c.ns].key;
    if key.Some? && key.value in m {
      KeyStillWaits(old0, new0, base, c, src, m[key.value], c.ns);
    }
  }

  lemma SameOnBoth(new0: seq<VNode>, c: Cfg, v: VNode)
    requires 0 <= c.ns < |new0| == |c.neu| && c.neu[c.ns] == new0[c.ns].(elm := c.neu[c.ns].elm)
    ensures SameVnode(v, c.neu[c.ns]) == SameVnode(v, new0[c.ns])
  {
    SameVnodeIgnoresElm(v, new0[c.ns], v.elm, c.neu[c.ns].elm);
  }

  /** Where an element is created although old vnodes still wait, none of them fits. */
  ghost predicate NoneFits(old0: seq<VNode>, c: Cfg, node: VNode)
    requires |c.was| == |old0|
  {
    forall i | 0 <= i < |old0| && !Gone(c, i) :: !Fits(node, old0[i])
  }

  /** The scan leaves the last index out, but the branches before it have looked there. */
  lemma ScanMissesNone(old0: seq<VNode>, new0: seq<VNode>, c: Cfg, i: int)
    requires Shape(old0, new0, c) && Running(c) && !Direct(c) && c.os <= i <= c.oe && c.was[i].Some?
    requires var idx := FirstMatch(c.was, c.neu[c.ns], c.os, c.oe);
             idx.None? || !SameVnode(c.was[idx.value].value, c.neu[c.ns])
    ensures !Fits(new0[c.ns], old0[i])
  {
    var node := c.neu[c.ns];
    assert node == new0[c.ns].(elm := node.elm) && c.was[i].value == old0[i];
    SameVnodeIgnoresElm(new0[c.ns], old0[i], node.elm, old0[i].elm);
    var idx := FirstMatch(c.was, node, c.os, c.oe);
    if Fits(node, old0[i]) {
      FitsBothWays(node, old0[i]);
      assert i < c.oe ==> Accepts(c.was, node, i);
    }
  }

  lemma PlaceMissesNone(old0: seq<VNode>, new0: seq<VNode>, base: Elm, c: Cfg, src: seq<Option<nat>>, m: map<Key, nat>)
    requires TurnOk(old0, new0, base, c, src, Some(m)) && Running(c) && !Direct(c)
    requires var idx := Find(c.was, c.neu[c.ns], c.os, c.oe, m);
             && FindsWaiting(c, m)
             && (idx.Some? ==> !SameVnode(c.was[idx.value].value, c.neu[c.ns]))
    requires forall i | 0 <= i < |old0| :: !MustKeep(old0[i], new0[c.ns])
    ensures NoneFits(old0, c, new0[c.ns])
  {
    forall i | 0 <= i < |old0| && !Gone(c, i) ensures !Fits(new0[c.ns], old0[i]) {
      if new0[c.ns].key.None? {
        ScanMissesNone(old0, new0, c, i);
      } else if Fits(new0[c.ns], old0[i]) {
        FitsBothWays(new0[c.ns], old0[i]);
      }
    }
  }

  lemma CreateTurnKeeps(old0: seq<VNode>, new0: seq<VNode>, base: Elm, c: Cfg, src: seq<Option<nat>>, m: map<Key, nat>)
    requires TurnOk(old0, new0, base, c, src, Some(m)) && Running(c) && c.was[c.os].Some?
    requires new0[c.ns].key.Some? ==>
               new0[c.ns].key.value !in m || !SameVnode(old0[m[new0[c.ns].key.value]], new0[c.ns])
    requires !Direct(c) && FindsWaiting(c, m)
    requires var idx := Find(c.was, c.neu[c.ns], c.os, c.oe, m);
             idx.Some? ==> !SameVnode(c.was[idx.value].value, c.neu[c.ns])
    ensures TurnOk(old0, new0, base, Create(c, Some(ElmOf(c.was[c.os].value))), src[c.ns := None], Some(m))
  {
    NobodyMustKeep(old0, new0, base, c, src, m);
    PlaceMissesNone(old0, new0, base, c, src, m);
    CreateInv(old0, new0, base, c, src);
    StartOff(c);
    assert Anchor(c) == Some(ElmOf(c.was[c.os].value));
    KeysStay(old0, c, Create(c, Anchor(c)), Some(m));
  }

  lemma PullTurnKeeps(old0: seq<VNode>, new0: seq<VNode>, base: Elm, c: Cfg, src: seq<Option<nat>>, m: map<Key, nat>,
                      i: nat)
    requires TurnOk(old0, new0, base, c, src, Some(m)) && Running(c) && c.os <= i <= c.oe
    requires c.was[c.os].Some? && c.was[i].Some?
    requires !SameVnode(c.was[c.os].value, c.neu[c.ns]) && SameVnode(c.was[i].value, c.neu[c.ns])
    ensures TurnOk(old0, new0, base, Pull(c, i, ElmOf(c.was[i].value), ElmOf(c.was[c.os].value)), src[c.ns := Some(i)],
            Some(m))
  {
    PullInv(old0, new0, base, c, src, i);
    KeysStay(old0, c, Pull(c, i, ElmOf(c.was[i].value), ElmOf(c.was[c.os].value)), Some(m));
  }

  lemma PlaceTurnKeeps(old0: seq<VNode>, new0: seq<VNode>, base: Elm, c: Cfg, src: seq<Option<nat>>, m: map<Key, nat>)
    returns (src': seq<Option<nat>>)
    requires TurnOk(old0, new0, base, c, src, Some(m)) && Running(c) && !Direct(c)
    ensures FindsWaiting(c, m) && TurnOk(old0, new0, base, PlaceTurn(c, m), src', Some(m))
  {
    FoundWaits(old0, new0, base, c, src, m);
    var idx := Find(c.was, c.neu[c.ns], c.os, c.oe, m);
    if idx.Some? && SameVnode(c.was[idx.value].value, c.neu[c.ns]) {
      PullTurnKeeps(old0, new0, base, c, src, m, idx.value);
      src' := src[c.ns := Some(idx.value)];
    } else {
      if idx.Some? {
        SameOnBoth(new0, c, c.was[idx.value].value);
      }
      CreateTurnKeeps(old0, new0, base, c, src, m);
      src' := src[c.ns := None];
    }
  }
}
