/** Which watcher depends on what: subscriptions and dependency lists as values, and what evaluations should leave. */
module DepGraph {
  import opened Sequences
  import opened Wrappers

  type WatcherId = nat
  type DepId = nat

  /** A watcher's four collections. */
  datatype Watching = Watching(deps: seq<DepId>, newDeps: seq<DepId>, depIds: set<DepId>, newDepIds: set<DepId>)

  datatype Graph = Graph(
    subs: map<DepId, seq<WatcherId>>,
    watching: map<WatcherId, Watching>,
    torn: set<WatcherId>,
    target: Option<WatcherId>,
    stack: seq<WatcherId>)

  const EMPTY := Watching([], [], {}, {})

  function SubsOf(g: Graph, d: DepId): seq<WatcherId> {
    if d in g.subs then g.subs[d] else []
  }

  function Of(g: Graph, w: WatcherId): Watching {
    if w in g.watching then g.watching[w] else EMPTY
  }

  /** The watchers under evaluation. */
  function Busy(g: Graph): set<WatcherId> {
    (if g.target.Some? then {g.target.value} else {}) + set w | w in g.stack
  }

  // ---------- The reference: what each evaluation of a watcher has read ----------

  /**
   What a getter does: read a property, have another watcher evaluated, pass on a watcher's dependencies, tear a
   watcher down, or run a hook under pushTarget() without a watcher.
   */
  datatype Act =
    | Read(dep: DepId)
    | Evaluate(w: WatcherId, body: seq<Act>)
    | DependOn(w: WatcherId)
    | Destroy(w: WatcherId)
    | Untracked(body: seq<Act>)

  /** The reads of each finished evaluation of each watcher; for a torn one, how many had finished before. */
  datatype Past = Past(history: map<WatcherId, seq<set<DepId>>>, tornAt: map<WatcherId, nat>)

  const NO_PAST := Past(map[], map[])

  function Evaluations(m: Past, w: WatcherId): seq<set<DepId>> {
    if w in m.history then m.history[w] else []
  }

  /** What the watcher has read in its last finished evaluation. */
  function LastReads(m: Past, w: WatcherId): set<DepId> {
    var all := Evaluations(m, w);
    if all == [] then {} else all[|all| - 1]
  }

  /** The dep was read in the last evaluation before the teardown and in every one since. */
  ghost predicate Lost(m: Past, w: WatcherId, d: DepId) {
    && w in m.tornAt && m.tornAt[w] > 0
    && forall k | m.tornAt[w] - 1 <= k < |Evaluations(m, w)| :: d in Evaluations(m, w)[k]
  }

  function Finished(m: Past, w: WatcherId, seen: set<DepId>): Past {
    m.(history := m.history[w := Evaluations(m, w) + [seen]])
  }

  function Torn(m: Past, w: WatcherId): Past {
    if w in m.tornAt then m else m.(tornAt := m.tornAt[w := |Evaluations(m, w)|])
  }

  /** What `acts` read for the watcher that performs them, and what has happened afterwards. */
  function Track(m: Past, acts: seq<Act>): (set<DepId>, Past)
    decreases acts
  {
    if acts == [] then ({}, m)
    else
      var (r, m') := TrackOne(m, acts[0]);
      var (rs, m'') := Track(m', acts[1..]);
      (r + rs, m'')
  }

  function TrackOne(m: Past, a: Act): (set<DepId>, Past)
    decreases a
  {
    match a
    case Read(d) => ({d}, m)
    case Evaluate(w, body) =>
      var (r, m') := Track(m, body);
      ({}, Finished(m', w, r))
    case DependOn(w) => (LastReads(m, w), m)
    case Destroy(w) => ({}, Torn(m, w))
    case Untracked(body) => ({}, Track(m, body).1)
  }

  /** One read after the other. */
  function Reading(ds: seq<DepId>): (acts: seq<Act>)
    ensures |acts| == |ds|
  {
    if ds == [] then [] else [Read(ds[0])] + Reading(ds[1..])
  }

  /** Acts that do not push a target. */
  predicate Quiet(acts: seq<Act>) {
    forall a <- acts :: !a.Evaluate? && !a.Untracked?
  }

  /**
   No watcher is evaluated inside its own evaluation, and inside an evaluation what runs without a target pushes
   none.
   */
  predicate Fit(acts: seq<Act>, busy: set<WatcherId>) {
    acts == [] || (FitOne(acts[0], busy) && Fit(acts[1..], busy))
  }

  predicate FitOne(a: Act, busy: set<WatcherId>) {
    match a
    case Evaluate(w, body) => w !in busy && Fit(body, busy + {w})
    case Untracked(body) => if busy == {} then Fit(body, {}) else Quiet(body)
    case _ => true
  }

  // ---------- The invariant ----------

  /** The watcher has noted the dep, and has not lost it by its teardown. */
  ghost predicate Linked(g: Graph, m: Past, w: WatcherId, d: DepId) {
    (d in Of(g, w).depIds || d in Of(g, w).newDepIds) && !Lost(m, w, d)
  }

  ghost predicate SubExact(g: Graph, m: Past, w: WatcherId, d: DepId) {
    multiset(SubsOf(g, d))[w] == if Linked(g, m, w, d) then 1 else 0
  }

  /** Each dep has each watcher linked to it exactly once among its subscribers, and no other. */
  ghost predicate SubsExact(g: Graph, m: Past) {
    forall w: WatcherId, d: DepId :: SubExact(g, m, w, d)
  }

  ghost predicate WatchingOk(x: Watching) {
    && x.depIds == Elems(x.deps) && NoDuplicates(x.deps)
    && x.newDepIds == Elems(x.newDeps) && NoDuplicates(x.newDeps)
  }

  /** A watcher's deps are what it read last; of the teardowns both tell the same. */
  ghost predicate Agrees(g: Graph, m: Past) {
    && (forall w :: Of(g, w).depIds == LastReads(m, w))
    && g.torn == m.tornAt.Keys
    && (forall w <- m.tornAt :: m.tornAt[w] <= |Evaluations(m, w)|)
  }

  ghost predicate AllWatchingOk(g: Graph) { forall w :: WatchingOk(Of(g, w)) }

  /** Only watchers under evaluation, and u, have new deps. */
  ghost predicate NewDepsOnly(g: Graph, u: Option<WatcherId>) {
    forall w | w !in Busy(g) && Some(w) != u :: Of(g, w).newDeps == []
  }

  ghost predicate Ok(g: Graph, m: Past) {
    SubsExact(g, m) && Agrees(g, m) && AllWatchingOk(g) && NewDepsOnly(g, None)
  }

  /** Between two acts of an evaluation, or of none. */
  ghost predicate Ready(g: Graph, m: Past) {
    Ok(g, m) && (g.target.None? ==> g.stack == [])
  }

  // ---------- The operations ----------

  function AddSub(g: Graph, d: DepId, w: WatcherId): Graph {
    g.(subs := g.subs[d := SubsOf(g, d) + [w]])
  }

  function RemoveSub(g: Graph, d: DepId, w: WatcherId): Graph {
    g.(subs := g.subs[d := Without(SubsOf(g, d), w)])
  }

  function Put(g: Graph, w: WatcherId, x: Watching): Graph { g.(watching := g.watching[w := x]) }

  function AddDep(g: Graph, w: WatcherId, d: DepId): Graph {
    var x := Of(g, w);
    if d in x.newDepIds then g
    else
      var h := Put(g, w, x.(newDepIds := x.newDepIds + {d}, newDeps := x.newDeps + [d]));
      if d in x.depIds then h else AddSub(h, d, w)
  }

  /** One dep of the walk: unsubscribed unless it is kept. */
  function Step(g: Graph, w: WatcherId, d: DepId, keep: set<DepId>): Graph {
    if d in keep then g else RemoveSub(g, d, w)
  }

  /** The walk over a dependency list from its end, with `keep` left alone. */
  function Unsubscribe(g: Graph, w: WatcherId, ds: seq<DepId>, keep: set<DepId>): Graph
    decreases |ds|
  {
    if ds == [] then g
    else Unsubscribe(Step(g, w, ds[|ds| - 1], keep), w, ds[..|ds| - 1], keep)
  }

  function CleanupDeps(g: Graph, w: WatcherId): Graph {
    var x := Of(g, w);
    Put(Unsubscribe(g, w, x.deps, x.newDepIds), w, Watching(x.newDeps, [], x.newDepIds, {}))
  }

  function PushTarget(g: Graph, w: WatcherId): Graph {
    g.(stack := if g.target.Some? then g.stack + [g.target.value] else g.stack, target := Some(w))
  }

  function PopTarget(g: Graph): Graph {
    if g.stack == [] then g.(target := None)
    else g.(target := Some(g.stack[|g.stack| - 1]), stack := g.stack[..|g.stack| - 1])
  }

  /** pushTarget() */
  function PushNone(g: Graph): Graph {
    g.(stack := if g.target.Some? then g.stack + [g.target.value] else g.stack, target := None)
  }

  function Teardown(g: Graph, w: WatcherId): Graph {
    if w in g.torn then g else Unsubscribe(g, w, Of(g, w).deps, {}).(torn := g.torn + {w})
  }

  // ---------- What they keep ----------

  lemma {:induction false} WithoutCounts(s: seq<WatcherId>, w: WatcherId)
    ensures multiset(Without(s, w)) == multiset(s) - multiset{w}
  {
    if s != [] {
      assert s == [s[0]] + s[1..];
      if s[0] != w {
        WithoutCounts(s[1..], w);
      }
    }
  }

  /** The subscribers of d after the walk: w is taken out once where it had to go. */
  ghost predicate Dropped(g: Graph, h: Graph, w: WatcherId, gone: bool, d: DepId) {
    multiset(SubsOf(h, d)) == if gone then multiset(SubsOf(g, d)) - multiset{w} else multiset(SubsOf(g, d))
  }

  lemma RemoveSubDrops(g: Graph, d: DepId, w: WatcherId, e: DepId)
    ensures Dropped(g, RemoveSub(g, d, w), w, e == d, e)
  {
    WithoutCounts(SubsOf(g, d), w);
  }

  lemma LastOfDistinct<T>(s: seq<T>, x: T)
    requires NoDuplicates(s) && s != []
    ensures var n := |s| - 1;
            NoDuplicates(s[..n]) && s[n] !in s[..n] && (x in s <==> x == s[n] || x in s[..n])
  {
    assert s == s[..|s| - 1] + [s[|s| - 1]];
  }

  lemma StepDrops(g: Graph, w: WatcherId, d: DepId, keep: set<DepId>, e: DepId)
    ensures Step(g, w, d, keep) == g.(subs := Step(g, w, d, keep).subs)
    ensures Dropped(g, Step(g, w, d, keep), w, e == d && d !in keep, e)
  {
    RemoveSubDrops(g, d, w, e);
  }

  lemma DroppedOnce(g: Graph, g': Graph, h: Graph, w: WatcherId, now: bool, later: bool, d: DepId)
    requires Dropped(g, g', w, now, d) && Dropped(g', h, w, later, d) && !(now && later)
    ensures Dropped(g, h, w, now || later, d)
  {
  }

  lemma {:induction false} UnsubscribeCounts(g: Graph, w: WatcherId, ds: seq<DepId>, keep: set<DepId>, d: DepId)
    requires NoDuplicates(ds)
    ensures var h := Unsubscribe(g, w, ds, keep);
            h == g.(subs := h.subs) && Dropped(g, h, w, d in ds && d !in keep, d)
    decreases |ds|
  {
    if ds != [] {
      var n := |ds| - 1;
      var g' := Step(g, w, ds[n], keep);
      LastOfDistinct(ds, d);
      StepDrops(g, w, ds[n], keep, d);
      UnsubscribeCounts(g', w, ds[..n], keep, d);
      DroppedOnce(g, g', Unsubscribe(g', w, ds[..n], keep), w, d == ds[n] && ds[n] !in keep, d in ds[..n] && d !in keep,
          d);
    }
  }

  lemma Appended<T>(s: seq<T>, x: T)
    requires NoDuplicates(s) && x !in s
    ensures NoDuplicates(s + [x]) && Elems(s + [x]) == Elems(s) + {x}
  {
  }

  /** What addDep does to the watcher's own collections. */
  lemma AddDepWatching(g: Graph, w: WatcherId, d: DepId)
    requires WatchingOk(Of(g, w))
    ensures var h := AddDep(g, w, d);
            && h == g.(subs := h.subs, watching := h.watching)
            && WatchingOk(Of(h, w))
            && Of(h, w) == Of(g, w).(newDeps := Of(h, w).newDeps, newDepIds := Of(g, w).newDepIds + {d})
            && (forall v | v != w :: Of(h, v) == Of(g, v))
  {
    if d !in Of(g, w).newDepIds {
      Appended(Of(g, w).newDeps, d);
    } else {
      assert Of(g, w).newDepIds + {d} == Of(g, w).newDepIds;
    }
  }

  /** Nothing is lost that is not among the deps. */
  lemma LostIsRead(g: Graph, m: Past, w: WatcherId, d: DepId)
    requires Agrees(g, m) && Lost(m, w, d)
    ensures d in Of(g, w).depIds
  {
    assert d in Evaluations(m, w)[|Evaluations(m, w)| - 1];
  }

  lemma AddDepSubs(g: Graph, m: Past, w: WatcherId, d: DepId, v: WatcherId, e: DepId)
    requires SubsExact(g, m) && Agrees(g, m)
    ensures SubExact(AddDep(g, w, d), m, v, e)
  {
    assert SubExact(g, m, v, e);
    if d !in Of(g, w).newDepIds && d !in Of(g, w).depIds && e == d {
      var s := SubsOf(g, d);
      assert multiset(s + [w]) == multiset(s) + multiset{w};
      if Lost(m, w, d) {
        LostIsRead(g, m, w, d);
      }
    }
  }

  lemma AddDepKeeps(g: Graph, m: Past, w: WatcherId, d: DepId)
    requires Ok(g, m) && w in Busy(g)
    ensures Ok(AddDep(g, w, d), m)
  {
    AddDepWatching(g, w, d);
    forall v: WatcherId, e: DepId ensures SubExact(AddDep(g, w, d), m, v, e) {
      AddDepSubs(g, m, w, d, v, e);
    }
  }

  // ---------- The clean-up at the end of an evaluation ----------

  /** What is left to hold while watcher u has popped its target but has not cleaned up. */
  ghost predicate OkBut(g: Graph, m: Past, u: WatcherId) {
    SubsExact(g, m) && Agrees(g, m) && AllWatchingOk(g) && NewDepsOnly(g, Some(u))
  }

  /** Of what was lost, only what has been read again stays lost. */
  lemma LostOn(m: Past, u: WatcherId, seen: set<DepId>, v: WatcherId, d: DepId)
    requires forall w <- m.tornAt :: m.tornAt[w] <= |Evaluations(m, w)|
    ensures Lost(Finished(m, u, seen), v, d) <==> Lost(m, v, d) && (v == u ==> d in seen)
  {
    var m' := Finished(m, u, seen);
    if v == u {
      var all, more := Evaluations(m, u), Evaluations(m', u);
      assert more == all + [seen];
      if Lost(m', v, d) {
        assert d in more[|all|];
        forall k | m.tornAt[v] - 1 <= k < |all| ensures d in all[k] {
          assert more[k] == all[k];
        }
      }
      if Lost(m, v, d) && d in seen {
        forall k | m.tornAt[v] - 1 <= k < |more| ensures d in more[k] {
          assert k < |all| ==> more[k] == all[k] && d in all[k];
        }
        assert Lost(m', v, d);
      }
    } else {
      assert Evaluations(m', v) == Evaluations(m, v);
    }
  }

  lemma CleanupLeaves(g: Graph, u: WatcherId)
    requires WatchingOk(Of(g, u))
    ensures var h := CleanupDeps(g, u);
            && h == g.(subs := h.subs, watching := h.watching)
            && Of(h, u) == Watching(Of(g, u).newDeps, [], Of(g, u).newDepIds, {})
            && (forall v | v != u :: Of(h, v) == Of(g, v))
  {
    UnsubscribeCounts(g, u, Of(g, u).deps, Of(g, u).newDepIds, 0);
  }

  lemma CleanupDrops(g: Graph, u: WatcherId, e: DepId)
    requires WatchingOk(Of(g, u))
    ensures Dropped(g, CleanupDeps(g, u), u, e in Of(g, u).depIds && e !in Of(g, u).newDepIds, e)
  {
    UnsubscribeCounts(g, u, Of(g, u).deps, Of(g, u).newDepIds, e);
    assert e in Of(g, u).deps <==> e in Of(g, u).depIds;
  }

  lemma CleanupSubs(g: Graph, m: Past, u: WatcherId, v: WatcherId, e: DepId)
    requires SubsExact(g, m) && Agrees(g, m) && WatchingOk(Of(g, u))
    ensures SubExact(CleanupDeps(g, u), Finished(m, u, Of(g, u).newDepIds), v, e)
  {
    assert SubExact(g, m, v, e);
    CleanupLeaves(g, u);
    CleanupDrops(g, u, e);
    LostOn(m, u, Of(g, u).newDepIds, v, e);
  }

  lemma FinishedAgrees(g: Graph, h: Graph, m: Past, u: WatcherId, seen: set<DepId>)
    requires Agrees(g, m) && h.torn == g.torn
    requires Of(h, u).depIds == seen && forall v | v != u :: Of(h, v) == Of(g, v)
    ensures Agrees(h, Finished(m, u, seen))
  {
    var m' := Finished(m, u, seen);
    forall v ensures Of(h, v).depIds == LastReads(m', v) {
      assert v != u ==> Evaluations(m', v) == Evaluations(m, v);
    }
  }

  lemma CleanupKeeps(g: Graph, m: Past, u: WatcherId)
    requires OkBut(g, m, u)
    ensures var h := CleanupDeps(g, u);
            && Ok(h, Finished(m, u, Of(g, u).newDepIds)) && h == g.(subs := h.subs, watching := h.watching)
            && Of(h, u) == Watching(Of(g, u).newDeps, [], Of(g, u).newDepIds, {})
            && (forall v | v != u :: Of(h, v) == Of(g, v))
  {
    var h := CleanupDeps(g, u);
    CleanupLeaves(g, u);
    FinishedAgrees(g, h, m, u, Of(g, u).newDepIds);
    forall v: WatcherId, e: DepId ensures SubExact(h, Finished(m, u, Of(g, u).newDepIds), v, e) {
      CleanupSubs(g, m, u, v, e);
    }
    forall v ensures WatchingOk(Of(h, v)) && (v !in Busy(h) ==> Of(h, v).newDeps == []) {
      assert WatchingOk(Of(g, v));
    }
  }

  // ---------- Teardown ----------

  /** A teardown loses exactly what was read in the last finished evaluation. */
  lemma LostAtTeardown(g: Graph, m: Past, u: WatcherId, v: WatcherId, d: DepId)
    requires Agrees(g, m) && u !in g.torn
    ensures Lost(Torn(m, u), v, d) <==> Lost(m, v, d) || (v == u && d in Of(g, u).depIds)
  {
    var m' := Torn(m, u);
    assert Evaluations(m', v) == Evaluations(m, v);
    if v == u && d in Of(g, u).depIds {
      assert Evaluations(m, u) != [] && m'.tornAt[u] == |Evaluations(m, u)|;
    }
  }

  lemma TeardownLeaves(g: Graph, u: WatcherId)
    requires WatchingOk(Of(g, u))
    ensures var h := Teardown(g, u);
            h == g.(subs := h.subs, torn := g.torn + {u}) && forall v :: Of(h, v) == Of(g, v)
  {
    UnsubscribeCounts(g, u, Of(g, u).deps, {}, 0);
    assert u in g.torn ==> g.torn + {u} == g.torn;
  }

  lemma TeardownDrops(g: Graph, u: WatcherId, e: DepId)
    requires WatchingOk(Of(g, u)) && u !in g.torn
    ensures Dropped(g, Teardown(g, u), u, e in Of(g, u).depIds, e)
  {
    UnsubscribeCounts(g, u, Of(g, u).deps, {}, e);
    assert e in Of(g, u).deps <==> e in Of(g, u).depIds;
  }

  lemma TeardownSubs(g: Graph, m: Past, u: WatcherId, v: WatcherId, e: DepId)
    requires SubsExact(g, m) && Agrees(g, m) && WatchingOk(Of(g, u)) && u !in g.torn
    ensures SubExact(Teardown(g, u), Torn(m, u), v, e)
  {
    assert SubExact(g, m, v, e);
    TeardownLeaves(g, u);
    TeardownDrops(g, u, e);
    LostAtTeardown(g, m, u, v, e);
  }

  /** A teardown at any time, inside evaluations and of a watcher under evaluation too. */
  lemma TeardownKeeps(g: Graph, m: Past, u: WatcherId)
    requires Ok(g, m)
    ensures var h := Teardown(g, u);
            && Ok(h, Torn(m, u)) && h == g.(subs := h.subs, torn := g.torn + {u})
            && forall v :: Of(h, v) == Of(g, v)
  {
    assert WatchingOk(Of(g, u));
    TeardownLeaves(g, u);
    if u !in g.torn {
      var h, m' := Teardown(g, u), Torn(m, u);
      forall v: WatcherId, e: DepId ensures SubExact(h, m', v, e) {
        TeardownSubs(g, m, u, v, e);
      }
      assert forall v :: Evaluations(m', v) == Evaluations(m, v);
      assert Busy(h) == Busy(g);
    }
  }

  /** The watcher is among the subscribers of its deps, once each, and nowhere else. */
  ghost predicate SubscribedToDeps(g: Graph, w: WatcherId) {
    WatchingOk(Of(g, w)) && forall d: DepId :: multiset(SubsOf(g, d))[w] == if d in Of(g, w).depIds then 1 else 0
  }

  /** So is every active watcher that is not under evaluation. */
  lemma IdleIsSubscribedToDeps(g: Graph, m: Past, w: WatcherId)
    requires Ok(g, m) && w !in Busy(g) && w !in g.torn
    ensures SubscribedToDeps(g, w)
  {
    assert WatchingOk(Of(g, w)) && Of(g, w).newDeps == [];
    forall d: DepId ensures multiset(SubsOf(g, d))[w] == if d in Of(g, w).depIds then 1 else 0 {
      assert SubExact(g, m, w, d);
    }
  }

  /** After its teardown no dep refers to it. */
  lemma TeardownForgets(g: Graph, u: WatcherId)
    requires SubscribedToDeps(g, u) && u !in g.torn
    ensures forall d :: u !in SubsOf(Teardown(g, u), d)
  {
    forall d ensures u !in SubsOf(Teardown(g, u), d) {
      TeardownDrops(g, u, d);
      assert multiset(SubsOf(g, d))[u] == if d in Of(g, u).depIds then 1 else 0;
      assert multiset(SubsOf(Teardown(g, u), d))[u] == 0;
    }
  }

  // ---------- An evaluation, with all that happens inside it ----------

  /** dep.depend() for each of a watcher's deps, from the last to the first. */
  function AddDeps(g: Graph, w: WatcherId, ds: seq<DepId>): Graph
    decreases |ds|
  {
    if ds == [] then g else AddDeps(AddDep(g, w, ds[|ds| - 1]), w, ds[..|ds| - 1])
  }

  function Perform(g: Graph, acts: seq<Act>): Graph
    decreases acts
  {
    if acts == [] then g else Perform(PerformOne(g, acts[0]), acts[1..])
  }

  function PerformOne(g: Graph, a: Act): Graph
    decreases a
  {
    match a
    case Read(d) => if g.target.Some? then AddDep(g, g.target.value, d) else g
    case Evaluate(w, body) => CleanupDeps(PopTarget(Perform(PushTarget(g, w), body)), w)
    case DependOn(w) => if g.target.Some? then AddDeps(g, g.target.value, Of(g, w).deps) else g
    case Destroy(w) => Teardown(g, w)
    case Untracked(body) => PopTarget(Perform(PushNone(g), body))
  }

  /** Nothing has moved for the watchers under evaluation. */
  ghost predicate BusyKept(g: Graph, h: Graph) {
    forall v | v in Busy(g) :: Of(h, v) == Of(g, v)
  }

  /** Everything in between leaves: of the watchers under evaluation only the current one has gained, `read`. */
  ghost predicate Performed(g: Graph, h: Graph, read: set<DepId>, m: Past) {
    && Ready(h, m) && h.target == g.target && h.stack == g.stack
    && (forall v | v in Busy(g) && Some(v) != g.target :: Of(h, v) == Of(g, v))
    && (g.target.Some? ==>
          && Of(h, g.target.value).newDepIds == Of(g, g.target.value).newDepIds + read
          && Of(h, g.target.value).deps == Of(g, g.target.value).deps)
  }

  lemma LastOfElems<T>(a: set<T>, s: seq<T>)
    requires s != []
    ensures a + {s[|s| - 1]} + Elems(s[..|s| - 1]) == a + Elems(s)
  {
    assert s == s[..|s| - 1] + [s[|s| - 1]];
  }

  lemma {:induction false} AddDepsKeeps(g: Graph, m: Past, w: WatcherId, ds: seq<DepId>)
    requires Ok(g, m) && w in Busy(g)
    ensures var h := AddDeps(g, w, ds);
            && Ok(h, m) && h == g.(subs := h.subs, watching := h.watching)
            && Of(h, w) == Of(g, w).(newDeps := Of(h, w).newDeps, newDepIds := Of(g, w).newDepIds + Elems(ds))
            && (forall v | v != w :: Of(h, v) == Of(g, v))
    decreases |ds|
  {
    if ds == [] {
      assert Of(g, w).newDepIds + Elems(ds) == Of(g, w).newDepIds;
    } else {
      var n := |ds| - 1;
      var g' := AddDep(g, w, ds[n]);
      AddDepWatching(g, w, ds[n]);
      AddDepKeeps(g, m, w, ds[n]);
      AddDepsKeeps(g', m, w, ds[..n]);
      LastOfElems(Of(g, w).newDepIds, ds);
    }
  }

  lemma ReadKeeps(g: Graph, m: Past, d: DepId)
    requires Ready(g, m)
    ensures Performed(g, PerformOne(g, Read(d)), {d}, m)
  {
    if g.target.Some? {
      AddDepWatching(g, g.target.value, d);
      AddDepKeeps(g, m, g.target.value, d);
    }
  }

  lemma DependOnKeeps(g: Graph, m: Past, w: WatcherId)
    requires Ready(g, m)
    ensures Performed(g, PerformOne(g, DependOn(w)), LastReads(m, w), m)
  {
    if g.target.Some? {
      AddDepsKeeps(g, m, g.target.value, Of(g, w).deps);
      assert WatchingOk(Of(g, w));
    }
  }

  lemma DestroyKeeps(g: Graph, m: Past, w: WatcherId)
    requires Ready(g, m)
    ensures Performed(g, PerformOne(g, Destroy(w)), {}, Torn(m, w))
  {
    TeardownKeeps(g, m, w);
    NestedPerformed(g, Teardown(g, w), Torn(m, w));
  }

  /** Neither the subscriptions nor the collections depend on who is under evaluation. */
  lemma Retargeted(g: Graph, h: Graph, m: Past)
    requires h == g.(target := h.target, stack := h.stack) && SubsExact(g, m) && Agrees(g, m) && AllWatchingOk(g)
    ensures SubsExact(h, m) && Agrees(h, m) && AllWatchingOk(h) && forall w :: Of(h, w) == Of(g, w)
  {
    forall v: WatcherId, e: DepId ensures SubExact(h, m, v, e) {
      assert SubExact(g, m, v, e);
    }
    forall w ensures WatchingOk(Of(h, w)) && Of(h, w) == Of(g, w) {
      assert WatchingOk(Of(g, w));
    }
  }

  lemma PushKeeps(g: Graph, m: Past, w: WatcherId)
    requires Ready(g, m) && w !in Busy(g)
    ensures Ready(PushTarget(g, w), m) && Busy(PushTarget(g, w)) == Busy(g) + {w}
  {
    var h := PushTarget(g, w);
    forall v ensures v in Busy(h) <==> v in Busy(g) + {w} {
    }
    Retargeted(g, h, m);
  }

  /** After the body, popping the target brings the previous one back; only w has new dependencies to take over. */
  lemma PopEnds(g: Graph, h: Graph, m: Past, m': Past, w: WatcherId, read: set<DepId>)
    requires Ready(g, m) && w !in Busy(g) && Performed(PushTarget(g, w), h, read, m')
    ensures PopTarget(h) == h.(target := g.target, stack := g.stack) && OkBut(PopTarget(h), m', w)
    ensures forall v :: Of(PopTarget(h), v) == Of(h, v)
  {
    Retargeted(h, PopTarget(h), m');
    PushKeeps(g, m, w);
    assert Busy(h) == Busy(PushTarget(g, w));
    forall v | v !in Busy(PopTarget(h)) && v != w ensures Of(PopTarget(h), v).newDeps == [] {
      assert v !in Busy(h);
    }
  }

  /** The finished evaluation: w has exactly what was read. */
  lemma EvaluationTakesOver(g: Graph, h: Graph, m: Past, m': Past, w: WatcherId, read: set<DepId>)
    requires Ready(g, m) && w !in Busy(g) && Performed(PushTarget(g, w), h, read, m')
    ensures var f := CleanupDeps(PopTarget(h), w);
            && Ready(f, Finished(m', w, read)) && f.target == g.target && f.stack == g.stack
            && Elems(Of(f, w).deps) == read
            && (forall v | v != w :: Of(f, v) == Of(h, v))
  {
    PushKeeps(g, m, w);
    PopEnds(g, h, m, m', w, read);
    assert WatchingOk(Of(g, w)) && WatchingOk(Of(h, w));
    Retargeted(g, PushTarget(g, w), m);
    assert Of(g, w).newDepIds == {} && Of(PopTarget(h), w).newDepIds == read;
    CleanupKeeps(PopTarget(h), m', w);
  }

  lemma OutsideUntouched(g: Graph, h: Graph, m: Past, m': Past, w: WatcherId, read: set<DepId>, v: WatcherId)
    requires Ready(g, m) && w !in Busy(g) && Performed(PushTarget(g, w), h, read, m') && v in Busy(g)
    ensures Of(h, v) == Of(g, v)
  {
    PushKeeps(g, m, w);
    Retargeted(g, PushTarget(g, w), m);
  }

  /** Performed, from what has to be shown of each watcher. */
  lemma NestedPerformed(g: Graph, f: Graph, m: Past)
    requires Ready(f, m) && f.target == g.target && f.stack == g.stack && BusyKept(g, f)
    ensures Performed(g, f, {}, m)
  {
    if g.target.Some? {
      assert g.target.value in Busy(g);
      assert Of(g, g.target.value).newDepIds + {} == Of(g, g.target.value).newDepIds;
    }
  }

  lemma EvaluateEnds(g: Graph, h: Graph, m: Past, m': Past, w: WatcherId, read: set<DepId>)
    requires Ready(g, m) && w !in Busy(g) && Performed(PushTarget(g, w), h, read, m')
    ensures Performed(g, CleanupDeps(PopTarget(h), w), {}, Finished(m', w, read))
    ensures Elems(Of(CleanupDeps(PopTarget(h), w), w).deps) == read
  {
    var f := CleanupDeps(PopTarget(h), w);
    EvaluationTakesOver(g, h, m, m', w, read);
    forall v | v in Busy(g) ensures Of(f, v) == Of(g, v) {
      OutsideUntouched(g, h, m, m', w, read, v);
    }
    NestedPerformed(g, f, Finished(m', w, read));
  }

  // ---------- Without a target ----------

  /** Where no watcher is under evaluation, quiet acts do nothing but tear down. */
  lemma {:induction false} QuietKeeps(g: Graph, m: Past, acts: seq<Act>)
    requires Ok(g, m) && g.target.None? && Quiet(acts)
    ensures var h := Perform(g, acts);
            && Ok(h, Track(m, acts).1) && h.target == g.target && h.stack == g.stack
            && forall v :: Of(h, v) == Of(g, v)
    decreases |acts|
  {
    if acts != [] {
      assert acts[0] in acts && forall a <- acts[1..] :: a in acts;
      if acts[0].Destroy? {
        TeardownKeeps(g, m, acts[0].w);
      }
      QuietKeeps(PerformOne(g, acts[0]), TrackOne(m, acts[0]).1, acts[1..]);
    }
  }

  lemma PushNoneKeeps(g: Graph, m: Past)
    requires Ready(g, m)
    ensures Ok(PushNone(g), m) && Busy(PushNone(g)) == Busy(g) && forall v :: Of(PushNone(g), v) == Of(g, v)
  {
    var h := PushNone(g);
    forall v ensures v in Busy(h) <==> v in Busy(g) {
    }
    Retargeted(g, h, m);
  }

  /** A hook inside an evaluation: popTarget brings the watcher back. */
  lemma HookEnds(g: Graph, h: Graph, m: Past, m': Past)
    requires Ready(g, m) && g.target.Some? && Ok(h, m') && h.target.None? && h.stack == PushNone(g).stack
    requires forall v :: Of(h, v) == Of(g, v)
    ensures Performed(g, PopTarget(h), {}, m')
  {
    PushNoneKeeps(g, m);
    var f := PopTarget(h);
    assert f.target == g.target && f.stack == g.stack;
    assert Busy(h) == Busy(f) by {
      forall v ensures v in Busy(h) <==> v in Busy(f) {
      }
    }
    Retargeted(h, f, m');
    NestedPerformed(g, f, m');
  }

  // ---------- All together ----------

  /** A stretch of acts, then another. */
  lemma Chained(g: Graph, h: Graph, f: Graph, r: set<DepId>, rs: set<DepId>, m: Past, m': Past)
    requires Performed(g, h, r, m) && Performed(h, f, rs, m')
    ensures Performed(g, f, r + rs, m')
  {
    assert Busy(h) == Busy(g);
  }

  lemma PerformedNothing(g: Graph, m: Past)
    requires Ready(g, m)
    ensures Performed(g, g, {}, m)
  {
  }

  lemma {:induction false} PerformKeeps(g: Graph, m: Past, acts: seq<Act>)
    requires Ready(g, m) && Fit(acts, Busy(g))
    ensures Performed(g, Perform(g, acts), Track(m, acts).0, Track(m, acts).1)
    decreases acts, 0
  {
    if acts == [] {
      PerformedNothing(g, m);
    } else {
      PerformOneKeeps(g, m, acts[0]);
      var h, m' := PerformOne(g, acts[0]), TrackOne(m, acts[0]).1;
      assert Busy(h) == Busy(g);
      PerformKeeps(h, m', acts[1..]);
      Chained(g, h, Perform(g, acts), TrackOne(m, acts[0]).0, Track(m', acts[1..]).0, m', Track(m, acts).1);
    }
  }

  lemma {:induction false} EvaluateKeeps(g: Graph, m: Past, w: WatcherId, body: seq<Act>)
    requires Ready(g, m) && w !in Busy(g) && Fit(body, Busy(g) + {w})
    ensures var f, (r, m') := PerformOne(g, Act.Evaluate(w, body)), Track(m, body);
            Performed(g, f, {}, Finished(m', w, r)) && Elems(Of(f, w).deps) == r
    decreases body, 1
  {
    PushKeeps(g, m, w);
    PerformKeeps(PushTarget(g, w), m, body);
    EvaluateEnds(g, Perform(PushTarget(g, w), body), m, Track(m, body).1, w, Track(m, body).0);
  }

  lemma {:induction false} UntrackedKeeps(g: Graph, m: Past, body: seq<Act>)
    requires Ready(g, m) && FitOne(Untracked(body), Busy(g))
    ensures Performed(g, PerformOne(g, Untracked(body)), {}, Track(m, body).1)
    decreases body, 1
  {
    if g.target.Some? {
      assert g.target.value in Busy(g);
      PushNoneKeeps(g, m);
      QuietKeeps(PushNone(g), m, body);
      HookEnds(g, Perform(PushNone(g), body), m, Track(m, body).1);
    } else {
      assert PushNone(g) == g && Busy(g) == {};
      PerformKeeps(g, m, body);
      assert PopTarget(Perform(g, body)) == Perform(g, body);
    }
  }

  lemma {:induction false} PerformOneKeeps(g: Graph, m: Past, a: Act)
    requires Ready(g, m) && FitOne(a, Busy(g))
    ensures Performed(g, PerformOne(g, a), TrackOne(m, a).0, TrackOne(m, a).1)
    decreases a, 2
  {
    match a
    case Read(d) => ReadKeeps(g, m, d);
    case DependOn(w) => DependOnKeeps(g, m, w);
    case Destroy(w) => DestroyKeeps(g, m, w);
    case Evaluate(w, body) => EvaluateKeeps(g, m, w, body);
    case Untracked(body) => UntrackedKeeps(g, m, body);
  }
}
