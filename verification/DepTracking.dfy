/** Dep and Watcher as they are written: lists changed in place, a current target and a stack of targets. */
module DepTracking {
  import opened Sequences
  import opened Wrappers
  import opened DepGraph

  lemma {:induction false} SplicedOut(s: seq<WatcherId>, w: WatcherId, i: nat)
    requires i < |s| && s[i] == w && w !in s[..i]
    ensures Without(s, w) == s[..i] + s[i + 1..]
  {
    if i > 0 {
      assert s[..i] == [s[0]] + s[1..][..i - 1];
      SplicedOut(s[1..], w, i - 1);
    }
  }

  class Tracker {
    var subs: map<DepId, seq<WatcherId>>
    var watching: map<WatcherId, Watching>
    var torn: set<WatcherId>
    var target: Option<WatcherId>
    var stack: seq<WatcherId>

    function View(): Graph
      reads this
    {
      Graph(subs, watching, torn, target, stack)
    }

    constructor ()
      ensures View() == NOBODY
    {
      subs, watching, torn, target, stack := map[], map[], {}, None, [];
    }

    method AddSubscriber(d: DepId, w: WatcherId)
      modifies `subs
      ensures View() == AddSub(old(View()), d, w)
    {
      subs := subs[d := SubsOf(View(), d) + [w]];
    }

    /** remove(subs, w): the first occurrence is spliced out, if there is one. */
    method RemoveSubscriber(d: DepId, w: WatcherId)
      modifies `subs
      ensures View() == RemoveSub(old(View()), d, w)
    {
      var s := SubsOf(View(), d);
      var i := 0;
      while i < |s| && s[i] != w
        invariant i <= |s| && w !in s[..i]
      {
        i := i + 1;
      }
      if i < |s| {
        SplicedOut(s, w, i);
        subs := subs[d := s[..i] + s[i + 1..]];
      } else {
        WithoutAbsent(s, w);
        subs := subs[d := s];
      }
    }

    method AddDependency(w: WatcherId, d: DepId)
      modifies `subs, `watching
      ensures View() == AddDep(old(View()), w, d)
    {
      var x := Of(View(), w);
      if d !in x.newDepIds {
        watching := watching[w := x.(newDepIds := x.newDepIds + {d}, newDeps := x.newDeps + [d])];
        if d !in x.depIds {
          AddSubscriber(d, w);
        }
      }
    }

    /** removeSub for the deps from the last to the first, except those to keep. */
    method RemoveFrom(w: WatcherId, deps: seq<DepId>, keep: set<DepId>)
      modifies `subs
      ensures View() == Unsubscribe(old(View()), w, deps, keep)
    {
      var i := |deps|;
      assert deps[..i] == deps;
      while i > 0
        invariant 0 <= i <= |deps|
        invariant Unsubscribe(View(), w, deps[..i], keep) == Unsubscribe(old(View()), w, deps, keep)
      {
        i := i - 1;
        assert deps[..i + 1][..i] == deps[..i];
        if deps[i] !in keep {
          RemoveSubscriber(deps[i], w);
        }
      }
    }

    method CleanUp(w: WatcherId)
      modifies `subs, `watching
      ensures View() == CleanupDeps(old(View()), w)
    {
      var x := Of(View(), w);
      RemoveFrom(w, x.deps, x.newDepIds);
      watching := watching[w := Watching(x.newDeps, [], x.newDepIds, {})];
    }

    method Push(w: WatcherId)
      modifies `target, `stack
      ensures View() == PushTarget(old(View()), w)
    {
      if target.Some? {
        stack := stack + [target.value];
      }
      target := Some(w);
    }

    method Pop()
      modifies `target, `stack
      ensures View() == PopTarget(old(View()))
    {
      if stack == [] {
        target := None;
      } else {
        target, stack := Some(stack[|stack| - 1]), stack[..|stack| - 1];
      }
    }

    method Depend(w: WatcherId)
      modifies `subs, `watching
      ensures View() == PerformOne(old(View()), DependOn(w))
    {
      if target.Some? {
        var deps := Of(View(), w).deps;
        var i := |deps|;
        assert deps[..i] == deps;
        while i > 0
          invariant 0 <= i <= |deps| && target.Some? && target == old(target)
          invariant AddDeps(View(), target.value, deps[..i]) == AddDeps(old(View()), target.value, deps)
        {
          i := i - 1;
          assert deps[..i + 1][..i] == deps[..i];
          AddDependency(target.value, deps[i]);
        }
      }
    }

    /** The getter of the watcher under evaluation. */
    method Run(acts: seq<Act>)
      modifies this
      ensures View() == Perform(old(View()), acts)
      decreases acts, 0
    {
      if acts != [] {
        match acts[0] {
          case Read(d) =>
            if target.Some? {
              AddDependency(target.value, d);
            }
          case Evaluate(w, body) => Evaluate(w, body);
          case DependOn(w) => Depend(w);
          case Destroy(w) => TearDown(w);
          case Untracked(body) => CallHook(body);
        }
        Run(acts[1..]);
      }
    }

    method Evaluate(w: WatcherId, body: seq<Act>)
      modifies this
      ensures View() == PerformOne(old(View()), Act.Evaluate(w, body))
      decreases body, 1
    {
      Push(w);
      Run(body);
      Pop();
      CleanUp(w);
    }

    method PushNobody()
      modifies `target, `stack
      ensures View() == PushNone(old(View()))
    {
      if target.Some? {
        stack := stack + [target.value];
      }
      target := None;
    }

    /** callHook: the handlers run without a target. */
    method CallHook(body: seq<Act>)
      modifies this
      ensures View() == PerformOne(old(View()), Untracked(body))
      decreases body, 1
    {
      PushNobody();
      Run(body);
      Pop();
    }

    /** get: afterwards the watcher's deps are exactly what this evaluation has read, and the subscriptions follow. */
    method Get(w: WatcherId, body: seq<Act>, ghost m: Past)
      requires Ready(View(), m) && FitOne(Act.Evaluate(w, body), Busy(View()))
      modifies this
      ensures Performed(old(View()), View(), {}, Finished(Track(m, body).1, w, Track(m, body).0))
      ensures Elems(Of(View(), w).deps) == Track(m, body).0
    {
      EvaluateKeeps(View(), m, w, body);
      Evaluate(w, body);
    }

    /** teardown: no dep refers any more to a watcher that was subscribed to its deps. */
    method TearDown(w: WatcherId)
      modifies `subs, `torn
      ensures View() == Teardown(old(View()), w)
      ensures old(SubscribedToDeps(View(), w) && w !in torn) ==> forall d :: w !in SubsOf(View(), d)
    {
      if SubscribedToDeps(View(), w) && w !in torn {
        TeardownForgets(View(), w);
      }
      if w !in torn {
        RemoveFrom(w, Of(View(), w).deps, {});
        torn := torn + {w};
      }
    }
  }

  const NOBODY := Graph(map[], map[], {}, None, [])

  // ---------- Any sequence of evaluations, teardowns and hooks ----------

  lemma NobodyIsReady(g: Graph, m: Past)
    requires g == NOBODY && m == NO_PAST
    ensures Ready(g, m) && Busy(g) == {}
  {
    forall w: WatcherId, d: DepId ensures SubExact(g, m, w, d) {
      assert SubsOf(g, d) == [];
    }
  }

  lemma RunKeeps(acts: seq<Act>)
    requires Fit(acts, {})
    ensures var g, m := Perform(NOBODY, acts), Track(NO_PAST, acts).1; Ready(g, m) && Busy(g) == {}
  {
    NobodyIsReady(NOBODY, NO_PAST);
    PerformKeeps(NOBODY, NO_PAST, acts);
  }

  lemma IdleSubscriptions(g: Graph, m: Past, w: WatcherId, d: DepId)
    requires Ok(g, m) && w !in Busy(g)
    ensures multiset(SubsOf(g, d))[w] == if d in LastReads(m, w) && !Lost(m, w, d) then 1 else 0
    ensures Elems(Of(g, w).deps) == LastReads(m, w)
  {
    assert WatchingOk(Of(g, w)) && Of(g, w).newDeps == [] && SubExact(g, m, w, d);
  }

  /**
   However watchers are evaluated and torn down, inside each other or not, before or after their teardown: each dep's
   subscribers are the watchers that last read it, once each, except those that have been torn down and had read it in
   the last evaluation before that and in every one since.
   */
  lemma SubscriptionsAreLastReads(acts: seq<Act>, w: WatcherId, d: DepId)
    requires Fit(acts, {})
    ensures var g, m := Perform(NOBODY, acts), Track(NO_PAST, acts).1;
            && multiset(SubsOf(g, d))[w] == (if d in LastReads(m, w) && !Lost(m, w, d) then 1 else 0)
            && Elems(Of(g, w).deps) == LastReads(m, w)
  {
    RunKeeps(acts);
    IdleSubscriptions(Perform(NOBODY, acts), Track(NO_PAST, acts).1, w, d);
  }

  // ---------- Evaluation after teardown ----------

  ghost predicate Forgotten(g: Graph, w: WatcherId) {
    forall d :: w !in SubsOf(g, d)
  }

  lemma ForgottenIff(g: Graph, m: Past, w: WatcherId)
    requires Ok(g, m) && w !in Busy(g)
    ensures Forgotten(g, w) <==> forall d <- LastReads(m, w) :: Lost(m, w, d)
  {
    forall d ensures w in SubsOf(g, d) <==> d in LastReads(m, w) && !Lost(m, w, d) {
      IdleSubscriptions(g, m, w, d);
      assert w in SubsOf(g, d) <==> multiset(SubsOf(g, d))[w] > 0;
    }
  }

  /** While a watcher is under evaluation its own past stands still. */
  lemma {:induction false} PastStands(m: Past, acts: seq<Act>, busy: set<WatcherId>, w: WatcherId)
    requires Fit(acts, busy) && w in busy && w in m.tornAt
    ensures var m' := Track(m, acts).1;
            Evaluations(m', w) == Evaluations(m, w) && w in m'.tornAt && m'.tornAt[w] == m.tornAt[w]
    decreases acts, 0
  {
    if acts != [] {
      PastStandsOne(m, acts[0], busy, w);
      PastStands(TrackOne(m, acts[0]).1, acts[1..], busy, w);
    }
  }

  lemma {:induction false} PastStandsOne(m: Past, a: Act, busy: set<WatcherId>, w: WatcherId)
    requires FitOne(a, busy) && w in busy && w in m.tornAt
    ensures var m' := TrackOne(m, a).1;
            Evaluations(m', w) == Evaluations(m, w) && w in m'.tornAt && m'.tornAt[w] == m.tornAt[w]
    decreases a, 1
  {
    match a
    case Evaluate(v, body) => PastStands(m, body, busy + {v}, w);
    case Untracked(body) =>
      QuietIsFit(body, busy);
      PastStands(m, body, busy, w);
    case _ =>
  }

  lemma {:induction false} QuietIsFit(acts: seq<Act>, busy: set<WatcherId>)
    requires Quiet(acts)
    ensures Fit(acts, busy)
    decreases |acts|
  {
    if acts != [] {
      assert acts[0] in acts && forall a <- acts[1..] :: a in acts;
      QuietIsFit(acts[1..], busy);
    }
  }

  /** What is lost after one more evaluation, if all that was read before is lost. */
  lemma LostNow(g: Graph, m: Past, m': Past, w: WatcherId, r: set<DepId>, d: DepId)
    requires Agrees(g, m) && w in m.tornAt && w in m'.tornAt && m'.tornAt[w] == m.tornAt[w]
    requires Evaluations(m', w) == Evaluations(m, w) && forall v <- m'.tornAt :: m'.tornAt[v] <= |Evaluations(m', v)|
    requires (forall e <- LastReads(m, w) :: Lost(m, w, e)) && d in r
    ensures Lost(Finished(m', w, r), w, d) <==> d in LastReads(m, w)
  {
    EndOfPast(m, m', w);
    LostOn(m', w, r, w, d);
    if Lost(m, w, d) {
      LostIsRead(g, m, w, d);
    }
  }

  lemma ForgottenAfter(f: Graph, m: Past, w: WatcherId, r: set<DepId>, before: set<DepId>)
    requires Ok(f, m) && w !in Busy(f) && LastReads(m, w) == r
    requires forall d <- r :: Lost(m, w, d) <==> d in before
    ensures Forgotten(f, w) <==> r <= before
  {
    ForgottenIff(f, m, w);
  }

  lemma LostAfter(g: Graph, m: Past, w: WatcherId, body: seq<Act>, f: Graph)
    requires Ok(g, m) && w in g.torn && w !in Busy(g) && Forgotten(g, w) && Fit(body, Busy(g) + {w})
    requires Agrees(f, Finished(Track(m, body).1, w, Track(m, body).0))
    ensures var (r, m') := Track(m, body); forall d <- r :: Lost(Finished(m', w, r), w, d) <==> d in LastReads(m, w)
  {
    var (r, m') := Track(m, body);
    ForgottenIff(g, m, w);
    PastStands(m, body, Busy(g) + {w}, w);
    TornBefore(m', w, r);
    forall d | d in r ensures Lost(Finished(m', w, r), w, d) <==> d in LastReads(m, w) {
      LostNow(g, m, m', w, r, d);
    }
  }

  /** A torn watcher that no dep refers to stays so through an evaluation if and only if it reads nothing new. */
  lemma StaysForgottenIff(g: Graph, m: Past, w: WatcherId, body: seq<Act>)
    requires Ready(g, m) && w in g.torn && w !in Busy(g) && Forgotten(g, w) && Fit(body, Busy(g) + {w})
    ensures Forgotten(PerformOne(g, Act.Evaluate(w, body)), w) <==> Track(m, body).0 <= LastReads(m, w)
  {
    var (r, m') := Track(m, body);
    var f := PerformOne(g, Act.Evaluate(w, body));
    EvaluateKeeps(g, m, w, body);
    LostAfter(g, m, w, body, f);
    assert Busy(f) == Busy(g);
    ForgottenAfter(f, Finished(m', w, r), w, r, LastReads(m, w));
  }

  /** The bounds of a past still hold without its last evaluation, if the watcher has not been torn down since. */
  lemma TornBefore(m: Past, w: WatcherId, r: set<DepId>)
    requires forall v <- Finished(m, w, r).tornAt :: m.tornAt[v] <= |Evaluations(Finished(m, w, r), v)|
    requires w in m.tornAt ==> m.tornAt[w] <= |Evaluations(m, w)|
    ensures forall v <- m.tornAt :: m.tornAt[v] <= |Evaluations(m, v)|
  {
    forall v | v in m.tornAt && v != w ensures m.tornAt[v] <= |Evaluations(m, v)| {
      assert Evaluations(Finished(m, w, r), v) == Evaluations(m, v);
    }
  }

  lemma EndOfPast(m: Past, m': Past, w: WatcherId)
    requires w in m.tornAt && w in m'.tornAt && m'.tornAt[w] == m.tornAt[w] && Evaluations(m', w) == Evaluations(m, w)
    ensures LastReads(m', w) == LastReads(m, w) && forall d :: Lost(m', w, d) <==> Lost(m, w, d)
  {
  }

  /** Torn down after reading d, then asked for its value once more and reading e: it is subscribed again. */
  lemma TornWatcherComesBack(g: Graph, m: Past, w: WatcherId, d: DepId, e: DepId)
    requires g == NOBODY && m == NO_PAST && d != e
    ensures var torn := Perform(g, [Act.Evaluate(w, [Read(d)]), Destroy(w)]);
            Forgotten(torn, w) && !Forgotten(PerformOne(torn, Act.Evaluate(w, [Read(e)])), w)
  {
    NobodyIsReady(g, m);
    var g1, m1 := PerformOne(g, Act.Evaluate(w, [Read(d)])), Finished(m, w, {d});
    OneRead(m, d);
    EvaluateKeeps(g, m, w, [Read(d)]);
    IdleIsSubscribedToDeps(g1, m1, w);
    TeardownForgets(g1, w);
    DestroyKeeps(g1, m1, w);
    var torn, m2 := Teardown(g1, w), Torn(m1, w);
    TwoActs(g, Act.Evaluate(w, [Read(d)]), Destroy(w));
    OneRead(m2, e);
    StaysForgottenIff(torn, m2, w, [Read(e)]);
    assert LastReads(m2, w) == {d};
  }

  lemma OneRead(m: Past, d: DepId)
    ensures Track(m, [Read(d)]) == ({d}, m) && forall busy :: Fit([Read(d)], busy)
  {
    assert [Read(d)][1..] == [] && Track(m, []) == ({}, m) && {d} + {} == {d};
  }

  lemma TwoActs(g: Graph, a: Act, b: Act)
    ensures Perform(g, [a, b]) == PerformOne(PerformOne(g, a), b)
  {
    assert [a, b][1..] == [b] && [b][1..] == [];
    assert Perform(PerformOne(g, a), [b]) == Perform(PerformOne(PerformOne(g, a), b), []);
  }

  // ---------- A computed property ----------

  lemma {:induction false} ReadingIsTracked(m: Past, ds: seq<DepId>, busy: set<WatcherId>)
    ensures Track(m, Reading(ds)) == (Elems(ds), m) && Fit(Reading(ds), busy)
    decreases |ds|
  {
    if ds == [] {
      assert Elems(ds) == {};
    } else {
      ReadingIsTracked(m, ds[1..], busy);
      assert Reading(ds)[1..] == Reading(ds[1..]);
      assert ds == [ds[0]] + ds[1..];
      assert Elems(ds) == {ds[0]} + Elems(ds[1..]);
    }
  }

  /** What the getter of a computed property does for the watcher that reads it: evaluate, then depend. */
  function UsingComputed(v: WatcherId, ds: seq<DepId>): seq<Act> { [Act.Evaluate(v, Reading(ds)), DependOn(v)] }

  lemma UsingIsTracked(m: Past, w: WatcherId, v: WatcherId, ds: seq<DepId>)
    requires w != v
    ensures Track(m, UsingComputed(v, ds)) == (Elems(ds), Finished(m, v, Elems(ds))) && Fit(UsingComputed(v, ds), {w})
  {
    ReadingIsTracked(m, ds, {w, v});
    assert {w} + {v} == {w, v};
    var acts, m' := UsingComputed(v, ds), Finished(m, v, Elems(ds));
    assert acts[1..] == [DependOn(v)] && [DependOn(v)][1..] == [];
    assert FitOne(acts[0], {w}) && FitOne(DependOn(v), {w}) && Fit([], {w}) && Fit([DependOn(v)], {w});
    assert Track(m', [DependOn(v)]) == (LastReads(m', v) + {}, m');
    assert LastReads(m', v) == Elems(ds) && {} + (Elems(ds) + {}) == Elems(ds);
  }

  /** Reading a computed property subscribes the reader to all that the property reads, and to nothing else. */
  lemma ComputedPassesItsDepsOn(g: Graph, m: Past, w: WatcherId, v: WatcherId, ds: seq<DepId>, d: DepId)
    requires g == NOBODY && m == NO_PAST && w != v
    ensures var f := PerformOne(g, Act.Evaluate(w, UsingComputed(v, ds)));
            multiset(SubsOf(f, d))[w] == (if d in ds then 1 else 0) && Elems(Of(f, w).deps) == Elems(ds)
  {
    NobodyIsReady(g, m);
    UsingIsTracked(m, w, v, ds);
    var f, m' := PerformOne(g, Act.Evaluate(w, UsingComputed(v, ds))),
        Finished(Finished(m, v, Elems(ds)), w, Elems(ds));
    assert {} + {w} == {w};
    EvaluateKeeps(g, m, w, UsingComputed(v, ds));
    assert Busy(f) == Busy(g);
    IdleSubscriptions(f, m', w, d);
    assert LastReads(m', w) == Elems(ds);
  }
}
