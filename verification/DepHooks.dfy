/**
 Hooks that run under pushTarget() without a watcher: where there is no target, pushTarget puts nothing on the stack,
 but popTarget takes something off it.
 */
module DepHooks {
  import opened Wrappers
  import opened DepGraph

  /** How many targets there are to come back to, the current one included. */
  function Level(g: Graph): nat { |g.stack| + if g.target.Some? then 1 else 0 }

  ghost predicate SameTargets(g: Graph, h: Graph) { h.target == g.target && h.stack == g.stack }

  /** No more targets than before, and if there is none now, none is left or nothing has moved. */
  ghost predicate Steady(g: Graph, h: Graph) {
    Level(h) <= Level(g) && (h.target.None? ==> Level(h) == 0 || SameTargets(g, h))
  }

  // ---------- What does not touch the targets ----------

  lemma {:induction false} UnsubscribeKeepsTargets(g: Graph, w: WatcherId, ds: seq<DepId>, keep: set<DepId>)
    ensures SameTargets(g, Unsubscribe(g, w, ds, keep))
    decreases |ds|
  {
    if ds != [] {
      UnsubscribeKeepsTargets(Step(g, w, ds[|ds| - 1], keep), w, ds[..|ds| - 1], keep);
    }
  }

  lemma {:induction false} AddDepsKeepTargets(g: Graph, w: WatcherId, ds: seq<DepId>)
    ensures SameTargets(g, AddDeps(g, w, ds))
    decreases |ds|
  {
    if ds != [] {
      AddDepsKeepTargets(AddDep(g, w, ds[|ds| - 1]), w, ds[..|ds| - 1]);
    }
  }

  lemma QuietActKeepsTargets(g: Graph, a: Act)
    requires !a.Evaluate? && !a.Untracked?
    ensures SameTargets(g, PerformOne(g, a))
  {
    match a
    case Read(_) =>
    case DependOn(w) =>
      if g.target.Some? {
        AddDepsKeepTargets(g, g.target.value, Of(g, w).deps);
      }
    case Destroy(w) => UnsubscribeKeepsTargets(g, w, Of(g, w).deps, {});
  }

  lemma CleanupKeepsTargets(g: Graph, w: WatcherId)
    ensures SameTargets(g, CleanupDeps(g, w))
  {
    UnsubscribeKeepsTargets(g, w, Of(g, w).deps, Of(g, w).newDepIds);
  }

  // ---------- Every act leaves the targets steady ----------

  lemma SteadyThrough(g: Graph, h: Graph, f: Graph)
    requires Steady(g, h) && Steady(h, f)
    ensures Steady(g, f)
  {
  }

  /** After popTarget there is a target, or nothing is left on the stack. */
  lemma EvaluateIsSteady(g: Graph, h: Graph, w: WatcherId)
    requires Steady(PushTarget(g, w), h)
    ensures Level(PopTarget(h)) <= Level(g) && (PopTarget(h).target.None? ==> Level(PopTarget(h)) == 0)
  {
  }

  lemma UntrackedIsSteady(g: Graph, h: Graph)
    requires Steady(PushNone(g), h)
    ensures Level(PopTarget(h)) <= Level(g) && (PopTarget(h).target.None? ==> Level(PopTarget(h)) == 0)
  {
  }

  lemma {:induction false} ActsAreSteady(g: Graph, acts: seq<Act>)
    ensures Steady(g, Perform(g, acts))
    decreases acts, 0
  {
    if acts != [] {
      ActIsSteady(g, acts[0]);
      ActsAreSteady(PerformOne(g, acts[0]), acts[1..]);
      SteadyThrough(g, PerformOne(g, acts[0]), Perform(g, acts));
    }
  }

  /** An act that pushes ends with a target, or with nothing left to come back to. */
  lemma {:induction false} ActIsSteady(g: Graph, a: Act)
    ensures Steady(g, PerformOne(g, a))
    ensures a.Evaluate? || a.Untracked? ==> PerformOne(g, a).target.Some? || Level(PerformOne(g, a)) == 0
    decreases a, 1
  {
    match a
    case Evaluate(w, body) =>
      ActsAreSteady(PushTarget(g, w), body);
      EvaluateIsSteady(g, Perform(PushTarget(g, w), body), w);
      CleanupKeepsTargets(PopTarget(Perform(PushTarget(g, w), body)), w);
    case Untracked(body) =>
      ActsAreSteady(PushNone(g), body);
      UntrackedIsSteady(g, Perform(PushNone(g), body));
    case _ => QuietActKeepsTargets(g, a);
  }

  // ---------- Exactly which hooks bring the target back ----------

  lemma {:induction false} QuietActsKeepTargets(g: Graph, acts: seq<Act>)
    requires Quiet(acts)
    ensures SameTargets(g, Perform(g, acts))
    decreases |acts|
  {
    if acts != [] {
      assert acts[0] in acts && forall a <- acts[1..] :: a in acts;
      QuietActKeepsTargets(g, acts[0]);
      QuietActsKeepTargets(PerformOne(g, acts[0]), acts[1..]);
    }
  }

  /** Once there is a target again it stays so, unless nothing is left. */
  lemma TargetStays(g: Graph, acts: seq<Act>)
    requires g.target.Some? || Level(g) == 0
    ensures var h := Perform(g, acts); Level(h) <= Level(g) && (h.target.Some? || Level(h) == 0)
  {
    ActsAreSteady(g, acts);
  }

  lemma {:induction false} LoudActsRestoreTarget(g: Graph, acts: seq<Act>)
    requires !Quiet(acts)
    ensures var h := Perform(g, acts); Level(h) <= Level(g) && (h.target.Some? || Level(h) == 0)
    decreases |acts|
  {
    var a := acts[0];
    ActIsSteady(g, a);
    if a.Evaluate? || a.Untracked? {
      TargetStays(PerformOne(g, a), acts[1..]);
    } else {
      QuietActKeepsTargets(g, a);
      assert !Quiet(acts[1..]) by {
        var b :| b in acts && (b.Evaluate? || b.Untracked?);
        assert acts == [a] + acts[1..];
      }
      LoudActsRestoreTarget(PerformOne(g, a), acts[1..]);
    }
  }

  /**
   Inside an evaluation, a hook leaves the targets as they were if and only if it has nothing evaluated and calls no
   hook.
   */
  lemma HookRestoresIff(g: Graph, body: seq<Act>)
    requires g.target.Some?
    ensures SameTargets(g, PerformOne(g, Untracked(body))) <==> Quiet(body)
  {
    var h := Perform(PushNone(g), body);
    if Quiet(body) {
      QuietActsKeepTargets(PushNone(g), body);
    } else {
      LoudActsRestoreTarget(PushNone(g), body);
      assert Level(PushNone(g)) == Level(g) && Level(PopTarget(h)) < Level(g);
    }
  }

  // ---------- What is lost ----------

  /** A read without a target is noted by nobody. */
  lemma {:induction false} NobodyReads(g: Graph, ds: seq<DepId>)
    requires g.target.None?
    ensures Perform(g, Reading(ds)) == g
    decreases |ds|
  {
    if ds != [] {
      NobodyReads(g, ds[1..]);
    }
  }

  lemma ThenActs(g: Graph, a: Act, rest: seq<Act>)
    ensures Perform(g, [a] + rest) == Perform(PerformOne(g, a), rest)
  {
    assert ([a] + rest)[1..] == rest;
  }

  lemma EvaluatedInHook(g: Graph, w: WatcherId, v: WatcherId, d: DepId)
    requires g.target == Some(w) && g.stack == [] && v != w
    ensures var h := PerformOne(g, Untracked([Act.Evaluate(v, [Read(d)])]));
            h.target == None && Of(h, w) == Of(g, w)
  {
    var p := PushNone(g);
    var q := PushTarget(p, v);
    ThenActs(p, Act.Evaluate(v, [Read(d)]), []);
    ThenActs(q, Read(d), []);
    var r := AddDep(q, v, d);
    assert [Read(d)] == [Read(d)] + [] && Perform(q, [Read(d)]) == r;
    assert [Act.Evaluate(v, [Read(d)])] == [Act.Evaluate(v, [Read(d)])] + [];
    assert r.target == Some(v) && r.stack == [w];
    CleanupKeepsTargets(PopTarget(r), v);
    OthersUntouched(PopTarget(r), v, w);
  }

  lemma OthersUntouched(g: Graph, v: WatcherId, w: WatcherId)
    requires v != w
    ensures Of(CleanupDeps(g, v), w) == Of(g, w)
  {
    UnsubscribeKeepsWatching(g, v, Of(g, v).deps, Of(g, v).newDepIds);
  }

  lemma {:induction false} UnsubscribeKeepsWatching(g: Graph, w: WatcherId, ds: seq<DepId>, keep: set<DepId>)
    ensures Unsubscribe(g, w, ds, keep).watching == g.watching
    decreases |ds|
  {
    if ds != [] {
      UnsubscribeKeepsWatching(Step(g, w, ds[|ds| - 1], keep), w, ds[..|ds| - 1], keep);
    }
  }

  /**
   A watcher whose getter runs a hook that has another watcher evaluated: whatever it reads afterwards, it ends without
   any of it among its deps.
   */
  lemma ReadsAreLost(g: Graph, w: WatcherId, v: WatcherId, d: DepId, ds: seq<DepId>)
    requires g.target.None? && g.stack == [] && v != w && Of(g, w).newDeps == []
    ensures Of(PerformOne(g, Act.Evaluate(w, [Untracked([Act.Evaluate(v, [Read(d)])])] + Reading(ds))), w).deps == []
  {
    var p := PushTarget(g, w);
    var hook := Untracked([Act.Evaluate(v, [Read(d)])]);
    EvaluatedInHook(p, w, v, d);
    var h := PerformOne(p, hook);
    ThenActs(p, hook, Reading(ds));
    NobodyReads(h, ds);
    assert Perform(p, [hook] + Reading(ds)) == h;
    assert Of(PopTarget(h), w) == Of(g, w);
  }
}
