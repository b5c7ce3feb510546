/** What a flush of the watcher queue comes to: a set of pending watchers, of which the least is always run next. */
module FlushSpec {
  import opened Sequences

  type Id = nat

  const MAX_UPDATE_COUNT := 100

  /** What one run of a watcher does: the watchers it has queued, and whether it throws out of the flush. */
  datatype Script = Script(requests: seq<Id>, throws: bool)

  datatype End = Finished | Broke | Threw | Unfinished

  /** How far the flush came, the watchers it ran in order, and those still pending. */
  datatype Outcome = Outcome(end: End, order: seq<Id>, left: set<Id>)

  ghost predicate IsLeast(m: Id, p: set<Id>) { m in p && forall x <- p :: m <= x }

  lemma {:induction false} LeastExists(p: set<Id>)
    requires p != {}
    ensures exists m :: IsLeast(m, p)
    decreases p
  {
    var m :| m in p;
    if p - {m} == {} {
      forall x | x in p ensures m <= x {
        assert x == m || x in p - {m};
      }
      assert IsLeast(m, p);
    } else {
      LeastExists(p - {m});
      var n :| IsLeast(n, p - {m});
      assert IsLeast(if n < m then n else m, p) by {
        forall x | x in p ensures (if n < m then n else m) <= x {
          assert x == m || x in p - {m};
        }
      }
    }
  }

  ghost function Least(p: set<Id>): (m: Id)
    requires p != {}
    ensures m in p && forall x <- p :: m <= x
  {
    LeastExists(p);
    var m :| IsLeast(m, p);
    m
  }

  function Circled(circular: map<Id, nat>, id: Id): nat {
    if id in circular then circular[id] else 0
  }

  ghost function Then(m: Id, o: Outcome): Outcome { o.(order := [m] + o.order) }

  /** The k-th run does what the k-th script says; the flush is followed for as many runs as there are scripts. */
  ghost function Flush(p: set<Id>, circular: map<Id, nat>, runs: seq<Script>): Outcome
    decreases |runs|
  {
    if p == {} then Outcome(Finished, [], {})
    else if runs == [] then Outcome(Unfinished, [], p)
    else
      var m := Least(p);
      var q := p - {m} + Elems(runs[0].requests);
      var times := Circled(circular, m) + 1;
      if runs[0].throws then Outcome(Threw, [m], q)
      else if m !in q then Then(m, Flush(q, circular, runs[1..]))
      else if times > MAX_UPDATE_COUNT then Outcome(Broke, [m], q)
      else Then(m, Flush(q, circular[m := times], runs[1..]))
  }

  // ---------- Every watcher queued is run, once for each time it is queued ----------

  function Occurrences(s: seq<Id>, x: Id): nat { multiset(s)[x] }

  /** How often x is queued while the flush runs: a request for a watcher that is pending already is not counted. */
  ghost function Accepted(p: set<Id>, circular: map<Id, nat>, runs: seq<Script>, x: Id): nat
    decreases |runs|
  {
    if p == {} || runs == [] then 0
    else
      var m := Least(p);
      var q := p - {m} + Elems(runs[0].requests);
      var times := Circled(circular, m) + 1;
      var here := if x in q && x !in p - {m} then 1 else 0;
      if runs[0].throws || (m in q && times > MAX_UPDATE_COUNT) then here
      else here + Accepted(q, if m in q then circular[m := times] else circular, runs[1..], x)
  }

  lemma OneMore(m: Id, o: Outcome, x: Id)
    ensures Occurrences(Then(m, o).order, x) == Occurrences(o.order, x) + if x == m then 1 else 0
    ensures Then(m, o).left == o.left
  {
    assert multiset([m] + o.order) == multiset{m} + multiset(o.order);
  }

  function Have(p: set<Id>, x: Id): nat { if x in p then 1 else 0 }

  /** Running m and queueing the requests: what x gains and loses. */
  lemma Balance(p: set<Id>, m: Id, requests: seq<Id>, x: Id)
    requires m in p
    ensures var q := p - {m} + Elems(requests);
            Have(p, x) + (if x in q && x !in p - {m} then 1 else 0) == Have(q, x) + if x == m then 1 else 0
  {
  }

  lemma {:induction false} NothingIsLost(p: set<Id>, circular: map<Id, nat>, runs: seq<Script>, x: Id)
    ensures var o := Flush(p, circular, runs);
            Have(p, x) + Accepted(p, circular, runs, x) == Occurrences(o.order, x) + Have(o.left, x)
    decreases |runs|
  {
    if p != {} && runs != [] {
      var m := Least(p);
      var q := p - {m} + Elems(runs[0].requests);
      var times := Circled(circular, m) + 1;
      Balance(p, m, runs[0].requests, x);
      if !(runs[0].throws || (m in q && times > MAX_UPDATE_COUNT)) {
        var circular' := if m in q then circular[m := times] else circular;
        NothingIsLost(q, circular', runs[1..], x);
        OneMore(m, Flush(q, circular', runs[1..]), x);
      }
    }
  }

  /** A flush that is not broken off leaves nothing behind: every watcher runs as often as it was queued. */
  lemma AllQueuedAreRun(p: set<Id>, circular: map<Id, nat>, runs: seq<Script>, x: Id)
    requires Flush(p, circular, runs).end.Finished?
    ensures Occurrences(Flush(p, circular, runs).order, x) == Have(p, x) + Accepted(p, circular, runs, x)
  {
    FinishedLeavesNothing(p, circular, runs);
    NothingIsLost(p, circular, runs, x);
  }

  lemma {:induction false} FinishedLeavesNothing(p: set<Id>, circular: map<Id, nat>, runs: seq<Script>)
    ensures Flush(p, circular, runs).end.Finished? ==> Flush(p, circular, runs).left == {}
    decreases |runs|
  {
    if p != {} && runs != [] {
      var m := Least(p);
      var q := p - {m} + Elems(runs[0].requests);
      var times := Circled(circular, m) + 1;
      FinishedLeavesNothing(q, circular, runs[1..]);
      FinishedLeavesNothing(q, circular[m := times], runs[1..]);
    }
  }

  // ---------- Parents before children ----------

  ghost predicate Increasing(s: seq<Id>) {
    forall i, j | 0 <= i < j < |s| :: s[i] < s[j]
  }

  /** Each run only queues watchers created after the one that runs. */
  ghost predicate OnlyLater(p: set<Id>, runs: seq<Script>)
    decreases |runs|
  {
    p == {} || runs == [] ||
    (var m := Least(p);
     (forall x <- runs[0].requests :: x > m) && OnlyLater(p - {m} + Elems(runs[0].requests), runs[1..]))
  }

  /** Then the flush runs in the order of creation, each watcher once, and is never broken off by the limit. */
  lemma {:induction false} RunsInOrder(p: set<Id>, circular: map<Id, nat>, runs: seq<Script>)
    requires OnlyLater(p, runs)
    ensures var o := Flush(p, circular, runs);
            !o.end.Broke? && Increasing(o.order) && (o.order != [] ==> p != {} && o.order[0] == Least(p))
    decreases |runs|
  {
    if p != {} && runs != [] {
      var m := Least(p);
      var q := p - {m} + Elems(runs[0].requests);
      RunsInOrder(q, circular, runs[1..]);
    }
  }

  // ---------- The limit ----------

  /** How often x is queued again by its own run, if the scripts are followed without any limit. */
  ghost function SelfQueues(p: set<Id>, runs: seq<Script>, x: Id): nat
    decreases |runs|
  {
    if p == {} || runs == [] || runs[0].throws then 0
    else
      var m := Least(p);
      (if x == m && m in Elems(runs[0].requests) then 1 else 0)
          + SelfQueues(p - {m} + Elems(runs[0].requests), runs[1..], x)
  }

  /** The watcher exceeds the limit, counting what has been counted before. */
  ghost predicate Exceeds(p: set<Id>, circular: map<Id, nat>, runs: seq<Script>, x: Id) {
    Circled(circular, x) + SelfQueues(p, runs, x) > MAX_UPDATE_COUNT
  }

  lemma CountedOn(p: set<Id>, circular: map<Id, nat>, runs: seq<Script>, x: Id)
    requires p != {} && runs != [] && !runs[0].throws
    ensures var m := Least(p);
            var q := p - {m} + Elems(runs[0].requests);
            var circular' := if m in q then circular[m := Circled(circular, m) + 1] else circular;
            Exceeds(p, circular, runs, x) <==> Exceeds(q, circular', runs[1..], x)
  {
  }

  /** The limit breaks the flush off if and only if some watcher queues itself more often than the limit allows. */
  lemma {:induction false} BreaksIff(p: set<Id>, circular: map<Id, nat>, runs: seq<Script>)
    requires forall x :: Circled(circular, x) <= MAX_UPDATE_COUNT
    ensures Flush(p, circular, runs).end.Broke? <==> exists x :: Exceeds(p, circular, runs, x)
    decreases |runs|
  {
    if p != {} && runs != [] && !runs[0].throws {
      var m := Least(p);
      var q := p - {m} + Elems(runs[0].requests);
      var times := Circled(circular, m) + 1;
      if m in q && times > MAX_UPDATE_COUNT {
        assert Exceeds(p, circular, runs, m);
      } else {
        var circular' := if m in q then circular[m := times] else circular;
        forall x ensures Exceeds(p, circular, runs, x) <==> Exceeds(q, circular', runs[1..], x) {
          CountedOn(p, circular, runs, x);
        }
        BreaksIff(q, circular', runs[1..]);
      }
    }
  }

  /** The k-th run throws, and the runs before it leave the flush going on. */
  ghost predicate ThrowsAt(p: set<Id>, circular: map<Id, nat>, runs: seq<Script>, k: nat)
    requires k < |runs|
  {
    runs[k].throws && Flush(p, circular, runs[..k]).end.Unfinished?
  }

  /** What is left of a flush after its first run, which did not throw. */
  lemma ThrowsLater(p: set<Id>, circular: map<Id, nat>, runs: seq<Script>, k: nat)
    requires p != {} && 0 < k < |runs| && !runs[0].throws
    ensures var m := Least(p);
            var q, times := p - {m} + Elems(runs[0].requests), Circled(circular, m) + 1;
            ThrowsAt(p, circular, runs, k) <==>
            if m in q && times > MAX_UPDATE_COUNT then false
            else ThrowsAt(q, if m in q then circular[m := times] else circular, runs[1..], k - 1)
  {
    assert runs[..k][0] == runs[0] && runs[..k][1..] == runs[1..][..k - 1];
  }

  /** A flush is thrown out of if and only if a run throws that it comes to. */
  lemma {:induction false} ThrowsIff(p: set<Id>, circular: map<Id, nat>, runs: seq<Script>)
    ensures Flush(p, circular, runs).end.Threw? <==> exists k: nat :: k < |runs| && ThrowsAt(p, circular, runs, k)
    decreases |runs|
  {
    if p == {} || runs == [] {
      forall k: nat | k < |runs| ensures !ThrowsAt(p, circular, runs, k) {
      }
    } else if runs[0].throws {
      assert runs[..0] == [] && ThrowsAt(p, circular, runs, 0);
    } else {
      var m := Least(p);
      var q, times := p - {m} + Elems(runs[0].requests), Circled(circular, m) + 1;
      var circular' := if m in q then circular[m := times] else circular;
      forall k: nat | 0 < k < |runs|
        ensures ThrowsAt(p, circular, runs, k) <==>
                !(m in q && times > MAX_UPDATE_COUNT) && ThrowsAt(q, circular', runs[1..], k - 1)
      {
        ThrowsLater(p, circular, runs, k);
      }
      ThrowsIff(q, circular', runs[1..]);
      ThrowsShift(p, circular, q, circular', runs, m in q && times > MAX_UPDATE_COUNT);
    }
  }

  lemma ThrowsShift(p: set<Id>, circular: map<Id, nat>, q: set<Id>, circular': map<Id, nat>, runs: seq<Script>,
      broke: bool)
    requires runs != [] && !runs[0].throws
    requires forall k: nat | 0 < k < |runs| ::
               ThrowsAt(p, circular, runs, k) <==> !broke && ThrowsAt(q, circular', runs[1..], k - 1)
    ensures (exists k: nat :: k < |runs| && ThrowsAt(p, circular, runs, k)) <==>
            !broke && exists k: nat :: k < |runs| - 1 && ThrowsAt(q, circular', runs[1..], k)
  {
    if exists k: nat :: k < |runs| && ThrowsAt(p, circular, runs, k) {
      var k: nat :| k < |runs| && ThrowsAt(p, circular, runs, k);
      assert k > 0 && ThrowsAt(q, circular', runs[1..], k - 1);
    }
    if !broke && exists k: nat :: k < |runs| - 1 && ThrowsAt(q, circular', runs[1..], k) {
      var k: nat :| k < |runs| - 1 && ThrowsAt(q, circular', runs[1..], k);
      assert ThrowsAt(p, circular, runs, k + 1);
    }
  }

  ghost predicate RequeuesItself(id: Id, runs: seq<Script>) {
    forall k | 0 <= k < |runs| :: runs[k] == Script([id], false)
  }

  /** A watcher that keeps queueing itself is run once more than the limit, and then the flush is broken off. */
  lemma {:induction false} SelfLoopIsBroken(id: Id, circular: map<Id, nat>, runs: seq<Script>)
    requires RequeuesItself(id, runs) && Circled(circular, id) <= MAX_UPDATE_COUNT
    ensures var n := MAX_UPDATE_COUNT + 1 - Circled(circular, id);
            var o := Flush({id}, circular, runs);
            if |runs| >= n then o.end.Broke? && |o.order| == n else o.end.Unfinished? && |o.order| == |runs|
    decreases |runs|
  {
    if runs != [] {
      assert Least({id}) == id;
      assert {id} - {id} + Elems(runs[0].requests) == {id};
      var times := Circled(circular, id) + 1;
      if times <= MAX_UPDATE_COUNT {
        SelfLoopIsBroken(id, circular[id := times], runs[1..]);
      }
    }
  }

  /** Two watchers that queue each other are not stopped by the limit, however long the flush is followed. */
  lemma {:induction false} PingPongIsNotBroken(a: Id, b: Id, circular: map<Id, nat>, n: nat)
    requires a != b
    ensures Flush({a}, circular, Alternating(b, a, n)).end.Unfinished?
    decreases n
  {
    if n > 0 {
      assert Least({a}) == a;
      assert {a} - {a} + Elems([b]) == {b};
      PingPongIsNotBroken(b, a, circular, n - 1);
      assert Alternating(b, a, n)[1..] == Alternating(a, b, n - 1);
    }
  }

  function Alternating(b: Id, a: Id, n: nat): seq<Script>
    decreases n
  {
    if n == 0 then [] else [Script([b], false)] + Alternating(a, b, n - 1)
  }
}
