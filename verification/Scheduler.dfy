/** The watcher queue as it is written: a sorted array, an index into it, and flags. */
module Scheduler {
  import opened Sequences
  import opened Wrappers
  import opened FlushSpec

  /** queue.sort by id. */
  function InsertById(s: seq<Id>, x: Id): seq<Id> {
    if s == [] || x <= s[0] then [x] + s else [s[0]] + InsertById(s[1..], x)
  }

  function SortById(s: seq<Id>): seq<Id> {
    if s == [] then [] else InsertById(SortById(s[1..]), s[0])
  }

  lemma Headed(x: Id, r: seq<Id>)
    requires Increasing(r) && forall k | 0 <= k < |r| :: x < r[k]
    ensures Increasing([x] + r)
  {
    var s := [x] + r;
    forall i, j | 0 <= i < j < |s| ensures s[i] < s[j] {
      assert s[j] == r[j - 1];
    }
  }

  lemma {:induction false} InsertKeepsSorted(s: seq<Id>, x: Id)
    requires Increasing(s) && x !in s
    ensures Increasing(InsertById(s, x)) && Elems(InsertById(s, x)) == Elems(s) + {x}
  {
    if s == [] || x <= s[0] {
      forall k | 0 <= k < |s| ensures x < s[k] {
        assert s[k] != x && s[0] <= s[k];
      }
      Headed(x, s);
    } else {
      var r := InsertById(s[1..], x);
      InsertKeepsSorted(s[1..], x);
      forall k | 0 <= k < |r| ensures s[0] < r[k] {
        assert r[k] in Elems(r);
      }
      Headed(s[0], r);
      HeadElems(s);
      assert Elems([s[0]] + r) == {s[0]} + Elems(r);
    }
  }

  lemma HeadElems(s: seq<Id>)
    requires s != []
    ensures Elems(s) == {s[0]} + Elems(s[1..])
  {
    assert s == [s[0]] + s[1..];
  }

  lemma Pushed(s: seq<Id>, x: Id)
    requires NoDuplicates(s) && x !in s
    ensures NoDuplicates(s + [x]) && Elems(s + [x]) == Elems(s) + {x}
  {
  }

  lemma {:induction false} SortSorts(s: seq<Id>)
    requires NoDuplicates(s)
    ensures Increasing(SortById(s)) && Elems(SortById(s)) == Elems(s)
  {
    if s != [] {
      SortSorts(s[1..]);
      assert s[0] !in SortById(s[1..]) by {
        assert s[0] !in Elems(s[1..]);
      }
      InsertKeepsSorted(SortById(s[1..]), s[0]);
      assert Elems(s) == Elems(s[1..]) + {s[0]};
    }
  }

  lemma HeadIsLeast(s: seq<Id>)
    requires s != [] && Increasing(s)
    ensures s[0] in Elems(s) && s[0] == Least(Elems(s)) && Elems(s[1..]) == Elems(s) - {s[0]} && Increasing(s[1..])
  {
    assert s[0] in Elems(s);
    forall x | x in s ensures s[0] <= x {
    }
    forall x ensures x in Elems(s[1..]) <==> x in Elems(s) - {s[0]} {
      if x in Elems(s) - {s[0]} {
        var i :| 0 <= i < |s| && s[i] == x;
        assert s[1..][i - 1] == x;
      }
    }
  }

  /** The scheduler's variables. */
  datatype Sched = Sched(
    queue: seq<Id>, has: set<Id>, circular: map<Id, nat>,
    waiting: bool, flushing: bool, index: nat,
    ticks: nat)  // flushes handed to nextTick

  const IDLE := Sched([], {}, map[], false, false, 0, 0)

  /** While a watcher runs, what is left of the queue starts after its index. */
  function Rest(s: Sched): seq<Id> {
    if !s.flushing then s.queue else if s.index < |s.queue| then s.queue[s.index + 1..] else []
  }

  /** What is left is free of duplicates, sorted while a flush is on, and `has` marks exactly its members. */
  ghost predicate Valid(s: Sched) {
    && s.has == Elems(Rest(s))
    && (if s.flushing then s.index < |s.queue| && Increasing(Rest(s)) && s.waiting
        else s.index == 0 && NoDuplicates(s.queue) && s.circular == map[] && (s.waiting <==> s.queue != []))
  }

  /** Between two runs: the queue from the index on is what is pending. */
  ghost predicate BetweenRuns(s: Sched) {
    s.flushing && s.waiting && s.index <= |s.queue| && Increasing(s.queue[s.index..])
        && s.has == Elems(s.queue[s.index..])
  }

  lemma Between(a: seq<Id>, id: Id, b: seq<Id>)
    requires Increasing(a) && Increasing(b) && (a != [] ==> a[|a| - 1] < id) && (forall k | 0 <= k < |b| :: id < b[k])
    ensures Increasing(a + [id] + b)
  {
    var s := a + [id] + b;
    forall i, j | 0 <= i < j < |s| ensures s[i] < s[j] {
      if j > |a| {
        assert s[j] == b[j - |a| - 1];
      }
    }
  }

  lemma Halves(a: seq<Id>, b: seq<Id>)
    requires Increasing(a + b)
    ensures Increasing(a) && Increasing(b)
  {
    forall j, k | 0 <= j < k < |a| ensures a[j] < a[k] {
      assert (a + b)[j] == a[j] && (a + b)[k] == a[k];
    }
    forall j, k | 0 <= j < k < |b| ensures b[j] < b[k] {
      assert (a + b)[|a| + j] == b[j] && (a + b)[|a| + k] == b[k];
    }
  }

  lemma ElemsAround(a: seq<Id>, id: Id, b: seq<Id>)
    ensures Elems(a + [id] + b) == Elems(a + b) + {id}
  {
    forall x ensures x in Elems(a + [id] + b) <==> x in Elems(a + b) + {id} {
    }
  }

  lemma CutAt(queue: seq<Id>, id: Id, from: nat, i: nat)
    requires from <= i + 1 <= |queue|
    ensures var q := queue[..i + 1] + [id] + queue[i + 1..];
            q[from..] == queue[from..i + 1] + [id] + queue[i + 1..]
    ensures queue[from..] == queue[from..i + 1] + queue[i + 1..]
  {
  }

  function SpliceAfter(queue: seq<Id>, i: nat, id: Id): seq<Id>
    requires i < |queue|
  {
    queue[..i + 1] + [id] + queue[i + 1..]
  }

  /** After the index the queue is sorted and holds `members`. */
  ghost predicate SortedAfter(q: seq<Id>, index: nat, members: set<Id>) {
    index < |q| && Increasing(q[index + 1..]) && Elems(q[index + 1..]) == members
  }

  /** Where the scan from the end stops is where id belongs. */
  lemma Spliced(queue: seq<Id>, index: nat, i: nat, id: Id)
    requires index <= i < |queue| && Increasing(queue[index + 1..]) && id !in queue[index + 1..]
    requires (forall k | i < k < |queue| :: queue[k] > id) && (i == index || queue[i] <= id)
    ensures SortedAfter(SpliceAfter(queue, i, id), index, Elems(queue[index + 1..]) + {id})
  {
    var a, b := queue[index + 1..i + 1], queue[i + 1..];
    CutAt(queue, id, index + 1, i);
    Halves(a, b);
    if i > index {
      assert queue[index + 1..][i - index - 1] == queue[i];
    }
    Between(a, id, b);
    ElemsAround(a, id, b);
  }

  /** Where a watcher queued during a flush goes: scanned for from the end, never before the running one. */
  function PlaceFor(queue: seq<Id>, index: nat, id: Id, i: nat): (place: nat)
    requires index <= i < |queue|
    ensures index <= place <= i && (place == index || queue[place] <= id) && forall k | place < k <= i :: queue[k] > id
  {
    if i > index && queue[i] > id then PlaceFor(queue, index, id, i - 1) else i
  }

  function Inserted(s: Sched, id: Id): seq<Id>
    requires s.flushing ==> s.index < |s.queue|
  {
    if !s.flushing then s.queue + [id]
    else SpliceAfter(s.queue, PlaceFor(s.queue, s.index, id, |s.queue| - 1), id)
  }

  function Queued(s: Sched, id: Id): Sched
    requires s.flushing ==> s.index < |s.queue|
  {
    if id in s.has then s
    else s.(has := s.has + {id}, queue := Inserted(s, id), waiting := true, ticks := if s.waiting then s.ticks
        else s.ticks + 1)
  }

  lemma Scanned(queue: seq<Id>, index: nat, id: Id)
    requires index < |queue| && Increasing(queue[index + 1..]) && id !in Elems(queue[index + 1..])
    ensures SortedAfter(SpliceAfter(queue, PlaceFor(queue, index, id, |queue| - 1), id), index,
            Elems(queue[index + 1..]) + {id})
  {
    Spliced(queue, index, PlaceFor(queue, index, id, |queue| - 1), id);
  }

  lemma InsertedKeeps(s: Sched, id: Id)
    requires Valid(s) && id !in s.has && s.flushing
    ensures SortedAfter(Inserted(s, id), s.index, s.has + {id})
  {
    Scanned(s.queue, s.index, id);
  }

  lemma FlushingValid(s: Sched)
    requires s.flushing && s.waiting && SortedAfter(s.queue, s.index, s.has)
    ensures Valid(s)
  {
  }

  lemma QueuedInFlush(s: Sched, id: Id)
    requires Valid(s) && id !in s.has && s.flushing
    ensures Valid(Queued(s, id))
  {
    InsertedKeeps(s, id);
    FlushingValid(Queued(s, id));
  }

  lemma QueuedBefore(s: Sched, id: Id)
    requires Valid(s) && id !in s.has && !s.flushing
    ensures Valid(Queued(s, id))
  {
    Pushed(s.queue, id);
  }

  lemma QueuedKeeps(s: Sched, id: Id)
    requires Valid(s)
    ensures var t := Queued(s, id);
            && Valid(t) && t.has == s.has + {id} && t.index == s.index && t.flushing == s.flushing
                && t.circular == s.circular
            && t.ticks == s.ticks + (if s.waiting then 0 else 1)
  {
    if id in s.has {
      assert s.has + {id} == s.has && Rest(s) != [];
    } else if s.flushing {
      QueuedInFlush(s, id);
    } else {
      QueuedBefore(s, id);
    }
  }

  /** The watchers that one run queues. */
  function AllQueued(s: Sched, requests: seq<Id>): Sched
    requires Valid(s)
    decreases |requests|
  {
    if requests == [] then s
    else
      QueuedKeeps(s, requests[0]);
      AllQueued(Queued(s, requests[0]), requests[1..])
  }

  lemma {:induction false} AllQueuedKeeps(s: Sched, requests: seq<Id>)
    requires Valid(s) && s.flushing
    ensures var t := AllQueued(s, requests);
            Valid(t) && t.flushing && t.has == s.has + Elems(requests) && t.index == s.index && t.circular == s.circular
                && t.ticks == s.ticks
    decreases |requests|
  {
    if requests == [] {
      assert s.has + Elems(requests) == s.has;
    } else {
      QueuedKeeps(s, requests[0]);
      AllQueuedKeeps(Queued(s, requests[0]), requests[1..]);
      HeadElems(requests);
      assert s.has + {requests[0]} + Elems(requests[1..]) == s.has + Elems(requests);
    }
  }

  /** The least pending watcher is unmarked, to be run. */
  function Unmarked(s: Sched): Sched
    requires s.index < |s.queue|
  {
    s.(has := s.has - {s.queue[s.index]})
  }

  lemma UnmarkedKeeps(s: Sched)
    requires BetweenRuns(s) && s.index < |s.queue|
    ensures Valid(Unmarked(s)) && s.has != {} && s.queue[s.index] == Least(s.has)
  {
    HeadIsLeast(s.queue[s.index..]);
    assert s.queue[s.index..][1..] == s.queue[s.index + 1..];
  }

  ghost function After(order: seq<Id>, o: Outcome): Outcome { o.(order := order + o.order) }

  /** The counters of circular updates after m has run and `q` is pending. */
  function CircledOn(circular: map<Id, nat>, m: Id, q: set<Id>): map<Id, nat> {
    if m in q then circular[m := Circled(circular, m) + 1] else circular
  }

  predicate OverLimit(circular: map<Id, nat>, m: Id, q: set<Id>) {
    m in q && Circled(circular, m) + 1 > MAX_UPDATE_COUNT
  }

  /** One turn of the specification, after the watchers in `order`. */
  lemma Unfold(p: set<Id>, circular: map<Id, nat>, runs: seq<Script>, k: nat, order: seq<Id>)
    requires k < |runs| && p != {}
    ensures var m := Least(p);
            var q := p - {m} + Elems(runs[k].requests);
            After(order, Flush(p, circular, runs[k..])) ==
            if runs[k].throws then Outcome(Threw, order + [m], q)
            else if OverLimit(circular, m, q) then Outcome(Broke, order + [m], q)
            else After(order + [m], Flush(q, CircledOn(circular, m, q), runs[k + 1..]))
  {
    assert runs[k..][1..] == runs[k + 1..];
    var m := Least(p);
    var q := p - {m} + Elems(runs[k].requests);
    var rest := Flush(q, CircledOn(circular, m, q), runs[k + 1..]).order;
    assert order + ([m] + rest) == order + [m] + rest;
  }

  /** The check for circular updates after a run, and on to the next watcher. */
  function Checked(s: Sched, id: Id): Sched {
    var t := s.(circular := CircledOn(s.circular, id, s.has));
    if OverLimit(s.circular, id, s.has) then t else t.(index := s.index + 1)
  }

  lemma CheckedKeeps(s: Sched, id: Id)
    requires Valid(s) && s.flushing
    ensures if OverLimit(s.circular, id, s.has) then Valid(Checked(s, id)) else BetweenRuns(Checked(s, id))
    ensures Checked(s, id) == s.(circular := CircledOn(s.circular, id, s.has), index := Checked(s, id).index)
  {
  }

  function Started(s: Sched): Sched { s.(flushing := true, queue := SortById(s.queue), index := 0) }

  lemma StartedKeeps(s: Sched)
    requires Valid(s) && !s.flushing && s.waiting
    ensures BetweenRuns(Started(s))
  {
    SortSorts(s.queue);
    assert SortById(s.queue)[0..] == SortById(s.queue);
  }

  class SchedulerState {
    var queue: seq<Id>
    var has: set<Id>
    var circular: map<Id, nat>
    var waiting: bool
    var flushing: bool
    var index: nat
    var ticks: nat

    function View(): Sched
      reads this
    {
      Sched(queue, has, circular, waiting, flushing, index, ticks)
    }

    constructor ()
      ensures View() == IDLE && Valid(View())
    {
      queue, has, circular, waiting, flushing, index, ticks := [], {}, map[], false, false, 0, 0;
    }

    method Scan(id: Id) returns (i: nat)
      requires index < |queue|
      ensures i < |queue| && i == PlaceFor(queue, index, id, |queue| - 1)
    {
      i := |queue| - 1;
      while i > index && queue[i] > id
        invariant index <= i < |queue|
        invariant PlaceFor(queue, index, id, i) == PlaceFor(queue, index, id, |queue| - 1)
      {
        i := i - 1;
      }
    }

    method Insert(id: Id)
      requires flushing ==> index < |queue|
      modifies `queue
      ensures queue == Inserted(old(View()), id)
    {
      if !flushing {
        queue := queue + [id];
      } else {
        var i := Scan(id);
        queue := SpliceAfter(queue, i, id);
      }
    }

    method QueueWatcher(id: Id)
      requires Valid(View())
      modifies `queue, `has, `waiting, `ticks
      ensures View() == Queued(old(View()), id)
      ensures Valid(View()) && has == old(has) + {id}
      ensures ticks == old(ticks) + if old(waiting) then 0 else 1
    {
      QueuedKeeps(View(), id);
      if id !in has {
        Insert(id);
        has := has + {id};
        if !waiting {
          waiting := true;
          ticks := ticks + 1;
        }
      }
    }

    /** watcher.run(), as far as the scheduler sees it: it queues watchers. */
    method Run(requests: seq<Id>)
      requires Valid(View())
      modifies `queue, `has, `waiting, `ticks
      ensures View() == AllQueued(old(View()), requests)
    {
      var i := 0;
      assert requests[0..] == requests;
      while i < |requests|
        invariant i <= |requests| && Valid(View())
        invariant AllQueued(View(), requests[i..]) == AllQueued(old(View()), requests)
      {
        QueueWatcher(requests[i]);
        assert requests[i..][1..] == requests[i + 1..];
        i := i + 1;
      }
    }

    method CheckCircular(id: Id) returns (broke: bool)
      modifies `circular, `index
      ensures broke == OverLimit(old(circular), id, has) && View() == Checked(old(View()), id)
    {
      broke := false;
      if id in has {
        circular := circular[id := Circled(circular, id) + 1];
        broke := circular[id] > MAX_UPDATE_COUNT;
      }
      if !broke {
        index := index + 1;
      }
    }

    /** One turn of the flush with its check: None while the flush goes on. */
    method Turn(script: Script) returns (id: Id, end: Option<End>)
      requires BetweenRuns(View()) && index < |queue|
      modifies `queue, `has, `waiting, `ticks, `circular, `index
      ensures old(has) != {} && id == Least(old(has)) && has == old(has) - {id} + Elems(script.requests)
      ensures end == if script.throws then Some(Threw) else if OverLimit(old(circular), id, has) then Some(Broke)
              else None
      ensures if end.None? then BetweenRuns(View()) && circular == CircledOn(old(circular), id, has)
              else Valid(View()) && flushing
      ensures ticks == old(ticks)
    {
      UnmarkedKeeps(View());
      id := queue[index];
      has := has - {id};
      AllQueuedKeeps(View(), script.requests);
      Run(script.requests);
      if script.throws {
        return id, Some(Threw);
      }
      CheckedKeeps(View(), id);
      var broke := CheckCircular(id);
      end := if broke then Some(Broke) else None;
    }

    method StartFlush()
      modifies `flushing, `queue, `index
      ensures View() == Started(old(View()))
    {
      flushing := true;
      queue := SortById(queue);
      index := 0;
    }

    method ResetSchedulerState()
      modifies this
      ensures View() == IDLE.(ticks := old(ticks))
    {
      index, queue, has, circular, waiting, flushing := 0, [], {}, map[], false, false;
    }

    /**
     flushSchedulerQueue, followed for as many runs as there are scripts.  It runs the watchers that the
     specification runs; a run that throws leaves the flags as they are, so no later flush is asked for.
     */
    method FlushSchedulerQueue(runs: seq<Script>) returns (end: End, order: seq<Id>, ghost left: set<Id>)
      requires Valid(View()) && !flushing && waiting
      modifies this
      ensures Outcome(end, order, left) == Flush(old(has), map[], runs)
      ensures end.Finished? || end.Broke? ==> View() == IDLE.(ticks := ticks)
      ensures end.Threw? ==> Valid(View()) && flushing && waiting && has == left
      ensures ticks == old(ticks)
    {
      StartedKeeps(View());
      StartFlush();
      ghost var all := Flush(has, circular, runs);
      order := [];
      var k := 0;
      assert runs[0..] == runs;
      while index < |queue| && k < |runs|
        invariant BetweenRuns(View()) && k <= |runs| && ticks == old(ticks)
        invariant all == After(order, Flush(has, circular, runs[k..]))
        decreases |runs| - k
      {
        ghost var p, circular0 := has, circular;
        var id, stop := Turn(runs[k]);
        Unfold(p, circular0, runs, k, order);
        order := order + [id];
        if stop.Some? {
          end, left := stop.value, has;
          if end.Broke? {
            ResetSchedulerState();
          }
          return;
        }
        k := k + 1;
      }
      left := has;
      end := if index < |queue| then Unfinished else Finished;
      if index < |queue| {
        assert queue[index..][0] in has;
      } else {
        ResetSchedulerState();
      }
    }
  }

  /**
   After a run that threw the queue is stuck: whatever is queued from then on is marked, and no flush is asked for.
   */
  lemma ThrownFlushIsStuck(s: Sched, later: seq<Id>)
    requires Valid(s) && s.flushing
    ensures var t := AllQueued(s, later);
            t.ticks == s.ticks && t.flushing && t.waiting && t.has == s.has + Elems(later)
  {
    AllQueuedKeeps(s, later);
  }
}
