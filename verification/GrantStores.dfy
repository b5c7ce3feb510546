/**
 MySQL and Redis as every worker sees them, one method per access, and the stretches of the step system that the
 workers' methods go through while all the others go on.
 */
module GrantStores {
  import opened Wrappers
  import opened GrantProtocol
  import opened GrantSafety
  import opened GrantTheorems
  import opened GrantAnyRun
  import opened GrantReasons

  // ---------- Stretches of a run ----------

  /** From a, steps lead to b; if `clean`, disciplined ones. */
  ghost predicate Path(states: seq<State>, steps: seq<Step>, a: State, b: State, clean: bool) {
    && Continues(states, steps) && (clean ==> AllDisciplined(states, steps))
    && states[0] == a && states[|steps|] == b
  }

  ghost predicate Goes(a: State, b: State, clean: bool) {
    exists states: seq<State>, steps: seq<Step> :: Path(states, steps, a, b, clean)
  }

  lemma GoesNowhere(a: State, clean: bool)
    ensures Goes(a, a, clean)
  {
    assert Path([a], [], a, a, clean);
  }

  lemma PathOn(states: seq<State>, steps: seq<Step>, a: State, b: State, clean: bool, e: Step, clean': bool)
    requires Path(states, steps, a, b, clean) && Enabled(b, e) && (clean' ==> clean && Disciplined(b, e))
    ensures Path(states + [Next(b, e)], steps + [e], a, Next(b, e), clean')
  {
    var states', steps' := states + [Next(b, e)], steps + [e];
    forall i: nat | i < |steps'| ensures StepAt(states', steps', i) && (clean' ==> Disciplined(states'[i], steps'[i])) {
      if i < |steps| {
        assert StepAt(states, steps, i);
        assert states'[i] == states[i] && states'[i + 1] == states[i + 1] && steps'[i] == steps[i];
      }
    }
  }

  lemma GoesOn(a: State, b: State, clean: bool, e: Step, clean': bool)
    requires Goes(a, b, clean) && Enabled(b, e) && (clean' ==> clean && Disciplined(b, e))
    ensures Goes(a, Next(b, e), clean')
  {
    var states: seq<State>, steps: seq<Step> :| Path(states, steps, a, b, clean);
    PathOn(states, steps, a, b, clean, e, clean');
  }

  /** One step of two runs put end to end. */
  lemma StepOfBoth(s1: seq<State>, t1: seq<Step>, s2: seq<State>, t2: seq<Step>, i: nat)
    requires |s1| == |t1| + 1 && |s2| == |t2| + 1 && s1[|t1|] == s2[0] && i < |t1| + |t2|
    ensures var s3, t3 := s1 + s2[1..], t1 + t2;
            if i < |t1| then s3[i] == s1[i] && s3[i + 1] == s1[i + 1] && t3[i] == t1[i]
            else s3[i] == s2[i - |t1|] && s3[i + 1] == s2[i - |t1| + 1] && t3[i] == t2[i - |t1|]
  {
  }

  lemma PathThrough(s1: seq<State>, t1: seq<Step>, s2: seq<State>, t2: seq<Step>, a: State, b: State, c: State,
                    f1: bool, f2: bool)
    requires Path(s1, t1, a, b, f1) && Path(s2, t2, b, c, f2) && (f2 ==> f1)
    ensures Path(s1 + s2[1..], t1 + t2, a, c, f2)
  {
    var s3, t3 := s1 + s2[1..], t1 + t2;
    forall i: nat | i < |t3| ensures StepAt(s3, t3, i) && (f2 ==> Disciplined(s3[i], t3[i])) {
      StepOfBoth(s1, t1, s2, t2, i);
      if i < |t1| {
        assert StepAt(s1, t1, i);
      } else {
        assert StepAt(s2, t2, i - |t1|);
      }
    }
  }

  lemma GoesThrough(a: State, b: State, c: State, f1: bool, f2: bool)
    requires Goes(a, b, f1) && Goes(b, c, f2) && (f2 ==> f1)
    ensures Goes(a, c, f2)
  {
    var s1: seq<State>, t1: seq<Step> :| Path(s1, t1, a, b, f1);
    var s2: seq<State>, t2: seq<Step> :| Path(s2, t2, b, c, f2);
    PathThrough(s1, t1, s2, t2, a, b, c, f1, f2);
  }

  /** A disciplined stretch keeps what is good and safe. */
  lemma GoesKeepsInv(a: State, b: State)
    requires Goes(a, b, true) && Inv(a)
    ensures Inv(b) && Safe(b)
  {
    var states: seq<State>, steps: seq<Step> :| Path(states, steps, a, b, true);
    InvContinues(states, steps, |steps|);
    InvIsSafe(b);
  }

  lemma {:induction false} ContinuesKept(states: seq<State>, steps: seq<Step>, n: nat)
    requires Continues(states, steps) && Kept(states[0]) && n <= |steps|
    ensures Kept(states[n])
  {
    if n > 0 {
      ContinuesKept(states, steps, n - 1);
      assert StepAt(states, steps, n - 1);
      AnyStepKeeps(states[n - 1], steps[n - 1]);
    }
  }

  /** Any stretch keeps what every run keeps, and rewrites no history. */
  lemma GoesKept(a: State, b: State, clean: bool)
    requires Goes(a, b, clean)
    ensures Persists(a, b)
    ensures Kept(a) ==> Kept(b)
  {
    var states: seq<State>, steps: seq<Step> :| Path(states, steps, a, b, clean);
    HistoryIsNeverRewritten(states, steps, 0, |steps|);
    if Kept(a) {
      ContinuesKept(states, steps, |steps|);
    }
  }

  lemma GoesLoosely(a: State, b: State, clean: bool)
    requires Goes(a, b, clean)
    ensures Goes(a, b, false)
  {
    var states: seq<State>, steps: seq<Step> :| Path(states, steps, a, b, clean);
    assert Path(states, steps, a, b, false);
  }

  lemma GoesHoldingRows(a: State, b: State, clean: bool)
    requires Goes(a, b, clean) && RowsHeld(a)
    ensures RowsHeld(b)
  {
    var states: seq<State>, steps: seq<Step> :| Path(states, steps, a, b, clean);
    RowsHeldOn(states, steps, |steps|);
  }

  // ---------- What can go wrong ----------

  /** Why a call into the outside world, or what rests on it, did not come to its end; `at`: where that was. */
  datatype Mishap =
    | CallFailed              // a call threw, before or after it took effect
    | Interrupted             // the back-off sleep was interrupted
    | LockFailed              // asking for the user's lock threw or was interrupted
    | LockTaken(at: State)    // the user's lock was not to be had
    | RowBusy(at: State)      // the stock update met a row lock
    | NoInsert(at: State)     // the rows of the transaction could not be inserted
    | TooFresh                // the listed message has not been idle long enough
    | NotPending(at: State, seen: nat) // the listed message is not pending, or was never seen that often

  datatype Entry = Entry(order: OrderId, mishap: Mishap)

  /** What the entry says was so, at a moment of a stretch from `start`. */
  ghost predicate Genuine(start: State, me: WorkerId, e: Entry) {
    match e.mishap
    case LockTaken(at) =>
      Goes(start, at, false) && e.order in at.redis.msgs && at.redis.msgs[e.order].user in at.locks
    case RowBusy(at) =>
      && Goes(start, at, false) && e.order in at.redis.msgs && at.redis.msgs[e.order].sku in at.rowLocks
      && (RowsHeld(start) ==> at.rowLocks[at.redis.msgs[e.order].sku] != me)
    case NoInsert(at) =>
      && Goes(start, at, false) && e.order in at.redis.msgs
      && (e.order in at.db.orders || !Live(at.db, at.redis.msgs[e.order].sku)
          || at.db.skus[at.redis.msgs[e.order].sku].tokenAmount <= 0)
    case NotPending(at, seen) =>
      && Goes(start, at, false)
      && !(e.order in at.redis.delivery && at.redis.delivery[e.order].Pending?
           && seen <= at.redis.delivery[e.order].count)
    case _ => true
  }

  lemma GenuineFrom(start: State, mid: State, clean: bool, me: WorkerId, e: Entry)
    requires Goes(start, mid, clean) && Genuine(mid, me, e)
    ensures Genuine(start, me, e)
  {
    GoesLoosely(start, mid, clean);
    if e.mishap.LockTaken? || e.mishap.RowBusy? || e.mishap.NoInsert? || e.mishap.NotPending? {
      GoesThrough(start, mid, e.mishap.at, false, false);
    }
    if RowsHeld(start) {
      GoesHoldingRows(start, mid, clean);
    }
  }

  /** The update met a row lock while this worker held none. */
  lemma BusyRowIsAnothers(start: State, at: State, clean: bool, me: WorkerId, s: SkuId)
    requires Goes(start, at, clean) && s in at.rowLocks && !PcOf(at, me).Deducted?
    ensures RowsHeld(start) ==> at.rowLocks[s] != me
  {
    if RowsHeld(start) {
      GoesHoldingRows(start, at, clean);
    }
  }

  /** One mishap more, about this order. */
  ghost predicate OneMore(start: State, me: WorkerId, order: OrderId, before: seq<Entry>, after: seq<Entry>) {
    && |after| == |before| + 1 && after[..|before|] == before
    && after[|before|].order == order && Genuine(start, me, after[|before|])
  }

  /** Nothing was struck out, and what was added is about this order and was so. */
  ghost predicate Adds(start: State, me: WorkerId, order: OrderId, before: seq<Entry>, after: seq<Entry>) {
    before <= after && forall k | |before| <= k < |after| :: after[k].order == order && Genuine(start, me, after[k])
  }

  lemma AddsOne(start: State, me: WorkerId, order: OrderId, a: seq<Entry>, b: seq<Entry>, c: seq<Entry>)
    requires Adds(start, me, order, a, b) && (c == b || OneMore(start, me, order, b, c))
    ensures Adds(start, me, order, a, c)
  {
  }

  /** The same of any orders. */
  ghost predicate Told(start: State, me: WorkerId, before: seq<Entry>, after: seq<Entry>) {
    before <= after && forall k | |before| <= k < |after| :: Genuine(start, me, after[k])
  }

  /** What leaves a message unhandled at once. */
  predicate Final(m: Mishap) {
    m.LockFailed? || m.LockTaken? || m.Interrupted? || m.TooFresh? || m.NotPending?
  }

  /** The entries from i to j are about this order, and enough to give it up: one for each attempt, or a final one. */
  ghost predicate GivesUp(all: seq<Entry>, i: int, j: int, order: OrderId) {
    && 0 <= i < j <= |all| && (forall k | i <= k < j :: all[k].order == order)
    && (j - i >= MAX_ATTEMPTS || Final(all[j - 1].mishap))
  }

  /** Enough has gone wrong with this order since. */
  ghost predicate Blamed(before: seq<Entry>, after: seq<Entry>, order: OrderId) {
    exists i, j :: |before| <= i && GivesUp(after, i, j, order)
  }

  lemma AddsBlames(start: State, me: WorkerId, order: OrderId, before: seq<Entry>, after: seq<Entry>)
    requires Adds(start, me, order, before, after) && before != after
    requires Final(after[|after| - 1].mishap) || |after| >= |before| + MAX_ATTEMPTS
    ensures Blamed(before, after, order)
  {
    assert GivesUp(after, |before|, |after|, order);
  }

  lemma ToldThrough(start: State, mid: State, clean: bool, me: WorkerId, a: seq<Entry>, b: seq<Entry>, c: seq<Entry>)
    requires Told(start, me, a, b) && Goes(start, mid, clean) && Told(mid, me, b, c)
    ensures Told(start, me, a, c)
  {
    forall k | |a| <= k < |c| ensures Genuine(start, me, c[k]) {
      if k < |b| {
        assert c[k] == b[k];
      } else {
        GenuineFrom(start, mid, clean, me, c[k]);
      }
    }
  }

  lemma BlamedOn(a: seq<Entry>, b: seq<Entry>, c: seq<Entry>, order: OrderId)
    requires a <= b <= c && (Blamed(a, b, order) || Blamed(b, c, order))
    ensures Blamed(a, c, order)
  {
    if Blamed(a, b, order) {
      var i, j :| |a| <= i && GivesUp(b, i, j, order);
      assert GivesUp(c, i, j, order);
    }
  }

  // ---------- The others ----------

  /** The step is not one of worker `me`. */
  predicate NotMine(e: Step, me: WorkerId) { e.Outside? || e.w != me }

  ghost predicate SameMsgs(a: State, b: State) {
    forall o <- a.redis.msgs :: o in b.redis.msgs && b.redis.msgs[o] == a.redis.msgs[o]
  }

  lemma OutsideIsOther(a: State, e: OutsideAct, me: WorkerId)
    requires OutsideEnabled(a, e)
    ensures PcOf(NextOutside(a, e), me) == PcOf(a, me) && SameMsgs(a, NextOutside(a, e))
  {
  }

  lemma ProcessIsOther(a: State, w: WorkerId, e: ProcessAct, me: WorkerId)
    requires ProcessEnabled(a, w, e) && w != me
    ensures PcOf(NextProcess(a, w, e), me) == PcOf(a, me) && SameMsgs(a, NextProcess(a, w, e))
  {
  }

  lemma HandleIsOther(a: State, w: WorkerId, e: HandleAct, me: WorkerId)
    requires HandleEnabled(a, w, e) && w != me
    ensures PcOf(NextHandle(a, w, e), me) == PcOf(a, me) && SameMsgs(a, NextHandle(a, w, e))
  {
  }

  lemma DeadIsOther(a: State, w: WorkerId, e: DeadAct, me: WorkerId)
    requires DeadEnabled(a, w, e) && w != me
    ensures PcOf(NextDead(a, w, e), me) == PcOf(a, me) && SameMsgs(a, NextDead(a, w, e))
  {
  }

  /** Whatever the others do, worker `me` stands where it stood and its message is the same. */
  lemma OthersLeaveMe(a: State, e: Step, me: WorkerId)
    requires Enabled(a, e) && NotMine(e, me)
    ensures PcOf(Next(a, e), me) == PcOf(a, me) && SameMsgs(a, Next(a, e)) && Persists(a, Next(a, e))
  {
    StepPersists(a, e);
    match e {
      case Outside(x) => OutsideIsOther(a, x, me);
      case Process(w, x) => ProcessIsOther(a, w, x, me);
      case Handle(w, x) => HandleIsOther(a, w, x, me);
      case Dead(w, x) => DeadIsOther(a, w, x, me);
    }
  }

  /**
   The stores; `workers` says where each worker's code stands, `clean` whether all steps have been disciplined,
   `mishaps` what went wrong in the methods that ran here.
   */
  class Stores {
    var db: Db
    var redis: Redis
    var locks: map<UserId, WorkerId>
    var rowLocks: map<SkuId, WorkerId>
    var workers: map<WorkerId, Pc>
    ghost var clean: bool
    ghost var mishaps: seq<Entry>

    function View(): State
      reads this
    {
      State(db, redis, locks, rowLocks, workers)
    }

    /** A stretch has led here from `start`; it is disciplined if all has been. */
    ghost predicate Since(start: State, clean0: bool)
      reads this
    {
      Goes(start, View(), clean) && (clean ==> clean0)
    }

    ghost predicate At(me: WorkerId, pc: Pc, m: Msg)
      reads this
    {
      PcOf(View(), me) == pc && !pc.Idle? && pc.job.order in redis.msgs && redis.msgs[pc.job.order] == m
    }

    /** The step from `before` to now is added to the stretch. */
    ghost method Took(start: State, clean0: bool, before: State, e: Step)
      requires Goes(start, before, clean) && (clean ==> clean0) && Enabled(before, e) && View() == Next(before, e)
      modifies `clean
      ensures Since(start, clean0)
    {
      var now := clean && Disciplined(before, e);
      GoesOn(start, before, clean, e, now);
      clean := now;
    }

    method Become(st: State)
      modifies `db, `redis, `locks, `rowLocks, `workers
      ensures View() == st
    {
      db, redis, locks, rowLocks, workers := st.db, st.redis, st.locks, st.rowLocks, st.workers;
    }

    /** Any number of steps of claims, administrators and the other workers. */
    method OthersMove(ghost start: State, ghost clean0: bool, me: WorkerId)
      requires Since(start, clean0)
      modifies `db, `redis, `locks, `rowLocks, `workers, `clean
      ensures Since(start, clean0) && PcOf(View(), me) == PcOf(old(View()), me)
      ensures SameMsgs(old(View()), View()) && Persists(old(View()), View())
    {
      var n: nat := *;
      HistoryStands(View());
      while n > 0
        invariant Since(start, clean0) && PcOf(View(), me) == PcOf(old(View()), me)
        invariant SameMsgs(old(View()), View()) && Persists(old(View()), View())
      {
        var e: Step := *;
        if Enabled(View(), e) && NotMine(e, me) {
          ghost var before := View();
          OthersLeaveMe(before, e, me);
          PersistsTransitive(old(View()), before, Next(before, e));
          Become(Next(View(), e));
          Took(start, clean0, before, e);
        }
        n := n - 1;
      }
    }

    /** A call that may throw, before or after it takes effect. */
    method Fails(ghost order: OrderId) returns (fault: bool)
      modifies `mishaps
      ensures mishaps == old(mishaps) + if fault then [Entry(order, CallFailed)] else []
    {
      fault := *;
      mishaps := mishaps + if fault then [Entry(order, CallFailed)] else [];
    }

    /** The back-off between two attempts. */
    method SleepInterrupted(ghost order: OrderId) returns (interrupted: bool)
      modifies `mishaps
      ensures mishaps == old(mishaps) + if interrupted then [Entry(order, Interrupted)] else []
    {
      interrupted := *;
      mishaps := mishaps + if interrupted then [Entry(order, Interrupted)] else [];
    }

    /** The listing's idle time is below the threshold. */
    method IdleTooShort(ghost order: OrderId) returns (short: bool)
      modifies `mishaps
      ensures mishaps == old(mishaps) + if short then [Entry(order, TooFresh)] else []
    {
      short := *;
      mishaps := mishaps + if short then [Entry(order, TooFresh)] else [];
    }

    /** An update that meets another transaction's row lock waits in vain. */
    method UpdateBlocked(ghost order: OrderId, m: Msg) returns (blocked: bool)
      modifies `mishaps
      ensures blocked == (m.sku in rowLocks)
      ensures mishaps == old(mishaps) + if blocked then [Entry(order, RowBusy(View()))] else []
    {
      blocked := m.sku in rowLocks;
      mishaps := mishaps + if blocked then [Entry(order, RowBusy(View()))] else [];
    }

    /** A row that is there already, or an amount that grantCredits does not take. */
    method InsertRefused(order: OrderId, m: Msg) returns (refused: bool)
      modifies `mishaps
      ensures refused == !CanInsert(db, order, m.sku)
      ensures mishaps == old(mishaps) + if refused then [Entry(order, NoInsert(View()))] else []
    {
      refused := order in db.orders || !(m.sku in db.skus && db.skus[m.sku].live) || db.skus[m.sku].tokenAmount <= 0;
      mishaps := mishaps + if refused then [Entry(order, NoInsert(View()))] else [];
    }

    /** XREADGROUP hands out an unread message. */
    method ReadGroup(order: OrderId) returns (read: bool)
      modifies `redis
      ensures read == (order in old(redis.delivery) && old(redis.delivery)[order].Unread?)
      ensures View() == if read then Next(old(View()), Outside(Deliver(order))) else old(View())
    {
      read := order in redis.delivery && redis.delivery[order].Unread?;
      if read {
        redis := redis.(delivery := redis.delivery[order := Pending(1)]);
      }
    }

    method Begin(me: WorkerId, order: OrderId)
      modifies `db, `redis, `locks, `rowLocks, `workers
      ensures View() == DoStart(old(View()), me, order)
    {
      workers := workers[me := Got(Job(order, Poll, 1))];
    }

    /** XCLAIM: false when the message is no longer pending. */
    method Claim(me: WorkerId, order: OrderId, seen: nat) returns (claimed: bool)
      modifies `db, `redis, `locks, `rowLocks, `workers, `mishaps
      ensures !claimed ==> View() == old(View())
      ensures mishaps == old(mishaps) + if claimed then [] else [Entry(order, NotPending(old(View()), seen))]
      ensures claimed <== order in old(redis.delivery) && old(redis.delivery)[order].Pending?
                          && seen <= old(redis.delivery)[order].count
      ensures claimed ==>
                && order in old(redis.delivery) && old(redis.delivery)[order].Pending?
                && seen <= old(redis.delivery)[order].count
      ensures claimed ==> View() == DoReclaim(old(View()), me, order, seen)
    {
      claimed := order in redis.delivery && redis.delivery[order].Pending? && seen <= redis.delivery[order].count;
      mishaps := mishaps + if claimed then [] else [Entry(order, NotPending(View(), seen))];
      if claimed {
        redis := redis.(delivery := redis.delivery[order := Pending(redis.delivery[order].count + 1)]);
        workers := workers[me := Got(Job(order, Origin.Compensate(seen), 1))];
      }
    }

    method TryLock(me: WorkerId, job: Job, m: Msg) returns (locked: bool)
      requires At(me, Got(job), m)
      modifies `db, `redis, `locks, `rowLocks, `workers, `mishaps
      ensures !locked ==> mishaps == old(mishaps) + [Entry(job.order, LockFailed)]
                          || (m.user in old(locks)
                              && mishaps == old(mishaps) + [Entry(job.order, LockTaken(old(View())))])
      ensures locked ==> mishaps == old(mishaps)
      ensures locked ==> ProcessEnabled(old(View()), me, TakeLock) && View() == NextProcess(old(View()), me, TakeLock)
      ensures !locked ==> View() == NextProcess(old(View()), me, LockBusy)
    {
      var taken := m.user in locks;
      mishaps := mishaps + if taken then [Entry(job.order, LockTaken(View()))] else [];
      locked := !taken;
      if locked {
        var failed: bool := *;
        mishaps := mishaps + if failed then [Entry(job.order, LockFailed)] else [];
        locked := !failed;
      }
      if locked {
        locks := locks[m.user := me];
        workers := workers[me := Locked(job)];
      } else {
        Leave(me, job);
      }
    }

    /** The exception leaves processRecord: `finally` unlocks, an open transaction is rolled back. */
    method Leave(me: WorkerId, job: Job)
      modifies `db, `redis, `locks, `rowLocks, `workers
      ensures View() == Escape(old(View()), me, job)
    {
      rowLocks := map s | s in rowLocks && rowLocks[s] != me :: rowLocks[s];
      locks := map u | u in locks && locks[u] != me :: locks[u];
      var dead := job.origin.Compensate? && job.origin.seen > MAX_DELIVERY;
      workers := workers[me := if dead then DeadCheck(job) else Idle];
    }

    method Unlock(me: WorkerId)
      modifies `db, `redis, `locks, `rowLocks, `workers
      ensures View() == Goto(GrantProtocol.Unlock(old(View()), me), me, Idle)
    {
      locks := map u | u in locks && locks[u] != me :: locks[u];
      workers := workers[me := Idle];
    }

    /** The failed attempt's transaction is rolled back; the lock stays. */
    method Retry(me: WorkerId, job: Job)
      modifies `db, `redis, `locks, `rowLocks, `workers
      ensures View() == Goto(AbortTx(old(View()), me), me, Locked(job))
    {
      rowLocks := map s | s in rowLocks && rowLocks[s] != me :: rowLocks[s];
      workers := workers[me := Locked(job)];
    }

    /** Order row, SKU row and limit count, read in one snapshot. */
    method Select(me: WorkerId, job: Job, m: Msg) returns (result: Option<GrantResult>)
      requires At(me, Locked(job), m)
      modifies `db, `redis, `locks, `rowLocks, `workers
      ensures HandleEnabled(old(View()), me, Check) && View() == NextHandle(old(View()), me, Check)
      ensures result == CheckGrant(db, job.order, m.sku, m.user)
    {
      if job.order in db.orders {
        result := Some(if db.orders[job.order].status == Granted then DuplicateMsg else AlreadyFailed);
      } else if !(m.sku in db.skus && db.skus[m.sku].live) {
        result := Some(SkuNotExists);
      } else if |GrantedTo(db, m.sku, m.user)| >= db.skus[m.sku].Limit() {
        result := Some(DuplicateAlreadyGranted);
      } else {
        result := None;
      }
      workers := workers[me := AfterCheck(job, result)];
    }

    method DeductStock(me: WorkerId, job: Job, m: Msg) returns (deducted: bool)
      requires At(me, Counted(job), m) && m.sku !in rowLocks
      modifies `db, `redis, `locks, `rowLocks, `workers
      ensures HandleEnabled(old(View()), me, Deduct) && View() == NextHandle(old(View()), me, Deduct)
      ensures deducted == CanDeduct(db, m.sku)
    {
      deducted := m.sku in db.skus && db.skus[m.sku].live && db.skus[m.sku].stock > 0;
      if deducted {
        rowLocks := rowLocks[m.sku := me];
        workers := workers[me := Deducted(job)];
      } else {
        workers := workers[me := Refused(job)];
      }
    }

    method CommitGrant(me: WorkerId, job: Job, m: Msg)
      requires At(me, Deducted(job), m) && CanInsert(db, job.order, m.sku)
      modifies `db, `redis, `locks, `rowLocks, `workers
      ensures HandleEnabled(old(View()), me, Commit) && View() == NextHandle(old(View()), me, Commit)
    {
      var sku := db.skus[m.sku];
      db := db.(skus := db.skus[m.sku := sku.(stock := sku.stock - 1)],
                orders := db.orders[job.order := Order(m.user, m.sku, sku.tokenAmount, Granted)],
                grants := db.grants + [GrantEntry(job.order, m.user, sku.tokenAmount)]);
      rowLocks := map s | s in rowLocks && rowLocks[s] != me :: rowLocks[s];
      workers := workers[me := Acking(job)];
    }

    method RecordFailedOrder(me: WorkerId, order: OrderId, job: Job, m: Msg, pc: Pc)
      requires At(me, PcOf(View(), me), m) && PcOf(View(), me).job == job && job.order == order
      modifies `db, `redis, `locks, `rowLocks, `workers
      ensures Working(old(View()), me) && View() == DoRecord(old(View()), me, pc)
    {
      if order !in db.orders && m.sku in db.skus && db.skus[m.sku].live {
        db := db.(orders := db.orders[order := Order(m.user, m.sku, db.skus[m.sku].tokenAmount, Failed)]);
      }
      workers := workers[me := pc];
    }

    method ReadStock(me: WorkerId, job: Job, m: Msg) returns (sync: int)
      requires At(me, Recorded(job), m)
      modifies `db, `redis, `locks, `rowLocks, `workers
      ensures HandleEnabled(old(View()), me, HandleAct.ReadStock)
              && View() == NextHandle(old(View()), me, HandleAct.ReadStock)
      ensures sync == SyncTarget(db, m.sku)
    {
      sync := if m.sku in db.skus && db.skus[m.sku].live then db.skus[m.sku].stock else PLUS_ONE;
      workers := workers[me := Returning(job, sync)];
    }

    method OrderGranted(me: WorkerId, job: Job, order: OrderId) returns (granted: bool)
      requires PcOf(View(), me) == DeadCheck(job) && job.order == order && order in redis.msgs
      modifies `db, `redis, `locks, `rowLocks, `workers
      ensures DeadEnabled(old(View()), me, AskGranted) && View() == NextDead(old(View()), me, AskGranted)
      ensures granted == IsGranted(db, order)
    {
      granted := order in db.orders && db.orders[order].status == Granted;
      workers := workers[me := if granted then DeadAck(job) else DeadRecord(job)];
    }

    /** The exception is logged; the message stays pending. */
    method GiveUp(me: WorkerId)
      modifies `db, `redis, `locks, `rowLocks, `workers
      ensures View() == Goto(old(View()), me, Idle)
    {
      workers := workers[me := Idle];
    }

    method RollbackGrant(me: WorkerId, order: OrderId, job: Job, m: Msg, sync: int, pc: Pc)
      requires At(me, PcOf(View(), me), m) && PcOf(View(), me).job == job && job.order == order
      modifies `db, `redis, `locks, `rowLocks, `workers
      ensures Working(old(View()), me) && View() == DoReturn(old(View()), me, sync, pc)
    {
      redis := RollbackScript(redis, order, m, sync);
      workers := workers[me := pc];
    }

    method Acknowledge(me: WorkerId, order: OrderId, job: Job, m: Msg, pc: Pc)
      requires At(me, PcOf(View(), me), m) && PcOf(View(), me).job == job && job.order == order
      modifies `db, `redis, `locks, `rowLocks, `workers
      ensures Working(old(View()), me) && View() == DoAck(old(View()), me, pc)
    {
      redis := redis.(delivery := redis.delivery[order := Acked]);
      workers := workers[me := pc];
    }
  }

  lemma HistoryStands(a: State)
    ensures Persists(a, a)
  {
  }
}
