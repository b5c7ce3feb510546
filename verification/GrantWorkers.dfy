/**
 The consumer and the compensator as they are written: one worker's methods.  Any external call may throw, before or
 after it took effect, and between any two accesses the claims, the administrator and the other workers may move.
 What happens is a stretch of the step system of GrantProtocol, so what is proved there of all interleavings holds here.
 */
module GrantWorkers {
  import opened Wrappers
  import opened GrantProtocol
  import opened GrantSafety
  import opened GrantTheorems
  import opened GrantAnyRun
  import opened GrantReasons
  import opened GrantStores

  function Orders(pending: seq<(OrderId, nat)>): seq<OrderId> {
    seq(|pending|, i requires 0 <= i < |pending| => pending[i].0)
  }

  lemma KeptMessages(st: State)
    requires Kept(st)
    ensures st.redis.delivery.Keys == st.redis.msgs.Keys
  {
  }

  lemma SettledStays(a: State, b: State, o: OrderId)
    requires Persists(a, b) && Settled(a, o)
    ensures Settled(b, o)
  {
  }

  /** The granted order's row and its ledger row, the last one, are there and agree. */
  ghost predicate RowsWritten(db: Db, o: OrderId, m: Msg) {
    && IsGranted(db, o)
    && db.orders[o].user == m.user && db.orders[o].sku == m.sku && db.orders[o].amount > 0
    && db.grants != [] && db.grants[|db.grants| - 1] == GrantEntry(o, m.user, db.orders[o].amount)
  }

  /** The user has as many grants of the SKU as its purchase limit allows, one if it names none. */
  ghost predicate HasAll(db: Db, m: Msg) {
    && Live(db, m.sku)
    && |GrantedTo(db, m.sku, m.user)| >= if db.skus[m.sku].limitCount <= 0 then 1 else db.skus[m.sku].limitCount
  }

  /** Of the first n listed orders, those not among `failed` are acknowledged. */
  ghost predicate WorkedOff(r: Redis, orders: seq<OrderId>, n: nat, failed: set<OrderId>)
    requires n <= |orders|
  {
    forall i | 0 <= i < n && orders[i] !in failed :: orders[i] in r.msgs && IsAcked(r, orders[i])
  }

  /** What was in the stream of the first n of a batch has been read. */
  ghost predicate AllRead(r: Redis, batch: seq<OrderId>, n: nat, stream: set<OrderId>)
    requires n <= |batch|
  {
    forall i | 0 <= i < n && batch[i] in stream :: batch[i] in r.msgs && IsRead(r, batch[i])
  }

  lemma WorkStays(a: State, b: State, orders: seq<OrderId>, n: nat, failed: set<OrderId>, failed': set<OrderId>)
    requires Persists(a, b) && n <= |orders| && WorkedOff(a.redis, orders, n, failed) && failed <= failed'
    ensures WorkedOff(b.redis, orders, n, failed')
  {
  }

  lemma ReadStays(a: State, b: State, batch: seq<OrderId>, n: nat, stream: set<OrderId>)
    requires Persists(a, b) && n <= |batch| && AllRead(a.redis, batch, n, stream)
    ensures AllRead(b.redis, batch, n, stream)
  {
  }

  lemma OneMoreRead(a: State, b: State, batch: seq<OrderId>, n: nat, stream: set<OrderId>)
    requires Persists(a, b) && n < |batch| && AllRead(a.redis, batch, n, stream)
    requires batch[n] in stream ==> batch[n] in b.redis.msgs && IsRead(b.redis, batch[n])
    ensures AllRead(b.redis, batch, n + 1, stream)
  {
    ReadStays(a, b, batch, n, stream);
  }

  /** TokenGrantConsumer, with the dead-letter block of GrantPendingCompensator. */
  class Worker {
    const stores: Stores
    const me: WorkerId

    constructor (stores: Stores, me: WorkerId)
      ensures this.stores == stores && this.me == me
    {
      this.stores := stores;
      this.me := me;
    }

    /** A stretch has led from `start` to here, where this worker stands at `pc` with message `m`. */
    ghost predicate On(start: State, clean0: bool, pc: Pc, m: Msg)
      reads stores
    {
      stores.Since(start, clean0) && stores.At(me, pc, m)
    }

    /** Somewhere inside handleOnce, with the user's lock held. */
    ghost predicate InHandle(start: State, clean0: bool, job: Job, m: Msg)
      reads stores
    {
      var pc := PcOf(stores.View(), me);
      HoldsLock(pc) && On(start, clean0, pc, m) && pc.job == job
    }

    /** handleOnce has returned: the message is acknowledged, and granted or rolled back. */
    ghost predicate Handled(start: State, clean0: bool, job: Job, m: Msg)
      reads stores
    {
      On(start, clean0, Unlocking(job), m) && IsAcked(stores.redis, job.order) && Settled(stores.View(), job.order)
    }

    /** The order's handling threw if and only if one thing more went wrong with it. */
    ghost predicate Blames(start: State, order: OrderId, before: seq<Entry>, threw: bool)
      reads stores
    {
      if threw then OneMore(start, me, order, before, stores.mishaps) else stores.mishaps == before
    }

    lemma BusyIsGenuine(start: State, clean0: bool, job: Job, m: Msg)
      requires On(start, clean0, Counted(job), m) && m.sku in stores.rowLocks
      ensures Genuine(start, me, Entry(job.order, RowBusy(stores.View())))
    {
      GoesLoosely(start, stores.View(), stores.clean);
      BusyRowIsAnothers(start, stores.View(), stores.clean, me, m.sku);
    }

    lemma RefusedIsGenuine(start: State, clean0: bool, job: Job, m: Msg)
      requires On(start, clean0, Deducted(job), m) && !CanInsert(stores.db, job.order, m.sku)
      ensures Genuine(start, me, Entry(job.order, NoInsert(stores.View())))
    {
      GoesLoosely(start, stores.View(), stores.clean);
    }

    lemma TakenIsGenuine(start: State, clean0: bool, job: Job, m: Msg)
      requires On(start, clean0, Got(job), m) && m.user in stores.locks
      ensures Genuine(start, me, Entry(job.order, LockTaken(stores.View())))
    {
      GoesLoosely(start, stores.View(), stores.clean);
    }

    /** The others move. */
    method Others(ghost start: State, ghost clean0: bool, ghost pc: Pc, ghost m: Msg)
      requires On(start, clean0, pc, m)
      modifies stores
      ensures On(start, clean0, pc, m) && Persists(old(stores.View()), stores.View())
      ensures stores.mishaps == old(stores.mishaps)
    {
      stores.OthersMove(start, clean0, me);
    }

    /** The next access: the others move before it, and it may throw. */
    method Call(ghost start: State, ghost clean0: bool, ghost pc: Pc, ghost m: Msg) returns (fault: bool)
      requires On(start, clean0, pc, m)
      modifies stores
      ensures On(start, clean0, pc, m) && Persists(old(stores.View()), stores.View())
      ensures Blames(start, pc.job.order, old(stores.mishaps), fault)
    {
      Others(start, clean0, pc, m);
      fault := stores.Fails(pc.job.order);
    }

    /** grantTokenOrder; None when an exception comes out of it. Each refusal has its reason in the tables. */
    method GrantTokenOrder(ghost start: State, ghost clean0: bool, job: Job, m: Msg)
      returns (result: Option<GrantResult>)
      requires On(start, clean0, Locked(job), m)
      modifies stores
      ensures result.None? ==> InHandle(start, clean0, job, m)
      ensures Blames(start, job.order, old(stores.mishaps), result.None?)
      ensures result.Some? ==> On(start, clean0, AfterCheck(job, result), m)
      ensures result == Some(Success) ==> RowsWritten(stores.db, job.order, m)
      ensures result == Some(DuplicateMsg) ==> IsGranted(stores.db, job.order)
      ensures result == Some(AlreadyFailed) ==>
                job.order in stores.db.orders && stores.db.orders[job.order].status == Failed
      ensures result == Some(SkuNotExists) ==> job.order !in stores.db.orders && !Live(stores.db, m.sku)
      ensures result == Some(DuplicateAlreadyGranted) ==> job.order !in stores.db.orders && HasAll(stores.db, m)
      ensures result == Some(StockNotEnough) ==> !(Live(stores.db, m.sku) && stores.db.skus[m.sku].stock > 0)
    {
      var fault := Call(start, clean0, Locked(job), m);
      if fault {
        return None;
      }
      ghost var before := stores.View();
      result := stores.Select(me, job, m);
      stores.Took(start, clean0, before, Handle(me, Check));
      if result.Some? {
        return;
      }
      result := DeductAndCommit(start, clean0, job, m);
    }

    /** An update that meets another transaction's row lock waits, and then gives up. */
    method WaitForRow(ghost start: State, ghost clean0: bool, job: Job, m: Msg) returns (blocked: bool)
      requires On(start, clean0, Counted(job), m)
      modifies stores
      ensures On(start, clean0, Counted(job), m) && (!blocked ==> m.sku !in stores.rowLocks)
      ensures Blames(start, job.order, old(stores.mishaps), blocked)
    {
      blocked := Call(start, clean0, Counted(job), m);
      if !blocked {
        blocked := stores.UpdateBlocked(job.order, m);
        if blocked {
          BusyIsGenuine(start, clean0, job, m);
        }
      }
    }

    method Deduct(ghost start: State, ghost clean0: bool, job: Job, m: Msg) returns (deducted: bool)
      requires On(start, clean0, Counted(job), m) && m.sku !in stores.rowLocks
      modifies stores
      ensures On(start, clean0, if deducted then Deducted(job) else Refused(job), m)
      ensures deducted == CanDeduct(stores.db, m.sku) && stores.mishaps == old(stores.mishaps)
    {
      ghost var before := stores.View();
      deducted := stores.DeductStock(me, job, m);
      stores.Took(start, clean0, before, Handle(me, HandleAct.Deduct));
    }

    method Commit(ghost start: State, ghost clean0: bool, job: Job, m: Msg)
      requires On(start, clean0, Deducted(job), m) && CanInsert(stores.db, job.order, m.sku)
      modifies stores
      ensures On(start, clean0, Acking(job), m) && RowsWritten(stores.db, job.order, m)
      ensures stores.mishaps == old(stores.mishaps)
    {
      ghost var before := stores.View();
      stores.CommitGrant(me, job, m);
      stores.Took(start, clean0, before, Handle(me, HandleAct.Commit));
    }

    /** The conditional stock update and, if it hit, the inserts and the commit. */
    method DeductAndCommit(ghost start: State, ghost clean0: bool, job: Job, m: Msg)
      returns (result: Option<GrantResult>)
      requires On(start, clean0, Counted(job), m)
      modifies stores
      ensures result.None? ==> InHandle(start, clean0, job, m)
      ensures result.Some? ==>
                && On(start, clean0, AfterCheck(job, result), m)
                && (result.value == Success || result.value == StockNotEnough)
      ensures Blames(start, job.order, old(stores.mishaps), result.None?)
      ensures result == Some(Success) ==> RowsWritten(stores.db, job.order, m)
      ensures result == Some(StockNotEnough) ==> !CanDeduct(stores.db, m.sku)
    {
      var blocked := WaitForRow(start, clean0, job, m);
      if blocked {
        return None;
      }
      var deducted := Deduct(start, clean0, job, m);
      if !deducted {
        return Some(StockNotEnough);
      }
      result := InsertAndCommit(start, clean0, job, m);
    }

    /** Order row and ledger row, committed together with the update; a row that cannot be inserted throws. */
    method InsertAndCommit(ghost start: State, ghost clean0: bool, job: Job, m: Msg)
      returns (result: Option<GrantResult>)
      requires On(start, clean0, Deducted(job), m)
      modifies stores
      ensures result.None? ==> InHandle(start, clean0, job, m)
      ensures result.Some? ==>
                && result.value == Success && On(start, clean0, Acking(job), m)
                && RowsWritten(stores.db, job.order, m)
      ensures Blames(start, job.order, old(stores.mishaps), result.None?)
    {
      var fault := Call(start, clean0, Deducted(job), m);
      if fault {
        return None;
      }
      var refused := stores.InsertRefused(job.order, m);
      if refused {
        RefusedIsGenuine(start, clean0, job, m);
        return None;
      }
      Commit(start, clean0, job, m);
      fault := stores.Fails(job.order);
      result := if fault then None else Some(Success);
    }

    /** The rollback script, which may not be reached or whose answer may be lost. */
    method ReturnReservation(ghost start: State, ghost clean0: bool, job: Job, m: Msg, sync: int) returns (threw: bool)
      requires On(start, clean0, Returning(job, sync), m)
      modifies stores
      ensures threw ==> InHandle(start, clean0, job, m)
      ensures Blames(start, job.order, old(stores.mishaps), threw)
      ensures !threw ==> On(start, clean0, Acking(job), m) && job.order in stores.redis.markers
    {
      var fault := Call(start, clean0, Returning(job, sync), m);
      if fault {
        return true;
      }
      ghost var before := stores.View();
      stores.RollbackGrant(me, job.order, job, m, sync, Acking(job));
      stores.Took(start, clean0, before, Handle(me, Return));
      threw := stores.Fails(job.order);
    }

    /** failGrantAndReconcileStock: record the failure, read the DB stock, hand it to the rollback script. */
    method FailGrantAndReconcileStock(ghost start: State, ghost clean0: bool, job: Job, m: Msg) returns (threw: bool)
      requires On(start, clean0, Refused(job), m)
      modifies stores
      ensures threw ==> InHandle(start, clean0, job, m)
      ensures Blames(start, job.order, old(stores.mishaps), threw)
      ensures !threw ==> On(start, clean0, Acking(job), m) && job.order in stores.redis.markers
    {
      var fault := Call(start, clean0, Refused(job), m);
      if fault {
        return true;
      }
      ghost var before := stores.View();
      stores.RecordFailedOrder(me, job.order, job, m, Recorded(job));
      stores.Took(start, clean0, before, Handle(me, Record));
      threw := ReconcileStock(start, clean0, job, m);
    }

    method ReconcileStock(ghost start: State, ghost clean0: bool, job: Job, m: Msg) returns (threw: bool)
      requires On(start, clean0, Recorded(job), m)
      modifies stores
      ensures threw ==> InHandle(start, clean0, job, m)
      ensures Blames(start, job.order, old(stores.mishaps), threw)
      ensures !threw ==> On(start, clean0, Acking(job), m) && job.order in stores.redis.markers
    {
      var fault := Call(start, clean0, Recorded(job), m);
      if fault {
        return true;
      }
      ghost var before := stores.View();
      var sync := stores.ReadStock(me, job, m);
      stores.Took(start, clean0, before, Handle(me, HandleAct.ReadStock));
      threw := ReturnReservation(start, clean0, job, m, sync);
    }

    /** The switch over the result: what is not granted gives its reservation back. */
    method ActOn(ghost start: State, ghost clean0: bool, job: Job, m: Msg, result: GrantResult) returns (threw: bool)
      requires On(start, clean0, AfterCheck(job, Some(result)), m)
      requires result == Success || result == DuplicateMsg ==> IsGranted(stores.db, job.order)
      modifies stores
      ensures threw ==> InHandle(start, clean0, job, m)
      ensures Blames(start, job.order, old(stores.mishaps), threw)
      ensures !threw ==> On(start, clean0, Acking(job), m) && Settled(stores.View(), job.order)
    {
      match result {
        case Success => threw := false;
        case DuplicateMsg => threw := false;
        case DuplicateAlreadyGranted => threw := ReturnReservation(start, clean0, job, m, PLUS_ONE);
        case StockNotEnough => threw := FailGrantAndReconcileStock(start, clean0, job, m);
        case SkuNotExists => threw := ReturnReservation(start, clean0, job, m, PLUS_ONE);
        case AlreadyFailed => threw := ReturnReservation(start, clean0, job, m, PLUS_ONE);
      }
    }

    /** handleOnce: grant, act on the result, acknowledge; nothing is acknowledged that is not settled. */
    method HandleOnce(ghost start: State, ghost clean0: bool, job: Job, m: Msg) returns (threw: bool)
      requires On(start, clean0, Locked(job), m)
      modifies stores
      ensures threw ==> InHandle(start, clean0, job, m)
      ensures Blames(start, job.order, old(stores.mishaps), threw)
      ensures !threw ==> Handled(start, clean0, job, m)
    {
      var result := GrantTokenOrder(start, clean0, job, m);
      if result.None? {
        return true;
      }
      threw := ActOn(start, clean0, job, m, result.value);
      if threw {
        return;
      }
      threw := AcknowledgeSettled(start, clean0, job, m);
    }

    method Acknowledge(ghost start: State, ghost clean0: bool, job: Job, m: Msg)
      requires On(start, clean0, Acking(job), m) && Settled(stores.View(), job.order)
      modifies stores
      ensures Handled(start, clean0, job, m) && stores.mishaps == old(stores.mishaps)
    {
      ghost var before := stores.View();
      stores.Acknowledge(me, job.order, job, m, Unlocking(job));
      stores.Took(start, clean0, before, Handle(me, Ack));
    }

    method AcknowledgeSettled(ghost start: State, ghost clean0: bool, job: Job, m: Msg) returns (threw: bool)
      requires On(start, clean0, Acking(job), m) && Settled(stores.View(), job.order)
      modifies stores
      ensures threw ==> InHandle(start, clean0, job, m)
      ensures Blames(start, job.order, old(stores.mishaps), threw)
      ensures !threw ==> Handled(start, clean0, job, m)
    {
      ghost var settled := stores.View();
      var fault := Call(start, clean0, Acking(job), m);
      SettledStays(settled, stores.View(), job.order);
      if fault {
        return true;
      }
      Acknowledge(start, clean0, job, m);
      threw := stores.Fails(job.order);
    }

    /**
     handleWithTransientRetry: one thing went wrong for each attempt that failed; it gives up after MAX_ATTEMPTS of
     them, or at once when the back-off is interrupted.
     */
    method HandleWithTransientRetry(ghost start: State, ghost clean0: bool, first: Job, m: Msg)
      returns (threw: bool, interrupted: bool, last: Job)
      requires On(start, clean0, Locked(first), m) && first.attempt == 1
      modifies stores
      ensures last == first.(attempt := last.attempt) && 1 <= last.attempt <= MAX_ATTEMPTS
      ensures threw ==> InHandle(start, clean0, last, m) && (last.attempt == MAX_ATTEMPTS || interrupted)
      ensures !threw ==> Handled(start, clean0, last, m)
      ensures Adds(start, me, first.order, old(stores.mishaps), stores.mishaps)
      ensures !threw ==> |stores.mishaps| == |old(stores.mishaps)| + last.attempt - 1
      ensures threw && !interrupted ==> |stores.mishaps| == |old(stores.mishaps)| + MAX_ATTEMPTS
      ensures threw && interrupted ==>
                |stores.mishaps| > |old(stores.mishaps)| && stores.mishaps[|stores.mishaps| - 1].mishap.Interrupted?
    {
      last := first;
      ghost var before := stores.mishaps;
      while true
        invariant last == first.(attempt := last.attempt) && 1 <= last.attempt <= MAX_ATTEMPTS
        invariant On(start, clean0, Locked(last), m)
        invariant Adds(start, me, first.order, before, stores.mishaps)
        invariant |stores.mishaps| == |before| + last.attempt - 1
        decreases MAX_ATTEMPTS - last.attempt
      {
        ghost var sofar := stores.mishaps;
        threw := HandleOnce(start, clean0, last, m);
        AddsOne(start, me, first.order, before, sofar, stores.mishaps);
        interrupted := false;
        if !threw || last.attempt == MAX_ATTEMPTS {
          return;
        }
        sofar := stores.mishaps;
        interrupted := stores.SleepInterrupted(first.order);
        AddsOne(start, me, first.order, before, sofar, stores.mishaps);
        if interrupted {
          return;
        }
        // the next attempt starts over with the lock still held
        NextAttempt(start, clean0, last, m);
        last := last.(attempt := last.attempt + 1);
      }
    }

    /** After the back-off: the failed attempt's transaction is gone, the lock is still held. */
    method NextAttempt(ghost start: State, ghost clean0: bool, job: Job, m: Msg)
      requires InHandle(start, clean0, job, m) && job.attempt < MAX_ATTEMPTS
      modifies stores
      ensures On(start, clean0, Locked(job.(attempt := job.attempt + 1)), m) && stores.mishaps == old(stores.mishaps)
    {
      Others(start, clean0, PcOf(stores.View(), me), m);
      ghost var before := stores.View();
      stores.Retry(me, job.(attempt := job.attempt + 1));
      stores.Took(start, clean0, before, Process(me, Throw(false)));
    }

    /** An exception that has left the handling: past the delivery limit the dead-letter block follows. */
    ghost predicate Escaped(job: Job, m: Msg)
      reads stores
    {
      var pc := PcOf(stores.View(), me);
      if job.origin.Compensate? && job.origin.seen > MAX_DELIVERY
      then pc.DeadCheck? && pc.job == job.(attempt := pc.job.attempt) && stores.At(me, pc, m)
      else pc == Idle
    }

    ghost predicate HoldsNoLock()
      reads stores
    {
      forall u <- stores.locks :: stores.locks[u] != me
    }

    /** Enough has gone wrong with the order for its message to be left as it is. */
    ghost predicate GaveUp(before: seq<Entry>, order: OrderId)
      reads stores
    {
      Blamed(before, stores.mishaps, order)
    }

    /** The user's lock; when it is not to be had, the message is left as it is. */
    method TakeUserLock(ghost start: State, ghost clean0: bool, job: Job, m: Msg) returns (locked: bool)
      requires On(start, clean0, Got(job), m)
      modifies stores
      ensures Blames(start, job.order, old(stores.mishaps), !locked)
      ensures locked ==> On(start, clean0, Locked(job), m)
      ensures !locked ==> stores.Since(start, clean0) && HoldsNoLock() && Escaped(job, m)
      ensures !locked ==> GaveUp(old(stores.mishaps), job.order)
    {
      Others(start, clean0, Got(job), m);
      ghost var before := stores.View();
      if m.user in stores.locks {
        TakenIsGenuine(start, clean0, job, m);
      }
      locked := stores.TryLock(me, job, m);
      stores.Took(start, clean0, before, Process(me, if locked then TakeLock else LockBusy));
      if !locked {
        AddsBlames(start, me, job.order, old(stores.mishaps), stores.mishaps);
      }
    }

    /** processRecord: the user's lock around handleWithTransientRetry. */
    method ProcessRecord(ghost start: State, ghost clean0: bool, job: Job, m: Msg) returns (threw: bool)
      requires On(start, clean0, Got(job), m) && job.attempt == 1
      modifies stores
      ensures stores.Since(start, clean0) && HoldsNoLock()
      ensures Adds(start, me, job.order, old(stores.mishaps), stores.mishaps)
      ensures threw ==> GaveUp(old(stores.mishaps), job.order)
      ensures !threw ==> PcOf(stores.View(), me) == Idle
      ensures !threw ==>
                && job.order in stores.redis.msgs && IsAcked(stores.redis, job.order)
                && Settled(stores.View(), job.order)
      ensures threw ==> Escaped(job, m)
    {
      var locked := TakeUserLock(start, clean0, job, m);
      if !locked {
        return true;
      }
      var interrupted: bool;
      var last: Job;
      threw, interrupted, last := HandleWithTransientRetry(start, clean0, job, m);
      if threw {
        AddsBlames(start, me, job.order, old(stores.mishaps), stores.mishaps);
        LeaveHandling(start, clean0, last, m, interrupted);
      } else {
        FinishHandling(start, clean0, last, m);
      }
    }

    method LeaveHandling(ghost start: State, ghost clean0: bool, last: Job, m: Msg, ghost interrupted: bool)
      requires InHandle(start, clean0, last, m) && (last.attempt == MAX_ATTEMPTS || interrupted)
      modifies stores
      ensures stores.Since(start, clean0) && HoldsNoLock() && Escaped(last, m) && stores.mishaps == old(stores.mishaps)
    {
      Others(start, clean0, PcOf(stores.View(), me), m);
      ghost var before := stores.View();
      stores.Leave(me, last);
      stores.Took(start, clean0, before, Process(me, Throw(interrupted)));
    }

    method FinishHandling(ghost start: State, ghost clean0: bool, last: Job, m: Msg)
      requires On(start, clean0, Unlocking(last), m)
      modifies stores
      ensures stores.Since(start, clean0) && HoldsNoLock() && PcOf(stores.View(), me) == Idle
      ensures Persists(old(stores.View()), stores.View()) && stores.mishaps == old(stores.mishaps)
    {
      Others(start, clean0, Unlocking(last), m);
      ghost var before := stores.View();
      stores.Unlock(me);
      stores.Took(start, clean0, before, Process(me, Finish));
      StepPersists(before, Process(me, Finish));
      PersistsTransitive(old(stores.View()), before, stores.View());
    }

    /**
     retryOrDeadLetter: process the message again; past the delivery limit, acknowledge a granted
     order, or record the failure, return the reservation and acknowledge, unless one thing more goes wrong.
     */
    method RetryOrDeadLetter(ghost start: State, ghost clean0: bool, job: Job, m: Msg) returns (done: bool)
      requires On(start, clean0, Got(job), m) && job.attempt == 1 && job.origin.Compensate?
      modifies stores
      ensures stores.Since(start, clean0) && PcOf(stores.View(), me) == Idle
      ensures Adds(start, me, job.order, old(stores.mishaps), stores.mishaps)
      ensures !done ==> GaveUp(old(stores.mishaps), job.order)
      ensures !done && job.origin.seen > MAX_DELIVERY ==>
                stores.mishaps != []
                && Blamed(old(stores.mishaps), stores.mishaps[..|stores.mishaps| - 1], job.order)
      ensures done ==>
                && job.order in stores.redis.msgs && IsAcked(stores.redis, job.order)
                && Settled(stores.View(), job.order)
      ensures done && stores.clean && Inv(start) ==>
              (IsGranted(stores.db, job.order) <==> job.order !in stores.redis.returned)
    {
      var threw := ProcessRecord(start, clean0, job, m);
      if !threw {
        done := true;
      } else if job.origin.seen <= MAX_DELIVERY {
        done := false;
      } else {
        ghost var sofar := stores.mishaps;
        done := DeadLetter(start, clean0, stores.workers[me].job, job.order, m);
        AddsOne(start, me, job.order, old(stores.mishaps), sofar, stores.mishaps);
        BlamedOn(old(stores.mishaps), sofar, stores.mishaps, job.order);
        assert !done ==> stores.mishaps[..|stores.mishaps| - 1] == sofar;
      }
      if stores.clean && Inv(start) {
        GoesKeepsInv(start, stores.View());
      }
    }

    /** The exception is logged and the message stays pending. */
    method GiveUp(ghost start: State, ghost clean0: bool, ghost pc: Pc, ghost m: Msg)
      requires On(start, clean0, pc, m) && InDeadLetter(pc)
      modifies stores
      ensures stores.Since(start, clean0) && PcOf(stores.View(), me) == Idle && stores.mishaps == old(stores.mishaps)
    {
      ghost var before := stores.View();
      stores.GiveUp(me);
      stores.Took(start, clean0, before, Process(me, Throw(false)));
    }

    /** Of the dead-letter block: the failed order recorded, the reservation returned. */
    method FailAndReturn(ghost start: State, ghost clean0: bool, job: Job, order: OrderId, m: Msg) returns (done: bool)
      requires On(start, clean0, DeadRecord(job), m) && job.order == order
      modifies stores
      ensures Blames(start, order, old(stores.mishaps), !done)
      ensures done ==> On(start, clean0, DeadAck(job), m) && order in stores.redis.markers
      ensures !done ==> stores.Since(start, clean0) && PcOf(stores.View(), me) == Idle
    {
      var fault := Call(start, clean0, DeadRecord(job), m);
      if fault {
        GiveUp(start, clean0, DeadRecord(job), m);
        return false;
      }
      ghost var before := stores.View();
      stores.RecordFailedOrder(me, order, job, m, DeadReturn(job));
      stores.Took(start, clean0, before, Dead(me, RecordDead));
      done := ReturnDead(start, clean0, job, order, m);
    }

    method ReturnDead(ghost start: State, ghost clean0: bool, job: Job, order: OrderId, m: Msg) returns (done: bool)
      requires On(start, clean0, DeadReturn(job), m) && job.order == order
      modifies stores
      ensures Blames(start, order, old(stores.mishaps), !done)
      ensures done ==> On(start, clean0, DeadAck(job), m) && order in stores.redis.markers
      ensures !done ==> stores.Since(start, clean0) && PcOf(stores.View(), me) == Idle
    {
      var fault := Call(start, clean0, DeadReturn(job), m);
      if fault {
        GiveUp(start, clean0, DeadReturn(job), m);
        return false;
      }
      ghost var before := stores.View();
      stores.RollbackGrant(me, order, job, m, PLUS_ONE, DeadAck(job));
      stores.Took(start, clean0, before, Dead(me, DeadAct.ReturnDead));
      done := true;
    }

    method DeadLetter(ghost start: State, ghost clean0: bool, job: Job, order: OrderId, m: Msg) returns (done: bool)
      requires On(start, clean0, DeadCheck(job), m) && job.order == order
      modifies stores
      ensures Blames(start, order, old(stores.mishaps), !done)
      ensures stores.Since(start, clean0) && PcOf(stores.View(), me) == Idle
      ensures done ==> order in stores.redis.msgs && IsAcked(stores.redis, order) && Settled(stores.View(), order)
    {
      var fault := Call(start, clean0, DeadCheck(job), m);
      if fault {
        GiveUp(start, clean0, DeadCheck(job), m);
        return false;
      }
      ghost var before := stores.View();
      var granted := stores.OrderGranted(me, job, order);
      stores.Took(start, clean0, before, Dead(me, AskGranted));
      if !granted {
        done := FailAndReturn(start, clean0, job, order, m);
        if !done {
          return;
        }
      }
      done := AcknowledgeDead(start, clean0, job, order, m);
    }

    method AcknowledgeDead(ghost start: State, ghost clean0: bool, job: Job, order: OrderId, m: Msg)
      returns (done: bool)
      requires On(start, clean0, DeadAck(job), m) && job.order == order && Settled(stores.View(), order)
      modifies stores
      ensures Blames(start, order, old(stores.mishaps), !done)
      ensures stores.Since(start, clean0) && PcOf(stores.View(), me) == Idle
      ensures done ==> order in stores.redis.msgs && IsAcked(stores.redis, order) && Settled(stores.View(), order)
    {
      ghost var settled := stores.View();
      var fault := Call(start, clean0, DeadAck(job), m);
      SettledStays(settled, stores.View(), order);
      if fault {
        GiveUp(start, clean0, DeadAck(job), m);
        return false;
      }
      ghost var before := stores.View();
      stores.Acknowledge(me, order, job, m, Idle);
      stores.Took(start, clean0, before, Dead(me, AckDead));
      done := true;
    }

    /** Between two messages: this worker is free; `start` is a state that a run can be in. */
    ghost predicate Between(start: State, clean0: bool)
      reads stores
    {
      stores.Since(start, clean0) && PcOf(stores.View(), me) == Idle && Kept(start)
    }

    /** What a stretch from `start` to here means for the stores. */
    lemma Account(start: State, clean0: bool)
      requires Between(start, clean0)
      ensures Kept(stores.View()) && Persists(start, stores.View())
      ensures stores.redis.delivery.Keys == stores.redis.msgs.Keys
    {
      GoesKept(start, stores.View(), stores.clean);
      KeptMessages(stores.View());
    }

    lemma AccountOfClean(start: State, clean0: bool)
      requires Between(start, clean0)
      ensures stores.clean && Inv(start) ==> Inv(stores.View()) && Safe(stores.View())
    {
      if stores.clean && Inv(start) {
        GoesKeepsInv(start, stores.View());
      }
    }

    method OthersBetween(ghost start: State, ghost clean0: bool)
      requires Between(start, clean0)
      modifies stores
      ensures Between(start, clean0) && Persists(old(stores.View()), stores.View())
      ensures stores.mishaps == old(stores.mishaps)
    {
      stores.OthersMove(start, clean0, me);
    }

    /** One entry of the listing: claimed if it has been idle long enough and is still pending. */
    method CompensateOne(order: OrderId, seen: nat) returns (done: bool)
      requires Kept(stores.View()) && PcOf(stores.View(), me) == Idle
      modifies stores
      ensures Between(old(stores.View()), old(stores.clean))
      ensures done ==> order in stores.redis.msgs && IsAcked(stores.redis, order)
      ensures Adds(old(stores.View()), me, order, old(stores.mishaps), stores.mishaps)
      ensures !done ==> GaveUp(old(stores.mishaps), order)
    {
      ghost var start, clean0 := stores.View(), stores.clean;
      GoesNowhere(start, clean0);
      OthersBetween(start, clean0);
      done := false;
      var idleTooShort := stores.IdleTooShort(order);
      if idleTooShort {
        AddsBlames(start, me, order, old(stores.mishaps), stores.mishaps);
      } else {
        done := ClaimAndRetry(start, clean0, order, seen);
      }
    }

    /** XCLAIM hands the message over only while it is still pending. */
    method ClaimAndRetry(ghost start: State, ghost clean0: bool, order: OrderId, seen: nat) returns (done: bool)
      requires Between(start, clean0)
      modifies stores
      ensures Between(start, clean0)
      ensures done ==> order in stores.redis.msgs && IsAcked(stores.redis, order)
      ensures Adds(start, me, order, old(stores.mishaps), stores.mishaps)
      ensures !done ==> GaveUp(old(stores.mishaps), order)
    {
      var claimed := ClaimMessage(start, clean0, order, seen);
      done := false;
      if claimed {
        done := RetryOrDeadLetter(start, clean0, Job(order, Origin.Compensate(seen), 1), stores.redis.msgs[order]);
      } else {
        AddsBlames(start, me, order, old(stores.mishaps), stores.mishaps);
      }
    }

    method ClaimMessage(ghost start: State, ghost clean0: bool, order: OrderId, seen: nat) returns (claimed: bool)
      requires Between(start, clean0)
      modifies stores
      ensures stores.Since(start, clean0) && Kept(start)
      ensures Blames(start, order, old(stores.mishaps), !claimed)
      ensures !claimed ==> stores.mishaps[|stores.mishaps| - 1].mishap.NotPending?
      ensures if claimed
              then order in stores.redis.msgs
                   && On(start, clean0, Got(Job(order, Origin.Compensate(seen), 1)), stores.redis.msgs[order])
              else Between(start, clean0)
    {
      Account(start, clean0);
      GoesLoosely(start, stores.View(), stores.clean);
      ghost var before := stores.View();
      claimed := stores.Claim(me, order, seen);
      if claimed {
        stores.Took(start, clean0, before, Process(me, Reclaim(order, seen)));
      }
    }

    method CompensateNext(ghost start: State, ghost clean0: bool, order: OrderId, seen: nat) returns (done: bool)
      requires Between(start, clean0)
      modifies stores
      ensures Between(start, clean0) && Persists(old(stores.View()), stores.View())
      ensures done ==> order in stores.redis.msgs && IsAcked(stores.redis, order)
      ensures forall before :: Told(start, me, before, old(stores.mishaps)) ==> Told(start, me, before, stores.mishaps)
      ensures old(stores.mishaps) <= stores.mishaps
      ensures !done ==> Blamed(old(stores.mishaps), stores.mishaps, order)
    {
      Account(start, clean0);
      ghost var was, clean, sofar := stores.View(), stores.clean, stores.mishaps;
      done := CompensateOne(order, seen);
      GoesThrough(start, was, stores.View(), clean, stores.clean);
      GoesKept(was, stores.View(), stores.clean);
      StillTold(start, was, clean, sofar);
    }

    lemma StillTold(start: State, was: State, clean: bool, sofar: seq<Entry>)
      requires Goes(start, was, clean) && Told(was, me, sofar, stores.mishaps)
      ensures forall before :: Told(start, me, before, sofar) ==> Told(start, me, before, stores.mishaps)
    {
      forall before | Told(start, me, before, sofar) ensures Told(start, me, before, stores.mishaps) {
        ToldThrough(start, was, clean, me, before, sofar, stores.mishaps);
      }
    }

    lemma Unblamed(before: seq<Entry>)
      ensures stores.mishaps == before ==> forall o :: !Blamed(before, stores.mishaps, o)
    {
    }

    lemma StillBlamed(before: seq<Entry>, sofar: seq<Entry>, failed: set<OrderId>, done: bool, order: OrderId)
      requires before <= sofar <= stores.mishaps && forall o <- failed :: Blamed(before, sofar, o)
      requires !done ==> Blamed(sofar, stores.mishaps, order)
      ensures forall o <- failed :: Blamed(before, stores.mishaps, o)
      ensures !done ==> Blamed(before, stores.mishaps, order)
    {
      forall o | o in failed ensures Blamed(before, stores.mishaps, o) {
        BlamedOn(before, sofar, stores.mishaps, o);
      }
      if !done {
        BlamedOn(before, sofar, stores.mishaps, order);
      }
    }

    /** compensate: the pending messages listed with their delivery counts, claimed one by one. */
    method Compensate(pending: seq<(OrderId, nat)>) returns (failed: set<OrderId>)
      requires Kept(stores.View()) && PcOf(stores.View(), me) == Idle
      modifies stores
      ensures Between(old(stores.View()), old(stores.clean)) && Kept(stores.View())
      ensures WorkedOff(stores.redis, Orders(pending), |pending|, failed)
      ensures Told(old(stores.View()), me, old(stores.mishaps), stores.mishaps)
      ensures stores.mishaps == old(stores.mishaps) ==> failed == {}
      ensures forall o <- failed :: Blamed(old(stores.mishaps), stores.mishaps, o)
      ensures stores.clean && Inv(old(stores.View())) ==> Inv(stores.View()) && Safe(stores.View())
    {
      ghost var start, clean0 := stores.View(), stores.clean;
      GoesNowhere(start, clean0);
      ghost var before := stores.mishaps;
      failed := {};
      for i := 0 to |pending|
        invariant Between(start, clean0)
        invariant WorkedOff(stores.redis, Orders(pending), i, failed)
        invariant Told(start, me, before, stores.mishaps)
        invariant forall o <- failed :: Blamed(before, stores.mishaps, o)
      {
        ghost var was, sofar := stores.View(), stores.mishaps;
        var done := CompensateNext(start, clean0, pending[i].0, pending[i].1);
        StillBlamed(before, sofar, failed, done, pending[i].0);
        var failed' := if done then failed else failed + {pending[i].0};
        WorkStays(was, stores.View(), Orders(pending), i, failed, failed');
        failed := failed';
      }
      Unblamed(before);
      Account(start, clean0);
      AccountOfClean(start, clean0);
    }

    /** XREADGROUP: nothing of the batch stays unread. */
    method ReadBatch(ghost start: State, ghost clean0: bool, batch: seq<OrderId>)
      requires Between(start, clean0)
      modifies stores
      ensures Between(start, clean0) && AllRead(stores.redis, batch, |batch|, start.redis.delivery.Keys)
      ensures stores.mishaps == old(stores.mishaps)
    {
      ghost var stream := start.redis.delivery.Keys;
      for i := 0 to |batch|
        invariant Between(start, clean0) && AllRead(stores.redis, batch, i, stream)
        invariant stores.mishaps == old(stores.mishaps)
      {
        ghost var was := stores.View();
        ReadOne(start, clean0, batch[i]);
        OneMoreRead(was, stores.View(), batch, i, stream);
      }
    }

    method ReadOne(ghost start: State, ghost clean0: bool, order: OrderId)
      requires Between(start, clean0)
      modifies stores
      ensures Between(start, clean0) && Persists(old(stores.View()), stores.View())
      ensures order in start.redis.delivery.Keys ==> order in stores.redis.msgs && IsRead(stores.redis, order)
      ensures stores.mishaps == old(stores.mishaps)
    {
      OthersBetween(start, clean0);
      StillThere(start, clean0, order);
      ghost var before := stores.View();
      var read := stores.ReadGroup(order);
      if read {
        stores.Took(start, clean0, before, Outside(Deliver(order)));
        StepPersists(before, Outside(Deliver(order)));
        PersistsTransitive(old(stores.View()), before, stores.View());
      }
    }

    lemma StillThere(start: State, clean0: bool, order: OrderId)
      requires Between(start, clean0)
      ensures order in start.redis.delivery.Keys ==> order in stores.redis.msgs && order in stores.redis.delivery
    {
      Account(start, clean0);
      KeptMessages(start);
    }

    lemma ReadIsThere(start: State, clean0: bool, order: OrderId)
      requires Between(start, clean0)
      ensures IsRead(stores.redis, order) ==> order in stores.redis.msgs
    {
      Account(start, clean0);
    }

    method BeginMessage(ghost start: State, ghost clean0: bool, order: OrderId)
      requires Between(start, clean0) && IsRead(stores.redis, order)
      modifies stores
      ensures order in stores.redis.msgs && stores.mishaps == old(stores.mishaps)
      ensures On(start, clean0, Got(Job(order, Poll, 1)), stores.redis.msgs[order])
    {
      ReadIsThere(start, clean0, order);
      ghost var before := stores.View();
      stores.Begin(me, order);
      stores.Took(start, clean0, before, Process(me, Start(order)));
    }

    method PollOneRecord(order: OrderId) returns (done: bool)
      requires Kept(stores.View()) && PcOf(stores.View(), me) == Idle
      modifies stores
      ensures Between(old(stores.View()), old(stores.clean))
      ensures done ==> order in stores.redis.msgs && IsAcked(stores.redis, order)
      ensures Adds(old(stores.View()), me, order, old(stores.mishaps), stores.mishaps)
      ensures !done && order in old(stores.redis.msgs) && IsRead(old(stores.redis), order) ==>
                GaveUp(old(stores.mishaps), order)
    {
      ghost var start, clean0 := stores.View(), stores.clean;
      GoesNowhere(start, clean0);
      OthersBetween(start, clean0);
      done := false;
      if IsRead(stores.redis, order) {
        BeginMessage(start, clean0, order);
        var threw := ProcessRecord(start, clean0, Job(order, Poll, 1), stores.redis.msgs[order]);
        done := !threw;
      }
    }

    method PollNext(ghost start: State, ghost clean0: bool, order: OrderId) returns (done: bool)
      requires Between(start, clean0)
      modifies stores
      ensures Between(start, clean0) && Persists(old(stores.View()), stores.View())
      ensures done ==> order in stores.redis.msgs && IsAcked(stores.redis, order)
      ensures forall before :: Told(start, me, before, old(stores.mishaps)) ==> Told(start, me, before, stores.mishaps)
      ensures old(stores.mishaps) <= stores.mishaps
      ensures !done && order in old(stores.redis.msgs) && IsRead(old(stores.redis), order) ==>
                Blamed(old(stores.mishaps), stores.mishaps, order)
    {
      Account(start, clean0);
      ghost var was, clean, sofar := stores.View(), stores.clean, stores.mishaps;
      done := PollOneRecord(order);
      GoesThrough(start, was, stores.View(), clean, stores.clean);
      GoesKept(was, stores.View(), stores.clean);
      StillTold(start, was, clean, sofar);
    }

    /** pollOnce: a batch read from the stream; a message that fails does not stop the rest. */
    method PollOnce(batch: seq<OrderId>) returns (failed: set<OrderId>)
      requires Kept(stores.View()) && PcOf(stores.View(), me) == Idle
      modifies stores
      ensures Between(old(stores.View()), old(stores.clean)) && Kept(stores.View())
      ensures AllRead(stores.redis, batch, |batch|, old(stores.redis.delivery.Keys))
              && WorkedOff(stores.redis, batch, |batch|, failed)
      ensures Told(old(stores.View()), me, old(stores.mishaps), stores.mishaps)
      ensures forall o <- failed ::
                o in old(stores.redis.delivery) ==> Blamed(old(stores.mishaps), stores.mishaps, o)
      ensures stores.mishaps == old(stores.mishaps) ==> failed !! old(stores.redis.delivery.Keys)
      ensures stores.clean && Inv(old(stores.View())) ==> Inv(stores.View()) && Safe(stores.View())
    {
      ghost var start, clean0 := stores.View(), stores.clean;
      GoesNowhere(start, clean0);
      ReadBatch(start, clean0, batch);
      ghost var before := stores.mishaps;
      failed := {};
      for i := 0 to |batch|
        invariant Between(start, clean0)
        invariant AllRead(stores.redis, batch, |batch|, start.redis.delivery.Keys)
        invariant WorkedOff(stores.redis, batch, i, failed)
        invariant Told(start, me, before, stores.mishaps)
        invariant forall o <- failed * start.redis.delivery.Keys :: Blamed(before, stores.mishaps, o)
      {
        ghost var was, sofar := stores.View(), stores.mishaps;
        var done := PollNext(start, clean0, batch[i]);
        StillBlamed(before, sofar, failed * start.redis.delivery.Keys, done || batch[i] !in start.redis.delivery,
            batch[i]);
        ReadStays(was, stores.View(), batch, |batch|, start.redis.delivery.Keys);
        var failed' := if done then failed else failed + {batch[i]};
        WorkStays(was, stores.View(), batch, i, failed, failed');
        failed := failed';
      }
      Unblamed(before);
      Account(start, clean0);
      AccountOfClean(start, clean0);
    }
  }
}
