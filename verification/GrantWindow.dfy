/** A whole run, from the empty stores, into the one interleaving the grant protocol does not survive. */
module GrantWindow {
  import opened GrantProtocol
  import opened GrantTheorems

  const SKU: SkuId := 1
  const USER: UserId := 5
  const ORDER: OrderId := 7
  const POLLER: WorkerId := 1
  const COMPENSATOR: WorkerId := 2

  /** One SKU with one unit in both stores, nothing else. */
  function Fresh(): State {
    State(Db(map[SKU := Sku(true, 1, 1, 100)], map[], [], map[SKU := 1]),
          Redis(map[SKU := 1], map[], map[], {}, [], map[], map[]),
          map[], map[], map[])
  }

  /** The poller has hit the stock row for the order; the message was delivered n times; the compensator is free. */
  ghost predicate PollerInTransaction(st: State, n: nat) {
    && st.db == Fresh().db
    && st.redis.msgs == map[ORDER := Msg(SKU, USER, 1)]
    && st.redis.delivery == map[ORDER := Pending(n)]
    && st.redis.markers == {}
    && st.locks == map[USER := POLLER] && st.rowLocks == map[SKU := POLLER]
    && PcOf(st, POLLER) == Deducted(Job(ORDER, Poll, 1))
    && PcOf(st, COMPENSATOR) == Idle
  }

  lemma Claimed() returns (st: State)
    ensures Reaches(Fresh(), st)
    ensures st == Fresh().(redis := st.redis)
    ensures st.redis.msgs == map[ORDER := Msg(SKU, USER, 1)] && st.redis.delivery == map[ORDER := Pending(1)]
            && st.redis.markers == {}
  {
    ReachesSelf(Fresh());
    var claim := Outside(Claim(SKU, USER, ORDER, 1, true));
    ReachesOn(Fresh(), Fresh(), claim);
    ReachesOn(Fresh(), Next(Fresh(), claim), Outside(Deliver(ORDER)));
    st := Next(Next(Fresh(), claim), Outside(Deliver(ORDER)));
  }

  lemma Deducting() returns (st: State)
    ensures Reaches(Fresh(), st) && PollerInTransaction(st, 1)
  {
    st := Claimed();
    ReachesOn(Fresh(), st, Process(POLLER, Start(ORDER)));
    st := Next(st, Process(POLLER, Start(ORDER)));
    ReachesOn(Fresh(), st, Process(POLLER, TakeLock));
    st := Next(st, Process(POLLER, TakeLock));
    assert GrantedTo(st.db, SKU, USER) == {};
    ReachesOn(Fresh(), st, Handle(POLLER, Check));
    st := Next(st, Handle(POLLER, Check));
    ReachesOn(Fresh(), st, Handle(POLLER, Deduct));
    st := Next(st, Handle(POLLER, Deduct));
  }

  /** One delivery more: the compensator claims the message and fails to lock. */
  lemma OneDelivery(before: State, n: nat) returns (st: State)
    requires 1 <= n <= MAX_DELIVERY && Reaches(Fresh(), before) && PollerInTransaction(before, n)
    ensures Reaches(Fresh(), st) && PollerInTransaction(st, n + 1)
  {
    ReachesOn(Fresh(), before, Process(COMPENSATOR, Reclaim(ORDER, n)));
    st := Next(before, Process(COMPENSATOR, Reclaim(ORDER, n)));
    ReachesOn(Fresh(), st, Process(COMPENSATOR, LockBusy));
    st := Next(st, Process(COMPENSATOR, LockBusy));
  }

  /** While the poller is busy the compensator can only fail to lock, five times over. */
  lemma {:induction false} SixDeliveries(n: nat) returns (st: State)
    requires 1 <= n <= MAX_DELIVERY + 1
    ensures Reaches(Fresh(), st) && PollerInTransaction(st, n)
  {
    if n == 1 {
      st := Deducting();
    } else {
      st := SixDeliveries(n - 1);
      st := OneDelivery(st, n - 1);
    }
  }

  lemma DeadLetterStarts() returns (st: State)
    ensures Reaches(Fresh(), st)
    ensures PollerInTransaction(st.(workers := st.workers[COMPENSATOR := Idle]), MAX_DELIVERY + 2)
    ensures PcOf(st, COMPENSATOR) == DeadRecord(Job(ORDER, Compensate(MAX_DELIVERY + 1), 1))
  {
    st := SixDeliveries(MAX_DELIVERY + 1);
    ReachesOn(Fresh(), st, Process(COMPENSATOR, Reclaim(ORDER, MAX_DELIVERY + 1)));
    st := Next(st, Process(COMPENSATOR, Reclaim(ORDER, MAX_DELIVERY + 1)));
    ReachesOn(Fresh(), st, Process(COMPENSATOR, LockBusy));
    st := Next(st, Process(COMPENSATOR, LockBusy));
    ReachesOn(Fresh(), st, Dead(COMPENSATOR, AskGranted));
    st := Next(st, Dead(COMPENSATOR, AskGranted));
  }

  /** The poller commits inside the window, and the order ends both granted and rolled back. */
  lemma AnUnsafeRunExists() returns (st: State)
    ensures Init(Fresh()) && Reaches(Fresh(), st)
    ensures IsGranted(st.db, ORDER) && ORDER in st.redis.markers && !Safe(st)
  {
    st := DeadLetterStarts();
    ReachesOn(Fresh(), st, Handle(POLLER, Commit));
    st := Next(st, Handle(POLLER, Commit));
    ReachesOn(Fresh(), st, Dead(COMPENSATOR, RecordDead));
    st := Next(st, Dead(COMPENSATOR, RecordDead));
    ReachesOn(Fresh(), st, Dead(COMPENSATOR, ReturnDead));
    st := Next(st, Dead(COMPENSATOR, ReturnDead));
  }
}
