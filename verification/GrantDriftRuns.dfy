/**
 Two whole runs in which a restock between a refusal and its rollback spoils the Redis stock, one in each direction.
 */
module GrantDriftRuns {
  import opened GrantProtocol
  import opened GrantDrift

  const SKU: SkuId := 1
  const ORDER: OrderId := 7
  const POLLER: WorkerId := 1

  /** Redis offers one unit that the database does not hold; nothing else is there. */
  function Ahead(): State {
    State(Db(map[SKU := Sku(true, 0, 1, 100)], map[], [], map[SKU := 0]),
          Redis(map[SKU := 1], map[], map[], {}, [], map[], map[]),
          map[], map[], map[])
  }

  /** The order has been claimed and refused for lack of stock. */
  ghost predicate RefusedOnce(st: State) {
    && st.db == Ahead().db && st.rowLocks == map[] && st.redis.markers == {}
    && st.redis.stock == map[SKU := 0] && st.redis.msgs == map[ORDER := Msg(SKU, 5, 1)]
        && st.redis.claimed == map[SKU := {5}]
    && PcOf(st, POLLER) == Refused(Job(ORDER, Poll, 1))
  }

  lemma Starts()
    ensures Init(Ahead()) && InitCovered(Ahead()) && Drift(Ahead(), SKU) == 1
  {
    assert InFlight(Ahead(), SKU) == {};
  }

  lemma ToRefusal() returns (st: State)
    ensures Reaches(Ahead(), st) && RefusedOnce(st)
  {
    ReachesSelf(Ahead());
    var claim := Outside(Claim(SKU, 5, ORDER, 1, true));
    ReachesOn(Ahead(), Ahead(), claim);
    st := Next(Ahead(), claim);
    assert ClaimedBy(Ahead().redis, SKU) + {5} == {5};
    st := ToDelivery(st);
    st := ToRefusalFrom(st);
  }

  lemma ToDelivery(before: State) returns (st: State)
    requires Reaches(Ahead(), before) && before.redis.delivery == map[ORDER := Unread] && before.workers == map[]
    ensures Reaches(Ahead(), st) && PcOf(st, POLLER) == Got(Job(ORDER, Poll, 1))
    ensures st.db == before.db && st.locks == before.locks && st.rowLocks == before.rowLocks
    ensures st.redis == before.redis.(delivery := st.redis.delivery)
  {
    ReachesOn(Ahead(), before, Outside(Deliver(ORDER)));
    st := Next(before, Outside(Deliver(ORDER)));
    ReachesOn(Ahead(), st, Process(POLLER, Start(ORDER)));
    st := Next(st, Process(POLLER, Start(ORDER)));
  }

  lemma ToRefusalFrom(before: State) returns (st: State)
    requires Reaches(Ahead(), before) && before.db == Ahead().db && before.locks == map[] && before.rowLocks == map[]
    requires before.redis.markers == {} && before.redis.stock == map[SKU := 0]
             && before.redis.claimed == map[SKU := {5}]
    requires before.redis.msgs == map[ORDER := Msg(SKU, 5, 1)] && PcOf(before, POLLER) == Got(Job(ORDER, Poll, 1))
    ensures Reaches(Ahead(), st) && RefusedOnce(st)
  {
    ReachesOn(Ahead(), before, Process(POLLER, TakeLock));
    st := Next(before, Process(POLLER, TakeLock));
    assert GrantedTo(st.db, SKU, 5) == {};
    ReachesOn(Ahead(), st, Handle(POLLER, Check));
    st := Next(st, Handle(POLLER, Check));
    ReachesOn(Ahead(), st, Handle(POLLER, Deduct));
    st := Next(st, Handle(POLLER, Deduct));
  }

  /** The refusal is recorded and the stock read, two units having been put in before the read or after it. */
  lemma ToReturn(restockFirst: bool) returns (st: State)
    ensures Reaches(Ahead(), st)
    ensures st.redis.markers == {} && st.redis.stock == map[SKU := 2] && st.redis.claimed == map[SKU := {5}]
    ensures st.redis.msgs == map[ORDER := Msg(SKU, 5, 1)]
    ensures Live(st.db, SKU) && st.db.skus[SKU].stock == 2
    ensures forall o <- st.db.orders :: !IsGranted(st.db, o)
    ensures PcOf(st, POLLER) == Returning(Job(ORDER, Poll, 1), if restockFirst then 2 else 0)
  {
    st := ToRefusal();
    if restockFirst {
      ReachesOn(Ahead(), st, Outside(SetStock(SKU, 2)));
      st := Next(st, Outside(SetStock(SKU, 2)));
    }
    ReachesOn(Ahead(), st, Handle(POLLER, Record));
    st := Next(st, Handle(POLLER, Record));
    ReachesOn(Ahead(), st, Handle(POLLER, ReadStock));
    st := Next(st, Handle(POLLER, ReadStock));
    if !restockFirst {
      ReachesOn(Ahead(), st, Outside(SetStock(SKU, 2)));
      st := Next(st, Outside(SetStock(SKU, 2)));
    }
  }

  /** One more claim of the unit that Redis offers. */
  lemma OneClaim(before: State, u: UserId, o: OrderId) returns (st: State)
    requires Reaches(Ahead(), before) && Tracked(before, SKU) && before.redis.stock[SKU] > 0
    requires u !in ClaimedBy(before.redis, SKU) && o !in before.redis.msgs
    ensures Reaches(Ahead(), st) && st.db == before.db && st.workers == before.workers
            && st.redis.markers == before.redis.markers
    ensures st.redis.stock == before.redis.stock[SKU := before.redis.stock[SKU] - 1]
    ensures st.redis.msgs == before.redis.msgs[o := Msg(SKU, u, 1)]
    ensures ClaimedBy(st.redis, SKU) == ClaimedBy(before.redis, SKU) + {u}
  {
    ReachesOn(Ahead(), before, Outside(Claim(SKU, u, o, 1, true)));
    st := Next(before, Outside(Claim(SKU, u, o, 1, true)));
  }

  /** The rollback that writes two units back while two orders are in flight. */
  lemma OverwriteTwo(before: State) returns (st: State)
    requires Reaches(Ahead(), before) && Tracked(before, SKU) && before.db.skus[SKU].stock == 2
    requires before.redis.markers == {}
    requires before.redis.msgs == map[ORDER := Msg(SKU, 5, 1), 9 := Msg(SKU, 6, 1), 10 := Msg(SKU, 8, 1)]
    requires (forall o <- before.db.orders :: !IsGranted(before.db, o))
             && PcOf(before, POLLER) == Returning(Job(ORDER, Poll, 1), 2)
    ensures Reaches(Ahead(), st) && Tracked(st, SKU) && Drift(st, SKU) == 2
  {
    ReachesOn(Ahead(), before, Handle(POLLER, Return));
    st := Next(before, Handle(POLLER, Return));
    assert InFlight(st, SKU) == {9, 10};
  }

  /** Restocked before the stock is read, claimed before it is written back: the drift grows from 1 to 2. */
  lemma DriftGrows() returns (st: State)
    ensures Init(Ahead()) && InitCovered(Ahead()) && Drift(Ahead(), SKU) == 1
    ensures Reaches(Ahead(), st) && Tracked(st, SKU) && Drift(st, SKU) == 2
  {
    Starts();
    st := ToReturn(true);
    st := OneClaim(st, 6, 9);
    st := OneClaim(st, 8, 10);
    st := OverwriteTwo(st);
  }

  /** Restocked after the stock is read: the rollback forgets the restocked units, and the drift ends at -2. */
  lemma DriftFallsBelowZero() returns (st: State)
    ensures Init(Ahead()) && InitCovered(Ahead()) && Drift(Ahead(), SKU) == 1
    ensures Reaches(Ahead(), st) && Tracked(st, SKU) && Drift(st, SKU) == -2
  {
    Starts();
    st := ToReturn(false);
    ReachesOn(Ahead(), st, Handle(POLLER, Return));
    st := Next(st, Handle(POLLER, Return));
    assert InFlight(st, SKU) == {};
  }
}
