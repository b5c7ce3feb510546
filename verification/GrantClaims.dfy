/** The claim script: whom it refuses, and how many claims of one user it lets stand at a time. */
module GrantClaims {
  import opened Wrappers
  import opened GrantProtocol

  // ---------- One claim ----------

  predicate InStock(r: Redis, s: SkuId) { s in r.stock && r.stock[s] > 0 }

  /** One each, or as many as the limit says. */
  predicate UsedUp(r: Redis, s: SkuId, u: UserId, limit: int) {
    if limit <= 1 then s in r.claimed && u in r.claimed[s]
    else (s, u) in r.counts && r.counts[(s, u)] >= limit
  }

  /** When a claim is refused and with which answer; a refusal changes nothing. */
  lemma ClaimRefused(r: Redis, s: SkuId, u: UserId, o: OrderId, limit: int, xaddOk: bool)
    ensures var (after, answer) := GrantScript(r, s, u, o, limit, xaddOk);
            && (answer == -1 <==> !InStock(r, s))
            && (answer == -2 <==> InStock(r, s) && limit <= 1 && UsedUp(r, s, u, limit))
            && (answer == -3 <==> InStock(r, s) && limit > 1 && UsedUp(r, s, u, limit))
            && (answer == -4 <==> InStock(r, s) && !UsedUp(r, s, u, limit) && !xaddOk)
            && (-3 <= answer < 0 ==> after == r)
            && (answer == -4 ==> after == r.(claimed := after.claimed) && u !in ClaimedBy(after, s))
  {
  }

  /** A claim that goes through: one unit less, one message more, and the user's claim is noted. */
  lemma ClaimTaken(r: Redis, s: SkuId, u: UserId, o: OrderId, limit: int)
    requires InStock(r, s) && !UsedUp(r, s, u, limit)
    ensures var (after, answer) := GrantScript(r, s, u, o, limit, true);
            && answer == r.stock[s] - 1 && after.stock == r.stock[s := answer]
            && after.msgs == r.msgs[o := Msg(s, u, limit)] && after.delivery == r.delivery[o := Unread]
            && after.claimed == r.claimed[s := ClaimedBy(r, s) + {u}]
            && CountOf(after, s, u) == CountOf(r, s, u) + (if limit > 1 then 1 else 0)
            && (forall t: SkuId, v: UserId | (t, v) != (s, u) :: CountOf(after, t, v) == CountOf(r, t, v))
            && after.markers == r.markers && after.returned == r.returned
  {
  }

  // ---------- The claims that stand ----------

  /** The user's claims of this SKU that were neither refused nor rolled back. */
  function Standing(r: Redis, s: SkuId, u: UserId): set<OrderId> {
    set o | o in r.msgs && o !in r.markers && r.msgs[o].sku == s && r.msgs[o].user == u
  }

  function Quota(limit: int): nat { if limit <= 1 then 1 else limit }

  /** What the set of claimants and the user's counter say of the claims that stand. */
  ghost predicate Noted(r: Redis, s: SkuId, u: UserId, limit: int) {
    && r.markers <= r.msgs.Keys
    && (forall o <- r.msgs :: r.msgs[o].sku == s && r.msgs[o].user == u ==> r.msgs[o].limit == limit)
    && |Standing(r, s, u)| <= Quota(limit)
    && (if limit <= 1 then u in ClaimedBy(r, s) <==> Standing(r, s, u) != {}
        else CountOf(r, s, u) == |Standing(r, s, u)|)
  }

  /** The step is no claim of this user and SKU with another limit, and what notes the claims does not expire. */
  predicate Regular(e: Step, s: SkuId, u: UserId, limit: int) {
    e.Outside? ==>
      && (e.out.Claim? && e.out.sku == s && e.out.user == u ==> e.out.limit == limit)
      && !(limit <= 1 && e.out == ExpireClaims(s))
      && !(limit > 1 && e.out == ExpireCount(s, u))
  }

  lemma NoneOrOne(a: set<OrderId>)
    requires |a| <= 1
    ensures forall o | o in a :: a == {o}
  {
    forall o | o in a ensures a == {o} {
      assert |a - {o}| == |a| - 1;
      assert a - {o} == {};
    }
  }

  lemma ClaimNoted(r: Redis, s: SkuId, u: UserId, limit: int, t: SkuId, v: UserId, o: OrderId, l: int, xaddOk: bool)
    requires Noted(r, s, u, limit) && o !in r.msgs && ((t, v) == (s, u) ==> l == limit)
    ensures Noted(GrantScript(r, t, v, o, l, xaddOk).0, s, u, limit)
  {
    ClaimRefused(r, t, v, o, l, xaddOk);
    var (after, answer) := GrantScript(r, t, v, o, l, xaddOk);
    if answer >= 0 {
      if (t, v) == (s, u) {
        OwnTaken(r, s, u, limit, o);
      } else {
        OtherTaken(r, s, u, limit, t, v, o, l);
      }
    } else {
      assert Standing(after, s, u) == Standing(r, s, u);
    }
  }

  lemma TakenStanding(r: Redis, s: SkuId, u: UserId, t: SkuId, v: UserId, o: OrderId, l: int)
    requires r.markers <= r.msgs.Keys && o !in r.msgs && InStock(r, t) && !UsedUp(r, t, v, l)
    ensures Standing(GrantScript(r, t, v, o, l, true).0, s, u) ==
            Standing(r, s, u) + if (t, v) == (s, u) then {o} else {}
  {
    ClaimTaken(r, t, v, o, l);
  }

  lemma OwnTaken(r: Redis, s: SkuId, u: UserId, limit: int, o: OrderId)
    requires Noted(r, s, u, limit) && o !in r.msgs && InStock(r, s) && !UsedUp(r, s, u, limit)
    ensures Noted(GrantScript(r, s, u, o, limit, true).0, s, u, limit)
  {
    ClaimTaken(r, s, u, o, limit);
    TakenStanding(r, s, u, s, u, o, limit);
    assert |Standing(r, s, u) + {o}| == |Standing(r, s, u)| + 1;
    var after := GrantScript(r, s, u, o, limit, true).0;
    assert o in Standing(after, s, u);
    assert after.markers <= after.msgs.Keys;
  }

  /** What another claim leaves of what is noted of this user's. */
  lemma OtherTaken(r: Redis, s: SkuId, u: UserId, limit: int, t: SkuId, v: UserId, o: OrderId, l: int)
    requires Noted(r, s, u, limit) && o !in r.msgs && (t, v) != (s, u) && InStock(r, t) && !UsedUp(r, t, v, l)
    ensures Noted(GrantScript(r, t, v, o, l, true).0, s, u, limit)
  {
    ClaimTaken(r, t, v, o, l);
    TakenStanding(r, s, u, t, v, o, l);
    var after := GrantScript(r, t, v, o, l, true).0;
    assert Standing(after, s, u) == Standing(r, s, u);
    assert u in ClaimedBy(after, s) <==> u in ClaimedBy(r, s);
    assert after.markers <= after.msgs.Keys;
  }

  lemma RollbackStanding(r: Redis, s: SkuId, u: UserId, o: OrderId, sync: int)
    requires o in r.msgs
    ensures Standing(RollbackScript(r, o, r.msgs[o], sync), s, u) == Standing(r, s, u) - {o}
  {
  }

  /** The user's own standing claim is rolled back. */
  lemma OwnRollback(r: Redis, s: SkuId, u: UserId, limit: int, o: OrderId, sync: int)
    requires Noted(r, s, u, limit) && o in Standing(r, s, u)
    ensures Noted(RollbackScript(r, o, r.msgs[o], sync), s, u, limit)
  {
    RollbackStanding(r, s, u, o, sync);
    assert |Standing(r, s, u) - {o}| == |Standing(r, s, u)| - 1;
    if limit <= 1 {
      NoneOrOne(Standing(r, s, u));
    }
  }

  lemma OtherRollback(r: Redis, s: SkuId, u: UserId, limit: int, o: OrderId, sync: int)
    requires Noted(r, s, u, limit) && o in r.msgs && o !in Standing(r, s, u)
    ensures Noted(RollbackScript(r, o, r.msgs[o], sync), s, u, limit)
  {
    RollbackStanding(r, s, u, o, sync);
    assert Standing(r, s, u) - {o} == Standing(r, s, u);
  }

  lemma RollbackNoted(r: Redis, s: SkuId, u: UserId, limit: int, o: OrderId, sync: int)
    requires Noted(r, s, u, limit) && o in r.msgs
    ensures var after := RollbackScript(r, o, r.msgs[o], sync);
            Noted(after, s, u, limit) && Standing(after, s, u) == Standing(r, s, u) - {o}
  {
    RollbackStanding(r, s, u, o, sync);
    if o in Standing(r, s, u) {
      OwnRollback(r, s, u, limit, o, sync);
    } else {
      OtherRollback(r, s, u, limit, o, sync);
    }
  }

  lemma StepNoted(a: State, e: Step, s: SkuId, u: UserId, limit: int)
    requires Enabled(a, e) && Noted(a.redis, s, u, limit) && Regular(e, s, u, limit)
    ensures Noted(Next(a, e).redis, s, u, limit)
  {
    var r, after := a.redis, Next(a, e).redis;
    match e {
      case Outside(x) => OutsideNoted(a, x, s, u, limit);
      case Process(w, x) => assert Standing(after, s, u) == Standing(r, s, u);
      case Handle(w, x) =>
        if x.Return? {
          RollbackNoted(r, s, u, limit, PcOf(a, w).job.order, PcOf(a, w).sync);
        } else {
          assert Standing(after, s, u) == Standing(r, s, u);
        }
      case Dead(w, x) =>
        if x.ReturnDead? {
          RollbackNoted(r, s, u, limit, PcOf(a, w).job.order, PLUS_ONE);
        } else {
          assert Standing(after, s, u) == Standing(r, s, u);
        }
    }
  }

  lemma OutsideNoted(a: State, x: OutsideAct, s: SkuId, u: UserId, limit: int)
    requires OutsideEnabled(a, x) && Noted(a.redis, s, u, limit) && Regular(Outside(x), s, u, limit)
    ensures Noted(NextOutside(a, x).redis, s, u, limit)
  {
    if x.Claim? {
      ClaimNoted(a.redis, s, u, limit, x.sku, x.user, x.order, x.limit, x.xaddOk);
    } else {
      assert Standing(NextOutside(a, x).redis, s, u) == Standing(a.redis, s, u);
    }
  }

  // ---------- Over whole runs ----------

  /** A run in which this user's claims of this SKU carry one limit and nothing that notes them is there before. */
  ghost predicate ClaimRun(states: seq<State>, steps: seq<Step>, s: SkuId, u: UserId, limit: int) {
    && Run(states, steps)
    && u !in ClaimedBy(states[0].redis, s) && CountOf(states[0].redis, s, u) == 0
    && forall e <- steps :: Regular(e, s, u, limit)
  }

  lemma {:induction false} RunNoted(states: seq<State>, steps: seq<Step>, k: nat, s: SkuId, u: UserId, limit: int)
    requires ClaimRun(states, steps, s, u, limit) && k <= |steps|
    ensures Noted(states[k].redis, s, u, limit)
  {
    if k == 0 {
      assert Standing(states[0].redis, s, u) == {};
    } else {
      RunNoted(states, steps, k - 1, s, u, limit);
      assert StepAt(states, steps, k - 1);
      StepNoted(states[k - 1], steps[k - 1], s, u, limit);
    }
  }

  /** No user ever has more claims standing than the limit allows. */
  lemma ClaimsWithinLimit(states: seq<State>, steps: seq<Step>, k: nat, s: SkuId, u: UserId, limit: int)
    requires ClaimRun(states, steps, s, u, limit) && k <= |steps|
    ensures |Standing(states[k].redis, s, u)| <= if limit <= 1 then 1 else limit
  {
    RunNoted(states, steps, k, s, u, limit);
  }

  /** A claim goes through if and only if there is stock, the message can be written and the limit is not used up. */
  lemma ClaimGoesThroughIff(states: seq<State>, steps: seq<Step>, k: nat, s: SkuId, u: UserId, limit: int, o: OrderId,
                            xaddOk: bool)
    requires ClaimRun(states, steps, s, u, limit) && k <= |steps|
    ensures var r := states[k].redis;
            GrantScript(r, s, u, o, limit, xaddOk).1 >= 0 <==>
            InStock(r, s) && xaddOk && |Standing(r, s, u)| < if limit <= 1 then 1 else limit
  {
    RunNoted(states, steps, k, s, u, limit);
    ClaimRefused(states[k].redis, s, u, o, limit, xaddOk);
  }

  /** The order whose reservation the step may give back. */
  function GivesBack(a: State, e: Step): Option<OrderId> {
    if (e.Handle? && e.handle.Return?) || (e.Dead? && e.dead.ReturnDead?) then
      if PcOf(a, e.w).Idle? then None else Some(PcOf(a, e.w).job.order)
    else None
  }

  lemma RollbackStep(a: State, e: Step, o: OrderId, s: SkuId, u: UserId, limit: int)
    requires Enabled(a, e) && Noted(a.redis, s, u, limit) && GivesBack(a, e) == Some(o)
    ensures Standing(Next(a, e).redis, s, u) == Standing(a.redis, s, u) - {o}
  {
    RollbackNoted(a.redis, s, u, limit, o, if e.Handle? then PcOf(a, e.w).sync else PLUS_ONE);
  }

  /** Once a standing claim is rolled back, its user can claim again if there is stock. */
  lemma RollbackLetsClaimAgain(states: seq<State>, steps: seq<Step>, k: nat, s: SkuId, u: UserId, limit: int,
                               o: OrderId, again: OrderId)
    requires ClaimRun(states, steps, s, u, limit) && k < |steps| && again !in states[k + 1].redis.msgs
    requires GivesBack(states[k], steps[k]) == Some(o) && o in Standing(states[k].redis, s, u)
    ensures GrantScript(states[k + 1].redis, s, u, again, limit, true).1 >= 0 <==> InStock(states[k + 1].redis, s)
  {
    RunNoted(states, steps, k, s, u, limit);
    assert StepAt(states, steps, k);
    RollbackStep(states[k], steps[k], o, s, u, limit);
    assert |Standing(states[k + 1].redis, s, u)| == |Standing(states[k].redis, s, u)| - 1;
    ClaimGoesThroughIff(states, steps, k + 1, s, u, limit, again, true);
  }

  /** When the set of claimants expires, a user whose one claim still stands gets another. */
  lemma ExpiryLetsClaimTwice(a: State, s: SkuId, u: UserId, limit: int, o: OrderId)
    requires limit <= 1 && InStock(a.redis, s) && s in a.db.skus && o !in a.redis.msgs && o !in a.redis.markers
    requires |Standing(a.redis, s, u)| == 1
    ensures var b := Next(a, Outside(ExpireClaims(s)));
            var claim := Outside(Claim(s, u, o, limit, true));
            Enabled(b, claim) && |Standing(Next(b, claim).redis, s, u)| == 2
  {
    var b := Next(a, Outside(ExpireClaims(s)));
    ClaimTaken(b.redis, s, u, o, limit);
    var after := GrantScript(b.redis, s, u, o, limit, true).0;
    assert Standing(after, s, u) == Standing(a.redis, s, u) + {o};
  }
}
