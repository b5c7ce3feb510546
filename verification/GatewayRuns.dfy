/** One user's account under any interleaving of bookings, plain calls and streaming sessions. */
module GatewayRuns {
  import opened Wrappers
  import opened Credits
  import opened Pricing
  import S = StreamSession

  datatype Stream = Stream(estimate: int, s: S.Session)

  /** chat after its reservation. */
  datatype CallPc = Asking | Settling(actual: int) | Failing | Logging | Over

  datatype Call = Call(estimate: int, pc: CallPc, done: S.Tally)

  datatype State = State(account: Account, streams: seq<Stream>, calls: seq<Call>)

  const START := State(FRESH, [], [])

  const NOTHING := S.Tally(0, 0, 0, 0, 0, 0)

  // ---------- The steps ----------

  datatype CallStep = Answered(actual: int) | ProviderThrew | Settle(ok: bool) | Release(ok: bool) | Log(ok: bool)

  datatype Step =
    | Book(kind: Kind, change: int, ref: string)    // a grant, a purchase or an adjustment
    | BeginStream(estimate: int)
    | InStream(i: nat, e: S.Step, ref: string)
    | BeginCall(estimate: int)
    | InCall(i: nat, c: CallStep, ref: string)

  /** What a session's step does to the account. */
  datatype Effect = Nothing | Charge(actual: int) | GiveBack

  function EffectOf(s: S.Session, e: S.Step): Effect
    requires S.Enabled(s, e)
  {
    match e
    case Exec(true) =>
      if s.exec.Charging? then Charge(s.exec.actual) else if s.exec.ExecReleasing? then GiveBack else Nothing
    case DeltaAbort(true) => if s.exec.a.Releasing? then GiveBack else Nothing
    case InCallback(i, true) => if s.callbacks[i].Releasing? then GiveBack else Nothing
    case _ => Nothing
  }

  /** settle commits only where its UPDATE finds the row. */
  predicate Possible(a: Account, estimate: int, effect: Effect) {
    effect.Charge? ==> CanSettle(a, estimate, effect.actual)
  }

  function Apply(a: Account, estimate: int, effect: Effect, ref: string): Account {
    match effect
    case Nothing => a
    case Charge(actual) => Settled(a, estimate, actual, ref)
    case GiveBack => Released(a, estimate)
  }

  predicate CallEnabled(c: Call, e: CallStep) {
    match e
    case Answered(_) => c.pc.Asking?
    case ProviderThrew => c.pc.Asking?
    case Settle(_) => c.pc.Settling?
    case Release(_) => c.pc.Failing?
    case Log(_) => c.pc.Logging?
  }

  function CallEffect(c: Call, e: CallStep): Effect
    requires CallEnabled(c, e)
  {
    if e.Settle? && e.ok then Charge(c.pc.actual) else if e.Release? && e.ok then GiveBack else Nothing
  }

  function NextCall(c: Call, e: CallStep): Call
    requires CallEnabled(c, e)
  {
    match e
    case Answered(actual) => c.(pc := Settling(actual))
    case ProviderThrew => c.(pc := Failing)
    case Settle(ok) =>
      if ok then c.(pc := Over, done := S.Charge(c.done)) else c.(pc := Failing, done := S.FailToCharge(c.done))
    case Release(ok) =>
      if ok then c.(pc := Logging, done := S.GiveBack(c.done)) else c.(pc := Over, done := S.FailToGiveBack(c.done))
    case Log(ok) => c.(pc := Over, done := if ok then S.WriteRow(c.done) else c.done)
  }

  predicate Enabled(g: State, e: Step) {
    match e
    case Book(kind, change, _) =>
      match kind {
        case ActivityGrant => change > 0
        case Purchase => PackagePrice(change).Some?
        case AdminGrant => change > 0
        case AdminDeduct => change < 0 && g.account.balance + change >= 0
        case Consume => false
      }
    case BeginStream(estimate) => g.account.balance >= estimate
    case BeginCall(estimate) => g.account.balance >= estimate
    case InStream(i, e, _) =>
      i < |g.streams| && S.Enabled(g.streams[i].s, e)
          && Possible(g.account, g.streams[i].estimate, EffectOf(g.streams[i].s, e))
    case InCall(i, c, _) =>
      i < |g.calls| && CallEnabled(g.calls[i], c) && Possible(g.account, g.calls[i].estimate, CallEffect(g.calls[i], c))
  }

  function Next(g: State, e: Step): State
    requires Enabled(g, e)
  {
    match e
    case Book(kind, change, ref) => g.(account := Booked(g.account, kind, change, ref))
    case BeginStream(n) => g.(account := Reserved(g.account, n), streams := g.streams + [Stream(n, S.START)])
    case BeginCall(n) => g.(account := Reserved(g.account, n), calls := g.calls + [Call(n, Asking, NOTHING)])
    case InStream(i, e, ref) =>
      var x := g.streams[i];
      g.(account := Apply(g.account, x.estimate, EffectOf(x.s, e), ref),
          streams := g.streams[i := x.(s := S.Next(x.s, e))])
    case InCall(i, c, ref) =>
      var x := g.calls[i];
      g.(account := Apply(g.account, x.estimate, CallEffect(x, c), ref), calls := g.calls[i := NextCall(x, c)])
  }

  // ---------- Open reservations ----------

  /** A reservation that has been neither settled nor released. */
  predicate Open(done: S.Tally) { done.charged + done.givenBack == 0 }

  datatype Reservation = Reservation(estimate: int, open: bool)

  function Held(r: Reservation): int { if r.open then r.estimate else 0 }

  function Sum(rs: seq<Reservation>): int {
    if rs == [] then 0 else Sum(rs[..|rs| - 1]) + Held(rs[|rs| - 1])
  }

  function OfStreams(xs: seq<Stream>): seq<Reservation> {
    seq(|xs|, i requires 0 <= i < |xs| => Reservation(xs[i].estimate, Open(xs[i].s.done)))
  }

  function OfCalls(xs: seq<Call>): seq<Reservation> {
    seq(|xs|, i requires 0 <= i < |xs| => Reservation(xs[i].estimate, Open(xs[i].done)))
  }

  lemma SumOfNew(rs: seq<Reservation>, r: Reservation)
    ensures Sum(rs + [r]) == Sum(rs) + Held(r)
  {
    assert (rs + [r])[..|rs|] == rs;
  }

  lemma {:induction false} SumOfUpdate(rs: seq<Reservation>, i: nat, r: Reservation)
    requires i < |rs|
    ensures Sum(rs[i := r]) == Sum(rs) - Held(rs[i]) + Held(r)
  {
    var n := |rs| - 1;
    if i < n {
      assert rs[i := r][..n] == rs[..n][i := r];
      SumOfUpdate(rs[..n], i, r);
    } else {
      assert rs[i := r][..n] == rs[..n];
    }
  }

  ghost predicate Nonnegative(rs: seq<Reservation>) {
    forall r <- rs :: r.estimate >= 0
  }

  lemma {:induction false} SumNonnegative(rs: seq<Reservation>)
    requires Nonnegative(rs)
    ensures Sum(rs) >= 0
  {
    if rs != [] {
      SumNonnegative(rs[..|rs| - 1]);
      assert rs[|rs| - 1] in rs;
    }
  }

  /** One open reservation is no more than the sum of all. */
  lemma OneOfSum(rs: seq<Reservation>, i: nat)
    requires Nonnegative(rs) && i < |rs|
    ensures Held(rs[i]) <= Sum(rs)
  {
    var rest := rs[i := Reservation(0, false)];
    SumOfUpdate(rs, i, Reservation(0, false));
    forall r | r in rest ensures r.estimate >= 0 {
      var k :| 0 <= k < |rest| && rest[k] == r;
      assert k != i ==> rs[k] in rs;
    }
    SumNonnegative(rest);
  }

  // ---------- The invariant ----------

  predicate CallInv(c: Call) {
    && c.done.charged + c.done.givenBack <= 1 && c.done.rows <= c.done.charged + c.done.givenBack
    && (c.pc.Asking? || c.pc.Settling? || c.pc.Failing? ==> c.done.charged == 0 && c.done.givenBack == 0)
    && (c.pc.Logging? ==> c.done.givenBack == 1 && c.done.rows == 0)
  }

  predicate Machines(g: State) {
    && (forall i | 0 <= i < |g.streams| :: S.Inv(g.streams[i].s))
    && (forall i | 0 <= i < |g.calls| :: CallInv(g.calls[i]))
  }

  function OpenSum(g: State): int { Sum(OfStreams(g.streams)) + Sum(OfCalls(g.calls)) }

  /** An account and the two lists of reservations made on it. */
  ghost predicate Covers(a: Account, rs: seq<Reservation>, cs: seq<Reservation>) {
    && Balanced(a) && a.balance >= 0
    && a.frozen == Sum(rs) + Sum(cs)
    && Nonnegative(rs) && Nonnegative(cs)
  }

  ghost predicate Solvent(g: State) {
    Covers(g.account, OfStreams(g.streams), OfCalls(g.calls))
  }

  ghost predicate Inv(g: State) { Machines(g) && Solvent(g) }

  predicate NonnegativeEstimate(e: Step) {
    (e.BeginStream? || e.BeginCall?) ==> e.estimate >= 0
  }

  // ---------- Every step keeps it ----------

  /** A session's step settles or releases exactly where the tally says so, and only from an open reservation. */
  lemma EffectIsTallied(s: S.Session, e: S.Step)
    requires S.Inv(s) && S.Enabled(s, e)
    ensures Open(s.done) && !Open(S.Next(s, e).done) <==> !EffectOf(s, e).Nothing?
    ensures EffectOf(s, e).Nothing? ==> Open(s.done) == Open(S.Next(s, e).done)
  {
    S.StepKeeps(s, e);
  }

  lemma CallEffectIsTallied(c: Call, e: CallStep)
    requires CallInv(c) && CallEnabled(c, e)
    ensures CallInv(NextCall(c, e))
    ensures Open(c.done) && !Open(NextCall(c, e).done) <==> !CallEffect(c, e).Nothing?
    ensures CallEffect(c, e).Nothing? ==> Open(c.done) == Open(NextCall(c, e).done)
  {
  }

  /** The account after a session or a call acted on its reservation. */
  lemma ApplyKeeps(a: Account, estimate: int, effect: Effect, ref: string, others: int)
    requires Balanced(a) && a.balance >= 0 && estimate >= 0 && others >= 0 && Possible(a, estimate, effect)
    requires !effect.Nothing? ==> a.frozen == estimate + others
    ensures var b := Apply(a, estimate, effect, ref);
            Balanced(b) && b.balance >= 0 && b.frozen == (if effect.Nothing? then a.frozen else others)
  {
    if effect.Charge? {
      SettledBalances(a, estimate, effect.actual, ref);
    }
  }

  lemma BookKeeps(g: State, e: Step)
    requires Inv(g) && e.Book? && Enabled(g, e)
    ensures Inv(Next(g, e))
  {
    BookedBalances(g.account, e.kind, e.change, e.ref);
  }

  lemma OneMore(rs: seq<Reservation>, estimate: int)
    requires Nonnegative(rs) && estimate >= 0
    ensures Nonnegative(rs + [Reservation(estimate, true)])
            && Sum(rs + [Reservation(estimate, true)]) == Sum(rs) + estimate
  {
    SumOfNew(rs, Reservation(estimate, true));
  }

  lemma NewStream(xs: seq<Stream>, n: int)
    ensures OfStreams(xs + [Stream(n, S.START)]) == OfStreams(xs) + [Reservation(n, true)]
  {
  }

  lemma NewCall(xs: seq<Call>, n: int)
    ensures OfCalls(xs + [Call(n, Asking, NOTHING)]) == OfCalls(xs) + [Reservation(n, true)]
  {
  }

  lemma NewMachineStarts(g: State, n: int)
    requires Machines(g)
    ensures Machines(g.(streams := g.streams + [Stream(n, S.START)]))
    ensures Machines(g.(calls := g.calls + [Call(n, Asking, NOTHING)]))
  {
  }

  lemma ReservedKeeps(a: Account, n: int)
    requires Balanced(a) && a.balance >= n
    ensures Balanced(Reserved(a, n)) && Reserved(a, n).balance >= 0 && Reserved(a, n).frozen == a.frozen + n
  {
  }

  lemma CoversMore(a: Account, rs: seq<Reservation>, cs: seq<Reservation>, n: int)
    requires Covers(a, rs, cs) && n >= 0 && a.balance >= n
    ensures Covers(Reserved(a, n), rs + [Reservation(n, true)], cs)
            && Covers(Reserved(a, n), rs, cs + [Reservation(n, true)])
  {
    ReservedKeeps(a, n);
    OneMore(rs, n);
    OneMore(cs, n);
  }

  lemma BeginStreamKeeps(g: State, n: int)
    requires Inv(g) && n >= 0 && Enabled(g, BeginStream(n))
    ensures Solvent(Next(g, BeginStream(n)))
  {
    CoversMore(g.account, OfStreams(g.streams), OfCalls(g.calls), n);
    NewStream(g.streams, n);
  }

  lemma BeginCallKeeps(g: State, n: int)
    requires Inv(g) && n >= 0 && Enabled(g, BeginCall(n))
    ensures Solvent(Next(g, BeginCall(n)))
  {
    CoversMore(g.account, OfStreams(g.streams), OfCalls(g.calls), n);
    NewCall(g.calls, n);
  }

  lemma BeginKeepsMachines(g: State, n: int)
    requires Machines(g) && g.account.balance >= n
    ensures Machines(Next(g, BeginStream(n))) && Machines(Next(g, BeginCall(n)))
  {
    NewMachineStarts(g, n);
  }

  /** One reservation of a list changes hands or stays as it is: the sum follows. */
  lemma OneMoves(rs: seq<Reservation>, i: nat, open: bool)
    requires Nonnegative(rs) && i < |rs| && (open ==> rs[i].open)
    ensures var rs' := rs[i := Reservation(rs[i].estimate, open)];
            && Nonnegative(rs') && Sum(rs') == Sum(rs) - Held(rs[i]) + (if open then rs[i].estimate else 0)
            && Sum(rs') >= 0 && Held(rs[i]) <= Sum(rs)
  {
    var rs' := rs[i := Reservation(rs[i].estimate, open)];
    SumOfUpdate(rs, i, Reservation(rs[i].estimate, open));
    OneOfSum(rs, i);
    assert rs[i] in rs;
    forall r | r in rs' ensures r.estimate >= 0 {
      var k :| 0 <= k < |rs'| && rs'[k] == r;
      assert rs[k] in rs;
    }
    SumNonnegative(rs');
  }

  /** The account follows the reservation that was acted on; the other reservations of both kinds add up to `rest`. */
  lemma InStreamKeeps(g: State, e: Step)
    requires Inv(g) && e.InStream? && Enabled(g, e)
    ensures Inv(Next(g, e))
  {
    var x, rs, cs := g.streams[e.i], OfStreams(g.streams), OfCalls(g.calls);
    var x' := x.(s := S.Next(x.s, e.e));
    S.StepKeeps(x.s, e.e);
    EffectIsTallied(x.s, e.e);
    assert rs[e.i] == Reservation(x.estimate, Open(x.s.done)) && rs[e.i] in rs;
    assert OfStreams(g.streams[e.i := x']) == rs[e.i := Reservation(x.estimate, Open(x'.s.done))];
    OneMoves(rs, e.i, Open(x'.s.done));
    SumNonnegative(cs);
    ApplyKeeps(g.account, x.estimate, EffectOf(x.s, e.e), e.ref, OpenSum(g) - Held(rs[e.i]));
  }

  lemma InCallKeeps(g: State, e: Step)
    requires Inv(g) && e.InCall? && Enabled(g, e)
    ensures Inv(Next(g, e))
  {
    var x, rs, cs := g.calls[e.i], OfStreams(g.streams), OfCalls(g.calls);
    var x' := NextCall(x, e.c);
    CallEffectIsTallied(x, e.c);
    assert cs[e.i] == Reservation(x.estimate, Open(x.done)) && cs[e.i] in cs;
    assert OfCalls(g.calls[e.i := x']) == cs[e.i := Reservation(x.estimate, Open(x'.done))];
    OneMoves(cs, e.i, Open(x'.done));
    SumNonnegative(rs);
    ApplyKeeps(g.account, x.estimate, CallEffect(x, e.c), e.ref, OpenSum(g) - Held(cs[e.i]));
  }

  lemma StepKeeps(g: State, e: Step)
    requires Inv(g) && Enabled(g, e) && NonnegativeEstimate(e)
    ensures Inv(Next(g, e))
  {
    match e
    case Book(_, _, _) => BookKeeps(g, e);
    case BeginStream(n) =>
      BeginKeepsMachines(g, n);
      BeginStreamKeeps(g, n);
    case BeginCall(n) =>
      BeginKeepsMachines(g, n);
      BeginCallKeeps(g, n);
    case InStream(_, _, _) => InStreamKeeps(g, e);
    case InCall(_, _, _) => InCallKeeps(g, e);
  }

  // ---------- Whole runs ----------

  ghost predicate StepAt(states: seq<State>, steps: seq<Step>, i: nat)
    requires |states| == |steps| + 1 && i < |steps|
  {
    Enabled(states[i], steps[i]) && states[i + 1] == Next(states[i], steps[i])
  }

  /** A run from a fresh account in which every reservation asked for is acceptable to `ok`. */
  ghost predicate Run(states: seq<State>, steps: seq<Step>, ok: int -> bool) {
    && |states| == |steps| + 1 && states[0] == START
    && (forall i: nat | i < |steps| :: StepAt(states, steps, i))
    && (forall i | 0 <= i < |steps| && (steps[i].BeginStream? || steps[i].BeginCall?) :: ok(steps[i].estimate))
  }

  lemma CoversNothing(a: Account, rs: seq<Reservation>, cs: seq<Reservation>)
    requires a.balance == 0 && a.frozen == 0 && a.ledger == [] && rs == [] && cs == []
    ensures Covers(a, rs, cs)
  {
  }

  lemma NoReservations(g: State)
    requires g.streams == [] && g.calls == []
    ensures Machines(g) && OfStreams(g.streams) == [] && OfCalls(g.calls) == []
  {
  }

  lemma StartIsSolvent(g: State)
    requires g == START
    ensures Inv(g)
  {
    NoReservations(g);
    CoversNothing(g.account, OfStreams(g.streams), OfCalls(g.calls));
  }

  lemma {:induction false} InvHolds(states: seq<State>, steps: seq<Step>, ok: int -> bool, i: nat)
    requires Run(states, steps, ok) && (forall n :: ok(n) ==> n >= 0) && i < |states|
    ensures Inv(states[i])
  {
    if i == 0 {
      StartIsSolvent(states[0]);
    } else {
      InvHolds(states, steps, ok, i - 1);
      assert StepAt(states, steps, i - 1);
      StepKeeps(states[i - 1], steps[i - 1]);
    }
  }

  // ---------- Any run, whatever is reserved ----------

  ghost predicate Kept(g: State) { Machines(g) && Balanced(g.account) }

  lemma ApplyBalances(a: Account, estimate: int, effect: Effect, ref: string)
    requires Balanced(a)
    ensures Balanced(Apply(a, estimate, effect, ref))
  {
    if effect.Charge? {
      SettledBalances(a, estimate, effect.actual, ref);
    }
  }

  lemma AnyStepKeeps(g: State, e: Step)
    requires Kept(g) && Enabled(g, e)
    ensures Kept(Next(g, e))
  {
    match e
    case Book(kind, change, ref) => BookedBalances(g.account, kind, change, ref);
    case BeginStream(n) => NewMachineStarts(g, n);
    case BeginCall(n) => NewMachineStarts(g, n);
    case InStream(i, x, ref) =>
      S.StepKeeps(g.streams[i].s, x);
      ApplyBalances(g.account, g.streams[i].estimate, EffectOf(g.streams[i].s, x), ref);
    case InCall(i, c, ref) =>
      CallEffectIsTallied(g.calls[i], c);
      ApplyBalances(g.account, g.calls[i].estimate, CallEffect(g.calls[i], c), ref);
  }

  lemma {:induction false} AnyRunKeeps(states: seq<State>, steps: seq<Step>, ok: int -> bool, i: nat)
    requires Run(states, steps, ok) && i < |states|
    ensures Kept(states[i])
  {
    if i == 0 {
      NoReservations(states[0]);
    } else {
      AnyRunKeeps(states, steps, ok, i - 1);
      assert StepAt(states, steps, i - 1);
      AnyStepKeeps(states[i - 1], steps[i - 1]);
    }
  }

  /** Whatever amounts are reserved, negative ones included, the ledger explains what the user has. */
  lemma LedgerExplains(states: seq<State>, steps: seq<Step>, ok: int -> bool, i: nat)
    requires Run(states, steps, ok) && i < |states|
    ensures states[i].account.balance + states[i].account.frozen == Total(states[i].account.ledger)
  {
    AnyRunKeeps(states, steps, ok, i);
  }

  /** Every session and every call of a run has at most one outcome. */
  lemma OutcomesAreUnique(states: seq<State>, steps: seq<Step>, ok: int -> bool, i: nat)
    requires Run(states, steps, ok) && i < |states|
    ensures forall k | 0 <= k < |states[i].streams| :: S.Safe(states[i].streams[k].s)
    ensures forall k | 0 <= k < |states[i].calls| ::
              var t := states[i].calls[k].done; t.charged + t.givenBack <= 1 && t.rows <= t.charged + t.givenBack
  {
    AnyRunKeeps(states, steps, ok, i);
  }

  /** At every append, the recorded balance and what is frozen then add up to the ledger so far. */
  lemma AppendsBalance(states: seq<State>, steps: seq<Step>, ok: int -> bool, i: nat)
    requires Run(states, steps, ok) && i < |steps|
    ensures var a, b := states[i].account, states[i + 1].account;
            && a.ledger <= b.ledger && |b.ledger| <= |a.ledger| + 1
            && (b.ledger != a.ledger ==> b.ledger[|a.ledger|].balanceAfter + b.frozen == Total(b.ledger))
  {
    AnyRunKeeps(states, steps, ok, i + 1);
    assert StepAt(states, steps, i);
  }

  // ---------- Runs whose reservations are not negative ----------

  /** Both balances stay non-negative, the ledger explains them, and what is frozen is exactly what is reserved. */
  lemma AccountIsSolvent(states: seq<State>, steps: seq<Step>, ok: int -> bool, i: nat)
    requires Run(states, steps, ok) && (forall n :: ok(n) ==> n >= 0) && i < |states|
    ensures var a := states[i].account;
            && a.balance >= 0 && a.frozen >= 0
            && a.balance + a.frozen == Total(a.ledger)
            && a.frozen == OpenSum(states[i])
  {
    InvHolds(states, steps, ok, i);
    SumNonnegative(OfStreams(states[i].streams));
    SumNonnegative(OfCalls(states[i].calls));
  }

  /** The reservation a step acts on, and what it does to it. */
  function Acting(g: State, e: Step): (int, Effect)
    requires Enabled(g, e)
  {
    match e
    case InStream(i, x, _) => (g.streams[i].estimate, EffectOf(g.streams[i].s, x))
    case InCall(i, c, _) => (g.calls[i].estimate, CallEffect(g.calls[i], c))
    case _ => (0, Nothing)
  }

  /** Whoever is about to settle or release finds its whole reservation frozen. */
  lemma ReservationIsThere(g: State, e: Step)
    requires Inv(g) && Enabled(g, e) && !Acting(g, e).1.Nothing?
    ensures 0 <= Acting(g, e).0 <= g.account.frozen
  {
    var rs, cs := OfStreams(g.streams), OfCalls(g.calls);
    SumNonnegative(rs);
    SumNonnegative(cs);
    if e.InStream? {
      EffectIsTallied(g.streams[e.i].s, e.e);
      assert rs[e.i] in rs;
      OneOfSum(rs, e.i);
    } else {
      CallEffectIsTallied(g.calls[e.i], e.c);
      assert cs[e.i] in cs;
      OneOfSum(cs, e.i);
    }
  }

  /** release never silently changes nothing: its UPDATE finds the row whenever it runs. */
  lemma ReleaseIsNeverSkipped(states: seq<State>, steps: seq<Step>, ok: int -> bool, i: nat)
    requires Run(states, steps, ok) && (forall n :: ok(n) ==> n >= 0) && i < |steps|
    requires Enabled(states[i], steps[i]) && Acting(states[i], steps[i]).1.GiveBack?
    ensures CanRelease(states[i].account, Acting(states[i], steps[i]).0)
    ensures states[i + 1].account.balance == states[i].account.balance + Acting(states[i], steps[i]).0
  {
    InvHolds(states, steps, ok, i);
    ReservationIsThere(states[i], steps[i]);
    assert StepAt(states, steps, i);
  }

  /** A session about to settle within its estimate meets both conditions, in every state a run can reach. */
  lemma StreamSettlementCannotFail(states: seq<State>, steps: seq<Step>, ok: int -> bool, i: nat, k: nat)
    requires Run(states, steps, ok) && (forall n :: ok(n) ==> n >= 0) && i < |states| && k < |states[i].streams|
    requires var x := states[i].streams[k]; x.s.exec.Charging? && x.s.exec.actual <= x.estimate
    ensures CanSettle(states[i].account, states[i].streams[k].estimate, states[i].streams[k].s.exec.actual)
  {
    InvHolds(states, steps, ok, i);
    var g := states[i];
    var x, rs := g.streams[k], OfStreams(g.streams);
    SumNonnegative(OfCalls(g.calls));
    assert rs[k] in rs && Open(x.s.done);
    OneOfSum(rs, k);
  }

  lemma CallSettlementCannotFail(states: seq<State>, steps: seq<Step>, ok: int -> bool, i: nat, k: nat)
    requires Run(states, steps, ok) && (forall n :: ok(n) ==> n >= 0) && i < |states| && k < |states[i].calls|
    requires var x := states[i].calls[k]; x.pc.Settling? && x.pc.actual <= x.estimate
    ensures CanSettle(states[i].account, states[i].calls[k].estimate, states[i].calls[k].pc.actual)
  {
    InvHolds(states, steps, ok, i);
    var g := states[i];
    var x, cs := g.calls[k], OfCalls(g.calls);
    SumNonnegative(OfStreams(g.streams));
    assert cs[k] in cs && Open(x.done);
    OneOfSum(cs, k);
  }

  /**
   Usage within what was reserved for: the settlement of a stream goes through, whatever else the account has been
   used for.
   */
  lemma StreamWithinEstimateSettles(states: seq<State>, steps: seq<Step>, ok: int -> bool, i: nat, k: nat,
                                    messages: seq<Option<string>>, maxTokens: int, p: Price, prompt: int,
                                        completion: int)
    requires Run(states, steps, ok) && (forall n :: ok(n) ==> n >= 0) && i < |states| && k < |states[i].streams|
    requires p.Valid() && prompt <= Chars(messages) + FRAMING && completion <= maxTokens
    requires var x := states[i].streams[k];
             && x.estimate == Estimate(messages, maxTokens, p)
             && x.s.exec == S.Charging(StreamCharge(prompt, completion, x.estimate, p))
    ensures CanSettle(states[i].account, states[i].streams[k].estimate, states[i].streams[k].s.exec.actual)
  {
    StreamChargeWithinEstimate(messages, maxTokens, p, prompt, completion);
    StreamSettlementCannotFail(states, steps, ok, i, k);
  }

  lemma CallWithinEstimateSettles(states: seq<State>, steps: seq<Step>, ok: int -> bool, i: nat, k: nat,
                                  messages: seq<Option<string>>, maxTokens: int, p: Price, prompt: int, completion: int)
    requires Run(states, steps, ok) && (forall n :: ok(n) ==> n >= 0) && i < |states| && k < |states[i].calls|
    requires p.Valid() && prompt <= Chars(messages) + FRAMING && completion <= maxTokens
    requires var x := states[i].calls[k];
             x.estimate == Estimate(messages, maxTokens, p) && x.pc == Settling(Cost(prompt, completion, p))
    ensures CanSettle(states[i].account, states[i].calls[k].estimate, states[i].calls[k].pc.actual)
  {
    UsageWithinEstimate(messages, maxTokens, p, prompt, completion);
    CallSettlementCannotFail(states, steps, ok, i, k);
  }

  /** Exactly the non-negative reservations keep the frozen balance from going below zero. */
  lemma NonnegativeIsExact(ok: int -> bool)
    ensures (forall n :: ok(n) ==> n >= 0) <==>
            (forall states: seq<State>, steps: seq<Step>, i: nat :: Run(states, steps, ok) && i < |states| ==>
                states[i].account.frozen >= 0)
  {
    if forall n :: ok(n) ==> n >= 0 {
      forall states: seq<State>, steps: seq<Step>, i: nat | Run(states, steps, ok) && i < |states|
             ensures states[i].account.frozen >= 0 {
        AccountIsSolvent(states, steps, ok, i);
      }
    } else {
      var n :| ok(n) && n < 0;
      var states, steps := [START, Next(START, BeginStream(n))], [BeginStream(n)];
      assert StepAt(states, steps, 0);
      assert Run(states, steps, ok) && states[1].account.frozen < 0;
    }
  }
}
