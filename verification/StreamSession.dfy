/**
 One streaming call: the executor thread and any number of container callbacks race for its outcome
 through two flags.  Every access to a flag, the account or the emitter is a step of its own.
 */
module StreamSession {

  /**
   How often each kind of thing has been done for the session. A charge writes its call row in the same transaction.
   */
  datatype Tally = Tally(
    charged: nat,        // settle committed
    chargeFailed: nat,   // settle threw: the reservation stays
    givenBack: nat,      // release ran
    giveBackFailed: nat, // release threw
    rows: nat,           // call rows
    finals: nat)         // the final chunk, then [DONE], handed to the emitter

  /** Where abortOnDisconnect stands. */
  datatype Abort =
    | Entering
    | MarkingGone
    | StoppingUpstream
    | TakingOver
    | Releasing
    | Logging
    | Closing
    | Left(threw: bool)

  /** Where the executor thread stands. `InDelta`: a send failed and it runs abortOnDisconnect itself. */
  datatype Exec =
    | Streaming
    | InDelta(a: Abort)
    | Ending(actual: int)
    | Charging(actual: int)
    | Catching
    | ExecReleasing
    | ExecLogging
    | Returned
    | SendingFinal
    | SendingDone
    | Completing
    | Erred
    | Finished

  datatype Session = Session(
    settled: bool, serverCompleted: bool, clientGone: bool,
    exec: Exec, callbacks: seq<Abort>, done: Tally)

  const START := Session(false, false, false, Streaming, [], Tally(0, 0, 0, 0, 0, 0))

  // ---------- The steps ----------

  datatype Step =
    | Callback                              // the container starts onTimeout, onError or onCompletion
    | SendFails                             // a chunk cannot be sent
    | UpstreamEnds(actual: int)             // the provider is done; `actual` is what settle will be asked for
    | UpstreamThrows
    | Exec(ok: bool)                        // the executor's next access; `ok`: it does not throw
    | DeltaAbort(ok: bool)                  // the same inside a failed send
    | InCallback(i: nat, ok: bool)          // the next access of a callback

  predicate Enabled(s: Session, e: Step) {
    match e
    case Callback => true
    case SendFails => s.exec.Streaming? && !s.clientGone
    case UpstreamEnds(_) => s.exec.Streaming?
    case UpstreamThrows => s.exec.Streaming?
    case Exec(_) => !s.exec.Streaming? && !s.exec.InDelta? && !s.exec.Finished?
    case DeltaAbort(_) => s.exec.InDelta?
    case InCallback(i, _) => i < |s.callbacks| && !s.callbacks[i].Left?
  }

  function Charge(t: Tally): Tally { t.(charged := t.charged + 1, rows := t.rows + 1) }

  function FailToCharge(t: Tally): Tally { t.(chargeFailed := t.chargeFailed + 1) }

  function GiveBack(t: Tally): Tally { t.(givenBack := t.givenBack + 1) }

  function FailToGiveBack(t: Tally): Tally { t.(giveBackFailed := t.giveBackFailed + 1) }

  function WriteRow(t: Tally): Tally { t.(rows := t.rows + 1) }

  function SendEnd(t: Tally): Tally { t.(finals := t.finals + 1) }

  /** The next access of abortOnDisconnect: the flags and the tally change, and it moves on. */
  function AbortStep(s: Session, a: Abort, ok: bool): (Session, Abort) {
    match a
    case Entering => if s.serverCompleted then (s, Left(false)) else (s.(serverCompleted := true), MarkingGone)
    case MarkingGone => (s.(clientGone := true), StoppingUpstream)
    case StoppingUpstream => (s, if ok then TakingOver else Left(true))
    case TakingOver => if s.settled then (s, Closing) else (s.(settled := true), Releasing)
    case Releasing =>
      if ok then (s.(done := GiveBack(s.done)), Logging) else (s.(done := FailToGiveBack(s.done)), Left(true))
    case Logging => if ok then (s.(done := WriteRow(s.done)), Closing) else (s, Left(true))
    case Closing => (s, Left(false))
    case Left(_) => (s, a)
  }

  function ExecStep(s: Session, ok: bool): Session {
    match s.exec
    case Ending(actual) => if s.settled then s.(exec := Returned) else s.(settled := true, exec := Charging(actual))
    case Charging(actual) =>
      if ok then s.(done := Charge(s.done), exec := Returned) else s.(done := FailToCharge(s.done), exec := Catching)
    case Catching => if s.settled then s.(exec := Erred) else s.(settled := true, exec := ExecReleasing)
    case ExecReleasing =>
      if ok then s.(done := GiveBack(s.done), exec := ExecLogging)
         else s.(done := FailToGiveBack(s.done), exec := Erred)
    case ExecLogging => if ok then s.(done := WriteRow(s.done), exec := Erred) else s.(exec := Erred)
    case Returned => if s.serverCompleted then s.(exec := Finished)
        else s.(serverCompleted := true, exec := SendingFinal)
    case SendingFinal => s.(done := SendEnd(s.done), exec := if ok then SendingDone else Completing)
    case SendingDone => s.(done := SendEnd(s.done), exec := Completing)
    case Completing => s.(exec := Finished)
    case Erred => if s.serverCompleted then s.(exec := Finished) else s.(serverCompleted := true, exec := Completing)
    case _ => s
  }

  /** abortOnDisconnect inside a failed send: afterwards streaming goes on, unless it threw. */
  function DeltaStep(s: Session, ok: bool): Session
    requires s.exec.InDelta?
  {
    var (t, a) := AbortStep(s, s.exec.a, ok);
    t.(exec := if a == Left(true) then Catching else if a == Left(false) then Streaming else InDelta(a))
  }

  function CallbackStep(s: Session, i: nat, ok: bool): Session
    requires i < |s.callbacks|
  {
    var (t, a) := AbortStep(s, s.callbacks[i], ok);
    t.(callbacks := s.callbacks[i := a])
  }

  function Next(s: Session, e: Step): Session
    requires Enabled(s, e)
  {
    match e
    case Callback => s.(callbacks := s.callbacks + [Entering])
    case SendFails => s.(exec := InDelta(Entering))
    case UpstreamEnds(actual) => s.(exec := Ending(actual))
    case UpstreamThrows => s.(exec := Catching)
    case Exec(ok) => ExecStep(s, ok)
    case DeltaAbort(ok) => DeltaStep(s, ok)
    case InCallback(i, ok) => CallbackStep(s, i, ok)
  }

  // ---------- Counting ----------

  function Count(callbacks: seq<Abort>, a: Abort): nat {
    if callbacks == [] then 0
    else Count(callbacks[..|callbacks| - 1], a) + if callbacks[|callbacks| - 1] == a then 1 else 0
  }

  lemma {:induction false} CountOfUpdate(callbacks: seq<Abort>, a: Abort, i: nat, x: Abort)
    requires i < |callbacks|
    ensures Count(callbacks[i := x], a) == Count(callbacks, a) - (if callbacks[i] == a then 1 else 0) + if x == a then 1
            else 0
  {
    var n := |callbacks| - 1;
    if i < n {
      assert callbacks[i := x][..n] == callbacks[..n][i := x];
      CountOfUpdate(callbacks[..n], a, i, x);
    } else {
      assert callbacks[i := x][..n] == callbacks[..n];
    }
  }

  lemma CountOfNew(callbacks: seq<Abort>, a: Abort, x: Abort)
    ensures Count(callbacks + [x], a) == Count(callbacks, a) + if x == a then 1 else 0
  {
    assert (callbacks + [x])[..|callbacks|] == callbacks;
  }

  predicate ExecHolds(x: Exec) { x.Charging? || x.ExecReleasing? || x == InDelta(Releasing) }

  predicate ExecLogs(x: Exec) { x.ExecLogging? || x == InDelta(Logging) }

  /** How many threads have won `settled` and have not acted on it yet. */
  function Holders(s: Session): nat {
    (if ExecHolds(s.exec) then 1 else 0) + Count(s.callbacks, Releasing)
  }

  function Loggers(s: Session): nat {
    (if ExecLogs(s.exec) then 1 else 0) + Count(s.callbacks, Logging)
  }

  // ---------- The invariant ----------

  /** The winner of `settled` is about to act or has acted, and there is only one; it writes at most one row. */
  predicate OneOutcome(s: Session) {
    var t := s.done;
    && Holders(s) + t.charged + t.chargeFailed + t.givenBack + t.giveBackFailed == (if s.settled then 1 else 0)
    && Loggers(s) + t.rows <= t.charged + t.givenBack
  }

  /** Past its first access, abortOnDisconnect owns `serverCompleted`. */
  predicate Owns(a: Abort) { !a.Entering? && !a.Left? }

  predicate OwnersCompleted(s: Session) {
    && (forall i | 0 <= i < |s.callbacks| && Owns(s.callbacks[i]) :: s.serverCompleted)
    && (s.exec.InDelta? && Owns(s.exec.a) ==> s.serverCompleted)
  }

  /** The executor is past the point where the outcome is decided. */
  predicate Decided(x: Exec) {
    !x.Streaming? && !x.InDelta? && !x.Ending? && !x.Catching?
  }

  predicate FinalOnlyCharged(s: Session) {
    && (s.settled && (s.exec.Streaming? || s.exec.InDelta? || s.exec.Ending?) ==> s.serverCompleted)
    && (Decided(s.exec) ==> s.settled)
    && ((s.exec.Returned? && !s.serverCompleted) || s.exec.SendingFinal? || s.exec.SendingDone? || s.done.finals > 0 ==>
          s.done.charged > 0)
    && (s.done.finals > 0 ==> s.serverCompleted && (s.exec.SendingDone? || s.exec.Completing? || s.exec.Finished?))
    && (s.exec.SendingFinal? || s.exec.SendingDone? || s.exec.Completing? ==> s.serverCompleted)
    && s.done.finals <= (if s.exec.SendingFinal? then 0 else if s.exec.SendingDone? then 1 else 2)
  }

  predicate Inv(s: Session) {
    OneOutcome(s) && OwnersCompleted(s) && FinalOnlyCharged(s)
  }

  // ---------- Every step keeps it ----------

  lemma ExecKeepsOutcome(s: Session, ok: bool)
    requires Inv(s) && Enabled(s, Exec(ok))
    ensures OneOutcome(ExecStep(s, ok))
  {
  }

  lemma ExecKeepsFinal(s: Session, ok: bool)
    requires FinalOnlyCharged(s) && OwnersCompleted(s) && Enabled(s, Exec(ok))
    ensures FinalOnlyCharged(ExecStep(s, ok)) && OwnersCompleted(ExecStep(s, ok))
  {
  }

  lemma ExecKeeps(s: Session, ok: bool)
    requires Inv(s) && Enabled(s, Exec(ok))
    ensures Inv(ExecStep(s, ok))
  {
    ExecKeepsOutcome(s, ok);
    ExecKeepsFinal(s, ok);
  }

  lemma DeltaKeepsOutcome(s: Session, ok: bool)
    requires Inv(s) && s.exec.InDelta?
    ensures OneOutcome(DeltaStep(s, ok))
  {
  }

  lemma DeltaKeepsFinal(s: Session, ok: bool)
    requires FinalOnlyCharged(s) && OwnersCompleted(s) && s.exec.InDelta?
    ensures FinalOnlyCharged(DeltaStep(s, ok)) && OwnersCompleted(DeltaStep(s, ok))
  {
  }

  lemma DeltaKeeps(s: Session, ok: bool)
    requires Inv(s) && s.exec.InDelta?
    ensures Inv(DeltaStep(s, ok))
  {
    DeltaKeepsOutcome(s, ok);
    DeltaKeepsFinal(s, ok);
  }

  lemma CallbackKeeps(s: Session, i: nat, ok: bool)
    requires Inv(s) && i < |s.callbacks| && !s.callbacks[i].Left?
    ensures Inv(CallbackStep(s, i, ok))
  {
    var a := AbortStep(s, s.callbacks[i], ok).1;
    CountOfUpdate(s.callbacks, Releasing, i, a);
    CountOfUpdate(s.callbacks, Logging, i, a);
  }

  lemma StepKeeps(s: Session, e: Step)
    requires Inv(s) && Enabled(s, e)
    ensures Inv(Next(s, e))
  {
    match e
    case Callback =>
      CountOfNew(s.callbacks, Releasing, Entering);
      CountOfNew(s.callbacks, Logging, Entering);
    case SendFails =>
    case UpstreamEnds(_) =>
    case UpstreamThrows =>
    case Exec(ok) => ExecKeeps(s, ok);
    case DeltaAbort(ok) => DeltaKeeps(s, ok);
    case InCallback(i, ok) => CallbackKeeps(s, i, ok);
  }

  // ---------- Whole runs of one session ----------

  ghost predicate StepAt(states: seq<Session>, steps: seq<Step>, i: nat)
    requires |states| == |steps| + 1 && i < |steps|
  {
    Enabled(states[i], steps[i]) && states[i + 1] == Next(states[i], steps[i])
  }

  ghost predicate Run(states: seq<Session>, steps: seq<Step>) {
    && |states| == |steps| + 1 && states[0] == START
    && forall i: nat | i < |steps| :: StepAt(states, steps, i)
  }

  /**
   At most one of settle and release took effect, at most one call row; the end of the stream is sent only if settled.
   */
  predicate Safe(s: Session) {
    && s.done.charged + s.done.givenBack <= 1
    && s.done.rows <= s.done.charged + s.done.givenBack
    && (s.done.finals > 0 ==> s.done.charged == 1)
    && (s.done.chargeFailed > 0 ==> s.done.charged + s.done.givenBack + s.done.rows == 0)
  }

  predicate AllLeft(callbacks: seq<Abort>) {
    forall a <- callbacks :: a.Left?
  }

  lemma {:induction false} NobodyWaits(callbacks: seq<Abort>, a: Abort)
    requires AllLeft(callbacks) && !a.Left?
    ensures Count(callbacks, a) == 0
  {
    if callbacks != [] {
      assert callbacks[|callbacks| - 1] in callbacks;
      NobodyWaits(callbacks[..|callbacks| - 1], a);
    }
  }

  lemma {:induction false} InvHolds(states: seq<Session>, steps: seq<Step>, i: nat)
    requires Run(states, steps) && i < |states|
    ensures Inv(states[i])
  {
    if i > 0 {
      InvHolds(states, steps, i - 1);
      assert StepAt(states, steps, i - 1);
      StepKeeps(states[i - 1], steps[i - 1]);
    }
  }

  /** Whatever the executor and the callbacks do, in whatever order. */
  lemma EverySessionIsSafe(states: seq<Session>, steps: seq<Step>, i: nat)
    requires Run(states, steps) && i < |states|
    ensures Safe(states[i])
  {
    InvHolds(states, steps, i);
  }

  /** When all threads are through, exactly one outcome has been tried. */
  lemma EverySessionIsDecided(states: seq<Session>, steps: seq<Step>, i: nat)
    requires Run(states, steps) && i < |states| && states[i].exec.Finished? && AllLeft(states[i].callbacks)
    ensures var t := states[i].done; t.charged + t.chargeFailed + t.givenBack + t.giveBackFailed == 1
  {
    InvHolds(states, steps, i);
    NobodyWaits(states[i].callbacks, Releasing);
  }
}
