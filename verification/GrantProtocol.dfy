/**
 The asynchronous grant protocol as a step system.

 A claim reserves one unit in Redis and writes one stream message; a worker (a poller or the
 compensator) takes the user's lock, runs the database transaction, rolls the reservation back
 when the database refuses, and acknowledges.  Everything a worker does between two accesses to
 shared state is one step, so that the steps of any number of workers, claims, administrator
 updates, exceptions and crashes interleave freely.
 */
module GrantProtocol {
  import opened Wrappers

  type SkuId = nat
  type UserId = nat
  type OrderId = nat
  type WorkerId = nat

  const MAX_ATTEMPTS := 3
  const MAX_DELIVERY := 5
  const PLUS_ONE := -1

  // ---------- MySQL ----------

  /** A row of tb_token_sku.  A deleted row keeps its place with `live` false: ids are never reused. */
  datatype Sku = Sku(live: bool, stock: int, limitCount: int, tokenAmount: int) {
    function Limit(): nat {
      if limitCount <= 0 then 1 else limitCount
    }
  }

  datatype Status = Granted | Failed
  datatype Order = Order(user: UserId, sku: SkuId, amount: int, status: Status)

  /** A ledger row of type ACTIVITY_GRANT. */
  datatype GrantEntry = GrantEntry(ref: OrderId, user: UserId, amount: int)

  /** `supply` is bookkeeping: the initial stock of each SKU plus every administrator delta. */
  datatype Db = Db(
    skus: map<SkuId, Sku>,
    orders: map<OrderId, Order>,
    grants: seq<GrantEntry>,
    supply: map<SkuId, int>)

  predicate Live(db: Db, s: SkuId) {
    s in db.skus && db.skus[s].live
  }

  predicate IsGranted(db: Db, o: OrderId) {
    o in db.orders && db.orders[o].status == Granted
  }

  /** The orders counted by the purchase-limit query: status granted, this user, this SKU. */
  function GrantedTo(db: Db, s: SkuId, u: UserId): set<OrderId> {
    set o | o in db.orders && db.orders[o].status == Granted && db.orders[o].sku == s && db.orders[o].user == u
  }

  function Sold(db: Db, s: SkuId): set<OrderId> {
    set o | o in db.orders && db.orders[o].status == Granted && db.orders[o].sku == s
  }

  predicate AtLimit(db: Db, s: SkuId, u: UserId) {
    s in db.skus && |GrantedTo(db, s, u)| >= db.skus[s].Limit()
  }

  datatype GrantResult =
    | Success
    | DuplicateMsg
    | DuplicateAlreadyGranted
    | StockNotEnough
    | SkuNotExists
    | AlreadyFailed

  /** The reads that open the grant transaction; None means the transaction goes on to the stock update. */
  function CheckGrant(db: Db, o: OrderId, s: SkuId, u: UserId): Option<GrantResult> {
    if o in db.orders then
      Some(if db.orders[o].status == Granted then DuplicateMsg else AlreadyFailed)
    else if !Live(db, s) then Some(SkuNotExists)
    else if AtLimit(db, s, u) then Some(DuplicateAlreadyGranted)
    else None
  }

  /** Whether the conditional update `stock = stock - 1 where stock > 0` hits a row. */
  predicate CanDeduct(db: Db, s: SkuId) {
    Live(db, s) && db.skus[s].stock > 0
  }

  /** Whether the inserts of the transaction go through: no row with this id, a positive amount. */
  predicate CanInsert(db: Db, o: OrderId, s: SkuId) {
    o !in db.orders && Live(db, s) && db.skus[s].tokenAmount > 0
  }

  /** The committed transaction: stock, order row and ledger row together. */
  function PersistGrant(db: Db, o: OrderId, s: SkuId, u: UserId): Db
    requires Live(db, s)
  {
    var sku := db.skus[s];
    db.(skus := db.skus[s := sku.(stock := sku.stock - 1)],
        orders := db.orders[o := Order(u, s, sku.tokenAmount, Granted)],
        grants := db.grants + [GrantEntry(o, u, sku.tokenAmount)])
  }

  /** recordFailedOrder: insert if absent; nothing can be written once the SKU row is gone. */
  function RecordFailed(db: Db, o: OrderId, s: SkuId, u: UserId): Db {
    if o in db.orders || !Live(db, s) then db
    else db.(orders := db.orders[o := Order(u, s, db.skus[s].tokenAmount, Failed)])
  }

  /** The value handed to the rollback script after a stock refusal: the DB stock, or -1 for "+1". */
  function SyncTarget(db: Db, s: SkuId): int {
    if Live(db, s) then db.skus[s].stock else PLUS_ONE
  }

  // ---------- Redis ----------

  datatype Msg = Msg(sku: SkuId, user: UserId, limit: int)
  datatype Delivery = Unread | Pending(count: nat) | Acked

  /** `returned` is bookkeeping: the orders whose rollback the script has applied, in order. */
  datatype Redis = Redis(
    stock: map<SkuId, int>,
    claimed: map<SkuId, set<UserId>>,
    counts: map<(SkuId, UserId), int>,
    markers: set<OrderId>,
    returned: seq<OrderId>,
    msgs: map<OrderId, Msg>,
    delivery: map<OrderId, Delivery>)

  predicate IsAcked(r: Redis, o: OrderId) {
    o in r.delivery && r.delivery[o].Acked?
  }

  predicate IsRead(r: Redis, o: OrderId) {
    o in r.delivery && !r.delivery[o].Unread?
  }

  function ClaimedBy(r: Redis, s: SkuId): set<UserId> {
    if s in r.claimed then r.claimed[s] else {}
  }

  function CountOf(r: Redis, s: SkuId, u: UserId): int {
    if (s, u) in r.counts then r.counts[(s, u)] else 0
  }

  /** grant.lua: stock check, duplicate or limit check, reservation and XADD, atomically. */
  function GrantScript(r: Redis, s: SkuId, u: UserId, o: OrderId, limit: int, xaddOk: bool): (Redis, int) {
    var stock := if s in r.stock then r.stock[s] else -1;
    if stock <= 0 then (r, -1)
    else if limit <= 1 && u in ClaimedBy(r, s) then (r, -2)
    else if limit > 1 && CountOf(r, s, u) + 1 > limit then (r, -3)
    else if !xaddOk then (r.(claimed := r.claimed[s := ClaimedBy(r, s) - {u}]), -4)
    else
      (r.(stock := r.stock[s := stock - 1],
          claimed := r.claimed[s := ClaimedBy(r, s) + {u}],
          counts := if limit > 1 then r.counts[(s, u) := CountOf(r, s, u) + 1] else r.counts,
          msgs := r.msgs[o := Msg(s, u, limit)],
          delivery := r.delivery[o := Unread]),
       stock - 1)
  }

  /** rollback_grant.lua: once per order id; a negative target adds one, any other overwrites the stock. */
  function RollbackScript(r: Redis, o: OrderId, m: Msg, sync: int): Redis {
    if o in r.markers then r
    else
      var stock := if sync >= 0 then sync else (if m.sku in r.stock then r.stock[m.sku] else 0) + 1;
      r.(markers := r.markers + {o},
         returned := r.returned + [o],
         stock := r.stock[m.sku := stock],
         claimed := r.claimed[m.sku := ClaimedBy(r, m.sku) - {m.user}],
         counts := if m.limit > 1 && CountOf(r, m.sku, m.user) > 0
                   then r.counts[(m.sku, m.user) := CountOf(r, m.sku, m.user) - 1] else r.counts)
  }

  // ---------- Workers ----------

  /** Poll: read from the stream.  Compensate: claimed from the pending list, seen with this delivery count. */
  datatype Origin = Poll | Compensate(seen: nat)
  datatype Job = Job(order: OrderId, origin: Origin, attempt: nat)

  /** Where a worker stands between two accesses to shared state. */
  datatype Pc =
    | Idle
    | Got(job: Job)                        // message in hand, user lock not yet taken
    | Locked(job: Job)                     // handleOnce is about to open the transaction
    | Counted(job: Job)                    // transaction: no order row, SKU present, below the limit
    | Deducted(job: Job)                   // transaction: the stock update hit, row lock held
    | Refused(job: Job)                    // STOCK_NOT_ENOUGH came back
    | Recorded(job: Job)                   // failed order recorded, DB stock not yet read
    | Returning(job: Job, sync: int)       // about to run the rollback script
    | Acking(job: Job)                     // about to XACK
    | Unlocking(job: Job)                  // handleOnce returned
    | DeadCheck(job: Job)                  // dead letter: about to ask orderGranted
    | DeadRecord(job: Job)                 // dead letter: not granted, about to record the failure
    | DeadReturn(job: Job)                 // dead letter: about to run the rollback script
    | DeadAck(job: Job)                    // dead letter: about to XACK

  predicate HoldsLock(pc: Pc) {
    pc.Locked? || pc.Counted? || pc.Deducted? || pc.Refused? || pc.Recorded? || pc.Returning? || pc.Acking?
        || pc.Unlocking?
  }

  predicate InDeadLetter(pc: Pc) {
    pc.DeadCheck? || pc.DeadRecord? || pc.DeadReturn? || pc.DeadAck?
  }

  datatype State = State(
    db: Db,
    redis: Redis,
    locks: map<UserId, WorkerId>,
    rowLocks: map<SkuId, WorkerId>,
    workers: map<WorkerId, Pc>)

  function PcOf(st: State, w: WorkerId): Pc {
    if w in st.workers then st.workers[w] else Idle
  }

  function Goto(st: State, w: WorkerId, pc: Pc): State {
    st.(workers := st.workers[w := pc])
  }

  function MsgOf(st: State, pc: Pc): Msg
    requires !pc.Idle? && pc.job.order in st.redis.msgs
  {
    st.redis.msgs[pc.job.order]
  }

  /** The worker's transaction is rolled back: its row locks go. */
  function AbortTx(st: State, w: WorkerId): State {
    st.(rowLocks := map s | s in st.rowLocks && st.rowLocks[s] != w :: st.rowLocks[s])
  }

  function Unlock(st: State, w: WorkerId): State {
    st.(locks := map u | u in st.locks && st.locks[u] != w :: st.locks[u])
  }

  /** An exception leaves processRecord: the poller logs it, the compensator may call it a dead letter. */
  function Escape(st: State, w: WorkerId, job: Job): State {
    Goto(Unlock(AbortTx(st, w), w), w,
         if job.origin.Compensate? && job.origin.seen > MAX_DELIVERY then DeadCheck(job) else Idle)
  }

  /** handleOnce threw: try again while attempts remain, unless the back-off sleep is interrupted. */
  function Broke(st: State, w: WorkerId, job: Job, interrupted: bool): State {
    if job.attempt < MAX_ATTEMPTS && !interrupted
    then Goto(AbortTx(st, w), w, Locked(job.(attempt := job.attempt + 1)))
    else Escape(st, w, job)
  }

  function Acknowledge(r: Redis, o: OrderId): Redis {
    r.(delivery := r.delivery[o := Acked])
  }

  /** Where handleOnce goes on a result that is known before the stock update. */
  function AfterCheck(job: Job, result: Option<GrantResult>): Pc {
    match result
    case None => Counted(job)
    case Some(DuplicateMsg) => Acking(job)
    case Some(Success) => Acking(job)
    case Some(StockNotEnough) => Refused(job)
    case Some(_) => Returning(job, PLUS_ONE)
  }

  // ---------- Steps ----------

  /** The worker has a message in hand. */
  predicate Working(st: State, w: WorkerId) {
    !PcOf(st, w).Idle? && PcOf(st, w).job.order in st.redis.msgs
  }

  function DoCheck(st: State, w: WorkerId): State
    requires Working(st, w)
  {
    var job, m := PcOf(st, w).job, MsgOf(st, PcOf(st, w));
    Goto(st, w, AfterCheck(job, CheckGrant(st.db, job.order, m.sku, m.user)))
  }

  function DoDeduct(st: State, w: WorkerId): State
    requires Working(st, w)
  {
    var job, m := PcOf(st, w).job, MsgOf(st, PcOf(st, w));
    if CanDeduct(st.db, m.sku)
    then Goto(st.(rowLocks := st.rowLocks[m.sku := w]), w, Deducted(job))
    else Goto(st, w, Refused(job))
  }

  function DoCommit(st: State, w: WorkerId): State
    requires Working(st, w)
  {
    var job, m := PcOf(st, w).job, MsgOf(st, PcOf(st, w));
    if CanInsert(st.db, job.order, m.sku)
    then Goto(AbortTx(st.(db := PersistGrant(st.db, job.order, m.sku, m.user)), w), w, Acking(job))
    else Broke(st, w, job, false)
  }

  function DoRecord(st: State, w: WorkerId, pc: Pc): State
    requires Working(st, w)
  {
    var job, m := PcOf(st, w).job, MsgOf(st, PcOf(st, w));
    Goto(st.(db := RecordFailed(st.db, job.order, m.sku, m.user)), w, pc)
  }

  function DoReadStock(st: State, w: WorkerId): State
    requires Working(st, w)
  {
    Goto(st, w, Returning(PcOf(st, w).job, SyncTarget(st.db, MsgOf(st, PcOf(st, w)).sku)))
  }

  function DoReturn(st: State, w: WorkerId, sync: int, pc: Pc): State
    requires Working(st, w)
  {
    Goto(st.(redis := RollbackScript(st.redis, PcOf(st, w).job.order, MsgOf(st, PcOf(st, w)), sync)), w, pc)
  }

  function DoAck(st: State, w: WorkerId, pc: Pc): State
    requires Working(st, w)
  {
    Goto(st.(redis := Acknowledge(st.redis, PcOf(st, w).job.order)), w, pc)
  }

  function DoAsk(st: State, w: WorkerId): State
    requires Working(st, w)
  {
    var job := PcOf(st, w).job;
    Goto(st, w, if IsGranted(st.db, job.order) then DeadAck(job) else DeadRecord(job))
  }

  function DoTakeLock(st: State, w: WorkerId): State
    requires Working(st, w)
  {
    Goto(st.(locks := st.locks[MsgOf(st, PcOf(st, w)).user := w]), w, Locked(PcOf(st, w).job))
  }

  function DoStart(st: State, w: WorkerId, o: OrderId): State {
    Goto(st, w, Got(Job(o, Poll, 1)))
  }

  /** XCLAIM: the delivery count goes up; the compensator judges by the count its listing showed. */
  function DoReclaim(st: State, w: WorkerId, o: OrderId, seen: nat): State
    requires o in st.redis.delivery && st.redis.delivery[o].Pending?
  {
    var n := st.redis.delivery[o].count;
    Goto(st.(redis := st.redis.(delivery := st.redis.delivery[o := Pending(n + 1)])), w,
        Got(Job(o, Compensate(seen), 1)))
  }

  function DoCrash(st: State, w: WorkerId): State {
    Goto(Unlock(AbortTx(st, w), w), w, Idle)
  }

  /** updateSku: the row is overwritten, the Redis stock moves by the administrator's delta. */
  function DoSetStock(st: State, s: SkuId, stock: int): State
    requires s in st.db.skus
  {
    var delta := stock - st.db.skus[s].stock;
    st.(db := st.db.(skus := st.db.skus[s := st.db.skus[s].(stock := stock)],
                     supply := if s in st.db.supply then st.db.supply[s := st.db.supply[s] + delta] else st.db.supply),
        redis := st.redis.(stock := if s in st.redis.stock then st.redis.stock[s := st.redis.stock[s] + delta]
                                    else st.redis.stock[s := stock]))
  }

  function DoCreate(st: State, s: SkuId, row: Sku): State {
    st.(db := st.db.(skus := st.db.skus[s := row], supply := st.db.supply[s := row.stock]),
        redis := st.redis.(stock := st.redis.stock[s := row.stock]))
  }

  function DoDelete(st: State, s: SkuId): State
    requires s in st.db.skus
  {
    st.(db := st.db.(skus := st.db.skus[s := st.db.skus[s].(live := false)]))
  }

  /** Claims, expiry, stream delivery and the administrator. */
  datatype OutsideAct =
    | Claim(sku: SkuId, user: UserId, order: OrderId, limit: int, xaddOk: bool)
    | ExpireClaims(sku: SkuId)
    | ExpireCount(sku: SkuId, user: UserId)
    | Deliver(order: OrderId)
    | CreateSku(sku: SkuId, row: Sku)
    | DeleteSku(sku: SkuId)
    | SetStock(sku: SkuId, stock: int)
    | InitStock(sku: SkuId)

  /** processRecord around handleOnce: picking a message up, the user lock, exceptions, crashes. */
  datatype ProcessAct =
    | Start(order: OrderId)
    | Reclaim(order: OrderId, seen: nat)
    | TakeLock
    | LockBusy
    | Throw(interrupted: bool)
    | Finish
    | Crash

  /** handleOnce, one access to shared state at a time. */
  datatype HandleAct = Check | Deduct | Commit | Record | ReadStock | Return | Ack

  /** The dead-letter block of retryOrDeadLetter. */
  datatype DeadAct = AskGranted | RecordDead | ReturnDead | AckDead

  datatype Step =
    | Outside(out: OutsideAct)
    | Process(w: WorkerId, process: ProcessAct)
    | Handle(w: WorkerId, handle: HandleAct)
    | Dead(w: WorkerId, dead: DeadAct)

  // When a step can be taken: the guards the two stores and the locks themselves give.

  predicate OutsideEnabled(st: State, e: OutsideAct) {
    match e
    case Claim(s, _, o, _, _) => o !in st.redis.msgs && s in st.db.skus
    case ExpireClaims(_) => true
    case ExpireCount(_, _) => true
    case Deliver(o) => o in st.redis.delivery && st.redis.delivery[o].Unread?
    case CreateSku(s, row) => s !in st.db.skus && row.live && row.stock >= 0
    case DeleteSku(s) => Live(st.db, s) && s !in st.rowLocks
    case SetStock(s, stock) => Live(st.db, s) && s !in st.rowLocks && stock >= 0
    case InitStock(s) => Live(st.db, s)
  }

  predicate ProcessEnabled(st: State, w: WorkerId, e: ProcessAct) {
    var pc := PcOf(st, w);
    match e
    case Start(o) => pc.Idle? && o in st.redis.delivery && !st.redis.delivery[o].Unread?
    case Reclaim(o, seen) =>
      pc.Idle? && o in st.redis.delivery && st.redis.delivery[o].Pending? && seen <= st.redis.delivery[o].count
    case TakeLock => Working(st, w) && pc.Got? && MsgOf(st, pc).user !in st.locks
    case LockBusy => pc.Got?
    case Throw(_) => HoldsLock(pc) || InDeadLetter(pc)
    case Finish => pc.Unlocking?
    case Crash => true
  }

  predicate HandleEnabled(st: State, w: WorkerId, e: HandleAct) {
    var pc := PcOf(st, w);
    Working(st, w) &&
    match e
    case Check => pc.Locked?
    case Deduct => pc.Counted? && MsgOf(st, pc).sku !in st.rowLocks
    case Commit => pc.Deducted?
    case Record => pc.Refused?
    case ReadStock => pc.Recorded?
    case Return => pc.Returning?
    case Ack => pc.Acking?
  }

  predicate DeadEnabled(st: State, w: WorkerId, e: DeadAct) {
    var pc := PcOf(st, w);
    Working(st, w) &&
    match e
    case AskGranted => pc.DeadCheck?
    case RecordDead => pc.DeadRecord?
    case ReturnDead => pc.DeadReturn?
    case AckDead => pc.DeadAck?
  }

  predicate Enabled(st: State, e: Step) {
    match e
    case Outside(a) => OutsideEnabled(st, a)
    case Process(w, a) => ProcessEnabled(st, w, a)
    case Handle(w, a) => HandleEnabled(st, w, a)
    case Dead(w, a) => DeadEnabled(st, w, a)
  }

  // What a step does.

  function NextOutside(st: State, e: OutsideAct): State
    requires OutsideEnabled(st, e)
  {
    match e
    case Claim(s, u, o, limit, xaddOk) => st.(redis := GrantScript(st.redis, s, u, o, limit, xaddOk).0)
    case ExpireClaims(s) => st.(redis := st.redis.(claimed := st.redis.claimed - {s}))
    case ExpireCount(s, u) => st.(redis := st.redis.(counts := st.redis.counts - {(s, u)}))
    case Deliver(o) => st.(redis := st.redis.(delivery := st.redis.delivery[o := Pending(1)]))
    case CreateSku(s, row) => DoCreate(st, s, row)
    case DeleteSku(s) => DoDelete(st, s)
    case SetStock(s, stock) => DoSetStock(st, s, stock)
    case InitStock(s) =>
      if s in st.redis.stock then st
      else st.(redis := st.redis.(stock := st.redis.stock[s := st.db.skus[s].stock]))
  }

  function NextProcess(st: State, w: WorkerId, e: ProcessAct): State
    requires ProcessEnabled(st, w, e)
  {
    match e
    case Start(o) => DoStart(st, w, o)
    case Reclaim(o, seen) => DoReclaim(st, w, o, seen)
    case TakeLock => DoTakeLock(st, w)
    case LockBusy => Escape(st, w, PcOf(st, w).job)
    case Throw(interrupted) =>
      if InDeadLetter(PcOf(st, w)) then Goto(st, w, Idle) else Broke(st, w, PcOf(st, w).job, interrupted)
    case Finish => Goto(Unlock(st, w), w, Idle)
    case Crash => DoCrash(st, w)
  }

  function NextHandle(st: State, w: WorkerId, e: HandleAct): State
    requires HandleEnabled(st, w, e)
  {
    var job := PcOf(st, w).job;
    match e
    case Check => DoCheck(st, w)
    case Deduct => DoDeduct(st, w)
    case Commit => DoCommit(st, w)
    case Record => DoRecord(st, w, Recorded(job))
    case ReadStock => DoReadStock(st, w)
    case Return => DoReturn(st, w, PcOf(st, w).sync, Acking(job))
    case Ack => DoAck(st, w, Unlocking(job))
  }

  function NextDead(st: State, w: WorkerId, e: DeadAct): State
    requires DeadEnabled(st, w, e)
  {
    var job := PcOf(st, w).job;
    match e
    case AskGranted => DoAsk(st, w)
    case RecordDead => DoRecord(st, w, DeadReturn(job))
    case ReturnDead => DoReturn(st, w, PLUS_ONE, DeadAck(job))
    case AckDead => DoAck(st, w, Idle)
  }

  function Next(st: State, e: Step): State
    requires Enabled(st, e)
  {
    match e
    case Outside(a) => NextOutside(st, a)
    case Process(w, a) => NextProcess(st, w, a)
    case Handle(w, a) => NextHandle(st, w, a)
    case Dead(w, a) => NextDead(st, w, a)
  }

  /** Any stock figures may stand in the two stores at the start; no order, message or worker does. */
  predicate Init(st: State) {
    && st.db.orders == map[] && st.db.grants == []
    && (forall s <- st.db.skus ::
          st.db.skus[s].stock >= 0 && s in st.db.supply && st.db.supply[s] == st.db.skus[s].stock)
    && st.redis.markers == {} && st.redis.returned == [] && st.redis.msgs == map[] && st.redis.delivery == map[]
    && st.locks == map[] && st.rowLocks == map[] && st.workers == map[]
  }

  /** The i-th step leads from the i-th state to the next one. */
  ghost predicate StepAt(states: seq<State>, steps: seq<Step>, i: nat)
    requires |states| == |steps| + 1 && i < |steps|
  {
    Enabled(states[i], steps[i]) && states[i + 1] == Next(states[i], steps[i])
  }

  /** Steps taken one after the other, from any state. */
  ghost predicate Continues(states: seq<State>, steps: seq<Step>) {
    && |states| == |steps| + 1
    && forall i: nat | i < |steps| :: StepAt(states, steps, i)
  }

  /** A finite run of the protocol. */
  ghost predicate Run(states: seq<State>, steps: seq<Step>) {
    Continues(states, steps) && Init(states[0])
  }

  ghost predicate Reaches(a: State, b: State) {
    exists states: seq<State>, steps: seq<Step> ::
      Continues(states, steps) && states[0] == a && states[|steps|] == b
  }

  lemma ReachesSelf(a: State)
    ensures Reaches(a, a)
  {
    assert Continues([a], []);
  }

  lemma ReachesOn(a: State, b: State, e: Step)
    requires Reaches(a, b) && Enabled(b, e)
    ensures Reaches(a, Next(b, e))
  {
    var states: seq<State>, steps: seq<Step> :| Continues(states, steps) && states[0] == a && states[|steps|] == b;
    var states', steps' := states + [Next(b, e)], steps + [e];
    forall i: nat | i < |steps'| ensures StepAt(states', steps', i) {
      if i < |steps| {
        assert StepAt(states, steps, i);
      }
    }
    assert Continues(states', steps') && states'[0] == a && states'[|steps'|] == Next(b, e);
  }
}
