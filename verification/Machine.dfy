/** The running service as a transition system: the tables, the transfer engine, and any number of request
    handlers, sweeps and settlement runs, each between two of its statements. One action is one statement,
    one transaction or one local decision. */
module Machine {
  import opened Types
  import opened ReferenceText
  import opened Database

  // ----- the transfer engine -----

  /** A payment as the engine's query returned it. */
  datatype Snap = Snap(id: PaymentId, row: Payment)

  /** Where the engine stands with the first payment of its batch. */
  datatype Pc =
    | Ready                                // has not looked at it yet
    | Started                              // found it due
    | Expiring                             // found its due date passed
    | Calling                              // about to call the rail
    | Posting                              // the rail approved: about to post the transfer
    | Marking                              // posted: about to mark the payment SETTLED
    | Declining                            // the rail declined: about to count the retry
    | Announcing(event: Event, again: bool) // about to enqueue an event, then to requeue the payment if again
    | Requeueing                           // about to move the payment from FAILED back to AWAITING_TRANSFER
    | Clearing                             // about to forget its due time

  /** `lastRail` is the time of the last rail call for each payment in this process; the program does not
      store it. */
  datatype Engine = Engine(
    batch: seq<Snap>,
    tickNow: int,
    dueAt: map<PaymentId, int>,
    pc: Pc,
    lastRail: map<PaymentId, int>)

  function FreshEngine(now: int): Engine {
    Engine([], now, map[], Ready, map[])
  }

  datatype Reply = Approved | Declined | RailError

  datatype EngineStep =
    | Tick(ids: seq<PaymentId>)  // the query of a tick returned these ids
    | Visit(delay: int)          // look up or choose the due time of the next payment
    | CheckDate
    | CallRail(reply: Reply)
    | Write                      // the write that the pc names
    | WriteFails
    | Announce
    | AnnounceFails
    | Clear

  // ----- request handlers, sweeps and settlement runs -----

  datatype Task =
    | Creating(id: PaymentId, reference: string, amount: int, due: int)
    | Payer(id: PaymentId, row: Payment, confirms: bool) // a pay page or a confirmation that has read its row
    | PayerExpiring(id: PaymentId)
    | PayerConfirming(id: PaymentId)
    | Refunding(id: PaymentId, amount: int)
    | SettleReading(run: nat)
    | SettlePosting(run: nat, amount: int)
    | SettleClosing(run: nat, amount: int, entries: nat, status: RunStatus)
    | Emitting(todo: seq<Event>, next: nat)              // events from index `next` on are still to be enqueued

  datatype TaskStep =
    | Generate(id: PaymentId, amount: int, due: int, day: Day) // count the day's references
    | CreateWrite
    | OpenPay(id: PaymentId, confirms: bool)
    | Decide(goesThrough: bool)
    | PayerWrite
    | OpenRefund(id: PaymentId)
    | RefundWrite
    | SweepWrite(ids: seq<PaymentId>, limit: nat, announces: bool) // the minute's sweep, or the dashboard's
    | OpenRun
    | ReadBalance
    | ReadBalanceFails
    | PostRun
    | PostRunFails
    | CloseRun
    | Emit
    | EmitFails
    | Finish                     // the goroutine has enqueued its events and returns
    | Drop                       // the goroutine gives up: a read or a write failed

  datatype Action =
    | TaskDoes(t: nat, step: TaskStep)
    | EngineDoes(move: EngineStep)
    | Advance(seconds: nat)
    | Crash                      // the process stops and starts again: only the tables survive

  datatype State = State(db: Db, engine: Engine, tasks: map<nat, Task>, now: int)

  function Start(now: int): State {
    State(EMPTY_DB, FreshEngine(now), map[], now)
  }

  // ----- task steps -----

  function With(s: State, t: nat, k: Task): State {
    s.(tasks := s.tasks[t := k])
  }

  function Without(s: State, t: nat): State {
    s.(tasks := s.tasks - {t})
  }

  const BATCH_LIMIT: nat := 200

  /** The first statement of a goroutine. */
  function Opens(s: State, t: nat, step: TaskStep): Option<State>
    requires t !in s.tasks
  {
    match step
    case Generate(id, amount, due, day) =>
      Some(With(s, t, Creating(id, NextReference(s.db, day), amount, due)))
    case OpenPay(id, confirms) =>
      if id in s.db.payments then Some(With(s, t, Payer(id, s.db.payments[id], confirms))) else Some(s)
    case OpenRefund(id) =>
      if HasStatus(s.db, id, Settled)
      then Some(With(s, t, Refunding(id, s.db.payments[id].amount))) else Some(s)
    case SweepWrite(ids, limit, announces) =>
      if Selects(s.db.payments, OverdueIds(s.db, s.now), DueDate, limit, ids)
      then Some(With(s.(db := ExpireEach(s.db, ids)), t, Emitting(SweepEvents(ids, announces), 0))) else None
    case OpenRun =>
      Some(With(s.(db := CreateSettlement(s.db)), t, SettleReading(|s.db.settlements|)))
    case _ => None
  }

  /** The minute's sweep announces what it expired; the dashboard's does not. */
  function SweepEvents(ids: seq<PaymentId>, announces: bool): seq<Event> {
    if announces then ExpiryEvents(ids) else []
  }

  function ExpiryEvents(ids: seq<PaymentId>): (events: seq<Event>)
    ensures |events| == |ids| && forall i | 0 <= i < |ids| :: events[i] == PaymentExpired(ids[i])
  {
    seq(|ids|, i requires 0 <= i < |ids| => PaymentExpired(ids[i]))
  }

  function Decides(s: State, t: nat, k: Task, goesThrough: bool): State
    requires k.Payer?
  {
    if k.row.status == Pending && s.now > k.row.due then With(s, t, PayerExpiring(k.id))
    else if k.confirms && k.row.status == Pending && goesThrough then With(s, t, PayerConfirming(k.id))
    else Without(s, t)
  }

  function RunClosed(s: State, t: nat, k: Task): State
    requires k.SettleClosing?
  {
    match CompleteSettlement(s.db, k.run, k.amount, k.entries, k.status)
    case Ok(db) =>
      if k.status == Success && k.amount > 0
      then With(s.(db := db), t, Emitting([SettlementCompleted(k.run)], 0)) else Without(s.(db := db), t)
    case Err(_) => Without(s, t)
  }

  /** The later statements of a goroutine. */
  function Proceeds(s: State, t: nat, step: TaskStep): Option<State>
    requires t in s.tasks
  {
    match (step, s.tasks[t])
    case (CreateWrite, Creating(id, reference, amount, due)) => (
      match CreatePayment(s.db, id, reference, None, amount, due)
      case Ok(db) => Some(With(s.(db := db), t, Emitting([PaymentCreated(id)], 0)))
      case Err(_) => Some(Without(s, t)))
    case (Decide(goesThrough), Payer(id, row, confirms)) =>
      Some(Decides(s, t, Payer(id, row, confirms), goesThrough))
    case (PayerWrite, PayerExpiring(id)) => (
      match UpdatePaymentStatus(s.db, id, Option.Some(Pending), Expired)
      case Ok(db) => Some(Without(s.(db := db), t))
      case Err(_) => Some(Without(s, t)))
    case (PayerWrite, PayerConfirming(id)) => (
      match ConfirmPaymentIntent(s.db, id)
      case Ok(db) => Some(With(s.(db := db), t, Emitting([PaymentConfirmed(id)], 0)))
      case Err(_) => Some(Without(s, t)))
    case (RefundWrite, Refunding(id, amount)) => (
      match RefundSettledPayment(s.db, id, amount)
      case Ok(db) => Some(With(s.(db := db), t, Emitting([PaymentRefunded(id)], 0)))
      case Err(_) => Some(Without(s, t)))
    case (ReadBalance, SettleReading(run)) =>
      var balance := BalanceOf(s.db, Operating);
      if balance <= 0 then Some(With(s, t, SettleClosing(run, 0, 0, Success)))
      else Some(With(s, t, SettlePosting(run, balance)))
    case (ReadBalanceFails, SettleReading(run)) =>
      Some(With(s, t, SettleClosing(run, 0, 0, RunFailed)))
    case (PostRun, SettlePosting(run, amount)) => (
      match RunSettlement(s.db, run, amount)
      case Ok(db) => Some(With(s.(db := db), t, SettleClosing(run, amount, 2, Success)))
      case Err(_) => Some(With(s, t, SettleClosing(run, 0, 0, RunFailed))))
    case (PostRunFails, SettlePosting(run, amount)) =>
      Some(With(s, t, SettleClosing(run, 0, 0, RunFailed)))
    case (CloseRun, SettleClosing(run, amount, entries, status)) =>
      Some(RunClosed(s, t, SettleClosing(run, amount, entries, status)))
    case (Emit, Emitting(todo, next)) =>
      if next < |todo|
      then Some(With(s.(db := Enqueue(s.db, todo[next])), t, Emitting(todo, next + 1))) else None
    case (EmitFails, Emitting(todo, next)) =>
      if next < |todo| then Some(With(s, t, Emitting(todo, next + 1))) else None
    case (Finish, Emitting(todo, next)) => if next == |todo| then Some(Without(s, t)) else None
    case (Drop, _) => Some(Without(s, t))
    case _ => None
  }

  function TaskNext(s: State, t: nat, step: TaskStep): Option<State> {
    if t in s.tasks then Proceeds(s, t, step) else Opens(s, t, step)
  }

  // ----- engine steps -----

  function At(s: State, pc: Pc): State {
    s.(engine := s.engine.(pc := pc))
  }

  function SnapAll(db: Db, ids: seq<PaymentId>): (batch: seq<Snap>)
    requires forall i | 0 <= i < |ids| :: ids[i] in db.payments
    ensures |batch| == |ids| && forall i | 0 <= i < |ids| :: batch[i] == Snap(ids[i], db.payments[ids[i]])
  {
    seq(|ids|, i requires 0 <= i < |ids| => Snap(ids[i], db.payments[ids[i]]))
  }

  /** The answer to GetAwaitingTransfers. */
  predicate Oldest(db: Db, ids: seq<PaymentId>) {
    Selects(db.payments, AwaitingIds(db), UpdatedAt, BATCH_LIMIT, ids)
  }

  function DueOf(g: Engine, id: PaymentId, delay: int): int {
    if id in g.dueAt then g.dueAt[id] else g.tickNow + delay
  }

  function Visits(s: State, delay: int): State
    requires s.engine.batch != []
  {
    var g := s.engine;
    var id := g.batch[0].id;
    var due := DueOf(g, id, delay);
    var dueAt := g.dueAt[id := due];
    if g.tickNow < due then s.(engine := g.(dueAt := dueAt, batch := g.batch[1..]))
    else s.(engine := g.(dueAt := dueAt, pc := Started))
  }

  /** The write that the engine's pc names, with the branches that follow it. */
  function Writes(s: State): Option<State>
    requires s.engine.batch != []
  {
    var snap := s.engine.batch[0];
    match s.engine.pc
    case Expiring => (
      match ExpireAwaitingTransfer(s.db, snap.id, snap.row.amount)
      case Ok(db) => Some(At(s.(db := db), Announcing(PaymentExpired(snap.id), false)))
      case Err(_) => Some(At(s, Clearing)))
    case Posting => (
      match ClearPendingEscrowToOperating(s.db, snap.id, snap.row.amount)
      case Ok(db) => Some(At(s.(db := db), Marking))
      case Err(UniqueViolation) => Some(At(s, Marking))
      case Err(_) => Some(At(s, Clearing)))
    case Marking =>
      var (db, changed) := MarkPaymentSettled(s.db, snap.id);
      Some(At(s.(db := db), if changed then Announcing(PaymentSettled(snap.id), false) else Clearing))
    case Declining => (
      match IncrementRetryAndSetStatus(s.db, snap.id, Failed)
      case Ok(db) =>
        Some(At(s.(db := db), Announcing(PaymentFailed(snap.id, snap.row.retry + 1), snap.row.retry + 1 < 3)))
      case Err(_) => Some(At(s, Clearing)))
    case Requeueing => (
      match UpdatePaymentStatus(s.db, snap.id, Option.Some(Failed), AwaitingTransfer)
      case Ok(db) => Some(At(s.(db := db), Clearing))
      case Err(_) => Some(At(s, Clearing)))
    case _ => None
  }

  function AfterAnnouncing(pc: Pc): Pc
    requires pc.Announcing?
  {
    if pc.again then Requeueing else Clearing
  }

  function Announced(s: State): State
    requires s.engine.pc.Announcing?
  {
    At(s.(db := Enqueue(s.db, s.engine.pc.event)), AfterAnnouncing(s.engine.pc))
  }

  function EngineNext(s: State, step: EngineStep): Option<State> {
    var g := s.engine;
    match step
    case Tick(ids) =>
      if g.pc == Ready && g.batch == [] && Oldest(s.db, ids)
      then Some(s.(engine := g.(batch := SnapAll(s.db, ids), tickNow := s.now))) else None
    case Visit(delay) =>
      if g.pc == Ready && g.batch != [] && 30 <= delay <= 120 then Some(Visits(s, delay)) else None
    case CheckDate =>
      if g.pc == Started && g.batch != []
      then Some(At(s, if s.now > g.batch[0].row.due then Expiring else Calling)) else None
    case CallRail(reply) =>
      if g.pc == Calling && g.batch != [] then
        var pc := match reply
          case Approved => Posting
          case Declined => Declining
          case RailError => Clearing;
        Some(s.(engine := g.(pc := pc, lastRail := g.lastRail[g.batch[0].id := s.now])))
      else None
    case Write => if g.batch != [] then Writes(s) else None
    case WriteFails =>
      if g.pc in {Expiring, Posting, Marking, Declining, Requeueing} then Some(At(s, Clearing)) else None
    case Announce =>
      if g.pc.Announcing? then Some(Announced(s)) else None
    case AnnounceFails =>
      if g.pc.Announcing? then Some(At(s, AfterAnnouncing(g.pc))) else None
    case Clear =>
      if g.pc == Clearing && g.batch != []
      then Some(s.(engine := g.(pc := Ready, dueAt := g.dueAt - {g.batch[0].id}, batch := g.batch[1..]))) else None
  }

  // ----- runs -----

  function Next(s: State, a: Action): Option<State> {
    match a
    case TaskDoes(t, step) => TaskNext(s, t, step)
    case EngineDoes(move) => EngineNext(s, move)
    case Advance(seconds) => Some(s.(now := s.now + seconds))
    case Crash => Some(State(s.db, FreshEngine(s.now), map[], s.now))
  }

  function Exec(s: State, acts: seq<Action>): Option<State>
    decreases |acts|
  {
    if acts == [] then Some(s)
    else
      match Next(s, acts[0])
      case None => None
      case Some(next) => Exec(next, acts[1..])
  }

  lemma {:induction false} ExecJoins(s: State, a: seq<Action>, b: seq<Action>)
    requires Exec(s, a).Some?
    ensures Exec(s, a + b) == Exec(Exec(s, a).value, b)
    decreases |a|
  {
    if a == [] {
      assert a + b == b;
    } else {
      assert (a + b)[1..] == a[1..] + b;
      ExecJoins(Next(s, a[0]).value, a[1..], b);
    }
  }
}
