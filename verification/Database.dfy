/** The tables, and each SQL statement or transaction on them as a function from tables to tables. */
module Database {
  import opened Types
  import opened Ledger
  import opened ReferenceText

  datatype Db = Db(
    payments: map<PaymentId, Payment>,
    books: Books,
    settlements: seq<SettlementRow>,
    outbox: seq<Event>,
    writes: nat)

  const EMPTY_DB := Db(
    map[],
    Books(map[Operating := WalletRow(0, 0), Escrow := WalletRow(0, 0), Fee := WalletRow(0, 0)], []),
    [], [], 0)

  // ----- payment rows -----

  function Becomes(p: Payment, to: Status): Payment {
    p.(status := to, trail := p.trail + [to])
  }

  /** Every update of a payment row sets updated_at. */
  function WriteRow(db: Db, id: PaymentId, p: Payment): Db {
    db.(payments := db.payments[id := p.(stamp := db.writes)], writes := db.writes + 1)
  }

  predicate HasStatus(db: Db, id: PaymentId, st: Status) {
    id in db.payments && db.payments[id].status == st
  }

  predicate ReferenceTaken(db: Db, reference: string) {
    exists id :: id in db.payments && db.payments[id].reference == reference
  }

  /** How many references match the prefix of a day. */
  function CountOf(db: Db, day: Day): nat {
    |set id | id in db.payments && HasPrefix(db.payments[id].reference, day)|
  }

  /** GeneratePaymentReference: one more than the count, as it is at this moment. */
  function NextReference(db: Db, day: Day): string {
    Render(day, CountOf(db, day) + 1)
  }

  predicate HoldsKey(db: Db, id: PaymentId, key: string) {
    id in db.payments && db.payments[id].key == Some(key)
  }

  predicate KeyInUse(db: Db, key: string) {
    exists id :: id in db.payments && db.payments[id].key == Some(key)
  }

  /** INSERT of a PENDING row; the primary key refuses a known id, the UNIQUE column a known reference, the
      partial UNIQUE index a known idempotency key, and a CHECK a non-positive amount. */
  function CreatePayment(
    db: Db, id: PaymentId, reference: string, key: Option<string>, amount: int, due: int): Result<Db>
  {
    if amount <= 0 then Err(CheckFailed)
    else if id in db.payments || ReferenceTaken(db, reference) then Err(UniqueViolation)
    else if key.Some? && KeyInUse(db, key.value) then Err(DuplicateKey)
    else Ok(WriteRow(db, id, Payment(reference, key, amount, due, Pending, 0, false, 0, [Pending])))
  }

  /** UpdatePaymentStatus: with a `from` status the update is guarded, without one it is not. */
  function UpdatePaymentStatus(db: Db, id: PaymentId, from: Option<Status>, to: Status): Result<Db> {
    if id in db.payments && (from == None || db.payments[id].status == from.value)
    then Ok(WriteRow(db, id, Becomes(db.payments[id], to)))
    else Err(NoRows)
  }

  /** IncrementRetryAndSetStatus: the update names only the id. */
  function IncrementRetryAndSetStatus(db: Db, id: PaymentId, to: Status): Result<Db> {
    if id !in db.payments then Err(NoRows)
    else
      var p := db.payments[id];
      Ok(WriteRow(db, id, Becomes(p, to).(retry := p.retry + 1)))
  }

  /** MarkPaymentSettledIdempotent: whether a row changed, and the tables afterwards. */
  function MarkPaymentSettled(db: Db, id: PaymentId): (Db, bool) {
    if HasStatus(db, id, AwaitingTransfer) && !db.payments[id].processed
    then (WriteRow(db, id, Becomes(db.payments[id], Settled).(processed := true)), true)
    else (db, false)
  }

  // ----- the pending counter of the escrow wallet -----

  function AddPending(ws: map<Wallet, WalletRow>, amount: int): map<Wallet, WalletRow> {
    if Escrow in ws then ws[Escrow := ws[Escrow].(pending := ws[Escrow].pending + amount)] else ws
  }

  /** The saturating release: a counter below the amount becomes zero. */
  function Release(pending: int, amount: int): int {
    if pending >= amount then pending - amount else 0
  }

  function ReleasePending(ws: map<Wallet, WalletRow>, amount: int): map<Wallet, WalletRow> {
    if Escrow in ws then ws[Escrow := ws[Escrow].(pending := Release(ws[Escrow].pending, amount))] else ws
  }

  // ----- transactions -----

  function ConfirmPaymentIntent(db: Db, id: PaymentId): Result<Db> {
    if !HasStatus(db, id, Pending) then Err(Rejected("payment request not in PENDING state"))
    else
      var p := db.payments[id];
      var marked := WriteRow(db, id, Becomes(p, AwaitingTransfer));
      Ok(marked.(books := db.books.(wallets := AddPending(db.books.wallets, p.amount))))
  }

  function ExpireAwaitingTransfer(db: Db, id: PaymentId, amount: int): Result<Db> {
    if !HasStatus(db, id, AwaitingTransfer) then Err(NoRows)
    else
      var marked := WriteRow(db, id, Becomes(db.payments[id], Expired));
      Ok(marked.(books := db.books.(wallets := ReleasePending(db.books.wallets, amount))))
  }

  function PayInLines(id: PaymentId, amount: int): seq<Entry> {
    [Entry(Operating, DR, amount, PaymentIn, OfPayment(id)), Entry(Escrow, CR, amount, Simulation, OfPayment(id))]
  }

  function ReversalLines(id: PaymentId, amount: int): seq<Entry> {
    [Entry(Escrow, DR, amount, Reversal, OfPayment(id)), Entry(Operating, CR, amount, Reversal, OfPayment(id))]
  }

  function SettlementLines(run: nat, amount: int): seq<Entry> {
    [Entry(Escrow, DR, amount, SettlementOut, OfSettlement(run)),
     Entry(Operating, CR, amount, SettlementOut, OfSettlement(run))]
  }

  function ClearPendingEscrowToOperating(db: Db, id: PaymentId, amount: int): Result<Db> {
    if Escrow !in db.books.wallets then Err(NoRows)
    else
      match PostInTx(db.books.(wallets := ReleasePending(db.books.wallets, amount)), PayInLines(id, amount))
      case Err(x) => Err(x)
      case Ok(books) => Ok(db.(books := books))
  }

  function RunSettlement(db: Db, run: nat, amount: int): Result<Db> {
    match Postings(db.books, SettlementLines(run, amount))
    case Err(x) => Err(x)
    case Ok(books) => Ok(db.(books := books))
  }

  /** The reversal is posted first; a payment that is not SETTLED then rolls it back. */
  function RefundSettledPayment(db: Db, id: PaymentId, amount: int): Result<Db> {
    if amount <= 0 then Err(Rejected("invalid refund amount"))
    else
      match PostInTx(db.books, ReversalLines(id, amount))
      case Err(x) => Err(x)
      case Ok(books) =>
        if !HasStatus(db, id, Settled) then Err(NoRows)
        else Ok(WriteRow(db.(books := books), id, Becomes(db.payments[id], Cancelled)))
  }

  // ----- ORDER BY ... LIMIT -----

  datatype Column = UpdatedAt | DueDate

  function On(p: Payment, c: Column): int {
    match c
    case UpdatedAt => p.stamp
    case DueDate => p.due
  }

  predicate Distinct<T(==)>(s: seq<T>) {
    forall i, j :: 0 <= i < j < |s| ==> s[i] != s[j]
  }

  function Least(a: nat, b: nat): nat {
    if a <= b then a else b
  }

  /** `ids` are the first candidates in the order of a column. */
  predicate FirstOnes(ps: map<PaymentId, Payment>, candidates: set<PaymentId>, c: Column, ids: seq<PaymentId>)
    requires candidates <= ps.Keys
  {
    && Distinct(ids)
    && (forall i | 0 <= i < |ids| :: ids[i] in candidates)
    && (forall i, j | 0 <= i < j < |ids| :: On(ps[ids[i]], c) <= On(ps[ids[j]], c))
    && (forall id, i | id in candidates && id !in ids && 0 <= i < |ids| :: On(ps[ids[i]], c) <= On(ps[id], c))
  }

  /** `ids` is an answer to SELECT over the candidates ORDER BY a column ASC LIMIT limit. */
  predicate Selects(
    ps: map<PaymentId, Payment>, candidates: set<PaymentId>, c: Column, limit: nat, ids: seq<PaymentId>)
    requires candidates <= ps.Keys
  {
    FirstOnes(ps, candidates, c, ids) && |ids| == Least(limit, |candidates|)
  }

  function LimitOr(limit: int, default: nat): nat {
    if limit <= 0 then default else limit
  }

  function WithStatus(db: Db, st: Status): set<PaymentId> {
    set id | id in db.payments && db.payments[id].status == st
  }

  function AwaitingIds(db: Db): set<PaymentId> {
    set id | id in db.payments && db.payments[id].status == AwaitingTransfer && !db.payments[id].processed
  }

  function OverdueIds(db: Db, now: int): set<PaymentId> {
    set id | id in db.payments && db.payments[id].status == Pending && db.payments[id].due < now
  }

  function ExpireOne(db: Db, id: PaymentId): Db {
    match UpdatePaymentStatus(db, id, Some(Pending), Expired)
    case Ok(next) => next
    case Err(_) => db
  }

  /** The update loop of the expiry sweep, over the ids that its query returned. */
  function ExpireEach(db: Db, ids: seq<PaymentId>): Db
    decreases |ids|
  {
    if ids == [] then db else ExpireEach(ExpireOne(db, ids[0]), ids[1..])
  }

  // ----- settlement rows, totals and the outbox -----

  function CreateSettlement(db: Db): Db {
    db.(settlements := db.settlements + [SettlementRow(0, 0, Running)])
  }

  function CompleteSettlement(db: Db, run: nat, amount: int, entries: nat, st: RunStatus): Result<Db> {
    if amount < 0 then Err(CheckFailed)
    else if run >= |db.settlements| then Err(NoRows)
    else Ok(db.(settlements := db.settlements[run := SettlementRow(amount, entries, st)]))
  }

  function Enqueue(db: Db, e: Event): Db {
    db.(outbox := db.outbox + [e])
  }

  function LedgerTotals(db: Db): (int, int) {
    (SideTotal(db.books.log, DR), SideTotal(db.books.log, CR))
  }

  function BalanceOf(db: Db, w: Wallet): int {
    if w in db.books.wallets then db.books.wallets[w].balance else 0
  }

  function PendingOf(db: Db): int {
    if Escrow in db.books.wallets then db.books.wallets[Escrow].pending else 0
  }

  function NetWalletBalance(db: Db): int {
    BalanceOf(db, Operating) + BalanceOf(db, Escrow) + BalanceOf(db, Fee)
  }

  function Lines(db: Db, r: Ref): seq<Entry> {
    Under(db.books.log, r)
  }
}
