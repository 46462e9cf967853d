/** What every statement keeps about the tables: the life of each payment row, the ledger lines filed
    under each reference, and the closed forms of the wallet balances and of the pending counter. */
module Accounts {
  import opened Types
  import opened Ledger
  import opened Database
  import opened Sums
  import opened Sets

  // ----- the life of a payment -----

  /** A confirmed payment that has been declined and requeued r times. */
  function Rounds(r: nat): seq<Status> {
    if r == 0 then [Pending, AwaitingTransfer] else Rounds(r - 1) + [Failed, AwaitingTransfer]
  }

  predicate TrailOk(p: Payment) {
    match p.status
    case Pending => p.retry == 0 && p.trail == [Pending]
    case AwaitingTransfer => p.retry <= 2 && p.trail == Rounds(p.retry)
    case Failed => 1 <= p.retry <= 3 && p.trail == Rounds(p.retry - 1) + [Failed]
    case Settled => p.retry <= 2 && p.trail == Rounds(p.retry) + [Settled]
    case Cancelled => p.retry <= 2 && p.trail == Rounds(p.retry) + [Settled, Cancelled]
    case Expired =>
      || (p.retry == 0 && p.trail == [Pending, Expired])
      || (p.retry <= 2 && p.trail == Rounds(p.retry) + [Expired])
  }

  predicate LinesOk(id: PaymentId, p: Payment, lines: seq<Entry>) {
    match p.status
    case Pending => lines == []
    case AwaitingTransfer => lines == [] || lines == PayInLines(id, p.amount)
    case Failed => lines == [] || lines == PayInLines(id, p.amount)
    case Expired => lines == [] || lines == PayInLines(id, p.amount)
    case Settled => lines == PayInLines(id, p.amount)
    case Cancelled => lines == PayInLines(id, p.amount) + ReversalLines(id, p.amount)
  }

  predicate RowOk(id: PaymentId, p: Payment, lines: seq<Entry>) {
    && p.amount > 0
    && TrailOk(p)
    && (p.processed <==> p.status in {Settled, Cancelled})
    && LinesOk(id, p, lines)
  }

  ghost predicate RowsOk(db: Db) {
    && (forall id | id in db.payments :: RowOk(id, db.payments[id], Lines(db, OfPayment(id))))
    && (forall id: PaymentId | id !in db.payments :: Lines(db, OfPayment(id)) == [])
  }

  predicate StampsOk(db: Db) {
    && (forall id | id in db.payments :: db.payments[id].stamp < db.writes)
    && (forall id, jd | id in db.payments && jd in db.payments && id != jd ::
          db.payments[id].stamp != db.payments[jd].stamp)
  }

  /** The ledger lines of a settlement run, by the state of its row. */
  predicate RunOk(run: nat, row: SettlementRow, lines: seq<Entry>) {
    match row.status
    case Running => lines == [] || (lines[0].amount > 0 && lines == SettlementLines(run, lines[0].amount))
    case Success =>
      && row.amount >= 0
      && (row.amount > 0 ==> lines == SettlementLines(run, row.amount) && row.entries == 2)
      && (row.amount == 0 ==> lines == [] && row.entries == 0)
    case RunFailed => lines == [] && row.amount == 0 && row.entries == 0
  }

  ghost predicate RunsOk(db: Db) {
    && (forall n: nat | n < |db.settlements| :: RunOk(n, db.settlements[n], Lines(db, OfSettlement(n))))
    && (forall n: nat | n >= |db.settlements| :: Lines(db, OfSettlement(n)) == [])
  }

  // ----- money -----

  /** Ledger lines have been filed under the payment; LinesOk makes the first of them its PAYMENT_IN entry. */
  predicate PaidIn(db: Db, id: PaymentId) {
    Lines(db, OfPayment(id)) != []
  }

  function PaidIds(db: Db): set<PaymentId> {
    set id | id in db.payments && PaidIn(db, id)
  }

  /** Confirmed, not yet in the operating wallet and not given up by expiry. */
  predicate Outstanding(db: Db, id: PaymentId) {
    id in db.payments && db.payments[id].status in {AwaitingTransfer, Failed} && !PaidIn(db, id)
  }

  function OutstandingIds(db: Db): set<PaymentId> {
    set id | id in db.payments && Outstanding(db, id)
  }

  ghost function Sum(db: Db, ids: set<PaymentId>): int
    requires ids <= db.payments.Keys
  {
    Total(db.payments, ids)
  }

  ghost predicate MoneyOk(db: Db) {
    && Net(db.books.log, Operating)
       == Sum(db, PaidIds(db)) - Sum(db, WithStatus(db, Cancelled)) - OperatingTotal(db.books.log, SettlementOut)
    && Net(db.books.log, Operating)
       == OperatingTotal(db.books.log, PaymentIn) - OperatingTotal(db.books.log, Reversal)
          - OperatingTotal(db.books.log, SettlementOut)
    && Net(db.books.log, Escrow) == -Net(db.books.log, Operating)
    && Net(db.books.log, Fee) == 0
  }

  /** Some payment was expired although its money had already moved to the operating wallet. */
  ghost predicate ExpiredAfterPayIn(db: Db) {
    exists id :: HasStatus(db, id, Expired) && PaidIn(db, id)
  }

  ghost predicate PendingOk(db: Db) {
    && 0 <= PendingOf(db) <= Sum(db, OutstandingIds(db))
    && (!ExpiredAfterPayIn(db) ==> PendingOf(db) == Sum(db, OutstandingIds(db)))
  }

  /** The pending counter is exact. */
  ghost predicate Exact(db: Db) {
    PendingOf(db) == Sum(db, OutstandingIds(db))
  }

  ghost predicate KeepsExact(db: Db, to: Db) {
    Exact(db) ==> Exact(to)
  }

  ghost predicate TablesOk(db: Db) {
    Sound(db.books) && RowsOk(db) && StampsOk(db) && RunsOk(db) && MoneyOk(db) && PendingOk(db)
  }

  // ----- how the tables may change -----

  /** Nothing is forgotten: rows stay, with their amount, due date and a longer trail; a finished
      settlement run stays as it is; the log and the outbox only grow. */
  ghost predicate Grows(db: Db, to: Db) {
    && (forall id | id in db.payments ::
          && id in to.payments
          && to.payments[id].amount == db.payments[id].amount
          && to.payments[id].due == db.payments[id].due
          && db.payments[id].trail <= to.payments[id].trail)
    && db.books.log <= to.books.log
    && db.outbox <= to.outbox
    && |db.settlements| <= |to.settlements|
    && (forall n: nat | n < |db.settlements| && db.settlements[n].status != Running ::
          to.settlements[n] == db.settlements[n])
    && db.writes <= to.writes
  }

  /** At most the payments in xs change. */
  ghost predicate OnlyPayments(db: Db, to: Db, xs: set<PaymentId>) {
    && (forall id | id !in xs :: id in db.payments <==> id in to.payments)
    && (forall id | id in db.payments && id !in xs :: to.payments[id] == db.payments[id])
    && (forall id: PaymentId | id !in xs :: Lines(to, OfPayment(id)) == Lines(db, OfPayment(id)))
    && to.settlements == db.settlements
    && (forall n: nat :: Lines(to, OfSettlement(n)) == Lines(db, OfSettlement(n)))
  }

  /** At most the settlement run n changes. */
  ghost predicate OnlyRun(db: Db, to: Db, n: nat) {
    && to.payments == db.payments
    && (forall id: PaymentId :: Lines(to, OfPayment(id)) == Lines(db, OfPayment(id)))
    && |db.settlements| <= |to.settlements|
    && (forall m: nat | m != n ::
          && (m < |db.settlements| <==> m < |to.settlements|)
          && (m < |db.settlements| ==> to.settlements[m] == db.settlements[m])
          && Lines(to, OfSettlement(m)) == Lines(db, OfSettlement(m)))
  }

  /** When only x changes, each selection's sum changes by the share of x. */
  lemma SelectionsMove(db: Db, to: Db, x: PaymentId)
    requires OnlyPayments(db, to, {x})
    ensures Sum(to, PaidIds(to)) - Share(to.payments, PaidIds(to), x)
            == Sum(db, PaidIds(db)) - Share(db.payments, PaidIds(db), x)
    ensures Sum(to, WithStatus(to, Cancelled)) - Share(to.payments, WithStatus(to, Cancelled), x)
            == Sum(db, WithStatus(db, Cancelled)) - Share(db.payments, WithStatus(db, Cancelled), x)
    ensures Sum(to, OutstandingIds(to)) - Share(to.payments, OutstandingIds(to), x)
            == Sum(db, OutstandingIds(db)) - Share(db.payments, OutstandingIds(db), x)
  {
    PaidMoves(db, to, x);
    CancelledMoves(db, to, x);
    OutstandingMoves(db, to, x);
    hide OnlyPayments, Sum, PaidIds, WithStatus, OutstandingIds;
  }

  lemma PaidMoves(db: Db, to: Db, x: PaymentId)
    requires OnlyPayments(db, to, {x})
    ensures Sum(to, PaidIds(to)) - Share(to.payments, PaidIds(to), x)
            == Sum(db, PaidIds(db)) - Share(db.payments, PaidIds(db), x)
  {
    assert PaidIds(db) - {x} == PaidIds(to) - {x};
    TotalMoves(db.payments, PaidIds(db), to.payments, PaidIds(to), x);
  }

  lemma CancelledMoves(db: Db, to: Db, x: PaymentId)
    requires OnlyPayments(db, to, {x})
    ensures Sum(to, WithStatus(to, Cancelled)) - Share(to.payments, WithStatus(to, Cancelled), x)
            == Sum(db, WithStatus(db, Cancelled)) - Share(db.payments, WithStatus(db, Cancelled), x)
  {
    assert WithStatus(db, Cancelled) - {x} == WithStatus(to, Cancelled) - {x};
    TotalMoves(db.payments, WithStatus(db, Cancelled), to.payments, WithStatus(to, Cancelled), x);
  }

  lemma OutstandingMoves(db: Db, to: Db, x: PaymentId)
    requires OnlyPayments(db, to, {x})
    ensures Sum(to, OutstandingIds(to)) - Share(to.payments, OutstandingIds(to), x)
            == Sum(db, OutstandingIds(db)) - Share(db.payments, OutstandingIds(db), x)
  {
    assert OutstandingIds(db) - {x} == OutstandingIds(to) - {x};
    TotalMoves(db.payments, OutstandingIds(db), to.payments, OutstandingIds(to), x);
  }

  lemma OutstandingCovers(db: Db, x: PaymentId)
    requires RowsOk(db) && Outstanding(db, x)
    ensures db.payments[x].amount <= Sum(db, OutstandingIds(db))
  {
    TotalCovers(db.payments, OutstandingIds(db), x);
  }

  ghost predicate RestOk(db: Db) {
    Sound(db.books) && RowsOk(db) && StampsOk(db) && RunsOk(db)
  }

  /** The tables after writing p to row x and ws to the wallets. */
  function Written(db: Db, x: PaymentId, p: Payment, ws: map<Wallet, WalletRow>): Db {
    WriteRow(db, x, p).(books := db.books.(wallets := ws))
  }

  predicate SameBalances(ws: map<Wallet, WalletRow>, vs: map<Wallet, WalletRow>) {
    ws.Keys == vs.Keys && forall w | w in ws :: ws[w].balance == vs[w].balance
  }

  lemma StampsWritten(db: Db, x: PaymentId, p: Payment, ws: map<Wallet, WalletRow>)
    requires StampsOk(db)
    ensures StampsOk(Written(db, x, p, ws))
  {
  }

  /** An update of row x that leaves the log alone keeps the books, the other rows and the runs. */
  lemma RowWritten(db: Db, x: PaymentId, p: Payment, ws: map<Wallet, WalletRow>)
    requires RestOk(db)
    requires RowOk(x, p, Lines(db, OfPayment(x)))
    requires SameBalances(ws, db.books.wallets)
    ensures var to := Written(db, x, p, ws);
            RestOk(to) && OnlyPayments(db, to, {x})
  {
    var to := Written(db, x, p, ws);
    StampsWritten(db, x, p, ws);
    RowsWritten(db, x, p, ws);
    assert to.books.log == db.books.log;
  }

  lemma RowsWritten(db: Db, x: PaymentId, p: Payment, ws: map<Wallet, WalletRow>)
    requires RowsOk(db)
    requires RowOk(x, p, Lines(db, OfPayment(x)))
    ensures RowsOk(Written(db, x, p, ws))
  {
    var to := Written(db, x, p, ws);
    forall id | id in to.payments ensures RowOk(id, to.payments[id], Lines(to, OfPayment(id))) {
      assert Lines(to, OfPayment(id)) == Lines(db, OfPayment(id));
      if id == x {
        RowOkIgnoresStamp(x, p, Lines(db, OfPayment(x)), db.writes);
      }
    }
  }

  lemma RowOkIgnoresStamp(id: PaymentId, p: Payment, lines: seq<Entry>, stamp: nat)
    ensures RowOk(id, p.(stamp := stamp), lines) == RowOk(id, p, lines)
  {
  }

  // ----- statements on one row -----

  /** p is a later version of row x, or the first one. */
  predicate Follows(db: Db, x: PaymentId, p: Payment) {
    x in db.payments ==>
      && p.amount == db.payments[x].amount && p.due == db.payments[x].due
      && db.payments[x].trail <= p.trail
  }

  lemma WrittenGrows(db: Db, x: PaymentId, p: Payment, ws: map<Wallet, WalletRow>)
    requires Follows(db, x, p)
    ensures Grows(db, Written(db, x, p, ws))
  {
  }

  /** Writing row x leaves the money where it is unless the row becomes, or stops being, CANCELLED. */
  lemma MoneyWritten(db: Db, x: PaymentId, p: Payment, ws: map<Wallet, WalletRow>)
    requires RestOk(db) && MoneyOk(db)
    requires RowOk(x, p, Lines(db, OfPayment(x))) && SameBalances(ws, db.books.wallets)
    requires Follows(db, x, p)
    requires p.status == Cancelled <==> HasStatus(db, x, Cancelled)
    ensures MoneyOk(Written(db, x, p, ws))
  {
    var to := Written(db, x, p, ws);
    RowWritten(db, x, p, ws);
    SelectionsMove(db, to, x);
    assert PaidIn(to, x) == PaidIn(db, x);
  }

  /** What a row contributes to the outstanding sum. */
  function Due(p: Payment, paidIn: bool): int {
    if p.status in {AwaitingTransfer, Failed} && !paidIn then p.amount else 0
  }

  function DueAt(db: Db, x: PaymentId): int {
    if x in db.payments then Due(db.payments[x], PaidIn(db, x)) else 0
  }

  /** How the pending counter may move when row x becomes p: as the row's contribution does, or by the
      saturating release; after an expiry that follows the pay-in it may only fall. */
  predicate PendingMove(db: Db, x: PaymentId, p: Payment, pending: int) {
    var paid := PaidIn(db, x);
    if p.status == Expired && paid then 0 <= pending <= PendingOf(db)
    else if Due(p, paid) == 0 then pending == Release(PendingOf(db), DueAt(db, x))
    else pending == PendingOf(db) + Due(p, paid) - DueAt(db, x) && DueAt(db, x) <= Due(p, paid)
  }

  lemma OutstandingWritten(db: Db, x: PaymentId, p: Payment, ws: map<Wallet, WalletRow>)
    requires RestOk(db)
    requires RowOk(x, p, Lines(db, OfPayment(x))) && SameBalances(ws, db.books.wallets)
    requires Follows(db, x, p)
    ensures var to := Written(db, x, p, ws);
            && Sum(to, OutstandingIds(to)) == Sum(db, OutstandingIds(db)) + Due(p, PaidIn(db, x)) - DueAt(db, x)
            && DueAt(db, x) <= Sum(db, OutstandingIds(db))
            && Due(p, PaidIn(db, x)) <= Sum(to, OutstandingIds(to))
  {
    var to := Written(db, x, p, ws);
    RowWritten(db, x, p, ws);
    SelectionsMove(db, to, x);
    assert PaidIn(to, x) == PaidIn(db, x);
    assert Share(to.payments, OutstandingIds(to), x) == Due(p, PaidIn(db, x));
    assert Share(db.payments, OutstandingIds(db), x) == DueAt(db, x);
    DueIsCovered(db, x);
    DueIsCovered(to, x);
  }

  lemma DueIsCovered(db: Db, x: PaymentId)
    requires RowsOk(db)
    ensures DueAt(db, x) <= Sum(db, OutstandingIds(db))
  {
    OutstandingIsNonNegative(db);
    if x in db.payments && Outstanding(db, x) {
      OutstandingCovers(db, x);
    }
  }

  /** The pending counter stays in step with the outstanding sum; it may fall behind only with an expiry
      after the pay-in. */
  lemma PendingWritten(db: Db, x: PaymentId, p: Payment, ws: map<Wallet, WalletRow>)
    requires RestOk(db) && PendingOk(db)
    requires RowOk(x, p, Lines(db, OfPayment(x))) && SameBalances(ws, db.books.wallets)
    requires Follows(db, x, p)
    requires HasStatus(db, x, Expired) ==> p.status == Expired
    requires PendingMove(db, x, p, ws[Escrow].pending)
    ensures PendingOk(Written(db, x, p, ws))
    ensures p.status != Expired || !PaidIn(db, x) || ws[Escrow].pending == PendingOf(db) ==>
              KeepsExact(db, Written(db, x, p, ws))
    ensures Exact(db) && p.status == Expired && PaidIn(db, x) && ws[Escrow].pending != PendingOf(db) ==>
              !Exact(Written(db, x, p, ws))
  {
    var to := Written(db, x, p, ws);
    OutstandingWritten(db, x, p, ws);
    if !ExpiredAfterPayIn(to) {
      assert !ExpiredAfterPayIn(db) && !(p.status == Expired && PaidIn(db, x)) by {
        RowWritten(db, x, p, ws);
        assert PaidIn(to, x) == PaidIn(db, x);
        QuietUnlessExpired(db, to, x);
      }
    }
  }

  /** One statement on row x that leaves the log alone. */
  lemma RowStep(db: Db, x: PaymentId, p: Payment, ws: map<Wallet, WalletRow>)
    requires TablesOk(db)
    requires RowOk(x, p, Lines(db, OfPayment(x))) && SameBalances(ws, db.books.wallets)
    requires Follows(db, x, p)
    requires p.status == Cancelled <==> HasStatus(db, x, Cancelled)
    requires HasStatus(db, x, Expired) ==> p.status == Expired
    requires PendingMove(db, x, p, ws[Escrow].pending)
    ensures var to := Written(db, x, p, ws);
            && TablesOk(to) && OnlyPayments(db, to, {x}) && Grows(db, to)
            && (p.status != Expired || !PaidIn(db, x) || ws[Escrow].pending == PendingOf(db) ==>
                  KeepsExact(db, to))
            && (Exact(db) && p.status == Expired && PaidIn(db, x) && ws[Escrow].pending != PendingOf(db) ==>
                  !Exact(to))
  {
    hide Exact, KeepsExact;
    RowWritten(db, x, p, ws);
    WrittenGrows(db, x, p, ws);
    MoneyWritten(db, x, p, ws);
    PendingWritten(db, x, p, ws);
  }

  lemma OutstandingIsNonNegative(db: Db)
    requires RowsOk(db)
    ensures 0 <= Sum(db, OutstandingIds(db))
  {
    TotalNonNegative(db.payments, OutstandingIds(db));
  }

  /** Unless x itself becomes an expired payment whose money has moved, there is no new one. */
  lemma QuietUnlessExpired(db: Db, to: Db, x: PaymentId)
    requires OnlyPayments(db, to, {x})
    ensures ExpiredAfterPayIn(to) ==> ExpiredAfterPayIn(db) || (HasStatus(to, x, Expired) && PaidIn(to, x))
    ensures ExpiredAfterPayIn(db) ==> ExpiredAfterPayIn(to) || (HasStatus(db, x, Expired) && PaidIn(db, x))
  {
    if id :| HasStatus(to, id, Expired) && PaidIn(to, id) && id != x {
      assert HasStatus(db, id, Expired) && PaidIn(db, id);
    }
    if id :| HasStatus(db, id, Expired) && PaidIn(db, id) && id != x {
      assert HasStatus(to, id, Expired) && PaidIn(to, id);
    }
  }

  lemma CreateKeeps(db: Db, x: PaymentId, reference: string, key: Option<string>, amount: int, due: int)
    requires TablesOk(db) && CreatePayment(db, x, reference, key, amount, due).Ok?
    ensures var to := CreatePayment(db, x, reference, key, amount, due).value;
            TablesOk(to) && OnlyPayments(db, to, {x}) && Grows(db, to) && KeepsExact(db, to)
  {
    hide Exact, KeepsExact;
    var p := Payment(reference, key, amount, due, Pending, 0, false, 0, [Pending]);
    RowStep(db, x, p, db.books.wallets);
  }

  lemma ConfirmKeeps(db: Db, x: PaymentId)
    requires TablesOk(db) && ConfirmPaymentIntent(db, x).Ok?
    ensures var to := ConfirmPaymentIntent(db, x).value;
            TablesOk(to) && OnlyPayments(db, to, {x}) && Grows(db, to) && KeepsExact(db, to)
  {
    hide Exact, KeepsExact, TablesOk, Grows, OnlyPayments, RowOk, Rounds;
    RowIsOk(db, x);
    ConfirmedRow(x, db.payments[x], Lines(db, OfPayment(x)));
    var p := Becomes(db.payments[x], AwaitingTransfer);
    var ws := AddPending(db.books.wallets, p.amount);
    RowStep(db, x, p, ws);
  }

  lemma ConfirmedRow(id: PaymentId, q: Payment, lines: seq<Entry>)
    requires RowOk(id, q, lines) && q.status == Pending
    ensures RowOk(id, Becomes(q, AwaitingTransfer), lines) && lines == []
  {
    assert Becomes(q, AwaitingTransfer).trail == Rounds(0);
  }

  lemma ExpirePendingKeeps(db: Db, x: PaymentId)
    requires TablesOk(db) && UpdatePaymentStatus(db, x, Some(Pending), Expired).Ok?
    ensures var to := UpdatePaymentStatus(db, x, Some(Pending), Expired).value;
            TablesOk(to) && OnlyPayments(db, to, {x}) && Grows(db, to) && KeepsExact(db, to)
  {
    hide Exact, KeepsExact, TablesOk, Grows, OnlyPayments, RowOk, Rounds;
    RowIsOk(db, x);
    ExpiredPendingRow(x, db.payments[x], Lines(db, OfPayment(x)));
    var p := Becomes(db.payments[x], Expired);
    RowStep(db, x, p, db.books.wallets);
  }

  lemma ExpiredPendingRow(id: PaymentId, q: Payment, lines: seq<Entry>)
    requires RowOk(id, q, lines) && q.status == Pending
    ensures RowOk(id, Becomes(q, Expired), lines) && lines == []
  {
  }

  lemma MarkKeeps(db: Db, x: PaymentId)
    requires TablesOk(db) && MarkPaymentSettled(db, x).1
    requires PaidIn(db, x)
    ensures var to := MarkPaymentSettled(db, x).0;
            TablesOk(to) && OnlyPayments(db, to, {x}) && Grows(db, to) && KeepsExact(db, to)
  {
    hide Exact, KeepsExact, TablesOk, Grows, OnlyPayments, RowOk, Rounds;
    RowIsOk(db, x);
    MarkedRow(x, db.payments[x], Lines(db, OfPayment(x)));
    var p := Becomes(db.payments[x], Settled).(processed := true);
    RowStep(db, x, p, db.books.wallets);
  }

  lemma MarkedRow(id: PaymentId, q: Payment, lines: seq<Entry>)
    requires RowOk(id, q, lines) && q.status == AwaitingTransfer && lines != []
    ensures RowOk(id, Becomes(q, Settled).(processed := true), lines)
  {
  }

  lemma RowIsOk(db: Db, x: PaymentId)
    requires TablesOk(db) && x in db.payments
    ensures Escrow in db.books.wallets && RowOk(x, db.payments[x], Lines(db, OfPayment(x)))
    ensures 0 <= PendingOf(db) && 0 < db.payments[x].amount
  {
  }

  lemma DeclinedRow(id: PaymentId, q: Payment, lines: seq<Entry>)
    requires RowOk(id, q, lines) && q.status == AwaitingTransfer
    ensures RowOk(id, Becomes(q, Failed).(retry := q.retry + 1), lines)
  {
  }

  lemma DeclineKeeps(db: Db, x: PaymentId)
    requires TablesOk(db) && HasStatus(db, x, AwaitingTransfer)
    ensures IncrementRetryAndSetStatus(db, x, Failed).Ok?
    ensures var to := IncrementRetryAndSetStatus(db, x, Failed).value;
            TablesOk(to) && OnlyPayments(db, to, {x}) && Grows(db, to) && KeepsExact(db, to)
  {
    hide Exact, KeepsExact;
    hide TablesOk, Grows, OnlyPayments, RowOk, Rounds;
    var q := db.payments[x];
    var p := Becomes(q, Failed).(retry := q.retry + 1);
    RowIsOk(db, x);
    DeclinedRow(x, q, Lines(db, OfPayment(x)));
    RowStep(db, x, p, db.books.wallets);
  }

  lemma RequeuedRow(id: PaymentId, q: Payment, lines: seq<Entry>)
    requires RowOk(id, q, lines) && q.status == Failed && q.retry < 3
    ensures RowOk(id, Becomes(q, AwaitingTransfer), lines)
  {
    assert Becomes(q, AwaitingTransfer).trail == Rounds(q.retry - 1) + [Failed, AwaitingTransfer];
  }

  lemma RequeueKeeps(db: Db, x: PaymentId)
    requires TablesOk(db) && HasStatus(db, x, Failed) && db.payments[x].retry < 3
    ensures UpdatePaymentStatus(db, x, Some(Failed), AwaitingTransfer).Ok?
    ensures var to := UpdatePaymentStatus(db, x, Some(Failed), AwaitingTransfer).value;
            TablesOk(to) && OnlyPayments(db, to, {x}) && Grows(db, to) && KeepsExact(db, to)
  {
    hide Exact, KeepsExact;
    hide TablesOk, Grows, OnlyPayments, RowOk, Rounds;
    var p := Becomes(db.payments[x], AwaitingTransfer);
    RowIsOk(db, x);
    RequeuedRow(x, db.payments[x], Lines(db, OfPayment(x)));
    RowStep(db, x, p, db.books.wallets);
  }

  lemma ExpireAwaitingKeeps(db: Db, x: PaymentId)
    requires TablesOk(db) && HasStatus(db, x, AwaitingTransfer)
    ensures ExpireAwaitingTransfer(db, x, db.payments[x].amount).Ok?
    ensures var to := ExpireAwaitingTransfer(db, x, db.payments[x].amount).value;
            && TablesOk(to) && OnlyPayments(db, to, {x}) && Grows(db, to)
            && (Exact(db) ==> (Exact(to) <==> !PaidIn(db, x) || PendingOf(db) == 0))
  {
    hide Exact, TablesOk, Grows, OnlyPayments, RowOk, Rounds;
    RowIsOk(db, x);
    ExpiredRow(x, db.payments[x], Lines(db, OfPayment(x)));
    var p := Becomes(db.payments[x], Expired);
    var ws := ReleasePending(db.books.wallets, p.amount);
    RowStep(db, x, p, ws);
  }

  lemma ExpiredRow(id: PaymentId, q: Payment, lines: seq<Entry>)
    requires RowOk(id, q, lines) && q.status == AwaitingTransfer
    ensures RowOk(id, Becomes(q, Expired), lines)
  {
  }

  // ----- transactions that post -----

  /** Posting a debit and a credit whose keys are free among the lines of their reference. */
  lemma PairPosted(b: Books, ws: map<Wallet, WalletRow>, d: Entry, c: Entry)
    requires Sound(b) && SameBalances(ws, b.wallets) && IsPair(d, c)
    requires !KeyTaken(Under(b.log, d.ref), KeyOf(d)) && !KeyTaken(Under(b.log, d.ref), KeyOf(c))
    ensures var r := PostInTx(Books(ws, b.log), [d, c]);
            && r.Ok? && Sound(r.value) && SamePending(ws, r.value.wallets)
            && r.value.log == b.log + [d, c]
    ensures Sound(Books(ws, b.log))
  {
    KeyTakenUnder(b.log, KeyOf(d));
    KeyTakenUnder(b.log, KeyOf(c));
    assert forall w :: w in ws && w in b.wallets;
    PairPosts(Books(ws, b.log), d, c);
    PostInTxKeeps(Books(ws, b.log), [d, c]);
  }

  /** A pair under one reference leaves the lines of every other reference alone. */
  lemma LinesAfterPair(log: seq<Entry>, d: Entry, c: Entry)
    requires IsPair(d, c)
    ensures forall r | r != d.ref :: Under(log + [d, c], r) == Under(log, r)
    ensures Under(log + [d, c], d.ref) == Under(log, d.ref) + [d, c]
    ensures log <= log + [d, c]
  {
    PairAppended(log, d, c);
  }

  /** Posting a transfer either files its two lines or finds them filed; then the pending release is
      rolled back with the rest. */
  lemma ClearPendingKeeps(db: Db, x: PaymentId)
    requires TablesOk(db) && HasStatus(db, x, AwaitingTransfer)
    ensures var a := db.payments[x].amount;
            var r := ClearPendingEscrowToOperating(db, x, a);
            if PaidIn(db, x) then r == Err(UniqueViolation)
            else r.Ok? && TablesOk(r.value) && OnlyPayments(db, r.value, {x}) && Grows(db, r.value)
                 && PayIn(db, r.value, x) && r.value.outbox == db.outbox && KeepsExact(db, r.value)
  {
    if PaidIn(db, x) {
      ClearPendingTaken(db, x);
    } else {
      ClearPendingPosts(db, x);
      var to := ClearPendingEscrowToOperating(db, x, db.payments[x].amount).value;
      PayInMoney(db, to, x);
      PayInPending(db, to, x);
      PayInRows(db, to, x);
    }
  }

  lemma ClearPendingTaken(db: Db, x: PaymentId)
    requires TablesOk(db) && HasStatus(db, x, AwaitingTransfer) && PaidIn(db, x)
    ensures ClearPendingEscrowToOperating(db, x, db.payments[x].amount) == Err(UniqueViolation)
  {
    var a := db.payments[x].amount;
    var d, c := PayInLines(x, a)[0], PayInLines(x, a)[1];
    assert PayInLines(x, a) == [d, c];
    assert RowOk(x, db.payments[x], Lines(db, OfPayment(x)));
    assert KeyOf(Lines(db, OfPayment(x))[0]) == KeyOf(d);
    KeyTakenUnder(db.books.log, KeyOf(d));
    PairTaken(db.books.(wallets := ReleasePending(db.books.wallets, a)), d, c);
  }

  lemma ClearPendingPosts(db: Db, x: PaymentId)
    requires TablesOk(db) && HasStatus(db, x, AwaitingTransfer) && !PaidIn(db, x)
    ensures var r := ClearPendingEscrowToOperating(db, x, db.payments[x].amount);
            && r.Ok? && PayIn(db, r.value, x) && Grows(db, r.value)
            && Sound(r.value.books) && StampsOk(r.value) && RunsOk(r.value)
            && PendingOf(r.value) == Release(PendingOf(db), db.payments[x].amount)
            && r.value.outbox == db.outbox
  {
    hide TrailOk, PostInTx, Net, Under, MoneyOk, PendingOk, Total;
    var a := db.payments[x].amount;
    var d, c := PayInLines(x, a)[0], PayInLines(x, a)[1];
    assert PayInLines(x, a) == [d, c];
    assert RowOk(x, db.payments[x], Lines(db, OfPayment(x)));
    PairPosted(db.books, ReleasePending(db.books.wallets, a), d, c);
    LinesAfterPair(db.books.log, d, c);
    var to := ClearPendingEscrowToOperating(db, x, a).value;
    assert Lines(to, OfPayment(x)) == [] + [d, c] == [d, c];
  }

  ghost predicate PayIn(db: Db, to: Db, x: PaymentId) {
    && RowsOk(db) && HasStatus(db, x, AwaitingTransfer) && !PaidIn(db, x)
    && OnlyPayments(db, to, {x})
    && to.payments == db.payments
    && to.books.log == db.books.log + PayInLines(x, db.payments[x].amount)
    && Lines(to, OfPayment(x)) == PayInLines(x, db.payments[x].amount)
  }

  lemma PayInRows(db: Db, to: Db, x: PaymentId)
    requires PayIn(db, to, x)
    ensures RowsOk(to)
  {
    assert RowOk(x, db.payments[x], Lines(db, OfPayment(x)));
  }

  lemma PayInMoney(db: Db, to: Db, x: PaymentId)
    requires PayIn(db, to, x) && MoneyOk(db)
    ensures MoneyOk(to)
  {
    var a := db.payments[x].amount;
    var d, c := PayInLines(x, a)[0], PayInLines(x, a)[1];
    assert PayInLines(x, a) == [d, c];
    assert IsPair(d, c) by { assert RowOk(x, db.payments[x], Lines(db, OfPayment(x))); }
    PairAppended(db.books.log, d, c);
    SelectionsMove(db, to, x);
    assert PaidIn(to, x);
  }

  lemma PayInPending(db: Db, to: Db, x: PaymentId)
    requires PayIn(db, to, x) && PendingOk(db)
    requires PendingOf(to) == Release(PendingOf(db), db.payments[x].amount)
    ensures PendingOk(to) && KeepsExact(db, to)
  {
    SelectionsMove(db, to, x);
    QuietUnlessExpired(db, to, x);
    DueIsCovered(db, x);
    PayInRows(db, to, x);
    assert Outstanding(db, x) && !Outstanding(to, x) by { assert PaidIn(to, x); }
  }

  /** A refund goes through exactly for a SETTLED payment. */
  lemma RefundKeeps(db: Db, x: PaymentId, a: int)
    requires TablesOk(db) && x in db.payments && a == db.payments[x].amount
    ensures RefundSettledPayment(db, x, a).Ok? <==> HasStatus(db, x, Settled)
    ensures HasStatus(db, x, Settled) ==>
              var to := RefundSettledPayment(db, x, a).value;
              && TablesOk(to) && OnlyPayments(db, to, {x}) && Grows(db, to) && to.outbox == db.outbox
              && HasStatus(to, x, Cancelled) && KeepsExact(db, to)
  {
    if HasStatus(db, x, Settled) {
      RefundPosts(db, x);
      var p := Becomes(db.payments[x], Cancelled);
      var to := RefundSettledPayment(db, x, a).value;
      RefundRows(db, to, x, p);
      RefundMoney(db, to, x, p);
      RefundPending(db, to, x, p);
    }
  }

  lemma RefundPosts(db: Db, x: PaymentId)
    requires TablesOk(db) && HasStatus(db, x, Settled)
    ensures var r := RefundSettledPayment(db, x, db.payments[x].amount);
            && r.Ok? && Refunded(db, r.value, x, Becomes(db.payments[x], Cancelled)) && Grows(db, r.value)
            && Sound(r.value.books) && StampsOk(r.value) && RunsOk(r.value)
            && PendingOf(r.value) == PendingOf(db)
            && r.value.outbox == db.outbox
  {
    hide TrailOk, PostInTx, Net, Under, MoneyOk, PendingOk, Total;
    var a := db.payments[x].amount;
    var d, c := ReversalLines(x, a)[0], ReversalLines(x, a)[1];
    assert ReversalLines(x, a) == [d, c];
    assert RowOk(x, db.payments[x], Lines(db, OfPayment(x)));
    PairPosted(db.books, db.books.wallets, d, c);
    LinesAfterPair(db.books.log, d, c);
    assert Books(db.books.wallets, db.books.log) == db.books;
    var to := RefundSettledPayment(db, x, a).value;
    StampsWritten(db, x, Becomes(db.payments[x], Cancelled), to.books.wallets);
  }

  ghost predicate Refunded(db: Db, to: Db, x: PaymentId, p: Payment) {
    && RowsOk(db) && HasStatus(db, x, Settled)
    && p == Becomes(db.payments[x], Cancelled)
    && to.payments == db.payments[x := p.(stamp := db.writes)]
    && to.settlements == db.settlements
    && to.books.log == db.books.log + ReversalLines(x, p.amount)
    && (forall r | r != OfPayment(x) :: Under(to.books.log, r) == Under(db.books.log, r))
    && Lines(to, OfPayment(x)) == Lines(db, OfPayment(x)) + ReversalLines(x, p.amount)
  }

  lemma RefundRows(db: Db, to: Db, x: PaymentId, p: Payment)
    requires Refunded(db, to, x, p)
    ensures RowsOk(to) && OnlyPayments(db, to, {x}) && PaidIn(to, x) && PaidIn(db, x)
  {
    assert RowOk(x, db.payments[x], Lines(db, OfPayment(x)));
    assert p.trail == Rounds(p.retry) + [Settled, Cancelled];
  }

  lemma RefundMoney(db: Db, to: Db, x: PaymentId, p: Payment)
    requires Refunded(db, to, x, p) && MoneyOk(db)
    ensures MoneyOk(to)
  {
    var d, c := ReversalLines(x, p.amount)[0], ReversalLines(x, p.amount)[1];
    assert ReversalLines(x, p.amount) == [d, c];
    assert IsPair(d, c) by { assert RowOk(x, db.payments[x], Lines(db, OfPayment(x))); }
    PairAppended(db.books.log, d, c);
    RefundRows(db, to, x, p);
    SelectionsMove(db, to, x);
  }

  lemma RefundPending(db: Db, to: Db, x: PaymentId, p: Payment)
    requires Refunded(db, to, x, p) && PendingOk(db)
    requires PendingOf(to) == PendingOf(db)
    ensures PendingOk(to) && KeepsExact(db, to)
  {
    RefundRows(db, to, x, p);
    SelectionsMove(db, to, x);
    QuietUnlessExpired(db, to, x);
  }

  // ----- settlement runs -----

  /** Changes outside the payments leave every sum over them as it was. */
  lemma PaymentsUntouched(db: Db, to: Db)
    requires to.payments == db.payments
    requires forall id: PaymentId :: Lines(to, OfPayment(id)) == Lines(db, OfPayment(id))
    ensures PaidIds(to) == PaidIds(db) && OutstandingIds(to) == OutstandingIds(db)
    ensures WithStatus(to, Cancelled) == WithStatus(db, Cancelled)
    ensures ExpiredAfterPayIn(to) <==> ExpiredAfterPayIn(db)
    ensures RowsOk(db) ==> RowsOk(to)
    ensures PendingOk(db) && PendingOf(to) == PendingOf(db) ==> PendingOk(to)
    ensures MoneyOk(db) && to.books.log == db.books.log ==> MoneyOk(to)
    ensures PendingOf(to) == PendingOf(db) ==> KeepsExact(db, to)
  {
    assert PaidIds(to) == PaidIds(db) && OutstandingIds(to) == OutstandingIds(db);
    assert WithStatus(to, Cancelled) == WithStatus(db, Cancelled);
    if id :| HasStatus(db, id, Expired) && PaidIn(db, id) {
      assert HasStatus(to, id, Expired) && PaidIn(to, id);
    }
    if id :| HasStatus(to, id, Expired) && PaidIn(to, id) {
      assert HasStatus(db, id, Expired) && PaidIn(db, id);
    }
  }

  lemma RunSettlementKeeps(db: Db, n: nat, a: int)
    requires TablesOk(db) && n < |db.settlements| && db.settlements[n].status == Running
    requires Lines(db, OfSettlement(n)) == [] && a > 0
    ensures RunSettlement(db, n, a).Ok?
    ensures var to := RunSettlement(db, n, a).value;
            && TablesOk(to) && OnlyRun(db, to, n) && Grows(db, to) && to.outbox == db.outbox
            && to.settlements == db.settlements
            && Lines(to, OfSettlement(n)) == SettlementLines(n, a)
            && to.books.log == db.books.log + SettlementLines(n, a)
            && KeepsExact(db, to)
  {
    hide TablesOk, Sound, RowsOk, StampsOk, RunsOk, MoneyOk, PendingOk, OnlyRun, Grows, KeepsExact, RunSettlement;
    TablesParts(db);
    RunPosts(db, n, a);
    var to := RunSettlement(db, n, a).value;
    RunPostedRows(db, to, n, a);
    RunPostedMoney(db, to, n, a);
    PaymentsUntouched(db, to);
    TablesParts(to);
  }

  lemma TablesParts(db: Db)
    ensures TablesOk(db)
            <==> Sound(db.books) && RowsOk(db) && StampsOk(db) && RunsOk(db) && MoneyOk(db) && PendingOk(db)
  {
    hide Sound, RowsOk, StampsOk, RunsOk, MoneyOk, PendingOk;
  }

  /** The run n has been posted. */
  ghost predicate RunPosted(db: Db, to: Db, n: nat, a: int) {
    && a > 0 && to == db.(books := to.books)
    && SamePending(db.books.wallets, to.books.wallets)
    && to.books.log == db.books.log + SettlementLines(n, a)
    && (forall r | r != OfSettlement(n) :: Under(to.books.log, r) == Under(db.books.log, r))
    && Lines(to, OfSettlement(n)) == Lines(db, OfSettlement(n)) + SettlementLines(n, a)
  }

  lemma RunPosts(db: Db, n: nat, a: int)
    requires TablesOk(db) && Lines(db, OfSettlement(n)) == [] && a > 0
    ensures RunSettlement(db, n, a).Ok?
    ensures RunPosted(db, RunSettlement(db, n, a).value, n, a) && Sound(RunSettlement(db, n, a).value.books)
  {
    hide RowsOk, StampsOk, RunsOk, MoneyOk, PendingOk, PostInTx, CacheMatches, Under;
    var d, c := SettlementLines(n, a)[0], SettlementLines(n, a)[1];
    assert SettlementLines(n, a) == [d, c];
    NoneTaken(KeyOf(d));
    NoneTaken(KeyOf(c));
    PairPosted(db.books, db.books.wallets, d, c);
    hide Sound;
    assert Books(db.books.wallets, db.books.log) == db.books;
    PairAppended(db.books.log, d, c);
  }

  lemma NoneTaken(k: Key)
    ensures !KeyTaken([], k)
  {
  }

  lemma RunPostedRows(db: Db, to: Db, n: nat, a: int)
    requires RunPosted(db, to, n, a) && StampsOk(db) && RunsOk(db)
    requires n < |db.settlements| && db.settlements[n].status == Running && Lines(db, OfSettlement(n)) == []
    ensures StampsOk(to) && RunsOk(to) && OnlyRun(db, to, n) && Grows(db, to)
    ensures Lines(to, OfSettlement(n)) == SettlementLines(n, a)
    ensures forall id: PaymentId :: Lines(to, OfPayment(id)) == Lines(db, OfPayment(id))
    ensures PendingOf(to) == PendingOf(db)
  {
    hide Under;
    assert [] + SettlementLines(n, a) == SettlementLines(n, a);
  }

  lemma RunPostedMoney(db: Db, to: Db, n: nat, a: int)
    requires RunPosted(db, to, n, a) && MoneyOk(db)
    ensures MoneyOk(to)
  {
    hide Under, Total;
    var d, c := SettlementLines(n, a)[0], SettlementLines(n, a)[1];
    assert SettlementLines(n, a) == [d, c];
    PairAppended(db.books.log, d, c);
    assert PaidIds(to) == PaidIds(db) && WithStatus(to, Cancelled) == WithStatus(db, Cancelled);
  }

  lemma CreateSettlementKeeps(db: Db)
    requires TablesOk(db)
    ensures var to := CreateSettlement(db);
            TablesOk(to) && OnlyRun(db, to, |db.settlements|) && Grows(db, to) && KeepsExact(db, to)
            && Lines(to, OfSettlement(|db.settlements|)) == []
  {
    var to := CreateSettlement(db);
    PaymentsUntouched(db, to);
    hide RowsOk, MoneyOk, PendingOk, Sound;
    assert RunsOk(to);
  }

  lemma CompleteSettlementKeeps(db: Db, n: nat, a: int, entries: nat, st: RunStatus)
    requires TablesOk(db) && n < |db.settlements| && db.settlements[n].status == Running
    requires RunOk(n, SettlementRow(a, entries, st), Lines(db, OfSettlement(n))) && a >= 0
    ensures CompleteSettlement(db, n, a, entries, st).Ok?
    ensures var to := CompleteSettlement(db, n, a, entries, st).value;
            TablesOk(to) && OnlyRun(db, to, n) && Grows(db, to) && KeepsExact(db, to)
  {
    var to := CompleteSettlement(db, n, a, entries, st).value;
    PaymentsUntouched(db, to);
    hide RowsOk, MoneyOk, PendingOk, Sound;
    assert RunsOk(to);
  }

  lemma EnqueueKeeps(db: Db, e: Event)
    requires TablesOk(db)
    ensures TablesOk(Enqueue(db, e)) && Grows(db, Enqueue(db, e)) && OnlyPayments(db, Enqueue(db, e), {})
    ensures KeepsExact(db, Enqueue(db, e))
  {
    PaymentsUntouched(db, Enqueue(db, e));
  }

  // ----- the expiry sweep -----

  lemma GrowsOn(a: Db, b: Db, c: Db)
    requires Grows(a, b) && Grows(b, c)
    ensures Grows(a, c)
  {
    forall id | id in a.payments ensures id in c.payments && a.payments[id].trail <= c.payments[id].trail {
      assert id in b.payments;
    }
  }

  lemma OnlyPaymentsOn(a: Db, b: Db, c: Db, xs: set<PaymentId>, ys: set<PaymentId>)
    requires OnlyPayments(a, b, xs) && OnlyPayments(b, c, ys)
    ensures OnlyPayments(a, c, xs + ys)
  {
  }

  /** The sweep's loop expires the PENDING rows among its ids and nothing else. */
  lemma {:induction false} ExpireEachKeeps(db: Db, ids: seq<PaymentId>)
    requires TablesOk(db)
    ensures var to := ExpireEach(db, ids);
            && TablesOk(to) && Grows(db, to) && OnlyPayments(db, to, Elements(ids))
            && to.books == db.books && to.outbox == db.outbox && KeepsExact(db, to)
            && to.payments.Keys == db.payments.Keys
            && (forall id | HasStatus(db, id, Pending) && id in ids :: HasStatus(to, id, Expired))
            && (forall id | id in db.payments && !HasStatus(db, id, Pending) :: to.payments[id] == db.payments[id])
    decreases |ids|
  {
    hide TablesOk;
    if ids != [] {
      var next := ExpireOne(db, ids[0]);
      ExpireOneKeeps(db, ids[0]);
      ExpireEachKeeps(next, ids[1..]);
      var to := ExpireEach(next, ids[1..]);
      GrowsOn(db, next, to);
      OnlyPaymentsOn(db, next, to, {ids[0]}, Elements(ids[1..]));
      assert {ids[0]} + Elements(ids[1..]) == Elements(ids);
      forall id | HasStatus(db, id, Pending) && id in ids ensures HasStatus(to, id, Expired) {
        if id == ids[0] {
          assert !HasStatus(next, id, Pending);
        } else {
          assert id in ids[1..];
        }
      }
    }
  }

  lemma ExpireOneKeeps(db: Db, id: PaymentId)
    requires TablesOk(db)
    ensures var to := ExpireOne(db, id);
            && TablesOk(to) && Grows(db, to) && OnlyPayments(db, to, {id})
            && to.books == db.books && to.outbox == db.outbox && KeepsExact(db, to)
            && to.payments.Keys == db.payments.Keys
            && (HasStatus(db, id, Pending) ==> HasStatus(to, id, Expired))
            && (forall jd | jd in db.payments && !HasStatus(db, jd, Pending) :: to.payments[jd] == db.payments[jd])
  {
    hide TablesOk;
    if HasStatus(db, id, Pending) {
      ExpirePendingKeeps(db, id);
    }
  }

  // ----- the empty tables -----

  lemma EmptyTablesOk()
    ensures TablesOk(EMPTY_DB)
  {
    var db := EMPTY_DB;
    forall w ensures w in db.books.wallets && db.books.wallets[w].balance == Net(db.books.log, w) {
      match w {
        case Operating =>
        case Escrow =>
        case Fee =>
      }
    }
    assert PaidIds(db) == {} && WithStatus(db, Cancelled) == {} && OutstandingIds(db) == {};
  }
}
