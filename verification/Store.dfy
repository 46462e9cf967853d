/** The store as the program uses it: an object whose tables its methods update in place, inside
    transactions that are rolled back when a statement fails. */
module PaymentStore {
  import opened Types
  import opened Ledger
  import opened Database
  import opened Sums
  import opened ExpirySweep
  import opened Sets
  import opened Machine
  import opened Reports
  import opened ReferenceText
  import opened WriteRetry

  // ----- writes that may fail -----

  function FaultError(fault: Fault): Option<DbError> {
    match fault
    case NoFault => None
    case FaultAt(_, text) => Option.Some(Faulted(text))
  }

  /** The database fails before this statement. */
  predicate Strikes(fault: Fault, statement: nat) {
    fault.FaultAt? && fault.statement == statement
  }

  /** How statements inside a transaction end: as they should, or with an error, and then the tables may be
      in between. */
  ghost predicate Ends(whole: Result<Db>, fault: Fault, err: Option<DbError>, after: Db) {
    match err
    case None => whole == Ok(after)
    case Some(e) => whole == Err(e) || err == FaultError(fault)
  }

  /** How a transaction ends: as a whole, or not at all. */
  ghost predicate AllOrNothing(
    before: Db, whole: Result<Db>, fault: Fault, err: Option<DbError>, after: Db)
  {
    Ends(whole, fault, err, after) && (err.Some? ==> after == before)
  }

  /** The operations that the program runs under its write-retry loop. */
  datatype Operation =
    | Insert(id: PaymentId, reference: string, key: Option<string>, amount: int, due: int)
    | Confirm(id: PaymentId)
    | Mark(id: PaymentId)
    | Expire(id: PaymentId, amount: int)
    | Post(postings: seq<Entry>)
    | PayInto(id: PaymentId, amount: int)
    | Refund(id: PaymentId, amount: int)

  function Apply(db: Db, op: Operation): Result<Db> {
    match op
    case Insert(id, reference, key, amount, due) => Database.CreatePayment(db, id, reference, key, amount, due)
    case Confirm(id) => Database.ConfirmPaymentIntent(db, id)
    case Mark(id) => Ok(MarkPaymentSettled(db, id).0)
    case Expire(id, amount) => Database.ExpireAwaitingTransfer(db, id, amount)
    case Post(postings) => Posted(db, postings)
    case PayInto(id, amount) => Database.ClearPendingEscrowToOperating(db, id, amount)
    case Refund(id, amount) => Database.RefundSettledPayment(db, id, amount)
  }

  function Posted(db: Db, postings: seq<Entry>): Result<Db> {
    match Ledger.Postings(db.books, postings)
    case Err(x) => Err(x)
    case Ok(books) => Ok(db.(books := books))
  }

  function ErrorText(e: DbError): string {
    match e
    case NoRows => "sql: no rows in result set"
    case CheckFailed => "CHECK constraint failed"
    case UniqueViolation => "UNIQUE constraint failed"
    case DuplicateKey => "UNIQUE constraint failed" + ": payment_requests.idempotency_key"
    case Rejected(why) => why
    case Faulted(text) => text
  }

  /** The tables before an attempt, when others change them in the pauses: `meanwhile(k)` is what they do
      after attempt k. */
  function Before(db: Db, meanwhile: nat -> Db -> Db, attempt: nat): Db {
    if attempt <= 1 then db else meanwhile(attempt - 1)(Before(db, meanwhile, attempt - 1))
  }

  lemma BeforeNext(db: Db, meanwhile: nat -> Db -> Db, attempt: nat)
    requires attempt >= 1
    ensures Before(db, meanwhile, 1) == db
    ensures Before(db, meanwhile, attempt + 1) == meanwhile(attempt)(Before(db, meanwhile, attempt))
  {
  }

  /** The attempt ends in a busy error: the operation's own, or a fault's. */
  ghost predicate BusyAttempt(db: Db, op: Operation, fault: Fault) {
    exists e :: IsBusy(ErrorText(e)) && (Apply(db, op) == Err(e) || FaultError(fault) == Option.Some(e))
  }

  /** What an operation itself reports is never busy: only the database's own faults are retried. */
  lemma OperationsAreNeverBusy(db: Db, op: Operation)
    requires Apply(db, op).Err?
    ensures !IsBusy(ErrorText(Apply(db, op).error))
  {
    NoRowsIsNotBusy();
    CheckFailureIsNotBusy();
    UniqueFailureIsNotBusy();
    DuplicateKeyIsNotBusy();
    OnePostingIsNotBusy();
    ImbalanceIsNotBusy();
    WrongDirectionIsNotBusy();
    WrongRefundIsNotBusy();
    NotPendingIsNotBusy();
    hide IsBusy, Calm;
    OwnErrors(db, op);
  }

  lemma OwnErrors(db: Db, op: Operation)
    requires Apply(db, op).Err?
    ensures Apply(db, op).error in {
              NoRows, CheckFailed, UniqueViolation, DuplicateKey,
              Rejected("double-entry requires at least two postings"), Rejected("unbalanced posting"),
              Rejected("invalid direction"), Rejected("invalid refund amount"),
              Rejected("payment request not in PENDING state")}
  {
    match op
    case Post(postings) =>
      PostingErrors(db.books, postings);
    case PayInto(id, amount) =>
      PostingErrors(db.books.(wallets := ReleasePending(db.books.wallets, amount)), PayInLines(id, amount));
    case Refund(id, amount) =>
      PostingErrors(db.books, ReversalLines(id, amount));
    case _ =>
  }

  lemma PostingErrors(b: Books, es: seq<Entry>)
    ensures Ledger.PostInTx(b, es).Err? ==>
              Ledger.PostInTx(b, es).error in {
                NoRows, CheckFailed, UniqueViolation, Rejected("unbalanced posting"), Rejected("invalid direction")}
  {
    if InsertAll(b, es).Err? {
      InsertErrors(b, es);
    }
  }

  lemma {:induction false} InsertErrors(b: Books, es: seq<Entry>)
    requires InsertAll(b, es).Err?
    ensures InsertAll(b, es).error in {NoRows, CheckFailed, UniqueViolation}
    decreases |es|
  {
    if InsertEntry(b, es[0]).Ok? {
      InsertErrors(InsertEntry(b, es[0]).value, es[1..]);
    }
  }

  /** The transaction finds the database locked at its BEGIN. */
  ghost predicate Locked(fault: Fault) {
    && fault.FaultAt? && fault.statement == 0
    && exists a: string, b: string :: fault.text == a + "database is locked" + b
  }

  lemma LockedIsBusy(fault: Fault)
    requires Locked(fault)
    ensures IsBusy(fault.text)
  {
    var a: string, b: string :| fault.text == a + "database is locked" + b;
    BusyTexts(a, "database is locked", b, "database is locked");
  }

  /** Nothing is cancelled up to attempt n, every attempt before it finds the database locked, and attempt n
      meets no fault; the operation itself would go through each time. */
  ghost predicate FreeAt(
    n: nat, db: Db, op: Operation,
    faults: nat -> Fault, meanwhile: nat -> Db -> Db, cancelled: nat -> bool, cancelledInPause: nat -> bool)
  {
    && n >= 1 && faults(n) == NoFault
    && (forall k: nat | 1 <= k <= n :: !cancelled(k) && Apply(Before(db, meanwhile, k), op).Ok?)
    && (forall k: nat | 1 <= k < n :: Locked(faults(k)) && !cancelledInPause(k))
  }

  /** What freedom at a later attempt, or at this one, says of this one. */
  lemma StillToCome(
    db: Db, op: Operation,
    faults: nat -> Fault, meanwhile: nat -> Db -> Db, cancelled: nat -> bool, cancelledInPause: nat -> bool,
    attempt: nat)
    requires attempt >= 1
    ensures forall n: nat | FreeAt(n, db, op, faults, meanwhile, cancelled, cancelledInPause) :: n >= 1
    ensures forall n: nat |
              FreeAt(n, db, op, faults, meanwhile, cancelled, cancelledInPause) && n >= attempt ::
                && !cancelled(attempt) && Apply(Before(db, meanwhile, attempt), op).Ok?
                && (if n == attempt then faults(attempt) == NoFault
                    else Locked(faults(attempt)) && !cancelledInPause(attempt))
  {
  }

  lemma LockedAttempt(fault: Fault, err: Option<DbError>)
    ensures Locked(fault) && err == FaultError(fault) ==> err.Some? && IsBusy(ErrorText(err.value))
    ensures Locked(fault) ==> fault.FaultAt? && fault.statement == 0
    ensures FaultError(NoFault) == None
  {
    if Locked(fault) {
      LockedIsBusy(fault);
    }
  }

  lemma AttemptEnds(before: Db, op: Operation, fault: Fault, err: Option<DbError>, after: Db)
    requires AllOrNothing(before, Apply(before, op), fault, err, after)
    ensures err == None ==> Apply(before, op) == Ok(after)
    ensures err.Some? ==>
              after == before && (Apply(before, op) == Err(err.value) || err == FaultError(fault))
    ensures err.Some? && IsBusy(ErrorText(err.value)) ==> BusyAttempt(before, op, fault)
  {
  }

  // ----- ordered queries -----

  function Ids(batch: seq<Snap>): (ids: seq<PaymentId>)
    ensures |ids| == |batch| && forall i | 0 <= i < |batch| :: ids[i] == batch[i].id
  {
    seq(|batch|, i requires 0 <= i < |batch| => batch[i].id)
  }

  lemma NoneYet(ps: map<PaymentId, Payment>, candidates: set<PaymentId>, c: Column)
    requires candidates <= ps.Keys
    ensures FirstOnes(ps, candidates, c, []) && candidates - Elements([]) == candidates
  {
  }

  lemma FirstOnesGrow(
    ps: map<PaymentId, Payment>, candidates: set<PaymentId>, c: Column, ids: seq<PaymentId>, least: PaymentId)
    requires candidates <= ps.Keys && FirstOnes(ps, candidates, c, ids)
    requires least in candidates - Elements(ids)
    requires forall id | id in candidates - Elements(ids) :: On(ps[least], c) <= On(ps[id], c)
    ensures FirstOnes(ps, candidates, c, ids + [least])
    ensures candidates - Elements(ids + [least]) == candidates - Elements(ids) - {least}
  {
  }

  class Store {
    var payments: map<PaymentId, Payment>
    var wallets: map<Wallet, WalletRow>
    var entries: seq<Entry>
    var settlements: seq<SettlementRow>
    var outbox: seq<Event>
    var writes: nat

    constructor ()
      ensures View() == EMPTY_DB
    {
      payments, entries, settlements, outbox, writes := map[], [], [], [], 0;
      wallets := map[Operating := WalletRow(0, 0), Escrow := WalletRow(0, 0), Fee := WalletRow(0, 0)];
    }

    function View(): Db
      reads this
    {
      Db(payments, Books(wallets, entries), settlements, outbox, writes)
    }

    /** Sets all tables, as when a transaction is rolled back to the tables it began with. */
    method Rollback(saved: Db)
      modifies this
      ensures View() == saved
    {
      payments, wallets, entries := saved.payments, saved.books.wallets, saved.books.log;
      settlements, outbox, writes := saved.settlements, saved.outbox, saved.writes;
    }

    // ----- the ledger -----

    /** The posting loop, whose statements are numbered from `first` on: three for each entry. On an error
        the entries before it are already in the tables: the caller's transaction takes them back. */
    method PostInTx(postings: seq<Entry>, first: nat, fault: Fault) returns (err: Option<DbError>)
      modifies `wallets, `entries
      ensures match err
              case None => Ledger.PostInTx(old(View().books), postings) == Ok(View().books)
              case Some(e) =>
                Ledger.PostInTx(old(View().books), postings) == Err(e) || err == FaultError(fault)
    {
      err := CheckPostings(postings);
      if err != None {
        return;
      }
      var i := 0;
      ghost var before := View().books;
      while i < |postings|
        invariant 0 <= i <= |postings|
        invariant InsertAll(before, postings) == InsertAll(View().books, postings[i..])
      {
        assert postings[i..][0] == postings[i] && postings[i..][1..] == postings[i + 1..];
        err := PostEntry(postings[i], first + 3 * i, fault);
        if err != None {
          return;
        }
        i := i + 1;
      }
      return None;
    }

    method CheckPostings(postings: seq<Entry>) returns (err: Option<DbError>)
      ensures match err
              case None => Ledger.PostInTx(View().books, postings) == InsertAll(View().books, postings)
              case Some(e) => Ledger.PostInTx(View().books, postings) == Err(e)
    {
      var debit, credit := 0, 0;
      var i := 0;
      while i < |postings|
        invariant 0 <= i <= |postings|
        invariant debit == SideTotal(postings[..i], DR) && credit == SideTotal(postings[..i], CR)
        invariant forall j | 0 <= j < i :: KnownDirection(postings[j])
      {
        var p := postings[i];
        assert postings[..i + 1] == postings[..i] + [p];
        Appended(postings[..i], p);
        match p.direction {
          case DR => debit := debit + p.amount;
          case CR => credit := credit + p.amount;
          case OtherDirection(_) => return Option.Some(Rejected("invalid direction"));
        }
        i := i + 1;
      }
      assert postings[..i] == postings;
      return if debit != credit then Option.Some(Rejected("unbalanced posting")) else None;
    }

    /** Look up the wallet, insert the entry, add to the cached balance. */
    method PostEntry(p: Entry, first: nat, fault: Fault) returns (err: Option<DbError>)
      modifies `wallets, `entries
      ensures match err
              case None => InsertEntry(old(View().books), p) == Ok(View().books)
              case Some(e) => InsertEntry(old(View().books), p) == Err(e) || err == FaultError(fault)
    {
      if Strikes(fault, first) {
        return FaultError(fault);
      }
      if p.wallet !in wallets {
        return Option.Some(NoRows);
      }
      if Strikes(fault, first + 1) {
        return FaultError(fault);
      }
      if p.amount <= 0 || !KnownDirection(p) {
        return Option.Some(CheckFailed);
      }
      if KeyTaken(entries, KeyOf(p)) {
        return Option.Some(UniqueViolation);
      }
      entries := entries + [p];
      if Strikes(fault, first + 2) {
        return FaultError(fault);
      }
      var delta := if p.direction == CR then -p.amount else p.amount;
      wallets := wallets[p.wallet := wallets[p.wallet].(balance := wallets[p.wallet].balance + delta)];
      return None;
    }

    method Postings(postings: seq<Entry>, fault: Fault) returns (err: Option<DbError>)
      modifies this
      ensures AllOrNothing(old(View()), Posted(old(View()), postings), fault, err, View())
      ensures Posted(old(View()), postings).Ok? && Strikes(fault, 0) ==> err == FaultError(fault)
    {
      if |postings| < 2 {
        return Option.Some(Rejected("double-entry requires at least two postings"));
      }
      var saved := View();
      if Strikes(fault, 0) {
        return FaultError(fault);
      }
      err := PostInTx(postings, 1, fault);
      if err == None && Strikes(fault, 3 * |postings| + 1) {
        err := FaultError(fault);
      }
      if err != None {
        Rollback(saved);
      }
    }

    method ClearPendingEscrowToOperating(id: PaymentId, amount: int, fault: Fault) returns (err: Option<DbError>)
      modifies this
      ensures AllOrNothing(
                old(View()), Database.ClearPendingEscrowToOperating(old(View()), id, amount), fault, err, View())
      ensures Database.ClearPendingEscrowToOperating(old(View()), id, amount).Ok? && Strikes(fault, 0) ==>
                err == FaultError(fault)
    {
      var saved := View();
      if Strikes(fault, 0) || Strikes(fault, 1) {
        return FaultError(fault);
      }
      if Escrow !in wallets {
        return Option.Some(NoRows);
      }
      if Strikes(fault, 2) {
        return FaultError(fault);
      }
      wallets := ReleasePending(wallets, amount);
      err := PostInTx(PayInLines(id, amount), 3, fault);
      if err == None && Strikes(fault, 9) {
        err := FaultError(fault);
      }
      if err != None {
        Rollback(saved);
      }
    }

    method RunSettlement(run: nat, amount: int, fault: Fault) returns (err: Option<DbError>)
      modifies this
      ensures AllOrNothing(old(View()), Database.RunSettlement(old(View()), run, amount), fault, err, View())
    {
      err := Postings(SettlementLines(run, amount), fault);
    }

    method RefundSettledPayment(id: PaymentId, amount: int, fault: Fault) returns (err: Option<DbError>)
      modifies this
      ensures AllOrNothing(
                old(View()), Database.RefundSettledPayment(old(View()), id, amount), fault, err, View())
      ensures Database.RefundSettledPayment(old(View()), id, amount).Ok? && Strikes(fault, 0) ==>
                err == FaultError(fault)
    {
      if amount <= 0 {
        return Option.Some(Rejected("invalid refund amount"));
      }
      var saved := View();
      if Strikes(fault, 0) {
        return FaultError(fault);
      }
      err := PostInTx(ReversalLines(id, amount), 1, fault);
      if err == None {
        err := CancelInTx(id, fault);
      }
      if err != None {
        Rollback(saved);
      }
    }

    /** The rest of a refund after its reversal is in the ledger. */
    method CancelInTx(id: PaymentId, fault: Fault) returns (err: Option<DbError>)
      modifies `payments, `writes
      ensures Ends(Database.UpdatePaymentStatus(old(View()), id, Option.Some(Settled), Cancelled),
                   fault, err, View())
    {
      if Strikes(fault, 7) {
        return FaultError(fault);
      }
      err := UpdatePaymentStatus(id, Option.Some(Settled), Cancelled, NoFault);
      if err == None && Strikes(fault, 8) {
        err := FaultError(fault);
      }
    }

    // ----- payments -----

    /** The number after the day's count. */
    method GeneratePaymentReference(day: Day) returns (reference: string)
      ensures reference == NextReference(View(), day)
    {
      var matching := set id | id in payments && HasPrefix(payments[id].reference, day);
      reference := Render(day, |matching| + 1);
    }

    method CreatePayment(
      id: PaymentId, reference: string, key: Option<string>, amount: int, due: int, fault: Fault)
      returns (err: Option<DbError>)
      modifies `payments, `writes
      ensures AllOrNothing(
                old(View()), Database.CreatePayment(old(View()), id, reference, key, amount, due),
                fault, err, View())
      ensures Database.CreatePayment(old(View()), id, reference, key, amount, due).Ok? && Strikes(fault, 0) ==>
                err == FaultError(fault)
    {
      if fault.FaultAt? {
        return FaultError(fault);
      }
      if amount <= 0 {
        return Option.Some(CheckFailed);
      }
      if id in payments || exists jd | jd in payments :: payments[jd].reference == reference {
        return Option.Some(UniqueViolation);
      }
      if key.Some? && exists jd | jd in payments :: payments[jd].key == key {
        return Option.Some(DuplicateKey);
      }
      payments := payments[id := Payment(reference, key, amount, due, Pending, 0, false, writes, [Pending])];
      writes := writes + 1;
      return None;
    }

    /** The payment that holds a key. */
    method GetPaymentRequestByIdempotencyKey(key: string) returns (id: Option<PaymentId>)
      ensures match id
              case None => !KeyInUse(View(), key)
              case Some(x) => HoldsKey(View(), x, key)
    {
      if x :| x in payments && payments[x].key == Option.Some(key) {
        return Option.Some(x);
      }
      return None;
    }

    /** Creates a payment, or returns the one that holds the same key: at once, or because others inserted
        it (`meanwhile`) between the first look and the insert. */
    method CreatePaymentRequest(
      id: PaymentId, reference: string, key: Option<string>, amount: int, due: int,
      meanwhile: Db -> Db, fault: Fault)
      returns (created: Result<PaymentId>)
      modifies this
      ensures var found := meanwhile(old(View()));
              var inserted := Database.CreatePayment(found, id, reference, key, amount, due);
              match created
              case Ok(x) =>
                || (key.Some? && KeyInUse(old(View()), key.value) && View() == old(View())
                    && HoldsKey(View(), x, key.value))
                || (key.Some? && inserted == Err(DuplicateKey) && View() == found && HoldsKey(View(), x, key.value))
                || (inserted == Ok(View()) && x == id)
              case Err(e) =>
                && (key.Some? ==> !KeyInUse(old(View()), key.value) && e != DuplicateKey)
                && View() == found && (inserted == Err(e) || FaultError(fault) == Option.Some(e))
    {
      if key.Some? {
        var existing := GetPaymentRequestByIdempotencyKey(key.value);
        if existing.Some? {
          return Ok(existing.value);
        }
      }
      Rollback(meanwhile(View()));
      var err := CreatePayment(id, reference, key, amount, due, fault);
      if err == None {
        return Ok(id);
      }
      if key.Some? && err == Option.Some(DuplicateKey) {
        var existing := GetPaymentRequestByIdempotencyKey(key.value);
        return Ok(existing.value);
      }
      return Err(err.value);
    }

    method UpdatePaymentStatus(id: PaymentId, from: Option<Status>, to: Status, fault: Fault)
      returns (err: Option<DbError>)
      modifies `payments, `writes
      ensures AllOrNothing(
                old(View()), Database.UpdatePaymentStatus(old(View()), id, from, to), fault, err, View())
    {
      if fault.FaultAt? {
        return FaultError(fault);
      }
      if id !in payments || (from != None && payments[id].status != from.value) {
        return Option.Some(NoRows);
      }
      payments := payments[id := Becomes(payments[id], to).(stamp := writes)];
      writes := writes + 1;
      return None;
    }

    method IncrementRetryAndSetStatus(id: PaymentId, to: Status, fault: Fault) returns (err: Option<DbError>)
      modifies `payments, `writes
      ensures AllOrNothing(
                old(View()), Database.IncrementRetryAndSetStatus(old(View()), id, to), fault, err, View())
    {
      if fault.FaultAt? {
        return FaultError(fault);
      }
      if id !in payments {
        return Option.Some(NoRows);
      }
      var p := payments[id];
      payments := payments[id := Becomes(p, to).(retry := p.retry + 1, stamp := writes)];
      writes := writes + 1;
      return None;
    }

    method MarkPaymentSettledIdempotent(id: PaymentId, fault: Fault) returns (changed: bool, err: Option<DbError>)
      modifies `payments, `writes
      ensures match err
              case None => (View(), changed) == MarkPaymentSettled(old(View()), id)
              case Some(_) => View() == old(View()) && !changed && err == FaultError(fault)
      ensures fault.FaultAt? ==> err.Some?
    {
      if fault.FaultAt? {
        return false, FaultError(fault);
      }
      changed := id in payments && payments[id].status == AwaitingTransfer && !payments[id].processed;
      if changed {
        payments := payments[id := Becomes(payments[id], Settled).(processed := true, stamp := writes)];
        writes := writes + 1;
      }
      return changed, None;
    }

    method ConfirmPaymentIntent(id: PaymentId, fault: Fault) returns (err: Option<DbError>)
      modifies this
      ensures AllOrNothing(old(View()), Database.ConfirmPaymentIntent(old(View()), id), fault, err, View())
      ensures Database.ConfirmPaymentIntent(old(View()), id).Ok? && Strikes(fault, 0) ==> err == FaultError(fault)
    {
      var saved := View();
      if Strikes(fault, 0) || Strikes(fault, 1) {
        return FaultError(fault);
      }
      if id !in payments || payments[id].status != Pending {
        return Option.Some(Rejected("payment request not in PENDING state"));
      }
      var amount := payments[id].amount;
      if Strikes(fault, 2) {
        return FaultError(fault);
      }
      err := UpdatePaymentStatus(id, Option.Some(Pending), AwaitingTransfer, NoFault);
      if !Strikes(fault, 3) {
        wallets := AddPending(wallets, amount);
      }
      if Strikes(fault, 3) || Strikes(fault, 4) {
        err := FaultError(fault);
        Rollback(saved);
      }
    }

    method ExpireAwaitingTransfer(id: PaymentId, amount: int, fault: Fault) returns (err: Option<DbError>)
      modifies this
      ensures AllOrNothing(
                old(View()), Database.ExpireAwaitingTransfer(old(View()), id, amount), fault, err, View())
      ensures Database.ExpireAwaitingTransfer(old(View()), id, amount).Ok? && Strikes(fault, 0) ==>
                err == FaultError(fault)
    {
      var saved := View();
      if Strikes(fault, 0) || Strikes(fault, 1) {
        return FaultError(fault);
      }
      err := UpdatePaymentStatus(id, Option.Some(AwaitingTransfer), Expired, NoFault);
      if err != None {
        return;
      }
      if !Strikes(fault, 2) {
        wallets := ReleasePending(wallets, amount);
      }
      if Strikes(fault, 2) || Strikes(fault, 3) {
        err := FaultError(fault);
        Rollback(saved);
      }
    }

    // ----- the write-retry loop -----

    method Attempt(op: Operation, fault: Fault) returns (err: Option<DbError>)
      modifies this
      ensures AllOrNothing(old(View()), Apply(old(View()), op), fault, err, View())
      // a transaction that finds the database locked goes no further
      ensures Apply(old(View()), op).Ok? && fault.FaultAt? && fault.statement == 0 ==> err == FaultError(fault)
    {
      match op {
        case Insert(id, reference, key, amount, due) => err := CreatePayment(id, reference, key, amount, due, fault);
        case Confirm(id) => err := ConfirmPaymentIntent(id, fault);
        case Mark(id) => var _, e := MarkPaymentSettledIdempotent(id, fault); err := e;
        case Expire(id, amount) => err := ExpireAwaitingTransfer(id, amount, fault);
        case Post(postings) => err := Postings(postings, fault);
        case PayInto(id, amount) => err := ClearPendingEscrowToOperating(id, amount, fault);
        case Refund(id, amount) => err := RefundSettledPayment(id, amount, fault);
      }
    }

    /** Attempts the operation until it commits, fails for good, or is cancelled. The database may fail in
        the middle of any attempt (`faults`), and others may change the tables in any pause (`meanwhile`);
        `cancelled` and `cancelledInPause` say where the context is found cancelled. The first attempt is
        number 1; `pauses` lists the pauses begun. */
    method WithWriteRetry(
      maxAttempts: int, op: Operation,
      faults: nat -> Fault, meanwhile: nat -> Db -> Db, cancelled: nat -> bool, cancelledInPause: nat -> bool)
      returns (outcome: Outcome<DbError>, calls: nat, pauses: seq<int>)
      modifies this
      // at most max(1, maxAttempts) attempts, and another one only after a busy error
      ensures calls <= if maxAttempts < 1 then 1 else maxAttempts
      ensures forall k: nat | 1 <= k < calls ::
                BusyAttempt(Before(old(View()), meanwhile, k), op, faults(k))
      // success: the last attempt has taken effect on the tables as it found them, and no other attempt has
      ensures outcome == Nil ==>
                calls >= 1 && Apply(Before(old(View()), meanwhile, calls), op) == Ok(View())
      // anything else: only what the others did
      ensures outcome.Error? ==>
                && calls >= 1 && View() == Before(old(View()), meanwhile, calls)
                && (Apply(View(), op) == Err(outcome.error)
                    || Option.Some(outcome.error) == FaultError(faults(calls)))
                && (!IsBusy(ErrorText(outcome.error)) || calls == AtLeastOne(maxAttempts))
      ensures outcome == ContextError ==>
                && calls < AtLeastOne(maxAttempts)
                && View() == Before(old(View()), meanwhile, calls + 1)
                && (cancelled(calls + 1) || (calls >= 1 && cancelledInPause(calls)))
      ensures outcome != FellThrough
      // every busy attempt that is not the last is followed by its own pause
      ensures |pauses| == if outcome == ContextError then calls else calls - 1
      // it does go on: the first attempt that finds the database free is made, and is the last
      ensures forall n: nat |
                FreeAt(n, old(View()), op, faults, meanwhile, cancelled, cancelledInPause)
                && n <= AtLeastOne(maxAttempts) ::
                  outcome == Nil && calls == n
      ensures forall k | 0 <= k < |pauses| :: pauses[k] == Backoff(k + 1)
    {
      hide AllOrNothing, Apply, IsBusy, Backoff, ErrorText, FaultError, BusyAttempt, Before, FreeAt, Locked;
      var limit := AtLeastOne(maxAttempts);
      var attempt := 1;
      ghost var start := View();
      calls, pauses, outcome := 0, [], FellThrough;
      BeforeNext(start, meanwhile, 1);
      StillToCome(start, op, faults, meanwhile, cancelled, cancelledInPause, 1);
      while attempt <= limit
        invariant 1 <= attempt <= limit
        invariant calls == attempt - 1 == |pauses|
        invariant View() == Before(start, meanwhile, attempt)
        invariant forall k: nat | 1 <= k <= calls :: BusyAttempt(Before(start, meanwhile, k), op, faults(k))
        invariant forall k | 0 <= k < |pauses| :: pauses[k] == Backoff(k + 1)
        invariant forall n: nat |
                    FreeAt(n, start, op, faults, meanwhile, cancelled, cancelledInPause) && n <= limit :: attempt <= n
      {
        StillToCome(start, op, faults, meanwhile, cancelled, cancelledInPause, attempt);
        if cancelled(attempt) {
          return ContextError, calls, pauses;
        }
        ghost var found := View();
        var err := Attempt(op, faults(attempt));
        calls := calls + 1;
        AttemptEnds(found, op, faults(attempt), err, View());
        LockedAttempt(faults(attempt), err);
        if err == None {
          return Nil, calls, pauses;
        }
        if !IsBusy(ErrorText(err.value)) || attempt == limit {
          return Error(err.value), calls, pauses;
        }
        assert BusyAttempt(Before(start, meanwhile, attempt), op, faults(attempt));
        BeforeNext(start, meanwhile, attempt);
        pauses := pauses + [Backoff(attempt)];
        Rollback(meanwhile(attempt)(View()));
        if cancelledInPause(attempt) {
          return ContextError, calls, pauses;
        }
        attempt := attempt + 1;
      }
      assert false;
    }

    // ----- ordered queries -----

    /** SELECT over the candidates ORDER BY a column ASC LIMIT limit. */
    method OrderByLimit(candidates: set<PaymentId>, c: Column, limit: nat) returns (ids: seq<PaymentId>)
      requires candidates <= payments.Keys
      ensures Selects(payments, candidates, c, limit, ids)
    {
      hide FirstOnes, Elements, On;
      ids := [];
      var rest := candidates;
      NoneYet(payments, candidates, c);
      while |ids| < limit && rest != {}
        invariant |ids| <= limit && rest == candidates - Elements(ids) && |rest| == |candidates| - |ids|
        invariant FirstOnes(payments, candidates, c, ids)
        decreases |rest|
      {
        var least := LeastOn(rest, c);
        FirstOnesGrow(payments, candidates, c, ids, least);
        assert |rest - {least}| == |rest| - 1;
        ids := ids + [least];
        rest := rest - {least};
      }
    }

    method LeastOn(candidates: set<PaymentId>, c: Column) returns (least: PaymentId)
      requires candidates != {} && candidates <= payments.Keys
      ensures least in candidates
      ensures forall id | id in candidates :: On(payments[least], c) <= On(payments[id], c)
    {
      least :| least in candidates;
      var rest := candidates - {least};
      while rest != {}
        invariant rest <= candidates && least in candidates
        invariant forall id | id in candidates - rest :: On(payments[least], c) <= On(payments[id], c)
        decreases rest
      {
        var id :| id in rest;
        if On(payments[id], c) < On(payments[least], c) {
          least := id;
        }
        rest := rest - {id};
      }
    }

    method GetAwaitingTransfers(limit: int) returns (batch: seq<Snap>)
      ensures Selects(payments, AwaitingIds(View()), UpdatedAt, LimitOr(limit, 100), Ids(batch))
      ensures forall i | 0 <= i < |batch| :: batch[i].id in payments && batch[i].row == payments[batch[i].id]
      ensures forall i | 0 <= i < |batch| :: batch[i].row.status == AwaitingTransfer && !batch[i].row.processed
      ensures |batch| <= (if limit <= 0 then 100 else limit)
      ensures |batch| < (if limit <= 0 then 100 else limit) ==>
                forall id | id in payments && payments[id].status == AwaitingTransfer && !payments[id].processed ::
                  id in Ids(batch)
    {
      var found := OrderByLimit(AwaitingIds(View()), UpdatedAt, LimitOr(limit, 100));
      batch := [];
      var i := 0;
      while i < |found|
        invariant 0 <= i <= |found| && |batch| == i
        invariant forall j | 0 <= j < i :: batch[j] == Snap(found[j], payments[found[j]])
      {
        batch := batch + [Snap(found[i], payments[found[i]])];
        i := i + 1;
      }
      assert Ids(batch) == found;
      assert forall j | 0 <= j < |found| :: found[j] in AwaitingIds(View());
      if |found| < LimitOr(limit, 100) {
        ShortSelectionIsAll(payments, AwaitingIds(View()), UpdatedAt, LimitOr(limit, 100), found);
      }
    }

    /** Expires the earliest-due overdue payments and returns their ids, or changes nothing. */
    method ExpireOverduePendingPayments(now: int, limit: int, fault: Fault)
      returns (ids: seq<PaymentId>, err: Option<DbError>)
      modifies this
      ensures err == None ==>
                && Selects(old(payments), OverdueIds(old(View()), now), DueDate, LimitOr(limit, 200), ids)
                && View() == ExpireEach(old(View()), ids)
                && |ids| <= (if limit <= 0 then 200 else limit)
                && (forall id | id in ids ::
                      id in old(payments) && old(payments)[id].status == Pending && old(payments)[id].due < now
                      && id in payments && payments[id].status == Expired)
                && (forall id | id in old(payments)
                                && (old(payments)[id].status != Pending || old(payments)[id].due >= now) ::
                      id in payments && payments[id] == old(payments)[id])
                && (|ids| < (if limit <= 0 then 200 else limit) ==>
                      forall id | id in payments && payments[id].status == Pending :: payments[id].due >= now)
      ensures err.Some? ==> View() == old(View()) && ids == [] && err == FaultError(fault)
    {
      var saved := View();
      if Strikes(fault, 0) || Strikes(fault, 1) {
        return [], FaultError(fault);
      }
      ids := OrderByLimit(OverdueIds(View(), now), DueDate, LimitOr(limit, 200));
      SweepExpiresTheEarliest(saved, now, LimitOr(limit, 200), ids);
      hide Selects, OverdueIds, SweepSelects, ExpireEach;
      err := ExpireRows(ids, fault);
      if err != None {
        ids := [];
        Rollback(saved);
      }
    }

    /** The update loop of the sweep; on an error the rows before it are already expired. */
    method ExpireRows(ids: seq<PaymentId>, fault: Fault) returns (err: Option<DbError>)
      modifies `payments, `writes
      ensures match err
              case None => View() == ExpireEach(old(View()), ids)
              case Some(_) => err == FaultError(fault)
    {
      var i := 0;
      while i < |ids|
        invariant 0 <= i <= |ids|
        invariant ExpireEach(View(), ids[i..]) == ExpireEach(old(View()), ids)
      {
        if Strikes(fault, 2 + i) {
          return FaultError(fault);
        }
        assert ids[i..][0] == ids[i] && ids[i..][1..] == ids[i + 1..];
        var _ := UpdatePaymentStatus(ids[i], Option.Some(Pending), Expired, NoFault);
        i := i + 1;
      }
      return if Strikes(fault, 2 + |ids|) then FaultError(fault) else None;
    }

    // ----- settlements, the outbox and reports -----

    method CreateSettlement(fault: Fault) returns (run: nat, err: Option<DbError>)
      modifies `settlements
      ensures run == |old(settlements)|
      ensures AllOrNothing(old(View()), Ok(Database.CreateSettlement(old(View()))), fault, err, View())
    {
      run := |settlements|;
      if fault.FaultAt? {
        return run, FaultError(fault);
      }
      settlements := settlements + [SettlementRow(0, 0, Running)];
      return run, None;
    }

    method CompleteSettlement(run: nat, amount: int, count: nat, st: RunStatus, fault: Fault)
      returns (err: Option<DbError>)
      modifies `settlements
      ensures AllOrNothing(
                old(View()), Database.CompleteSettlement(old(View()), run, amount, count, st), fault, err, View())
    {
      if fault.FaultAt? {
        return FaultError(fault);
      }
      if amount < 0 {
        return Option.Some(CheckFailed);
      }
      if run >= |settlements| {
        return Option.Some(NoRows);
      }
      settlements := settlements[run := SettlementRow(amount, count, st)];
      return None;
    }

    method EnqueueWebhook(e: Event, fault: Fault) returns (err: Option<DbError>)
      modifies `outbox
      ensures AllOrNothing(old(View()), Ok(Enqueue(old(View()), e)), fault, err, View())
    {
      if fault.FaultAt? {
        return FaultError(fault);
      }
      outbox := outbox + [e];
      return None;
    }

    method LedgerTotals() returns (debit: int, credit: int)
      ensures (debit, credit) == Database.LedgerTotals(View())
    {
      debit, credit := 0, 0;
      var i := 0;
      while i < |entries|
        invariant 0 <= i <= |entries|
        invariant debit == SideTotal(entries[..i], DR) && credit == SideTotal(entries[..i], CR)
      {
        assert entries[..i + 1] == entries[..i] + [entries[i]];
        Appended(entries[..i], entries[i]);
        match entries[i].direction {
          case DR => debit := debit + entries[i].amount;
          case CR => credit := credit + entries[i].amount;
          case OtherDirection(_) =>
        }
        i := i + 1;
      }
      assert entries[..i] == entries;
    }

    /** The integrity check fails exactly on unbalanced books, so never on sound ones. */
    method ValidateIntegrity() returns (ok: bool)
      ensures ok <==> Balanced(entries)
      ensures Sound(View().books) ==> ok
    {
      var debit, credit := LedgerTotals();
      ok := debit == credit;
    }

    method SumAmounts(ids: set<PaymentId>) returns (total: int)
      requires ids <= payments.Keys
      ensures total == Total(payments, ids)
    {
      total := 0;
      var rest := ids;
      while rest != {}
        invariant rest <= ids && total + Total(payments, rest) == Total(payments, ids)
        decreases rest
      {
        var id :| id in rest;
        TotalSplit(payments, rest, id);
        total := total + payments[id].amount;
        rest := rest - {id};
      }
    }

    /** The report's first query: one line for each status that occurs, in the order of the status texts,
        with its count and sum. */
    method StatusLines() returns (lines: seq<Line>)
      ensures lines == ReportLines(View())
    {
      lines := [];
      var i := 0;
      while i < |STATUSES|
        invariant 0 <= i <= |STATUSES|
        invariant lines == LinesFor(View(), STATUSES[..i])
      {
        assert STATUSES[..i + 1] == STATUSES[..i] + [STATUSES[i]];
        var ids := WithStatus(View(), STATUSES[i]);
        if ids != {} {
          var amount := SumAmounts(ids);
          lines := lines + [Line(STATUSES[i], |ids|, amount)];
        }
        i := i + 1;
      }
      assert STATUSES[..i] == STATUSES;
    }
  }
}
