/** The entities of the payment service: the rows of its tables and the values its code passes around. */
module Types {

  datatype Option<+T> = None | Some(value: T)

  /** The outcome of a statement or a transaction; an error leaves the database as it was. */
  datatype Result<+T> = Ok(value: T) | Err(error: DbError)

  datatype DbError =
    | NoRows               // no row matched the statement
    | CheckFailed          // a CHECK constraint refused the row
    | UniqueViolation      // a UNIQUE index refused the row
    | DuplicateKey         // the one on idempotency keys did
    | Rejected(why: string) // refused by the program before any statement ran
    | Faulted(text: string) // the database failed, with this message

  /** Where the database fails during a transaction: before the statement with this number, 0 being BEGIN
      and the number after the last statement COMMIT. */
  datatype Fault = NoFault | FaultAt(statement: nat, text: string)

  datatype PaymentId = PaymentId(text: string)

  datatype Wallet = Operating | Escrow | Fee

  datatype WalletRow = WalletRow(balance: int, pending: int)

  /** The program passes directions as text, so an unknown one can reach the posting code. */
  datatype Direction = DR | CR | OtherDirection(text: string)

  datatype Kind = PaymentIn | PaymentOut | FeeCharge | SettlementOut | Reversal | Simulation

  /** A ledger reference: a payment id, or "settlement:" followed by the number of a settlement run. */
  datatype Ref = OfPayment(id: PaymentId) | OfSettlement(run: nat)

  /** A posting, and the ledger row that it becomes. */
  datatype Entry = Entry(wallet: Wallet, direction: Direction, amount: int, kind: Kind, ref: Ref)

  datatype Status = Pending | AwaitingTransfer | Settled | Failed | Cancelled | Expired

  /** A payment_requests row. `stamp` is updated_at as a strictly increasing write number, `processed`
      says that processed_at is set, and `trail` is the list of statuses the row has had so far; the
      program does not store the trail. */
  datatype Payment = Payment(
    reference: string,
    key: Option<string>,
    amount: int,
    due: int,
    status: Status,
    retry: nat,
    processed: bool,
    stamp: nat,
    trail: seq<Status>)

  datatype RunStatus = Running | Success | RunFailed

  datatype SettlementRow = SettlementRow(amount: int, entries: nat, status: RunStatus)

  /** The webhook events, as the outbox records them. */
  datatype Event =
    | PaymentCreated(id: PaymentId)
    | PaymentConfirmed(id: PaymentId)
    | PaymentSettled(id: PaymentId)
    | PaymentExpired(id: PaymentId)
    | PaymentRefunded(id: PaymentId)
    | PaymentFailed(id: PaymentId, retry: nat)
    | SettlementCompleted(run: nat)
}
