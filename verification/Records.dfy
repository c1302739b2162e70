/** The rows the gateway stores (internal/model/models.go, migrations/001_initial.sql) and the
    arithmetic PostgreSQL performs on a BIGINT balance. */
module Records {
  import opened Uuids

  datatype Option<+T> = None | Some(value: T)

  const INT64_MAX: int := 0x7fff_ffff_ffff_ffff
  const INT64_MIN: int := -0x8000_0000_0000_0000
  type int64 = n: int | INT64_MIN <= n <= INT64_MAX

  /** Go's unary minus, which wraps on the least value. */
  function Negate(n: int64): int64 {
    if n == INT64_MIN then INT64_MIN else -n
  }

  /** New transaction ids come from a supply that never repeats. */
  type TxnId = nat

  datatype Status = Pending | Authorized | Settled | Failed | Refunded

  datatype Account = Account(balance: int, currency: string, kind: string, email: string, apiKey: string)

  datatype Transaction = Transaction(
    id: TxnId,
    key: string,
    sender: Uuid,
    receiver: Uuid,
    amount: int64,
    currency: string,
    status: Status,
    providerRef: string)

  datatype EntryType = Debit | Credit

  datatype Entry = Entry(
    txn: TxnId,
    account: Uuid,
    kind: EntryType,
    amount: int,
    currency: string,
    balanceAfter: int)

  /** Committed tables. `byKey` is the UNIQUE index on idempotency_key. */
  datatype Db = Db(
    accounts: map<Uuid, Account>,
    txns: map<TxnId, Transaction>,
    byKey: map<string, TxnId>,
    ledger: seq<Entry>)

  const EMPTY_DB := Db(map[], map[], map[], [])

  /** `balance + delta` in an UPDATE: BIGINT overflow and the CHECK (balance >= 0) both refuse it. */
  function AddBalance(balance: int, delta: int64): Option<int> {
    var sum := balance + delta;
    if 0 <= sum <= INT64_MAX then Some(sum) else None
  }

  /** The columns no statement ever updates. */
  predicate SameIdentity(t: Transaction, u: Transaction) {
    && t.id == u.id && t.key == u.key
    && t.sender == u.sender && t.receiver == u.receiver
    && t.amount == u.amount && t.currency == u.currency
  }

  /** The transition table of TestTransactionStatusTransitions. */
  predicate TransitionAllowed(from: Status, to: Status) {
    match from
    case Pending => to == Authorized || to == Failed
    case Authorized => to == Settled || to == Failed
    case Settled => to == Refunded
    case _ => false
  }

  /** What a caller is told. Errors carry the values the message prints. */
  datatype Error =
    | InvalidSender
    | InvalidReceiver
    | SenderNotFound
    | ReceiverNotFound
    | CurrencyMismatch(senderCurrency: string, receiverCurrency: string)
    | InsertRejected
    | TransactionNotFound
    | NotSender
    | NotParty
    | NotPending(current: Status)
    | NotAuthorized(current: Status)
    | InsufficientFunds(available: int, required: int)
    | DebitFailed
    | InsufficientDuringSettlement
    | CreditFailed
    | DatabaseFailure

  datatype Outcome = Ok(txn: Transaction) | Err(error: Error)

  /** A service call. `sender` and `receiver` are None where uuid.Parse refuses the text. */
  datatype Request =
    | InitiateReq(key: string, sender: Option<Uuid>, receiver: Option<Uuid>, amount: int64, currency: string)
    | AuthorizeReq(txn: TxnId, caller: string)
    | SettleReq(txn: TxnId, caller: string)
}
