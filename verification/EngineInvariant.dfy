/** What every reachable state of the engine satisfies: which rows each call holds, and that the
    locals and private writes of a call agree with the committed rows it holds. */
module EngineInvariant {
  import opened Uuids
  import opened Records
  import opened AtomicGateway
  import opened Books
  import opened Engine

  function Rank(status: Status): nat {
    match status
    case Pending => 0
    case Authorized => 1
    case Settled => 2
    case Failed => 3
    case Refunded => 4
  }

  /** The rows a call holds locked at each program point (any rows while it unwinds). */
  function Held(call: Call): set<Row> {
    match call.pc
    case CommitCreate(t) => {KeyRow(t.key)}
    case LockSender(t) => {TxnRow(t.id)}
    case MarkAuthorized(t) => {TxnRow(t.id), AccountRow(t.sender)}
    case CommitAuthorize(t) => {TxnRow(t.id), AccountRow(t.sender)}
    case LockFirst(t) => {TxnRow(t.id)}
    case LockSecond(t) => {TxnRow(t.id), AccountRow(FirstLock(t))}
    case DebitSender(t) => SettleRows(t)
    case CreditReceiver(t, _) => SettleRows(t)
    case AppendDebit(t, _, _) => SettleRows(t)
    case AppendCredit(t, _, _) => SettleRows(t)
    case MarkSettled(t, _, _) => SettleRows(t)
    case CommitSettle(t, _, _, _) => SettleRows(t)
    case _ => {}
  }

  function SettleRows(t: Transaction): set<Row> {
    {TxnRow(t.id), AccountRow(t.sender), AccountRow(t.receiver)}
  }

  /** Both parties exist and use the requested currency. */
  predicate Checked(db: Db, req: Request) {
    && req.InitiateReq? && req.sender.Some? && req.receiver.Some?
    && req.sender.value in db.accounts && req.receiver.value in db.accounts
    && db.accounts[req.sender.value].currency == req.currency
    && db.accounts[req.receiver.value].currency == req.currency
  }

  /** The record read under the row lock is still the committed row. */
  predicate Current(db: Db, t: Transaction, status: Status) {
    && t.id in db.txns && db.txns[t.id] == t && t.status == status
    && t.sender in db.accounts && t.receiver in db.accounts
    && t.amount > 0
  }

  predicate Authorizing(db: Db, req: Request, t: Transaction) {
    && req.AuthorizeReq? && req.txn == t.id
    && (req.caller == "" || Text(t.sender) == req.caller)
    && Current(db, t, Pending)
  }

  predicate Settling(db: Db, req: Request, t: Transaction) {
    && req.SettleReq? && req.txn == t.id
    && Credentialed(t, req.caller)
    && Current(db, t, Authorized)
  }

  /** `d` and `c` are the balances after the debit and after the credit. */
  predicate Paid(db: Db, t: Transaction, d: int, c: int)
    requires t.sender in db.accounts && t.receiver in db.accounts
  {
    && d == db.accounts[t.sender].balance - t.amount >= 0
    && c == (if t.sender == t.receiver then d else db.accounts[t.receiver].balance) + t.amount
    && c <= INT64_MAX
  }

  function Debited(db: Db, t: Transaction, d: int): Writes
    requires t.sender in db.accounts
  {
    NO_WRITES.(accounts := map[t.sender := db.accounts[t.sender].(balance := d)])
  }

  function Moved(db: Db, t: Transaction, d: int, c: int, entries: seq<Entry>): Writes
    requires t.sender in db.accounts && t.receiver in db.accounts
  {
    NO_WRITES.(
      accounts := map[t.sender := db.accounts[t.sender].(balance := d)]
                     [t.receiver := db.accounts[t.receiver].(balance := c)],
      entries := entries)
  }

  /** A record handed back to the caller of `req` describes a committed row of the right payment. */
  predicate Reports(db: Db, req: Request, t: Transaction) {
    && t.id in db.txns && SameIdentity(t, db.txns[t.id])
    && Rank(t.status) <= Rank(db.txns[t.id].status)
    && match req
       case InitiateReq(key, _, _, _, _) => t.key == key
       case AuthorizeReq(id, _) => t.id == id && t.status == Authorized
       case SettleReq(id, _) => t.id == id && t.status == Settled
  }

  /** What holds of one call, given the committed tables and its private writes. */
  predicate Local(db: Db, ws: Writes, call: Call) {
    var req := call.req;
    match call.pc
    case ReadSender => req.InitiateReq?
    case ReadReceiver(currency) =>
      && req.InitiateReq? && req.sender.Some? && req.receiver.Some?
      && req.sender.value in db.accounts && db.accounts[req.sender.value].currency == currency
    case BeginInsert => Checked(db, req)
    case InsertTxn => Checked(db, req) && ws == NO_WRITES
    case CommitCreate(t) =>
      && Checked(db, req) && Insertable(req)
      && t == NewTransaction(req, t.id) && t.id !in db.txns && req.key !in db.byKey
      && ws == WithInsert(NO_WRITES, t)
    case FetchExisting => Checked(db, req) && Insertable(req) && req.key in db.byKey && ws == NO_WRITES
    case BeginCall => !req.InitiateReq?
    case LockTxn => !req.InitiateReq? && ws == NO_WRITES
    case LockSender(t) => Authorizing(db, req, t) && ws == NO_WRITES
    case MarkAuthorized(t) =>
      Authorizing(db, req, t) && db.accounts[t.sender].balance >= t.amount && ws == NO_WRITES
    case CommitAuthorize(t) =>
      && Authorizing(db, req, t) && db.accounts[t.sender].balance >= t.amount
      && ws == NO_WRITES.(txns := map[t.id := t.(status := Authorized, providerRef := "")])
    case LockFirst(t) => Settling(db, req, t) && ws == NO_WRITES
    case LockSecond(t) => Settling(db, req, t) && ws == NO_WRITES
    case DebitSender(t) => Settling(db, req, t) && ws == NO_WRITES
    case CreditReceiver(t, d) =>
      && Settling(db, req, t) && d == db.accounts[t.sender].balance - t.amount >= 0
      && ws == Debited(db, t, d)
    case AppendDebit(t, d, c) => Settling(db, req, t) && Paid(db, t, d, c) && ws == Moved(db, t, d, c, [])
    case AppendCredit(t, d, c) =>
      Settling(db, req, t) && Paid(db, t, d, c) && ws == Moved(db, t, d, c, [DebitEntry(t, d)])
    case MarkSettled(t, d, c) =>
      && Settling(db, req, t) && Paid(db, t, d, c)
      && ws == Moved(db, t, d, c, [DebitEntry(t, d), CreditEntry(t, c)])
    case CommitSettle(t, d, c, suffix) =>
      && Settling(db, req, t) && Paid(db, t, d, c)
      && ws == Moved(db, t, d, c, [DebitEntry(t, d), CreditEntry(t, c)]).(
                 txns := map[t.id := t.(status := Settled, providerRef := REF_PREFIX + suffix)])
    case Unwinding(outcome) => outcome.Ok? ==> Reports(db, req, outcome.txn)
    case Finished(outcome) => outcome.Ok? ==> Reports(db, req, outcome.txn)
  }

  lemma LocalFits(db: Db, ws: Writes, call: Call)
    requires Local(db, ws, call)
    ensures Fits(call)
  {
  }

  ghost predicate OwnsExactly(s: State, cid: CallId)
    requires cid in s.calls
  {
    !s.calls[cid].pc.Unwinding? ==>
      forall r :: r in s.locks && s.locks[r] == cid <==> r in Held(s.calls[cid])
  }

  /** In-flight inserts have ids of their own, below the supply. */
  ghost predicate FreshIds(s: State) {
    && (forall id :: id in s.db.txns ==> id < s.nextTxn)
    && (forall c :: c in s.calls && s.calls[c].pc.CommitCreate? ==> s.calls[c].pc.t.id < s.nextTxn)
    && (forall c, d :: c in s.calls && d in s.calls && c != d
          && s.calls[c].pc.CommitCreate? && s.calls[d].pc.CommitCreate?
          ==> s.calls[c].pc.t.id != s.calls[d].pc.t.id)
  }

  ghost predicate GoodCall(s: State, cid: CallId)
    requires cid in s.calls
  {
    && OwnsExactly(s, cid)
    && Local(s.db, WritesOf(s, cid), s.calls[cid])
    && (InTransaction(s.calls[cid].pc) ==> cid in s.open)
    && (cid in s.open ==> InTransaction(s.calls[cid].pc) || s.calls[cid].pc.Unwinding?)
  }

  /** While an insert of a key is uncommitted, the key is not in the index. */
  ghost predicate GoodKeyLocks(s: State) {
    forall k :: KeyRow(k) in s.locks ==> k !in s.db.byKey
  }

  ghost predicate GoodCalls(s: State) {
    && (forall cid :: cid in s.calls ==> GoodCall(s, cid))
    && (forall r :: r in s.locks ==> s.locks[r] in s.calls)
    && (forall cid :: cid in s.open ==> cid in s.calls)
    && FreshIds(s) && GoodKeyLocks(s)
  }

  ghost predicate Inv(s: State) {
    Good(s.db, s.opening) && GoodCalls(s)
  }
}
