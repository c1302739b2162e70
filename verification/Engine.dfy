/** The gateway as it runs: any number of service calls interleave statement by statement over
    PostgreSQL at READ COMMITTED. A statement that locks a row waits until no other open database
    transaction holds it and then sees the latest committed row; writes stay private until COMMIT;
    locks last until COMMIT or ROLLBACK. */
module Engine {
  import opened Uuids
  import opened Records
  import opened AtomicGateway

  type CallId = nat

  /** What a database transaction can lock. `KeyRow` is the entry of the unique index that an
      uncommitted insert occupies: a second insert of the key waits for the first to end. */
  datatype Row = TxnRow(txn: TxnId) | AccountRow(account: Uuid) | KeyRow(key: string)

  /** The private, uncommitted writes of one database transaction. */
  datatype Writes = Writes(
    accounts: map<Uuid, Account>,
    txns: map<TxnId, Transaction>,
    keys: map<string, TxnId>,
    entries: seq<Entry>)

  const NO_WRITES := Writes(map[], map[], map[], [])

  /** Where a call stands: the next statement, with the Go locals it will use. */
  datatype PC =
    // InitiatePayment
    | ReadSender
    | ReadReceiver(senderCurrency: string)
    | BeginInsert
    | InsertTxn
    | CommitCreate(t: Transaction)
    | FetchExisting
    // AuthorizePayment and SettlePayment
    | BeginCall
    | LockTxn
    // AuthorizePayment
    | LockSender(t: Transaction)
    | MarkAuthorized(t: Transaction)
    | CommitAuthorize(t: Transaction)
    // SettlePayment
    | LockFirst(t: Transaction)
    | LockSecond(t: Transaction)
    | DebitSender(t: Transaction)
    | CreditReceiver(t: Transaction, senderBalance: int)
    | AppendDebit(t: Transaction, senderBalance: int, receiverBalance: int)
    | AppendCredit(t: Transaction, senderBalance: int, receiverBalance: int)
    | MarkSettled(t: Transaction, senderBalance: int, receiverBalance: int)
    | CommitSettle(t: Transaction, senderBalance: int, receiverBalance: int, suffix: string)
    // the result is decided; the deferred Rollback is still to run
    | Unwinding(outcome: Outcome)
    | Finished(outcome: Outcome)

  datatype Call = Call(req: Request, pc: PC)

  /** `opening` records every account's opening balance; it is history, not a table. */
  datatype State = State(
    db: Db,
    opening: map<Uuid, int>,
    locks: map<Row, CallId>,
    open: map<CallId, Writes>,
    calls: map<CallId, Call>,
    nextTxn: TxnId)

  const INITIAL := State(EMPTY_DB, map[], map[], map[], map[], 0)

  // ---- Statements, as a database transaction with writes `ws` sees the tables ----

  function SeenAccount(db: Db, ws: Writes, id: Uuid): Option<Account> {
    if id in ws.accounts then Some(ws.accounts[id])
    else if id in db.accounts then Some(db.accounts[id])
    else None
  }

  function SeenTxn(db: Db, ws: Writes, id: TxnId): Option<Transaction> {
    if id in ws.txns then Some(ws.txns[id])
    else if id in db.txns then Some(db.txns[id])
    else None
  }

  /** UPDATE accounts SET balance = balance + delta: the new balance, or None if it is refused. */
  function NewBalance(db: Db, ws: Writes, id: Uuid, delta: int64): Option<int> {
    var row := SeenAccount(db, ws, id);
    if row.None? then None else AddBalance(row.value.balance, delta)
  }

  function WithBalance(db: Db, ws: Writes, id: Uuid, balance: int): Writes
    requires SeenAccount(db, ws, id).Some?
  {
    ws.(accounts := ws.accounts[id := SeenAccount(db, ws, id).value.(balance := balance)])
  }

  /** UPDATE transactions SET status, provider_ref: it has no guard on the status it replaces. */
  function WithStatus(db: Db, ws: Writes, id: TxnId, status: Status, ref: string): Writes {
    var row := SeenTxn(db, ws, id);
    if row.None? then ws
    else ws.(txns := ws.txns[id := row.value.(status := status, providerRef := ref)])
  }

  function WithEntry(ws: Writes, e: Entry): Writes {
    ws.(entries := ws.entries + [e])
  }

  function WithInsert(ws: Writes, t: Transaction): Writes {
    ws.(txns := ws.txns[t.id := t], keys := ws.keys[t.key := t.id])
  }

  function Merge(db: Db, ws: Writes): Db {
    Db(db.accounts + ws.accounts, db.txns + ws.txns, db.byKey + ws.keys, db.ledger + ws.entries)
  }

  // ---- Calls ----

  function FirstLock(t: Transaction): Uuid {
    if TextLess(t.sender, t.receiver) then t.sender else t.receiver
  }

  function SecondLock(t: Transaction): Uuid {
    if TextLess(t.sender, t.receiver) then t.receiver else t.sender
  }

  /** The error of a missing account row names the party whose row was asked for. */
  function MissingAccount(t: Transaction, first: bool): Error {
    if TextLess(t.sender, t.receiver) == first then SenderNotFound else ReceiverNotFound
  }

  predicate Fits(call: Call) {
    match call.pc
    case ReadSender => call.req.InitiateReq?
    case ReadReceiver(_) => call.req.InitiateReq? && call.req.sender.Some? && call.req.receiver.Some?
    case BeginInsert => call.req.InitiateReq? && call.req.sender.Some? && call.req.receiver.Some?
    case InsertTxn => call.req.InitiateReq? && call.req.sender.Some? && call.req.receiver.Some?
    case FetchExisting => call.req.InitiateReq?
    case LockTxn => !call.req.InitiateReq?
    case _ => true
  }

  predicate IsCommit(pc: PC) {
    pc.CommitCreate? || pc.CommitAuthorize? || pc.CommitSettle?
  }

  /** The record handed back after COMMIT: the one read under lock, patched in memory. */
  function Returned(pc: PC): Transaction
    requires IsCommit(pc)
  {
    match pc
    case CommitCreate(t) => t
    case CommitAuthorize(t) => t.(status := Authorized)
    case CommitSettle(t, _, _, suffix) => t.(status := Settled, providerRef := REF_PREFIX + suffix)
  }

  /** The program points between BEGIN and the decision. */
  predicate InTransaction(pc: PC) {
    !(pc.ReadSender? || pc.ReadReceiver? || pc.BeginInsert? || pc.BeginCall? || pc.Unwinding? || pc.Finished?)
  }

  /** The row the next statement locks, if it finds one. */
  function LockTarget(db: Db, ws: Writes, call: Call): Option<Row>
    requires Fits(call)
  {
    match call.pc
    case InsertTxn =>
      if Insertable(call.req) && call.req.key !in db.byKey then Some(KeyRow(call.req.key)) else None
    case FetchExisting =>
      if call.req.key in db.byKey then Some(TxnRow(db.byKey[call.req.key])) else None
    case LockTxn => TxnTarget(db, ws, call.req.txn)
    case LockSender(t) => AccountTarget(db, ws, t.sender)
    case MarkAuthorized(t) => TxnTarget(db, ws, t.id)
    case LockFirst(t) => AccountTarget(db, ws, FirstLock(t))
    case LockSecond(t) => AccountTarget(db, ws, SecondLock(t))
    case DebitSender(t) => AccountTarget(db, ws, t.sender)
    case CreditReceiver(t, _) => AccountTarget(db, ws, t.receiver)
    case MarkSettled(t, _, _) => TxnTarget(db, ws, t.id)
    case _ => None
  }

  function TxnTarget(db: Db, ws: Writes, id: TxnId): Option<Row> {
    if SeenTxn(db, ws, id).Some? then Some(TxnRow(id)) else None
  }

  function AccountTarget(db: Db, ws: Writes, id: Uuid): Option<Row> {
    if SeenAccount(db, ws, id).Some? then Some(AccountRow(id)) else None
  }

  /** One statement of a call together with the Go code up to the next statement. */
  function Exec(db: Db, ws: Writes, call: Call, newId: TxnId, suffix: string): (PC, Writes)
    requires Fits(call) && !IsCommit(call.pc) && !call.pc.Unwinding? && !call.pc.Finished?
  {
    var req := call.req;
    match call.pc
    case ReadSender =>
      (if req.sender.None? then Unwinding(Err(InvalidSender))
       else if req.receiver.None? then Unwinding(Err(InvalidReceiver))
       else if req.sender.value !in db.accounts then Unwinding(Err(SenderNotFound))
       else ReadReceiver(db.accounts[req.sender.value].currency), ws)
    case ReadReceiver(senderCurrency) =>
      (if req.receiver.value !in db.accounts then Unwinding(Err(ReceiverNotFound))
       else
         var receiverCurrency := db.accounts[req.receiver.value].currency;
         if senderCurrency != req.currency || receiverCurrency != req.currency
         then Unwinding(Err(CurrencyMismatch(senderCurrency, receiverCurrency)))
         else BeginInsert, ws)
    case BeginInsert => (InsertTxn, NO_WRITES)
    case InsertTxn =>
      if !Insertable(req) then (Unwinding(Err(InsertRejected)), ws)
      else if req.key in db.byKey then (FetchExisting, ws)
      else
        var t := NewTransaction(req, newId);
        (CommitCreate(t), WithInsert(ws, t))
    case FetchExisting =>
      (if req.key !in db.byKey || db.byKey[req.key] !in db.txns then Unwinding(Err(TransactionNotFound))
       else Unwinding(Ok(db.txns[db.byKey[req.key]])), ws)
    case BeginCall => (LockTxn, NO_WRITES)
    case LockTxn =>
      var row := SeenTxn(db, ws, req.txn);
      (if row.None? then Unwinding(Err(TransactionNotFound))
       else if req.AuthorizeReq? then
         if req.caller != "" && Text(row.value.sender) != req.caller then Unwinding(Err(NotSender))
         else if row.value.status != Pending then Unwinding(Err(NotPending(row.value.status)))
         else LockSender(row.value)
       else
         if req.caller != "" && Text(row.value.sender) != req.caller && Text(row.value.receiver) != req.caller
         then Unwinding(Err(NotParty))
         else if row.value.status != Authorized then Unwinding(Err(NotAuthorized(row.value.status)))
         else LockFirst(row.value), ws)
    case LockSender(t) =>
      var row := SeenAccount(db, ws, t.sender);
      (if row.None? then Unwinding(Err(SenderNotFound))
       else if row.value.balance < t.amount then Unwinding(Err(InsufficientFunds(row.value.balance, t.amount)))
       else MarkAuthorized(t), ws)
    case MarkAuthorized(t) => (CommitAuthorize(t), WithStatus(db, ws, t.id, Authorized, ""))
    case LockFirst(t) =>
      (if SeenAccount(db, ws, FirstLock(t)).None? then Unwinding(Err(MissingAccount(t, true)))
       else LockSecond(t), ws)
    case LockSecond(t) =>
      (if SeenAccount(db, ws, SecondLock(t)).None? then Unwinding(Err(MissingAccount(t, false)))
       else DebitSender(t), ws)
    case DebitSender(t) =>
      var debited := NewBalance(db, ws, t.sender, Negate(t.amount));
      if debited.None? then (Unwinding(Err(DebitFailed)), ws)
      else if debited.value < 0 then (Unwinding(Err(InsufficientDuringSettlement)), ws)  // never: the CHECK refused it
      else (CreditReceiver(t, debited.value), WithBalance(db, ws, t.sender, debited.value))
    case CreditReceiver(t, senderBalance) =>
      var credited := NewBalance(db, ws, t.receiver, t.amount);
      if credited.None? then (Unwinding(Err(CreditFailed)), ws)
      else (AppendDebit(t, senderBalance, credited.value), WithBalance(db, ws, t.receiver, credited.value))
    case AppendDebit(t, senderBalance, receiverBalance) =>
      (AppendCredit(t, senderBalance, receiverBalance), WithEntry(ws, DebitEntry(t, senderBalance)))
    case AppendCredit(t, senderBalance, receiverBalance) =>
      (MarkSettled(t, senderBalance, receiverBalance), WithEntry(ws, CreditEntry(t, receiverBalance)))
    case MarkSettled(t, senderBalance, receiverBalance) =>
      (CommitSettle(t, senderBalance, receiverBalance, suffix),
       WithStatus(db, ws, t.id, Settled, REF_PREFIX + suffix))
  }

  // ---- Steps of the whole system ----

  function WritesOf(s: State, cid: CallId): Writes {
    if cid in s.open then s.open[cid] else NO_WRITES
  }

  function Target(s: State, cid: CallId): Option<Row>
    requires cid in s.calls && Fits(s.calls[cid])
  {
    LockTarget(s.db, WritesOf(s, cid), s.calls[cid])
  }

  /** The next statement of `cid` can run now: the row it locks, if any, is free or its own. */
  predicate Enabled(s: State, cid: CallId) {
    && cid in s.calls && Fits(s.calls[cid]) && !s.calls[cid].pc.Finished?
    && var row := Target(s, cid);
    && (row.Some? && row.value in s.locks ==> s.locks[row.value] == cid)
  }

  function Acquire(locks: map<Row, CallId>, row: Option<Row>, cid: CallId): map<Row, CallId> {
    if row.Some? then locks[row.value := cid] else locks
  }

  function Release(locks: map<Row, CallId>, cid: CallId): map<Row, CallId> {
    map r | r in locks && locks[r] != cid :: locks[r]
  }

  /** COMMIT and ROLLBACK end the database transaction: its locks and private writes are gone. */
  function End(s: State, cid: CallId, db: Db, outcome: Outcome): State
    requires cid in s.calls
  {
    s.(db := db, locks := Release(s.locks, cid), open := s.open - {cid},
       calls := s.calls[cid := Call(s.calls[cid].req, Finished(outcome))])
  }

  function AdvanceCall(s: State, cid: CallId, suffix: string): State
    requires Enabled(s, cid)
  {
    var call := s.calls[cid];
    if IsCommit(call.pc) then End(s, cid, Merge(s.db, WritesOf(s, cid)), Ok(Returned(call.pc)))
    else if call.pc.Unwinding? then End(s, cid, s.db, call.pc.outcome)
    else
      var (pc, ws) := Exec(s.db, WritesOf(s, cid), call, s.nextTxn, suffix);
      s.(locks := Acquire(s.locks, Target(s, cid), cid),
         open := if InTransaction(pc) || cid in s.open then s.open[cid := ws] else s.open,
         calls := s.calls[cid := Call(call.req, pc)],
         nextTxn := if call.pc.InsertTxn? then s.nextTxn + 1 else s.nextTxn)
  }

  datatype Step =
    | Open(id: Uuid, row: Account)      // CreateAccount
    | Start(cid: CallId, req: Request)  // a request arrives
    | Advance(cid: CallId, suffix: string)  // one call runs its next statement
    | Fail(cid: CallId)                 // a statement, or COMMIT itself, fails

  predicate CanStep(s: State, step: Step) {
    match step
    case Open(id, row) => CanOpen(s.db, id, row)
    case Start(cid, _) => cid !in s.calls
    case Advance(cid, _) => Enabled(s, cid)
    case Fail(cid) => cid in s.calls && !s.calls[cid].pc.Unwinding? && !s.calls[cid].pc.Finished?
  }

  function Apply(s: State, step: Step): State
    requires CanStep(s, step)
  {
    match step
    case Open(id, row) =>
      s.(db := OpenNow(s.db, id, row), opening := s.opening[id := row.balance])
    case Start(cid, req) =>
      s.(calls := s.calls[cid := Call(req, if req.InitiateReq? then ReadSender else BeginCall)])
    case Advance(cid, suffix) => AdvanceCall(s, cid, suffix)
    case Fail(cid) =>
      s.(calls := s.calls[cid := Call(s.calls[cid].req, Unwinding(Err(DatabaseFailure)))])
  }

  /** `tr` is the sequence of states a run of the whole system passes through. */
  ghost predicate IsRun(tr: seq<State>, steps: seq<Step>) {
    && |tr| == |steps| + 1
    && tr[0] == INITIAL
    && forall i :: 0 <= i < |steps| ==> CanStep(tr[i], steps[i]) && tr[i + 1] == Apply(tr[i], steps[i])
  }

  lemma RunExtends(tr: seq<State>, steps: seq<Step>, step: Step)
    requires IsRun(tr, steps) && CanStep(tr[|tr| - 1], step)
    ensures IsRun(tr + [Apply(tr[|tr| - 1], step)], steps + [step])
  {
    hide CanStep, Apply;
    var tr', steps' := tr + [Apply(tr[|tr| - 1], step)], steps + [step];
    forall i | 0 <= i < |steps'|
      ensures CanStep(tr'[i], steps'[i]) && tr'[i + 1] == Apply(tr'[i], steps'[i])
    {
      if i < |steps| {
        assert CanStep(tr[i], steps[i]);
      }
    }
  }
}
