/** The gateway as it should look to its callers: every call is one indivisible step on the
    committed tables. The engine, where calls interleave statement by statement, is proved to
    refine this machine. */
module AtomicGateway {
  import opened Uuids
  import opened Records

  const REF_PREFIX := "SIM-"
  const VARCHAR_LIMIT: nat := 255

  /** The constraints an inserted row must meet whatever the table holds. */
  predicate Insertable(req: Request)
    requires req.InitiateReq?
  {
    req.amount > 0 && |req.key| <= VARCHAR_LIMIT
  }

  function NewTransaction(req: Request, id: TxnId): Transaction
    requires req.InitiateReq? && req.sender.Some? && req.receiver.Some?
  {
    Transaction(id, req.key, req.sender.value, req.receiver.value, req.amount, req.currency, Pending, "")
  }

  function InitiateNow(db: Db, req: Request, newId: TxnId): (Db, Outcome)
    requires req.InitiateReq?
  {
    if req.sender.None? then (db, Err(InvalidSender))
    else if req.receiver.None? then (db, Err(InvalidReceiver))
    else if req.sender.value !in db.accounts then (db, Err(SenderNotFound))
    else if req.receiver.value !in db.accounts then (db, Err(ReceiverNotFound))
    else
      var sc, rc := db.accounts[req.sender.value].currency, db.accounts[req.receiver.value].currency;
      if sc != req.currency || rc != req.currency then (db, Err(CurrencyMismatch(sc, rc)))
      else if !Insertable(req) then (db, Err(InsertRejected))
      else if req.key in db.byKey then
        var id := db.byKey[req.key];
        (db, if id in db.txns then Ok(db.txns[id]) else Err(TransactionNotFound))
      else
        var t := NewTransaction(req, newId);
        (db.(txns := db.txns[newId := t], byKey := db.byKey[req.key := newId]), Ok(t))
  }

  function AuthorizeNow(db: Db, id: TxnId, caller: string): (Db, Outcome) {
    if id !in db.txns then (db, Err(TransactionNotFound))
    else
      var t := db.txns[id];
      if caller != "" && Text(t.sender) != caller then (db, Err(NotSender))
      else if t.status != Pending then (db, Err(NotPending(t.status)))
      else if t.sender !in db.accounts then (db, Err(SenderNotFound))
      else if db.accounts[t.sender].balance < t.amount then
        (db, Err(InsufficientFunds(db.accounts[t.sender].balance, t.amount)))
      else
        (db.(txns := db.txns[id := t.(status := Authorized, providerRef := "")]),
         Ok(t.(status := Authorized)))
  }

  function DebitEntry(t: Transaction, balanceAfter: int): Entry {
    Entry(t.id, t.sender, Debit, t.amount, t.currency, balanceAfter)
  }

  function CreditEntry(t: Transaction, balanceAfter: int): Entry {
    Entry(t.id, t.receiver, Credit, t.amount, t.currency, balanceAfter)
  }

  predicate Credentialed(t: Transaction, caller: string) {
    caller == "" || Text(t.sender) == caller || Text(t.receiver) == caller
  }

  function SettleNow(db: Db, id: TxnId, caller: string, suffix: string): (Db, Outcome) {
    if id !in db.txns then (db, Err(TransactionNotFound))
    else
      var t := db.txns[id];
      if !Credentialed(t, caller) then (db, Err(NotParty))
      else if t.status != Authorized then (db, Err(NotAuthorized(t.status)))
      else if t.sender !in db.accounts then (db, Err(SenderNotFound))
      else if t.receiver !in db.accounts then (db, Err(ReceiverNotFound))
      else
        var debited := AddBalance(db.accounts[t.sender].balance, Negate(t.amount));
        if debited.None? then (db, Err(DebitFailed))
        else
          var accounts := db.accounts[t.sender := db.accounts[t.sender].(balance := debited.value)];
          var credited := AddBalance(accounts[t.receiver].balance, t.amount);
          if credited.None? then (db, Err(CreditFailed))
          else
            var t' := t.(status := Settled, providerRef := REF_PREFIX + suffix);
            (Db(accounts[t.receiver := accounts[t.receiver].(balance := credited.value)],
                db.txns[id := t'],
                db.byKey,
                db.ledger + [DebitEntry(t, debited.value), CreditEntry(t, credited.value)]),
             Ok(t'))
  }

  /** One whole service call; `newId` and `suffix` are the random choices it may draw. */
  function CallNow(db: Db, req: Request, newId: TxnId, suffix: string): (Db, Outcome) {
    match req
    case InitiateReq(_, _, _, _, _) => InitiateNow(db, req, newId)
    case AuthorizeReq(id, caller) => AuthorizeNow(db, id, caller)
    case SettleReq(id, caller) => SettleNow(db, id, caller, suffix)
  }

  /** A currency as its CHAR(3) column keeps it. */
  function Padded(currency: string): (padded: string)
    requires |currency| <= 3
    ensures |padded| == 3 && padded[..|currency|] == currency
    ensures forall i :: |currency| <= i < 3 ==> padded[i] == ' '
  {
    currency + "   "[|currency|..]
  }

  /** The constraints an account row must meet whatever the table holds. */
  predicate Admissible(row: Account) {
    && 0 <= row.balance <= INT64_MAX && |row.currency| == 3
    && (row.kind == "user" || row.kind == "merchant")
    && |row.email| <= VARCHAR_LIMIT && |row.apiKey| <= VARCHAR_LIMIT
  }

  /** The UNIQUE constraints of the accounts table. */
  predicate Unclaimed(accounts: map<Uuid, Account>, email: string, apiKey: string) {
    forall a :: a in accounts ==> accounts[a].email != email && accounts[a].apiKey != apiKey
  }

  /** Whether CreateAccount may insert the row. */
  predicate CanOpen(db: Db, id: Uuid, row: Account) {
    id !in db.accounts && Admissible(row) && Unclaimed(db.accounts, row.email, row.apiKey)
  }

  function OpenNow(db: Db, id: Uuid, row: Account): Db {
    db.(accounts := db.accounts[id := row])
  }
}
