/** What each service call answers and does, in terms of the request and the tables alone: when it
    succeeds, with which error it fails otherwise, and every row it changes. */
module Verdicts {
  import opened Uuids
  import opened Records
  import opened AtomicGateway
  import opened Books

  /** Initiating succeeds exactly for existing parties of the requested currency, a positive amount
      and a key that fits its column; otherwise nothing changes and the first check that fails is
      reported. */
  lemma InitiateSucceedsIff(db: Db, opening: map<Uuid, int>, req: Request, newId: TxnId)
    requires Good(db, opening) && req.InitiateReq?
    ensures var (db', outcome) := InitiateNow(db, req, newId);
      && (outcome.Ok? <==>
            && req.sender.Some? && req.receiver.Some?
            && req.sender.value in db.accounts && req.receiver.value in db.accounts
            && db.accounts[req.sender.value].currency == req.currency
            && db.accounts[req.receiver.value].currency == req.currency
            && req.amount > 0 && |req.key| <= 255)
      && (outcome.Err? ==>
            && db' == db
            && outcome.error == if req.sender == None then InvalidSender
               else if req.receiver == None then InvalidReceiver
               else if req.sender.value !in db.accounts then SenderNotFound
               else if req.receiver.value !in db.accounts then ReceiverNotFound
               else if db.accounts[req.sender.value].currency == req.currency
                       && db.accounts[req.receiver.value].currency == req.currency then InsertRejected
               else CurrencyMismatch(db.accounts[req.sender.value].currency, db.accounts[req.receiver.value].currency))
  {
    hide GoodLedger, GoodReplay, Conserved, GoodAccounts, GoodTxns;
  }

  /** A successful initiate call answers with the stored payment of its key, if there is one, and
      then changes nothing; or else it stores a pending payment with the columns of the request. */
  lemma InitiateAnswers(db: Db, opening: map<Uuid, int>, req: Request, newId: TxnId)
    requires Good(db, opening) && req.InitiateReq? && InitiateNow(db, req, newId).1.Ok?
    ensures var (db', outcome) := InitiateNow(db, req, newId);
      && (forall id :: id in db.txns && db.txns[id].key == req.key ==> db' == db && outcome.txn == db.txns[id])
      && ((forall id :: id in db.txns ==> db.txns[id].key != req.key) ==>
            && req.sender.Some? && req.receiver.Some?
            && outcome.txn == Transaction(newId, req.key, req.sender.value, req.receiver.value,
                                          req.amount, req.currency, Pending, "")
            && db'.txns == db.txns[newId := outcome.txn]
            && db'.accounts == db.accounts && db'.ledger == db.ledger)
  {
    hide GoodLedger, GoodReplay, Conserved, GoodAccounts, GoodTxns;
  }

  /** Authorizing a stored payment succeeds exactly if the caller is its sender or the service itself,
      it is pending and the sender has the funds; it then changes the status and nothing else.
      Otherwise nothing changes and the first check that fails is reported. */
  lemma AuthorizeSucceedsIff(db: Db, opening: map<Uuid, int>, id: TxnId, caller: string)
    requires Good(db, opening) && id in db.txns
    ensures db.txns[id].sender in db.accounts
    ensures var t := db.txns[id]; var balance := db.accounts[t.sender].balance;
      var (db', outcome) := AuthorizeNow(db, id, caller);
      && (outcome.Ok? <==> (caller == "" || caller == Text(t.sender)) && t.status == Pending && balance >= t.amount)
      && (outcome.Ok? ==>
            && outcome.txn == t.(status := Authorized)
            && db'.txns == db.txns[id := outcome.txn]
            && db'.accounts == db.accounts && db'.byKey == db.byKey && db'.ledger == db.ledger)
      && (outcome.Err? ==>
            && db' == db
            && outcome.error == if caller != "" && caller != Text(t.sender) then NotSender
               else if t.status != Pending then NotPending(t.status)
               else InsufficientFunds(balance, t.amount))
  {
    hide GoodLedger, GoodReplay, Conserved, GoodAccounts, GoodIndex, Text;
    assert GoodTxn(db, id);
  }

  /** Settling a stored payment succeeds exactly if the caller is a party or the service itself, the
      payment is authorized, the sender has the funds and the receiver's balance stays within BIGINT.
      Otherwise nothing changes, so a payment refused for lack of funds stays authorized, and the
      first check that fails is reported. */
  lemma SettleSucceedsIff(db: Db, opening: map<Uuid, int>, id: TxnId, caller: string, suffix: string)
    requires Good(db, opening) && id in db.txns
    ensures db.txns[id].sender in db.accounts && db.txns[id].receiver in db.accounts
    ensures var t := db.txns[id]; var (db', outcome) := SettleNow(db, id, caller, suffix);
      && (outcome.Ok? <==>
            && (caller == "" || caller == Text(t.sender) || caller == Text(t.receiver))
            && t.status == Authorized
            && db.accounts[t.sender].balance >= t.amount
            && (t.sender != t.receiver ==> db.accounts[t.receiver].balance + t.amount <= 0x7fff_ffff_ffff_ffff))
      && (outcome.Err? ==>
            && db' == db
            && outcome.error == if caller != "" && caller != Text(t.sender) && caller != Text(t.receiver) then NotParty
               else if t.status != Authorized then NotAuthorized(t.status)
               else if db.accounts[t.sender].balance < t.amount then DebitFailed
               else CreditFailed)
  {
    hide GoodLedger, GoodReplay, Conserved, GoodIndex, Text;
    assert GoodTxn(db, id);
    assert Negate(db.txns[id].amount) == -db.txns[id].amount;
  }

  /** What a successful settlement does: the amount leaves the sender and reaches the receiver, which
      may be one account; a debit and a credit entry record it with the balances after each; the
      payment is settled under a simulated provider reference; nothing else changes. */
  lemma SettleMovesMoney(db: Db, opening: map<Uuid, int>, id: TxnId, caller: string, suffix: string)
    requires Good(db, opening) && id in db.txns && SettleNow(db, id, caller, suffix).1.Ok?
    ensures db.txns[id].sender in db.accounts && db.txns[id].receiver in db.accounts
    ensures var t := db.txns[id]; var (db', outcome) := SettleNow(db, id, caller, suffix);
      && outcome.txn == t.(status := Settled, providerRef := "SIM-" + suffix)
      && db'.txns == db.txns[id := outcome.txn] && db'.byKey == db.byKey
      && db'.accounts.Keys == db.accounts.Keys
      && (forall a :: a in db.accounts ==>
            db'.accounts[a] == db.accounts[a].(balance := db.accounts[a].balance
              - (if a == t.sender then t.amount else 0) + (if a == t.receiver then t.amount else 0)))
      && db'.ledger == db.ledger
         + [Entry(id, t.sender, Debit, t.amount, t.currency, db.accounts[t.sender].balance - t.amount)]
         + [Entry(id, t.receiver, Credit, t.amount, t.currency, db'.accounts[t.receiver].balance)]
  {
    hide GoodLedger, GoodReplay, Conserved, GoodIndex, Text;
    assert GoodTxn(db, id);
    var d, c := SettleTransfers(db, id, caller, suffix);
  }

  /** A call for a payment that is not stored reports that and changes nothing. */
  lemma UnknownPayment(db: Db, id: TxnId, caller: string, suffix: string)
    requires id !in db.txns
    ensures AuthorizeNow(db, id, caller) == (db, Err(TransactionNotFound))
    ensures SettleNow(db, id, caller, suffix) == (db, Err(TransactionNotFound))
  {
  }
}
