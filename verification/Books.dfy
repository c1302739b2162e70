/** What the committed tables always satisfy, and that every atomic step keeps it:
    row constraints, double entry, ledger replay, conservation of each currency. */
module Books {
  import opened Uuids
  import opened Records
  import opened AtomicGateway
  import opened Sums

  /** The effect of an entry on the balance of `a`. */
  function Effect(e: Entry, a: Uuid): int {
    if e.account != a then 0 else if e.kind == Debit then -e.amount else e.amount
  }

  /** Folds the entries of account `a`, in append order, over its opening balance. */
  function Running(ledger: seq<Entry>, a: Uuid, opening: int): int {
    if ledger == [] then opening
    else Running(ledger[..|ledger| - 1], a, opening) + Effect(ledger[|ledger| - 1], a)
  }

  /** Every entry's balanceAfter is what the replay up to and including it gives. */
  predicate Replays(ledger: seq<Entry>, opening: map<Uuid, int>) {
    ledger == [] ||
    var last := ledger[|ledger| - 1];
    && Replays(ledger[..|ledger| - 1], opening)
    && last.account in opening
    && last.balanceAfter == Running(ledger, last.account, opening[last.account])
    && last.balanceAfter >= 0
    && last.amount > 0
  }

  function EntriesOf(ledger: seq<Entry>, id: TxnId): seq<Entry> {
    if ledger == [] then []
    else
      var last := ledger[|ledger| - 1];
      EntriesOf(ledger[..|ledger| - 1], id) + if last.txn == id then [last] else []
  }

  function EntryTotal(ledger: seq<Entry>, kind: EntryType): int {
    if ledger == [] then 0
    else
      var last := ledger[|ledger| - 1];
      EntryTotal(ledger[..|ledger| - 1], kind) + if last.kind == kind then last.amount else 0
  }

  function SettledAmounts(txns: map<TxnId, Transaction>): map<int, int> {
    map id | id in txns && txns[id].status == Settled :: txns[id].amount
  }

  function BalancesIn(accounts: map<Uuid, Account>, currency: string): map<int, int> {
    map a | a in accounts && accounts[a].currency == currency :: accounts[a].balance
  }

  function OpeningsIn(accounts: map<Uuid, Account>, opening: map<Uuid, int>, currency: string): map<int, int> {
    map a | a in accounts && a in opening && accounts[a].currency == currency :: opening[a]
  }

  predicate GoodAccounts(db: Db) {
    forall a :: a in db.accounts ==> 0 <= db.accounts[a].balance <= INT64_MAX
  }

  predicate GoodTxn(db: Db, id: TxnId)
    requires id in db.txns
  {
    var t := db.txns[id];
    && t.id == id && t.amount > 0
    && t.sender in db.accounts && t.receiver in db.accounts
    && db.accounts[t.sender].currency == t.currency
    && db.accounts[t.receiver].currency == t.currency
    && (t.status == Pending || t.status == Authorized || t.status == Settled)
    && (t.status != Settled ==> t.providerRef == "")
  }

  predicate GoodTxns(db: Db) {
    forall id :: id in db.txns ==> GoodTxn(db, id)
  }

  /** The unique index and the table describe the same rows. */
  predicate GoodIndex(db: Db) {
    && (forall id :: id in db.txns ==> db.txns[id].key in db.byKey && db.byKey[db.txns[id].key] == id)
    && (forall k :: k in db.byKey ==> db.byKey[k] in db.txns && db.txns[db.byKey[k]].key == k)
  }

  /** One debit of the sender and one credit of the receiver, and nothing else. */
  predicate IsPair(entries: seq<Entry>, t: Transaction) {
    && |entries| == 2
    && entries[0] == DebitEntry(t, entries[0].balanceAfter)
    && entries[1] == CreditEntry(t, entries[1].balanceAfter)
  }

  predicate DoubleEntry(db: Db, id: TxnId) {
    if id in db.txns && db.txns[id].status == Settled
    then IsPair(EntriesOf(db.ledger, id), db.txns[id])
    else EntriesOf(db.ledger, id) == []
  }

  ghost predicate GoodLedger(db: Db) {
    && (forall id: TxnId :: DoubleEntry(db, id))
    && EntryTotal(db.ledger, Debit) == EntryTotal(db.ledger, Credit) == Sum(SettledAmounts(db.txns))
  }

  predicate GoodReplay(db: Db, opening: map<Uuid, int>) {
    && opening.Keys == db.accounts.Keys
    && (forall a :: a in opening ==> opening[a] >= 0)
    && Replays(db.ledger, opening)
    && (forall a :: a in opening ==> db.accounts[a].balance == Running(db.ledger, a, opening[a]))
  }

  ghost predicate ConservedIn(accounts: map<Uuid, Account>, opening: map<Uuid, int>, currency: string) {
    Sum(BalancesIn(accounts, currency)) == Sum(OpeningsIn(accounts, opening, currency))
  }

  ghost predicate Conserved(db: Db, opening: map<Uuid, int>) {
    forall currency: string :: ConservedIn(db.accounts, opening, currency)
  }

  /** The invariant of the committed tables, given each account's opening balance. */
  ghost predicate Good(db: Db, opening: map<Uuid, int>) {
    && GoodAccounts(db) && GoodTxns(db) && GoodIndex(db)
    && GoodLedger(db) && GoodReplay(db, opening) && Conserved(db, opening)
  }

  lemma EmptyIsGood()
    ensures Good(EMPTY_DB, map[])
  {
  }

  // ---- CreateAccount ----

  lemma {:induction false} ReplaysWithMoreAccounts(ledger: seq<Entry>, opening: map<Uuid, int>, id: Uuid, balance: int)
    requires Replays(ledger, opening) && id !in opening
    ensures Replays(ledger, opening[id := balance])
    ensures Running(ledger, id, balance) == balance
  {
    if ledger == [] {
    } else {
      ReplaysWithMoreAccounts(ledger[..|ledger| - 1], opening, id, balance);
    }
  }

  /** Writing one account row changes one summand of its currency, and no other currency. */
  lemma TotalAfterWrite(accounts: map<Uuid, Account>, a: Uuid, row: Account, c: string)
    requires a in accounts ==> accounts[a].currency == row.currency
    ensures Sum(BalancesIn(accounts[a := row], c)) == Sum(BalancesIn(accounts, c))
      + if row.currency != c then 0 else row.balance - if a in accounts then accounts[a].balance else 0
  {
    var b := BalancesIn(accounts, c);
    if row.currency == c {
      assert BalancesIn(accounts[a := row], c) == b[a := row.balance];
      SumUpdate(b, a, row.balance);
    } else {
      assert BalancesIn(accounts[a := row], c) == b;
    }
  }

  lemma OpeningsAfterOpen(accounts: map<Uuid, Account>, opening: map<Uuid, int>, a: Uuid, row: Account, c: string)
    requires a !in accounts && opening.Keys == accounts.Keys
    ensures Sum(OpeningsIn(accounts[a := row], opening[a := row.balance], c))
      == Sum(OpeningsIn(accounts, opening, c)) + if row.currency == c then row.balance else 0
  {
    var o := OpeningsIn(accounts, opening, c);
    if row.currency == c {
      assert OpeningsIn(accounts[a := row], opening[a := row.balance], c) == o[a := row.balance];
      SumUpdate(o, a, row.balance);
    } else {
      assert OpeningsIn(accounts[a := row], opening[a := row.balance], c) == o;
    }
  }

  lemma OpenKeepsConserved(db: Db, opening: map<Uuid, int>, id: Uuid, row: Account)
    requires Conserved(db, opening) && CanOpen(db, id, row) && opening.Keys == db.accounts.Keys
    ensures Conserved(OpenNow(db, id, row), opening[id := row.balance])
  {
    var accounts', opening' := db.accounts[id := row], opening[id := row.balance];
    forall c: string ensures ConservedIn(accounts', opening', c) {
      assert ConservedIn(db.accounts, opening, c);
      TotalAfterWrite(db.accounts, id, row, c);
      OpeningsAfterOpen(db.accounts, opening, id, row, c);
    }
  }

  lemma OpenKeepsRows(db: Db, id: Uuid, row: Account)
    requires GoodAccounts(db) && GoodTxns(db) && GoodIndex(db) && GoodLedger(db) && CanOpen(db, id, row)
    ensures var db' := OpenNow(db, id, row);
      GoodAccounts(db') && GoodTxns(db') && GoodIndex(db') && GoodLedger(db')
  {
    var db' := OpenNow(db, id, row);
    forall i | i in db'.txns ensures GoodTxn(db', i) {
      assert GoodTxn(db, i);
    }
    forall i: TxnId ensures DoubleEntry(db', i) {
      assert DoubleEntry(db, i);
    }
  }

  lemma OpenKeepsGood(db: Db, opening: map<Uuid, int>, id: Uuid, row: Account)
    requires Good(db, opening) && CanOpen(db, id, row)
    ensures Good(OpenNow(db, id, row), opening[id := row.balance])
  {
    ReplaysWithMoreAccounts(db.ledger, opening, id, row.balance);
    OpenKeepsConserved(db, opening, id, row);
    OpenKeepsRows(db, id, row);
  }

  // ---- Initiate and Authorize: only the transactions table changes ----

  /** A row is inserted, or moves between statuses none of which is Settled. */
  predicate RowWrite(db: Db, db': Db, id: TxnId) {
    && db'.accounts == db.accounts && db'.ledger == db.ledger
    && id in db'.txns && db'.txns == db.txns[id := db'.txns[id]]
    && (id in db.txns ==> db.txns[id].status != Settled)
    && db'.txns[id].status != Settled
  }

  lemma RowWriteKeepsLedger(db: Db, db': Db, id: TxnId)
    requires GoodLedger(db) && RowWrite(db, db', id)
    ensures GoodLedger(db')
  {
    assert SettledAmounts(db'.txns) == SettledAmounts(db.txns);
    forall i: TxnId ensures DoubleEntry(db', i) {
      assert DoubleEntry(db, i);
    }
  }

  lemma RowWriteKeepsTxns(db: Db, db': Db, id: TxnId)
    requires GoodTxns(db) && RowWrite(db, db', id) && GoodTxn(db', id)
    ensures GoodTxns(db')
  {
    forall i | i in db'.txns ensures GoodTxn(db', i) {
      assert i != id ==> GoodTxn(db, i);
    }
  }

  lemma RowWriteKeepsGood(db: Db, opening: map<Uuid, int>, db': Db, id: TxnId)
    requires Good(db, opening) && RowWrite(db, db', id)
    requires GoodTxn(db', id) && GoodIndex(db')
    ensures Good(db', opening)
  {
    RowWriteKeepsLedger(db, db', id);
    RowWriteKeepsTxns(db, db', id);
  }

  lemma InitiateKeepsGood(db: Db, opening: map<Uuid, int>, req: Request, newId: TxnId)
    requires Good(db, opening) && req.InitiateReq? && newId !in db.txns
    ensures Good(InitiateNow(db, req, newId).0, opening)
  {
    var db' := InitiateNow(db, req, newId).0;
    if db' != db {
      RowWriteKeepsGood(db, opening, db', newId);
    }
  }

  lemma AuthorizeKeepsGood(db: Db, opening: map<Uuid, int>, id: TxnId, caller: string)
    requires Good(db, opening)
    ensures Good(AuthorizeNow(db, id, caller).0, opening)
  {
    var db' := AuthorizeNow(db, id, caller).0;
    if db' != db {
      assert GoodTxn(db, id);
      RowWriteKeepsGood(db, opening, db', id);
    }
  }

  // ---- Settle ----

  lemma AppendOne(ledger: seq<Entry>, e: Entry)
    ensures forall a, o :: Running(ledger + [e], a, o) == Running(ledger, a, o) + Effect(e, a)
    ensures forall id :: EntriesOf(ledger + [e], id) == EntriesOf(ledger, id) + if e.txn == id then [e] else []
    ensures forall k :: EntryTotal(ledger + [e], k) == EntryTotal(ledger, k) + if e.kind == k then e.amount else 0
  {
    assert (ledger + [e])[..|ledger|] == ledger;
  }

  lemma AppendReplays(ledger: seq<Entry>, e: Entry, opening: map<Uuid, int>)
    requires Replays(ledger, opening) && e.account in opening && e.amount > 0 && e.balanceAfter >= 0
    requires e.balanceAfter == Running(ledger, e.account, opening[e.account]) + Effect(e, e.account)
    ensures Replays(ledger + [e], opening)
  {
    AppendOne(ledger, e);
    assert (ledger + [e])[..|ledger|] == ledger;
  }

  /** What a successful settlement of `id` does: `d` and `c` are the balances its entries record. */
  predicate Transfers(db: Db, id: TxnId, d: int, c: int, db': Db) {
    && id in db.txns && id in db'.txns
    && var t := db.txns[id];
    && t.sender in db.accounts && t.receiver in db.accounts
    && t.status == Authorized
    && d == db.accounts[t.sender].balance - t.amount >= 0
    && c == (if t.sender == t.receiver then d else db.accounts[t.receiver].balance) + t.amount
    && c <= INT64_MAX
    && db'.accounts == db.accounts[t.sender := db.accounts[t.sender].(balance := d)]
                                  [t.receiver := db.accounts[t.receiver].(balance := c)]
    && SameIdentity(t, db'.txns[id]) && db'.txns[id].status == Settled
    && db'.txns == db.txns[id := db'.txns[id]]
    && db'.byKey == db.byKey
    && db'.ledger == db.ledger + [DebitEntry(t, d)] + [CreditEntry(t, c)]
  }

  lemma SettleTransfers(db: Db, id: TxnId, caller: string, suffix: string) returns (d: int, c: int)
    requires GoodTxns(db) && SettleNow(db, id, caller, suffix).1.Ok?
    ensures Transfers(db, id, d, c, SettleNow(db, id, caller, suffix).0)
  {
    assert GoodTxn(db, id);
    var t, db' := db.txns[id], SettleNow(db, id, caller, suffix).0;
    assert Negate(t.amount) == -t.amount;
    d := db.accounts[t.sender].balance - t.amount;
    c := (if t.sender == t.receiver then d else db.accounts[t.receiver].balance) + t.amount;
    assert db.ledger + [DebitEntry(t, d), CreditEntry(t, c)] == db.ledger + [DebitEntry(t, d)] + [CreditEntry(t, c)];
  }

  lemma TransferKeepsReplay(db: Db, opening: map<Uuid, int>, id: TxnId, d: int, c: int, db': Db)
    requires GoodAccounts(db) && GoodTxns(db) && GoodReplay(db, opening) && Transfers(db, id, d, c, db')
    ensures GoodReplay(db', opening)
  {
    var t := db.txns[id];
    assert GoodTxn(db, id);
    AppendOne(db.ledger, DebitEntry(t, d));
    AppendReplays(db.ledger, DebitEntry(t, d), opening);
    AppendOne(db.ledger + [DebitEntry(t, d)], CreditEntry(t, c));
    AppendReplays(db.ledger + [DebitEntry(t, d)], CreditEntry(t, c), opening);
  }

  lemma TransferKeepsDoubleEntry(db: Db, id: TxnId, d: int, c: int, db': Db, i: TxnId)
    requires GoodTxns(db) && DoubleEntry(db, i) && Transfers(db, id, d, c, db')
    ensures DoubleEntry(db', i)
  {
    var t := db.txns[id];
    assert GoodTxn(db, id);
    AppendOne(db.ledger, DebitEntry(t, d));
    AppendOne(db.ledger + [DebitEntry(t, d)], CreditEntry(t, c));
    assert EntriesOf(db'.ledger, i)
      == if i == id then [DebitEntry(t, d), CreditEntry(t, c)] else EntriesOf(db.ledger, i);
  }

  lemma TransferKeepsLedger(db: Db, id: TxnId, d: int, c: int, db': Db)
    requires GoodTxns(db) && GoodLedger(db) && Transfers(db, id, d, c, db')
    ensures GoodLedger(db')
  {
    forall i: TxnId ensures DoubleEntry(db', i) {
      assert DoubleEntry(db, i);
      TransferKeepsDoubleEntry(db, id, d, c, db', i);
    }
    var t, row := db.txns[id], db'.txns[id];
    AppendOne(db.ledger, DebitEntry(t, d));
    AppendOne(db.ledger + [DebitEntry(t, d)], CreditEntry(t, c));
    assert SettledAmounts(db'.txns) == SettledAmounts(db.txns)[id := row.amount];
    SumUpdate(SettledAmounts(db.txns), id, row.amount);
  }

  /** Moving an amount between two accounts of one currency, possibly the same account. */
  lemma TransferConserves(accounts: map<Uuid, Account>, s: Uuid, r: Uuid, d: int, c: int, currency: string)
    requires s in accounts && r in accounts && accounts[s].currency == accounts[r].currency
    requires accounts[s].balance + (if s == r then d else accounts[r].balance) == d + c
    ensures Sum(BalancesIn(accounts[s := accounts[s].(balance := d)][r := accounts[r].(balance := c)], currency))
      == Sum(BalancesIn(accounts, currency))
  {
    TotalAfterWrite(accounts, s, accounts[s].(balance := d), currency);
    TotalAfterWrite(accounts[s := accounts[s].(balance := d)], r, accounts[r].(balance := c), currency);
  }

  lemma TransferKeepsConserved(db: Db, opening: map<Uuid, int>, id: TxnId, d: int, c: int, db': Db)
    requires GoodTxns(db) && Conserved(db, opening) && Transfers(db, id, d, c, db')
    ensures Conserved(db', opening)
  {
    var t := db.txns[id];
    assert GoodTxn(db, id);
    forall k: string ensures ConservedIn(db'.accounts, opening, k) {
      assert ConservedIn(db.accounts, opening, k);
      assert OpeningsIn(db'.accounts, opening, k) == OpeningsIn(db.accounts, opening, k);
      TransferConserves(db.accounts, t.sender, t.receiver, d, c, k);
    }
  }

  lemma TransferKeepsRows(db: Db, id: TxnId, d: int, c: int, db': Db)
    requires GoodAccounts(db) && GoodTxns(db) && GoodIndex(db) && Transfers(db, id, d, c, db')
    ensures GoodAccounts(db') && GoodTxns(db') && GoodIndex(db')
  {
    forall i | i in db'.txns ensures GoodTxn(db', i) {
      assert GoodTxn(db, i) && GoodTxn(db, id);
    }
  }

  lemma SettleKeepsGood(db: Db, opening: map<Uuid, int>, id: TxnId, caller: string, suffix: string)
    requires Good(db, opening)
    ensures Good(SettleNow(db, id, caller, suffix).0, opening)
  {
    if SettleNow(db, id, caller, suffix).1.Ok? {
      var d, c := SettleTransfers(db, id, caller, suffix);
      var db' := SettleNow(db, id, caller, suffix).0;
      TransferKeepsRows(db, id, d, c, db');
      TransferKeepsReplay(db, opening, id, d, c, db');
      TransferKeepsLedger(db, id, d, c, db');
      TransferKeepsConserved(db, opening, id, d, c, db');
    }
  }

  /** Every service call, run as one step, keeps the books. */
  lemma CallKeepsGood(db: Db, opening: map<Uuid, int>, req: Request, newId: TxnId, suffix: string)
    requires Good(db, opening) && newId !in db.txns
    ensures Good(CallNow(db, req, newId, suffix).0, opening)
  {
    match req
    case InitiateReq(_, _, _, _, _) => InitiateKeepsGood(db, opening, req, newId);
    case AuthorizeReq(id, caller) => AuthorizeKeepsGood(db, opening, id, caller);
    case SettleReq(id, caller) => SettleKeepsGood(db, opening, id, caller, suffix);
  }
}
