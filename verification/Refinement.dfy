/** One statement, or one COMMIT, of one call against the atomic gateway: until a call is decided
    the committed tables do not move, and the step that decides it does what the whole call would
    do at that instant. */
module Refinement {
  import opened Records
  import opened AtomicGateway
  import opened Books
  import opened Engine
  import opened EngineInvariant

  predicate GoodRows(db: Db) {
    GoodAccounts(db) && GoodTxns(db) && GoodIndex(db)
  }

  function TargetSet(row: Option<Row>): set<Row> {
    if row.Some? then {row.value} else {}
  }

  /** The call was decided by a statement: at this instant the whole call has the same result. */
  predicate Decides(db: Db, req: Request, pc: PC, newId: TxnId, suffix: string) {
    pc.Unwinding? ==> CallNow(db, req, newId, suffix) == (db, pc.outcome)
  }

  predicate ExecSound(db: Db, ws: Writes, call: Call, newId: TxnId, suffix: string)
    requires Fits(call) && !IsCommit(call.pc) && !call.pc.Unwinding? && !call.pc.Finished?
  {
    var (pc, ws') := Exec(db, ws, call, newId, suffix);
    && Local(db, ws', Call(call.req, pc))
    && Decides(db, call.req, pc, newId, suffix)
    && (!pc.Unwinding? ==> Held(Call(call.req, pc)) == Held(call) + TargetSet(LockTarget(db, ws, call)))
  }

  predicate BeforeInsert(pc: PC) {
    pc.ReadSender? || pc.ReadReceiver? || pc.BeginInsert? || pc.InsertTxn? || pc.FetchExisting?
  }

  lemma InitiateStep(db: Db, ws: Writes, call: Call, newId: TxnId, suffix: string)
    requires GoodRows(db) && Local(db, ws, call) && newId !in db.txns
    requires call.req.InitiateReq?
    requires BeforeInsert(call.pc)
    ensures ExecSound(db, ws, call, newId, suffix)
  {
    if call.pc.FetchExisting? {
      assert SameIdentity(db.txns[db.byKey[call.req.key]], db.txns[db.byKey[call.req.key]]);
      assert GoodTxn(db, db.byKey[call.req.key]);
    }
  }

  lemma BeginStep(db: Db, ws: Writes, call: Call, newId: TxnId, suffix: string)
    requires GoodRows(db) && Local(db, ws, call)
    requires call.pc.BeginCall? || call.pc.LockTxn?
    ensures ExecSound(db, ws, call, newId, suffix)
  {
    if call.pc.LockTxn? && call.req.txn in db.txns {
      assert GoodTxn(db, call.req.txn);
    }
  }

  lemma AuthorizeStep(db: Db, ws: Writes, call: Call, newId: TxnId, suffix: string)
    requires GoodRows(db) && Local(db, ws, call)
    requires call.pc.LockSender? || call.pc.MarkAuthorized?
    ensures ExecSound(db, ws, call, newId, suffix)
  {
  }

  lemma SettleLockStep(db: Db, ws: Writes, call: Call, newId: TxnId, suffix: string)
    requires GoodRows(db) && Local(db, ws, call)
    requires call.pc.LockFirst? || call.pc.LockSecond?
    ensures ExecSound(db, ws, call, newId, suffix)
  {
  }

  lemma DebitStep(db: Db, ws: Writes, call: Call, newId: TxnId, suffix: string)
    requires GoodRows(db) && Local(db, ws, call) && call.pc.DebitSender?
    ensures ExecSound(db, ws, call, newId, suffix)
  {
    assert Negate(call.pc.t.amount) == -call.pc.t.amount;
  }

  lemma CreditStep(db: Db, ws: Writes, call: Call, newId: TxnId, suffix: string)
    requires GoodRows(db) && Local(db, ws, call) && call.pc.CreditReceiver?
    ensures ExecSound(db, ws, call, newId, suffix)
  {
    assert Negate(call.pc.t.amount) == -call.pc.t.amount;
  }

  lemma EntryStep(db: Db, ws: Writes, call: Call, newId: TxnId, suffix: string)
    requires GoodRows(db) && Local(db, ws, call)
    requires call.pc.AppendDebit? || call.pc.AppendCredit? || call.pc.MarkSettled?
    ensures ExecSound(db, ws, call, newId, suffix)
  {
  }

  lemma LocalRequest(db: Db, ws: Writes, call: Call)
    requires Local(db, ws, call)
    ensures BeforeInsert(call.pc) ==> call.req.InitiateReq?
  {
  }

  lemma ExecIsSound(db: Db, ws: Writes, call: Call, newId: TxnId, suffix: string)
    requires GoodRows(db) && Local(db, ws, call) && newId !in db.txns
    requires !IsCommit(call.pc) && !call.pc.Unwinding? && !call.pc.Finished?
    ensures Fits(call) && ExecSound(db, ws, call, newId, suffix)
  {
    LocalFits(db, ws, call);
    LocalRequest(db, ws, call);
    hide Local, ExecSound, GoodRows, Fits;
    match call.pc
    case BeginCall => BeginStep(db, ws, call, newId, suffix);
    case LockTxn => BeginStep(db, ws, call, newId, suffix);
    case LockSender(_) => AuthorizeStep(db, ws, call, newId, suffix);
    case MarkAuthorized(_) => AuthorizeStep(db, ws, call, newId, suffix);
    case LockFirst(_) => SettleLockStep(db, ws, call, newId, suffix);
    case LockSecond(_) => SettleLockStep(db, ws, call, newId, suffix);
    case DebitSender(_) => DebitStep(db, ws, call, newId, suffix);
    case CreditReceiver(_, _) => CreditStep(db, ws, call, newId, suffix);
    case AppendDebit(_, _, _) => EntryStep(db, ws, call, newId, suffix);
    case AppendCredit(_, _, _) => EntryStep(db, ws, call, newId, suffix);
    case MarkSettled(_, _, _) => EntryStep(db, ws, call, newId, suffix);
    case ReadSender => InitiateStep(db, ws, call, newId, suffix);
    case ReadReceiver(_) => InitiateStep(db, ws, call, newId, suffix);
    case BeginInsert => InitiateStep(db, ws, call, newId, suffix);
    case InsertTxn => InitiateStep(db, ws, call, newId, suffix);
    case FetchExisting => InitiateStep(db, ws, call, newId, suffix);
  }

  // ---- COMMIT ----

  /** The random choices a committing call drew. */
  function ChosenId(pc: PC, otherwise: TxnId): TxnId {
    if pc.CommitCreate? then pc.t.id else otherwise
  }

  function ChosenSuffix(pc: PC): string {
    if pc.CommitSettle? then pc.suffix else ""
  }

  lemma MergeInsert(db: Db, t: Transaction)
    ensures Merge(db, WithInsert(NO_WRITES, t))
         == db.(txns := db.txns[t.id := t], byKey := db.byKey[t.key := t.id])
  {
    var db' := Merge(db, WithInsert(NO_WRITES, t));
    assert db'.txns == db.txns[t.id := t];
    assert db'.byKey == db.byKey[t.key := t.id];
    assert db'.accounts == db.accounts && db'.ledger == db.ledger;
  }

  lemma MergeStatus(db: Db, t: Transaction)
    ensures Merge(db, NO_WRITES.(txns := map[t.id := t])) == db.(txns := db.txns[t.id := t])
  {
    var db' := Merge(db, NO_WRITES.(txns := map[t.id := t]));
    assert db'.txns == db.txns[t.id := t];
    assert db'.byKey == db.byKey && db'.accounts == db.accounts && db'.ledger == db.ledger;
  }

  lemma MergeTransfer(db: Db, t: Transaction, d: int, c: int, entries: seq<Entry>, t': Transaction)
    requires t.sender in db.accounts && t.receiver in db.accounts
    ensures Merge(db, Moved(db, t, d, c, entries).(txns := map[t.id := t']))
         == Db(db.accounts[t.sender := db.accounts[t.sender].(balance := d)]
                          [t.receiver := db.accounts[t.receiver].(balance := c)],
               db.txns[t.id := t'], db.byKey, db.ledger + entries)
  {
    var db' := Merge(db, Moved(db, t, d, c, entries).(txns := map[t.id := t']));
    assert db'.accounts == db.accounts[t.sender := db.accounts[t.sender].(balance := d)]
                                      [t.receiver := db.accounts[t.receiver].(balance := c)];
    assert db'.txns == db.txns[t.id := t'] && db'.byKey == db.byKey;
  }

  lemma CommitCreateSound(db: Db, ws: Writes, call: Call)
    requires Local(db, ws, call) && call.pc.CommitCreate?
    ensures CallNow(db, call.req, call.pc.t.id, "") == (Merge(db, ws), Ok(Returned(call.pc)))
  {
    MergeInsert(db, call.pc.t);
  }

  lemma CommitAuthorizeSound(db: Db, ws: Writes, call: Call, newId: TxnId)
    requires Local(db, ws, call) && call.pc.CommitAuthorize?
    ensures CallNow(db, call.req, newId, "") == (Merge(db, ws), Ok(Returned(call.pc)))
  {
    MergeStatus(db, call.pc.t.(status := Authorized, providerRef := ""));
  }

  lemma CommitSettleSound(db: Db, ws: Writes, call: Call, newId: TxnId)
    requires GoodAccounts(db) && Local(db, ws, call) && call.pc.CommitSettle?
    ensures CallNow(db, call.req, newId, call.pc.suffix) == (Merge(db, ws), Ok(Returned(call.pc)))
  {
    var t, d, c := call.pc.t, call.pc.senderBalance, call.pc.receiverBalance;
    assert Negate(t.amount) == -t.amount;
    MergeTransfer(db, t, d, c, [DebitEntry(t, d), CreditEntry(t, c)], Returned(call.pc));
    assert AddBalance(db.accounts[t.sender].balance, Negate(t.amount)) == Some(d);
    var debited := db.accounts[t.sender := db.accounts[t.sender].(balance := d)];
    assert AddBalance(debited[t.receiver].balance, t.amount) == Some(c);
    assert debited[t.receiver].(balance := c) == db.accounts[t.receiver].(balance := c);
  }

  /** The row a call commits is the record it returns. */
  lemma CommitIsSound(db: Db, ws: Writes, call: Call, newId: TxnId)
    requires GoodRows(db) && Local(db, ws, call) && IsCommit(call.pc)
    ensures CallNow(db, call.req, ChosenId(call.pc, newId), ChosenSuffix(call.pc))
         == (Merge(db, ws), Ok(Returned(call.pc)))
    ensures Returned(call.pc).id in Merge(db, ws).txns
    ensures Merge(db, ws).txns[Returned(call.pc).id] == Returned(call.pc)
    ensures Reports(Merge(db, ws), call.req, Returned(call.pc))
  {
    match call.pc
    case CommitCreate(t) => CommitCreateSound(db, ws, call);
    case CommitAuthorize(t) =>
      CommitAuthorizeSound(db, ws, call, newId);
      assert GoodTxn(db, t.id);
    case CommitSettle(t, _, _, _) => CommitSettleSound(db, ws, call, newId);
  }

  // ---- What a call can rely on while others commit ----

  /** From `db` to `db'`, rows only grow, keep their identity and move forward in status, and the
      rows in `held` do not change at all. */
  ghost predicate Leaves(db: Db, db': Db, held: set<Row>) {
    && (forall a :: a in db.accounts ==> a in db'.accounts && db'.accounts[a].currency == db.accounts[a].currency)
    && (forall a :: a in db.accounts && AccountRow(a) in held ==> db'.accounts[a] == db.accounts[a])
    && (forall id :: id in db.txns ==>
          && id in db'.txns
          && SameIdentity(db.txns[id], db'.txns[id])
          && Rank(db.txns[id].status) <= Rank(db'.txns[id].status))
    && (forall id :: id in db.txns && TxnRow(id) in held ==> db'.txns[id] == db.txns[id])
    && (forall k :: k in db.byKey ==> k in db'.byKey)
    && (forall k :: k in db'.byKey && KeyRow(k) in held ==> k in db.byKey)
  }

  lemma InsertLeaves(db: Db, ws: Writes, call: Call, held: set<Row>)
    requires Local(db, ws, call) && call.pc.CommitCreate? && held !! Held(call)
    ensures Leaves(db, Merge(db, ws), held)
    ensures forall id :: id in Merge(db, ws).txns && id !in db.txns ==> id == call.pc.t.id
  {
    MergeInsert(db, call.pc.t);
    assert KeyRow(call.pc.t.key) in Held(call);
  }

  lemma StatusLeaves(db: Db, t: Transaction, t': Transaction, held: set<Row>)
    requires Current(db, t, t.status) && SameIdentity(t, t') && Rank(t.status) <= Rank(t'.status)
    requires TxnRow(t.id) !in held
    ensures Leaves(db, db.(txns := db.txns[t.id := t']), held)
  {
  }

  lemma TransferLeaves(db: Db, t: Transaction, d: int, c: int, entries: seq<Entry>, t': Transaction, held: set<Row>)
    requires Current(db, t, t.status) && SameIdentity(t, t') && Rank(t.status) <= Rank(t'.status)
    requires held !! SettleRows(t)
    ensures Leaves(db, Merge(db, Moved(db, t, d, c, entries).(txns := map[t.id := t'])), held)
    ensures forall id :: id in Merge(db, Moved(db, t, d, c, entries).(txns := map[t.id := t'])).txns ==> id in db.txns
  {
    MergeTransfer(db, t, d, c, entries, t');
    assert {TxnRow(t.id), AccountRow(t.sender), AccountRow(t.receiver)} == SettleRows(t);
  }

  /** A commit changes only rows the committing call holds. */
  lemma CommitLeaves(db: Db, ws: Writes, call: Call, held: set<Row>)
    requires Local(db, ws, call) && IsCommit(call.pc) && held !! Held(call)
    ensures Leaves(db, Merge(db, ws), held)
    ensures forall id :: id in Merge(db, ws).txns && id !in db.txns ==> call.pc.CommitCreate? && id == call.pc.t.id
  {
    match call.pc
    case CommitCreate(t) => InsertLeaves(db, ws, call, held);
    case CommitAuthorize(t) =>
      var t' := t.(status := Authorized, providerRef := "");
      MergeStatus(db, t');
      assert TxnRow(t.id) in Held(call);
      StatusLeaves(db, t, t', held);
    case CommitSettle(t, d, c, _) =>
      TransferLeaves(db, t, d, c, [DebitEntry(t, d), CreditEntry(t, c)], Returned(call.pc), held);
  }

  lemma ReportsStable(db: Db, db': Db, held: set<Row>, req: Request, t: Transaction)
    requires Reports(db, req, t) && Leaves(db, db', held)
    ensures Reports(db', req, t)
  {
  }

  predicate MovingMoney(pc: PC) {
    pc.CreditReceiver? || pc.AppendDebit? || pc.AppendCredit? || pc.MarkSettled? || pc.CommitSettle?
  }

  lemma MovingStable(db: Db, db': Db, ws: Writes, call: Call)
    requires MovingMoney(call.pc) && Local(db, ws, call) && Leaves(db, db', Held(call))
    ensures Local(db', ws, call)
  {
    var t := call.pc.t;
    assert Held(call) == SettleRows(t);
    assert db'.accounts[t.sender] == db.accounts[t.sender] && db'.accounts[t.receiver] == db.accounts[t.receiver];
    assert db'.txns[t.id] == t;
    hide Leaves, Held, SettleRows;
  }

  lemma LocalStable(db: Db, db': Db, ws: Writes, call: Call)
    requires Local(db, ws, call) && Leaves(db, db', Held(call))
    requires call.pc.CommitCreate? ==> call.pc.t.id !in db'.txns
    ensures Local(db', ws, call)
  {
    if MovingMoney(call.pc) {
      MovingStable(db, db', ws, call);
    } else {
      match call.pc
      case Unwinding(outcome) =>
        if outcome.Ok? { ReportsStable(db, db', Held(call), call.req, outcome.txn); }
      case Finished(outcome) =>
        if outcome.Ok? { ReportsStable(db, db', Held(call), call.req, outcome.txn); }
      case _ =>
    }
  }
}
