/** PostgresRepo: the statements the service runs, over tables, a lock table and the private writes
    of open database transactions, all updated in place. Between two statements of a call any other
    calls may run: `Await` is where they do. Every change is recorded as a run of the engine, so
    what is proved of runs holds of these objects. */
module Repository {
  import opened Uuids
  import opened Records
  import opened AtomicGateway
  import opened Books
  import opened Engine
  import opened EngineInvariant
  import opened Safety
  import opened Liveness

  /** What a statement answers: `Broken` is a failure of the database itself. */
  datatype Reply<+T> = Row(value: T) | NoRow | Refused | Broken

  /** State equality, field by field. */
  predicate Agree(s: State, t: State)
    ensures Agree(s, t) ==> s == t
  {
    && s.db.accounts == t.db.accounts && s.db.txns == t.db.txns
    && s.db.byKey == t.db.byKey && s.db.ledger == t.db.ledger
    && s.opening == t.opening && s.locks == t.locks && s.open == t.open
    && s.calls == t.calls && s.nextTxn == t.nextTxn
  }

  predicate IsStepOf(step: Step, cid: CallId) {
    (step.Start? || step.Advance? || step.Fail?) && step.cid == cid
  }

  lemma OthersLeaveCall(s: State, step: Step, cid: CallId)
    requires CanStep(s, step) && !IsStepOf(step, cid) && cid in s.calls
    ensures var s' := Apply(s, step); cid in s'.calls && s'.calls[cid] == s.calls[cid]
  {
    hide Exec, Merge, LockTarget;
  }

  predicate IsBegin(pc: PC) {
    pc.BeginInsert? || pc.BeginCall?
  }

  /** Only BEGIN enters a database transaction. */
  lemma EnterTransaction(db: Db, ws: Writes, call: Call, newId: TxnId, suffix: string)
    requires Fits(call) && !IsCommit(call.pc) && !call.pc.Unwinding? && !call.pc.Finished?
    ensures var pc := Exec(db, ws, call, newId, suffix).0;
      InTransaction(pc) ==> InTransaction(call.pc) || IsBegin(call.pc)
    ensures IsBegin(call.pc) ==> InTransaction(Exec(db, ws, call, newId, suffix).0)
  {
  }

  lemma EnabledCanStep(s: State, cid: CallId)
    requires Enabled(s, cid)
    ensures CanStep(s, Advance(cid, ""))
  {
  }

  lemma CallsRemain(s: State, step: Step)
    requires CanStep(s, step)
    ensures s.calls.Keys <= Apply(s, step).calls.Keys
    ensures step.Fail? ==> step.cid in s.calls
  {
    hide Exec, Merge, LockTarget;
  }

  /** In state `s` the statement of `cid` ran: it took its lock and left the private writes `ws`,
      which makes the state `t`. */
  predicate RanStatement(s: State, t: State, cid: CallId, call: Call, ws: Writes)
    requires Fits(call)
  {
    t == s.(
      nextTxn := if call.pc.InsertTxn? then s.nextTxn + 1 else s.nextTxn,
      locks := Acquire(s.locks, LockTarget(s.db, WritesOf(s, cid), call), cid),
      open := if cid in s.open || IsBegin(call.pc) then s.open[cid := ws] else s.open)
  }

  lemma RanPlain(s: State, cid: CallId, call: Call)
    requires Fits(call) && LockTarget(s.db, WritesOf(s, cid), call) == None && !call.pc.InsertTxn? && !IsBegin(call.pc)
    ensures RanStatement(s, s, cid, call, WritesOf(s, cid))
  {
    assert cid in s.open ==> s.open[cid := WritesOf(s, cid)] == s.open;
  }

  lemma RanLocking(s: State, cid: CallId, call: Call, row: Engine.Row)
    requires Fits(call) && LockTarget(s.db, WritesOf(s, cid), call) == Some(row)
    requires !call.pc.InsertTxn? && !IsBegin(call.pc)
    ensures RanStatement(s, s.(locks := s.locks[row := cid]), cid, call, WritesOf(s, cid))
  {
    assert cid in s.open ==> s.open[cid := WritesOf(s, cid)] == s.open;
  }

  lemma RanWriting(s: State, cid: CallId, call: Call, row: Engine.Row, ws: Writes)
    requires Fits(call) && LockTarget(s.db, WritesOf(s, cid), call) == Some(row)
    requires !call.pc.InsertTxn? && !IsBegin(call.pc)
    requires cid in s.open
    ensures RanStatement(s, s.(locks := s.locks[row := cid], open := s.open[cid := ws]), cid, call, ws)
  {
  }

  /** An insert takes a new id whether or not it inserts. */
  lemma RanIdle(s: State, cid: CallId, call: Call)
    requires Fits(call) && LockTarget(s.db, WritesOf(s, cid), call) == None && call.pc.InsertTxn?
    ensures RanStatement(s, s.(nextTxn := s.nextTxn + 1), cid, call, WritesOf(s, cid))
  {
    assert cid in s.open ==> s.open[cid := WritesOf(s, cid)] == s.open;
  }

  lemma RanInsert(s: State, cid: CallId, call: Call, row: Engine.Row, ws: Writes)
    requires Fits(call) && LockTarget(s.db, WritesOf(s, cid), call) == Some(row) && call.pc.InsertTxn? && cid in s.open
    ensures RanStatement(s, s.(nextTxn := s.nextTxn + 1, locks := s.locks[row := cid], open := s.open[cid := ws]),
                         cid, call, ws)
  {
  }

  lemma KeyAsked(db: Db, ws: Writes, call: Call)
    requires call.pc.InsertTxn? && call.req.InitiateReq? && Fits(call)
    ensures LockTarget(db, ws, call) == (
      if call.req.amount <= 0 || |call.req.key| > VARCHAR_LIMIT || call.req.key in db.byKey then None
      else Some(KeyRow(call.req.key)))
  {
  }

  /** The account row a statement is about. */
  predicate AsksFor(pc: PC, id: Uuid) {
    match pc
    case LockSender(t) => id == t.sender
    case LockFirst(t) => id == FirstLock(t)
    case LockSecond(t) => id == SecondLock(t)
    case DebitSender(t) => id == t.sender
    case CreditReceiver(t, _) => id == t.receiver
    case _ => false
  }

  lemma AccountAsked(db: Db, ws: Writes, call: Call, id: Uuid)
    requires AsksFor(call.pc, id)
    ensures Fits(call) && LockTarget(db, ws, call) == AccountTarget(db, ws, id)
    ensures InTransaction(call.pc) && !call.pc.InsertTxn? && !IsCommit(call.pc)
  {
  }

  lemma TxnAsked(db: Db, ws: Writes, call: Call, id: TxnId)
    requires (call.pc.LockTxn? && !call.req.InitiateReq? && call.req.txn == id)
          || ((call.pc.MarkAuthorized? || call.pc.MarkSettled?) && call.pc.t.id == id)
    ensures Fits(call) && LockTarget(db, ws, call) == TxnTarget(db, ws, id)
    ensures InTransaction(call.pc) && !call.pc.InsertTxn? && !IsCommit(call.pc)
  {
  }

  class PostgresRepo {
    // the tables
    var accounts: map<Uuid, Account>
    var txns: map<TxnId, Transaction>
    var byKey: map<string, TxnId>
    var ledger: seq<Entry>
    // the server's lock table and open database transactions
    var locks: map<Engine.Row, CallId>
    var open: map<CallId, Writes>
    var nextTxn: TxnId
    // every call there has been and where it stands, and every opening balance
    var calls: map<CallId, Call>
    var opening: map<Uuid, int>
    // the calls of which a statement failed
    ghost var faults: set<CallId>
    // the calls of which the database may fail a statement
    const mayFail: CallId -> bool
    // the run so far
    ghost var trace: seq<State>
    ghost var steps: seq<Step>

    function Tables(): Db
      reads this
    {
      Db(accounts, txns, byKey, ledger)
    }

    function Now(): State
      reads this
    {
      State(Tables(), opening, locks, open, calls, nextTxn)
    }

    ghost predicate Recorded()
      reads this
    {
      IsRun(trace, steps)
    }

    ghost predicate FaultsKnown()
      reads this
    {
      faults <= calls.Keys && forall c :: c in faults ==> mayFail(c)
    }

    /** No statement is half done: the recorded run ends in the present state. */
    ghost predicate Valid()
      reads this
    {
      Recorded() && |trace| > 0 && trace[|trace| - 1] == Now() && FaultsKnown()
    }

    /** Call `cid` stands at `pc`, and no statement of it has failed. */
    ghost predicate Ready(cid: CallId, req: Request, pc: PC)
      reads this
    {
      Valid() && At(cid, req, pc) && cid !in faults
    }

    /** Call `cid` has ended: with a database failure exactly if one of its statements failed. */
    ghost predicate Done(cid: CallId, req: Request, outcome: Outcome)
      reads this
    {
      Valid() && At(cid, req, Finished(outcome)) && (cid in faults <==> outcome == Err(DatabaseFailure))
    }

    predicate At(cid: CallId, req: Request, pc: PC)
      reads this
    {
      cid in calls && calls[cid] == Call(req, pc)
    }

    constructor (mayFail: CallId -> bool)
      ensures Valid() && Now() == INITIAL && trace == [INITIAL] && this.mayFail == mayFail
    {
      this.mayFail := mayFail;
      accounts, txns, byKey, ledger := map[], map[], map[], [];
      locks, open, nextTxn, calls, opening := map[], map[], 0, map[], map[];
      trace, steps, faults := [INITIAL], [], {};
    }

    lemma NowIsGood()
      requires Valid()
      ensures Inv(Now())
    {
      hide Inv, CanStep, Apply;
      RunInv(trace, steps, |trace| - 1);
    }

    // ---- Recording ----

    method Become(s: State)
      modifies `accounts, `txns, `byKey, `ledger, `locks, `open, `nextTxn, `calls, `opening
      ensures Now() == s
    {
      accounts, txns, byKey, ledger := s.db.accounts, s.db.txns, s.db.byKey, s.db.ledger;
      locks, open, nextTxn, calls, opening := s.locks, s.open, s.nextTxn, s.calls, s.opening;
    }

    /** Any step of the system, taken as the engine takes it. */
    method Perform(step: Step)
      requires Valid() && CanStep(Now(), step)
      modifies this
      ensures Valid() && Now() == Apply(old(Now()), step)
      ensures trace == old(trace) + [Now()] && steps == old(steps) + [step]
      ensures faults == if step.Fail? && mayFail(step.cid) then old(faults) + {step.cid} else old(faults)
    {
      hide CanStep, IsRun, Apply;
      RunExtends(trace, steps, step);
      CallsRemain(Now(), step);
      var s := Apply(Now(), step);
      Become(s);
      trace, steps := trace + [s], steps + [step];
      if step.Fail? && mayFail(step.cid) {
        faults := faults + {step.cid};
      }
    }

    /** The last recorded state: the one in which the statement in progress ran. */
    ghost function Before(): State
      requires |trace| > 0
      reads this
    {
      trace[|trace| - 1]
    }

    /** The statement of `cid` has run: it took its lock and left the private writes `ws`. The code
        up to the next statement is still to come. */
    ghost predicate Midway(cid: CallId, call: Call, ws: Writes)
      reads this
    {
      && Recorded() && |trace| > 0 && FaultsKnown() && cid !in faults
      && Enabled(Before(), cid) && cid in calls && calls[cid] == call
      && Before().calls[cid] == call
      && !IsCommit(call.pc) && !call.pc.Unwinding?
      && (InTransaction(call.pc) ==> cid in Before().open)
      && RanStatement(Before(), Now(), cid, call, ws)
    }

    /** The code after the statement goes on at `pc`. */
    ghost predicate LeadsTo(cid: CallId, call: Call, suffix: string, pc: PC, ws: Writes)
      requires |trace| > 0 && Fits(call) && !IsCommit(call.pc) && !call.pc.Unwinding? && !call.pc.Finished?
      reads this
    {
      Exec(Before().db, WritesOf(Before(), cid), call, Before().nextTxn, suffix) == (pc, ws)
    }

    /** A statement of `cid` failed and did nothing. */
    ghost predicate Broke(cid: CallId, call: Call)
      reads this
    {
      && Valid() && cid in faults && calls[cid] == call
      && !call.pc.Unwinding? && !call.pc.Finished?
    }

    /** Records that the step in progress leaves call `cid` at `pc`. */
    method Tick(cid: CallId, ghost suffix: string, pc: PC)
      requires Recorded() && |trace| > 0 && FaultsKnown() && cid in calls && Enabled(Before(), cid)
      requires Agree(Now().(calls := calls[cid := Call(calls[cid].req, pc)]), AdvanceCall(Before(), cid, suffix))
      modifies `calls, `trace, `steps
      ensures Valid() && calls == old(calls)[cid := Call(old(calls)[cid].req, pc)]
      ensures trace == old(trace) + [Now()]
    {
      hide AdvanceCall, Enabled, IsRun, Agree;
      RunExtends(trace, steps, Advance(cid, suffix));
      calls := calls[cid := Call(calls[cid].req, pc)];
      trace, steps := trace + [Now()], steps + [Advance(cid, suffix)];
    }

    /** Ends a statement: what it did, and where the code goes next, is the step of the engine. */
    method EndStatement(cid: CallId, ghost call: Call, ghost suffix: string, pc: PC, ghost ws: Writes)
      requires Midway(cid, call, ws) && LeadsTo(cid, call, suffix, pc, ws)
      modifies `calls, `trace, `steps
      ensures Valid() && At(cid, call.req, pc)
      ensures old(trace) <= trace
    {
      hide IsRun, Exec, LockTarget;
      EnterTransaction(Before().db, WritesOf(Before(), cid), call, Before().nextTxn, suffix);
      Tick(cid, suffix, pc);
    }

    /** Gives up a call of which a statement failed. */
    method Abandon(cid: CallId, ghost call: Call)
      requires Broke(cid, call)
      modifies this
      ensures Valid() && At(cid, call.req, Unwinding(Err(DatabaseFailure)))
      ensures old(trace) <= trace && cid in faults
    {
      hide IsRun;
      Perform(Fail(cid));
    }

    /** Other calls arrive and run, and accounts are opened, until the next statement of `cid` can
        run. That it comes to that is freedom from deadlock together with termination. */
    method Await(cid: CallId)
      requires Valid() && Unfinished(Now(), cid)
      modifies this
      ensures Valid() && Inv(Now()) && Enabled(Now(), cid)
      ensures cid in calls && calls[cid] == old(calls[cid])
      ensures old(trace) <= trace && (cid in faults <==> cid in old(faults))
    {
      hide Apply, CanStep, Inv, Enabled, IsRun;
      var rounds: nat := *;
      while rounds > 0
        invariant Valid() && cid in calls && calls[cid] == old(calls[cid])
        invariant old(trace) <= trace && (cid in faults <==> cid in old(faults))
      {
        var step: Step := *;
        if CanStep(Now(), step) && !IsStepOf(step, cid) {
          OthersLeaveCall(Now(), step, cid);
          Perform(step);
        }
        rounds := rounds - 1;
      }
      NowIsGood();
      MeasureNonNegative(Now());
      while !Enabled(Now(), cid)
        invariant Valid() && cid in calls && calls[cid] == old(calls[cid])
        invariant old(trace) <= trace && (cid in faults <==> cid in old(faults))
        invariant Inv(Now()) && Measure(Now()) >= 0
        decreases Measure(Now())
      {
        ghost var runnable := FindEnabled(Now(), cid);
        EnabledIsCall(Now(), runnable);
        var d :| d in calls && Enabled(Now(), d);
        EnabledCanStep(Now(), d);
        OthersLeaveCall(Now(), Advance(d, ""), cid);
        CallStepShortens(Now(), Advance(d, ""));
        Perform(Advance(d, ""));
        NowIsGood();
        MeasureNonNegative(Now());
      }
    }

    /** Waits for the turn of `cid`; the statement may then fail, if the database may fail the call. */
    method Turn(cid: CallId, ghost call: Call) returns (ok: bool)
      requires Ready(cid, call.req, call.pc) && !call.pc.Finished? && !call.pc.Unwinding?
      modifies this
      ensures old(trace) <= trace && Valid() && Enabled(Now(), cid) && cid in calls && calls[cid] == call
      ensures ok ==> cid !in faults
      ensures !ok ==> Broke(cid, call)
      ensures Local(Tables(), WritesOf(Now(), cid), call) && Fits(call)
      ensures InTransaction(call.pc) ==> cid in open
      ensures IsBegin(call.pc) ==> cid !in open
    {
      hide IsRun, Local, Good, FreshIds, OwnsExactly, LockTarget, GoodKeyLocks, Enabled;
      Await(cid);
      assert GoodCall(Now(), cid);
      LocalFits(Tables(), WritesOf(Now(), cid), call);
      ok := *;
      if !mayFail(cid) {
        ok := true;
      }
      if !ok {
        EnabledIsCall(Now(), cid);
        faults := faults + {cid};
      }
    }

    /** A step that runs no statement. */
    method Locally(cid: CallId, ghost call: Call)
      requires Ready(cid, call.req, call.pc) && call.pc.ReadSender?
      modifies this
      ensures old(trace) <= trace && Midway(cid, call, WritesOf(Before(), cid))
    {
      hide IsRun, Inv, RanStatement;
      Await(cid);
      RanPlain(Now(), cid, call);
    }

    // ---- What a statement does when its turn has come ----

    ghost predicate HasTurn(cid: CallId, call: Call)
      reads this
    {
      && Valid() && Enabled(Now(), cid) && cid in calls && calls[cid] == call && cid !in faults
      && Fits(call) && InTransaction(call.pc) && cid in open && !IsCommit(call.pc)
    }

    ghost predicate Wants(cid: CallId, call: Call, row: Option<Engine.Row>)
      requires Fits(call)
      reads this
    {
      LockTarget(Tables(), WritesOf(Now(), cid), call) == row
    }

    /** It finds no row. */
    lemma NothingDone(cid: CallId, call: Call)
      requires HasTurn(cid, call) && Wants(cid, call, None) && !call.pc.InsertTxn? && !IsBegin(call.pc)
      ensures Midway(cid, call, WritesOf(Before(), cid))
    {
      hide IsRun, Enabled, Exec, LockTarget, RanStatement;
      RanPlain(Now(), cid, call);
    }

    /** It locks a row. */
    method TakeLock(cid: CallId, ghost call: Call, row: Engine.Row)
      requires HasTurn(cid, call) && Wants(cid, call, Some(row)) && !call.pc.InsertTxn? && !IsBegin(call.pc)
      modifies `locks
      ensures Midway(cid, call, WritesOf(Before(), cid)) && row in locks && locks[row] == cid
    {
      hide IsRun, Enabled, Exec, LockTarget, RanStatement;
      RanLocking(Now(), cid, call, row);
      locks := locks[row := cid];
    }

    /** It locks a row and writes. */
    method WriteLocked(cid: CallId, ghost call: Call, row: Engine.Row, ws: Writes)
      requires HasTurn(cid, call) && Wants(cid, call, Some(row)) && !call.pc.InsertTxn? && !IsBegin(call.pc)
      modifies `locks, `open
      ensures Midway(cid, call, ws) && row in locks && locks[row] == cid
    {
      hide IsRun, Enabled, Exec, LockTarget, RanStatement;
      RanWriting(Now(), cid, call, row, ws);
      locks := locks[row := cid];
      open := open[cid := ws];
    }

    /** An insert takes a new id and inserts nothing. */
    method SkipInsert(cid: CallId, ghost call: Call)
      requires HasTurn(cid, call) && call.pc.InsertTxn? && Wants(cid, call, None)
      modifies `nextTxn
      ensures Midway(cid, call, WritesOf(Before(), cid))
    {
      hide IsRun, Enabled, Exec, LockTarget, RanStatement;
      RanIdle(Now(), cid, call);
      nextTxn := nextTxn + 1;
    }

    /** An insert takes a new id, occupies its key and writes the row. */
    method PlaceRow(cid: CallId, ghost call: Call, row: Engine.Row, ws: Writes)
      requires HasTurn(cid, call) && call.pc.InsertTxn? && Wants(cid, call, Some(row))
      modifies `nextTxn, `locks, `open
      ensures Midway(cid, call, ws) && row in locks && locks[row] == cid
    {
      hide IsRun, Enabled, Exec, LockTarget, RanStatement;
      RanInsert(Now(), cid, call, row, ws);
      nextTxn := nextTxn + 1;
      locks := locks[row := cid];
      open := open[cid := ws];
    }

    // ---- Statements: each waits for its turn ----

    method BeginTx(cid: CallId, ghost call: Call) returns (ok: bool)
      requires Ready(cid, call.req, call.pc) && IsBegin(call.pc)
      modifies this
      ensures old(trace) <= trace
      ensures if ok then Midway(cid, call, NO_WRITES) else Broke(cid, call)
    {
      hide IsRun, Enabled, Local, Inv, Exec;
      ok := Turn(cid, call);
      if ok {
        open := open[cid := NO_WRITES];
      }
    }

    /** SELECT without a lock: the committed row. */
    method GetAccount(cid: CallId, ghost call: Call, id: Uuid) returns (reply: Reply<Account>)
      requires Ready(cid, call.req, call.pc) && (call.pc.ReadSender? || call.pc.ReadReceiver?)
      modifies this
      ensures old(trace) <= trace
      ensures if reply == Broken then Broke(cid, call) else
        && Midway(cid, call, WritesOf(Before(), cid))
        && reply == if id in Before().db.accounts then Row(Before().db.accounts[id]) else NoRow
    {
      hide IsRun, Enabled, Local, Inv, Exec, RanStatement;
      var ok := Turn(cid, call);
      if !ok {
        return Broken;
      }
      RanPlain(Now(), cid, call);
      reply := if id in accounts then Row(accounts[id]) else NoRow;
    }

    /** The transaction row `cid` sees: its own write, or else the committed row. */
    method SeeTxn(cid: CallId, id: TxnId) returns (row: Option<Transaction>)
      requires cid in open
      ensures row == SeenTxn(Tables(), open[cid], id)
    {
      if id in open[cid].txns {
        return Some(open[cid].txns[id]);
      }
      row := if id in txns then Some(txns[id]) else None;
    }

    method SeeAccount(cid: CallId, id: Uuid) returns (row: Option<Account>)
      requires cid in open
      ensures row == SeenAccount(Tables(), open[cid], id)
    {
      if id in open[cid].accounts {
        return Some(open[cid].accounts[id]);
      }
      row := if id in accounts then Some(accounts[id]) else None;
    }

    /** SELECT ... FOR UPDATE, once the row is free. */
    method GetTransactionForUpdate(cid: CallId, ghost call: Call, id: TxnId) returns (reply: Reply<Transaction>)
      requires Ready(cid, call.req, call.pc) && call.pc.LockTxn? && !call.req.InitiateReq? && call.req.txn == id
      modifies this
      ensures old(trace) <= trace
      ensures if reply == Broken then Broke(cid, call) else
        && Midway(cid, call, WritesOf(Before(), cid)) && !reply.Refused?
        && SeenTxn(Before().db, WritesOf(Before(), cid), id) == if reply.Row? then Some(reply.value) else None
      ensures reply.Row? ==> TxnRow(id) in locks && locks[TxnRow(id)] == cid
    {
      hide IsRun, Enabled, Local, Inv, Exec, LockTarget, RanStatement;
      var ok := Turn(cid, call);
      if !ok {
        return Broken;
      }
      TxnAsked(Tables(), open[cid], call, id);
      var row := SeeTxn(cid, id);
      if row.None? {
        NothingDone(cid, call);
        return NoRow;
      }
      TakeLock(cid, call, TxnRow(id));
      reply := Row(row.value);
    }

    method GetAccountForUpdate(cid: CallId, ghost call: Call, id: Uuid) returns (reply: Reply<Account>)
      requires Ready(cid, call.req, call.pc) && AsksFor(call.pc, id)
      modifies this
      ensures old(trace) <= trace
      ensures if reply == Broken then Broke(cid, call) else
        && Midway(cid, call, WritesOf(Before(), cid)) && !reply.Refused?
        && SeenAccount(Before().db, WritesOf(Before(), cid), id) == if reply.Row? then Some(reply.value) else None
      ensures reply.Row? ==> AccountRow(id) in locks && locks[AccountRow(id)] == cid
    {
      hide IsRun, Enabled, Local, Inv, Exec, LockTarget, RanStatement;
      AccountAsked(Tables(), NO_WRITES, call, id);
      hide AsksFor;
      var ok := Turn(cid, call);
      if !ok {
        return Broken;
      }
      AccountAsked(Tables(), open[cid], call, id);
      var row := SeeAccount(cid, id);
      if row.None? {
        NothingDone(cid, call);
        return NoRow;
      }
      TakeLock(cid, call, AccountRow(id));
      reply := Row(row.value);
    }

    method GetTransactionByIdempotencyKeyForUpdate(cid: CallId, ghost call: Call, key: string)
        returns (reply: Reply<Transaction>)
      requires Ready(cid, call.req, call.pc) && call.pc.FetchExisting? && call.req.InitiateReq? && call.req.key == key
      modifies this
      ensures old(trace) <= trace
      ensures if reply == Broken then Broke(cid, call) else
        && Midway(cid, call, WritesOf(Before(), cid))
        && var db := Before().db;
           reply == if key in db.byKey && db.byKey[key] in db.txns then Row(db.txns[db.byKey[key]]) else NoRow
      ensures reply.Row? ==> key in byKey && TxnRow(byKey[key]) in locks && locks[TxnRow(byKey[key])] == cid
    {
      hide IsRun, Enabled, Local, Inv, Exec, RanStatement;
      var ok := Turn(cid, call);
      if !ok {
        return Broken;
      }
      if key !in byKey {
        RanPlain(Now(), cid, call);
        return NoRow;
      }
      RanLocking(Now(), cid, call, TxnRow(byKey[key]));
      locks := locks[TxnRow(byKey[key]) := cid];
      reply := if byKey[key] in txns then Row(txns[byKey[key]]) else NoRow;
    }

    /** The row `balance = balance + delta` makes of the account row `cid` sees: refused on BIGINT
        overflow and by CHECK (balance >= 0). */
    method AddToBalance(cid: CallId, id: Uuid, delta: int64) returns (reply: Reply<Account>)
      requires cid in open
      ensures reply == NoRow ==> AccountTarget(Tables(), open[cid], id) == None
      ensures reply != NoRow ==> AccountTarget(Tables(), open[cid], id) == Some(AccountRow(id))
      ensures !reply.Row? ==> NewBalance(Tables(), open[cid], id, delta) == None && reply != Broken
      ensures reply.Row? ==>
        && SeenAccount(Tables(), open[cid], id).Some?
        && NewBalance(Tables(), open[cid], id, delta) == Some(reply.value.balance)
        && WithBalance(Tables(), open[cid], id, reply.value.balance)
           == open[cid].(accounts := open[cid].accounts[id := reply.value])
    {
      var row := SeeAccount(cid, id);
      if row.None? {
        return NoRow;
      }
      var balance := row.value.balance + delta;
      if balance < 0 || balance > INT64_MAX {
        return Refused;
      }
      reply := Row(row.value.(balance := balance));
    }

    /** UPDATE accounts SET balance = balance + delta RETURNING balance. */
    method UpdateBalance(cid: CallId, ghost call: Call, id: Uuid, delta: int64) returns (reply: Reply<int>)
      requires Ready(cid, call.req, call.pc) && AsksFor(call.pc, id)
      modifies this
      ensures old(trace) <= trace
      ensures if reply == Broken then Broke(cid, call) else
        var db, ws := Before().db, WritesOf(Before(), cid);
        if reply.Row? then
          && NewBalance(db, ws, id, delta) == Some(reply.value)
          && Midway(cid, call, WithBalance(db, ws, id, reply.value))
        else
          NewBalance(db, ws, id, delta) == None && Midway(cid, call, ws)
      ensures reply.Row? ==> AccountRow(id) in locks && locks[AccountRow(id)] == cid && 0 <= reply.value <= INT64_MAX
    {
      hide IsRun, Enabled, Local, Inv, Exec, LockTarget, RanStatement;
      AccountAsked(Tables(), NO_WRITES, call, id);
      hide AsksFor;
      var ok := Turn(cid, call);
      if !ok {
        return Broken;
      }
      AccountAsked(Tables(), open[cid], call, id);
      hide AccountTarget, NewBalance, WithBalance;
      var row := AddToBalance(cid, id, delta);
      if row == NoRow {
        NothingDone(cid, call);
        return NoRow;
      }
      if row == Refused {
        TakeLock(cid, call, AccountRow(id));
        return Refused;
      }
      var ws := open[cid].(accounts := open[cid].accounts[id := row.value]);
      WriteLocked(cid, call, AccountRow(id), ws);
      reply := Row(row.value.balance);
    }

    method UpdateTransactionStatus(cid: CallId, ghost call: Call, id: TxnId, status: Status, ref: string)
        returns (ok: bool)
      requires Ready(cid, call.req, call.pc) && (call.pc.MarkAuthorized? || call.pc.MarkSettled?) && call.pc.t.id == id
      modifies this
      ensures old(trace) <= trace
      ensures if !ok then Broke(cid, call)
        else Midway(cid, call, WithStatus(Before().db, WritesOf(Before(), cid), id, status, ref))
    {
      hide IsRun, Enabled, Local, Inv, Exec, LockTarget, RanStatement;
      ok := Turn(cid, call);
      if !ok {
        return;
      }
      TxnAsked(Tables(), open[cid], call, id);
      var row := SeeTxn(cid, id);
      if row.None? {
        NothingDone(cid, call);
        return;
      }
      var ws := open[cid].(txns := open[cid].txns[id := row.value.(status := status, providerRef := ref)]);
      WriteLocked(cid, call, TxnRow(id), ws);
    }

    method CreateLedgerEntry(cid: CallId, ghost call: Call, e: Entry) returns (ok: bool)
      requires Ready(cid, call.req, call.pc) && (call.pc.AppendDebit? || call.pc.AppendCredit?)
      modifies this
      ensures old(trace) <= trace
      ensures if ok then Midway(cid, call, WithEntry(WritesOf(Before(), cid), e)) else Broke(cid, call)
    {
      hide IsRun, Enabled, Local, Inv, Exec;
      ok := Turn(cid, call);
      if ok {
        open := open[cid := open[cid].(entries := open[cid].entries + [e])];
      }
    }

    /** INSERT ... ON CONFLICT (idempotency_key) DO NOTHING under a new id: the row, if it inserted. */
    method InsertTransaction(cid: CallId, ghost call: Call, req: Request) returns (reply: Reply<Option<Transaction>>)
      requires req.InitiateReq? && req.sender.Some? && req.receiver.Some?
      requires Ready(cid, call.req, call.pc) && call == Call(req, InsertTxn)
      modifies this
      ensures old(trace) <= trace
      ensures if reply == Broken then Broke(cid, call) else
        var db, ws, t := Before().db, WritesOf(Before(), cid), NewTransaction(req, Before().nextTxn);
        if !Insertable(req) then reply == Refused && Midway(cid, call, ws)
        else if req.key in db.byKey then reply == Row(None) && Midway(cid, call, ws)
        else reply == Row(Some(t)) && Midway(cid, call, WithInsert(ws, t))
      ensures reply.Row? && reply.value.Some? ==> KeyRow(req.key) in locks && locks[KeyRow(req.key)] == cid
    {
      hide IsRun, Enabled, Local, Inv, Exec, LockTarget, RanStatement;
      var ok := Turn(cid, call);
      if !ok {
        return Broken;
      }
      KeyAsked(Tables(), open[cid], call);
      var sender, receiver := req.sender.value, req.receiver.value;
      var t := Transaction(nextTxn, req.key, sender, receiver, req.amount, req.currency, Pending, "");
      if t.amount <= 0 || |t.key| > VARCHAR_LIMIT {
        SkipInsert(cid, call);
        return Refused;
      }
      if t.key in byKey {
        SkipInsert(cid, call);
        return Row(None);
      }
      var ws := open[cid].(txns := open[cid].txns[t.id := t], keys := open[cid].keys[t.key := t.id]);
      PlaceRow(cid, call, KeyRow(t.key), ws);
      reply := Row(Some(t));
    }

    /** The private writes become the tables', all at once, and the locks are given back. */
    method Publish(cid: CallId)
      requires cid in open
      modifies `accounts, `txns, `byKey, `ledger, `locks, `open
      ensures Tables() == Merge(old(Tables()), old(open)[cid])
      ensures locks == Release(old(locks), cid) && open == old(open) - {cid}
      ensures forall r :: r in locks ==> locks[r] != cid
    {
      var ws := open[cid];
      accounts, txns, byKey := accounts + ws.accounts, txns + ws.txns, byKey + ws.keys;
      ledger := ledger + ws.entries;
      Discard(cid);
    }

    /** The private writes are dropped and the locks are given back. */
    method Discard(cid: CallId)
      modifies `locks, `open
      ensures locks == Release(old(locks), cid) && open == old(open) - {cid}
      ensures forall r :: r in locks ==> locks[r] != cid
    {
      locks := map r | r in locks && locks[r] != cid :: locks[r];
      open := open - {cid};
    }

    /** COMMIT. `txn` is the record the call will return. */
    method Commit(cid: CallId, ghost call: Call, txn: Transaction) returns (ok: bool)
      requires Ready(cid, call.req, call.pc) && IsCommit(call.pc) && txn == Returned(call.pc)
      modifies this
      ensures old(trace) <= trace
      ensures if ok then Valid() && At(cid, call.req, Finished(Ok(txn))) && cid !in faults
              else Broke(cid, call)
      ensures ok ==> cid !in open && forall r :: r in locks ==> locks[r] != cid
    {
      hide IsRun, Local, Returned, Exec, LockTarget, Acquire, Merge, Release;
      ok := Turn(cid, call);
      if ok {
        Publish(cid);
        Tick(cid, "", Finished(Ok(txn)));
      }
    }

    /** ROLLBACK. */
    method Rollback(cid: CallId, ghost req: Request, outcome: Outcome)
      requires Valid() && At(cid, req, Unwinding(outcome))
      modifies this
      ensures Valid() && At(cid, req, Finished(outcome))
      ensures old(trace) <= trace && (cid in faults <==> cid in old(faults))
      ensures cid !in open && forall r :: r in locks ==> locks[r] != cid
    {
      hide IsRun, Inv, Exec, Merge, Enabled, LockTarget, Acquire, Release;
      Await(cid);
      Discard(cid);
      Tick(cid, "", Finished(outcome));
    }

    /** CreateAccount: one insert, committed at once, under a new id. It is refused exactly if the row
        breaks a constraint or the id, e-mail address or API key is taken. */
    method CreateAccount(id: Uuid, balance: int64, currency: string, kind: string, email: string, apiKey: string)
        returns (ok: bool)
      requires Valid()
      modifies this
      ensures Valid() && old(trace) <= trace && faults == old(faults)
      ensures ok <==>
        && id !in old(accounts) && balance >= 0 && |currency| <= 3
        && (kind == "user" || kind == "merchant") && |email| <= 255 && |apiKey| <= 255
        && (forall a :: a in old(accounts) ==> old(accounts)[a].email != email && old(accounts)[a].apiKey != apiKey)
      ensures ok ==>
        && id in accounts && accounts == old(accounts)[id := accounts[id]]
        && accounts[id] == Account(balance, accounts[id].currency, kind, email, apiKey)
        && |accounts[id].currency| == 3 && accounts[id].currency[..|currency|] == currency
        && (forall i :: |currency| <= i < 3 ==> accounts[id].currency[i] == ' ')
        && opening == old(opening)[id := balance]
      ensures !ok ==> accounts == old(accounts) && opening == old(opening)
      ensures txns == old(txns) && byKey == old(byKey) && ledger == old(ledger) && calls == old(calls)
    {
      hide IsRun, Padded;
      if |currency| > 3 || balance < 0 || (kind != "user" && kind != "merchant")
         || |email| > VARCHAR_LIMIT || |apiKey| > VARCHAR_LIMIT {
        return false;
      }
      if id in accounts || !Unclaimed(accounts, email, apiKey) {
        return false;
      }
      var row := Account(balance, Padded(currency), kind, email, apiKey);
      hide Unclaimed;
      RunExtends(trace, steps, Open(id, row));
      accounts := accounts[id := row];
      opening := opening[id := balance];
      trace, steps := trace + [Now()], steps + [Open(id, row)];
      ok := true;
    }
  }
}
