/** The locks the engine leaves out: inserting a payment also takes a key-share lock on its sender's
    and then on its receiver's account row, for the two foreign keys. A key-share lock waits for the
    row lock of SELECT ... FOR UPDATE and is waited for by it; key-share locks do not wait for each
    other. They only keep calls waiting that the engine lets run, so every run of the system with
    these locks is a run of the engine, and what holds of all runs holds of it. What changes is who
    waits for whom. Here: the calls can only deadlock through an insert whose receiver's id is below
    its sender's, and through such an insert they can. */
module ForeignKeys {
  import opened Uuids
  import opened Records
  import opened AtomicGateway
  import opened Books
  import opened Engine
  import opened EngineInvariant
  import opened Safety
  import opened Liveness
  import opened Completeness

  /** The account rows each call has key-share locked. */
  type Shares = map<CallId, set<Uuid>>

  function SharedBy(shares: Shares, c: CallId): set<Uuid> {
    if c in shares then shares[c] else {}
  }

  /** The row of call `c` is inserted and its foreign keys are being checked, sender first. */
  predicate Inserting(s: State, c: CallId) {
    c in s.calls && s.calls[c].pc.CommitCreate?
  }

  /** How the key-share locks can stand in state `s`. */
  ghost predicate SharesOf(s: State, shares: Shares) {
    && (forall c :: c in shares ==> Inserting(s, c) || (c in s.calls && s.calls[c].pc.Unwinding?))
    && (forall c :: c in shares && Inserting(s, c) ==>
          shares[c] == {} || shares[c] == {s.calls[c].pc.t.sender}
          || shares[c] == {s.calls[c].pc.t.sender, s.calls[c].pc.t.receiver})
    && (forall c, a :: c in shares && a in shares[c] && AccountRow(a) in s.locks ==> s.locks[AccountRow(a)] == c)
  }

  /** The account row the next foreign-key check of `c` wants. */
  function KeyWanted(s: State, shares: Shares, c: CallId): Option<Row> {
    if !Inserting(s, c) then None
    else
      var t := s.calls[c].pc.t;
      if t.sender !in SharedBy(shares, c) then Some(AccountRow(t.sender))
      else if t.receiver !in SharedBy(shares, c) then Some(AccountRow(t.receiver))
      else None
  }

  /** The row a call wants next, for a foreign key or a statement. */
  function Wanted(s: State, shares: Shares, c: CallId): Option<Row> {
    if Inserting(s, c) then KeyWanted(s, shares, c)
    else if Unfinished(s, c) && Fits(s.calls[c]) then Target(s, c)
    else None
  }

  /** `c` waits for `d`, which holds the row `c` wants, or shares it when `c` wants it for itself. */
  ghost predicate Waits(s: State, shares: Shares, c: CallId, d: CallId) {
    && c != d
    && match Wanted(s, shares, c)
       case None => false
       case Some(row) =>
         || (row in s.locks && s.locks[row] == d)
         || (!Inserting(s, c) && row.AccountRow? && row.account in SharedBy(shares, d))
  }

  ghost predicate Waiting(s: State, shares: Shares, c: CallId) {
    exists d :: Waits(s, shares, c, d)
  }

  /** An insert whose keys are checked against the order in which settlements lock accounts. */
  predicate Reversed(s: State, c: CallId) {
    Inserting(s, c) && TextLess(s.calls[c].pc.t.receiver, s.calls[c].pc.t.sender)
  }

  function WantedRank(s: State, shares: Shares, c: CallId): nat {
    var row := Wanted(s, shares, c);
    if row.Some? then LockRank(row.value) else 0
  }

  // ---- Only a reversed insert can close a cycle ----

  /** A waiting insert wants a row above those it shares, unless it is reversed. */
  lemma InsertClimbs(s: State, shares: Shares, d: CallId, a: Uuid)
    requires SharesOf(s, shares) && Inserting(s, d) && !Reversed(s, d)
    requires Wanted(s, shares, d).Some? && a in SharedBy(shares, d)
    ensures LockRank(AccountRow(a)) < WantedRank(s, shares, d)
  {
    var t := s.calls[d].pc.t;
    assert t.receiver >= t.sender && a in {t.sender, t.receiver};
    assert t.sender in shares[d];
    hide SharesOf, Reversed, LockTarget;
    assert Wanted(s, shares, d) == Some(AccountRow(t.receiver));
  }

  /** A row locked by a waiting call comes before the one it wants. */
  lemma LockedBelowWanted(s: State, shares: Shares, d: CallId, row: Row)
    requires Inv(s) && SharesOf(s, shares) && Waiting(s, shares, d) && row in s.locks && s.locks[row] == d
    ensures LockRank(row) < WantedRank(s, shares, d)
  {
    hide Good, FreshIds, GoodKeyLocks, Local, Held, LockTarget, LockRank;
    assert d in s.calls && GoodCall(s, d);
    if Inserting(s, d) {
      InsertHolds(s.calls[d]);
      assert row in Held(s.calls[d]);
      KeyRank(s, shares, d, row);
    } else {
      NotUnwinding(s, shares, d);
      var wanted := Wanted(s, shares, d).value;
      var e :| Waits(s, shares, d, e);
      assert wanted !in s.locks || s.locks[wanted] != d;
      TargetAboveHeld(s.db, WritesOf(s, d), s.calls[d]);
    }
  }

  lemma InsertHolds(call: Call)
    requires call.pc.CommitCreate?
    ensures Held(call) == {KeyRow(call.pc.t.key)}
  {
  }

  lemma KeyRank(s: State, shares: Shares, d: CallId, row: Row)
    requires row.KeyRow? && Inserting(s, d) && Wanted(s, shares, d).Some?
    ensures LockRank(row) < WantedRank(s, shares, d)
  {
  }

  lemma NotUnwinding(s: State, shares: Shares, d: CallId)
    requires Wanted(s, shares, d).Some? && !Inserting(s, d)
    ensures d in s.calls && Fits(s.calls[d]) && !s.calls[d].pc.Unwinding? && !s.calls[d].pc.Finished?
    ensures Wanted(s, shares, d) == Target(s, d)
  {
  }

  /** Along an edge into a call that waits itself, the wanted rows climb. */
  lemma WaitClimbs(s: State, shares: Shares, c: CallId, d: CallId)
    requires Inv(s) && SharesOf(s, shares) && Waits(s, shares, c, d) && Waiting(s, shares, d) && !Reversed(s, d)
    ensures WantedRank(s, shares, c) < WantedRank(s, shares, d)
  {
    hide Inv, LockRank, LockTarget;
    var row := Wanted(s, shares, c).value;
    if row in s.locks && s.locks[row] == d {
      LockedBelowWanted(s, shares, d, row);
    } else {
      WaitingWants(s, shares, d);
      InsertClimbs(s, shares, d, row.account);
    }
  }

  lemma WaitingWants(s: State, shares: Shares, d: CallId)
    requires SharesOf(s, shares) && Waiting(s, shares, d)
    ensures Wanted(s, shares, d).Some? && (d in shares ==> Inserting(s, d))
  {
  }

  lemma {:induction false} ChainClimbsToo(s: State, shares: Shares, chain: seq<CallId>)
    requires Inv(s) && SharesOf(s, shares) && |chain| >= 2
    requires forall i :: 0 <= i < |chain| - 1 ==> Waits(s, shares, chain[i], chain[i + 1])
    requires Waiting(s, shares, chain[|chain| - 1]) && forall i :: 0 <= i < |chain| ==> !Reversed(s, chain[i])
    ensures WantedRank(s, shares, chain[0]) < WantedRank(s, shares, chain[|chain| - 1])
  {
    hide Inv, SharesOf, Waits, WantedRank;
    var n := |chain| - 1;
    assert Waits(s, shares, chain[n - 1], chain[n]);
    WaitClimbs(s, shares, chain[n - 1], chain[n]);
    if n == 1 {
    } else {
      ChainClimbsToo(s, shares, chain[..n]);
    }
  }

  /** With the locks of foreign keys, too: in every reachable state, however those locks stand, a
      cycle of waiting calls goes through an insert whose receiver's id is below its sender's. Calls
      to authorize and to settle alone never deadlock. */
  lemma OnlyReversedInsertsDeadlock(tr: seq<State>, steps: seq<Step>, i: nat, shares: Shares, cycle: seq<CallId>)
    requires IsRun(tr, steps) && i < |tr| && SharesOf(tr[i], shares) && |cycle| >= 2
    requires forall j :: 0 <= j < |cycle| - 1 ==> Waits(tr[i], shares, cycle[j], cycle[j + 1])
    requires cycle[0] == cycle[|cycle| - 1]
    ensures exists j ::
      && 0 <= j < |cycle| && cycle[j] in tr[i].calls && tr[i].calls[cycle[j]].pc.CommitCreate?
      && tr[i].calls[cycle[j]].pc.t.receiver < tr[i].calls[cycle[j]].pc.t.sender
  {
    hide IsRun, Inv, SharesOf, Waits, WantedRank, Reversed;
    RunInv(tr, steps, i);
    assert Waits(tr[i], shares, cycle[0], cycle[1]);
    if forall j :: 0 <= j < |cycle| ==> !Reversed(tr[i], cycle[j]) {
      ChainClimbsToo(tr[i], shares, cycle);
    } else {
      var j :| 0 <= j < |cycle| && Reversed(tr[i], cycle[j]);
      ReversedMeans(tr[i], cycle[j]);
    }
  }

  lemma ReversedMeans(s: State, c: CallId)
    requires Reversed(s, c)
    ensures c in s.calls && s.calls[c].pc.CommitCreate? && s.calls[c].pc.t.receiver < s.calls[c].pc.t.sender
  {
  }

  /** Without such inserts, from any unfinished call one gets to a call that waits for nothing. */
  lemma {:induction false} FindRunnable(s: State, shares: Shares, c: CallId) returns (d: CallId)
    requires Inv(s) && SharesOf(s, shares) && Unfinished(s, c) && forall x :: x in s.calls ==> !Reversed(s, x)
    ensures Unfinished(s, d) && !Waiting(s, shares, d) && Enabled(s, d)
    decreases TOP_RANK - WantedRank(s, shares, c)
  {
    hide Inv, SharesOf, Waits, WantedRank, Reversed, LockTarget;
    if Waiting(s, shares, c) {
      var e :| Waits(s, shares, c, e);
      WaitedForIsUnfinished(s, shares, c, e);
      if Waiting(s, shares, e) {
        WaitClimbs(s, shares, c, e);
        RankBelowTop(s, shares, e);
        d := FindRunnable(s, shares, e);
      } else {
        d := e;
        NotWaitingIsEnabled(s, shares, e);
      }
    } else {
      d := c;
      NotWaitingIsEnabled(s, shares, c);
    }
  }

  lemma RankBelowTop(s: State, shares: Shares, c: CallId)
    ensures WantedRank(s, shares, c) < TOP_RANK
  {
  }

  lemma WaitedForIsUnfinished(s: State, shares: Shares, c: CallId, d: CallId)
    requires Inv(s) && SharesOf(s, shares) && Waits(s, shares, c, d)
    ensures Unfinished(s, d)
  {
    hide Good, GoodCall, FreshIds, LockTarget;
    var row := Wanted(s, shares, c).value;
    if row in s.locks && s.locks[row] == d {
      HolderUnfinished(s, row);
    }
  }

  lemma BlockedWaits(s: State, shares: Shares, c: CallId)
    requires c in s.calls && Fits(s.calls[c])
    ensures Blocked(s, c) && !Inserting(s, c) ==> Waits(s, shares, c, s.locks[Target(s, c).value])
  {
  }

  lemma NotWaitingIsEnabled(s: State, shares: Shares, c: CallId)
    requires Inv(s) && Unfinished(s, c) && !Waiting(s, shares, c)
    ensures Enabled(s, c)
  {
    hide Good, GoodCall, FreshIds;
    CallFits(s, c);
    BlockedWaits(s, shares, c);
  }

  // ---- A reversed insert does ----

  lemma QuietHoldsNothing(s: State)
    requires Inv(s) && Quiet(s)
    ensures s.locks == map[] && s.open == map[]
  {
    hide Good, FreshIds, Local;
    forall c | c in s.calls ensures c !in s.open && forall r :: r in s.locks ==> s.locks[r] != c {
      assert GoodCall(s, c);
    }
  }

  /** From `s` to `t` only call `cid` has come and run, up to `pc`, without writing anything. */
  predicate Stands(s: State, t: State, cid: CallId, call: Call, locks: map<Row, CallId>) {
    && t.db == s.db && t.locks == locks && WritesOf(t, cid) == NO_WRITES
    && t.calls == s.calls[cid := call]
  }

  lemma Arrives(tr: seq<State>, steps: seq<Step>, cid: CallId, req: Request)
      returns (tr': seq<State>, steps': seq<Step>)
    requires IsRun(tr, steps) && |tr| > 0 && cid !in Last(tr).calls
    ensures IsRun(tr', steps') && tr <= tr'
    ensures Stands(Last(tr), Last(tr'), cid, Call(req, if req.InitiateReq? then ReadSender else BeginCall),
                   Last(tr).locks)
  {
    LastInv(tr, steps);
    assert cid !in Last(tr).open by { ClosedBefore(Last(tr), cid); }
    hide IsRun, Inv;
    tr', steps' := TakeStep(tr, steps, Start(cid, req));
  }

  lemma ClosedBefore(s: State, cid: CallId)
    requires Inv(s) && cid !in s.calls
    ensures cid !in s.open
  {
    hide Good, GoodCall, FreshIds;
  }

  /** Call `cid` can run its next statement, and then goes on at `pc`. */
  predicate Leads(s: State, cid: CallId, pc: PC, locks: map<Row, CallId>) {
    && Enabled(s, cid)
    && Stands(s, AdvanceCall(s, cid, ""), cid, Call(s.calls[cid].req, pc), locks)
  }

  lemma Go(s: State, tr: seq<State>, steps: seq<Step>, cid: CallId, call: Call, locks: map<Row, CallId>,
           pc: PC, locks': map<Row, CallId>) returns (tr': seq<State>, steps': seq<Step>)
    requires IsRun(tr, steps) && |tr| > 0 && Stands(s, Last(tr), cid, call, locks) && Leads(Last(tr), cid, pc, locks')
    ensures IsRun(tr', steps') && tr <= tr' && Stands(s, Last(tr'), cid, Call(call.req, pc), locks')
  {
    hide IsRun, AdvanceCall, Enabled;
    tr', steps' := TakeStep(tr, steps, Advance(cid, ""));
  }

  /** What the next statements of a settle call do, when the rows they lock are free. */
  lemma SettleLocks(s0: State, s: State, cid: CallId, t: Transaction, pc: PC, locks: map<Row, CallId>)
    requires Stands(s0, s, cid, Call(SettleReq(t.id, ""), pc), locks)
    requires t.id in s0.db.txns && s0.db.txns[t.id] == t && t.status == Authorized
    requires t.sender in s0.db.accounts && t.receiver in s0.db.accounts
    ensures pc.BeginCall? ==> Leads(s, cid, LockTxn, locks)
    ensures pc.LockTxn? && TxnRow(t.id) !in locks ==> Leads(s, cid, LockFirst(t), locks[TxnRow(t.id) := cid])
    ensures pc == LockFirst(t) && AccountRow(FirstLock(t)) !in locks ==>
      Leads(s, cid, LockSecond(t), locks[AccountRow(FirstLock(t)) := cid])
  {
    hide TextLess;
  }

  lemma InitiateReads(s0: State, s: State, cid: CallId, req: Request, pc: PC, locks: map<Row, CallId>)
    requires Stands(s0, s, cid, Call(req, pc), locks) && CanRequest(s0.db, req)
    ensures pc.ReadSender? ==> Leads(s, cid, ReadReceiver(req.currency), locks)
    ensures pc == ReadReceiver(req.currency) ==> Leads(s, cid, BeginInsert, locks)
    ensures pc.BeginInsert? ==> Leads(s, cid, InsertTxn, locks)
  {
  }

  lemma InitiateInserts(s0: State, s: State, cid: CallId, req: Request, locks: map<Row, CallId>)
    requires Stands(s0, s, cid, Call(req, InsertTxn), locks) && CanRequest(s0.db, req) && KeyRow(req.key) !in locks
    ensures Enabled(s, cid)
    ensures var s' := AdvanceCall(s, cid, "");
      && s'.db == s0.db && s'.locks == locks[KeyRow(req.key) := cid]
      && s'.calls == s0.calls[cid := Call(req, CommitCreate(NewTransaction(req, s.nextTxn)))]
  {
  }

  /** A settle call that has locked its payment and the first of the two accounts. */
  lemma RunToSecondLock(tr: seq<State>, steps: seq<Step>, cid: CallId, t: Transaction)
      returns (tr': seq<State>, steps': seq<Step>)
    requires IsRun(tr, steps) && |tr| > 0 && cid !in Last(tr).calls && Last(tr).locks == map[]
    requires t.id in Last(tr).db.txns && Last(tr).db.txns[t.id] == t && t.status == Authorized
    requires t.sender in Last(tr).db.accounts && t.receiver in Last(tr).db.accounts
    ensures IsRun(tr', steps') && tr <= tr'
    ensures Stands(Last(tr), Last(tr'), cid, Call(SettleReq(t.id, ""), LockSecond(t)),
                   map[TxnRow(t.id) := cid, AccountRow(FirstLock(t)) := cid])
  {
    hide IsRun, Stands, Leads, FirstLock;
    var s, req, held := Last(tr), SettleReq(t.id, ""), map[TxnRow(t.id) := cid];
    tr', steps' := Arrives(tr, steps, cid, req);
    SettleLocks(s, Last(tr'), cid, t, BeginCall, map[]);
    tr', steps' := Go(s, tr', steps', cid, Call(req, BeginCall), map[], LockTxn, map[]);
    SettleLocks(s, Last(tr'), cid, t, LockTxn, map[]);
    tr', steps' := Go(s, tr', steps', cid, Call(req, LockTxn), map[], LockFirst(t), held);
    SettleLocks(s, Last(tr'), cid, t, LockFirst(t), held);
    tr', steps' := Go(s, tr', steps', cid, Call(req, LockFirst(t)), held,
                      LockSecond(t), held[AccountRow(FirstLock(t)) := cid]);
  }

  lemma RunReads(tr: seq<State>, steps: seq<Step>, cid: CallId, req: Request)
      returns (tr': seq<State>, steps': seq<Step>)
    requires IsRun(tr, steps) && |tr| > 0 && cid !in Last(tr).calls && CanRequest(Last(tr).db, req)
    ensures IsRun(tr', steps') && tr <= tr'
    ensures Stands(Last(tr), Last(tr'), cid, Call(req, InsertTxn), Last(tr).locks)
  {
    RequestParts(Last(tr).db, req);
    hide IsRun, Stands, Leads, CanRequest;
    var s, locks := Last(tr), Last(tr).locks;
    tr', steps' := Arrives(tr, steps, cid, req);
    InitiateReads(s, Last(tr'), cid, req, ReadSender, locks);
    tr', steps' := Go(s, tr', steps', cid, Call(req, ReadSender), locks, ReadReceiver(req.currency), locks);
    InitiateReads(s, Last(tr'), cid, req, ReadReceiver(req.currency), locks);
    tr', steps' := Go(s, tr', steps', cid, Call(req, ReadReceiver(req.currency)), locks, BeginInsert, locks);
    InitiateReads(s, Last(tr'), cid, req, BeginInsert, locks);
    tr', steps' := Go(s, tr', steps', cid, Call(req, BeginInsert), locks, InsertTxn, locks);
  }

  /** An initiate call that has inserted its row and is about to have its keys checked. */
  lemma RunToInsert(tr: seq<State>, steps: seq<Step>, cid: CallId, req: Request)
      returns (tr': seq<State>, steps': seq<Step>, id: TxnId)
    requires IsRun(tr, steps) && |tr| > 0 && cid !in Last(tr).calls
    requires CanRequest(Last(tr).db, req) && KeyRow(req.key) !in Last(tr).locks
    ensures IsRun(tr', steps') && tr <= tr' && Last(tr').db == Last(tr).db
    ensures Last(tr').calls == Last(tr).calls[cid := Call(req, CommitCreate(NewTransaction(req, id)))]
    ensures Last(tr').locks == Last(tr).locks[KeyRow(req.key) := cid]
  {
    RequestParts(Last(tr).db, req);
    hide IsRun, CanRequest, Stands, Enabled, AdvanceCall;
    tr', steps' := RunReads(tr, steps, cid, req);
    InitiateInserts(Last(tr), Last(tr'), cid, req, Last(tr).locks);
    id := Last(tr').nextTxn;
    tr', steps' := TakeStep(tr', steps', Advance(cid, ""));
  }

  lemma RequestParts(db: Db, req: Request)
    requires CanRequest(db, req)
    ensures req.InitiateReq? && req.sender.Some? && req.receiver.Some?
  {
  }

  /** A settle call that has the first of two account rows, and an insert that shares the second and
      wants the first, wait for each other. */
  lemma EachWaits(s: State, t: Transaction, t': Transaction, c: CallId, d: CallId)
    requires c != d && c in s.calls && d in s.calls
    requires s.calls[c] == Call(SettleReq(t.id, ""), LockSecond(t)) && s.calls[d].pc == CommitCreate(t')
    requires t'.sender == SecondLock(t) && t'.receiver == FirstLock(t) && t.sender != t.receiver
    requires SecondLock(t) in s.db.accounts
    requires AccountRow(FirstLock(t)) in s.locks && s.locks[AccountRow(FirstLock(t))] == c
    requires AccountRow(SecondLock(t)) !in s.locks
    ensures var shares := map[d := {SecondLock(t)}];
      SharesOf(s, shares) && Waits(s, shares, c, d) && Waits(s, shares, d, c)
  {
    hide TextLess;
    var shares: Shares := map[d := {SecondLock(t)}];
    assert Wanted(s, shares, c) == Some(AccountRow(SecondLock(t)));
    assert Wanted(s, shares, d) == Some(AccountRow(FirstLock(t)));
  }

  /** From any reachable state in which no call is in progress and some payment between two accounts
      is authorized: settling it, while a new payment is initiated between the same accounts from the
      one locked second to the one locked first, can deadlock. */
  lemma ReversedInsertDeadlocks(tr: seq<State>, steps: seq<Step>, id: TxnId, key: string, c: CallId)
      returns (tr': seq<State>, steps': seq<Step>, shares: Shares, d: CallId)
    requires IsRun(tr, steps) && |tr| > 0 && Quiet(Last(tr)) && forall x :: x in Last(tr).calls ==> x < c
    requires id in Last(tr).db.txns && Last(tr).db.txns[id].status == Authorized
    requires Last(tr).db.txns[id].sender != Last(tr).db.txns[id].receiver
    requires key !in Last(tr).db.byKey && |key| <= VARCHAR_LIMIT
    ensures IsRun(tr', steps') && tr <= tr' && SharesOf(Last(tr'), shares)
    ensures c != d && Waits(Last(tr'), shares, c, d) && Waits(Last(tr'), shares, d, c)
  {
    var t := Last(tr).db.txns[id];
    var req := InitiateReq(key, Some(SecondLock(t)), Some(FirstLock(t)), 1, t.currency);
    BackRequest(tr, steps, id, key);
    TwoLocks(t);
    hide IsRun, Quiet, SharesOf, Waits, CanRequest, FirstLock, SecondLock, GoodTxn, Insertable;
    tr', steps' := RunToSecondLock(tr, steps, c, t);
    d := c + 1;
    var back;
    tr', steps', back := RunToInsert(tr', steps', d, req);
    EachWaits(Last(tr'), t, NewTransaction(req, back), c, d);
    shares := map[d := {SecondLock(t)}];
  }

  lemma TwoLocks(t: Transaction)
    requires t.sender != t.receiver
    ensures FirstLock(t) != SecondLock(t)
  {
  }

  /** A request for a payment between the parties of a stored one, from the account locked second. */
  lemma BackRequest(tr: seq<State>, steps: seq<Step>, id: TxnId, key: string)
    requires IsRun(tr, steps) && |tr| > 0 && Quiet(Last(tr)) && id in Last(tr).db.txns
    requires key !in Last(tr).db.byKey && |key| <= VARCHAR_LIMIT
    ensures Last(tr).locks == map[] && GoodTxn(Last(tr).db, id)
    ensures var t := Last(tr).db.txns[id];
      && t.id == id && t.sender in Last(tr).db.accounts && t.receiver in Last(tr).db.accounts
      && SecondLock(t) in Last(tr).db.accounts
      && CanRequest(Last(tr).db, InitiateReq(key, Some(SecondLock(t)), Some(FirstLock(t)), 1, t.currency))
  {
    LastInv(tr, steps);
    QuietHoldsNothing(Last(tr));
    StoredIsGood(Last(tr), id);
    hide IsRun, Inv, Quiet, GoodTxn;
    BackFits(Last(tr).db, id, key);
  }

  lemma BackFits(db: Db, id: TxnId, key: string)
    requires id in db.txns && GoodTxn(db, id) && key !in db.byKey && |key| <= VARCHAR_LIMIT
    ensures var t := db.txns[id];
      && t.id == id && t.sender in db.accounts && t.receiver in db.accounts && SecondLock(t) in db.accounts
      && CanRequest(db, InitiateReq(key, Some(SecondLock(t)), Some(FirstLock(t)), 1, t.currency))
  {
    hide TextLess;
  }

  lemma StoredIsGood(s: State, id: TxnId)
    requires Inv(s) && id in s.db.txns
    ensures GoodTxn(s.db, id)
  {
    hide GoodCalls, GoodLedger, GoodReplay, GoodIndex, Conserved;
  }

  /** There are such states: two calls that each wait for the other, for ever. */
  lemma KeyDeadlockReached() returns (tr: seq<State>, steps: seq<Step>, shares: Shares, c: CallId, d: CallId)
    ensures IsRun(tr, steps) && |tr| > 0 && SharesOf(Last(tr), shares)
    ensures c != d && Waits(Last(tr), shares, c, d) && Waits(Last(tr), shares, d, c)
  {
    tr, steps, c := [INITIAL], [], 2;
    tr, steps := RunOpen(tr, steps, 1, Account(10, "USD", "user", "ann@x.org", "k1"));
    tr, steps := RunOpen(tr, steps, 2, Account(10, "USD", "user", "bob@x.org", "k2"));
    hide IsRun, SharesOf, Waits;
    var id;
    tr, steps, id := RunPayment(tr, steps, 0, InitiateReq("there", Some(1), Some(2), 5, "USD"));
    tr, steps, shares, d := ReversedInsertDeadlocks(tr, steps, id, "back", c);
  }
}
