/** The atomic gateway asks no more than the engine can do: whatever atomic call is possible when no
    call is in progress, the engine can run statement by statement to the same end. Hence runs with
    given tables exist, and what is said to be possible is. */
module Completeness {
  import opened Records
  import opened Uuids
  import opened AtomicGateway
  import opened Books
  import opened Engine
  import opened EngineInvariant
  import opened Safety
  import opened Liveness
  import opened Linearizability
  import opened Sums

  function Last(tr: seq<State>): State
    requires |tr| > 0
  {
    tr[|tr| - 1]
  }

  /** No call but `cid` is in progress. */
  ghost predicate Alone(s: State, cid: CallId) {
    forall c :: c in s.calls && c != cid ==> s.calls[c].pc.Finished?
  }

  /** No call is in progress. */
  ghost predicate Quiet(s: State) {
    forall c :: c in s.calls ==> s.calls[c].pc.Finished?
  }

  lemma LastInv(tr: seq<State>, steps: seq<Step>)
    requires IsRun(tr, steps)
    ensures |tr| > 0 && Inv(Last(tr))
  {
    hide Inv, CanStep, Apply;
    RunInv(tr, steps, |tr| - 1);
  }

  lemma TakeStep(tr: seq<State>, steps: seq<Step>, step: Step) returns (tr': seq<State>, steps': seq<Step>)
    requires IsRun(tr, steps) && CanStep(tr[|tr| - 1], step)
    ensures IsRun(tr', steps') && tr <= tr' && |tr'| == |tr| + 1
    ensures Last(tr') == Apply(Last(tr), step)
  {
    assert |tr| > 0;
    hide Apply, CanStep, IsRun;
    RunExtends(tr, steps, step);
    tr', steps' := tr + [Apply(Last(tr), step)], steps + [step];
  }

  lemma AloneIsEnabled(s: State, cid: CallId)
    requires Inv(s) && Alone(s, cid) && Unfinished(s, cid)
    ensures Enabled(s, cid)
  {
    hide Good, GoodCall, FreshIds, LockTarget;
    CallFits(s, cid);
    if Blocked(s, cid) {
      HolderUnfinished(s, Target(s, cid).value);
    }
  }

  lemma AdvanceKeepsAlone(s: State, cid: CallId, suffix: string)
    requires Enabled(s, cid) && Alone(s, cid)
    ensures cid in s.calls && cid in AdvanceCall(s, cid, suffix).calls
    ensures Alone(AdvanceCall(s, cid, suffix), cid)
    ensures AdvanceCall(s, cid, suffix).opening == s.opening
    ensures AdvanceCall(s, cid, suffix).calls.Keys == s.calls.Keys
  {
    hide Exec, Merge, LockTarget;
  }

  /** What call `cid` has done from `s` to `t`, where it has finished: it already had its result, or
      the whole call ran at once with the tables of `s`. */
  predicate Concludes(s: State, t: State, cid: CallId, newId: TxnId, suffix: string)
    requires cid in s.calls && cid in t.calls && t.calls[cid].pc.Finished?
  {
    match AbstractCall(s.calls[cid])
    case Decided(_, outcome) => t.db == s.db && t.calls[cid].pc.outcome == outcome
    case Waiting(req) =>
      newId !in s.db.txns && CallNow(s.db, req, newId, suffix) == (t.db, t.calls[cid].pc.outcome)
  }

  /** One step of `cid` towards `t`. */
  lemma StepConcludes(s: State, cid: CallId, t: State, drawn: string, newId: TxnId, suffix: string)
      returns (id: TxnId, x: string)
    requires Inv(s) && Enabled(s, cid) && cid in t.calls && t.calls[cid].pc.Finished?
    requires cid in AdvanceCall(s, cid, drawn).calls
    requires Concludes(AdvanceCall(s, cid, drawn), t, cid, newId, suffix)
    ensures cid in s.calls && Concludes(s, t, cid, id, x)
  {
    hide Inv, Exec, Merge, LockTarget, CallNow;
    var step, s' := Advance(cid, drawn), AdvanceCall(s, cid, drawn);
    StepRefines(s, step);
    var a, a', behind := Abstract(s), Abstract(s'), Behind(s, step);
    assert a' == SpecApply(a, behind);
    assert a.calls[cid] == AbstractCall(s.calls[cid]) && a'.calls[cid] == AbstractCall(s'.calls[cid]);
    id, x := newId, suffix;
    if behind.SpecExecute? {
      id, x := behind.newId, behind.suffix;
    }
  }

  /** A call that is alone runs to its end. */
  lemma {:induction false} Finish(tr: seq<State>, steps: seq<Step>, cid: CallId, drawn: string)
      returns (tr': seq<State>, steps': seq<Step>, newId: TxnId, suffix: string)
    requires IsRun(tr, steps) && |tr| > 0 && cid in Last(tr).calls && Alone(Last(tr), cid)
    ensures IsRun(tr', steps') && tr <= tr' && cid in Last(tr').calls && Quiet(Last(tr'))
    ensures Concludes(Last(tr), Last(tr'), cid, newId, suffix)
    ensures Last(tr').opening == Last(tr).opening && Last(tr').calls.Keys == Last(tr).calls.Keys
    decreases Measure(Last(tr))
  {
    hide IsRun, Inv, Enabled, AdvanceCall, Measure, Concludes;
    var s := Last(tr);
    if s.calls[cid].pc.Finished? {
      tr', steps', newId, suffix := tr, steps, 0, "";
      FinishedConcludes(s, cid);
    } else {
      LastInv(tr, steps);
      AloneIsEnabled(s, cid);
      tr', steps' := TakeStep(tr, steps, Advance(cid, drawn));
      AdvanceKeepsAlone(s, cid, drawn);
      CallStepShortens(s, Advance(cid, drawn));
      MeasureNonNegative(Last(tr'));
      tr', steps', newId, suffix := Finish(tr', steps', cid, drawn);
      newId, suffix := StepConcludes(s, cid, Last(tr'), drawn, newId, suffix);
    }
  }

  lemma FinishedConcludes(s: State, cid: CallId)
    requires cid in s.calls && s.calls[cid].pc.Finished?
    ensures Concludes(s, s, cid, 0, "")
  {
  }

  /** Completeness: when no call is in progress, any service call can arrive and run statement by
      statement, and it does what the atomic call does. */
  lemma RunCall(tr: seq<State>, steps: seq<Step>, cid: CallId, req: Request, drawn: string)
      returns (tr': seq<State>, steps': seq<Step>, newId: TxnId, suffix: string)
    requires IsRun(tr, steps) && |tr| > 0 && Quiet(Last(tr)) && cid !in Last(tr).calls
    ensures IsRun(tr', steps') && tr <= tr' && Quiet(Last(tr'))
    ensures cid in Last(tr').calls && Last(tr').calls.Keys == Last(tr).calls.Keys + {cid}
    ensures newId !in Last(tr).db.txns
    ensures CallNow(Last(tr).db, req, newId, suffix) == (Last(tr').db, Last(tr').calls[cid].pc.outcome)
  {
    hide IsRun, CallNow;
    tr', steps' := TakeStep(tr, steps, Start(cid, req));
    tr', steps', newId, suffix := Finish(tr', steps', cid, drawn);
  }

  lemma RunOpen(tr: seq<State>, steps: seq<Step>, id: Uuid, row: Account)
      returns (tr': seq<State>, steps': seq<Step>)
    requires IsRun(tr, steps) && |tr| > 0 && CanOpen(Last(tr).db, id, row)
    ensures IsRun(tr', steps') && tr <= tr'
    ensures Last(tr').db == OpenNow(Last(tr).db, id, row) && Last(tr').calls == Last(tr).calls
  {
    hide IsRun;
    tr', steps' := TakeStep(tr, steps, Open(id, row));
  }

  // ---- Authorized payments may exceed the balance ----

  /** A request for a new payment that the tables as they are admit. */
  predicate CanRequest(db: Db, req: Request) {
    && Checked(db, req) && Insertable(req) && req.key !in db.byKey
  }

  lemma RunInitiate(tr: seq<State>, steps: seq<Step>, cid: CallId, req: Request)
      returns (tr': seq<State>, steps': seq<Step>, id: TxnId)
    requires IsRun(tr, steps) && |tr| > 0 && Quiet(Last(tr)) && cid !in Last(tr).calls && CanRequest(Last(tr).db, req)
    ensures IsRun(tr', steps') && tr <= tr' && Quiet(Last(tr'))
    ensures Last(tr').calls.Keys == Last(tr).calls.Keys + {cid}
    ensures id !in Last(tr).db.txns
    ensures var db := Last(tr).db;
      Last(tr').db == db.(txns := db.txns[id := NewTransaction(req, id)], byKey := db.byKey[req.key := id])
  {
    hide IsRun, Quiet, Insertable;
    var suffix;
    tr', steps', id, suffix := RunCall(tr, steps, cid, req, "");
  }

  lemma RunAuthorize(tr: seq<State>, steps: seq<Step>, cid: CallId, id: TxnId)
      returns (tr': seq<State>, steps': seq<Step>)
    requires IsRun(tr, steps) && |tr| > 0 && Quiet(Last(tr)) && cid !in Last(tr).calls
    requires Funded(Last(tr).db, id) && Last(tr).db.txns[id].status == Pending
    ensures IsRun(tr', steps') && tr <= tr' && Quiet(Last(tr'))
    ensures Last(tr').calls.Keys == Last(tr).calls.Keys + {cid}
    ensures var db := Last(tr).db;
      Last(tr').db == db.(txns := db.txns[id := db.txns[id].(status := Authorized, providerRef := "")])
  {
    hide IsRun, Quiet;
    var newId, suffix;
    tr', steps', newId, suffix := RunCall(tr, steps, cid, AuthorizeReq(id, ""), "");
  }

  /** The sender of the payment has its amount. */
  predicate Funded(db: Db, id: TxnId) {
    && id in db.txns && db.txns[id].sender in db.accounts
    && db.accounts[db.txns[id].sender].balance >= db.txns[id].amount
  }

  /** A payment is initiated and authorized. */
  lemma RunPayment(tr: seq<State>, steps: seq<Step>, cid: CallId, req: Request)
      returns (tr': seq<State>, steps': seq<Step>, id: TxnId)
    requires IsRun(tr, steps) && |tr| > 0 && Quiet(Last(tr)) && forall c :: c in Last(tr).calls ==> c < cid
    requires CanRequest(Last(tr).db, req) && Last(tr).db.accounts[req.sender.value].balance >= req.amount
    ensures IsRun(tr', steps') && tr <= tr' && Quiet(Last(tr'))
    ensures forall c :: c in Last(tr').calls ==> c < cid + 2
    ensures id !in Last(tr).db.txns
    ensures var db, t := Last(tr).db, NewTransaction(req, id).(status := Authorized);
      Last(tr').db == db.(txns := db.txns[id := t], byKey := db.byKey[req.key := id])
  {
    hide IsRun, Quiet, Insertable;
    tr', steps', id := RunInitiate(tr, steps, cid, req);
    var db := Last(tr').db;
    tr', steps' := RunAuthorize(tr', steps', cid + 1, id);
    var t := NewTransaction(req, id);
    assert db.txns[id := t.(status := Authorized)] == Last(tr).db.txns[id := t.(status := Authorized)];
  }

  /** The authorized, not yet settled amounts that are to leave an account. */
  function AuthorizedFrom(txns: map<TxnId, Transaction>, a: Uuid): map<int, int> {
    map id | id in txns && txns[id].status == Authorized && txns[id].sender == a :: txns[id].amount
  }

  lemma AuthorizedAtLeast(tr: seq<State>, steps: seq<Step>, a: Uuid, id: TxnId, id': TxnId)
    requires IsRun(tr, steps) && |tr| > 0 && id != id'
    requires id in AuthorizedFrom(Last(tr).db.txns, a) && id' in AuthorizedFrom(Last(tr).db.txns, a)
    ensures var db := Last(tr).db;
      Sum(AuthorizedFrom(db.txns, a)) >= db.txns[id].amount + db.txns[id'].amount
  {
    LastInv(tr, steps);
    hide IsRun, GoodCalls, GoodLedger, GoodReplay, GoodIndex, Conserved;
    var db := Last(tr).db;
    var m := AuthorizedFrom(db.txns, a);
    forall i | i in m ensures m[i] >= 0 {
      assert GoodTxn(db, i);
    }
    SumBoundsParts(m, id, id');
  }

  /** Authorization reserves no funds: from any reachable state in which no call is in progress, an
      account with funds can be brought to owe, in authorized payments, twice what it has. */
  lemma OverAuthorized(tr: seq<State>, steps: seq<Step>, a: Uuid, r: Uuid, key: string, key': string, cid: CallId)
      returns (tr': seq<State>, steps': seq<Step>)
    requires IsRun(tr, steps) && |tr| > 0 && Quiet(Last(tr)) && forall c :: c in Last(tr).calls ==> c < cid
    requires a in Last(tr).db.accounts && r in Last(tr).db.accounts
    requires Last(tr).db.accounts[a].currency == Last(tr).db.accounts[r].currency && Last(tr).db.accounts[a].balance > 0
    requires key !in Last(tr).db.byKey && key' !in Last(tr).db.byKey && key != key'
    requires |key| <= VARCHAR_LIMIT && |key'| <= VARCHAR_LIMIT
    ensures IsRun(tr', steps') && tr <= tr' && Last(tr').db.accounts == Last(tr).db.accounts
    ensures var txns := Last(tr').db.txns;
      Sum(map id | id in txns && txns[id].status == Authorized && txns[id].sender == a :: txns[id].amount)
      >= 2 * Last(tr').db.accounts[a].balance
  {
    var db := Last(tr).db;
    assert db.accounts[a].balance <= INT64_MAX by { BalanceFits(tr, steps, a); }
    hide IsRun, Quiet;
    var req := InitiateReq(key, Some(a), Some(r), db.accounts[a].balance, db.accounts[a].currency);
    var id, id';
    hide Insertable, AuthorizedFrom;
    assert Insertable(req) && Insertable(req.(key := key')) by { InsertableKeys(req, key'); }
    tr', steps', id := RunPayment(tr, steps, cid, req);
    tr', steps', id' := RunPayment(tr', steps', cid + 2, req.(key := key'));
    FromSender(Last(tr').db.txns, a, id);
    FromSender(Last(tr').db.txns, a, id');
    AuthorizedAtLeast(tr', steps', a, id, id');
    AuthorizedMeans(Last(tr').db.txns, a);
  }

  lemma AuthorizedMeans(txns: map<TxnId, Transaction>, a: Uuid)
    ensures AuthorizedFrom(txns, a)
      == map id | id in txns && txns[id].status == Authorized && txns[id].sender == a :: txns[id].amount
  {
  }

  lemma InsertableKeys(req: Request, key: string)
    requires req.InitiateReq? && req.amount > 0 && |req.key| <= VARCHAR_LIMIT && |key| <= VARCHAR_LIMIT
    ensures Insertable(req) && Insertable(req.(key := key))
  {
  }

  lemma FromSender(txns: map<TxnId, Transaction>, a: Uuid, id: TxnId)
    requires id in txns && txns[id].status == Authorized && txns[id].sender == a
    ensures id in AuthorizedFrom(txns, a)
  {
  }

  lemma BalanceFits(tr: seq<State>, steps: seq<Step>, a: Uuid)
    requires IsRun(tr, steps) && |tr| > 0 && a in Last(tr).db.accounts
    ensures Last(tr).db.accounts[a].balance <= INT64_MAX
  {
    LastInv(tr, steps);
  }

  /** There is such a state. */
  lemma OverAuthorizedReached() returns (tr: seq<State>, steps: seq<Step>, a: Uuid)
    ensures IsRun(tr, steps) && |tr| > 0 && a in Last(tr).db.accounts
    ensures var txns := Last(tr).db.txns;
      Sum(map id | id in txns && txns[id].status == Authorized && txns[id].sender == a :: txns[id].amount)
      > Last(tr).db.accounts[a].balance
  {
    tr, steps, a := [INITIAL], [], 1;
    tr, steps := RunOpen(tr, steps, a, Account(10, "USD", "user", "ann@x.org", "k1"));
    tr, steps := RunOpen(tr, steps, 2, Account(0, "USD", "merchant", "bob@x.org", "k2"));
    hide IsRun;
    tr, steps := OverAuthorized(tr, steps, a, 2, "first", "second", 0);
  }
}
