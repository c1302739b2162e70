/** What service calls answer in a run, whatever else runs: when they succeed, when they are refused,
    and that a retry gets what it should. */
module Outcomes {
  import opened Uuids
  import opened Records
  import opened AtomicGateway
  import opened Books
  import opened Verdicts
  import opened Engine
  import opened EngineInvariant
  import opened Safety
  import opened Linearizability
  import opened Runs

  /** A result was decided at a step of the call itself, by the whole call run on good tables. */
  lemma DecidedAt(tr: seq<State>, steps: seq<Step>, m: nat, n: nat, cid: CallId, req: Request, outcome: Outcome)
      returns (k: nat, newId: TxnId, suffix: string)
    requires IsRun(tr, steps) && m <= n < |tr| && cid !in tr[m].calls && HasResult(tr[n], cid, req, outcome)
    ensures m <= k < n && k < |steps| && RanAt(tr, k, req, outcome, newId, suffix) && Good(tr[k].db, tr[k].opening)
    ensures !HasResult(tr[k], cid, req, outcome) && !steps[k].Open? && steps[k].cid == cid
  {
    hide HasResult, RanAt, Good;
    k, newId, suffix := Linearizable(tr, steps, m, n, cid, req, outcome);
    RunInvGood(tr, steps, k);
  }

  // ---- Settle ----

  /** A settle call, by what is stored when it arrives and by its outcome. Only a party, or the service
      itself, settles; a stranger is refused; a settled payment is not settled again. */
  lemma SettleAnswered(tr: seq<State>, steps: seq<Step>, m: nat, n: nat,
                       cid: CallId, id: TxnId, caller: string, outcome: Outcome)
    requires IsRun(tr, steps) && m <= n < |tr|
    requires cid !in tr[m].calls && HasResult(tr[n], cid, SettleReq(id, caller), outcome)
    ensures outcome.Ok? ==>
      var t := outcome.txn;
      && (caller == "" || caller == Text(t.sender) || caller == Text(t.receiver))
      && t.id == id && t.status == Settled && "SIM-" <= t.providerRef
    ensures
      (&& id in tr[m].db.txns && caller != ""
       && caller != Text(tr[m].db.txns[id].sender) && caller != Text(tr[m].db.txns[id].receiver))
      ==> outcome == Err(NotParty) || outcome == Err(DatabaseFailure)
    ensures outcome == Err(NotParty) && id in tr[m].db.txns ==>
      caller != "" && caller != Text(tr[m].db.txns[id].sender) && caller != Text(tr[m].db.txns[id].receiver)
    ensures id in tr[m].db.txns && tr[m].db.txns[id].status == Settled ==> outcome.Err?
    ensures outcome.Err? && outcome.error.NotAuthorized? ==> outcome.error.current != Authorized
  {
    hide Good, HasResult, Text, SettleNow;
    var k, newId, suffix := DecidedAt(tr, steps, m, n, cid, SettleReq(id, caller), outcome);
    assert outcome == Err(DatabaseFailure) || outcome == SettleNow(tr[k].db, id, caller, suffix).1;
    if id in tr[m].db.txns {
      RowsKeepIdentity(tr, steps, m, k, id);
    }
    hide IsRun, RanAt, CallNow;
    if id in tr[k].db.txns {
      SettleSucceedsIff(tr[k].db, tr[k].opening, id, caller, suffix);
      if outcome.Ok? {
        SettleMovesMoney(tr[k].db, tr[k].opening, id, caller, suffix);
        IdOfRow(tr[k].db, tr[k].opening, id);
      }
    } else {
      UnknownPayment(tr[k].db, id, caller, suffix);
    }
  }

  lemma IdOfRow(db: Db, opening: map<Uuid, int>, id: TxnId)
    requires Good(db, opening) && id in db.txns
    ensures db.txns[id].id == id
  {
    assert GoodTxn(db, id);
  }

  /** Of all settle calls for one payment, one at most succeeds. */
  lemma OneSettleSucceeds(tr: seq<State>, steps: seq<Step>, n: nat, c: CallId, d: CallId, id: TxnId,
                          caller: string, caller': string, t: Transaction, t': Transaction)
    requires IsRun(tr, steps) && n < |tr|
    requires HasResult(tr[n], c, SettleReq(id, caller), Ok(t)) && HasResult(tr[n], d, SettleReq(id, caller'), Ok(t'))
    ensures c == d
  {
    hide Good, HasResult, Text, CallNow;
    var i := SettledOnceAt(tr, steps, n, c, id, caller, t);
    var j := SettledOnceAt(tr, steps, n, d, id, caller', t');
    if i < j {
      RowsKeepIdentity(tr, steps, i + 1, j, id);
    } else if j < i {
      RowsKeepIdentity(tr, steps, j + 1, i, id);
    }
  }

  /** The step at which a settle call took effect. */
  lemma SettledOnceAt(tr: seq<State>, steps: seq<Step>, n: nat, cid: CallId, id: TxnId, caller: string, t: Transaction)
      returns (k: nat)
    requires IsRun(tr, steps) && n < |tr| && HasResult(tr[n], cid, SettleReq(id, caller), Ok(t))
    ensures k < n && k < |steps| && !steps[k].Open? && steps[k].cid == cid
    ensures id in tr[k].db.txns && tr[k].db.txns[id].status == Authorized
    ensures id in tr[k + 1].db.txns && tr[k + 1].db.txns[id].status == Settled
  {
    hide Good, HasResult, Text, SettleNow;
    var newId, suffix;
    k, newId, suffix := DecidedAt(tr, steps, 0, n, cid, SettleReq(id, caller), Ok(t));
    hide IsRun;
    if id in tr[k].db.txns {
      SettleSucceedsIff(tr[k].db, tr[k].opening, id, caller, suffix);
      SettleMovesMoney(tr[k].db, tr[k].opening, id, caller, suffix);
    } else {
      UnknownPayment(tr[k].db, id, caller, suffix);
    }
  }

  /** A settle call refused for lack of funds leaves the payment authorized: so it still is, unless
      and until some settle call commits it. */
  lemma RefusedStaysAuthorized(tr: seq<State>, steps: seq<Step>, n: nat, cid: CallId, id: TxnId, caller: string)
    requires IsRun(tr, steps) && n < |tr|
    requires HasResult(tr[n], cid, SettleReq(id, caller), Err(DebitFailed))
    ensures id in tr[n].db.txns
    ensures var t := tr[n].db.txns[id]; caller == "" || caller == Text(t.sender) || caller == Text(t.receiver)
    ensures if exists j :: 0 <= j < n && SettlesAt(tr, steps, j, id) then tr[n].db.txns[id].status == Settled
            else tr[n].db.txns[id].status == Authorized
  {
    hide Good, HasResult, SettlesAt, Text, SettleNow;
    var k, newId, suffix := DecidedAt(tr, steps, 0, n, cid, SettleReq(id, caller), Err(DebitFailed));
    if id in tr[k].db.txns {
      SettleSucceedsIff(tr[k].db, tr[k].opening, id, caller, suffix);
      RowsKeepIdentity(tr, steps, k, n, id);
      SettledIffCommitted(tr, steps, n, id);
    } else {
      UnknownPayment(tr[k].db, id, caller, suffix);
    }
  }

  /** A settle call by a party succeeds, unless the database fails, if as long as it has no result the
      payment is authorized, its sender has the funds and its receiver's balance has room. */
  lemma SettlesWhilePayable(tr: seq<State>, steps: seq<Step>, m: nat, n: nat,
                            cid: CallId, id: TxnId, caller: string, outcome: Outcome)
    requires IsRun(tr, steps) && m <= n < |tr|
    requires cid !in tr[m].calls && HasResult(tr[n], cid, SettleReq(id, caller), outcome)
    requires forall k :: m <= k < n && !HasResult(tr[k], cid, SettleReq(id, caller), outcome) ==>
      var db := tr[k].db;
      && id in db.txns && db.txns[id].sender in db.accounts && db.txns[id].receiver in db.accounts
      && var t := db.txns[id];
      && t.status == Authorized && db.accounts[t.sender].balance >= t.amount
      && (t.sender == t.receiver || db.accounts[t.receiver].balance + t.amount <= INT64_MAX)
      && (caller == "" || caller == Text(t.sender) || caller == Text(t.receiver))
    ensures outcome.Ok? || outcome == Err(DatabaseFailure)
  {
    hide IsRun, HasResult, Good, Text, SettleNow;
    var k, newId, suffix := DecidedAt(tr, steps, m, n, cid, SettleReq(id, caller), outcome);
    SettleSucceedsIff(tr[k].db, tr[k].opening, id, caller, suffix);
  }

  /** Retry: after a settle call was refused for lack of funds, the same caller's later call succeeds
      unless the database fails, if credits have brought in the funds and no other call settles the
      payment first. That it is still authorized need not be asked for. */
  lemma RefusedThenSettles(tr: seq<State>, steps: seq<Step>, i: nat, m: nat, n: nat,
                           refused: CallId, retry: CallId, id: TxnId, caller: string, outcome: Outcome)
    requires IsRun(tr, steps) && i <= m <= n < |tr|
    requires HasResult(tr[i], refused, SettleReq(id, caller), Err(DebitFailed))
    requires retry !in tr[m].calls && HasResult(tr[n], retry, SettleReq(id, caller), outcome)
    requires forall k :: m <= k < n && !HasResult(tr[k], retry, SettleReq(id, caller), outcome) ==>
      var db := tr[k].db;
      && id in db.txns && db.txns[id].sender in db.accounts && db.txns[id].receiver in db.accounts
      && var t := db.txns[id];
      && t.status != Settled && db.accounts[t.sender].balance >= t.amount
      && (t.sender == t.receiver || db.accounts[t.receiver].balance + t.amount <= INT64_MAX)
    ensures outcome.Ok? || outcome == Err(DatabaseFailure)
  {
    hide IsRun, HasResult, SettlesAt, Text;
    RefusedStaysAuthorized(tr, steps, i, refused, id, caller);
    forall k | m <= k < n && !HasResult(tr[k], retry, SettleReq(id, caller), outcome)
      ensures tr[k].db.txns[id].status == Authorized
      ensures var t := tr[k].db.txns[id]; caller == "" || caller == Text(t.sender) || caller == Text(t.receiver)
    {
      RowsKeepIdentity(tr, steps, i, k, id);
    }
    SettlesWhilePayable(tr, steps, m, n, retry, id, caller, outcome);
  }

  // ---- Authorize ----

  /** An authorize call, by what is stored when it arrives and by its outcome. Only the sender, or the
      service itself, authorizes; anyone else is refused; a payment that is not pending when the call
      arrives is not authorized by it. */
  lemma AuthorizeAnswered(tr: seq<State>, steps: seq<Step>, m: nat, n: nat,
                          cid: CallId, id: TxnId, caller: string, outcome: Outcome)
    requires IsRun(tr, steps) && m <= n < |tr|
    requires cid !in tr[m].calls && HasResult(tr[n], cid, AuthorizeReq(id, caller), outcome)
    ensures outcome.Ok? ==>
      (caller == "" || caller == Text(outcome.txn.sender)) && outcome.txn.id == id && outcome.txn.status == Authorized
    ensures id in tr[m].db.txns && caller != "" && caller != Text(tr[m].db.txns[id].sender) ==>
      outcome == Err(NotSender) || outcome == Err(DatabaseFailure)
    ensures outcome == Err(NotSender) && id in tr[m].db.txns ==>
      caller != "" && caller != Text(tr[m].db.txns[id].sender)
    ensures id in tr[m].db.txns && tr[m].db.txns[id].status != Pending ==> outcome.Err?
    ensures outcome.Err? && outcome.error.NotPending? ==> outcome.error.current != Pending
    ensures outcome.Err? && outcome.error.InsufficientFunds? ==> outcome.error.available < outcome.error.required
  {
    hide Good, HasResult, Text, AuthorizeNow;
    var k, newId, suffix := DecidedAt(tr, steps, m, n, cid, AuthorizeReq(id, caller), outcome);
    if id in tr[m].db.txns {
      RowsKeepIdentity(tr, steps, m, k, id);
    }
    if outcome != Err(DatabaseFailure) {
      assert outcome == AuthorizeNow(tr[k].db, id, caller).1;
      hide IsRun, RanAt, CallNow;
      AuthorizeVerdict(tr[k].db, tr[k].opening, id, caller);
    }
  }

  lemma AuthorizeVerdict(db: Db, opening: map<Uuid, int>, id: TxnId, caller: string)
    requires Good(db, opening)
    ensures var outcome := AuthorizeNow(db, id, caller).1;
      && (outcome.Ok? ==>
            && id in db.txns && db.txns[id].status == Pending && (caller == "" || caller == Text(db.txns[id].sender))
            && outcome.txn.sender == db.txns[id].sender && outcome.txn.id == id && outcome.txn.status == Authorized)
      && (id in db.txns ==> (outcome == Err(NotSender) <==> caller != "" && caller != Text(db.txns[id].sender)))
      && (outcome.Err? && outcome.error.NotPending? ==> outcome.error.current != Pending)
      && (outcome.Err? && outcome.error.InsufficientFunds? ==> outcome.error.available < outcome.error.required)
  {
    hide Good, Text, AuthorizeNow;
    if id in db.txns {
      AuthorizeSucceedsIff(db, opening, id, caller);
      IdOfRow(db, opening, id);
    } else {
      UnknownPayment(db, id, caller, "");
    }
  }

  /** Of all authorize calls for one payment, one at most succeeds. */
  lemma OneAuthorizeSucceeds(tr: seq<State>, steps: seq<Step>, n: nat, c: CallId, d: CallId, id: TxnId,
                             caller: string, caller': string, t: Transaction, t': Transaction)
    requires IsRun(tr, steps) && n < |tr|
    requires HasResult(tr[n], c, AuthorizeReq(id, caller), Ok(t))
    requires HasResult(tr[n], d, AuthorizeReq(id, caller'), Ok(t'))
    ensures c == d
  {
    hide Good, HasResult, Text, CallNow;
    var i := AuthorizedOnceAt(tr, steps, n, c, id, caller, t);
    var j := AuthorizedOnceAt(tr, steps, n, d, id, caller', t');
    if i < j {
      RowsKeepIdentity(tr, steps, i + 1, j, id);
    } else if j < i {
      RowsKeepIdentity(tr, steps, j + 1, i, id);
    }
  }

  /** The step at which an authorize call took effect. */
  lemma AuthorizedOnceAt(tr: seq<State>, steps: seq<Step>, n: nat,
                         cid: CallId, id: TxnId, caller: string, t: Transaction) returns (k: nat)
    requires IsRun(tr, steps) && n < |tr| && HasResult(tr[n], cid, AuthorizeReq(id, caller), Ok(t))
    ensures k < n && k < |steps| && !steps[k].Open? && steps[k].cid == cid
    ensures id in tr[k].db.txns && tr[k].db.txns[id].status == Pending
    ensures id in tr[k + 1].db.txns && tr[k + 1].db.txns[id].status == Authorized
  {
    hide Good, HasResult, Text, AuthorizeNow;
    var newId, suffix;
    k, newId, suffix := DecidedAt(tr, steps, 0, n, cid, AuthorizeReq(id, caller), Ok(t));
    hide IsRun;
    if id in tr[k].db.txns {
      AuthorizeSucceedsIff(tr[k].db, tr[k].opening, id, caller);
    } else {
      UnknownPayment(tr[k].db, id, caller, suffix);
    }
  }

  /** Authorization reserves nothing: authorizing one payment of a sender never stops another. */
  lemma AuthorizationReservesNothing(db: Db, opening: map<Uuid, int>, id: TxnId, id': TxnId, caller: string)
    requires Good(db, opening) && id in db.txns && id' in db.txns && id != id'
    requires db.txns[id].sender == db.txns[id'].sender
    requires AuthorizeNow(db, id, caller).1.Ok? && AuthorizeNow(db, id', caller).1.Ok?
    ensures AuthorizeNow(AuthorizeNow(db, id, caller).0, id', caller).1.Ok?
    ensures AuthorizeNow(AuthorizeNow(db, id, caller).0, id', caller).0.accounts == db.accounts
  {
  }

  // ---- Initiate ----

  lemma {:induction false} AccountsStay(tr: seq<State>, steps: seq<Step>, i: nat, j: nat, a: Uuid)
    requires IsRun(tr, steps) && i <= j < |tr| && a in tr[i].db.accounts
    ensures a in tr[j].db.accounts && SameColumns(tr[j].db.accounts[a], tr[i].db.accounts[a])
    decreases j
  {
    hide CanStep, Apply, Inv;
    if i == j {
    } else {
      AccountsStay(tr, steps, i, j - 1, a);
      RunInv(tr, steps, j - 1);
      AccountStep(tr[j - 1], steps[j - 1], a);
    }
  }

  /** An initiate call, by what is stored when it arrives and by its outcome. A request whose parties
      exist and use its currency, with a positive amount and a key that fits, always succeeds; if a
      payment with its key is stored, the answer is that payment, whatever the rest of the request. */
  lemma InitiateAnswered(tr: seq<State>, steps: seq<Step>, m: nat, n: nat, cid: CallId, req: Request, outcome: Outcome)
    requires IsRun(tr, steps) && m <= n < |tr| && req.InitiateReq?
    requires cid !in tr[m].calls && HasResult(tr[n], cid, req, outcome)
    ensures
      (&& req.sender.Some? && req.receiver.Some?
       && req.sender.value in tr[m].db.accounts && req.receiver.value in tr[m].db.accounts
       && tr[m].db.accounts[req.sender.value].currency == req.currency
       && tr[m].db.accounts[req.receiver.value].currency == req.currency
       && req.amount > 0 && |req.key| <= 255)
      ==> outcome.Ok? || outcome == Err(DatabaseFailure)
    ensures outcome.Ok? ==> outcome.txn.key == req.key && req.amount > 0 && |req.key| <= 255
    ensures forall id :: id in tr[m].db.txns && tr[m].db.txns[id].key == req.key && outcome.Ok? ==>
      var t, u := tr[m].db.txns[id], outcome.txn; t.(status := u.status, providerRef := u.providerRef) == u
  {
    hide Good, HasResult, InitiateNow;
    var k, newId, suffix := DecidedAt(tr, steps, m, n, cid, req, outcome);
    if req.sender.Some? && req.sender.value in tr[m].db.accounts {
      AccountsStay(tr, steps, m, k, req.sender.value);
    }
    if req.receiver.Some? && req.receiver.value in tr[m].db.accounts {
      AccountsStay(tr, steps, m, k, req.receiver.value);
    }
    InitiateSucceedsIff(tr[k].db, tr[k].opening, req, newId);
    if outcome.Ok? {
      InitiateAnswers(tr[k].db, tr[k].opening, req, newId);
      forall id | id in tr[m].db.txns && tr[m].db.txns[id].key == req.key
        ensures var t, u := tr[m].db.txns[id], outcome.txn; t.(status := u.status, providerRef := u.providerRef) == u
      {
        RowsKeepIdentity(tr, steps, m, k, id);
      }
    }
  }

  // ---- All calls ----

  /** The record a successful call returns, patched in memory after COMMIT, is the committed row of
      its payment at an instant while the call was in progress. */
  lemma ReturnedRecordIsRow(tr: seq<State>, steps: seq<Step>, m: nat, n: nat, cid: CallId, req: Request, t: Transaction)
      returns (k: nat)
    requires IsRun(tr, steps) && m <= n < |tr| && cid !in tr[m].calls && HasResult(tr[n], cid, req, Ok(t))
    ensures m < k <= n && t.id in tr[k].db.txns && tr[k].db.txns[t.id] == t
  {
    hide CallNow, Good, HasResult;
    var newId, suffix;
    k, newId, suffix := DecidedAt(tr, steps, m, n, cid, req, Ok(t));
    hide IsRun;
    CallReturnsRow(tr[k].db, tr[k].opening, req, newId, suffix);
    k := k + 1;
  }

  lemma CallReturnsRow(db: Db, opening: map<Uuid, int>, req: Request, newId: TxnId, suffix: string)
    requires Good(db, opening)
    ensures var (db', outcome) := CallNow(db, req, newId, suffix);
      outcome.Ok? ==> outcome.txn.id in db'.txns && db'.txns[outcome.txn.id] == outcome.txn
  {
    hide GoodLedger, GoodReplay, Conserved;
    if req.InitiateReq? {
      if req.key in db.byKey { assert GoodTxn(db, db.byKey[req.key]); }
    } else if req.txn in db.txns {
      assert GoodTxn(db, req.txn);
    }
  }

  /** The fetch after a duplicate insert always finds the row; the accounts of a stored payment are
      always found; the check for a negative balance after the debit never fires. */
  lemma NeverReported(tr: seq<State>, steps: seq<Step>, n: nat, cid: CallId, req: Request, error: Error)
    requires IsRun(tr, steps) && n < |tr| && HasResult(tr[n], cid, req, Err(error))
    ensures error != InsufficientDuringSettlement
    ensures req.InitiateReq? ==> error != TransactionNotFound
    ensures !req.InitiateReq? ==> error != SenderNotFound && error != ReceiverNotFound
  {
    hide CallNow, Good, HasResult;
    var k, newId, suffix := DecidedAt(tr, steps, 0, n, cid, req, Err(error));
    if error != DatabaseFailure {
      CallNeverReports(tr[k].db, tr[k].opening, req, newId, suffix);
    }
  }

  lemma CallNeverReports(db: Db, opening: map<Uuid, int>, req: Request, newId: TxnId, suffix: string)
    requires Good(db, opening)
    ensures var outcome := CallNow(db, req, newId, suffix).1;
      outcome.Err? ==>
        && outcome.error != InsufficientDuringSettlement
        && (req.InitiateReq? ==> outcome.error != TransactionNotFound)
        && (!req.InitiateReq? ==> outcome.error != SenderNotFound && outcome.error != ReceiverNotFound)
  {
    hide GoodLedger, GoodReplay, Conserved;
    if !req.InitiateReq? && req.txn in db.txns {
      assert GoodTxn(db, req.txn);
    }
  }
}
