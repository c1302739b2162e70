/** PaymentService: InitiatePayment, AuthorizePayment and SettlePayment as the service runs them, with
    any other calls running between their statements. Each returns, and its result is that of the
    whole call run at one instant while it was in progress. */
module Service {
  import opened Uuids
  import opened Records
  import opened AtomicGateway
  import opened Engine
  import opened Books
  import opened EngineInvariant
  import opened Safety
  import opened Linearizability
  import opened Outcomes
  import opened Repository

  /** Go's `if err != nil { return nil, err }`, after the deferred rollback has run. */
  datatype Flow<+T> = Go(value: T) | Stop(outcome: Outcome) {
    predicate IsFailure() {
      Stop?
    }

    function PropagateFailure(): Outcome
      requires Stop?
    {
      outcome
    }

    function Extract(): T
      requires Go?
    {
      value
    }
  }

  /** At some step since the trace had `n` states, the whole call ran at once with this outcome. */
  ghost predicate RanDuring(trace: seq<State>, n: nat, req: Request, outcome: Outcome) {
    exists k, newId, suffix :: n - 1 <= k < |trace| - 1 && 0 <= k && RanAt(trace, k, req, outcome, newId, suffix)
  }

  class PaymentService {
    const repo: PostgresRepo

    constructor (repo: PostgresRepo)
      ensures this.repo == repo
    {
      this.repo := repo;
    }

    /** Where call `cid` stands after a stretch of code: at `pc`, or ended with an error. */
    ghost predicate Reached<T>(cid: CallId, req: Request, flow: Flow<T>, pc: PC)
      reads repo
    {
      if flow.Go? then repo.Ready(cid, req, pc) else repo.Done(cid, req, flow.outcome)
    }

    /** The request arrives. */
    method Arrive(cid: CallId, req: Request)
      requires repo.Valid() && cid !in repo.calls
      modifies repo
      ensures repo.Ready(cid, req, if req.InitiateReq? then ReadSender else BeginCall)
      ensures old(repo.trace) <= repo.trace
    {
      hide IsRun, Exec;
      repo.Perform(Start(cid, req));
    }

    /** The result of a call that was not there when the trace had `n` states. */
    lemma ResultRan(cid: CallId, req: Request, outcome: Outcome, n: nat)
      requires repo.Done(cid, req, outcome)
      requires 0 < n <= |repo.trace| && cid !in repo.trace[n - 1].calls
      ensures RanDuring(repo.trace, n, req, outcome)
    {
      hide IsRun, RanAt;
      var k, newId, suffix := Linearizable(repo.trace, repo.steps, n - 1, |repo.trace| - 1, cid, req, outcome);
      assert RanAt(repo.trace, k, req, outcome, newId, suffix);
    }

    /** The deferred Rollback. */
    method Unwind(cid: CallId, ghost req: Request, outcome: Outcome)
      requires repo.Valid() && repo.At(cid, req, Unwinding(outcome))
      requires cid in repo.faults <==> outcome == Err(DatabaseFailure)
      modifies repo
      ensures repo.Done(cid, req, outcome)
      ensures old(repo.trace) <= repo.trace
    {
      hide IsRun;
      repo.Rollback(cid, req, outcome);
    }

    /** A statement failed: give up. */
    method GiveUp(cid: CallId, ghost call: Call) returns (outcome: Outcome)
      requires repo.Broke(cid, call)
      modifies repo
      ensures outcome == Err(DatabaseFailure) && repo.Done(cid, call.req, outcome)
      ensures old(repo.trace) <= repo.trace
    {
      hide IsRun;
      repo.Abandon(cid, call);
      outcome := Err(DatabaseFailure);
      Unwind(cid, call.req, outcome);
    }

    /** The statement has run and its result is an error. */
    method Refuse(cid: CallId, ghost call: Call, ghost ws: Writes, error: Error) returns (outcome: Outcome)
      requires repo.Midway(cid, call, ws) && repo.LeadsTo(cid, call, "", Unwinding(Err(error)), ws)
      requires error != DatabaseFailure
      modifies repo
      ensures outcome == Err(error) && repo.Done(cid, call.req, outcome)
      ensures old(repo.trace) <= repo.trace
    {
      hide IsRun, Exec, LockTarget;
      outcome := Err(error);
      repo.EndStatement(cid, call, "", Unwinding(outcome), ws);
      Unwind(cid, call.req, outcome);
    }

    // ---- AuthorizePayment ----

    method BeginPaymentTx(cid: CallId, ghost req: Request) returns (flow: Flow<()>)
      requires repo.Ready(cid, req, BeginCall)
      modifies repo
      ensures Reached(cid, req, flow, LockTxn) && old(repo.trace) <= repo.trace
    {
      hide IsRun, Enabled, Local, LockTarget;
      var outcome;
      ghost var call := Call(req, BeginCall);
      var ok := repo.BeginTx(cid, call);
      if !ok {
        outcome := GiveUp(cid, call);
        return Stop(outcome);
      }
      repo.EndStatement(cid, call, "", LockTxn, NO_WRITES);
      flow := Go(());
    }

    /** The row lock on the payment, and what is checked under it. */
    method ReadForAuthorize(cid: CallId, txnID: TxnId, caller: string) returns (flow: Flow<Transaction>)
      requires repo.Ready(cid, AuthorizeReq(txnID, caller), LockTxn)
      modifies repo
      ensures Reached(cid, AuthorizeReq(txnID, caller), flow, if flow.Go? then LockSender(flow.value) else LockTxn)
      ensures flow.Go? ==> flow.value.status == Pending && (caller == "" || caller == Text(flow.value.sender))
      ensures flow.Stop? ==>
        || flow.outcome == Err(DatabaseFailure) || flow.outcome == Err(TransactionNotFound)
        || (flow.outcome == Err(NotSender) && caller != "")
        || (exists status :: status != Pending && flow.outcome == Err(NotPending(status)))
      ensures old(repo.trace) <= repo.trace
    {
      hide IsRun, Enabled, Local, LockTarget;
      var outcome;
      ghost var call := Call(AuthorizeReq(txnID, caller), LockTxn);
      var reply := repo.GetTransactionForUpdate(cid, call, txnID);
      if reply == Broken {
        outcome := GiveUp(cid, call);
        return Stop(outcome);
      }
      ghost var ws := WritesOf(repo.Before(), cid);
      if !reply.Row? {
        outcome := Refuse(cid, call, ws, TransactionNotFound);
        return Stop(outcome);
      }
      var txn := reply.value;
      if caller != "" && Text(txn.sender) != caller {
        outcome := Refuse(cid, call, ws, NotSender);
        return Stop(outcome);
      }
      if txn.status != Pending {
        outcome := Refuse(cid, call, ws, NotPending(txn.status));
        return Stop(outcome);
      }
      repo.EndStatement(cid, call, "", LockSender(txn), ws);
      flow := Go(txn);
    }

    /** The row lock on the sender's account, and the funds check under it. */
    method CheckFunds(cid: CallId, ghost req: Request, txn: Transaction) returns (flow: Flow<()>)
      requires repo.Ready(cid, req, LockSender(txn))
      modifies repo
      ensures Reached(cid, req, flow, MarkAuthorized(txn)) && old(repo.trace) <= repo.trace
    {
      hide IsRun, Enabled, Local, LockTarget;
      var outcome;
      ghost var call := Call(req, LockSender(txn));
      var reply := repo.GetAccountForUpdate(cid, call, txn.sender);
      if reply == Broken {
        outcome := GiveUp(cid, call);
        return Stop(outcome);
      }
      ghost var ws := WritesOf(repo.Before(), cid);
      if !reply.Row? {
        outcome := Refuse(cid, call, ws, SenderNotFound);
        return Stop(outcome);
      }
      var sender := reply.value;
      if sender.balance < txn.amount {
        outcome := Refuse(cid, call, ws, InsufficientFunds(sender.balance, txn.amount));
        return Stop(outcome);
      }
      repo.EndStatement(cid, call, "", MarkAuthorized(txn), ws);
      flow := Go(());
    }

    method StoreAuthorized(cid: CallId, ghost req: Request, txn: Transaction) returns (flow: Flow<()>)
      requires repo.Ready(cid, req, MarkAuthorized(txn))
      modifies repo
      ensures Reached(cid, req, flow, CommitAuthorize(txn)) && old(repo.trace) <= repo.trace
    {
      hide IsRun, Enabled, Local, LockTarget;
      var outcome;
      ghost var call := Call(req, MarkAuthorized(txn));
      var ok := repo.UpdateTransactionStatus(cid, call, txn.id, Authorized, "");
      if !ok {
        outcome := GiveUp(cid, call);
        return Stop(outcome);
      }
      repo.EndStatement(cid, call, "", CommitAuthorize(txn),
                        WithStatus(repo.Before().db, WritesOf(repo.Before(), cid), txn.id, Authorized, ""));
      flow := Go(());
    }

    /** COMMIT; `txn` is the record as patched in memory afterwards. */
    method CommitPayment(cid: CallId, ghost req: Request, ghost pc: PC, txn: Transaction) returns (flow: Flow<()>)
      requires repo.Ready(cid, req, pc) && IsCommit(pc) && txn == Returned(pc)
      modifies repo
      ensures repo.Done(cid, req, if flow.Go? then Ok(txn) else flow.outcome)
      ensures old(repo.trace) <= repo.trace
    {
      hide IsRun, Returned;
      var outcome;
      ghost var call := Call(req, pc);
      var ok := repo.Commit(cid, call, txn);
      if !ok {
        outcome := GiveUp(cid, call);
        return Stop(outcome);
      }
      flow := Go(());
    }

    method AuthorizePayment(cid: CallId, txnID: TxnId, caller: string) returns (outcome: Outcome)
      requires repo.Valid() && cid !in repo.calls
      modifies repo
      ensures repo.Done(cid, AuthorizeReq(txnID, caller), outcome)
      ensures old(repo.trace) <= repo.trace
      ensures RanDuring(repo.trace, |old(repo.trace)|, AuthorizeReq(txnID, caller), outcome)
      ensures outcome == Err(DatabaseFailure) ==> repo.mayFail(cid)
      // only the sender, or the service itself, authorizes, and only what was pending
      ensures outcome.Ok? ==>
        && (caller == "" || caller == Text(outcome.txn.sender))
        && outcome.txn.id == txnID && outcome.txn.status == Authorized
      ensures txnID in old(repo.txns) && caller != "" && caller != Text(old(repo.txns)[txnID].sender) ==>
        outcome == Err(NotSender) || outcome == Err(DatabaseFailure)
      ensures txnID in old(repo.txns) && old(repo.txns)[txnID].status != Pending ==> outcome.Err?
    {
      hide IsRun, Text;
      var req := AuthorizeReq(txnID, caller);
      Arrive(cid, req);
      outcome := AuthorizeArrived(cid, txnID, caller);
      ResultRan(cid, req, outcome, |old(repo.trace)|);
      AuthorizeAnswered(repo.trace, repo.steps, |old(repo.trace)| - 1, |repo.trace| - 1, cid, txnID, caller, outcome);
    }

    method AuthorizeArrived(cid: CallId, txnID: TxnId, caller: string) returns (outcome: Outcome)
      requires repo.Ready(cid, AuthorizeReq(txnID, caller), BeginCall)
      modifies repo
      ensures repo.Done(cid, AuthorizeReq(txnID, caller), outcome)
      ensures old(repo.trace) <= repo.trace
    {
      hide PostgresRepo.Ready, PostgresRepo.Done;
      ghost var req := AuthorizeReq(txnID, caller);
      var _ :- BeginPaymentTx(cid, req);
      var txn :- ReadForAuthorize(cid, txnID, caller);
      var _ :- CheckFunds(cid, req, txn);
      var _ :- StoreAuthorized(cid, req, txn);
      var authorized := txn.(status := Authorized);
      var _ :- CommitPayment(cid, req, CommitAuthorize(txn), authorized);
      outcome := Ok(authorized);
    }

    // ---- SettlePayment ----

    method ReadForSettle(cid: CallId, txnID: TxnId, caller: string) returns (flow: Flow<Transaction>)
      requires repo.Ready(cid, SettleReq(txnID, caller), LockTxn)
      modifies repo
      ensures Reached(cid, SettleReq(txnID, caller), flow, if flow.Go? then LockFirst(flow.value) else LockTxn)
      ensures flow.Go? ==>
        && flow.value.status == Authorized
        && (caller == "" || caller == Text(flow.value.sender) || caller == Text(flow.value.receiver))
      ensures flow.Stop? ==>
        || flow.outcome == Err(DatabaseFailure) || flow.outcome == Err(TransactionNotFound)
        || (flow.outcome == Err(NotParty) && caller != "")
        || (exists status :: status != Authorized && flow.outcome == Err(NotAuthorized(status)))
      ensures old(repo.trace) <= repo.trace
    {
      hide IsRun, Enabled, Local, LockTarget;
      var outcome;
      ghost var call := Call(SettleReq(txnID, caller), LockTxn);
      var reply := repo.GetTransactionForUpdate(cid, call, txnID);
      if reply == Broken {
        outcome := GiveUp(cid, call);
        return Stop(outcome);
      }
      ghost var ws := WritesOf(repo.Before(), cid);
      if !reply.Row? {
        outcome := Refuse(cid, call, ws, TransactionNotFound);
        return Stop(outcome);
      }
      var txn := reply.value;
      if caller != "" {
        if Text(txn.sender) != caller && Text(txn.receiver) != caller {
          outcome := Refuse(cid, call, ws, NotParty);
          return Stop(outcome);
        }
      }
      if txn.status != Authorized {
        outcome := Refuse(cid, call, ws, NotAuthorized(txn.status));
        return Stop(outcome);
      }
      repo.EndStatement(cid, call, "", LockFirst(txn), ws);
      flow := Go(txn);
    }

    /** Both account rows, in the order of their ids. */
    method LockAccounts(cid: CallId, ghost req: Request, txn: Transaction) returns (flow: Flow<()>)
      requires repo.Ready(cid, req, LockFirst(txn))
      modifies repo
      ensures Reached(cid, req, flow, DebitSender(txn)) && old(repo.trace) <= repo.trace
    {
      hide IsRun;
      if TextLess(txn.sender, txn.receiver) {
        flow := LockAccount(cid, req, txn, txn.sender, SenderNotFound, LockFirst(txn), LockSecond(txn));
        if flow.Go? {
          flow := LockAccount(cid, req, txn, txn.receiver, ReceiverNotFound, LockSecond(txn), DebitSender(txn));
        }
      } else {
        flow := LockAccount(cid, req, txn, txn.receiver, ReceiverNotFound, LockFirst(txn), LockSecond(txn));
        if flow.Go? {
          flow := LockAccount(cid, req, txn, txn.sender, SenderNotFound, LockSecond(txn), DebitSender(txn));
        }
      }
    }

    lemma LockLeads(db: Db, ws: Writes, req: Request, txn: Transaction, first: bool, newId: TxnId)
      ensures var id := if first then FirstLock(txn) else SecondLock(txn);
        Exec(db, ws, Call(req, if first then LockFirst(txn) else LockSecond(txn)), newId, "")
        == (if SeenAccount(db, ws, id).None? then Unwinding(Err(MissingAccount(txn, first)))
            else if first then LockSecond(txn) else DebitSender(txn), ws)
    {
    }

    method LockAccount(cid: CallId, ghost req: Request, ghost txn: Transaction, id: Uuid, missing: Error,
                       ghost from: PC, to: PC) returns (flow: Flow<()>)
      requires repo.Ready(cid, req, from)
      requires (from == LockFirst(txn) && to == LockSecond(txn) && id == FirstLock(txn)
                 && missing == MissingAccount(txn, true))
            || (from == LockSecond(txn) && to == DebitSender(txn) && id == SecondLock(txn)
                 && missing == MissingAccount(txn, false))
      modifies repo
      ensures Reached(cid, req, flow, to) && old(repo.trace) <= repo.trace
    {
      hide IsRun, Enabled, Local, LockTarget, FirstLock, SecondLock, Exec, SeenAccount, InTransaction, WritesOf;
      var outcome;
      ghost var call := Call(req, from);
      assert missing != DatabaseFailure;
      hide MissingAccount;
      var reply := repo.GetAccountForUpdate(cid, call, id);
      if reply == Broken {
        outcome := GiveUp(cid, call);
        return Stop(outcome);
      }
      ghost var ws := WritesOf(repo.Before(), cid);
      LockLeads(repo.Before().db, ws, req, txn, from.LockFirst?, repo.Before().nextTxn);
      if !reply.Row? {
        outcome := Refuse(cid, call, ws, missing);
        return Stop(outcome);
      }
      repo.EndStatement(cid, call, "", to, ws);
      flow := Go(());
    }

    method TakeFromSender(cid: CallId, ghost req: Request, txn: Transaction) returns (flow: Flow<int>)
      requires repo.Ready(cid, req, DebitSender(txn))
      modifies repo
      ensures Reached(cid, req, flow, if flow.Go? then CreditReceiver(txn, flow.value) else DebitSender(txn))
      ensures old(repo.trace) <= repo.trace
    {
      hide IsRun, Enabled, Local, LockTarget;
      var outcome;
      ghost var call := Call(req, DebitSender(txn));
      var reply := repo.UpdateBalance(cid, call, txn.sender, Negate(txn.amount));
      if reply == Broken {
        outcome := GiveUp(cid, call);
        return Stop(outcome);
      }
      ghost var ws := WritesOf(repo.Before(), cid);
      if !reply.Row? {
        outcome := Refuse(cid, call, ws, DebitFailed);
        return Stop(outcome);
      }
      var senderBalance := reply.value;
      if senderBalance < 0 {
        assert false;  // "insufficient funds during settlement": the CHECK has already refused the debit
      }
      repo.EndStatement(cid, call, "", CreditReceiver(txn, senderBalance),
                        WithBalance(repo.Before().db, ws, txn.sender, senderBalance));
      flow := Go(senderBalance);
    }

    method GiveToReceiver(cid: CallId, ghost req: Request, txn: Transaction, senderBalance: int)
        returns (flow: Flow<int>)
      requires repo.Ready(cid, req, CreditReceiver(txn, senderBalance))
      modifies repo
      ensures Reached(cid, req, flow,
                      if flow.Go? then AppendDebit(txn, senderBalance, flow.value)
                      else CreditReceiver(txn, senderBalance))
      ensures old(repo.trace) <= repo.trace
    {
      hide IsRun, Enabled, Local, LockTarget;
      var outcome;
      ghost var call := Call(req, CreditReceiver(txn, senderBalance));
      var reply := repo.UpdateBalance(cid, call, txn.receiver, txn.amount);
      if reply == Broken {
        outcome := GiveUp(cid, call);
        return Stop(outcome);
      }
      ghost var ws := WritesOf(repo.Before(), cid);
      if !reply.Row? {
        outcome := Refuse(cid, call, ws, CreditFailed);
        return Stop(outcome);
      }
      var receiverBalance := reply.value;
      repo.EndStatement(cid, call, "", AppendDebit(txn, senderBalance, receiverBalance),
                        WithBalance(repo.Before().db, ws, txn.receiver, receiverBalance));
      flow := Go(receiverBalance);
    }

    method WriteEntry(cid: CallId, ghost req: Request, ghost from: PC, to: PC, entry: Entry) returns (flow: Flow<()>)
      requires repo.Ready(cid, req, from)
      requires (from.AppendDebit? && to == AppendCredit(from.t, from.senderBalance, from.receiverBalance)
                 && entry == DebitEntry(from.t, from.senderBalance))
            || (from.AppendCredit? && to == MarkSettled(from.t, from.senderBalance, from.receiverBalance)
                 && entry == CreditEntry(from.t, from.receiverBalance))
      modifies repo
      ensures Reached(cid, req, flow, to) && old(repo.trace) <= repo.trace
    {
      hide IsRun, Enabled, Local, LockTarget, DebitEntry, CreditEntry;
      var outcome;
      ghost var call := Call(req, from);
      var ok := repo.CreateLedgerEntry(cid, call, entry);
      if !ok {
        outcome := GiveUp(cid, call);
        return Stop(outcome);
      }
      repo.EndStatement(cid, call, "", to, WithEntry(WritesOf(repo.Before(), cid), entry));
      flow := Go(());
    }

    method StoreSettled(cid: CallId, ghost req: Request, txn: Transaction, senderBalance: int, receiverBalance: int,
                        suffix: string) returns (flow: Flow<()>)
      requires repo.Ready(cid, req, MarkSettled(txn, senderBalance, receiverBalance))
      modifies repo
      ensures Reached(cid, req, flow, CommitSettle(txn, senderBalance, receiverBalance, suffix))
      ensures old(repo.trace) <= repo.trace
    {
      hide IsRun, Enabled, Local, LockTarget;
      var outcome;
      ghost var call := Call(req, MarkSettled(txn, senderBalance, receiverBalance));
      var providerRef := REF_PREFIX + suffix;
      var ok := repo.UpdateTransactionStatus(cid, call, txn.id, Settled, providerRef);
      if !ok {
        outcome := GiveUp(cid, call);
        return Stop(outcome);
      }
      repo.EndStatement(cid, call, suffix, CommitSettle(txn, senderBalance, receiverBalance, suffix),
                        WithStatus(repo.Before().db, WritesOf(repo.Before(), cid), txn.id, Settled, providerRef));
      flow := Go(());
    }

    /** `suffix` is the random part of the provider reference. */
    method SettlePayment(cid: CallId, txnID: TxnId, caller: string, suffix: string) returns (outcome: Outcome)
      requires repo.Valid() && cid !in repo.calls
      modifies repo
      ensures repo.Done(cid, SettleReq(txnID, caller), outcome)
      ensures old(repo.trace) <= repo.trace
      ensures RanDuring(repo.trace, |old(repo.trace)|, SettleReq(txnID, caller), outcome)
      ensures outcome == Err(DatabaseFailure) ==> repo.mayFail(cid)
      // only a party, or the service itself, settles, and nothing is settled again
      ensures outcome.Ok? ==>
        && (caller == "" || caller == Text(outcome.txn.sender) || caller == Text(outcome.txn.receiver))
        && outcome.txn.id == txnID && outcome.txn.status == Settled
      ensures
        (&& txnID in old(repo.txns) && caller != ""
         && caller != Text(old(repo.txns)[txnID].sender) && caller != Text(old(repo.txns)[txnID].receiver))
        ==> outcome == Err(NotParty) || outcome == Err(DatabaseFailure)
      ensures txnID in old(repo.txns) && old(repo.txns)[txnID].status == Settled ==> outcome.Err?
    {
      hide IsRun, Text;
      var req := SettleReq(txnID, caller);
      Arrive(cid, req);
      outcome := SettleArrived(cid, txnID, caller, suffix);
      ResultRan(cid, req, outcome, |old(repo.trace)|);
      SettleAnswered(repo.trace, repo.steps, |old(repo.trace)| - 1, |repo.trace| - 1, cid, txnID, caller, outcome);
    }

    method SettleArrived(cid: CallId, txnID: TxnId, caller: string, suffix: string) returns (outcome: Outcome)
      requires repo.Ready(cid, SettleReq(txnID, caller), BeginCall)
      modifies repo
      ensures repo.Done(cid, SettleReq(txnID, caller), outcome)
      ensures old(repo.trace) <= repo.trace
    {
      hide PostgresRepo.Ready, PostgresRepo.Done;
      ghost var req := SettleReq(txnID, caller);
      var _ :- BeginPaymentTx(cid, req);
      var txn :- ReadForSettle(cid, txnID, caller);
      var _ :- LockAccounts(cid, req, txn);
      var senderBalance :- TakeFromSender(cid, req, txn);
      var receiverBalance :- GiveToReceiver(cid, req, txn, senderBalance);
      outcome := RecordSettlement(cid, req, txn, senderBalance, receiverBalance, suffix);
    }

    /** Both ledger entries, the status, COMMIT. */
    method RecordSettlement(cid: CallId, ghost req: Request, txn: Transaction, senderBalance: int, receiverBalance: int,
                            suffix: string) returns (outcome: Outcome)
      requires repo.Ready(cid, req, AppendDebit(txn, senderBalance, receiverBalance))
      modifies repo
      ensures repo.Done(cid, req, outcome)
      ensures old(repo.trace) <= repo.trace
    {
      hide PostgresRepo.Ready, PostgresRepo.Done;
      var _ :- WriteEntry(cid, req,
                          AppendDebit(txn, senderBalance, receiverBalance),
                          AppendCredit(txn, senderBalance, receiverBalance),
                          Entry(txn.id, txn.sender, Debit, txn.amount, txn.currency, senderBalance));
      var _ :- WriteEntry(cid, req,
                          AppendCredit(txn, senderBalance, receiverBalance),
                          MarkSettled(txn, senderBalance, receiverBalance),
                          Entry(txn.id, txn.receiver, Credit, txn.amount, txn.currency, receiverBalance));
      var _ :- StoreSettled(cid, req, txn, senderBalance, receiverBalance, suffix);
      var settled := txn.(status := Settled, providerRef := REF_PREFIX + suffix);
      var _ :- CommitPayment(cid, req, CommitSettle(txn, senderBalance, receiverBalance, suffix), settled);
      outcome := Ok(settled);
    }

    // ---- InitiatePayment ----

    /** Parses both ids and reads the sender's account, without a lock. */
    method CheckSender(cid: CallId, req: Request) returns (flow: Flow<string>)
      requires repo.Ready(cid, req, ReadSender) && req.InitiateReq?
      modifies repo
      ensures Reached(cid, req, flow, if flow.Go? then ReadReceiver(flow.value) else ReadSender)
      ensures flow.Go? ==> req.sender.Some? && req.receiver.Some?
      ensures old(repo.trace) <= repo.trace
    {
      hide IsRun, Enabled, Local, LockTarget;
      var outcome;
      ghost var call := Call(req, ReadSender);
      if req.sender.None? || req.receiver.None? {
        repo.Locally(cid, call);
        var error := if req.sender.None? then InvalidSender else InvalidReceiver;
        outcome := Refuse(cid, call, WritesOf(repo.Before(), cid), error);
        return Stop(outcome);
      }
      var reply := repo.GetAccount(cid, call, req.sender.value);
      if reply == Broken {
        outcome := GiveUp(cid, call);
        return Stop(outcome);
      }
      ghost var ws := WritesOf(repo.Before(), cid);
      if !reply.Row? {
        outcome := Refuse(cid, call, ws, SenderNotFound);
        return Stop(outcome);
      }
      repo.EndStatement(cid, call, "", ReadReceiver(reply.value.currency), ws);
      flow := Go(reply.value.currency);
    }

    method CheckReceiver(cid: CallId, req: Request, senderCurrency: string) returns (flow: Flow<()>)
      requires repo.Ready(cid, req, ReadReceiver(senderCurrency))
      requires req.InitiateReq? && req.sender.Some? && req.receiver.Some?
      modifies repo
      ensures Reached(cid, req, flow, BeginInsert) && old(repo.trace) <= repo.trace
    {
      hide IsRun, Enabled, Local, LockTarget;
      var outcome;
      ghost var call := Call(req, ReadReceiver(senderCurrency));
      var reply := repo.GetAccount(cid, call, req.receiver.value);
      if reply == Broken {
        outcome := GiveUp(cid, call);
        return Stop(outcome);
      }
      ghost var ws := WritesOf(repo.Before(), cid);
      if !reply.Row? {
        outcome := Refuse(cid, call, ws, ReceiverNotFound);
        return Stop(outcome);
      }
      var receiverCurrency := reply.value.currency;
      if senderCurrency != req.currency || receiverCurrency != req.currency {
        outcome := Refuse(cid, call, ws, CurrencyMismatch(senderCurrency, receiverCurrency));
        return Stop(outcome);
      }
      repo.EndStatement(cid, call, "", BeginInsert, ws);
      flow := Go(());
    }

    method BeginInsertTx(cid: CallId, ghost req: Request) returns (flow: Flow<()>)
      requires repo.Ready(cid, req, BeginInsert)
      modifies repo
      ensures Reached(cid, req, flow, InsertTxn) && old(repo.trace) <= repo.trace
    {
      hide IsRun, Enabled, Local, LockTarget;
      var outcome;
      ghost var call := Call(req, BeginInsert);
      var ok := repo.BeginTx(cid, call);
      if !ok {
        outcome := GiveUp(cid, call);
        return Stop(outcome);
      }
      repo.EndStatement(cid, call, "", InsertTxn, NO_WRITES);
      flow := Go(());
    }

    /** CreateTransactionIdempotent: inserts, or fetches the row that holds the key. A duplicate is
        answered with the stored row, and nothing is committed. */
    method CreateTransactionIdempotent(cid: CallId, req: Request) returns (flow: Flow<Transaction>)
      requires repo.Ready(cid, req, InsertTxn)
      requires req.InitiateReq? && req.sender.Some? && req.receiver.Some?
      modifies repo
      ensures Reached(cid, req, flow, if flow.Go? then CommitCreate(flow.value) else InsertTxn)
      ensures flow.Go? ==>
        && req.amount > 0 && |req.key| <= 255
        && flow.value == Transaction(flow.value.id, req.key, req.sender.value, req.receiver.value,
                                     req.amount, req.currency, Pending, "")
      ensures flow.Stop? ==>
        || flow.outcome == Err(DatabaseFailure)
        || (flow.outcome == Err(InsertRejected) && (req.amount <= 0 || |req.key| > 255))
        || (flow.outcome.Ok? && IsStored(flow.outcome.txn, req.key))
      ensures old(repo.trace) <= repo.trace
    {
      hide IsRun, Enabled, Local, LockTarget, WithInsert, NewTransaction;
      var outcome;
      ghost var call := Call(req, InsertTxn);
      var reply := repo.InsertTransaction(cid, call, req);
      if reply == Broken {
        outcome := GiveUp(cid, call);
        return Stop(outcome);
      }
      ghost var ws := WritesOf(repo.Before(), cid);
      if !reply.Row? {
        outcome := Refuse(cid, call, ws, InsertRejected);
        return Stop(outcome);
      }
      if reply.value.Some? {
        var created := reply.value.value;
        NewRow(req, repo.Before().nextTxn);
        repo.EndStatement(cid, call, "", CommitCreate(created), WithInsert(ws, created));
        return Go(created);
      }
      repo.EndStatement(cid, call, "", FetchExisting, ws);
      outcome := AnswerDuplicate(cid, req);
      flow := Stop(outcome);
    }

    lemma NewRow(req: Request, id: TxnId)
      requires req.InitiateReq? && req.sender.Some? && req.receiver.Some?
      ensures NewTransaction(req, id)
        == Transaction(id, req.key, req.sender.value, req.receiver.value, req.amount, req.currency, Pending, "")
    {
    }

    method AnswerDuplicate(cid: CallId, req: Request) returns (outcome: Outcome)
      requires repo.Ready(cid, req, FetchExisting) && req.InitiateReq?
      modifies repo
      ensures repo.Done(cid, req, outcome) && old(repo.trace) <= repo.trace
      ensures outcome == Err(DatabaseFailure) || (outcome.Ok? && IsStored(outcome.txn, req.key))
    {
      hide IsRun, Enabled, Local, LockTarget;
      ghost var call := Call(req, FetchExisting);
      var reply := repo.GetTransactionByIdempotencyKeyForUpdate(cid, call, req.key);
      if reply == Broken {
        outcome := GiveUp(cid, call);
        return;
      }
      ghost var ws := WritesOf(repo.Before(), cid);
      FetchFinds(cid, req);
      if !reply.Row? {
        assert false;  // the key was taken, and transactions are never deleted
      }
      outcome := Ok(reply.value);
      repo.EndStatement(cid, call, "", Unwinding(outcome), ws);
      Unwind(cid, req, outcome);
      OutcomeIsStored(cid, req, outcome.txn);
    }

    /** The payment is stored under the key, and is now at most further on in its life. */
    predicate IsStored(t: Transaction, key: string)
      reads repo
    {
      && t.key == key && t.id in repo.txns
      && var row := repo.txns[t.id]; t.(status := row.status, providerRef := row.providerRef) == row
    }

    lemma FetchFinds(cid: CallId, req: Request)
      requires |repo.trace| > 0 && repo.Recorded() && req.InitiateReq?
      requires cid in repo.Before().calls && repo.Before().calls[cid] == Call(req, FetchExisting)
      ensures var db := repo.Before().db; req.key in db.byKey && db.byKey[req.key] in db.txns
    {
      hide IsRun, Held, FreshIds, OwnsExactly, GoodLedger, GoodReplay, Conserved, GoodTxns;
      RunInv(repo.trace, repo.steps, |repo.trace| - 1);
      assert GoodCall(repo.Before(), cid);
    }

    lemma OutcomeIsStored(cid: CallId, req: Request, t: Transaction)
      requires repo.Done(cid, req, Ok(t)) && req.InitiateReq?
      ensures IsStored(t, req.key)
    {
      hide IsRun, Held, FreshIds, OwnsExactly, Good;
      repo.NowIsGood();
      assert GoodCall(repo.Now(), cid);
    }

    method InitiatePayment(cid: CallId, req: Request) returns (outcome: Outcome)
      requires repo.Valid() && cid !in repo.calls && req.InitiateReq?
      modifies repo
      ensures repo.Done(cid, req, outcome)
      ensures old(repo.trace) <= repo.trace
      ensures RanDuring(repo.trace, |old(repo.trace)|, req, outcome)
      ensures outcome == Err(DatabaseFailure) ==> repo.mayFail(cid)
      // a request that is in order succeeds, and a retry gets the payment stored under its key
      ensures
        (&& req.sender.Some? && req.receiver.Some?
         && req.sender.value in old(repo.accounts) && req.receiver.value in old(repo.accounts)
         && old(repo.accounts)[req.sender.value].currency == req.currency
         && old(repo.accounts)[req.receiver.value].currency == req.currency
         && req.amount > 0 && |req.key| <= 255)
        ==> outcome.Ok? || outcome == Err(DatabaseFailure)
      ensures outcome.Ok? ==> outcome.txn.key == req.key && req.amount > 0 && |req.key| <= 255
      ensures forall id :: id in old(repo.txns) && old(repo.txns)[id].key == req.key && outcome.Ok? ==>
        outcome.txn == old(repo.txns)[id].(status := outcome.txn.status, providerRef := outcome.txn.providerRef)
    {
      hide IsRun;
      Arrive(cid, req);
      outcome := InitiateArrived(cid, req);
      ResultRan(cid, req, outcome, |old(repo.trace)|);
      InitiateAnswered(repo.trace, repo.steps, |old(repo.trace)| - 1, |repo.trace| - 1, cid, req, outcome);
    }

    method InitiateArrived(cid: CallId, req: Request) returns (outcome: Outcome)
      requires repo.Ready(cid, req, ReadSender) && req.InitiateReq?
      modifies repo
      ensures repo.Done(cid, req, outcome)
      ensures old(repo.trace) <= repo.trace
    {
      hide PostgresRepo.Ready, PostgresRepo.Done;
      var senderCurrency :- CheckSender(cid, req);
      var _ :- CheckReceiver(cid, req, senderCurrency);
      var _ :- BeginInsertTx(cid, req);
      var txn :- CreateTransactionIdempotent(cid, req);
      var _ :- CommitPayment(cid, req, CommitCreate(txn), txn);
      outcome := Ok(txn);
    }
  }
}
