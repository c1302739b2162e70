/** What holds over whole runs of the gateway, for every interleaving of every set of calls. */
module Runs {
  import opened Uuids
  import opened Records
  import opened AtomicGateway
  import opened Books
  import opened Engine
  import opened EngineInvariant
  import opened Safety
  import opened Linearizability
  import opened Sums

  // ---- Which steps touch the tables ----

  /** A step of a call that is not a COMMIT leaves the tables alone. */
  lemma OnlyCommitWrites(s: State, step: Step)
    requires CanStep(s, step) && s.db != Apply(s, step).db
    ensures step.Open? || (step.Advance? && IsCommit(s.calls[step.cid].pc))
  {
    hide Exec, Merge, LockTarget;
  }

  /** What a commit does to one transaction row. */
  lemma CommitRow(s: State, cid: CallId, suffix: string, id: TxnId)
    requires Inv(s) && Enabled(s, cid) && IsCommit(s.calls[cid].pc)
    ensures var pc, db' := s.calls[cid].pc, AdvanceCall(s, cid, suffix).db;
      if id != pc.t.id then id in db'.txns <==> id in s.db.txns
      else id in db'.txns && db'.txns[id] == Returned(pc)
    ensures var pc, db' := s.calls[cid].pc, AdvanceCall(s, cid, suffix).db;
      id != pc.t.id && id in s.db.txns ==> db'.txns[id] == s.db.txns[id]
    ensures var pc := s.calls[cid].pc;
      match pc
      case CommitCreate(t) => t.id !in s.db.txns && t.status == Pending
      case CommitAuthorize(t) => t.id in s.db.txns && s.db.txns[t.id] == t && t.status == Pending
      case CommitSettle(t, _, _, _) => t.id in s.db.txns && s.db.txns[t.id] == t && t.status == Authorized
      case _ => false
  {
    hide Good, Held, LockTarget, FreshIds, Reports, CallNow;
    assert GoodCall(s, cid);
    CommitIsTheCall(s, cid, suffix);
  }

  // ---- Status history ----

  /** One step: rows stay, keep their identity, and change status only along the table; a row that
      appears is pending. */
  lemma StatusStep(s: State, step: Step, id: TxnId)
    requires Inv(s) && CanStep(s, step)
    ensures var db' := Apply(s, step).db;
      && (id in s.db.txns ==>
            && id in db'.txns
            && s.db.txns[id].(status := db'.txns[id].status, providerRef := db'.txns[id].providerRef) == db'.txns[id]
            && (db'.txns[id].status == s.db.txns[id].status
                || (TransitionAllowed(s.db.txns[id].status, db'.txns[id].status)
                    && Rank(db'.txns[id].status) == Rank(s.db.txns[id].status) + 1)))
      && (id !in s.db.txns && id in db'.txns ==> db'.txns[id].status == Pending)
  {
    hide Inv, Exec, Merge, LockTarget;
    var s' := Apply(s, step);
    if s'.db != s.db {
      OnlyCommitWrites(s, step);
      if step.Advance? {
        CommitRow(s, step.cid, step.suffix, id);
      }
    }
  }

  /** The committed statuses of a transaction, in order, without repetitions. */
  function History(tr: seq<State>, id: TxnId): seq<Status> {
    if tr == [] then []
    else
      var before, db := History(tr[..|tr| - 1], id), tr[|tr| - 1].db;
      if id !in db.txns then before
      else if before != [] && before[|before| - 1] == db.txns[id].status then before
      else before + [db.txns[id].status]
  }

  /** The history of every transaction is a prefix of pending, authorized, settled. */
  lemma {:induction false} StatusHistory(tr: seq<State>, steps: seq<Step>, i: nat, id: TxnId)
    requires IsRun(tr, steps) && i < |tr|
    ensures History(tr[..i + 1], id) <= [Pending, Authorized, Settled]
    ensures id !in tr[i].db.txns ==> History(tr[..i + 1], id) == []
    ensures id in tr[i].db.txns ==>
      var h := History(tr[..i + 1], id);
      |h| > 0 && tr[i].db.txns[id].status == h[|h| - 1]
  {
    hide Inv, CanStep, Apply;
    assert tr[..i + 1][..i] == tr[..i];
    if i == 0 {
    } else {
      StatusHistory(tr, steps, i - 1, id);
      RunInv(tr, steps, i - 1);
      StatusStep(tr[i - 1], steps[i - 1], id);
    }
  }

  lemma RankInRun(s: State, id: TxnId)
    requires Inv(s) && id in s.db.txns
    ensures Rank(s.db.txns[id].status) <= Rank(Settled)
  {
    hide GoodCalls, GoodLedger, GoodReplay, GoodIndex, Conserved;
    assert GoodTxn(s.db, id);
  }

  /** Transactions are never lost, and their id, key, parties, amount and currency never change. */
  lemma {:induction false} RowsKeepIdentity(tr: seq<State>, steps: seq<Step>, i: nat, j: nat, id: TxnId)
    requires IsRun(tr, steps) && i <= j < |tr| && id in tr[i].db.txns
    ensures id in tr[j].db.txns
    ensures var t, u := tr[i].db.txns[id], tr[j].db.txns[id]; t.(status := u.status, providerRef := u.providerRef) == u
    ensures Rank(tr[i].db.txns[id].status) <= Rank(tr[j].db.txns[id].status) <= Rank(Settled)
    decreases j
  {
    hide CanStep, Apply, Inv;
    RunInv(tr, steps, j);
    if i == j {
    } else {
      RowsKeepIdentity(tr, steps, i, j - 1, id);
      RunInv(tr, steps, j - 1);
      StatusStep(tr[j - 1], steps[j - 1], id);
    }
    RankInRun(tr[j], id);
  }

  // ---- Exactly-once settlement ----

  /** Step `i` commits a settlement of transaction `id`. */
  predicate SettlesAt(tr: seq<State>, steps: seq<Step>, i: nat, id: TxnId)
    requires i < |steps| && i < |tr|
  {
    && steps[i].Advance? && steps[i].cid in tr[i].calls
    && tr[i].calls[steps[i].cid].pc.CommitSettle?
    && tr[i].calls[steps[i].cid].pc.t.id == id
  }

  lemma SettlesAtEffect(tr: seq<State>, steps: seq<Step>, i: nat, id: TxnId)
    requires IsRun(tr, steps) && i < |steps| && SettlesAt(tr, steps, i, id)
    ensures id in tr[i].db.txns && tr[i].db.txns[id].status == Authorized
    ensures id in tr[i + 1].db.txns && tr[i + 1].db.txns[id].status == Settled
  {
    hide Inv, Exec, Merge, LockTarget;
    RunInv(tr, steps, i);
    assert CanStep(tr[i], steps[i]) && tr[i + 1] == Apply(tr[i], steps[i]);
    CommitRow(tr[i], steps[i].cid, steps[i].suffix, id);
  }

  /** However many settle calls race, at most one commits for a transaction. */
  lemma SettledAtMostOnce(tr: seq<State>, steps: seq<Step>, i: nat, j: nat, id: TxnId)
    requires IsRun(tr, steps) && i < |steps| && j < |steps|
    requires SettlesAt(tr, steps, i, id) && SettlesAt(tr, steps, j, id)
    ensures i == j
  {
    hide IsRun, SettlesAt;
    SettlesAtEffect(tr, steps, i, id);
    SettlesAtEffect(tr, steps, j, id);
    RunLength(tr, steps);
    if i < j {
      RowsKeepIdentity(tr, steps, i + 1, j, id);
    } else if j < i {
      RowsKeepIdentity(tr, steps, j + 1, i, id);
    }
  }

  lemma RunLength(tr: seq<State>, steps: seq<Step>)
    requires IsRun(tr, steps)
    ensures |tr| == |steps| + 1
  {
  }

  /** A transaction is settled exactly when some settle call has committed it. */
  lemma {:induction false} SettledIffCommitted(tr: seq<State>, steps: seq<Step>, n: nat, id: TxnId)
    requires IsRun(tr, steps) && n < |tr|
    ensures id in tr[n].db.txns && tr[n].db.txns[id].status == Settled
      <==> exists i :: 0 <= i < n && SettlesAt(tr, steps, i, id)
  {
    hide CanStep, Apply, Inv, SettlesAt;
    if n == 0 {
    } else {
      SettledIffCommitted(tr, steps, n - 1, id);
      if SettlesAt(tr, steps, n - 1, id) {
        SettlesAtEffect(tr, steps, n - 1, id);
      } else {
        if id in tr[n].db.txns && tr[n].db.txns[id].status == Settled {
          SettledBefore(tr, steps, n - 1, id);
        }
        if id in tr[n - 1].db.txns {
          RowsKeepIdentity(tr, steps, n - 1, n, id);
        }
      }
    }
  }

  lemma SettledBefore(tr: seq<State>, steps: seq<Step>, i: nat, id: TxnId)
    requires IsRun(tr, steps) && i < |steps| && !SettlesAt(tr, steps, i, id)
    requires id in tr[i + 1].db.txns && tr[i + 1].db.txns[id].status == Settled
    ensures id in tr[i].db.txns && tr[i].db.txns[id].status == Settled
  {
    hide Inv, Exec, Merge, LockTarget;
    RunInv(tr, steps, i);
    assert CanStep(tr[i], steps[i]) && tr[i + 1] == Apply(tr[i], steps[i]);
    if tr[i + 1].db != tr[i].db {
      OnlyCommitWrites(tr[i], steps[i]);
      if steps[i].Advance? {
        CommitRow(tr[i], steps[i].cid, steps[i].suffix, id);
      }
    }
  }

  /** Double entry in every committed state: a settled transaction has one debit of its sender and
      one credit of its receiver, any other has no entry; and the books balance. */
  lemma DoubleEntryBooks(tr: seq<State>, steps: seq<Step>, i: nat, id: TxnId)
    requires IsRun(tr, steps) && i < |tr|
    ensures var db := tr[i].db; var entries := EntriesOf(db.ledger, id);
      if id in db.txns && db.txns[id].status == Settled then
        var t := db.txns[id];
        && |entries| == 2
        && entries[0] == Entry(id, t.sender, Debit, t.amount, t.currency, entries[0].balanceAfter)
        && entries[1] == Entry(id, t.receiver, Credit, t.amount, t.currency, entries[1].balanceAfter)
      else entries == []
    ensures var db := tr[i].db;
      EntryTotal(db.ledger, Debit) == EntryTotal(db.ledger, Credit) 
        == Sum(map x | x in db.txns && db.txns[x].status == Settled :: db.txns[x].amount)
  {
    hide GoodCalls, IsRun;
    RunInv(tr, steps, i);
    assert DoubleEntry(tr[i].db, id);
    if id in tr[i].db.txns {
      assert GoodTxn(tr[i].db, id);
    }
  }

  // ---- Ledger replay and overspending ----

  lemma {:induction false} ReplayedPrefix(ledger: seq<Entry>, opening: map<Uuid, int>, n: nat)
    requires Replays(ledger, opening) && n <= |ledger|
    ensures Replays(ledger[..n], opening)
    decreases |ledger|
  {
    if n < |ledger| {
      ReplayedPrefix(ledger[..|ledger| - 1], opening, n);
      assert ledger[..|ledger| - 1][..n] == ledger[..n];
    } else {
      assert ledger[..n] == ledger;
    }
  }

  /** Replaying an account's entries over its opening balance gives every recorded balance, and in
      the end the stored one. */
  lemma LedgerReplay(tr: seq<State>, steps: seq<Step>, i: nat, n: nat, a: Uuid)
    requires IsRun(tr, steps) && i < |tr| && a in tr[i].db.accounts
    ensures a in tr[i].opening
    ensures Running(tr[i].db.ledger, a, tr[i].opening[a]) == tr[i].db.accounts[a].balance
    ensures n < |tr[i].db.ledger| && tr[i].db.ledger[n].account == a ==>
      Running(tr[i].db.ledger[..n + 1], a, tr[i].opening[a]) == tr[i].db.ledger[n].balanceAfter
  {
    hide GoodCalls, IsRun;
    RunInv(tr, steps, i);
    var ledger := tr[i].db.ledger;
    if n < |ledger| {
      ReplayedPrefix(ledger, tr[i].opening, n + 1);
      assert ledger[..n + 1][n] == ledger[n];
    }
  }

  function MovedIn(ledger: seq<Entry>, a: Uuid, kind: EntryType): int {
    if ledger == [] then 0
    else
      var last := ledger[|ledger| - 1];
      MovedIn(ledger[..|ledger| - 1], a, kind) + if last.account == a && last.kind == kind then last.amount else 0
  }

  lemma {:induction false} RunningIsDifference(ledger: seq<Entry>, a: Uuid, opening: int)
    ensures Running(ledger, a, opening) == opening + MovedIn(ledger, a, Credit) - MovedIn(ledger, a, Debit)
  {
    if ledger == [] {
    } else {
      RunningIsDifference(ledger[..|ledger| - 1], a, opening);
    }
  }

  lemma {:induction false} ReplayNonNegative(ledger: seq<Entry>, opening: map<Uuid, int>, a: Uuid)
    requires Replays(ledger, opening) && a in opening && opening[a] >= 0
    ensures Running(ledger, a, opening[a]) >= 0
  {
    if ledger == [] {
    } else {
      ReplayNonNegative(ledger[..|ledger| - 1], opening, a);
    }
  }

  /** After every ledger entry of every run an account's settled debits are covered by its opening
      balance and its settled credits so far, though authorization reserves nothing. */
  lemma NeverOverspends(tr: seq<State>, steps: seq<Step>, i: nat, n: nat, a: Uuid)
    requires IsRun(tr, steps) && i < |tr| && a in tr[i].db.accounts && n <= |tr[i].db.ledger|
    ensures a in tr[i].opening
    ensures MovedIn(tr[i].db.ledger[..n], a, Debit) <= tr[i].opening[a] + MovedIn(tr[i].db.ledger[..n], a, Credit)
    ensures tr[i].db.accounts[a].balance >= 0
  {
    hide GoodCalls, IsRun;
    RunInv(tr, steps, i);
    ReplayedPrefix(tr[i].db.ledger, tr[i].opening, n);
    ReplayNonNegative(tr[i].db.ledger[..n], tr[i].opening, a);
    RunningIsDifference(tr[i].db.ledger[..n], a, tr[i].opening[a]);
  }

  // ---- Conservation and int64 ----

  /** The balances of a currency add up to what its accounts were opened with. */
  lemma CurrencyConserved(tr: seq<State>, steps: seq<Step>, i: nat, currency: string)
    requires IsRun(tr, steps) && i < |tr|
    ensures Sum(BalancesIn(tr[i].db.accounts, currency)) == Sum(OpeningsIn(tr[i].db.accounts, tr[i].opening, currency))
    ensures var accounts, opening := tr[i].db.accounts, tr[i].opening;
      && opening.Keys == accounts.Keys
      && Sum(map a | a in accounts && accounts[a].currency == currency :: accounts[a].balance)
         == Sum(map a | a in accounts && a in opening && accounts[a].currency == currency :: opening[a])
  {
    hide GoodCalls, IsRun;
    RunInv(tr, steps, i);
    assert ConservedIn(tr[i].db.accounts, tr[i].opening, currency);
  }

  lemma OpeningsStable(s: State, step: Step, currency: string)
    requires Inv(s) && CanStep(s, step) && !step.Open?
    ensures OpeningsIn(Apply(s, step).db.accounts, Apply(s, step).opening, currency)
         == OpeningsIn(s.db.accounts, s.opening, currency)
  {
    hide Inv, Exec, LockTarget, Local, Good, GoodCall, Held;
    var s' := Apply(s, step);
    if s'.db != s.db {
      OnlyCommitWrites(s, step);
      CommitAccounts(s, step.cid, step.suffix);
    }
  }

  /** Two states of an account row that differ at most in the balance. */
  predicate SameColumns(row: Account, row': Account) {
    row.(balance := row'.balance) == row'
  }

  lemma CommitAccounts(s: State, cid: CallId, suffix: string)
    requires Inv(s) && Enabled(s, cid) && IsCommit(s.calls[cid].pc)
    ensures var accounts' := AdvanceCall(s, cid, suffix).db.accounts;
      && accounts'.Keys == s.db.accounts.Keys
      && forall a :: a in s.db.accounts ==> SameColumns(accounts'[a], s.db.accounts[a])
  {
    hide Good, Held, LockTarget, FreshIds, Exec, Local;
    assert GoodCall(s, cid);
    WrittenAccounts(s.db, WritesOf(s, cid), s.calls[cid]);
  }

  /** A committing call writes only accounts that exist, and leaves all but their balance. */
  lemma WrittenAccounts(db: Db, ws: Writes, call: Call)
    requires Local(db, ws, call) && IsCommit(call.pc)
    ensures forall a :: a in ws.accounts ==> a in db.accounts && SameColumns(ws.accounts[a], db.accounts[a])
  {
  }

  /** Only CreateAccount changes the total of a currency. */
  lemma OnlyOpenChangesTotals(tr: seq<State>, steps: seq<Step>, i: nat, currency: string)
    requires IsRun(tr, steps) && i < |steps|
    ensures Sum(BalancesIn(tr[i + 1].db.accounts, currency)) == Sum(BalancesIn(tr[i].db.accounts, currency))
      + if steps[i].Open? && steps[i].row.currency == currency then steps[i].row.balance else 0
  {
    hide Inv, Exec, Merge, LockTarget;
    RunInv(tr, steps, i);
    CurrencyConserved(tr, steps, i, currency);
    CurrencyConserved(tr, steps, i + 1, currency);
    assert CanStep(tr[i], steps[i]) && tr[i + 1] == Apply(tr[i], steps[i]);
    if steps[i].Open? {
      TotalAfterWrite(tr[i].db.accounts, steps[i].id, steps[i].row, currency);
    } else {
      OpeningsStable(tr[i], steps[i], currency);
    }
  }

  /** Accounts are never lost, only their balance ever changes, and only COMMIT changes it. */
  lemma AccountStep(s: State, step: Step, a: Uuid)
    requires Inv(s) && CanStep(s, step)
    ensures var accounts' := Apply(s, step).db.accounts;
      && (a in s.db.accounts ==> a in accounts' && SameColumns(accounts'[a], s.db.accounts[a]))
      && (a !in s.db.accounts && a in accounts' ==>
            step.Open? && step.id == a && Unclaimed(s.db.accounts, accounts'[a].email, accounts'[a].apiKey))
  {
    hide Inv, Exec, Merge, LockTarget;
    if Apply(s, step).db != s.db {
      OnlyCommitWrites(s, step);
      if step.Advance? {
        CommitAccounts(s, step.cid, step.suffix);
      }
    }
  }

  /** No two accounts of any reachable state share an e-mail address or an API key. */
  lemma {:induction false} AccountsAreDistinct(tr: seq<State>, steps: seq<Step>, i: nat, a: Uuid, b: Uuid)
    requires IsRun(tr, steps) && i < |tr| && a in tr[i].db.accounts && b in tr[i].db.accounts && a != b
    ensures tr[i].db.accounts[a].email != tr[i].db.accounts[b].email
    ensures tr[i].db.accounts[a].apiKey != tr[i].db.accounts[b].apiKey
  {
    hide Inv, Apply, CanStep;
    if i == 0 {
    } else {
      var accounts := tr[i - 1].db.accounts;
      RunInv(tr, steps, i - 1);
      AccountStep(tr[i - 1], steps[i - 1], a);
      AccountStep(tr[i - 1], steps[i - 1], b);
      if a in accounts && b in accounts {
        AccountsAreDistinct(tr, steps, i - 1, a, b);
      }
    }
  }

  /** No balance of a currency, committed or in flight between a debit and its credit, ever exceeds
      what the currency's accounts were opened with. */
  lemma BalancesBounded(tr: seq<State>, steps: seq<Step>, i: nat, a: Uuid, cid: CallId)
    requires IsRun(tr, steps) && i < |tr| && a in tr[i].db.accounts
    ensures var s := tr[i]; var currency := s.db.accounts[a].currency;
      var total := Sum(OpeningsIn(s.db.accounts, s.opening, currency));
      && 0 <= s.db.accounts[a].balance <= total
      && (cid in s.calls && InTransaction(s.calls[cid].pc) && cid in s.open && a in s.open[cid].accounts ==>
            0 <= s.open[cid].accounts[a].balance <= total)
  {
    hide IsRun, Local, Held, FreshIds, GoodLedger, GoodReplay, GoodIndex;
    RunInv(tr, steps, i);
    CurrencyConserved(tr, steps, i, tr[i].db.accounts[a].currency);
    SumBoundsParts(BalancesIn(tr[i].db.accounts, tr[i].db.accounts[a].currency), a, a);
    if cid in tr[i].calls && InTransaction(tr[i].calls[cid].pc) && cid in tr[i].open && a in tr[i].open[cid].accounts {
      assert GoodCall(tr[i], cid);
      InFlightBounded(tr[i].db, tr[i].open[cid], tr[i].calls[cid], a);
    }
  }

  lemma InFlightBounded(db: Db, ws: Writes, call: Call, a: Uuid)
    requires GoodAccounts(db) && GoodTxns(db) && Local(db, ws, call) && InTransaction(call.pc) && a in ws.accounts
    ensures a in db.accounts
    ensures 0 <= ws.accounts[a].balance <= Sum(BalancesIn(db.accounts, db.accounts[a].currency))
  {
    hide NewTransaction, Insertable, Credentialed, Checked;
    var t := call.pc.t;
    assert GoodTxn(db, t.id);
    var balances := BalancesIn(db.accounts, t.currency);
    SumBoundsParts(balances, t.sender, t.receiver);
  }

  /** If the opening balances of a payment's currency sum to at most 2^63 - 1, its credit never
      leaves int64: the statement succeeds. The negated amount of a stored payment is exact anyway. */
  lemma CreditFitsInt64(tr: seq<State>, steps: seq<Step>, i: nat, cid: CallId)
    requires IsRun(tr, steps) && i < |tr| && cid in tr[i].calls && tr[i].calls[cid].pc.CreditReceiver?
    requires Sum(OpeningsIn(tr[i].db.accounts, tr[i].opening, tr[i].calls[cid].pc.t.currency)) <= INT64_MAX
    ensures var t := tr[i].calls[cid].pc.t;
      && Negate(t.amount) + t.amount == 0
      && NewBalance(tr[i].db, WritesOf(tr[i], cid), t.receiver, t.amount).Some?
  {
    hide IsRun, Held, FreshIds, GoodLedger, GoodReplay, GoodIndex;
    RunInv(tr, steps, i);
    var db, t := tr[i].db, tr[i].calls[cid].pc.t;
    assert GoodCall(tr[i], cid) && GoodTxn(db, t.id);
    CurrencyConserved(tr, steps, i, t.currency);
    SumBoundsParts(BalancesIn(db.accounts, t.currency), t.sender, t.receiver);
  }

  // ---- Idempotency ----

  /** Each key has at most one committed transaction. */
  lemma KeyIsUnique(tr: seq<State>, steps: seq<Step>, i: nat, id: TxnId, id': TxnId)
    requires IsRun(tr, steps) && i < |tr| && id in tr[i].db.txns && id' in tr[i].db.txns
    requires tr[i].db.txns[id].key == tr[i].db.txns[id'].key
    ensures id == id'
  {
    hide GoodCalls, IsRun;
    RunInv(tr, steps, i);
  }

  /** All successful initiate calls with one key report the same payment, whatever their bodies. */
  lemma IdempotentInitiate(tr: seq<State>, steps: seq<Step>, i: nat, c: CallId, d: CallId,
                           req: Request, req': Request, t: Transaction, t': Transaction)
    requires IsRun(tr, steps) && i < |tr|
    requires HasResult(tr[i], c, req, Ok(t)) && HasResult(tr[i], d, req', Ok(t'))
    requires req.InitiateReq? && req'.InitiateReq? && req.key == req'.key
    ensures t.key == req.key && t.(status := t'.status, providerRef := t'.providerRef) == t'
    ensures t.id in tr[i].db.txns
    ensures var u := tr[i].db.txns[t.id]; t.(status := u.status, providerRef := u.providerRef) == u
  {
    hide IsRun, Held, FreshIds, Good;
    RunInv(tr, steps, i);
    assert GoodCall(tr[i], c) && GoodCall(tr[i], d);
    hide GoodCall;
    KeyIsUnique(tr, steps, i, t.id, t'.id);
  }

  /** A call about to insert inserts, if nothing stands in its way. */
  lemma InsertsNext(s: State, d: CallId, suffix: string)
    requires d in s.calls && s.calls[d].pc.InsertTxn? && Fits(s.calls[d]) && Insertable(s.calls[d].req)
    requires s.calls[d].req.key !in s.db.byKey && KeyRow(s.calls[d].req.key) !in s.locks
    ensures Enabled(s, d)
    ensures var pc := AdvanceCall(s, d, suffix).calls[d].pc;
      pc.CommitCreate? && pc.t == NewTransaction(s.calls[d].req, s.nextTxn)
  {
    hide NewTransaction, Insertable, WithInsert;
  }

  /** Two calls insert the same key at once: when the first rolls back, the second, which waited,
      becomes the creator, with its own body. */
  lemma WaiterTakesOver(tr: seq<State>, steps: seq<Step>, i: nat, c: CallId, d: CallId, suffix: string)
    requires IsRun(tr, steps) && i < |tr|
    requires c != d && c in tr[i].calls && d in tr[i].calls
    requires tr[i].calls[c].pc.Unwinding? && tr[i].calls[d].pc.InsertTxn?
    requires tr[i].calls[d].req.InitiateReq? && Insertable(tr[i].calls[d].req)
    requires KeyRow(tr[i].calls[d].req.key) in tr[i].locks && tr[i].locks[KeyRow(tr[i].calls[d].req.key)] == c
    ensures !Enabled(tr[i], d) && Enabled(tr[i], c)
    ensures var s := AdvanceCall(tr[i], c, suffix); Enabled(s, d)
    ensures var s := AdvanceCall(tr[i], c, suffix); var pc := AdvanceCall(s, d, suffix).calls[d].pc;
      Fits(tr[i].calls[d]) && pc.CommitCreate? && pc.t == NewTransaction(tr[i].calls[d].req, tr[i].nextTxn)
  {
    RunInv(tr, steps, i);
    hide IsRun, Held, FreshIds, Good, Exec, NewTransaction, Insertable, Local, OwnsExactly;
    assert GoodCall(tr[i], d);
    LocalFits(tr[i].db, WritesOf(tr[i], d), tr[i].calls[d]);
    RollbackExact(tr[i], c, suffix);
    InsertsNext(AdvanceCall(tr[i], c, suffix), d, suffix);
  }

  // ---- Failure changes nothing ----

  /** A call that ends with an error, at whatever step, never changed the tables, and when it has
      finished it holds no lock and no private write. */
  lemma FailureChangesNothing(tr: seq<State>, steps: seq<Step>, n: nat, cid: CallId, error: Error, i: nat)
    requires IsRun(tr, steps) && n < |tr| && i < n
    requires cid in tr[n].calls && tr[n].calls[cid].pc == Finished(Err(error))
    ensures (steps[i].Advance? || steps[i].Fail?) && steps[i].cid == cid ==> tr[i + 1].db == tr[i].db
    ensures cid !in tr[n].open && forall r :: r in tr[n].locks ==> tr[n].locks[r] != cid
  {
    hide Inv, Exec, Merge, LockTarget;
    RunInv(tr, steps, n);
    FinishedHoldsNothing(tr[n], cid);
    assert CanStep(tr[i], steps[i]) && tr[i + 1] == Apply(tr[i], steps[i]);
    if tr[i + 1].db != tr[i].db && steps[i].Advance? && steps[i].cid == cid {
      OnlyCommitWrites(tr[i], steps[i]);
      ResultIsFinal(tr, steps, i + 1, n, cid);
    }
  }

  lemma FinishedHoldsNothing(s: State, cid: CallId)
    requires Inv(s) && cid in s.calls && s.calls[cid].pc.Finished?
    ensures cid !in s.open && forall r :: r in s.locks ==> s.locks[r] != cid
  {
    hide Good, FreshIds, Local;
    assert GoodCall(s, cid);
  }

  lemma FinishedStays(s: State, step: Step, cid: CallId)
    requires CanStep(s, step) && cid in s.calls && s.calls[cid].pc.Finished?
    ensures cid in Apply(s, step).calls && Apply(s, step).calls[cid] == s.calls[cid]
  {
    hide Exec, Merge, LockTarget;
  }

  /** A finished call stays as it is. */
  lemma {:induction false} ResultIsFinal(tr: seq<State>, steps: seq<Step>, i: nat, j: nat, cid: CallId)
    requires IsRun(tr, steps) && i <= j < |tr|
    requires cid in tr[i].calls && tr[i].calls[cid].pc.Finished?
    ensures cid in tr[j].calls && tr[j].calls[cid] == tr[i].calls[cid]
    decreases j
  {
    hide CanStep, Apply;
    if i == j {
    } else {
      ResultIsFinal(tr, steps, i, j - 1, cid);
      FinishedStays(tr[j - 1], steps[j - 1], cid);
    }
  }

  /** A rollback gives back every lock and private write and nothing else. */
  lemma RollbackExact(s: State, cid: CallId, suffix: string)
    requires Inv(s) && cid in s.calls && s.calls[cid].pc.Unwinding?
    ensures Enabled(s, cid)
    ensures var s' := AdvanceCall(s, cid, suffix);
      && s'.db == s.db && s'.opening == s.opening && s'.nextTxn == s.nextTxn
      && cid !in s'.open
      && (forall r :: r in s'.locks <==> r in s.locks && s.locks[r] != cid)
      && (forall r :: r in s'.locks ==> s'.locks[r] == s.locks[r])
      && (forall d :: d != cid ==> (d in s'.open <==> d in s.open) && (d in s.open ==> s'.open[d] == s.open[d]))
      && s'.calls == s.calls[cid := Call(s.calls[cid].req, Finished(s.calls[cid].pc.outcome))]
  {
    hide Inv;
  }

  lemma RunInvGood(tr: seq<State>, steps: seq<Step>, i: nat)
    requires IsRun(tr, steps) && i < |tr|
    ensures Good(tr[i].db, tr[i].opening)
  {
    hide IsRun, Good, GoodCalls;
    RunInv(tr, steps, i);
  }
}
