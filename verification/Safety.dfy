/** Every step of every run keeps the engine's invariant. */
module Safety {
  import opened Uuids
  import opened Records
  import opened AtomicGateway
  import opened Books
  import opened Engine
  import opened EngineInvariant
  import opened Refinement

  lemma InitialInv()
    ensures Inv(INITIAL)
  {
    EmptyIsGood();
  }

  // ---- Locks ----

  /** Taking a row that is free or its own changes only what `cid` owns. */
  lemma AcquireOwns(locks: map<Row, CallId>, row: Option<Row>, cid: CallId, d: CallId)
    requires row.Some? && row.value in locks ==> locks[row.value] == cid
    ensures var locks' := Acquire(locks, row, cid);
      forall r :: r in locks' && locks'[r] == d <==> (r in locks && locks[r] == d) || (d == cid && row == Some(r))
  {
  }

  lemma ReleaseOwns(locks: map<Row, CallId>, cid: CallId, d: CallId)
    ensures var locks' := Release(locks, cid);
      forall r :: r in locks' && locks'[r] == d <==> d != cid && r in locks && locks[r] == d
  {
  }

  /** Two calls never hold the same row. */
  lemma HeldDisjoint(s: State, c: CallId, d: CallId)
    requires c in s.calls && d in s.calls && c != d
    requires OwnsExactly(s, c) && OwnsExactly(s, d)
    requires !s.calls[c].pc.Unwinding? && !s.calls[d].pc.Unwinding?
    ensures Held(s.calls[d]) !! Held(s.calls[c])
  {
    hide Held;
    forall r | r in Held(s.calls[c]) ensures r !in Held(s.calls[d]) {
      assert r in s.locks && s.locks[r] == c;
    }
  }

  // ---- A statement ----

  lemma ExecKeepsOthers(s: State, cid: CallId, suffix: string, d: CallId)
    requires Inv(s) && Enabled(s, cid)
    requires !IsCommit(s.calls[cid].pc) && !s.calls[cid].pc.Unwinding?
    requires d in s.calls && d != cid
    ensures GoodCall(AdvanceCall(s, cid, suffix), d)
  {
    hide Local, Exec, Good, Held, LockTarget, FreshIds;
    assert GoodCall(s, d);
    AcquireOwns(s.locks, Target(s, cid), cid, d);
  }

  /** A statement outside a database transaction writes nothing. */
  lemma NoWritesOutside(db: Db, ws: Writes, call: Call, newId: TxnId, suffix: string)
    requires Fits(call) && !IsCommit(call.pc) && !call.pc.Unwinding? && !call.pc.Finished?
    ensures var (pc, ws') := Exec(db, ws, call, newId, suffix);
      && (!InTransaction(pc) && !InTransaction(call.pc) ==> ws' == ws)
      && (InTransaction(call.pc) ==> InTransaction(pc) || pc.Unwinding?)
      && (pc.CommitCreate? ==> call.pc.InsertTxn? && pc.t.id == newId)
      && !pc.Finished?
  {
  }

  lemma ExecKeepsLocal(s: State, cid: CallId, suffix: string)
    requires Inv(s) && Enabled(s, cid)
    requires !IsCommit(s.calls[cid].pc) && !s.calls[cid].pc.Unwinding?
    ensures var s' := AdvanceCall(s, cid, suffix);
      && Local(s'.db, WritesOf(s', cid), s'.calls[cid])
      && s'.db == s.db && Decides(s.db, s.calls[cid].req, s'.calls[cid].pc, s.nextTxn, suffix)
      && (!s'.calls[cid].pc.Unwinding? ==> Held(s'.calls[cid]) == Held(s.calls[cid]) + TargetSet(Target(s, cid)))
  {
    hide Local, Held, LockTarget, CallNow;
    assert GoodCall(s, cid);
    ExecIsSound(s.db, WritesOf(s, cid), s.calls[cid], s.nextTxn, suffix);
    NoWritesOutside(s.db, WritesOf(s, cid), s.calls[cid], s.nextTxn, suffix);
    hide Exec;
  }

  lemma ExecKeepsOwn(s: State, cid: CallId, suffix: string)
    requires Inv(s) && Enabled(s, cid)
    requires !IsCommit(s.calls[cid].pc) && !s.calls[cid].pc.Unwinding?
    ensures GoodCall(AdvanceCall(s, cid, suffix), cid)
  {
    hide Local, Held, LockTarget, Good, FreshIds, Exec;
    assert GoodCall(s, cid);
    ExecKeepsLocal(s, cid, suffix);
    AcquireOwns(s.locks, Target(s, cid), cid, cid);
    NoWritesOutside(s.db, WritesOf(s, cid), s.calls[cid], s.nextTxn, suffix);
  }

  lemma ExecKeepsInv(s: State, cid: CallId, suffix: string)
    requires Inv(s) && Enabled(s, cid)
    requires !IsCommit(s.calls[cid].pc) && !s.calls[cid].pc.Unwinding?
    ensures Inv(AdvanceCall(s, cid, suffix))
  {
    hide Local, Good, Exec, GoodCall, LockTarget;
    var s' := AdvanceCall(s, cid, suffix);
    forall d | d in s'.calls ensures GoodCall(s', d) {
      if d == cid {
        ExecKeepsOwn(s, cid, suffix);
      } else {
        ExecKeepsOthers(s, cid, suffix, d);
      }
    }
    NoWritesOutside(s.db, WritesOf(s, cid), s.calls[cid], s.nextTxn, suffix);
    ExecKeepsKeyLocks(s, cid, suffix);
  }

  lemma ExecKeepsKeyLocks(s: State, cid: CallId, suffix: string)
    requires Inv(s) && Enabled(s, cid)
    requires !IsCommit(s.calls[cid].pc) && !s.calls[cid].pc.Unwinding?
    ensures GoodKeyLocks(AdvanceCall(s, cid, suffix))
  {
    hide Local, Good, Exec, GoodCall, FreshIds;
  }

  // ---- COMMIT and ROLLBACK ----

  lemma CommitKeepsOthers(s: State, cid: CallId, suffix: string, d: CallId)
    requires Inv(s) && Enabled(s, cid) && IsCommit(s.calls[cid].pc)
    requires d in s.calls && d != cid
    ensures GoodCall(AdvanceCall(s, cid, suffix), d)
  {
    hide Local, Merge, Held, LockTarget, Good, Leaves;
    assert GoodCall(s, d) && GoodCall(s, cid);
    var ws, call := WritesOf(s, cid), s.calls[cid];
    if s.calls[d].pc.Unwinding? {
      HeldWhileUnwinding(s.calls[d]);
    } else {
      HeldDisjoint(s, cid, d);
    }
    CommitLeaves(s.db, ws, call, Held(s.calls[d]));
    CreateIsFresh(s.db, WritesOf(s, d), s.calls[d]);
    LocalStable(s.db, Merge(s.db, ws), WritesOf(s, d), s.calls[d]);
    ReleaseOwns(s.locks, cid, d);
  }

  lemma HeldWhileUnwinding(call: Call)
    requires call.pc.Unwinding? || call.pc.Finished?
    ensures Held(call) == {}
  {
  }

  lemma CreateIsFresh(db: Db, ws: Writes, call: Call)
    requires Local(db, ws, call)
    ensures call.pc.CommitCreate? ==> call.pc.t.id !in db.txns
  {
  }

  lemma EndOwns(s: State, cid: CallId, db: Db, outcome: Outcome)
    requires cid in s.calls
    ensures OwnsExactly(End(s, cid, db, outcome), cid)
  {
    ReleaseOwns(s.locks, cid, cid);
  }

  /** COMMIT is the whole call, run at once, and the caller gets the row as committed. */
  lemma CommitIsTheCall(s: State, cid: CallId, suffix: string)
    requires Inv(s) && Enabled(s, cid) && IsCommit(s.calls[cid].pc)
    ensures var call, s' := s.calls[cid], AdvanceCall(s, cid, suffix);
      && CallNow(s.db, call.req, ChosenId(call.pc, s.nextTxn), ChosenSuffix(call.pc))
         == (s'.db, Ok(Returned(call.pc)))
      && s'.calls[cid].pc == Finished(Ok(Returned(call.pc)))
      && ChosenId(call.pc, s.nextTxn) !in s.db.txns
      && Returned(call.pc).id in s'.db.txns
      && s'.db.txns[Returned(call.pc).id] == Returned(call.pc)
      && Reports(s'.db, call.req, Returned(call.pc))
  {
    hide Local, Merge, CallNow, Reports, Held, LockTarget, Returned;
    assert GoodCall(s, cid);
    CommitIsSound(s.db, WritesOf(s, cid), s.calls[cid], s.nextTxn);
    CreateIsFresh(s.db, WritesOf(s, cid), s.calls[cid]);
  }

  lemma FinishedIsGood(s: State, cid: CallId, db: Db, outcome: Outcome)
    requires cid in s.calls
    requires outcome.Ok? ==> Reports(db, s.calls[cid].req, outcome.txn)
    ensures GoodCall(End(s, cid, db, outcome), cid)
  {
    EndOwns(s, cid, db, outcome);
  }

  lemma CommitKeepsInv(s: State, cid: CallId, suffix: string)
    requires Inv(s) && Enabled(s, cid) && IsCommit(s.calls[cid].pc)
    ensures Inv(AdvanceCall(s, cid, suffix))
  {
    hide Local, Good, Merge, CallNow, GoodCall, Held, LockTarget, Reports;
    var s', call := AdvanceCall(s, cid, suffix), s.calls[cid];
    CommitIsTheCall(s, cid, suffix);
    CallKeepsGood(s.db, s.opening, call.req, ChosenId(call.pc, s.nextTxn), ChosenSuffix(call.pc));
    forall d | d in s'.calls ensures GoodCall(s', d) {
      if d == cid {
        FinishedIsGood(s, cid, s'.db, Ok(Returned(call.pc)));
      } else {
        CommitKeepsOthers(s, cid, suffix, d);
      }
    }
    CommitKeepsFresh(s, cid, suffix);
    CommitKeepsKeyLocks(s, cid, suffix);
  }

  lemma CommitKeepsFresh(s: State, cid: CallId, suffix: string)
    requires Inv(s) && Enabled(s, cid) && IsCommit(s.calls[cid].pc)
    ensures FreshIds(AdvanceCall(s, cid, suffix))
  {
    hide Local, Good, Merge, Held, LockTarget, Leaves;
    assert GoodCall(s, cid);
    CommitLeaves(s.db, WritesOf(s, cid), s.calls[cid], {});
  }

  lemma CommitKeepsKeyLocks(s: State, cid: CallId, suffix: string)
    requires Inv(s) && Enabled(s, cid) && IsCommit(s.calls[cid].pc)
    ensures GoodKeyLocks(AdvanceCall(s, cid, suffix))
  {
    hide Local, Good, Merge, Held, LockTarget, FreshIds;
    var s' := AdvanceCall(s, cid, suffix);
    assert GoodCall(s, cid);
    forall k | KeyRow(k) in s'.locks ensures k !in s'.db.byKey {
      ReleaseOwns(s.locks, cid, s'.locks[KeyRow(k)]);
      CommitLeaves(s.db, WritesOf(s, cid), s.calls[cid], {KeyRow(k)});
      assert KeyRow(k) in {KeyRow(k)};
    }
  }

  lemma UnwindKeepsOthers(s: State, cid: CallId, d: CallId, outcome: Outcome)
    requires GoodCalls(s) && cid in s.calls && d in s.calls && d != cid
    ensures GoodCall(End(s, cid, s.db, outcome), d)
  {
    hide Local, Held;
    assert GoodCall(s, d);
    ReleaseOwns(s.locks, cid, d);
  }

  lemma RollbackKeepsInv(s: State, cid: CallId, suffix: string)
    requires Inv(s) && Enabled(s, cid) && s.calls[cid].pc.Unwinding?
    ensures Inv(AdvanceCall(s, cid, suffix))
  {
    hide Good, Held, LockTarget, GoodCall, Reports;
    var s', outcome := AdvanceCall(s, cid, suffix), s.calls[cid].pc.outcome;
    UnwindingReports(s, cid);
    forall d | d in s'.calls ensures GoodCall(s', d) {
      if d == cid {
        FinishedIsGood(s, cid, s.db, outcome);
      } else {
        UnwindKeepsOthers(s, cid, d, outcome);
      }
    }
  }

  lemma UnwindingReports(s: State, cid: CallId)
    requires GoodCalls(s) && cid in s.calls && s.calls[cid].pc.Unwinding?
    ensures s.calls[cid].pc.outcome.Ok? ==> Reports(s.db, s.calls[cid].req, s.calls[cid].pc.outcome.txn)
  {
    assert GoodCall(s, cid);
  }

  // ---- The other steps ----

  lemma OpenKeepsInv(s: State, id: Uuid, row: Account)
    requires Inv(s) && CanOpen(s.db, id, row)
    ensures Inv(Apply(s, Open(id, row)))
  {
    hide Local, Good, Held;
    var s' := Apply(s, Open(id, row));
    OpenKeepsGood(s.db, s.opening, id, row);
    forall d | d in s'.calls ensures GoodCall(s', d) {
      assert GoodCall(s, d);
      CreateIsFresh(s.db, WritesOf(s, d), s.calls[d]);
      LocalStable(s.db, s'.db, WritesOf(s, d), s.calls[d]);
    }
  }

  lemma StartKeepsInv(s: State, cid: CallId, req: Request)
    requires Inv(s) && cid !in s.calls
    ensures Inv(Apply(s, Start(cid, req)))
  {
    hide Good, Local;
    var s' := Apply(s, Start(cid, req));
    forall d | d in s'.calls ensures GoodCall(s', d) {
      if d == cid {
        StartedIsGood(s, cid, req);
      } else {
        assert GoodCall(s, d);
      }
    }
  }

  lemma StartedIsGood(s: State, cid: CallId, req: Request)
    requires GoodCalls(s) && cid !in s.calls
    ensures GoodCall(Apply(s, Start(cid, req)), cid)
  {
  }

  lemma FailKeepsInv(s: State, cid: CallId)
    requires Inv(s) && CanStep(s, Fail(cid))
    ensures Inv(Apply(s, Fail(cid)))
  {
    hide Good, Local, Held;
    var s' := Apply(s, Fail(cid));
    forall d | d in s'.calls ensures GoodCall(s', d) {
      assert GoodCall(s, d);
      if d == cid {
        FailedIsGood(s, cid);
      }
    }
  }

  lemma FailedIsGood(s: State, cid: CallId)
    requires GoodCalls(s) && CanStep(s, Fail(cid))
    ensures GoodCall(Apply(s, Fail(cid)), cid)
  {
    assert GoodCall(s, cid);
  }

  lemma StepKeepsInv(s: State, step: Step)
    requires Inv(s) && CanStep(s, step)
    ensures Inv(Apply(s, step))
  {
    hide Inv, Exec, Merge, LockTarget;
    match step
    case Open(id, row) => OpenKeepsInv(s, id, row);
    case Start(cid, req) => StartKeepsInv(s, cid, req);
    case Fail(cid) => FailKeepsInv(s, cid);
    case Advance(cid, suffix) =>
      if IsCommit(s.calls[cid].pc) {
        CommitKeepsInv(s, cid, suffix);
      } else if s.calls[cid].pc.Unwinding? {
        RollbackKeepsInv(s, cid, suffix);
      } else {
        ExecKeepsInv(s, cid, suffix);
      }
  }

  /** The invariant holds in every state of every run. */
  lemma {:induction false} RunInv(tr: seq<State>, steps: seq<Step>, i: nat)
    requires IsRun(tr, steps) && i < |tr|
    ensures Inv(tr[i])
  {
    hide Inv, Exec, Merge, LockTarget;
    if i == 0 {
      InitialInv();
    } else {
      RunInv(tr, steps, i - 1);
      StepKeepsInv(tr[i - 1], steps[i - 1]);
    }
  }
}
