/** The engine refines the atomic gateway: every interleaving gives the committed tables, and every
    call the result, of some order of whole calls run one at a time. */
module Linearizability {
  import opened Uuids
  import opened Records
  import opened AtomicGateway
  import opened Books
  import opened Engine
  import opened EngineInvariant
  import opened Refinement
  import opened Safety

  datatype SpecCall = Waiting(req: Request) | Decided(req: Request, outcome: Outcome)

  /** What the atomic machine knows: the tables, and which calls have their result. */
  datatype Spec = Spec(db: Db, opening: map<Uuid, int>, calls: map<CallId, SpecCall>)

  const SPEC_INITIAL := Spec(EMPTY_DB, map[], map[])

  datatype SpecStep =
    | SpecOpen(id: Uuid, row: Account)
    | SpecStart(cid: CallId, req: Request)
    | SpecExecute(cid: CallId, req: Request, newId: TxnId, suffix: string)
    | SpecRefuse(cid: CallId, req: Request)
    | SpecIdle

  predicate SpecCan(a: Spec, step: SpecStep) {
    match step
    case SpecOpen(id, row) => CanOpen(a.db, id, row)
    case SpecStart(cid, _) => cid !in a.calls
    case SpecExecute(cid, req, newId, _) => cid in a.calls && a.calls[cid] == Waiting(req) && newId !in a.db.txns
    case SpecRefuse(cid, req) => cid in a.calls && a.calls[cid] == Waiting(req)
    case SpecIdle => true
  }

  function SpecApply(a: Spec, step: SpecStep): Spec {
    match step
    case SpecOpen(id, row) => a.(db := OpenNow(a.db, id, row), opening := a.opening[id := row.balance])
    case SpecStart(cid, req) => a.(calls := a.calls[cid := Waiting(req)])
    case SpecExecute(cid, req, newId, suffix) =>
      var (db, outcome) := CallNow(a.db, req, newId, suffix);
      a.(db := db, calls := a.calls[cid := Decided(req, outcome)])
    case SpecRefuse(cid, req) => a.(calls := a.calls[cid := Decided(req, Err(DatabaseFailure))])
    case SpecIdle => a
  }

  ghost predicate IsSpecRun(run: seq<Spec>, steps: seq<SpecStep>) {
    && |run| == |steps| + 1
    && run[0] == SPEC_INITIAL
    && forall i :: 0 <= i < |steps| ==> SpecCan(run[i], steps[i]) && run[i + 1] == SpecApply(run[i], steps[i])
  }

  // ---- Abstraction ----

  function AbstractCall(call: Call): SpecCall {
    if call.pc.Unwinding? || call.pc.Finished? then Decided(call.req, call.pc.outcome) else Waiting(call.req)
  }

  function AbstractCalls(calls: map<CallId, Call>): map<CallId, SpecCall> {
    map c | c in calls :: AbstractCall(calls[c])
  }

  function Abstract(s: State): Spec {
    Spec(s.db, s.opening, AbstractCalls(s.calls))
  }

  /** The atomic step behind a step of the engine: a call takes effect when it commits, or at the
      statement whose result decides that it will not. */
  function Behind(s: State, step: Step): SpecStep
    requires CanStep(s, step)
  {
    match step
    case Open(id, row) => SpecOpen(id, row)
    case Start(cid, req) => SpecStart(cid, req)
    case Fail(cid) => SpecRefuse(cid, s.calls[cid].req)
    case Advance(cid, suffix) =>
      var call := s.calls[cid];
      if IsCommit(call.pc) then SpecExecute(cid, call.req, ChosenId(call.pc, s.nextTxn), ChosenSuffix(call.pc))
      else if call.pc.Unwinding? then SpecIdle
      else if Exec(s.db, WritesOf(s, cid), call, s.nextTxn, suffix).0.Unwinding?
        then SpecExecute(cid, call.req, s.nextTxn, suffix)
      else SpecIdle
  }

  lemma AbstractUpdate(calls: map<CallId, Call>, cid: CallId, call: Call)
    ensures AbstractCalls(calls[cid := call]) == AbstractCalls(calls)[cid := AbstractCall(call)]
  {
  }

  lemma ExecRefines(s: State, cid: CallId, suffix: string)
    requires Inv(s) && Enabled(s, cid) && !IsCommit(s.calls[cid].pc) && !s.calls[cid].pc.Unwinding?
    ensures var step := Advance(cid, suffix); var s' := AdvanceCall(s, cid, suffix);
      SpecCan(Abstract(s), Behind(s, step)) && SpecApply(Abstract(s), Behind(s, step)) == Abstract(s')
  {
    hide Local, Exec, Held, LockTarget, CallNow, Good, GoodCall;
    var s' := AdvanceCall(s, cid, suffix);
    ExecKeepsLocal(s, cid, suffix);
    NoWritesOutside(s.db, WritesOf(s, cid), s.calls[cid], s.nextTxn, suffix);
    AbstractUpdate(s.calls, cid, s'.calls[cid]);
    assert AbstractCalls(s.calls)[cid := Waiting(s.calls[cid].req)] == AbstractCalls(s.calls);
  }

  lemma EndRefines(s: State, cid: CallId, suffix: string)
    requires Inv(s) && Enabled(s, cid) && (IsCommit(s.calls[cid].pc) || s.calls[cid].pc.Unwinding?)
    ensures var step := Advance(cid, suffix); var s' := AdvanceCall(s, cid, suffix);
      SpecCan(Abstract(s), Behind(s, step)) && SpecApply(Abstract(s), Behind(s, step)) == Abstract(s')
  {
    hide Local, Exec, Held, LockTarget, CallNow, Good, GoodCall, Merge, Reports, Returned;
    var call, s' := s.calls[cid], AdvanceCall(s, cid, suffix);
    AbstractUpdate(s.calls, cid, s'.calls[cid]);
    if IsCommit(call.pc) {
      CommitIsTheCall(s, cid, suffix);
    } else {
      assert AbstractCalls(s.calls)[cid := AbstractCall(call)] == AbstractCalls(s.calls);
    }
  }

  /** Every step of the engine is one step of the atomic machine, or none. */
  lemma StepRefines(s: State, step: Step)
    requires Inv(s) && CanStep(s, step)
    ensures SpecCan(Abstract(s), Behind(s, step))
    ensures SpecApply(Abstract(s), Behind(s, step)) == Abstract(Apply(s, step))
  {
    hide Inv, Exec, Merge, LockTarget, CallNow;
    match step
    case Open(_, _) =>
    case Start(cid, req) => AbstractUpdate(s.calls, cid, Apply(s, step).calls[cid]);
    case Fail(cid) => AbstractUpdate(s.calls, cid, Apply(s, step).calls[cid]);
    case Advance(cid, suffix) =>
      if IsCommit(s.calls[cid].pc) || s.calls[cid].pc.Unwinding? {
        EndRefines(s, cid, suffix);
      } else {
        ExecRefines(s, cid, suffix);
      }
  }

  // ---- Runs ----

  function AbstractRun(tr: seq<State>): seq<Spec> {
    seq(|tr|, i requires 0 <= i < |tr| => Abstract(tr[i]))
  }

  ghost function BehindRun(tr: seq<State>, steps: seq<Step>): (r: seq<SpecStep>)
    requires IsRun(tr, steps)
    ensures |r| == |steps|
  {
    seq(|steps|, i requires 0 <= i < |steps| => Behind(tr[i], steps[i]))
  }

  /** Refinement: the run of the engine is a run of the atomic machine. */
  lemma RunRefines(tr: seq<State>, steps: seq<Step>)
    requires IsRun(tr, steps)
    ensures IsSpecRun(AbstractRun(tr), BehindRun(tr, steps))
  {
    hide Inv, CanStep, Apply, Behind, SpecCan, SpecApply;
    var run, behind := AbstractRun(tr), BehindRun(tr, steps);
    forall i | 0 <= i < |steps|
      ensures SpecCan(run[i], behind[i]) && run[i + 1] == SpecApply(run[i], behind[i])
    {
      RunInv(tr, steps, i);
      StepRefines(tr[i], steps[i]);
    }
  }

  /** The tables after running whole calls one at a time, in the order given. */
  function Serial(steps: seq<SpecStep>): Db {
    if steps == [] then EMPTY_DB
    else
      var before := Serial(steps[..|steps| - 1]);
      match steps[|steps| - 1]
      case SpecOpen(id, row) => OpenNow(before, id, row)
      case SpecExecute(_, req, newId, suffix) => CallNow(before, req, newId, suffix).0
      case _ => before
  }

  /** Serializability: the committed tables are those of the calls run one at a time. */
  lemma {:induction false} SerialEquivalence(tr: seq<State>, steps: seq<Step>, i: nat)
    requires IsRun(tr, steps) && i < |tr|
    ensures tr[i].db == Serial(BehindRun(tr, steps)[..i])
  {
    hide Inv, CanStep, Apply, Behind, CallNow, OpenNow;
    if i == 0 {
    } else {
      var behind := BehindRun(tr, steps);
      SerialEquivalence(tr, steps, i - 1);
      RunInv(tr, steps, i - 1);
      StepRefines(tr[i - 1], steps[i - 1]);
      assert behind[..i][..i - 1] == behind[..i - 1];
    }
  }

  /** Call `cid` has its result in state `s`. */
  predicate HasResult(s: State, cid: CallId, req: Request, outcome: Outcome) {
    cid in s.calls && AbstractCall(s.calls[cid]) == Decided(req, outcome)
  }

  /** At step `k` the whole call ran at once and gave this result; a database failure gave none. */
  predicate RanAt(tr: seq<State>, k: nat, req: Request, outcome: Outcome, newId: TxnId, suffix: string)
    requires k + 1 < |tr|
  {
    if outcome == Err(DatabaseFailure) then tr[k + 1].db == tr[k].db
    else newId !in tr[k].db.txns && CallNow(tr[k].db, req, newId, suffix) == (tr[k + 1].db, outcome)
  }

  /** Linearizability: the result of a call is that of the whole call run at one instant between
      its start (it is not there yet in state `m`) and the state `n` in which it has the result. */
  lemma {:induction false} Linearizable(tr: seq<State>, steps: seq<Step>, m: nat, n: nat,
                                        cid: CallId, req: Request, outcome: Outcome)
      returns (k: nat, newId: TxnId, suffix: string)
    requires IsRun(tr, steps) && m <= n < |tr|
    requires cid !in tr[m].calls && HasResult(tr[n], cid, req, outcome)
    ensures m <= k < n && RanAt(tr, k, req, outcome, newId, suffix)
    ensures !HasResult(tr[k], cid, req, outcome) && !steps[k].Open? && steps[k].cid == cid
    decreases n
  {
    hide Inv, CanStep, Apply, CallNow;
    assert n > m;
    if HasResult(tr[n - 1], cid, req, outcome) {
      k, newId, suffix := Linearizable(tr, steps, m, n - 1, cid, req, outcome);
    } else {
      k := n - 1;
      newId, suffix := DecidingStep(tr, steps, n - 1, cid, req, outcome);
    }
  }

  /** The step that gives a call its result. */
  lemma DecidingStep(tr: seq<State>, steps: seq<Step>, i: nat, cid: CallId, req: Request, outcome: Outcome)
      returns (newId: TxnId, suffix: string)
    requires IsRun(tr, steps) && i < |steps|
    requires !HasResult(tr[i], cid, req, outcome) && HasResult(tr[i + 1], cid, req, outcome)
    ensures RanAt(tr, i, req, outcome, newId, suffix) && !steps[i].Open? && steps[i].cid == cid
  {
    hide Inv, Exec, CallNow, Merge, LockTarget, Good;
    RunInv(tr, steps, i);
    assert CanStep(tr[i], steps[i]) && tr[i + 1] == Apply(tr[i], steps[i]);
    StepRefines(tr[i], steps[i]);
    var a, behind := Abstract(tr[i]), Behind(tr[i], steps[i]);
    var a' := Abstract(tr[i + 1]);
    assert behind.SpecExecute? || behind.SpecRefuse? ==> !steps[i].Open? && behind.cid == steps[i].cid;
    hide Apply, CanStep, Behind;
    assert a' == SpecApply(a, behind);
    assert cid in a'.calls && a'.calls[cid] == Decided(req, outcome);
    assert cid in a.calls ==> a.calls[cid] != Decided(req, outcome);
    newId, suffix := 0, "";
    match behind
    case SpecExecute(c, r, x, y) =>
      newId, suffix := x, y;
      NeverDatabaseFailure(a.db, r, x, y);
    case _ =>
  }

  lemma NeverDatabaseFailure(db: Db, req: Request, newId: TxnId, suffix: string)
    ensures CallNow(db, req, newId, suffix).1 != Err(DatabaseFailure)
  {
  }
}
