/** No deadlock, and every batch of calls ends. The locks are those the statements take themselves;
    the key-share locks of foreign keys are the subject of ForeignKeys. */
module Liveness {
  import opened Uuids
  import opened Records
  import opened Books
  import opened Engine
  import opened EngineInvariant
  import opened Safety
  import opened Sums

  predicate Unfinished(s: State, cid: CallId) {
    cid in s.calls && !s.calls[cid].pc.Finished?
  }

  /** The next statement of `c` wants a row that another database transaction holds. */
  predicate Blocked(s: State, c: CallId) {
    && Unfinished(s, c) && Fits(s.calls[c])
    && Target(s, c).Some? && Target(s, c).value in s.locks && s.locks[Target(s, c).value] != c
  }

  predicate WaitsFor(s: State, c: CallId, d: CallId) {
    Blocked(s, c) && s.locks[Target(s, c).value] == d
  }

  /** The order in which a call takes rows: its transaction first, then accounts by id. */
  function LockRank(row: Row): nat {
    match row
    case KeyRow(_) => 0
    case TxnRow(_) => 1
    case AccountRow(a) => 2 + a
  }

  /** The rank of the row a blocked call waits for. */
  function WaitRank(s: State, c: CallId): nat {
    if Blocked(s, c) then LockRank(Target(s, c).value) else 0
  }

  /** A statement that needs a row the call does not hold yet needs a later one. */
  lemma TargetAboveHeld(db: Db, ws: Writes, call: Call)
    requires Fits(call)
    requires LockTarget(db, ws, call).Some? && LockTarget(db, ws, call).value !in Held(call)
    ensures forall r :: r in Held(call) ==> LockRank(r) < LockRank(LockTarget(db, ws, call).value)
  {
    hide Local, TextLess;
    match call.pc
    case LockSecond(t) => assert LockTarget(db, ws, call).value == AccountRow(SecondLock(t));
    case LockSender(t) => assert LockTarget(db, ws, call).value == AccountRow(t.sender);
    case LockFirst(t) => assert LockTarget(db, ws, call).value == AccountRow(FirstLock(t));
    case _ =>
  }

  /** A waiting call holds only rows that come before the one it waits for. */
  lemma WaitsAboveHeld(s: State, c: CallId, r: Row)
    requires Inv(s) && Blocked(s, c) && r in s.locks && s.locks[r] == c
    ensures LockRank(r) < WaitRank(s, c)
  {
    hide Good, FreshIds, Local, Held, LockTarget, LockRank;
    assert GoodCall(s, c);
    UnwindingWantsNothing(s, c);
    assert r in Held(s.calls[c]) && Target(s, c).value !in Held(s.calls[c]);
    TargetAboveHeld(s.db, WritesOf(s, c), s.calls[c]);
  }

  lemma UnwindingWantsNothing(s: State, c: CallId)
    requires Blocked(s, c)
    ensures !s.calls[c].pc.Unwinding?
  {
  }

  lemma HolderUnfinished(s: State, r: Row)
    requires GoodCalls(s) && r in s.locks
    ensures Unfinished(s, s.locks[r])
  {
    hide Local;
    assert GoodCall(s, s.locks[r]);
  }

  lemma CallFits(s: State, c: CallId)
    requires GoodCalls(s) && c in s.calls
    ensures Fits(s.calls[c])
  {
    hide Local, Fits;
    assert GoodCall(s, c);
    LocalFits(s.db, WritesOf(s, c), s.calls[c]);
  }

  /** A chain of waiting calls waits for rows of ever higher rank. */
  lemma {:induction false} ChainClimbs(s: State, chain: seq<CallId>)
    requires Inv(s) && |chain| >= 2
    requires forall i :: 0 <= i < |chain| - 1 ==> WaitsFor(s, chain[i], chain[i + 1])
    requires Blocked(s, chain[|chain| - 1])
    ensures WaitRank(s, chain[0]) < WaitRank(s, chain[|chain| - 1])
  {
    hide Inv, LockTarget, LockRank;
    var n := |chain| - 1;
    assert WaitsFor(s, chain[n - 1], chain[n]);
    WaitsAboveHeld(s, chain[n], Target(s, chain[n - 1]).value);
    if n == 1 {
    } else {
      ChainClimbs(s, chain[..n]);
    }
  }

  /** The wait-for graph of every reachable state is acyclic. */
  lemma NoDeadlock(tr: seq<State>, steps: seq<Step>, i: nat, cycle: seq<CallId>)
    requires IsRun(tr, steps) && i < |tr| && |cycle| >= 2
    requires forall j :: 0 <= j < |cycle| - 1 ==> WaitsFor(tr[i], cycle[j], cycle[j + 1])
    ensures cycle[0] != cycle[|cycle| - 1]
  {
    hide Inv, LockTarget, LockRank, IsRun;
    RunInv(tr, steps, i);
    assert WaitsFor(tr[i], cycle[0], cycle[1]);
    if cycle[0] == cycle[|cycle| - 1] {
      ChainClimbs(tr[i], cycle);
    }
  }

  const TOP_RANK: nat := 2 + UUID_COUNT

  /** Following the holders from any unfinished call leads to a call that can run now. */
  lemma {:induction false} FindEnabled(s: State, c: CallId) returns (d: CallId)
    requires Inv(s) && Unfinished(s, c)
    ensures Enabled(s, d)
    decreases TOP_RANK - WaitRank(s, c)
  {
    hide Good, GoodCall, LockTarget, FreshIds;
    CallFits(s, c);
    d := c;
    if Blocked(s, c) {
      var r := Target(s, c).value;
      var holder := s.locks[r];
      HolderUnfinished(s, r);
      CallFits(s, holder);
      if Blocked(s, holder) {
        WaitsAboveHeld(s, holder, r);
        d := FindEnabled(s, holder);
      } else {
        d := holder;
      }
    }
  }

  // ---- Termination ----

  /** The most steps a call can still take. */
  function Remaining(pc: PC): nat {
    match pc
    case ReadSender => 7
    case ReadReceiver(_) => 6
    case BeginInsert => 5
    case InsertTxn => 4
    case CommitCreate(_) => 3
    case FetchExisting => 3
    case BeginCall => 12
    case LockTxn => 11
    case LockSender(_) => 5
    case MarkAuthorized(_) => 4
    case CommitAuthorize(_) => 3
    case LockFirst(_) => 10
    case LockSecond(_) => 9
    case DebitSender(_) => 8
    case CreditReceiver(_, _) => 7
    case AppendDebit(_, _, _) => 6
    case AppendCredit(_, _, _) => 5
    case MarkSettled(_, _, _) => 4
    case CommitSettle(_, _, _, _) => 3
    case Unwinding(_) => 1
    case Finished(_) => 0
  }

  function RemainingSteps(calls: map<CallId, Call>): map<int, int> {
    map c | c in calls :: Remaining(calls[c].pc)
  }

  ghost function Measure(s: State): int {
    Sum(RemainingSteps(s.calls))
  }

  lemma MeasureNonNegative(s: State)
    ensures Measure(s) >= 0
  {
    SumNonNegative(RemainingSteps(s.calls));
  }

  /** No call has more than twelve steps left. */
  lemma MeasureBounded(s: State)
    ensures Measure(s) <= 12 * |set c | c in s.calls && !s.calls[c].pc.Finished?|
  {
    TwelveEach(RemainingSteps(s.calls), set c: int | c in s.calls && !s.calls[c].pc.Finished?);
  }

  lemma {:induction false} TwelveEach<K>(m: map<K, int>, s: set<K>)
    requires forall k :: k in m ==> m[k] <= if k in s then 12 else 0
    ensures Sum(m) <= 12 * |s|
    decreases |m|
  {
    if m == map[] {
    } else {
      var k :| k in m;
      SumRemove(m, k);
      assert (m - {k}).Keys == m.Keys - {k};
      TwelveEach(m - {k}, s - {k});
      assert k !in s ==> s - {k} == s;
    }
  }

  predicate CallStep(step: Step) {
    step.Advance? || step.Fail?
  }

  lemma ExecShortens(db: Db, ws: Writes, call: Call, newId: TxnId, suffix: string)
    requires Fits(call) && !IsCommit(call.pc) && !call.pc.Unwinding? && !call.pc.Finished?
    ensures Remaining(Exec(db, ws, call, newId, suffix).0) < Remaining(call.pc)
  {
  }

  /** Each step of a call brings the batch nearer to its end. */
  lemma CallStepShortens(s: State, step: Step)
    requires CanStep(s, step) && CallStep(step)
    ensures Measure(Apply(s, step)) < Measure(s)
  {
    hide Exec, Merge, LockTarget;
    var cid := step.cid;
    var call, s' := s.calls[cid], Apply(s, step);
    if step.Advance? && !IsCommit(call.pc) && !call.pc.Unwinding? {
      ExecShortens(s.db, WritesOf(s, cid), call, s.nextTxn, step.suffix);
    }
    assert Remaining(s'.calls[cid].pc) < Remaining(call.pc);
    assert RemainingSteps(s'.calls) == RemainingSteps(s.calls)[cid := Remaining(s'.calls[cid].pc)];
    SumUpdate(RemainingSteps(s.calls), cid, Remaining(s'.calls[cid].pc));
  }

  lemma {:induction false} BatchShortens(tr: seq<State>, steps: seq<Step>, i: nat, j: nat)
    requires IsRun(tr, steps) && i <= j < |tr|
    requires forall k :: i <= k < j ==> CallStep(steps[k])
    ensures Measure(tr[j]) <= Measure(tr[i]) - (j - i)
    decreases j
  {
    hide Apply, CanStep, Measure;
    if i == j {
    } else {
      BatchShortens(tr, steps, i, j - 1);
      CallStepShortens(tr[j - 1], steps[j - 1]);
    }
  }

  /** From any reachable state, whatever scheduler runs the calls in flight, they take no more steps
      than they have left in all; and when none can run any more, every one has finished. */
  lemma BatchTerminates(tr: seq<State>, steps: seq<Step>, i: nat, j: nat)
    requires IsRun(tr, steps) && i <= j < |tr|
    requires forall k :: i <= k < j ==> CallStep(steps[k])
    ensures j - i <= Measure(tr[i]) <= 12 * |set c | c in tr[i].calls && !tr[i].calls[c].pc.Finished?|
    ensures (forall c :: c in tr[j].calls ==> !Enabled(tr[j], c)) ==>
      forall c :: c in tr[j].calls ==> tr[j].calls[c].pc.Finished?
  {
    hide IsRun, Inv, Measure, Enabled;
    MeasureBounded(tr[i]);
    BatchShortens(tr, steps, i, j);
    MeasureNonNegative(tr[j]);
    RunInv(tr, steps, j);
    if forall c :: c in tr[j].calls ==> !Enabled(tr[j], c) {
      forall c | c in tr[j].calls ensures tr[j].calls[c].pc.Finished? {
        if Unfinished(tr[j], c) {
          var d := FindEnabled(tr[j], c);
          EnabledIsCall(tr[j], d);
          assert false;
        }
      }
    }
  }

  lemma EnabledIsCall(s: State, c: CallId)
    requires Enabled(s, c)
    ensures c in s.calls
  {
  }
}
