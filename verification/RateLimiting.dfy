/** RateLimiter.getLimiter: a lookup under a read lock, and on a miss a second lookup under the write
    lock before a limiter is made. Every interleaving of any number of callers behaves like one
    atomic get-or-create. */
module RateLimiting {
  import opened Records

  /** A goroutine that runs the middleware for one request. */
  type ProcId = nat

  /** A token bucket. What it admits is left open; its identity is what matters here. */
  class Limiter {
    const rps: real
    const burst: int

    constructor (rps: real, burst: int)
      ensures this.rps == rps && this.burst == burst
    {
      this.rps, this.burst := rps, burst;
    }
  }

  /** The key a request is limited by: its API key if it sends one, or else its address. */
  function ClientKey(clientIP: string, apiKey: string): string {
    if apiKey != "" then apiKey else clientIP
  }

  datatype PC =
    | WantRead
    | Looking
    | Looked(found: Option<Limiter>)
    | WantWrite
    | Rechecking
    | Making
    | Storing(made: Limiter)
    | Unlocking(got: Limiter)
    | Got(limiter: Limiter)
    | Done(limiter: Limiter)

  datatype Proc = Proc(key: string, pc: PC)

  /** One call of Allow on a limiter, on behalf of a key. */
  datatype Admission = Admission(key: string, limiter: Limiter, allowed: bool)

  /** `readers` and `writer` are the mutex; `made` records every limiter ever made and its key. */
  datatype State = State(
    clients: map<string, Limiter>,
    readers: set<ProcId>,
    writer: Option<ProcId>,
    procs: map<ProcId, Proc>,
    made: map<Limiter, string>,
    log: seq<Admission>)

  const INITIAL := State(map[], {}, None, map[], map[], [])

  datatype Step =
    | Arrive(p: ProcId, clientIP: string, apiKey: string)
    | Run(p: ProcId)
    | Make(p: ProcId, limiter: Limiter)  // a new object, unlike every earlier one
    | Allow(p: ProcId, allowed: bool)

  /** RLock waits for the writer, Lock for the writer and every reader; nothing else waits. */
  predicate Free(pc: PC, readers: set<ProcId>, writer: Option<ProcId>) {
    && !pc.Done?
    && (pc.WantRead? ==> writer == None)
    && (pc.WantWrite? ==> writer == None && readers == {})
  }

  predicate CanStep(s: State, step: Step) {
    match step
    case Arrive(p, _, _) => p !in s.procs
    case Run(p) =>
      p in s.procs && Free(s.procs[p].pc, s.readers, s.writer) && !s.procs[p].pc.Making? && !s.procs[p].pc.Got?
    case Make(p, limiter) => p in s.procs && s.procs[p].pc.Making? && limiter !in s.made
    case Allow(p, _) => p in s.procs && s.procs[p].pc.Got?
  }

  function Goto(s: State, p: ProcId, pc: PC): State
    requires p in s.procs
  {
    s.(procs := s.procs[p := Proc(s.procs[p].key, pc)])
  }

  function ApplyRun(s: State, p: ProcId): State
    requires CanStep(s, Run(p))
  {
    var key := s.procs[p].key;
    match s.procs[p].pc
    case WantRead => Goto(s, p, Looking).(readers := s.readers + {p})
    case Looking => Goto(s, p, Looked(if key in s.clients then Some(s.clients[key]) else None))
    case Looked(found) =>
      Goto(s, p, if found.Some? then Got(found.value) else WantWrite).(readers := s.readers - {p})
    case WantWrite => Goto(s, p, Rechecking).(writer := Some(p))
    case Rechecking => Goto(s, p, if key in s.clients then Unlocking(s.clients[key]) else Making)
    case Storing(limiter) => Goto(s, p, Unlocking(limiter)).(clients := s.clients[key := limiter])
    case Unlocking(limiter) => Goto(s, p, Got(limiter)).(writer := None)
  }

  function Apply(s: State, step: Step): State
    requires CanStep(s, step)
  {
    match step
    case Arrive(p, clientIP, apiKey) => s.(procs := s.procs[p := Proc(ClientKey(clientIP, apiKey), WantRead)])
    case Run(p) => ApplyRun(s, p)
    case Make(p, limiter) => Goto(s, p, Storing(limiter)).(made := s.made[limiter := s.procs[p].key])
    case Allow(p, allowed) =>
      var limiter := s.procs[p].pc.limiter;
      Goto(s, p, Done(limiter)).(log := s.log + [Admission(s.procs[p].key, limiter, allowed)])
  }

  ghost predicate IsRun(tr: seq<State>, steps: seq<Step>) {
    && |tr| == |steps| + 1
    && tr[0] == INITIAL
    && forall i :: 0 <= i < |steps| ==> CanStep(tr[i], steps[i]) && tr[i + 1] == Apply(tr[i], steps[i])
  }

  lemma RunExtends(tr: seq<State>, steps: seq<Step>, step: Step)
    requires IsRun(tr, steps) && CanStep(tr[|tr| - 1], step)
    ensures IsRun(tr + [Apply(tr[|tr| - 1], step)], steps + [step])
  {
    hide CanStep, Apply;
    var tr', steps' := tr + [Apply(tr[|tr| - 1], step)], steps + [step];
    forall i | 0 <= i < |steps'|
      ensures CanStep(tr'[i], steps'[i]) && tr'[i + 1] == Apply(tr'[i], steps'[i])
    {
      if i < |steps| {
        assert CanStep(tr[i], steps[i]);
      }
    }
  }

  // ---- Invariant ----

  predicate Reading(pc: PC) {
    pc.Looking? || pc.Looked?
  }

  predicate Writing(pc: PC) {
    pc.Rechecking? || pc.Making? || pc.Storing? || pc.Unlocking?
  }

  /** The limiter a caller has been given, once that is decided. */
  function Result(pc: PC): Option<Limiter> {
    match pc
    case Looked(found) => found
    case Unlocking(limiter) => Some(limiter)
    case Got(limiter) => Some(limiter)
    case Done(limiter) => Some(limiter)
    case _ => None
  }

  ghost predicate GoodProc(s: State, p: ProcId)
    requires p in s.procs
  {
    var key, pc := s.procs[p].key, s.procs[p].pc;
    && (Reading(pc) <==> p in s.readers)
    && (Writing(pc) <==> s.writer == Some(p))
    && (Result(pc).Some? ==> key in s.clients && s.clients[key] == Result(pc).value)
    && (pc.Making? || pc.Storing? ==> key !in s.clients)
    && (pc.Storing? ==> pc.made in s.made && s.made[pc.made] == key)
  }

  /** A limiter is in the cache under its key, or about to be stored there by the writer. */
  ghost predicate Placed(s: State, limiter: Limiter)
    requires limiter in s.made
  {
    || (s.made[limiter] in s.clients && s.clients[s.made[limiter]] == limiter)
    || (s.writer.Some? && s.writer.value in s.procs && s.procs[s.writer.value].pc == Storing(limiter))
  }

  ghost predicate GoodMutex(s: State) {
    && (s.writer.Some? ==> s.writer.value in s.procs && s.readers == {})
    && (forall p :: p in s.readers ==> p in s.procs)
  }

  ghost predicate GoodCache(s: State) {
    forall k :: k in s.clients ==> s.clients[k] in s.made && s.made[s.clients[k]] == k
  }

  ghost predicate GoodLog(s: State) {
    forall i :: 0 <= i < |s.log| ==> s.log[i].key in s.clients && s.clients[s.log[i].key] == s.log[i].limiter
  }

  ghost predicate Inv(s: State) {
    && GoodMutex(s) && GoodCache(s) && GoodLog(s)
    && (forall p :: p in s.procs ==> GoodProc(s, p))
    && (forall limiter :: limiter in s.made ==> Placed(s, limiter))
  }

  lemma RunKeepsOwn(s: State, step: Step)
    requires Inv(s) && CanStep(s, step) && !step.Arrive?
    ensures GoodProc(Apply(s, step), step.p)
  {
    hide Placed, GoodCache, GoodLog;
    assert GoodProc(s, step.p);
  }

  lemma RunKeepsOthers(s: State, step: Step, q: ProcId)
    requires Inv(s) && CanStep(s, step) && !step.Arrive? && q in s.procs && q != step.p
    ensures GoodProc(Apply(s, step), q)
  {
    assert GoodProc(s, step.p) && GoodProc(s, q);
    hide Inv;
  }

  lemma RunKeepsPlaced(s: State, step: Step, limiter: Limiter)
    requires Inv(s) && CanStep(s, step) && !step.Arrive? && limiter in Apply(s, step).made
    ensures Placed(Apply(s, step), limiter)
  {
    hide GoodCache, GoodLog;
    assert GoodProc(s, step.p);
    assert limiter in s.made ==> Placed(s, limiter);
  }

  lemma RunKeepsMutex(s: State, step: Step)
    requires GoodMutex(s) && CanStep(s, step) && !step.Arrive? && GoodProc(s, step.p)
    ensures GoodMutex(Apply(s, step))
  {
  }

  lemma RunKeepsCache(s: State, step: Step)
    requires GoodCache(s) && CanStep(s, step) && !step.Arrive? && GoodProc(s, step.p)
    ensures GoodCache(Apply(s, step))
  {
  }

  lemma RunKeepsLog(s: State, step: Step)
    requires GoodLog(s) && CanStep(s, step) && !step.Arrive? && GoodProc(s, step.p)
    ensures GoodLog(Apply(s, step))
  {
  }

  lemma RunKeepsInv(s: State, step: Step)
    requires Inv(s) && CanStep(s, step) && !step.Arrive?
    ensures Inv(Apply(s, step))
  {
    assert GoodProc(s, step.p);
    StepShortens(s, step);
    hide Placed, GoodProc, GoodMutex, GoodCache, GoodLog, Apply, CanStep;
    var s' := Apply(s, step);
    forall q | q in s'.procs ensures GoodProc(s', q) {
      if q == step.p {
        RunKeepsOwn(s, step);
      } else {
        RunKeepsOthers(s, step, q);
      }
    }
    forall limiter | limiter in s'.made ensures Placed(s', limiter) {
      RunKeepsPlaced(s, step, limiter);
    }
    RunKeepsMutex(s, step);
    RunKeepsCache(s, step);
    RunKeepsLog(s, step);
  }

  lemma StepKeepsInv(s: State, step: Step)
    requires Inv(s) && CanStep(s, step)
    ensures Inv(Apply(s, step))
  {
    if step.Arrive? {
      var s' := Apply(s, step);
      forall q | q in s'.procs ensures GoodProc(s', q) {
        assert q != step.p ==> GoodProc(s, q);
      }
      forall limiter | limiter in s'.made ensures Placed(s', limiter) {
        assert Placed(s, limiter);
      }
    } else {
      RunKeepsInv(s, step);
    }
  }

  lemma {:induction false} RunInv(tr: seq<State>, steps: seq<Step>, i: nat)
    requires IsRun(tr, steps) && i < |tr|
    ensures Inv(tr[i])
  {
    hide Inv, CanStep, Apply;
    if i == 0 {
      InitialInv();
    } else {
      RunInv(tr, steps, i - 1);
      StepKeepsInv(tr[i - 1], steps[i - 1]);
    }
  }

  lemma InitialInv()
    ensures Inv(INITIAL)
  {
  }

  // ---- Refinement of an atomic get-or-create ----

  /** The atomic operation; `spare` is the limiter it makes if it has to. */
  function GetOrCreate(clients: map<string, Limiter>, key: string, spare: Limiter): (map<string, Limiter>, Limiter) {
    if key in clients then (clients, clients[key]) else (clients[key := spare], spare)
  }

  /** One whole get-or-create by `p` takes `s` to `s'`; a limiter it adds is not in the cache yet. */
  ghost predicate CreatesOrGets(s: State, s': State, p: ProcId)
    requires p in s'.procs && Result(s'.procs[p].pc).Some?
  {
    var key, limiter := s'.procs[p].key, Result(s'.procs[p].pc).value;
    && GetOrCreate(s.clients, key, limiter) == (s'.clients, limiter)
    && (key !in s.clients ==> forall k :: k in s.clients ==> s.clients[k] != limiter)
  }

  /** What a step does to the cache as callers see it: nothing, or one whole get-or-create that
      decides the result of the caller that runs. */
  ghost predicate AtomicStep(s: State, s': State, step: Step) {
    var p := step.p;
    && p in s'.procs
    && (forall q :: q in s.procs && q != p ==> q in s'.procs && s'.procs[q] == s.procs[q])
    && (forall q :: q in s'.procs && q != p ==> q in s.procs)
    && (step.Arrive? ==> p !in s.procs && Result(s'.procs[p].pc) == None && s'.clients == s.clients)
    && (!step.Arrive? ==>
          && p in s.procs && s'.procs[p].key == s.procs[p].key
          && if Result(s.procs[p].pc) == Result(s'.procs[p].pc) then s'.clients == s.clients
             else Result(s.procs[p].pc) == None && CreatesOrGets(s, s', p))
  }

  lemma StepRefines(s: State, step: Step)
    requires Inv(s) && CanStep(s, step)
    ensures AtomicStep(s, Apply(s, step), step)
  {
    hide Placed;
    if !step.Arrive? {
      assert GoodProc(s, step.p);
      assert GoodCache(s);
      hide Inv, GoodProc;
      StepShortens(s, step);
    }
  }

  /** Every interleaving is a sequence of whole get-or-creates. */
  lemma RefinesGetOrCreate(tr: seq<State>, steps: seq<Step>, i: nat)
    requires IsRun(tr, steps) && i < |steps|
    ensures AtomicStep(tr[i], tr[i + 1], steps[i])
  {
    hide Inv, CanStep, Apply, AtomicStep;
    RunInv(tr, steps, i);
    StepRefines(tr[i], steps[i]);
  }

  /** Entries of the cache never change. */
  lemma {:induction false} EntriesStay(tr: seq<State>, steps: seq<Step>, i: nat, j: nat, key: string)
    requires IsRun(tr, steps) && i <= j < |tr| && key in tr[i].clients
    ensures key in tr[j].clients && tr[j].clients[key] == tr[i].clients[key]
    decreases j
  {
    hide CanStep, Apply, Inv;
    if i == j {
    } else {
      EntriesStay(tr, steps, i, j - 1, key);
      RefinesGetOrCreate(tr, steps, j - 1);
    }
  }

  /** At most one limiter is ever made for a key. */
  lemma OneLimiterPerKey(tr: seq<State>, steps: seq<Step>, i: nat, a: Limiter, b: Limiter)
    requires IsRun(tr, steps) && i < |tr| && a in tr[i].made && b in tr[i].made
    requires tr[i].made[a] == tr[i].made[b]
    ensures a == b
  {
    hide IsRun;
    RunInv(tr, steps, i);
    var s := tr[i];
    assert Placed(s, a) && Placed(s, b);
    if s.writer.Some? {
      assert GoodProc(s, s.writer.value);
    }
  }

  /** All callers with one key get the same limiter, whenever they run. */
  lemma SameLimiter(tr: seq<State>, steps: seq<Step>, i: nat, j: nat, p: ProcId, q: ProcId)
    requires IsRun(tr, steps) && i <= j < |tr| && p in tr[i].procs && q in tr[j].procs
    requires tr[i].procs[p].key == tr[j].procs[q].key
    requires Result(tr[i].procs[p].pc).Some? && Result(tr[j].procs[q].pc).Some?
    ensures Result(tr[i].procs[p].pc) == Result(tr[j].procs[q].pc)
  {
    hide IsRun;
    RunInv(tr, steps, i);
    RunInv(tr, steps, j);
    assert GoodProc(tr[i], p) && GoodProc(tr[j], q);
    EntriesStay(tr, steps, i, j, tr[i].procs[p].key);
  }

  /** Linearizability: between its arrival (after state `m`) and state `n`, in which it has its
      limiter, the caller's whole get-or-create took place in one step. */
  lemma {:induction false} DecidedAtOnce(tr: seq<State>, steps: seq<Step>, m: nat, n: nat, p: ProcId) returns (k: nat)
    requires IsRun(tr, steps) && m <= n < |tr|
    requires p !in tr[m].procs && p in tr[n].procs && Result(tr[n].procs[p].pc).Some?
    ensures m <= k < n
    ensures var key, limiter := tr[n].procs[p].key, Result(tr[n].procs[p].pc).value;
      GetOrCreate(tr[k].clients, key, limiter) == (tr[k + 1].clients, limiter)
    decreases n
  {
    hide CanStep, Apply, Inv, Result;
    assert n > m;
    k := n - 1;
    RefinesGetOrCreate(tr, steps, k);
    if p in tr[k].procs && tr[k].procs[p].key == tr[n].procs[p].key
       && Result(tr[k].procs[p].pc) == Result(tr[n].procs[p].pc) {
      k := DecidedAtOnce(tr, steps, m, n - 1, p);
    }
  }

  // ---- Clients ----

  lemma StepKeepsKey(s: State, step: Step, p: ProcId)
    requires CanStep(s, step) && p in s.procs
    ensures p in Apply(s, step).procs && Apply(s, step).procs[p].key == s.procs[p].key
  {
  }

  /** A request is served under its API key if it sent one, and under its address otherwise. */
  lemma {:induction false} KeyOfRequest(tr: seq<State>, steps: seq<Step>, a: nat, n: nat,
                                        p: ProcId, clientIP: string, apiKey: string)
    requires IsRun(tr, steps) && a < |steps| && a < n < |tr| && steps[a] == Arrive(p, clientIP, apiKey)
    ensures p in tr[n].procs && tr[n].procs[p].key == if apiKey != "" then apiKey else clientIP
    decreases n
  {
    if n == a + 1 {
      assert CanStep(tr[a], steps[a]) && tr[n] == Apply(tr[a], steps[a]);
    } else {
      hide CanStep, Apply, ClientKey;
      KeyOfRequest(tr, steps, a, n - 1, p, clientIP, apiKey);
      StepKeepsKey(tr[n - 1], steps[n - 1], p);
    }
  }

  /** Two requests are served by one limiter if and only if what identifies them is the same: the API
      key, from whatever addresses, or the address where none was sent. */
  lemma OneLimiterPerClient(tr: seq<State>, steps: seq<Step>, n: nat, a: nat, b: nat, p: ProcId, q: ProcId,
                            clientIP: string, apiKey: string, clientIP': string, apiKey': string)
    requires IsRun(tr, steps) && a < n < |tr| && b < n && a < |steps| && b < |steps|
    requires steps[a] == Arrive(p, clientIP, apiKey) && steps[b] == Arrive(q, clientIP', apiKey')
    requires p in tr[n].procs && q in tr[n].procs
    requires Result(tr[n].procs[p].pc).Some? && Result(tr[n].procs[q].pc).Some?
    ensures Result(tr[n].procs[p].pc) == Result(tr[n].procs[q].pc)
      <==> (if apiKey != "" then apiKey else clientIP) == (if apiKey' != "" then apiKey' else clientIP')
  {
    KeyOfRequest(tr, steps, a, n, p, clientIP, apiKey);
    KeyOfRequest(tr, steps, b, n, q, clientIP', apiKey');
    RunInv(tr, steps, n);
    hide IsRun, Placed, Result;
    assert GoodProc(tr[n], p) && GoodProc(tr[n], q);
  }

  // ---- Admission ----

  /** In any stretch of any run, the requests of a client that were admitted are those that its one
      limiter admitted: a bound on one limiter is a bound per client, across all goroutines. */
  lemma BoundPerClient(tr: seq<State>, steps: seq<Step>, i: nat, from: nat, to: nat, key: string)
    requires IsRun(tr, steps) && i < |tr| && from <= to <= |tr[i].log|
    ensures var log := tr[i].log;
      (set j | from <= j < to && log[j].key == key && log[j].allowed)
      == (set j | from <= j < to && key in tr[i].clients && log[j].limiter == tr[i].clients[key] && log[j].allowed)
  {
    hide IsRun;
    RunInv(tr, steps, i);
  }

  // ---- Progress ----

  /** While any caller is unfinished, some caller can run. */
  lemma LimiterProgress(s: State, p: ProcId) returns (q: ProcId)
    requires Inv(s) && p in s.procs && !s.procs[p].pc.Done?
    ensures q in s.procs && Free(s.procs[q].pc, s.readers, s.writer)
  {
    q := p;
    if s.writer.Some? {
      q := s.writer.value;
      assert GoodProc(s, q);
    } else if s.readers != {} {
      q :| q in s.readers;
      assert GoodProc(s, q);
    }
  }

  /** The most steps a caller can still take. */
  function Remaining(pc: PC): nat {
    match pc
    case WantRead => 9
    case Looking => 8
    case Looked(_) => 7
    case WantWrite => 6
    case Rechecking => 5
    case Making => 4
    case Storing(_) => 3
    case Unlocking(_) => 2
    case Got(_) => 1
    case Done(_) => 0
  }

  lemma StepShortens(s: State, step: Step)
    requires CanStep(s, step) && !step.Arrive?
    ensures step.p in s.procs && step.p in Apply(s, step).procs
    ensures Apply(s, step).procs == s.procs[step.p := Apply(s, step).procs[step.p]]
    ensures Apply(s, step).procs[step.p].key == s.procs[step.p].key
    ensures Remaining(Apply(s, step).procs[step.p].pc) < Remaining(s.procs[step.p].pc)
  {
  }
}
