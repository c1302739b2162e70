/** RateLimiter: the cache and its mutex, updated in place by any number of goroutines. Between two
    steps of one goroutine the others run: `Await` is where they do. Every change is recorded as a
    run of the machine of RateLimiting, so what is proved of runs holds of this object. */
module Middleware {
  import opened Records
  import opened RateLimiting
  import opened Sums

  /** The rates of all limiters made so far. */
  ghost predicate Configured(made: map<Limiter, string>, rps: real, burst: int) {
    forall limiter: Limiter :: limiter in made ==> limiter.rps == rps && limiter.burst == burst
  }

  lemma StepMakes(s: State, step: Step, rps: real, burst: int)
    requires CanStep(s, step) && Configured(s.made, rps, burst)
    requires step.Make? ==> step.limiter.rps == rps && step.limiter.burst == burst
    ensures Configured(Apply(s, step).made, rps, burst)
  {
  }

  function StepsLeft(procs: map<ProcId, Proc>): map<int, int> {
    map p | p in procs :: Remaining(procs[p].pc)
  }

  ghost function Backlog(procs: map<ProcId, Proc>): int {
    Sum(StepsLeft(procs))
  }

  lemma BacklogNonNegative(procs: map<ProcId, Proc>)
    ensures Backlog(procs) >= 0
  {
    SumNonNegative(StepsLeft(procs));
  }

  lemma StepLowersBacklog(s: State, step: Step)
    requires CanStep(s, step) && !step.Arrive?
    ensures Backlog(Apply(s, step).procs) < Backlog(s.procs)
  {
    hide CanStep, Apply;
    StepShortens(s, step);
    var procs' := Apply(s, step).procs;
    assert StepsLeft(procs') == StepsLeft(s.procs)[step.p := Remaining(procs'[step.p].pc)];
    SumUpdate(StepsLeft(s.procs), step.p, Remaining(procs'[step.p].pc));
  }

  lemma OthersLeaveProc(s: State, step: Step, p: ProcId)
    requires CanStep(s, step) && step.p != p && p in s.procs
    ensures p in Apply(s, step).procs && Apply(s, step).procs[p] == s.procs[p]
  {
  }

  class RateLimiter {
    var clients: map<string, Limiter>
    const rps: real
    const burst: int
    // mu
    var readers: set<ProcId>
    var writer: Option<ProcId>
    // every goroutine there has been and where it stands, every limiter, every answer of Allow
    var procs: map<ProcId, Proc>
    var made: map<Limiter, string>
    var log: seq<Admission>
    // the run so far
    ghost var trace: seq<State>
    ghost var steps: seq<Step>

    function Now(): State
      reads this
    {
      State(clients, readers, writer, procs, made, log)
    }

    ghost predicate Valid()
      reads this
    {
      && IsRun(trace, steps) && |trace| > 0 && trace[|trace| - 1] == Now()
      && Configured(made, rps, burst)
    }

    predicate At(p: ProcId, key: string, pc: PC)
      reads this
    {
      p in procs && procs[p] == Proc(key, pc)
    }

    constructor (rps: real, burst: int)
      ensures Valid() && Now() == INITIAL && this.rps == rps && this.burst == burst
    {
      clients, this.rps, this.burst := map[], rps, burst;
      readers, writer, procs, made, log := {}, None, map[], map[], [];
      trace, steps := [INITIAL], [];
    }

    lemma NowIsGood()
      requires Valid()
      ensures Inv(Now())
    {
      hide Inv, IsRun;
      RunInv(trace, steps, |trace| - 1);
    }

    /** Any step of the machine. */
    method Perform(step: Step)
      requires Valid() && CanStep(Now(), step)
      requires step.Make? ==> step.limiter.rps == rps && step.limiter.burst == burst
      modifies this
      ensures Valid() && Now() == Apply(old(Now()), step) && trace == old(trace) + [Now()]
    {
      hide CanStep, IsRun, Apply, Configured;
      RunExtends(trace, steps, step);
      StepMakes(Now(), step, rps, burst);
      var s := Apply(Now(), step);
      clients, readers, writer, procs, made, log := s.clients, s.readers, s.writer, s.procs, s.made, s.log;
      trace, steps := trace + [s], steps + [step];
    }

    /** The next step of goroutine `p`; a limiter it makes is a new object. */
    method RunOne(p: ProcId)
      requires Valid() && p in procs && Free(procs[p].pc, readers, writer)
      modifies this
      ensures Valid() && old(trace) <= trace && Backlog(procs) < Backlog(old(procs))
      ensures forall q :: q in old(procs) && q != p ==> q in procs && procs[q] == old(procs)[q]
    {
      hide IsRun, Apply, Configured, Backlog;
      ghost var procs0 := procs;
      var step := Run(p);
      if procs[p].pc.Making? {
        var limiter := new Limiter(rps, burst);
        step := Make(p, limiter);
      } else if procs[p].pc.Got? {
        var allowed: bool := *;
        step := Allow(p, allowed);
      }
      StepLowersBacklog(Now(), step);
      forall q | q in procs && q != p
        ensures q in Apply(Now(), step).procs && Apply(Now(), step).procs[q] == procs[q]
      {
        OthersLeaveProc(Now(), step, q);
      }
      Perform(step);
    }

    /** Other goroutines arrive and run until `p` can take its next step: it need not wait for ever. */
    method Await(p: ProcId)
      requires Valid() && p in procs && !procs[p].pc.Done?
      modifies this
      ensures Valid() && old(trace) <= trace && Inv(Now())
      ensures p in procs && procs[p] == old(procs)[p] && Free(procs[p].pc, readers, writer)
    {
      hide IsRun, Inv, Apply, Configured, Backlog, Free;
      var rounds: nat := *;
      while rounds > 0
        invariant Valid() && old(trace) <= trace && p in procs && procs[p] == old(procs)[p]
      {
        var q: ProcId, clientIP: string, apiKey: string := *, *, *;
        if q !in procs {
          OthersLeaveProc(Now(), Arrive(q, clientIP, apiKey), p);
          Perform(Arrive(q, clientIP, apiKey));
        } else if q != p && Free(procs[q].pc, readers, writer) {
          RunOne(q);
        }
        rounds := rounds - 1;
      }
      NowIsGood();
      BacklogNonNegative(procs);
      while !Free(procs[p].pc, readers, writer)
        invariant Valid() && Inv(Now()) && old(trace) <= trace && p in procs && procs[p] == old(procs)[p]
        invariant Backlog(procs) >= 0
        decreases Backlog(procs)
      {
        ghost var runnable := LimiterProgress(Now(), p);
        var q :| q in procs && Free(procs[q].pc, readers, writer);
        RunOne(q);
        NowIsGood();
        BacklogNonNegative(procs);
      }
    }

    /** Records that the statement in progress was `step`, and that `p` goes on at `pc`. */
    method Tick(p: ProcId, ghost step: Step, pc: PC)
      requires IsRun(trace, steps) && |trace| > 0 && CanStep(trace[|trace| - 1], step) && p in procs
      requires Now().(procs := procs[p := Proc(procs[p].key, pc)]) == Apply(trace[|trace| - 1], step)
      requires Configured(made, rps, burst)
      modifies `procs, `trace, `steps
      ensures Valid() && old(trace) <= trace
      ensures procs == old(procs)[p := Proc(old(procs)[p].key, pc)]
    {
      hide IsRun, CanStep, Apply, Configured;
      RunExtends(trace, steps, step);
      procs := procs[p := Proc(procs[p].key, pc)];
      trace, steps := trace + [Now()], steps + [step];
    }

    // ---- mu ----

    method RLock(p: ProcId, ghost key: string)
      requires Valid() && At(p, key, WantRead)
      modifies this
      ensures Valid() && At(p, key, Looking) && old(trace) <= trace
    {
      hide IsRun, Inv, Configured;
      Await(p);
      readers := readers + {p};
      Tick(p, Run(p), Looking);
    }

    method RUnlock(p: ProcId, ghost key: string, ghost found: Option<Limiter>, next: PC)
      requires Valid() && At(p, key, Looked(found))
      requires next == if found.Some? then Got(found.value) else WantWrite
      modifies this
      ensures Valid() && At(p, key, next) && old(trace) <= trace
    {
      hide IsRun, Inv, Configured;
      Await(p);
      readers := readers - {p};
      Tick(p, Run(p), next);
    }

    method Lock(p: ProcId, ghost key: string)
      requires Valid() && At(p, key, WantWrite)
      modifies this
      ensures Valid() && At(p, key, Rechecking) && old(trace) <= trace
    {
      hide IsRun, Inv, Configured;
      Await(p);
      writer := Some(p);
      Tick(p, Run(p), Rechecking);
    }

    method Unlock(p: ProcId, ghost key: string, limiter: Limiter)
      requires Valid() && At(p, key, Unlocking(limiter))
      modifies this
      ensures Valid() && At(p, key, Got(limiter)) && old(trace) <= trace
    {
      hide IsRun, Inv, Configured;
      Await(p);
      writer := None;
      Tick(p, Run(p), Got(limiter));
    }

    // ---- getLimiter ----

    /** The lookup under the read lock. */
    method Look(p: ProcId, key: string) returns (found: Option<Limiter>)
      requires Valid() && At(p, key, Looking)
      modifies this
      ensures Valid() && At(p, key, Looked(found)) && old(trace) <= trace
    {
      hide IsRun, Inv, Configured;
      Await(p);
      found := if key in clients then Some(clients[key]) else None;
      Tick(p, Run(p), Looked(found));
    }

    /** The second lookup, under the write lock. */
    method LookAgain(p: ProcId, key: string) returns (found: Option<Limiter>)
      requires Valid() && At(p, key, Rechecking)
      modifies this
      ensures Valid() && At(p, key, if found.Some? then Unlocking(found.value) else Making) && old(trace) <= trace
    {
      hide IsRun, Inv, Configured;
      Await(p);
      found := if key in clients then Some(clients[key]) else None;
      Tick(p, Run(p), if found.Some? then Unlocking(found.value) else Making);
    }

    method MakeLimiter(p: ProcId, key: string) returns (limiter: Limiter)
      requires Valid() && At(p, key, Making)
      modifies this
      ensures Valid() && At(p, key, Storing(limiter)) && old(trace) <= trace
    {
      hide IsRun, Inv;
      Await(p);
      limiter := new Limiter(rps, burst);
      made := made[limiter := key];
      Tick(p, Make(p, limiter), Storing(limiter));
    }

    method Store(p: ProcId, key: string, limiter: Limiter)
      requires Valid() && At(p, key, Storing(limiter))
      modifies this
      ensures Valid() && At(p, key, Unlocking(limiter)) && old(trace) <= trace
    {
      hide IsRun, Inv, Configured;
      Await(p);
      clients := clients[key := limiter];
      Tick(p, Run(p), Unlocking(limiter));
    }

    /** The limiter is the one cached for the key, the same for every caller before and after. */
    method GetLimiter(p: ProcId, key: string) returns (limiter: Limiter)
      requires Valid() && At(p, key, WantRead)
      modifies this
      ensures Valid() && At(p, key, Got(limiter)) && old(trace) <= trace
      ensures key in clients && clients[key] == limiter && limiter.rps == rps && limiter.burst == burst
      ensures forall k :: k in old(clients) ==> k in clients && clients[k] == old(clients)[k]
    {
      hide IsRun, Inv, Configured;
      RLock(p, key);
      var found := Look(p, key);
      RUnlock(p, key, found, if found.Some? then Got(found.value) else WantWrite);
      if found.Some? {
        limiter := found.value;
      } else {
        limiter := GetOrMake(p, key);
      }
      GotIsCached(p, key, limiter);
      CacheKept(|old(trace)| - 1);
    }

    /** The part under the write lock. */
    method GetOrMake(p: ProcId, key: string) returns (limiter: Limiter)
      requires Valid() && At(p, key, WantWrite)
      modifies this
      ensures Valid() && At(p, key, Got(limiter)) && old(trace) <= trace
    {
      hide IsRun, Inv, Configured;
      Lock(p, key);
      // Another goroutine may have made it since the first lookup.
      var found := LookAgain(p, key);
      if found.Some? {
        limiter := found.value;
      } else {
        limiter := MakeLimiter(p, key);
        Store(p, key, limiter);
      }
      Unlock(p, key, limiter);
    }

    lemma GotIsCached(p: ProcId, key: string, limiter: Limiter)
      requires Valid() && At(p, key, Got(limiter))
      ensures key in clients && clients[key] == limiter && limiter in made
      ensures limiter.rps == rps && limiter.burst == burst
    {
      hide IsRun, Placed;
      NowIsGood();
      assert GoodProc(Now(), p);
    }

    lemma CacheKept(n: nat)
      requires Valid() && n < |trace|
      ensures forall k :: k in trace[n].clients ==> k in clients && clients[k] == trace[n].clients[k]
    {
      hide IsRun;
      forall k | k in trace[n].clients ensures k in clients && clients[k] == trace[n].clients[k] {
        EntriesStay(trace, steps, n, |trace| - 1, k);
      }
    }

    /** At some step since the trace had `n` states, a whole get-or-create of `key` took place. */
    ghost predicate GotDuring(n: nat, key: string, limiter: Limiter)
      reads this
    {
      exists k: nat ::
        n - 1 <= k < |trace| - 1 && GetOrCreate(trace[k].clients, key, limiter) == (trace[k + 1].clients, limiter)
    }

    /** One request: its key's limiter, looked up or made at one instant while the request was being
        served, admits it or not. `allowed` is the limiter's own decision. */
    method Handle(p: ProcId, clientIP: string, apiKey: string, allowed: bool) returns (admitted: bool)
      requires Valid() && p !in procs
      modifies this
      ensures Valid() && old(trace) <= trace && admitted == allowed
      ensures var key := if apiKey != "" then apiKey else clientIP;
        && key in clients && At(p, key, Done(clients[key]))
        && |log| > 0 && log[|log| - 1] == Admission(key, clients[key], admitted)
        && GotDuring(|old(trace)|, key, clients[key])
    {
      hide IsRun, Inv, Configured, GetOrCreate;
      var key := clientIP;
      if apiKey != "" {
        key := apiKey;
      }
      Perform(Arrive(p, clientIP, apiKey));
      assert At(p, key, WantRead);
      var limiter := GetLimiter(p, key);
      admitted := Admit(p, key, limiter, allowed);
      ghost var k := DecidedAtOnce(trace, steps, |old(trace)| - 1, |trace| - 1, p);
    }

    /** limiter.Allow() */
    method Admit(p: ProcId, key: string, limiter: Limiter, allowed: bool) returns (admitted: bool)
      requires Valid() && At(p, key, Got(limiter))
      modifies this
      ensures Valid() && old(trace) <= trace && admitted == allowed
      ensures key in clients && clients[key] == limiter && At(p, key, Done(limiter))
      ensures |log| > 0 && log[|log| - 1] == Admission(key, limiter, admitted)
    {
      hide IsRun, Inv, Configured;
      Await(p);
      GotIsCached(p, key, limiter);
      log := log + [Admission(key, limiter, allowed)];
      admitted := allowed;
      Tick(p, Allow(p, allowed), Done(limiter));
    }
  }
}
