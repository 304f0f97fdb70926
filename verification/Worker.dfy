/**
 compensating_agent/worker.py: `process_message` with its two attempts and its
 fallback, and `get_graph`, which replaces a dead checkpointer. Which call raises, and
 whether the exception's text looks like a connection error, are inputs.
 */
module Worker {
  import opened Wrappers
  import opened Schemas
  import opened Tables
  import opened Saga
  import opened SagaLaws
  import opened SagaRecovery
  import opened SagaResume
  import opened SagaPosts

  /** An exception, by whether its text mentions a lost connection. */
  datatype Failure = Failure(isConnError: bool)

  /** A run raises after so many nodes: between two nodes, or inside one after some of its effects. */
  datatype Break = Break(after: nat, inside: Option<nat>, failure: Failure)

  /** One `ainvoke`: the answers its nodes get, and where it raises, if it does. */
  datatype Script = Script(oracle: nat -> Answer, fault: Option<Break>)

  /** One attempt: opening a checkpointer raises, reading the checkpoint raises, or the graph runs. */
  datatype Try = Try(opening: Option<Failure>, preflight: Option<Failure>, script: Script)

  datatype Outcome = Completed | CompletedDegraded | Reported

  // ---- what a run does ----

  /** The nodes of one invocation, from the k-th answer on, until the end or the exception. */
  ghost function Stretch(s: System, script: Script, k: nat): (System, Option<Failure>)
    requires MemoryOk(s)
    decreases if CanRun(s.memory) then Measure(s.memory.cfg, s.world) + 1 else 0
  {
    if !CanRun(s.memory) then (Apply(s, Stop), None)
    else if script.fault.Some? && script.fault.value.after == k then
      (Apply(s, BreakEvent(script)), Some(script.fault.value.failure))
    else
      NodeGoesOn(s, script.oracle(k));
      Stretch(Apply(s, RunNode(script.oracle(k))), script, k + 1)
  }

  ghost function BreakEvent(script: Script): Event
    requires script.fault.Some?
  {
    var b := script.fault.value;
    if b.inside.None? then Stop else DieInside(script.oracle(b.after), b.inside.value)
  }

  lemma NodeGoesOn(s: System, ans: Answer)
    requires MemoryOk(s) && CanRun(s.memory)
    ensures var s' := Apply(s, RunNode(ans));
      && MemoryOk(s') && s'.degradedRuns == s.degradedRuns
      && s'.memory != Idle && s'.memory.cfg == Next(s.memory.cfg, s.world, ans) && s'.world == Executed(s.memory.cfg, s.world, ans)
      && Measure(s'.memory.cfg, s'.world) < Measure(s.memory.cfg, s.world)
  {
    ApplyKeepsMemory(s, RunNode(ans));
    MeasureDecreases(s.memory.cfg, s.world, Executed(s.memory.cfg, s.world, ans), ans);
    hide Next, Executed, Measure, Effects, PostedBy, DeadBy, MemoryOk;
  }

  /** What one attempt leads to. `early`: no node of it had a chance to run. */
  datatype Tried = Tried(system: System, failure: Option<Failure>, early: bool)

  ghost function TryOnce(s: System, failing: Entry, mustOpen: bool, t: Try): Tried
    requires MemoryOk(s)
  {
    if mustOpen && t.opening.Some? then Tried(s, t.opening, true)
    else if t.preflight.Some? then Tried(s, t.preflight, true)
    else
      ApplyKeepsMemory(s, Deliver(failing));
      var (s', failure) := Stretch(Apply(s, Deliver(failing)), t.script, 0);
      Tried(s', failure, false)
  }

  ghost function Handled(s: System, failing: Entry, present: bool, first: Try, second: Try, fallback: Script): (System, Outcome)
    requires MemoryOk(s)
  {
    var r1 := TryOnce(s, failing, !present, first);
    TryKeepsMemory(s, failing, !present, first);
    TryKeepsMemory(r1.system, failing, true, second);
    if r1.failure.None? then (r1.system, Completed)
    else if !r1.failure.value.isConnError then (r1.system, Reported)
    else
      var r2 := TryOnce(r1.system, failing, true, second);
      if r2.failure.None? then (r2.system, Completed)
      else if r2.failure.value.isConnError && r2.early then
        ApplyKeepsMemory(r2.system, DeliverDegraded(failing));
        var (s3, failure) := Stretch(Apply(r2.system, DeliverDegraded(failing)), fallback, 0);
        (s3, if failure.None? then CompletedDegraded else Reported)
      else (r2.system, Reported)
  }

  /** The fallback is reached. */
  ghost predicate FallsBack(s: System, failing: Entry, present: bool, first: Try, second: Try)
    requires MemoryOk(s)
  {
    var r1 := TryOnce(s, failing, !present, first);
    TryKeepsMemory(s, failing, !present, first);
    var r2 := TryOnce(r1.system, failing, true, second);
    && r1.failure.Some? && r1.failure.value.isConnError
    && r2.failure.Some? && r2.failure.value.isConnError && r2.early
  }

  lemma {:induction false} StretchKeepsMemory(s: System, script: Script, k: nat)
    requires MemoryOk(s)
    ensures MemoryOk(Stretch(s, script, k).0) && Stretch(s, script, k).0.memory == Idle
    decreases if CanRun(s.memory) then Measure(s.memory.cfg, s.world) + 1 else 0
  {
    if !CanRun(s.memory) {
      ApplyKeepsMemory(s, Stop);
    } else if script.fault.Some? && script.fault.value.after == k {
      ApplyKeepsMemory(s, BreakEvent(script));
    } else {
      NodeGoesOn(s, script.oracle(k));
      StretchKeepsMemory(Apply(s, RunNode(script.oracle(k))), script, k + 1);
    }
  }

  lemma TryKeepsMemory(s: System, failing: Entry, mustOpen: bool, t: Try)
    requires MemoryOk(s)
    ensures MemoryOk(TryOnce(s, failing, mustOpen, t).system)
    ensures s.memory == Idle ==> TryOnce(s, failing, mustOpen, t).system.memory == Idle
  {
    ApplyKeepsMemory(s, Deliver(failing));
    StretchKeepsMemory(Apply(s, Deliver(failing)), t.script, 0);
    hide Stretch, MemoryOk, Apply;
  }

  // ---- the code ----

  /** `state`: the checkpointer in use, if any, and how many have been opened. */
  class GraphHolder {
    var present: bool
    var generation: nat

    constructor ()
      ensures !present && generation == 0
    {
      present, generation := false, 0;
    }

    /**
     A checkpointer in use is handed out unless a fresh one is asked for; otherwise a
     new one is opened. An exception while the old one is closed is suppressed, and
     one while the new one is opened leaves none behind.
     */
    method GetGraph(anew: bool, opening: Option<Failure>) returns (failure: Option<Failure>)
      modifies this
      ensures old(present) && !anew ==> failure.None? && present && generation == old(generation)
      ensures !old(present) || anew ==>
        failure == opening && present == opening.None? && generation == old(generation) + if opening.None? then 1 else 0
    {
      if anew && present {
        present := false;
      }
      if !present {
        if opening.Some? {
          return opening;
        }
        generation := generation + 1;
        present := true;
      }
      failure := None;
    }
  }

  /** The worker process with everything its saga works on. */
  class Host {
    var system: System

    constructor (wid: string, w: World)
      ensures system == SagaRecovery.Fresh(wid, w)
    {
      system := SagaRecovery.Fresh(wid, w);
    }

    /** `graph.ainvoke` */
    method Invoke(script: Script) returns (failure: Option<Failure>)
      requires MemoryOk(system)
      modifies this
      ensures (system, failure) == Stretch(old(system), script, 0)
      ensures MemoryOk(system)
    {
      hide MemoryOk, Apply, Measure;
      StretchKeepsMemory(system, script, 0);
      var k := 0;
      while CanRun(system.memory)
        invariant MemoryOk(system)
        invariant Stretch(system, script, k) == Stretch(old(system), script, 0)
        decreases if CanRun(system.memory) then Measure(system.memory.cfg, system.world) + 1 else 0
      {
        if script.fault.Some? && script.fault.value.after == k {
          var b := script.fault.value;
          system := Apply(system, if b.inside.None? then Stop else DieInside(script.oracle(k), b.inside.value));
          return Some(b.failure);
        }
        NodeGoesOn(system, script.oracle(k));
        system := Apply(system, RunNode(script.oracle(k)));
        k := k + 1;
      }
      system := Apply(system, Stop);
      failure := None;
    }

    /** `run_compensation`; the second result tells a failed checkpoint lookup from the other exceptions. */
    method RunCompensation(failing: Entry, checkpointer: bool, preflight: Option<Failure>, script: Script)
      returns (failure: Option<Failure>, preflightFailed: bool)
      requires MemoryOk(system)
      modifies this
      ensures MemoryOk(system)
      ensures checkpointer && preflight.Some? ==> system == old(system) && failure == preflight && preflightFailed
      ensures !(checkpointer && preflight.Some?) ==>
        && !preflightFailed
        && MemoryOk(Apply(old(system), if checkpointer then Deliver(failing) else DeliverDegraded(failing)))
        && (system, failure) == Stretch(Apply(old(system), if checkpointer then Deliver(failing) else DeliverDegraded(failing)), script, 0)
    {
      hide MemoryOk, Apply, Stretch;
      preflightFailed := false;
      ApplyKeepsMemory(system, Deliver(failing));
      ApplyKeepsMemory(system, DeliverDegraded(failing));
      if checkpointer {
        if preflight.Some? {
          return preflight, true;
        }
        system := Apply(system, Deliver(failing));
      } else {
        system := Apply(system, DeliverDegraded(failing));
      }
      failure := Invoke(script);
    }
  }

  /** `process_message` */
  method ProcessMessage(holder: GraphHolder, host: Host, failing: Entry, first: Try, second: Try, fallback: Script)
    returns (outcome: Outcome)
    requires MemoryOk(host.system)
    modifies holder, host
    ensures (host.system, outcome) == Handled(old(host.system), failing, old(holder.present), first, second, fallback)
  {
    hide MemoryOk, Apply, Stretch;
    ghost var s := host.system;
    ghost var mustOpen := !holder.present;
    TryKeepsMemory(s, failing, mustOpen, first);
    ghost var r1 := TryOnce(s, failing, mustOpen, first);
    TryKeepsMemory(r1.system, failing, true, second);
    ghost var r2 := TryOnce(r1.system, failing, true, second);
    var attempt := 1;
    while attempt <= 2
      invariant attempt == 1 || attempt == 2
      invariant MemoryOk(host.system)
      invariant attempt == 1 ==> host.system == s && holder.present == !mustOpen
      invariant attempt == 2 ==> host.system == r1.system && r1.failure.Some? && r1.failure.value.isConnError
      decreases 2 - attempt
    {
      var t := if attempt == 1 then first else second;
      var failure := holder.GetGraph(attempt == 2, t.opening);
      var built, preflightFailed := failure.None?, false;
      if built {
        failure, preflightFailed := host.RunCompensation(failing, true, t.preflight, t.script);
      }
      assert Tried(host.system, failure, !built || preflightFailed) == if attempt == 1 then r1 else r2;
      if failure.None? {
        return Completed;
      }
      if attempt == 1 && failure.value.isConnError {
        attempt := 2;
        continue;
      }
      if attempt == 2 && failure.value.isConnError && (!built || preflightFailed) {
        var again, _ := host.RunCompensation(failing, false, None, fallback);
        return if again.None? then CompletedDegraded else Reported;
      }
      return Reported;
    }
  }
}

/** What handling messages one after the other can do, whatever raises. `Deliveries` has them at the same time. */
module WorkerLaws {
  import opened Wrappers
  import opened Schemas
  import opened Tables
  import opened Saga
  import opened SagaLaws
  import opened SagaRecovery
  import opened SagaResume
  import opened SagaPosts
  import opened Worker

  lemma RunOne(s: System, e: Event)
    ensures Run(s, [e]) == Apply(s, e)
  {
    assert [e][..0] == [];
  }

  lemma StopsAddNoDegradedRun(s: System, e: Event)
    requires e.Stop? || e.DieInside?
    ensures Apply(s, e).degradedRuns == s.degradedRuns
  {
    hide Partly, PostedBy, DeadBy, Attempted, CanRun;
  }

  lemma {:induction false} StretchIsARun(s: System, script: Script, k: nat) returns (es: seq<Event>)
    requires MemoryOk(s)
    ensures Run(s, es) == Stretch(s, script, k).0 && Stretch(s, script, k).0.degradedRuns == s.degradedRuns
    decreases if CanRun(s.memory) then Measure(s.memory.cfg, s.world) + 1 else 0
  {
    hide Apply, Run, Measure, MemoryOk;
    if !CanRun(s.memory) {
      es := [Stop];
      RunOne(s, Stop);
      StopsAddNoDegradedRun(s, Stop);
    } else if script.fault.Some? && script.fault.value.after == k {
      es := [BreakEvent(script)];
      RunOne(s, BreakEvent(script));
      StopsAddNoDegradedRun(s, BreakEvent(script));
    } else {
      var e := RunNode(script.oracle(k));
      NodeGoesOn(s, script.oracle(k));
      var rest := StretchIsARun(Apply(s, e), script, k + 1);
      es := [e] + rest;
      RunOne(s, e);
      RunConcat(s, [e], rest);
    }
  }

  lemma TryIsARun(s: System, failing: Entry, mustOpen: bool, t: Try) returns (es: seq<Event>)
    requires MemoryOk(s)
    ensures Run(s, es) == TryOnce(s, failing, mustOpen, t).system && TryOnce(s, failing, mustOpen, t).system.degradedRuns == s.degradedRuns
  {
    es := [];
    if !(mustOpen && t.opening.Some?) && t.preflight.None? {
      ApplyKeepsMemory(s, Deliver(failing));
      assert Apply(s, Deliver(failing)).degradedRuns == s.degradedRuns;
      var rest := StretchIsARun(Apply(s, Deliver(failing)), t.script, 0);
      es := [Deliver(failing)] + rest;
      hide Apply, Run, Stretch;
      RunOne(s, Deliver(failing));
      RunConcat(s, [Deliver(failing)], rest);
    }
  }

  /** Handling a message is a run of the crash model, with one degraded run if it falls back and none otherwise. */
  lemma HandledIsARun(s: System, failing: Entry, present: bool, first: Try, second: Try, fallback: Script) returns (es: seq<Event>)
    requires MemoryOk(s) && s.memory == Idle
    ensures var s' := Handled(s, failing, present, first, second, fallback).0;
      && Run(s, es) == s' && MemoryOk(s') && s'.memory == Idle
      && s'.degradedRuns == s.degradedRuns + if FallsBack(s, failing, present, first, second) then 1 else 0
  {
    TryKeepsMemory(s, failing, !present, first);
    var r1 := TryOnce(s, failing, !present, first);
    TryKeepsMemory(r1.system, failing, true, second);
    var r2 := TryOnce(r1.system, failing, true, second);
    var es1 := TryIsARun(s, failing, !present, first);
    var es2 := TryIsARun(r1.system, failing, true, second);
    RunConcat(s, es1, es2);
    es := if r1.failure.Some? && r1.failure.value.isConnError then es1 + es2 else es1;
    if FallsBack(s, failing, present, first, second) {
      var s2 := Apply(r2.system, DeliverDegraded(failing));
      ApplyKeepsMemory(r2.system, DeliverDegraded(failing));
      assert s2.degradedRuns == s.degradedRuns + 1;
      StretchKeepsMemory(s2, fallback, 0);
      var es3 := StretchIsARun(s2, fallback, 0);
      es := es1 + es2 + [DeliverDegraded(failing)] + es3;
      hide Apply, Run, Stretch, TryOnce;
      RunOne(r2.system, DeliverDegraded(failing));
      RunConcat(s, es1 + es2, [DeliverDegraded(failing)]);
      RunConcat(s, es1 + es2 + [DeliverDegraded(failing)], es3);
    }
  }

  /** The invocation of a graph that does not raise runs to the end. */
  lemma {:induction false} StretchFinishes(s: System, script: Script, k: nat)
    requires MemoryOk(s) && s.memory != Idle && Consistent(s.memory.cfg)
    requires Stretch(s, script, k).1.None?
    ensures var s', f := Stretch(s, script, k).0, Finish(s.memory.cfg, s.world, script.oracle, k);
      && s'.world == f.world && s'.deaths == s.deaths
      && s'.checkpoint == (if s.memory.Checkpointed? then Some(f.cfg) else s.checkpoint)
    decreases Measure(s.memory.cfg, s.world)
  {
    if CanRun(s.memory) {
      var ans := script.oracle(k);
      NodeGoesOn(s, ans);
      assert Apply(s, RunNode(ans)).memory.Checkpointed? == s.memory.Checkpointed?;
      assert s.memory.Degraded? ==> Apply(s, RunNode(ans)).checkpoint == s.checkpoint;
      assert Apply(s, RunNode(ans)).deaths == s.deaths;
      NextKeepsConsistent(s.memory.cfg, s.world, ans);
      hide Apply, Next, Executed, Measure, MemoryOk, NodeInv, ResultsJustified;
      StretchFinishes(Apply(s, RunNode(ans)), script, k + 1);
    } else {
      if s.memory.cfg.node != End { ConsistentRuns(s.memory.cfg); }
    }
  }

  /** The checkpoint lookup and the nodes of an attempt whose failure was early left nothing behind. */
  lemma EarlyFailureChangesNothing(s: System, failing: Entry, mustOpen: bool, t: Try)
    requires MemoryOk(s) && TryOnce(s, failing, mustOpen, t).early
    ensures TryOnce(s, failing, mustOpen, t).system == s
  {
    hide Stretch;
  }

  /** A message reported complete on the durable path has its checkpoint at the end of the graph. */
  lemma CompletedReachesEnd(s: System, failing: Entry, present: bool, first: Try, second: Try, fallback: Script)
    requires MemoryOk(s) && s.memory == Idle && Handled(s, failing, present, first, second, fallback).1 == Completed
    ensures var s' := Handled(s, failing, present, first, second, fallback).0;
      s'.checkpoint.Some? && s'.checkpoint.value.node == End
  {
    TryKeepsMemory(s, failing, !present, first);
    var r1 := TryOnce(s, failing, !present, first);
    if r1.failure.None? {
      TryReachesEnd(s, failing, !present, first);
    } else {
      TryReachesEnd(r1.system, failing, true, second);
    }
    hide TryOnce, Stretch, MemoryOk;
  }

  lemma TryReachesEnd(s: System, failing: Entry, mustOpen: bool, t: Try)
    requires MemoryOk(s) && s.memory == Idle && TryOnce(s, failing, mustOpen, t).failure.None?
    ensures var s' := TryOnce(s, failing, mustOpen, t).system; s'.checkpoint.Some? && s'.checkpoint.value.node == End
  {
    ApplyKeepsMemory(s, Deliver(failing));
    var s1 := Apply(s, Deliver(failing));
    StretchFinishes(s1, t.script, 0);
    FinishKeepsPlan(s1.memory.cfg, s1.world, t.script.oracle, 0);
    hide Apply, Stretch, Finish, PlanFrom;
  }

  /**
   A message completed without checkpointer: the world is that of one whole fresh run
   for its own failing step, started where the first attempt had left off, and the checkpoint is as the first
   attempt left it, so a later delivery would resume there.
   */
  lemma FallbackIsAFreshRun(s: System, failing: Entry, present: bool, first: Try, second: Try, fallback: Script)
    requires MemoryOk(s) && s.memory == Idle && Handled(s, failing, present, first, second, fallback).1 == CompletedDegraded
    ensures FallsBack(s, failing, present, first, second) && Consistent(Initial(s.workflowId, failing))
    ensures var s1, s' := TryOnce(s, failing, !present, first).system, Handled(s, failing, present, first, second, fallback).0;
      && s'.world == Finish(Initial(s.workflowId, failing), s1.world, fallback.oracle, 0).world
      && s'.checkpoint == s1.checkpoint && s'.deaths == s1.deaths
  {
    TryKeepsMemory(s, failing, !present, first);
    var r1 := TryOnce(s, failing, !present, first);
    EarlyFailureChangesNothing(r1.system, failing, true, second);
    var es := TryIsARun(s, failing, !present, first);
    RunKeepsSubject(s, es);
    InitialConsistent(s.workflowId, failing);
    ApplyKeepsMemory(r1.system, DeliverDegraded(failing));
    StretchFinishes(Apply(r1.system, DeliverDegraded(failing)), fallback, 0);
    hide Stretch, Finish, Run, MemoryOk;
  }

  lemma {:induction false} DegradedStretchKeepsRecord(s: System, script: Script, k: nat)
    requires MemoryOk(s) && s.memory.Degraded?
    ensures var s' := Stretch(s, script, k).0; s'.checkpoint == s.checkpoint && s'.lostPosts == s.lostPosts
    decreases Measure(s.memory.cfg, s.world)
  {
    hide MemoryOk, Measure, Next, Executed, Effects, Partly, PostedBy, DeadBy, Attempted, Runnable;
    if CanRun(s.memory) {
      NodeGoesOn(s, script.oracle(k));
      if !(script.fault.Some? && script.fault.value.after == k) {
        DegradedStretchKeepsRecord(Apply(s, RunNode(script.oracle(k))), script, k + 1);
      }
    }
  }

  /**
   When the fallback is safe, by what can be seen before it starts: if no run ignored the
   checkpoint before, and the first attempt left none or one that stands before the first
   `attempt_refund`, then nothing has been POSTed, and with the fallback, however it ends,
   each step is POSTed at most once.
   */
  lemma FallbackBeforeFirstAttemptIsSafe(wid: string, w: World, es: seq<Event>, d: Delivery, id: string)
    requires var s := Run(SagaRecovery.Fresh(wid, w), es);
      && MemoryOk(s) && s.memory == Idle && s.degradedRuns == 0
      && FallsBack(s, d.failing, d.present, d.first, d.second)
      && BeforeFirstAttempt(TryOnce(s, d.failing, !d.present, d.first).system.checkpoint)
      && DistinctIds(Handled(s, d.failing, d.present, d.first, d.second, d.fallback).0.world.ledger)
    ensures var s := Run(SagaRecovery.Fresh(wid, w), es);
      && Posts(TryOnce(s, d.failing, !d.present, d.first).system.world, id) == Posts(w, id)
      && Posts(Handled(s, d.failing, d.present, d.first, d.second, d.fallback).0.world, id) <= Posts(w, id) + 1
  {
    hide Apply, Run, Stretch, TryOnce, MemoryOk, Posts, BeforeFirstAttempt, PostedResults, RecordedResults, DistinctIds;
    var s0 := SagaRecovery.Fresh(wid, w);
    var s := Run(s0, es);
    var es1 := TryIsARun(s, d.failing, !d.present, d.first);
    RunConcat(s0, es, es1);
    NothingPostedBeforeFirstAttempt(wid, w, es + es1, id);
    var more := HandledIsARun(s, d.failing, d.present, d.first, d.second, d.fallback);
    RunConcat(s0, es, more);
    EveryPostAccounted(wid, w, es + more, id);
    RunKeepsBounds(wid, w, es + more, id);
    FallbackKeepsRecord(s, d);
    IdleBounds(Run(s0, es + more), id);
    SameCheckpointSameResults(Run(s0, es + more), Run(s0, es + es1));
  }

  lemma IdleBounds(s: System, id: string)
    requires s.memory == Idle && Bounded(s, id)
    ensures s.degradedPosts[id] <= s.degradedRuns
  {}

  lemma SameCheckpointSameResults(s: System, t: System)
    requires s.checkpoint == t.checkpoint
    ensures RecordedResults(s) == RecordedResults(t)
  {}

  /** The fallback leaves the checkpoint, and what died attempts had posted, as the first attempt did. */
  lemma FallbackKeepsRecord(s: System, d: Delivery)
    requires MemoryOk(s) && s.memory == Idle && FallsBack(s, d.failing, d.present, d.first, d.second)
    ensures var s1, s' := TryOnce(s, d.failing, !d.present, d.first).system, Handled(s, d.failing, d.present, d.first, d.second, d.fallback).0;
      s'.checkpoint == s1.checkpoint && s'.lostPosts == s1.lostPosts && s'.degradedRuns == s1.degradedRuns + 1
  {
    TryKeepsMemory(s, d.failing, !d.present, d.first);
    var s1 := TryOnce(s, d.failing, !d.present, d.first).system;
    EarlyFailureChangesNothing(s1, d.failing, true, d.second);
    ApplyKeepsMemory(s1, DeliverDegraded(d.failing));
    var s2 := Apply(s1, DeliverDegraded(d.failing));
    assert s2.memory.Degraded? && s2.checkpoint == s1.checkpoint && s2.lostPosts == s1.lostPosts && s2.degradedRuns == s1.degradedRuns + 1;
    DegradedStretchKeepsRecord(s2, d.fallback, 0);
    var es := StretchIsARun(s2, d.fallback, 0);
  }

  /** One delivery of a message of the workflow, with the failing step it brings. */
  datatype Delivery = Delivery(failing: Entry, present: bool, first: Try, second: Try, fallback: Script)

  ghost function AfterAll(wid: string, w: World, ds: seq<Delivery>): (s: System)
    ensures MemoryOk(s) && s.memory == Idle
  {
    if ds == [] then
      RunKeepsMemory(wid, w, []);
      SagaRecovery.Fresh(wid, w)
    else
      var s, d := AfterAll(wid, w, ds[..|ds| - 1]), ds[|ds| - 1];
      DeliveryKeepsMemory(s, d);
      Handled(s, d.failing, d.present, d.first, d.second, d.fallback).0
  }

  lemma DeliveryKeepsMemory(s: System, d: Delivery)
    requires MemoryOk(s) && s.memory == Idle
    ensures var s' := Handled(s, d.failing, d.present, d.first, d.second, d.fallback).0; MemoryOk(s') && s'.memory == Idle
  {
    var es := HandledIsARun(s, d.failing, d.present, d.first, d.second, d.fallback);
  }

  /** How many of the deliveries fell back. */
  ghost function Fallbacks(wid: string, w: World, ds: seq<Delivery>): nat {
    if ds == [] then 0
    else
      var d := ds[|ds| - 1];
      Fallbacks(wid, w, ds[..|ds| - 1])
        + if FallsBack(AfterAll(wid, w, ds[..|ds| - 1]), d.failing, d.present, d.first, d.second) then 1 else 0
  }

  lemma {:induction false} DeliveriesAreARun(wid: string, w: World, ds: seq<Delivery>) returns (es: seq<Event>)
    ensures Run(SagaRecovery.Fresh(wid, w), es) == AfterAll(wid, w, ds)
    ensures AfterAll(wid, w, ds).degradedRuns == Fallbacks(wid, w, ds)
  {
    es := [];
    if ds != [] {
      var init, d := ds[..|ds| - 1], ds[|ds| - 1];
      var before := DeliveriesAreARun(wid, w, init);
      hide Handled, FallsBack, Run, MemoryOk;
      var more := HandledIsARun(AfterAll(wid, w, init), d.failing, d.present, d.first, d.second, d.fallback);
      RunConcat(SagaRecovery.Fresh(wid, w), before, more);
      es := before + more;
    }
  }

  /**
   At most once for the worker, its deliveries handled one after the other: however many
   there are, whatever failing steps they bring and whatever raises, a step is POSTed at most once, plus once for each exception inside
   `attempt_refund` on it, plus once for each delivery that fell back.
   */
  lemma DeliveriesPostAtMostOnce(wid: string, w: World, ds: seq<Delivery>, id: string)
    requires DistinctIds(AfterAll(wid, w, ds).world.ledger)
    ensures var s := AfterAll(wid, w, ds);
      Posts(s.world, id) <= Posts(w, id) + 1 + s.deaths[id] + Fallbacks(wid, w, ds)
  {
    var es := DeliveriesAreARun(wid, w, ds);
    hide AfterAll, Fallbacks, Run, Posts;
    PostedAtMostOncePlusDeaths(wid, w, es, id);
  }

  // ---- the fallback does repeat refunds ----

  lemma {:induction false} FinishCounts(cfg: Cfg, w: World, oracle: nat -> Answer, k: nat)
    requires Consistent(cfg)
    ensures Finish(cfg, w, oracle, k).executed >= k
    ensures Finish(cfg, w, oracle, k).executed == k <==> cfg.node == End
    decreases Measure(cfg, w)
  {
    hide Next, Executed, Effects, Measure, NodeInv, ResultsJustified;
    if cfg.node != End {
      ConsistentRuns(cfg);
      NextKeepsConsistent(cfg, w, oracle(k));
      MeasureDecreases(cfg, w, Executed(cfg, w, oracle(k)), oracle(k));
      FinishCounts(Next(cfg, w, oracle(k)), Executed(cfg, w, oracle(k)), oracle, k + 1);
    }
  }

  lemma LastNodeHasNoEffect(cfg: Cfg, w: World, ans: Answer)
    requires Runnable(cfg) && Next(cfg, w, ans).node == End
    ensures Executed(cfg, w, ans) == w
  {
    hide AttemptPlan;
  }

  /** A run that raises right before its last node has already had all its effects. */
  lemma {:induction false} RaisingBeforeTheLastNode(s: System, script: Script, k: nat)
    requires MemoryOk(s) && s.memory != Idle && Consistent(s.memory.cfg) && s.memory.cfg.node != End
    requires script.fault.Some? && script.fault.value.inside.None?
    requires script.fault.value.after == Finish(s.memory.cfg, s.world, script.oracle, k).executed - 1
    ensures Stretch(s, script, k) == (Stretch(s, script, k).0, Some(script.fault.value.failure))
    ensures Stretch(s, script, k).0.world == Finish(s.memory.cfg, s.world, script.oracle, k).world
    ensures Stretch(s, script, k).0.deaths == s.deaths
    decreases Measure(s.memory.cfg, s.world)
  {
    hide Next, Executed, Effects, Measure, NodeInv, ResultsJustified, MemoryOk, PostedBy, DeadBy, Partly, Runnable;
    var cfg, ans := s.memory.cfg, script.oracle(k);
    ConsistentRuns(cfg);
    NextKeepsConsistent(cfg, s.world, ans);
    NodeGoesOn(s, ans);
    FinishCounts(Next(cfg, s.world, ans), Executed(cfg, s.world, ans), script.oracle, k + 1);
    if script.fault.value.after == k {
      LastNodeHasNoEffect(cfg, s.world, ans);
    } else {
      RaisingBeforeTheLastNode(Apply(s, RunNode(ans)), script, k + 1);
    }
  }

  /** A delivery whose first attempt loses the checkpointer before its last node, and whose second cannot read it. */
  ghost function LateLoss(wid: string, failing: Entry, w: World): Delivery
    requires Consistent(Initial(wid, failing))
  {
    var n := Finish(Initial(wid, failing), w, Generous(), 0).executed;
    FinishCounts(Initial(wid, failing), w, Generous(), 0);
    Delivery(failing, true,
             Try(None, None, Script(Generous(), Some(Break(n - 1, None, Failure(true))))),
             Try(None, Some(Failure(true)), Script(Generous(), None)),
             Script(Generous(), None))
  }

  /** The first attempt of that delivery: all of the run's effects, then a connection error. */
  lemma LateLossFirst(wid: string, failing: Entry, w: World)
    requires Consistent(Initial(wid, failing)) && MemoryOk(SagaRecovery.Fresh(wid, w))
    ensures var r := TryOnce(SagaRecovery.Fresh(wid, w), failing, false, LateLoss(wid, failing, w).first);
      && r.failure == Some(Failure(true)) && MemoryOk(r.system)
      && r.system.world == Finish(Initial(wid, failing), w, Generous(), 0).world && r.system.deaths == multiset{}
  {
    var s0 := SagaRecovery.Fresh(wid, w);
    ApplyKeepsMemory(s0, Deliver(failing));
    var s1 := Apply(s0, Deliver(failing));
    assert s1.memory == Checkpointed(Initial(wid, failing)) && s1.world == w && s1.deaths == multiset{};
    hide Apply, MemoryOk;
    TryKeepsMemory(s0, failing, false, LateLoss(wid, failing, w).first);
    RaisingBeforeTheLastNode(s1, LateLoss(wid, failing, w).first.script, 0);
  }

  /** The whole delivery: two complete runs, one after the other. */
  lemma LateLossRunsTwice(wid: string, failing: Entry, w: World)
    requires Consistent(Initial(wid, failing)) && MemoryOk(SagaRecovery.Fresh(wid, w))
    ensures var d := LateLoss(wid, failing, w);
      var s0 := SagaRecovery.Fresh(wid, w);
      var c0 := Initial(wid, failing);
      var s := Handled(s0, d.failing, d.present, d.first, d.second, d.fallback).0;
      && FallsBack(s0, d.failing, d.present, d.first, d.second) && s.deaths == multiset{}
      && s.world == Finish(c0, Finish(c0, w, Generous(), 0).world, Generous(), 0).world
  {
    var d, s0 := LateLoss(wid, failing, w), SagaRecovery.Fresh(wid, w);
    LateLossFirst(wid, failing, w);
    var s1 := TryOnce(s0, d.failing, false, d.first).system;
    assert TryOnce(s1, d.failing, true, d.second) == Tried(s1, Some(Failure(true)), true);
    DegradedFinishes(s1, failing, d.fallback);
    hide TryOnce, Stretch, Finish, MemoryOk, Apply;
    FallbackIsAFreshRun(s0, d.failing, d.present, d.first, d.second, d.fallback);
  }

  /** A degraded invocation without a fault does not raise. */
  lemma DegradedFinishes(s: System, failing: Entry, script: Script)
    requires MemoryOk(s) && script.fault.None?
    ensures MemoryOk(Apply(s, DeliverDegraded(failing))) && Stretch(Apply(s, DeliverDegraded(failing)), script, 0).1.None?
  {
    ApplyKeepsMemory(s, DeliverDegraded(failing));
    NoFaultNoFailure(Apply(s, DeliverDegraded(failing)), script, 0);
  }

  lemma {:induction false} NoFaultNoFailure(s: System, script: Script, k: nat)
    requires MemoryOk(s) && script.fault.None?
    ensures Stretch(s, script, k).1.None?
    decreases if CanRun(s.memory) then Measure(s.memory.cfg, s.world) + 1 else 0
  {
    if CanRun(s.memory) {
      NodeGoesOn(s, script.oracle(k));
      hide Apply, MemoryOk, Measure;
      NoFaultNoFailure(Apply(s, RunNode(script.oracle(k))), script, k + 1);
    }
  }

  /**
   "No refund has been attempted yet" is not so: whatever there is to undo, one
   delivery can POST every step of it that is at a reachable merchant a second time,
   without any exception inside a node.
   */
  lemma FallbackRepeatsRefunds(wid: string, failing: Entry, w: World, i: nat)
    requires i < |PlanFrom(w.ledger, InitialState(wid, failing))|
    requires Reachable(w.breakers, PlanFrom(w.ledger, InitialState(wid, failing))[i].merchant)
    ensures Consistent(Initial(wid, failing))
    ensures
      var d := LateLoss(wid, failing, w);
      var s := AfterAll(wid, w, [d]);
      var id := PlanFrom(w.ledger, InitialState(wid, failing))[i].stepId;
      Posts(s.world, id) >= Posts(w, id) + 2 && s.deaths == multiset{} && Fallbacks(wid, w, [d]) == 1
  {
    InitialConsistent(wid, failing);
    var c0, d := Initial(wid, failing), LateLoss(wid, failing, w);
    var f := Finish(c0, w, Generous(), 0);
    FreshMemory(wid, w);
    LateLossRunsTwice(wid, failing, w);
    LoneDelivery(wid, w, d);
    GenerousFinishReachesAll(c0, w, Generous(), 0, w.breakers);
    GenerousRunPosts(wid, failing, w, i);
    GenerousRunPosts(wid, failing, f.world, i);
    hide Handled, FallsBack, Finish, AfterAll, Fallbacks, MemoryOk, NodeInv, ResultsJustified, PlanFrom, Posts, LateLoss;
  }

  lemma FreshMemory(wid: string, w: World)
    ensures MemoryOk(SagaRecovery.Fresh(wid, w))
  {}

  lemma LoneDelivery(wid: string, w: World, d: Delivery)
    requires MemoryOk(SagaRecovery.Fresh(wid, w))
    ensures var s0 := SagaRecovery.Fresh(wid, w);
      && AfterAll(wid, w, [d]) == Handled(s0, d.failing, d.present, d.first, d.second, d.fallback).0
      && Fallbacks(wid, w, [d]) == if FallsBack(s0, d.failing, d.present, d.first, d.second) then 1 else 0
  {
    assert [d][..0] == [];
  }
}
