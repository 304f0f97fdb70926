/**
 Crash and resume as a refinement: a run of the checkpointed saga that is interrupted
 between nodes, or inside a node before its first effect, any number of times, is the
 uninterrupted run.
 */
module SagaResume {
  import opened Wrappers
  import opened Schemas
  import opened Tables
  import opened Saga
  import opened SagaLaws
  import opened SagaRecovery

  /** A start, a node, a stop, or a death before the node had any effect. */
  predicate Harmless(s: System, e: Event) {
    match e
    case Deliver(_) => true
    case RunNode(_) => true
    case Stop => true
    case DieInside(_, k) => k == 0 || (CanRun(s.memory) && s.memory.cfg.node != AttemptRefund)
    case _ => false
  }

  ghost predicate AllHarmless(s: System, es: seq<Event>) {
    forall k :: 0 <= k < |es| ==> Harmless(Run(s, es[..k]), es[k])
  }

  /** The answers of the nodes that ran to their end, in order: what survives of a run. */
  function Survivors(s: System, es: seq<Event>): seq<Answer> {
    if es == [] then []
    else
      var init, e := es[..|es| - 1], es[|es| - 1];
      Survivors(s, init) + if e.RunNode? && CanRun(Run(s, init).memory) then [e.ans] else []
  }

  /** An uninterrupted run that would be given the same answers. */
  ghost predicate Agrees(oracle: nat -> Answer, answers: seq<Answer>) {
    forall k :: 0 <= k < |answers| ==> oracle(k) == answers[k]
  }

  /** Finishing from the checkpoint is finishing from the start, for the failing step it was created for. */
  ghost predicate OnCourse(s: System, w: World, oracle: nat -> Answer, n: nat)
    requires MemoryOk(s)
  {
    && !s.memory.Degraded?
    && (s.memory.Checkpointed? ==> s.checkpoint.Some?)
    && match s.checkpoint
       case None => s.world == w && n == 0
       case Some(cfg) =>
         && Consistent(Initial(s.workflowId, cfg.st.failing))
         && Finish(cfg, s.world, oracle, n) == Finish(Initial(s.workflowId, cfg.st.failing), w, oracle, 0)
  }

  /** A death before any effect leaves the world as it was. */
  lemma HarmlessDeathChangesNothing(s: System, ans: Answer, k: nat)
    requires CanRun(s.memory) && Harmless(s, DieInside(ans, k))
    ensures Apply(s, DieInside(ans, k)).world == s.world && Apply(s, DieInside(ans, k)).checkpoint == s.checkpoint
    ensures Apply(s, DieInside(ans, k)).memory == Idle
  {
    hide AttemptPlan, PostedBy, DeadBy, Attempted;
  }

  lemma NodeStaysOnCourse(s: System, w: World, oracle: nat -> Answer, n: nat)
    requires MemoryOk(s) && OnCourse(s, w, oracle, n) && CanRun(s.memory)
    ensures MemoryOk(Apply(s, RunNode(oracle(n))))
    ensures OnCourse(Apply(s, RunNode(oracle(n))), w, oracle, n + 1)
  {
    ApplyKeepsMemory(s, RunNode(oracle(n)));
    NextKeepsHistory(s.memory.cfg, s.world, oracle(n));
    hide AttemptPlan, Next, Effects, Executed, PostedBy, DeadBy, NodeInv, ResultsJustified;
  }

  lemma OtherEventsStayOnCourse(s: System, e: Event, w: World, oracle: nat -> Answer, n: nat)
    requires MemoryOk(s) && OnCourse(s, w, oracle, n) && Harmless(s, e) && !(e.RunNode? && CanRun(s.memory))
    ensures MemoryOk(Apply(s, e)) && OnCourse(Apply(s, e), w, oracle, n)
  {
    ApplyKeepsMemory(s, e);
    if e.Deliver? { InitialConsistent(s.workflowId, e.failing); }
    if e.DieInside? && CanRun(s.memory) { HarmlessDeathChangesNothing(s, e.ans, e.k); }
    hide AttemptPlan, Next, Effects, Executed, Partly, PostedBy, DeadBy, NodeInv, ResultsJustified, Finish, MemoryOk;
  }

  lemma FreshIsOnCourse(wid: string, w: World, oracle: nat -> Answer)
    ensures MemoryOk(Fresh(wid, w)) && OnCourse(Fresh(wid, w), w, oracle, 0)
  {}

  lemma ApplyKeepsSubject(s: System, e: Event)
    ensures Apply(s, e).workflowId == s.workflowId
  {
    hide CanRun, Next, Executed, Partly, PostedBy, DeadBy, Effects, Attempted, ApplyEffect, Runnable;
  }

  lemma {:induction false} RunKeepsSubject(s: System, es: seq<Event>)
    ensures Run(s, es).workflowId == s.workflowId
  {
    hide Apply;
    if es != [] {
      RunKeepsSubject(s, es[..|es| - 1]);
      ApplyKeepsSubject(Run(s, es[..|es| - 1]), es[|es| - 1]);
    }
  }

  /** Dropping the last event. */
  lemma InitOfHarmless(s: System, es: seq<Event>, oracle: nat -> Answer)
    requires es != [] && AllHarmless(s, es) && Agrees(oracle, Survivors(s, es))
    ensures var init, e := es[..|es| - 1], es[|es| - 1];
      && AllHarmless(s, init) && Agrees(oracle, Survivors(s, init)) && Harmless(Run(s, init), e)
      && (if e.RunNode? && CanRun(Run(s, init).memory) then
            |Survivors(s, es)| == |Survivors(s, init)| + 1 && oracle(|Survivors(s, init)|) == e.ans
          else Survivors(s, es) == Survivors(s, init))
  {
    hide Run, CanRun, Harmless;
    var init := es[..|es| - 1];
    assert forall k :: 0 <= k < |init| ==> init[k] == es[k] && init[..k] == es[..k];
    forall k | 0 <= k < |Survivors(s, init)| ensures oracle(k) == Survivors(s, init)[k] {
      assert Survivors(s, es)[k] == Survivors(s, init)[k];
    }
  }

  /** At every moment of an interrupted run, what is left to do leads where the uninterrupted run leads. */
  lemma {:induction false} AlwaysOnCourse(wid: string, w: World, es: seq<Event>, oracle: nat -> Answer)
    requires AllHarmless(Fresh(wid, w), es) && Agrees(oracle, Survivors(Fresh(wid, w), es))
    ensures var s := Run(Fresh(wid, w), es);
      MemoryOk(s) && OnCourse(s, w, oracle, |Survivors(Fresh(wid, w), es)|)
  {
    hide MemoryOk, OnCourse, Apply, CanRun, Harmless, AllHarmless, Agrees, Survivors;
    var s0 := Fresh(wid, w);
    if es == [] {
      FreshIsOnCourse(wid, w, oracle);
      assert |Survivors(s0, [])| == 0 by { NothingSurvives(s0); }
    } else {
      var init, e := es[..|es| - 1], es[|es| - 1];
      var s, n := Run(s0, init), |Survivors(s0, init)|;
      InitOfHarmless(s0, es, oracle);
      AlwaysOnCourse(wid, w, init, oracle);
      if e.RunNode? && CanRun(s.memory) {
        NodeStaysOnCourse(s, w, oracle, n);
      } else {
        OtherEventsStayOnCourse(s, e, w, oracle, n);
      }
    }
  }

  lemma NothingSurvives(s: System)
    ensures Survivors(s, []) == []
  {}

  /**
   Crash-resume refinement: however often the run is interrupted, and whichever messages
   start it again, once its checkpoint is at the end, final state and world, refund POSTs,
   dead letters, breakers and ledger included, are those of the uninterrupted run for the
   failing step the checkpoint was created for, and no node ran to its end more often
   than there.
   */
  lemma ResumedRunIsUninterruptedRun(wid: string, w: World, es: seq<Event>, oracle: nat -> Answer)
    requires AllHarmless(Fresh(wid, w), es) && Agrees(oracle, Survivors(Fresh(wid, w), es))
    requires var s := Run(Fresh(wid, w), es); s.checkpoint.Some? && s.checkpoint.value.node == End
    ensures var s := Run(Fresh(wid, w), es);
      var failing := s.checkpoint.value.st.failing;
      && Consistent(Initial(wid, failing))
      && Finish(Initial(wid, failing), w, oracle, 0) == Final(s.checkpoint.value, s.world, |Survivors(Fresh(wid, w), es)|)
  {
    AlwaysOnCourse(wid, w, es, oracle);
    RunKeepsSubject(Fresh(wid, w), es);
    hide Run, Survivors, AllHarmless, Agrees;
  }

  // ---- the same with other workflows at work ----

  ghost predicate AllHarmlessAmid(s: System, es: seq<Event>) {
    forall k :: 0 <= k < |es| ==> es[k].Outside? || Harmless(Run(s, es[..k]), es[k])
  }

  /** The first start, then only the nodes that ran to their end and what happened elsewhere, in the same order. */
  function Uninterrupted(s: System, es: seq<Event>): seq<Event> {
    if es == [] then []
    else
      var init, e := es[..|es| - 1], es[|es| - 1];
      Uninterrupted(s, init) + if Kept(Run(s, init), e) then [e] else []
  }

  predicate Kept(s: System, e: Event) {
    || e.Outside?
    || (e.RunNode? && CanRun(s.memory))
    || (e.Deliver? && s.checkpoint.None? && s.memory == Idle)
  }

  /** `t` never stopped since it was started; `s` stands where `t` does. */
  ghost predicate InStep(s: System, t: System) {
    && s.world == t.world && s.workflowId == t.workflowId && s.checkpoint == t.checkpoint
    && t.memory == (if t.checkpoint.Some? then Checkpointed(t.checkpoint.value) else Idle)
    && (s.memory == Idle || s.memory == t.memory)
  }

  lemma SharedEventKeepsStep(s: System, t: System, e: Event)
    requires InStep(s, t) && Kept(s, e)
    ensures InStep(Apply(s, e), Apply(t, e))
  {
    hide Next, Executed, Effects, PostedBy, DeadBy, Partly, Attempted, ApplyEffect, Runnable;
  }

  lemma DroppedEventKeepsStep(s: System, t: System, e: Event)
    requires InStep(s, t) && Harmless(s, e) && !Kept(s, e)
    ensures InStep(Apply(s, e), t)
  {
    if e.DieInside? && CanRun(s.memory) { HarmlessDeathChangesNothing(s, e.ans, e.k); }
    hide Next, Executed, Effects, PostedBy, DeadBy, Partly, Attempted, ApplyEffect, Runnable;
  }

  lemma RunSnoc(s: System, es: seq<Event>, e: Event)
    ensures Run(s, es + [e]) == Apply(Run(s, es), e)
  {
    assert (es + [e])[..|es|] == es;
  }

  /**
   Interruptions are invisible while other workflows go on: the world and the checkpoint
   of an interrupted run are, at every moment, those of the run that was started once,
   never stopped, and saw the same answers and the same events from elsewhere.
   */
  lemma {:induction false} InterruptionsAreInvisible(wid: string, w: World, es: seq<Event>)
    requires AllHarmlessAmid(Fresh(wid, w), es)
    ensures var s0 := Fresh(wid, w); InStep(Run(s0, es), Run(s0, Uninterrupted(s0, es)))
  {
    var s0 := Fresh(wid, w);
    if es != [] {
      var init, e := es[..|es| - 1], es[|es| - 1];
      assert forall k :: 0 <= k < |init| ==> init[k] == es[k] && init[..k] == es[..k];
      hide Apply, InStep, Harmless, Kept;
      InterruptionsAreInvisible(wid, w, init);
      var s, t := Run(s0, init), Run(s0, Uninterrupted(s0, init));
      if Kept(s, e) {
        SharedEventKeepsStep(s, t, e);
        RunSnoc(s0, Uninterrupted(s0, init), e);
      } else {
        DroppedEventKeepsStep(s, t, e);
        assert Uninterrupted(s0, init) + [] == Uninterrupted(s0, init);
      }
    }
  }
}
