/**
 The saga's laws stated over every run of the crash model of one invocation at a time, and
 for the failing steps that `/pay` publishes: the parts put together.
 */
module SagaRuns {
  import opened Wrappers
  import opened Schemas
  import opened Tables
  import opened Saga
  import opened SagaAnswers
  import opened SagaLaws
  import opened SagaRecovery
  import opened SagaResume
  import FaultClassifier
  import Proxy

  /**
   In every run, whatever dies: once the plan is loaded, decided steps, step in flight
   and steps left are, in order, the settled steps of the ledger as it was loaded, the
   failing one excepted; at the end each has exactly one outcome.
   */
  lemma EveryRunConservesSteps(wid: string, w: World, es: seq<Event>)
    requires var s := Run(Fresh(wid, w), es); s.checkpoint.Some? && s.checkpoint.value.node != LoadLog
    ensures var s := Run(Fresh(wid, w), es);
      var cfg := s.checkpoint.value;
      && cfg.loadedAt <= |s.world.ledger|
      && cfg.plan == UndoList(StepsOf(s.world.ledger[..cfg.loadedAt], wid), cfg.st.failing.stepId)
      && ResultIds(cfg.st.results) + InFlightIds(cfg) + Ids(cfg.st.toUndo) == Ids(cfg.plan)
      && (cfg.node == End ==> ResultIds(cfg.st.results) == Ids(cfg.plan))
  {
    RunKeepsMemory(wid, w, es);
    RunKeepsSubject(Fresh(wid, w), es);
    StepsAreConserved(Run(Fresh(wid, w), es).checkpoint.value);
    hide Run, Consistent, UndoList, StepsOf, Ids, ResultIds, InFlightIds;
  }

  /**
   In every run, the liability report that is written partitions the money of the undone
   steps, and its impact is the settled total of those whose refund no merchant accepted.
   */
  lemma EveryRunPartitionsMoney(wid: string, w: World, es: seq<Event>, ans: Answer)
    requires var s := Run(Fresh(wid, w), es);
      && s.memory.Checkpointed? && CanRun(s.memory) && s.memory.cfg.node == LiabilityNode && DistinctIds(s.world.ledger)
    ensures var cfg := Run(Fresh(wid, w), es).memory.cfg;
      var done := Apply(Run(Fresh(wid, w), es), RunNode(ans)).checkpoint;
      && done.Some? && done.value.plan == cfg.plan && |done.value.st.results| == |cfg.plan| && done.value.st.liability.Some?
      && SettledTotal(cfg.plan, |cfg.plan|) ==
           RefundedTotal(cfg.plan, done.value.st.results, |cfg.plan|) + done.value.st.liability.value.financialImpact
      && |done.value.heard| == |cfg.plan|
      && done.value.st.liability.value.financialImpact == UnacceptedTotal(cfg.plan, done.value.heard, |cfg.plan|)
  {
    RunKeepsMemory(wid, w, es);
    var s := Run(Fresh(wid, w), es);
    LiabilityPartitionsMoney(s.memory.cfg, s.world, ans);
    ImpactIsUnaccepted(s.memory.cfg, s.world, ans);
    hide Run, SettledTotal, RefundedTotal, UnacceptedTotal, DistinctIds, PlanFrom;
  }

  /**
   In every run each decided step's outcome follows from its answers: it is refunded if and
   only if its request was sent and the merchant's reply is a 200 that accepts it, the policy
   decides whether it is sent, and the recovered total is what is due over the accepted
   refunds.
   */
  lemma EveryRunFollowsAnswers(wid: string, w: World, es: seq<Event>)
    requires Run(Fresh(wid, w), es).checkpoint.Some?
    ensures var cfg := Run(Fresh(wid, w), es).checkpoint.value;
      var n := |cfg.st.results|;
      && |cfg.heard| == n <= |cfg.plan|
      && (forall i :: 0 <= i < n ==> Follows(cfg.plan[i], cfg.heard[i], cfg.st.results[i]))
      && RecoveredTotal(cfg.st.results, n) == AcceptedDue(cfg.plan, cfg.heard, n)
  {
    RunKeepsMemory(wid, w, es);
    var cfg := Run(Fresh(wid, w), es).checkpoint.value;
    RecoveredIsAcceptedDue(cfg, |cfg.st.results|);
    hide Run, RecoveredTotal, AcceptedDue, NodeInv, NowHeeded, Justified, Follows;
  }

  /** In every run, what was recovered is within half a paisa per refunded step of the exact policy refunds. */
  lemma EveryRunRecoversToHalfPaisaEach(wid: string, w: World, es: seq<Event>)
    requires Run(Fresh(wid, w), es).checkpoint.Some?
    ensures var cfg := Run(Fresh(wid, w), es).checkpoint.value;
      var n := |cfg.st.results|;
      && n <= |cfg.plan| && n <= |cfg.basis|
      && (var d := RecoveredTotal(cfg.st.results, n) - ExactTotal(cfg.plan, cfg.basis, cfg.st.results, n);
          var slack := RefundedCount(cfg.st.results, n) as real * 0.005;
          -slack <= d <= slack)
  {
    RunKeepsMemory(wid, w, es);
    var cfg := Run(Fresh(wid, w), es).checkpoint.value;
    RecoveredIsExactToHalfPaisaEach(cfg, |cfg.st.results|);
    hide Run, RecoveredTotal, ExactTotal, RefundedCount, NodeInv;
  }

  lemma FinishedStepIsFinal(s: System, e: Event, id: string)
    requires MemoryOk(s) && !s.memory.Degraded? && s.checkpoint.Some? && s.checkpoint.value.node == End && !e.DeliverDegraded?
    ensures var s' := Apply(s, e);
      && MemoryOk(s') && !s'.memory.Degraded? && s'.checkpoint == s.checkpoint
      && Posts(s'.world, id) == Posts(s.world, id) && DeadLetters(s'.world, id) == DeadLetters(s.world, id)
  {
    ApplyKeepsMemory(s, e);
    if e.Outside? && !e.e.PostRefund? && !e.e.QueueDead? { OutsidePostsNothing(s.world, e.e, id); }
    hide MemoryOk, Posts, DeadLetters, Next, Executed, Partly, PostedBy, DeadBy, Effects, Attempted, ApplyEffect;
  }

  /**
   One saga per workflow: once the checkpoint is at the end, no further delivery for the
   workflow decides, POSTs or dead-letters anything, whatever has been settled since;
   only a run without checkpointer could.
   */
  lemma {:induction false} FinishedSagaIsFinal(s: System, es: seq<Event>, id: string)
    requires MemoryOk(s) && !s.memory.Degraded? && s.checkpoint.Some? && s.checkpoint.value.node == End
    requires forall k :: 0 <= k < |es| ==> !es[k].DeliverDegraded?
    ensures var s' := Run(s, es);
      && MemoryOk(s') && !s'.memory.Degraded? && s'.checkpoint == s.checkpoint
      && Posts(s'.world, id) == Posts(s.world, id) && DeadLetters(s'.world, id) == DeadLetters(s.world, id)
  {
    hide MemoryOk, Posts, DeadLetters, Apply;
    if es != [] {
      assert forall k :: 0 <= k < |es| - 1 ==> es[..|es| - 1][k] == es[k];
      FinishedSagaIsFinal(s, es[..|es| - 1], id);
      FinishedStepIsFinal(Run(s, es[..|es| - 1]), es[|es| - 1], id);
    }
  }

  // ---- the failing steps /pay publishes ----

  /** What `/pay` publishes is a refused mandate: a 403, recorded as failed. */
  ghost predicate IsMandateRefusal(e: Entry) {
    e.raw == RawResponse(Some(403), MandateLimitExceeded) && e.actual.status == Failed && e.action == Payment
  }

  lemma RequestPublishesRefusals(s: Proxy.State, req: Proxy.PayRequest, ans: Proxy.Answers)
    ensures var s' := Proxy.Paid(s, req, ans).0;
      && s.ledger <= s'.ledger
      && (s'.compensations == s.compensations
          || (s'.compensations == s.compensations + [Proxy.MandateRefusal(req, ans.stepId)]
              && s'.ledger == s.ledger + [Proxy.MandateRefusal(req, ans.stepId)]))
  {
    hide Proxy.ChargeOf, Proxy.ReplyBody, Proxy.HeldRows, Proxy.SettleBudget, Proxy.A.Decide, Proxy.PaymentEntry, SaveResponse;
  }

  lemma {:induction false} PublishedAreRefusals(acts: seq<Proxy.Act>, e: Entry)
    requires e in Proxy.History(Proxy.START, acts).compensations
    ensures IsMandateRefusal(e) && e in Proxy.History(Proxy.START, acts).ledger
  {
    if acts != [] {
      var s, act := Proxy.History(Proxy.START, acts[..|acts| - 1]), acts[|acts| - 1];
      if act.Request? { RequestPublishesRefusals(s, act.req, act.ans); }
      hide Proxy.Paid;
      if e in s.compensations { PublishedAreRefusals(acts[..|acts| - 1], e); }
    }
  }

  lemma OneDeliveryAnswered(s: System, e: Event)
    requires MemoryOk(s)
    ensures var s' := Apply(s, e);
      s'.checkpoint.Some? ==>
        if s.checkpoint.Some? then s'.checkpoint.value.st.failing == s.checkpoint.value.st.failing
        else e == Deliver(s'.checkpoint.value.st.failing)
  {
    if e.RunNode? && CanRun(s.memory) { NextKeepsHistory(s.memory.cfg, s.world, e.ans); }
    hide Next, Executed, Effects, Partly, PostedBy, DeadBy, Attempted, ApplyEffect, Runnable, Sound;
  }

  /** The saga of a workflow is about one of the failing steps delivered, and about no other, ever. */
  lemma {:induction false} CheckpointAnswersADelivery(wid: string, w: World, es: seq<Event>)
    ensures var s := Run(Fresh(wid, w), es);
      s.checkpoint.Some? ==> exists k :: 0 <= k < |es| && es[k] == Deliver(s.checkpoint.value.st.failing)
  {
    hide Apply, MemoryOk;
    if es != [] {
      var init, e := es[..|es| - 1], es[|es| - 1];
      CheckpointAnswersADelivery(wid, w, init);
      RunKeepsMemory(wid, w, init);
      OneDeliveryAnswered(Run(Fresh(wid, w), init), e);
      assert forall k :: 0 <= k < |init| ==> init[k] == es[k];
    }
  }

  /** A saga run for a step that `/pay` published ends in a liability report, never in a dispute. */
  lemma PublishedSagaEndsInLiability(acts: seq<Proxy.Act>, e: Entry, w: World, oracle: nat -> Answer)
    requires e in Proxy.History(Proxy.START, acts).compensations
    ensures Consistent(Initial(e.workflowId, e))
    ensures var f := Finish(Initial(e.workflowId, e), w, oracle, 0); f.cfg.st.liability.Some? && f.cfg.st.udir.None?
  {
    hide Finish, Proxy.History, Consistent, FaultClassifier.ClassifyFault;
    PublishedAreRefusals(acts, e);
    RefusalIsAgentFault(e);
    SagaTerminates(e.workflowId, e, w, oracle);
  }

  /**
   The same with deaths, restarts and any number of messages: if every message delivered
   is one that `/pay` published, a checkpoint at the end holds a liability report and no
   dispute.
   */
  lemma PublishedSagasEndInLiability(acts: seq<Proxy.Act>, wid: string, w: World, es: seq<Event>)
    requires forall k :: 0 <= k < |es| && es[k].Deliver? ==> es[k].failing in Proxy.History(Proxy.START, acts).compensations
    ensures var s := Run(Fresh(wid, w), es);
      s.checkpoint.Some? && s.checkpoint.value.node == End ==>
        s.checkpoint.value.st.liability.Some? && s.checkpoint.value.st.udir.None?
  {
    hide Run, Proxy.History, Consistent, FaultClassifier.ClassifyFault;
    RunKeepsMemory(wid, w, es);
    CheckpointAnswersADelivery(wid, w, es);
    var s := Run(Fresh(wid, w), es);
    if s.checkpoint.Some? && s.checkpoint.value.node == End {
      PublishedAreRefusals(acts, s.checkpoint.value.st.failing);
      RefusalIsAgentFault(s.checkpoint.value.st.failing);
      EndFollowsFault(s.checkpoint.value);
    }
  }

  lemma RefusalIsAgentFault(e: Entry)
    requires IsMandateRefusal(e)
    ensures FaultClassifier.ClassifyFault(e.stepId, e.raw).fault == AgentFault
  {}

  lemma EndFollowsFault(cfg: Cfg)
    requires Consistent(cfg) && cfg.node == End
    ensures var fault := FaultClassifier.ClassifyFault(cfg.st.failing.stepId, cfg.st.failing.raw).fault;
      (cfg.st.udir.Some? <==> fault == NetworkFault) && (cfg.st.liability.Some? <==> fault == AgentFault)
  {}

  /**
   What is undone is exactly the settled rows of the workflow other than the failing step. The row's
   action is not looked at: the resolution row of a held payout that settled is undone
   like a payment.
   */
  lemma SettledRowsAreUndone(ledger: seq<Entry>, wid: string, failing: Entry, e: Entry)
    ensures e in PlanFrom(ledger, InitialState(wid, failing)) <==>
      e in ledger && e.workflowId == wid && e.stepId != failing.stepId && e.actual.status == Settled
  {
    UndoListMembers(StepsOf(ledger, wid), failing.stepId, e);
    StepsOfMembers(ledger, wid, e);
  }

  lemma {:induction false} FailingOutsideTheSettled(steps: seq<Entry>, f: string, g: string)
    requires forall e :: e in steps && e.actual.status == Settled ==> e.stepId != f && e.stepId != g
    ensures UndoList(steps, f) == UndoList(steps, g)
  {
    if steps != [] {
      assert steps[|steps| - 1] in steps;
      FailingOutsideTheSettled(steps[..|steps| - 1], f, g);
    }
  }

  lemma PublishedIsNotSettled(acts: seq<Proxy.Act>, ledger: seq<Entry>, f: Entry, e: Entry)
    requires f in Proxy.History(Proxy.START, acts).compensations
    requires Proxy.History(Proxy.START, acts).ledger <= ledger && DistinctIds(ledger) && e in ledger && e.actual.status == Settled
    ensures e.stepId != f.stepId
  {
    hide Proxy.History;
    PublishedAreRefusals(acts, f);
    var h := Proxy.History(Proxy.START, acts).ledger;
    var k :| 0 <= k < |h| && h[k] == f;
    assert ledger[k] == f;
  }

  /**
   Refusals of one workflow do not differ in what they have undone: whichever of the
   published messages comes first, the undo list is the same, and every settled row of the
   workflow is in it.
   */
  lemma PublishedShareTheUndoList(acts: seq<Proxy.Act>, ledger: seq<Entry>, wid: string, f: Entry, g: Entry)
    requires f in Proxy.History(Proxy.START, acts).compensations && g in Proxy.History(Proxy.START, acts).compensations
    requires Proxy.History(Proxy.START, acts).ledger <= ledger && DistinctIds(ledger)
    ensures PlanFrom(ledger, InitialState(wid, f)) == PlanFrom(ledger, InitialState(wid, g))
  {
    hide Proxy.History, DistinctIds;
    var steps := StepsOf(ledger, wid);
    forall e | e in steps && e.actual.status == Settled ensures e.stepId != f.stepId && e.stepId != g.stepId {
      StepsOfMembers(ledger, wid, e);
      PublishedIsNotSettled(acts, ledger, f, e);
      PublishedIsNotSettled(acts, ledger, g, e);
    }
    FailingOutsideTheSettled(steps, f.stepId, g.stepId);
  }

  lemma PublishedUndoesAllSettled(acts: seq<Proxy.Act>, ledger: seq<Entry>, wid: string, f: Entry, e: Entry)
    requires f in Proxy.History(Proxy.START, acts).compensations
    requires Proxy.History(Proxy.START, acts).ledger <= ledger && DistinctIds(ledger)
    ensures e in PlanFrom(ledger, InitialState(wid, f)) <==> e in ledger && e.workflowId == wid && e.actual.status == Settled
  {
    hide Proxy.History, DistinctIds;
    SettledRowsAreUndone(ledger, wid, f, e);
    if e in ledger && e.actual.status == Settled { PublishedIsNotSettled(acts, ledger, f, e); }
    hide PlanFrom;
  }
}
