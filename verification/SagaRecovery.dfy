/**
 The saga under crashes, with one invocation of the workflow at a time: `run_compensation`
 of compensating_agent/graph.py with its checkpoints, as compensating_agent/worker.py
 drives it when the workflow's messages are handled one after the other. The process may
 die between nodes or inside one, after any number of the node's effects, and is started
 again from the checkpoint. An uncheckpointed ("degraded") run may be started too. Other
 requests and sagas touch the ledger and the breakers at any time. Each message brings a
 failing step of its own; the checkpoint keeps that of the message it was created for. A
 delivery that begins while an invocation is at work is not an event here: `SagaOverlap`
 has those.
 */
module SagaRecovery {
  import opened Wrappers
  import opened Schemas
  import opened Tables
  import opened PolicyExtractor
  import opened Saga
  import opened SagaAnswers
  import opened SagaLaws

  datatype Memory = Idle | Checkpointed(cfg: Cfg) | Degraded(cfg: Cfg)

  /**
   `checkpoint` is durable, `memory` is not. The rest is history: the posts and dead
   letters of attempts that died before their checkpoint, how often an attempt of each
   step died, what degraded runs posted and dead-lettered, and how many there were.
   */
  datatype System = System(
    workflowId: string, world: World, checkpoint: Option<Cfg>, memory: Memory,
    lostPosts: multiset<string>, lostDead: multiset<string>, deaths: multiset<string>,
    degradedPosts: multiset<string>, degradedDead: multiset<string>, degradedRuns: nat)

  datatype Event =
    | Deliver(failing: Entry)         // run_compensation, for this failing step, finds or creates the checkpoint
    | DeliverDegraded(failing: Entry) // run_compensation on a graph without checkpointer
    | RunNode(ans: Answer)            // one node, to its end, and its checkpoint
    | DieInside(ans: Answer, k: nat)  // the process dies after the first k effects of a node
    | Stop                            // the process dies, or leaves, between nodes
    | Outside(e: Effect)              // a ledger row or a breaker update from elsewhere

  function Fresh(wid: string, w: World): System {
    System(wid, w, None, Idle, multiset{}, multiset{}, multiset{}, multiset{}, multiset{}, 0)
  }

  predicate CanRun(m: Memory) {
    m != Idle && Runnable(m.cfg)
  }

  /** The ids a node's effects post, or dead-letter. */
  function PostedBy(cfg: Cfg, w: World, ans: Answer, k: nat): multiset<string>
    requires Runnable(cfg)
  {
    var es := Effects(cfg, w, ans);
    multiset(PostIds(if k <= |es| then es[..k] else es))
  }

  function DeadBy(cfg: Cfg, w: World, ans: Answer, k: nat): multiset<string>
    requires Runnable(cfg)
  {
    var es := Effects(cfg, w, ans);
    multiset(DeadIds(if k <= |es| then es[..k] else es))
  }

  function Partly(cfg: Cfg, w: World, ans: Answer, k: nat): World
    requires Runnable(cfg)
  {
    var es := Effects(cfg, w, ans);
    ApplyEffects(w, if k <= |es| then es[..k] else es)
  }

  function Attempted(cfg: Cfg): multiset<string> {
    if cfg.node == AttemptRefund && cfg.st.current.Some? then multiset{cfg.st.current.value.stepId} else multiset{}
  }

  function Apply(s: System, e: Event): System {
    match e
    case Deliver(failing) =>
      if s.memory != Idle then s
      else if s.checkpoint.Some? then s.(memory := Checkpointed(s.checkpoint.value))
      else s.(checkpoint := Some(Initial(s.workflowId, failing)), memory := Checkpointed(Initial(s.workflowId, failing)))
    case DeliverDegraded(failing) =>
      if s.memory != Idle then s
      else s.(memory := Degraded(Initial(s.workflowId, failing)), degradedRuns := s.degradedRuns + 1)
    case RunNode(ans) =>
      if !CanRun(s.memory) then s
      else
        var cfg := s.memory.cfg;
        var cfg', w' := Next(cfg, s.world, ans), Executed(cfg, s.world, ans);
        if s.memory.Checkpointed? then s.(world := w', memory := Checkpointed(cfg'), checkpoint := Some(cfg'))
        else
          var k := |Effects(cfg, s.world, ans)|;
          s.(world := w', memory := Degraded(cfg'),
             degradedPosts := s.degradedPosts + PostedBy(cfg, s.world, ans, k),
             degradedDead := s.degradedDead + DeadBy(cfg, s.world, ans, k))
    case DieInside(ans, k) =>
      if !CanRun(s.memory) then s
      else
        var cfg := s.memory.cfg;
        var s1 := s.(world := Partly(cfg, s.world, ans, k), memory := Idle);
        if s.memory.Checkpointed? then
          s1.(lostPosts := s.lostPosts + PostedBy(cfg, s.world, ans, k),
              lostDead := s.lostDead + DeadBy(cfg, s.world, ans, k),
              deaths := s.deaths + Attempted(cfg))
        else
          s1.(degradedPosts := s.degradedPosts + PostedBy(cfg, s.world, ans, k),
              degradedDead := s.degradedDead + DeadBy(cfg, s.world, ans, k))
    case Stop => s.(memory := Idle)
    case Outside(eff) =>
      if eff.PostRefund? || eff.QueueDead? then s else s.(world := ApplyEffect(s.world, eff))
  }

  function Run(s: System, es: seq<Event>): System {
    if es == [] then s else Apply(Run(s, es[..|es| - 1]), es[|es| - 1])
  }

  // ---- what is on record ----

  function PostStepIds(posts: seq<Post>): seq<string> {
    if posts == [] then [] else PostStepIds(posts[..|posts| - 1]) + [posts[|posts| - 1].stepId]
  }

  function DlqStepIds(rows: seq<DlqRow>): seq<string> {
    if rows == [] then [] else DlqStepIds(rows[..|rows| - 1]) + [rows[|rows| - 1].stepId]
  }

  function PostedResults(rs: seq<UndoResult>): multiset<string> {
    if rs == [] then multiset{}
    else PostedResults(rs[..|rs| - 1]) + if WasPosted(rs[|rs| - 1]) then multiset{rs[|rs| - 1].stepId} else multiset{}
  }

  function DeadResults(rs: seq<UndoResult>): multiset<string> {
    if rs == [] then multiset{}
    else DeadResults(rs[..|rs| - 1]) + if rs[|rs| - 1].outcome == Dlq then multiset{rs[|rs| - 1].stepId} else multiset{}
  }

  function RecordedResults(s: System): seq<UndoResult> {
    if s.checkpoint.Some? then s.checkpoint.value.st.results else []
  }

  /** The plan is the undo list of the ledger as it was when it was loaded. */
  ghost predicate Loaded(cfg: Cfg, w: World) {
    cfg.node != LoadLog ==> cfg.loadedAt <= |w.ledger| && cfg.plan == PlanFrom(w.ledger[..cfg.loadedAt], cfg.st)
  }

  ghost predicate Sound(cfg: Cfg, s: System) {
    Consistent(cfg) && Loaded(cfg, s.world) && cfg.st.workflowId == s.workflowId
  }

  ghost predicate MemoryOk(s: System) {
    && (s.memory.Checkpointed? ==> s.checkpoint == Some(s.memory.cfg))
    && (s.checkpoint.Some? ==> Sound(s.checkpoint.value, s))
    && (s.memory.Degraded? ==> Sound(s.memory.cfg, s) && s.degradedRuns >= 1)
  }

  function Posts(w: World, id: string): nat {
    multiset(PostStepIds(w.posts))[id]
  }

  function DeadLetters(w: World, id: string): nat {
    multiset(DlqStepIds(w.dlq))[id]
  }

  /** Every POST and every dead letter for a step is accounted for: its recorded result, a lost attempt or a degraded run. */
  ghost predicate Accounted(s: System, start: World, id: string) {
    && Posts(s.world, id) == Posts(start, id) + PostedResults(RecordedResults(s))[id] + s.lostPosts[id] + s.degradedPosts[id]
    && DeadLetters(s.world, id) == DeadLetters(start, id) + DeadResults(RecordedResults(s))[id] + s.lostDead[id] + s.degradedDead[id]
  }

  lemma EffectOnRecord(w: World, e: Effect)
    ensures var w' := ApplyEffect(w, e);
      && PostStepIds(w'.posts) == PostStepIds(w.posts) + PostId(e)
      && DlqStepIds(w'.dlq) == DlqStepIds(w.dlq) + DeadId(e)
      && w.ledger <= w'.ledger
  {
    match e
    case PostRefund(post) => assert (w.posts + [post])[..|w.posts|] == w.posts;
    case QueueDead(row) => assert (w.dlq + [row])[..|w.dlq|] == w.dlq;
    case _ =>
  }

  lemma {:induction false} EffectsOnRecord(w: World, es: seq<Effect>)
    ensures var w' := ApplyEffects(w, es);
      && PostStepIds(w'.posts) == PostStepIds(w.posts) + PostIds(es)
      && DlqStepIds(w'.dlq) == DlqStepIds(w.dlq) + DeadIds(es)
      && w.ledger <= w'.ledger
  {
    if es != [] {
      var init, e := es[..|es| - 1], es[|es| - 1];
      var w1 := ApplyEffects(w, init);
      EffectsOnRecord(w, init);
      EffectOnRecord(w1, e);
      assert ApplyEffects(w, es) == ApplyEffect(w1, e);
      assert PostIds(es) == PostIds(init) + PostId(e) && DeadIds(es) == DeadIds(init) + DeadId(e);
      hide ApplyEffect, ApplyEffects, PostIds, DeadIds, PostId, DeadId, PostStepIds, DlqStepIds;
      Associates(PostStepIds(w.posts), PostIds(init), PostId(e));
      Associates(DlqStepIds(w.dlq), DeadIds(init), DeadId(e));
    }
  }

  lemma LoadedStays(cfg: Cfg, w: World, w': World)
    requires Loaded(cfg, w) && w.ledger <= w'.ledger
    ensures Loaded(cfg, w')
  {
    if cfg.node != LoadLog {
      assert w'.ledger[..cfg.loadedAt] == w.ledger[..cfg.loadedAt];
    }
  }

  lemma CountConcat(p: seq<string>, q: seq<string>, id: string)
    ensures multiset(p + q)[id] == multiset(p)[id] + multiset(q)[id]
  {
    assert multiset(p + q) == multiset(p) + multiset(q);
  }

  lemma EffectsCount(w: World, es: seq<Effect>, id: string)
    ensures var w' := ApplyEffects(w, es);
      && w.ledger <= w'.ledger
      && Posts(w', id) == Posts(w, id) + multiset(PostIds(es))[id]
      && DeadLetters(w', id) == DeadLetters(w, id) + multiset(DeadIds(es))[id]
  {
    EffectsOnRecord(w, es);
    CountConcat(PostStepIds(w.posts), PostIds(es), id);
    CountConcat(DlqStepIds(w.dlq), DeadIds(es), id);
  }

  /** What a node, run to its end or dying after k effects, leaves on record. */
  lemma PartlyOnRecord(cfg: Cfg, w: World, ans: Answer, k: nat, id: string)
    requires Runnable(cfg)
    ensures var w' := Partly(cfg, w, ans, k);
      && w.ledger <= w'.ledger
      && Posts(w', id) == Posts(w, id) + PostedBy(cfg, w, ans, k)[id]
      && DeadLetters(w', id) == DeadLetters(w, id) + DeadBy(cfg, w, ans, k)[id]
    ensures k == |Effects(cfg, w, ans)| ==> Partly(cfg, w, ans, k) == Executed(cfg, w, ans)
  {
    var es := Effects(cfg, w, ans);
    EffectsCount(w, if k <= |es| then es[..k] else es, id);
    assert es[..|es|] == es;
    hide Effects, ApplyEffects, Posts, DeadLetters, PostIds, DeadIds, Runnable;
  }

  lemma ResultsSnoc(rs: seq<UndoResult>, r: UndoResult, id: string)
    ensures PostedResults(rs + [r])[id] == PostedResults(rs)[id] + if WasPosted(r) && r.stepId == id then 1 else 0
    ensures DeadResults(rs + [r])[id] == DeadResults(rs)[id] + if r.outcome == Dlq && r.stepId == id then 1 else 0
  {
    assert (rs + [r])[..|rs|] == rs;
  }

  lemma CountSingle(ids: seq<string>, present: bool, x: string, id: string)
    requires ids == if present then [x] else []
    ensures multiset(ids)[id] == if present && x == id then 1 else 0
  {}

  lemma AttemptNamesItsStep(st: State, breakers: Breakers, reply: RefundReply)
    requires st.current.Some?
    ensures AttemptPlan(st, breakers, reply).result.stepId == st.current.value.stepId
  {}

  /** The POST and the dead letter of a completed attempt are its result's. */
  lemma AttemptOnRecord(cfg: Cfg, w: World, ans: Answer, id: string)
    requires Runnable(cfg) && cfg.node == AttemptRefund
    ensures var r := AttemptPlan(cfg.st, w.breakers, ans.refund).result;
      var k := |Effects(cfg, w, ans)|;
      && PostedBy(cfg, w, ans, k)[id] == (if WasPosted(r) && r.stepId == id then 1 else 0)
      && DeadBy(cfg, w, ans, k)[id] == (if r.outcome == Dlq && r.stepId == id then 1 else 0)
  {
    AttemptNamesItsStep(cfg.st, w.breakers, ans.refund);
    hide AttemptPlan;
    var p := AttemptPlan(cfg.st, w.breakers, ans.refund);
    var es := p.effects;
    assert es[..|es|] == es;
    AttemptEffects(cfg.st, w.breakers, ans.refund, |es|);
    CountSingle(PostIds(es), WasPosted(p.result), p.result.stepId, id);
    CountSingle(DeadIds(es), p.result.outcome == Dlq, p.result.stepId, id);
  }

  lemma OtherNodesAreQuiet(cfg: Cfg, w: World, ans: Answer, k: nat)
    requires Runnable(cfg) && cfg.node != AttemptRefund && (cfg.node == LoadLog ==> cfg.st.results == [])
    ensures Effects(cfg, w, ans) == [] && PostedBy(cfg, w, ans, k) == multiset{} && DeadBy(cfg, w, ans, k) == multiset{}
    ensures Next(cfg, w, ans).st.results == cfg.st.results
  {
    hide AttemptPlan, PlanFrom;
  }

  lemma AttemptAppends(cfg: Cfg, w: World, ans: Answer)
    requires Runnable(cfg) && cfg.node == AttemptRefund
    ensures Next(cfg, w, ans).st.results == cfg.st.results + [AttemptPlan(cfg.st, w.breakers, ans.refund).result]
  {
    hide AttemptPlan;
  }

  lemma ResultOnRecord(cfg: Cfg, w: World, ans: Answer, id: string)
    requires Runnable(cfg) && (cfg.node == LoadLog ==> cfg.st.results == [])
    ensures var cfg' := Next(cfg, w, ans);
      var k := |Effects(cfg, w, ans)|;
      && PostedResults(cfg'.st.results)[id] == PostedResults(cfg.st.results)[id] + PostedBy(cfg, w, ans, k)[id]
      && DeadResults(cfg'.st.results)[id] == DeadResults(cfg.st.results)[id] + DeadBy(cfg, w, ans, k)[id]
  {
    hide Next, AttemptPlan, Effects, PostedBy, DeadBy, PostedResults, DeadResults, WasPosted;
    if cfg.node == AttemptRefund {
      AttemptAppends(cfg, w, ans);
      AttemptOnRecord(cfg, w, ans, id);
      ResultsSnoc(cfg.st.results, AttemptPlan(cfg.st, w.breakers, ans.refund).result, id);
    } else {
      OtherNodesAreQuiet(cfg, w, ans, |Effects(cfg, w, ans)|);
    }
  }

  /** A death posts at most the step in flight, and only inside `attempt_refund`. */
  lemma DeathPostsAtMostOnce(cfg: Cfg, w: World, ans: Answer, k: nat)
    requires Runnable(cfg)
    ensures PostedBy(cfg, w, ans, k) <= Attempted(cfg)
  {
    var es := Effects(cfg, w, ans);
    if cfg.node == AttemptRefund {
      assert es[..|es|] == es;
      AttemptEffects(cfg.st, w.breakers, ans.refund, if k <= |es| then k else |es|);
    }
  }

  lemma LoadedNow(cfg: Cfg, w: World)
    requires cfg.plan == PlanFrom(w.ledger, cfg.st) && cfg.loadedAt == |w.ledger|
    ensures Loaded(cfg, w)
  {
    assert w.ledger[..|w.ledger|] == w.ledger;
  }

  lemma SamePlanFrom(ledger: seq<Entry>, st: State, st': State)
    requires st.workflowId == st'.workflowId && st.failing == st'.failing
    ensures PlanFrom(ledger, st) == PlanFrom(ledger, st')
  {}

  lemma LoadedNext(cfg: Cfg, cfg': Cfg, w: World, w': World)
    requires Loaded(cfg, w) && w.ledger <= w'.ledger && cfg.node != LoadLog
    requires cfg'.plan == cfg.plan && cfg'.loadedAt == cfg.loadedAt
    requires cfg'.st.workflowId == cfg.st.workflowId && cfg'.st.failing == cfg.st.failing
    ensures Loaded(cfg', w')
  {
    LoadedStays(cfg, w, w');
  }

  lemma NodeStaysSound(cfg: Cfg, s: System, ans: Answer)
    requires Sound(cfg, s) && Runnable(cfg)
    ensures Sound(Next(cfg, s.world, ans), s.(world := Executed(cfg, s.world, ans)))
  {
    NextKeepsHistory(cfg, s.world, ans);
    NextKeepsConsistent(cfg, s.world, ans);
    PartlyOnRecord(cfg, s.world, ans, |Effects(cfg, s.world, ans)|, "");
    var cfg', w' := Next(cfg, s.world, ans), Executed(cfg, s.world, ans);
    if cfg.node == LoadLog {
      assert w' == s.world;
      SamePlanFrom(s.world.ledger, cfg.st, cfg'.st);
      LoadedNow(cfg', s.world);
    } else {
      hide Next, AttemptPlan, Effects, Consistent, Partly, Executed;
      LoadedNext(cfg, cfg', s.world, w');
    }
  }

  lemma ApplyGrowsLedger(s: System, e: Event)
    ensures s.world.ledger <= Apply(s, e).world.ledger
  {
    hide AttemptPlan, Next, Partly, Executed, PostedBy, DeadBy, Posts, DeadLetters, Attempted;
    match e
    case RunNode(ans) =>
      if CanRun(s.memory) { PartlyOnRecord(s.memory.cfg, s.world, ans, |Effects(s.memory.cfg, s.world, ans)|, ""); }
    case DieInside(ans, k) => if CanRun(s.memory) { PartlyOnRecord(s.memory.cfg, s.world, ans, k, ""); }
    case _ =>
  }

  lemma ApplyKeepsMemory(s: System, e: Event)
    requires MemoryOk(s)
    ensures MemoryOk(Apply(s, e))
  {
    var s' := Apply(s, e);
    ApplyGrowsLedger(s, e);
    if s.checkpoint.Some? { LoadedStays(s.checkpoint.value, s.world, s'.world); }
    if s.memory.Degraded? { LoadedStays(s.memory.cfg, s.world, s'.world); }
    if e.RunNode? && CanRun(s.memory) {
      NodeStaysSound(s.memory.cfg, s, e.ans);
    }
  }

  lemma NothingDecidedAtLoad(s: System)
    requires MemoryOk(s) && CanRun(s.memory) && s.memory.cfg.node == LoadLog
    ensures s.memory.cfg.st.results == []
  {
    assert Consistent(s.memory.cfg);
  }

  lemma NodeKeepsAccount(s: System, ans: Answer, start: World, id: string)
    requires MemoryOk(s) && Accounted(s, start, id) && CanRun(s.memory)
    ensures Accounted(Apply(s, RunNode(ans)), start, id)
  {
    hide AttemptPlan, Next, Effects, Executed, Partly, PostedBy, DeadBy, Posts, DeadLetters, Sound, PostedResults, DeadResults, Runnable;
    var cfg := s.memory.cfg;
    if cfg.node == LoadLog { NothingDecidedAtLoad(s); }
    PartlyOnRecord(cfg, s.world, ans, |Effects(cfg, s.world, ans)|, id);
    ResultOnRecord(cfg, s.world, ans, id);
  }

  lemma DeathKeepsAccount(s: System, ans: Answer, k: nat, start: World, id: string)
    requires Accounted(s, start, id) && CanRun(s.memory)
    ensures Accounted(Apply(s, DieInside(ans, k)), start, id)
  {
    hide AttemptPlan, Next, Partly, PostedBy, DeadBy, Posts, DeadLetters;
    PartlyOnRecord(s.memory.cfg, s.world, ans, k, id);
  }

  lemma OutsidePostsNothing(w: World, e: Effect, id: string)
    requires !e.PostRefund? && !e.QueueDead?
    ensures Posts(ApplyEffect(w, e), id) == Posts(w, id) && DeadLetters(ApplyEffect(w, e), id) == DeadLetters(w, id)
  {}

  /** What happens elsewhere posts nothing for this workflow. */
  lemma OutsideKeepsAccount(s: System, e: Effect, start: World, id: string)
    requires Accounted(s, start, id) && !e.PostRefund? && !e.QueueDead?
    ensures Accounted(s.(world := ApplyEffect(s.world, e)), start, id)
  {
    hide Posts, DeadLetters, ApplyEffect, PostedResults, DeadResults;
    OutsidePostsNothing(s.world, e, id);
  }

  /** Only the checkpoint, the memory and the count of degraded runs differ, and no result is recorded. */
  lemma SameRecordSameAccount(s: System, cp: Option<Cfg>, m: Memory, runs: nat, start: World, id: string)
    requires Accounted(s, start, id) && RecordedResults(s.(checkpoint := cp)) == RecordedResults(s)
    ensures Accounted(s.(checkpoint := cp, memory := m, degradedRuns := runs), start, id)
  {
    hide Posts, DeadLetters, PostedResults, DeadResults;
  }

  /** Starting and stopping decide nothing. */
  lemma OtherEventsKeepAccount(s: System, e: Event, start: World, id: string)
    requires Accounted(s, start, id) && !e.RunNode? && !e.DieInside?
    ensures Accounted(Apply(s, e), start, id)
  {
    hide Accounted, ApplyEffect, CanRun, Next, Executed, Partly, PostedBy, DeadBy, Effects, Runnable, Attempted;
    var s' := Apply(s, e);
    if e.Outside? {
      if !e.e.PostRefund? && !e.e.QueueDead? { OutsideKeepsAccount(s, e.e, start, id); }
    } else {
      SameRecordSameAccount(s, s'.checkpoint, s'.memory, s'.degradedRuns, start, id);
    }
  }

  lemma ApplyKeepsAccount(s: System, e: Event, start: World, id: string)
    requires MemoryOk(s) && Accounted(s, start, id)
    ensures Accounted(Apply(s, e), start, id)
  {
    hide AttemptPlan, Next, Effects, Executed, Partly, PostedBy, DeadBy, Sound, Posts, DeadLetters, PostedResults, DeadResults, Accounted;
    if e.RunNode? && CanRun(s.memory) {
      NodeKeepsAccount(s, e.ans, start, id);
    } else if e.DieInside? && CanRun(s.memory) {
      DeathKeepsAccount(s, e.ans, e.k, start, id);
    } else if !e.RunNode? && !e.DieInside? {
      OtherEventsKeepAccount(s, e, start, id);
    }
  }

  lemma {:induction false} RunKeepsMemory(wid: string, w: World, es: seq<Event>)
    ensures MemoryOk(Run(Fresh(wid, w), es))
  {
    if es != [] {
      RunKeepsMemory(wid, w, es[..|es| - 1]);
      ApplyKeepsMemory(Run(Fresh(wid, w), es[..|es| - 1]), es[|es| - 1]);
    }
  }

  /**
   One invocation at a time, whatever dies and whenever: for each step the merchants have received
   exactly one POST for each recorded result that came from one, plus those of
   attempts that died before their checkpoint, plus those of degraded runs; dead
   letters likewise match the recorded `dlq` outcomes one to one.
   */
  lemma {:induction false} EveryPostAccounted(wid: string, w: World, es: seq<Event>, id: string)
    ensures Accounted(Run(Fresh(wid, w), es), w, id)
  {
    if es != [] {
      EveryPostAccounted(wid, w, es[..|es| - 1], id);
      RunKeepsMemory(wid, w, es[..|es| - 1]);
      ApplyKeepsAccount(Run(Fresh(wid, w), es[..|es| - 1]), es[|es| - 1], w, id);
    }
  }

  // ---- at most once ----

  lemma {:induction false} StepsOfDistinct(ledger: seq<Entry>, wid: string)
    requires DistinctIds(ledger)
    ensures DistinctIds(StepsOf(ledger, wid))
  {
    if ledger != [] {
      var init, last := ledger[..|ledger| - 1], ledger[|ledger| - 1];
      StepsOfDistinct(init, wid);
      forall e | e in StepsOf(init, wid) ensures e.stepId != last.stepId {
        StepsOfMembers(init, wid, e);
      }
    }
  }

  lemma {:induction false} UndoListDistinct(steps: seq<Entry>, failingId: string)
    requires DistinctIds(steps)
    ensures DistinctIds(UndoList(steps, failingId))
  {
    if steps != [] {
      var init, last := steps[..|steps| - 1], steps[|steps| - 1];
      UndoListDistinct(init, failingId);
      forall e | e in UndoList(init, failingId) ensures e.stepId != last.stepId {
        UndoListMembers(init, failingId, e);
      }
    }
  }

  lemma PlanDistinct(cfg: Cfg, w: World)
    requires Loaded(cfg, w) && DistinctIds(w.ledger) && (cfg.node == LoadLog ==> cfg.plan == [])
    ensures DistinctIds(cfg.plan)
  {
    if cfg.node != LoadLog {
      var prefix := w.ledger[..cfg.loadedAt];
      StepsOfDistinct(prefix, cfg.st.workflowId);
      UndoListDistinct(StepsOf(prefix, cfg.st.workflowId), cfg.st.failing.stepId);
    }
  }

  ghost predicate Matched(plan: seq<Entry>, rs: seq<UndoResult>) {
    |rs| <= |plan| && forall i :: 0 <= i < |rs| ==> rs[i].stepId == plan[i].stepId
  }

  lemma ConsistentMatched(cfg: Cfg)
    requires Consistent(cfg)
    ensures Matched(cfg.plan, cfg.st.results)
  {
    forall i | 0 <= i < |cfg.st.results| ensures cfg.st.results[i].stepId == cfg.plan[i].stepId {
      assert Justified(cfg.plan[i], cfg.basis[i], cfg.st.results[i]);
    }
  }

  /** A step has at most one posted result among the first `n`, and none if it comes later in the plan. */
  lemma {:induction false} PostedResultsAtMostOnce(plan: seq<Entry>, rs: seq<UndoResult>, n: nat, id: string)
    requires Matched(plan, rs) && DistinctIds(plan) && n <= |rs|
    ensures PostedResults(rs[..n])[id] <= 1
    ensures PostedResults(rs[..n])[id] == 1 ==> exists i :: 0 <= i < n && plan[i].stepId == id && WasPosted(rs[i])
  {
    if n > 0 {
      PostedResultsAtMostOnce(plan, rs, n - 1, id);
      assert rs[..n][..n - 1] == rs[..n - 1];
    }
  }

  /** Counting the step in flight as well. */
  lemma PostedOrInFlightOnce(cfg: Cfg, w: World, id: string)
    requires Consistent(cfg) && Loaded(cfg, w) && DistinctIds(w.ledger)
    ensures PostedResults(cfg.st.results)[id] + Attempted(cfg)[id] <= 1
  {
    PlanDistinct(cfg, w);
    ConsistentMatched(cfg);
    var n := |cfg.st.results|;
    assert cfg.st.results[..n] == cfg.st.results;
    PostedResultsAtMostOnce(cfg.plan, cfg.st.results, n, id);
    if Attempted(cfg)[id] > 0 {
      assert cfg.st.current == Some(cfg.plan[n]) && cfg.plan[n].stepId == id;
    }
  }

  /** Lost posts come from deaths inside an attempt; a degraded run posts a step at most once. */
  ghost predicate Bounded(s: System, id: string) {
    && s.lostPosts[id] <= s.deaths[id]
    && s.degradedPosts[id] <=
         if s.memory.Degraded? then s.degradedRuns - 1 + PostedResults(s.memory.cfg.st.results)[id] else s.degradedRuns
  }

  lemma DeathKeepsBounds(s: System, ans: Answer, k: nat, id: string)
    requires MemoryOk(s) && Bounded(s, id) && DistinctIds(s.world.ledger) && CanRun(s.memory)
    ensures Bounded(Apply(s, DieInside(ans, k)), id)
  {
    hide AttemptPlan, Next, Effects, Executed, Partly, PostedBy, DeadBy, PostedResults, Attempted, Consistent, Loaded, DistinctIds;
    DeathPostsAtMostOnce(s.memory.cfg, s.world, ans, k);
    PostedOrInFlightOnce(s.memory.cfg, s.world, id);
  }

  lemma NodeKeepsBounds(s: System, ans: Answer, id: string)
    requires MemoryOk(s) && Bounded(s, id) && CanRun(s.memory)
    ensures Bounded(Apply(s, RunNode(ans)), id)
  {
    if s.memory.cfg.node == LoadLog { NothingDecidedAtLoad(s); }
    ResultOnRecord(s.memory.cfg, s.world, ans, id);
    hide AttemptPlan, Next, Effects, Executed, Partly, PostedBy, DeadBy, Sound, PostedResults, DeadResults, Runnable;
  }

  lemma ApplyKeepsBounds(s: System, e: Event, id: string)
    requires MemoryOk(s) && Bounded(s, id) && DistinctIds(s.world.ledger)
    ensures Bounded(Apply(s, e), id)
  {
    hide AttemptPlan, Next, Effects, Executed, Partly, PostedBy, DeadBy;
    match e
    case RunNode(ans) => if CanRun(s.memory) { NodeKeepsBounds(s, ans, id); }
    case DieInside(ans, k) => if CanRun(s.memory) { DeathKeepsBounds(s, ans, k, id); }
    case Stop => if s.memory.Degraded? { PostedOrInFlightOnce(s.memory.cfg, s.world, id); }
    case _ =>
  }

  lemma DistinctBefore(s: System, e: Event)
    requires DistinctIds(Apply(s, e).world.ledger)
    ensures DistinctIds(s.world.ledger)
  {
    ApplyGrowsLedger(s, e);
    var l, l' := s.world.ledger, Apply(s, e).world.ledger;
    assert forall i :: 0 <= i < |l| ==> l[i] == l'[i];
  }

  lemma {:induction false} RunKeepsBounds(wid: string, w: World, es: seq<Event>, id: string)
    requires DistinctIds(Run(Fresh(wid, w), es).world.ledger)
    ensures Bounded(Run(Fresh(wid, w), es), id)
  {
    if es != [] {
      var s := Run(Fresh(wid, w), es[..|es| - 1]);
      DistinctBefore(s, es[|es| - 1]);
      RunKeepsBounds(wid, w, es[..|es| - 1], id);
      RunKeepsMemory(wid, w, es[..|es| - 1]);
      ApplyKeepsBounds(s, es[|es| - 1], id);
    }
  }

  /**
   At-most-once under crashes, one invocation at a time. Merchants do not reject a second refund, yet
   whatever dies and whenever, no step is POSTed more than once, plus once for each death
   inside `attempt_refund` on that very step, plus once for each degraded run.
   */
  lemma PostedAtMostOncePlusDeaths(wid: string, w: World, es: seq<Event>, id: string)
    requires DistinctIds(Run(Fresh(wid, w), es).world.ledger)
    ensures var s := Run(Fresh(wid, w), es);
      Posts(s.world, id) <= Posts(w, id) + 1 + s.deaths[id] + s.degradedRuns
  {
    var s := Run(Fresh(wid, w), es);
    EveryPostAccounted(wid, w, es, id);
    RunKeepsBounds(wid, w, es, id);
    RunKeepsMemory(wid, w, es);
    if s.checkpoint.Some? {
      PostedOrInFlightOnce(s.checkpoint.value, s.world, id);
    }
    if s.memory.Degraded? {
      PostedOrInFlightOnce(s.memory.cfg, s.world, id);
    }
  }

  // ---- failing closed ----

  ghost predicate Permits(b: PolicyBasis) {
    b.terms.None? || b.terms.value.refundable
  }

  /** The policy on which step `i` of the plan was, or is about to be, attempted. */
  ghost predicate PermittedAt(cfg: Cfg, i: nat) {
    || (i < |cfg.basis| && Permits(cfg.basis[i]))
    || (i == |cfg.basis| && cfg.node == AttemptRefund && Permits(Basis(cfg.st.policyText, cfg.st.terms)))
  }

  /** A lost post can only be of a step whose policy permitted it. */
  ghost predicate Grounded(s: System, id: string) {
    s.lostPosts[id] > 0 ==>
      s.checkpoint.Some? && exists i :: 0 <= i < |s.checkpoint.value.plan| && s.checkpoint.value.plan[i].stepId == id && PermittedAt(s.checkpoint.value, i)
  }

  /** A POST is only sent for the step in flight, and only on a policy that permits it. */
  lemma AttemptPostsWithPermission(st: State, breakers: Breakers, reply: RefundReply, k: nat)
    requires st.current.Some? && BasisOk(st.current.value, Basis(st.policyText, st.terms))
    requires st.refundAmount == if st.terms.None? then None else RefundDue(st.current.value, Basis(st.policyText, st.terms))
    requires k <= |AttemptPlan(st, breakers, reply).effects| && PostIds(AttemptPlan(st, breakers, reply).effects[..k]) != []
    ensures Permits(Basis(st.policyText, st.terms))
  {
    hide AttemptPlan, PostIds, DeadIds, RefundDue, BasisOk;
    AttemptEffects(st, breakers, reply, k);
    AttemptJustified(st, breakers, reply);
  }

  lemma DeathIsPermitted(cfg: Cfg, w: World, ans: Answer, k: nat, id: string)
    requires Consistent(cfg) && Runnable(cfg) && PostedBy(cfg, w, ans, k)[id] > 0
    ensures cfg.node == AttemptRefund
    ensures |cfg.basis| < |cfg.plan| && cfg.plan[|cfg.basis|].stepId == id && PermittedAt(cfg, |cfg.basis|)
  {
    DeathPostsAtMostOnce(cfg, w, ans, k);
    assert Attempted(cfg)[id] > 0;
    hide AttemptPlan, PostIds, RefundDue, BasisOk, Justified, Permits;
    var es := Effects(cfg, w, ans);
    assert es[..|es|] == es;
    AttemptPostsWithPermission(cfg.st, w.breakers, ans.refund, if k <= |es| then k else |es|);
  }

  lemma NodeKeepsPermission(cfg: Cfg, w: World, ans: Answer, i: nat)
    requires Consistent(cfg) && Runnable(cfg) && i < |cfg.plan| && PermittedAt(cfg, i)
    ensures PermittedAt(Next(cfg, w, ans), i) && Next(cfg, w, ans).plan == cfg.plan
  {
    hide AttemptPlan;
  }

  lemma NodeKeepsGrounds(s: System, ans: Answer, id: string)
    requires MemoryOk(s) && Grounded(s, id) && CanRun(s.memory)
    ensures Grounded(Apply(s, RunNode(ans)), id)
  {
    if s.lostPosts[id] > 0 && s.memory.Checkpointed? {
      var cfg := s.memory.cfg;
      var i :| 0 <= i < |cfg.plan| && cfg.plan[i].stepId == id && PermittedAt(cfg, i);
      NodeKeepsPermission(cfg, s.world, ans, i);
      hide AttemptPlan, Next, Effects, Executed, PostedBy, DeadBy, PermittedAt, Sound, Runnable;
    }
  }

  lemma DeathKeepsGrounds(s: System, ans: Answer, k: nat, id: string)
    requires MemoryOk(s) && Grounded(s, id) && CanRun(s.memory)
    ensures Grounded(Apply(s, DieInside(ans, k)), id)
  {
    if s.memory.Checkpointed? && PostedBy(s.memory.cfg, s.world, ans, k)[id] > 0 {
      DeathIsPermitted(s.memory.cfg, s.world, ans, k, id);
    }
    hide AttemptPlan, Next, Effects, Executed, Partly, PostedBy, DeadBy, PermittedAt, Sound, Runnable;
  }

  lemma ApplyKeepsGrounds(s: System, e: Event, id: string)
    requires MemoryOk(s) && Grounded(s, id)
    ensures Grounded(Apply(s, e), id)
  {
    hide AttemptPlan, Next, Effects, Executed, Partly, PostedBy, DeadBy, PermittedAt;
    match e
    case RunNode(ans) => if CanRun(s.memory) { NodeKeepsGrounds(s, ans, id); }
    case DieInside(ans, k) => if CanRun(s.memory) { DeathKeepsGrounds(s, ans, k, id); }
    case _ =>
  }

  lemma {:induction false} RunKeepsGrounds(wid: string, w: World, es: seq<Event>, id: string)
    ensures Grounded(Run(Fresh(wid, w), es), id)
  {
    if es != [] {
      RunKeepsGrounds(wid, w, es[..|es| - 1], id);
      RunKeepsMemory(wid, w, es[..|es| - 1]);
      ApplyKeepsGrounds(Run(Fresh(wid, w), es[..|es| - 1]), es[|es| - 1], id);
    }
  }

  /**
   Before the first refund attempt nothing has been sent: as long as no run ignored the
   checkpoint, and there is no checkpoint or it stands before the first `attempt_refund`,
   no step has been POSTed.
   */
  lemma NothingPostedBeforeFirstAttempt(wid: string, w: World, es: seq<Event>, id: string)
    requires var s := Run(Fresh(wid, w), es);
      s.degradedRuns == 0 && BeforeFirstAttempt(s.checkpoint)
    ensures var s := Run(Fresh(wid, w), es);
      s.lostPosts[id] == 0 && s.degradedPosts[id] == 0 && PostedResults(RecordedResults(s))[id] == 0
    ensures Posts(Run(Fresh(wid, w), es).world, id) == Posts(w, id)
  {
    hide Run, Posts, DeadLetters, Consistent, Loaded;
    RunKeepsMemory(wid, w, es);
    EveryPostAccounted(wid, w, es, id);
    NoDegradedRunNoDegradedPost(wid, w, es);
    RunKeepsGrounds(wid, w, es, id);
    var s := Run(Fresh(wid, w), es);
    if s.checkpoint.Some? { BasisFollowsResults(s.checkpoint.value); }
  }

  lemma {:induction false} NoDegradedRunNoDegradedPost(wid: string, w: World, es: seq<Event>)
    ensures var s := Run(Fresh(wid, w), es); s.degradedRuns == 0 ==> s.degradedPosts == multiset{}
  {
    if es != [] {
      var s, e := Run(Fresh(wid, w), es[..|es| - 1]), es[|es| - 1];
      NoDegradedRunNoDegradedPost(wid, w, es[..|es| - 1]);
      RunKeepsMemory(wid, w, es[..|es| - 1]);
      OnlyDegradedRunsAddTheirs(s, e);
      hide Apply, Sound;
    }
  }

  lemma OnlyDegradedRunsAddTheirs(s: System, e: Event)
    ensures Apply(s, e).degradedRuns >= s.degradedRuns
    ensures !s.memory.Degraded? ==> Apply(s, e).degradedPosts == s.degradedPosts
  {
    hide Next, Executed, Effects, Partly, PostedBy, DeadBy, Attempted, ApplyEffect, Runnable;
  }

  /** What a caller can read off the checkpoint. */
  predicate BeforeFirstAttempt(checkpoint: Option<Cfg>) {
    checkpoint.Some? ==> checkpoint.value.st.results == [] && checkpoint.value.node != AttemptRefund
  }

  lemma BasisFollowsResults(cfg: Cfg)
    requires Consistent(cfg)
    ensures |cfg.basis| == |cfg.st.results|
  {}

  /** Step `n` of the plan is settled on terms that forbid a refund: it is past its policy, or its result is in. */
  ghost predicate Forbidden(cfg: Cfg, n: nat) {
    n < |cfg.plan|
    && if n < |cfg.basis| then !Permits(cfg.basis[n])
       else n == |cfg.basis| && (cfg.node == ComputeAmount || cfg.node == AttemptRefund)
            && cfg.st.terms.Some? && !cfg.st.terms.value.refundable
  }

  lemma NodeKeepsForbidden(cfg: Cfg, w: World, ans: Answer, n: nat)
    requires Consistent(cfg) && Runnable(cfg) && Forbidden(cfg, n)
    ensures Forbidden(Next(cfg, w, ans), n) && Next(cfg, w, ans).plan == cfg.plan
  {
    hide AttemptPlan;
  }

  lemma ApplyKeepsForbidden(s: System, e: Event, n: nat)
    requires MemoryOk(s) && s.checkpoint.Some? && Forbidden(s.checkpoint.value, n)
    ensures Apply(s, e).checkpoint.Some? && Forbidden(Apply(s, e).checkpoint.value, n)
    ensures Apply(s, e).checkpoint.value.plan == s.checkpoint.value.plan
  {
    if e.RunNode? && CanRun(s.memory) && s.memory.Checkpointed? {
      NodeKeepsForbidden(s.memory.cfg, s.world, e.ans, n);
    }
    hide AttemptPlan, Next, Effects, Executed, Partly, PostedBy, DeadBy, Sound, Forbidden;
  }

  lemma {:induction false} ForbiddenStays(s: System, es: seq<Event>, n: nat)
    requires MemoryOk(s) && s.checkpoint.Some? && Forbidden(s.checkpoint.value, n)
    ensures MemoryOk(Run(s, es)) && Run(s, es).checkpoint.Some?
    ensures Forbidden(Run(s, es).checkpoint.value, n) && Run(s, es).checkpoint.value.plan == s.checkpoint.value.plan
  {
    if es != [] {
      ForbiddenStays(s, es[..|es| - 1], n);
      ApplyKeepsForbidden(Run(s, es[..|es| - 1]), es[|es| - 1], n);
      ApplyKeepsMemory(Run(s, es[..|es| - 1]), es[|es| - 1]);
    }
  }

  /** A forbidden step has no result that came from a POST; the one it has is `non_refundable` or `dlq`. */
  lemma ForbiddenHasNoPostedResult(cfg: Cfg, n: nat)
    requires Consistent(cfg) && DistinctIds(cfg.plan) && Forbidden(cfg, n)
    ensures PostedResults(cfg.st.results)[cfg.plan[n].stepId] == 0
    ensures n < |cfg.st.results| ==> cfg.st.results[n].outcome == NonRefundable || cfg.st.results[n].outcome == Dlq
  {
    var id, m := cfg.plan[n].stepId, |cfg.st.results|;
    ConsistentMatched(cfg);
    assert cfg.st.results[..m] == cfg.st.results;
    PostedResultsAtMostOnce(cfg.plan, cfg.st.results, m, id);
    if n < m {
      assert Justified(cfg.plan[n], cfg.basis[n], cfg.st.results[n]);
    }
  }

  lemma ForbiddenWasNotLost(s: System, n: nat)
    requires s.checkpoint.Some? && DistinctIds(s.checkpoint.value.plan) && Forbidden(s.checkpoint.value, n)
    requires Grounded(s, s.checkpoint.value.plan[n].stepId)
    requires |s.checkpoint.value.basis| == |s.checkpoint.value.st.results|
    ensures s.lostPosts[s.checkpoint.value.plan[n].stepId] == 0
  {}

  lemma LoadingIsEmpty(cfg: Cfg)
    requires Consistent(cfg)
    ensures cfg.node == LoadLog ==> cfg.plan == []
  {}

  /** The books of a forbidden step: none of the three ways to a POST was taken. */
  lemma ForbiddenOnTheBooks(s: System, start: World, n: nat)
    requires MemoryOk(s) && DistinctIds(s.world.ledger) && s.degradedRuns == 0
    requires s.checkpoint.Some? && Forbidden(s.checkpoint.value, n)
    requires var id := s.checkpoint.value.plan[n].stepId;
      Accounted(s, start, id) && Grounded(s, id) && s.degradedPosts == multiset{}
    ensures var cfg := s.checkpoint.value;
      && Posts(s.world, cfg.plan[n].stepId) == Posts(start, cfg.plan[n].stepId)
      && (n < |cfg.st.results| ==> cfg.st.results[n].outcome == NonRefundable || cfg.st.results[n].outcome == Dlq)
  {
    hide Grounded, Forbidden, NodeInv, ResultsJustified, Loaded, DistinctIds, PostedResults, DeadResults, Posts, DeadLetters;
    var cfg := s.checkpoint.value;
    LoadingIsEmpty(cfg);
    PlanDistinct(cfg, s.world);
    ForbiddenHasNoPostedResult(cfg, n);
    BasisFollowsResults(cfg);
    ForbiddenWasNotLost(s, n);
  }

  lemma ForbiddenIsInThePlan(cfg: Cfg, n: nat)
    requires Forbidden(cfg, n)
    ensures n < |cfg.plan|
  {}

  /** Where a forbidden step stands: never posted, and if it has a result, `non_refundable` or `dlq`. */
  lemma ForbiddenIsNeverPosted(wid: string, w: World, es: seq<Event>, n: nat)
    requires var s := Run(Fresh(wid, w), es);
      DistinctIds(s.world.ledger) && s.degradedRuns == 0 && s.checkpoint.Some? && Forbidden(s.checkpoint.value, n)
    ensures var s := Run(Fresh(wid, w), es);
      var cfg := s.checkpoint.value;
      && Posts(s.world, cfg.plan[n].stepId) == Posts(w, cfg.plan[n].stepId)
      && (n < |cfg.st.results| ==> cfg.st.results[n].outcome == NonRefundable || cfg.st.results[n].outcome == Dlq)
  {
    hide Run, Grounded, Forbidden, MemoryOk, Accounted, DistinctIds, Posts;
    var s := Run(Fresh(wid, w), es);
    ForbiddenIsInThePlan(s.checkpoint.value, n);
    var id := s.checkpoint.value.plan[n].stepId;
    RunKeepsMemory(wid, w, es);
    EveryPostAccounted(wid, w, es, id);
    NoDegradedRunNoDegradedPost(wid, w, es);
    RunKeepsGrounds(wid, w, es, id);
    ForbiddenOnTheBooks(s, w, n);
  }

  /**
   The ways a node can learn that nothing is to be refunded: the policy of a merchant that
   has one cannot be fetched, or the extraction fails, both attempts at it do, or the first
   text that parses says so.
   */
  ghost predicate PolicyDenies(cfg: Cfg, ans: Answer) {
    || (cfg.node == FetchPolicy && cfg.st.current.Some? && HasPolicy(cfg.st.current.value.merchant) && ans.fetch.FetchRaised?)
    || (cfg.node == ExtractTerms && ExtractedRuling(ans.extract) == Denied)
  }

  lemma DenialForbids(cfg: Cfg, w: World, ans: Answer)
    requires Consistent(cfg) && Runnable(cfg) && PolicyDenies(cfg, ans)
    ensures Forbidden(Next(cfg, w, ans), |cfg.st.results|)
    ensures Next(cfg, w, ans).plan == cfg.plan && cfg.st.current == Some(cfg.plan[|cfg.st.results|])
  {
    hide AttemptPlan, ExtractedTerms, ExtractedRuling, AnswersHeeded;
    ExtractionIsRuling(ans.extract);
  }

  /**
   Fail closed, end to end: once the policy fetch of a policy-bearing merchant fails, or
   the extraction service fails, or both extraction attempts fail, or the policy's text is
   read as non-refundable, then whatever happens afterwards, deaths and restarts included
   but one invocation at a time, that step is never POSTed, and its outcome, once there is
   one, is `non_refundable` or `dlq`.
   */
  lemma DenialNeverRefunds(wid: string, w: World, before: seq<Event>, ans: Answer, after: seq<Event>)
    requires var s := Run(Fresh(wid, w), before);
      s.memory.Checkpointed? && CanRun(s.memory) && PolicyDenies(s.memory.cfg, ans)
    requires var s := Run(Fresh(wid, w), before + [RunNode(ans)] + after);
      DistinctIds(s.world.ledger) && s.degradedRuns == 0
    ensures var cfg := Run(Fresh(wid, w), before).memory.cfg;
      var s := Run(Fresh(wid, w), before + [RunNode(ans)] + after);
      var n := |cfg.st.results|;
      && cfg.st.current.Some? && s.checkpoint.Some?
      && Posts(s.world, cfg.st.current.value.stepId) == Posts(w, cfg.st.current.value.stepId)
      && (n < |s.checkpoint.value.st.results| ==>
            s.checkpoint.value.st.results[n].stepId == cfg.st.current.value.stepId
            && s.checkpoint.value.st.results[n].outcome in {NonRefundable, Dlq})
  {
    var s0 := Run(Fresh(wid, w), before);
    var n := |s0.memory.cfg.st.results|;
    RunKeepsMemory(wid, w, before);
    DenialForbids(s0.memory.cfg, s0.world, ans);
    ApplyKeepsMemory(s0, RunNode(ans));
    assert (before + [RunNode(ans)])[..|before|] == before;
    var s1 := Run(Fresh(wid, w), before + [RunNode(ans)]);
    assert s1 == Apply(s0, RunNode(ans));
    ForbiddenStays(s1, after, n);
    RunConcat(Fresh(wid, w), before + [RunNode(ans)], after);
    ForbiddenIsNeverPosted(wid, w, before + [RunNode(ans)] + after, n);
    RunKeepsMemory(wid, w, before + [RunNode(ans)] + after);
    ConsistentMatched(Run(s1, after).checkpoint.value);
  }

  lemma {:induction false} RunConcat(s: System, es: seq<Event>, fs: seq<Event>)
    ensures Run(s, es + fs) == Run(Run(s, es), fs)
  {
    if fs == [] {
      assert es + fs == es;
    } else {
      RunConcat(s, es, fs[..|fs| - 1]);
      InitOfAppend(es, fs);
      hide Apply;
    }
  }
}
