/**
 The saga with any number of invocations of one workflow at a time. The worker hands
 every message to a task of its own and bounds them by nothing, `/pay` publishes one
 message for each refused payment, each with a failing step of its own, and all of a
 workflow share one thread id, so deliveries can overlap. Every read of a node, every single effect and every checkpoint
 is an event here, and an event list is an arbitrary interleaving.

 `SagaRecovery` is the special case of one invocation at a time (see `OneAtATime`).
 */
module SagaOverlap {
  import opened Wrappers
  import opened Schemas
  import opened Tables
  import opened Saga
  import opened SagaAnswers
  import opened SagaLaws
  import opened SagaRecovery
  import opened SagaPosts

  /** Where an invocation is: before a node, inside one after `k` of its effects, returned, or dead inside one. */
  datatype Stage = Between | Inside(seen: World, ans: Answer, k: nat) | Over | Dead(seen: World, ans: Answer, k: nat)

  /**
   One `ainvoke`. A durable one writes checkpoints; the fallback's does not. `inherited`
   is history: the results it found in the checkpoint it started from.
   */
  datatype Invocation = Invocation(durable: bool, inherited: seq<UndoResult>, cfg: Cfg, stage: Stage)

  /**
   `overlaps` counts the deliveries that began while another durable invocation was at
   work, and those that had looked for a checkpoint in vain and began when there was one.
   */
  datatype Workflow = Workflow(
    workflowId: string, world: World, checkpoint: Option<Cfg>, runs: seq<Invocation>, overlaps: nat)

  datatype Event =
    | Start(failing: Entry)         // a durable invocation starts from the checkpoint, or creates it
    | StartAnew(failing: Entry)     // one that found no checkpoint earlier starts from the beginning
    | StartDegraded(failing: Entry) // one without checkpointer starts
    | Begin(i: nat, ans: Answer)    // invocation i enters a node and reads what the node reads
    | Act(i: nat)                   // its next effect
    | Commit(i: nat)                // the node ends and, if durable, its checkpoint is written
    | Quit(i: nat)                  // it returns, or an exception or a death of the process ends it
    | Elsewhere(e: Effect)          // a ledger row or a breaker update from elsewhere

  function Fresh(wid: string, w: World): Workflow {
    Workflow(wid, w, None, [], 0)
  }

  predicate Active(r: Invocation) {
    r.stage.Between? || r.stage.Inside?
  }

  predicate DurableAtWork(runs: seq<Invocation>) {
    exists i :: 0 <= i < |runs| && runs[i].durable && Active(runs[i])
  }

  function SetRun(s: Workflow, i: nat, r: Invocation): Workflow
    requires i < |s.runs|
  {
    s.(runs := s.runs[i := r])
  }

  /** One that starts from the beginning, for the failing step its message brings. */
  function NewInvocation(durable: bool, wid: string, failing: Entry): Invocation {
    Invocation(durable, [], Initial(wid, failing), Between)
  }

  function Apply(s: Workflow, e: Event): Workflow {
    match e
    case Start(failing) =>
      var cfg := if s.checkpoint.Some? then s.checkpoint.value else Initial(s.workflowId, failing);
      s.(checkpoint := Some(cfg), runs := s.runs + [Invocation(true, cfg.st.results, cfg, Between)],
         overlaps := s.overlaps + if DurableAtWork(s.runs) then 1 else 0)
    case StartAnew(failing) =>
      var cfg := Initial(s.workflowId, failing);
      s.(checkpoint := Some(cfg), runs := s.runs + [NewInvocation(true, s.workflowId, failing)],
         overlaps := s.overlaps + if s.checkpoint.Some? then 1 else 0)
    case StartDegraded(failing) =>
      s.(runs := s.runs + [NewInvocation(false, s.workflowId, failing)])
    case Begin(i, ans) =>
      if i < |s.runs| && s.runs[i].stage.Between? && Runnable(s.runs[i].cfg) then
        SetRun(s, i, s.runs[i].(stage := Inside(s.world, ans, 0)))
      else s
    case Act(i) =>
      if i < |s.runs| && CanAct(s.runs[i]) then
        var r := s.runs[i];
        SetRun(s.(world := ApplyEffect(s.world, Effects(r.cfg, r.stage.seen, r.stage.ans)[r.stage.k])), i,
               r.(stage := Inside(r.stage.seen, r.stage.ans, r.stage.k + 1)))
      else s
    case Commit(i) =>
      if i < |s.runs| && CanCommit(s.runs[i]) then
        var r := s.runs[i];
        var cfg := Next(r.cfg, r.stage.seen, r.stage.ans);
        SetRun(s.(checkpoint := if r.durable then Some(cfg) else s.checkpoint), i, r.(cfg := cfg, stage := Between))
      else s
    case Quit(i) =>
      if i < |s.runs| && Active(s.runs[i]) then SetRun(s, i, s.runs[i].(stage := Ended(s.runs[i].stage))) else s
    case Elsewhere(eff) =>
      if eff.PostRefund? || eff.QueueDead? then s else s.(world := ApplyEffect(s.world, eff))
  }

  predicate CanAct(r: Invocation) {
    r.stage.Inside? && Runnable(r.cfg) && r.stage.k < |Effects(r.cfg, r.stage.seen, r.stage.ans)|
  }

  predicate CanCommit(r: Invocation) {
    r.stage.Inside? && Runnable(r.cfg) && r.stage.k == |Effects(r.cfg, r.stage.seen, r.stage.ans)|
  }

  function Ended(stage: Stage): Stage {
    if stage.Inside? then Dead(stage.seen, stage.ans, stage.k) else Over
  }

  function Run(s: Workflow, es: seq<Event>): Workflow {
    if es == [] then s else Apply(Run(s, es[..|es| - 1]), es[|es| - 1])
  }

  // ---- what an invocation has sent ----

  /** The POSTs of the node it is in, or died in. */
  function Unfinished(r: Invocation, id: string): nat {
    if (r.stage.Inside? || r.stage.Dead?) && Runnable(r.cfg) then PostedBy(r.cfg, r.stage.seen, r.stage.ans, r.stage.k)[id] else 0
  }

  function UnfinishedDead(r: Invocation, id: string): nat {
    if (r.stage.Inside? || r.stage.Dead?) && Runnable(r.cfg) then DeadBy(r.cfg, r.stage.seen, r.stage.ans, r.stage.k)[id] else 0
  }

  /** The POSTs behind the results it decided itself. */
  function Decided(r: Invocation, id: string): int {
    PostedResults(r.cfg.st.results)[id] as int - PostedResults(r.inherited)[id] as int
  }

  function DecidedDead(r: Invocation, id: string): int {
    DeadResults(r.cfg.st.results)[id] as int - DeadResults(r.inherited)[id] as int
  }

  /** A durable invocation that may still POST the step: neither recorded nor sent as far as it knows. */
  predicate MayPost(r: Invocation, id: string) {
    r.durable && Active(r) && PostedResults(r.cfg.st.results)[id] + Unfinished(r, id) == 0
  }

  datatype Kind =
    | Sent | SentDead  // all POSTs, all dead letters
    | Kept | Lost      // POSTs of durable invocations, except of nodes they died in; and those
    | Free             // durable invocations that may still POST the step
    | Deaths           // durable invocations that died inside attempt_refund on the step
    | Ignoring         // invocations without checkpointer

  function Part(r: Invocation, id: string, kind: Kind): int {
    match kind
    case Sent => Decided(r, id) + Unfinished(r, id)
    case SentDead => DecidedDead(r, id) + UnfinishedDead(r, id)
    case Kept => if r.durable then Decided(r, id) + (if r.stage.Dead? then 0 else Unfinished(r, id)) else 0
    case Lost => if r.durable && r.stage.Dead? then Unfinished(r, id) else 0
    case Free => if MayPost(r, id) then 1 else 0
    case Deaths => if r.durable && r.stage.Dead? && Attempted(r.cfg)[id] > 0 then 1 else 0
    case Ignoring => if r.durable then 0 else 1
  }

  function Tally(runs: seq<Invocation>, id: string, kind: Kind): int {
    if runs == [] then 0 else Tally(runs[..|runs| - 1], id, kind) + Part(runs[|runs| - 1], id, kind)
  }

  lemma {:induction false} TallyUpdate(runs: seq<Invocation>, i: nat, r: Invocation, id: string, kind: Kind)
    requires i < |runs|
    ensures Tally(runs[i := r], id, kind) == Tally(runs, id, kind) + Part(r, id, kind) - Part(runs[i], id, kind)
  {
    hide Part;
    var n := |runs| - 1;
    if i < n {
      TallyUpdate(runs[..n], i, r, id, kind);
      assert runs[i := r][..n] == runs[..n][i := r];
    } else {
      assert runs[i := r][..n] == runs[..n];
    }
  }

  lemma TallyAppend(runs: seq<Invocation>, r: Invocation, id: string, kind: Kind)
    ensures Tally(runs + [r], id, kind) == Tally(runs, id, kind) + Part(r, id, kind)
  {
    hide Part;
    assert (runs + [r])[..|runs|] == runs;
  }

  // ---- every invocation is sound ----

  ghost predicate CfgOk(cfg: Cfg, s: Workflow) {
    Consistent(cfg) && Loaded(cfg, s.world) && cfg.st.workflowId == s.workflowId
  }

  ghost predicate RunOk(r: Invocation, s: Workflow) {
    && CfgOk(r.cfg, s)
    && (!r.durable ==> r.inherited == [])
    && (r.stage.Inside? || r.stage.Dead? ==>
          && Runnable(r.cfg) && Loaded(r.cfg, r.stage.seen) && r.stage.seen.ledger <= s.world.ledger
          && r.stage.k <= |Effects(r.cfg, r.stage.seen, r.stage.ans)|)
  }

  ghost predicate AllOk(s: Workflow) {
    && (forall i :: 0 <= i < |s.runs| ==> RunOk(s.runs[i], s))
    && (s.checkpoint.Some? ==> CfgOk(s.checkpoint.value, s))
    && (s.checkpoint.None? ==> forall i :: 0 <= i < |s.runs| ==> !s.runs[i].durable)
  }

  lemma LedgerGrows(s: Workflow, e: Event)
    ensures s.world.ledger <= Apply(s, e).world.ledger
    ensures Apply(s, e).workflowId == s.workflowId
  {
    hide Next, Effects, Runnable;
  }

  lemma CfgStaysOk(cfg: Cfg, s: Workflow, s': Workflow)
    requires CfgOk(cfg, s) && s.world.ledger <= s'.world.ledger && s'.workflowId == s.workflowId
    ensures CfgOk(cfg, s')
  {
    hide Consistent;
    LoadedStays(cfg, s.world, s'.world);
  }

  lemma RunStaysOk(r: Invocation, s: Workflow, s': Workflow)
    requires RunOk(r, s) && s.world.ledger <= s'.world.ledger && s'.workflowId == s.workflowId
    ensures RunOk(r, s')
  {
    CfgStaysOk(r.cfg, s, s');
    hide CfgOk, Effects, Runnable;
  }

  lemma CommitIsOk(r: Invocation, s: Workflow)
    requires RunOk(r, s) && r.stage.Inside?
    ensures CfgOk(Next(r.cfg, r.stage.seen, r.stage.ans), s)
  {
    var w, cfg' := r.stage.seen, Next(r.cfg, r.stage.seen, r.stage.ans);
    NextKeepsConsistent(r.cfg, w, r.stage.ans);
    NextKeepsHistory(r.cfg, w, r.stage.ans);
    hide Next, Effects, Consistent, Runnable;
    if r.cfg.node == LoadLog {
      SamePlanFrom(w.ledger, r.cfg.st, cfg'.st);
      LoadedNow(cfg', w);
      LoadedStays(cfg', w, s.world);
    } else {
      LoadedNext(r.cfg, cfg', s.world, s.world);
    }
  }

  lemma OkIsLoaded(cfg: Cfg, s: Workflow)
    requires CfgOk(cfg, s)
    ensures Loaded(cfg, s.world)
  {}

  lemma InitialIsOk(s: Workflow, failing: Entry)
    ensures CfgOk(Initial(s.workflowId, failing), s)
  {
    InitialConsistent(s.workflowId, failing);
  }

  /** What one event does to one invocation. */
  lemma EventKeepsRun(s: Workflow, e: Event, i: nat)
    requires AllOk(s) && i < |Apply(s, e).runs|
    ensures RunOk(Apply(s, e).runs[i], Apply(s, e))
  {
    hide CfgOk, Loaded, Effects, Runnable, Next, ApplyEffect;
    var s' := Apply(s, e);
    LedgerGrows(s, e);
    if e.Start? || e.StartAnew? || e.StartDegraded? { InitialIsOk(s, e.failing); }
    if i < |s.runs| {
      assert RunOk(s.runs[i], s);
      RunStaysOk(s.runs[i], s, s');
      OkIsLoaded(s.runs[i].cfg, s);
      if e == Commit(i) && CanCommit(s.runs[i]) {
        CommitIsOk(s.runs[i], s);
        CfgStaysOk(s'.runs[i].cfg, s, s');
      }
    } else {
      CfgStaysOk(s'.runs[i].cfg, s, s');
    }
  }

  lemma EventKeepsCheckpoint(s: Workflow, e: Event)
    requires AllOk(s)
    ensures var s' := Apply(s, e);
      && (s'.checkpoint.Some? ==> CfgOk(s'.checkpoint.value, s'))
      && (s'.checkpoint.None? ==> forall i :: 0 <= i < |s'.runs| ==> !s'.runs[i].durable)
  {
    hide CfgOk, Effects, Runnable, Next, ApplyEffect, RunOk;
    var s' := Apply(s, e);
    LedgerGrows(s, e);
    if e.Start? || e.StartAnew? || e.StartDegraded? { InitialIsOk(s, e.failing); }
    if s'.checkpoint == s.checkpoint {
      if s.checkpoint.Some? { CfgStaysOk(s.checkpoint.value, s, s'); }
    } else if e.Commit? {
      assert RunOk(s.runs[e.i], s);
      CommitIsOk(s.runs[e.i], s);
      CfgStaysOk(s'.checkpoint.value, s, s');
    } else {
      CfgStaysOk(s'.checkpoint.value, s, s');
    }
  }

  lemma ApplyKeepsOk(s: Workflow, e: Event)
    requires AllOk(s)
    ensures AllOk(Apply(s, e))
  {
    hide RunOk, CfgOk, Apply;
    EventKeepsCheckpoint(s, e);
    forall i | 0 <= i < |Apply(s, e).runs| ensures RunOk(Apply(s, e).runs[i], Apply(s, e)) {
      EventKeepsRun(s, e, i);
    }
  }

  lemma {:induction false} RunKeepsOk(wid: string, w: World, es: seq<Event>)
    ensures AllOk(Run(Fresh(wid, w), es))
  {
    if es != [] {
      RunKeepsOk(wid, w, es[..|es| - 1]);
      ApplyKeepsOk(Run(Fresh(wid, w), es[..|es| - 1]), es[|es| - 1]);
      hide Apply, AllOk;
    }
  }

  // ---- every POST and every dead letter is accounted for ----

  ghost predicate Accounted(s: Workflow, start: World, id: string) {
    && Posts(s.world, id) == Posts(start, id) + Tally(s.runs, id, Sent)
    && DeadLetters(s.world, id) == DeadLetters(start, id) + Tally(s.runs, id, SentDead)
  }

  /** One more effect of a node: one more POST or dead letter, or none. */
  lemma OneMoreEffect(cfg: Cfg, seen: World, ans: Answer, k: nat, w: World, id: string)
    requires Runnable(cfg) && k < |Effects(cfg, seen, ans)|
    ensures var w' := ApplyEffect(w, Effects(cfg, seen, ans)[k]);
      && Posts(w', id) - Posts(w, id) == PostedBy(cfg, seen, ans, k + 1)[id] as int - PostedBy(cfg, seen, ans, k)[id] as int
      && DeadLetters(w', id) - DeadLetters(w, id) == DeadBy(cfg, seen, ans, k + 1)[id] as int - DeadBy(cfg, seen, ans, k)[id] as int
  {
    var es := Effects(cfg, seen, ans);
    hide Effects, ApplyEffect, PostId, DeadId, PostStepIds, DlqStepIds;
    EffectOnRecord(w, es[k]);
    CountConcat(PostStepIds(w.posts), PostId(es[k]), id);
    CountConcat(DlqStepIds(w.dlq), DeadId(es[k]), id);
    assert es[..k + 1][..k] == es[..k];
    CountConcat(PostIds(es[..k]), PostId(es[k]), id);
    CountConcat(DeadIds(es[..k]), DeadId(es[k]), id);
  }

  lemma NothingSentYet(cfg: Cfg, seen: World, ans: Answer, id: string)
    requires Runnable(cfg)
    ensures PostedBy(cfg, seen, ans, 0)[id] == 0 && DeadBy(cfg, seen, ans, 0)[id] == 0
  {
    assert Effects(cfg, seen, ans)[..0] == [];
  }

  /** The invocation an event concerns, before and after. */
  ghost predicate Concerns(e: Event, i: nat) {
    match e
    case Begin(j, _) => j == i
    case Act(j) => j == i
    case Commit(j) => j == i
    case Quit(j) => j == i
    case _ => false
  }

  /** What a committed node adds to the results is what it sent. */
  lemma CommitRecords(s: Workflow, i: nat, id: string)
    requires AllOk(s) && i < |s.runs| && CanCommit(s.runs[i])
    ensures var r, r' := s.runs[i], Apply(s, Commit(i)).runs[i];
      && PostedResults(r'.cfg.st.results)[id] == PostedResults(r.cfg.st.results)[id] + Unfinished(r, id)
      && DeadResults(r'.cfg.st.results)[id] == DeadResults(r.cfg.st.results)[id] + UnfinishedDead(r, id)
      && Unfinished(r', id) == 0 && UnfinishedDead(r', id) == 0
      && r'.inherited == r.inherited && r'.durable == r.durable
  {
    hide Next, Effects, PostedResults, DeadResults, PostedBy, DeadBy, Loaded, ResultsJustified;
    var r := s.runs[i];
    assert RunOk(r, s);
    ResultOnRecord(r.cfg, r.stage.seen, r.stage.ans, id);
  }

  /** Invocation `i` before and after an event that concerns it, for one step id. */
  lemma EventOnRun(s: Workflow, e: Event, i: nat, id: string)
    requires AllOk(s) && i < |s.runs| && Concerns(e, i)
    ensures var s' := Apply(s, e);
      && |s'.runs| == |s.runs| && s'.runs == s.runs[i := s'.runs[i]]
      && s'.runs[i].durable == s.runs[i].durable && s'.runs[i].inherited == s.runs[i].inherited
      && Posts(s'.world, id) - Posts(s.world, id) == Part(s'.runs[i], id, Sent) - Part(s.runs[i], id, Sent)
      && DeadLetters(s'.world, id) - DeadLetters(s.world, id) == Part(s'.runs[i], id, SentDead) - Part(s.runs[i], id, SentDead)
      && s'.overlaps == s.overlaps
  {
    hide Next, Effects, PostedResults, DeadResults, PostedBy, DeadBy, Posts, DeadLetters, ApplyEffect, RunOk, CfgOk;
    var r := s.runs[i];
    assert RunOk(r, s);
    match e
    case Begin(_, ans) => if r.stage.Between? && Runnable(r.cfg) { NothingSentYet(r.cfg, s.world, ans, id); }
    case Act(_) => if CanAct(r) { OneMoreEffect(r.cfg, r.stage.seen, r.stage.ans, r.stage.k, s.world, id); }
    case Commit(_) => if CanCommit(r) { CommitRecords(s, i, id); }
    case Quit(_) =>
  }

  /** The other events send nothing: they start an invocation, or come from elsewhere. */
  lemma OtherEventsSendNothing(s: Workflow, e: Event, id: string)
    requires e.Start? || e.StartAnew? || e.StartDegraded? || e.Elsewhere? || (exists i :: i >= |s.runs| && Concerns(e, i))
    ensures var s' := Apply(s, e);
      && Posts(s'.world, id) == Posts(s.world, id) && DeadLetters(s'.world, id) == DeadLetters(s.world, id)
      && (s'.runs == s.runs
          || (|s'.runs| == |s.runs| + 1 && s'.runs == s.runs + [s'.runs[|s.runs|]]
              && Part(s'.runs[|s.runs|], id, Sent) == 0 && Part(s'.runs[|s.runs|], id, SentDead) == 0))
  {
    hide Next, Effects, PostedResults, DeadResults, Posts, DeadLetters, ApplyEffect, DurableAtWork;
    assert PostedResults([]) == multiset{} && DeadResults([]) == multiset{} by { NoResults(); }
    if e.Elsewhere? && !e.e.PostRefund? && !e.e.QueueDead? { OutsidePostsNothing(s.world, e.e, id); }
  }

  lemma NoResults()
    ensures PostedResults([]) == multiset{} && DeadResults([]) == multiset{}
  {}

  /** The index an event names, if it names one. */
  function Named(e: Event): nat {
    match e
    case Begin(i, _) => i
    case Act(i) => i
    case Commit(i) => i
    case Quit(i) => i
    case _ => 0
  }

  predicate NamesOne(e: Event) {
    e.Begin? || e.Act? || e.Commit? || e.Quit?
  }

  lemma ApplyKeepsAccount(s: Workflow, e: Event, start: World, id: string)
    requires AllOk(s) && Accounted(s, start, id)
    ensures Accounted(Apply(s, e), start, id)
  {
    hide Apply, Part, Posts, DeadLetters, AllOk, Tally;
    var i, s' := Named(e), Apply(s, e);
    if NamesOne(e) && i < |s.runs| {
      EventOnRun(s, e, i, id);
      TallyUpdate(s.runs, i, s'.runs[i], id, Sent);
      TallyUpdate(s.runs, i, s'.runs[i], id, SentDead);
    } else {
      assert NamesOne(e) ==> i >= |s.runs| && Concerns(e, i);
      OtherEventsSendNothing(s, e, id);
      if s'.runs != s.runs {
        TallyAppend(s.runs, s'.runs[|s.runs|], id, Sent);
        TallyAppend(s.runs, s'.runs[|s.runs|], id, SentDead);
      }
    }
  }

  /**
   In every interleaving of any number of invocations, whatever dies and whenever: for
   each step the merchants have received exactly the POSTs behind the results that each
   invocation decided itself, plus those of the nodes invocations are in or died in; dead
   letters likewise.
   */
  lemma {:induction false} EveryPostAccounted(wid: string, w: World, es: seq<Event>, id: string)
    ensures Accounted(Run(Fresh(wid, w), es), w, id)
  {
    hide Apply, AllOk, Posts, DeadLetters;
    if es != [] {
      EveryPostAccounted(wid, w, es[..|es| - 1], id);
      RunKeepsOk(wid, w, es[..|es| - 1]);
      ApplyKeepsAccount(Run(Fresh(wid, w), es[..|es| - 1]), es[|es| - 1], w, id);
    }
  }

  // ---- at most once, plus what overlaps ----

  ghost predicate Holds(r: Invocation, cfg: Cfg) {
    r.durable && Active(r) && r.cfg == cfg
  }

  /** Some durable invocation at work stands where the checkpoint does. */
  ghost predicate Held(runs: seq<Invocation>, cfg: Cfg) {
    exists i :: 0 <= i < |runs| && Holds(runs[i], cfg)
  }

  /** One if the step could still be POSTed by a start from a checkpoint that nobody at work stands at. */
  ghost function Loose(s: Workflow, id: string): nat {
    if s.checkpoint.None? then 1
    else if Held(s.runs, s.checkpoint.value) || PostedResults(s.checkpoint.value.st.results)[id] > 0 then 0
    else 1
  }

  /**
   The invariant of the bound. Starting alone continues the one line of work there is;
   only a start beside another splits it. Each line POSTs the step at most once.
   */
  ghost predicate Bounded(s: Workflow, id: string) {
    Tally(s.runs, id, Kept) + Tally(s.runs, id, Free) + Loose(s, id) <= 1 + s.overlaps
  }

  lemma AtMostOnceEach(r: Invocation, s: Workflow, id: string)
    requires RunOk(r, s) && DistinctIds(s.world.ledger)
    ensures PostedResults(r.cfg.st.results)[id] + Unfinished(r, id) <= 1
    ensures PostedResults(r.cfg.st.results)[id] + Attempted(r.cfg)[id] <= 1
    ensures Unfinished(r, id) <= Attempted(r.cfg)[id]
  {
    PostedOrInFlightOnce(r.cfg, s.world, id);
    if (r.stage.Inside? || r.stage.Dead?) && Runnable(r.cfg) {
      DeathPostsAtMostOnce(r.cfg, r.stage.seen, r.stage.ans, r.stage.k);
    }
    hide PostedBy, Attempted, PostedResults, Consistent, Loaded, Effects, Runnable;
  }

  lemma HeldBySame(runs: seq<Invocation>, i: nat, r: Invocation, cfg: Cfg)
    requires i < |runs| && (Holds(r, cfg) <==> Holds(runs[i], cfg))
    ensures Held(runs[i := r], cfg) <==> Held(runs, cfg)
  {
    var after := runs[i := r];
    if Held(runs, cfg) {
      var j :| 0 <= j < |runs| && Holds(runs[j], cfg);
      assert Holds(after[j], cfg);
    }
    if Held(after, cfg) {
      var j :| 0 <= j < |after| && Holds(after[j], cfg);
      assert Holds(runs[j], cfg);
    }
  }

  /** What one invocation has sent for the step as far as it knows, inherited results included. */
  function Known(r: Invocation, id: string): nat {
    PostedResults(r.cfg.st.results)[id] + Unfinished(r, id)
  }

  lemma ShareOf(r: Invocation, id: string)
    ensures Part(r, id, Kept) + Part(r, id, Free) ==
      if !r.durable then 0
      else if r.stage.Dead? then Decided(r, id)
      else Decided(r, id) + Unfinished(r, id) + if Active(r) && Known(r, id) == 0 then 1 else 0
    ensures Part(r, id, Sent) == Known(r, id) - PostedResults(r.inherited)[id]
  {
    hide PostedResults, Unfinished;
  }

  lemma WorkKeepsActive(s: Workflow, e: Event, i: nat)
    requires i < |s.runs| && Concerns(e, i) && !e.Quit?
    ensures Active(s.runs[i]) <==> Active(Apply(s, e).runs[i])
    ensures s.runs[i].stage.Dead? ==> Apply(s, e) == s
    ensures !Active(s.runs[i]) ==> Apply(s, e) == s
  {
    hide Next, Effects, Runnable, ApplyEffect;
  }

  /** The share of the invocation in hand: a step moves from "may" to "did", never more. */
  lemma StepMovesShare(s: Workflow, e: Event, i: nat, id: string)
    requires AllOk(s) && i < |s.runs| && Concerns(e, i) && !e.Quit? && DistinctIds(Apply(s, e).world.ledger)
    ensures var r, r' := s.runs[i], Apply(s, e).runs[i];
      Part(r', id, Kept) + Part(r', id, Free) <= Part(r, id, Kept) + Part(r, id, Free)
  {
    hide Apply, Part, Posts, DeadLetters, RunOk, PostedResults, Unfinished, AllOk;
    var s' := Apply(s, e);
    EventOnRun(s, e, i, id);
    EventKeepsRun(s, e, i);
    AtMostOnceEach(s'.runs[i], s', id);
    PostsNeverShrink(s, e, i, id);
    WorkKeepsActive(s, e, i);
    ShareOf(s.runs[i], id);
    ShareOf(s'.runs[i], id);
  }

  lemma PostsNeverShrink(s: Workflow, e: Event, i: nat, id: string)
    requires AllOk(s) && i < |s.runs| && Concerns(e, i)
    ensures Posts(Apply(s, e).world, id) >= Posts(s.world, id)
  {
    hide Next, Posts, DeadLetters, ApplyEffect, RunOk;
    if e.Act? && CanAct(s.runs[i]) {
      var r := s.runs[i];
      hide Effects;
      PostsGrow(s.world, Effects(r.cfg, r.stage.seen, r.stage.ans)[r.stage.k], id);
    }
  }

  lemma PostsGrow(w: World, e: Effect, id: string)
    ensures Posts(ApplyEffect(w, e), id) >= Posts(w, id)
  {
    EffectOnRecord(w, e);
    CountConcat(PostStepIds(w.posts), PostId(e), id);
    hide ApplyEffect, PostStepIds, PostId;
  }

  lemma WorkKeepsBound(s: Workflow, e: Event, i: nat, id: string)
    requires AllOk(s) && i < |s.runs| && Concerns(e, i) && !e.Quit? && DistinctIds(Apply(s, e).world.ledger) && Bounded(s, id)
    ensures Bounded(Apply(s, e), id)
  {
    var s' := Apply(s, e);
    StepMovesShare(s, e, i, id);
    EventOnRun(s, e, i, id);
    TallyUpdate(s.runs, i, s'.runs[i], id, Kept);
    TallyUpdate(s.runs, i, s'.runs[i], id, Free);
    WorkKeepsLoose(s, e, i, id);
    hide Apply, Tally, Part, Loose, AllOk;
  }

  lemma WorkKeepsLoose(s: Workflow, e: Event, i: nat, id: string)
    requires AllOk(s) && i < |s.runs| && Concerns(e, i) && !e.Quit?
    ensures Loose(Apply(s, e), id) <= Loose(s, id)
  {
    hide Next, Effects, PostedResults, ApplyEffect, RunOk, CfgOk, Runnable;
    var s', r := Apply(s, e), s.runs[i];
    assert s'.runs == s.runs[i := s'.runs[i]];
    if e.Commit? && CanCommit(r) && r.durable {
      assert Holds(s'.runs[i], s'.checkpoint.value);
    } else if s.checkpoint.Some? {
      HeldBySame(s.runs, i, s'.runs[i], s.checkpoint.value);
    }
  }

  lemma QuitKeepsBound(s: Workflow, i: nat, id: string)
    requires AllOk(s) && i < |s.runs| && DistinctIds(s.world.ledger) && Bounded(s, id)
    ensures Bounded(Apply(s, Quit(i)), id)
  {
    if Active(s.runs[i]) {
      var r, r' := s.runs[i], s.runs[i].(stage := Ended(s.runs[i].stage));
      assert Apply(s, Quit(i)).runs == s.runs[i := r'];
      assert Apply(s, Quit(i)).overlaps == s.overlaps;
      hide Apply, Tally, Loose, AllOk, PostedResults, PostedBy, Part;
      TallyUpdate(s.runs, i, r', id, Kept);
      TallyUpdate(s.runs, i, r', id, Free);
      QuitLoosens(s, i, id);
      ShareOf(r, id);
      ShareOf(r', id);
    }
  }

  /** An invocation that ends may leave its checkpoint loose; a line that could still POST stays one that can. */
  lemma QuitLoosens(s: Workflow, i: nat, id: string)
    requires AllOk(s) && i < |s.runs| && Active(s.runs[i])
    ensures Loose(Apply(s, Quit(i)), id) <= Loose(s, id)
              + if s.runs[i].durable && PostedResults(s.runs[i].cfg.st.results)[id] == 0 then 1 else 0
    ensures Loose(Apply(s, Quit(i)), id) > Loose(s, id) ==> s.checkpoint == Some(s.runs[i].cfg)
  {
    hide PostedResults, RunOk, CfgOk;
    var s', r := Apply(s, Quit(i)), s.runs[i];
    if s.checkpoint.Some? && !Holds(r, s.checkpoint.value) {
      HeldBySame(s.runs, i, s'.runs[i], s.checkpoint.value);
    }
    if s.checkpoint.Some? && Holds(r, s.checkpoint.value) {
      assert Held(s.runs, s.checkpoint.value);
    }
  }

  lemma HeldAppend(runs: seq<Invocation>, r: Invocation, cfg: Cfg)
    ensures Held(runs, cfg) || Holds(r, cfg) ==> Held(runs + [r], cfg)
    ensures Held(runs + [r], cfg) ==> Held(runs, cfg) || Holds(r, cfg)
  {
    var after := runs + [r];
    if Held(runs, cfg) {
      var j :| 0 <= j < |runs| && Holds(runs[j], cfg);
      assert Holds(after[j], cfg);
    }
    if Holds(r, cfg) { assert Holds(after[|runs|], cfg); }
    if Held(after, cfg) {
      var j :| 0 <= j < |after| && Holds(after[j], cfg);
    }
  }

  /** What an invocation that has just started adds to the books. */
  lemma NewShare(durable: bool, cfg: Cfg, id: string)
    ensures var r := Invocation(durable, cfg.st.results, cfg, Between);
      && Part(r, id, Kept) == 0
      && Part(r, id, Free) == (if durable && PostedResults(cfg.st.results)[id] == 0 then 1 else 0)
      && (forall c :: Holds(r, c) <==> durable && c == cfg)
  {
    hide PostedResults;
  }

  lemma NobodyHolds(runs: seq<Invocation>, cfg: Cfg)
    requires !DurableAtWork(runs)
    ensures !Held(runs, cfg)
  {}

  lemma StartAdds(s: Workflow, e: Event)
    requires e.Start? || e.StartAnew? || e.StartDegraded?
    ensures var s' := Apply(s, e);
      var cfg := if e.Start? && s.checkpoint.Some? then s.checkpoint.value else Initial(s.workflowId, e.failing);
      && s'.runs == s.runs + [Invocation(!e.StartDegraded?, cfg.st.results, cfg, Between)]
      && s'.checkpoint == (if e.StartDegraded? then s.checkpoint else Some(cfg))
      && s'.world == s.world && s'.workflowId == s.workflowId
      && s'.overlaps == s.overlaps + if (e.Start? && DurableAtWork(s.runs)) || (e.StartAnew? && s.checkpoint.Some?) then 1 else 0
  {
    hide DurableAtWork;
  }

  /** A start takes up the loose line of work, or splits one and counts as an overlap. */
  lemma StartKeepsBound(s: Workflow, e: Event, id: string)
    requires Bounded(s, id) && (e.Start? || e.StartAnew? || e.StartDegraded?)
    ensures Bounded(Apply(s, e), id)
  {
    hide Apply, PostedResults, Tally, Held, Holds, Part, DurableAtWork;
    StartAdds(s, e);
    var cfg := if e.Start? && s.checkpoint.Some? then s.checkpoint.value else Initial(s.workflowId, e.failing);
    var r := Invocation(!e.StartDegraded?, cfg.st.results, cfg, Between);
    NewShare(!e.StartDegraded?, cfg, id);
    TallyAppend(s.runs, r, id, Kept);
    TallyAppend(s.runs, r, id, Free);
    HeldAppend(s.runs, r, cfg);
    if s.checkpoint.Some? {
      HeldAppend(s.runs, r, s.checkpoint.value);
      if !DurableAtWork(s.runs) { NobodyHolds(s.runs, s.checkpoint.value); }
    }
  }

  lemma ApplyKeepsBound(s: Workflow, e: Event, id: string)
    requires AllOk(s) && DistinctIds(Apply(s, e).world.ledger) && Bounded(s, id)
    ensures Bounded(Apply(s, e), id)
  {
    var i := Named(e);
    if e.Quit? {
      if i < |s.runs| { DistinctEarlier(s, e); QuitKeepsBound(s, i, id); } else { IdleEventKeepsBound(s, e, id); }
    } else if NamesOne(e) && i < |s.runs| {
      WorkKeepsBound(s, e, i, id);
    } else if e.Start? || e.StartAnew? || e.StartDegraded? {
      StartKeepsBound(s, e, id);
    } else {
      IdleEventKeepsBound(s, e, id);
    }
    hide Apply, Bounded, AllOk;
  }

  lemma IdleEventKeepsBound(s: Workflow, e: Event, id: string)
    requires Bounded(s, id) && (e.Elsewhere? || (NamesOne(e) && Named(e) >= |s.runs|))
    ensures Bounded(Apply(s, e), id)
  {
    hide Tally, Held, PostedResults, ApplyEffect;
  }

  lemma DistinctEarlier(s: Workflow, e: Event)
    requires DistinctIds(Apply(s, e).world.ledger)
    ensures DistinctIds(s.world.ledger)
  {
    LedgerGrows(s, e);
    var l, l' := s.world.ledger, Apply(s, e).world.ledger;
    assert forall i :: 0 <= i < |l| ==> l[i] == l'[i];
  }

  lemma {:induction false} RunKeepsBound(wid: string, w: World, es: seq<Event>, id: string)
    requires DistinctIds(Run(Fresh(wid, w), es).world.ledger)
    ensures Bounded(Run(Fresh(wid, w), es), id)
  {
    if es != [] {
      var s := Run(Fresh(wid, w), es[..|es| - 1]);
      DistinctEarlier(s, es[|es| - 1]);
      RunKeepsBound(wid, w, es[..|es| - 1], id);
      RunKeepsOk(wid, w, es[..|es| - 1]);
      ApplyKeepsBound(s, es[|es| - 1], id);
      hide Apply, Bounded, AllOk, DistinctIds;
    }
  }

  /** All POSTs: kept, lost in a death, or of an invocation that ignored the checkpoint. */
  lemma {:induction false} SentSplits(s: Workflow, runs: seq<Invocation>, id: string)
    requires DistinctIds(s.world.ledger) && forall i :: 0 <= i < |runs| ==> RunOk(runs[i], s)
    ensures Tally(runs, id, Sent) <= Tally(runs, id, Kept) + Tally(runs, id, Deaths) + Tally(runs, id, Ignoring)
    ensures Tally(runs, id, Free) >= 0
  {
    hide RunOk, Part;
    if runs != [] {
      SentSplits(s, runs[..|runs| - 1], id);
      ShareSplits(runs[|runs| - 1], s, id);
    }
  }

  lemma ShareSplits(r: Invocation, s: Workflow, id: string)
    requires RunOk(r, s) && DistinctIds(s.world.ledger)
    ensures Part(r, id, Sent) <= Part(r, id, Kept) + Part(r, id, Deaths) + Part(r, id, Ignoring)
    ensures Part(r, id, Free) >= 0
  {
    hide RunOk, PostedResults, Unfinished, Attempted, DistinctIds, Active;
    AtMostOnceEach(r, s, id);
    IgnoringInheritNothing(r, s);
    NoResults();
  }

  lemma IgnoringInheritNothing(r: Invocation, s: Workflow)
    requires RunOk(r, s)
    ensures !r.durable ==> r.inherited == []
  {}

  /**
   At most once, however deliveries overlap. Merchants do not reject a second refund, yet
   in every interleaving a step is POSTed at most once, plus once for each delivery that
   began while another durable invocation was at work (or from an outdated look for a
   checkpoint), for each death inside `attempt_refund` on that very step, and for each
   invocation without checkpointer.
   */
  lemma PostedAtMostOncePlusOverlaps(wid: string, w: World, es: seq<Event>, id: string)
    requires DistinctIds(Run(Fresh(wid, w), es).world.ledger)
    ensures var s := Run(Fresh(wid, w), es);
      Posts(s.world, id) <= Posts(w, id) + 1 + s.overlaps + Tally(s.runs, id, Deaths) + Tally(s.runs, id, Ignoring)
  {
    hide Run, Posts, DeadLetters, Tally, Part, RunOk, CfgOk, DistinctIds;
    var s := Run(Fresh(wid, w), es);
    EveryPostAccounted(wid, w, es, id);
    RunKeepsBound(wid, w, es, id);
    RunKeepsOk(wid, w, es);
    SentSplits(s, s.runs, id);
  }

  // ---- running one invocation by itself ----

  lemma {:induction false} RunConcat(s: Workflow, es: seq<Event>, fs: seq<Event>)
    ensures Run(s, es + fs) == Run(Run(s, es), fs)
  {
    hide Apply;
    if fs == [] {
      assert es + fs == es;
    } else {
      RunConcat(s, es, fs[..|fs| - 1]);
      InitOfAppend(es, fs);
    }
  }

  lemma RunOne(s: Workflow, e: Event)
    ensures Run(s, [e]) == Apply(s, e)
  {
    assert [e][..0] == [];
  }

  function Acts(i: nat, n: nat): seq<Event> {
    seq(n, _ => Act(i))
  }

  /** Invocation `i` inside a node, after n of its effects. */
  function InsideNode(s: Workflow, i: nat, ans: Answer, n: nat): Workflow
    requires i < |s.runs| && Runnable(s.runs[i].cfg) && n <= |Effects(s.runs[i].cfg, s.world, ans)|
  {
    SetRun(s.(world := ApplyEffects(s.world, Effects(s.runs[i].cfg, s.world, ans)[..n])), i,
           s.runs[i].(stage := Inside(s.world, ans, n)))
  }

  lemma {:induction false} ActsGoOn(s: Workflow, i: nat, ans: Answer, n: nat)
    requires i < |s.runs| && s.runs[i].stage.Between? && Runnable(s.runs[i].cfg) && n <= |Effects(s.runs[i].cfg, s.world, ans)|
    ensures Run(s, [Begin(i, ans)] + Acts(i, n)) == InsideNode(s, i, ans, n)
  {
    hide Effects, ApplyEffect, Apply, InsideNode, Runnable;
    if n == 0 {
      assert [Begin(i, ans)] + Acts(i, 0) == [Begin(i, ans)];
      RunOne(s, Begin(i, ans));
      BeginEnters(s, i, ans);
    } else {
      ActsGoOn(s, i, ans, n - 1);
      assert ([Begin(i, ans)] + Acts(i, n))[..n] == [Begin(i, ans)] + Acts(i, n - 1);
      ActGoesOn(s, i, ans, n);
    }
  }

  lemma BeginEnters(s: Workflow, i: nat, ans: Answer)
    requires i < |s.runs| && s.runs[i].stage.Between? && Runnable(s.runs[i].cfg)
    ensures Apply(s, Begin(i, ans)) == InsideNode(s, i, ans, 0)
  {
    hide Effects, ApplyEffect, Runnable;
    assert Effects(s.runs[i].cfg, s.world, ans)[..0] == [];
  }

  lemma ActGoesOn(s: Workflow, i: nat, ans: Answer, n: nat)
    requires i < |s.runs| && s.runs[i].stage.Between? && Runnable(s.runs[i].cfg) && 0 < n <= |Effects(s.runs[i].cfg, s.world, ans)|
    ensures Apply(InsideNode(s, i, ans, n - 1), Act(i)) == InsideNode(s, i, ans, n)
  {
    hide Effects, ApplyEffect, Runnable;
    var es := Effects(s.runs[i].cfg, s.world, ans);
    assert es[..n][..n - 1] == es[..n - 1];
    assert Apply(InsideNode(s, i, ans, n - 1), Act(i)).runs == InsideNode(s, i, ans, n).runs;
  }

  /** The events of a whole node. */
  function NodeEvents(s: Workflow, i: nat, ans: Answer): seq<Event>
    requires i < |s.runs| && Runnable(s.runs[i].cfg)
  {
    [Begin(i, ans)] + Acts(i, |Effects(s.runs[i].cfg, s.world, ans)|) + [Commit(i)]
  }

  /** The workflow after invocation `i` has run one node with nothing in between. */
  function AfterNode(s: Workflow, i: nat, ans: Answer): Workflow
    requires i < |s.runs| && Runnable(s.runs[i].cfg)
  {
    var r := s.runs[i];
    var cfg := Next(r.cfg, s.world, ans);
    SetRun(s.(world := Executed(r.cfg, s.world, ans), checkpoint := if r.durable then Some(cfg) else s.checkpoint), i,
           r.(cfg := cfg, stage := Between))
  }

  lemma NodeByItself(s: Workflow, i: nat, ans: Answer)
    requires i < |s.runs| && s.runs[i].stage.Between? && Runnable(s.runs[i].cfg)
    ensures Run(s, NodeEvents(s, i, ans)) == AfterNode(s, i, ans)
  {
    hide Effects, Next, Run, ApplyEffects, ApplyEffect, Apply, Runnable;
    var es := Effects(s.runs[i].cfg, s.world, ans);
    var first := [Begin(i, ans)] + Acts(i, |es|);
    ActsGoOn(s, i, ans, |es|);
    RunConcat(s, first, [Commit(i)]);
    RunOne(InsideNode(s, i, ans, |es|), Commit(i));
    CommitAfterActs(s, i, ans);
  }

  lemma CommitAfterActs(s: Workflow, i: nat, ans: Answer)
    requires i < |s.runs| && s.runs[i].stage.Between? && Runnable(s.runs[i].cfg)
    ensures Apply(InsideNode(s, i, ans, |Effects(s.runs[i].cfg, s.world, ans)|), Commit(i)) == AfterNode(s, i, ans)
  {
    hide Effects, Next, ApplyEffects, ApplyEffect, Runnable;
    var es := Effects(s.runs[i].cfg, s.world, ans);
    assert es[..|es|] == es;
    var t := InsideNode(s, i, ans, |es|);
    assert t.runs[i].cfg == s.runs[i].cfg && CanCommit(t.runs[i]);
    assert Apply(t, Commit(i)).runs == AfterNode(s, i, ans).runs;
  }

  /** Only starts on the durable path and work: nobody quits, nothing comes from elsewhere. */
  predicate Plain(e: Event) {
    e.Start? || e.Begin? || e.Act? || e.Commit?
  }

  predicate AllPlain(es: seq<Event>) {
    forall k :: 0 <= k < |es| ==> Plain(es[k])
  }

  /** A whole invocation by itself is the uninterrupted run from where it stands. */
  lemma {:induction false} InvocationByItself(s: Workflow, i: nat, oracle: nat -> Answer, k: nat) returns (es: seq<Event>)
    requires i < |s.runs| && s.runs[i].stage.Between? && s.runs[i].durable && Consistent(s.runs[i].cfg)
    ensures var s', f := Run(s, es), Finish(s.runs[i].cfg, s.world, oracle, k);
      && s'.world == f.world && s'.overlaps == s.overlaps
      && s'.runs == s.runs[i := s.runs[i].(cfg := f.cfg)]
    ensures AllPlain(es) && forall k :: 0 <= k < |es| ==> !es[k].Start?
    decreases Measure(s.runs[i].cfg, s.world)
  {
    hide Apply, Run, Next, Executed, Effects, NodeInv, ResultsJustified, Measure, NodeEvents;
    var cfg := s.runs[i].cfg;
    if cfg.node == End {
      es := [];
      assert Run(s, []) == s by { NoEvents(s); }
      assert s.runs[i := s.runs[i]] == s.runs;
    } else {
      var ans := oracle(k);
      ConsistentRuns(cfg);
      NextKeepsConsistent(cfg, s.world, ans);
      MeasureDecreases(cfg, s.world, Executed(cfg, s.world, ans), ans);
      NodeByItself(s, i, ans);
      var s1 := AfterNode(s, i, ans);
      var rest := InvocationByItself(s1, i, oracle, k + 1);
      es := NodeEvents(s, i, ans) + rest;
      NodeIsPlain(s, i, ans);
      RunConcat(s, NodeEvents(s, i, ans), rest);
      assert s1.runs[i := s1.runs[i].(cfg := Finish(cfg, s.world, oracle, k).cfg)]
          == s.runs[i := s.runs[i].(cfg := Finish(cfg, s.world, oracle, k).cfg)];
    }
  }

  lemma NodeIsPlain(s: Workflow, i: nat, ans: Answer)
    requires i < |s.runs| && Runnable(s.runs[i].cfg)
    ensures AllPlain(NodeEvents(s, i, ans)) && forall k :: 0 <= k < |NodeEvents(s, i, ans)| ==> !NodeEvents(s, i, ans)[k].Start?
    ensures forall e :: e in NodeEvents(s, i, ans) ==> NamesOne(e) && !e.Quit? && Named(e) == i
  {
    hide Effects, Runnable;
  }

  lemma NoEvents(s: Workflow)
    ensures Run(s, []) == s
  {}

  // ---- the bound is reached, for every number of overlaps ----

  /** Deliveries one right after the other, whatever failing steps they bring. */
  lemma {:induction false} ManyStarts(wid: string, w: World, fs: seq<Entry>) returns (es: seq<Event>)
    requires fs != []
    ensures AllStarted(Run(Fresh(wid, w), es), wid, w, fs)
    ensures AllPlain(es) && Starts(es) == fs
  {
    hide Apply, AllStarted, Run, Starts;
    var s0, m := Fresh(wid, w), |fs| - 1;
    if m == 0 {
      es := [Start(fs[0])];
      RunOne(s0, Start(fs[0]));
      FirstStarts(wid, w, fs);
      StartsSnoc([], Start(fs[0]));
      assert [] + es == es && Starts([]) == [] by { NoStarts(); }
    } else {
      var before := ManyStarts(wid, w, fs[..m]);
      var s := Run(s0, before);
      es := before + [Start(fs[m])];
      RunConcat(s0, before, [Start(fs[m])]);
      RunOne(s, Start(fs[m]));
      NextStarts(s, wid, w, fs);
      StartsSnoc(before, Start(fs[m]));
    }
  }

  ghost predicate AllStarted(s: Workflow, wid: string, w: World, fs: seq<Entry>)
    requires fs != []
  {
    && s.workflowId == wid && s.world == w && s.overlaps == |fs| - 1 && s.checkpoint == Some(Initial(wid, fs[0]))
    && |s.runs| == |fs| && forall j :: 0 <= j < |fs| ==> s.runs[j] == NewInvocation(true, wid, fs[0])
  }

  lemma FirstStarts(wid: string, w: World, fs: seq<Entry>)
    requires |fs| == 1
    ensures AllStarted(Apply(Fresh(wid, w), Start(fs[0])), wid, w, fs)
  {
    hide Apply;
    StartAdds(Fresh(wid, w), Start(fs[0]));
  }

  lemma NextStarts(s: Workflow, wid: string, w: World, fs: seq<Entry>)
    requires |fs| > 1 && AllStarted(s, wid, w, fs[..|fs| - 1])
    ensures AllStarted(Apply(s, Start(fs[|fs| - 1])), wid, w, fs)
  {
    hide Apply;
    StartAdds(s, Start(fs[|fs| - 1]));
    assert s.runs[0].durable && Active(s.runs[0]);
  }

  lemma NoStarts()
    ensures Starts([]) == []
  {}

  /** The failing steps the durable starts bring, in order. */
  function Starts(es: seq<Event>): seq<Entry> {
    if es == [] then [] else Starts(es[..|es| - 1]) + if es[|es| - 1].Start? then [es[|es| - 1].failing] else []
  }

  lemma StartsSnoc(es: seq<Event>, e: Event)
    ensures Starts(es + [e]) == Starts(es) + if e.Start? then [e.failing] else []
  {
    assert (es + [e])[..|es|] == es;
  }

  lemma {:induction false} StartsOfWork(es: seq<Event>, more: seq<Event>)
    requires forall k :: 0 <= k < |more| ==> !more[k].Start?
    ensures Starts(es + more) == Starts(es)
  {
    if more == [] {
      assert es + more == es;
    } else {
      StartsOfWork(es, more[..|more| - 1]);
      InitOfAppend(es, more);
    }
  }

  /** All have started, the first `m` have run to their end, with the generous answers. */
  ghost predicate SomeFinished(s: Workflow, wid: string, w: World, fs: seq<Entry>, m: nat, id: string)
    requires fs != []
  {
    && s.overlaps == |fs| - 1 && |s.runs| == |fs|
    && (forall j :: 0 <= j < |fs| ==> s.runs[j].durable && s.runs[j].stage == Between)
    && (forall j :: m <= j < |fs| ==> s.runs[j] == NewInvocation(true, wid, fs[0]))
    && Posts(s.world, id) >= Posts(w, id) + m
    && s.world.ledger == w.ledger && SameOpen(w.breakers, s.world.breakers)
  }

  lemma {:induction false} FinishSome(wid: string, w: World, fs: seq<Entry>, i: nat, m: nat) returns (es: seq<Event>)
    requires fs != [] && i < |PlanFrom(w.ledger, InitialState(wid, fs[0]))| && m <= |fs|
    requires Reachable(w.breakers, PlanFrom(w.ledger, InitialState(wid, fs[0]))[i].merchant)
    ensures SomeFinished(Run(Fresh(wid, w), es), wid, w, fs, m, PlanFrom(w.ledger, InitialState(wid, fs[0]))[i].stepId)
    ensures AllPlain(es) && Starts(es) == fs
  {
    hide Apply, Posts, PlanFrom, NodeInv, ResultsJustified, Registered, Starts;
    var c0, s0 := Initial(wid, fs[0]), Fresh(wid, w);
    if m == 0 {
      es := ManyStarts(wid, w, fs);
    } else {
      var before := FinishSome(wid, w, fs, i, m - 1);
      var s := Run(s0, before);
      InitialConsistent(wid, fs[0]);
      var more := InvocationByItself(s, m - 1, Generous(), 0);
      es := before + more;
      RunConcat(s0, before, more);
      StartsOfWork(before, more);
      hide Run, Finish;
      InitialReachesAll(wid, fs[0], s.world.breakers);
      GenerousFinishReachesAll(c0, s.world, Generous(), 0, s.world.breakers);
      GenerousRunPosts(wid, fs[0], s.world, i);
    }
  }

  lemma InitialReachesAll(wid: string, failing: Entry, bs: Breakers)
    ensures AllReachable(Initial(wid, failing), bs) && SameOpen(bs, bs)
  {}

  /** Nobody died, and nobody ignored the checkpoint. */
  ghost predicate Undisturbed(s: Workflow) {
    forall j :: 0 <= j < |s.runs| ==> s.runs[j].durable && !s.runs[j].stage.Dead?
  }

  lemma {:induction false} UndisturbedTallies(runs: seq<Invocation>, id: string)
    requires forall j :: 0 <= j < |runs| ==> runs[j].durable && !runs[j].stage.Dead?
    ensures Tally(runs, id, Deaths) == 0 && Tally(runs, id, Ignoring) == 0
  {
    if runs != [] {
      UndisturbedTallies(runs[..|runs| - 1], id);
    }
  }

  /**
   The bound cannot be improved: for every n + 1 messages, whatever failing steps they
   bring, there is a run without a death and without a fallback in which n of them overlap,
   and which POSTs every step of the first message's plan that is at a reachable merchant
   exactly n + 1 times.
   */
  lemma OverlapBoundIsReached(wid: string, w: World, fs: seq<Entry>, i: nat) returns (es: seq<Event>)
    requires fs != [] && DistinctIds(w.ledger) && i < |PlanFrom(w.ledger, InitialState(wid, fs[0]))|
    requires Reachable(w.breakers, PlanFrom(w.ledger, InitialState(wid, fs[0]))[i].merchant)
    ensures var s := Run(Fresh(wid, w), es);
      var id := PlanFrom(w.ledger, InitialState(wid, fs[0]))[i].stepId;
      s.overlaps == |fs| - 1 && Undisturbed(s) && DistinctIds(s.world.ledger) && Posts(s.world, id) == Posts(w, id) + |fs|
    ensures AllPlain(es) && Starts(es) == fs
  {
    es := FinishSome(wid, w, fs, i, |fs|);
    hide Run, Posts, PlanFrom, Tally, DistinctIds, Starts;
    var s, id := Run(Fresh(wid, w), es), PlanFrom(w.ledger, InitialState(wid, fs[0]))[i].stepId;
    UndisturbedTallies(s.runs, id);
    PostedAtMostOncePlusOverlaps(wid, w, es, id);
  }

  /**
   The exact condition. As long as there is something to undo at a merchant that can be
   reached: runs without deaths and fallbacks, with up to n deliveries that begin while
   another is at work, never repeat a refund if and only if n is zero. Each delivery has
   a failing step of its own.
   */
  lemma AtMostOnceIffNeverOverlapping(wid: string, failing: Entry, w: World, i: nat, n: nat)
    requires DistinctIds(w.ledger) && i < |PlanFrom(w.ledger, InitialState(wid, failing))|
    requires Reachable(w.breakers, PlanFrom(w.ledger, InitialState(wid, failing))[i].merchant)
    ensures (forall es :: NeverRepeats(wid, w, es, n)) <==> n == 0
  {
    hide Run, Posts, PlanFrom, Tally, DistinctIds;
    if n == 0 {
      forall es ensures NeverRepeats(wid, w, es, 0) {
        var s := Run(Fresh(wid, w), es);
        if s.overlaps == 0 && Undisturbed(s) && DistinctIds(s.world.ledger) {
          forall id ensures Posts(s.world, id) <= Posts(w, id) + 1 {
            UndisturbedTallies(s.runs, id);
            PostedAtMostOncePlusOverlaps(wid, w, es, id);
          }
        }
      }
    } else {
      var es := OverlapBoundIsReached(wid, w, seq(n + 1, _ => failing), i);
      assert !NeverRepeats(wid, w, es, n);
    }
  }

  ghost predicate NeverRepeats(wid: string, w: World, es: seq<Event>, n: nat) {
    var s := Run(Fresh(wid, w), es);
    s.overlaps <= n && Undisturbed(s) && DistinctIds(s.world.ledger) ==> forall id :: Posts(s.world, id) <= Posts(w, id) + 1
  }

  /** A delivery that overlaps: it begins beside another, or after looking in vain for a checkpoint there now is. */
  ghost predicate Overlaps(s: Workflow, e: Event) {
    (e.Start? && DurableAtWork(s.runs)) || (e.StartAnew? && s.checkpoint.Some?)
  }

  ghost predicate NeverOverlaps(wid: string, w: World, es: seq<Event>) {
    forall k :: 0 <= k < |es| ==> !Overlaps(Run(Fresh(wid, w), es[..k]), es[k])
  }

  lemma NeverOverlapsSnoc(wid: string, w: World, es: seq<Event>)
    requires es != []
    ensures var init := es[..|es| - 1];
      NeverOverlaps(wid, w, es) <==>
        NeverOverlaps(wid, w, init) && !Overlaps(Run(Fresh(wid, w), init), es[|es| - 1])
  {
    hide Run, Overlaps;
    var init := es[..|es| - 1];
    assert forall k :: 0 <= k < |init| ==> init[k] == es[k] && init[..k] == es[..k];
    assert es[..|init|] == init;
  }

  /** `overlaps` is read off the events: it is zero if and only if no delivery overlapped. */
  lemma {:induction false} NoOverlapIff(wid: string, w: World, es: seq<Event>)
    ensures Run(Fresh(wid, w), es).overlaps == 0 <==> NeverOverlaps(wid, w, es)
  {
    hide Apply, Overlaps, NeverOverlaps;
    if es != [] {
      NoOverlapIff(wid, w, es[..|es| - 1]);
      OverlapsGrow(Run(Fresh(wid, w), es[..|es| - 1]), es[|es| - 1]);
      NeverOverlapsSnoc(wid, w, es);
    } else {
      NoEventsNeverOverlap(wid, w);
    }
  }

  lemma NoEventsNeverOverlap(wid: string, w: World)
    ensures NeverOverlaps(wid, w, [])
  {}

  lemma OverlapsGrow(s: Workflow, e: Event)
    ensures Apply(s, e).overlaps == s.overlaps + if Overlaps(s, e) then 1 else 0
  {
    hide Next, Effects, Runnable, ApplyEffect, DurableAtWork;
  }

  // ---- failing closed, invocation by invocation ----

  lemma EventKeepsForbidden(s: Workflow, e: Event, i: nat, n: nat)
    requires AllOk(s) && i < |s.runs| && Forbidden(s.runs[i].cfg, n)
    ensures var s' := Apply(s, e);
      i < |s'.runs| && Forbidden(s'.runs[i].cfg, n) && s'.runs[i].cfg.plan == s.runs[i].cfg.plan
  {
    hide Next, Effects, Forbidden, ApplyEffect, CfgOk;
    assert RunOk(s.runs[i], s);
    if e == Commit(i) && CanCommit(s.runs[i]) {
      ConsistentOf(s.runs[i], s);
      NodeKeepsForbidden(s.runs[i].cfg, s.runs[i].stage.seen, s.runs[i].stage.ans, n);
    }
  }

  lemma ConsistentOf(r: Invocation, s: Workflow)
    requires RunOk(r, s)
    ensures Consistent(r.cfg) && Loaded(r.cfg, s.world)
  {}

  lemma {:induction false} ForbiddenStays(s: Workflow, es: seq<Event>, i: nat, n: nat)
    requires AllOk(s) && i < |s.runs| && Forbidden(s.runs[i].cfg, n)
    ensures var s' := Run(s, es);
      && AllOk(s') && i < |s'.runs| && Forbidden(s'.runs[i].cfg, n) && s'.runs[i].cfg.plan == s.runs[i].cfg.plan
  {
    hide Apply, AllOk, Forbidden;
    if es != [] {
      ForbiddenStays(s, es[..|es| - 1], i, n);
      ApplyKeepsOk(Run(s, es[..|es| - 1]), es[|es| - 1]);
      EventKeepsForbidden(Run(s, es[..|es| - 1]), es[|es| - 1], i, n);
    }
  }

  lemma ForbiddenIsNotSent(r: Invocation, s: Workflow, n: nat)
    requires RunOk(r, s) && DistinctIds(s.world.ledger) && Forbidden(r.cfg, n)
    ensures Known(r, r.cfg.plan[n].stepId) == 0
    ensures n < |r.cfg.st.results| ==>
      r.cfg.st.results[n].stepId == r.cfg.plan[n].stepId && r.cfg.st.results[n].outcome in {NonRefundable, Dlq}
  {
    ConsistentOf(r, s);
    LoadingIsEmpty(r.cfg);
    PlanDistinct(r.cfg, s.world);
    ForbiddenHasNoPostedResult(r.cfg, n);
    ConsistentMatched(r.cfg);
    hide PostedResults, Effects, NodeInv, Loaded, PostedBy;
    if Unfinished(r, r.cfg.plan[n].stepId) > 0 {
      DeathIsPermitted(r.cfg, r.stage.seen, r.stage.ans, r.stage.k, r.cfg.plan[n].stepId);
    }
  }

  /**
   Fail closed, however invocations overlap: once policy fetch, extraction service or
   both extraction attempts have failed in an invocation, or it has read the policy as
   non-refundable, that invocation never POSTs the step, and its outcome there, once there
   is one, is `non_refundable` or `dlq`. Another invocation asks again and may be answered.
   */
  lemma DenialNeverRefundsThere(wid: string, w: World, before: seq<Event>, i: nat, after: seq<Event>)
    requires var s := Run(Fresh(wid, w), before);
      i < |s.runs| && CanCommit(s.runs[i]) && PolicyDenies(s.runs[i].cfg, s.runs[i].stage.ans)
    requires DistinctIds(Run(Fresh(wid, w), before + [Commit(i)] + after).world.ledger)
    ensures var cfg := Run(Fresh(wid, w), before).runs[i].cfg;
      var s := Run(Fresh(wid, w), before + [Commit(i)] + after);
      var n := |cfg.st.results|;
      && cfg.st.current.Some? && i < |s.runs|
      && Known(s.runs[i], cfg.st.current.value.stepId) == 0
      && (n < |s.runs[i].cfg.st.results| ==>
            s.runs[i].cfg.st.results[n].stepId == cfg.st.current.value.stepId
            && s.runs[i].cfg.st.results[n].outcome in {NonRefundable, Dlq})
  {
    var s0 := Run(Fresh(wid, w), before);
    var r, n := s0.runs[i], |s0.runs[i].cfg.st.results|;
    RunKeepsOk(wid, w, before);
    assert RunOk(r, s0);
    ConsistentOf(r, s0);
    DenialForbids(r.cfg, r.stage.seen, r.stage.ans);
    ApplyKeepsOk(s0, Commit(i));
    var s1 := Apply(s0, Commit(i));
    assert i < |s1.runs| && s1.runs[i].cfg == Next(r.cfg, r.stage.seen, r.stage.ans);
    RunConcat(Fresh(wid, w), before, [Commit(i)]);
    RunOne(s0, Commit(i));
    RunConcat(Fresh(wid, w), before + [Commit(i)], after);
    hide Apply, Run, Next, RunOk, CfgOk, Forbidden, PolicyDenies, Effects, Runnable, Known, DistinctIds, NodeInv, ResultsJustified;
    ForbiddenStays(s1, after, i, n);
    ForbiddenIsNotSent(Run(s1, after).runs[i], Run(s1, after), n);
  }

  // ---- steps and money, invocation by invocation ----

  /** Decided steps, step in flight and steps left are, in order, the undo list of the ledger as it was loaded. */
  ghost predicate StepsConserved(cfg: Cfg, s: Workflow) {
    cfg.node != LoadLog ==>
      && cfg.loadedAt <= |s.world.ledger|
      && cfg.plan == UndoList(StepsOf(s.world.ledger[..cfg.loadedAt], s.workflowId), cfg.st.failing.stepId)
      && ResultIds(cfg.st.results) + InFlightIds(cfg) + Ids(cfg.st.toUndo) == Ids(cfg.plan)
      && (cfg.node == End ==> ResultIds(cfg.st.results) == Ids(cfg.plan))
  }

  lemma OkConserves(cfg: Cfg, s: Workflow)
    requires CfgOk(cfg, s)
    ensures StepsConserved(cfg, s)
  {
    if cfg.node != LoadLog { StepsAreConserved(cfg); }
    hide Consistent, UndoList, StepsOf, Ids, ResultIds, InFlightIds;
  }

  /**
   However invocations overlap, in each of them, and in the checkpoint: decided steps, step
   in flight and steps left are, in order, the settled steps of the ledger as that invocation
   loaded it, its own failing step excepted; at the end each has exactly one outcome.
   */
  lemma EachInvocationConservesSteps(wid: string, w: World, es: seq<Event>)
    ensures var s := Run(Fresh(wid, w), es);
      && (forall i :: 0 <= i < |s.runs| ==> StepsConserved(s.runs[i].cfg, s))
      && (s.checkpoint.Some? ==> StepsConserved(s.checkpoint.value, s))
  {
    hide Run, CfgOk, StepsConserved;
    var s := Run(Fresh(wid, w), es);
    RunKeepsOk(wid, w, es);
    forall i | 0 <= i < |s.runs| ensures StepsConserved(s.runs[i].cfg, s) {
      assert RunOk(s.runs[i], s);
      OkConserves(s.runs[i].cfg, s);
    }
    if s.checkpoint.Some? { OkConserves(s.checkpoint.value, s); }
  }

  /**
   A liability report, where there is one, splits the settled total of the undone steps into
   refunded and unrecovered, and unrecovered are exactly the steps whose refund no merchant
   accepted.
   */
  ghost predicate MoneyPartitioned(cfg: Cfg) {
    cfg.st.liability.Some? ==>
      && |cfg.st.results| == |cfg.plan|
      && SettledTotal(cfg.plan, |cfg.plan|) ==
           RefundedTotal(cfg.plan, cfg.st.results, |cfg.plan|) + cfg.st.liability.value.financialImpact
      && |cfg.heard| == |cfg.plan|
      && cfg.st.liability.value.financialImpact == UnacceptedTotal(cfg.plan, cfg.heard, |cfg.plan|)
  }

  ghost predicate ReportsPartition(s: Workflow) {
    && (forall i :: 0 <= i < |s.runs| ==> MoneyPartitioned(s.runs[i].cfg))
    && (s.checkpoint.Some? ==> MoneyPartitioned(s.checkpoint.value))
  }

  lemma InitialPartitions(wid: string, failing: Entry)
    ensures MoneyPartitioned(Initial(wid, failing))
  {}

  lemma ReportOnlyAtTheEnd(cfg: Cfg, w: World, ans: Answer)
    requires Consistent(cfg) && Runnable(cfg) && cfg.node != LiabilityNode
    ensures Next(cfg, w, ans).st.liability.None?
  {
    hide AttemptPlan, PlanFrom;
  }

  lemma CommitPartitions(r: Invocation, s: Workflow)
    requires RunOk(r, s) && r.stage.Inside? && DistinctIds(s.world.ledger)
    ensures MoneyPartitioned(Next(r.cfg, r.stage.seen, r.stage.ans))
  {
    hide Effects, PlanFrom, SettledTotal, RefundedTotal, UnacceptedTotal, ResultsJustified;
    var w := r.stage.seen;
    if r.cfg.node == LiabilityNode {
      assert forall i :: 0 <= i < |w.ledger| ==> w.ledger[i] == s.world.ledger[i];
      LiabilityPartitionsMoney(r.cfg, w, r.stage.ans);
      ImpactIsUnaccepted(r.cfg, w, r.stage.ans);
    } else {
      ReportOnlyAtTheEnd(r.cfg, w, r.stage.ans);
    }
  }

  lemma EventKeepsPartition(s: Workflow, e: Event)
    requires AllOk(s) && ReportsPartition(s) && DistinctIds(s.world.ledger)
    ensures ReportsPartition(Apply(s, e))
  {
    hide MoneyPartitioned, CfgOk, Next, Effects, Runnable, ApplyEffect, DistinctIds, DurableAtWork;
    if e.Commit? && e.i < |s.runs| && CanCommit(s.runs[e.i]) {
      assert RunOk(s.runs[e.i], s);
      CommitPartitions(s.runs[e.i], s);
    }
    if e.Start? || e.StartAnew? || e.StartDegraded? { InitialPartitions(s.workflowId, e.failing); }
  }

  /**
   However invocations overlap, every liability report there is, that of the checkpoint and
   that of each invocation, partitions the money of the steps that invocation undid.
   */
  lemma {:induction false} EachReportPartitionsMoney(wid: string, w: World, es: seq<Event>)
    requires DistinctIds(Run(Fresh(wid, w), es).world.ledger)
    ensures ReportsPartition(Run(Fresh(wid, w), es))
  {
    hide Apply, AllOk, DistinctIds, MoneyPartitioned;
    if es != [] {
      var s, e := Run(Fresh(wid, w), es[..|es| - 1]), es[|es| - 1];
      DistinctEarlier(s, e);
      EachReportPartitionsMoney(wid, w, es[..|es| - 1]);
      RunKeepsOk(wid, w, es[..|es| - 1]);
      EventKeepsPartition(s, e);
    }
  }

  // ---- outcomes and requests, by the answers ----

  /** Every decided step's outcome, and what is reported as recovered, by what was answered. */
  ghost predicate OutcomesFollow(cfg: Cfg) {
    && |cfg.heard| == |cfg.st.results| <= |cfg.plan|
    && (forall i :: 0 <= i < |cfg.st.results| ==> Follows(cfg.plan[i], cfg.heard[i], cfg.st.results[i]))
    && RecoveredTotal(cfg.st.results, |cfg.st.results|) == AcceptedDue(cfg.plan, cfg.heard, |cfg.st.results|)
  }

  lemma ConsistentFollows(cfg: Cfg)
    requires Consistent(cfg)
    ensures OutcomesFollow(cfg)
  {
    RecoveredIsAcceptedDue(cfg, |cfg.st.results|);
    hide NodeInv, NowHeeded, Follows, Justified, RecoveredTotal, AcceptedDue;
  }

  /**
   However invocations overlap, in each of them, and in the checkpoint: a step is refunded if
   and only if its request was sent and the merchant's reply was a 200 that accepts it, every
   other outcome comes from its own answers likewise, and what is reported as recovered is
   what is due over the accepted refunds, as the policy read for each of them has it.
   */
  lemma EachOutcomeFollowsAnswers(wid: string, w: World, es: seq<Event>)
    ensures var s := Run(Fresh(wid, w), es);
      && (forall i :: 0 <= i < |s.runs| ==> OutcomesFollow(s.runs[i].cfg))
      && (s.checkpoint.Some? ==> OutcomesFollow(s.checkpoint.value))
  {
    hide Run, OutcomesFollow, Consistent, Loaded;
    var s := Run(Fresh(wid, w), es);
    RunKeepsOk(wid, w, es);
    forall i | 0 <= i < |s.runs| ensures OutcomesFollow(s.runs[i].cfg) {
      assert RunOk(s.runs[i], s);
      ConsistentFollows(s.runs[i].cfg);
    }
    if s.checkpoint.Some? { ConsistentFollows(s.checkpoint.value); }
  }

  /** A request for the refund of a settled row, sent and over what is due by some answers about it. */
  ghost predicate IsDueFor(p: Post, e: Entry, h: Heard) {
    && IsSent(e, h) && e.actual.status == Settled
    && p == Post(e.stepId, e.merchant, e.actual.settlementRef,
                 if NeedsRefundAmount(e.merchant) then Some(Due(e, RulingOf(e, h))) else None)
  }

  ghost predicate DueSomewhere(p: Post, ledger: seq<Entry>) {
    exists k: nat, h :: k < |ledger| && IsDueFor(p, ledger[k], h)
  }

  ghost predicate PostsAreDue(s: Workflow, start: World) {
    && |start.posts| <= |s.world.posts|
    && forall k :: |start.posts| <= k < |s.world.posts| ==> DueSomewhere(s.world.posts[k], s.world.ledger)
  }

  lemma DueStays(p: Post, ledger: seq<Entry>, ledger': seq<Entry>)
    requires DueSomewhere(p, ledger) && ledger <= ledger'
    ensures DueSomewhere(p, ledger')
  {
    var k: nat, h :| k < |ledger| && IsDueFor(p, ledger[k], h);
    assert IsDueFor(p, ledger'[k], h);
  }

  /** The step in flight is a settled row of the ledger. */
  lemma CurrentIsSettled(cfg: Cfg, w: World)
    requires Consistent(cfg) && Loaded(cfg, w) && cfg.node == AttemptRefund
    ensures cfg.st.current.Some? && cfg.st.current.value in w.ledger && cfg.st.current.value.actual.status == Settled
  {
    hide ResultsJustified, UndoList, StepsOf;
    var e := cfg.plan[|cfg.st.results|];
    UndoListMembers(StepsOf(w.ledger[..cfg.loadedAt], cfg.st.workflowId), cfg.st.failing.stepId, e);
    StepsOfMembers(w.ledger[..cfg.loadedAt], cfg.st.workflowId, e);
  }

  lemma HeededNow(cfg: Cfg)
    requires Consistent(cfg) && cfg.node == AttemptRefund
    ensures cfg.st.current.Some?
    ensures var e := cfg.st.current.value;
      TermsAre(RulingOf(e, cfg.now), cfg.st.terms) && AmountIs(e, RulingOf(e, cfg.now), cfg.st.refundAmount)
  {
    hide Follows, Justified, TermsAre, AmountIs, RulingOf;
  }

  /** What a node POSTs is due. */
  lemma EffectIsDue(cfg: Cfg, seen: World, ans: Answer, k: nat, w: World)
    requires Consistent(cfg) && Loaded(cfg, w) && Runnable(cfg) && k < |Effects(cfg, seen, ans)|
    ensures Effects(cfg, seen, ans)[k].PostRefund? ==> DueSomewhere(Effects(cfg, seen, ans)[k].post, w.ledger)
  {
    hide AttemptPlan, Consistent, Loaded, RulingOf, Due, TermsAre, AmountIs;
    HeededNow(cfg);
    CurrentIsSettled(cfg, w);
    EffectsFollow(cfg, seen.breakers, ans.refund);
    var e, h := cfg.st.current.value, HeardOf(cfg, seen.breakers, ans.refund);
    var j: nat :| j < |w.ledger| && w.ledger[j] == e;
    if Effects(cfg, seen, ans)[k].PostRefund? {
      assert IsDueFor(Effects(cfg, seen, ans)[k].post, w.ledger[j], h);
    }
  }

  lemma EventKeepsPostsDue(s: Workflow, e: Event, start: World)
    requires AllOk(s) && PostsAreDue(s, start)
    ensures PostsAreDue(Apply(s, e), start)
  {
    hide CfgOk, Effects, Runnable, Next, DueSomewhere, DurableAtWork;
    var s' := Apply(s, e);
    LedgerGrows(s, e);
    if e.Act? && e.i < |s.runs| && CanAct(s.runs[e.i]) {
      var r := s.runs[e.i];
      assert RunOk(r, s);
      ConsistentOf(r, s);
      EffectIsDue(r.cfg, r.stage.seen, r.stage.ans, r.stage.k, s.world);
    }
    forall k | |start.posts| <= k < |s'.world.posts| ensures DueSomewhere(s'.world.posts[k], s'.world.ledger) {
      DueStays(s'.world.posts[k], s.world.ledger, s'.world.ledger);
    }
  }

  /**
   In every interleaving, deaths included: every refund request a merchant gets is for a
   settled row, sent under a policy answer that allows it, names that row's settlement ref
   and, where the merchant asks for an amount, is over exactly what is due by that answer.
   */
  lemma {:induction false} EveryPostIsDue(wid: string, w: World, es: seq<Event>)
    ensures PostsAreDue(Run(Fresh(wid, w), es), w)
  {
    hide Apply, AllOk, PostsAreDue;
    if es != [] {
      EveryPostIsDue(wid, w, es[..|es| - 1]);
      RunKeepsOk(wid, w, es[..|es| - 1]);
      EventKeepsPostsDue(Run(Fresh(wid, w), es[..|es| - 1]), es[|es| - 1], w);
    } else {
      NoPostsYet(wid, w);
    }
  }

  lemma NoPostsYet(wid: string, w: World)
    ensures PostsAreDue(Fresh(wid, w), w)
  {}

  /**
   However invocations overlap, at a merchant with a policy each has attempted a step without
   terms exactly when the policy it read was empty; it then never calls the step
   `non_refundable`, and a refund brings back the whole settled amount.
   */
  lemma EmptyPolicyDecides(wid: string, w: World, es: seq<Event>, i: nat, n: nat)
    requires var s := Run(Fresh(wid, w), es);
      i < |s.runs| && n < |s.runs[i].cfg.st.results|
    ensures var cfg := Run(Fresh(wid, w), es).runs[i].cfg;
      && n < |cfg.plan| && n < |cfg.basis|
      && (HasPolicy(cfg.plan[n].merchant) ==>
            && (cfg.basis[n].terms.None? <==> cfg.basis[n].text == Some(""))
            && (cfg.basis[n].text == Some("") ==>
                  cfg.st.results[n].outcome != NonRefundable
                  && (cfg.st.results[n].outcome == WasRefunded ==> cfg.st.results[n].recovered == cfg.plan[n].actual.amount)))
  {
    var s := Run(Fresh(wid, w), es);
    RunKeepsOk(wid, w, es);
    hide Run, Effects, Runnable, NodeInv, Loaded;
    assert RunOk(s.runs[i], s);
    if HasPolicy(s.runs[i].cfg.plan[n].merchant) { UnreadPolicyIff(s.runs[i].cfg, n); }
  }

  /** Before any durable invocation has started, and with none that ignores checkpoints, nothing has been sent. */
  lemma NothingStartedNothingPosted(wid: string, w: World, es: seq<Event>, id: string)
    requires var s := Run(Fresh(wid, w), es); s.checkpoint.None? && Tally(s.runs, id, Ignoring) == 0
    ensures Posts(Run(Fresh(wid, w), es).world, id) == Posts(w, id)
  {
    var s := Run(Fresh(wid, w), es);
    EveryPostAccounted(wid, w, es, id);
    RunKeepsOk(wid, w, es);
    hide Run, Posts, DeadLetters, RunOk;
    CountsAll(s.runs, id);
  }

  lemma {:induction false} CountsAll(runs: seq<Invocation>, id: string)
    requires forall i :: 0 <= i < |runs| ==> !runs[i].durable
    ensures Tally(runs, id, Ignoring) == |runs|
  {
    if runs != [] {
      CountsAll(runs[..|runs| - 1], id);
    }
  }

  // ---- one invocation at a time is the model of SagaRecovery ----

  ghost predicate Asleep(runs: seq<Invocation>) {
    forall i :: 0 <= i < |runs| ==> !Active(runs[i])
  }

  /** A state with at most one invocation at work, the last one started, and the sequential state it stands for. */
  ghost predicate StandsFor(t: Workflow, s: SagaRecovery.System) {
    && t.world == s.world && t.workflowId == s.workflowId && t.checkpoint == s.checkpoint
    && t.overlaps == 0
    && match s.memory
       case Idle => Asleep(t.runs)
       case Checkpointed(cfg) =>
         && t.runs != [] && Asleep(t.runs[..|t.runs| - 1])
         && t.runs[|t.runs| - 1].durable && t.runs[|t.runs| - 1].cfg == cfg && t.runs[|t.runs| - 1].stage == Between
       case Degraded(cfg) =>
         && t.runs != [] && Asleep(t.runs[..|t.runs| - 1])
         && !t.runs[|t.runs| - 1].durable && t.runs[|t.runs| - 1].cfg == cfg && t.runs[|t.runs| - 1].stage == Between
  }

  /** Deaths and runs without checkpoint are counted alike. */
  ghost predicate CountsAlike(t: Workflow, s: SagaRecovery.System, id: string) {
    Tally(t.runs, id, Deaths) == s.deaths[id] && Tally(t.runs, id, Ignoring) == s.degradedRuns
  }

  /** The events of one sequential event. */
  function Spelled(t: Workflow, s: SagaRecovery.System, e: SagaRecovery.Event): seq<Event> {
    var last := if t.runs == [] then 0 else |t.runs| - 1;
    match e
    case Deliver(failing) => if s.memory == Idle then [Start(failing)] else []
    case DeliverDegraded(failing) => if s.memory == Idle then [StartDegraded(failing)] else []
    case RunNode(ans) =>
      if last < |t.runs| && CanRun(s.memory) && Runnable(t.runs[last].cfg) then NodeEvents(t, last, ans) else []
    case DieInside(ans, k) =>
      if last < |t.runs| && CanRun(s.memory) && Runnable(t.runs[last].cfg) then
        var m := |Effects(t.runs[last].cfg, t.world, ans)|;
        [Begin(last, ans)] + Acts(last, if k <= m then k else m) + [Quit(last)]
      else []
    case Stop => if s.memory == Idle then [] else [Quit(last)]
    case Outside(eff) => [Elsewhere(eff)]
  }

  lemma AsleepAppend(runs: seq<Invocation>, r: Invocation)
    requires Asleep(runs)
    ensures (runs + [r])[..|runs|] == runs && Asleep((runs + [r])[..|runs + [r]| - 1])
    ensures !DurableAtWork(runs)
  {}

  lemma AsleepUpdate(runs: seq<Invocation>, r: Invocation)
    requires runs != [] && Asleep(runs[..|runs| - 1])
    ensures var after := runs[|runs| - 1 := r];
      && after[..|runs| - 1] == runs[..|runs| - 1] && after != [] && after[|after| - 1] == r
      && (!Active(r) ==> Asleep(after))
  {
    var after := runs[|runs| - 1 := r];
    forall i | 0 <= i < |after| - 1 ensures !Active(after[i]) {
      assert runs[..|runs| - 1][i] == after[i];
    }
  }

  lemma StartIsSpelled(t: Workflow, s: SagaRecovery.System, e: SagaRecovery.Event, id: string)
    requires StandsFor(t, s) && CountsAlike(t, s, id) && (e.Deliver? || e.DeliverDegraded?)
    ensures StandsFor(Run(t, Spelled(t, s, e)), SagaRecovery.Apply(s, e))
    ensures CountsAlike(Run(t, Spelled(t, s, e)), SagaRecovery.Apply(s, e), id)
  {
    hide Apply, Run, Tally, Asleep, DurableAtWork, PostedResults, Unfinished, Known;
    if s.memory == Idle {
      var step := if e.Deliver? then Start(e.failing) else StartDegraded(e.failing);
      RunOne(t, step);
      StartAdds(t, step);
      var t' := Apply(t, step);
      var r := t'.runs[|t.runs|];
      AsleepAppend(t.runs, r);
      TallyAppend(t.runs, r, id, Deaths);
      TallyAppend(t.runs, r, id, Ignoring);
    } else {
      NoEvents(t);
    }
  }

  lemma NodeIsSpelled(t: Workflow, s: SagaRecovery.System, ans: Answer, id: string)
    requires StandsFor(t, s) && CountsAlike(t, s, id) && CanRun(s.memory)
    ensures StandsFor(Run(t, Spelled(t, s, RunNode(ans))), SagaRecovery.Apply(s, RunNode(ans)))
    ensures CountsAlike(Run(t, Spelled(t, s, RunNode(ans))), SagaRecovery.Apply(s, RunNode(ans)), id)
  {
    hide Tally, Asleep, Run, NodeEvents, Next, Executed, Effects, PostedBy, DeadBy, Runnable, PostedResults;
    var last := |t.runs| - 1;
    NodeByItself(t, last, ans);
    var t' := AfterNode(t, last, ans);
    AsleepUpdate(t.runs, t'.runs[last]);
    TallyUpdate(t.runs, last, t'.runs[last], id, Deaths);
    TallyUpdate(t.runs, last, t'.runs[last], id, Ignoring);
  }

  lemma DeathIsSpelled(t: Workflow, s: SagaRecovery.System, ans: Answer, k: nat, id: string)
    requires StandsFor(t, s) && CountsAlike(t, s, id) && CanRun(s.memory)
    ensures StandsFor(Run(t, Spelled(t, s, DieInside(ans, k))), SagaRecovery.Apply(s, DieInside(ans, k)))
    ensures CountsAlike(Run(t, Spelled(t, s, DieInside(ans, k))), SagaRecovery.Apply(s, DieInside(ans, k)), id)
  {
    hide Tally, Asleep, Run, Next, Effects, PostedBy, DeadBy, Runnable, PostedResults, ApplyEffects, ApplyEffect;
    var last := |t.runs| - 1;
    var es := Effects(t.runs[last].cfg, t.world, ans);
    var n := if k <= |es| then k else |es|;
    var first := [Begin(last, ans)] + Acts(last, n);
    ActsGoOn(t, last, ans, n);
    RunConcat(t, first, [Quit(last)]);
    var t1 := InsideNode(t, last, ans, n);
    RunOne(t1, Quit(last));
    assert es[..|es|] == es;
    var r := t1.runs[last].(stage := Dead(t.world, ans, n));
    assert Apply(t1, Quit(last)).runs == t.runs[last := r];
    AsleepUpdate(t.runs, r);
    TallyUpdate(t.runs, last, r, id, Deaths);
    TallyUpdate(t.runs, last, r, id, Ignoring);
  }

  lemma RestIsSpelled(t: Workflow, s: SagaRecovery.System, e: SagaRecovery.Event, id: string)
    requires StandsFor(t, s) && CountsAlike(t, s, id)
    requires e.Stop? || e.Outside? || ((e.RunNode? || e.DieInside?) && !CanRun(s.memory))
    ensures StandsFor(Run(t, Spelled(t, s, e)), SagaRecovery.Apply(s, e))
    ensures CountsAlike(Run(t, Spelled(t, s, e)), SagaRecovery.Apply(s, e), id)
  {
    hide Tally, Part, Asleep, Run, Next, Effects, Executed, Partly, PostedBy, DeadBy, Runnable, ApplyEffect;
    if e.Stop? && s.memory != Idle {
      StopIsSpelled(t, s, id);
    } else if e.Outside? {
      RunOne(t, Elsewhere(e.e));
    } else {
      NoEvents(t);
    }
  }

  lemma StopIsSpelled(t: Workflow, s: SagaRecovery.System, id: string)
    requires StandsFor(t, s) && CountsAlike(t, s, id) && s.memory != Idle
    ensures StandsFor(Run(t, [Quit(|t.runs| - 1)]), SagaRecovery.Apply(s, Stop))
    ensures CountsAlike(Run(t, [Quit(|t.runs| - 1)]), SagaRecovery.Apply(s, Stop), id)
  {
    hide Tally, Asleep, Run, PostedResults, Unfinished, Attempted;
    var last := |t.runs| - 1;
    RunOne(t, Quit(last));
    var r := t.runs[last].(stage := Over);
    assert Apply(t, Quit(last)).runs == t.runs[last := r];
    AsleepUpdate(t.runs, r);
    TallyUpdate(t.runs, last, r, id, Deaths);
    TallyUpdate(t.runs, last, r, id, Ignoring);
  }

  /**
   One invocation at a time: every run of `SagaRecovery` is an interleaving in which no
   delivery overlaps another, with the same world, checkpoint, deaths and fallbacks.
   What is proved of all interleavings holds of it.
   */
  lemma {:induction false} OneAtATime(wid: string, w: World, es: seq<SagaRecovery.Event>, id: string) returns (fs: seq<Event>)
    ensures StandsFor(Run(Fresh(wid, w), fs), SagaRecovery.Run(SagaRecovery.Fresh(wid, w), es))
    ensures CountsAlike(Run(Fresh(wid, w), fs), SagaRecovery.Run(SagaRecovery.Fresh(wid, w), es), id)
  {
    fs := [];
    if es != [] {
      var init, e := es[..|es| - 1], es[|es| - 1];
      var before := OneAtATime(wid, w, init, id);
      var t, s := Run(Fresh(wid, w), before), SagaRecovery.Run(SagaRecovery.Fresh(wid, w), init);
      fs := before + Spelled(t, s, e);
      RunConcat(Fresh(wid, w), before, Spelled(t, s, e));
      hide Apply, Run, Spelled, StandsFor, CountsAlike, CanRun;
      if e.Deliver? || e.DeliverDegraded? {
        StartIsSpelled(t, s, e, id);
      } else if e.RunNode? && CanRun(s.memory) {
        NodeIsSpelled(t, s, e.ans, id);
      } else if e.DieInside? && CanRun(s.memory) {
        DeathIsSpelled(t, s, e.ans, e.k, id);
      } else {
        RestIsSpelled(t, s, e, id);
      }
    }
  }
}
