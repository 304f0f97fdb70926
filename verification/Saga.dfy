/**
 compensating_agent/graph.py: the compensation saga. A node is a pair: the durable
 effects it has, in order, and the graph state and next node it leads to. HTTP answers
 are arbitrary inputs.
 */
module Saga {
  import opened Wrappers
  import opened Schemas
  import opened RefundMath
  import opened Tables
  import opened PolicyExtractor
  import StreamQueue
  import FaultClassifier
  import Database

  datatype UndoOutcome = WasRefunded | NonRefundable | Dlq | Rejected | Errored

  datatype Message =
    | BreakerOpenQueued | PolicyPrevents | RefundSuccessful | GatewayRejected(code: int)
    | MerchantError(isOpen: bool) | NoEndpoint | ExceptionText

  datatype UndoResult = UndoResult(stepId: string, merchant: MerchantId, outcome: UndoOutcome, recovered: real, message: Message)

  /** The outcome was recorded after a /refund request was sent. */
  predicate WasPosted(r: UndoResult) {
    r.message.RefundSuccessful? || r.message.GatewayRejected? || r.message.MerchantError? || r.message.ExceptionText?
  }

  datatype Udir = Udir(originalRef: string, expected: real, actual: real)

  datatype Liability = Liability(workflowId: string, stepId: string, financialImpact: real)

  /** CompensationState */
  datatype State = State(
    workflowId: string, failing: Entry, toUndo: seq<Entry>, current: Option<Entry>,
    policyText: Option<string>, terms: Option<Terms>, refundAmount: Option<real>,
    results: seq<UndoResult>, fault: Option<FaultClassification>, udir: Option<Udir>, liability: Option<Liability>)

  datatype Node =
    | LoadLog | SelectNext | FetchPolicy | ExtractTerms | ComputeAmount | AttemptRefund
    | ClassifyNode | UdirNode | LiabilityNode | End

  /** What was known of a step's policy when its refund was attempted. */
  datatype PolicyBasis = Basis(text: Option<string>, terms: Option<Terms>)

  /**
   What was answered about a step: the fetch of its policy, if it has one, the extraction,
   whether its merchant's breaker was open, and what became of the refund request.
   */
  datatype Heard = Heard(fetch: Option<FetchReply>, extract: Option<ExtractReply>, isOpen: bool, reply: Option<RefundReply>)

  const NOTHING_HEARD := Heard(None, None, false, None)

  /**
   A point of a run: the node to execute next and the graph state. The other fields are
   history: the undo list as loaded, the ledger length at that moment, the basis of each
   result, what was answered about each, and so far about the step in flight.
   */
  datatype Cfg = Cfg(
    node: Node, st: State, plan: seq<Entry>, loadedAt: nat, basis: seq<PolicyBasis>, heard: seq<Heard>, now: Heard)

  datatype Post = Post(stepId: string, merchant: MerchantId, settlementRef: string, amount: Option<real>)

  /** The durable world: breakers, dead letters, the ledger, and the refund requests merchants were sent. */
  datatype World = World(breakers: Breakers, dlq: seq<DlqRow>, ledger: seq<Entry>, posts: seq<Post>)

  datatype Effect =
    | PostRefund(post: Post)
    | Reset(merchant: MerchantId)
    | RecordDown(merchant: MerchantId)
    | QueueDead(row: DlqRow)
    | AppendRow(entry: Entry)

  datatype FetchReply = PolicyFetched(text: string) | FetchRaised

  datatype ExtractReply = Served(first: StreamQueue.Outcome, second: StreamQueue.Outcome, parse: string -> Parsed) | ServiceRaised

  /**
   `accepted`: the body's status is refunded or success. `rowId` is None when writing the
   refund row failed. Another exception strikes before or after the breaker was reset.
   */
  datatype RefundReply = GatewayReplied(code: int, accepted: bool, rowId: Option<string>) | GatewayDown | OtherRaised(afterReset: bool)

  datatype Answer = Answer(fetch: FetchReply, extract: ExtractReply, refund: RefundReply)

  // ---- effects ----

  function ApplyEffect(w: World, e: Effect): World {
    match e
    case PostRefund(post) => w.(posts := w.posts + [post])
    case Reset(m) => w.(breakers := ResetBreaker(w.breakers, m))
    case RecordDown(m) => w.(breakers := RecordFailure(w.breakers, m))
    case QueueDead(row) => w.(dlq := w.dlq + [row])
    case AppendRow(entry) => w.(ledger := w.ledger + [entry])
  }

  function ApplyEffects(w: World, es: seq<Effect>): World {
    if es == [] then w else ApplyEffect(ApplyEffects(w, es[..|es| - 1]), es[|es| - 1])
  }

  // ---- load and select ----

  predicate ToBeUndone(e: Entry, failingId: string) {
    e.stepId != failingId && e.actual.status == Settled
  }

  /** The settled steps other than the failing one, newest first. */
  function UndoList(steps: seq<Entry>, failingId: string): seq<Entry> {
    if steps == [] then []
    else
      (if ToBeUndone(steps[|steps| - 1], failingId) then [steps[|steps| - 1]] else []) + UndoList(steps[..|steps| - 1], failingId)
  }

  function PlanFrom(ledger: seq<Entry>, st: State): seq<Entry> {
    UndoList(StepsOf(ledger, st.workflowId), st.failing.stepId)
  }

  // ---- the refund attempt ----

  function DeadLetter(st: State, e: Entry, amount: real): DlqRow {
    DlqRow(st.workflowId, e.merchant, e.stepId, amount, e.actual.settlementRef)
  }

  function RefundRow(st: State, e: Entry, amount: real, rowId: string): Entry {
    var payee := MerchantText(e.merchant);
    Entry(rowId, st.workflowId, Refund, e.merchant, Expected(amount, payee),
          Actual(amount, payee, e.actual.settlementRef, Status.Refunded), RawResponse(None, NoError))
  }

  function OrZero(amount: Option<real>): real {
    if amount.Some? then amount.value else 0.0
  }

  datatype Plan = Plan(effects: seq<Effect>, result: UndoResult)

  function AttemptPlan(st: State, breakers: Breakers, reply: RefundReply): Plan
    requires st.current.Some?
  {
    var e := st.current.value;
    var m := e.merchant;
    if BreakerOpen(breakers, m) then
      Plan([QueueDead(DeadLetter(st, e, OrZero(st.refundAmount)))], UndoResult(e.stepId, m, Dlq, 0.0, BreakerOpenQueued))
    else if st.refundAmount.None? && st.terms.Some? then
      Plan([], UndoResult(e.stepId, m, NonRefundable, 0.0, PolicyPrevents))
    else
      var amount := if st.refundAmount.None? then e.actual.amount else st.refundAmount.value;
      if !Registered(m) then Plan([], UndoResult(e.stepId, m, Errored, 0.0, NoEndpoint))
      else
        var post := PostRefund(Post(e.stepId, m, e.actual.settlementRef, if NeedsRefundAmount(m) then Some(amount) else None));
        match reply
        case GatewayReplied(code, accepted, rowId) =>
          if code == 200 && accepted then
            Plan([post, Reset(m)] + (if rowId.Some? then [AppendRow(RefundRow(st, e, amount, rowId.value))] else []),
                 UndoResult(e.stepId, m, WasRefunded, amount, RefundSuccessful))
          else Plan([post, Reset(m)], UndoResult(e.stepId, m, Rejected, 0.0, GatewayRejected(code)))
        case GatewayDown =>
          Plan([post, RecordDown(m), QueueDead(DeadLetter(st, e, amount))],
               UndoResult(e.stepId, m, Dlq, 0.0, MerchantError(BreakerOpen(RecordFailure(breakers, m), m))))
        case OtherRaised(afterReset) => Plan([post] + (if afterReset then [Reset(m)] else []), UndoResult(e.stepId, m, Errored, 0.0, ExceptionText))
  }

  /** Which reply makes a refund: a request was sent, and the merchant answers 200 and accepts. Only then is anything recovered. */
  lemma RefundedIffAccepted(st: State, breakers: Breakers, reply: RefundReply)
    requires st.current.Some?
    ensures var r := AttemptPlan(st, breakers, reply).result;
      && (r.outcome == WasRefunded <==> WasPosted(r) && reply.GatewayReplied? && reply.code == 200 && reply.accepted)
      && (r.outcome != WasRefunded ==> r.recovered == 0.0)
      && (r.outcome == Rejected <==> WasPosted(r) && reply.GatewayReplied? && !(reply.code == 200 && reply.accepted))
  {}

  // ---- the liability report ----

  function FindStep(steps: seq<Entry>, stepId: string): Option<Entry> {
    if steps == [] then None
    else if steps[0].stepId == stepId then Some(steps[0])
    else FindStep(steps[1..], stepId)
  }

  function Unrecovered(r: UndoResult, steps: seq<Entry>): real {
    if r.outcome == WasRefunded then 0.0
    else
      var found := FindStep(steps, r.stepId);
      if found.Some? then found.value.actual.amount else 0.0
  }

  function TotalUnrecovered(results: seq<UndoResult>, steps: seq<Entry>): real {
    if results == [] then 0.0
    else TotalUnrecovered(results[..|results| - 1], steps) + Unrecovered(results[|results| - 1], steps)
  }

  // ---- the graph ----

  function InitialState(wid: string, failing: Entry): State {
    State(wid, failing, [], None, None, None, None, [], None, None, None)
  }

  function Initial(wid: string, failing: Entry): Cfg {
    Cfg(LoadLog, InitialState(wid, failing), [], 0, [], [], NOTHING_HEARD)
  }

  /** A node can run: the ones inside the loop need a step in flight. */
  predicate Runnable(cfg: Cfg) {
    cfg.node != End && (cfg.node in {FetchPolicy, ExtractTerms, ComputeAmount, AttemptRefund} ==> cfg.st.current.Some?)
  }

  function Effects(cfg: Cfg, w: World, ans: Answer): seq<Effect>
    requires Runnable(cfg)
  {
    if cfg.node == AttemptRefund then AttemptPlan(cfg.st, w.breakers, ans.refund).effects else []
  }

  function FetchedState(st: State, reply: FetchReply): State
    requires st.current.Some?
  {
    if !HasPolicy(st.current.value.merchant) then st.(policyText := None)
    else
      match reply
      case PolicyFetched(text) => st.(policyText := Some(text))
      case FetchRaised => st.(policyText := None, terms := Some(FAIL_SAFE))
  }

  function RouteAfterFetch(st: State): Node {
    if st.policyText.Some? && st.policyText.value != "" then ExtractTerms
    else if st.terms.Some? then ComputeAmount
    else AttemptRefund
  }

  function ExtractedState(st: State, reply: ExtractReply): State {
    if st.policyText.None? || st.policyText.value == "" then st.(terms := None)
    else
      match reply
      case Served(first, second, parse) => st.(terms := Some(ExtractedTerms(first, second, parse)))
      case ServiceRaised => st.(terms := Some(FAIL_SAFE))
  }

  function ComputedState(st: State): State
    requires st.current.Some?
  {
    var t := if st.terms.Some? then st.terms.value else Terms(false, None, false);
    st.(refundAmount := ComputeRefund(st.current.value.expected.amount, t.penalty, t.refundable))
  }

  /** All that was answered about the step in flight, once its refund was attempted. */
  function HeardOf(cfg: Cfg, breakers: Breakers, reply: RefundReply): Heard
    requires cfg.st.current.Some?
  {
    cfg.now.(isOpen := BreakerOpen(breakers, cfg.st.current.value.merchant), reply := Some(reply))
  }

  function Next(cfg: Cfg, w: World, ans: Answer): Cfg
    requires Runnable(cfg)
  {
    var st := cfg.st;
    match cfg.node
    case LoadLog =>
      var plan := PlanFrom(w.ledger, st);
      cfg.(node := SelectNext, st := st.(toUndo := plan, results := []), plan := plan, loadedAt := |w.ledger|, basis := [], heard := [])
    case SelectNext =>
      if st.toUndo == [] then cfg.(node := ClassifyNode, st := st.(current := None))
      else cfg.(node := FetchPolicy, now := NOTHING_HEARD,
                st := st.(current := Some(st.toUndo[0]), toUndo := st.toUndo[1..], policyText := None, terms := None, refundAmount := None))
    case FetchPolicy =>
      var st' := FetchedState(st, ans.fetch);
      cfg.(node := RouteAfterFetch(st'), st := st', now := cfg.now.(fetch := Some(ans.fetch)))
    case ExtractTerms =>
      cfg.(node := ComputeAmount, st := ExtractedState(st, ans.extract), now := cfg.now.(extract := Some(ans.extract)))
    case ComputeAmount => cfg.(node := AttemptRefund, st := ComputedState(st))
    case AttemptRefund =>
      cfg.(node := if st.toUndo == [] then ClassifyNode else SelectNext,
           st := st.(results := st.results + [AttemptPlan(st, w.breakers, ans.refund).result]),
           basis := cfg.basis + [Basis(st.policyText, st.terms)],
           heard := cfg.heard + [HeardOf(cfg, w.breakers, ans.refund)])
    case ClassifyNode =>
      var fault := FaultClassifier.ClassifyFault(st.failing.stepId, st.failing.raw);
      cfg.(node := if fault.fault == NetworkFault then UdirNode else LiabilityNode, st := st.(fault := Some(fault)))
    case UdirNode =>
      cfg.(node := End,
           st := st.(udir := Some(Udir(st.failing.actual.settlementRef, st.failing.expected.amount, st.failing.actual.amount))))
    case LiabilityNode =>
      cfg.(node := End,
           st := st.(liability := Some(Liability(st.workflowId, st.failing.stepId,
                                                 TotalUnrecovered(st.results, StepsOf(w.ledger, st.workflowId))))))
  }

  function Executed(cfg: Cfg, w: World, ans: Answer): World
    requires Runnable(cfg)
  {
    ApplyEffects(w, Effects(cfg, w, ans))
  }

  // ---- the same nodes over the database ----

  /** The merchants' /refund endpoints: a log of the requests. */
  class RefundApi {
    var posts: seq<Post>

    constructor ()
      ensures posts == []
    {
      posts := [];
    }
  }

  ghost function WorldOf(db: Database.Database, api: RefundApi): World
    reads db, api
  {
    World(db.breakers, db.dlq, db.ledger, api.posts)
  }

  method AttemptRefundNode(db: Database.Database, api: RefundApi, st: State, reply: RefundReply) returns (result: UndoResult)
    requires st.current.Some?
    modifies db`breakers, db`dlq, db`ledger, api
    ensures result == AttemptPlan(st, old(db.breakers), reply).result
    ensures WorldOf(db, api) == ApplyEffects(old(WorldOf(db, api)), AttemptPlan(st, old(db.breakers), reply).effects)
  {
    var e := st.current.value;
    var m := e.merchant;
    ghost var w := WorldOf(db, api);
    ghost var effects := AttemptPlan(st, db.breakers, reply).effects;
    UnrollEffects(w, effects);
    var isOpen := db.CheckCircuitBreaker(m);
    if isOpen {
      db.WriteDlqEntry(DeadLetter(st, e, OrZero(st.refundAmount)));
      return UndoResult(e.stepId, m, Dlq, 0.0, BreakerOpenQueued);
    }
    if st.refundAmount.None? && st.terms.Some? {
      return UndoResult(e.stepId, m, NonRefundable, 0.0, PolicyPrevents);
    }
    var amount := if st.refundAmount.None? then e.actual.amount else st.refundAmount.value;
    if !Registered(m) {
      return UndoResult(e.stepId, m, Errored, 0.0, NoEndpoint);
    }
    api.posts := api.posts + [Post(e.stepId, m, e.actual.settlementRef, if NeedsRefundAmount(m) then Some(amount) else None)];
    match reply
    case GatewayReplied(code, accepted, rowId) =>
      db.ResetCircuitBreaker(m);
      if code == 200 && accepted {
        if rowId.Some? {
          db.WriteTransactionStep(RefundRow(st, e, amount, rowId.value));
        }
        result := UndoResult(e.stepId, m, WasRefunded, amount, RefundSuccessful);
      } else {
        result := UndoResult(e.stepId, m, Rejected, 0.0, GatewayRejected(code));
      }
    case GatewayDown =>
      var nowOpen := db.RecordMerchantFailure(m);
      db.WriteDlqEntry(DeadLetter(st, e, amount));
      result := UndoResult(e.stepId, m, Dlq, 0.0, MerchantError(nowOpen));
    case OtherRaised(afterReset) =>
      if afterReset {
        db.ResetCircuitBreaker(m);
      }
      result := UndoResult(e.stepId, m, Errored, 0.0, ExceptionText);
  }

  /** At most three effects, one after the other. */
  lemma UnrollEffects(w: World, es: seq<Effect>)
    requires |es| <= 3
    ensures |es| == 1 ==> ApplyEffects(w, es) == ApplyEffect(w, es[0])
    ensures |es| == 2 ==> ApplyEffects(w, es) == ApplyEffect(ApplyEffect(w, es[0]), es[1])
    ensures |es| == 3 ==> ApplyEffects(w, es) == ApplyEffect(ApplyEffect(ApplyEffect(w, es[0]), es[1]), es[2])
  {
    if |es| >= 1 {
      assert es[..|es| - 1][..0] == [];
    }
    if |es| == 2 {
      assert es[..1] == [es[0]] && [es[0]][..0] == [];
      assert ApplyEffects(w, [es[0]]) == ApplyEffect(ApplyEffects(w, []), es[0]);
    }
    if |es| == 3 {
      assert es[..2] == [es[0], es[1]] && [es[0], es[1]][..1] == [es[0]] && [es[0]][..0] == [];
      assert ApplyEffects(w, [es[0]]) == ApplyEffect(ApplyEffects(w, []), es[0]);
      assert ApplyEffects(w, [es[0], es[1]]) == ApplyEffect(ApplyEffects(w, [es[0]]), es[1]);
    }
  }

  method SumUnrecovered(results: seq<UndoResult>, steps: seq<Entry>) returns (total: real)
    ensures total == TotalUnrecovered(results, steps)
  {
    total := 0.0;
    var i := 0;
    while i < |results|
      invariant 0 <= i <= |results|
      invariant total == TotalUnrecovered(results[..i], steps)
    {
      assert results[..i + 1][..i] == results[..i];
      if results[i].outcome != WasRefunded {
        var found := FindStep(steps, results[i].stepId);
        if found.Some? {
          total := total + found.value.actual.amount;
        }
      }
      i := i + 1;
    }
    assert results[..i] == results;
  }

  /** The reversed and filtered steps of `load_workflow_log`. */
  method LoadWorkflowLog(db: Database.Database, wid: string, failingId: string) returns (plan: seq<Entry>)
    ensures plan == UndoList(StepsOf(db.ledger, wid), failingId)
  {
    hide UndoList, StepsOf;
    var steps := db.GetWorkflowSteps(wid);
    plan := [];
    var i := |steps|;
    assert steps[..i] == steps && [] + UndoList(steps, failingId) == UndoList(steps, failingId);
    while i > 0
      invariant 0 <= i <= |steps|
      invariant plan + UndoList(steps[..i], failingId) == UndoList(steps, failingId)
    {
      i := i - 1;
      UndoListStep(steps, i, failingId);
      if steps[i].stepId != failingId && steps[i].actual.status == Settled {
        plan := plan + [steps[i]];
      }
    }
    UndoListOfNone(failingId);
  }

  lemma UndoListStep(steps: seq<Entry>, i: nat, failingId: string)
    requires i < |steps|
    ensures UndoList(steps[..i + 1], failingId) ==
      (if ToBeUndone(steps[i], failingId) then [steps[i]] else []) + UndoList(steps[..i], failingId)
  {
    assert steps[..i + 1][..i] == steps[..i];
  }

  lemma UndoListOfNone(failingId: string)
    ensures UndoList([], failingId) == []
  {}

  /** `fetch_policy`, after the answer of the merchant's /policy. */
  method FetchPolicyNode(st: State, reply: FetchReply) returns (st': State)
    requires st.current.Some?
    ensures st' == FetchedState(st, reply)
  {
    if !HasPolicy(st.current.value.merchant) {
      return st.(policyText := None);
    }
    if reply.FetchRaised? {
      return st.(policyText := None, terms := Some(FAIL_SAFE));
    }
    st' := st.(policyText := Some(reply.text));
  }

  /** `extract_policy_terms`, with the service's two attempts behind it. */
  method ExtractTermsNode(st: State, reply: ExtractReply) returns (st': State)
    ensures st' == ExtractedState(st, reply)
  {
    if st.policyText.None? || st.policyText.value == "" {
      return st.(terms := None);
    }
    if reply.ServiceRaised? {
      return st.(terms := Some(FAIL_SAFE));
    }
    var terms := ExtractPolicyTerms(reply.first, reply.second, reply.parse);
    st' := st.(terms := Some(terms));
  }

  /** `compute_refund_amount`: absent terms read as non-refundable. */
  method ComputeAmountNode(st: State) returns (st': State)
    requires st.current.Some?
    ensures st' == ComputedState(st)
  {
    var refundable, penalty := false, None;
    if st.terms.Some? {
      refundable, penalty := st.terms.value.refundable, st.terms.value.penalty;
    }
    var amount := ComputeRefund(st.current.value.expected.amount, penalty, refundable);
    st' := st.(refundAmount := amount);
  }

  /** One node of the graph, and the edge out of it. */
  method RunNode(db: Database.Database, api: RefundApi, cfg: Cfg, ans: Answer) returns (cfg': Cfg)
    requires Runnable(cfg)
    modifies db`breakers, db`dlq, db`ledger, api
    ensures cfg' == Next(cfg, old(WorldOf(db, api)), ans)
    ensures WorldOf(db, api) == Executed(cfg, old(WorldOf(db, api)), ans)
  {
    hide AttemptPlan, FetchedState, ExtractedState, ComputedState, FaultClassifier.ClassifyFault;
    var st := cfg.st;
    match cfg.node
    case LoadLog =>
      var plan := LoadWorkflowLog(db, st.workflowId, st.failing.stepId);
      cfg' := cfg.(node := SelectNext, st := st.(toUndo := plan, results := []), plan := plan, loadedAt := |db.ledger|, basis := [],
                   heard := []);
    case SelectNext =>
      if st.toUndo == [] {
        cfg' := cfg.(node := ClassifyNode, st := st.(current := None));
      } else {
        var current, rest := st.toUndo[0], st.toUndo[1..];
        cfg' := cfg.(node := FetchPolicy, now := NOTHING_HEARD,
                     st := st.(current := Some(current), toUndo := rest, policyText := None, terms := None, refundAmount := None));
      }
    case FetchPolicy =>
      var st' := FetchPolicyNode(st, ans.fetch);
      cfg' := cfg.(node := if st'.policyText.Some? && st'.policyText.value != "" then ExtractTerms
                           else if st'.terms.Some? then ComputeAmount
                           else AttemptRefund,
                   st := st', now := cfg.now.(fetch := Some(ans.fetch)));
    case ExtractTerms =>
      var st' := ExtractTermsNode(st, ans.extract);
      cfg' := cfg.(node := ComputeAmount, st := st', now := cfg.now.(extract := Some(ans.extract)));
    case ComputeAmount =>
      var st' := ComputeAmountNode(st);
      cfg' := cfg.(node := AttemptRefund, st := st');
    case AttemptRefund =>
      var heard := HeardOf(cfg, db.breakers, ans.refund);
      var result := AttemptRefundNode(db, api, st, ans.refund);
      cfg' := cfg.(node := if st.toUndo == [] then ClassifyNode else SelectNext,
                   st := st.(results := st.results + [result]),
                   basis := cfg.basis + [Basis(st.policyText, st.terms)],
                   heard := cfg.heard + [heard]);
    case ClassifyNode =>
      var fault := FaultClassifier.ClassifyFault(st.failing.stepId, st.failing.raw);
      cfg' := cfg.(node := if fault.fault == NetworkFault then UdirNode else LiabilityNode, st := st.(fault := Some(fault)));
    case UdirNode =>
      var payload := Udir(st.failing.actual.settlementRef, st.failing.expected.amount, st.failing.actual.amount);
      cfg' := cfg.(node := End, st := st.(udir := Some(payload)));
    case LiabilityNode =>
      var steps := db.GetWorkflowSteps(st.workflowId);
      var total := SumUnrecovered(st.results, steps);
      cfg' := cfg.(node := End, st := st.(liability := Some(Liability(st.workflowId, st.failing.stepId, total))));
  }
}
