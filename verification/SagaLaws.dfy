/**
 What every run of the saga keeps, node by node, and what a finished run has done.
 */
module SagaLaws {
  import opened Wrappers
  import opened Schemas
  import opened RefundMath
  import opened Tables
  import opened PolicyExtractor
  import opened Saga
  import opened SagaAnswers
  import FaultClassifier
  import Database

  // ---- one result and its grounds ----

  /** A fail-safe answer never allows a refund. */
  ghost predicate TermsOk(t: Terms) {
    t.isFailSafe ==> !t.refundable
  }

  /** What a refunded step should bring back, as computed. */
  ghost function RefundDue(e: Entry, b: PolicyBasis): Option<real> {
    if b.terms.None? then Some(e.actual.amount)
    else ComputeRefund(e.expected.amount, b.terms.value.penalty, b.terms.value.refundable)
  }

  /** The same before rounding to paise. */
  ghost function ExactDue(e: Entry, b: PolicyBasis): real {
    if b.terms.None? then e.actual.amount else ExactRefund(e.expected.amount, b.terms.value.penalty)
  }

  ghost predicate BasisOk(e: Entry, b: PolicyBasis) {
    && (HasPolicy(e.merchant) ==> (b.terms.None? <==> b.text == Some("")))
    && (b.terms.Some? ==> TermsOk(b.terms.value) && HasPolicy(e.merchant))
  }

  /** Result `r` is the one outcome of step `e`, and follows from its basis. */
  ghost predicate Justified(e: Entry, b: PolicyBasis, r: UndoResult) {
    && r.stepId == e.stepId && r.merchant == e.merchant
    && BasisOk(e, b)
    && (r.outcome == WasRefunded ==> WasPosted(r) && RefundDue(e, b) == Some(r.recovered))
    && (r.outcome != WasRefunded ==> r.recovered == 0.0)
    && (WasPosted(r) ==> b.terms.None? || b.terms.value.refundable)
    && (b.terms.Some? && !b.terms.value.refundable ==> r.outcome == NonRefundable || r.outcome == Dlq)
    && (r.outcome == NonRefundable ==> b.terms.Some? && !b.terms.value.refundable)
  }

  // ---- the invariant of the graph ----

  ghost predicate NoOutput(st: State) {
    st.udir.None? && st.liability.None?
  }

  /** The step in flight is the next of the plan, and what is left to undo follows it. */
  ghost predicate InFlight(cfg: Cfg) {
    var n := |cfg.st.results|;
    n < |cfg.plan| && cfg.st.current == Some(cfg.plan[n]) && cfg.st.toUndo == cfg.plan[n + 1..] && NoOutput(cfg.st)
  }

  ghost predicate AllUndone(cfg: Cfg) {
    |cfg.st.results| == |cfg.plan| && cfg.st.toUndo == []
  }

  ghost predicate Classified(st: State) {
    st.fault == Some(FaultClassifier.ClassifyFault(st.failing.stepId, st.failing.raw))
  }

  ghost predicate NodeInv(cfg: Cfg) {
    var st := cfg.st;
    match cfg.node
    case LoadLog => st.results == [] && cfg.plan == [] && NoOutput(st)
    case SelectNext => |st.results| <= |cfg.plan| && st.toUndo == cfg.plan[|st.results|..] && NoOutput(st)
    case FetchPolicy => InFlight(cfg) && st.policyText.None? && st.terms.None? && st.refundAmount.None?
    case ExtractTerms =>
      InFlight(cfg) && HasPolicy(st.current.value.merchant) && st.policyText.Some? && st.policyText.value != ""
      && st.terms.None? && st.refundAmount.None?
    case ComputeAmount => InFlight(cfg) && BasisOk(st.current.value, Basis(st.policyText, st.terms)) && st.terms.Some?
    case AttemptRefund =>
      InFlight(cfg) && BasisOk(st.current.value, Basis(st.policyText, st.terms))
      && st.refundAmount == if st.terms.None? then None else RefundDue(st.current.value, Basis(st.policyText, st.terms))
    case ClassifyNode => AllUndone(cfg) && NoOutput(st)
    case UdirNode => AllUndone(cfg) && NoOutput(st) && Classified(st) && st.fault.value.fault == NetworkFault
    case LiabilityNode => AllUndone(cfg) && NoOutput(st) && Classified(st) && st.fault.value.fault == AgentFault
    case End =>
      AllUndone(cfg) && Classified(st)
      && (st.udir.Some? <==> st.fault.value.fault == NetworkFault) && (st.liability.Some? <==> st.fault.value.fault == AgentFault)
      && (st.udir.Some? ==>
            st.udir.value == Udir(st.failing.actual.settlementRef, st.failing.expected.amount, st.failing.actual.amount))
      && (st.liability.Some? ==> st.liability.value.workflowId == st.workflowId && st.liability.value.stepId == st.failing.stepId)
  }

  /** What the answers about the step in flight have led to so far. */
  ghost predicate NowHeeded(cfg: Cfg) {
    match cfg.node
    case ExtractTerms => cfg.st.policyText.Some? && cfg.now.fetch == Some(PolicyFetched(cfg.st.policyText.value))
    case ComputeAmount => cfg.st.current.Some? && TermsAre(RulingOf(cfg.st.current.value, cfg.now), cfg.st.terms)
    case AttemptRefund =>
      && cfg.st.current.Some?
      && TermsAre(RulingOf(cfg.st.current.value, cfg.now), cfg.st.terms)
      && AmountIs(cfg.st.current.value, RulingOf(cfg.st.current.value, cfg.now), cfg.st.refundAmount)
    case _ => true
  }

  /** Every result follows from what was answered about its step. */
  ghost predicate AnswersHeeded(cfg: Cfg) {
    && |cfg.heard| == |cfg.st.results| <= |cfg.plan|
    && NowHeeded(cfg)
    && forall i :: 0 <= i < |cfg.st.results| ==> Follows(cfg.plan[i], cfg.heard[i], cfg.st.results[i])
  }

  ghost predicate ResultsJustified(cfg: Cfg) {
    && AnswersHeeded(cfg)
    && |cfg.basis| == |cfg.st.results| <= |cfg.plan|
    && forall i :: 0 <= i < |cfg.st.results| ==> Justified(cfg.plan[i], cfg.basis[i], cfg.st.results[i])
  }

  ghost predicate Consistent(cfg: Cfg) {
    NodeInv(cfg) && ResultsJustified(cfg)
  }

  lemma InitialConsistent(wid: string, failing: Entry)
    ensures Consistent(Initial(wid, failing))
  {}

  lemma ConsistentRuns(cfg: Cfg)
    requires Consistent(cfg) && cfg.node != End
    ensures Runnable(cfg)
  {}

  /** The result of an attempt is justified by the policy in hand. */
  lemma AttemptJustified(st: State, breakers: Breakers, reply: RefundReply)
    requires st.current.Some? && BasisOk(st.current.value, Basis(st.policyText, st.terms))
    requires st.refundAmount == if st.terms.None? then None else RefundDue(st.current.value, Basis(st.policyText, st.terms))
    ensures Justified(st.current.value, Basis(st.policyText, st.terms), AttemptPlan(st, breakers, reply).result)
  {}

  lemma FetchKeeps(cfg: Cfg, w: World, ans: Answer)
    requires NodeInv(cfg) && cfg.node == FetchPolicy
    ensures NodeInv(Next(cfg, w, ans))
  {}

  lemma ExtractKeeps(cfg: Cfg, w: World, ans: Answer)
    requires NodeInv(cfg) && cfg.node == ExtractTerms
    ensures NodeInv(Next(cfg, w, ans))
  {
    hide ExtractedTerms;
    if ans.extract.Served? {
      FailSafeIffBothAttemptsFail(ans.extract.first, ans.extract.second, ans.extract.parse);
    }
  }

  lemma FetchKeepsHeeded(cfg: Cfg, w: World, ans: Answer)
    requires NodeInv(cfg) && AnswersHeeded(cfg) && cfg.node == FetchPolicy
    ensures AnswersHeeded(Next(cfg, w, ans))
  {
    hide Follows;
  }

  lemma ExtractKeepsHeeded(cfg: Cfg, w: World, ans: Answer)
    requires NodeInv(cfg) && AnswersHeeded(cfg) && cfg.node == ExtractTerms
    ensures AnswersHeeded(Next(cfg, w, ans))
  {
    hide Follows, ExtractedRuling, ExtractedTerms;
    ExtractionIsRuling(ans.extract);
  }

  lemma ComputeKeepsHeeded(cfg: Cfg, w: World, ans: Answer)
    requires NodeInv(cfg) && AnswersHeeded(cfg) && cfg.node == ComputeAmount
    ensures AnswersHeeded(Next(cfg, w, ans))
  {
    hide Follows, RulingOf, ComputeRefund, ExactRefund, Round2;
    var t := cfg.st.terms.value;
    ComputedIsDue(cfg.st.current.value.expected.amount, t.penalty, t.refundable);
  }

  lemma AttemptKeepsHeeded(cfg: Cfg, w: World, ans: Answer)
    requires NodeInv(cfg) && AnswersHeeded(cfg) && cfg.node == AttemptRefund
    ensures AnswersHeeded(Next(cfg, w, ans))
  {
    hide Follows, RulingOf, AttemptPlan, TermsAre, AmountIs;
    AttemptFollows(cfg, w.breakers, ans.refund);
    var n, cfg' := |cfg.st.results|, Next(cfg, w, ans);
    assert cfg'.node != AttemptRefund && cfg'.node != ComputeAmount && cfg'.node != ExtractTerms;
    forall i | 0 <= i < n + 1 ensures Follows(cfg'.plan[i], cfg'.heard[i], cfg'.st.results[i]) {
      if i < n {
        assert Follows(cfg.plan[i], cfg.heard[i], cfg.st.results[i]);
      }
    }
  }

  lemma OthersKeepHeeded(cfg: Cfg, w: World, ans: Answer)
    requires NodeInv(cfg) && AnswersHeeded(cfg) && cfg.node in {LoadLog, SelectNext, ClassifyNode, UdirNode, LiabilityNode}
    ensures AnswersHeeded(Next(cfg, w, ans))
  {
    hide Follows, FaultClassifier.ClassifyFault, PlanFrom;
  }

  /** Every node keeps to the answers. */
  lemma NextKeepsHeeded(cfg: Cfg, w: World, ans: Answer)
    requires NodeInv(cfg) && AnswersHeeded(cfg) && Runnable(cfg)
    ensures AnswersHeeded(Next(cfg, w, ans))
  {
    hide NodeInv, AnswersHeeded, Next;
    match cfg.node
    case FetchPolicy => FetchKeepsHeeded(cfg, w, ans);
    case ExtractTerms => ExtractKeepsHeeded(cfg, w, ans);
    case ComputeAmount => ComputeKeepsHeeded(cfg, w, ans);
    case AttemptRefund => AttemptKeepsHeeded(cfg, w, ans);
    case _ => OthersKeepHeeded(cfg, w, ans);
  }

  lemma AttemptKeeps(cfg: Cfg, w: World, ans: Answer)
    requires Consistent(cfg) && cfg.node == AttemptRefund
    ensures Consistent(Next(cfg, w, ans))
  {
    AttemptJustified(cfg.st, w.breakers, ans.refund);
    NextKeepsHeeded(cfg, w, ans);
    hide AnswersHeeded, Justified;
    var n := |cfg.st.results|;
    var cfg' := Next(cfg, w, ans);
    assert cfg.plan[n + 1..] == [] <==> n + 1 == |cfg.plan|;
    forall i | 0 <= i < n + 1 ensures Justified(cfg'.plan[i], cfg'.basis[i], cfg'.st.results[i]) {
      if i < n {
        assert Justified(cfg.plan[i], cfg.basis[i], cfg.st.results[i]);
      }
    }
  }

  lemma OtherNodesKeep(cfg: Cfg, w: World, ans: Answer)
    requires NodeInv(cfg) && cfg.node in {LoadLog, SelectNext, ComputeAmount, ClassifyNode, UdirNode, LiabilityNode}
    ensures NodeInv(Next(cfg, w, ans))
  {
    if cfg.node == SelectNext && cfg.st.toUndo != [] {
      assert cfg.plan[|cfg.st.results|..][1..] == cfg.plan[|cfg.st.results| + 1..];
    }
  }

  /** Every node keeps the invariant, whatever the world and the answers. */
  lemma NextKeepsConsistent(cfg: Cfg, w: World, ans: Answer)
    requires Consistent(cfg) && Runnable(cfg)
    ensures Consistent(Next(cfg, w, ans))
  {
    hide AnswersHeeded, Justified;
    NextKeepsHeeded(cfg, w, ans);
    match cfg.node
    case FetchPolicy => FetchKeeps(cfg, w, ans);
    case ExtractTerms => ExtractKeeps(cfg, w, ans);
    case AttemptRefund => AttemptKeeps(cfg, w, ans);
    case _ => OtherNodesKeep(cfg, w, ans);
  }

  /**
   An empty policy text counts as no policy: from the fetch of a merchant that has one, the
   saga goes straight to the attempt, without terms, if and only if the text fetched is "";
   and the attempt then asks for the whole settled amount, and takes it if accepted.
   */
  lemma EmptyPolicyIsFullRefundIff(cfg: Cfg, w: World, ans: Answer, w': World, ans': Answer)
    requires Consistent(cfg) && cfg.node == FetchPolicy && HasPolicy(cfg.st.current.value.merchant)
    ensures var cfg', e := Next(cfg, w, ans), cfg.st.current.value;
      && (cfg'.node == AttemptRefund <==> ans.fetch == PolicyFetched(""))
      && (cfg'.node == AttemptRefund ==>
            && cfg'.st.current == Some(e)
            && (var asked := if NeedsRefundAmount(e.merchant) then Some(e.actual.amount) else None;
                !BreakerOpen(w'.breakers, e.merchant) ==>
                  PostRefund(Post(e.stepId, e.merchant, e.actual.settlementRef, asked)) in Effects(cfg', w', ans'))
            && (var r := AttemptPlan(cfg'.st, w'.breakers, ans'.refund).result;
                r.outcome != NonRefundable && (r.outcome == WasRefunded ==> r.recovered == e.actual.amount)))
  {}

  /**
   The same in hindsight, for every step decided in any run: at a merchant with a policy
   the attempt was made without terms exactly when the policy read was empty, and such a
   step is never `non_refundable`.
   */
  lemma UnreadPolicyIff(cfg: Cfg, i: nat)
    requires Consistent(cfg) && i < |cfg.st.results| && HasPolicy(cfg.plan[i].merchant)
    ensures cfg.basis[i].terms.None? <==> cfg.basis[i].text == Some("")
    ensures cfg.basis[i].text == Some("") ==>
      && cfg.st.results[i].outcome != NonRefundable
      && (cfg.st.results[i].outcome == WasRefunded ==> cfg.st.results[i].recovered == cfg.plan[i].actual.amount)
  {
    assert Justified(cfg.plan[i], cfg.basis[i], cfg.st.results[i]);
  }

  /** The workflow, the failing step and, once loaded, the plan never change. */
  lemma NextKeepsHistory(cfg: Cfg, w: World, ans: Answer)
    requires Runnable(cfg)
    ensures var cfg' := Next(cfg, w, ans);
      && cfg'.st.workflowId == cfg.st.workflowId && cfg'.st.failing == cfg.st.failing && cfg'.node != LoadLog
      && (cfg.node != LoadLog ==> cfg'.plan == cfg.plan && cfg'.loadedAt == cfg.loadedAt)
      && (cfg.node == LoadLog ==> cfg'.plan == PlanFrom(w.ledger, cfg.st) && cfg'.loadedAt == |w.ledger|)
      && (cfg.node == LoadLog ==> Effects(cfg, w, ans) == [])
  {
    hide AttemptPlan;
  }

  ghost function Ids(es: seq<Entry>): seq<string> {
    seq(|es|, i requires 0 <= i < |es| => es[i].stepId)
  }

  ghost function ResultIds(rs: seq<UndoResult>): seq<string> {
    seq(|rs|, i requires 0 <= i < |rs| => rs[i].stepId)
  }

  ghost function InFlightIds(cfg: Cfg): seq<string> {
    if cfg.node in {FetchPolicy, ExtractTerms, ComputeAmount, AttemptRefund} && cfg.st.current.Some? then [cfg.st.current.value.stepId] else []
  }

  /**
   The saga's conservation law: at every node the steps already decided, the step in
   flight and the steps left to undo are, in this order, the list that was loaded.
   */
  lemma StepsAreConserved(cfg: Cfg)
    requires Consistent(cfg) && cfg.node != LoadLog
    ensures ResultIds(cfg.st.results) + InFlightIds(cfg) + Ids(cfg.st.toUndo) == Ids(cfg.plan)
    ensures cfg.node == End ==> ResultIds(cfg.st.results) == Ids(cfg.plan)
  {
    hide Justified, Follows, NowHeeded;
    ResultsNameTheirSteps(cfg);
    var n := |cfg.st.results|;
    if InFlightIds(cfg) != [] {
      assert cfg.plan == cfg.plan[..n] + [cfg.plan[n]] + cfg.plan[n + 1..];
    } else {
      assert cfg.plan == cfg.plan[..n] + cfg.plan[n..];
    }
  }

  lemma ResultsNameTheirSteps(cfg: Cfg)
    requires ResultsJustified(cfg)
    ensures forall i :: 0 <= i < |cfg.st.results| ==> cfg.st.results[i].stepId == cfg.plan[i].stepId
  {
    hide NowHeeded;
    assert forall i :: 0 <= i < |cfg.st.results| ==> Justified(cfg.plan[i], cfg.basis[i], cfg.st.results[i]);
  }

  // ---- the list that is undone ----

  lemma {:induction false} UndoListMembers(steps: seq<Entry>, failingId: string, e: Entry)
    ensures e in UndoList(steps, failingId) <==> e in steps && ToBeUndone(e, failingId)
  {
    if steps != [] {
      UndoListMembers(steps[..|steps| - 1], failingId, e);
      assert steps == steps[..|steps| - 1] + [steps[|steps| - 1]];
    }
  }

  /** Newest first: the order of the list is the reverse of the order of the ledger, with nothing repeated. */
  lemma {:induction false} UndoListNewestFirst(steps: seq<Entry>, failingId: string, i: nat, j: nat) returns (p: nat, q: nat)
    requires i < j < |UndoList(steps, failingId)|
    ensures q < p < |steps| && UndoList(steps, failingId)[i] == steps[p] && UndoList(steps, failingId)[j] == steps[q]
  {
    var n := |steps| - 1;
    var rest := UndoList(steps[..n], failingId);
    if ToBeUndone(steps[n], failingId) {
      if i == 0 {
        p := n;
        UndoListMembers(steps[..n], failingId, rest[j - 1]);
        q :| 0 <= q < n && steps[..n][q] == rest[j - 1];
      } else {
        p, q := UndoListNewestFirst(steps[..n], failingId, i - 1, j - 1);
      }
    } else {
      p, q := UndoListNewestFirst(steps[..n], failingId, i, j);
    }
  }

  lemma {:induction false} StepsOfMembers(ledger: seq<Entry>, wid: string, e: Entry)
    ensures e in StepsOf(ledger, wid) <==> e in ledger && e.workflowId == wid
  {
    if ledger != [] {
      StepsOfMembers(ledger[..|ledger| - 1], wid, e);
      assert ledger == ledger[..|ledger| - 1] + [ledger[|ledger| - 1]];
    }
  }

  lemma Associates<T>(a: seq<T>, b: seq<T>, c: seq<T>)
    ensures (a + b) + c == a + (b + c)
  {}

  /** Splitting off the last element of an appended sequence. */
  lemma InitOfAppend<T>(a: seq<T>, b: seq<T>)
    requires b != []
    ensures (a + b)[..|a + b| - 1] == a + b[..|b| - 1] && (a + b)[|a + b| - 1] == b[|b| - 1]
  {}

  lemma {:induction false} StepsOfAppend(ledger: seq<Entry>, more: seq<Entry>, wid: string)
    ensures StepsOf(ledger + more, wid) == StepsOf(ledger, wid) + StepsOf(more, wid)
  {
    if more == [] {
      assert ledger + more == ledger;
    } else {
      var init, e := more[..|more| - 1], more[|more| - 1];
      StepsOfAppend(ledger, init, wid);
      InitOfAppend(ledger, more);
      var last := if e.workflowId == wid then [e] else [];
      assert StepsOf(ledger + more, wid) == StepsOf(ledger + init, wid) + last;
      assert StepsOf(more, wid) == StepsOf(init, wid) + last;
      hide StepsOf;
      Associates(StepsOf(ledger, wid), StepsOf(init, wid), last);
    }
  }

  lemma {:induction false} UndoListAppend(steps: seq<Entry>, more: seq<Entry>, failingId: string)
    ensures UndoList(steps + more, failingId) == UndoList(more, failingId) + UndoList(steps, failingId)
  {
    if more == [] {
      assert steps + more == steps;
    } else {
      var init, e := more[..|more| - 1], more[|more| - 1];
      UndoListAppend(steps, init, failingId);
      InitOfAppend(steps, more);
      var last := if ToBeUndone(e, failingId) then [e] else [];
      assert UndoList(steps + more, failingId) == last + UndoList(steps + init, failingId);
      assert UndoList(more, failingId) == last + UndoList(init, failingId);
      hide UndoList;
      Associates(last, UndoList(init, failingId), UndoList(steps, failingId));
    }
  }

  /** The refund rows the saga itself writes, and payments that are not settled, never join the list. */
  lemma UndoIgnoresUnsettledRows(ledger: seq<Entry>, rows: seq<Entry>, st: State)
    requires forall r :: r in rows ==> r.actual.status != Settled
    ensures PlanFrom(ledger + rows, st) == PlanFrom(ledger, st)
  {
    StepsOfAppend(ledger, rows, st.workflowId);
    UndoListAppend(StepsOf(ledger, st.workflowId), StepsOf(rows, st.workflowId), st.failing.stepId);
    var extra := UndoList(StepsOf(rows, st.workflowId), st.failing.stepId);
    if extra != [] {
      UndoListMembers(StepsOf(rows, st.workflowId), st.failing.stepId, extra[0]);
      StepsOfMembers(rows, st.workflowId, extra[0]);
    }
  }

  // ---- money ----

  ghost predicate DistinctIds(es: seq<Entry>) {
    forall i, j :: 0 <= i < j < |es| ==> es[i].stepId != es[j].stepId
  }

  lemma {:induction false} FindStepFinds(steps: seq<Entry>, e: Entry)
    requires e in steps && forall d :: d in steps && d.stepId == e.stepId ==> d == e
    ensures FindStep(steps, e.stepId) == Some(e)
  {
    if steps[0] != e {
      assert steps == [steps[0]] + steps[1..];
      FindStepFinds(steps[1..], e);
    }
  }

  ghost function SettledTotal(plan: seq<Entry>, n: nat): real
    requires n <= |plan|
  {
    if n == 0 then 0.0 else SettledTotal(plan, n - 1) + plan[n - 1].actual.amount
  }

  /** The settled amounts of the steps that were refunded. */
  ghost function RefundedTotal(plan: seq<Entry>, rs: seq<UndoResult>, n: nat): real
    requires n <= |plan| && n <= |rs|
  {
    if n == 0 then 0.0
    else RefundedTotal(plan, rs, n - 1) + if rs[n - 1].outcome == WasRefunded then plan[n - 1].actual.amount else 0.0
  }

  ghost function RecoveredTotal(rs: seq<UndoResult>, n: nat): real
    requires n <= |rs|
  {
    if n == 0 then 0.0 else RecoveredTotal(rs, n - 1) + rs[n - 1].recovered
  }

  ghost function ExactTotal(plan: seq<Entry>, bs: seq<PolicyBasis>, rs: seq<UndoResult>, n: nat): real
    requires n <= |plan| && n <= |bs| && n <= |rs|
  {
    if n == 0 then 0.0
    else ExactTotal(plan, bs, rs, n - 1) + if rs[n - 1].outcome == WasRefunded then ExactDue(plan[n - 1], bs[n - 1]) else 0.0
  }

  ghost function RefundedCount(rs: seq<UndoResult>, n: nat): nat
    requires n <= |rs|
  {
    if n == 0 then 0 else RefundedCount(rs, n - 1) + if rs[n - 1].outcome == WasRefunded then 1 else 0
  }

  lemma {:induction false} ImpactIsTheRest(plan: seq<Entry>, rs: seq<UndoResult>, steps: seq<Entry>, n: nat)
    requires n <= |plan| && n <= |rs|
    requires forall i :: 0 <= i < n ==> rs[i].stepId == plan[i].stepId
    requires forall i :: 0 <= i < n ==> FindStep(steps, plan[i].stepId) == Some(plan[i])
    ensures SettledTotal(plan, n) == RefundedTotal(plan, rs, n) + TotalUnrecovered(rs[..n], steps)
  {
    if n > 0 {
      ImpactIsTheRest(plan, rs, steps, n - 1);
      assert rs[..n][..n - 1] == rs[..n - 1];
    }
  }

  /** The plan's entries can be looked up in any later ledger, provided step ids are unique. */
  lemma PlanIsFound(ledger: seq<Entry>, loadedAt: nat, st: State, e: Entry)
    requires loadedAt <= |ledger| && DistinctIds(ledger) && e in PlanFrom(ledger[..loadedAt], st)
    ensures FindStep(StepsOf(ledger, st.workflowId), e.stepId) == Some(e)
  {
    UndoListMembers(StepsOf(ledger[..loadedAt], st.workflowId), st.failing.stepId, e);
    StepsOfMembers(ledger[..loadedAt], st.workflowId, e);
    StepsOfMembers(ledger, st.workflowId, e);
    var steps := StepsOf(ledger, st.workflowId);
    forall d | d in steps && d.stepId == e.stepId ensures d == e {
      StepsOfMembers(ledger, st.workflowId, d);
    }
    FindStepFinds(steps, e);
  }

  /**
   Money partition: when the liability report is written, the settled total of the
   undone steps is the settled amount of the refunded ones plus `financial_impact`.
   */
  lemma LiabilityPartitionsMoney(cfg: Cfg, w: World, ans: Answer)
    requires Consistent(cfg) && cfg.node == LiabilityNode
    requires cfg.loadedAt <= |w.ledger| && cfg.plan == PlanFrom(w.ledger[..cfg.loadedAt], cfg.st) && DistinctIds(w.ledger)
    ensures var done := Next(cfg, w, ans);
      && done.st.liability.Some?
      && SettledTotal(cfg.plan, |cfg.plan|) ==
           RefundedTotal(cfg.plan, done.st.results, |cfg.plan|) + done.st.liability.value.financialImpact
  {
    var steps := StepsOf(w.ledger, cfg.st.workflowId);
    forall i | 0 <= i < |cfg.plan|
      ensures FindStep(steps, cfg.plan[i].stepId) == Some(cfg.plan[i]) && cfg.st.results[i].stepId == cfg.plan[i].stepId
    {
      PlanIsFound(w.ledger, cfg.loadedAt, cfg.st, cfg.plan[i]);
      assert Justified(cfg.plan[i], cfg.basis[i], cfg.st.results[i]);
    }
    ImpactIsTheRest(cfg.plan, cfg.st.results, steps, |cfg.plan|);
    assert cfg.st.results[..|cfg.plan|] == cfg.st.results;
  }

  /** What is due over the first n steps whose refund the merchants accepted. */
  ghost function AcceptedDue(plan: seq<Entry>, heard: seq<Heard>, n: nat): real
    requires n <= |plan| && n <= |heard|
  {
    if n == 0 then 0.0
    else
      AcceptedDue(plan, heard, n - 1)
        + if Accepted(plan[n - 1], heard[n - 1]) then Due(plan[n - 1], RulingOf(plan[n - 1], heard[n - 1])) else 0.0
  }

  /** The settled amounts of those whose refund was not asked for, or not accepted. */
  ghost function UnacceptedTotal(plan: seq<Entry>, heard: seq<Heard>, n: nat): real
    requires n <= |plan| && n <= |heard|
  {
    if n == 0 then 0.0
    else UnacceptedTotal(plan, heard, n - 1) + if Accepted(plan[n - 1], heard[n - 1]) then 0.0 else plan[n - 1].actual.amount
  }

  /** What the saga reports as recovered is what is due over the accepted refunds; the others keep their settled amounts. */
  lemma {:induction false} RecoveredIsAcceptedDue(cfg: Cfg, n: nat)
    requires Consistent(cfg) && n <= |cfg.st.results|
    ensures |cfg.heard| == |cfg.st.results| <= |cfg.plan|
    ensures RecoveredTotal(cfg.st.results, n) == AcceptedDue(cfg.plan, cfg.heard, n)
    ensures SettledTotal(cfg.plan, n) == RefundedTotal(cfg.plan, cfg.st.results, n) + UnacceptedTotal(cfg.plan, cfg.heard, n)
  {
    hide NodeInv, NowHeeded, RulingOf, Due, Justified;
    if n > 0 {
      RecoveredIsAcceptedDue(cfg, n - 1);
      assert Follows(cfg.plan[n - 1], cfg.heard[n - 1], cfg.st.results[n - 1]);
    }
  }

  /**
   The liability report, by the replies: `financial_impact` is the settled total of exactly
   the steps whose refund no merchant accepted; a rejected refund always counts.
   */
  lemma ImpactIsUnaccepted(cfg: Cfg, w: World, ans: Answer)
    requires Consistent(cfg) && cfg.node == LiabilityNode
    requires cfg.loadedAt <= |w.ledger| && cfg.plan == PlanFrom(w.ledger[..cfg.loadedAt], cfg.st) && DistinctIds(w.ledger)
    ensures var done := Next(cfg, w, ans);
      && done.st.liability.Some? && |done.heard| == |cfg.plan|
      && done.st.liability.value.financialImpact == UnacceptedTotal(cfg.plan, done.heard, |cfg.plan|)
  {
    LiabilityPartitionsMoney(cfg, w, ans);
    RecoveredIsAcceptedDue(cfg, |cfg.plan|);
    hide SettledTotal, RefundedTotal, UnacceptedTotal, PlanFrom, DistinctIds, ResultsJustified;
  }

  /** The recovered amounts differ from the exact policy refunds by at most half a paisa per refunded step. */
  lemma {:induction false} RecoveredIsExactToHalfPaisaEach(cfg: Cfg, n: nat)
    requires Consistent(cfg) && n <= |cfg.st.results|
    ensures var d := RecoveredTotal(cfg.st.results, n) - ExactTotal(cfg.plan, cfg.basis, cfg.st.results, n);
      var slack := RefundedCount(cfg.st.results, n) as real * 0.005;
      -slack <= d <= slack
  {
    if n > 0 {
      RecoveredIsExactToHalfPaisaEach(cfg, n - 1);
      var e, b, r := cfg.plan[n - 1], cfg.basis[n - 1], cfg.st.results[n - 1];
      assert Justified(e, b, r);
      if r.outcome == WasRefunded && b.terms.Some? {
        assert b.terms.value.refundable;
        ComputedRefundHalfPaisa(e.expected.amount, b.terms.value.penalty);
      }
    }
  }

  /** Per step: with whole paise and penalties of 0 to 100, no refund exceeds what was expected to be charged. */
  lemma RefundWithinCharge(e: Entry, b: PolicyBasis, r: UndoResult, paise: nat)
    requires Justified(e, b, r) && r.outcome == WasRefunded && b.terms.Some?
    requires e.expected.amount == paise as real / 100.0
    requires b.terms.value.penalty.Some? ==> 0.0 <= b.terms.value.penalty.value <= 100.0
    ensures 0.0 <= r.recovered <= e.expected.amount
  {
    RefundWithinOriginal(paise, b.terms.value.penalty);
  }

  // ---- effects and results ----

  function PostId(e: Effect): seq<string> {
    if e.PostRefund? then [e.post.stepId] else []
  }

  function DeadId(e: Effect): seq<string> {
    if e.QueueDead? then [e.row.stepId] else []
  }

  function PostIds(es: seq<Effect>): seq<string> {
    if es == [] then [] else PostIds(es[..|es| - 1]) + PostId(es[|es| - 1])
  }

  function DeadIds(es: seq<Effect>): seq<string> {
    if es == [] then [] else DeadIds(es[..|es| - 1]) + DeadId(es[|es| - 1])
  }

  lemma {:induction false} IdsOfThree(es: seq<Effect>)
    requires |es| <= 3
    ensures PostIds(es) == (if |es| > 0 then PostId(es[0]) else []) + (if |es| > 1 then PostId(es[1]) else [])
                           + (if |es| > 2 then PostId(es[2]) else [])
    ensures DeadIds(es) == (if |es| > 0 then DeadId(es[0]) else []) + (if |es| > 1 then DeadId(es[1]) else [])
                           + (if |es| > 2 then DeadId(es[2]) else [])
  {
    if |es| > 0 {
      IdsOfThree(es[..|es| - 1]);
    }
  }

  /** An attempt posts its step once or never, and dead-letters it exactly when its outcome is `dlq`. */
  lemma AttemptEffects(st: State, breakers: Breakers, reply: RefundReply, k: nat)
    requires st.current.Some? && k <= |AttemptPlan(st, breakers, reply).effects|
    ensures var p := AttemptPlan(st, breakers, reply);
      var id := st.current.value.stepId;
      && |p.effects| <= 3
      && (PostIds(p.effects[..k]) == [] || PostIds(p.effects[..k]) == [id])
      && (DeadIds(p.effects[..k]) == [] || DeadIds(p.effects[..k]) == [id])
      && (k == |p.effects| ==>
            && PostIds(p.effects[..k]) == (if WasPosted(p.result) then [id] else [])
            && DeadIds(p.effects[..k]) == (if p.result.outcome == Dlq then [id] else []))
      && (!WasPosted(p.result) ==> PostIds(p.effects[..k]) == [])
  {
    hide PostIds, DeadIds, RefundRow;
    IdsOfThree(AttemptPlan(st, breakers, reply).effects[..k]);
  }

  // ---- termination, and the end of an uninterrupted run ----

  /** An upper bound on the nodes still to execute. */
  function Measure(cfg: Cfg, w: World): nat {
    var r := |cfg.st.toUndo|;
    var tail := if r == 0 then 2 else 5 * r + 2;
    match cfg.node
    case LoadLog => (var n := |PlanFrom(w.ledger, cfg.st)|; if n == 0 then 4 else 5 * n + 3)
    case SelectNext => if r == 0 then 3 else 5 * r + 2
    case FetchPolicy => tail + 4
    case ExtractTerms => tail + 3
    case ComputeAmount => tail + 2
    case AttemptRefund => tail + 1
    case ClassifyNode => 2
    case UdirNode => 1
    case LiabilityNode => 1
    case End => 0
  }

  lemma MeasureDecreases(cfg: Cfg, w: World, w': World, ans: Answer)
    requires Runnable(cfg)
    ensures Measure(Next(cfg, w, ans), w') < Measure(cfg, w)
  {}

  datatype Final = Final(cfg: Cfg, world: World, executed: nat)

  /** The uninterrupted run from `cfg`; the k-th node executed gets the k-th answer. */
  ghost function Finish(cfg: Cfg, w: World, oracle: nat -> Answer, k: nat): Final
    requires Consistent(cfg)
    decreases Measure(cfg, w)
  {
    if cfg.node == End then Final(cfg, w, k)
    else
      ConsistentRuns(cfg);
      NextKeepsConsistent(cfg, w, oracle(k));
      MeasureDecreases(cfg, w, Executed(cfg, w, oracle(k)), oracle(k));
      Finish(Next(cfg, w, oracle(k)), Executed(cfg, w, oracle(k)), oracle, k + 1)
  }

  lemma {:induction false} FinishWithinMeasure(cfg: Cfg, w: World, oracle: nat -> Answer, k: nat)
    requires Consistent(cfg)
    ensures var f := Finish(cfg, w, oracle, k);
      f.cfg.node == End && Consistent(f.cfg) && f.executed <= k + Measure(cfg, w)
      && f.cfg.st.failing == cfg.st.failing && f.cfg.st.workflowId == cfg.st.workflowId
    decreases Measure(cfg, w)
  {
    if cfg.node != End {
      ConsistentRuns(cfg);
      NextKeepsConsistent(cfg, w, oracle(k));
      MeasureDecreases(cfg, w, Executed(cfg, w, oracle(k)), oracle(k));
      NextKeepsHistory(cfg, w, oracle(k));
      hide Next, Executed, Measure, NodeInv, ResultsJustified, Runnable;
      FinishWithinMeasure(Next(cfg, w, oracle(k)), Executed(cfg, w, oracle(k)), oracle, k + 1);
    }
  }

  /**
   Every uninterrupted run ends. With n steps to undo it executes at most 5n + 3
   nodes (4 when there is nothing to undo) and produces exactly one of the two
   outputs: the UDIR payload if and only if the failing step's response shows trouble with
   the network or the gateway, and it states that step's settlement ref and its expected
   and actual amounts; else the liability report, for this workflow and step.
   */
  lemma SagaTerminates(wid: string, failing: Entry, w: World, oracle: nat -> Answer)
    ensures Consistent(Initial(wid, failing))
    ensures
      var f := Finish(Initial(wid, failing), w, oracle, 0);
      var n := |PlanFrom(w.ledger, InitialState(wid, failing))|;
      && f.cfg.node == End
      && f.executed <= (if n == 0 then 4 else 5 * n + 3)
      && f.cfg.st.udir == (if FaultClassifier.NetworkTrouble(failing.raw) then
           Some(Udir(failing.actual.settlementRef, failing.expected.amount, failing.actual.amount)) else None)
      && (f.cfg.st.liability.Some? <==> !FaultClassifier.NetworkTrouble(failing.raw))
      && (f.cfg.st.liability.Some? ==>
            f.cfg.st.liability.value.workflowId == wid && f.cfg.st.liability.value.stepId == failing.stepId)
  {
    FinishWithinMeasure(Initial(wid, failing), w, oracle, 0);
    FaultClassifier.NetworkFaultIff(failing.stepId, failing.raw);
    hide FaultClassifier.ClassifyFault, FaultClassifier.NetworkTrouble, ResultsJustified;
  }

  /** The compensation graph run to its end over the database (run_compensation without a checkpointer). */
  method RunCompensation(db: Database.Database, api: RefundApi, wid: string, failing: Entry, oracle: nat -> Answer) returns (cfg: Cfg)
    modifies db`breakers, db`dlq, db`ledger, api
    ensures Consistent(Initial(wid, failing))
    ensures var f := Finish(Initial(wid, failing), old(WorldOf(db, api)), oracle, 0);
      cfg == f.cfg && WorldOf(db, api) == f.world
  {
    cfg := Initial(wid, failing);
    ghost var goal := Finish(cfg, WorldOf(db, api), oracle, 0);
    var k := 0;
    while cfg.node != End
      invariant Consistent(cfg)
      invariant goal == Finish(cfg, WorldOf(db, api), oracle, k)
      decreases Measure(cfg, WorldOf(db, api))
    {
      ghost var w := WorldOf(db, api);
      ConsistentRuns(cfg);
      NextKeepsConsistent(cfg, w, oracle(k));
      MeasureDecreases(cfg, w, Executed(cfg, w, oracle(k)), oracle(k));
      cfg := RunNode(db, api, cfg, oracle(k));
      k := k + 1;
    }
  }
}
