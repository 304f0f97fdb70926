/**
 Which steps one uninterrupted run of the saga POSTs, and when it is safe to start one
 without looking at the checkpoint, as the worker's fallback does
 (compensating_agent/worker.py).
 */
module SagaPosts {
  import opened Wrappers
  import opened Schemas
  import opened Tables
  import opened Saga
  import opened SagaLaws
  import opened SagaRecovery
  import CircuitBreaker

  /** A refund request to this merchant would be sent: it has an endpoint and its breaker is not open. */
  predicate Reachable(bs: Breakers, m: MerchantId) {
    Registered(m) && !BreakerOpen(bs, m)
  }

  // ---- a run posts what its results say ----

  lemma {:induction false} FinishPosts(cfg: Cfg, w: World, oracle: nat -> Answer, k: nat, id: string)
    requires Consistent(cfg)
    ensures var f := Finish(cfg, w, oracle, k);
      Posts(f.world, id) + PostedResults(cfg.st.results)[id] == Posts(w, id) + PostedResults(f.cfg.st.results)[id]
    decreases Measure(cfg, w)
  {
    hide Next, Executed, Effects, Partly, PostedBy, DeadBy, Posts, DeadLetters, PostedResults, DeadResults, ResultsJustified;
    if cfg.node != End {
      var ans := oracle(k);
      ConsistentRuns(cfg);
      NextKeepsConsistent(cfg, w, ans);
      MeasureDecreases(cfg, w, Executed(cfg, w, ans), ans);
      PartlyOnRecord(cfg, w, ans, |Effects(cfg, w, ans)|, id);
      ResultOnRecord(cfg, w, ans, id);
      FinishPosts(Next(cfg, w, ans), Executed(cfg, w, ans), oracle, k + 1, id);
    }
  }

  /** Once loaded, the plan is kept to the end, and in the end every step has its result. */
  lemma {:induction false} FinishKeepsPlan(cfg: Cfg, w: World, oracle: nat -> Answer, k: nat)
    requires Consistent(cfg)
    ensures var f := Finish(cfg, w, oracle, k);
      && Consistent(f.cfg) && f.cfg.node == End && |f.cfg.st.results| == |f.cfg.plan|
      && f.cfg.plan == if cfg.node == LoadLog then PlanFrom(w.ledger, cfg.st) else cfg.plan
    decreases Measure(cfg, w)
  {
    hide Next, Executed, Effects, Measure, PlanFrom, ResultsJustified;
    if cfg.node != End {
      var ans := oracle(k);
      ConsistentRuns(cfg);
      NextKeepsConsistent(cfg, w, ans);
      MeasureDecreases(cfg, w, Executed(cfg, w, ans), ans);
      NextKeepsHistory(cfg, w, ans);
      FinishKeepsPlan(Next(cfg, w, ans), Executed(cfg, w, ans), oracle, k + 1);
    }
  }

  // ---- the refund rows on the ledger ----

  /** What the ledger shows as refunded in a workflow. */
  function RefundedOn(ledger: seq<Entry>, wid: string): real {
    if ledger == [] then 0.0
    else
      var e := ledger[|ledger| - 1];
      RefundedOn(ledger[..|ledger| - 1], wid) + if e.action == Refund && e.workflowId == wid then e.actual.amount else 0.0
  }

  /** The refund row of an accepted refund, if it is to be written, gets written. */
  predicate RowsGetWritten(reply: RefundReply) {
    reply.GatewayReplied? ==> reply.rowId.Some?
  }

  lemma RefundedSnoc(ledger: seq<Entry>, e: Entry, wid: string)
    ensures RefundedOn(ledger + [e], wid) == RefundedOn(ledger, wid) + if e.action == Refund && e.workflowId == wid then e.actual.amount else 0.0
  {
    assert (ledger + [e])[..|ledger|] == ledger;
  }

  lemma RecoveredSnoc(rs: seq<UndoResult>, r: UndoResult)
    ensures RecoveredTotal(rs + [r], |rs| + 1) == RecoveredTotal(rs, |rs|) + r.recovered
  {
    RecoveredPrefix(rs, r, |rs|);
  }

  lemma {:induction false} RecoveredPrefix(rs: seq<UndoResult>, r: UndoResult, n: nat)
    requires n <= |rs|
    ensures RecoveredTotal(rs + [r], n) == RecoveredTotal(rs, n)
  {
    if n > 0 {
      RecoveredPrefix(rs, r, n - 1);
    }
  }

  function RefundIn(e: Effect, wid: string): real {
    if e.AppendRow? && e.entry.action == Refund && e.entry.workflowId == wid then e.entry.actual.amount else 0.0
  }

  /** What a list of effects writes to the ledger as refunded. */
  function RefundsIn(es: seq<Effect>, wid: string): real {
    if es == [] then 0.0 else RefundsIn(es[..|es| - 1], wid) + RefundIn(es[|es| - 1], wid)
  }

  lemma EffectRefunds(w: World, e: Effect, wid: string)
    ensures RefundedOn(ApplyEffect(w, e).ledger, wid) == RefundedOn(w.ledger, wid) + RefundIn(e, wid)
  {
    if e.AppendRow? {
      RefundedSnoc(w.ledger, e.entry, wid);
    }
    hide RefundedOn;
  }

  lemma {:induction false} EffectsRefund(w: World, es: seq<Effect>, wid: string)
    ensures RefundedOn(ApplyEffects(w, es).ledger, wid) == RefundedOn(w.ledger, wid) + RefundsIn(es, wid)
  {
    hide RefundedOn, ApplyEffect, RefundIn;
    if es != [] {
      EffectsRefund(w, es[..|es| - 1], wid);
      EffectRefunds(ApplyEffects(w, es[..|es| - 1]), es[|es| - 1], wid);
    }
  }

  lemma {:induction false} RefundsOfThree(es: seq<Effect>, wid: string)
    requires |es| <= 3
    ensures RefundsIn(es, wid) == (if |es| > 0 then RefundIn(es[0], wid) else 0.0) + (if |es| > 1 then RefundIn(es[1], wid) else 0.0)
                                  + (if |es| > 2 then RefundIn(es[2], wid) else 0.0)
  {
    hide RefundIn;
    if |es| > 0 {
      RefundsOfThree(es[..|es| - 1], wid);
    }
  }

  /** An attempt writes one refund row, over what it recovered, or recovers nothing and writes none. */
  lemma AttemptWritesItsRow(w: World, st: State, reply: RefundReply)
    requires st.current.Some? && RowsGetWritten(reply)
    ensures var p := AttemptPlan(st, w.breakers, reply);
      RefundedOn(ApplyEffects(w, p.effects).ledger, st.workflowId) == RefundedOn(w.ledger, st.workflowId) + p.result.recovered
  {
    hide ApplyEffects, RefundedOn, RefundsIn;
    EffectsRefund(w, AttemptPlan(st, w.breakers, reply).effects, st.workflowId);
    RefundsOfThree(AttemptPlan(st, w.breakers, reply).effects, st.workflowId);
  }

  lemma NodeWritesItsRow(cfg: Cfg, w: World, ans: Answer)
    requires Runnable(cfg) && (cfg.node == LoadLog ==> cfg.st.results == []) && RowsGetWritten(ans.refund)
    ensures var cfg' := Next(cfg, w, ans);
      RefundedOn(Executed(cfg, w, ans).ledger, cfg.st.workflowId) + RecoveredTotal(cfg.st.results, |cfg.st.results|)
        == RefundedOn(w.ledger, cfg.st.workflowId) + RecoveredTotal(cfg'.st.results, |cfg'.st.results|)
  {
    hide AttemptPlan, RefundedOn, RecoveredTotal, PlanFrom;
    if cfg.node == AttemptRefund {
      AttemptWritesItsRow(w, cfg.st, ans.refund);
      AttemptAppends(cfg, w, ans);
      RecoveredSnoc(cfg.st.results, AttemptPlan(cfg.st, w.breakers, ans.refund).result);
    } else {
      OtherNodesAreQuiet(cfg, w, ans, 0);
      assert ApplyEffects(w, []) == w;
    }
  }

  /**
   The ledger shows what the saga recovered: as long as refund rows get written, a run
   adds to the ledger exactly the sum of the amounts its results report as recovered.
   */
  lemma {:induction false} LedgerShowsRecovered(cfg: Cfg, w: World, oracle: nat -> Answer, k: nat)
    requires Consistent(cfg) && forall j :: RowsGetWritten(oracle(j).refund)
    ensures var f := Finish(cfg, w, oracle, k);
      RefundedOn(f.world.ledger, cfg.st.workflowId) + RecoveredTotal(cfg.st.results, |cfg.st.results|)
        == RefundedOn(w.ledger, cfg.st.workflowId) + RecoveredTotal(f.cfg.st.results, |f.cfg.st.results|)
    decreases Measure(cfg, w)
  {
    hide Next, Executed, Effects, RefundedOn, RecoveredTotal, ResultsJustified, RowsGetWritten;
    if cfg.node != End {
      var ans := oracle(k);
      ConsistentRuns(cfg);
      NextKeepsConsistent(cfg, w, ans);
      MeasureDecreases(cfg, w, Executed(cfg, w, ans), ans);
      NextKeepsHistory(cfg, w, ans);
      NodeWritesItsRow(cfg, w, ans);
      LedgerShowsRecovered(Next(cfg, w, ans), Executed(cfg, w, ans), oracle, k + 1);
    }
  }

  // ---- failing closed without a checkpoint ----

  lemma {:induction false} FinishKeepsForbidden(cfg: Cfg, w: World, oracle: nat -> Answer, k: nat, n: nat)
    requires Consistent(cfg) && Forbidden(cfg, n)
    ensures var f := Finish(cfg, w, oracle, k); Forbidden(f.cfg, n) && f.cfg.plan == cfg.plan
    decreases Measure(cfg, w)
  {
    hide Next, Executed, Effects, Measure, Forbidden, NodeInv, ResultsJustified;
    if cfg.node != End {
      var ans := oracle(k);
      ConsistentRuns(cfg);
      NextKeepsConsistent(cfg, w, ans);
      MeasureDecreases(cfg, w, Executed(cfg, w, ans), ans);
      NodeKeepsForbidden(cfg, w, ans, n);
      FinishKeepsForbidden(Next(cfg, w, ans), Executed(cfg, w, ans), oracle, k + 1, n);
    }
  }

  /** A node at which policy knowledge fails has no effect and decides nothing yet. */
  lemma FailingNodeIsQuiet(cfg: Cfg, w: World, ans: Answer)
    requires Consistent(cfg) && Runnable(cfg) && PolicyDenies(cfg, ans)
    ensures Executed(cfg, w, ans) == w && Next(cfg, w, ans).st.results == cfg.st.results
    ensures |cfg.st.results| < |cfg.plan| && cfg.st.current == Some(cfg.plan[|cfg.st.results|])
  {
    OtherNodesAreQuiet(cfg, w, ans, 0);
    assert ApplyEffects(w, []) == w;
    hide AttemptPlan, ApplyEffects;
  }

  lemma FinishGoesOn(cfg: Cfg, w: World, oracle: nat -> Answer, k: nat)
    requires Consistent(cfg) && Runnable(cfg)
    ensures Consistent(Next(cfg, w, oracle(k)))
    ensures Finish(cfg, w, oracle, k) == Finish(Next(cfg, w, oracle(k)), Executed(cfg, w, oracle(k)), oracle, k + 1)
  {
    hide Next, Executed, NodeInv, ResultsJustified;
    NextKeepsConsistent(cfg, w, oracle(k));
  }

  /**
   The same for a run on its own, as the fallback makes it: from a failure of the policy
   fetch, the extraction service or both extraction attempts on, or from a text read as
   non-refundable on, the step is not POSTed, and its outcome is `non_refundable` or `dlq`.
   */
  lemma DenialNeverRefundsAlone(cfg: Cfg, w: World, oracle: nat -> Answer, k: nat)
    requires Consistent(cfg) && Runnable(cfg) && PolicyDenies(cfg, oracle(k)) && DistinctIds(cfg.plan)
    ensures cfg.st.current.Some?
    ensures var f := Finish(cfg, w, oracle, k);
      var n := |cfg.st.results|;
      && Posts(f.world, cfg.st.current.value.stepId) == Posts(w, cfg.st.current.value.stepId)
      && n < |f.cfg.st.results| && f.cfg.st.results[n].stepId == cfg.st.current.value.stepId
      && f.cfg.st.results[n].outcome in {NonRefundable, Dlq}
  {
    hide Finish, Next, Executed, Effects, Forbidden, PolicyDenies, NodeInv, ResultsJustified, DistinctIds, Posts, PostedResults;
    var n := |cfg.st.results|;
    FailingNodeIsQuiet(cfg, w, oracle(k));
    DenialForbids(cfg, w, oracle(k));
    NextKeepsConsistent(cfg, w, oracle(k));
    var cfg1 := Next(cfg, w, oracle(k));
    FinishGoesOn(cfg, w, oracle, k);
    var f := Finish(cfg1, w, oracle, k + 1);
    FinishKeepsForbidden(cfg1, w, oracle, k + 1, n);
    FinishKeepsPlan(cfg1, w, oracle, k + 1);
    FinishPosts(cfg1, w, oracle, k + 1, cfg.plan[n].stepId);
    ForbiddenHasNoPostedResult(cfg1, n);
    ForbiddenHasNoPostedResult(f.cfg, n);
    ConsistentMatched(f.cfg);
  }

  // ---- whatever the answers: only reachable merchants are posted to ----

  ghost predicate StillOpen(before: Breakers, now: Breakers) {
    forall m :: BreakerOpen(before, m) ==> BreakerOpen(now, m)
  }

  ghost predicate OnlyReachable(cfg: Cfg, bs: Breakers) {
    |cfg.st.results| <= |cfg.plan|
    && forall i :: 0 <= i < |cfg.st.results| && WasPosted(cfg.st.results[i]) ==> Reachable(bs, cfg.plan[i].merchant)
  }

  lemma AttemptPostsIfReachable(st: State, breakers: Breakers, reply: RefundReply)
    requires st.current.Some?
    ensures var r := AttemptPlan(st, breakers, reply).result;
      && (WasPosted(r) ==> Reachable(breakers, st.current.value.merchant))
      && (Reachable(breakers, st.current.value.merchant) && st.refundAmount.None? && st.terms.None? ==> WasPosted(r))
  {}

  lemma AttemptKeepsOpen(cfg: Cfg, w: World, ans: Answer, m: MerchantId)
    requires Runnable(cfg) && BreakerOpen(w.breakers, m)
    ensures BreakerOpen(Executed(cfg, w, ans).breakers, m)
  {
    if cfg.node == AttemptRefund {
      var a := CircuitBreaker.Attempt(cfg.st, cfg.st.current.value, ans.refund);
      assert cfg.st.(current := Some(cfg.st.current.value)) == cfg.st;
      assert Executed(cfg, w, ans) == ApplyEffects(w, CircuitBreaker.AttemptOn(w, a).effects);
      CircuitBreaker.OpenRefusesOne(w, a, m);
    }
  }

  lemma NodeKeepsReach(cfg: Cfg, w: World, ans: Answer, bs: Breakers)
    requires Consistent(cfg) && Runnable(cfg) && OnlyReachable(cfg, bs) && StillOpen(bs, w.breakers)
    ensures OnlyReachable(Next(cfg, w, ans), bs) && StillOpen(bs, Executed(cfg, w, ans).breakers)
  {
    hide AttemptPlan, ApplyEffects, WasPosted;
    if cfg.node == AttemptRefund {
      AttemptPostsIfReachable(cfg.st, w.breakers, ans.refund);
      AttemptAppends(cfg, w, ans);
    }
    forall m | BreakerOpen(bs, m) ensures BreakerOpen(Executed(cfg, w, ans).breakers, m) {
      AttemptKeepsOpen(cfg, w, ans, m);
    }
  }

  lemma {:induction false} FinishPostsOnlyReachable(cfg: Cfg, w: World, oracle: nat -> Answer, k: nat, bs: Breakers)
    requires Consistent(cfg) && OnlyReachable(cfg, bs) && StillOpen(bs, w.breakers)
    ensures OnlyReachable(Finish(cfg, w, oracle, k).cfg, bs)
    decreases Measure(cfg, w)
  {
    hide Next, Executed, Effects, Measure, OnlyReachable, StillOpen, NodeInv, ResultsJustified;
    if cfg.node != End {
      var ans := oracle(k);
      ConsistentRuns(cfg);
      NextKeepsConsistent(cfg, w, ans);
      MeasureDecreases(cfg, w, Executed(cfg, w, ans), ans);
      NodeKeepsReach(cfg, w, ans, bs);
      FinishPostsOnlyReachable(Next(cfg, w, ans), Executed(cfg, w, ans), oracle, k + 1, bs);
    }
  }

  // ---- with empty policy texts and working gateways: every reachable merchant is ----

  const GENEROUS := Answer(PolicyFetched(""), ServiceRaised, GatewayReplied(200, true, None))

  function Generous(): nat -> Answer {
    (k: nat) => GENEROUS
  }

  ghost predicate SameOpen(before: Breakers, now: Breakers) {
    forall m :: BreakerOpen(before, m) <==> BreakerOpen(now, m)
  }

  ghost predicate AllReachable(cfg: Cfg, bs: Breakers) {
    && |cfg.st.results| <= |cfg.plan|
    && (forall i :: 0 <= i < |cfg.st.results| && Reachable(bs, cfg.plan[i].merchant) ==> WasPosted(cfg.st.results[i]))
    && cfg.node != ExtractTerms && cfg.node != ComputeAmount
    && (cfg.node == AttemptRefund ==> cfg.st.terms.None? && cfg.st.refundAmount.None?)
  }

  lemma GenerousNodeKeepsRest(cfg: Cfg, w: World, m: MerchantId)
    requires Runnable(cfg)
    ensures BreakerOpen(Executed(cfg, w, GENEROUS).breakers, m) <==> BreakerOpen(w.breakers, m)
    ensures Executed(cfg, w, GENEROUS).ledger == w.ledger
  {
    if cfg.node == AttemptRefund {
      var a := CircuitBreaker.Attempt(cfg.st, cfg.st.current.value, GENEROUS.refund);
      assert cfg.st.(current := Some(cfg.st.current.value)) == cfg.st;
      assert Executed(cfg, w, GENEROUS) == ApplyEffects(w, CircuitBreaker.AttemptOn(w, a).effects);
      AttemptPostsIfReachable(cfg.st, w.breakers, GENEROUS.refund);
      CircuitBreaker.AttemptMovesBreaker(w, a, m);
      UnrollEffects(w, CircuitBreaker.AttemptOn(w, a).effects);
      assert ApplyEffects(w, []) == w;
      hide ApplyEffects, Executed;
    }
  }

  lemma GenerousNodeReachesAll(cfg: Cfg, w: World, bs: Breakers)
    requires Consistent(cfg) && Runnable(cfg) && AllReachable(cfg, bs) && SameOpen(bs, w.breakers)
    ensures AllReachable(Next(cfg, w, GENEROUS), bs) && SameOpen(bs, Executed(cfg, w, GENEROUS).breakers)
    ensures Executed(cfg, w, GENEROUS).ledger == w.ledger
  {
    hide AttemptPlan, ApplyEffects, WasPosted, PlanFrom;
    if cfg.node == AttemptRefund {
      AttemptPostsIfReachable(cfg.st, w.breakers, GENEROUS.refund);
      AttemptAppends(cfg, w, GENEROUS);
    }
    forall m ensures BreakerOpen(Executed(cfg, w, GENEROUS).breakers, m) <==> BreakerOpen(bs, m) {
      GenerousNodeKeepsRest(cfg, w, m);
    }
    GenerousNodeKeepsRest(cfg, w, MerchantA);
  }

  lemma {:induction false} GenerousFinishReachesAll(cfg: Cfg, w: World, oracle: nat -> Answer, k: nat, bs: Breakers)
    requires Consistent(cfg) && AllReachable(cfg, bs) && SameOpen(bs, w.breakers)
    requires forall j :: k <= j ==> oracle(j) == GENEROUS
    ensures var f := Finish(cfg, w, oracle, k); AllReachable(f.cfg, bs) && SameOpen(bs, f.world.breakers) && f.world.ledger == w.ledger
    decreases Measure(cfg, w)
  {
    hide Next, Executed, Effects, Measure, AllReachable, SameOpen, NodeInv, ResultsJustified;
    if cfg.node != End {
      var ans := oracle(k);
      ConsistentRuns(cfg);
      NextKeepsConsistent(cfg, w, ans);
      MeasureDecreases(cfg, w, Executed(cfg, w, ans), ans);
      GenerousNodeReachesAll(cfg, w, bs);
      GenerousFinishReachesAll(Next(cfg, w, ans), Executed(cfg, w, ans), oracle, k + 1, bs);
    }
  }

  // ---- when a run without checkpoint repeats no refund ----

  lemma {:induction false} PostedResultCounts(rs: seq<UndoResult>, i: nat)
    requires i < |rs| && WasPosted(rs[i])
    ensures PostedResults(rs)[rs[i].stepId] >= 1
  {
    if i < |rs| - 1 {
      PostedResultCounts(rs[..|rs| - 1], i);
    }
  }

  ghost predicate RepeatsNothing(wid: string, failing: Entry, w: World, oracle: nat -> Answer)
    requires Consistent(Initial(wid, failing))
  {
    forall id :: Posts(w, id) > 0 ==> Posts(Finish(Initial(wid, failing), w, oracle, 0).world, id) == Posts(w, id)
  }

  /** No step to undo that was POSTed before is at a merchant that can still be reached. */
  ghost predicate PostedAreOutOfReach(wid: string, failing: Entry, w: World) {
    var plan := PlanFrom(w.ledger, InitialState(wid, failing));
    forall i :: 0 <= i < |plan| && Posts(w, plan[i].stepId) > 0 ==> !Reachable(w.breakers, plan[i].merchant)
  }

  lemma OutOfReachIsSafe(wid: string, failing: Entry, w: World, oracle: nat -> Answer, id: string)
    requires Consistent(Initial(wid, failing)) && DistinctIds(w.ledger) && PostedAreOutOfReach(wid, failing, w) && Posts(w, id) > 0
    ensures Posts(Finish(Initial(wid, failing), w, oracle, 0).world, id) == Posts(w, id)
  {
    hide Finish, Posts, PlanFrom, NodeInv, ResultsJustified, DistinctIds, PostedResults, WasPosted, Reachable;
    NoneYet();
    var c0 := Initial(wid, failing);
    var f := Finish(c0, w, oracle, 0);
    var n := |f.cfg.st.results|;
    FinishPosts(c0, w, oracle, 0, id);
    FinishKeepsPlan(c0, w, oracle, 0);
    FinishPostsOnlyReachable(c0, w, oracle, 0, w.breakers);
    PlanDistinctAt(wid, failing, w);
    ConsistentMatched(f.cfg);
    PostedResultsAtMostOnce(f.cfg.plan, f.cfg.st.results, n, id);
    assert f.cfg.st.results[..n] == f.cfg.st.results;
  }

  lemma PlanDistinctAt(wid: string, failing: Entry, w: World)
    requires DistinctIds(w.ledger)
    ensures DistinctIds(PlanFrom(w.ledger, InitialState(wid, failing)))
  {
    StepsOfDistinct(w.ledger, wid);
    UndoListDistinct(StepsOf(w.ledger, wid), failing.stepId);
  }

  /** A reachable step of the plan is POSTed by the generous run. */
  lemma GenerousRunPosts(wid: string, failing: Entry, w: World, i: nat)
    requires Consistent(Initial(wid, failing))
    requires i < |PlanFrom(w.ledger, InitialState(wid, failing))|
    requires Reachable(w.breakers, PlanFrom(w.ledger, InitialState(wid, failing))[i].merchant)
    ensures var id := PlanFrom(w.ledger, InitialState(wid, failing))[i].stepId;
      Posts(Finish(Initial(wid, failing), w, Generous(), 0).world, id) > Posts(w, id)
  {
    hide Finish, Posts, PlanFrom, NodeInv, ResultsJustified, PostedResults, WasPosted;
    var c0, oracle := Initial(wid, failing), Generous();
    var f := Finish(c0, w, oracle, 0);
    var id := PlanFrom(w.ledger, InitialState(wid, failing))[i].stepId;
    FinishPosts(c0, w, oracle, 0, id);
    FinishKeepsPlan(c0, w, oracle, 0);
    GenerousFinishReachesAll(c0, w, oracle, 0, w.breakers);
    ConsistentMatched(f.cfg);
    PostedResultCounts(f.cfg.st.results, i);
    NoneYet();
  }

  lemma NoneYet()
    ensures PostedResults([]) == multiset{}
  {}

  /**
   When a run that ignores the checkpoint repeats no refund: for every list of answers
   it POSTs nothing that was POSTed before if and only if each step to undo that was
   POSTed before is at a merchant without endpoint or behind an open breaker.
   */
  lemma FallbackSafeIff(wid: string, failing: Entry, w: World)
    requires DistinctIds(w.ledger)
    ensures Consistent(Initial(wid, failing))
    ensures (forall oracle: nat -> Answer :: RepeatsNothing(wid, failing, w, oracle)) <==> PostedAreOutOfReach(wid, failing, w)
  {
    InitialConsistent(wid, failing);
    if PostedAreOutOfReach(wid, failing, w) {
      forall oracle: nat -> Answer, id | Posts(w, id) > 0
        ensures Posts(Finish(Initial(wid, failing), w, oracle, 0).world, id) == Posts(w, id)
      {
        OutOfReachIsSafe(wid, failing, w, oracle, id);
      }
    } else {
      var plan := PlanFrom(w.ledger, InitialState(wid, failing));
      var i :| 0 <= i < |plan| && Posts(w, plan[i].stepId) > 0 && Reachable(w.breakers, plan[i].merchant);
      GenerousRunPosts(wid, failing, w, i);
      assert !RepeatsNothing(wid, failing, w, Generous());
    }
  }
}
