/**
 The ledger as an audit trail of the budget: `/pay` (proxy/mcp_proxy.py), the recheck
 worker (compensating_agent/pending_payout_worker.py) and the saga's refund rows
 (compensating_agent/graph.py) taken together, one request or cycle after the other.
 */
module LedgerAudit {
  import opened Wrappers
  import opened Schemas
  import opened Payouts
  import opened Tables
  import A = Authorization
  import RateLimiter
  import Proxy
  import W = PendingPayoutWorker

  datatype Act =
    | Serve(act: Proxy.Act)
    | Cycle(statuses: nat -> (nat -> Read), maxChecks: nat, stepIds: nat -> string)
    | SagaRow(row: Entry)

  function BooksIn(s: Proxy.State): W.Books {
    W.Books(s.budgets, s.payouts, s.ledger)
  }

  function Perform(s: Proxy.State, act: Act): Proxy.State {
    match act
    case Serve(a) => Proxy.Perform(s, a)
    case Cycle(statuses, maxChecks, stepIds) =>
      var b := W.Cycle(BooksIn(s), OpenIds(s.payouts, |s.payouts|), statuses, maxChecks, stepIds);
      s.(budgets := b.budgets, payouts := b.payouts, ledger := b.ledger)
    case SagaRow(row) => if row.action == Refund then s.(ledger := s.ledger + [row]) else s
  }

  function History(acts: seq<Act>): Proxy.State {
    if acts == [] then Proxy.START else Perform(History(acts[..|acts| - 1]), acts[|acts| - 1])
  }

  /** What one row says about the budget: settled money, money held back, or a hold given up. */
  function Share(e: Entry): real {
    match (e.action, e.actual.status)
    case (Payment, Settled) => e.actual.amount
    case (Payment, Pending) => e.expected.amount
    case (PayoutResolution, Failed) => -e.expected.amount
    case _ => 0.0
  }

  function Use(ledger: seq<Entry>, wid: string): real {
    if ledger == [] then 0.0
    else
      var e := ledger[|ledger| - 1];
      Use(ledger[..|ledger| - 1], wid) + if e.workflowId == wid then Share(e) else 0.0
  }

  lemma UseSnoc(ledger: seq<Entry>, e: Entry, wid: string)
    ensures Use(ledger + [e], wid) == Use(ledger, wid) + if e.workflowId == wid then Share(e) else 0.0
  {
    assert (ledger + [e])[..|ledger|] == ledger;
  }

  /** The ledger explains the used budget, and payout rows belong to known workflows. */
  ghost predicate Explained(b: W.Books, wid: string) {
    && (if wid in b.budgets then b.budgets[wid].used == Use(b.ledger, wid) else Use(b.ledger, wid) == 0.0)
    && forall i :: 0 <= i < |b.payouts| ==> b.payouts[i].workflowId in b.budgets
  }

  // ---- the worker ----

  lemma RecheckKeepsExplained(b: W.Books, id: nat, poll: PollResult, maxChecks: nat, stepId: string, wid: string)
    requires Explained(b, wid) && id < |b.payouts|
    ensures Explained(W.Rechecked(b, id, poll, maxChecks, stepId), wid)
  {
    UseSnoc(b.ledger, W.ResolutionStep(b.payouts[id], Settled, stepId), wid);
    UseSnoc(b.ledger, W.ResolutionStep(b.payouts[id], Failed, stepId), wid);
    hide Use;
  }

  lemma {:induction false} CycleKeepsExplained(b: W.Books, ids: seq<nat>, statuses: nat -> (nat -> Read), maxChecks: nat,
                                               stepIds: nat -> string, wid: string)
    requires Explained(b, wid) && forall k :: 0 <= k < |ids| ==> ids[k] < |b.payouts|
    ensures Explained(W.Cycle(b, ids, statuses, maxChecks, stepIds), wid)
  {
    hide Explained, W.Rechecked, Verdict;
    if ids != [] {
      var init, last := ids[..|ids| - 1], ids[|ids| - 1];
      CycleKeepsExplained(b, init, statuses, maxChecks, stepIds, wid);
      RecheckKeepsExplained(W.Cycle(b, init, statuses, maxChecks, stepIds), last, Verdict(statuses(last), 0), maxChecks, stepIds(last), wid);
    }
  }

  // ---- /pay ----

  /** A forwarded payment: whatever the gateway says, its row accounts for what it does to the budget. */
  lemma ForwardKeepsExplained(s: Proxy.State, req: Proxy.PayRequest, ans: Proxy.Answers, wid: string)
    requires Explained(BooksIn(s), wid) && CanReserve(s.budgets, req.workflowId, req.amount) && ans.death == Proxy.Survives
    ensures Explained(BooksIn(Proxy.Forwarded(s.(budgets := Tables.Reserve(s.budgets, req.workflowId, req.amount)), req, ans).0), wid)
  {
    hide Proxy.ChargeOf, Proxy.ReplyBody, SaveResponse, Use;
    var c := Proxy.ChargeOf(req, ans);
    UseSnoc(s.ledger, Proxy.PaymentEntry(req, c, ans.stepId), wid);
  }

  lemma RequestKeepsExplained(s: Proxy.State, req: Proxy.PayRequest, ans: Proxy.Answers, wid: string)
    requires Explained(BooksIn(s), wid) && ans.death == Proxy.Survives
    ensures Explained(BooksIn(Proxy.Paid(s, req, ans).0), wid)
  {
    hide Proxy.Forwarded, A.Decide, Use;
    var s1 := s.(windows := Proxy.Counted(s.windows, req.workflowId, ans.now));
    if RateLimiter.Admits(s1.windows[req.workflowId]) && req.key !in s.cache && req.key !in s.responses {
      UseSnoc(s.ledger, Proxy.MandateRefusal(req, ans.stepId), wid);
      if CanReserve(s.budgets, req.workflowId, req.amount) {
        ForwardKeepsExplained(s1.(wallets := A.Decide(s.wallets, Proxy.AGENT, Proxy.AuthCall(req, ans)).wallets), req, ans, wid);
      }
    }
  }

  ghost predicate NobodyDies(acts: seq<Act>) {
    forall k :: 0 <= k < |acts| && acts[k].Serve? && acts[k].act.Request? ==> acts[k].act.ans.death == Proxy.Survives
  }

  lemma ActKeepsExplained(s: Proxy.State, act: Act, wid: string)
    requires Explained(BooksIn(s), wid) && NobodyDies([act])
    ensures Explained(BooksIn(Perform(s, act)), wid)
  {
    assert [act][0] == act;
    hide Use, Proxy.Paid, W.Cycle;
    match act
    case Serve(Request(req, ans)) => RequestKeepsExplained(s, req, ans, wid);
    case Cycle(statuses, maxChecks, stepIds) =>
      CycleKeepsExplained(BooksIn(s), OpenIds(s.payouts, |s.payouts|), statuses, maxChecks, stepIds, wid);
    case SagaRow(row) => UseSnoc(s.ledger, row, wid);
    case _ =>
  }

  /**
   The ledger explains the budget: over every history of workflows set up, requests,
   expiring replies, recheck cycles and saga refunds in which no process dies half way,
   a workflow's used budget is the settled payments on the ledger, plus the requested
   amounts of the pending ones, minus those whose payout was found to have failed.
   */
  lemma {:induction false} LedgerExplainsBudget(acts: seq<Act>, wid: string)
    requires NobodyDies(acts)
    ensures var s := History(acts);
      if wid in s.budgets then s.budgets[wid].used == Use(s.ledger, wid) else Use(s.ledger, wid) == 0.0
    ensures Explained(BooksIn(History(acts)), wid)
  {
    hide Perform, Use;
    if acts != [] {
      LedgerExplainsBudget(acts[..|acts| - 1], wid);
      ActKeepsExplained(History(acts[..|acts| - 1]), acts[|acts| - 1], wid);
    } else {
      EmptyIsExplained(wid);
    }
  }

  lemma EmptyIsExplained(wid: string)
    ensures Explained(BooksIn(Proxy.START), wid)
  {}
}
