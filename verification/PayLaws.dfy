/**
 What `/pay` (proxy/mcp_proxy.py) answers, books and publishes, in terms of what was asked
 and what gateways, merchants and the wallet answered.
 */
module PayLaws {
  import opened Wrappers
  import opened Schemas
  import opened Payouts
  import opened Tables
  import opened ReconciliationEngine
  import opened Proxy
  import RateLimiter
  import A = Authorization

  // ---- how far a request gets ----

  /** The count the request's INCR returns. */
  function CountOf(s: State, req: PayRequest, ans: Answers): nat {
    var wid := req.workflowId;
    if wid in s.windows && ans.now < s.windows[wid].start + 60.0 then s.windows[wid].count + 1 else 1
  }

  /** Its key was answered before. */
  predicate Answered(s: State, key: string) {
    key in s.cache || key in s.responses
  }

  /** The wallet and the policy checks have nothing against it. */
  predicate Cleared(s: State, req: PayRequest, ans: Answers) {
    && A.WithinLimits(s.wallets, AGENT, A.Call(ans.today, req.amount, ans.policy, req.merchant, ans.balance))
    && forall i :: 0 <= i < |ans.policy| ==> ans.policy[i]
  }

  predicate Funded(req: PayRequest, ans: Answers) {
    UsesRealPayout(req.merchant) ==> ans.balance == A.Sufficient
  }

  predicate FitsBudget(s: State, req: PayRequest) {
    req.workflowId in s.budgets && s.budgets[req.workflowId].used + req.amount <= s.budgets[req.workflowId].limit
  }

  /** Neither refused by the limiter nor answered before. */
  predicate IsNew(s: State, req: PayRequest, ans: Answers) {
    CountOf(s, req, ans) <= 50 && !Answered(s, req.key)
  }

  predicate Reaches(s: State, act: Act) {
    act.Request? && |Perform(s, act).gatewayCalls| > |s.gatewayCalls|
  }

  lemma DecisionOf(s: State, req: PayRequest, ans: Answers)
    ensures var d := A.Decide(s.wallets, AGENT, AuthCall(req, ans)).decision;
      && (d == A.Allow <==> Cleared(s, req, ans) && Funded(req, ans))
      && (d == A.Raised <==> Cleared(s, req, ans) && UsesRealPayout(req.merchant) && ans.balance == A.BalanceRaised)
  {
    A.AllowedIff(s.wallets, AGENT, AuthCall(req, ans));
    hide A.Decide;
  }

  lemma CountIs(s: State, req: PayRequest, ans: Answers)
    ensures RateLimiter.Admits(Counted(s.windows, req.workflowId, ans.now)[req.workflowId]) <==> CountOf(s, req, ans) <= 50
  {}

  /**
   How far every request gets: the limiter refuses it from the 51st of a window on; a known
   key gets the stored reply; a payment reaches a gateway if and only if it is new, wallet,
   policy and balance clear it, it fits into the workflow's budget and its merchant is
   known; and each other end names the first of these that failed.
   */
  lemma PaidAnswersIff(s: State, req: PayRequest, ans: Answers)
    ensures var (s', r) := Paid(s, req, ans);
      && (r == TooManyRequests <==> CountOf(s, req, ans) > 50)
      && (CountOf(s, req, ans) <= 50 && req.key in s.cache ==> r == Replied(s.cache[req.key]))
      && (CountOf(s, req, ans) <= 50 && req.key !in s.cache && req.key in s.responses ==>
            r == Replied(s.responses[req.key]) && s'.cache == s.cache[req.key := s.responses[req.key]])
      && (r == AuthorizationBlocked <==>
            IsNew(s, req, ans)
            && !(Cleared(s, req, ans) && (UsesRealPayout(req.merchant) ==> ans.balance != A.Insufficient)))
      && (r.MandateExceeded? <==>
            IsNew(s, req, ans) && Cleared(s, req, ans) && Funded(req, ans) && !FitsBudget(s, req))
      && (r == UnknownMerchant <==>
            IsNew(s, req, ans) && Cleared(s, req, ans) && Funded(req, ans) && FitsBudget(s, req)
            && req.merchant.OtherMerchant?)
      && (|s'.gatewayCalls| > |s.gatewayCalls| <==>
            IsNew(s, req, ans) && Cleared(s, req, ans) && Funded(req, ans) && FitsBudget(s, req)
            && !req.merchant.OtherMerchant?)
  {
    hide A.Decide, A.WithinLimits, ChargeOf, ReplyBody, SettleBudget, HeldRows, SaveResponse, PaymentEntry, Counted, RateLimiter.Admits;
    DecisionOf(s, req, ans);
    CountIs(s, req, ans);
  }

  // ---- what a forwarded payment is booked as ----

  /** The reply of a /charge that is booked as the merchant states it: any 200. */
  predicate Took(reply: ChargeReply) {
    reply.Json? && reply.code == 200
  }

  /**
   A payment at a merchant without real payouts: it is booked as settled if and only if the
   reply is a 200 that says so, as pending if and only if a 200 says that; amount, payee and
   settlement ref are then the reply's, or the requested amount, payee and "". Any other
   code, a timeout or an exception is on record as failed, with its code. Unless settled or
   pending, the reservation is given back.
   */
  lemma MockChargeBookedIff(s: State, req: PayRequest, ans: Answers)
    requires !UsesRealPayout(req.merchant) && ans.death == Survives && CanReserve(s.budgets, req.workflowId, req.amount)
    ensures
      var s' := Forwarded(s.(budgets := Tables.Reserve(s.budgets, req.workflowId, req.amount)), req, ans).0;
      var row, reply := s'.ledger[|s.ledger|], ans.charge;
      && |s'.ledger| == |s.ledger| + 1 && s'.ledger[..|s.ledger|] == s.ledger && s'.payouts == s.payouts
      && row.stepId == ans.stepId && row.workflowId == req.workflowId && row.action == Payment
      && row.merchant == req.merchant && row.expected == Expected(req.amount, req.payee)
      && (row.actual.status == Settled <==> Took(reply) && reply.status == Some(Settled))
      && (row.actual.status == Pending <==> Took(reply) && reply.status == Some(Pending))
      && (row.actual.status == Failed <==> !Took(reply) || reply.status.None? || reply.status == Some(Failed))
      && row.actual.amount == (if Took(reply) && reply.amount.Some? then reply.amount.value else req.amount)
      && row.actual.payee == (if Took(reply) && reply.payee.Some? then reply.payee.value else req.payee)
      && row.actual.settlementRef == (if Took(reply) && reply.settlementRef.Some? then reply.settlementRef.value else "")
      && row.raw == (match reply
           case Json(code, _, _, _, _, error) => RawResponse(Some(code), error)
           case ChargeTimeout => RawResponse(Some(408), Timeout)
           case ChargeRaised => RawResponse(Some(503), NoError))
      && (row.actual.status != Settled && row.actual.status != Pending ==> s'.budgets == s.budgets)
      && (row.actual.status == Pending ==> s'.budgets == Tables.Reserve(s.budgets, req.workflowId, req.amount))
      && (row.actual.status == Settled ==>
            s'.budgets == s.budgets[req.workflowId :=
              Budget(s.budgets[req.workflowId].limit, s.budgets[req.workflowId].used + row.actual.amount)])
  {
    hide ReplyBody, SaveResponse, Tables.Reserve, Rollback, Commit, HeldRows;
    NothingHeld(s.payouts, req, ChargeOf(req, ans), PayoutId(ans), ans.stepId);
    ReleaseUndoesReserve(s.budgets, req.workflowId, req.amount);
    ReserveThenCommit(s.budgets, req.workflowId, req.amount, MockCharge(req, ans.charge).amount);
  }

  lemma NothingHeld(payouts: seq<PayoutRow>, req: PayRequest, c: Charged, id: string, stepId: string)
    requires c.holdFor.None?
    ensures HeldRows(payouts, req, c, id, stepId) == payouts
  {}

  /** A payout that was not created, or came back without an id, is on record as failed and holds nothing. */
  lemma UnmadePayoutReleased(s: State, req: PayRequest, ans: Answers)
    requires UsesRealPayout(req.merchant) && (ans.payout.CreateRaised? || ans.payout.id == "") && ans.death == Survives
    requires CanReserve(s.budgets, req.workflowId, req.amount)
    ensures
      var s' := Forwarded(s.(budgets := Tables.Reserve(s.budgets, req.workflowId, req.amount)), req, ans).0;
      && |s'.ledger| == |s.ledger| + 1 && s'.ledger[|s.ledger|].actual.status == Failed
      && s'.ledger[|s.ledger|].actual.settlementRef == ""
      && s'.budgets == s.budgets && s'.payouts == s.payouts
  {
    hide ReplyBody, SaveResponse, Tables.Reserve, Rollback, Commit, Verdict;
    ReleaseUndoesReserve(s.budgets, req.workflowId, req.amount);
  }

  // ---- the budget is what the gateways answered ----

  /** What a forwarded payment leaves on the budget: a settled amount, its reservation, or nothing. */
  datatype Outcome = Booked(amount: real) | Held | Nothing

  /** By the answers alone. A process that dies before it books the answer leaves the reservation. */
  function OutcomeOf(req: PayRequest, ans: Answers): Outcome {
    var p, reply := ans.payout, ans.charge;
    if ans.death == BeforeBudget then Held
    else if !UsesRealPayout(req.merchant) then
      if !reply.Json? || reply.code != 200 then Nothing
      else if reply.status == Some(Settled) then Booked(if reply.amount.Some? then reply.amount.value else req.amount)
      else if reply.status == Some(Pending) then Held
      else Nothing
    else if p.CreateRaised? || p.id == "" then Nothing
    else
      match FateOf(req, p)
      case PaidOut => if p.trouble == WhenSettled then Nothing else Booked(p.amount)
      case Unknown => if p.trouble == BeforeRow || p.trouble == AfterRow then Nothing else Held
      case NotPaid => Nothing
      case Unread => Nothing
  }

  function UseOf(req: PayRequest, o: Outcome): real {
    match o case Booked(amount) => amount case Held => req.amount case Nothing => 0.0
  }

  lemma ChargeIsOutcome(req: PayRequest, ans: Answers)
    requires ans.death != BeforeBudget
    ensures var c := ChargeOf(req, ans);
      match OutcomeOf(req, ans)
      case Booked(amount) => c.status == Settled && c.amount == amount
      case Held => c.status == Pending
      case Nothing => c.status != Settled && c.status != Pending
  {
    hide Verdict, PayoutStatusOf, FateOf, DecidingRead;
    if UsesRealPayout(req.merchant) && ans.payout.Created? {
      if ans.payout.id != "" { VerdictIsFate(req, ans.payout); } else { NoIdIsFailed(req, ans.payout); }
    }
  }

  lemma NoIdIsFailed(req: PayRequest, p: PayoutReply)
    requires p.Created? && p.id == ""
    ensures PayoutStatusOf(req, p).Some? && PayoutStatusOf(req, p).value.0 == Failed
  {
    hide Verdict;
  }

  /** What is used of a workflow's budget; nothing if there is no such workflow. */
  function UsedOf(budgets: Budgets, wid: string): real {
    if wid in budgets then budgets[wid].used else 0.0
  }

  lemma SettlingFollows(budgets: Budgets, req: PayRequest, ans: Answers, wid: string)
    requires CanReserve(budgets, req.workflowId, req.amount)
    ensures var reserved := Tables.Reserve(budgets, req.workflowId, req.amount);
      var after := if ans.death == BeforeBudget then reserved else SettleBudget(reserved, req, ChargeOf(req, ans));
      UsedOf(after, wid) == UsedOf(budgets, wid) + if req.workflowId == wid then UseOf(req, OutcomeOf(req, ans)) else 0.0
  {
    hide ChargeOf;
    if ans.death != BeforeBudget { ChargeIsOutcome(req, ans); }
    hide FateOf, DecidingRead;
  }

  lemma ForwardBooks(s: State, req: PayRequest, ans: Answers)
    ensures Forwarded(s, req, ans).0.budgets == if ans.death == BeforeBudget then s.budgets else SettleBudget(s.budgets, req, ChargeOf(req, ans))
    ensures |Forwarded(s, req, ans).0.gatewayCalls| == |s.gatewayCalls| + 1
  {
    hide ChargeOf, SettleBudget, HeldRows, ReplyBody, SaveResponse, PaymentEntry;
  }

  /** A request that reaches no gateway leaves the budgets as they were. */
  lemma UnforwardedBooksNothing(s: State, req: PayRequest, ans: Answers)
    requires |Paid(s, req, ans).0.gatewayCalls| == |s.gatewayCalls|
    ensures Paid(s, req, ans).0.budgets == s.budgets
  {
    hide Forwarded, A.Decide, Tables.Reserve, CanReserve, Rollback, RateLimiter.Admits, Counted;
    var auth := A.Decide(s.wallets, AGENT, AuthCall(req, ans));
    var s1 := s.(windows := Counted(s.windows, req.workflowId, ans.now), wallets := auth.wallets);
    ForwardBooks(s1.(budgets := Tables.Reserve(s.budgets, req.workflowId, req.amount)), req, ans);
    if CanReserve(s.budgets, req.workflowId, req.amount) { ReleaseUndoesReserve(s.budgets, req.workflowId, req.amount); }
  }

  lemma GatewaysOnlyGrow(s: State, req: PayRequest, ans: Answers)
    ensures |Paid(s, req, ans).0.gatewayCalls| >= |s.gatewayCalls|
  {
    hide Forwarded, A.Decide, Tables.Reserve, CanReserve, Rollback, RateLimiter.Admits, Counted;
    var auth := A.Decide(s.wallets, AGENT, AuthCall(req, ans));
    var s1 := s.(windows := Counted(s.windows, req.workflowId, ans.now), wallets := auth.wallets);
    ForwardBooks(s1.(budgets := Tables.Reserve(s.budgets, req.workflowId, req.amount)), req, ans);
  }

  lemma ActFollows(s: State, act: Act, wid: string)
    ensures UsedOf(Perform(s, act).budgets, wid) == UsedOf(s.budgets, wid)
      + if Reaches(s, act) && act.req.workflowId == wid then UseOf(act.req, OutcomeOf(act.req, act.ans)) else 0.0
  {
    hide Paid, Forwarded, ChargeOf, SettleBudget, Tables.Reserve, CanReserve, A.Decide, OutcomeOf, UsedOf;
    match act
    case Request(req, ans) =>
      GatewaysOnlyGrow(s, req, ans);
      if Reaches(s, act) {
        ReachedMeansForwarded(s, req, ans);
        var auth := A.Decide(s.wallets, AGENT, AuthCall(req, ans));
        var s1 := s.(windows := Counted(s.windows, req.workflowId, ans.now), wallets := auth.wallets);
        ForwardBooks(s1.(budgets := Tables.Reserve(s.budgets, req.workflowId, req.amount)), req, ans);
        SettlingFollows(s.budgets, req, ans, wid);
      } else {
        UnforwardedBooksNothing(s, req, ans);
      }
    case InitWorkflow(w, limit) => CreatingUsesNothing(s.budgets, w, limit, wid);
    case Expire(_) =>
  }

  lemma CreatingUsesNothing(budgets: Budgets, w: string, limit: real, wid: string)
    ensures UsedOf(CreateWorkflow(budgets, w, limit), wid) == UsedOf(budgets, wid)
  {}

  /** What the answers to a workflow's forwarded payments come to. */
  function AnsweredUse(s: State, acts: seq<Act>, wid: string): real {
    if acts == [] then 0.0
    else
      var init, act := acts[..|acts| - 1], acts[|acts| - 1];
      AnsweredUse(s, init, wid)
        + if Reaches(History(s, init), act) && act.req.workflowId == wid then UseOf(act.req, OutcomeOf(act.req, act.ans)) else 0.0
  }

  /**
   The budget is what the gateways answered: over every history of workflows set up,
   requests at any merchants with any answers, exceptions and deaths, and expiring replies,
   the used budget of a workflow grows by the settled amounts and the requested amounts
   still open, as the answers have them, and by nothing else.
   */
  lemma {:induction false} BudgetIsWhatGatewaysAnswered(s: State, acts: seq<Act>, wid: string)
    ensures UsedOf(History(s, acts).budgets, wid) == UsedOf(s.budgets, wid) + AnsweredUse(s, acts, wid)
  {
    hide Perform, UsedOf, OutcomeOf;
    if acts != [] {
      BudgetIsWhatGatewaysAnswered(s, acts[..|acts| - 1], wid);
      ActFollows(History(s, acts[..|acts| - 1]), acts[|acts| - 1], wid);
    }
  }

  // ---- the reply ----

  /**
   What a forwarded payment is answered: the id and status of the row on record, whether its
   fields are as expected, and the workflow's budget as it is then.
   */
  lemma ReplyReports(s: State, req: PayRequest, ans: Answers)
    requires Forwarded(s, req, ans).1.Replied?
    ensures
      var (s', r) := Forwarded(s, req, ans);
      var row := s'.ledger[|s.ledger|];
      && |s'.ledger| == |s.ledger| + 1
      && r.body.stepId == row.stepId && r.body.status == row.actual.status
      && (r.body.reconciliation == Match <==> OtherwiseClean(row))
      && (req.workflowId in s'.budgets ==>
            r.body.used == s'.budgets[req.workflowId].used && r.body.limit == s'.budgets[req.workflowId].limit)
      && (s'.responses == if req.key in s.responses then s.responses else s.responses[req.key := r.body])
      && s'.cache == s.cache[req.key := r.body]
  {
    hide ChargeOf, SettleBudget, HeldRows, Reconcile, OtherwiseClean;
    var row := Forwarded(s, req, ans).0.ledger[|s.ledger|];
    DuplicateDecidesCleanEntries(row, SeenRefs(Forwarded(s, req, ans).0.ledger, req.workflowId) - {row.actual.settlementRef});
  }

  // ---- what is published ----

  /** The refused payments of a history that ask for a compensation, as recorded: a 403, failed, over the requested amount. */
  function Refusals(s: State, acts: seq<Act>): seq<Entry> {
    if acts == [] then []
    else
      var init, act := acts[..|acts| - 1], acts[|acts| - 1];
      Refusals(s, init)
        + if act.Request? && act.ans.aegis && Paid(History(s, init), act.req, act.ans).1.MandateExceeded? then
            [Entry(act.ans.stepId, act.req.workflowId, Payment, act.req.merchant, Expected(act.req.amount, act.req.payee),
                   Actual(act.req.amount, act.req.payee, "", Failed), RawResponse(Some(403), MandateLimitExceeded))]
          else []
  }

  lemma ForwardPublishesNothing(s: State, req: PayRequest, ans: Answers)
    ensures var (s', r) := Forwarded(s, req, ans); s'.compensations == s.compensations && !r.MandateExceeded?
  {
    hide ChargeOf, SettleBudget, HeldRows, ReplyBody, SaveResponse, PaymentEntry;
  }

  lemma RequestPublishes(s: State, req: PayRequest, ans: Answers)
    ensures var (s', r) := Paid(s, req, ans);
      s'.compensations == s.compensations + if ans.aegis && r.MandateExceeded? then [MandateRefusal(req, ans.stepId)] else []
  {
    hide Forwarded, A.Decide, CanReserve, Tables.Reserve, Rollback, RateLimiter.Admits, Counted, MandateRefusal;
    var auth := A.Decide(s.wallets, AGENT, AuthCall(req, ans));
    var s1 := s.(windows := Counted(s.windows, req.workflowId, ans.now), wallets := auth.wallets);
    ForwardPublishesNothing(s1.(budgets := Tables.Reserve(s.budgets, req.workflowId, req.amount)), req, ans);
  }

  lemma ActPublishes(s: State, act: Act)
    ensures Perform(s, act).compensations == s.compensations + Refusals(s, [act])
  {
    hide Paid;
    assert [act][..0] == [];
    assert History(s, []) == s && Refusals(s, []) == [];
    if act.Request? { RequestPublishes(s, act.req, act.ans); }
  }

  lemma LastRefusal(s: State, acts: seq<Act>)
    requires acts != []
    ensures var init, act := acts[..|acts| - 1], acts[|acts| - 1];
      Refusals(s, acts) == Refusals(s, init) + Refusals(History(s, init), [act])
  {
    hide Paid;
    var act := acts[|acts| - 1];
    assert [act][..0] == [];
    assert History(History(s, acts[..|acts| - 1]), []) == History(s, acts[..|acts| - 1]);
  }

  /**
   Exactly the refusals are published: over every history, the compensation requests are, in
   order, the payments refused for the mandate while the safeguard was on; none is missing
   and there is no other.
   */
  lemma {:induction false} PublishedExactly(s: State, acts: seq<Act>)
    ensures History(s, acts).compensations == s.compensations + Refusals(s, acts)
  {
    hide Perform, Paid, Refusals;
    if acts == [] {
      NoRefusals(s);
    } else {
      PublishedExactly(s, acts[..|acts| - 1]);
      ActPublishes(History(s, acts[..|acts| - 1]), acts[|acts| - 1]);
      LastRefusal(s, acts);
    }
  }

  lemma NoRefusals(s: State)
    ensures s.compensations + Refusals(s, []) == s.compensations
  {}
}
