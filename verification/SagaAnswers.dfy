/**
 What the saga (compensating_agent/graph.py) makes of the answers it gets about a step, said
 in terms of these answers alone: the policy fetch, the extraction, the breaker, and the
 merchant's reply to the refund request.
 */
module SagaAnswers {
  import opened Wrappers
  import opened Schemas
  import opened RefundMath
  import opened Tables
  import opened PolicyExtractor
  import opened Saga

  /** What the answers say of a step's policy. */
  datatype Ruling = NoTerms | Denied | Allowed(penalty: Option<real>)

  /** The first text that parses decides; if there is none, nothing is refunded. */
  function ExtractedRuling(reply: ExtractReply): Ruling {
    match reply
    case ServiceRaised => Denied
    case Served(first, second, parse) =>
      if first.Returned? && parse(first.text).Extracted? then RulingIn(parse(first.text))
      else if second.Returned? && parse(second.text).Extracted? then RulingIn(parse(second.text))
      else Denied
  }

  function RulingIn(p: Parsed): Ruling
    requires p.Extracted?
  {
    if p.refundable then Allowed(p.penalty) else Denied
  }

  /** Merchants without a policy, and empty policy texts, set no terms; a policy that could not be read denies. */
  function RulingOf(e: Entry, h: Heard): Ruling {
    if !HasPolicy(e.merchant) then NoTerms
    else if h.fetch.None? || h.fetch.value.FetchRaised? then Denied
    else if h.fetch.value.text == "" then NoTerms
    else if h.extract.None? then Denied
    else ExtractedRuling(h.extract.value)
  }

  /** What a refund under the ruling is over: the settled amount, or the charge less the penalty, to the paisa. */
  function Due(e: Entry, ruling: Ruling): real {
    match ruling
    case NoTerms => e.actual.amount
    case Allowed(penalty) => Round2(ExactRefund(e.expected.amount, penalty))
    case Denied => 0.0
  }

  /** The refund request is sent. */
  predicate IsSent(e: Entry, h: Heard) {
    !h.isOpen && Registered(e.merchant) && RulingOf(e, h) != Denied
  }

  /** The merchant's reply to a request is a 200 that says refunded, or success. */
  predicate Accepted(e: Entry, h: Heard) {
    IsSent(e, h) && h.reply.Some? && h.reply.value.GatewayReplied? && h.reply.value.code == 200 && h.reply.value.accepted
  }

  /** The outcome of a step, by the answers: every outcome if and only if its answers came. */
  ghost predicate Follows(e: Entry, h: Heard, r: UndoResult) {
    && r.stepId == e.stepId && r.merchant == e.merchant && h.reply.Some?
    && (WasPosted(r) <==> IsSent(e, h))
    && (r.outcome == WasRefunded <==> Accepted(e, h))
    && r.recovered == (if Accepted(e, h) then Due(e, RulingOf(e, h)) else 0.0)
    && (r.outcome == Rejected <==> IsSent(e, h) && h.reply.value.GatewayReplied? && !Accepted(e, h))
    && (r.outcome == Dlq <==> h.isOpen || (IsSent(e, h) && h.reply.value.GatewayDown?))
    && (r.outcome == NonRefundable <==> !h.isOpen && RulingOf(e, h) == Denied)
    && (r.outcome == Errored <==>
          !h.isOpen && RulingOf(e, h) != Denied && (!Registered(e.merchant) || h.reply.value.OtherRaised?))
    && MessageFollows(e, h, r)
  }

  /** The message names the same cause. */
  ghost predicate MessageFollows(e: Entry, h: Heard, r: UndoResult)
    requires h.reply.Some?
  {
    if h.isOpen then r.message == BreakerOpenQueued
    else if RulingOf(e, h) == Denied then r.message == PolicyPrevents
    else if !Registered(e.merchant) then r.message == NoEndpoint
    else
      match h.reply.value
      case GatewayReplied(code, _, _) => r.message == if Accepted(e, h) then RefundSuccessful else GatewayRejected(code)
      case GatewayDown => r.message.MerchantError?
      case OtherRaised(_) => r.message == ExceptionText
  }

  /** The terms in the state are the ruling. */
  ghost predicate TermsAre(ruling: Ruling, terms: Option<Terms>) {
    match ruling
    case NoTerms => terms.None?
    case Denied => terms.Some? && !terms.value.refundable
    case Allowed(penalty) => terms.Some? && terms.value.refundable && terms.value.penalty == penalty
  }

  /** `compute_refund` is the exact refund to the paisa, or None. */
  lemma ComputedIsDue(original: real, penalty: Option<real>, refundable: bool)
    ensures ComputeRefund(original, penalty, refundable) == if refundable then Some(Round2(ExactRefund(original, penalty))) else None
  {
    FeeComplement(original, PenaltyOf(penalty));
  }

  lemma ExtractionIsRuling(reply: ExtractReply)
    ensures TermsAre(ExtractedRuling(reply), Some(match reply
      case Served(first, second, parse) => ExtractedTerms(first, second, parse)
      case ServiceRaised => FAIL_SAFE))
    ensures ExtractedRuling(reply) != NoTerms
  {}

  /** The amount in the state is what is due. */
  ghost predicate AmountIs(e: Entry, ruling: Ruling, amount: Option<real>) {
    amount == if ruling.Allowed? then Some(Due(e, ruling)) else None
  }

  /** One attempt, with the terms and amount in the state those of the answers. */
  lemma AttemptFollows(cfg: Cfg, breakers: Breakers, reply: RefundReply)
    requires cfg.st.current.Some?
    requires var e := cfg.st.current.value;
      TermsAre(RulingOf(e, cfg.now), cfg.st.terms) && AmountIs(e, RulingOf(e, cfg.now), cfg.st.refundAmount)
    ensures Follows(cfg.st.current.value, HeardOf(cfg, breakers, reply), AttemptPlan(cfg.st, breakers, reply).result)
  {
    var e := cfg.st.current.value;
    assert RulingOf(e, HeardOf(cfg, breakers, reply)) == RulingOf(e, cfg.now);
    hide RulingOf, Round2, ExactRefund;
  }

  /** What an attempt does, by the answers. */
  ghost function EffectsOf(wid: string, e: Entry, h: Heard): seq<Effect>
    requires h.reply.Some?
  {
    var due := Due(e, RulingOf(e, h));
    if h.isOpen then
      [QueueDead(DlqRow(wid, e.merchant, e.stepId, if RulingOf(e, h).Allowed? then due else 0.0, e.actual.settlementRef))]
    else if !IsSent(e, h) then []
    else
      [PostRefund(Post(e.stepId, e.merchant, e.actual.settlementRef, if NeedsRefundAmount(e.merchant) then Some(due) else None))]
      + match h.reply.value
        case GatewayReplied(_, _, rowId) =>
          [Reset(e.merchant)]
          + if Accepted(e, h) && rowId.Some? then
              [AppendRow(Entry(rowId.value, wid, Refund, e.merchant, Expected(due, MerchantText(e.merchant)),
                               Actual(due, MerchantText(e.merchant), e.actual.settlementRef, Refunded),
                               RawResponse(None, NoError)))]
            else []
        case GatewayDown => [RecordDown(e.merchant), QueueDead(DlqRow(wid, e.merchant, e.stepId, due, e.actual.settlementRef))]
        case OtherRaised(afterReset) => if afterReset then [Reset(e.merchant)] else []
  }

  lemma EffectsFollow(cfg: Cfg, breakers: Breakers, reply: RefundReply)
    requires cfg.st.current.Some?
    requires var e := cfg.st.current.value;
      TermsAre(RulingOf(e, cfg.now), cfg.st.terms) && AmountIs(e, RulingOf(e, cfg.now), cfg.st.refundAmount)
    ensures AttemptPlan(cfg.st, breakers, reply).effects
         == EffectsOf(cfg.st.workflowId, cfg.st.current.value, HeardOf(cfg, breakers, reply))
  {
    var e := cfg.st.current.value;
    assert RulingOf(e, HeardOf(cfg, breakers, reply)) == RulingOf(e, cfg.now);
    hide RulingOf, Round2, ExactRefund, MerchantText;
  }

  /**
   The registry's table, as the saga meets it: six of the seven merchants have a policy to
   go by, three are told the amount, and no other id is ever sent a request.
   */
  lemma MerchantTables(wid: string, e: Entry, h: Heard)
    requires h.reply.Some?
    ensures RulingOf(e, h) == NoTerms <==>
      e.merchant !in {MerchantB, MerchantC, MerchantD, MerchantE, MerchantF, MerchantG} || h.fetch == Some(PolicyFetched(""))
    ensures IsSent(e, h) <==>
      && !h.isOpen && RulingOf(e, h) != Denied
      && e.merchant in {MerchantA, MerchantB, MerchantC, MerchantD, MerchantE, MerchantF, MerchantG}
    ensures forall p :: PostRefund(p) in EffectsOf(wid, e, h) ==>
      p.amount == if e.merchant in {MerchantC, MerchantD, MerchantG} then Some(Due(e, RulingOf(e, h))) else None
  {
    hide Round2, ExactRefund, MerchantText;
  }
}
