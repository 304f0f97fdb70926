/**
 The mock merchants that recompute a refund before paying it:
 mock_merchants/merchant_c_domain.py, merchant_d_flexstay.py and merchant_g_catering.py.
 Instants are whole seconds.
 */
module Merchants {
  import opened Wrappers
  import opened RefundMath

  const TOLERANCE := 0.01
  const SECONDS_PER_DAY := 86400
  const DOMAIN_PENALTY := 10.0
  const DOMAIN_WINDOW_SECONDS := 48 * 3600

  datatype Charge = Charge(amount: real, at: int)

  datatype RefundReply = NotFound | AmountRejected(expected: real) | Refunded(amount: real)

  /** The time-delta's `.days`: completed days, rounded down. */
  function DaysBetween(from: int, to: int): int {
    (to - from) / SECONDS_PER_DAY
  }

  predicate WithinTolerance(x: real, y: real) {
    -TOLERANCE <= x - y <= TOLERANCE
  }

  /** What merchants D and G expect for a charge. */
  function DayWindowExpected(c: Charge, penalty: real, windowDays: int, now: int): real {
    if DaysBetween(c.at, now) < windowDays then Round2(NetOfPenalty(c.amount, penalty)) else c.amount
  }

  function DayWindowReply(charges: map<string, Charge>, penalty: real, windowDays: int,
                          ref: string, amount: real, now: int): RefundReply
  {
    if ref !in charges then NotFound
    else
      var expected := DayWindowExpected(charges[ref], penalty, windowDays, now);
      if WithinTolerance(amount, expected) then Refunded(amount) else AmountRejected(expected)
  }

  function DomainReply(charges: map<string, Charge>, ref: string, amount: real, now: int): RefundReply {
    if ref !in charges then NotFound
    else
      var c := charges[ref];
      if now - c.at < DOMAIN_WINDOW_SECONDS then
        var expected := Round2(NetOfPenalty(c.amount, DOMAIN_PENALTY));
        if WithinTolerance(amount, expected) then Refunded(amount) else AmountRejected(expected)
      else Refunded(c.amount)
  }

  /** Merchant D is (30, 5); merchant G is (50, 3). */
  class DayWindowMerchant {
    const penalty: real
    const windowDays: int
    var charges: map<string, Charge>

    constructor (penalty: real, windowDays: int)
      ensures this.penalty == penalty && this.windowDays == windowDays && charges == map[]
    {
      this.penalty := penalty;
      this.windowDays := windowDays;
      charges := map[];
    }

    method TakeCharge(ref: string, amount: real, now: int)
      modifies this`charges
      ensures charges == old(charges)[ref := Charge(amount, now)]
    {
      charges := charges[ref := Charge(amount, now)];
    }

    method Refund(ref: string, amount: real, now: int) returns (r: RefundReply)
      ensures r == DayWindowReply(charges, penalty, windowDays, ref, amount, now)
    {
      if ref !in charges {
        return NotFound;
      }
      var charge := charges[ref];
      var days := DaysBetween(charge.at, now);
      var expected := charge.amount;
      if days < windowDays {
        expected := Round2(NetOfPenalty(charge.amount, penalty));
      }
      if !WithinTolerance(amount, expected) {
        return AmountRejected(expected);
      }
      r := Refunded(amount);
    }
  }

  class DomainMerchant {
    var charges: map<string, Charge>

    constructor ()
      ensures charges == map[]
    {
      charges := map[];
    }

    method TakeCharge(ref: string, amount: real, now: int)
      modifies this`charges
      ensures charges == old(charges)[ref := Charge(amount, now)]
    {
      charges := charges[ref := Charge(amount, now)];
    }

    method Refund(ref: string, amount: real, now: int) returns (r: RefundReply)
      ensures r == DomainReply(charges, ref, amount, now)
    {
      if ref !in charges {
        return NotFound;
      }
      var charge := charges[ref];
      if now - charge.at < DOMAIN_WINDOW_SECONDS {
        var expected := Round2(NetOfPenalty(charge.amount, DOMAIN_PENALTY));
        if !WithinTolerance(amount, expected) {
          return AmountRejected(expected);
        }
        return Refunded(amount);
      }
      r := Refunded(charge.amount);
    }
  }

  /**
   What merchants D and G answer to a refund request: an unknown reference is not found; a
   request is accepted, over its own amount, if and only if it is within a paisa of what the
   merchant expects, which is the charge less the penalty while fewer whole days than the
   window have passed and the whole charge after that; otherwise the reply names the
   expected amount.
   */
  lemma DayWindowReplyIff(charges: map<string, Charge>, penalty: real, windowDays: int, ref: string, amount: real, now: int)
    ensures var r := DayWindowReply(charges, penalty, windowDays, ref, amount, now);
      && (r.NotFound? <==> ref !in charges)
      && (ref in charges ==>
            var expected := if (now - charges[ref].at) / 86400 < windowDays then Round2(charges[ref].amount * (1.0 - penalty / 100.0))
                            else charges[ref].amount;
            && (r == Refunded(amount) <==> -0.01 <= amount - expected <= 0.01)
            && (r == AmountRejected(expected) <==> !(-0.01 <= amount - expected <= 0.01)))
  {
    hide Round2;
    if ref in charges { NetIs(charges[ref].amount, penalty); }
    hide NetOfPenalty;
  }

  lemma NetIs(amount: real, penalty: real)
    ensures NetOfPenalty(amount, penalty) == amount * (1.0 - penalty / 100.0)
  {}

  /**
   What merchant C answers: before 48 hours have passed it takes 10% off and wants that amount
   to within a paisa; after that it pays the whole charge back, whatever was asked for.
   */
  lemma DomainReplyIff(charges: map<string, Charge>, ref: string, amount: real, now: int)
    ensures var r := DomainReply(charges, ref, amount, now);
      && (r.NotFound? <==> ref !in charges)
      && (ref in charges ==>
            var c := charges[ref];
            var expected := Round2(c.amount * (1.0 - 10.0 / 100.0));
            if now - c.at < 172800 then
              && (r == Refunded(amount) <==> -0.01 <= amount - expected <= 0.01)
              && (r == AmountRejected(expected) <==> !(-0.01 <= amount - expected <= 0.01))
            else r == Refunded(c.amount))
  {
    hide Round2;
    if ref in charges { NetIs(charges[ref].amount, 10.0); }
    hide NetOfPenalty;
  }

  /**
   The saga's figure and the merchant's own agree exactly: with the merchant's
   penalty, merchant D (or G) accepts the computed refund if and only if the
   cancellation is inside the window or the fee is within the tolerance.
   */
  lemma DayWindowAcceptsComputedRefund(charges: map<string, Charge>, penalty: real, windowDays: int, ref: string, now: int)
    requires ref in charges
    ensures
      var amount := ComputeRefund(charges[ref].amount, Some(penalty), true).value;
      var reply := DayWindowReply(charges, penalty, windowDays, ref, amount, now);
      reply == Refunded(amount) <==>
        DaysBetween(charges[ref].at, now) < windowDays || WithinTolerance(amount, charges[ref].amount)
  {
    FeeComplement(charges[ref].amount, penalty);
  }

  /**
   Binary floating point does not spoil the agreement: as long as the two sides
   evaluate the unrounded refund less than a paisa apart, the rounded refund of one
   is accepted against the rounded expectation of the other.
   */
  lemma AgreementSurvivesEvaluationError(ours: real, theirs: real)
    requires -0.01 < ours - theirs < 0.01
    ensures WithinTolerance(Round2(ours), Round2(theirs))
  {
    CloseValuesRoundClose(ours, theirs);
  }

  /**
   A wrong penalty is caught when, and only when, it moves the rounded refund by more
   than the tolerance. In terms of the two fees: less than a paisa apart is never caught,
   two paise or more always is, and in between it depends on where the paise fall.
   */
  lemma WrongPenaltyCaught(charges: map<string, Charge>, penalty: real, windowDays: int, ref: string, now: int, claimed: real)
    requires ref in charges && DaysBetween(charges[ref].at, now) < windowDays
    ensures
      var c := charges[ref];
      var amount := ComputeRefund(c.amount, Some(claimed), true).value;
      var caught := DayWindowReply(charges, penalty, windowDays, ref, amount, now).AmountRejected?;
      var apart := Fee(c.amount, claimed) - Fee(c.amount, penalty);
      && (caught <==> !WithinTolerance(Round2(ExactRefund(c.amount, Some(claimed))), Round2(ExactRefund(c.amount, Some(penalty)))))
      && (-0.01 < apart < 0.01 ==> !caught)
      && (apart <= -0.02 || apart >= 0.02 ==> caught)
  {
    var c := charges[ref];
    FeeComplement(c.amount, claimed);
    FeeComplement(c.amount, penalty);
    hide Fee, NetOfPenalty, Round2;
    var ours, theirs := ExactRefund(c.amount, Some(claimed)), ExactRefund(c.amount, Some(penalty));
    if -0.01 < ours - theirs < 0.01 { CloseValuesRoundClose(ours, theirs); }
    if ours - theirs >= 0.02 { TwoPaiseStayApart(ours, theirs); }
    if theirs - ours >= 0.02 { TwoPaiseStayApart(theirs, ours); }
  }

  /** In between, both happen: a fee one paisa off that is caught, one 1.9 paise off that is not. */
  lemma InBetweenBothHappen()
    ensures !WithinTolerance(Round2(0.015), Round2(0.005)) && WithinTolerance(Round2(0.0149), Round2(-0.0041))
  {
    PaisaApartCanRoundTwoApart();
    RoundHalfEvenIsUnique(1.49, 1);
    RoundHalfEvenIsUnique(-0.41, 0);
  }

  /**
   Merchant C accepts the 10% refund at any time. After its window it pays the whole
   charge back, so the amount the caller asked for is what was paid if and only if
   the window is open or the rounded fee is zero.
   */
  lemma DomainAcceptsComputedRefund(charges: map<string, Charge>, ref: string, now: int)
    requires ref in charges
    ensures
      var c := charges[ref];
      var amount := ComputeRefund(c.amount, Some(DOMAIN_PENALTY), true).value;
      var reply := DomainReply(charges, ref, amount, now);
      && reply.Refunded?
      && (reply.amount == amount <==> now - c.at < DOMAIN_WINDOW_SECONDS || amount == c.amount)
  {
    FeeComplement(charges[ref].amount, DOMAIN_PENALTY);
  }

  // ---- a refund can be asked for again ----

  /** What merchant D, or G, pays out over a series of refund requests for one charge. */
  function PaidOut(charges: map<string, Charge>, penalty: real, windowDays: int, ref: string, amount: real, times: seq<int>): real {
    if times == [] then 0.0
    else
      var reply := DayWindowReply(charges, penalty, windowDays, ref, amount, times[|times| - 1]);
      PaidOut(charges, penalty, windowDays, ref, amount, times[..|times| - 1]) + if reply.Refunded? then reply.amount else 0.0
  }

  /**
   The merchants keep no record of refunds: the saga's figure, asked for n times inside the
   window, is paid n times.
   */
  lemma {:induction false} RefundsArePaidAgain(charges: map<string, Charge>, penalty: real, windowDays: int, ref: string, times: seq<int>)
    requires ref in charges && forall k :: 0 <= k < |times| ==> DaysBetween(charges[ref].at, times[k]) < windowDays
    ensures var amount := ComputeRefund(charges[ref].amount, Some(penalty), true).value;
      PaidOut(charges, penalty, windowDays, ref, amount, times) == |times| as real * amount
  {
    hide DaysBetween, Round2;
    var amount := ComputeRefund(charges[ref].amount, Some(penalty), true).value;
    if times != [] {
      var init, now := times[..|times| - 1], times[|times| - 1];
      RefundsArePaidAgain(charges, penalty, windowDays, ref, init);
      DayWindowAcceptsComputedRefund(charges, penalty, windowDays, ref, now);
      OneMore(|init|, amount);
    }
  }

  lemma OneMore(n: nat, amount: real)
    ensures (n + 1) as real * amount == n as real * amount + amount
  {}
}
