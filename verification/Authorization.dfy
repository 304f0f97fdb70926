/**
 authorization/trace.py and authorization/wallet.py: the pre-payment pipeline.
 The policy checks and the real-balance check are answers; the wallet is state.
 */
module Authorization {
  import opened Wrappers
  import opened Schemas
  import opened Tables
  import Database

  datatype Check = ParseIntent | WalletAuthority | Policy(index: nat) | RealBalance | FinalDecision

  datatype Mark = Pass | Fail | Skip | Allowed | Blocked

  datatype TraceStep = TraceStep(check: Check, mark: Mark)

  datatype BalanceAnswer = Sufficient | Insufficient | BalanceRaised

  /** One call of `authorize`, with the answers it will get from the two other gates. */
  datatype Call = Call(today: int, amount: real, policy: seq<bool>, merchant: MerchantId, balance: BalanceAnswer)

  datatype Decision = Allow | Block | Raised

  datatype Outcome = Outcome(wallets: Wallets, decision: Decision, steps: seq<TraceStep>)

  function RemainingToday(w: Wallet): real {
    if w.dailyLimit - w.spentToday > 0.0 then w.dailyLimit - w.spentToday else 0.0
  }

  predicate CanSpend(w: Wallet, amount: real) {
    amount <= w.perTxnLimit && amount <= RemainingToday(w)
  }

  /** `get_wallet`: the row, created or reset for the day as needed. */
  function Today(ws: Wallets, agent: string, today: int): Wallets {
    var ws1 := EnsureWallet(ws, agent, today);
    if ws1[agent].lastReset != today then ResetSpend(ws1, agent, today) else ws1
  }

  function PolicySteps(policy: seq<bool>): seq<TraceStep> {
    seq(|policy|, i requires 0 <= i < |policy| => TraceStep(Policy(i), if policy[i] then Pass else Fail))
  }

  function Decide(ws: Wallets, agent: string, c: Call): Outcome {
    var ws1 := Today(ws, agent, c.today);
    var opening := [TraceStep(ParseIntent, Pass), TraceStep(WalletAuthority, if CanSpend(ws1[agent], c.amount) then Pass else Fail)];
    var stop := TraceStep(FinalDecision, Blocked);
    if !CanSpend(ws1[agent], c.amount) then Outcome(ws1, Block, opening + [stop])
    else
      var checked := opening + PolicySteps(c.policy);
      if false in c.policy then Outcome(ws1, Block, checked + [stop])
      else if UsesRealPayout(c.merchant) && c.balance == BalanceRaised then Outcome(ws1, Raised, checked)
      else if UsesRealPayout(c.merchant) && c.balance == Insufficient then
        Outcome(ws1, Block, checked + [TraceStep(RealBalance, Fail), stop])
      else
        Outcome(AddSpend(ws1, agent, c.amount), Allow,
                checked + [TraceStep(RealBalance, if UsesRealPayout(c.merchant) then Pass else Skip), TraceStep(FinalDecision, Allowed)])
  }

  method GetWallet(db: Database.Database, agent: string, today: int) returns (w: Wallet)
    modifies db`wallets
    ensures db.wallets == Today(old(db.wallets), agent, today)
    ensures agent in db.wallets && w == db.wallets[agent]
  {
    w := db.FetchWallet(agent, today);
    if w.lastReset != today {
      w := w.(spentToday := 0.0, lastReset := today);
      db.ResetWalletSpend(agent, today);
    }
  }

  method Authorize(db: Database.Database, agent: string, c: Call) returns (decision: Decision, steps: seq<TraceStep>)
    modifies db`wallets
    ensures Outcome(db.wallets, decision, steps) == Decide(old(db.wallets), agent, c)
  {
    steps := [TraceStep(ParseIntent, Pass)];
    var wallet := GetWallet(db, agent, c.today);
    var canSpend := CanSpend(wallet, c.amount);
    steps := steps + [TraceStep(WalletAuthority, if canSpend then Pass else Fail)];
    if !canSpend {
      steps := steps + [TraceStep(FinalDecision, Blocked)];
      return Block, steps;
    }
    ghost var opening := steps;
    var i := 0;
    while i < |c.policy|
      invariant 0 <= i <= |c.policy|
      invariant steps == opening + PolicySteps(c.policy)[..i]
    {
      steps := steps + [TraceStep(Policy(i), if c.policy[i] then Pass else Fail)];
      i := i + 1;
    }
    assert PolicySteps(c.policy)[..i] == PolicySteps(c.policy);
    if false in c.policy {
      steps := steps + [TraceStep(FinalDecision, Blocked)];
      return Block, steps;
    }
    ghost var checked := steps;
    if UsesRealPayout(c.merchant) {
      if c.balance == BalanceRaised {
        return Raised, steps;
      }
      steps := steps + [TraceStep(RealBalance, if c.balance == Sufficient then Pass else Fail)];
      if c.balance != Sufficient {
        steps := steps + [TraceStep(FinalDecision, Blocked)];
        assert steps == checked + [TraceStep(RealBalance, Fail), TraceStep(FinalDecision, Blocked)];
        return Block, steps;
      }
    } else {
      steps := steps + [TraceStep(RealBalance, Skip)];
    }
    ghost var balance := steps[|steps| - 1];
    steps := steps + [TraceStep(FinalDecision, Allowed)];
    assert steps == checked + [balance, TraceStep(FinalDecision, Allowed)];
    db.IncrementWalletSpend(agent, c.amount);
    decision := Allow;
  }

  /** A blocked call shows the step that failed. */
  lemma BlockNamesAFailure(ws: Wallets, agent: string, c: Call)
    requires Decide(ws, agent, c).decision == Block
    ensures exists s :: s in Decide(ws, agent, c).steps && s.mark == Fail
  {
    var steps := Decide(ws, agent, c).steps;
    if !CanSpend(Today(ws, agent, c.today)[agent], c.amount) {
      assert steps[1].mark == Fail;
    } else if false in c.policy {
      var i :| 0 <= i < |c.policy| && !c.policy[i];
      assert PolicySteps(c.policy)[i] == TraceStep(Policy(i), Fail);
      assert steps[2 + i] == TraceStep(Policy(i), Fail);
    } else {
      assert steps[|steps| - 2] == TraceStep(RealBalance, Fail);
    }
  }

  lemma AllowShowsNoFailure(ws: Wallets, agent: string, c: Call)
    requires Decide(ws, agent, c).decision == Allow
    ensures forall s :: s in Decide(ws, agent, c).steps ==> s.mark != Fail
  {
    hide Today;
    assert forall i :: 0 <= i < |c.policy| ==> c.policy[i];
    assert forall s :: s in PolicySteps(c.policy) ==> s.mark == Pass;
  }

  /** The final decision is the last step, and only that one. */
  lemma DecisionComesLast(ws: Wallets, agent: string, c: Call)
    requires Decide(ws, agent, c).decision != Raised
    ensures var o := Decide(ws, agent, c);
      && o.steps != []
      && o.steps[|o.steps| - 1] == TraceStep(FinalDecision, if o.decision == Allow then Allowed else Blocked)
      && forall k :: 0 <= k < |o.steps| - 1 ==> o.steps[k].check != FinalDecision
  {
    hide Today, CanSpend;
    assert forall i :: 0 <= i < |c.policy| ==> PolicySteps(c.policy)[i].check == Policy(i);
  }

  /**
   The trace explains the decision: a call that ends is allowed if and only if no
   emitted step failed, and its last step, and only that one, is the final decision.
   */
  lemma AllowIffNoStepFailed(ws: Wallets, agent: string, c: Call)
    requires Decide(ws, agent, c).decision != Raised
    ensures var o := Decide(ws, agent, c);
      && (o.decision == Allow <==> forall s :: s in o.steps ==> s.mark != Fail)
      && o.steps != []
      && o.steps[|o.steps| - 1] == TraceStep(FinalDecision, if o.decision == Allow then Allowed else Blocked)
      && forall k :: 0 <= k < |o.steps| - 1 ==> o.steps[k].check != FinalDecision
  {
    hide Decide;
    if Decide(ws, agent, c).decision == Allow { AllowShowsNoFailure(ws, agent, c); } else { BlockNamesAFailure(ws, agent, c); }
    DecisionComesLast(ws, agent, c);
  }

  /** The limits of the agent's wallet row, or the defaults of the row that is made. */
  function PerTxnLimit(ws: Wallets, agent: string): real {
    if agent in ws then ws[agent].perTxnLimit else 25000.0
  }

  function DailyLimit(ws: Wallets, agent: string): real {
    if agent in ws then ws[agent].dailyLimit else 75000.0
  }

  /** What the wallet has spent on a day: nothing, if the row is of another day or not there. */
  function OpeningOn(ws: Wallets, agent: string, day: int): real {
    if agent in ws && ws[agent].lastReset == day then ws[agent].spentToday else 0.0
  }

  /** The wallet's word: within the limit for one payment and, unless nothing is asked for, within what is left of the day's. */
  predicate WithinLimits(ws: Wallets, agent: string, c: Call) {
    && c.amount <= PerTxnLimit(ws, agent)
    && (c.amount <= 0.0 || c.amount <= DailyLimit(ws, agent) - OpeningOn(ws, agent, c.today))
  }

  /**
   The decision, exactly: a call is allowed if and only if its amount is within both limits,
   every policy check passes and, for a merchant paid out for real, the balance suffices.
   It ends in an exception if and only if everything before the balance check passed and
   that check raised. An allowed amount is then spent, and nothing else is, and the limits
   stay.
   */
  lemma AllowedIff(ws: Wallets, agent: string, c: Call)
    ensures var o := Decide(ws, agent, c);
      var clear := WithinLimits(ws, agent, c) && (forall i :: 0 <= i < |c.policy| ==> c.policy[i]);
      var paidOut := c.merchant in {Rzp, RzpPending, RzpInsufficient, RzpDownstreamFail};
      && (o.decision == Allow <==> clear && (paidOut ==> c.balance == Sufficient))
      && (o.decision == Raised <==> clear && paidOut && c.balance == BalanceRaised)
      && (o.decision == Allow ==> c.amount <= PerTxnLimit(ws, agent))
      && o.wallets == ws[agent := Wallet(PerTxnLimit(ws, agent), DailyLimit(ws, agent),
                                         OpeningOn(ws, agent, c.today) + if o.decision == Allow then c.amount else 0.0, c.today)]
  {
    hide PolicySteps;
    assert false in c.policy <==> !forall i :: 0 <= i < |c.policy| ==> c.policy[i];
  }

  // ---- a day's spending ----

  function After(ws: Wallets, agent: string, calls: seq<Call>): Wallets {
    if calls == [] then ws
    else Decide(After(ws, agent, calls[..|calls| - 1]), agent, calls[|calls| - 1]).wallets
  }

  /** The amounts allowed on one day. */
  function AllowedOn(ws: Wallets, agent: string, calls: seq<Call>, day: int): real {
    if calls == [] then 0.0
    else
      var c := calls[|calls| - 1];
      AllowedOn(ws, agent, calls[..|calls| - 1], day)
        + if c.today == day && Decide(After(ws, agent, calls[..|calls| - 1]), agent, c).decision == Allow then c.amount else 0.0
  }

  ghost predicate DatesAdvance(ws: Wallets, agent: string, calls: seq<Call>) {
    && (forall i, j :: 0 <= i <= j < |calls| ==> calls[i].today <= calls[j].today)
    && (agent in ws && calls != [] ==> ws[agent].lastReset <= calls[0].today)
  }

  ghost predicate WithinDaily(ws: Wallets, agent: string) {
    agent in ws ==> ws[agent].dailyLimit >= 0.0 && ws[agent].spentToday <= ws[agent].dailyLimit
  }

  lemma {:induction false} NothingAllowedAfter(ws: Wallets, agent: string, calls: seq<Call>, day: int)
    requires forall i :: 0 <= i < |calls| ==> calls[i].today < day
    ensures AllowedOn(ws, agent, calls, day) == 0.0
  {
    if calls != [] { NothingAllowedAfter(ws, agent, calls[..|calls| - 1], day); }
  }

  /** One call: the wallet is of that day, and an allowed amount, and only that, is added. */
  lemma OneCallSpends(ws: Wallets, agent: string, c: Call)
    requires WithinDaily(ws, agent)
    ensures var o := Decide(ws, agent, c);
      && agent in o.wallets && o.wallets[agent].lastReset == c.today && WithinDaily(o.wallets, agent)
      && o.wallets[agent].spentToday == OpeningOn(ws, agent, c.today) + if o.decision == Allow then c.amount else 0.0
  {
    hide PolicySteps;
  }

  /**
   Over every sequence of calls on advancing dates, the wallet's `spent_today` is what
   was spent that day before plus the amounts allowed that day, and it never passes
   the daily limit.
   */
  lemma {:induction false} SpentIsSumOfAllowed(ws: Wallets, agent: string, calls: seq<Call>)
    requires DatesAdvance(ws, agent, calls) && WithinDaily(ws, agent)
    ensures WithinDaily(After(ws, agent, calls), agent)
    ensures calls != [] ==>
      var day := calls[|calls| - 1].today;
      var ws' := After(ws, agent, calls);
      && agent in ws' && ws'[agent].lastReset == day
      && ws'[agent].spentToday == OpeningOn(ws, agent, day) + AllowedOn(ws, agent, calls, day)
  {
    if calls != [] {
      var init, c := calls[..|calls| - 1], calls[|calls| - 1];
      SpentIsSumOfAllowed(ws, agent, init);
      OneCallSpends(After(ws, agent, init), agent, c);
      hide Decide, WithinDaily;
      if init == [] || init[|init| - 1].today < c.today {
        NothingAllowedAfter(ws, agent, init, c.today);
      }
    }
  }
}
