/**
 Any number of concurrent `/pay` calls (proxy/mcp_proxy.py) together with the
 pending-payout worker (compensating_agent/pending_payout_worker.py). Every single
 database write is one event, so an event list is an arbitrary interleaving of
 requests and recheck rounds, any of which may stop for good at any point.
 */
module BudgetProtocol {
  import opened Wrappers
  import opened Schemas
  import opened Payouts
  import opened Tables

  /** How far one `/pay` call got after its reservation. */
  datatype Phase =
    | Reserved
    | RowCreated(row: nat)            // create_pending_payout returned, step 4 still ahead
    | SettledFor(actual: real)
    | HeldByRow(row: nat)
    | HeldWithoutRow                  // a gateway answered "pending" but no row was made
    | Released
    | ReleasedDespiteRow(row: nat)    // an exception after create_pending_payout ended in a rollback

  datatype InFlight = InFlight(workflowId: string, amount: real, phase: Phase)

  /** A recheck round makes up to two writes; between them the row is in one of the last three stages. */
  datatype Stage = Rest | Releasing | Settling | Exhausting

  /** Recheck rounds of a row that died between their two writes, by what the first write was. */
  datatype Torn = Torn(releasing: nat, settling: nat, exhausting: nat)

  /**
   A pending_payouts row with the history the statements below need: what the rechecks
   that returned read of its payout, releases made for it, rounds that died between their
   two writes, and the money such rounds released.
   */
  datatype Tracked = Tracked(
    row: PayoutRow, stage: Stage, seen: seq<RzpStatus>, releases: nat, torn: Torn, releasedByTorn: real)

  datatype System = System(budgets: Budgets, payments: seq<InFlight>, rows: seq<Tracked>)

  datatype Event =
    | Init(workflowId: string, limit: real)
    | Arrive(workflowId: string, amount: real)
    | Hold(p: nat, merchant: MerchantId, payee: string, payoutId: string, s: RzpStatus)
    | Settle(p: nat, actual: real)
    | LeavePending(p: nat)
    | Release(p: nat)
    | Backfill(i: nat, stepId: string)
    | Recheck(i: nat, s: RzpStatus)
    | Resolve(i: nat)
    | Tear(i: nat)

  const START := System(map[], [], [])
  const NEVER_TORN := Torn(0, 0, 0)

  function SetPhase(s: System, p: nat, phase: Phase): System
    requires p < |s.payments|
  {
    s.(payments := s.payments[p := s.payments[p].(phase := phase)])
  }

  function SetRow(s: System, i: nat, t: Tracked): System
    requires i < |s.rows|
  {
    s.(rows := s.rows[i := t])
  }

  /** The first write of a recheck round that read `rzp`, on a row at rest. */
  function RecheckRow(s: System, i: nat, rzp: RzpStatus, maxChecks: nat): System
    requires i < |s.rows|
  {
    var t := s.rows[i].(seen := s.rows[i].seen + [rzp]);
    match Classify(rzp)
    case ConfirmedProcessed =>
      SetRow(s.(budgets := Commit(s.budgets, t.row.workflowId, t.row.amount, t.row.amount)), i, t.(stage := Settling))
    case ConfirmedFailed =>
      SetRow(s.(budgets := Rollback(s.budgets, t.row.workflowId, t.row.amount)), i,
             t.(stage := Releasing, releases := t.releases + 1))
    case NonTerminal =>
      var row := Touched(t.row, rzp);
      SetRow(s, i, t.(row := row, stage := if row.checksDone >= maxChecks then Exhausting else Rest))
  }

  /** The second write of the round: the row leaves `pending`, with the status the round read. */
  function ResolveRow(s: System, i: nat): System
    requires i < |s.rows|
  {
    var t := s.rows[i];
    var rzp := if t.seen == [] then t.row.rzpStatus else t.seen[|t.seen| - 1];
    var status := match t.stage case Releasing => ResolvedFailed case Settling => ResolvedSettled case _ => Exhausted;
    SetRow(s, i, t.(row := ResolvedAs(t.row, status, rzp), stage := Rest))
  }

  /** The round dies between its writes; the row is still pending and will be rechecked. */
  function TearRow(s: System, i: nat): System
    requires i < |s.rows|
  {
    var t := s.rows[i];
    var torn := match t.stage
      case Releasing => t.torn.(releasing := t.torn.releasing + 1)
      case Settling => t.torn.(settling := t.torn.settling + 1)
      case _ => t.torn.(exhausting := t.torn.exhausting + 1);
    SetRow(s, i, t.(stage := Rest, torn := torn,
                    releasedByTorn := t.releasedByTorn + if t.stage == Releasing then t.row.amount else 0.0))
  }

  /** One write. An event that cannot happen in a state leaves it alone. */
  function Apply(s: System, e: Event, maxChecks: nat): System {
    match e
    case Init(wid, limit) => s.(budgets := CreateWorkflow(s.budgets, wid, limit))
    case Arrive(wid, amount) =>
      if CanReserve(s.budgets, wid, amount) then
        System(Tables.Reserve(s.budgets, wid, amount), s.payments + [InFlight(wid, amount, Reserved)], s.rows)
      else s
    case Hold(p, merchant, payee, payoutId, rzp) =>
      if p < |s.payments| && s.payments[p].phase == Reserved then
        var pay := s.payments[p];
        var row := PayoutRow(pay.workflowId, merchant, payee, pay.amount, payoutId, "", rzp, 0, Open);
        SetPhase(s, p, RowCreated(|s.rows|)).(rows := s.rows + [Tracked(row, Rest, [], 0, NEVER_TORN, 0.0)])
      else s
    case Settle(p, actual) =>
      if p < |s.payments| && s.payments[p].phase == Reserved then
        var pay := s.payments[p];
        SetPhase(s, p, SettledFor(actual)).(budgets := Commit(s.budgets, pay.workflowId, pay.amount, actual))
      else s
    case LeavePending(p) =>
      if p < |s.payments| && s.payments[p].phase == Reserved then SetPhase(s, p, HeldWithoutRow)
      else if p < |s.payments| && s.payments[p].phase.RowCreated? then SetPhase(s, p, HeldByRow(s.payments[p].phase.row))
      else s
    case Release(p) =>
      if p < |s.payments| && (s.payments[p].phase == Reserved || s.payments[p].phase.RowCreated?) then
        var pay := s.payments[p];
        var phase := if pay.phase == Reserved then Released else ReleasedDespiteRow(pay.phase.row);
        SetPhase(s, p, phase).(budgets := Rollback(s.budgets, pay.workflowId, pay.amount))
      else s
    case Backfill(i, stepId) =>
      if i < |s.rows| then SetRow(s, i, s.rows[i].(row := s.rows[i].row.(stepId := stepId))) else s
    case Recheck(i, rzp) =>
      if i < |s.rows| && s.rows[i].row.status == Open && s.rows[i].stage == Rest then RecheckRow(s, i, rzp, maxChecks)
      else s
    case Resolve(i) =>
      if i < |s.rows| && s.rows[i].stage != Rest then ResolveRow(s, i) else s
    case Tear(i) =>
      if i < |s.rows| && s.rows[i].stage != Rest then TearRow(s, i) else s
  }

  function Run(s: System, es: seq<Event>, maxChecks: nat): System {
    if es == [] then s else Apply(Run(s, es[..|es| - 1], maxChecks), es[|es| - 1], maxChecks)
  }

  lemma {:induction false} RunAppend(s: System, es: seq<Event>, fs: seq<Event>, maxChecks: nat)
    ensures Run(s, es + fs, maxChecks) == Run(Run(s, es, maxChecks), fs, maxChecks)
  {
    if fs == [] {
      assert es + fs == es;
    } else {
      RunAppend(s, es, fs[..|fs| - 1], maxChecks);
      assert (es + fs)[..|es + fs| - 1] == es + fs[..|fs| - 1];
    }
  }

  lemma RunOne(s: System, e: Event, maxChecks: nat)
    ensures Run(s, [e], maxChecks) == Apply(s, e, maxChecks)
  {
    assert [e][..0] == [];
  }

  // ---- where the money of a workflow is ----

  datatype Kind = SettledMoney | HeldMoney | InFlightMoney | ReleasedTwice | Overcharge | NetUse

  function PaymentPart(p: InFlight, kind: Kind): real {
    if kind == NetUse then
      PaymentShare(p, SettledMoney) + PaymentShare(p, HeldMoney) + PaymentShare(p, InFlightMoney) - PaymentShare(p, ReleasedTwice)
    else PaymentShare(p, kind)
  }

  function PaymentShare(p: InFlight, kind: Kind): real {
    match (kind, p.phase)
    case (SettledMoney, SettledFor(actual)) => actual
    case (Overcharge, SettledFor(actual)) => if actual > p.amount then actual - p.amount else 0.0
    case (HeldMoney, HeldWithoutRow) => p.amount
    case (InFlightMoney, Reserved) => p.amount
    case (ReleasedTwice, ReleasedDespiteRow(_)) => p.amount
    case _ => 0.0
  }

  /** A row holds its amount until it is released: pending, exhausted and resolved_settled rows do. */
  predicate Holds(t: Tracked) {
    t.row.status != ResolvedFailed && t.stage != Releasing
  }

  function RowPart(t: Tracked, kind: Kind): real {
    match kind
    case HeldMoney => if Holds(t) then t.row.amount else 0.0
    case ReleasedTwice => t.releasedByTorn
    case NetUse => (if Holds(t) then t.row.amount else 0.0) - t.releasedByTorn
    case _ => 0.0
  }

  function PaymentSum(ps: seq<InFlight>, wid: string, kind: Kind): real {
    if ps == [] then 0.0
    else
      var p := ps[|ps| - 1];
      PaymentSum(ps[..|ps| - 1], wid, kind) + if p.workflowId == wid then PaymentPart(p, kind) else 0.0
  }

  function RowSum(rows: seq<Tracked>, wid: string, kind: Kind): real {
    if rows == [] then 0.0
    else
      var t := rows[|rows| - 1];
      RowSum(rows[..|rows| - 1], wid, kind) + if t.row.workflowId == wid then RowPart(t, kind) else 0.0
  }

  function Total(s: System, wid: string, kind: Kind): real {
    PaymentSum(s.payments, wid, kind) + RowSum(s.rows, wid, kind)
  }

  lemma {:induction false} PaymentSumUpdate(ps: seq<InFlight>, k: nat, p: InFlight, wid: string, kind: Kind)
    requires k < |ps| && p.workflowId == ps[k].workflowId
    ensures PaymentSum(ps[k := p], wid, kind) == PaymentSum(ps, wid, kind)
            + if p.workflowId == wid then PaymentPart(p, kind) - PaymentPart(ps[k], kind) else 0.0
  {
    var n := |ps| - 1;
    if k < n {
      PaymentSumUpdate(ps[..n], k, p, wid, kind);
      assert ps[k := p][..n] == ps[..n][k := p];
    } else {
      assert ps[k := p][..n] == ps[..n];
    }
  }

  lemma {:induction false} RowSumUpdate(rows: seq<Tracked>, k: nat, t: Tracked, wid: string, kind: Kind)
    requires k < |rows| && t.row.workflowId == rows[k].row.workflowId
    ensures RowSum(rows[k := t], wid, kind) == RowSum(rows, wid, kind)
            + if t.row.workflowId == wid then RowPart(t, kind) - RowPart(rows[k], kind) else 0.0
  {
    var n := |rows| - 1;
    if k < n {
      RowSumUpdate(rows[..n], k, t, wid, kind);
      assert rows[k := t][..n] == rows[..n][k := t];
    } else {
      assert rows[k := t][..n] == rows[..n];
    }
  }

  /** Adding one payment at the end. */
  lemma PaymentSumAppend(ps: seq<InFlight>, p: InFlight, wid: string, kind: Kind)
    ensures PaymentSum(ps + [p], wid, kind) == PaymentSum(ps, wid, kind) + if p.workflowId == wid then PaymentPart(p, kind) else 0.0
  {
    assert (ps + [p])[..|ps|] == ps;
  }

  lemma RowSumAppend(rows: seq<Tracked>, t: Tracked, wid: string, kind: Kind)
    ensures RowSum(rows + [t], wid, kind) == RowSum(rows, wid, kind) + if t.row.workflowId == wid then RowPart(t, kind) else 0.0
  {
    assert (rows + [t])[..|rows|] == rows;
  }

  // ---- conservation ----

  ghost predicate Known(s: System) {
    && (forall p :: 0 <= p < |s.payments| ==> s.payments[p].workflowId in s.budgets)
    && (forall i :: 0 <= i < |s.rows| ==> s.rows[i].row.workflowId in s.budgets)
    && (forall i :: 0 <= i < |s.rows| && s.rows[i].stage != Rest ==> s.rows[i].row.status == Open)
  }

  ghost predicate Balanced(s: System, wid: string)
    requires wid in s.budgets
  {
    s.budgets[wid].used + Total(s, wid, ReleasedTwice)
      == Total(s, wid, SettledMoney) + Total(s, wid, HeldMoney) + Total(s, wid, InFlightMoney)
  }

  lemma ApplyKeepsKnown(s: System, e: Event, maxChecks: nat)
    requires Known(s)
    ensures Known(Apply(s, e, maxChecks))
    ensures s.budgets.Keys <= Apply(s, e, maxChecks).budgets.Keys
  {
    hide Classify;
    WorkflowsStay(s, e, maxChecks);
    hide CreateWorkflow, Reserve, Commit, Rollback;
  }

  lemma WorkflowsStay(s: System, e: Event, maxChecks: nat)
    ensures s.budgets.Keys <= Apply(s, e, maxChecks).budgets.Keys
  {
    hide Classify, Touched, ResolvedAs;
  }

  lemma NoMoneyYet(s: System, wid: string, kind: Kind)
    requires Known(s) && wid !in s.budgets
    ensures Total(s, wid, kind) == 0.0
  {
    NoPaymentMoney(s.payments, wid, kind);
    NoRowMoney(s.rows, wid, kind);
  }

  lemma {:induction false} NoPaymentMoney(ps: seq<InFlight>, wid: string, kind: Kind)
    requires forall p :: 0 <= p < |ps| ==> ps[p].workflowId != wid
    ensures PaymentSum(ps, wid, kind) == 0.0
  {
    if ps != [] { NoPaymentMoney(ps[..|ps| - 1], wid, kind); }
  }

  lemma {:induction false} NoRowMoney(rows: seq<Tracked>, wid: string, kind: Kind)
    requires forall i :: 0 <= i < |rows| ==> rows[i].row.workflowId != wid
    ensures RowSum(rows, wid, kind) == 0.0
  {
    if rows != [] { NoRowMoney(rows[..|rows| - 1], wid, kind); }
  }

  /** A phase change moves one payment's share, a row update one row's. */
  lemma PhaseMove(s: System, p: nat, phase: Phase, wid: string, kind: Kind)
    requires p < |s.payments|
    ensures Total(SetPhase(s, p, phase), wid, kind) == Total(s, wid, kind)
      + if s.payments[p].workflowId == wid
        then PaymentPart(s.payments[p].(phase := phase), kind) - PaymentPart(s.payments[p], kind) else 0.0
  {
    PaymentSumUpdate(s.payments, p, s.payments[p].(phase := phase), wid, kind);
  }

  lemma RowMove(s: System, i: nat, t: Tracked, wid: string, kind: Kind)
    requires i < |s.rows| && t.row.workflowId == s.rows[i].row.workflowId
    ensures Total(SetRow(s, i, t), wid, kind) == Total(s, wid, kind)
      + if t.row.workflowId == wid then RowPart(t, kind) - RowPart(s.rows[i], kind) else 0.0
  {
    RowSumUpdate(s.rows, i, t, wid, kind);
  }

  ghost predicate InStep(s: System, wid: string) {
    wid in s.budgets ==> s.budgets[wid].used == Total(s, wid, NetUse)
  }

  lemma InitKeepsStep(s: System, e: Event, maxChecks: nat, wid: string)
    requires Known(s) && InStep(s, wid) && e.Init?
    ensures InStep(Apply(s, e, maxChecks), wid)
  {
    if wid !in s.budgets {
      NoMoneyYet(s, wid, NetUse);
    }
  }

  lemma ArrivalKeepsStep(s: System, e: Event, maxChecks: nat, wid: string)
    requires Known(s) && InStep(s, wid) && e.Arrive?
    ensures InStep(Apply(s, e, maxChecks), wid)
  {
    var p := InFlight(e.workflowId, e.amount, Reserved);
    assert PaymentPart(p, NetUse) == e.amount;
    PaymentSumAppend(s.payments, p, wid, NetUse);
    hide PaymentPart, PaymentShare, RowPart, PaymentSum, RowSum, Known;
    if CanReserve(s.budgets, e.workflowId, e.amount) {
      var s' := Apply(s, e, maxChecks);
      assert s'.payments == s.payments + [p] && s'.rows == s.rows;
      assert Total(s', wid, NetUse) == Total(s, wid, NetUse) + if e.workflowId == wid then e.amount else 0.0;
    }
  }

  lemma HoldKeepsStep(s: System, e: Event, maxChecks: nat, wid: string)
    requires Known(s) && InStep(s, wid) && e.Hold?
    ensures InStep(Apply(s, e, maxChecks), wid)
  {
    var s' := Apply(s, e, maxChecks);
    if s' != s {
      PhaseMove(s, e.p, RowCreated(|s.rows|), wid, NetUse);
      RowSumAppend(s.rows, s'.rows[|s.rows|], wid, NetUse);
    }
  }

  lemma OutcomeKeepsStep(s: System, e: Event, maxChecks: nat, wid: string)
    requires Known(s) && InStep(s, wid) && (e.Settle? || e.LeavePending? || e.Release?)
    ensures InStep(Apply(s, e, maxChecks), wid)
  {
    hide PaymentSum, RowSum;
    var s' := Apply(s, e, maxChecks);
    if s' != s {
      PhaseMove(s, e.p, s'.payments[e.p].phase, wid, NetUse);
      assert s'.payments == SetPhase(s, e.p, s'.payments[e.p].phase).payments;
    }
  }

  lemma WorkerKeepsStep(s: System, e: Event, maxChecks: nat, wid: string)
    requires Known(s) && InStep(s, wid) && (e.Backfill? || e.Recheck? || e.Resolve? || e.Tear?)
    ensures InStep(Apply(s, e, maxChecks), wid)
  {
    hide PaymentSum, RowSum;
    var s' := Apply(s, e, maxChecks);
    if s' != s {
      RowMove(s, e.i, s'.rows[e.i], wid, NetUse);
      assert s'.rows == SetRow(s, e.i, s'.rows[e.i]).rows;
    }
  }

  lemma {:induction false} PaymentNetSplits(ps: seq<InFlight>, wid: string)
    ensures PaymentSum(ps, wid, NetUse) == PaymentSum(ps, wid, SettledMoney) + PaymentSum(ps, wid, HeldMoney)
            + PaymentSum(ps, wid, InFlightMoney) - PaymentSum(ps, wid, ReleasedTwice)
  {
    if ps != [] { PaymentNetSplits(ps[..|ps| - 1], wid); }
  }

  lemma {:induction false} RowNetSplits(rows: seq<Tracked>, wid: string)
    ensures RowSum(rows, wid, NetUse) == RowSum(rows, wid, SettledMoney) + RowSum(rows, wid, HeldMoney)
            + RowSum(rows, wid, InFlightMoney) - RowSum(rows, wid, ReleasedTwice)
  {
    if rows != [] { RowNetSplits(rows[..|rows| - 1], wid); }
  }

  lemma {:induction false} RunKeepsStep(es: seq<Event>, maxChecks: nat, wid: string)
    ensures Known(Run(START, es, maxChecks)) && InStep(Run(START, es, maxChecks), wid)
  {
    if es != [] {
      var s, e := Run(START, es[..|es| - 1], maxChecks), es[|es| - 1];
      RunKeepsStep(es[..|es| - 1], maxChecks, wid);
      ApplyKeepsKnown(s, e, maxChecks);
      match e {
        case Init(_, _) => InitKeepsStep(s, e, maxChecks, wid);
        case Arrive(_, _) => ArrivalKeepsStep(s, e, maxChecks, wid);
        case Hold(_, _, _, _, _) => HoldKeepsStep(s, e, maxChecks, wid);
        case Settle(_, _) => OutcomeKeepsStep(s, e, maxChecks, wid);
        case LeavePending(_) => OutcomeKeepsStep(s, e, maxChecks, wid);
        case Release(_) => OutcomeKeepsStep(s, e, maxChecks, wid);
        case _ => WorkerKeepsStep(s, e, maxChecks, wid);
      }
    }
  }

  /**
   Conservation over every interleaving: `budget_used` is the settled money plus the
   money held by payouts (pending, exhausted or resolved_settled) plus the
   reservations in flight, less exactly what has been released twice.
   */
  lemma BudgetIsConserved(es: seq<Event>, maxChecks: nat, wid: string)
    requires wid in Run(START, es, maxChecks).budgets
    ensures Balanced(Run(START, es, maxChecks), wid)
  {
    RunKeepsStep(es, maxChecks, wid);
    PaymentNetSplits(Run(START, es, maxChecks).payments, wid);
    RowNetSplits(Run(START, es, maxChecks).rows, wid);
  }

  // ---- what can be released twice, and what follows from it ----

  /** The releases a row should have had: one when its payout is known to have failed. */
  function DueReleases(t: Tracked): nat {
    if Holds(t) then 0 else 1
  }

  /** One release is due to a failed payout; every further one, and its money, is a round torn while releasing. */
  ghost predicate ReleasesExact(t: Tracked) {
    && (t.stage != Rest ==> t.row.status == Open)
    && t.releases == DueReleases(t) + t.torn.releasing
    && t.releasedByTorn == t.torn.releasing as real * t.row.amount
  }

  /** Rechecks are counted exactly; only rounds torn while giving up push the count past MAX_CHECKS. */
  ghost predicate ChecksExact(t: Tracked, maxChecks: nat) {
    var past := t.torn.exhausting;
    match t.row.status
    case Open =>
      && |t.seen| == t.row.checksDone + t.torn.releasing + t.torn.settling
                     + (if t.stage == Releasing || t.stage == Settling then 1 else 0)
      && (if t.stage == Exhausting then t.row.checksDone == maxChecks + past
          else if past > 0 then t.row.checksDone == maxChecks + past - 1
          else t.row.checksDone < maxChecks)
    case Exhausted => t.row.checksDone == maxChecks + 1 + past
    case _ => 1 <= t.row.checksDone <= maxChecks + past
  }

  ghost predicate RowHistory(t: Tracked, maxChecks: nat) {
    ReleasesExact(t) && ChecksExact(t, maxChecks)
  }

  ghost predicate RowHistories(s: System, maxChecks: nat) {
    forall i :: 0 <= i < |s.rows| ==> RowHistory(s.rows[i], maxChecks)
  }

  predicate OfWorker(e: Event) {
    e.Backfill? || e.Recheck? || e.Resolve? || e.Tear?
  }

  lemma OneMoreTimes(n: nat, a: real)
    ensures (n + 1) as real * a == n as real * a + a
  {}

  lemma RoundKeepsReleases(s: System, e: Event, maxChecks: nat)
    requires OfWorker(e) && e.i < |s.rows| && ReleasesExact(s.rows[e.i])
    ensures var s' := Apply(s, e, maxChecks); e.i < |s'.rows| && ReleasesExact(s'.rows[e.i])
  {
    hide Commit, Rollback;
    OneMoreTimes(s.rows[e.i].torn.releasing, s.rows[e.i].row.amount);
  }

  lemma RoundKeepsChecks(s: System, e: Event, maxChecks: nat)
    requires maxChecks >= 1 && OfWorker(e)
    requires e.i < |s.rows| && ReleasesExact(s.rows[e.i]) && ChecksExact(s.rows[e.i], maxChecks)
    ensures var s' := Apply(s, e, maxChecks); e.i < |s'.rows| && ChecksExact(s'.rows[e.i], maxChecks)
  {
    assert s.rows[e.i].stage != Rest ==> s.rows[e.i].row.status == Open;
    hide Commit, Rollback, ReleasesExact;
  }

  /** All other rows stay, and a row just made has no history. */
  lemma OtherRowsStay(s: System, e: Event, maxChecks: nat, i: nat)
    requires i < |Apply(s, e, maxChecks).rows|
    requires OfWorker(e) ==> e.i != i
    ensures var t := Apply(s, e, maxChecks).rows[i];
      if i < |s.rows| then t == s.rows[i]
      else t.stage == Rest && t.seen == [] && t.releases == 0 && t.torn == NEVER_TORN && t.releasedByTorn == 0.0
           && t.row.status == Open && t.row.checksDone == 0
  {
    hide CreateWorkflow, Reserve, CanReserve, Commit, Rollback;
  }

  lemma NoSuchRow(s: System, e: Event, maxChecks: nat)
    requires OfWorker(e) && e.i >= |s.rows|
    ensures Apply(s, e, maxChecks) == s
  {}

  ghost predicate AllReleasesExact(s: System) {
    forall i :: 0 <= i < |s.rows| ==> ReleasesExact(s.rows[i])
  }

  lemma ApplyKeepsReleases(s: System, e: Event, maxChecks: nat)
    requires AllReleasesExact(s)
    ensures AllReleasesExact(Apply(s, e, maxChecks))
  {
    hide Apply;
    var s' := Apply(s, e, maxChecks);
    forall i | 0 <= i < |s'.rows| ensures ReleasesExact(s'.rows[i]) {
      if OfWorker(e) && e.i == i {
        if i < |s.rows| { RoundKeepsReleases(s, e, maxChecks); } else { NoSuchRow(s, e, maxChecks); }
      } else {
        OtherRowsStay(s, e, maxChecks, i);
      }
    }
  }

  lemma ApplyKeepsRowHistories(s: System, e: Event, maxChecks: nat)
    requires maxChecks >= 1 && RowHistories(s, maxChecks)
    ensures RowHistories(Apply(s, e, maxChecks), maxChecks)
  {
    hide Apply, ReleasesExact;
    var s' := Apply(s, e, maxChecks);
    assert forall i :: 0 <= i < |s.rows| ==> RowHistory(s.rows[i], maxChecks);
    ApplyKeepsReleases(s, e, maxChecks);
    forall i | 0 <= i < |s'.rows| ensures RowHistory(s'.rows[i], maxChecks) {
      if OfWorker(e) && e.i == i {
        if i < |s.rows| { RoundKeepsChecks(s, e, maxChecks); } else { NoSuchRow(s, e, maxChecks); }
      } else {
        OtherRowsStay(s, e, maxChecks, i);
      }
    }
  }

  /** Releases and their money, in every run and for every MAX_CHECKS. */
  lemma {:induction false} ReleasesAreDueOrTorn(es: seq<Event>, maxChecks: nat)
    ensures AllReleasesExact(Run(START, es, maxChecks))
  {
    if es != [] {
      ReleasesAreDueOrTorn(es[..|es| - 1], maxChecks);
      ApplyKeepsReleases(Run(START, es[..|es| - 1], maxChecks), es[|es| - 1], maxChecks);
    }
  }

  /**
   The life of a held payout, in every run, exactly. The budget was released once for a
   payout found to have failed and never for the others, plus once for each round torn
   while releasing. A pending row has been checked fewer than MAX_CHECKS times and so
   leaves `pending` within that many rechecks that return; an exhausted row stands at
   MAX_CHECKS + 1; only a round torn while giving up adds one to either.
   */
  lemma {:induction false} PayoutLifecycle(es: seq<Event>, maxChecks: nat)
    requires maxChecks >= 1
    ensures RowHistories(Run(START, es, maxChecks), maxChecks)
  {
    if es != [] {
      PayoutLifecycle(es[..|es| - 1], maxChecks);
      ApplyKeepsRowHistories(Run(START, es[..|es| - 1], maxChecks), es[|es| - 1], maxChecks);
    }
  }

  /** As the worker's documentation has it: each promise with the one kind of torn round that breaks it. */
  lemma PayoutLifecycleUndisturbed(es: seq<Event>, maxChecks: nat, i: nat)
    requires maxChecks >= 1 && i < |Run(START, es, maxChecks).rows|
    ensures var t := Run(START, es, maxChecks).rows[i];
      && (t.row.status == Open && t.stage == Rest ==> (t.row.checksDone < maxChecks <==> t.torn.exhausting == 0))
      && (t.row.status == Exhausted ==> (t.row.checksDone == maxChecks + 1 <==> t.torn.exhausting == 0))
      && (t.row.status == Open && t.stage == Rest ==>
            (|t.seen| == t.row.checksDone <==> t.torn.releasing == 0 && t.torn.settling == 0))
      && (t.stage == Rest ==>
            (t.releases == (if t.row.status == ResolvedFailed then 1 else 0) <==> t.torn.releasing == 0))
  {
    PayoutLifecycle(es, maxChecks);
    assert RowHistory(Run(START, es, maxChecks).rows[i], maxChecks);
  }

  /** How many reads said that the money has not moved, or has come back. */
  function UnpaidReads(seen: seq<RzpStatus>): nat {
    if seen == [] then 0 else UnpaidReads(seen[..|seen| - 1]) + if Unpaid(seen[|seen| - 1]) then 1 else 0
  }

  function ProcessedReads(seen: seq<RzpStatus>): nat {
    if seen == [] then 0 else ProcessedReads(seen[..|seen| - 1]) + if seen[|seen| - 1] == Processed then 1 else 0
  }

  /** A row is released once for each read that said so, and leaves `pending` by what was read last. */
  ghost predicate ReadsDecide(t: Tracked) {
    && t.releases == UnpaidReads(t.seen)
    && ProcessedReads(t.seen) == t.torn.settling + (if t.stage == Settling || t.row.status == ResolvedSettled then 1 else 0)
    && (t.stage != Rest || t.row.status != Open ==> t.seen != [])
    && (t.stage != Rest || t.row.status != Open ==>
          var last := t.seen[|t.seen| - 1];
          && (t.stage == Releasing || t.row.status == ResolvedFailed <==> Unpaid(last))
          && (t.stage == Settling || t.row.status == ResolvedSettled <==> last == Processed)
          && (t.stage == Rest ==> t.row.rzpStatus == last))
    && (t.stage != Rest ==> t.row.status == Open)
  }

  lemma CountReads(seen: seq<RzpStatus>, r: RzpStatus)
    ensures UnpaidReads(seen + [r]) == UnpaidReads(seen) + if Unpaid(r) then 1 else 0
    ensures ProcessedReads(seen + [r]) == ProcessedReads(seen) + if r == Processed then 1 else 0
  {
    assert (seen + [r])[..|seen|] == seen;
  }

  lemma RoundKeepsReads(s: System, e: Event, maxChecks: nat)
    requires OfWorker(e) && e.i < |s.rows| && ReadsDecide(s.rows[e.i])
    ensures var s' := Apply(s, e, maxChecks); e.i < |s'.rows| && ReadsDecide(s'.rows[e.i])
  {
    hide Commit, Rollback, UnpaidReads, ProcessedReads;
    if e.Recheck? { CountReads(s.rows[e.i].seen, e.s); }
  }

  /**
   What a held payout's money does follows its reads, in every run and interleaving: the
   hold is released exactly once for each read of reversed, rejected, cancelled or failed,
   never for another; the row is resolved as failed, or settled, exactly by what was read
   last, and a payout read as processed stays on the budget.
   */
  lemma {:induction false} HoldsFollowReads(es: seq<Event>, maxChecks: nat)
    ensures forall i :: 0 <= i < |Run(START, es, maxChecks).rows| ==> ReadsDecide(Run(START, es, maxChecks).rows[i])
  {
    hide Apply, ReadsDecide;
    if es != [] {
      var s, e := Run(START, es[..|es| - 1], maxChecks), es[|es| - 1];
      HoldsFollowReads(es[..|es| - 1], maxChecks);
      var s' := Apply(s, e, maxChecks);
      forall i | 0 <= i < |s'.rows| ensures ReadsDecide(s'.rows[i]) {
        if OfWorker(e) && e.i == i {
          if i < |s.rows| { RoundKeepsReads(s, e, maxChecks); } else { NoSuchRow(s, e, maxChecks); }
        } else {
          OtherRowsStay(s, e, maxChecks, i);
          if i >= |s.rows| { NewRowHasNoReads(s'.rows[i]); }
        }
      }
    }
  }

  lemma NewRowHasNoReads(t: Tracked)
    requires t.stage == Rest && t.seen == [] && t.releases == 0 && t.torn == NEVER_TORN && t.row.status == Open
    ensures ReadsDecide(t)
  {}

  /** A row no round of which was torn was released if and only if one read of it said the money did not move. */
  lemma ReleasedIffReadUnpaid(es: seq<Event>, maxChecks: nat, i: nat)
    requires i < |Run(START, es, maxChecks).rows| && Run(START, es, maxChecks).rows[i].torn == NEVER_TORN
    ensures var t := Run(START, es, maxChecks).rows[i];
      && t.releases <= 1
      && (t.releases == 1 <==> exists k :: 0 <= k < |t.seen| && Unpaid(t.seen[k]))
      && (t.stage == Rest ==> (t.row.status == ResolvedFailed <==> exists k :: 0 <= k < |t.seen| && Unpaid(t.seen[k])))
      && (t.stage == Rest ==> (t.row.status == ResolvedSettled <==> exists k :: 0 <= k < |t.seen| && t.seen[k] == Processed))
  {
    var t := Run(START, es, maxChecks).rows[i];
    hide Run;
    HoldsFollowReads(es, maxChecks);
    ReleasesAreDueOrTorn(es, maxChecks);
    assert ReadsDecide(t) && ReleasesExact(t);
    SomeRead(t.seen);
  }

  lemma {:induction false} SomeRead(seen: seq<RzpStatus>)
    ensures UnpaidReads(seen) > 0 <==> exists k :: 0 <= k < |seen| && Unpaid(seen[k])
    ensures ProcessedReads(seen) > 0 <==> exists k :: 0 <= k < |seen| && seen[k] == Processed
  {
    if seen != [] {
      SomeRead(seen[..|seen| - 1]);
      assert forall k :: 0 <= k < |seen| - 1 ==> seen[..|seen| - 1][k] == seen[k];
    }
  }

  /** A row apart from its step id, which `/pay` fills in late. */
  function Unnamed(t: Tracked): Tracked {
    t.(row := t.row.(stepId := ""))
  }

  lemma ApplyKeepsClosedRow(s: System, e: Event, maxChecks: nat, i: nat)
    requires i < |s.rows| && s.rows[i].row.status != Open && RowHistory(s.rows[i], maxChecks)
    ensures var s' := Apply(s, e, maxChecks); i < |s'.rows| && Unnamed(s'.rows[i]) == Unnamed(s.rows[i])
  {
    assert s.rows[i].stage == Rest;
    hide RowHistory, CreateWorkflow, Reserve, CanReserve, AddUsed, Commit, Rollback;
  }

  /** A row that has left `pending` never changes again, apart from /pay's backfill of its step id. */
  lemma {:induction false} ClosedRowsAreFinal(s: System, es: seq<Event>, maxChecks: nat, i: nat)
    requires maxChecks >= 1 && RowHistories(s, maxChecks)
    requires i < |s.rows| && s.rows[i].row.status != Open
    ensures var s' := Run(s, es, maxChecks); i < |s'.rows| && Unnamed(s'.rows[i]) == Unnamed(s.rows[i])
    ensures RowHistories(Run(s, es, maxChecks), maxChecks)
  {
    if es != [] {
      var s1 := Run(s, es[..|es| - 1], maxChecks);
      ClosedRowsAreFinal(s, es[..|es| - 1], maxChecks, i);
      assert Unnamed(s1.rows[i]).row.status == Unnamed(s.rows[i]).row.status;
      ApplyKeepsClosedRow(s1, es[|es| - 1], maxChecks, i);
      ApplyKeepsRowHistories(s1, es[|es| - 1], maxChecks);
      hide Apply, RowHistory;
    }
  }

  /** No payment of the workflow was released with its row in place, and no row was released more often than due. */
  ghost predicate NothingReleasedTwice(s: System, wid: string) {
    && (forall p :: 0 <= p < |s.payments| && s.payments[p].workflowId == wid ==> !s.payments[p].phase.ReleasedDespiteRow?)
    && (forall i :: 0 <= i < |s.rows| && s.rows[i].row.workflowId == wid ==> s.rows[i].releases == DueReleases(s.rows[i]))
  }

  /** The two events that release a hold which stays on record: a round dying after its rollback, `/pay` failing after it made the row. */
  ghost predicate SecondRelease(s: System, e: Event, wid: string) {
    match e
    case Tear(i) => i < |s.rows| && s.rows[i].stage == Releasing && s.rows[i].row.workflowId == wid
    case Release(p) => p < |s.payments| && s.payments[p].phase.RowCreated? && s.payments[p].workflowId == wid
    case _ => false
  }

  ghost predicate NoSecondRelease(es: seq<Event>, maxChecks: nat, wid: string) {
    forall k :: 0 <= k < |es| ==> !SecondRelease(Run(START, es[..k], maxChecks), es[k], wid)
  }

  /** A payment already released with its row in place stays so; only one event adds such a payment. */
  lemma PaymentsReleasedAgain(s: System, e: Event, maxChecks: nat, p: nat)
    requires p < |Apply(s, e, maxChecks).payments|
    ensures var s' := Apply(s, e, maxChecks);
      && (p < |s.payments| ==> s'.payments[p].workflowId == s.payments[p].workflowId)
      && (s'.payments[p].phase.ReleasedDespiteRow? <==>
            p < |s.payments| && (s.payments[p].phase.ReleasedDespiteRow? || (e == Release(p) && s.payments[p].phase.RowCreated?)))
      && |s.payments| <= |s'.payments|
  {
    hide CreateWorkflow, Reserve, CanReserve, Commit, Rollback;
  }

  /** Likewise for rows, counted by the rounds torn while releasing. */
  lemma RowsReleasedAgain(s: System, e: Event, maxChecks: nat, i: nat)
    requires i < |Apply(s, e, maxChecks).rows|
    ensures var s' := Apply(s, e, maxChecks);
      && (i < |s.rows| ==> s'.rows[i].row.workflowId == s.rows[i].row.workflowId)
      && (s'.rows[i].torn.releasing > 0 <==>
            i < |s.rows| && (s.rows[i].torn.releasing > 0 || (e == Tear(i) && s.rows[i].stage == Releasing)))
      && |s.rows| <= |s'.rows|
  {
    hide CreateWorkflow, Reserve, CanReserve, Commit, Rollback;
  }

  lemma RowsNeverVanish(s: System, e: Event, maxChecks: nat)
    ensures |s.rows| <= |Apply(s, e, maxChecks).rows| && |s.payments| <= |Apply(s, e, maxChecks).payments|
  {
    hide CreateWorkflow, Reserve, CanReserve, Commit, Rollback;
  }

  ghost predicate NoPaymentReleasedTwice(s: System, wid: string) {
    forall p :: 0 <= p < |s.payments| && s.payments[p].workflowId == wid ==> !s.payments[p].phase.ReleasedDespiteRow?
  }

  lemma PaymentsDecide(s: System, e: Event, maxChecks: nat, wid: string)
    ensures NoPaymentReleasedTwice(Apply(s, e, maxChecks), wid)
      <==> NoPaymentReleasedTwice(s, wid) && !(e.Release? && SecondRelease(s, e, wid))
  {
    hide Apply;
    var s' := Apply(s, e, maxChecks);
    RowsNeverVanish(s, e, maxChecks);
    forall p | 0 <= p < |s'.payments|
      ensures s'.payments[p].phase.ReleasedDespiteRow? <==>
        p < |s.payments| && (s.payments[p].phase.ReleasedDespiteRow? || (e == Release(p) && s.payments[p].phase.RowCreated?))
      ensures p < |s.payments| ==> s'.payments[p].workflowId == s.payments[p].workflowId
    {
      PaymentsReleasedAgain(s, e, maxChecks, p);
    }
  }

  ghost predicate NoRowTornReleasing(s: System, wid: string) {
    forall i :: 0 <= i < |s.rows| && s.rows[i].row.workflowId == wid ==> s.rows[i].torn.releasing == 0
  }

  lemma RowsDecide(s: System, e: Event, maxChecks: nat, wid: string)
    ensures NoRowTornReleasing(Apply(s, e, maxChecks), wid)
      <==> NoRowTornReleasing(s, wid) && !(e.Tear? && SecondRelease(s, e, wid))
  {
    hide Apply;
    var s' := Apply(s, e, maxChecks);
    RowsNeverVanish(s, e, maxChecks);
    forall i | 0 <= i < |s'.rows|
      ensures s'.rows[i].torn.releasing > 0 <==>
        i < |s.rows| && (s.rows[i].torn.releasing > 0 || (e == Tear(i) && s.rows[i].stage == Releasing))
      ensures i < |s.rows| ==> s'.rows[i].row.workflowId == s.rows[i].row.workflowId
    {
      RowsReleasedAgain(s, e, maxChecks, i);
    }
  }

  /** Releases made twice are those of torn rounds and of payments that failed late. */
  lemma ReleasedTwiceSplits(s: System, wid: string)
    requires AllReleasesExact(s)
    ensures NothingReleasedTwice(s, wid) <==> NoPaymentReleasedTwice(s, wid) && NoRowTornReleasing(s, wid)
  {
    assert forall i :: 0 <= i < |s.rows| ==> ReleasesExact(s.rows[i]);
  }

  lemma SecondReleaseDecides(s: System, e: Event, maxChecks: nat, wid: string)
    requires AllReleasesExact(s)
    ensures NothingReleasedTwice(Apply(s, e, maxChecks), wid) <==> NothingReleasedTwice(s, wid) && !SecondRelease(s, e, wid)
  {
    hide Apply, AllReleasesExact, NothingReleasedTwice, NoPaymentReleasedTwice, NoRowTornReleasing;
    ApplyKeepsReleases(s, e, maxChecks);
    ReleasedTwiceSplits(s, wid);
    ReleasedTwiceSplits(Apply(s, e, maxChecks), wid);
    PaymentsDecide(s, e, maxChecks, wid);
    RowsDecide(s, e, maxChecks, wid);
  }

  lemma NothingYetReleased(maxChecks: nat, wid: string)
    ensures NothingReleasedTwice(START, wid) && NoSecondRelease([], maxChecks, wid)
  {}

  lemma SecondReleaseSnoc(es: seq<Event>, maxChecks: nat, wid: string)
    requires es != []
    ensures var init := es[..|es| - 1];
      NoSecondRelease(es, maxChecks, wid) <==>
        NoSecondRelease(init, maxChecks, wid) && !SecondRelease(Run(START, init, maxChecks), es[|es| - 1], wid)
  {
    hide Run, SecondRelease;
    Prefixes(es);
  }

  /**
   What releases twice, on events: in every run, and for every MAX_CHECKS, nothing of a
   workflow has been released twice if and only if no recheck round of it died between
   its rollback and its resolution, and no payment of it failed after its row was made.
   */
  lemma {:induction false} ReleasedTwiceIff(es: seq<Event>, maxChecks: nat, wid: string)
    ensures NothingReleasedTwice(Run(START, es, maxChecks), wid) <==> NoSecondRelease(es, maxChecks, wid)
  {
    NothingYetReleased(maxChecks, wid);
    hide Apply, NothingReleasedTwice, SecondRelease, NoSecondRelease, AllReleasesExact;
    if es != [] {
      var init, e := es[..|es| - 1], es[|es| - 1];
      ReleasedTwiceIff(init, maxChecks, wid);
      ReleasesAreDueOrTorn(init, maxChecks);
      SecondReleaseDecides(Run(START, init, maxChecks), e, maxChecks, wid);
      SecondReleaseSnoc(es, maxChecks, wid);
    }
  }

  /** Every requested amount satisfies the bound, and so does every settled one. */
  ghost predicate AmountsAtLeast(es: seq<Event>, strict: bool) {
    forall k :: 0 <= k < |es| ==> match es[k]
      case Arrive(_, amount) => if strict then amount > 0.0 else amount >= 0.0
      case Settle(_, actual) => actual >= 0.0
      case _ => true
  }

  ghost predicate MoneyAtLeast(s: System, strict: bool) {
    && (forall p :: 0 <= p < |s.payments| ==> PaymentAtLeast(s.payments[p], strict))
    && (forall i :: 0 <= i < |s.rows| ==> RowAtLeast(s.rows[i], strict))
  }

  ghost predicate PaymentAtLeast(p: InFlight, strict: bool) {
    (if strict then p.amount > 0.0 else p.amount >= 0.0) && (p.phase.SettledFor? ==> p.phase.actual >= 0.0)
  }

  ghost predicate RowAtLeast(t: Tracked, strict: bool) {
    (if strict then t.row.amount > 0.0 else t.row.amount >= 0.0) && t.releasedByTorn >= 0.0
  }

  lemma ApplyKeepsMoney(s: System, e: Event, maxChecks: nat, strict: bool)
    requires MoneyAtLeast(s, strict) && AmountsAtLeast([e], strict)
    ensures MoneyAtLeast(Apply(s, e, maxChecks), strict)
  {
    hide CreateWorkflow, Reserve, CanReserve, Commit, Rollback;
    assert [e][0] == e;
  }

  lemma {:induction false} RunKeepsMoney(es: seq<Event>, maxChecks: nat, strict: bool)
    requires AmountsAtLeast(es, strict)
    ensures MoneyAtLeast(Run(START, es, maxChecks), strict)
  {
    if es != [] {
      RunKeepsMoney(es[..|es| - 1], maxChecks, strict);
      ApplyKeepsMoney(Run(START, es[..|es| - 1], maxChecks), es[|es| - 1], maxChecks, strict);
    }
  }

  lemma {:induction false} PaymentSumNonNegative(ps: seq<InFlight>, wid: string, kind: Kind)
    requires kind != NetUse && forall p :: 0 <= p < |ps| ==> PaymentAtLeast(ps[p], false)
    ensures PaymentSum(ps, wid, kind) >= 0.0
    ensures kind == ReleasedTwice && (exists p :: 0 <= p < |ps| && ps[p].workflowId == wid && ps[p].amount > 0.0 && ps[p].phase.ReleasedDespiteRow?)
            ==> PaymentSum(ps, wid, kind) > 0.0
    ensures kind == ReleasedTwice && (forall p :: 0 <= p < |ps| && ps[p].workflowId == wid ==> !ps[p].phase.ReleasedDespiteRow?)
            ==> PaymentSum(ps, wid, kind) == 0.0
  {
    if ps != [] { PaymentSumNonNegative(ps[..|ps| - 1], wid, kind); }
  }

  lemma {:induction false} RowSumNonNegative(rows: seq<Tracked>, wid: string, kind: Kind)
    requires kind != NetUse && forall i :: 0 <= i < |rows| ==> RowAtLeast(rows[i], false)
    ensures RowSum(rows, wid, kind) >= 0.0
    ensures kind == ReleasedTwice && (exists i :: 0 <= i < |rows| && rows[i].row.workflowId == wid && rows[i].releasedByTorn > 0.0)
            ==> RowSum(rows, wid, kind) > 0.0
    ensures kind == ReleasedTwice && (forall i :: 0 <= i < |rows| && rows[i].row.workflowId == wid ==> rows[i].releasedByTorn == 0.0)
            ==> RowSum(rows, wid, kind) == 0.0
  {
    if rows != [] { RowSumNonNegative(rows[..|rows| - 1], wid, kind); }
  }

  /** A row has released money twice exactly when a round of it was torn while releasing. */
  lemma TornMoney(t: Tracked, strict: bool)
    requires ReleasesExact(t) && RowAtLeast(t, strict)
    ensures t.releases == DueReleases(t) ==> t.releasedByTorn == 0.0
    ensures t.releases != DueReleases(t) && strict ==> t.releasedByTorn > 0.0
  {
    if t.torn.releasing > 0 {
      OneMoreTimes(t.torn.releasing - 1, t.row.amount);
      TimesNonNegative(t.torn.releasing - 1, t.row.amount);
    }
  }

  lemma TimesNonNegative(n: nat, a: real)
    requires a >= 0.0
    ensures n as real * a >= 0.0
  {}

  lemma RowsTornMoney(s: System, strict: bool)
    requires AllReleasesExact(s) && MoneyAtLeast(s, strict)
    ensures forall i :: 0 <= i < |s.rows| && s.rows[i].releases == DueReleases(s.rows[i]) ==> s.rows[i].releasedByTorn == 0.0
    ensures strict ==> forall i :: 0 <= i < |s.rows| && s.rows[i].releases != DueReleases(s.rows[i]) ==> s.rows[i].releasedByTorn > 0.0
  {
    forall i | 0 <= i < |s.rows|
      ensures s.rows[i].releases == DueReleases(s.rows[i]) ==> s.rows[i].releasedByTorn == 0.0
      ensures strict && s.rows[i].releases != DueReleases(s.rows[i]) ==> s.rows[i].releasedByTorn > 0.0
    {
      TornMoney(s.rows[i], strict);
    }
  }

  /** With positive amounts, money has been released twice exactly when something has. */
  lemma ReleasedTwiceMoney(s: System, wid: string)
    requires AllReleasesExact(s) && MoneyAtLeast(s, true) && MoneyAtLeast(s, false)
    ensures Total(s, wid, ReleasedTwice) == 0.0 <==> NothingReleasedTwice(s, wid)
  {
    RowsTornMoney(s, true);
    PaymentSumNonNegative(s.payments, wid, ReleasedTwice);
    RowSumNonNegative(s.rows, wid, ReleasedTwice);
    hide PaymentSum, RowSum, ReleasesExact, DueReleases;
  }

  /**
   With positive amounts the plain law `budget_used == settled + held + in flight` holds
   at the end of a run if and only if no recheck round of the workflow died between its
   rollback and its resolution and no payment of it failed after its row was made.
   */
  lemma PlainConservationIff(es: seq<Event>, maxChecks: nat, wid: string)
    requires AmountsAtLeast(es, true)
    requires wid in Run(START, es, maxChecks).budgets
    ensures var s := Run(START, es, maxChecks);
      (s.budgets[wid].used == Total(s, wid, SettledMoney) + Total(s, wid, HeldMoney) + Total(s, wid, InFlightMoney))
        <==> NoSecondRelease(es, maxChecks, wid)
  {
    hide Run, Total, NothingReleasedTwice, NoSecondRelease, AllReleasesExact, MoneyAtLeast;
    BudgetIsConserved(es, maxChecks, wid);
    assert AmountsAtLeast(es, false);
    RunKeepsMoney(es, maxChecks, true);
    RunKeepsMoney(es, maxChecks, false);
    ReleasesAreDueOrTorn(es, maxChecks);
    ReleasedTwiceMoney(Run(START, es, maxChecks), wid);
    ReleasedTwiceIff(es, maxChecks, wid);
  }

  /** With non-negative amounts, a workflow from which nothing was released twice never goes below zero. */
  lemma BudgetNeverNegative(es: seq<Event>, maxChecks: nat, wid: string)
    requires AmountsAtLeast(es, false) && NoSecondRelease(es, maxChecks, wid)
    requires wid in Run(START, es, maxChecks).budgets
    ensures Run(START, es, maxChecks).budgets[wid].used >= 0.0
  {
    var s := Run(START, es, maxChecks);
    BudgetIsConserved(es, maxChecks, wid);
    RunKeepsMoney(es, maxChecks, false);
    ReleasesAreDueOrTorn(es, maxChecks);
    ReleasedTwiceIff(es, maxChecks, wid);
    RowsTornMoney(s, false);
    PaymentSumNonNegative(s.payments, wid, ReleasedTwice);
    RowSumNonNegative(s.rows, wid, ReleasedTwice);
    forall kind | kind in {SettledMoney, HeldMoney, InFlightMoney} ensures Total(s, wid, kind) >= 0.0 {
      PaymentSumNonNegative(s.payments, wid, kind);
      RowSumNonNegative(s.rows, wid, kind);
    }
  }

  /** What a run must not do for the plain law: die between a round's writes, or fail after a row was made. */
  ghost predicate Undisturbed(es: seq<Event>, maxChecks: nat) {
    forall k :: 0 <= k < |es| ==>
      && !es[k].Tear?
      && (es[k].Release? && es[k].p < |Run(START, es[..k], maxChecks).payments| ==>
            !Run(START, es[..k], maxChecks).payments[es[k].p].phase.RowCreated?)
  }

  /** Undisturbed runs satisfy the plain law, for every workflow. */
  lemma UndisturbedReleasesOnce(es: seq<Event>, maxChecks: nat, wid: string)
    requires Undisturbed(es, maxChecks)
    ensures NothingReleasedTwice(Run(START, es, maxChecks), wid)
  {
    ReleasedTwiceIff(es, maxChecks, wid);
    hide Run, NothingReleasedTwice;
  }

  // ---- staying at or above zero ----

  /** Payment p is the workflow's and can still be settled, or released. */
  predicate Payable(s: System, p: nat, wid: string) {
    p < |s.payments| && s.payments[p].phase == Reserved && s.payments[p].workflowId == wid
  }

  predicate Releasable(s: System, p: nat, wid: string) {
    p < |s.payments| && (s.payments[p].phase == Reserved || s.payments[p].phase.RowCreated?) && s.payments[p].workflowId == wid
  }

  predicate Recheckable(s: System, i: nat, wid: string) {
    i < |s.rows| && s.rows[i].row.status == Open && s.rows[i].stage == Rest && s.rows[i].row.workflowId == wid
  }

  /** What a write takes from the workflow, by the payment or the row it acts on. */
  function TakenBy(s: System, e: Event, wid: string): real {
    match e
    case Arrive(w, amount) => if w == wid && CanReserve(s.budgets, wid, amount) then -amount else 0.0
    case Settle(p, actual) => if Payable(s, p, wid) then s.payments[p].amount - actual else 0.0
    case Release(p) => if Releasable(s, p, wid) then s.payments[p].amount else 0.0
    case Recheck(i, rzp) => if Unpaid(rzp) && Recheckable(s, i, wid) then s.rows[i].row.amount else 0.0
    case _ => 0.0
  }

  /** Those are the only writes that move the budget, and they move it by that much. */
  lemma UsedAfter(s: System, e: Event, maxChecks: nat, wid: string)
    requires wid in s.budgets
    ensures var s' := Apply(s, e, maxChecks);
      wid in s'.budgets && s'.budgets[wid].used == s.budgets[wid].used - TakenBy(s, e, wid)
  {}

  /** A write takes no more than is used. */
  predicate Covered(s: System, e: Event, wid: string) {
    wid in s.budgets ==> TakenBy(s, e, wid) <= s.budgets[wid].used
  }

  ghost predicate NotNegative(s: System, wid: string) {
    wid in s.budgets ==> s.budgets[wid].used >= 0.0
  }

  lemma CoveredDecides(s: System, e: Event, maxChecks: nat, wid: string)
    requires NotNegative(s, wid)
    ensures NotNegative(Apply(s, e, maxChecks), wid) <==> Covered(s, e, wid)
  {
    if wid in s.budgets { UsedAfter(s, e, maxChecks, wid); } else { NewIsNotNegative(s, e, maxChecks, wid); }
    hide Apply, TakenBy;
  }

  lemma NewIsNotNegative(s: System, e: Event, maxChecks: nat, wid: string)
    requires wid !in s.budgets
    ensures NotNegative(Apply(s, e, maxChecks), wid)
  {}

  ghost predicate NeverNegative(es: seq<Event>, maxChecks: nat, wid: string) {
    forall n :: 0 <= n <= |es| ==> NotNegative(Run(START, es[..n], maxChecks), wid)
  }

  ghost predicate AllCovered(es: seq<Event>, maxChecks: nat, wid: string) {
    forall k :: 0 <= k < |es| ==> Covered(Run(START, es[..k], maxChecks), es[k], wid)
  }

  lemma CoveredSnoc(es: seq<Event>, maxChecks: nat, wid: string)
    requires es != []
    ensures var init := es[..|es| - 1];
      && (NeverNegative(es, maxChecks, wid) <==> NeverNegative(init, maxChecks, wid) && NotNegative(Run(START, es, maxChecks), wid))
      && (NeverNegative(init, maxChecks, wid) ==> NotNegative(Run(START, init, maxChecks), wid))
      && (AllCovered(es, maxChecks, wid) <==>
            AllCovered(init, maxChecks, wid) && Covered(Run(START, init, maxChecks), es[|es| - 1], wid))
  {
    hide Run, NotNegative, Covered;
    Prefixes(es);
  }

  /**
   The used budget of a workflow is never negative in a run, whatever the amounts, if and
   only if no single write takes more than is used: a release or a failed recheck the
   amount of its payment or row, a settlement what it leaves of the request, a negative
   reservation its absolute value.
   */
  lemma {:induction false} NeverNegativeIff(es: seq<Event>, maxChecks: nat, wid: string)
    ensures NeverNegative(es, maxChecks, wid) <==> AllCovered(es, maxChecks, wid)
  {
    StartIsFine(maxChecks, wid);
    hide Apply, NotNegative, Covered, NeverNegative, AllCovered;
    if es != [] {
      NeverNegativeIff(es[..|es| - 1], maxChecks, wid);
      CoveredSnoc(es, maxChecks, wid);
      var s := Run(START, es[..|es| - 1], maxChecks);
      if NotNegative(s, wid) { CoveredDecides(s, es[|es| - 1], maxChecks, wid); }
    }
  }

  lemma StartIsFine(maxChecks: nat, wid: string)
    ensures NeverNegative([], maxChecks, wid) && AllCovered([], maxChecks, wid)
    ensures AlwaysWithin([], maxChecks, wid) && AllFit([], maxChecks, wid)
  {}

  lemma Prefixes(es: seq<Event>)
    requires es != []
    ensures var init := es[..|es| - 1];
      && init[..|init|] == init && es[..|es|] == es && es[..|init|] == init
      && (forall n :: 0 <= n <= |init| ==> init[..n] == es[..n])
      && (forall k :: 0 <= k < |init| ==> init[k] == es[k])
  {}

  // ---- staying within the limit ----

  ghost predicate Within(s: System, wid: string) {
    wid in s.budgets ==> s.budgets[wid].used <= s.budgets[wid].limit
  }

  /**
   The check that `commit_budget` lacks: a settlement must fit under the limit. The other
   writes cannot pass it, unless the limit or an amount is negative.
   */
  ghost predicate Fits(s: System, e: Event, wid: string) {
    match e
    case Init(w, limit) => w == wid && wid !in s.budgets ==> limit >= 0.0
    case Settle(p, actual) =>
      Payable(s, p, wid) && wid in s.budgets ==>
        s.budgets[wid].used + actual - s.payments[p].amount <= s.budgets[wid].limit
    case Release(p) =>
      Releasable(s, p, wid) && wid in s.budgets && s.payments[p].amount < 0.0 ==>
        s.budgets[wid].used - s.payments[p].amount <= s.budgets[wid].limit
    case Recheck(i, rzp) =>
      Unpaid(rzp) && Recheckable(s, i, wid) && wid in s.budgets && s.rows[i].row.amount < 0.0 ==>
        s.budgets[wid].used - s.rows[i].row.amount <= s.budgets[wid].limit
    case _ => true
  }

  lemma FitsDecides(s: System, e: Event, maxChecks: nat, wid: string)
    requires Within(s, wid)
    ensures Within(Apply(s, e, maxChecks), wid) <==> Fits(s, e, wid)
  {}

  ghost predicate AlwaysWithin(es: seq<Event>, maxChecks: nat, wid: string) {
    forall n :: 0 <= n <= |es| ==> Within(Run(START, es[..n], maxChecks), wid)
  }

  ghost predicate AllFit(es: seq<Event>, maxChecks: nat, wid: string) {
    forall k :: 0 <= k < |es| ==> Fits(Run(START, es[..k], maxChecks), es[k], wid)
  }

  lemma FitsSnoc(es: seq<Event>, maxChecks: nat, wid: string)
    requires es != []
    ensures var init := es[..|es| - 1];
      && (AlwaysWithin(es, maxChecks, wid) <==> AlwaysWithin(init, maxChecks, wid) && Within(Run(START, es, maxChecks), wid))
      && (AlwaysWithin(init, maxChecks, wid) ==> Within(Run(START, init, maxChecks), wid))
      && (AllFit(es, maxChecks, wid) <==> AllFit(init, maxChecks, wid) && Fits(Run(START, init, maxChecks), es[|es| - 1], wid))
  {
    hide Run, Within, Fits;
    Prefixes(es);
  }

  /**
   The mandate, exactly: a workflow stays within its limit throughout a run if and only
   if the limit it was set up with is not negative and every settlement, at its moment,
   fits: used budget plus the settled amount less the reservation is within the limit.
   (A negative amount given back is the only other way to pass the limit.)
   */
  lemma {:induction false} MandateHoldsIff(es: seq<Event>, maxChecks: nat, wid: string)
    ensures AlwaysWithin(es, maxChecks, wid) <==> AllFit(es, maxChecks, wid)
  {
    StartIsFine(maxChecks, wid);
    hide Apply, Within, Fits, AlwaysWithin, AllFit;
    if es != [] {
      MandateHoldsIff(es[..|es| - 1], maxChecks, wid);
      FitsSnoc(es, maxChecks, wid);
      var s := Run(START, es[..|es| - 1], maxChecks);
      if Within(s, wid) { FitsDecides(s, es[|es| - 1], maxChecks, wid); }
    }
  }

  // ---- the limit ----

  function LimitOf(b: Budget): real {
    if b.limit > 0.0 then b.limit else 0.0
  }

  ghost predicate WithinLimit(s: System, wid: string) {
    wid in s.budgets ==> s.budgets[wid].used <= LimitOf(s.budgets[wid]) + Total(s, wid, Overcharge)
  }

  /** No event reduces the settled excess, and each keeps `used` within what it adds. */
  lemma LimitFromParts(s: System, s': System, wid: string)
    requires WithinLimit(s, wid) && Total(s, wid, Overcharge) >= 0.0
    requires wid in s.budgets ==> wid in s'.budgets && s'.budgets[wid].limit == s.budgets[wid].limit
    requires wid in s.budgets ==>
      || s'.budgets[wid].used - s.budgets[wid].used <= Total(s', wid, Overcharge) - Total(s, wid, Overcharge)
      || (s'.budgets[wid].used <= s'.budgets[wid].limit && Total(s', wid, Overcharge) == Total(s, wid, Overcharge))
    requires wid !in s.budgets && wid in s'.budgets ==> s'.budgets[wid].used == 0.0 && Total(s', wid, Overcharge) == Total(s, wid, Overcharge)
    ensures WithinLimit(s', wid)
  {
    hide PaymentSum, RowSum, Total;
  }

  lemma InitKeepsLimit(s: System, e: Event, maxChecks: nat, wid: string)
    requires WithinLimit(s, wid) && Total(s, wid, Overcharge) >= 0.0 && e.Init?
    ensures WithinLimit(Apply(s, e, maxChecks), wid)
  {
    hide PaymentSum, RowSum;
    LimitFromParts(s, Apply(s, e, maxChecks), wid);
  }

  lemma ArrivalKeepsLimit(s: System, e: Event, maxChecks: nat, wid: string)
    requires WithinLimit(s, wid) && Total(s, wid, Overcharge) >= 0.0 && e.Arrive?
    ensures WithinLimit(Apply(s, e, maxChecks), wid)
  {
    var p := InFlight(e.workflowId, e.amount, Reserved);
    assert PaymentPart(p, Overcharge) == 0.0;
    PaymentSumAppend(s.payments, p, wid, Overcharge);
    hide PaymentPart, PaymentShare, RowPart, PaymentSum, RowSum, WithinLimit;
    if CanReserve(s.budgets, e.workflowId, e.amount) {
      LimitFromParts(s, Apply(s, e, maxChecks), wid);
    }
  }

  lemma HoldKeepsLimit(s: System, e: Event, maxChecks: nat, wid: string)
    requires WithinLimit(s, wid) && Total(s, wid, Overcharge) >= 0.0 && e.Hold?
    ensures WithinLimit(Apply(s, e, maxChecks), wid)
  {
    hide PaymentSum, RowSum, WithinLimit;
    var s' := Apply(s, e, maxChecks);
    if s' != s {
      PhaseMove(s, e.p, RowCreated(|s.rows|), wid, Overcharge);
      RowSumAppend(s.rows, s'.rows[|s.rows|], wid, Overcharge);
      assert s'.payments == SetPhase(s, e.p, RowCreated(|s.rows|)).payments;
      assert s'.rows == s.rows + [s'.rows[|s.rows|]];
      LimitFromParts(s, s', wid);
    }
  }

  lemma OutcomeKeepsLimit(s: System, e: Event, maxChecks: nat, wid: string)
    requires MoneyAtLeast(s, false) && WithinLimit(s, wid) && Total(s, wid, Overcharge) >= 0.0
    requires (e.Settle? && e.actual >= 0.0) || e.LeavePending? || e.Release?
    ensures WithinLimit(Apply(s, e, maxChecks), wid)
  {
    var s' := Apply(s, e, maxChecks);
    if s' != s {
      PhaseMove(s, e.p, s'.payments[e.p].phase, wid, Overcharge);
      assert s'.payments == SetPhase(s, e.p, s'.payments[e.p].phase).payments;
      hide PaymentSum, RowSum, WithinLimit;
      LimitFromParts(s, s', wid);
    }
  }

  lemma WorkerKeepsLimit(s: System, e: Event, maxChecks: nat, wid: string)
    requires MoneyAtLeast(s, false) && WithinLimit(s, wid) && Total(s, wid, Overcharge) >= 0.0
    requires e.Backfill? || e.Recheck? || e.Resolve? || e.Tear?
    ensures WithinLimit(Apply(s, e, maxChecks), wid)
  {
    hide PaymentSum, RowSum;
    var s' := Apply(s, e, maxChecks);
    if s' != s {
      RowMove(s, e.i, s'.rows[e.i], wid, Overcharge);
      assert s'.rows == SetRow(s, e.i, s'.rows[e.i]).rows;
      LimitFromParts(s, s', wid);
    }
  }

  lemma ApplyKeepsLimit(s: System, e: Event, maxChecks: nat, wid: string)
    requires MoneyAtLeast(s, false) && AmountsAtLeast([e], false) && WithinLimit(s, wid)
    requires Total(s, wid, Overcharge) >= 0.0
    ensures WithinLimit(Apply(s, e, maxChecks), wid)
  {
    assert [e][0] == e;
    hide Apply, Total, WithinLimit, MoneyAtLeast;
    match e
    case Init(_, _) => InitKeepsLimit(s, e, maxChecks, wid);
    case Arrive(_, _) => ArrivalKeepsLimit(s, e, maxChecks, wid);
    case Hold(_, _, _, _, _) => HoldKeepsLimit(s, e, maxChecks, wid);
    case Settle(_, _) => OutcomeKeepsLimit(s, e, maxChecks, wid);
    case LeavePending(_) => OutcomeKeepsLimit(s, e, maxChecks, wid);
    case Release(_) => OutcomeKeepsLimit(s, e, maxChecks, wid);
    case _ => WorkerKeepsLimit(s, e, maxChecks, wid);
  }

  /**
   The mandate: whatever the interleaving, with non-negative amounts a workflow never
   uses more than its limit plus what gateways settled above the requested amounts.
   */
  lemma {:induction false} LimitExceededOnlyByOvercharge(es: seq<Event>, maxChecks: nat, wid: string)
    requires AmountsAtLeast(es, false)
    ensures WithinLimit(Run(START, es, maxChecks), wid)
  {
    if es != [] {
      var init, e := es[..|es| - 1], es[|es| - 1];
      var s := Run(START, init, maxChecks);
      LimitExceededOnlyByOvercharge(init, maxChecks, wid);
      RunKeepsMoney(init, maxChecks, false);
      RunKeepsStep(init, maxChecks, wid);
      PaymentSumNonNegative(s.payments, wid, Overcharge);
      RowSumNonNegative(s.rows, wid, Overcharge);
      ApplyKeepsLimit(s, e, maxChecks, wid);
    }
  }

  /** If every gateway settles at most what was requested, the limit is never exceeded. */
  lemma MandateHolds(es: seq<Event>, maxChecks: nat, wid: string)
    requires AmountsAtLeast(es, false)
    requires var s := Run(START, es, maxChecks);
      forall p :: 0 <= p < |s.payments| && s.payments[p].phase.SettledFor? ==> s.payments[p].phase.actual <= s.payments[p].amount
    requires wid in Run(START, es, maxChecks).budgets && Run(START, es, maxChecks).budgets[wid].limit >= 0.0
    ensures Run(START, es, maxChecks).budgets[wid].used <= Run(START, es, maxChecks).budgets[wid].limit
  {
    var s := Run(START, es, maxChecks);
    LimitExceededOnlyByOvercharge(es, maxChecks, wid);
    NoOvercharge(s.payments, wid);
    NoRowOvercharge(s.rows, wid);
  }

  lemma {:induction false} NoOvercharge(ps: seq<InFlight>, wid: string)
    requires forall p :: 0 <= p < |ps| && ps[p].phase.SettledFor? ==> ps[p].phase.actual <= ps[p].amount
    ensures PaymentSum(ps, wid, Overcharge) == 0.0
  {
    if ps != [] { NoOvercharge(ps[..|ps| - 1], wid); }
  }

  lemma {:induction false} NoRowOvercharge(rows: seq<Tracked>, wid: string)
    ensures RowSum(rows, wid, Overcharge) == 0.0
  {
    if rows != [] { NoRowOvercharge(rows[..|rows| - 1], wid); }
  }

  // ---- the hypotheses are needed ----

  lemma RunSnoc(es: seq<Event>, e: Event, maxChecks: nat)
    ensures Run(START, es + [e], maxChecks) == Apply(Run(START, es, maxChecks), e, maxChecks)
  {
    RunAppend(START, es, [e], maxChecks);
    RunOne(Run(START, es, maxChecks), e, maxChecks);
  }

  /** `commit_budget` checks nothing: one settlement above the request breaks the limit. */
  lemma OverchargeBreaksLimit(maxChecks: nat)
    ensures var s := Run(START, [Init("w", 10.0)] + [Arrive("w", 10.0)] + [Settle(0, 25.0)], maxChecks);
      "w" in s.budgets && s.budgets["w"].used == 25.0 && s.budgets["w"].limit == 10.0
  {
    var e1: seq<Event> := [Init("w", 10.0)];
    RunSnoc([], Init("w", 10.0), maxChecks);
    assert [] + e1 == e1;
    RunSnoc(e1, Arrive("w", 10.0), maxChecks);
    RunSnoc(e1 + [Arrive("w", 10.0)], Settle(0, 25.0), maxChecks);
  }

  /** `/pay` accepts a negative amount, and the reservation then drives the budget below zero. */
  lemma NegativeAmountGoesNegative(maxChecks: nat)
    ensures var s := Run(START, [Init("w", 10.0)] + [Arrive("w", -5.0)], maxChecks);
      "w" in s.budgets && s.budgets["w"].used == -5.0
  {
    var e1: seq<Event> := [Init("w", 10.0)];
    RunSnoc([], Init("w", 10.0), maxChecks);
    assert [] + e1 == e1;
    RunSnoc(e1, Arrive("w", -5.0), maxChecks);
  }

  /** The steps of a payment held by a row, up to the failed verdict of its first recheck. */
  lemma HeldThenFailed(maxChecks: nat) returns (es: seq<Event>)
    ensures !exists k :: 0 <= k < |es| && es[k].Tear?
    ensures var s := Run(START, es, maxChecks);
      && "w" in s.budgets && s.budgets["w"].used == 0.0 && |s.rows| == 1
      && s.rows[0].stage == Releasing && s.rows[0].row.status == Open && s.rows[0].row.amount == 5.0
      && s.rows[0].row.workflowId == "w" && s.rows[0].releases == 1
  {
    es := [];
    var a, b, c := Init("w", 10.0), Arrive("w", 5.0), Hold(0, Rzp, "x", "pout", Queued);
    var d, f := LeavePending(0), Recheck(0, Reversed);
    RunSnoc([], a, maxChecks);
    RunSnoc([] + [a], b, maxChecks);
    RunSnoc([] + [a] + [b], c, maxChecks);
    RunSnoc([] + [a] + [b] + [c], d, maxChecks);
    RunSnoc([] + [a] + [b] + [c] + [d], f, maxChecks);
    es := [] + [a] + [b] + [c] + [d] + [f];
  }

  /** A recheck round that dies after `rollback_budget` releases the same hold again on the next round. */
  lemma TornRoundReleasesTwice(maxChecks: nat)
    ensures exists es :: var s := Run(START, es, maxChecks);
      "w" in s.budgets && |s.rows| == 1 && s.rows[0].releases >= 2 && s.budgets["w"].used == -5.0
  {
    var es := HeldThenFailed(maxChecks);
    var again := Recheck(0, Reversed);
    var s, s1 := Run(START, es, maxChecks), Run(START, es + [Tear(0)], maxChecks);
    RunSnoc(es, Tear(0), maxChecks);
    RunSnoc(es + [Tear(0)], again, maxChecks);
    hide Run;
    assert s1 == TearRow(s, 0);
    assert Run(START, es + [Tear(0)] + [again], maxChecks) == RecheckRow(s1, 0, Reversed, maxChecks);
    assert RecheckRow(s1, 0, Reversed, maxChecks).budgets["w"].used == -5.0;
  }
}
