/**
 The rows db/client.py keeps in Postgres, and what each of its UPDATE and INSERT
 statements does to them. The `Database` class runs these statements; the protocols
 over many concurrent requests are built from the same functions.
 */
module Tables {
  import opened Wrappers
  import opened Schemas
  import opened Payouts

  // ---- workflows ----

  datatype Budget = Budget(limit: real, used: real)

  datatype Reservation = Reservation(ok: bool, used: real, limit: real)

  type Budgets = map<string, Budget>

  function CreateWorkflow(ws: Budgets, wid: string, limit: real): Budgets {
    if wid in ws then ws else ws[wid := Budget(limit, 0.0)]
  }

  predicate CanReserve(ws: Budgets, wid: string, amount: real) {
    wid in ws && ws[wid].used + amount <= ws[wid].limit
  }

  function AddUsed(ws: Budgets, wid: string, delta: real): Budgets {
    if wid in ws then ws[wid := Budget(ws[wid].limit, ws[wid].used + delta)] else ws
  }

  function Reserve(ws: Budgets, wid: string, amount: real): Budgets {
    if CanReserve(ws, wid, amount) then AddUsed(ws, wid, amount) else ws
  }

  function ReserveReply(ws: Budgets, wid: string, amount: real): Reservation {
    if CanReserve(ws, wid, amount) then Reservation(true, ws[wid].used + amount, ws[wid].limit)
    else if wid in ws then Reservation(false, ws[wid].used, ws[wid].limit)
    else Reservation(false, 0.0, 0.0)
  }

  function Rollback(ws: Budgets, wid: string, amount: real): Budgets {
    AddUsed(ws, wid, -amount)
  }

  function Commit(ws: Budgets, wid: string, expected: real, actual: real): Budgets {
    if expected == actual then ws else AddUsed(ws, wid, actual - expected)
  }

  // ---- pending_payouts ----

  datatype PayoutStatus = Open | ResolvedSettled | ResolvedFailed | Exhausted

  datatype PayoutRow = PayoutRow(
    workflowId: string, merchant: MerchantId, payee: string, amount: real, payoutId: string,
    stepId: string, rzpStatus: RzpStatus, checksDone: nat, status: PayoutStatus)

  function Touched(row: PayoutRow, s: RzpStatus): PayoutRow {
    row.(checksDone := row.checksDone + 1, rzpStatus := s)
  }

  function ResolvedAs(row: PayoutRow, status: PayoutStatus, s: RzpStatus): PayoutRow {
    row.(status := status, rzpStatus := s, checksDone := row.checksDone + 1)
  }

  // ---- circuit_breakers ----

  const BREAKER_THRESHOLD := 3

  datatype Breaker = Breaker(failures: nat, isOpen: bool)

  type Breakers = map<MerchantId, Breaker>

  function RecordFailure(bs: Breakers, m: MerchantId): Breakers {
    if m in bs then
      bs[m := Breaker(bs[m].failures + 1, bs[m].failures + 1 >= BREAKER_THRESHOLD || bs[m].isOpen)]
    else bs[m := Breaker(1, false)]
  }

  function ResetBreaker(bs: Breakers, m: MerchantId): Breakers {
    if m in bs then bs[m := Breaker(0, false)] else bs
  }

  predicate BreakerOpen(bs: Breakers, m: MerchantId) {
    m in bs && bs[m].isOpen
  }

  // ---- dlq_refunds ----

  datatype DlqRow = DlqRow(workflowId: string, merchant: MerchantId, stepId: string, amount: real, settlementRef: string)

  // ---- transaction_steps ----

  /** The steps of one workflow, oldest first. */
  function StepsOf(ledger: seq<Entry>, wid: string): seq<Entry> {
    if ledger == [] then []
    else StepsOf(ledger[..|ledger| - 1], wid)
         + if ledger[|ledger| - 1].workflowId == wid then [ledger[|ledger| - 1]] else []
  }

  function SeenRefs(ledger: seq<Entry>, wid: string): set<string> {
    set e | e in ledger && e.workflowId == wid && e.actual.settlementRef != "" :: e.actual.settlementRef
  }

  /** `ORDER BY created_at ASC` over the rows still pending: their ids, oldest first. */
  function OpenIds(rows: seq<PayoutRow>, n: nat): (ids: seq<nat>)
    requires n <= |rows|
    ensures forall k :: 0 <= k < |ids| ==> ids[k] < n && rows[ids[k]].status == Open
    ensures forall j, k :: 0 <= j < k < |ids| ==> ids[j] < ids[k]
    ensures forall i :: 0 <= i < n && rows[i].status == Open ==> i in ids
  {
    if n == 0 then [] else OpenIds(rows, n - 1) + if rows[n - 1].status == Open then [n - 1] else []
  }

  // ---- idempotency_keys ----

  /** The cached reply of a completed `/pay`. */
  datatype Body = Body(stepId: string, status: Status, reconciliation: Reconciliation, used: real, limit: real)

  /** INSERT ... ON CONFLICT DO NOTHING */
  function SaveResponse(responses: map<string, Body>, key: string, body: Body): map<string, Body> {
    if key in responses then responses else responses[key := body]
  }

  // ---- agent_wallet ----

  /** Dates are day numbers. */
  datatype Wallet = Wallet(perTxnLimit: real, dailyLimit: real, spentToday: real, lastReset: int)

  type Wallets = map<string, Wallet>

  const DEFAULT_PER_TXN := 25000.0
  const DEFAULT_DAILY := 75000.0

  function EnsureWallet(ws: Wallets, agent: string, today: int): Wallets {
    if agent in ws then ws else ws[agent := Wallet(DEFAULT_PER_TXN, DEFAULT_DAILY, 0.0, today)]
  }

  function ResetSpend(ws: Wallets, agent: string, today: int): Wallets {
    if agent in ws then ws[agent := ws[agent].(spentToday := 0.0, lastReset := today)] else ws
  }

  function AddSpend(ws: Wallets, agent: string, amount: real): Wallets {
    if agent in ws then ws[agent := ws[agent].(spentToday := ws[agent].spentToday + amount)] else ws
  }
}
