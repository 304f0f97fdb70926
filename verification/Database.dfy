/** db/client.py: the statements as methods on the database's tables. */
module Database {
  import opened Wrappers
  import opened Schemas
  import opened Payouts
  import opened Tables

  class Database {
    var budgets: Budgets
    var payouts: seq<PayoutRow>
    var ledger: seq<Entry>
    var responses: map<string, Body>
    var wallets: Wallets
    var breakers: Breakers
    var dlq: seq<DlqRow>

    constructor ()
      ensures budgets == map[] && payouts == [] && ledger == [] && responses == map[]
      ensures wallets == map[] && breakers == map[] && dlq == []
    {
      budgets, payouts, ledger, responses := map[], [], [], map[];
      wallets, breakers, dlq := map[], map[], [];
    }

    // ---- workflows ----

    method CreateWorkflow(wid: string, limit: real)
      modifies this`budgets
      ensures budgets == Tables.CreateWorkflow(old(budgets), wid, limit)
    {
      if wid !in budgets {
        budgets := budgets[wid := Budget(limit, 0.0)];
      }
    }

    method ReserveBudget(wid: string, amount: real) returns (r: Reservation)
      modifies this`budgets
      ensures budgets == Tables.Reserve(old(budgets), wid, amount)
      ensures r == ReserveReply(old(budgets), wid, amount)
      ensures r.ok <==> wid in old(budgets) && old(budgets)[wid].used + amount <= old(budgets)[wid].limit
      ensures wid in budgets ==> r.used == budgets[wid].used && r.limit == budgets[wid].limit
      ensures wid !in budgets ==> r == Reservation(false, 0.0, 0.0)
    {
      if wid in budgets && budgets[wid].used + amount <= budgets[wid].limit {
        budgets := budgets[wid := Budget(budgets[wid].limit, budgets[wid].used + amount)];
        return Reservation(true, budgets[wid].used, budgets[wid].limit);
      }
      if wid in budgets {
        return Reservation(false, budgets[wid].used, budgets[wid].limit);
      }
      r := Reservation(false, 0.0, 0.0);
    }

    method RollbackBudget(wid: string, amount: real)
      modifies this`budgets
      ensures budgets == Tables.Rollback(old(budgets), wid, amount)
    {
      if wid in budgets {
        budgets := budgets[wid := Budget(budgets[wid].limit, budgets[wid].used - amount)];
      }
    }

    method CommitBudget(wid: string, expected: real, actual: real)
      modifies this`budgets
      ensures budgets == Tables.Commit(old(budgets), wid, expected, actual)
    {
      if expected == actual {
        return;
      }
      var diff := actual - expected;
      if wid in budgets {
        budgets := budgets[wid := Budget(budgets[wid].limit, budgets[wid].used + diff)];
      }
    }

    method GetBudgetState(wid: string) returns (used: real, limit: real)
      ensures wid in budgets ==> used == budgets[wid].used && limit == budgets[wid].limit
      ensures wid !in budgets ==> used == 0.0 && limit == 0.0
    {
      if wid in budgets {
        return budgets[wid].used, budgets[wid].limit;
      }
      return 0.0, 0.0;
    }

    // ---- transaction_steps ----

    method WriteTransactionStep(entry: Entry)
      modifies this`ledger
      ensures ledger == old(ledger) + [entry]
    {
      ledger := ledger + [entry];
    }

    method GetWorkflowSteps(wid: string) returns (steps: seq<Entry>)
      ensures steps == StepsOf(ledger, wid)
    {
      steps := [];
      var i := 0;
      while i < |ledger|
        invariant 0 <= i <= |ledger|
        invariant steps == StepsOf(ledger[..i], wid)
      {
        assert ledger[..i + 1][..i] == ledger[..i];
        if ledger[i].workflowId == wid {
          steps := steps + [ledger[i]];
        }
        i := i + 1;
      }
      assert ledger[..i] == ledger;
    }

    // ---- pending_payouts ----

    method CreatePendingPayout(wid: string, merchant: MerchantId, payee: string, amount: real, payoutId: string, s: RzpStatus)
      returns (id: nat)
      modifies this`payouts
      ensures id == |old(payouts)|
      ensures payouts == old(payouts) + [PayoutRow(wid, merchant, payee, amount, payoutId, "", s, 0, Open)]
    {
      id := |payouts|;
      payouts := payouts + [PayoutRow(wid, merchant, payee, amount, payoutId, "", s, 0, Open)];
    }

    method SetPendingPayoutStepId(id: nat, stepId: string)
      modifies this`payouts
      ensures payouts == if id < |old(payouts)| then old(payouts)[id := old(payouts)[id].(stepId := stepId)] else old(payouts)
    {
      if id < |payouts| {
        payouts := payouts[id := payouts[id].(stepId := stepId)];
      }
    }

    method GetOpenPendingPayouts() returns (ids: seq<nat>)
      ensures ids == OpenIds(payouts, |payouts|)
    {
      ids := [];
      var i := 0;
      while i < |payouts|
        invariant 0 <= i <= |payouts|
        invariant ids == OpenIds(payouts, i)
      {
        if payouts[i].status == Open {
          ids := ids + [i];
        }
        i := i + 1;
      }
    }

    method TouchPendingPayout(id: nat, s: RzpStatus) returns (checksDone: nat)
      modifies this`payouts
      ensures payouts == if id < |old(payouts)| then old(payouts)[id := Touched(old(payouts)[id], s)] else old(payouts)
      ensures checksDone == if id < |payouts| then payouts[id].checksDone else 0
    {
      if id < |payouts| {
        payouts := payouts[id := payouts[id].(checksDone := payouts[id].checksDone + 1, rzpStatus := s)];
        return payouts[id].checksDone;
      }
      checksDone := 0;
    }

    method ResolvePendingPayout(id: nat, status: PayoutStatus, s: RzpStatus)
      modifies this`payouts
      ensures payouts == if id < |old(payouts)| then old(payouts)[id := ResolvedAs(old(payouts)[id], status, s)] else old(payouts)
    {
      if id < |payouts| {
        payouts := payouts[id := payouts[id].(status := status, rzpStatus := s, checksDone := payouts[id].checksDone + 1)];
      }
    }

    // ---- idempotency_keys ----

    method GetIdempotencyResponse(key: string) returns (body: Option<Body>)
      ensures body == if key in responses then Some(responses[key]) else None
    {
      if key in responses {
        return Some(responses[key]);
      }
      body := None;
    }

    method SaveIdempotencyResponse(key: string, body: Body)
      modifies this`responses
      ensures responses == SaveResponse(old(responses), key, body)
    {
      if key !in responses {
        responses := responses[key := body];
      }
    }

    // ---- agent_wallet ----

    method FetchWallet(agent: string, today: int) returns (w: Wallet)
      modifies this`wallets
      ensures wallets == EnsureWallet(old(wallets), agent, today)
      ensures agent in wallets && w == wallets[agent]
    {
      if agent !in wallets {
        wallets := wallets[agent := Wallet(DEFAULT_PER_TXN, DEFAULT_DAILY, 0.0, today)];
      }
      w := wallets[agent];
    }

    method ResetWalletSpend(agent: string, today: int)
      modifies this`wallets
      ensures wallets == ResetSpend(old(wallets), agent, today)
    {
      if agent in wallets {
        wallets := wallets[agent := wallets[agent].(spentToday := 0.0, lastReset := today)];
      }
    }

    method IncrementWalletSpend(agent: string, amount: real)
      modifies this`wallets
      ensures wallets == AddSpend(old(wallets), agent, amount)
    {
      if agent in wallets {
        wallets := wallets[agent := wallets[agent].(spentToday := wallets[agent].spentToday + amount)];
      }
    }

    // ---- circuit_breakers and dlq_refunds ----

    method CheckCircuitBreaker(m: MerchantId) returns (isOpen: bool)
      ensures isOpen == BreakerOpen(breakers, m)
    {
      isOpen := m in breakers && breakers[m].isOpen;
    }

    method RecordMerchantFailure(m: MerchantId) returns (isOpen: bool)
      modifies this`breakers
      ensures breakers == Tables.RecordFailure(old(breakers), m)
      ensures isOpen == BreakerOpen(breakers, m)
    {
      if m !in breakers {
        breakers := breakers[m := Breaker(1, false)];
      } else {
        var failures := breakers[m].failures + 1;
        breakers := breakers[m := Breaker(failures, if failures >= BREAKER_THRESHOLD then true else breakers[m].isOpen)];
      }
      isOpen := breakers[m].isOpen;
    }

    method ResetCircuitBreaker(m: MerchantId)
      modifies this`breakers
      ensures breakers == Tables.ResetBreaker(old(breakers), m)
    {
      if m in breakers {
        breakers := breakers[m := Breaker(0, false)];
      }
    }

    method WriteDlqEntry(row: DlqRow)
      modifies this`dlq
      ensures dlq == old(dlq) + [row]
    {
      dlq := dlq + [row];
    }
  }
}
