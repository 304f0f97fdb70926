/** compensating_agent/pending_payout_worker.py: rechecking held payouts. */
module PendingPayoutWorker {
  import opened Wrappers
  import opened Schemas
  import opened Payouts
  import opened Tables
  import Database
  import P = BudgetProtocol

  /** The three tables a recheck writes. */
  datatype Books = Books(budgets: Budgets, payouts: seq<PayoutRow>, ledger: seq<Entry>)

  ghost function BooksOf(db: Database.Database): Books
    reads db
  {
    Books(db.budgets, db.payouts, db.ledger)
  }

  /** The follow-up ledger entry of a resolved payout. */
  function ResolutionStep(row: PayoutRow, status: Status, stepId: string): Entry {
    Entry(stepId, row.workflowId, PayoutResolution, row.merchant, Expected(row.amount, row.payee),
          Actual(row.amount, row.payee, row.payoutId, status), RawResponse(None, NoError))
  }

  function RecheckedRow(row: PayoutRow, poll: PollResult, maxChecks: nat): PayoutRow {
    match poll
    case PollRaised(_) => row
    case Polled(ConfirmedProcessed, _, s) => ResolvedAs(row, ResolvedSettled, s)
    case Polled(ConfirmedFailed, _, s) => ResolvedAs(row, ResolvedFailed, s)
    case Polled(NonTerminal, _, s) =>
      var touched := Touched(row, s);
      if touched.checksDone >= maxChecks then ResolvedAs(touched, Exhausted, s) else touched
  }

  predicate Confirms(poll: PollResult, c: Classification) {
    poll.Polled? && poll.classification == c
  }

  /** What one complete recheck of row `id` does; an exception while polling does nothing. */
  function Rechecked(b: Books, id: nat, poll: PollResult, maxChecks: nat, stepId: string): Books
    requires id < |b.payouts|
  {
    var row := b.payouts[id];
    Books(
      if Confirms(poll, ConfirmedFailed) then Rollback(b.budgets, row.workflowId, row.amount) else b.budgets,
      b.payouts[id := RecheckedRow(row, poll, maxChecks)],
      if Confirms(poll, ConfirmedProcessed) then b.ledger + [ResolutionStep(row, Settled, stepId)]
      else if Confirms(poll, ConfirmedFailed) then b.ledger + [ResolutionStep(row, Failed, stepId)]
      else b.ledger)
  }

  method RecheckOne(db: Database.Database, id: nat, row: PayoutRow, statuses: nat -> Read, maxChecks: nat, stepId: string)
    requires id < |db.payouts| && db.payouts[id] == row
    modifies db`budgets, db`payouts, db`ledger
    ensures BooksOf(db) == Rechecked(old(BooksOf(db)), id, Verdict(statuses, 0), maxChecks, stepId)
  {
    var result := PollPayout(statuses, 0);
    if result.PollRaised? {
      return;
    }
    if result.classification == ConfirmedProcessed {
      db.CommitBudget(row.workflowId, row.amount, row.amount);
      db.ResolvePendingPayout(id, ResolvedSettled, result.status);
      db.WriteTransactionStep(ResolutionStep(row, Settled, stepId));
    } else if result.classification == ConfirmedFailed {
      db.RollbackBudget(row.workflowId, row.amount);
      db.ResolvePendingPayout(id, ResolvedFailed, result.status);
      db.WriteTransactionStep(ResolutionStep(row, Failed, stepId));
    } else {
      var checksDone := db.TouchPendingPayout(id, result.status);
      if checksDone >= maxChecks {
        db.ResolvePendingPayout(id, Exhausted, result.status);
      }
    }
  }

  /** One cycle over the ids in `ids`, in order. `statuses(id)` is what polling that row's payout will return. */
  function Cycle(b: Books, ids: seq<nat>, statuses: nat -> (nat -> Read), maxChecks: nat, stepIds: nat -> string): (b': Books)
    requires forall k :: 0 <= k < |ids| ==> ids[k] < |b.payouts|
    ensures |b'.payouts| == |b.payouts|
  {
    if ids == [] then b
    else
      var last := ids[|ids| - 1];
      Rechecked(Cycle(b, ids[..|ids| - 1], statuses, maxChecks, stepIds), last, Verdict(statuses(last), 0), maxChecks, stepIds(last))
  }

  /** A row that is not among the ids is left alone by the cycle. */
  lemma {:induction false} CycleLeavesOthers(b: Books, ids: seq<nat>, statuses: nat -> (nat -> Read), maxChecks: nat,
                                             stepIds: nat -> string, i: nat)
    requires forall k :: 0 <= k < |ids| ==> ids[k] < |b.payouts|
    requires i < |b.payouts| && i !in ids
    ensures Cycle(b, ids, statuses, maxChecks, stepIds).payouts[i] == b.payouts[i]
  {
    if ids != [] {
      CycleLeavesOthers(b, ids[..|ids| - 1], statuses, maxChecks, stepIds, i);
    }
  }

  lemma CycleGoesOn(b: Books, ids: seq<nat>, k: nat, statuses: nat -> (nat -> Read), maxChecks: nat, stepIds: nat -> string)
    requires k < |ids| && forall j :: 0 <= j < |ids| ==> ids[j] < |b.payouts|
    ensures Cycle(b, ids[..k + 1], statuses, maxChecks, stepIds)
         == Rechecked(Cycle(b, ids[..k], statuses, maxChecks, stepIds), ids[k], Verdict(statuses(ids[k]), 0), maxChecks, stepIds(ids[k]))
  {
    hide Rechecked, Verdict;
    assert ids[..k + 1][..k] == ids[..k];
  }

  lemma NoRows(b: Books, ids: seq<nat>, statuses: nat -> (nat -> Read), maxChecks: nat, stepIds: nat -> string)
    ensures Cycle(b, ids[..0], statuses, maxChecks, stepIds) == b
  {}

  method RunOnce(db: Database.Database, statuses: nat -> (nat -> Read), maxChecks: nat, stepIds: nat -> string)
    modifies db`budgets, db`payouts, db`ledger
    ensures BooksOf(db) == Cycle(old(BooksOf(db)), OpenIds(old(db.payouts), |old(db.payouts)|), statuses, maxChecks, stepIds)
  {
    hide Rechecked, Verdict, Cycle, OpenIds;
    ghost var start := BooksOf(db);
    var ids := db.GetOpenPendingPayouts();
    var rows := db.payouts;
    var k := 0;
    NoRows(start, ids, statuses, maxChecks, stepIds);
    while k < |ids|
      invariant 0 <= k <= |ids| && ids == OpenIds(rows, |rows|) && start.payouts == rows
      invariant BooksOf(db) == Cycle(start, ids[..k], statuses, maxChecks, stepIds)
    {
      CycleLeavesOthers(start, ids[..k], statuses, maxChecks, stepIds, ids[k]);
      RecheckOne(db, ids[k], rows[ids[k]], statuses(ids[k]), maxChecks, stepIds(ids[k]));
      CycleGoesOn(start, ids, k, statuses, maxChecks, stepIds);
      k := k + 1;
    }
    assert ids[..k] == ids;
  }

  /** The last recheck of a cycle changes its own row only. */
  lemma LastRecheck(b: Books, ids: seq<nat>, statuses: nat -> (nat -> Read), maxChecks: nat, stepIds: nat -> string, i: nat)
    requires ids != [] && (forall k :: 0 <= k < |ids| ==> ids[k] < |b.payouts|) && i < |b.payouts|
    ensures var before, last := Cycle(b, ids[..|ids| - 1], statuses, maxChecks, stepIds), ids[|ids| - 1];
      Cycle(b, ids, statuses, maxChecks, stepIds).payouts[i] ==
        if i == last then RecheckedRow(before.payouts[i], Verdict(statuses(i), 0), maxChecks) else before.payouts[i]
  {
    hide Verdict, RecheckedRow;
  }

  lemma OpenIdsUpTo(rows: seq<PayoutRow>, n: nat)
    requires 0 < n <= |rows|
    ensures var ids, init := OpenIds(rows, n), OpenIds(rows, n - 1);
      if rows[n - 1].status == Open then ids != [] && ids[..|ids| - 1] == init && ids[|ids| - 1] == n - 1 else ids == init
  {}

  /**
   A cycle decides every row on its own: a row that was pending is rechecked once
   against its own payout, a row that was not is untouched.
   */
  lemma {:induction false} CycleDecidesEachRow(b: Books, n: nat, statuses: nat -> (nat -> Read), maxChecks: nat, stepIds: nat -> string, i: nat)
    requires i < n <= |b.payouts|
    ensures Cycle(b, OpenIds(b.payouts, n), statuses, maxChecks, stepIds).payouts[i] ==
      if b.payouts[i].status == Open then RecheckedRow(b.payouts[i], Verdict(statuses(i), 0), maxChecks) else b.payouts[i]
  {
    hide Cycle, OpenIds, Verdict, RecheckedRow;
    OpenIdsUpTo(b.payouts, n);
    if i < n - 1 {
      CycleDecidesEachRow(b, n - 1, statuses, maxChecks, stepIds, i);
    } else {
      CycleLeavesOthers(b, OpenIds(b.payouts, n - 1), statuses, maxChecks, stepIds, i);
    }
    if b.payouts[n - 1].status == Open {
      LastRecheck(b, OpenIds(b.payouts, n), statuses, maxChecks, stepIds, i);
    }
  }

  // ---- what a cycle does, by what each payout's status reads ----

  /** A pending row after a recheck that read its payout once: by the status, or unchanged when reading raised. */
  function RowAfter(row: PayoutRow, read: Read, maxChecks: nat): PayoutRow {
    if read.ReadRaised? then row
    else
      var s := read.status;
      PayoutRow(
        row.workflowId, row.merchant, row.payee, row.amount, row.payoutId, row.stepId, s,
        row.checksDone + (if s == Processed || Unpaid(s) || row.checksDone + 1 < maxChecks then 1 else 2),
        if s == Processed then ResolvedSettled
        else if Unpaid(s) then ResolvedFailed
        else if row.checksDone + 1 >= maxChecks then Exhausted
        else Open)
  }

  /** One read decides: the worker allows itself no re-poll. */
  lemma OneReadDecides(statuses: nat -> Read)
    ensures statuses(0).ReadRaised? ==> Verdict(statuses, 0) == PollRaised(0)
    ensures statuses(0).Got? ==>
      var v := Verdict(statuses, 0);
      && v.Polled? && v.status == statuses(0).status
      && (v.classification == ConfirmedProcessed <==> v.status == Processed)
      && (v.classification == ConfirmedFailed <==> Unpaid(v.status))
  {
    VerdictNamesFirstDecisiveRead(statuses, 0, 0);
  }

  /**
   After a cycle each row that was pending is what its payout's status says: settled if
   processed, failed if reversed, rejected, cancelled or failed, exhausted if neither and
   it was its last check, else pending; the others stay.
   */
  lemma CycleFollowsStatuses(b: Books, statuses: nat -> (nat -> Read), maxChecks: nat, stepIds: nat -> string, i: nat)
    requires i < |b.payouts|
    ensures Cycle(b, OpenIds(b.payouts, |b.payouts|), statuses, maxChecks, stepIds).payouts[i] ==
      if b.payouts[i].status == Open then RowAfter(b.payouts[i], statuses(i)(0), maxChecks) else b.payouts[i]
  {
    hide Verdict, Cycle, OpenIds, RecheckedRow, RowAfter;
    CycleDecidesEachRow(b, |b.payouts|, statuses, maxChecks, stepIds, i);
    if b.payouts[i].status == Open { StatusDecidesRow(b.payouts[i], statuses(i), maxChecks); }
  }

  lemma StatusDecidesRow(row: PayoutRow, statuses: nat -> Read, maxChecks: nat)
    requires row.status == Open
    ensures RecheckedRow(row, Verdict(statuses, 0), maxChecks) == RowAfter(row, statuses(0), maxChecks)
  {
    hide Verdict, Unpaid;
    OneReadDecides(statuses);
  }

  /** The money of the rows among `ids`, in workflow wid, whose payout reads as not paid. */
  function FoundUnpaid(payouts: seq<PayoutRow>, ids: seq<nat>, statuses: nat -> (nat -> Read), wid: string): real
    requires forall k :: 0 <= k < |ids| ==> ids[k] < |payouts|
  {
    if ids == [] then 0.0
    else
      var last := ids[|ids| - 1];
      var read := statuses(last)(0);
      FoundUnpaid(payouts, ids[..|ids| - 1], statuses, wid)
        + if payouts[last].workflowId == wid && read.Got? && Unpaid(read.status) then payouts[last].amount else 0.0
  }

  /** The ledger rows a cycle adds: one for each payout that reads as processed, or as not paid, over the held amount. */
  function ResolutionsIn(payouts: seq<PayoutRow>, ids: seq<nat>, statuses: nat -> (nat -> Read), stepIds: nat -> string): seq<Entry>
    requires forall k :: 0 <= k < |ids| ==> ids[k] < |payouts|
  {
    if ids == [] then []
    else
      var last := ids[|ids| - 1];
      var read, row := statuses(last)(0), payouts[last];
      ResolutionsIn(payouts, ids[..|ids| - 1], statuses, stepIds)
        + if read.Got? && (read.status == Processed || Unpaid(read.status)) then
            [Entry(stepIds(last), row.workflowId, PayoutResolution, row.merchant, Expected(row.amount, row.payee),
                   Actual(row.amount, row.payee, row.payoutId, if read.status == Processed then Settled else Failed),
                   RawResponse(None, NoError))]
          else []
  }

  lemma RecheckFollowsStatus(b: Books, id: nat, statuses: nat -> Read, maxChecks: nat, stepId: string, wid: string)
    requires id < |b.payouts| && wid in b.budgets
    ensures var b' := Rechecked(b, id, Verdict(statuses, 0), maxChecks, stepId);
      var read, row := statuses(0), b.payouts[id];
      && wid in b'.budgets
      && b'.budgets[wid].limit == b.budgets[wid].limit
      && b'.budgets[wid].used ==
           b.budgets[wid].used - (if row.workflowId == wid && read.Got? && Unpaid(read.status) then row.amount else 0.0)
      && b'.ledger == b.ledger + ResolutionsIn([row], [0], (_: nat) => statuses, (_: nat) => stepId)
  {
    OneReadDecides(statuses);
    assert [0][..0] == [];
    hide Verdict;
  }

  /**
   What a cycle does to the books: the budget of a workflow falls by the held amounts of its
   payouts that read as reversed, rejected, cancelled or failed, and by nothing else, and
   the ledger gains one row for each of these, failed, and one for each processed, settled.
   */
  lemma {:induction false} CycleReleasesUnpaid(b: Books, ids: seq<nat>, statuses: nat -> (nat -> Read), maxChecks: nat,
                                               stepIds: nat -> string, wid: string)
    requires forall k :: 0 <= k < |ids| ==> ids[k] < |b.payouts|
    requires forall j, k :: 0 <= j < k < |ids| ==> ids[j] < ids[k]
    requires wid in b.budgets
    ensures var b' := Cycle(b, ids, statuses, maxChecks, stepIds);
      && wid in b'.budgets && b'.budgets[wid].limit == b.budgets[wid].limit
      && b'.budgets[wid].used == b.budgets[wid].used - FoundUnpaid(b.payouts, ids, statuses, wid)
      && b'.ledger == b.ledger + ResolutionsIn(b.payouts, ids, statuses, stepIds)
  {
    hide Verdict, Rechecked;
    if ids != [] {
      var init, last := ids[..|ids| - 1], ids[|ids| - 1];
      CycleReleasesUnpaid(b, init, statuses, maxChecks, stepIds, wid);
      CycleLeavesOthers(b, init, statuses, maxChecks, stepIds, last);
      var before := Cycle(b, init, statuses, maxChecks, stepIds);
      RecheckFollowsStatus(before, last, statuses(last), maxChecks, stepIds(last), wid);
      OneResolution(b.payouts, last, statuses, stepIds);
    }
  }

  lemma OneResolution(payouts: seq<PayoutRow>, id: nat, statuses: nat -> (nat -> Read), stepIds: nat -> string)
    requires id < |payouts|
    ensures ResolutionsIn([payouts[id]], [0], (_: nat) => statuses(id), (_: nat) => stepIds(id))
         == ResolutionsIn(payouts, [id], statuses, stepIds)
  {
    assert [0][..0] == [] && [id][..0] == [];
  }

  // ---- the worker as a participant of the concurrent protocol ----

  /** The tables are those of a protocol state in which no recheck round is half done. */
  ghost predicate Agrees(b: Books, s: P.System) {
    && b.budgets == s.budgets
    && |b.payouts| == |s.rows|
    && forall i :: 0 <= i < |s.rows| ==> b.payouts[i] == s.rows[i].row && s.rows[i].stage == P.Rest
  }

  /** The writes of one recheck, as protocol events. */
  function RecheckEvents(id: nat, poll: PollResult): seq<P.Event> {
    match poll
    case PollRaised(_) => []
    case Polled(_, _, s) => [P.Recheck(id, s), P.Resolve(id)]
  }

  lemma RunTwo(s: P.System, e: P.Event, f: P.Event, maxChecks: nat)
    ensures P.Run(s, [e, f], maxChecks) == P.Apply(P.Apply(s, e, maxChecks), f, maxChecks)
  {
    assert [e] + [f] == [e, f];
    P.RunAppend(s, [e], [f], maxChecks);
    P.RunOne(s, e, maxChecks);
    P.RunOne(P.Apply(s, e, maxChecks), f, maxChecks);
  }

  /** Both writes of one round, on a row at rest. */
  lemma RoundEffect(s: P.System, i: nat, attempts: nat, rzp: RzpStatus, maxChecks: nat)
    requires i < |s.rows| && s.rows[i].row.status == Open && s.rows[i].stage == P.Rest
    ensures var s' := P.Apply(P.Apply(s, P.Recheck(i, rzp), maxChecks), P.Resolve(i), maxChecks);
      var row := s.rows[i].row;
      && s'.budgets == (if Classify(rzp) == ConfirmedFailed then Rollback(s.budgets, row.workflowId, row.amount) else s.budgets)
      && |s'.rows| == |s.rows|
      && s'.rows[i].row == RecheckedRow(row, Polled(Classify(rzp), attempts, rzp), maxChecks) && s'.rows[i].stage == P.Rest
      && forall j :: 0 <= j < |s.rows| && j != i ==> s'.rows[j] == s.rows[j]
  {
    var s1 := P.Apply(s, P.Recheck(i, rzp), maxChecks);
    assert s1 == P.RecheckRow(s, i, rzp, maxChecks);
    match Classify(rzp)
    case ConfirmedProcessed => assert s1.rows[i].stage == P.Settling;
    case ConfirmedFailed => assert s1.rows[i].stage == P.Releasing;
    case NonTerminal =>
  }

  /** A recheck that is not interfered with is the protocol's two events on its row. */
  lemma RecheckIsProtocolRun(b: Books, s: P.System, id: nat, poll: PollResult, maxChecks: nat, stepId: string)
    requires Agrees(b, s) && id < |b.payouts| && b.payouts[id].status == Open
    requires poll.Polled? ==> poll.classification == Classify(poll.status)
    ensures Agrees(Rechecked(b, id, poll, maxChecks, stepId), P.Run(s, RecheckEvents(id, poll), maxChecks))
  {
    if poll.Polled? {
      RunTwo(s, P.Recheck(id, poll.status), P.Resolve(id), maxChecks);
      RoundEffect(s, id, poll.attemptsMade, poll.status, maxChecks);
    }
  }

  function CycleEvents(ids: seq<nat>, statuses: nat -> (nat -> Read)): seq<P.Event> {
    if ids == [] then []
    else CycleEvents(ids[..|ids| - 1], statuses) + RecheckEvents(ids[|ids| - 1], Verdict(statuses(ids[|ids| - 1]), 0))
  }

  /** A whole worker cycle is a run of the protocol, so everything proved of protocol runs holds of it. */
  lemma {:induction false} CycleIsProtocolRun(b: Books, s: P.System, ids: seq<nat>, statuses: nat -> (nat -> Read),
                                              maxChecks: nat, stepIds: nat -> string)
    requires Agrees(b, s)
    requires forall k :: 0 <= k < |ids| ==> ids[k] < |b.payouts| && b.payouts[ids[k]].status == Open
    requires forall j, k :: 0 <= j < k < |ids| ==> ids[j] < ids[k]
    ensures Agrees(Cycle(b, ids, statuses, maxChecks, stepIds), P.Run(s, CycleEvents(ids, statuses), maxChecks))
  {
    if ids != [] {
      var init, last := ids[..|ids| - 1], ids[|ids| - 1];
      CycleIsProtocolRun(b, s, init, statuses, maxChecks, stepIds);
      CycleLeavesOthers(b, init, statuses, maxChecks, stepIds, last);
      RecheckIsProtocolRun(Cycle(b, init, statuses, maxChecks, stepIds), P.Run(s, CycleEvents(init, statuses), maxChecks),
                           last, Verdict(statuses(last), 0), maxChecks, stepIds(last));
      P.RunAppend(s, CycleEvents(init, statuses), RecheckEvents(last, Verdict(statuses(last), 0)), maxChecks);
    }
  }
}
