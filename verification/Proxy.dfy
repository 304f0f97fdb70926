/** proxy/mcp_proxy.py: `/pay`, from the rate limiter to the cached reply. */
module Proxy {
  import opened Wrappers
  import opened Schemas
  import opened Payouts
  import opened Tables
  import opened ReconciliationEngine
  import RateLimiter
  import A = Authorization
  import Database
  import P = BudgetProtocol

  const AGENT := "primary_agent"
  const POLL_ATTEMPTS := 3

  /** Redis, as far as `/pay` uses it: rate-limit counters and the reply cache. */
  class Redis {
    var windows: map<string, RateLimiter.Window>
    var cache: map<string, Body>

    constructor ()
      ensures windows == map[] && cache == map[]
    {
      windows, cache := map[], map[];
    }

    method Incr(wid: string, now: real) returns (count: nat)
      modifies this`windows
      ensures windows == Counted(old(windows), wid, now)
      ensures wid in windows && count == windows[wid].count
    {
      if wid !in windows || now >= windows[wid].start + RateLimiter.WINDOW {
        windows := windows[wid := RateLimiter.Window(now, 0)];
      }
      windows := windows[wid := RateLimiter.Window(windows[wid].start, windows[wid].count + 1)];
      count := windows[wid].count;
    }

    method SetEx(key: string, body: Body)
      modifies this`cache
      ensures cache == old(cache)[key := body]
    {
      cache := cache[key := body];
    }
  }

  /** The outside of the proxy: a log of the payments handed to a gateway and of the compensation requests published. */
  class Outside {
    var gatewayCalls: seq<string>
    var compensations: seq<Entry>

    constructor ()
      ensures gatewayCalls == [] && compensations == []
    {
      gatewayCalls, compensations := [], [];
    }
  }

  function Counted(windows: map<string, RateLimiter.Window>, wid: string, now: real): map<string, RateLimiter.Window> {
    windows[wid := RateLimiter.Hit(if wid in windows then Some(windows[wid]) else None, now)]
  }

  // ---- requests and answers ----

  datatype PayRequest = PayRequest(workflowId: string, merchant: MerchantId, amount: real, payee: string, key: string)

  /** A mock merchant's reply to /charge. Missing keys are None. */
  datatype ChargeReply =
    | Json(code: int, status: Option<Status>, amount: Option<real>, payee: Option<string>, settlementRef: Option<string>, errorType: ErrorType)
    | ChargeTimeout
    | ChargeRaised

  /** What the payout API says: creation, one snapshot, and the stream the poll loop reads. */
  datatype PayoutReply =
    | Created(id: string, amount: real, forced: bool, snapshot: Read, statuses: nat -> Read, trouble: Trouble)
    | CreateRaised

  /** Where, inside the payout branch's `try`, a further exception strikes. */
  datatype Trouble = Smooth | BeforeRow | AfterRow | WhenSettled

  /** Where the process dies once a gateway has been called. */
  datatype Death = Survives | BeforeBudget | BeforeLedger | BeforeRecord

  datatype Answers = Answers(
    now: real, today: int, policy: seq<bool>, balance: A.BalanceAnswer,
    charge: ChargeReply, payout: PayoutReply, stepId: string, aegis: bool, death: Death)

  /** The gateway's outcome as `/pay` understands it. `holdFor` asks for a pending_payouts row. */
  datatype Charged = Charged(
    code: int, status: Status, amount: real, payee: string, settlementRef: string, errorType: ErrorType,
    holdFor: Option<RzpStatus>)

  function FailedCharge(req: PayRequest, code: int, error: ErrorType): Charged {
    Charged(code, Failed, req.amount, req.payee, "", error, None)
  }

  function MockCharge(req: PayRequest, reply: ChargeReply): Charged {
    match reply
    case ChargeTimeout => FailedCharge(req, 408, Timeout)
    case ChargeRaised => FailedCharge(req, 503, NoError)
    case Json(code, status, amount, payee, settlementRef, error) =>
      if code != 200 then FailedCharge(req, code, error)
      else Charged(200,
                   if status.Some? then status.value else Failed,
                   if amount.Some? then amount.value else req.amount,
                   if payee.Some? then payee.value else req.payee,
                   if settlementRef.Some? then settlementRef.value else "",
                   error, None)
  }

  /** The status a payout's poll gives the payment; None when reading it raised. */
  function PayoutStatusOf(req: PayRequest, p: PayoutReply): Option<(Status, RzpStatus)>
    requires p.Created?
  {
    if req.merchant == RzpPending && p.forced && p.id != "" then
      if p.snapshot.ReadRaised? then None else Some((Pending, p.snapshot.status))
    else if p.id == "" then Some((Failed, OtherRzpStatus("")))
    else
      match Verdict(p.statuses, POLL_ATTEMPTS)
      case PollRaised(_) => None
      case Polled(ConfirmedProcessed, _, s) => Some((Settled, s))
      case Polled(ConfirmedFailed, _, s) => Some((Failed, s))
      case Polled(NonTerminal, _, s) => Some((Pending, s))
  }

  function PayoutCharge(req: PayRequest, p: PayoutReply): Charged {
    if p.CreateRaised? then FailedCharge(req, 502, NoError)
    else
      match PayoutStatusOf(req, p)
      case None => FailedCharge(req, 502, NoError)
      case Some((status, s)) =>
        var settled := Charged(200, status, p.amount, req.payee, p.id, NoError, None);
        if status == Pending then
          if p.trouble == BeforeRow then FailedCharge(req, 502, NoError)
          else if p.trouble == AfterRow then FailedCharge(req, 502, NoError).(holdFor := Some(s))
          else settled.(holdFor := Some(s))
        else if status == Settled && p.trouble == WhenSettled then FailedCharge(req, 502, NoError)
        else settled
  }

  function ChargeOf(req: PayRequest, ans: Answers): Charged {
    if UsesRealPayout(req.merchant) then PayoutCharge(req, ans.payout) else MockCharge(req, ans.charge)
  }

  /** The payout id a held row is filed under. */
  function PayoutId(ans: Answers): string {
    if ans.payout.Created? then ans.payout.id else ""
  }

  datatype Response =
    | TooManyRequests
    | Replied(body: Body)
    | AuthorizationBlocked
    | MandateExceeded(stepId: string)
    | UnknownMerchant
    | Crashed

  /** Everything a request can change. */
  datatype State = State(
    windows: map<string, RateLimiter.Window>, cache: map<string, Body>,
    budgets: Budgets, payouts: seq<PayoutRow>, ledger: seq<Entry>, responses: map<string, Body>, wallets: Wallets,
    gatewayCalls: seq<string>, compensations: seq<Entry>)

  ghost function View(redis: Redis, db: Database.Database, outside: Outside): State
    reads redis, db, outside
  {
    State(redis.windows, redis.cache, db.budgets, db.payouts, db.ledger, db.responses, db.wallets,
          outside.gatewayCalls, outside.compensations)
  }

  function MandateRefusal(req: PayRequest, stepId: string): Entry {
    Entry(stepId, req.workflowId, Payment, req.merchant, Expected(req.amount, req.payee),
          Actual(req.amount, req.payee, "", Failed), RawResponse(Some(403), MandateLimitExceeded))
  }

  function PaymentEntry(req: PayRequest, c: Charged, stepId: string): Entry {
    Entry(stepId, req.workflowId, Payment, req.merchant, Expected(req.amount, req.payee),
          Actual(c.amount, c.payee, c.settlementRef, c.status), RawResponse(Some(c.code), c.errorType))
  }

  function AuthCall(req: PayRequest, ans: Answers): A.Call {
    A.Call(ans.today, req.amount, ans.policy, req.merchant, ans.balance)
  }

  // ---- what one request does ----

  /** Step 4: commit, hold or roll back the reservation. */
  function SettleBudget(budgets: Budgets, req: PayRequest, c: Charged): Budgets {
    if c.status == Settled then Commit(budgets, req.workflowId, req.amount, c.amount)
    else if c.status == Pending then budgets
    else Rollback(budgets, req.workflowId, req.amount)
  }

  function HeldRows(payouts: seq<PayoutRow>, req: PayRequest, c: Charged, payoutId: string, stepId: string): seq<PayoutRow> {
    if c.holdFor.None? then payouts
    else payouts + [PayoutRow(req.workflowId, req.merchant, req.payee, req.amount, payoutId, stepId, c.holdFor.value, 0, Open)]
  }

  function ReplyBody(budgets: Budgets, ledger: seq<Entry>, req: PayRequest, entry: Entry): Body {
    var seen := SeenRefs(ledger, req.workflowId) - {entry.actual.settlementRef};
    Body(entry.stepId, entry.actual.status, Reconcile(entry, seen),
         if req.workflowId in budgets then budgets[req.workflowId].used else 0.0,
         if req.workflowId in budgets then budgets[req.workflowId].limit else 0.0)
  }

  /** From the gateway call on: the reservation has been made. */
  function Forwarded(s: State, req: PayRequest, ans: Answers): (State, Response) {
    var c := ChargeOf(req, ans);
    var called := s.(gatewayCalls := s.gatewayCalls + [req.key],
                     payouts := HeldRows(s.payouts, req, c, PayoutId(ans), ""));
    if ans.death == BeforeBudget then (called, Crashed)
    else
      var booked := called.(budgets := SettleBudget(s.budgets, req, c));
      if ans.death == BeforeLedger then (booked, Crashed)
      else
        var entry := PaymentEntry(req, c, ans.stepId);
        var written := booked.(ledger := s.ledger + [entry], payouts := HeldRows(s.payouts, req, c, PayoutId(ans), ans.stepId));
        if ans.death == BeforeRecord then (written, Crashed)
        else
          var body := ReplyBody(written.budgets, written.ledger, req, entry);
          (written.(responses := SaveResponse(s.responses, req.key, body), cache := s.cache[req.key := body]), Replied(body))
  }

  /** A request that is neither rate-limited nor a replay. */
  function Fresh(s: State, req: PayRequest, ans: Answers): (State, Response) {
    var auth := A.Decide(s.wallets, AGENT, AuthCall(req, ans));
    var s1 := s.(wallets := auth.wallets);
    if auth.decision == A.Block then (s1, AuthorizationBlocked)
    else if auth.decision == A.Raised then (s1, Crashed)
    else if !CanReserve(s.budgets, req.workflowId, req.amount) then
      var entry := MandateRefusal(req, ans.stepId);
      (s1.(ledger := s.ledger + [entry], compensations := if ans.aegis then s.compensations + [entry] else s.compensations),
       MandateExceeded(ans.stepId))
    else
      var s2 := s1.(budgets := Tables.Reserve(s.budgets, req.workflowId, req.amount));
      if !UsesRealPayout(req.merchant) && !Registered(req.merchant) then
        (s2.(budgets := Rollback(s2.budgets, req.workflowId, req.amount)), UnknownMerchant)
      else Forwarded(s2, req, ans)
  }

  function Paid(s: State, req: PayRequest, ans: Answers): (State, Response) {
    var s1 := s.(windows := Counted(s.windows, req.workflowId, ans.now));
    if !RateLimiter.Admits(s1.windows[req.workflowId]) then (s1, TooManyRequests)
    else if req.key in s.cache then (s1, Replied(s.cache[req.key]))
    else if req.key in s.responses then
      (s1.(cache := s.cache[req.key := s.responses[req.key]]), Replied(s.responses[req.key]))
    else Fresh(s1, req, ans)
  }

  /** The payout branch up to the classification of the payment. */
  method CallPayoutApi(req: PayRequest, p: PayoutReply) returns (c: Charged)
    ensures c == PayoutCharge(req, p)
  {
    if p.CreateRaised? {
      return FailedCharge(req, 502, NoError);
    }
    var status: Status;
    var s: RzpStatus;
    if req.merchant == RzpPending && p.forced && p.id != "" {
      if p.snapshot.ReadRaised? {
        return FailedCharge(req, 502, NoError);
      }
      status, s := Pending, p.snapshot.status;
    } else if p.id == "" {
      status, s := Failed, OtherRzpStatus("");
    } else {
      var poll := PollPayout(p.statuses, POLL_ATTEMPTS);
      if poll.PollRaised? {
        return FailedCharge(req, 502, NoError);
      }
      s := poll.status;
      status := match poll.classification
        case ConfirmedProcessed => Settled
        case ConfirmedFailed => Failed
        case NonTerminal => Pending;
    }
    c := Charged(200, status, p.amount, req.payee, p.id, NoError, None);
    if status == Pending {
      if p.trouble == BeforeRow {
        return FailedCharge(req, 502, NoError);
      }
      c := c.(holdFor := Some(s));
      if p.trouble == AfterRow {
        return FailedCharge(req, 502, NoError).(holdFor := Some(s));
      }
    } else if status == Settled && p.trouble == WhenSettled {
      return FailedCharge(req, 502, NoError);
    }
  }

  method Pay(redis: Redis, db: Database.Database, outside: Outside, req: PayRequest, ans: Answers) returns (r: Response)
    modifies redis, db`budgets, db`payouts, db`ledger, db`responses, db`wallets, outside
    ensures (View(redis, db, outside), r) == Paid(old(View(redis, db, outside)), req, ans)
  {
    hide Forwarded, Reconcile, A.Decide, ChargeOf;
    var count := redis.Incr(req.workflowId, ans.now);
    if count > RateLimiter.MAX_PER_WINDOW {
      return TooManyRequests;
    }
    if req.key in redis.cache {
      return Replied(redis.cache[req.key]);
    }
    var stored := db.GetIdempotencyResponse(req.key);
    if stored.Some? {
      redis.SetEx(req.key, stored.value);
      return Replied(stored.value);
    }
    var decision, steps := A.Authorize(db, AGENT, AuthCall(req, ans));
    if decision == A.Block {
      return AuthorizationBlocked;
    }
    if decision == A.Raised {
      return Crashed;
    }
    var reservation := db.ReserveBudget(req.workflowId, req.amount);
    if !reservation.ok {
      var refusal := MandateRefusal(req, ans.stepId);
      db.WriteTransactionStep(refusal);
      if ans.aegis {
        outside.compensations := outside.compensations + [refusal];
      }
      return MandateExceeded(ans.stepId);
    }
    if !UsesRealPayout(req.merchant) && !Registered(req.merchant) {
      db.RollbackBudget(req.workflowId, req.amount);
      return UnknownMerchant;
    }
    r := Forward(redis, db, outside, req, ans);
  }

  /** Step 4. */
  method Book(db: Database.Database, req: PayRequest, c: Charged)
    modifies db`budgets
    ensures db.budgets == SettleBudget(old(db.budgets), req, c)
  {
    if c.status == Settled {
      db.CommitBudget(req.workflowId, req.amount, c.amount);
    } else if c.status != Pending {
      db.RollbackBudget(req.workflowId, req.amount);
    }
  }

  /** Step 6 and the cached reply. */
  method Reply(redis: Redis, db: Database.Database, req: PayRequest, entry: Entry) returns (body: Body)
    modifies redis`cache, db`responses
    ensures body == ReplyBody(db.budgets, db.ledger, req, entry)
    ensures db.responses == SaveResponse(old(db.responses), req.key, body)
    ensures redis.cache == old(redis.cache)[req.key := body]
  {
    hide Reconcile;
    var recon := Reconcile(entry, SeenRefs(db.ledger, req.workflowId) - {entry.actual.settlementRef});
    var used, limit := db.GetBudgetState(req.workflowId);
    body := Body(entry.stepId, entry.actual.status, recon, used, limit);
    db.SaveIdempotencyResponse(req.key, body);
    redis.SetEx(req.key, body);
  }

  method Forward(redis: Redis, db: Database.Database, outside: Outside, req: PayRequest, ans: Answers) returns (r: Response)
    modifies redis`cache, db`budgets, db`payouts, db`ledger, db`responses, outside`gatewayCalls
    ensures (View(redis, db, outside), r) == Forwarded(old(View(redis, db, outside)), req, ans)
  {
    hide PayoutCharge, PayoutId, ReplyBody, SettleBudget, SaveResponse, PaymentEntry;
    var c: Charged;
    var row: Option<nat> := None;
    outside.gatewayCalls := outside.gatewayCalls + [req.key];
    if UsesRealPayout(req.merchant) {
      c := CallPayoutApi(req, ans.payout);
      if c.holdFor.Some? {
        var id := db.CreatePendingPayout(req.workflowId, req.merchant, req.payee, req.amount, PayoutId(ans), c.holdFor.value);
        row := Some(id);
      }
    } else {
      c := MockCharge(req, ans.charge);
    }
    if ans.death == BeforeBudget {
      return Crashed;
    }
    Book(db, req, c);
    if ans.death == BeforeLedger {
      return Crashed;
    }
    var entry := PaymentEntry(req, c, ans.stepId);
    db.WriteTransactionStep(entry);
    if row.Some? {
      db.SetPendingPayoutStepId(row.value, ans.stepId);
    }
    assert db.payouts == HeldRows(old(db.payouts), req, c, PayoutId(ans), ans.stepId);
    if ans.death == BeforeRecord {
      return Crashed;
    }
    var body := Reply(redis, db, req, entry);
    r := Replied(body);
  }

  // ---- requests run one at a time ----

  /** `/init_workflow`, a request, or the expiry of one cached reply. */
  datatype Act = InitWorkflow(workflowId: string, limit: real) | Request(req: PayRequest, ans: Answers) | Expire(key: string)

  const START := State(map[], map[], map[], [], [], map[], map[], [], [])

  function Perform(s: State, act: Act): State {
    match act
    case InitWorkflow(wid, limit) => s.(budgets := Tables.CreateWorkflow(s.budgets, wid, limit))
    case Request(req, ans) => Paid(s, req, ans).0
    case Expire(key) => s.(cache := s.cache - {key})
  }

  function History(s: State, acts: seq<Act>): State {
    if acts == [] then s else Perform(History(s, acts[..|acts| - 1]), acts[|acts| - 1])
  }

  /** Did this act reach a gateway for `key` and die before its reply was recorded? */
  predicate Lost(s: State, act: Act, key: string) {
    act.Request? && act.req.key == key && Paid(s, act.req, act.ans).1 == Crashed
    && |Paid(s, act.req, act.ans).0.gatewayCalls| > |s.gatewayCalls|
  }

  function LostCalls(s: State, acts: seq<Act>, key: string): nat {
    if acts == [] then 0
    else LostCalls(s, acts[..|acts| - 1], key) + if Lost(History(s, acts[..|acts| - 1]), acts[|acts| - 1], key) then 1 else 0
  }

  ghost predicate CacheAgrees(s: State) {
    forall k :: k in s.cache ==> k in s.responses && s.cache[k] == s.responses[k]
  }

  /** The gateway calls a key accounts for: one if its reply is recorded, and one for each call that was lost. */
  ghost predicate CallsAccounted(s: State, key: string, lost: nat) {
    multiset(s.gatewayCalls)[key] == lost + if key in s.responses then 1 else 0
  }

  ghost predicate RepliesKept(s: State, s': State) {
    forall k :: k in s.responses ==> k in s'.responses && s'.responses[k] == s.responses[k]
  }

  /** The reservation under which a fresh request is forwarded. */
  function ReservedFor(s: State, req: PayRequest, ans: Answers): State {
    s.(wallets := A.Decide(s.wallets, AGENT, AuthCall(req, ans)).wallets,
       budgets := Tables.Reserve(s.budgets, req.workflowId, req.amount))
  }

  /** A fresh request is either forwarded, or touches neither replies nor gateways. */
  lemma FreshForwardsOrStops(s: State, req: PayRequest, ans: Answers)
    ensures var (s', r) := Fresh(s, req, ans);
      || (s', r) == Forwarded(ReservedFor(s, req, ans), req, ans)
      || (s'.gatewayCalls == s.gatewayCalls && s'.responses == s.responses && s'.cache == s.cache && !r.Replied?)
  {
    hide Forwarded, A.Decide, CanReserve, Tables.Reserve, Rollback;
  }

  lemma ForwardRecordsOnce(s: State, req: PayRequest, ans: Answers)
    requires CacheAgrees(s) && req.key !in s.responses
    ensures var (s', r) := Forwarded(s, req, ans);
      && CacheAgrees(s') && RepliesKept(s, s')
      && s'.gatewayCalls == s.gatewayCalls + [req.key]
      && (r == Crashed || (r.Replied? && s'.responses == s.responses[req.key := r.body]))
      && (r == Crashed ==> s'.responses == s.responses)
  {
    hide ChargeOf, ReplyBody, SettleBudget, HeldRows, PaymentEntry;
  }

  /** The replies and gateway calls of one request, in terms of what was recorded before it. */
  lemma PaidOnReplies(s: State, req: PayRequest, ans: Answers)
    requires CacheAgrees(s)
    ensures var (s', r) := Paid(s, req, ans);
      && CacheAgrees(s') && RepliesKept(s, s')
      && (s'.gatewayCalls == s.gatewayCalls || s'.gatewayCalls == s.gatewayCalls + [req.key])
      && (s'.gatewayCalls == s.gatewayCalls ==> s'.responses == s.responses)
      && (s'.gatewayCalls != s.gatewayCalls ==>
            && req.key !in s.responses
            && s'.responses == if r == Crashed then s.responses else s.responses[req.key := s'.responses[req.key]])
      && (s'.gatewayCalls != s.gatewayCalls && r != Crashed ==> req.key in s'.responses)
      && (r.Replied? ==> req.key in s'.responses && r.body == s'.responses[req.key])
  {
    var s1 := s.(windows := Counted(s.windows, req.workflowId, ans.now));
    if RateLimiter.Admits(s1.windows[req.workflowId]) && req.key !in s.cache && req.key !in s.responses {
      FreshForwardsOrStops(s1, req, ans);
      ForwardRecordsOnce(ReservedFor(s1, req, ans), req, ans);
    }
  }

  /** What every act keeps: the cache never disagrees with Postgres, a recorded reply stays, calls are accounted for. */
  lemma ActKeepsAccount(s: State, act: Act, key: string, lost: nat)
    requires CacheAgrees(s) && CallsAccounted(s, key, lost)
    ensures var s' := Perform(s, act);
      CacheAgrees(s') && CallsAccounted(s', key, lost + if Lost(s, act, key) then 1 else 0)
  {
    if act.Request? {
      PaidOnReplies(s, act.req, act.ans);
    }
  }

  /**
   Over every history of requests run one at a time, with cached replies expiring at
   any moment: a cached reply is always the recorded one, and a key has reached a
   gateway exactly once if its reply is recorded, plus once for each request that
   died between its gateway call and the record.
   */
  lemma {:induction false} EachKeyReachesGatewayOnce(acts: seq<Act>, key: string)
    ensures CacheAgrees(History(START, acts))
    ensures CallsAccounted(History(START, acts), key, LostCalls(START, acts, key))
  {
    if acts != [] {
      EachKeyReachesGatewayOnce(acts[..|acts| - 1], key);
      ActKeepsAccount(History(START, acts[..|acts| - 1]), acts[|acts| - 1], key, LostCalls(START, acts[..|acts| - 1], key));
    }
  }

  lemma {:induction false} RecordedReplyStays(s: State, acts: seq<Act>, key: string)
    requires CacheAgrees(s) && key in s.responses
    ensures var s' := History(s, acts); CacheAgrees(s') && key in s'.responses && s'.responses[key] == s.responses[key]
  {
    if acts != [] {
      RecordedReplyStays(s, acts[..|acts| - 1], key);
      var s1, act := History(s, acts[..|acts| - 1]), acts[|acts| - 1];
      if act.Request? {
        PaidOnReplies(s1, act.req, act.ans);
      }
    }
  }

  /** Budgets, ledger, wallets, held payouts and gateway calls. */
  ghost predicate SameBooks(s: State, s': State) {
    && s'.budgets == s.budgets && s'.payouts == s.payouts && s'.ledger == s.ledger && s'.responses == s.responses
    && s'.wallets == s.wallets && s'.gatewayCalls == s.gatewayCalls && s'.compensations == s.compensations
  }

  /**
   Idempotent replay: once a request has been answered with a body, then after any
   further history every request with its key is rate-limited or answered with that
   same body, and changes nothing but the rate counter and the cache.
   */
  lemma ReplayReturnsSameBody(acts: seq<Act>, req: PayRequest, ans: Answers, later: seq<Act>, again: PayRequest, ans': Answers)
    requires again.key == req.key
    requires Paid(History(START, acts), req, ans).1.Replied?
    ensures
      var (s1, r1) := Paid(History(START, acts), req, ans);
      var s2 := History(s1, later);
      var (s3, r2) := Paid(s2, again, ans');
      (r2 == TooManyRequests || r2 == r1) && SameBooks(s2, s3)
  {
    var s := History(START, acts);
    EachKeyReachesGatewayOnce(acts, req.key);
    PaidOnReplies(s, req, ans);
    var (s1, r1) := Paid(s, req, ans);
    RecordedReplyStays(s1, later, req.key);
  }

  /** `/pay` takes its own ref out of the seen set, so it can never report a duplicate settlement. */
  lemma PayNeverReportsDuplicate(s: State, req: PayRequest, ans: Answers)
    requires Forwarded(s, req, ans).1.Replied?
    ensures Forwarded(s, req, ans).1.body.reconciliation != Mismatch(DuplicateSettlement)
  {}

  // ---- what becomes of the reservation of a payout that was created ----

  /** What a payout's status said of the money when it was read; `Unread` is an exception while reading. */
  datatype Fate = PaidOut | NotPaid | Unknown | Unread

  /** The read that decides: the forced hold's snapshot, or the first that is not queued or processing among the four allowed. */
  function DecidingRead(req: PayRequest, p: PayoutReply): Read
    requires p.Created?
  {
    if req.merchant == RzpPending && p.forced then p.snapshot else p.statuses(Decisive(p.statuses, 3, 0))
  }

  /** By its status. A forced hold is left open whatever the status. */
  function FateOf(req: PayRequest, p: PayoutReply): Fate
    requires p.Created?
  {
    var read := DecidingRead(req, p);
    if read.ReadRaised? then Unread
    else if req.merchant == RzpPending && p.forced then Unknown
    else if read.status == Processed then PaidOut
    else if Unpaid(read.status) then NotPaid
    else Unknown
  }

  /** An exception strikes after the payout was created, anywhere in the rest of the branch that is taken. */
  predicate FailsAfterCreation(req: PayRequest, p: PayoutReply)
    requires p.Created?
  {
    match FateOf(req, p)
    case Unread => true
    case Unknown => p.trouble == BeforeRow || p.trouble == AfterRow
    case PaidOut => p.trouble == WhenSettled
    case NotPaid => false
  }

  /** The poll's verdict and the fate are the same. */
  lemma VerdictIsFate(req: PayRequest, p: PayoutReply)
    requires p.Created? && p.id != ""
    ensures var r := PayoutStatusOf(req, p);
      match FateOf(req, p)
      case Unread => r.None?
      case PaidOut => r == Some((Settled, DecidingRead(req, p).status))
      case NotPaid => r == Some((Failed, DecidingRead(req, p).status))
      case Unknown => r == Some((Pending, DecidingRead(req, p).status))
  {
    VerdictNamesFirstDecisiveRead(p.statuses, 3, Decisive(p.statuses, 3, 0));
    hide Verdict;
  }

  lemma ReleaseUndoesReserve(budgets: Budgets, wid: string, amount: real)
    requires CanReserve(budgets, wid, amount)
    ensures Rollback(Tables.Reserve(budgets, wid, amount), wid, amount) == budgets
  {
    assert budgets[wid] == Budget(budgets[wid].limit, budgets[wid].used + amount - amount);
    assert budgets[wid := budgets[wid]] == budgets;
  }

  /**
   Which created payouts lose their reservation: exactly those read as reversed, rejected,
   cancelled or failed and those for which an exception strikes later, also when the money
   has moved or still may. The payment is then on record as failed, and unless the
   exception came after the row was made nothing will look at the payout again. A payout
   read as processed is booked with its own amount.
   */
  lemma CreatedPayoutReleasedIff(s: State, req: PayRequest, ans: Answers)
    requires UsesRealPayout(req.merchant) && ans.payout.Created? && ans.payout.id != "" && ans.death == Survives
    requires CanReserve(s.budgets, req.workflowId, req.amount)
    ensures
      var p := ans.payout;
      var s' := Forwarded(s.(budgets := Tables.Reserve(s.budgets, req.workflowId, req.amount)), req, ans).0;
      var row := s'.ledger[|s.ledger|];
      && |s'.ledger| == |s.ledger| + 1
      && (row.actual.status == Failed <==> FateOf(req, p) == NotPaid || FailsAfterCreation(req, p))
      && (row.actual.status == Settled <==> FateOf(req, p) == PaidOut && p.trouble != WhenSettled)
      && (row.actual.status == Pending <==> FateOf(req, p) == Unknown && p.trouble != BeforeRow && p.trouble != AfterRow)
      && (row.actual.status == Failed ==> s'.budgets == s.budgets)
      && (row.actual.status == Settled ==>
            s'.budgets == Commit(Tables.Reserve(s.budgets, req.workflowId, req.amount), req.workflowId, req.amount, p.amount))
      && (row.actual.status == Pending ==> s'.budgets == Tables.Reserve(s.budgets, req.workflowId, req.amount))
      && s'.payouts == s.payouts + (if FateOf(req, p) == Unknown && p.trouble != BeforeRow then
           [PayoutRow(req.workflowId, req.merchant, req.payee, req.amount, p.id, ans.stepId, DecidingRead(req, p).status, 0, Open)] else [])
      && row.actual.payee == req.payee
      && (if FailsAfterCreation(req, p) then
            row.raw.statusCode == Some(502) && row.actual.amount == req.amount && row.actual.settlementRef == ""
          else row.raw.statusCode == Some(200) && row.actual.amount == p.amount && row.actual.settlementRef == p.id)
  {
    ReleaseUndoesReserve(s.budgets, req.workflowId, req.amount);
    VerdictIsFate(req, ans.payout);
    hide ReplyBody, SaveResponse, Tables.Reserve, Rollback, Commit, Verdict, PayoutStatusOf, FateOf, DecidingRead;
  }

  /** This request had a payout made that was then read as processed: money has moved. */
  predicate PaysOut(s: State, act: Act) {
    && act.Request? && UsesRealPayout(act.req.merchant) && act.ans.payout.Created? && act.ans.payout.id != ""
    && FateOf(act.req, act.ans.payout) == PaidOut && act.ans.death == Survives
    && |Perform(s, act).gatewayCalls| > |s.gatewayCalls|
  }

  ghost predicate AllPayOut(s: State, acts: seq<Act>, wid: string) {
    forall k :: 0 <= k < |acts| ==> PaysOut(History(s, acts[..k]), acts[k]) && acts[k].req.workflowId == wid
  }

  /** A request that reached a gateway was forwarded under a reservation. */
  lemma ReachedMeansForwarded(s: State, req: PayRequest, ans: Answers)
    requires |Paid(s, req, ans).0.gatewayCalls| > |s.gatewayCalls|
    ensures CanReserve(s.budgets, req.workflowId, req.amount)
    ensures var s1 := s.(windows := Counted(s.windows, req.workflowId, ans.now),
                         wallets := A.Decide(s.wallets, AGENT, AuthCall(req, ans)).wallets);
      Paid(s, req, ans) == Forwarded(s1.(budgets := Tables.Reserve(s.budgets, req.workflowId, req.amount)), req, ans)
  {
    hide Forwarded, A.Decide, CanReserve, Tables.Reserve, Rollback, RateLimiter.Admits;
  }

  /** What a payout read as processed does to the budget, by whether an exception strikes after it was read. */
  lemma PayoutOnBudget(s: State, act: Act)
    requires PaysOut(s, act)
    ensures var wid := act.req.workflowId;
      && wid in s.budgets && |Perform(s, act).gatewayCalls| == |s.gatewayCalls| + 1
      && Perform(s, act).budgets ==
           if act.ans.payout.trouble == WhenSettled then s.budgets
           else s.budgets[wid := Budget(s.budgets[wid].limit, s.budgets[wid].used + act.ans.payout.amount)]
  {
    var req, ans := act.req, act.ans;
    ReachedMeansForwarded(s, req, ans);
    var s1 := s.(windows := Counted(s.windows, req.workflowId, ans.now),
                 wallets := A.Decide(s.wallets, AGENT, AuthCall(req, ans)).wallets);
    CreatedPayoutReleasedIff(s1, req, ans);
    ReserveThenCommit(s.budgets, req.workflowId, req.amount, ans.payout.amount);
    hide Paid, ReplyBody, SaveResponse, Tables.Reserve, Commit, Rollback, Verdict, A.Decide, PaymentEntry;
  }

  lemma ReserveThenCommit(budgets: Budgets, wid: string, amount: real, actual: real)
    requires CanReserve(budgets, wid, amount)
    ensures Commit(Tables.Reserve(budgets, wid, amount), wid, amount, actual)
         == budgets[wid := Budget(budgets[wid].limit, budgets[wid].used + actual)]
  {
    assert budgets[wid].used + amount - amount + actual == budgets[wid].used + actual;
  }

  /** The money of the processed payouts of a history: all of it, or what an exception kept off the budget. */
  function MovedMoney(acts: seq<Act>, unbookedOnly: bool): real {
    if acts == [] then 0.0
    else
      var act := acts[|acts| - 1];
      MovedMoney(acts[..|acts| - 1], unbookedOnly)
        + if act.Request? && act.ans.payout.Created? && (unbookedOnly ==> act.ans.payout.trouble == WhenSettled)
          then act.ans.payout.amount else 0.0
  }

  /**
   What a series of processed payouts leaves on the budget, whatever strikes in between:
   what has moved, less what an exception kept off the books. Every payout of which that
   is so costs the workflow nothing, so its limit does not bound the money that moves.
   */
  lemma {:induction false} ProcessedPayoutsOnBudget(s: State, acts: seq<Act>, wid: string)
    requires wid in s.budgets && AllPayOut(s, acts, wid)
    ensures var s' := History(s, acts);
      && wid in s'.budgets && |s'.gatewayCalls| == |s.gatewayCalls| + |acts|
      && s'.budgets[wid].used == s.budgets[wid].used + MovedMoney(acts, false) - MovedMoney(acts, true)
      && s'.budgets[wid].limit == s.budgets[wid].limit
  {
    hide Perform, PaysOut;
    if acts != [] {
      var init, act := acts[..|acts| - 1], acts[|acts| - 1];
      assert forall k :: 0 <= k < |init| ==> init[k] == acts[k] && init[..k] == acts[..k];
      ProcessedPayoutsOnBudget(s, init, wid);
      PayoutOnBudget(History(s, init), act);
      PaysOutIsRequest(History(s, init), act);
    }
  }

  lemma PaysOutIsRequest(s: State, act: Act)
    requires PaysOut(s, act)
    ensures act.Request? && act.ans.payout.Created?
  {}

  lemma {:induction false} UnbookedMoneyIff(acts: seq<Act>)
    requires forall k :: 0 <= k < |acts| ==> acts[k].Request? && acts[k].ans.payout.Created? && acts[k].ans.payout.amount > 0.0
    ensures MovedMoney(acts, true) >= 0.0
    ensures MovedMoney(acts, true) == 0.0 <==> forall k :: 0 <= k < |acts| ==> acts[k].ans.payout.trouble != WhenSettled
  {
    if acts != [] {
      var init := acts[..|acts| - 1];
      assert forall k :: 0 <= k < |init| ==> init[k] == acts[k];
      UnbookedMoneyIff(init);
    }
  }

  /** Every processed payout is on the budget if and only if no exception struck after one of them was read. */
  lemma ProcessedPayoutsBookedIff(s: State, acts: seq<Act>, wid: string)
    requires wid in s.budgets && AllPayOut(s, acts, wid)
    requires forall k :: 0 <= k < |acts| && acts[k].Request? && acts[k].ans.payout.Created? ==> acts[k].ans.payout.amount > 0.0
    ensures wid in History(s, acts).budgets
    ensures History(s, acts).budgets[wid].used == s.budgets[wid].used + MovedMoney(acts, false)
      <==> forall k :: 0 <= k < |acts| ==> acts[k].Request? && acts[k].ans.payout.Created? && acts[k].ans.payout.trouble != WhenSettled
  {
    hide History, PaysOut, MovedMoney;
    ProcessedPayoutsOnBudget(s, acts, wid);
    forall k | 0 <= k < |acts| ensures acts[k].Request? && acts[k].ans.payout.Created? {
      PaysOutIsRequest(History(s, acts[..k]), acts[k]);
    }
    UnbookedMoneyIff(acts);
  }

  // ---- one request as a participant of the concurrent protocol ----

  ghost predicate Follows(s: State, sys: P.System) {
    && s.budgets == sys.budgets
    && |s.payouts| == |sys.rows|
    && forall i :: 0 <= i < |sys.rows| ==> s.payouts[i] == sys.rows[i].row
  }

  function HoldEvents(sys: P.System, req: PayRequest, ans: Answers): seq<P.Event> {
    var c := ChargeOf(req, ans);
    if c.holdFor.None? then [] else [P.Hold(|sys.payments|, req.merchant, req.payee, PayoutId(ans), c.holdFor.value)]
  }

  function OutcomeEvents(sys: P.System, req: PayRequest, ans: Answers): seq<P.Event> {
    var c := ChargeOf(req, ans);
    if ans.death == BeforeBudget then []
    else if c.status == Settled then [P.Settle(|sys.payments|, c.amount)]
    else if c.status == Pending then [P.LeavePending(|sys.payments|)]
    else [P.Release(|sys.payments|)]
  }

  function BackfillEvents(sys: P.System, req: PayRequest, ans: Answers): seq<P.Event> {
    if ChargeOf(req, ans).holdFor.None? || ans.death == BeforeBudget || ans.death == BeforeLedger then []
    else [P.Backfill(|sys.rows|, ans.stepId)]
  }

  /** The database writes of a forwarded request, as protocol events. */
  function PayEvents(sys: P.System, req: PayRequest, ans: Answers): seq<P.Event> {
    [P.Arrive(req.workflowId, req.amount)] + HoldEvents(sys, req, ans) + OutcomeEvents(sys, req, ans) + BackfillEvents(sys, req, ans)
  }

  lemma ReserveAndHold(s: State, req: PayRequest, ans: Answers, sys: P.System, maxChecks: nat)
    requires Follows(s, sys) && CanReserve(s.budgets, req.workflowId, req.amount)
    ensures
      var c := ChargeOf(req, ans);
      var s1 := s.(budgets := Tables.Reserve(s.budgets, req.workflowId, req.amount),
                   payouts := HeldRows(s.payouts, req, c, PayoutId(ans), ""));
      var sys1 := P.Run(sys, [P.Arrive(req.workflowId, req.amount)] + HoldEvents(sys, req, ans), maxChecks);
      && Follows(s1, sys1)
      && |sys1.payments| == |sys.payments| + 1
      && sys1.payments[|sys.payments|] ==
           P.InFlight(req.workflowId, req.amount, if c.holdFor.None? then P.Reserved else P.RowCreated(|sys.rows|))
  {
    var e := P.Arrive(req.workflowId, req.amount);
    P.RunAppend(sys, [e], HoldEvents(sys, req, ans), maxChecks);
    P.RunOne(sys, e, maxChecks);
    if ChargeOf(req, ans).holdFor.Some? {
      P.RunOne(P.Apply(sys, e, maxChecks), HoldEvents(sys, req, ans)[0], maxChecks);
    }
  }

  lemma HeldChargeIsNotSettled(req: PayRequest, ans: Answers)
    ensures ChargeOf(req, ans).holdFor.Some? ==> ChargeOf(req, ans).status != Settled
  {}

  lemma OutcomeFollows(s: State, req: PayRequest, c: Charged, sys: P.System, p: nat, e: P.Event, maxChecks: nat)
    requires Follows(s, sys) && p < |sys.payments|
    requires sys.payments[p].workflowId == req.workflowId && sys.payments[p].amount == req.amount
    requires sys.payments[p].phase == P.Reserved || (sys.payments[p].phase.RowCreated? && c.status != Settled)
    requires e == if c.status == Settled then P.Settle(p, c.amount) else if c.status == Pending then P.LeavePending(p) else P.Release(p)
    ensures Follows(s.(budgets := SettleBudget(s.budgets, req, c)), P.Apply(sys, e, maxChecks))
    ensures P.Apply(sys, e, maxChecks).rows == sys.rows
  {}

  /** Filling in the step id of the row just made. */
  lemma BackfillFollows(s: State, req: PayRequest, c: Charged, payoutId: string, stepId: string, sys: P.System, row: nat, maxChecks: nat)
    requires Follows(s.(payouts := HeldRows(s.payouts, req, c, payoutId, "")), sys)
    requires c.holdFor.Some? && row == |s.payouts|
    ensures Follows(s.(payouts := HeldRows(s.payouts, req, c, payoutId, stepId)), P.Apply(sys, P.Backfill(row, stepId), maxChecks))
  {}

  /** The budgets and rows a forwarded request leaves behind, by where it died. */
  lemma ForwardedBooks(s: State, req: PayRequest, ans: Answers)
    ensures
      var s' := Forwarded(s, req, ans).0;
      var c := ChargeOf(req, ans);
      && s'.budgets == (if ans.death == BeforeBudget then s.budgets else SettleBudget(s.budgets, req, c))
      && s'.payouts == HeldRows(s.payouts, req, c, PayoutId(ans),
                                if ans.death == BeforeBudget || ans.death == BeforeLedger then "" else ans.stepId)
  {}

  lemma BudgetStepFollows(s: State, req: PayRequest, ans: Answers, sys: P.System, maxChecks: nat)
    requires Follows(s, sys) && CanReserve(s.budgets, req.workflowId, req.amount) && ans.death != BeforeBudget
    ensures
      var c := ChargeOf(req, ans);
      var budgets := SettleBudget(Tables.Reserve(s.budgets, req.workflowId, req.amount), req, c);
      Follows(s.(budgets := budgets, payouts := HeldRows(s.payouts, req, c, PayoutId(ans), "")),
              P.Run(sys, [P.Arrive(req.workflowId, req.amount)] + HoldEvents(sys, req, ans) + OutcomeEvents(sys, req, ans), maxChecks))
  {
    var c := ChargeOf(req, ans);
    var held := s.(budgets := Tables.Reserve(s.budgets, req.workflowId, req.amount), payouts := HeldRows(s.payouts, req, c, PayoutId(ans), ""));
    var first, second := [P.Arrive(req.workflowId, req.amount)] + HoldEvents(sys, req, ans), OutcomeEvents(sys, req, ans);
    var sys1 := P.Run(sys, first, maxChecks);
    ReserveAndHold(s, req, ans, sys, maxChecks);
    HeldChargeIsNotSettled(req, ans);
    P.RunAppend(sys, first, second, maxChecks);
    P.RunOne(sys1, second[0], maxChecks);
    OutcomeFollows(held, req, c, sys1, |sys.payments|, second[0], maxChecks);
  }

  /**
   A forwarded request that is not interfered with, wherever it dies, is a run of the
   concurrent protocol: conservation and the mandate bound apply to what `Pay` does.
   */
  lemma ForwardIsProtocolRun(s: State, req: PayRequest, ans: Answers, sys: P.System, maxChecks: nat)
    requires Follows(s, sys) && CanReserve(s.budgets, req.workflowId, req.amount)
    ensures Follows(Forwarded(s.(budgets := Tables.Reserve(s.budgets, req.workflowId, req.amount)), req, ans).0,
                    P.Run(sys, PayEvents(sys, req, ans), maxChecks))
  {
    var c := ChargeOf(req, ans);
    var reserved := s.(budgets := Tables.Reserve(s.budgets, req.workflowId, req.amount));
    var first, second, third := [P.Arrive(req.workflowId, req.amount)] + HoldEvents(sys, req, ans),
                                OutcomeEvents(sys, req, ans), BackfillEvents(sys, req, ans);
    ForwardedBooks(reserved, req, ans);
    P.RunAppend(sys, first + second, third, maxChecks);
    if ans.death == BeforeBudget {
      ReserveAndHold(s, req, ans, sys, maxChecks);
      assert first + second == first;
    } else {
      BudgetStepFollows(s, req, ans, sys, maxChecks);
      if third != [] {
        var sys2 := P.Run(sys, first + second, maxChecks);
        P.RunOne(sys2, third[0], maxChecks);
        BackfillFollows(s.(budgets := SettleBudget(reserved.budgets, req, c)), req, c, PayoutId(ans), ans.stepId, sys2, |sys.rows|, maxChecks);
      }
    }
  }

  /** The protocol events of one act. */
  function ActEvents(s: State, sys: P.System, act: Act): seq<P.Event> {
    match act
    case InitWorkflow(wid, limit) => [P.Init(wid, limit)]
    case Expire(_) => []
    case Request(req, ans) =>
      var s1 := s.(windows := Counted(s.windows, req.workflowId, ans.now));
      if !RateLimiter.Admits(s1.windows[req.workflowId]) || req.key in s.cache || req.key in s.responses then []
      else if A.Decide(s.wallets, AGENT, AuthCall(req, ans)).decision != A.Allow then []
      else if !CanReserve(s.budgets, req.workflowId, req.amount) then []
      else if !UsesRealPayout(req.merchant) && !Registered(req.merchant) then
        [P.Arrive(req.workflowId, req.amount), P.Release(|sys.payments|)]
      else PayEvents(sys, req, ans)
  }

  lemma ArriveAndRelease(sys: P.System, wid: string, amount: real, maxChecks: nat)
    requires CanReserve(sys.budgets, wid, amount)
    ensures var sys' := P.Run(sys, [P.Arrive(wid, amount), P.Release(|sys.payments|)], maxChecks);
      sys'.budgets == Rollback(Tables.Reserve(sys.budgets, wid, amount), wid, amount) && sys'.rows == sys.rows
  {
    var e, f := P.Arrive(wid, amount), P.Release(|sys.payments|);
    assert [e] + [f] == [e, f];
    P.RunAppend(sys, [e], [f], maxChecks);
    P.RunOne(sys, e, maxChecks);
    P.RunOne(P.Apply(sys, e, maxChecks), f, maxChecks);
  }

  lemma ActIsProtocolRun(s: State, act: Act, sys: P.System, maxChecks: nat)
    requires Follows(s, sys)
    ensures Follows(Perform(s, act), P.Run(sys, ActEvents(s, sys, act), maxChecks))
  {
    hide Forwarded, PayEvents, A.Decide;
    match act
    case InitWorkflow(wid, limit) => P.RunOne(sys, P.Init(wid, limit), maxChecks);
    case Expire(_) =>
    case Request(req, ans) =>
      var s1 := s.(windows := Counted(s.windows, req.workflowId, ans.now));
      if RateLimiter.Admits(s1.windows[req.workflowId]) && req.key !in s.cache && req.key !in s.responses {
        if A.Decide(s.wallets, AGENT, AuthCall(req, ans)).decision == A.Allow && CanReserve(s.budgets, req.workflowId, req.amount) {
          if !UsesRealPayout(req.merchant) && !Registered(req.merchant) {
            ArriveAndRelease(sys, req.workflowId, req.amount, maxChecks);
          } else {
            ForwardIsProtocolRun(s1.(wallets := A.Decide(s.wallets, AGENT, AuthCall(req, ans)).wallets), req, ans, sys, maxChecks);
          }
        }
      }
  }

  /** Every history of requests is a run of the concurrent protocol. */
  lemma {:induction false} HistoryIsProtocolRun(acts: seq<Act>, maxChecks: nat) returns (es: seq<P.Event>)
    ensures Follows(History(START, acts), P.Run(P.START, es, maxChecks))
  {
    es := [];
    if acts != [] {
      var before := HistoryIsProtocolRun(acts[..|acts| - 1], maxChecks);
      var s, sys := History(START, acts[..|acts| - 1]), P.Run(P.START, before, maxChecks);
      ActIsProtocolRun(s, acts[|acts| - 1], sys, maxChecks);
      P.RunAppend(P.START, before, ActEvents(s, sys, acts[|acts| - 1]), maxChecks);
      es := before + ActEvents(s, sys, acts[|acts| - 1]);
    }
  }

  // ---- the wallet over a history ----

  /** The authorizations a history asks for, in order. */
  function AuthCalls(acts: seq<Act>): seq<A.Call> {
    if acts == [] then []
    else
      var init, act := acts[..|acts| - 1], acts[|acts| - 1];
      var s := History(START, init);
      AuthCalls(init)
        + if act.Request? && ReachesAuthorization(s, act.req, act.ans) then [AuthCall(act.req, act.ans)] else []
  }

  predicate ReachesAuthorization(s: State, req: PayRequest, ans: Answers) {
    RateLimiter.Admits(Counted(s.windows, req.workflowId, ans.now)[req.workflowId]) && req.key !in s.cache && req.key !in s.responses
  }

  lemma RequestSpendsOnce(s: State, req: PayRequest, ans: Answers)
    ensures Paid(s, req, ans).0.wallets ==
      if ReachesAuthorization(s, req, ans) then A.Decide(s.wallets, AGENT, AuthCall(req, ans)).wallets else s.wallets
  {
    hide A.Decide, ChargeOf, ReplyBody, HeldRows, SettleBudget;
  }

  /**
   The wallet over a whole history is that of the authorizations alone: an amount that
   was allowed stays spent when the mandate then refuses it, the merchant is unknown or
   the charge fails, and a replay spends nothing.
   */
  lemma {:induction false} HistoryWalletIsAuthorizationRun(acts: seq<Act>)
    ensures History(START, acts).wallets == A.After(START.wallets, AGENT, AuthCalls(acts))
  {
    hide Paid, A.Decide, ReachesAuthorization;
    if acts != [] {
      var init, act := acts[..|acts| - 1], acts[|acts| - 1];
      HistoryWalletIsAuthorizationRun(init);
      if act.Request? {
        RequestSpendsOnce(History(START, init), act.req, act.ans);
        assert (AuthCalls(init) + [AuthCall(act.req, act.ans)])[..|AuthCalls(init)|] == AuthCalls(init);
      }
      assert AuthCalls(init) + [] == AuthCalls(init);
    }
  }
}
