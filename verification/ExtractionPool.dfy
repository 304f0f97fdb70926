/**
 engine/policy_extractor.py, several extractions at a time: the producer of each and every
 single `q.get` of its caller run in one bounded pool of threads (`asyncio.to_thread`),
 which takes its jobs in the order they were handed in. A caller hands in its first get
 before its producer, because the producer waits for the event loop.
 */
module ExtractionPool {
  import opened Wrappers
  import Q = StreamQueue

  /** What is handed to the pool, for extraction e. */
  datatype Job = Get(e: nat) | Produce(e: nat)

  datatype Extraction = Extraction(flow: Q.System, begun: bool, spawned: bool)

  /** At most `limit` extractions are under way at a time; any number may follow each other. */
  datatype Pool = Pool(threads: nat, limit: nat, extractions: seq<Extraction>, waiting: seq<Job>, running: set<Job>)

  datatype Move =
    | Begin(e: nat)    // the caller starts: its producer is scheduled, its first get handed in
    | Spawn(e: nat)    // the event loop hands the producer in
    | Pick             // a free thread takes the job that waited longest
    | Produces(e: nat) // the producer goes on; its thread is free when it has finished
    | Gets(e: nat)     // a get finds an item, and its thread is free
    | Goes(e: nat)     // the caller's own code: the callback, the next get, or the end

  /** One extraction asked for: what the model stream will do, and where the callback raises. */
  datatype Request = Request(source: Q.Source, failsAt: Option<nat>)

  function Start(threads: nat, limit: nat, requests: seq<Request>): Pool {
    Pool(threads, limit, seq(|requests|, e requires 0 <= e < |requests| => Asked(requests[e], false)), [], {})
  }

  function Asked(r: Request, begun: bool): Extraction {
    Extraction(Q.Start(r.source, r.failsAt), begun, false)
  }

  predicate Ended(x: Extraction) {
    x.flow.consumer.Done?
  }

  function UnderWay(xs: seq<Extraction>): set<nat> {
    set e: nat | e < |xs| && xs[e].begun && !Ended(xs[e])
  }

  predicate Enabled(p: Pool, m: Move) {
    match m
    case Begin(e) => e < |p.extractions| && !p.extractions[e].begun && |UnderWay(p.extractions)| < p.limit
    case Spawn(e) => e < |p.extractions| && p.extractions[e].begun && !p.extractions[e].spawned
    case Pick => |p.running| < p.threads && p.waiting != []
    case Produces(e) => e < |p.extractions| && Produce(e) in p.running
    case Gets(e) => e < |p.extractions| && Get(e) in p.running && p.extractions[e].flow.queue != []
    case Goes(e) =>
      && e < |p.extractions| && p.extractions[e].begun
      && (p.extractions[e].flow.consumer.Calling?
          || (p.extractions[e].flow.consumer.Awaiting? && p.extractions[e].flow.producer.Finished?))
  }

  function SetFlow(p: Pool, e: nat, flow: Q.System): Pool
    requires e < |p.extractions|
  {
    p.(extractions := p.extractions[e := p.extractions[e].(flow := flow)])
  }

  function Do(p: Pool, m: Move): Pool
    requires Enabled(p, m)
  {
    match m
    case Begin(e) => p.(extractions := p.extractions[e := p.extractions[e].(begun := true)], waiting := p.waiting + [Get(e)])
    case Spawn(e) => p.(extractions := p.extractions[e := p.extractions[e].(spawned := true)], waiting := p.waiting + [Produce(e)])
    case Pick => p.(waiting := p.waiting[1..], running := p.running + {p.waiting[0]})
    case Produces(e) =>
      var flow := Q.ProducerStep(p.extractions[e].flow);
      SetFlow(p, e, flow).(running := if flow.producer.Finished? then p.running - {Produce(e)} else p.running)
    case Gets(e) => SetFlow(p, e, Q.ConsumerStep(p.extractions[e].flow)).(running := p.running - {Get(e)})
    case Goes(e) =>
      var flow := Q.ConsumerStep(p.extractions[e].flow);
      SetFlow(p, e, flow).(waiting := if flow.consumer.Getting? then p.waiting + [Get(e)] else p.waiting)
  }

  function Step(p: Pool, m: Move): Pool {
    if Enabled(p, m) then Do(p, m) else p
  }

  function Run(p: Pool, ms: seq<Move>): Pool {
    if ms == [] then p else Step(Run(p, ms[..|ms| - 1]), ms[|ms| - 1])
  }

  // ---- what every move keeps ----

  predicate InPool(p: Pool, j: Job) {
    j in p.running || j in p.waiting
  }

  /** An extraction's jobs are in the pool exactly while there is something for them to do. */
  ghost predicate JobsMatch(p: Pool, e: nat)
    requires e < |p.extractions|
  {
    var x := p.extractions[e];
    && Q.Inv(x.flow)
    && (!x.begun ==> !x.spawned && x.flow.consumer.Getting?)
    && (!x.spawned ==> x.flow.producer.Starting?)
    && (InPool(p, Get(e)) <==> x.begun && x.flow.consumer.Getting?)
    && (InPool(p, Produce(e)) <==> x.spawned && !x.flow.producer.Finished?)
  }

  /** No job is in the pool twice, and no job is a stranger's. */
  ghost predicate JobsDistinct(p: Pool) {
    && (forall i, j :: 0 <= i < j < |p.waiting| ==> p.waiting[i] != p.waiting[j])
    && (forall j :: j in p.waiting ==> j !in p.running)
    && (forall j :: InPool(p, j) ==> j.e < |p.extractions|)
  }

  ghost predicate WithinBounds(p: Pool) {
    |p.running| <= p.threads && |UnderWay(p.extractions)| <= p.limit
  }

  ghost predicate Inv(p: Pool) {
    && (forall e :: 0 <= e < |p.extractions| ==> JobsMatch(p, e))
    && JobsDistinct(p) && WithinBounds(p)
  }

  lemma {:induction false} Smaller(a: set<nat>, b: set<nat>)
    requires a <= b
    ensures |a| <= |b|
  {
    if a != {} {
      var x :| x in a;
      Smaller(a - {x}, b - {x});
    }
  }

  /** The flow of the extraction a move names keeps the invariant of a single one. */
  lemma FlowKeepsInv(p: Pool, m: Move, e: nat)
    requires Inv(p) && Enabled(p, m) && e < |p.extractions|
    ensures Q.Inv(Do(p, m).extractions[e].flow)
  {
    assert JobsMatch(p, e);
    Q.StepKeepsInv(p.extractions[e].flow, Q.ProducerThread);
    Q.StepKeepsInv(p.extractions[e].flow, Q.ConsumerTask);
    hide Q.Inv, Q.ProducerStep, Q.ConsumerStep, UnderWay;
  }

  /** What the two sides' steps do, as far as the pool is concerned. */
  lemma ProducerGoesOn(f: Q.System)
    requires !f.producer.Finished?
    ensures var f' := Q.ProducerStep(f);
      f'.consumer == f.consumer && f.queue <= f'.queue && !f'.producer.Starting? && f' != f
  {
    assert f.producer.Streaming? ==> Q.ProducerStep(f).producer != f.producer;
  }

  lemma ConsumerGoesOn(f: Q.System)
    ensures var f' := Q.ConsumerStep(f);
      && f'.producer == f.producer
      && (f.consumer.Getting? && f.queue != [] ==> !f'.consumer.Getting? && !f'.consumer.Done?)
      && (f.consumer.Calling? ==> f'.consumer.Getting? || f'.consumer.Done?)
      && (f.consumer.Awaiting? && f.producer.Finished? ==> f'.consumer.Done?)
      && (!f.consumer.Getting? ==> f'.queue == f.queue)
  {}

  /** Whether a job is in the pool after a move. */
  predicate InPoolAfter(p: Pool, m: Move, j: Job)
    requires Enabled(p, m)
  {
    match m
    case Begin(e) => InPool(p, j) || j == Get(e)
    case Spawn(e) => InPool(p, j) || j == Produce(e)
    case Pick => InPool(p, j)
    case Produces(e) => InPool(p, j) && (j == Produce(e) ==> !Do(p, m).extractions[e].flow.producer.Finished?)
    case Gets(e) => InPool(p, j) && j != Get(e)
    case Goes(e) => InPool(p, j) || (j == Get(e) && Do(p, m).extractions[e].flow.consumer.Getting?)
  }

  lemma MoveMovesJobs(p: Pool, m: Move, j: Job)
    requires JobsDistinct(p) && Enabled(p, m)
    ensures InPool(Do(p, m), j) <==> InPoolAfter(p, m, j)
  {
    hide Q.ProducerStep, Q.ConsumerStep, UnderWay;
    if m.Pick? { assert p.waiting == [p.waiting[0]] + p.waiting[1..]; }
  }

  lemma MoveMatchesJobs(p: Pool, m: Move, e: nat)
    requires Inv(p) && Enabled(p, m) && e < |p.extractions|
    ensures JobsMatch(Do(p, m), e)
  {
    hide Q.Inv, Q.ProducerStep, Q.ConsumerStep, UnderWay, InPool, JobsDistinct, WithinBounds;
    assert JobsMatch(p, e);
    FlowKeepsInv(p, m, e);
    MoveMovesJobs(p, m, Get(e));
    MoveMovesJobs(p, m, Produce(e));
    RunningIsInPool(p);
    if !p.extractions[e].flow.producer.Finished? { ProducerGoesOn(p.extractions[e].flow); }
    ConsumerGoesOn(p.extractions[e].flow);
  }

  lemma RunningIsInPool(p: Pool)
    ensures forall j :: j in p.running ==> InPool(p, j)
  {}

  lemma HandingInKeepsDistinct(p: Pool, j: Job)
    requires JobsDistinct(p) && !InPool(p, j) && j.e < |p.extractions|
    ensures JobsDistinct(p.(waiting := p.waiting + [j]))
  {}

  lemma PickingKeepsDistinct(p: Pool)
    requires JobsDistinct(p) && p.waiting != []
    ensures JobsDistinct(p.(waiting := p.waiting[1..], running := p.running + {p.waiting[0]}))
  {
    assert p.waiting == [p.waiting[0]] + p.waiting[1..];
  }

  lemma LeavingKeepsDistinct(p: Pool, q: Pool)
    requires JobsDistinct(p) && q.waiting == p.waiting && q.running <= p.running && |q.extractions| == |p.extractions|
    ensures JobsDistinct(q)
  {}

  lemma MoveKeepsDistinct(p: Pool, m: Move)
    requires Inv(p) && Enabled(p, m)
    ensures JobsDistinct(Do(p, m))
  {
    hide Q.Inv, Q.ProducerStep, Q.ConsumerStep, UnderWay, JobsDistinct, WithinBounds, InPool;
    var q := Do(p, m);
    if m.Pick? {
      PickingKeepsDistinct(p);
    } else if q.waiting == p.waiting {
      LeavingKeepsDistinct(p, q);
    } else {
      assert JobsMatch(p, m.e);
      var j := if m.Spawn? then Produce(m.e) else Get(m.e);
      HandingInKeepsDistinct(p, j);
      LeavingKeepsDistinct(p.(waiting := p.waiting + [j]), q);
    }
  }

  /** Only a start puts one more extraction under way. */
  lemma MoveOnUnderWay(p: Pool, m: Move)
    requires Inv(p) && Enabled(p, m)
    ensures var before, after := UnderWay(p.extractions), UnderWay(Do(p, m).extractions);
      if m.Begin? then after == before + {m.e} else after <= before
  {
    hide Q.Inv, Q.ProducerStep, Q.ConsumerStep, JobsDistinct, WithinBounds;
    if !m.Pick? {
      assert JobsMatch(p, m.e);
      ConsumerGoesOn(p.extractions[m.e].flow);
      if m.Produces? { ProducerGoesOn(p.extractions[m.e].flow); }
    }
  }

  lemma MoveKeepsBounds(p: Pool, m: Move)
    requires Inv(p) && Enabled(p, m)
    ensures WithinBounds(Do(p, m))
  {
    hide JobsMatch, JobsDistinct, UnderWay, Q.ProducerStep, Q.ConsumerStep;
    MoveOnUnderWay(p, m);
    if !m.Begin? { Smaller(UnderWay(Do(p, m).extractions), UnderWay(p.extractions)); }
  }

  lemma StepKeepsInv(p: Pool, m: Move)
    requires Inv(p)
    ensures Inv(Step(p, m))
    ensures var p' := Step(p, m);
      p'.threads == p.threads && p'.limit == p.limit && |p'.extractions| == |p.extractions|
  {
    hide JobsMatch, JobsDistinct, WithinBounds, UnderWay, Q.ProducerStep, Q.ConsumerStep;
    if Enabled(p, m) {
      MoveKeepsDistinct(p, m);
      MoveKeepsBounds(p, m);
      forall e | 0 <= e < |Do(p, m).extractions| ensures JobsMatch(Do(p, m), e) {
        MoveMatchesJobs(p, m, e);
      }
    }
  }

  lemma StartKeepsInv(threads: nat, limit: nat, requests: seq<Request>)
    ensures Inv(Start(threads, limit, requests))
  {
    var p := Start(threads, limit, requests);
    assert UnderWay(p.extractions) == {};
    forall e | 0 <= e < |requests| ensures JobsMatch(p, e) {
      Q.StartInv(requests[e].source, requests[e].failsAt);
      hide Q.Inv;
    }
  }

  lemma {:induction false} RunKeepsInv(p: Pool, ms: seq<Move>)
    requires Inv(p)
    ensures Inv(Run(p, ms))
    ensures var p' := Run(p, ms);
      p'.threads == p.threads && p'.limit == p.limit && |p'.extractions| == |p.extractions|
  {
    hide Inv, Step;
    if ms != [] {
      RunKeepsInv(p, ms[..|ms| - 1]);
      StepKeepsInv(Run(p, ms[..|ms| - 1]), ms[|ms| - 1]);
    }
  }

  // ---- fewer extractions than threads: never stuck ----

  /** At most one thread waits in a get for each extraction under way. */
  lemma {:induction false} GetsAreFew(jobs: set<Job>, open: set<nat>)
    requires forall j :: j in jobs ==> j.Get? && j.e in open
    ensures |jobs| <= |open|
  {
    if jobs != {} {
      var j :| j in jobs;
      forall i | i in jobs - {j} ensures i.Get? && i.e in open - {j.e} {
        assert i == Get(i.e) && j == Get(j.e);
      }
      GetsAreFew(jobs - {j}, open - {j.e});
    }
  }

  lemma OnlyGetsRunning(p: Pool)
    requires Inv(p) && forall j :: j in p.running ==> j.Get?
    ensures |p.running| <= p.limit
  {
    hide Q.Inv;
    forall j | j in p.running ensures j.e in UnderWay(p.extractions) {
      assert InPool(p, j) && j == Get(j.e);
      assert JobsMatch(p, j.e);
    }
    GetsAreFew(p.running, UnderWay(p.extractions));
  }

  /** What the pool itself, the running jobs and the event loop can still do. */
  lemma SomeJobMoves(p: Pool) returns (m: Move)
    requires Inv(p) && p.limit < p.threads && (p.waiting != [] || exists j :: j in p.running && j.Produce?)
    ensures Enabled(p, m) && !m.Begin?
  {
    hide JobsMatch, UnderWay;
    if j :| j in p.running && j.Produce? {
      assert InPool(p, j);
      m := Produces(j.e);
    } else {
      OnlyGetsRunning(p);
      m := Pick;
    }
  }

  lemma SomeCallerMoves(p: Pool, e: nat) returns (m: Move)
    requires Inv(p) && e < |p.extractions| && p.extractions[e].begun && !Ended(p.extractions[e])
    requires p.waiting == [] && forall j :: j in p.running ==> j.Get?
    ensures Enabled(p, m) && !m.Begin?
  {
    var x := p.extractions[e];
    assert JobsMatch(p, e);
    if !x.spawned {
      m := Spawn(e);
    } else {
      assert !InPool(p, Produce(e));
      if x.flow.consumer.Getting? {
        assert InPool(p, Get(e));
        m := Gets(e);
      } else {
        m := Goes(e);
      }
    }
    hide UnderWay, JobsDistinct;
  }

  /**
   With fewer extractions at a time than threads the pool is never stuck: in every
   reachable state, as long as an extraction that has begun has not ended, something other
   than the start of another one can happen.
   */
  lemma PoolNeverStuck(threads: nat, limit: nat, requests: seq<Request>, ms: seq<Move>, e: nat) returns (m: Move)
    requires limit < threads
    requires var xs := Run(Start(threads, limit, requests), ms).extractions;
      e < |xs| && xs[e].begun && !Ended(xs[e])
    ensures Enabled(Run(Start(threads, limit, requests), ms), m) && !m.Begin?
  {
    hide Run, Enabled, Inv;
    StartKeepsInv(threads, limit, requests);
    RunKeepsInv(Start(threads, limit, requests), ms);
    m := NeverStuck(Run(Start(threads, limit, requests), ms), e);
  }

  lemma NeverStuck(p: Pool, e: nat) returns (m: Move)
    requires Inv(p) && p.limit < p.threads && e < |p.extractions| && p.extractions[e].begun && !Ended(p.extractions[e])
    ensures Enabled(p, m) && !m.Begin?
  {
    hide Enabled, Inv;
    if p.waiting != [] || exists j :: j in p.running && j.Produce? {
      m := SomeJobMoves(p);
    } else {
      m := SomeCallerMoves(p, e);
    }
  }

  // ---- and every extraction ends, without any assumption of fairness ----

  function Weight(x: Extraction): nat {
    2 * Q.Measure(x.flow) + (if x.begun then 0 else 2) + (if x.spawned then 0 else 2)
  }

  function Weights(xs: seq<Extraction>): nat {
    if xs == [] then 0 else Weights(xs[..|xs| - 1]) + Weight(xs[|xs| - 1])
  }

  /** What is left to do, in moves. */
  function Left(p: Pool): nat {
    Weights(p.extractions) + |p.waiting|
  }

  lemma {:induction false} WeightsUpdate(xs: seq<Extraction>, e: nat, x: Extraction)
    requires e < |xs|
    ensures Weights(xs[e := x]) == Weights(xs) + Weight(x) - Weight(xs[e])
  {
    hide Weight;
    var n := |xs| - 1;
    if e < n {
      WeightsUpdate(xs[..n], e, x);
      assert xs[e := x][..n] == xs[..n][e := x];
    } else {
      assert xs[e := x][..n] == xs[..n];
    }
  }

  /** Every move makes progress. */
  lemma MoveLeavesLess(p: Pool, m: Move)
    requires Inv(p) && Enabled(p, m)
    ensures Left(Do(p, m)) < Left(p)
  {
    hide Q.Inv, Q.ProducerStep, Q.ConsumerStep, Q.Measure, UnderWay, Weights, JobsDistinct, WithinBounds;
    if !m.Pick? {
      var x := p.extractions[m.e];
      assert JobsMatch(p, m.e);
      if m.Produces? { ProducerGoesOn(x.flow); Q.StepsDecrease(x.flow, Q.ProducerThread); }
      if m.Gets? || m.Goes? { ConsumerGoesOn(x.flow); Q.StepsDecrease(x.flow, Q.ConsumerTask); }
      WeightsUpdate(p.extractions, m.e, Do(p, m).extractions[m.e]);
      assert Do(p, m).extractions == p.extractions[m.e := Do(p, m).extractions[m.e]];
    }
  }

  /** A schedule without idle turns. */
  ghost predicate Effective(p: Pool, ms: seq<Move>) {
    forall k :: 0 <= k < |ms| ==> Enabled(Run(p, ms[..k]), ms[k])
  }

  lemma {:induction false} EffectiveRunsAreShort(p: Pool, ms: seq<Move>)
    requires Inv(p) && Effective(p, ms)
    ensures |ms| + Left(Run(p, ms)) <= Left(p)
  {
    hide Inv, Left, Enabled;
    if ms != [] {
      var init, m := ms[..|ms| - 1], ms[|ms| - 1];
      assert forall k :: 0 <= k < |init| ==> init[k] == ms[k] && init[..k] == ms[..k];
      EffectiveRunsAreShort(p, init);
      RunKeepsInv(p, init);
      MoveLeavesLess(Run(p, init), m);
    }
  }

  /** 6 moves for each chunk of an extraction, and 26 more. */
  function Budget(requests: seq<Request>): nat {
    if requests == [] then 0 else Budget(requests[..|requests| - 1]) + 6 * |requests[|requests| - 1].source.chunks| + 26
  }

  lemma {:induction false} BudgetAtStart(threads: nat, limit: nat, requests: seq<Request>)
    ensures Left(Start(threads, limit, requests)) == Budget(requests)
  {
    var n := |requests| - 1;
    if requests != [] {
      BudgetAtStart(threads, limit, requests[..n]);
      var xs, ys := Start(threads, limit, requests).extractions, Start(threads, limit, requests[..n]).extractions;
      assert forall e :: 0 <= e < n ==> xs[..n][e] == ys[e];
      assert xs[..n] == ys;
      assert Q.Measure(xs[n].flow) == 3 * |requests[n].source.chunks| + 11;
    }
  }

  lemma SomethingLeft(p: Pool, e: nat) returns (m: Move)
    requires Inv(p) && 0 < p.limit < p.threads && e < |p.extractions| && !Ended(p.extractions[e])
    ensures Enabled(p, m)
  {
    if f: nat :| f in UnderWay(p.extractions) {
      m := NeverStuck(p, f);
    } else {
      assert UnderWay(p.extractions) == {};
      assert e !in UnderWay(p.extractions);
      m := Begin(e);
    }
    hide JobsMatch, JobsDistinct, WithinBounds;
  }

  /**
   With fewer extractions at a time than threads every extraction ends, whatever the
   order of events and wherever streams and callbacks fail: a schedule without idle turns
   has at most 6n + 26 moves for each stream of n chunks, and where it cannot go on, every
   extraction has ended.
   */
  lemma ExtractionsAlwaysEnd(threads: nat, limit: nat, requests: seq<Request>, ms: seq<Move>)
    requires 0 < limit < threads && Effective(Start(threads, limit, requests), ms)
    ensures |ms| <= Budget(requests)
    ensures var p := Run(Start(threads, limit, requests), ms);
      (forall m :: !Enabled(p, m)) ==> |p.extractions| == |requests| && forall e :: 0 <= e < |requests| ==> Ended(p.extractions[e])
  {
    hide Run, Inv, Enabled, Effective, Left;
    var p0, p := Start(threads, limit, requests), Run(Start(threads, limit, requests), ms);
    StartKeepsInv(threads, limit, requests);
    RunKeepsInv(p0, ms);
    EffectiveRunsAreShort(p0, ms);
    BudgetAtStart(threads, limit, requests);
    forall e | 0 <= e < |requests| && (forall m :: !Enabled(p, m)) ensures Ended(p.extractions[e]) {
      if !Ended(p.extractions[e]) {
        var m := SomethingLeft(p, e);
      }
    }
  }

  // ---- as many extractions as threads: blocked for ever ----

  /** Every thread waits in a get whose producer waits for a thread. */
  ghost predicate Blocked(p: Pool) {
    && |p.running| == p.threads
    && forall j :: j in p.running ==>
         && j.Get? && j.e < |p.extractions|
         && p.extractions[j.e].flow.queue == [] && p.extractions[j.e].flow.consumer.Getting?
  }

  lemma {:induction false} BlockedForEver(p: Pool, ms: seq<Move>)
    requires Blocked(p)
    ensures Blocked(Run(p, ms)) && Run(p, ms).running == p.running
  {
    if ms != [] {
      BlockedForEver(p, ms[..|ms| - 1]);
      StaysBlocked(Run(p, ms[..|ms| - 1]), ms[|ms| - 1]);
      hide Step, Blocked;
    }
  }

  lemma StaysBlocked(p: Pool, m: Move)
    requires Blocked(p)
    ensures Blocked(Step(p, m)) && Step(p, m).running == p.running
  {
    hide UnderWay, Q.ProducerStep, Q.ConsumerStep;
  }

  function UpTo(n: nat): (s: set<nat>)
    ensures |s| == n && forall e: nat :: e in s <==> e < n
  {
    if n == 0 then {} else UpTo(n - 1) + {n - 1}
  }

  function GetsUpTo(n: nat): (s: set<Job>)
    ensures |s| == n && forall j :: j in s <==> j.Get? && j.e < n
  {
    if n == 0 then {} else GetsUpTo(n - 1) + {Get(n - 1)}
  }

  /** The first n extractions have begun, and their gets have taken n threads. */
  ghost predicate GetsFirst(p: Pool, threads: nat, limit: nat, requests: seq<Request>, n: nat) {
    && p.threads == threads && p.limit == limit && p.waiting == [] && |p.extractions| == |requests|
    && p.running == GetsUpTo(n)
    && forall e :: 0 <= e < |requests| ==> p.extractions[e] == Asked(requests[e], e < n)
  }

  lemma FirstUnderWay(p: Pool, threads: nat, limit: nat, requests: seq<Request>, n: nat)
    requires GetsFirst(p, threads, limit, requests, n) && n <= |requests|
    ensures |UnderWay(p.extractions)| == n
  {
    assert UnderWay(p.extractions) == UpTo(n);
  }

  lemma OneMoreGet(p: Pool, threads: nat, limit: nat, requests: seq<Request>, n: nat)
    requires n < |requests| && GetsFirst(p, threads, limit, requests, n) && n < threads && n < limit
    ensures GetsFirst(Step(Step(p, Begin(n)), Pick), threads, limit, requests, n + 1)
  {
    hide UnderWay;
    FirstUnderWay(p, threads, limit, requests, n);
    var p1 := Step(p, Begin(n));
    assert p1.waiting == [Get(n)] && p1.running == p.running;
  }

  lemma {:induction false} GetsCanComeFirst(threads: nat, limit: nat, requests: seq<Request>, n: nat) returns (ms: seq<Move>)
    requires n <= |requests| && n <= threads && n <= limit
    ensures GetsFirst(Run(Start(threads, limit, requests), ms), threads, limit, requests, n)
  {
    if n == 0 {
      ms := [];
    } else {
      hide Step, GetsFirst;
      var before := GetsCanComeFirst(threads, limit, requests, n - 1);
      ms := before + [Begin(n - 1), Pick];
      assert ms[..|ms| - 1][..|ms| - 2] == before;
      OneMoreGet(Run(Start(threads, limit, requests), before), threads, limit, requests, n - 1);
    }
  }

  ghost predicate CanEnd(p: Pool, e: nat) {
    exists ms :: EndsAfter(p, e, ms)
  }

  ghost predicate EndsAfter(p: Pool, e: nat, ms: seq<Move>) {
    e < |Run(p, ms).extractions| && Ended(Run(p, ms).extractions[e])
  }

  ghost predicate HasBegun(p: Pool, e: nat) {
    e < |p.extractions| && p.extractions[e].begun
  }

  lemma {:induction false} RunConcat(p: Pool, ms: seq<Move>, ns: seq<Move>)
    ensures Run(p, ms + ns) == Run(Run(p, ms), ns)
  {
    hide Step;
    if ns == [] {
      assert ms + ns == ms;
    } else {
      RunConcat(p, ms, ns[..|ns| - 1]);
      assert (ms + ns)[..|ms + ns| - 1] == ms + ns[..|ns| - 1];
    }
  }

  lemma {:induction false} CanBeEnded(p: Pool, e: nat) returns (ms: seq<Move>)
    requires Inv(p) && p.limit < p.threads && HasBegun(p, e)
    ensures EndsAfter(p, e, ms)
    decreases Left(p)
  {
    hide Inv, Left, Enabled, Do;
    if Ended(p.extractions[e]) {
      ms := [];
    } else {
      var m := NeverStuck(p, e);
      MoveLeavesLess(p, m);
      StepKeepsInv(p, m);
      StaysBegun(p, m, e);
      var rest := CanBeEnded(Step(p, m), e);
      ms := [m] + rest;
      assert [m][..0] == [];
      RunConcat(p, [m], rest);
    }
  }

  lemma StaysBegun(p: Pool, m: Move, e: nat)
    requires HasBegun(p, e)
    ensures HasBegun(Step(p, m), e)
  {
    hide UnderWay, Q.ProducerStep, Q.ConsumerStep;
  }

  /**
   Exactly when no extraction can be blocked for ever: whatever has happened, each one that
   has begun can still end, if and only if fewer extractions are let in at a time than the
   pool has threads.
   */
  lemma NeverBlockedIff(threads: nat, limit: nat, requests: seq<Request>)
    requires 0 < threads && limit <= |requests|
    ensures (forall ms, e :: HasBegun(Run(Start(threads, limit, requests), ms), e)
                             ==> CanEnd(Run(Start(threads, limit, requests), ms), e))
      <==> limit < threads
  {
    hide Run, Inv, HasBegun, GetsFirst, Blocked, EndsAfter;
    var p0 := Start(threads, limit, requests);
    if limit < threads {
      forall ms, e | HasBegun(Run(p0, ms), e) ensures CanEnd(Run(p0, ms), e) {
        StartKeepsInv(threads, limit, requests);
        RunKeepsInv(p0, ms);
        var more := CanBeEnded(Run(p0, ms), e);
      }
    } else {
      var ms := GetsCanComeFirst(threads, limit, requests, threads);
      NoEndWhenGetsComeFirst(Run(p0, ms), threads, limit, requests);
    }
  }

  /** The failing run: the gets of the first extractions take all threads before any producer is handed in. */
  lemma NoEndWhenGetsComeFirst(p: Pool, threads: nat, limit: nat, requests: seq<Request>)
    requires 0 < threads <= |requests| && GetsFirst(p, threads, limit, requests, threads)
    ensures HasBegun(p, 0) && !CanEnd(p, 0)
  {
    assert Blocked(p);
    assert Get(0) in p.running;
    forall ms ensures !EndsAfter(p, 0, ms) {
      BlockedForEver(p, ms);
      hide Run;
    }
  }
}
