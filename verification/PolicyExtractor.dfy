/**
 engine/policy_extractor.py, the streaming half: a producer thread puts chunks and a
 final sentinel on a queue while the caller takes them off and hands them to a
 callback. Every interleaving of the two is a schedule of single steps.
 */
module StreamQueue {
  import opened Wrappers

  /** What the model stream will do. Empty chunks are skipped by the producer. */
  datatype Source = Source(constructs: bool, chunks: seq<string>, completes: bool)

  datatype Producer = Starting | Streaming(i: nat) | Closing(raised: bool) | Finished(raised: bool)

  datatype Outcome = Returned(text: string) | StreamRaised | CallbackRaised

  datatype Consumer = Getting | Calling(chunk: string) | Awaiting | Done(outcome: Outcome)

  /** `failsAt`: which delivery makes the callback raise, if any. Items None are the sentinel. */
  datatype System = System(
    source: Source, failsAt: Option<nat>,
    producer: Producer, text: string, queue: seq<Option<string>>,
    consumer: Consumer, delivered: seq<string>)

  datatype Actor = ProducerThread | ConsumerTask

  function Start(source: Source, failsAt: Option<nat>): System {
    System(source, failsAt, Starting, "", [], Getting, [])
  }

  function ProducerStep(s: System): System {
    match s.producer
    case Starting => s.(producer := if s.source.constructs then Streaming(0) else Closing(true))
    case Streaming(i) =>
      if i >= |s.source.chunks| then s.(producer := Closing(!s.source.completes))
      else
        var chunk := s.source.chunks[i];
        if chunk == "" then s.(producer := Streaming(i + 1))
        else s.(producer := Streaming(i + 1), text := s.text + chunk, queue := s.queue + [Some(chunk)])
    case Closing(raised) => s.(producer := Finished(raised), queue := s.queue + [None])
    case Finished(_) => s
  }

  /** A get on an empty queue, and an await on an unfinished thread, leave the consumer where it is. */
  function ConsumerStep(s: System): System {
    match s.consumer
    case Getting =>
      if s.queue == [] then s
      else if s.queue[0].None? then s.(queue := s.queue[1..], consumer := Awaiting)
      else s.(queue := s.queue[1..], consumer := Calling(s.queue[0].value))
    case Calling(chunk) =>
      s.(delivered := s.delivered + [chunk],
         consumer := if s.failsAt == Some(|s.delivered|) then Done(CallbackRaised) else Getting)
    case Awaiting =>
      if s.producer.Finished? then s.(consumer := Done(if s.producer.raised then StreamRaised else Returned(s.text))) else s
    case Done(_) => s
  }

  function Step(s: System, a: Actor): System {
    if a == ProducerThread then ProducerStep(s) else ConsumerStep(s)
  }

  function Run(s: System, schedule: seq<Actor>): System
    decreases |schedule|
  {
    if schedule == [] then s else Run(Step(s, schedule[0]), schedule[1..])
  }

  // ---- what is delivered ----

  function NonEmpty(chunks: seq<string>): seq<string> {
    if chunks == [] then []
    else NonEmpty(chunks[..|chunks| - 1]) + if chunks[|chunks| - 1] == "" then [] else [chunks[|chunks| - 1]]
  }

  function Concat(chunks: seq<string>): string {
    if chunks == [] then "" else Concat(chunks[..|chunks| - 1]) + chunks[|chunks| - 1]
  }

  lemma ConcatSnoc(chunks: seq<string>, c: string)
    ensures Concat(chunks + [c]) == Concat(chunks) + c
  {
    assert (chunks + [c])[..|chunks|] == chunks;
  }

  /** The chunks on the queue, sentinel aside. */
  function Items(queue: seq<Option<string>>): seq<string> {
    if queue == [] then []
    else (if queue[0].Some? then [queue[0].value] else []) + Items(queue[1..])
  }

  lemma {:induction false} ItemsSnoc(queue: seq<Option<string>>, x: Option<string>)
    ensures Items(queue + [x]) == Items(queue) + if x.Some? then [x.value] else []
  {
    if queue == [] {
      assert queue + [x] == [x];
    } else {
      ItemsSnoc(queue[1..], x);
      assert (queue + [x])[1..] == queue[1..] + [x];
    }
  }

  /** The chunks the producer has put so far. */
  function Produced(s: System): seq<string> {
    match s.producer
    case Starting => []
    case Streaming(i) => if i <= |s.source.chunks| then NonEmpty(s.source.chunks[..i]) else []
    case _ => if s.source.constructs then NonEmpty(s.source.chunks) else []
  }

  function InHand(s: System): seq<string> {
    if s.consumer.Calling? then [s.consumer.chunk] else []
  }

  ghost predicate Raised(s: System) {
    !s.source.constructs || !s.source.completes
  }

  /** The caller has taken the sentinel off the queue. */
  ghost predicate PastSentinel(c: Consumer) {
    c.Awaiting? || (c.Done? && c.outcome != CallbackRaised)
  }

  /** The sentinel is the last item ever put, and the producer is finished once it is there. */
  ghost predicate SentinelLast(s: System) {
    && (forall k :: 0 <= k < |s.queue| - 1 ==> s.queue[k].Some?)
    && (s.queue != [] && s.queue[|s.queue| - 1].None? <==> s.producer.Finished? && !PastSentinel(s.consumer))
    && (PastSentinel(s.consumer) ==> s.producer.Finished? && s.queue == [])
  }

  ghost predicate ProducerInv(s: System) {
    && (s.producer.Streaming? ==> s.source.constructs && s.producer.i <= |s.source.chunks|)
    && (s.producer.Closing? || s.producer.Finished? ==> s.producer.raised == Raised(s))
    && s.text == Concat(Produced(s))
  }

  ghost predicate InOrder(s: System) {
    s.delivered + InHand(s) + Items(s.queue) == Produced(s)
  }

  ghost predicate OutcomeInv(s: System) {
    && (s.consumer == Done(StreamRaised) ==> Raised(s))
    && (s.consumer.Done? && s.consumer.outcome.Returned? ==> !Raised(s) && s.consumer.outcome.text == s.text)
    && (s.consumer == Done(CallbackRaised) <==> s.failsAt.Some? && |s.delivered| == s.failsAt.value + 1)
    && (s.failsAt.Some? ==> |s.delivered| <= s.failsAt.value + 1)
  }

  ghost predicate Inv(s: System) {
    ProducerInv(s) && SentinelLast(s) && InOrder(s) && OutcomeInv(s)
  }

  /** What one producer step puts on the queue. */
  function Added(s: System): seq<Option<string>> {
    match s.producer
    case Streaming(i) =>
      if i < |s.source.chunks| && s.source.chunks[i] != "" then [Some(s.source.chunks[i])] else []
    case Closing(_) => [None]
    case _ => []
  }

  lemma ProducerAdds(s: System)
    ensures var s' := ProducerStep(s);
      && s'.queue == s.queue + Added(s) && |Added(s)| <= 1
      && s'.source == s.source && s'.failsAt == s.failsAt && s'.consumer == s.consumer && s'.delivered == s.delivered
      && (s'.producer.Finished? && !s.producer.Finished? <==> Added(s) == [None])
      && (s.producer.Finished? ==> s' == s)
  {}

  lemma {:induction false} NonEmptySnoc(chunks: seq<string>, i: nat)
    requires i < |chunks|
    ensures NonEmpty(chunks[..i + 1]) == if chunks[i] == "" then NonEmpty(chunks[..i]) else NonEmpty(chunks[..i]) + [chunks[i]]
  {
    assert chunks[..i + 1][..i] == chunks[..i];
    assert NonEmpty(chunks[..i]) + [] == NonEmpty(chunks[..i]);
  }

  /** The chunk one producer step puts, if any. */
  function Chunk(s: System): seq<string> {
    if s.producer.Streaming? && s.producer.i < |s.source.chunks| && s.source.chunks[s.producer.i] != "" then
      [s.source.chunks[s.producer.i]]
    else []
  }

  lemma ItemsAdded(s: System)
    ensures Items(Added(s)) == Chunk(s)
  {}

  lemma ProducedGrows(s: System)
    requires ProducerInv(s)
    ensures Produced(ProducerStep(s)) == Produced(s) + Chunk(s)
  {
    hide NonEmpty, Concat;
    if s.producer.Streaming? {
      var i := s.producer.i;
      if i < |s.source.chunks| {
        NonEmptySnoc(s.source.chunks, i);
      } else {
        assert s.source.chunks[..i] == s.source.chunks;
      }
    } else {
      NothingProduced(s.source.chunks);
    }
  }

  lemma NothingProduced(chunks: seq<string>)
    ensures NonEmpty(chunks[..0]) == []
  {}

  lemma ProducerKeepsText(s: System)
    requires ProducerInv(s)
    ensures ProducerInv(ProducerStep(s))
  {
    hide NonEmpty, Concat, Produced;
    ProducedGrows(s);
    if Chunk(s) == [] {
      assert Produced(s) + [] == Produced(s);
    } else {
      ConcatSnoc(Produced(s), Chunk(s)[0]);
    }
  }

  /** Items appended are items appended, whether there is one or none. */
  lemma ItemsAppend(queue: seq<Option<string>>, added: seq<Option<string>>)
    requires |added| <= 1
    ensures Items(queue + added) == Items(queue) + Items(added)
  {
    if added == [] {
      assert queue + added == queue && Items(added) == [];
    } else {
      ItemsSnoc(queue, added[0]);
      assert added == [added[0]];
    }
  }

  lemma ProducerKeepsOrder(s: System)
    requires ProducerInv(s) && InOrder(s)
    ensures InOrder(ProducerStep(s))
  {
    hide ProducerStep, Added, Chunk, Produced, ProducerInv, Items;
    ProducerAdds(s);
    ProducedGrows(s);
    ItemsAdded(s);
    ItemsAppend(s.queue, Added(s));
    assert s.delivered + InHand(s) + (Items(s.queue) + Items(Added(s))) == Produced(s) + Items(Added(s));
  }

  lemma ProducerKeepsSentinel(s: System)
    requires SentinelLast(s)
    ensures SentinelLast(ProducerStep(s))
  {
    ProducerAdds(s);
    if !s.producer.Finished? {
      assert !PastSentinel(s.consumer);
      assert forall k :: 0 <= k < |s.queue| ==> s.queue[k].Some?;
    }
  }

  lemma ProducerKeepsInv(s: System)
    requires Inv(s)
    ensures Inv(ProducerStep(s))
  {
    ProducerKeepsText(s);
    ProducerKeepsOrder(s);
    ProducerKeepsSentinel(s);
    ProducerAdds(s);
    hide ProducerStep, Added, Produced, ProducerInv, InOrder, Items;
    assert SentinelLast(s);
  }

  lemma ConsumerKeepsOrder(s: System)
    requires InOrder(s)
    ensures InOrder(ConsumerStep(s))
  {
    var s' := ConsumerStep(s);
    assert Produced(s') == Produced(s);
    match s.consumer
    case Getting =>
      if s.queue != [] {
        assert Items(s.queue) == InHand(s') + Items(s'.queue);
        assert s'.delivered + InHand(s') + Items(s'.queue) == s.delivered + (InHand(s') + Items(s'.queue));
      }
    case Calling(chunk) => assert s'.delivered + InHand(s') == s.delivered + InHand(s);
    case _ =>
  }

  lemma ConsumerKeepsSentinel(s: System)
    requires SentinelLast(s)
    ensures SentinelLast(ConsumerStep(s))
  {
    if s.consumer.Getting? && s.queue != [] {
      assert s.queue[0].None? ==> |s.queue| == 1;
      assert |s.queue| > 1 ==> s.queue[1..][|s.queue| - 2] == s.queue[|s.queue| - 1];
    }
  }

  lemma ConsumerKeepsOutcome(s: System)
    requires ProducerInv(s) && OutcomeInv(s)
    ensures ProducerInv(ConsumerStep(s)) && OutcomeInv(ConsumerStep(s))
  {
    hide NonEmpty, Concat;
    assert Produced(ConsumerStep(s)) == Produced(s);
  }

  lemma StepKeepsInv(s: System, a: Actor)
    requires Inv(s)
    ensures Inv(Step(s, a)) && Step(s, a).source == s.source && Step(s, a).failsAt == s.failsAt
  {
    hide ProducerInv, SentinelLast, InOrder, OutcomeInv;
    if a == ProducerThread {
      ProducerKeepsInv(s);
      ProducerAdds(s);
      hide Inv, ProducerStep;
    } else {
      ConsumerKeepsOrder(s);
      ConsumerKeepsSentinel(s);
      ConsumerKeepsOutcome(s);
    }
  }

  lemma {:induction false} RunKeepsInv(s: System, schedule: seq<Actor>)
    requires Inv(s)
    ensures Inv(Run(s, schedule))
    ensures Run(s, schedule).source == s.source && Run(s, schedule).failsAt == s.failsAt
    decreases |schedule|
  {
    if schedule != [] {
      StepKeepsInv(s, schedule[0]);
      RunKeepsInv(Step(s, schedule[0]), schedule[1..]);
    }
  }

  lemma PrefixOf(a: seq<string>, b: seq<string>, c: seq<string>, p: seq<string>)
    requires a + b + c == p
    ensures a <= p
    ensures b == [] && c == [] ==> a == p
  {}

  /** All the chunks a source will produce. */
  function AllChunks(source: Source): seq<string> {
    if source.constructs then NonEmpty(source.chunks) else []
  }

  lemma DeliveredSoFar(s: System)
    requires Inv(s)
    ensures s.delivered <= Produced(s) <= AllChunks(s.source)
    ensures PastSentinel(s.consumer) ==> s.delivered == AllChunks(s.source)
  {
    ProducedIsPrefix(s);
    PrefixOf(s.delivered, InHand(s), Items(s.queue), Produced(s));
    if PastSentinel(s.consumer) {
      EmptyItems();
      assert s.producer.Finished? && s.queue == [] && InHand(s) == [];
    }
  }

  /**
   In every interleaving, with the producer failing anywhere (client construction
   included) and the callback raising on any delivery: the callback has received, in
   order, a prefix of the chunks produced. Once the caller is done: a returned text
   is the concatenation of all chunks, every one of them delivered; the stream's
   exception comes through exactly when the producer failed, after every chunk it did
   produce was delivered; a callback exception ends the loop at that delivery.
   */
  lemma CallbackReceivesChunksInOrder(source: Source, failsAt: Option<nat>, schedule: seq<Actor>)
    ensures
      var s := Run(Start(source, failsAt), schedule);
      && s.delivered <= Produced(s) <= AllChunks(source)
      && (s.consumer.Done? ==> match s.consumer.outcome
            case Returned(text) =>
              source.constructs && source.completes && s.delivered == AllChunks(source) && text == Concat(AllChunks(source))
            case StreamRaised => (!source.constructs || !source.completes) && s.delivered == AllChunks(source)
            case CallbackRaised => failsAt == Some(|s.delivered| - 1))
  {
    StartInv(source, failsAt);
    RunKeepsInv(Start(source, failsAt), schedule);
    DeliveredSoFar(Run(Start(source, failsAt), schedule));
    hide Run, NonEmpty, Concat, Items;
  }

  lemma StartInv(source: Source, failsAt: Option<nat>)
    ensures Inv(Start(source, failsAt))
  {}

  lemma EmptyItems()
    ensures Items([]) == []
  {}

  lemma ProducedIsPrefix(s: System)
    requires ProducerInv(s)
    ensures Produced(s) <= AllChunks(s.source)
    ensures s.producer.Finished? ==> Produced(s) == AllChunks(s.source)
  {
    if s.producer.Streaming? {
      PrefixProduced(s.source.chunks, s.producer.i);
    }
  }

  lemma {:induction false} PrefixProduced(chunks: seq<string>, i: nat)
    requires i <= |chunks|
    ensures NonEmpty(chunks[..i]) <= NonEmpty(chunks)
    decreases |chunks|
  {
    if i == |chunks| {
      assert chunks[..i] == chunks;
    } else {
      var init := chunks[..|chunks| - 1];
      PrefixProduced(init, i);
      assert init[..i] == chunks[..i];
    }
  }

  // ---- the consumer is never blocked for ever ----

  /** Steps the producer still has, and steps the consumer can still be made to take. */
  function ProducerLeft(s: System): nat {
    match s.producer
    case Starting => |s.source.chunks| + 3
    case Streaming(i) => if i <= |s.source.chunks| then |s.source.chunks| - i + 2 else 2
    case Closing(_) => 1
    case Finished(_) => 0
  }

  function Measure(s: System): nat {
    3 * ProducerLeft(s) + 2 * |s.queue| +
    match s.consumer case Getting => 2 case Calling(_) => 3 case Awaiting => 1 case Done(_) => 0
  }

  lemma ProducerStepDecreases(s: System)
    requires Inv(s) && ProducerStep(s) != s
    ensures Measure(ProducerStep(s)) < Measure(s)
  {
    ProducerAdds(s);
    ProducerHasLess(s);
    hide Inv, ProducerStep, Produced, ProducerLeft;
  }

  lemma ProducerHasLess(s: System)
    requires ProducerInv(s) && ProducerStep(s) != s
    ensures ProducerLeft(ProducerStep(s)) < ProducerLeft(s)
  {
    hide Produced, Concat;
  }

  lemma ConsumerStepDecreases(s: System)
    requires Inv(s) && ConsumerStep(s) != s
    ensures Measure(ConsumerStep(s)) < Measure(s)
  {
    hide Inv;
    assert ProducerLeft(ConsumerStep(s)) == ProducerLeft(s);
  }

  lemma StepsDecrease(s: System, a: Actor)
    requires Inv(s) && Step(s, a) != s
    ensures Measure(Step(s, a)) < Measure(s)
  {
    hide Inv, Measure, ProducerStep, ConsumerStep;
    if a == ProducerThread { ProducerStepDecreases(s); } else { ConsumerStepDecreases(s); }
  }

  /** As long as the caller is not done, one of the two can move: no deadlock. */
  lemma NeverStuck(s: System)
    requires Inv(s) && !s.consumer.Done?
    ensures ProducerStep(s) != s || ConsumerStep(s) != s
  {
    if s.producer.Finished? {
      match s.consumer
      case Getting =>
        assert s.queue != [];
        assert ConsumerStep(s).queue == s.queue[1..];
      case Calling(_) =>
        assert |ConsumerStep(s).delivered| == |s.delivered| + 1;
      case _ =>
    } else {
      assert ProducerStep(s).producer != s.producer;
    }
  }

  /** The same from the start of an attempt, at any moment of any schedule. */
  lemma NeverBlockedForEver(source: Source, failsAt: Option<nat>, schedule: seq<Actor>)
    ensures var s := Run(Start(source, failsAt), schedule);
      s.consumer.Done? || ProducerStep(s) != s || ConsumerStep(s) != s
  {
    StartInv(source, failsAt);
    RunKeepsInv(Start(source, failsAt), schedule);
    hide Run, Inv, ProducerStep, ConsumerStep;
    if !Run(Start(source, failsAt), schedule).consumer.Done? { NeverStuck(Run(Start(source, failsAt), schedule)); }
  }

  function Flatten(rounds: seq<seq<Actor>>): seq<Actor> {
    if rounds == [] then [] else rounds[0] + Flatten(rounds[1..])
  }

  lemma {:induction false} RunConcat(s: System, p: seq<Actor>, q: seq<Actor>)
    ensures Run(s, p + q) == Run(Run(s, p), q)
    decreases |p|
  {
    if p == [] {
      assert p + q == q;
    } else {
      RunConcat(Step(s, p[0]), p[1..], q);
      assert (p + q)[1..] == p[1..] + q;
    }
  }

  lemma {:induction false} RunNeverIncreases(s: System, schedule: seq<Actor>)
    requires Inv(s)
    ensures Measure(Run(s, schedule)) <= Measure(s)
    ensures s.consumer.Done? ==> Run(s, schedule).consumer == s.consumer
    decreases |schedule|
  {
    if schedule != [] {
      var s1 := Step(s, schedule[0]);
      if s1 != s { StepsDecrease(s, schedule[0]); }
      StepKeepsInv(s, schedule[0]);
      RunNeverIncreases(s1, schedule[1..]);
    }
  }

  /** In a stretch of the schedule in which an actor that can move gets a turn, something moves. */
  lemma {:induction false} TurnMakesProgress(s: System, a: Actor, round: seq<Actor>)
    requires Inv(s) && !s.consumer.Done? && Step(s, a) != s && a in round
    ensures Run(s, round).consumer.Done? || Measure(Run(s, round)) < Measure(s)
    decreases |round|
  {
    var b := round[0];
    var s1 := Step(s, b);
    StepKeepsInv(s, b);
    if s1 != s {
      StepsDecrease(s, b);
      RunNeverIncreases(s1, round[1..]);
    } else {
      TurnMakesProgress(s, a, round[1..]);
    }
  }

  /**
   Under any fair schedule the caller finishes: if each of `rounds` gives both sides
   at least one turn, in any order and number, then after as many rounds as the
   initial measure the consumer is done. It is never blocked for ever on the queue.
   */
  lemma {:induction false} FairScheduleFinishes(s: System, rounds: seq<seq<Actor>>)
    requires Inv(s) && |rounds| >= Measure(s)
    requires forall k :: 0 <= k < |rounds| ==> ProducerThread in rounds[k] && ConsumerTask in rounds[k]
    ensures Run(s, Flatten(rounds)).consumer.Done?
    decreases |rounds|
  {
    if s.consumer.Done? {
      RunNeverIncreases(s, Flatten(rounds));
    } else {
      NeverStuck(s);
      TurnMakesProgress(s, if ProducerStep(s) != s then ProducerThread else ConsumerTask, rounds[0]);
      RunConcat(s, rounds[0], Flatten(rounds[1..]));
      RunKeepsInv(s, rounds[0]);
      var s1 := Run(s, rounds[0]);
      if s1.consumer.Done? {
        RunNeverIncreases(s1, Flatten(rounds[1..]));
      } else {
        FairScheduleFinishes(s1, rounds[1..]);
      }
    }
  }

  /**
   An attempt always ends: under every schedule that gives both sides a turn in each of
   its rounds, 3n + 11 rounds after the start of a stream of n chunks the caller is done,
   wherever the producer or the callback fails.
   */
  lemma AttemptAlwaysEnds(source: Source, failsAt: Option<nat>, rounds: seq<seq<Actor>>)
    requires |rounds| >= 3 * |source.chunks| + 11
    requires forall k :: 0 <= k < |rounds| ==> ProducerThread in rounds[k] && ConsumerTask in rounds[k]
    ensures Run(Start(source, failsAt), Flatten(rounds)).consumer.Done?
  {
    StartInv(source, failsAt);
    assert Measure(Start(source, failsAt)) == 3 * |source.chunks| + 11;
    FairScheduleFinishes(Start(source, failsAt), rounds);
  }
}

/** engine/policy_extractor.py, the sequential code: the two loops over the queue and the two-attempt retry. */
module PolicyExtractor {
  import opened Wrappers
  import opened StreamQueue

  /** queue.Queue; None is the sentinel. */
  class ChunkQueue {
    var items: seq<Option<string>>

    constructor ()
      ensures items == []
    {
      items := [];
    }

    method Put(x: Option<string>)
      modifies this
      ensures items == old(items) + [x]
    {
      items := items + [x];
    }

    /** A get that does not block. */
    method Get() returns (x: Option<string>)
      requires items != []
      modifies this
      ensures x == old(items)[0] && items == old(items)[1..]
    {
      x := items[0];
      items := items[1..];
    }
  }

  function Wrap(chunks: seq<string>): seq<Option<string>> {
    seq(|chunks|, i requires 0 <= i < |chunks| => Some(chunks[i]))
  }

  lemma OneMoreItem(before: seq<Option<string>>, chunks: seq<string>, c: string)
    ensures before + Wrap(chunks) + [Some(c)] == before + Wrap(chunks + [c])
  {
    assert Wrap(chunks + [c]) == Wrap(chunks) + [Some(c)];
  }

  /** One turn of the producer's loop. */
  lemma StreamTurn(chunks: seq<string>, i: nat, before: seq<Option<string>>)
    requires i < |chunks|
    ensures var done, more := NonEmpty(chunks[..i]), NonEmpty(chunks[..i + 1]);
      && (chunks[i] == "" ==> more == done)
      && (chunks[i] != "" ==>
            before + Wrap(more) == before + Wrap(done) + [Some(chunks[i])] && Concat(more) == Concat(done) + chunks[i])
  {
    NonEmptySnoc(chunks, i);
    hide NonEmpty, Concat, Wrap;
    ConcatSnoc(NonEmpty(chunks[..i]), chunks[i]);
    OneMoreItem(before, NonEmpty(chunks[..i]), chunks[i]);
  }

  lemma NothingYet(before: seq<Option<string>>, chunks: seq<string>)
    ensures NonEmpty(chunks[..0]) == [] && Concat([]) == "" && before + Wrap([]) == before
    ensures NonEmpty(chunks[..|chunks|]) == NonEmpty(chunks)
  {
    assert chunks[..|chunks|] == chunks;
  }

  /** `_sync_stream_to_queue`: whatever happens, the sentinel is put, last. None is the exception. */
  method SyncStreamToQueue(source: Source, q: ChunkQueue) returns (text: Option<string>)
    modifies q
    ensures var all := AllChunks(source);
      && q.items == old(q.items) + Wrap(all) + [None]
      && text == if source.constructs && source.completes then Some(Concat(all)) else None
  {
    NothingYet(q.items, source.chunks);
    hide NonEmpty, Concat, Wrap;
    var fullText := "";
    if source.constructs {
      ghost var done := NonEmpty(source.chunks[..0]);
      var i := 0;
      while i < |source.chunks|
        invariant 0 <= i <= |source.chunks| && done == NonEmpty(source.chunks[..i])
        invariant q.items == old(q.items) + Wrap(done) && fullText == Concat(done)
      {
        var chunk := source.chunks[i];
        StreamTurn(source.chunks, i, old(q.items));
        done := NonEmpty(source.chunks[..i + 1]);
        if chunk != "" {
          fullText := fullText + chunk;
          q.Put(Some(chunk));
        }
        i := i + 1;
      }
    }
    q.Put(None);
    text := if source.constructs && source.completes then Some(fullText) else None;
  }

  /** The consumer's loop on a queue that already holds everything: it stops at the sentinel. */
  method Drain(q: ChunkQueue, ghost all: seq<string>) returns (received: seq<string>)
    requires q.items == Wrap(all) + [None]
    modifies q
    ensures received == all && q.items == []
  {
    received := [];
    var chunk := q.Get();
    while chunk.Some?
      invariant |received| <= |all| && received == all[..|received|]
      invariant [chunk] + q.items == Wrap(all[|received|..]) + [None]
      decreases |all| - |received| + if chunk.Some? then 1 else 0
    {
      assert chunk == (Wrap(all[|received|..]) + [None])[0];
      assert |received| < |all|;
      received := received + [chunk.value];
      assert q.items == (Wrap(all[|received| - 1..]) + [None])[1..] == Wrap(all[|received|..]) + [None];
      chunk := q.Get();
    }
    assert chunk == (Wrap(all[|received|..]) + [None])[0];
  }

  // ---- the retry ----

  datatype Terms = Terms(refundable: bool, penalty: Option<real>, isFailSafe: bool)

  /** What json.loads and the field checks make of a text. */
  datatype Parsed = Extracted(refundable: bool, penalty: Option<real>) | Malformed | ParserRaised

  const FAIL_SAFE := Terms(false, None, true)

  /** One attempt: the stream's outcome, parsed when a text came back. */
  function AttemptResult(outcome: Outcome, parse: string -> Parsed): Option<Terms> {
    if outcome.Returned? && parse(outcome.text).Extracted? then
      Some(Terms(parse(outcome.text).refundable, parse(outcome.text).penalty, false))
    else None
  }

  function ExtractedTerms(first: Outcome, second: Outcome, parse: string -> Parsed): Terms {
    var r1, r2 := AttemptResult(first, parse), AttemptResult(second, parse);
    if r1.Some? then r1.value else if r2.Some? then r2.value else FAIL_SAFE
  }

  /** The attempt came back with a text that parses. */
  predicate Readable(outcome: Outcome, parse: string -> Parsed) {
    outcome.Returned? && parse(outcome.text).Extracted?
  }

  /** The terms are what was read, word for word, and not flagged. */
  predicate Says(p: Parsed, t: Terms) {
    p.Extracted? && t.refundable == p.refundable && t.penalty == p.penalty && !t.isFailSafe
  }

  method ExtractPolicyTerms(first: Outcome, second: Outcome, parse: string -> Parsed) returns (terms: Terms)
    ensures terms == ExtractedTerms(first, second, parse)
    ensures Readable(first, parse) ==> Says(parse(first.text), terms)
    ensures !Readable(first, parse) && Readable(second, parse) ==> Says(parse(second.text), terms)
    ensures !Readable(first, parse) && !Readable(second, parse) ==> terms.isFailSafe && !terms.refundable
  {
    var attempt := 0;
    while attempt < 2
      invariant 0 <= attempt <= 2
      invariant attempt >= 1 ==> AttemptResult(first, parse).None?
      invariant attempt == 2 ==> AttemptResult(second, parse).None?
    {
      var outcome := if attempt == 0 then first else second;
      if outcome.Returned? {
        var data := parse(outcome.text);
        if data.Extracted? {
          return Terms(data.refundable, data.penalty, false);
        }
      }
      if attempt == 1 {
        return FAIL_SAFE;
      }
      attempt := attempt + 1;
    }
    terms := FAIL_SAFE;
  }

  /**
   The extractor fails closed, and otherwise says what it read: its answer is flagged
   fail-safe if and only if neither attempt came back with a text that parses, and a
   fail-safe answer never allows a refund. An unflagged answer has the `refundable` and the
   penalty that the first text that parses states.
   */
  lemma FailSafeIffBothAttemptsFail(first: Outcome, second: Outcome, parse: string -> Parsed)
    ensures var t := ExtractedTerms(first, second, parse);
      && (t.isFailSafe <==> !Readable(first, parse) && !Readable(second, parse))
      && (t.isFailSafe ==> !t.refundable && t.penalty.None?)
      && (Readable(first, parse) ==> Says(parse(first.text), t))
      && (!Readable(first, parse) && Readable(second, parse) ==> Says(parse(second.text), t))
  {}

  /**
   Through the queue, in any interleaving: when the caller is done, an attempt can
   only succeed on the complete text of a stream that was constructed and completed.
   */
  lemma AttemptSucceedsOnlyOnWholeText(source: Source, failsAt: Option<nat>, schedule: seq<Actor>, parse: string -> Parsed)
    requires Run(Start(source, failsAt), schedule).consumer.Done?
    ensures var outcome := Run(Start(source, failsAt), schedule).consumer.outcome;
      && (Readable(outcome, parse) ==>
            source.constructs && source.completes && outcome.text == Concat(NonEmpty(source.chunks)))
      && (AttemptResult(outcome, parse).Some? <==> Readable(outcome, parse))
  {
    CallbackReceivesChunksInOrder(source, failsAt, schedule);
  }
}
