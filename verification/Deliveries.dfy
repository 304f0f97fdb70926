/**
 Any number of deliveries of one workflow's messages, handled at the same time
 (compensating_agent/worker.py): the consumer starts a task for each message and sets no
 prefetch limit. Every call of `process_message` that can raise, every node's read, every
 effect and every checkpoint is one move, and a list of moves is an arbitrary
 interleaving of the tasks.
 */
module Deliveries {
  import opened Wrappers
  import opened Schemas
  import opened Tables
  import opened Saga
  import opened SagaLaws
  import opened SagaRecovery
  import opened Worker
  import SagaPosts
  import Proxy
  import SagaRuns
  import WorkerLaws
  import O = SagaOverlap

  /** Where a task is. `Entering` has looked for a checkpoint, `Working(i)` awaits invocation i. */
  datatype Phase = Opening | Reading | Entering(found: bool) | Working(run: nat) | Finished(outcome: Outcome) | Gone

  /** A message, with the failing step it brings, in the hands of the worker. Attempt 3 is the fallback without checkpointer. */
  datatype Task = Task(failing: Entry, attempt: nat, phase: Phase)

  datatype Site = Site(flow: O.Workflow, tasks: seq<Task>)

  datatype Move =
    | Arrive(failing: Entry)                    // a message is delivered
    | Connect(h: nat, failure: Option<Failure>) // get_graph returns or raises
    | Read(h: nat, failure: Option<Failure>)    // the checkpoint lookup returns or raises
    | Enter(h: nat)                             // ainvoke starts: from the checkpoint, or from the beginning
    | Go(h: nat, step: O.Event)                 // the awaited invocation goes on
    | Return(h: nat)                            // it returns
    | Raise(h: nat, exception: Failure)         // it raises
    | Lose(h: nat)                              // the process dies; several are lost one after the other
    | Outside(e: Effect)

  function Start(wid: string, w: World): Site {
    Site(O.Fresh(wid, w), [])
  }

  /** After an exception before any node: retry, fall back, or report. */
  function AfterEarly(t: Task, failure: Failure, nextRun: nat): Task {
    if t.attempt == 1 && failure.isConnError then t.(attempt := 2, phase := Opening)
    else if t.attempt == 2 && failure.isConnError then t.(attempt := 3, phase := Working(nextRun))
    else t.(phase := Finished(Reported))
  }

  /** After an exception of the invocation: retry or report. */
  function AfterLate(t: Task, failure: Failure): Task {
    if t.attempt == 1 && failure.isConnError then t.(attempt := 2, phase := Opening) else t.(phase := Finished(Reported))
  }

  predicate InPhase(s: Site, h: nat, phase: Phase) {
    h < |s.tasks| && s.tasks[h].phase == phase
  }

  predicate AtWork(s: Site, h: nat) {
    h < |s.tasks| && s.tasks[h].phase.Working? && s.tasks[h].phase.run < |s.flow.runs|
  }

  predicate Live(t: Task) {
    t.phase.Opening? || t.phase.Reading? || t.phase.Entering? || t.phase.Working?
  }

  function SetTask(s: Site, h: nat, t: Task): Site
    requires h < |s.tasks|
  {
    s.(tasks := s.tasks[h := t])
  }

  function Happens(s: Site, e: O.Event): Site {
    s.(flow := O.Apply(s.flow, e))
  }

  predicate Enters(s: Site, h: nat) {
    h < |s.tasks| && s.tasks[h].phase.Entering?
  }

  /** With a checkpoint found, `ainvoke` resumes from the one there is by now; else it starts from the beginning. */
  function EntryOf(s: Site, h: nat): O.Event
    requires Enters(s, h)
  {
    if s.tasks[h].phase.found then O.Start(s.tasks[h].failing) else O.StartAnew(s.tasks[h].failing)
  }

  /** A fallback starts its invocation at once. */
  function Early(s: Site, h: nat, failure: Failure): Site
    requires h < |s.tasks|
  {
    var t := AfterEarly(s.tasks[h], failure, |s.flow.runs|);
    SetTask(if t.attempt == 3 && t.phase.Working? then Happens(s, O.StartDegraded(s.tasks[h].failing)) else s, h, t)
  }

  function Step(s: Site, m: Move): Site {
    match m
    case Arrive(failing) => s.(tasks := s.tasks + [Task(failing, 1, Opening)])
    case Connect(h, failure) =>
      if !InPhase(s, h, Opening) then s
      else if failure.Some? then Early(s, h, failure.value)
      else SetTask(s, h, s.tasks[h].(phase := Reading))
    case Read(h, failure) =>
      if !InPhase(s, h, Reading) then s
      else if failure.Some? then Early(s, h, failure.value)
      else SetTask(s, h, s.tasks[h].(phase := Entering(s.flow.checkpoint.Some?)))
    case Enter(h) =>
      if !Enters(s, h) then s
      else SetTask(Happens(s, EntryOf(s, h)), h, s.tasks[h].(phase := Working(|s.flow.runs|)))
    case Go(h, step) =>
      if AtWork(s, h) && O.NamesOne(step) && !step.Quit? && O.Named(step) == s.tasks[h].phase.run then Happens(s, step) else s
    case Return(h) =>
      if AtWork(s, h) && s.flow.runs[s.tasks[h].phase.run].stage.Between? && !Runnable(s.flow.runs[s.tasks[h].phase.run].cfg) then
        SetTask(Happens(s, O.Quit(s.tasks[h].phase.run)), h,
                s.tasks[h].(phase := Finished(if s.tasks[h].attempt == 3 then CompletedDegraded else Completed)))
      else s
    case Raise(h, failure) =>
      if AtWork(s, h) then SetTask(Happens(s, O.Quit(s.tasks[h].phase.run)), h, AfterLate(s.tasks[h], failure)) else s
    case Lose(h) =>
      if AtWork(s, h) then SetTask(Happens(s, O.Quit(s.tasks[h].phase.run)), h, s.tasks[h].(phase := Gone))
      else if h < |s.tasks| && Live(s.tasks[h]) then SetTask(s, h, s.tasks[h].(phase := Gone))
      else s
    case Outside(e) => Happens(s, O.Elsewhere(e))
  }

  function Run(s: Site, ms: seq<Move>): Site {
    if ms == [] then s else Step(Run(s, ms[..|ms| - 1]), ms[|ms| - 1])
  }

  // ---- an interleaving of tasks is an interleaving of invocations ----

  /** The event a move is, if it is one. */
  function EventOf(s: Site, m: Move): seq<O.Event> {
    match m
    case Arrive(_) => []
    case Connect(h, failure) =>
      if InPhase(s, h, Opening) && failure.Some? && failure.value.isConnError && s.tasks[h].attempt == 2 then
        [O.StartDegraded(s.tasks[h].failing)]
      else []
    case Read(h, failure) =>
      if InPhase(s, h, Reading) && failure.Some? && failure.value.isConnError && s.tasks[h].attempt == 2 then
        [O.StartDegraded(s.tasks[h].failing)]
      else []
    case Enter(h) => if Enters(s, h) then [EntryOf(s, h)] else []
    case Go(h, step) =>
      if AtWork(s, h) && O.NamesOne(step) && !step.Quit? && O.Named(step) == s.tasks[h].phase.run then [step] else []
    case Return(h) =>
      if AtWork(s, h) && s.flow.runs[s.tasks[h].phase.run].stage.Between? && !Runnable(s.flow.runs[s.tasks[h].phase.run].cfg) then
        [O.Quit(s.tasks[h].phase.run)]
      else []
    case Raise(h, _) => if AtWork(s, h) then [O.Quit(s.tasks[h].phase.run)] else []
    case Lose(h) => if AtWork(s, h) then [O.Quit(s.tasks[h].phase.run)] else []
    case Outside(e) => [O.Elsewhere(e)]
  }

  /** Attempts are numbered 1, 2 and, for the fallback only, 3; the fallback begins at work. */
  ghost predicate Numbered(s: Site) {
    forall h :: 0 <= h < |s.tasks| ==>
      1 <= s.tasks[h].attempt <= 3 && (s.tasks[h].attempt == 3 ==> !s.tasks[h].phase.Opening? && !s.tasks[h].phase.Reading? && !s.tasks[h].phase.Entering?)
  }

  function FellBack(tasks: seq<Task>): nat {
    if tasks == [] then 0 else FellBack(tasks[..|tasks| - 1]) + if tasks[|tasks| - 1].attempt == 3 then 1 else 0
  }

  lemma {:induction false} FellBackUpdate(tasks: seq<Task>, h: nat, t: Task)
    requires h < |tasks|
    ensures FellBack(tasks[h := t]) == FellBack(tasks) + (if t.attempt == 3 then 1 else 0) - (if tasks[h].attempt == 3 then 1 else 0)
  {
    var n := |tasks| - 1;
    if h < n {
      FellBackUpdate(tasks[..n], h, t);
      assert tasks[h := t][..n] == tasks[..n][h := t];
    } else {
      assert tasks[h := t][..n] == tasks[..n];
    }
  }

  lemma FellBackAppend(tasks: seq<Task>, t: Task)
    ensures FellBack(tasks + [t]) == FellBack(tasks) + if t.attempt == 3 then 1 else 0
  {
    assert (tasks + [t])[..|tasks|] == tasks;
  }

  /** Invocations without checkpointer are the fallbacks of tasks. */
  ghost predicate Matched(s: Site, id: string) {
    Numbered(s) && O.Tally(s.flow.runs, id, O.Ignoring) == FellBack(s.tasks)
  }

  lemma MoveKeepsNumbered(s: Site, m: Move)
    requires Numbered(s)
    ensures Numbered(Step(s, m))
  {
    hide O.Apply, Runnable;
  }

  lemma EventOfMove(s: Site, m: Move)
    requires Numbered(s)
    ensures |EventOf(s, m)| <= 1
    ensures Step(s, m).flow == if EventOf(s, m) == [] then s.flow else O.Apply(s.flow, EventOf(s, m)[0])
  {
    hide O.Apply, Runnable;
  }

  lemma MoveIsEvent(s: Site, m: Move)
    requires Numbered(s)
    ensures Numbered(Step(s, m))
    ensures |EventOf(s, m)| <= 1 && Step(s, m).flow == O.Run(s.flow, EventOf(s, m))
  {
    hide O.Apply, O.Run, Step, EventOf, Numbered;
    MoveKeepsNumbered(s, m);
    EventOfMove(s, m);
    if EventOf(s, m) != [] {
      O.RunOne(s.flow, EventOf(s, m)[0]);
      assert EventOf(s, m) == [EventOf(s, m)[0]];
    } else {
      O.NoEvents(s.flow);
    }
  }

  /** No event but a degraded start adds an invocation without checkpointer. */
  lemma OnlyFallbacksIgnore(t: O.Workflow, e: O.Event, id: string)
    ensures O.Tally(O.Apply(t, e).runs, id, O.Ignoring) == O.Tally(t.runs, id, O.Ignoring) + if e.StartDegraded? then 1 else 0
  {
    hide Next, Effects, Runnable, ApplyEffect, PostedResults, O.Unfinished, O.Tally;
    var t', i := O.Apply(t, e), O.Named(e);
    if O.NamesOne(e) && i < |t.runs| {
      O.TallyUpdate(t.runs, i, t'.runs[i], id, O.Ignoring);
      assert t'.runs == t.runs[i := t'.runs[i]];
    } else if e.Start? || e.StartAnew? || e.StartDegraded? {
      O.TallyAppend(t.runs, t'.runs[|t.runs|], id, O.Ignoring);
      assert t'.runs == t.runs + [t'.runs[|t.runs|]];
    }
  }

  lemma MoveKeepsMatched(s: Site, m: Move, id: string)
    requires Matched(s, id)
    ensures Matched(Step(s, m), id)
  {
    hide O.Apply, O.Run, O.Tally, FellBack, Step, EventOf, Numbered;
    MoveIsEvent(s, m);
    MoveCountsFallback(s, m);
    EventOfMove(s, m);
    if EventOf(s, m) != [] {
      assert EventOf(s, m) == [EventOf(s, m)[0]];
      OnlyFallbacksIgnore(s.flow, EventOf(s, m)[0], id);
    }
  }

  lemma MoveCountsFallback(s: Site, m: Move)
    requires Numbered(s)
    ensures FellBack(Step(s, m).tasks) == FellBack(s.tasks) + if EventOf(s, m) != [] && EventOf(s, m)[0].StartDegraded? then 1 else 0
  {
    hide O.Apply, FellBack, Runnable;
    var s' := Step(s, m);
    if m.Arrive? {
      FellBackAppend(s.tasks, Task(m.failing, 1, Opening));
    } else if !m.Outside? && s'.tasks != s.tasks {
      FellBackUpdate(s.tasks, m.h, s'.tasks[m.h]);
    }
  }

  /** Every interleaving of tasks is an interleaving of invocations. */
  lemma {:induction false} MovesAreEvents(wid: string, w: World, ms: seq<Move>, id: string) returns (es: seq<O.Event>)
    ensures var s := Run(Start(wid, w), ms); s.flow == O.Run(O.Fresh(wid, w), es) && Matched(s, id)
  {
    es := [];
    if ms != [] {
      var s, m := Run(Start(wid, w), ms[..|ms| - 1]), ms[|ms| - 1];
      var before := MovesAreEvents(wid, w, ms[..|ms| - 1], id);
      hide Step, O.Apply, O.Run, O.Tally, EventOf;
      es := before + EventOf(s, m);
      O.RunConcat(O.Fresh(wid, w), before, EventOf(s, m));
      MoveKeepsMatched(s, m, id);
      MoveIsEvent(s, m);
    }
  }

  /**
   At most once for the worker, with messages handled at the same time, each for the failing
   step it brings: a step is POSTed
   at most once, plus once for each delivery whose invocation began while another one's
   was at work, for each invocation that ended inside `attempt_refund` on the step, and
   for each task that fell back.
   */
  lemma ConcurrentDeliveriesPostAtMostOnce(wid: string, w: World, ms: seq<Move>, id: string)
    requires DistinctIds(Run(Start(wid, w), ms).flow.world.ledger)
    ensures var s := Run(Start(wid, w), ms);
      Posts(s.flow.world, id) <= Posts(w, id) + 1 + s.flow.overlaps + O.Tally(s.flow.runs, id, O.Deaths) + FellBack(s.tasks)
  {
    var es := MovesAreEvents(wid, w, ms, id);
    hide Run, O.Run, O.Tally, Posts, DistinctIds;
    O.PostedAtMostOncePlusOverlaps(wid, w, es, id);
  }

  // ---- one message at a time ----

  /** Every invocation at work is awaited by a task. */
  ghost predicate Awaited(s: Site) {
    forall i :: 0 <= i < |s.flow.runs| && O.Active(s.flow.runs[i]) ==> exists h :: InPhase(s, h, Working(i))
  }

  /** At most the task delivered last is live. */
  ghost predicate OneLive(s: Site) {
    forall h :: 0 <= h < |s.tasks| - 1 ==> !Live(s.tasks[h])
  }

  /** A message is taken only when no earlier one is still being handled, as with a prefetch limit of one. */
  ghost predicate OneMessageAtATime(wid: string, w: World, ms: seq<Move>) {
    forall k :: 0 <= k < |ms| && ms[k].Arrive? ==>
      forall h :: 0 <= h < |Run(Start(wid, w), ms[..k]).tasks| ==> !Live(Run(Start(wid, w), ms[..k]).tasks[h])
  }

  /** A move concerns one task and at most the invocation it awaits or starts. */
  lemma MoveKeepsAwaited(s: Site, m: Move)
    requires Awaited(s)
    ensures Awaited(Step(s, m))
  {
    var s' := Step(s, m);
    forall i | 0 <= i < |s'.flow.runs| && O.Active(s'.flow.runs[i]) ensures exists h :: InPhase(s', h, Working(i)) {
      hide Step, O.Active;
      if i < |s.flow.runs| {
        NoneRevives(s, m, i);
        var h :| InPhase(s, h, Working(i));
        AwaitingGoesOn(s, m, h, i);
        assert InPhase(s', h, Working(i));
      } else {
        NewIsAwaited(s, m);
        assert InPhase(s', m.h, Working(i));
      }
    }
  }

  /** An invocation still at work was at work. */
  lemma NoneRevives(s: Site, m: Move, i: nat)
    requires i < |s.flow.runs| && i < |Step(s, m).flow.runs| && O.Active(Step(s, m).flow.runs[i])
    ensures O.Active(s.flow.runs[i])
  {
    hide Next, Effects, Runnable, ApplyEffect, O.DurableAtWork, PostedResults;
  }

  /** Who awaited an invocation that is still at work still does. */
  lemma AwaitingGoesOn(s: Site, m: Move, h: nat, i: nat)
    requires i < |s.flow.runs| && i < |Step(s, m).flow.runs| && O.Active(Step(s, m).flow.runs[i]) && InPhase(s, h, Working(i))
    ensures InPhase(Step(s, m), h, Working(i))
  {
    hide Next, Effects, Runnable, ApplyEffect, O.DurableAtWork, PostedResults;
  }

  lemma NewIsAwaited(s: Site, m: Move)
    requires |Step(s, m).flow.runs| > |s.flow.runs|
    ensures (m.Connect? || m.Read? || m.Enter?) && |Step(s, m).flow.runs| == |s.flow.runs| + 1
    ensures InPhase(Step(s, m), m.h, Working(|s.flow.runs|))
  {
    hide Next, Effects, Runnable, ApplyEffect, O.DurableAtWork, PostedResults;
  }

  lemma MoveKeepsOneLive(s: Site, m: Move)
    requires OneLive(s) && (m.Arrive? ==> forall h :: 0 <= h < |s.tasks| ==> !Live(s.tasks[h]))
    ensures OneLive(Step(s, m))
  {
    hide O.Apply, Runnable;
  }

  /** What a lone task found when it looked is still so when it starts. */
  ghost predicate UpToDate(s: Site) {
    forall h: nat :: Enters(s, h) ==> (s.tasks[h].phase.found <==> s.flow.checkpoint.Some?)
  }

  /** While a task is entering and no other is live, no invocation is at work. */
  lemma NobodyAtWork(s: Site, h: nat)
    requires Awaited(s) && OneLive(s) && Enters(s, h)
    ensures !O.DurableAtWork(s.flow.runs)
  {
    assert Live(s.tasks[h]) && h == |s.tasks| - 1;
    assert forall g :: 0 <= g < |s.tasks| && Live(s.tasks[g]) ==> g == h;
    assert forall g: nat, i: nat :: InPhase(s, g, Working(i)) ==> Live(s.tasks[g]);
  }

  lemma MoveKeepsUpToDate(s: Site, m: Move)
    requires OneLive(s) && UpToDate(s)
    ensures UpToDate(Step(s, m))
  {
    hide Next, Effects, Runnable, ApplyEffect, O.DurableAtWork;
    var s' := Step(s, m);
    forall h: nat | Enters(s', h) ensures s'.tasks[h].phase.found <==> s'.flow.checkpoint.Some? {
      if Enters(s, h) && s'.tasks[h] == s.tasks[h] {
        assert Live(s.tasks[h]);
        assert forall g :: 0 <= g < |s.tasks| && Live(s.tasks[g]) ==> g == h;
        assert s'.flow.checkpoint.Some? <==> s.flow.checkpoint.Some?;
      }
    }
  }

  lemma LoneStartDoesNotOverlap(s: Site, m: Move)
    requires Awaited(s) && OneLive(s) && Numbered(s) && UpToDate(s)
    ensures Step(s, m).flow.overlaps == s.flow.overlaps
  {
    if m.Enter? && Enters(s, m.h) { NobodyAtWork(s, m.h); }
    assert EventOf(s, m) != [] && (EventOf(s, m)[0].Start? || EventOf(s, m)[0].StartAnew?) ==>
      m.Enter? && Enters(s, m.h) && (EventOf(s, m)[0].StartAnew? ==> s.flow.checkpoint.None?);
    hide O.Apply, O.Run, O.DurableAtWork, Step, EventOf, Awaited, OneLive, Numbered, UpToDate;
    EventOfMove(s, m);
    if EventOf(s, m) != [] {
      assert EventOf(s, m) == [EventOf(s, m)[0]];
      O.OverlapsGrow(s.flow, EventOf(s, m)[0]);
    }
  }

  lemma NobodyLive(wid: string, w: World)
    ensures var s := Start(wid, w); Awaited(s) && OneLive(s) && Numbered(s) && UpToDate(s)
  {}

  /**
   With one message at a time nothing overlaps: the worker would then POST a step at most
   once, plus once for each exception inside `attempt_refund` on it and each fallback.
   */
  lemma {:induction false} OneMessageNeverOverlaps(wid: string, w: World, ms: seq<Move>)
    requires OneMessageAtATime(wid, w, ms)
    ensures var s := Run(Start(wid, w), ms); s.flow.overlaps == 0 && Awaited(s) && OneLive(s) && Numbered(s) && UpToDate(s)
  {
    if ms != [] {
      var init, m := ms[..|ms| - 1], ms[|ms| - 1];
      var s := Run(Start(wid, w), init);
      assert forall k :: 0 <= k < |init| ==> init[k] == ms[k] && init[..k] == ms[..k];
      assert ms[..|init|] == init;
      hide Step, Awaited, OneLive, Live, UpToDate, Numbered;
      OneMessageNeverOverlaps(wid, w, init);
      MoveKeepsAwaited(s, m);
      MoveKeepsOneLive(s, m);
      MoveKeepsUpToDate(s, m);
      LoneStartDoesNotOverlap(s, m);
      MoveIsEvent(s, m);
    } else {
      NobodyLive(wid, w);
    }
  }

  // ---- messages handled at the same time do repeat refunds ----

  lemma {:induction false} RunConcat(s: Site, ms: seq<Move>, ns: seq<Move>)
    ensures Run(s, ms + ns) == Run(Run(s, ms), ns)
  {
    hide Step;
    if ns == [] {
      assert ms + ns == ms;
    } else {
      RunConcat(s, ms, ns[..|ns| - 1]);
      InitOfAppend(ms, ns);
    }
  }

  lemma RunOne(s: Site, m: Move)
    ensures Run(s, [m]) == Step(s, m)
  {
    assert [m][..0] == [];
  }

  lemma RunTwo(s: Site, m: Move, n: Move)
    ensures Run(s, [m, n]) == Step(Step(s, m), n)
  {
    hide Step;
    assert [m, n] == [m] + [n];
    RunConcat(s, [m], [n]);
    RunOne(s, m);
    RunOne(Step(s, m), n);
  }

  lemma RunThree(s: Site, m: Move, n: Move, o: Move)
    ensures Run(s, [m, n, o]) == Step(Step(Step(s, m), n), o)
  {
    hide Step;
    assert [m, n, o] == [m, n] + [o];
    RunConcat(s, [m, n], [o]);
    RunTwo(s, m, n);
    RunOne(Step(Step(s, m), n), o);
  }

  /** Without a checkpoint and with nobody at work, starting anew and starting are the same. */
  lemma AnewIsStart(t: O.Workflow, failing: Entry)
    requires t.checkpoint.None? && !O.DurableAtWork(t.runs)
    ensures O.Apply(t, O.StartAnew(failing)) == O.Apply(t, O.Start(failing))
  {}

  /** Task h brought `fs[h]`, is in its first attempt and awaits the invocation of its own number. */
  ghost predicate OneEach(s: Site, fs: seq<Entry>) {
    && |s.tasks| == |s.flow.runs| == |fs|
    && (forall h :: 0 <= h < |fs| ==> s.tasks[h] == Task(fs[h], 1, Working(h)))
    && (s.flow.checkpoint.None? ==> s.flow.runs == [])
  }

  lemma NobodyYet(runs: seq<O.Invocation>)
    requires runs == []
    ensures !O.DurableAtWork(runs)
  {}

  /** The moves of one more message, up to its start. */
  lemma StartIsAnArrival(s: Site, fs: seq<Entry>, failing: Entry)
    requires OneEach(s, fs)
    ensures var h := |s.tasks|;
      var s' := Run(s, [Arrive(failing), Connect(h, None), Read(h, None)] + [Enter(h)]);
      s'.flow == O.Apply(s.flow, O.Start(failing)) && OneEach(s', fs + [failing])
  {
    hide Run, O.Apply;
    var h := |s.tasks|;
    var s1 := s.(tasks := s.tasks + [Task(failing, 1, Entering(s.flow.checkpoint.Some?))]);
    RunThree(s, Arrive(failing), Connect(h, None), Read(h, None));
    RunConcat(s, [Arrive(failing), Connect(h, None), Read(h, None)], [Enter(h)]);
    assert Run(s, [Arrive(failing), Connect(h, None), Read(h, None)]) == s1;
    RunOne(s1, Enter(h));
    if s.flow.checkpoint.None? { NobodyYet(s.flow.runs); AnewIsStart(s.flow, failing); }
    O.StartAdds(s.flow, O.Start(failing));
  }

  lemma PlainIsMoves(s: Site, fs: seq<Entry>, e: O.Event) returns (ms: seq<Move>)
    requires OneEach(s, fs) && O.Plain(e)
    ensures Run(s, ms).flow == O.Apply(s.flow, e) && OneEach(Run(s, ms), fs + if e.Start? then [e.failing] else [])
  {
    hide Run, OneEach;
    if e.Start? {
      var h := |s.tasks|;
      ms := [Arrive(e.failing), Connect(h, None), Read(h, None)] + [Enter(h)];
      StartIsAnArrival(s, fs, e.failing);
    } else {
      assert fs + [] == fs;
      WorkIsAMove(s, fs, e);
      if O.Named(e) < |s.tasks| {
        ms := [Go(O.Named(e), e)];
        RunOne(s, Go(O.Named(e), e));
      } else {
        ms := [];
        NoMoves(s);
      }
    }
  }

  lemma WorkIsAMove(s: Site, fs: seq<Entry>, e: O.Event)
    requires OneEach(s, fs) && O.Plain(e) && !e.Start?
    ensures O.Named(e) < |s.tasks| ==>
      var s' := Step(s, Go(O.Named(e), e)); s'.flow == O.Apply(s.flow, e) && OneEach(s', fs)
    ensures O.Named(e) >= |s.tasks| ==> O.Apply(s.flow, e) == s.flow
  {
    hide Next, Effects, Runnable, ApplyEffect;
  }

  lemma NoMoves(s: Site)
    ensures Run(s, []) == s
  {}

  lemma {:induction false} AllPlainIsMoves(wid: string, w: World, es: seq<O.Event>) returns (ms: seq<Move>)
    requires O.AllPlain(es)
    ensures var s := Run(Start(wid, w), ms); s.flow == O.Run(O.Fresh(wid, w), es) && OneEach(s, O.Starts(es))
  {
    ms := [];
    if es != [] {
      hide Step, O.Apply, OneEach;
      var before := AllPlainIsMoves(wid, w, es[..|es| - 1]);
      var more := PlainIsMoves(Run(Start(wid, w), before), O.Starts(es[..|es| - 1]), es[|es| - 1]);
      ms := before + more;
      RunConcat(Start(wid, w), before, more);
    } else {
      NothingYet(wid, w);
    }
  }

  lemma NothingYet(wid: string, w: World)
    ensures OneEach(Start(wid, w), []) && O.Run(O.Fresh(wid, w), []) == O.Fresh(wid, w) && O.Starts([]) == []
  {}

  lemma {:induction false} NoneFellBack(tasks: seq<Task>)
    requires forall h :: 0 <= h < |tasks| ==> tasks[h].attempt == 1
    ensures FellBack(tasks) == 0
  {
    if tasks != [] {
      NoneFellBack(tasks[..|tasks| - 1]);
    }
  }

  /**
   What the worker does with any n + 1 messages of one workflow, whatever failing steps
   they bring: without any exception, death or fallback they can POST every step of the
   first one's plan that is at a reachable merchant n + 1 times.
   */
  lemma BurstRepeatsRefunds(wid: string, w: World, fs: seq<Entry>, i: nat) returns (ms: seq<Move>)
    requires fs != [] && DistinctIds(w.ledger) && i < |PlanFrom(w.ledger, InitialState(wid, fs[0]))|
    requires SagaPosts.Reachable(w.breakers, PlanFrom(w.ledger, InitialState(wid, fs[0]))[i].merchant)
    ensures var s := Run(Start(wid, w), ms);
      var id := PlanFrom(w.ledger, InitialState(wid, fs[0]))[i].stepId;
      && FromMessages(s, fs) && FellBack(s.tasks) == 0 && O.Undisturbed(s.flow)
      && Posts(s.flow.world, id) == Posts(w, id) + |fs|
  {
    var es := O.OverlapBoundIsReached(wid, w, fs, i);
    ms := AllPlainIsMoves(wid, w, es);
    NoneFellBack(Run(Start(wid, w), ms).tasks);
    hide Run, O.Run, Posts, PlanFrom, DistinctIds, O.Starts;
  }

  /** One task for each message, in order of arrival. */
  ghost predicate FromMessages(s: Site, fs: seq<Entry>) {
    |s.tasks| == |fs| && forall h :: 0 <= h < |fs| ==> s.tasks[h].failing == fs[h]
  }

  /**
   The burst that `/pay` can cause: if n + 1 refused payments of a workflow have each
   published a message, then, without any exception, death or fallback, the worker can
   POST a refund of every settled row of the workflow at a reachable merchant n + 1 times.
   */
  lemma RefusalBurstRepeatsRefunds(acts: seq<Proxy.Act>, wid: string, w: World, fs: seq<Entry>, e: Entry) returns (ms: seq<Move>)
    requires fs != [] && forall f :: f in fs ==> f in Proxy.History(Proxy.START, acts).compensations
    requires Proxy.History(Proxy.START, acts).ledger <= w.ledger && DistinctIds(w.ledger)
    requires e in w.ledger && e.workflowId == wid && e.actual.status == Settled && SagaPosts.Reachable(w.breakers, e.merchant)
    ensures var s := Run(Start(wid, w), ms);
      && FromMessages(s, fs) && FellBack(s.tasks) == 0 && O.Undisturbed(s.flow)
      && Posts(s.flow.world, e.stepId) == Posts(w, e.stepId) + |fs|
  {
    hide Proxy.History, Run, Posts, PlanFrom, SagaPosts.Reachable, FellBack, O.Undisturbed;
    assert fs[0] in fs;
    SagaRuns.PublishedUndoesAllSettled(acts, w.ledger, wid, fs[0], e);
    var i :| 0 <= i < |PlanFrom(w.ledger, InitialState(wid, fs[0]))| && PlanFrom(w.ledger, InitialState(wid, fs[0]))[i] == e;
    ms := BurstRepeatsRefunds(wid, w, fs, i);
  }

  // ---- one task by itself is process_message ----

  function Gos(h: nat, es: seq<O.Event>): seq<Move> {
    seq(|es|, k requires 0 <= k < |es| => Go(h, es[k]))
  }

  ghost predicate WorkOf(e: O.Event, i: nat) {
    O.NamesOne(e) && !e.Quit? && O.Named(e) == i
  }

  lemma {:induction false} GoAll(s: Site, h: nat, i: nat, es: seq<O.Event>)
    requires InPhase(s, h, Working(i)) && i < |s.flow.runs| && forall k :: 0 <= k < |es| ==> WorkOf(es[k], i)
    ensures Run(s, Gos(h, es)) == s.(flow := O.Run(s.flow, es))
    ensures |O.Run(s.flow, es).runs| == |s.flow.runs|
  {
    hide Next, Effects, Runnable, ApplyEffect;
    if es != [] {
      var init := es[..|es| - 1];
      GoAll(s, h, i, init);
      assert Gos(h, es)[..|es| - 1] == Gos(h, init);
      assert WorkOf(es[|es| - 1], i);
      var s1 := s.(flow := O.Run(s.flow, init));
      assert Step(s1, Go(h, es[|es| - 1])) == s.(flow := O.Apply(s1.flow, es[|es| - 1]));
    }
  }

  /** A task whose invocation stands for the sequential one. */
  ghost predicate Awaits(s: Site, h: nat, seqn: System, id: string) {
    && s.flow.runs != [] && InPhase(s, h, Working(|s.flow.runs| - 1)) && seqn.memory != Idle
    && MemoryOk(seqn) && O.StandsFor(s.flow, seqn) && O.CountsAlike(s.flow, seqn, id)
  }

  function AfterInvocation(t: Task, failure: Option<Failure>): Task {
    if failure.Some? then AfterLate(t, failure.value)
    else t.(phase := Finished(if t.attempt == 3 then CompletedDegraded else Completed))
  }

  lemma NodeIsMoves(s: Site, h: nat, seqn: System, ans: Answer, id: string) returns (ms: seq<Move>)
    requires Awaits(s, h, seqn, id) && CanRun(seqn.memory)
    ensures Awaits(Run(s, ms), h, SagaRecovery.Apply(seqn, RunNode(ans)), id) && Run(s, ms).tasks == s.tasks
  {
    hide Run, O.Run, O.StandsFor, O.CountsAlike, MemoryOk, SagaRecovery.Apply, O.NodeEvents;
    var last := |s.flow.runs| - 1;
    LastStands(s.flow, seqn);
    NodeGoesOn(seqn, ans);
    O.NodeIsPlain(s.flow, last, ans);
    O.NodeIsSpelled(s.flow, seqn, ans, id);
    var es := O.NodeEvents(s.flow, last, ans);
    forall k | 0 <= k < |es| ensures WorkOf(es[k], last) {
      assert es[k] in es;
    }
    GoAll(s, h, last, es);
    ms := Gos(h, es);
  }

  lemma LastStands(t: O.Workflow, seqn: System)
    requires O.StandsFor(t, seqn) && seqn.memory != Idle && t.runs != []
    ensures var r := t.runs[|t.runs| - 1]; r.cfg == seqn.memory.cfg && r.stage.Between?
  {}

  /** The invocation ends between two nodes: it returns at the end, or raises. */
  lemma StopIsMoves(s: Site, h: nat, seqn: System, failure: Option<Failure>, id: string) returns (ms: seq<Move>)
    requires Awaits(s, h, seqn, id) && (failure.None? ==> !CanRun(seqn.memory))
    ensures var s' := Run(s, ms);
      && O.StandsFor(s'.flow, SagaRecovery.Apply(seqn, Stop)) && O.CountsAlike(s'.flow, SagaRecovery.Apply(seqn, Stop), id)
      && s'.tasks == s.tasks[h := AfterInvocation(s.tasks[h], failure)]
  {
    hide Run, O.Run, O.StandsFor, O.CountsAlike, MemoryOk, SagaRecovery.Apply, O.Apply;
    LastStands(s.flow, seqn);
    O.RestIsSpelled(s.flow, seqn, Stop, id);
    O.RunOne(s.flow, O.Quit(|s.flow.runs| - 1));
    var m := if failure.None? then Return(h) else Raise(h, failure.value);
    ms := [m];
    RunOne(s, m);
  }

  /** The invocation raises inside a node. */
  lemma RaiseIsMoves(s: Site, h: nat, seqn: System, ans: Answer, j: nat, failure: Failure, id: string) returns (ms: seq<Move>)
    requires Awaits(s, h, seqn, id) && CanRun(seqn.memory)
    ensures var s', seqn' := Run(s, ms), SagaRecovery.Apply(seqn, DieInside(ans, j));
      && O.StandsFor(s'.flow, seqn') && O.CountsAlike(s'.flow, seqn', id)
      && s'.tasks == s.tasks[h := AfterInvocation(s.tasks[h], Some(failure))]
  {
    hide Run, O.Run, O.StandsFor, O.CountsAlike, MemoryOk, SagaRecovery.Apply, O.Apply, Effects;
    LastStands(s.flow, seqn);
    O.DeathIsSpelled(s.flow, seqn, ans, j, id);
    var last := |s.flow.runs| - 1;
    var m := |Effects(s.flow.runs[last].cfg, s.flow.world, ans)|;
    var work := [O.Begin(last, ans)] + O.Acts(last, if j <= m then j else m);
    GoAll(s, h, last, work);
    var s1 := s.(flow := O.Run(s.flow, work));
    O.RunConcat(s.flow, work, [O.Quit(last)]);
    O.RunOne(s1.flow, O.Quit(last));
    ms := Gos(h, work) + [Raise(h, failure)];
    RunConcat(s, Gos(h, work), [Raise(h, failure)]);
    RunOne(s1, Raise(h, failure));
  }

  lemma {:induction false} StretchIsMoves(s: Site, h: nat, seqn: System, script: Script, k: nat, id: string) returns (ms: seq<Move>)
    requires Awaits(s, h, seqn, id)
    ensures var s', r := Run(s, ms), Stretch(seqn, script, k);
      && O.StandsFor(s'.flow, r.0) && O.CountsAlike(s'.flow, r.0, id)
      && s'.tasks == s.tasks[h := AfterInvocation(s.tasks[h], r.1)]
    decreases if CanRun(seqn.memory) then Measure(seqn.memory.cfg, seqn.world) + 1 else 0
  {
    hide Run, O.StandsFor, O.CountsAlike, MemoryOk, SagaRecovery.Apply, Measure;
    if !CanRun(seqn.memory) {
      ms := StopIsMoves(s, h, seqn, None, id);
    } else if script.fault.Some? && script.fault.value.after == k {
      var b := script.fault.value;
      if b.inside.None? {
        ms := StopIsMoves(s, h, seqn, Some(b.failure), id);
      } else {
        ms := RaiseIsMoves(s, h, seqn, script.oracle(k), b.inside.value, b.failure, id);
      }
    } else {
      NodeGoesOn(seqn, script.oracle(k));
      var first := NodeIsMoves(s, h, seqn, script.oracle(k), id);
      var rest := StretchIsMoves(Run(s, first), h, SagaRecovery.Apply(seqn, RunNode(script.oracle(k))), script, k + 1, id);
      ms := first + rest;
      RunConcat(s, first, rest);
    }
  }

  /** Nobody else is at work, and the books are those of the sequential state. */
  ghost predicate Alone(s: Site, seqn: System, id: string) {
    MemoryOk(seqn) && seqn.memory == Idle && O.StandsFor(s.flow, seqn) && O.CountsAlike(s.flow, seqn, id)
  }

  /** The task `h` opens and reads without an exception; its invocation has started. */
  lemma StartIsMoves(s: Site, h: nat, seqn: System, id: string) returns (ms: seq<Move>)
    requires Alone(s, seqn, id) && InPhase(s, h, Opening)
    ensures var s' := Run(s, ms);
      && Awaits(s', h, SagaRecovery.Apply(seqn, Deliver(s.tasks[h].failing)), id)
      && s'.tasks == s.tasks[h := s.tasks[h].(phase := Working(|s.flow.runs|))]
  {
    hide Run, O.Run, O.StandsFor, O.CountsAlike, MemoryOk, SagaRecovery.Apply, O.Apply, O.DurableAtWork;
    var failing := s.tasks[h].failing;
    ApplyKeepsMemory(seqn, Deliver(failing));
    DeliverWakes(seqn, Deliver(failing));
    O.StartIsSpelled(s.flow, seqn, Deliver(failing), id);
    O.RunOne(s.flow, O.Start(failing));
    O.StartAdds(s.flow, O.Start(failing));
    AloneAtWork(s, seqn, id);
    if s.flow.checkpoint.None? { AnewIsStart(s.flow, failing); }
    ms := [Connect(h, None), Read(h, None), Enter(h)];
    RunThree(s, Connect(h, None), Read(h, None), Enter(h));
  }

  lemma AloneAtWork(s: Site, seqn: System, id: string)
    requires Alone(s, seqn, id)
    ensures !O.DurableAtWork(s.flow.runs)
  {}

  lemma DeliverWakes(seqn: System, e: SagaRecovery.Event)
    requires (e.Deliver? || e.DeliverDegraded?) && seqn.memory == Idle
    ensures SagaRecovery.Apply(seqn, e).memory != Idle
  {}

  /** One attempt of task `h`. */
  lemma TryIsMoves(s: Site, h: nat, seqn: System, mustOpen: bool, t: Try, id: string) returns (ms: seq<Move>)
    requires Alone(s, seqn, id) && InPhase(s, h, Opening)
    ensures var s', r := Run(s, ms), TryOnce(seqn, s.tasks[h].failing, mustOpen, t);
      && (r.early ==> r.failure.Some? && r.system == seqn && s' == Early(s, h, r.failure.value))
      && (!r.early ==> Alone(s', r.system, id) && s'.tasks == s.tasks[h := AfterInvocation(s.tasks[h], r.failure)])
  {
    hide Run, O.StandsFor, O.CountsAlike, MemoryOk, SagaRecovery.Apply, O.Apply, Stretch;
    var failing := s.tasks[h].failing;
    TryKeepsMemory(seqn, failing, mustOpen, t);
    if mustOpen && t.opening.Some? {
      ms := [Connect(h, t.opening)];
      RunOne(s, Connect(h, t.opening));
    } else if t.preflight.Some? {
      ms := [Connect(h, None), Read(h, t.preflight)];
      RunTwo(s, Connect(h, None), Read(h, t.preflight));
    } else {
      ApplyKeepsMemory(seqn, Deliver(failing));
      var first := StartIsMoves(s, h, seqn, id);
      var rest := StretchIsMoves(Run(s, first), h, SagaRecovery.Apply(seqn, Deliver(failing)), t.script, 0, id);
      ms := first + rest;
      RunConcat(s, first, rest);
    }
  }

  /** The fallback of task `h`, from the moment its second attempt failed early. */
  lemma FallbackIsMoves(s: Site, h: nat, seqn: System, failure: Failure, fallback: Script, id: string) returns (ms: seq<Move>)
    requires Alone(s, seqn, id) && h < |s.tasks| && s.tasks[h].attempt == 2 && failure.isConnError
    requires MemoryOk(SagaRecovery.Apply(seqn, DeliverDegraded(s.tasks[h].failing)))
    ensures var s', r := Run(Early(s, h, failure), ms), Stretch(SagaRecovery.Apply(seqn, DeliverDegraded(s.tasks[h].failing)), fallback, 0);
      && O.StandsFor(s'.flow, r.0)
      && s'.tasks == s.tasks[h := Task(s.tasks[h].failing, 3, Finished(if r.1.None? then CompletedDegraded else Reported))]
  {
    hide Run, O.Run, O.StandsFor, O.CountsAlike, MemoryOk, SagaRecovery.Apply, O.Apply, Stretch;
    var degraded := DeliverDegraded(s.tasks[h].failing);
    DeliverWakes(seqn, degraded);
    O.StartIsSpelled(s.flow, seqn, degraded, id);
    O.RunOne(s.flow, O.StartDegraded(s.tasks[h].failing));
    O.StartAdds(s.flow, O.StartDegraded(s.tasks[h].failing));
    ms := StretchIsMoves(Early(s, h, failure), h, SagaRecovery.Apply(seqn, degraded), fallback, 0, id);
  }

  /**
   `process_message` is one task by itself: a message handled while nobody else is at work
   does exactly what `ProcessMessage` is proved to do, with the same outcome.
   */
  lemma ProcessMessageIsOneTask(s: Site, seqn: System, d: WorkerLaws.Delivery, id: string) returns (ms: seq<Move>)
    requires Alone(s, seqn, id)
    ensures var s', r := Run(s, ms), Handled(seqn, d.failing, d.present, d.first, d.second, d.fallback);
      && O.StandsFor(s'.flow, r.0)
      && |s'.tasks| == |s.tasks| + 1 && s'.tasks[..|s.tasks|] == s.tasks && s'.tasks[|s.tasks|].phase == Finished(r.1)
  {
    hide Run, O.StandsFor, O.CountsAlike, MemoryOk, SagaRecovery.Apply, O.Apply, Stretch, TryOnce;
    var h := |s.tasks|;
    var s0 := Step(s, Arrive(d.failing));
    RunOne(s, Arrive(d.failing));
    TryKeepsMemory(seqn, d.failing, !d.present, d.first);
    var r1 := TryOnce(seqn, d.failing, !d.present, d.first);
    TryKeepsMemory(r1.system, d.failing, true, d.second);
    var r2 := TryOnce(r1.system, d.failing, true, d.second);
    var ms1 := TryIsMoves(s0, h, seqn, !d.present, d.first, id);
    ms := [Arrive(d.failing)] + ms1;
    RunConcat(s, [Arrive(d.failing)], ms1);
    if r1.failure.Some? && r1.failure.value.isConnError {
      var s1 := Run(s0, ms1);
      assert s1.tasks == s0.tasks[h := Task(d.failing, 2, Opening)];
      var ms2 := TryIsMoves(s1, h, r1.system, true, d.second, id);
      RunConcat(s, ms, ms2);
      ms := ms + ms2;
      if r2.failure.Some? && r2.failure.value.isConnError && r2.early {
        ApplyKeepsMemory(r2.system, DeliverDegraded(d.failing));
        var ms3 := FallbackIsMoves(s1, h, r2.system, r2.failure.value, d.fallback, id);
        RunConcat(s, ms, ms3);
        ms := ms + ms3;
      }
    }
  }
}
