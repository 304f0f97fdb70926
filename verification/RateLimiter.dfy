/**
 The fixed-window limiter at the top of `/pay` (proxy/mcp_proxy.py): INCR a counter per
 workflow, EXPIRE it 60 seconds after its first increment, refuse above 50.
 */
module RateLimiter {
  import opened Wrappers

  const WINDOW := 60.0
  const MAX_PER_WINDOW := 50

  /** A live counter: when its first increment happened and how often it was incremented. */
  datatype Window = Window(start: real, count: nat)

  /** The counter as seen by an INCR at time `t`: an expired one starts again. */
  function Hit(w: Option<Window>, t: real): Window {
    if w.None? || t >= w.value.start + WINDOW then Window(t, 1) else Window(w.value.start, w.value.count + 1)
  }

  predicate Admits(w: Window) {
    w.count <= MAX_PER_WINDOW
  }

  /** The counter after all requests of one workflow, at the given times. */
  function After(times: seq<real>): Option<Window> {
    if times == [] then None
    else Some(Hit(After(times[..|times| - 1]), times[|times| - 1]))
  }

  predicate AdmitsLast(times: seq<real>)
    requires times != []
  {
    Admits(After(times).value)
  }

  /** How many of the requests made in [a, a + 60) were admitted. */
  function AdmittedIn(times: seq<real>, a: real): nat {
    if times == [] then 0
    else
      var t := times[|times| - 1];
      AdmittedIn(times[..|times| - 1], a) + if AdmitsLast(times) && a <= t < a + WINDOW then 1 else 0
  }

  ghost predicate InOrder(times: seq<real>) {
    forall i, j :: 0 <= i <= j < |times| ==> times[i] <= times[j]
  }

  function Min(x: nat, y: nat): nat {
    if x <= y then x else y
  }

  /**
   What the counter says about an interval opening at `a`: which window is live
   decides how much of the interval's allowance can be gone.
   */
  ghost predicate Accounted(times: seq<real>, a: real) {
    var n := AdmittedIn(times, a);
    match After(times)
    case None => n == 0
    case Some(w) =>
      && w.count >= 1
      && (times != [] ==> w.start <= times[|times| - 1])
      && (times != [] && times[|times| - 1] < a ==> n == 0)
      && (w.start < a ==> n <= Min(MAX_PER_WINDOW, w.count) - 1)
      && (a <= w.start < a + WINDOW ==> n <= MAX_PER_WINDOW - 1 + Min(MAX_PER_WINDOW, w.count))
      && n <= 2 * MAX_PER_WINDOW - 1
  }

  lemma {:induction false} AlwaysAccounted(times: seq<real>, a: real)
    requires InOrder(times)
    ensures Accounted(times, a)
  {
    if times != [] {
      AlwaysAccounted(times[..|times| - 1], a);
    }
  }

  /**
   For every sequence of request times of one workflow, any half-open 60 second
   interval admits at most 99 requests: two windows can meet in it, but the first of
   them opened strictly before the interval did.
   */
  lemma AnyMinuteAdmitsAtMost99(times: seq<real>, a: real)
    requires InOrder(times)
    ensures AdmittedIn(times, a) <= 2 * MAX_PER_WINDOW - 1
  {
    AlwaysAccounted(times, a);
  }

  function Repeat(times: seq<real>, t: real, k: nat): seq<real> {
    if k == 0 then times else Repeat(times, t, k - 1) + [t]
  }

  lemma {:induction false} RepeatInOrder(times: seq<real>, t: real, k: nat)
    requires InOrder(times) && (times != [] ==> times[|times| - 1] <= t)
    ensures var r := Repeat(times, t, k); InOrder(r) && (r != [] ==> r[|r| - 1] <= t)
  {
    if k > 0 {
      RepeatInOrder(times, t, k - 1);
    }
  }

  /** A further request inside the live window, which has room. */
  lemma JoinsWindow(times: seq<real>, t: real, w: Window, a: real)
    requires After(times) == Some(w) && w.start <= t < w.start + WINDOW
    requires w.count < MAX_PER_WINDOW && a <= t < a + WINDOW
    ensures After(times + [t]) == Some(Window(w.start, w.count + 1))
    ensures AdmittedIn(times + [t], a) == AdmittedIn(times, a) + 1
  {
    assert (times + [t])[..|times|] == times;
    assert After(times + [t]) == Some(Hit(Some(w), t));
  }

  /** `k` further requests at one instant inside the live window: admitted while the window has room. */
  lemma {:induction false} BurstInsideWindow(times: seq<real>, t: real, k: nat, w: Window, a: real)
    requires After(times) == Some(w) && w.start <= t < w.start + WINDOW
    requires w.count + k <= MAX_PER_WINDOW && a <= t < a + WINDOW
    ensures var r := Repeat(times, t, k);
      && After(r) == Some(Window(w.start, w.count + k))
      && AdmittedIn(r, a) == AdmittedIn(times, a) + k
  {
    hide After, AdmittedIn;
    if k > 0 {
      BurstInsideWindow(times, t, k - 1, w, a);
      JoinsWindow(Repeat(times, t, k - 1), t, Window(w.start, w.count + k - 1), a);
    }
  }

  /** A request that finds no live counter opens a window. */
  lemma OpensWindow(times: seq<real>, t: real, a: real)
    requires After(times).None? || t >= After(times).value.start + WINDOW
    ensures After(times + [t]) == Some(Window(t, 1))
    ensures AdmittedIn(times + [t], a) == AdmittedIn(times, a) + if a <= t < a + WINDOW then 1 else 0
  {
    assert (times + [t])[..|times|] == times;
  }

  /** One request at 0, `k` more at 1, one at 60 and `k` more there: all but the first fall in [1, 61). */
  lemma TwoBursts(k: nat) returns (times: seq<real>)
    requires k + 1 <= MAX_PER_WINDOW
    ensures InOrder(times) && AdmittedIn(times, 1.0) == 2 * k + 1
  {
    OpensWindow([], 0.0, 1.0);
    RepeatInOrder([] + [0.0], 1.0, k);
    BurstInsideWindow([] + [0.0], 1.0, k, Window(0.0, 1), 1.0);
    var first := Repeat([] + [0.0], 1.0, k);
    OpensWindow(first, 60.0, 1.0);
    RepeatInOrder(first + [60.0], 60.0, k);
    BurstInsideWindow(first + [60.0], 60.0, k, Window(60.0, 1), 1.0);
    times := Repeat(first + [60.0], 60.0, k);
  }

  /** The bound is reached: one request at 0, forty-nine at 1, fifty at 60. */
  lemma NinetyNineIsReached()
    ensures exists times, a :: InOrder(times) && AdmittedIn(times, a) == 2 * MAX_PER_WINDOW - 1
  {
    var times := TwoBursts(MAX_PER_WINDOW - 1);
  }

  // ---- when a minute stays within the limit ----

  /** What happens from `a` on, after `history`. */
  ghost predicate Continues(history: seq<real>, more: seq<real>, a: real) {
    InOrder(history + more) && forall k :: 0 <= k < |more| ==> a <= more[k]
  }

  /** At `a` there is no live counter, or the live one has no room left. */
  predicate NothingLeftOpen(history: seq<real>, a: real) {
    || After(history).None?
    || After(history).value.start + WINDOW <= a
    || After(history).value.count >= MAX_PER_WINDOW
  }

  /** How far the minute from `a` on has been used up. */
  ghost predicate WithinLimit(times: seq<real>, w: Window, a: real) {
    var n := AdmittedIn(times, a);
    && (w.start < a ==> n == 0 && w.count >= MAX_PER_WINDOW && a < w.start + WINDOW)
    && (a <= w.start < a + WINDOW ==> n <= Min(MAX_PER_WINDOW, w.count))
    && n <= MAX_PER_WINDOW
  }

  lemma {:induction false} NothingBefore(history: seq<real>, a: real)
    requires InOrder(history) && (history != [] ==> history[|history| - 1] < a)
    ensures AdmittedIn(history, a) == 0
  {
    AlwaysAccounted(history, a);
  }

  lemma OneMore(times: seq<real>, t: real, a: real)
    ensures After(times + [t]) == Some(Hit(After(times), t))
    ensures AdmittedIn(times + [t], a) ==
      AdmittedIn(times, a) + if Admits(Hit(After(times), t)) && a <= t < a + WINDOW then 1 else 0
  {
    assert (times + [t])[..|times|] == times;
  }

  lemma NextStaysWithin(times: seq<real>, w: Window, t: real, a: real)
    requires After(times) == Some(w) && WithinLimit(times, w, a) && a <= t && w.start <= t
    ensures After(times + [t]).Some? && WithinLimit(times + [t], After(times + [t]).value, a)
  {
    hide After, AdmittedIn;
    OneMore(times, t, a);
  }

  lemma FirstIsWithin(history: seq<real>, t: real, a: real)
    requires InOrder(history) && (history != [] ==> history[|history| - 1] < a) && NothingLeftOpen(history, a) && a <= t
    ensures After(history + [t]).Some? && WithinLimit(history + [t], After(history + [t]).value, a)
  {
    hide After, AdmittedIn, InOrder;
    NothingBefore(history, a);
    OneMore(history, t, a);
  }

  lemma {:induction false} StaysWithin(history: seq<real>, more: seq<real>, a: real)
    requires InOrder(history) && (history != [] ==> history[|history| - 1] < a)
    requires NothingLeftOpen(history, a) && Continues(history, more, a) && more != []
    ensures After(history + more).Some? && WithinLimit(history + more, After(history + more).value, a)
  {
    hide After, AdmittedIn, WithinLimit, NothingLeftOpen, InOrder;
    var init, t := more[..|more| - 1], more[|more| - 1];
    assert history + more == (history + init) + [t];
    if init == [] {
      assert history + init == history;
      FirstIsWithin(history, t, a);
    } else {
      InOrderBefore(history + init, t);
      StaysWithin(history, init, a);
      OpenedBefore(history + init, t);
      NextStaysWithin(history + init, After(history + init).value, t, a);
    }
  }

  lemma InOrderBefore(times: seq<real>, t: real)
    requires InOrder(times + [t])
    ensures InOrder(times) && forall i :: 0 <= i < |times| ==> times[i] <= t
  {
    assert forall i :: 0 <= i < |times| ==> times[i] == (times + [t])[i];
    assert (times + [t])[|times|] == t;
  }

  lemma OpenedBefore(times: seq<real>, t: real)
    requires InOrder(times) && times != [] && times[|times| - 1] <= t
    ensures After(times).Some? && After(times).value.start <= t
  {
    AlwaysAccounted(times, t);
  }

  lemma LiveCounter(history: seq<real>, a: real)
    requires InOrder(history) && (history != [] ==> history[|history| - 1] < a) && !NothingLeftOpen(history, a)
    ensures After(history).Some?
    ensures var w := After(history).value; w.start < a < w.start + WINDOW && 1 <= w.count < MAX_PER_WINDOW
  {
    AlwaysAccounted(history, a);
  }

  /** `times` goes on from `history`, at `a` or later. */
  ghost predicate GoesOn(history: seq<real>, times: seq<real>, a: real) {
    history <= times && forall i :: |history| <= i < |times| ==> a <= times[i]
  }

  lemma {:induction false} RepeatGoesOn(history: seq<real>, times: seq<real>, t: real, k: nat, a: real)
    requires GoesOn(history, times, a) && a <= t
    ensures GoesOn(history, Repeat(times, t, k), a)
  {
    if k > 0 {
      RepeatGoesOn(history, times, t, k - 1, a);
      SnocGoesOn(history, Repeat(times, t, k - 1), t, a);
      hide GoesOn;
    }
  }

  lemma SnocGoesOn(history: seq<real>, times: seq<real>, t: real, a: real)
    requires GoesOn(history, times, a) && a <= t
    ensures GoesOn(history, times + [t], a)
  {}

  lemma GoesOnContinues(history: seq<real>, times: seq<real>, a: real)
    requires GoesOn(history, times, a) && InOrder(times)
    ensures history + times[|history|..] == times && Continues(history, times[|history|..], a)
  {
    assert history + times[|history|..] == times;
  }

  /** With room in a live counter: fill it up at `a`, open the next window when it expires, and fill that one. */
  lemma OverfillsMinute(history: seq<real>, a: real) returns (more: seq<real>)
    requires InOrder(history) && (history != [] ==> history[|history| - 1] < a) && !NothingLeftOpen(history, a)
    ensures Continues(history, more, a)
    ensures AdmittedIn(history + more, a) == 2 * MAX_PER_WINDOW - After(history).value.count > MAX_PER_WINDOW
  {
    hide After, AdmittedIn, Repeat, InOrder, NothingLeftOpen, Continues, GoesOn;
    LiveCounter(history, a);
    NothingBefore(history, a);
    var w := After(history).value;
    var room, next := MAX_PER_WINDOW - w.count, w.start + WINDOW;
    BurstInsideWindow(history, a, room, w, a);
    RepeatInOrder(history, a, room);
    assert GoesOn(history, history, a) by { Itself(history, a); }
    RepeatGoesOn(history, history, a, room, a);
    var r := Repeat(history, a, room);
    OpensWindow(r, next, a);
    InOrderAfter(r, next);
    SnocGoesOn(history, r, next, a);
    BurstInsideWindow(r + [next], next, MAX_PER_WINDOW - 1, Window(next, 1), a);
    RepeatInOrder(r + [next], next, MAX_PER_WINDOW - 1);
    RepeatGoesOn(history, r + [next], next, MAX_PER_WINDOW - 1, a);
    var times := Repeat(r + [next], next, MAX_PER_WINDOW - 1);
    GoesOnContinues(history, times, a);
    more := times[|history|..];
  }

  lemma Itself(history: seq<real>, a: real)
    ensures GoesOn(history, history, a)
  {}

  lemma InOrderAfter(times: seq<real>, t: real)
    requires InOrder(times) && (times != [] ==> times[|times| - 1] <= t)
    ensures InOrder(times + [t])
  {}

  /**
   Exactly when the limit is kept for the minute from `a` on, read off the counter before
   it: whatever requests come, at most 50 are admitted in [a, a + 60), if and only if at
   `a` there is no live counter or the live one is used up.
   */
  lemma MinuteAdmitsAtMost50Iff(history: seq<real>, a: real)
    requires InOrder(history) && (history != [] ==> history[|history| - 1] < a)
    ensures (forall more :: Continues(history, more, a) ==> AdmittedIn(history + more, a) <= MAX_PER_WINDOW)
      <==> NothingLeftOpen(history, a)
  {
    hide After, AdmittedIn, InOrder, Continues, NothingLeftOpen;
    if NothingLeftOpen(history, a) {
      forall more | Continues(history, more, a) ensures AdmittedIn(history + more, a) <= MAX_PER_WINDOW {
        if more == [] {
          assert history + more == history;
          NothingBefore(history, a);
        } else {
          StaysWithin(history, more, a);
        }
      }
    } else {
      var more := OverfillsMinute(history, a);
    }
  }

  /** In particular: a minute that opens with a window of its own, at its first request, admits at most 50. */
  lemma OwnWindowAdmitsAtMost50(times: seq<real>, k: nat)
    requires InOrder(times) && k < |times| && After(times[..k + 1]) == Some(Window(times[k], 1))
    ensures AdmittedIn(times, times[k]) <= MAX_PER_WINDOW
  {
    var history, more, a := times[..k], times[k..], times[k];
    assert times[..k + 1] == history + [a] && times == history + more;
    LaterInOrder(times, k);
    NewWindowFindsNothingOpen(history, a);
    hide After, AdmittedIn, NothingLeftOpen, InOrder;
    MinuteAdmitsAtMost50Iff(history, a);
    assert Continues(history, more, a);
  }

  lemma LaterInOrder(times: seq<real>, k: nat)
    requires InOrder(times) && k < |times|
    ensures InOrder(times[..k + 1]) && forall i :: 0 <= i < |times[k..]| ==> times[k] <= times[k..][i]
  {}

  lemma NewWindowFindsNothingOpen(history: seq<real>, a: real)
    requires InOrder(history + [a]) && After(history + [a]) == Some(Window(a, 1))
    ensures InOrder(history) && NothingLeftOpen(history, a) && (history != [] ==> history[|history| - 1] < a)
  {
    InOrderBefore(history, a);
    AlwaysAccounted(history, a);
    assert (history + [a])[..|history|] == history;
    if history != [] { LastHitIsLive(history); }
  }

  lemma LastHitIsLive(times: seq<real>)
    requires times != []
    ensures times[|times| - 1] < After(times).value.start + WINDOW
  {}
}
