/**
 The circuit breaker and the dead-letter queue over any sequence of refund attempts,
 of any sagas and merchants, run one at a time (compensating_agent/graph.py with
 db/client.py).
 */
module CircuitBreaker {
  import opened Wrappers
  import opened Schemas
  import opened Tables
  import opened Saga
  import opened SagaLaws
  import opened SagaRecovery

  /** One execution of `attempt_refund`, on any saga's state with any step in flight. */
  datatype Attempt = Attempt(st: State, step: Entry, reply: RefundReply)

  function AttemptOn(w: World, a: Attempt): Plan {
    AttemptPlan(a.st.(current := Some(a.step)), w.breakers, a.reply)
  }

  function After(w: World, tries: seq<Attempt>): World {
    if tries == [] then w
    else
      var w1 := After(w, tries[..|tries| - 1]);
      ApplyEffects(w1, AttemptOn(w1, tries[|tries| - 1]).effects)
  }

  /** What an attempt tells about a merchant: unreachable, reached, or nothing. */
  datatype Sign = Down | Up | NoSign

  function SignOf(w: World, a: Attempt, m: MerchantId): Sign
  {
    if a.step.merchant != m || !WasPosted(AttemptOn(w, a).result) then NoSign
    else
      match a.reply
      case GatewayDown => Down
      case GatewayReplied(_, _, _) => Up
      case OtherRaised(afterReset) => if afterReset then Up else NoSign
  }

  /** The signs of a merchant, oldest first, without the attempts that told nothing. */
  function Signs(w: World, tries: seq<Attempt>, m: MerchantId): seq<Sign> {
    if tries == [] then []
    else
      var init := tries[..|tries| - 1];
      var sign := SignOf(After(w, init), tries[|tries| - 1], m);
      Signs(w, init, m) + if sign == NoSign then [] else [sign]
  }

  /** How many failures in a row a list of signs ends with. */
  function Trailing(signs: seq<Sign>): nat {
    if signs == [] || signs[|signs| - 1] != Down then 0 else 1 + Trailing(signs[..|signs| - 1])
  }

  /** The row of a merchant counts the failures it was last seen to have in a row. */
  ghost predicate Counts(bs: Breakers, m: MerchantId, failures: nat) {
    if m in bs then bs[m].failures == failures && (bs[m].isOpen <==> failures >= 3) else failures == 0
  }

  lemma TrailingSnoc(signs: seq<Sign>, s: Sign)
    ensures Trailing(signs + [s]) == if s == Down then Trailing(signs) + 1 else 0
  {
    assert (signs + [s])[..|signs|] == signs;
  }

  /** What one effect does to a row. */
  lemma EffectMovesBreaker(w: World, e: Effect, m: MerchantId)
    ensures var bs, bs' := w.breakers, ApplyEffect(w, e).breakers;
      match e
      case Reset(n) => if n == m && m in bs then m in bs' && bs'[m] == Breaker(0, false) else SameRow(bs, bs', m)
      case RecordDown(n) => if n == m then m in bs' && bs'[m] == RecordFailure(bs, m)[m] else SameRow(bs, bs', m)
      case _ => bs' == bs
  {}

  ghost predicate SameRow(bs: Breakers, bs': Breakers, m: MerchantId) {
    (m in bs' <==> m in bs) && (m in bs ==> bs'[m] == bs[m])
  }

  /** The one effect of an attempt that concerns the breaker, if any. */
  function BreakerEffect(w: World, a: Attempt): Option<Effect> {
    var es := AttemptOn(w, a).effects;
    if |es| >= 2 then Some(es[1]) else None
  }

  lemma OnlyOneMovesBreaker(w: World, a: Attempt)
    ensures ApplyEffects(w, AttemptOn(w, a).effects).breakers
      == match BreakerEffect(w, a) case None => w.breakers case Some(e) => ApplyEffect(w, e).breakers
  {
    var es := AttemptOn(w, a).effects;
    UnrollEffects(w, es);
    assert ApplyEffects(w, []) == w;
    hide ApplyEffects;
  }

  /** The effect of one attempt on the row of one merchant. */
  lemma AttemptMovesBreaker(w: World, a: Attempt, m: MerchantId)
    ensures var bs, bs' := w.breakers, ApplyEffects(w, AttemptOn(w, a).effects).breakers;
      match SignOf(w, a, m)
      case NoSign => SameRow(bs, bs', m)
      case Up => (m in bs' <==> m in bs) && (m in bs ==> bs'[m] == Breaker(0, false))
      case Down => m in bs' && bs'[m] == RecordFailure(bs, m)[m]
  {
    hide ApplyEffects, ApplyEffect, RecordFailure, DeadLetter, RefundRow;
    OnlyOneMovesBreaker(w, a);
    var e := BreakerEffect(w, a);
    if e.Some? { EffectMovesBreaker(w, e.value, m); }
    assert SignOf(w, a, m) == Down <==> e == Some(RecordDown(m));
    assert SignOf(w, a, m) == Up <==> e == Some(Reset(m));
  }

  lemma AttemptKeepsCount(w: World, a: Attempt, m: MerchantId, signs: seq<Sign>)
    requires Counts(w.breakers, m, Trailing(signs))
    ensures var sign := SignOf(w, a, m);
      Counts(ApplyEffects(w, AttemptOn(w, a).effects).breakers, m, Trailing(signs + if sign == NoSign then [] else [sign]))
  {
    hide SignOf, AttemptOn, ApplyEffects, Trailing;
    AttemptMovesBreaker(w, a, m);
    TrailingSnoc(signs, SignOf(w, a, m));
    assert signs + [] == signs;
  }

  /**
   The breaker's meaning: after any sequence of attempts its row counts the failures
   in a row, and it is open if and only if they are at least three.
   */
  lemma {:induction false} OpenIffThreeFailuresInARow(w: World, tries: seq<Attempt>, m: MerchantId)
    requires m !in w.breakers
    ensures Counts(After(w, tries).breakers, m, Trailing(Signs(w, tries, m)))
    ensures BreakerOpen(After(w, tries).breakers, m) <==> Trailing(Signs(w, tries, m)) >= 3
  {
    hide SignOf, AttemptOn, ApplyEffects;
    if tries != [] {
      OpenIffThreeFailuresInARow(w, tries[..|tries| - 1], m);
      AttemptKeepsCount(After(w, tries[..|tries| - 1]), tries[|tries| - 1], m, Signs(w, tries[..|tries| - 1], m));
    }
  }

  /** POSTs a merchant has received. */
  function PostsTo(posts: seq<Post>, m: MerchantId): nat {
    if posts == [] then 0 else PostsTo(posts[..|posts| - 1], m) + if posts[|posts| - 1].merchant == m then 1 else 0
  }

  lemma OneEffectPosts(w: World, e: Effect, m: MerchantId)
    ensures PostsTo(ApplyEffect(w, e).posts, m) == PostsTo(w.posts, m) + if e.PostRefund? && e.post.merchant == m then 1 else 0
  {
    if e.PostRefund? {
      assert (w.posts + [e.post])[..|w.posts|] == w.posts;
    }
  }

  /** Effects that post only to other merchants. */
  lemma {:induction false} PostsElsewhere(w: World, es: seq<Effect>, m: MerchantId)
    requires forall k :: 0 <= k < |es| && es[k].PostRefund? ==> es[k].post.merchant != m
    ensures PostsTo(ApplyEffects(w, es).posts, m) == PostsTo(w.posts, m)
  {
    hide PostsTo, ApplyEffect;
    if es != [] {
      PostsElsewhere(w, es[..|es| - 1], m);
      OneEffectPosts(ApplyEffects(w, es[..|es| - 1]), es[|es| - 1], m);
    }
  }

  lemma OpenRefusesOne(w: World, a: Attempt, m: MerchantId)
    requires BreakerOpen(w.breakers, m)
    ensures var w' := ApplyEffects(w, AttemptOn(w, a).effects);
      BreakerOpen(w'.breakers, m) && PostsTo(w'.posts, m) == PostsTo(w.posts, m)
    ensures a.step.merchant == m ==> AttemptOn(w, a).result.outcome == Dlq
  {
    AttemptMovesBreaker(w, a, m);
    var es := AttemptOn(w, a).effects;
    if a.step.merchant == m {
      assert es == [QueueDead(DeadLetter(a.st.(current := Some(a.step)), a.step, OrZero(a.st.refundAmount)))];
      UnrollEffects(w, es);
    } else {
      PostsElsewhere(w, es, m);
    }
  }

  /**
   An open breaker is final: whatever attempts follow, none POSTs to that merchant,
   and the breaker never closes again, because only a reply could close it.
   */
  lemma {:induction false} OpenBreakerIsFinal(w: World, tries: seq<Attempt>, m: MerchantId)
    requires BreakerOpen(w.breakers, m)
    ensures BreakerOpen(After(w, tries).breakers, m)
    ensures PostsTo(After(w, tries).posts, m) == PostsTo(w.posts, m)
  {
    if tries != [] {
      OpenBreakerIsFinal(w, tries[..|tries| - 1], m);
      OpenRefusesOne(After(w, tries[..|tries| - 1]), tries[|tries| - 1], m);
    }
  }

  /** The ids of the attempts whose outcome was `dlq`, in order. */
  function DlqOutcomes(w: World, tries: seq<Attempt>): seq<string> {
    if tries == [] then []
    else
      var r := AttemptOn(After(w, tries[..|tries| - 1]), tries[|tries| - 1]).result;
      DlqOutcomes(w, tries[..|tries| - 1]) + if r.outcome == Dlq then [r.stepId] else []
  }

  /** Dead letters and `dlq` outcomes correspond one to one, in order. */
  lemma {:induction false} DeadLettersAreDlqOutcomes(w: World, tries: seq<Attempt>)
    ensures DlqStepIds(After(w, tries).dlq) == DlqStepIds(w.dlq) + DlqOutcomes(w, tries)
  {
    if tries != [] {
      var init, a := tries[..|tries| - 1], tries[|tries| - 1];
      var w1 := After(w, init);
      var p := AttemptOn(w1, a);
      DeadLettersAreDlqOutcomes(w, init);
      EffectsOnRecord(w1, p.effects);
      AttemptNamesItsStep(a.st.(current := Some(a.step)), w1.breakers, a.reply);
      AttemptEffects(a.st.(current := Some(a.step)), w1.breakers, a.reply, |p.effects|);
      AllOf(p.effects);
      hide AttemptPlan, ApplyEffects, DlqStepIds, PostStepIds, PostIds;
      Associates(DlqStepIds(w.dlq), DlqOutcomes(w, init), DeadIds(p.effects));
    }
  }

  lemma AllOf<T>(s: seq<T>)
    ensures s[..|s|] == s
  {}
}
