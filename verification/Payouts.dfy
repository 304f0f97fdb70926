/** razorpayx/client.py: re-polling a payout until its status is terminal. */
module Payouts {
  import opened Wrappers

  datatype RzpStatus =
    | Queued | Processing | Processed | Reversed | Rejected | Cancelled | PayoutFailed
    | OtherRzpStatus(text: string)

  datatype Classification = ConfirmedProcessed | ConfirmedFailed | NonTerminal

  /** One GET of the payout: its status, or an exception. */
  datatype Read = Got(status: RzpStatus) | ReadRaised

  datatype PollResult =
    | Polled(classification: Classification, attemptsMade: nat, status: RzpStatus)
    | PollRaised(attemptsMade: nat)

  predicate IsWaiting(r: Read) {
    r == Got(Queued) || r == Got(Processing)
  }

  function Classify(s: RzpStatus): Classification {
    if s == Processed then ConfirmedProcessed
    else if s in {Reversed, Rejected, Cancelled, PayoutFailed} then ConfirmedFailed
    else NonTerminal
  }

  /** The re-polls allowed after the first read: none when the limit is negative. */
  function Limit(maxAttempts: int): nat {
    if maxAttempts < 0 then 0 else maxAttempts
  }

  /** The first read at or after `i` that is not queued or processing, or the last one allowed. */
  function Decisive(stream: nat -> Read, limit: nat, i: nat): (k: nat)
    requires i <= limit
    ensures i <= k <= limit
    ensures forall j :: i <= j < k ==> IsWaiting(stream(j))
    ensures IsWaiting(stream(k)) ==> k == limit
    decreases limit - i
  {
    if IsWaiting(stream(i)) && i < limit then Decisive(stream, limit, i + 1) else i
  }

  function Verdict(stream: nat -> Read, maxAttempts: int): PollResult {
    var k := Decisive(stream, Limit(maxAttempts), 0);
    match stream(k)
    case ReadRaised => PollRaised(k)
    case Got(s) => Polled(Classify(s), k, s)
  }

  /** The money has not moved, or has come back. */
  predicate Unpaid(s: RzpStatus) {
    s == Reversed || s == Rejected || s == Cancelled || s == PayoutFailed
  }

  method PollPayout(stream: nat -> Read, maxAttempts: int) returns (r: PollResult)
    ensures r == Verdict(stream, maxAttempts)
    ensures r.Polled? ==>
      && (r.classification == ConfirmedProcessed <==> r.status == Processed)
      && (r.classification == ConfirmedFailed <==> Unpaid(r.status))
  {
    var read := stream(0);
    if read.ReadRaised? {
      return PollRaised(0);
    }
    var status := read.status;
    var pollsDone: nat := 0;
    while (status == Queued || status == Processing) && pollsDone < maxAttempts
      invariant pollsDone <= Limit(maxAttempts)
      invariant stream(pollsDone) == Got(status)
      invariant Decisive(stream, Limit(maxAttempts), 0) == Decisive(stream, Limit(maxAttempts), pollsDone)
      decreases maxAttempts - pollsDone
    {
      read := stream(pollsDone + 1);
      pollsDone := pollsDone + 1;
      if read.ReadRaised? {
        return PollRaised(pollsDone);
      }
      status := read.status;
    }
    if status == Processed {
      return Polled(ConfirmedProcessed, pollsDone, status);
    }
    if status in {Reversed, Rejected, Cancelled, PayoutFailed} {
      return Polled(ConfirmedFailed, pollsDone, status);
    }
    r := Polled(NonTerminal, pollsDone, status);
  }

  /**
   The verdict for every stream of reads: it names the first read that is neither queued
   nor processing among the max(attempts, 0) + 1 allowed. It is "processed" if and only if
   that read is, "failed" if and only if that read is reversed, rejected, cancelled or
   failed, and "non terminal" exactly when there is no such read or its status is
   unrecognised.
   */
  lemma VerdictNamesFirstDecisiveRead(stream: nat -> Read, maxAttempts: int, k: nat)
    requires k == 0 || k <= maxAttempts
    requires forall j :: 0 <= j < k ==> stream(j) == Got(Queued) || stream(j) == Got(Processing)
    requires (stream(k) != Got(Queued) && stream(k) != Got(Processing)) || k >= maxAttempts
    ensures stream(k).ReadRaised? ==> Verdict(stream, maxAttempts) == PollRaised(k)
    ensures stream(k).Got? ==>
      var v, s := Verdict(stream, maxAttempts), stream(k).status;
      && v.Polled? && v.attemptsMade == k && v.status == s
      && (v.classification == ConfirmedProcessed <==> s == Processed)
      && (v.classification == ConfirmedFailed <==> Unpaid(s))
      && (v.classification == NonTerminal <==> s == Queued || s == Processing || s.OtherRzpStatus?)
  {
    var d := Decisive(stream, Limit(maxAttempts), 0);
    assert k <= d;
    assert d <= k;
  }
}
