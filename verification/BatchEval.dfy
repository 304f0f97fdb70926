/** test_harness/run_batch_eval.py: `run_eval` over an arbitrary list of labelled records. */
module BatchEval {
  import opened Schemas
  import opened RefundMath
  import opened FaultClassifier
  import opened ReconciliationEngine

  datatype Label = NoMismatch | TrueNetworkFault | TrueAgentFault | OtherLabel(text: string)

  datatype Record = Record(entry: Entry, truth: Label)

  datatype Issue = FalsePositive | FalseNegative | FalseDispute | UnderFiling

  datatype Unresolved = Unresolved(stepId: string, issue: Issue)

  /** How one record is booked: correctly, or with an issue. */
  datatype Verdict = CleanCorrect | FaultCorrect | Issue(issue: Issue)

  datatype Report = Report(
    total: nat, clean: nat, mismatches: nat,
    matchRate: real, detectionRate: real, accuracy: real, falseDisputeRate: real,
    falseDisputes: nat, unresolved: seq<Unresolved>)

  /** Some earlier record of the same workflow carries the same, non-empty settlement ref. */
  ghost predicate RepeatsEarlierRef(records: seq<Record>, i: nat)
    requires i < |records|
  {
    exists j :: 0 <= j < i && SameSettlement(records[j].entry, records[i].entry)
  }

  ghost predicate SameSettlement(earlier: Entry, later: Entry) {
    && earlier.workflowId == later.workflowId
    && earlier.actual.settlementRef == later.actual.settlementRef
    && earlier.actual.settlementRef != ""
  }

  /** A record's reconciliation in terms of the records before it; no set of refs is mentioned. */
  ghost predicate Matches(records: seq<Record>, i: nat)
    requires i < |records|
  {
    OtherwiseClean(records[i].entry) && !RepeatsEarlierRef(records, i)
  }

  ghost function VerdictOn(records: seq<Record>, i: nat): Verdict
    requires i < |records|
  {
    var r := records[i];
    var network := NetworkTrouble(r.entry.raw);
    if r.truth == NoMismatch then
      if Matches(records, i) then CleanCorrect else Issue(FalsePositive)
    else if Matches(records, i) then Issue(FalseNegative)
    else if r.truth == TrueNetworkFault && network then FaultCorrect
    else if r.truth == TrueAgentFault && !network then FaultCorrect
    else if r.truth == TrueAgentFault then Issue(FalseDispute)
    else Issue(UnderFiling)
  }

  /** How many of the first `n` records get verdict `v`. */
  ghost function Tally(records: seq<Record>, n: nat, v: Verdict): nat
    requires n <= |records|
  {
    if n == 0 then 0 else Tally(records, n - 1, v) + if VerdictOn(records, n - 1) == v then 1 else 0
  }

  ghost function Issues(records: seq<Record>, n: nat): seq<Unresolved>
    requires n <= |records|
  {
    if n == 0 then []
    else
      var v := VerdictOn(records, n - 1);
      Issues(records, n - 1) + if v.Issue? then [Unresolved(records[n - 1].entry.stepId, v.issue)] else []
  }

  ghost function CleanLabels(records: seq<Record>): nat {
    if records == [] then 0
    else CleanLabels(records[..|records| - 1]) + if records[|records| - 1].truth == NoMismatch then 1 else 0
  }

  /** `round(k / n, 4) if n else 0.0` */
  function Rate(k: nat, n: nat): real {
    if n == 0 then 0.0 else RoundHalfEven(10000.0 * (k as real / n as real)) as real / 10000.0
  }

  /** The refs held for a workflow, before and after one record. */
  function RefsOf(seen: map<string, set<string>>, workflowId: string): set<string> {
    if workflowId in seen then seen[workflowId] else {}
  }

  function Remember(seen: map<string, set<string>>, e: Entry): map<string, set<string>> {
    var refs := RefsOf(seen, e.workflowId);
    seen[e.workflowId := if e.actual.settlementRef != "" then refs + {e.actual.settlementRef} else refs]
  }

  ghost function SeenAfter(records: seq<Record>, n: nat): map<string, set<string>>
    requires n <= |records|
  {
    if n == 0 then map[] else Remember(SeenAfter(records, n - 1), records[n - 1].entry)
  }

  lemma {:induction false} SeenAfterIsEarlierRefs(records: seq<Record>, n: nat, w: string, ref: string)
    requires n <= |records|
    ensures ref in RefsOf(SeenAfter(records, n), w) <==>
      ref != "" && exists j :: 0 <= j < n && records[j].entry.workflowId == w && records[j].entry.actual.settlementRef == ref
  {
    if n > 0 {
      SeenAfterIsEarlierRefs(records, n - 1, w, ref);
    }
  }

  /** Reconciling against the dictionary is matching against the earlier records. */
  lemma SeenDecidesMatch(records: seq<Record>, n: nat)
    requires n < |records|
    ensures Reconcile(records[n].entry, RefsOf(SeenAfter(records, n), records[n].entry.workflowId)) == Match <==> Matches(records, n)
  {
    var e := records[n].entry;
    var refs := RefsOf(SeenAfter(records, n), e.workflowId);
    DuplicateDecidesCleanEntries(e, refs);
    SeenAfterIsEarlierRefs(records, n, e.workflowId, e.actual.settlementRef);
    assert e.actual.settlementRef in refs <==> RepeatsEarlierRef(records, n) by {
      if e.actual.settlementRef in refs {
        var j :| 0 <= j < n && records[j].entry.workflowId == e.workflowId
                 && records[j].entry.actual.settlementRef == e.actual.settlementRef;
        assert SameSettlement(records[j].entry, e);
      }
    }
  }

  /** The loop, against the declarative verdicts. */
  method RunEval(records: seq<Record>) returns (r: Report)
    ensures r.total == |records|
    ensures r.clean == Tally(records, |records|, CleanCorrect) + Tally(records, |records|, Issue(FalsePositive))
    ensures r.mismatches == Tally(records, |records|, FaultCorrect) + Tally(records, |records|, Issue(FalseNegative))
              + Tally(records, |records|, Issue(FalseDispute)) + Tally(records, |records|, Issue(UnderFiling))
    ensures r.falseDisputes == Tally(records, |records|, Issue(FalseDispute))
    ensures r.unresolved == Issues(records, |records|)
    ensures r.matchRate == Rate(Tally(records, |records|, CleanCorrect), r.clean)
    ensures r.detectionRate == Rate(r.mismatches - Tally(records, |records|, Issue(FalseNegative)), r.mismatches)
    ensures r.accuracy == Rate(Tally(records, |records|, FaultCorrect), r.mismatches)
    ensures r.falseDisputeRate == Rate(r.falseDisputes, r.mismatches)
  {
    hide Reconcile, ClassifyFault, NetworkTrouble, Matches, Rate, Remember;
    var seen: map<string, set<string>> := map[];
    var clean, cleanCorrect, mismatches, detected, faultCorrect, falseDisputes := 0, 0, 0, 0, 0, 0;
    var unresolved: seq<Unresolved> := [];
    var i := 0;
    while i < |records|
      invariant 0 <= i <= |records|
      invariant seen == SeenAfter(records, i)
      invariant cleanCorrect == Tally(records, i, CleanCorrect)
      invariant clean == cleanCorrect + Tally(records, i, Issue(FalsePositive))
      invariant faultCorrect == Tally(records, i, FaultCorrect)
      invariant falseDisputes == Tally(records, i, Issue(FalseDispute))
      invariant detected == faultCorrect + falseDisputes + Tally(records, i, Issue(UnderFiling))
      invariant mismatches == detected + Tally(records, i, Issue(FalseNegative))
      invariant unresolved == Issues(records, i)
    {
      var truth, entry := records[i].truth, records[i].entry;
      var recon := Reconcile(entry, RefsOf(seen, entry.workflowId));
      SeenDecidesMatch(records, i);
      seen := Remember(seen, entry);
      i := i + 1;
      if truth == NoMismatch {
        clean := clean + 1;
        if recon == Match {
          cleanCorrect := cleanCorrect + 1;
        } else {
          unresolved := unresolved + [Unresolved(entry.stepId, FalsePositive)];
        }
        continue;
      }
      mismatches := mismatches + 1;
      if recon != Match {
        detected := detected + 1;
      } else {
        unresolved := unresolved + [Unresolved(entry.stepId, FalseNegative)];
        continue;
      }
      var predicted := ClassifyFault(entry.stepId, entry.raw).fault;
      NetworkFaultIff(entry.stepId, entry.raw);
      if truth == TrueNetworkFault && predicted == NetworkFault {
        faultCorrect := faultCorrect + 1;
      } else if truth == TrueAgentFault && predicted == AgentFault {
        faultCorrect := faultCorrect + 1;
      } else if truth == TrueAgentFault && predicted == NetworkFault {
        falseDisputes := falseDisputes + 1;
        unresolved := unresolved + [Unresolved(entry.stepId, FalseDispute)];
      } else {
        unresolved := unresolved + [Unresolved(entry.stepId, UnderFiling)];
      }
    }
    r := Report(|records|, clean, mismatches, Rate(cleanCorrect, clean), Rate(detected, mismatches),
                Rate(faultCorrect, mismatches), Rate(falseDisputes, mismatches), falseDisputes, unresolved);
  }

  lemma VerdictFitsLabel(records: seq<Record>, i: nat)
    requires i < |records|
    ensures records[i].truth == NoMismatch <==> VerdictOn(records, i) in {CleanCorrect, Issue(FalsePositive)}
    ensures VerdictOn(records, i) in
      {CleanCorrect, FaultCorrect, Issue(FalsePositive), Issue(FalseNegative), Issue(FalseDispute), Issue(UnderFiling)}
  {
    hide Matches, NetworkTrouble;
  }

  lemma OneMoreLabel(records: seq<Record>, n: nat)
    requires 0 < n <= |records|
    ensures CleanLabels(records[..n]) == CleanLabels(records[..n - 1]) + if records[n - 1].truth == NoMismatch then 1 else 0
  {
    assert records[..n][..n - 1] == records[..n - 1];
  }

  /** Every record has exactly one verdict, so the six tallies and the issue list add up to the records. */
  lemma {:induction false} AccountingCloses(records: seq<Record>, n: nat)
    requires n <= |records|
    ensures Tally(records, n, CleanCorrect) + Tally(records, n, Issue(FalsePositive)) == CleanLabels(records[..n])
    ensures Tally(records, n, FaultCorrect) + Tally(records, n, Issue(FalseNegative))
            + Tally(records, n, Issue(FalseDispute)) + Tally(records, n, Issue(UnderFiling)) == n - CleanLabels(records[..n])
    ensures |Issues(records, n)| == n - Tally(records, n, CleanCorrect) - Tally(records, n, FaultCorrect)
  {
    hide VerdictOn, CleanLabels;
    if n > 0 {
      AccountingCloses(records, n - 1);
      VerdictFitsLabel(records, n - 1);
      OneMoreLabel(records, n);
    } else {
      NoLabels(records);
    }
  }

  lemma NoLabels(records: seq<Record>)
    ensures CleanLabels(records[..0]) == 0
  {
    assert records[..0] == [];
  }

  /**
   An otherwise clean record matches, in the loop and whatever its label, if and only if
   no earlier record of its workflow carries the same non-empty settlement ref; a record
   without a ref always matches.
   */
  lemma CleanRecordMatchesIffRefIsNew(records: seq<Record>, i: nat)
    requires i < |records| && OtherwiseClean(records[i].entry)
    ensures var e := records[i].entry;
      var recon := Reconcile(e, RefsOf(SeenAfter(records, i), e.workflowId));
      && (recon == Match <==> !RepeatsEarlierRef(records, i))
      && (recon != Match ==> recon == Mismatch(DuplicateSettlement))
      && (e.actual.settlementRef == "" ==> recon == Match)
  {
    hide SeenAfter, RefsOf;
    SeenDecidesMatch(records, i);
    DuplicateDecidesCleanEntries(records[i].entry, RefsOf(SeenAfter(records, i), records[i].entry.workflowId));
  }

  /**
   A rate is a number in [0, 1]. It reads 1 not only when nothing was missed: four
   places hide up to one miss in twenty thousand.
   */
  lemma RateReadsOneIff(k: nat, n: nat)
    requires k <= n && n > 0
    ensures 0.0 <= Rate(k, n) <= 1.0
    ensures Rate(k, n) == 1.0 <==> 20000 * (n - k) <= n
  {
    hide RoundHalfEven;
    var q := k as real / n as real;
    assert q * n as real == k as real;
    QuotientAtMostOne(k as real, n as real);
    RoundsToTenThousandIff(10000.0 * q);
    ScaledComparison(q, n as real, k as real);
  }

  lemma RoundsToTenThousandIff(x: real)
    requires 0.0 <= x <= 10000.0
    ensures 0 <= RoundHalfEven(x) <= 10000
    ensures RoundHalfEven(x) == 10000 <==> 9999.5 <= x
  {
    RoundHalfEvenFixesIntegers(0);
    RoundHalfEvenFixesIntegers(10000);
    RoundHalfEvenMonotone(0.0, x);
    RoundHalfEvenMonotone(x, 10000.0);
    RoundHalfEvenIsUnique(x, 10000);
  }

  lemma QuotientAtMostOne(k: real, n: real)
    requires 0.0 <= k <= n && 0.0 < n
    ensures 0.0 <= k / n <= 1.0
  {}

  lemma ScaledComparison(q: real, n: real, k: real)
    requires 0.0 < n && q * n == k
    ensures 9999.5 <= 10000.0 * q <==> 19999.0 * n <= 20000.0 * k
  {
    if 9999.5 <= 10000.0 * q {
      assert 0.0 <= (20000.0 * q - 19999.0) * n == 20000.0 * k - 19999.0 * n;
    } else {
      assert 0.0 < (19999.0 - 20000.0 * q) * n == 19999.0 * n - 20000.0 * k;
    }
  }
}
