/** engine/fault_classifier.py */
module FaultClassifier {
  import opened Wrappers
  import opened Schemas

  const NETWORK_ERROR_TYPES: set<ErrorType> := {Timeout, ConnectionReset, ConnectionRefused, NetworkError}
  const NETWORK_STATUS_CODES: set<int> := {500, 501, 502, 503, 504, 507, 508}

  function ClassifyFault(stepId: string, raw: RawResponse): FaultClassification {
    if raw.errorType in NETWORK_ERROR_TYPES then
      FaultClassification(stepId, NetworkFault, if raw.errorType == Timeout then TimedOut else ConnectionLost)
    else if raw.statusCode.Some? && raw.statusCode.value in NETWORK_STATUS_CODES then
      FaultClassification(stepId, NetworkFault, Gateway5xx)
    else if raw.errorType == MandateLimitExceeded then
      FaultClassification(stepId, AgentFault, NoGatewayError)
    else if raw.statusCode.Some? && 200 <= raw.statusCode.value < 300 then
      FaultClassification(stepId, AgentFault, Mismatched4xx)
    else if raw.statusCode.Some? && 400 <= raw.statusCode.value < 500 then
      FaultClassification(stepId, AgentFault, Mismatched4xx)
    else
      FaultClassification(stepId, AgentFault, NoGatewayError)
  }

  /** The response shows trouble with the network or the gateway. */
  predicate NetworkTrouble(raw: RawResponse) {
    || raw.errorType == Timeout || raw.errorType == ConnectionReset
    || raw.errorType == ConnectionRefused || raw.errorType == NetworkError
    || raw.statusCode == Some(500) || raw.statusCode == Some(501) || raw.statusCode == Some(502)
    || raw.statusCode == Some(503) || raw.statusCode == Some(504)
    || raw.statusCode == Some(507) || raw.statusCode == Some(508)
  }

  /**
   The fault is the network's if and only if the response shows such trouble, and the
   agent's otherwise; the basis says which field decided. An error type goes before a
   code, and a mandate refusal before a code of 200 to 299 or 400 to 499.
   */
  lemma NetworkFaultIff(stepId: string, raw: RawResponse)
    ensures var c := ClassifyFault(stepId, raw);
      && c.stepId == stepId
      && (c.fault == NetworkFault <==> NetworkTrouble(raw)) && (c.fault == AgentFault <==> !NetworkTrouble(raw))
      && (c.basis == TimedOut <==> raw.errorType == Timeout)
      && (c.basis == ConnectionLost <==>
            raw.errorType == ConnectionReset || raw.errorType == ConnectionRefused || raw.errorType == NetworkError)
      && (c.basis == Mismatched4xx <==>
            && !NetworkTrouble(raw) && raw.errorType != MandateLimitExceeded && raw.statusCode.Some?
            && (200 <= raw.statusCode.value < 300 || 400 <= raw.statusCode.value < 500))
      && (c.basis == Gateway5xx ==> c.fault == NetworkFault) && (c.basis == NoGatewayError ==> c.fault == AgentFault)
  {}
}

/** engine/reconciliation.py */
module ReconciliationEngine {
  import opened Wrappers
  import opened Schemas
  import FaultClassifier

  function Reconcile(entry: Entry, seenRefs: set<string>): Reconciliation {
    var code := if entry.raw.statusCode.Some? then entry.raw.statusCode.value else 200;
    if entry.raw.errorType in {Timeout, ConnectionReset, NetworkError, MandateLimitExceeded} then Mismatch(HardError)
    else if code >= 400 then Mismatch(HardError)
    else if entry.expected.amount != entry.actual.amount then Mismatch(AmountMismatch)
    else if entry.expected.payee != entry.actual.payee then Mismatch(PayeeMismatch)
    else if entry.actual.status == Pending then Mismatch(PendingUnconfirmed)
    else if entry.actual.status != Settled then Mismatch(HardError)
    else if entry.actual.settlementRef in seenRefs then Mismatch(DuplicateSettlement)
    else Match
  }

  /** The response is not an error: no error type that counts as one, and no code from 400 on. */
  predicate RespondedWell(raw: RawResponse) {
    && raw.errorType != Timeout && raw.errorType != ConnectionReset
    && raw.errorType != NetworkError && raw.errorType != MandateLimitExceeded
    && (raw.statusCode.Some? ==> raw.statusCode.value < 400)
  }

  /** Every field agrees, apart from whether the settlement ref was seen before. */
  predicate OtherwiseClean(e: Entry) {
    && RespondedWell(e.raw)
    && e.actual.amount == e.expected.amount && e.actual.payee == e.expected.payee
    && e.actual.status == Settled
  }

  /** A mismatch is named after the first check that fails. */
  lemma MismatchNamesFirstFailure(e: Entry, seenRefs: set<string>)
    ensures var ok := RespondedWell(e.raw);
      var okAmount := ok && e.actual.amount == e.expected.amount;
      var okPayee := okAmount && e.actual.payee == e.expected.payee;
      && (Reconcile(e, seenRefs) == Mismatch(AmountMismatch) <==> ok && e.actual.amount != e.expected.amount)
      && (Reconcile(e, seenRefs) == Mismatch(PayeeMismatch) <==> okAmount && e.actual.payee != e.expected.payee)
      && (Reconcile(e, seenRefs) == Mismatch(PendingUnconfirmed) <==> okPayee && e.actual.status == Pending)
      && (Reconcile(e, seenRefs) == Mismatch(HardError) <==>
            !ok || (okPayee && e.actual.status != Pending && e.actual.status != Settled))
      && (Reconcile(e, seenRefs) == Mismatch(DuplicateSettlement) <==>
            okPayee && e.actual.status == Settled && e.actual.settlementRef in seenRefs)
  {}

  /**
   A payment matches if and only if its response is not an error, amount and payee are the
   expected ones, it is settled, and its settlement ref was not seen before. The duplicate
   check is the last one and decides exactly the entries that are otherwise clean.
   */
  lemma DuplicateDecidesCleanEntries(entry: Entry, seenRefs: set<string>)
    ensures Reconcile(entry, seenRefs) == Match <==>
      OtherwiseClean(entry) && entry.actual.settlementRef !in seenRefs
    ensures Reconcile(entry, seenRefs) == Mismatch(DuplicateSettlement) <==>
      OtherwiseClean(entry) && entry.actual.settlementRef in seenRefs
  {}

  /**
   The two engines disagree on exactly one kind of response: a matched payment is
   still classified as a network fault if and only if its error type is
   connection_refused, which the classifier lists and reconciliation does not.
   */
  lemma MatchedNetworkFaultIsConnectionRefused(entry: Entry, seenRefs: set<string>)
    requires Reconcile(entry, seenRefs) == Match
    ensures FaultClassifier.ClassifyFault(entry.stepId, entry.raw).fault == NetworkFault <==>
      entry.raw.errorType == ConnectionRefused
  {}
}
