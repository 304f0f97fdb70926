/** The option type, used where the source has `None` or a missing key. */
module Wrappers {
  datatype Option<+T> = None | Some(value: T)
}

/**
 The records of proxy/schemas.py and the static table of mock_merchants/registry.py.
 Amounts are exact rationals (`real`). The literals the code compares a field with
 are constructors; any other text is the `Other...` constructor.
 */
module Schemas {
  import opened Wrappers

  datatype MerchantId =
    | MerchantA | MerchantB | MerchantC | MerchantD | MerchantE | MerchantF | MerchantG
    | Rzp | RzpPending | RzpInsufficient | RzpDownstreamFail
    | OtherMerchant(name: string)

  /** The text form of a merchant id. */
  function MerchantText(m: MerchantId): string {
    match m
    case MerchantA => "merchant_a"
    case MerchantB => "merchant_b"
    case MerchantC => "merchant_c"
    case MerchantD => "merchant_d"
    case MerchantE => "merchant_e"
    case MerchantF => "merchant_f"
    case MerchantG => "merchant_g"
    case Rzp => "merchant_rzp"
    case RzpPending => "merchant_rzp_pending"
    case RzpInsufficient => "merchant_rzp_insufficient"
    case RzpDownstreamFail => "merchant_rzp_downstream_fail"
    case OtherMerchant(name) => name
  }

  /** The merchants with a row in the registry, that is, with a base URL. */
  predicate Registered(m: MerchantId) {
    m in {MerchantA, MerchantB, MerchantC, MerchantD, MerchantE, MerchantF, MerchantG}
  }

  /** MERCHANTS_WITH_POLICY */
  predicate HasPolicy(m: MerchantId) {
    Registered(m) && m != MerchantA
  }

  /** MERCHANTS_NEEDING_REFUND_AMOUNT */
  predicate NeedsRefundAmount(m: MerchantId) {
    m in {MerchantC, MerchantD, MerchantG}
  }

  /** REAL_PAYOUT_MERCHANT_IDS */
  predicate UsesRealPayout(m: MerchantId) {
    m in {Rzp, RzpPending, RzpInsufficient, RzpDownstreamFail}
  }

  datatype Status = Settled | Pending | Failed | Refunded | OtherStatus(text: string)

  datatype ErrorType =
    | NoError | Timeout | ConnectionReset | ConnectionRefused | NetworkError
    | MandateLimitExceeded | OtherError(text: string)

  datatype Expected = Expected(amount: real, payee: string)

  datatype Actual = Actual(amount: real, payee: string, settlementRef: string, status: Status)

  /** `statusCode` is None when the key is absent or its value is not an int: both readers treat these alike. */
  datatype RawResponse = RawResponse(statusCode: Option<int>, errorType: ErrorType)

  datatype ActionType = Payment | Refund | PayoutResolution

  /** TransactionLogEntry: one row of the transaction ledger. */
  datatype Entry = Entry(
    stepId: string,
    workflowId: string,
    action: ActionType,
    merchant: MerchantId,
    expected: Expected,
    actual: Actual,
    raw: RawResponse)

  datatype MismatchType =
    | HardError | AmountMismatch | PayeeMismatch | PendingUnconfirmed | DuplicateSettlement

  /** ReconciliationResult: a match, or the first check that failed. */
  datatype Reconciliation = Match | Mismatch(kind: MismatchType)

  datatype FaultType = NetworkFault | AgentFault

  datatype Basis = TimedOut | ConnectionLost | Gateway5xx | Mismatched4xx | NoGatewayError

  datatype FaultClassification = FaultClassification(stepId: string, fault: FaultType, basis: Basis)
}
