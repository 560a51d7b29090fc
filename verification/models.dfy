/** The records of the underwriting pipeline and the field bounds their
    validators enforce (backend/app/models.py). A validator returns the record
    unchanged or the set of field names whose bound it breaks. */
module Models {
  import opened Wrappers

  datatype TransactionType = Income | Expense | Transfer | Fee

  datatype EmploymentStatus = FullTime | PartTime | SelfEmployed | Unemployed | Retired

  datatype Severity = Low | Medium | High

  /** A point in time as the pipeline uses it: a day number (for date ranges)
      and a calendar-month key (the `'%Y-%m'` bucket). */
  datatype Timestamp = Timestamp(day: int, monthKey: int)

  datatype BankTransaction = BankTransaction(
    txnId: string,
    accountId: string,
    timestamp: Timestamp,
    amount: real,
    currency: string,
    merchant: Option<string>,
    counterparty: Option<string>,
    transactionType: TransactionType,
    mcc: Option<string>)

  datatype PersonalData = PersonalData(
    userId: string,
    fullName: string,
    address: string,
    country: string,
    employmentStatus: EmploymentStatus,
    monthlyIncome: real,
    tenureMonths: int,
    emailHash: Option<string>,
    phoneHash: Option<string>)

  datatype LivenessCheck = LivenessCheck(
    userId: string,
    imageData: string,
    deviceFingerprint: string)

  datatype LivenessResult = LivenessResult(
    userId: string,
    livenessPass: bool,
    livenessScore: real,
    replayDetected: bool,
    sanctionsPass: bool,
    deviceRiskScore: real,
    flags: seq<string>)

  datatype CashflowMetrics = CashflowMetrics(
    netIncomeMedian: real,
    incomeCv: real,
    essentialSpendMedian: real,
    discretionarySpendMedian: real,
    bufferDays: real,
    paymentBurden: real,
    onTimeRatio: real,
    nsfCount90d: int,
    transactionCount: int)

  datatype ReasonCode =
    | InsufficientBufferDays | StrongCashBuffer
    | HighPaymentBurden | LowPaymentBurden
    | LatePaymentHistory
    | NsfEventsDetected
    | IrregularIncome | StableIncome
    | LivenessCheckFailed | ReplayDetected | SanctionsScreeningFailed

  datatype RiskReason = RiskReason(code: ReasonCode, impact: real, severity: Severity)

  datatype Action = IncreaseBuffer | ReduceBurden | PayOnTime | EliminateNsf

  datatype Feasibility = Easy | Moderate | Hard

  datatype Counterfactual = Counterfactual(
    action: Action,
    currentValue: real,
    targetValue: real,
    pdDelta: real,
    feasibility: Feasibility)

  const ModelVersion: string := "1.0.0"
  const PolicyVersion: string := "2025-10-01"
  /** The default loss given default of a decision record. */
  const DefaultLgd: real := 0.45

  datatype UnderwritingDecision = UnderwritingDecision(
    decisionId: string,
    userId: string,
    jurisdiction: string,
    fraudGatePassed: bool,
    livenessResult: Option<LivenessResult>,
    cashflowMetrics: Option<CashflowMetrics>,
    pd12m: real,
    lgd: real,
    expectedLoss: real,
    approved: bool,
    creditLimit: real,
    apr: Option<real>,
    reasons: seq<RiskReason>,
    counterfactuals: seq<Counterfactual>,
    modelVersion: string,
    policyVersion: string)

  /** The amount validator: a zero amount is refused. */
  function ValidateBankTransaction(t: BankTransaction): (r: Result<BankTransaction, set<string>>)
    ensures r.Success? <==> t.amount != 0.0
    ensures r.Success? ==> r.value == t
    ensures r.Failure? ==> r.error == {"amount"}
  {
    if t.amount == 0.0 then Failure({"amount"}) else Success(t)
  }

  /** The field bounds of PersonalData: positive stated income, non-negative
      tenure, a name of at least 2 and an address of at least 10 characters. */
  function ValidatePersonalData(p: PersonalData): (r: Result<PersonalData, set<string>>)
    ensures r.Success? <==>
      p.monthlyIncome > 0.0 && p.tenureMonths >= 0 && |p.fullName| >= 2 && |p.address| >= 10
    ensures r.Success? ==> r.value == p
    ensures r.Failure? ==>
      && ("monthly_income" in r.error <==> p.monthlyIncome <= 0.0)
      && ("tenure_months" in r.error <==> p.tenureMonths < 0)
      && ("full_name" in r.error <==> |p.fullName| < 2)
      && ("address" in r.error <==> |p.address| < 10)
  {
    var bad :=
      (if p.monthlyIncome > 0.0 then {} else {"monthly_income"})
      + (if p.tenureMonths >= 0 then {} else {"tenure_months"})
      + (if |p.fullName| >= 2 then {} else {"full_name"})
      + (if |p.address| >= 10 then {} else {"address"});
    if bad == {} then Success(p) else Failure(bad)
  }

  /** The image validator: fewer than 100 characters of image data is refused. */
  function ValidateLivenessCheck(c: LivenessCheck): (r: Result<LivenessCheck, set<string>>)
    ensures r.Success? <==> |c.imageData| >= 100
    ensures r.Success? ==> r.value == c
  {
    if |c.imageData| < 100 then Failure({"image_data"}) else Success(c)
  }

  predicate InUnit(x: real) { 0.0 <= x <= 1.0 }

  /** Both scores of a liveness result lie in [0, 1]. */
  function ValidateLivenessResult(l: LivenessResult): (r: Result<LivenessResult, set<string>>)
    ensures r.Success? <==> InUnit(l.livenessScore) && InUnit(l.deviceRiskScore)
    ensures r.Success? ==> r.value == l
  {
    var bad :=
      (if InUnit(l.livenessScore) then {} else {"liveness_score"})
      + (if InUnit(l.deviceRiskScore) then {} else {"device_risk_score"});
    if bad == {} then Success(l) else Failure(bad)
  }

  /** The bounds a CashflowMetrics record must meet to be constructed. */
  predicate MetricsInBounds(m: CashflowMetrics) {
    && m.incomeCv >= 0.0
    && m.essentialSpendMedian >= 0.0
    && m.discretionarySpendMedian >= 0.0
    && m.bufferDays >= 0.0
    && InUnit(m.paymentBurden)
    && InUnit(m.onTimeRatio)
    && m.nsfCount90d >= 0
    && m.transactionCount > 0
  }

  /** The fields of a CashflowMetrics record a validation error can name. */
  datatype MetricsField =
    | IncomeCvField | EssentialSpendField | DiscretionarySpendField | BufferDaysField
    | PaymentBurdenField | OnTimeRatioField | NsfCountField | TransactionCountField

  /** The field's name as the record declares it. */
  function FieldName(f: MetricsField): string {
    match f
    case IncomeCvField => "income_cv"
    case EssentialSpendField => "essential_spend_median"
    case DiscretionarySpendField => "discretionary_spend_median"
    case BufferDaysField => "buffer_days"
    case PaymentBurdenField => "payment_burden"
    case OnTimeRatioField => "on_time_ratio"
    case NsfCountField => "nsf_count_90d"
    case TransactionCountField => "transaction_count"
  }

  /** The bound on one field of a CashflowMetrics record. */
  predicate FieldInBounds(m: CashflowMetrics, f: MetricsField) {
    match f
    case IncomeCvField => m.incomeCv >= 0.0
    case EssentialSpendField => m.essentialSpendMedian >= 0.0
    case DiscretionarySpendField => m.discretionarySpendMedian >= 0.0
    case BufferDaysField => m.bufferDays >= 0.0
    case PaymentBurdenField => InUnit(m.paymentBurden)
    case OnTimeRatioField => InUnit(m.onTimeRatio)
    case NsfCountField => m.nsfCount90d >= 0
    case TransactionCountField => m.transactionCount > 0
  }

  const AllMetricsFields: set<MetricsField> := {
    IncomeCvField, EssentialSpendField, DiscretionarySpendField, BufferDaysField,
    PaymentBurdenField, OnTimeRatioField, NsfCountField, TransactionCountField }

  /** Every field out of bounds is reported, and nothing else. */
  function ValidateCashflowMetrics(m: CashflowMetrics): (r: Result<CashflowMetrics, set<MetricsField>>)
    ensures r.Success? <==> MetricsInBounds(m)
    ensures r.Success? ==> r.value == m
  {
    var bad := set f | f in AllMetricsFields && !FieldInBounds(m, f);
    InBoundsPerField(m);
    if bad == {} then
      assert forall f :: f in AllMetricsFields ==> f !in bad;
      Success(m)
    else
      Failure(bad)
  }

  /** The record's bounds are the bounds of its fields. */
  lemma InBoundsPerField(m: CashflowMetrics)
    ensures MetricsInBounds(m) <==> forall f :: f in AllMetricsFields ==> FieldInBounds(m, f)
  {
    if forall f :: f in AllMetricsFields ==> FieldInBounds(m, f) {
      assert FieldInBounds(m, IncomeCvField) && FieldInBounds(m, EssentialSpendField);
      assert FieldInBounds(m, DiscretionarySpendField) && FieldInBounds(m, BufferDaysField);
      assert FieldInBounds(m, PaymentBurdenField) && FieldInBounds(m, OnTimeRatioField);
      assert FieldInBounds(m, NsfCountField) && FieldInBounds(m, TransactionCountField);
    }
  }

  /** A rejected record names each field that is out of its bound, and
      only those. */
  lemma MetricsErrorsNamed(m: CashflowMetrics)
    ensures var r := ValidateCashflowMetrics(m);
      r.Failure? ==>
      && (IncomeCvField in r.error <==> m.incomeCv < 0.0)
      && (EssentialSpendField in r.error <==> m.essentialSpendMedian < 0.0)
      && (DiscretionarySpendField in r.error <==> m.discretionarySpendMedian < 0.0)
      && (BufferDaysField in r.error <==> m.bufferDays < 0.0)
      && (PaymentBurdenField in r.error <==> !InUnit(m.paymentBurden))
      && (OnTimeRatioField in r.error <==> !InUnit(m.onTimeRatio))
      && (NsfCountField in r.error <==> m.nsfCount90d < 0)
      && (TransactionCountField in r.error <==> m.transactionCount <= 0)
  {
  }

  /** The bounds an UnderwritingDecision must meet to be constructed. */
  predicate DecisionInBounds(d: UnderwritingDecision) {
    && InUnit(d.pd12m)
    && InUnit(d.lgd)
    && d.expectedLoss >= 0.0
    && d.creditLimit >= 0.0
    && (d.apr.Some? ==> 0.0 <= d.apr.value <= 100.0)
  }

  function ValidateDecision(d: UnderwritingDecision): (r: Result<UnderwritingDecision, set<string>>)
    ensures r.Success? <==> DecisionInBounds(d)
    ensures r.Success? ==> r.value == d
    ensures r.Failure? ==> ("apr" in r.error <==> d.apr.Some? && !(0.0 <= d.apr.value <= 100.0))
  {
    var bad :=
      (if InUnit(d.pd12m) then {} else {"pd_12m"})
      + (if InUnit(d.lgd) then {} else {"lgd"})
      + (if d.expectedLoss >= 0.0 then {} else {"expected_loss"})
      + (if d.creditLimit >= 0.0 then {} else {"credit_limit"})
      + (if d.apr.Some? && !(0.0 <= d.apr.value <= 100.0) then {"apr"} else {});
    if bad == {} then Success(d) else Failure(bad)
  }
}
