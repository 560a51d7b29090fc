/** The cashflow-first scorer (backend/app/underwriting_scorer.py): a fraud
    gate, a monotone probability-of-default from seven bucketed features,
    explanations sorted by impact, improvement suggestions, and the credit
    limit, APR and expected loss of an approval. */
module Underwriting {
  import opened Wrappers
  import opened Seqs
  import opened Sorting
  import opened Models

  // ---------------------------------------------------------------------
  // Policy

  datatype Thresholds = Thresholds(
    minBufferDays: real,
    maxPaymentBurden: real,
    minOnTimeRatio: real,
    maxNsfCount: int,
    maxIncomeCv: real,
    starterMaxPd: real,
    primeMaxPd: real)

  const UsThresholds: Thresholds := Thresholds(15.0, 0.40, 0.85, 2, 0.5, 0.12, 0.06)
  const UkThresholds: Thresholds := Thresholds(20.0, 0.35, 0.90, 1, 0.4, 0.10, 0.05)

  /** `THRESHOLDS.get(jurisdiction, THRESHOLDS['US'])`: any jurisdiction other
      than the UK is scored under the US policy. */
  function ThresholdsFor(jurisdiction: string): (t: Thresholds)
    ensures t == UkThresholds || t == UsThresholds
    ensures t == UkThresholds <==> jurisdiction == "UK"
  {
    if jurisdiction == "UK" then UkThresholds else UsThresholds
  }

  /** One row of `LIMIT_TIERS`: PDs in `[lo, hi)` get `limit`. */
  datatype Tier = Tier(lo: real, hi: real, limit: real)

  const LimitTiers: seq<Tier> := [
    Tier(0.00, 0.03, 3000.0),
    Tier(0.03, 0.06, 2000.0),
    Tier(0.06, 0.09, 1200.0),
    Tier(0.09, 0.12, 800.0)
  ]

  const BasePd: real := 0.08
  const MinPd: real := 0.01
  const MaxPd: real := 0.30
  const BaseApr: real := 12.0
  const MaxApr: real := 35.99

  // ---------------------------------------------------------------------
  // Probability of default

  /** The PD adjustment of each feature bucket; a positive adjustment raises
      risk. Each says exactly when it raises risk. */
  function BufferDelta(days: real): (r: real)
    ensures -0.025 <= r <= 0.025
    ensures r > 0.0 <==> days < 15.0
  {
    if days >= 30.0 then -0.025
    else if days >= 20.0 then -0.015
    else if days >= 15.0 then -0.005
    else if days >= 10.0 then 0.010
    else 0.025
  }

  function BurdenDelta(burden: real): (r: real)
    ensures -0.020 <= r <= 0.030
    ensures r > 0.0 <==> burden > 0.35
  {
    if burden <= 0.25 then -0.020
    else if burden <= 0.35 then -0.010
    else if burden <= 0.45 then 0.015
    else 0.030
  }

  function OnTimeDelta(ratio: real): (r: real)
    ensures -0.015 <= r <= 0.025
    ensures r > 0.0 <==> ratio < 0.85
  {
    if ratio >= 0.95 then -0.015
    else if ratio >= 0.85 then -0.005
    else if ratio >= 0.75 then 0.010
    else 0.025
  }

  function NsfDelta(count: int): (r: real)
    ensures -0.010 <= r <= 0.030
    ensures r > 0.0 <==> count != 0
  {
    if count == 0 then -0.010
    else if count == 1 then 0.015
    else 0.030
  }

  function CvDelta(cv: real): (r: real)
    ensures -0.010 <= r <= 0.025
    ensures r > 0.0 <==> cv > 0.4
  {
    if cv <= 0.2 then -0.010
    else if cv <= 0.4 then 0.0
    else if cv <= 0.6 then 0.015
    else 0.025
  }

  function IncomeDelta(income: real): (r: real)
    ensures -0.010 <= r <= 0.015
    ensures r > 0.0 <==> income < 1500.0
  {
    if income >= 4000.0 then -0.010
    else if income >= 2500.0 then -0.005
    else if income >= 1500.0 then 0.0
    else 0.015
  }

  function TenureDelta(months: int): (r: real)
    ensures -0.010 <= r <= 0.015
    ensures r > 0.0 <==> months < 12
  {
    if months >= 24 then -0.010
    else if months >= 12 then -0.005
    else if months >= 6 then 0.005
    else 0.015
  }

  /** The `feature_impacts` dictionary: one adjustment per feature. */
  datatype Impacts = Impacts(
    buffer: real, burden: real, onTime: real, nsf: real,
    cv: real, income: real, tenure: real)

  function ImpactSum(i: Impacts): real {
    i.buffer + i.burden + i.onTime + i.nsf + i.cv + i.income + i.tenure
  }

  /** `max(0.01, min(0.30, pd))`. */
  function ClampPd(x: real): (r: real)
    ensures MinPd <= r <= MaxPd
    ensures MinPd <= x <= MaxPd ==> r == x
  {
    if x > MaxPd then MaxPd else if x < MinPd then MinPd else x
  }

  datatype PdResult = PdResult(pd: real, impacts: Impacts)

  /** `_calculate_pd`: the baseline 0.08 moved by every feature's adjustment
      and clamped to [0.01, 0.30]; the reported impacts are exactly the
      adjustments that produced the PD. */
  function CalculatePd(m: CashflowMetrics, tenureMonths: int): (r: PdResult)
    ensures MinPd <= r.pd <= MaxPd
    ensures r.pd == ClampPd(BasePd + ImpactSum(r.impacts))
    ensures r.impacts.buffer > 0.0 <==> m.bufferDays < 15.0
    ensures r.impacts.burden > 0.0 <==> m.paymentBurden > 0.35
    ensures r.impacts.onTime > 0.0 <==> m.onTimeRatio < 0.85
    ensures r.impacts.nsf > 0.0 <==> m.nsfCount90d != 0
    ensures r.impacts.cv > 0.0 <==> m.incomeCv > 0.4
    ensures r.impacts.income > 0.0 <==> m.netIncomeMedian < 1500.0
    ensures r.impacts.tenure > 0.0 <==> tenureMonths < 12
    ensures r.impacts == Impacts(BufferDelta(m.bufferDays), BurdenDelta(m.paymentBurden),
      OnTimeDelta(m.onTimeRatio), NsfDelta(m.nsfCount90d), CvDelta(m.incomeCv),
      IncomeDelta(m.netIncomeMedian), TenureDelta(tenureMonths))
  {
    var imp := Impacts(
      BufferDelta(m.bufferDays),
      BurdenDelta(m.paymentBurden),
      OnTimeDelta(m.onTimeRatio),
      NsfDelta(m.nsfCount90d),
      CvDelta(m.incomeCv),
      IncomeDelta(m.netIncomeMedian),
      TenureDelta(tenureMonths));
    PdResult(ClampPd(BasePd + ImpactSum(imp)), imp)
  }

  /** `m2` is at least as healthy as `m1` in every feature the PD reads. */
  predicate NoWorse(m1: CashflowMetrics, t1: int, m2: CashflowMetrics, t2: int) {
    && m1.bufferDays <= m2.bufferDays
    && m2.paymentBurden <= m1.paymentBurden
    && m1.onTimeRatio <= m2.onTimeRatio
    && 0 <= m2.nsfCount90d <= m1.nsfCount90d
    && m2.incomeCv <= m1.incomeCv
    && m1.netIncomeMedian <= m2.netIncomeMedian
    && t1 <= t2
  }

  /** The monotone constraint: better cashflow never raises the PD. */
  lemma PdMonotone(m1: CashflowMetrics, t1: int, m2: CashflowMetrics, t2: int)
    requires NoWorse(m1, t1, m2, t2)
    ensures CalculatePd(m2, t2).pd <= CalculatePd(m1, t1).pd
  {
    var i1 := CalculatePd(m1, t1).impacts;
    var i2 := CalculatePd(m2, t2).impacts;
    assert i2.buffer <= i1.buffer;
    assert i2.burden <= i1.burden;
    assert i2.onTime <= i1.onTime;
    assert i2.nsf <= i1.nsf;
    assert i2.cv <= i1.cv;
    assert i2.income <= i1.income;
    assert i2.tenure <= i1.tenure;
    ClampMonotone(BasePd + ImpactSum(i2), BasePd + ImpactSum(i1));
  }

  lemma ClampMonotone(x: real, y: real)
    requires x <= y
    ensures ClampPd(x) <= ClampPd(y)
  {
  }

  // ---------------------------------------------------------------------
  // Limit, APR and loss

  predicate InTier(t: Tier, pd: real) { t.lo <= pd < t.hi }

  /** `pd` lies in tier `i` and in none before it. */
  predicate FirstTierAt(tiers: seq<Tier>, pd: real, i: int) {
    0 <= i < |tiers| && InTier(tiers[i], pd) && forall j :: 0 <= j < i ==> !InTier(tiers[j], pd)
  }

  /** The limit of the first tier whose half-open range holds `pd`, or 0 when
      no tier does. */
  function TierLimit(tiers: seq<Tier>, pd: real): (r: real)
    requires forall i :: 0 <= i < |tiers| ==> tiers[i].limit > 0.0
    ensures r == 0.0 <==> forall i :: 0 <= i < |tiers| ==> !InTier(tiers[i], pd)
    ensures r != 0.0 ==> exists i :: FirstTierAt(tiers, pd, i) && r == tiers[i].limit
  {
    if tiers == [] then 0.0
    else if InTier(tiers[0], pd) then
      assert FirstTierAt(tiers, pd, 0);
      tiers[0].limit
    else
      var r := TierLimit(tiers[1..], pd);
      TierShift(tiers, pd, r);
      r
  }

  /** Skipping a first tier that does not hold `pd` shifts every index by one. */
  lemma TierShift(tiers: seq<Tier>, pd: real, r: real)
    requires tiers != [] && !InTier(tiers[0], pd)
    requires r == 0.0 <==> forall i :: 0 <= i < |tiers[1..]| ==> !InTier(tiers[1..][i], pd)
    requires r != 0.0 ==> exists i :: FirstTierAt(tiers[1..], pd, i) && r == tiers[1..][i].limit
    ensures r == 0.0 <==> forall i :: 0 <= i < |tiers| ==> !InTier(tiers[i], pd)
    ensures r != 0.0 ==> exists i :: FirstTierAt(tiers, pd, i) && r == tiers[i].limit
  {
    assert forall i :: 0 < i < |tiers| ==> tiers[i] == tiers[1..][i - 1];
    if r != 0.0 {
      var k :| FirstTierAt(tiers[1..], pd, k) && r == tiers[1..][k].limit;
      assert FirstTierAt(tiers, pd, k + 1);
    }
  }

  /** `_determine_credit_limit`: the tier table read as half-open bands;
      outside [0, 0.12) there is no limit. */
  function CreditLimit(pd: real): (r: real)
    ensures 0.0 <= pd < 0.03 ==> r == 3000.0
    ensures 0.03 <= pd < 0.06 ==> r == 2000.0
    ensures 0.06 <= pd < 0.09 ==> r == 1200.0
    ensures 0.09 <= pd < 0.12 ==> r == 800.0
    ensures pd < 0.0 || pd >= 0.12 ==> r == 0.0
  {
    var r := TierLimit(LimitTiers, pd);
    assert InTier(LimitTiers[0], pd) ==> FirstTierAt(LimitTiers, pd, 0);
    assert InTier(LimitTiers[1], pd) ==> FirstTierAt(LimitTiers, pd, 1);
    assert InTier(LimitTiers[2], pd) ==> FirstTierAt(LimitTiers, pd, 2);
    assert InTier(LimitTiers[3], pd) ==> FirstTierAt(LimitTiers, pd, 3);
    r
  }

  /** A riskier applicant never gets a larger limit. */
  lemma CreditLimitAntitone(p1: real, p2: real)
    requires 0.0 <= p1 <= p2
    ensures CreditLimit(p2) <= CreditLimit(p1)
  {
    var l1 := CreditLimit(p1);
    var l2 := CreditLimit(p2);
    assert l1 in {0.0, 800.0, 1200.0, 2000.0, 3000.0};
    assert l2 in {0.0, 800.0, 1200.0, 2000.0, 3000.0};
  }

  /** `_determine_apr`: the base rate plus the PD in percentage points,
      capped at 35.99. */
  function Apr(pd: real): (r: real)
    ensures r <= MaxApr
    ensures pd >= 0.0 ==> r >= BaseApr
    ensures 0.01 <= pd <= 0.12 ==> 13.0 <= r <= 24.0
  {
    var apr := BaseApr + pd * 100.0;
    if apr <= MaxApr then apr else MaxApr
  }

  /** A riskier applicant never pays a lower rate. */
  lemma AprMonotone(p1: real, p2: real)
    requires p1 <= p2
    ensures Apr(p1) <= Apr(p2)
  {
    assert p1 * 100.0 <= p2 * 100.0;
  }

  // ---------------------------------------------------------------------
  // Reasons

  function AbsImpact(r: RiskReason): real {
    if r.impact < 0.0 then -r.impact else r.impact
  }

  function Codes(rs: seq<RiskReason>): set<ReasonCode> {
    set r | r in rs :: r.code
  }

  /** The feature impact a reason code reports. */
  function ImpactOf(imp: Impacts, code: ReasonCode): real {
    match code
    case InsufficientBufferDays | StrongCashBuffer => imp.buffer
    case HighPaymentBurden | LowPaymentBurden => imp.burden
    case LatePaymentHistory => imp.onTime
    case NsfEventsDetected => imp.nsf
    case IrregularIncome | StableIncome => imp.cv
    case LivenessCheckFailed | ReplayDetected | SanctionsScreeningFailed => 1.0
  }

  /** The severity a reason code carries for the applicant's metrics. */
  function SeverityOf(code: ReasonCode, m: CashflowMetrics): Severity {
    match code
    case InsufficientBufferDays => if m.bufferDays < 10.0 then High else Medium
    case LatePaymentHistory => if m.onTimeRatio < 0.75 then High else Medium
    case IrregularIncome => Medium
    case StrongCashBuffer | LowPaymentBurden | StableIncome => Low
    case HighPaymentBurden | NsfEventsDetected => High
    case LivenessCheckFailed | ReplayDetected | SanctionsScreeningFailed => High
  }

  /** Every reason carries its feature's impact and its code's severity. */
  predicate Explains(rs: seq<RiskReason>, m: CashflowMetrics, imp: Impacts) {
    forall x :: x in rs ==> x.impact == ImpactOf(imp, x.code) && x.severity == SeverityOf(x.code, m)
  }

  /** The reason codes the policy calls for: a breach or a strength per
      feature, by the jurisdiction's thresholds. */
  function PolicyCodes(m: CashflowMetrics, th: Thresholds): set<ReasonCode> {
    BufferCodes(m, th) + BurdenCodes(m, th) + OnTimeCodes(m, th) + NsfCodes(m, th) + IncomeCodes(m, th)
  }

  function BufferCodes(m: CashflowMetrics, th: Thresholds): set<ReasonCode> {
    if m.bufferDays < th.minBufferDays then {InsufficientBufferDays}
    else if m.bufferDays >= 30.0 then {StrongCashBuffer} else {}
  }

  function BurdenCodes(m: CashflowMetrics, th: Thresholds): set<ReasonCode> {
    if m.paymentBurden > th.maxPaymentBurden then {HighPaymentBurden}
    else if m.paymentBurden <= 0.25 then {LowPaymentBurden} else {}
  }

  function OnTimeCodes(m: CashflowMetrics, th: Thresholds): set<ReasonCode> {
    if m.onTimeRatio < th.minOnTimeRatio then {LatePaymentHistory} else {}
  }

  function NsfCodes(m: CashflowMetrics, th: Thresholds): set<ReasonCode> {
    if m.nsfCount90d > th.maxNsfCount then {NsfEventsDetected} else {}
  }

  function IncomeCodes(m: CashflowMetrics, th: Thresholds): set<ReasonCode> {
    if m.incomeCv > th.maxIncomeCv then {IrregularIncome}
    else if m.incomeCv <= 0.2 then {StableIncome} else {}
  }

  /** Each policy code appears exactly under its condition. */
  lemma PolicyCodesIff(m: CashflowMetrics, th: Thresholds)
    ensures var cs := PolicyCodes(m, th);
      && (InsufficientBufferDays in cs <==> m.bufferDays < th.minBufferDays)
      && (StrongCashBuffer in cs <==> th.minBufferDays <= m.bufferDays && m.bufferDays >= 30.0)
      && (HighPaymentBurden in cs <==> m.paymentBurden > th.maxPaymentBurden)
      && (LowPaymentBurden in cs <==> m.paymentBurden <= th.maxPaymentBurden && m.paymentBurden <= 0.25)
      && (LatePaymentHistory in cs <==> m.onTimeRatio < th.minOnTimeRatio)
      && (NsfEventsDetected in cs <==> m.nsfCount90d > th.maxNsfCount)
      && (IrregularIncome in cs <==> m.incomeCv > th.maxIncomeCv)
      && (StableIncome in cs <==> m.incomeCv <= th.maxIncomeCv && m.incomeCv <= 0.2)
      && cs !! {LivenessCheckFailed, ReplayDetected, SanctionsScreeningFailed}
  {
  }

  /** A reason slot: the reason when its condition holds. */
  function ReasonSlot(cond: bool, x: RiskReason): (r: seq<RiskReason>)
    ensures |r| <= 1
    ensures Codes(r) == if cond then {x.code} else {}
    ensures forall y :: y in r ==> y == x
  {
    if cond then
      assert x in [x];
      [x]
    else []
  }

  lemma CodesAppend(a: seq<RiskReason>, b: seq<RiskReason>)
    ensures Codes(a + b) == Codes(a) + Codes(b)
  {
    forall c | c in Codes(a + b) ensures c in Codes(a) + Codes(b) {
      var x :| x in a + b && x.code == c;
    }
  }

  function BufferSlot(m: CashflowMetrics, imp: Impacts, th: Thresholds): (r: seq<RiskReason>)
    ensures |r| <= 1 && Explains(r, m, imp)
    ensures Codes(r) == BufferCodes(m, th)
  {
    if m.bufferDays < th.minBufferDays
    then ReasonSlot(true, RiskReason(InsufficientBufferDays, imp.buffer, SeverityOf(InsufficientBufferDays, m)))
    else ReasonSlot(m.bufferDays >= 30.0, RiskReason(StrongCashBuffer, imp.buffer, Low))
  }

  function BurdenSlot(m: CashflowMetrics, imp: Impacts, th: Thresholds): (r: seq<RiskReason>)
    ensures |r| <= 1 && Explains(r, m, imp)
    ensures Codes(r) == BurdenCodes(m, th)
  {
    if m.paymentBurden > th.maxPaymentBurden
    then ReasonSlot(true, RiskReason(HighPaymentBurden, imp.burden, High))
    else ReasonSlot(m.paymentBurden <= 0.25, RiskReason(LowPaymentBurden, imp.burden, Low))
  }

  function OnTimeSlot(m: CashflowMetrics, imp: Impacts, th: Thresholds): (r: seq<RiskReason>)
    ensures |r| <= 1 && Explains(r, m, imp)
    ensures Codes(r) == OnTimeCodes(m, th)
  {
    ReasonSlot(m.onTimeRatio < th.minOnTimeRatio,
      RiskReason(LatePaymentHistory, imp.onTime, SeverityOf(LatePaymentHistory, m)))
  }

  function NsfSlot(m: CashflowMetrics, imp: Impacts, th: Thresholds): (r: seq<RiskReason>)
    ensures |r| <= 1 && Explains(r, m, imp)
    ensures Codes(r) == NsfCodes(m, th)
  {
    ReasonSlot(m.nsfCount90d > th.maxNsfCount, RiskReason(NsfEventsDetected, imp.nsf, High))
  }

  function IncomeSlot(m: CashflowMetrics, imp: Impacts, th: Thresholds): (r: seq<RiskReason>)
    ensures |r| <= 1 && Explains(r, m, imp)
    ensures Codes(r) == IncomeCodes(m, th)
  {
    if m.incomeCv > th.maxIncomeCv
    then ReasonSlot(true, RiskReason(IrregularIncome, imp.cv, Medium))
    else ReasonSlot(m.incomeCv <= 0.2, RiskReason(StableIncome, imp.cv, Low))
  }

  /** The reasons before sorting, one slot per feature in source order. */
  function CandidateReasons(m: CashflowMetrics, imp: Impacts, th: Thresholds): (r: seq<RiskReason>)
    ensures |r| <= 5
    ensures Explains(r, m, imp)
  {
    var a := BufferSlot(m, imp, th);
    var b := BurdenSlot(m, imp, th);
    var c := OnTimeSlot(m, imp, th);
    var d := NsfSlot(m, imp, th);
    var e := IncomeSlot(m, imp, th);
    ExplainsAppend(a, b, m, imp);
    ExplainsAppend(a + b, c, m, imp);
    ExplainsAppend(a + b + c, d, m, imp);
    ExplainsAppend(a + b + c + d, e, m, imp);
    a + b + c + d + e
  }

  lemma ExplainsAppend(a: seq<RiskReason>, b: seq<RiskReason>, m: CashflowMetrics, imp: Impacts)
    requires Explains(a, m, imp) && Explains(b, m, imp)
    ensures Explains(a + b, m, imp)
  {
  }

  /** The candidates carry exactly the codes the policy calls for. */
  lemma CandidateCodes(m: CashflowMetrics, imp: Impacts, th: Thresholds)
    ensures Codes(CandidateReasons(m, imp, th)) == PolicyCodes(m, th)
  {
    var a := BufferSlot(m, imp, th);
    var b := BurdenSlot(m, imp, th);
    var c := OnTimeSlot(m, imp, th);
    var d := NsfSlot(m, imp, th);
    var e := IncomeSlot(m, imp, th);
    CodesAppend(a, b);
    CodesAppend(a + b, c);
    CodesAppend(a + b + c, d);
    CodesAppend(a + b + c + d, e);
  }

  /** `_generate_reasons`: the candidates, stably sorted by absolute impact,
      largest first, then the top five (which is all of them). */
  function GenerateReasons(m: CashflowMetrics, imp: Impacts, th: Thresholds): (r: seq<RiskReason>)
    ensures |r| <= 5
    ensures SortedDesc(r, AbsImpact)
    ensures multiset(r) == multiset(CandidateReasons(m, imp, th))
  {
    Take(SortDesc(CandidateReasons(m, imp, th), AbsImpact), 5)
  }

  /** The reasons name exactly the codes the policy calls for, each with its
      feature's impact and its code's severity. */
  lemma ReasonsMatchPolicy(m: CashflowMetrics, imp: Impacts, th: Thresholds)
    ensures Codes(GenerateReasons(m, imp, th)) == PolicyCodes(m, th)
    ensures Explains(GenerateReasons(m, imp, th), m, imp)
  {
    SameReasons(GenerateReasons(m, imp, th), CandidateReasons(m, imp, th), m, imp);
    CandidateCodes(m, imp, th);
  }

  /** Reordering reasons keeps their codes and their explanations. */
  lemma SameReasons(a: seq<RiskReason>, b: seq<RiskReason>, m: CashflowMetrics, imp: Impacts)
    requires multiset(a) == multiset(b)
    ensures Codes(a) == Codes(b)
    ensures Explains(b, m, imp) ==> Explains(a, m, imp)
  {
    assert forall x :: x in a <==> x in multiset(a);
    assert forall x :: x in b <==> x in multiset(b);
  }

  /** Under the UK policy a buffer of 15 to 20 days is reported as
      insufficient although its PD adjustment lowers the risk. */
  lemma UkInsufficientBufferLowersPd(m: CashflowMetrics, tenureMonths: int)
    requires 15.0 <= m.bufferDays < 20.0
    ensures var imp := CalculatePd(m, tenureMonths).impacts;
      && InsufficientBufferDays in Codes(GenerateReasons(m, imp, UkThresholds))
      && imp.buffer < 0.0
  {
    var imp := CalculatePd(m, tenureMonths).impacts;
    assert imp.buffer == BufferDelta(m.bufferDays);
    ReasonsMatchPolicy(m, imp, UkThresholds);
    assert InsufficientBufferDays in PolicyCodes(m, UkThresholds);
  }

  // ---------------------------------------------------------------------
  // Counterfactuals

  /** The rank of a suggestion kind in the order the source proposes them. */
  function Rank(a: Action): nat {
    match a
    case IncreaseBuffer => 0
    case ReduceBurden => 1
    case PayOnTime => 2
    case EliminateNsf => 3
  }

  function Actions(cs: seq<Counterfactual>): set<Action> {
    set c | c in cs :: c.action
  }

  /** Suggestion kinds strictly follow the source's order, so none repeats. */
  predicate Ranked(cs: seq<Counterfactual>) {
    forall i, j :: 0 <= i < j < |cs| ==> Rank(cs[i].action) < Rank(cs[j].action)
  }

  /** Every suggestion targets a better value than the current one and
      promises a lower PD. */
  predicate Improving(c: Counterfactual) {
    && c.pdDelta < 0.0
    && match c.action
       case IncreaseBuffer => c.currentValue < c.targetValue
       case ReduceBurden => c.targetValue < c.currentValue
       case PayOnTime => c.currentValue < c.targetValue
       case EliminateNsf => c.targetValue < c.currentValue
  }

  /** All suggestions improve and have rank `k`. */
  predicate ImprovingAt(r: seq<Counterfactual>, k: nat) {
    forall x :: x in r ==> Improving(x) && Rank(x.action) == k
  }

  /** Two ranked runs, the first entirely below rank `k` and the second from
      `k` on, concatenate to a ranked run. */
  lemma RankedAppend(a: seq<Counterfactual>, b: seq<Counterfactual>, k: nat)
    requires Ranked(a) && Ranked(b)
    requires forall x :: x in a ==> Rank(x.action) < k
    requires forall x :: x in b ==> Rank(x.action) >= k
    ensures Ranked(a + b)
  {
    var r := a + b;
    forall i, j | 0 <= i < j < |r| ensures Rank(r[i].action) < Rank(r[j].action) {
      if j < |a| {
        assert r[i] == a[i] && r[j] == a[j];
      } else if i >= |a| {
        assert r[i] == b[i - |a|] && r[j] == b[j - |a|];
      } else {
        assert r[i] in a && r[j] in b;
      }
    }
  }

  lemma ActionsAppend(a: seq<Counterfactual>, b: seq<Counterfactual>)
    ensures Actions(a + b) == Actions(a) + Actions(b)
  {
    forall x | x in Actions(a + b) ensures x in Actions(a) + Actions(b) {
      var c :| c in a + b && c.action == x;
    }
  }

  /** A suggestion slot: the suggestion when its condition holds. */
  function Slot(cond: bool, c: Counterfactual): (r: seq<Counterfactual>)
    ensures Ranked(r) && |r| == |Actions(r)|
    ensures Actions(r) == if cond then {c.action} else {}
    ensures forall x :: x in r ==> x == c
  {
    if cond then
      assert Actions([c]) == {c.action} by {
        assert c in [c];
      }
      [c]
    else []
  }

  /** The suggestion made for each kind: the metric's current value, its
      target, the estimated PD change and how hard the change is. */
  function Suggestion(m: CashflowMetrics, a: Action): (c: Counterfactual)
    ensures c.action == a
  {
    match a
    case IncreaseBuffer => Counterfactual(IncreaseBuffer, m.bufferDays, 20.0, -0.015, Moderate)
    case ReduceBurden =>
      Counterfactual(ReduceBurden, m.paymentBurden, 0.30, (0.30 - m.paymentBurden) * 0.05, Hard)
    case PayOnTime => Counterfactual(PayOnTime, m.onTimeRatio, 1.0, -0.020, Easy)
    case EliminateNsf =>
      Counterfactual(EliminateNsf, m.nsfCount90d as real, 0.0, -0.015 * m.nsfCount90d as real, Moderate)
  }

  /** Every suggestion in `r` carries the values made for its kind. */
  predicate SuggestionsOf(m: CashflowMetrics, r: seq<Counterfactual>) {
    forall x :: x in r ==> x == Suggestion(m, x.action)
  }

  function BufferSuggestion(m: CashflowMetrics, imp: Impacts): (r: seq<Counterfactual>)
    ensures Ranked(r) && ImprovingAt(r, 0) && |r| == |Actions(r)|
    ensures Actions(r) == if m.bufferDays < 20.0 && imp.buffer > 0.0 then {IncreaseBuffer} else {}
    ensures SuggestionsOf(m, r)
  {
    Slot(m.bufferDays < 20.0 && imp.buffer > 0.0, Suggestion(m, IncreaseBuffer))
  }

  function BurdenSuggestion(m: CashflowMetrics, imp: Impacts): (r: seq<Counterfactual>)
    ensures Ranked(r) && ImprovingAt(r, 1) && |r| == |Actions(r)|
    ensures Actions(r) == if m.paymentBurden > 0.35 && imp.burden > 0.0 then {ReduceBurden} else {}
    ensures SuggestionsOf(m, r)
  {
    Slot(m.paymentBurden > 0.35 && imp.burden > 0.0, Suggestion(m, ReduceBurden))
  }

  function OnTimeSuggestion(m: CashflowMetrics): (r: seq<Counterfactual>)
    ensures Ranked(r) && ImprovingAt(r, 2) && |r| == |Actions(r)|
    ensures Actions(r) == if m.onTimeRatio < 0.90 then {PayOnTime} else {}
    ensures SuggestionsOf(m, r)
  {
    Slot(m.onTimeRatio < 0.90, Suggestion(m, PayOnTime))
  }

  function NsfSuggestion(m: CashflowMetrics): (r: seq<Counterfactual>)
    ensures Ranked(r) && ImprovingAt(r, 3) && |r| == |Actions(r)|
    ensures Actions(r) == if m.nsfCount90d > 0 then {EliminateNsf} else {}
    ensures SuggestionsOf(m, r)
  {
    Slot(m.nsfCount90d > 0, Suggestion(m, EliminateNsf))
  }

  /** The suggestion kinds the source's four conditions call for. */
  function SuggestedActions(m: CashflowMetrics, imp: Impacts): set<Action> {
    (if m.bufferDays < 20.0 && imp.buffer > 0.0 then {IncreaseBuffer} else {})
    + (if m.paymentBurden > 0.35 && imp.burden > 0.0 then {ReduceBurden} else {})
    + (if m.onTimeRatio < 0.90 then {PayOnTime} else {})
    + (if m.nsfCount90d > 0 then {EliminateNsf} else {})
  }

  lemma SuggestedActionsIff(m: CashflowMetrics, imp: Impacts)
    ensures var s := SuggestedActions(m, imp);
      && (IncreaseBuffer in s <==> m.bufferDays < 20.0 && imp.buffer > 0.0)
      && (ReduceBurden in s <==> m.paymentBurden > 0.35 && imp.burden > 0.0)
      && (PayOnTime in s <==> m.onTimeRatio < 0.90)
      && (EliminateNsf in s <==> m.nsfCount90d > 0)
      && ({IncreaseBuffer, ReduceBurden, PayOnTime} <= s <==>
          m.bufferDays < 20.0 && imp.buffer > 0.0 && m.paymentBurden > 0.35 && imp.burden > 0.0
          && m.onTimeRatio < 0.90)
  {
  }

  /** All four suggestions, one per condition, in the source's order. */
  function CandidateCounterfactuals(m: CashflowMetrics, imp: Impacts): (r: seq<Counterfactual>)
    ensures Ranked(r)
    ensures forall x :: x in r ==> Improving(x)
    ensures SuggestionsOf(m, r)
  {
    var a := BufferSuggestion(m, imp);
    var b := BurdenSuggestion(m, imp);
    var c := OnTimeSuggestion(m);
    var d := NsfSuggestion(m);
    RankedAppend(a, b, 1);
    RankedAppend(a + b, c, 2);
    RankedAppend(a + b + c, d, 3);
    a + b + c + d
  }

  /** The candidates are exactly the suggested kinds, each once. */
  lemma CandidateActions(m: CashflowMetrics, imp: Impacts)
    ensures Actions(CandidateCounterfactuals(m, imp)) == SuggestedActions(m, imp)
    ensures |CandidateCounterfactuals(m, imp)| == |SuggestedActions(m, imp)|
  {
    var a := BufferSuggestion(m, imp);
    var b := BurdenSuggestion(m, imp);
    var c := OnTimeSuggestion(m);
    var d := NsfSuggestion(m);
    JoinSlots(a, b, c, d);
  }

  /** Four slots of the four kinds, in order, joined keep each kind once. */
  lemma JoinSlots(a: seq<Counterfactual>, b: seq<Counterfactual>, c: seq<Counterfactual>, d: seq<Counterfactual>)
    requires |a| == |Actions(a)| && |b| == |Actions(b)| && |c| == |Actions(c)| && |d| == |Actions(d)|
    requires Actions(a) <= {IncreaseBuffer} && Actions(b) <= {ReduceBurden}
    requires Actions(c) <= {PayOnTime} && Actions(d) <= {EliminateNsf}
    ensures Actions(a + b + c + d) == Actions(a) + Actions(b) + Actions(c) + Actions(d)
    ensures |a + b + c + d| == |Actions(a + b + c + d)|
  {
    JoinActions(a, b);
    JoinActions(a + b, c);
    JoinActions(a + b + c, d);
  }

  /** Suggestions of disjoint kinds, each kind once, joined keep each kind
      once. */
  lemma JoinActions(a: seq<Counterfactual>, b: seq<Counterfactual>)
    requires |a| == |Actions(a)| && |b| == |Actions(b)|
    requires Actions(a) !! Actions(b)
    ensures Actions(a + b) == Actions(a) + Actions(b)
    ensures |a + b| == |Actions(a + b)|
  {
    ActionsAppend(a, b);
  }

  lemma SubsetSize<T>(a: set<T>, b: set<T>)
    requires a <= b
    ensures |a| <= |b|
  {
    assert b == a + (b - a);
  }

  /** In a ranked run the rank at position `i` is at least `i`. */
  lemma {:induction false} RankAtLeastIndex(c: seq<Counterfactual>, i: nat)
    requires Ranked(c) && i < |c|
    ensures Rank(c[i].action) >= i
  {
    if i > 0 {
      RankAtLeastIndex(c, i - 1);
    }
  }

  /** Keeping the first three of rank-ordered suggestions keeps every kind but
      the last, and drops that one exactly when the other three are there. */
  lemma TakeThreeActions(c: seq<Counterfactual>)
    requires |c| == |Actions(c)|
    requires Ranked(c)
    ensures forall a :: a != EliminateNsf ==> (a in Actions(Take(c, 3)) <==> a in Actions(c))
    ensures EliminateNsf in Actions(Take(c, 3)) <==>
      EliminateNsf in Actions(c) && !({IncreaseBuffer, ReduceBurden, PayOnTime} <= Actions(c))
  {
    if |c| >= 4 {
      FourRanked(c);
    } else {
      assert Take(c, 3) == c;
      if EliminateNsf in Actions(c) && {IncreaseBuffer, ReduceBurden, PayOnTime} <= Actions(c) {
        SubsetSize({IncreaseBuffer, ReduceBurden, PayOnTime, EliminateNsf}, Actions(c));
        assert false;
      }
    }
  }

  /** A ranked run of four or more is the four kinds in order, and its first
      three leave out only the NSF suggestion. */
  lemma FourRanked(c: seq<Counterfactual>)
    requires Ranked(c) && |c| >= 4
    ensures Actions(c) == {IncreaseBuffer, ReduceBurden, PayOnTime, EliminateNsf}
    ensures Actions(Take(c, 3)) == {IncreaseBuffer, ReduceBurden, PayOnTime}
  {
    RankAtLeastIndex(c, |c| - 1);
    assert |c| == 4;
    assert Rank(c[0].action) < Rank(c[1].action) < Rank(c[2].action) < Rank(c[3].action);
    assert c[0].action == IncreaseBuffer && c[1].action == ReduceBurden;
    assert c[2].action == PayOnTime && c[3].action == EliminateNsf;
    assert c == [c[0], c[1], c[2], c[3]];
    assert Take(c, 3) == [c[0], c[1], c[2]];
  }

  /** `_generate_counterfactuals`: the first three suggestions in the order
      buffer, burden, on-time, NSF; the NSF suggestion is the one dropped
      when all four apply. */
  function GenerateCounterfactuals(m: CashflowMetrics, imp: Impacts): (r: seq<Counterfactual>)
    ensures |r| <= 3
    ensures Ranked(r)
    ensures forall x :: x in r ==> Improving(x)
    ensures forall a :: a != EliminateNsf ==> (a in Actions(r) <==> a in SuggestedActions(m, imp))
    ensures EliminateNsf in Actions(r) <==>
      EliminateNsf in SuggestedActions(m, imp)
      && !({IncreaseBuffer, ReduceBurden, PayOnTime} <= SuggestedActions(m, imp))
    ensures SuggestionsOf(m, r)
    ensures forall x :: x in r && x.action == EliminateNsf ==>
      x.currentValue == m.nsfCount90d as real && x.targetValue == 0.0
      && x.pdDelta == -0.015 * m.nsfCount90d as real
  {
    var c := CandidateCounterfactuals(m, imp);
    CandidateActions(m, imp);
    TakeThreeActions(c);
    Take(c, 3)
  }

  /** Each suggestion is made exactly under the source's condition for it;
      the NSF one also needs one of the other three to be missing. */
  lemma CounterfactualsMatchPolicy(m: CashflowMetrics, imp: Impacts)
    ensures var acts := Actions(GenerateCounterfactuals(m, imp));
      && (IncreaseBuffer in acts <==> m.bufferDays < 20.0 && imp.buffer > 0.0)
      && (ReduceBurden in acts <==> m.paymentBurden > 0.35 && imp.burden > 0.0)
      && (PayOnTime in acts <==> m.onTimeRatio < 0.90)
      && (EliminateNsf in acts <==>
          && m.nsfCount90d > 0
          && !(m.bufferDays < 20.0 && imp.buffer > 0.0 && m.paymentBurden > 0.35 && imp.burden > 0.0
               && m.onTimeRatio < 0.90))
  {
    SuggestedActionsIff(m, imp);
  }

  // ---------------------------------------------------------------------
  // Decisions

  /** PD x LGD x EAD, with the credit limit as the exposure; no exposure, no
      loss. */
  function ExpectedLoss(pd: real, lgd: real, ead: real): (r: real)
    ensures pd >= 0.0 && lgd >= 0.0 && ead >= 0.0 ==> r >= 0.0
    ensures ead == 0.0 ==> r == 0.0
  {
    ProductNonNegative(pd, lgd);
    ProductNonNegative(pd * lgd, ead);
    pd * lgd * ead
  }

  lemma ProductNonNegative(a: real, b: real)
    ensures a >= 0.0 && b >= 0.0 ==> a * b >= 0.0
  {
  }

  /** The reasons of a fraud-gate decline: one high-severity reason per
      failed check, in the order liveness, replay, sanctions. */
  function GateReasons(l: LivenessResult): (rs: seq<RiskReason>)
    ensures (LivenessCheckFailed in Codes(rs) <==> !l.livenessPass)
      && (ReplayDetected in Codes(rs) <==> l.replayDetected)
      && (SanctionsScreeningFailed in Codes(rs) <==> !l.sanctionsPass)
    ensures Codes(rs) <= {LivenessCheckFailed, ReplayDetected, SanctionsScreeningFailed}
    ensures forall i :: 0 <= i < |rs| ==> rs[i].impact == 1.0 && rs[i].severity == High
    ensures !l.livenessPass ==> rs != [] && rs[0].code == LivenessCheckFailed
    ensures l.livenessPass && l.replayDetected ==> rs != [] && rs[0].code == ReplayDetected
    ensures |rs| == (if !l.livenessPass then 1 else 0) + (if l.replayDetected then 1 else 0)
      + (if !l.sanctionsPass then 1 else 0)
  {
    var a := GateSlot(!l.livenessPass, LivenessCheckFailed);
    var b := GateSlot(l.replayDetected, ReplayDetected);
    var c := GateSlot(!l.sanctionsPass, SanctionsScreeningFailed);
    GateConcat(l, a, b, c);
    a + b + c
  }

  /** A failed check's reason, at full impact and high severity. */
  function GateSlot(failed: bool, code: ReasonCode): (r: seq<RiskReason>)
    ensures SlotOf(r, failed, code)
  {
    if failed then
      assert RiskReason(code, 1.0, High) in [RiskReason(code, 1.0, High)];
      [RiskReason(code, 1.0, High)]
    else []
  }

  /** `r` is the reason `code` exactly when the check `failed`, and nothing
      otherwise. */
  predicate SlotOf(r: seq<RiskReason>, failed: bool, code: ReasonCode) {
    && Codes(r) == (if failed then {code} else {})
    && |r| == (if failed then 1 else 0)
    && (r != [] ==> r[0].code == code)
    && (forall i :: 0 <= i < |r| ==> r[i].impact == 1.0 && r[i].severity == High)
  }

  lemma GateConcat(l: LivenessResult, a: seq<RiskReason>, b: seq<RiskReason>, c: seq<RiskReason>)
    requires SlotOf(a, !l.livenessPass, LivenessCheckFailed)
    requires SlotOf(b, l.replayDetected, ReplayDetected)
    requires SlotOf(c, !l.sanctionsPass, SanctionsScreeningFailed)
    ensures var rs := a + b + c;
      && (LivenessCheckFailed in Codes(rs) <==> !l.livenessPass)
      && (ReplayDetected in Codes(rs) <==> l.replayDetected)
      && (SanctionsScreeningFailed in Codes(rs) <==> !l.sanctionsPass)
      && Codes(rs) <= {LivenessCheckFailed, ReplayDetected, SanctionsScreeningFailed}
      && (forall i :: 0 <= i < |rs| ==> rs[i].impact == 1.0 && rs[i].severity == High)
      && (!l.livenessPass ==> rs != [] && rs[0].code == LivenessCheckFailed)
      && (l.livenessPass && l.replayDetected ==> rs != [] && rs[0].code == ReplayDetected)
      && |rs| == (if !l.livenessPass then 1 else 0) + (if l.replayDetected then 1 else 0)
        + (if !l.sanctionsPass then 1 else 0)
  {
    CodesAppend(a, b);
    CodesAppend(a + b, c);
    assert a != [] ==> (a + b + c)[0] == a[0];
    assert a == [] && b != [] ==> (a + b + c)[0] == b[0];
  }

  /** `_decline_fraud_gate`: a decline at maximum PD with no credit, no rate,
      no suggestions and no metrics; the reasons name each failed check. */
  function DeclineFraudGate(decisionId: string, userId: string, jurisdiction: string, l: LivenessResult)
    : (d: UnderwritingDecision)
    ensures !d.fraudGatePassed && !d.approved
    ensures d.pd12m == 1.0 && d.creditLimit == 0.0 && d.expectedLoss == 0.0 && d.apr.None?
    ensures d.counterfactuals == [] && d.cashflowMetrics.None? && d.livenessResult == Some(l)
    ensures (LivenessCheckFailed in Codes(d.reasons) <==> !l.livenessPass)
      && (ReplayDetected in Codes(d.reasons) <==> l.replayDetected)
      && (SanctionsScreeningFailed in Codes(d.reasons) <==> !l.sanctionsPass)
    ensures Codes(d.reasons) <= {LivenessCheckFailed, ReplayDetected, SanctionsScreeningFailed}
    ensures forall i :: 0 <= i < |d.reasons| ==> d.reasons[i].impact == 1.0 && d.reasons[i].severity == High
    ensures !l.livenessPass ==> d.reasons != [] && d.reasons[0].code == LivenessCheckFailed
    ensures l.livenessPass && l.replayDetected ==> d.reasons != [] && d.reasons[0].code == ReplayDetected
    ensures |d.reasons| == (if !l.livenessPass then 1 else 0) + (if l.replayDetected then 1 else 0)
      + (if !l.sanctionsPass then 1 else 0)
    ensures DecisionInBounds(d)
  {
    UnderwritingDecision(
      decisionId := decisionId,
      userId := userId,
      jurisdiction := jurisdiction,
      fraudGatePassed := false,
      livenessResult := Some(l),
      cashflowMetrics := None,
      pd12m := 1.0,
      lgd := DefaultLgd,
      expectedLoss := 0.0,
      approved := false,
      creditLimit := 0.0,
      apr := None,
      reasons := GateReasons(l),
      counterfactuals := [],
      modelVersion := ModelVersion,
      policyVersion := PolicyVersion)
  }

  /** The terms of an approval: a PD within the starter ceiling, a limit of
      at most 3000, an APR in [13, 24] and a non-negative expected loss. */
  predicate TermsInBounds(pd: real, limit: real, apr: real, expectedLoss: real) {
    && pd <= 0.12
    && 0.0 <= limit <= 3000.0
    && 13.0 <= apr <= 24.0
    && expectedLoss >= 0.0
  }

  /** Any PD the scorer approves under either policy is priced within the
      tier table and the APR curve. */
  lemma ApprovedTerms(pd: real, th: Thresholds)
    requires th == UkThresholds || th == UsThresholds
    requires MinPd <= pd <= th.starterMaxPd
    ensures TermsInBounds(pd, CreditLimit(pd), Apr(pd), ExpectedLoss(pd, DefaultLgd, CreditLimit(pd)))
  {
  }

  /** `score`: the fraud gate first, then the PD decides approval against the
      jurisdiction's starter ceiling, and an approval is priced by the tier
      table and the APR curve. Expected loss is always PD x LGD x limit. */
  function Score(
    decisionId: string, userId: string, personal: PersonalData,
    m: CashflowMetrics, l: LivenessResult, jurisdiction: string): (d: UnderwritingDecision)
    ensures d.fraudGatePassed <==> l.livenessPass
    ensures d.approved <==>
      l.livenessPass && CalculatePd(m, personal.tenureMonths).pd <= ThresholdsFor(jurisdiction).starterMaxPd
    ensures d.approved ==> d.apr.Some? && 13.0 <= d.apr.value <= 24.0
    ensures d.approved ==> d.pd12m <= 0.12
    ensures !d.approved ==> d.creditLimit == 0.0 && d.apr.None? && d.expectedLoss == 0.0
    ensures d.expectedLoss == ExpectedLoss(d.pd12m, d.lgd, d.creditLimit)
    ensures d.creditLimit <= 3000.0
    ensures d.livenessResult == Some(l) && d.lgd == DefaultLgd
    ensures d.cashflowMetrics.Some? <==> l.livenessPass
    ensures DecisionInBounds(d)
    ensures !l.livenessPass ==> d == DeclineFraudGate(decisionId, userId, jurisdiction, l)
    ensures l.livenessPass ==>
      var p := CalculatePd(m, personal.tenureMonths);
      && d.pd12m == p.pd
      && d.reasons == GenerateReasons(m, p.impacts, ThresholdsFor(jurisdiction))
      && d.counterfactuals == GenerateCounterfactuals(m, p.impacts)
    ensures d.approved ==> d.creditLimit == CreditLimit(d.pd12m) && d.apr == Some(Apr(d.pd12m))
  {
    var th := ThresholdsFor(jurisdiction);
    if !l.livenessPass then DeclineFraudGate(decisionId, userId, jurisdiction, l)
    else
      var p := CalculatePd(m, personal.tenureMonths);
      var reasons := GenerateReasons(m, p.impacts, th);
      var counterfactuals := GenerateCounterfactuals(m, p.impacts);
      var approved := p.pd <= th.starterMaxPd;
      var limit := if approved then CreditLimit(p.pd) else 0.0;
      var apr := if approved then Some(Apr(p.pd)) else None;
      var lgd := DefaultLgd;
      var expectedLoss := ExpectedLoss(p.pd, lgd, limit);
      assert approved ==> TermsInBounds(p.pd, limit, Apr(p.pd), expectedLoss) by {
        if approved {
          ApprovedTerms(p.pd, th);
        }
      }
      UnderwritingDecision(
        decisionId := decisionId,
        userId := userId,
        jurisdiction := jurisdiction,
        fraudGatePassed := true,
        livenessResult := Some(l),
        cashflowMetrics := Some(m),
        pd12m := p.pd,
        lgd := lgd,
        expectedLoss := expectedLoss,
        approved := approved,
        creditLimit := limit,
        apr := apr,
        reasons := reasons,
        counterfactuals := counterfactuals,
        modelVersion := ModelVersion,
        policyVersion := PolicyVersion)
  }

  /** A decision the scorer produces always passes the record's validator. */
  lemma ScorePassesValidation(
    decisionId: string, userId: string, personal: PersonalData,
    m: CashflowMetrics, l: LivenessResult, jurisdiction: string)
    ensures ValidateDecision(Score(decisionId, userId, personal, m, l, jurisdiction)).Success?
  {
  }

  /** A failed liveness check decides the outcome alone: the metrics and the
      employment data are never read. */
  lemma GateIgnoresCashflow(
    decisionId: string, userId: string, p1: PersonalData, p2: PersonalData,
    m1: CashflowMetrics, m2: CashflowMetrics, l: LivenessResult, jurisdiction: string)
    requires !l.livenessPass
    ensures Score(decisionId, userId, p1, m1, l, jurisdiction) == Score(decisionId, userId, p2, m2, l, jurisdiction)
  {
  }

  /** Every feature in its best bucket: the PD hits the 0.01 floor and the
      applicant gets the prime limit at 13% APR. */
  lemma PrimeApplicant(
    decisionId: string, userId: string, personal: PersonalData,
    m: CashflowMetrics, l: LivenessResult)
    requires l.livenessPass
    requires m.bufferDays >= 30.0 && m.paymentBurden <= 0.25 && m.onTimeRatio >= 0.95
    requires m.nsfCount90d == 0 && m.incomeCv <= 0.2 && m.netIncomeMedian >= 4000.0
    requires personal.tenureMonths >= 24
    ensures var d := Score(decisionId, userId, personal, m, l, "US");
      d.approved && d.pd12m == 0.01 && d.creditLimit == 3000.0 && d.apr == Some(13.0)
      && d.expectedLoss == 0.01 * 0.45 * 3000.0
  {
    var p := CalculatePd(m, personal.tenureMonths);
    assert BasePd + ImpactSum(p.impacts) == -0.02;
  }

  /** The approval ceiling and the tier table disagree at their shared edge:
      under the US policy a PD of exactly 0.12 is approved, since approval is
      `pd <= 0.12`, yet it falls outside the last half-open tier, so the
      approval carries a zero limit and a 24% rate. */
  lemma ApprovedWithoutLimitAtStarterCeiling(
    decisionId: string, userId: string, personal: PersonalData,
    m: CashflowMetrics, l: LivenessResult)
    requires l.livenessPass
    requires CalculatePd(m, personal.tenureMonths).pd == 0.12
    ensures var d := Score(decisionId, userId, personal, m, l, "US");
      d.approved && d.creditLimit == 0.0 && d.apr == Some(24.0)
  {
  }

  /** An applicant that reaches the US approval ceiling exactly. Its
      adjustments are -0.025, -0.020, +0.025, +0.030, 0, +0.015 and +0.015,
      whose running sum from 0.08 also lands on 0.12 in double precision. */
  lemma StarterCeilingIsReachable(m: CashflowMetrics)
    requires m.bufferDays == 30.0 && m.paymentBurden == 0.25 && m.onTimeRatio == 0.5
    requires m.nsfCount90d == 2 && m.incomeCv == 0.3 && m.netIncomeMedian == 1000.0
    ensures CalculatePd(m, 3).pd == 0.12
  {
    var p := CalculatePd(m, 3);
    assert BasePd + ImpactSum(p.impacts) == 0.12;
  }
}
