# Durin underwriting and fraud-graph core in Dafny

This project models Durin's lending core as pure Dafny functions and proves properties about it:

- the cashflow analyzer turns a bank-transaction history into a `CashflowMetrics` record;
- the underwriting scorer turns those metrics, the applicant's personal data and a liveness result into an `UnderwritingDecision`;
- the fraud-graph analyzer builds an account/user graph from KYC rows and transfer rows, raises shared-device, shared-IP, structuring and circular-flow signals, scores every node and produces a report and per-account contexts;
- three rule-based fallbacks of the LLM service: identifier masking, the signal explanation and the canned compliance answers;
- the Pydantic records and their field validators.

Modules, one per source concern:

| module | file | models |
|---|---|---|
| `Wrappers` | wrappers.dfy | `Option` / `Result` |
| `Seqs` | seqs.dfy | filter, sum, count, map, take, duplicate-freedom |
| `Text` | text.dfy | ASCII `lower()`, substring search, `join` |
| `Sorting` | sorting.dfy | stable descending sort, `statistics.median` |
| `Models` | models.dfy | `backend/app/models.py` records and validators |
| `Cashflow` | cashflow.dfy | `backend/app/cashflow_analyzer.py` |
| `Underwriting` | underwriting.dfy | `backend/app/underwriting_scorer.py` |
| `FraudGraph` | graph.dfy | the graph built by `build_graph` |
| `FraudSignals` | signals.dfy | the four detectors and the risk score |
| `FraudResults` | results.dfy | `_generate_results`, `get_account_context` |
| `Explainer` | explainer.dfy | the three fallbacks of `backend/app/llm_service.py` |

The networkx graph is modelled as four parts:

- a node map;
- the node insertion order;
- per-node adjacency lists in insertion order;
- an edge map keyed by the unordered endpoint pair.

This keeps networkx's iteration orders, which decide the order of signals, edges and report entries. `Wf` is the invariant that keeps these parts consistent. Every step of `build_graph` preserves it.

Where the code does something its own comments and names do not suggest, the model follows the code:

- **US approval edge.** A US applicant whose PD is exactly 0.12 is approved (`approved = pd_score <= thresholds['starter_max_pd']`, underwriting_scorer.py:106). The tier table's bands are half-open, so the credit limit is 0 (`Underwriting.ApprovedWithoutLimitAtStarterCeiling`). Such a PD is reachable: for the applicant of `Underwriting.StarterCeilingIsReachable`, the scorer's running double sum from 0.08 is also exactly 0.12.
- **UK buffer reason.** Under the UK policy, a buffer of 15 to 20 days is reported as `INSUFFICIENT_BUFFER_DAYS`, yet its impact lowers the PD (`Underwriting.UkInsufficientBufferLowersPd`).
- **PD ignores thresholds.** `_calculate_pd` receives the jurisdiction thresholds (underwriting_scorer.py:133-137) but never reads them. The PD therefore does not depend on the jurisdiction.
- **Fraud gate.** The gate (commented `# Check fraud gate`, underwriting_scorer.py:84-88) is triggered by a failed liveness check alone. Replay and sanctions reasons are only listed when that has already happened.
- **Structuring filter.** The comment `# Get all outgoing transactions` (graph_analyzer.py:128) notwithstanding, structuring counts transactions of a signed amount under 1000 on any edge at the account, not only outgoing ones. Edge totals are signed sums.
- **Late fees.** The late-fee count looks only at debits (`payment_txns`, cashflow_analyzer.py:222).

## Model

| member | source | states |
|---|---|---|
| Models.ValidateBankTransaction | backend/app/models.py:40-45 | a transaction is accepted exactly when its amount is non-zero, and then unchanged |
| Models.ValidatePersonalData | backend/app/models.py:48-58 | accepted exactly when the name has at least 2 characters, the address at least 10, the stated income is positive and the tenure non-negative; each failing field is named |
| Models.ValidateLivenessCheck | backend/app/models.py:68-73 | image data shorter than 100 characters is refused, anything else accepted unchanged |
| Models.ValidateLivenessResult | backend/app/models.py:76-84 | accepted exactly when both scores lie in [0, 1] |
| Models.ValidateCashflowMetrics | backend/app/models.py:87-97 | accepted exactly when every field meets its bound (non-negative medians, burden and on-time ratio in [0, 1], positive transaction count) |
| Models.MetricsErrorsNamed | backend/app/models.py:87-95 | a rejected metrics record names each field outside its bound and no other field |
| Models.ValidateDecision | backend/app/models.py:117-143 | accepted exactly when PD and LGD lie in [0, 1], expected loss and limit are non-negative and any APR lies in [0, 100] |
| Cashflow.MonthlyBuckets | backend/app/cashflow_analyzer.py:250-258 | one bucket per distinct month, in order of first appearance (`MonthsInOrder`), no month twice; each bucket holds the sum of the value over that month's transactions (`MonthSum`) |
| Cashflow.MonthsInOrder | backend/app/cashflow_analyzer.py:250-258 | the months of the transactions, each once, every transaction's month present |
| Cashflow.BucketTotalsBySum | backend/app/cashflow_analyzer.py:250-258 | the bucket totals are exactly the per-month sums, month by month in order of first appearance |
| Cashflow.BucketsConserveTotal | backend/app/cashflow_analyzer.py:250-258 | the bucket totals add up to the sum over all transactions |
| Cashflow.MonthlyAggregate | backend/app/cashflow_analyzer.py:250-258 | for a non-empty list, exactly the per-month sums of absolute amounts in order of first appearance (`SumsByMonth`), all non-negative; `[0.0]` for no transactions |
| Cashflow.MonthlyAggregateConservesSpend | backend/app/cashflow_analyzer.py:250-258 | the monthly sums add up to the total absolute amount of the transactions |
| Cashflow.IncomeSelection | backend/app/cashflow_analyzer.py:69-76 | income is the positive recognised income when there is any, otherwise every transaction above 100 |
| Cashflow.IncomeMonths | backend/app/cashflow_analyzer.py:78-90 | the per-month sums of the income transactions, all positive; empty exactly when no transaction counts as income |
| Cashflow.StatsOf | backend/app/cashflow_analyzer.py:92-103 | the median is `statistics.median` of the monthly values and lies between the smallest and the largest; the coefficient of variation lies in [0, 2] and is 0 for a single month or a zero median |
| Sorting.SortDescStable | backend/app/underwriting_scorer.py:323 | the sort is stable: for every key value, the elements carrying that key come out in their input order (the guarantee of Python's `list.sort`) |
| Sorting.InsertStable | backend/app/underwriting_scorer.py:323 | inserting into a sorted list puts the new element after every element with an equal key, leaving their relative order unchanged |
| Sorting.MedianPermutation | backend/app/cashflow_analyzer.py:92 | `statistics.median` depends only on the values, not on their order |
| Cashflow.SteadyIncome | backend/app/cashflow_analyzer.py:92-103 | equal monthly income c gives median c and variation 0 |
| Cashflow.StatsOfPermutation | backend/app/cashflow_analyzer.py:92-97 | the median and the variation of the monthly sums do not depend on the order of the months |
| Cashflow.ComputeIncomeMetrics | backend/app/cashflow_analyzer.py:67-103 | no income gives median 0 and variation 1; otherwise the statistics of the per-month income sums |
| Cashflow.SpendingPartition | backend/app/cashflow_analyzer.py:105-126 | essential and discretionary debits are a partition of all debits |
| Cashflow.ComputeSpendingMetrics | backend/app/cashflow_analyzer.py:105-132 | each median is that of its category's per-month absolute sums (`SpendMedian`), the categories being the essential and the other debits; both 0 without debits |
| Cashflow.SpendMedian | backend/app/cashflow_analyzer.py:128-132 | the median of the per-month absolute sums, 0 for no transactions, never negative |
| Cashflow.BufferDays | backend/app/cashflow_analyzer.py:136-151 | runway in [0, 90]: 30 without spending, 0 when spending reaches income, otherwise half the surplus over daily burn |
| Cashflow.BufferDaysMonotoneInIncome | backend/app/cashflow_analyzer.py:136-151 | more income never shortens the runway |
| Cashflow.RecurringPerMonth | backend/app/cashflow_analyzer.py:193-210 | non-negative; 0 without transactions; the plain total of recurring debits when the data spans at most 30 days, else that total over the span in 30-day months |
| Cashflow.RecurringPerMonthGrows | backend/app/cashflow_analyzer.py:193-210 | one more recurring debit inside the covered date range strictly raises the monthly obligation |
| Cashflow.PaymentBurden | backend/app/cashflow_analyzer.py:153-155 | the burden lies in [0, 1]; it is 1 without positive income, else the monthly recurring obligation over income capped at 1, so below the cap burden times income gives back the obligation |
| Cashflow.PaymentBurdenAntitoneInIncome | backend/app/cashflow_analyzer.py:153-155 | more income never raises the burden |
| Cashflow.OnTimeRatio | backend/app/cashflow_analyzer.py:217-236 | the ratio lies in [0, 1]; it is 1 without debits, else one minus late-fee debits per recurring debit (at least one), floored at 0, so it is 0 once the late fees are as many as the recurring debits |
| Cashflow.OnTimeShare | backend/app/cashflow_analyzer.py:231-236 | the share is 1 exactly without late fees and 0 once late fees reach the payment count |
| Cashflow.OnTimePerfectIffNoLateFees | backend/app/cashflow_analyzer.py:217-236 | the ratio is 1 exactly when no debit mentions a late fee |
| Cashflow.OnTimeIgnoresCredits | backend/app/cashflow_analyzer.py:222-231 | adding a credit, whatever its text, leaves the ratio unchanged |
| Cashflow.NsfCount | backend/app/cashflow_analyzer.py:238-248 | the count is the number of transactions naming an overdraft keyword |
| Cashflow.NsfCountAdditive | backend/app/cashflow_analyzer.py:238-248 | the count over a split history is the sum of the parts' counts |
| Cashflow.Analyze | backend/app/cashflow_analyzer.py:35-65 | fails exactly on an empty list; otherwise every field is its component metric (income median and variation, the two spending medians, buffer days from the income median and total spend, payment burden against the income median, on-time ratio, NSF count, input length), and the record meets every bound |
| Underwriting.ThresholdsFor | backend/app/underwriting_scorer.py:26-46 | "UK" selects the UK policy, every other jurisdiction the US one |
| Underwriting.CalculatePd | backend/app/underwriting_scorer.py:133-244 | PD in [0.01, 0.30], the clamped baseline plus impacts; the seven impacts are the buffer, burden, on-time, NSF, CV, income and tenure delta tables read at the metrics; each impact is positive exactly in its bad buckets (CV above 0.4, median income under 1500, tenure under 12 months, and likewise for the other four) |
| Underwriting.PdMonotone | backend/app/underwriting_scorer.py:139-244 | an applicant no worse in any feature never gets a higher PD |
| Underwriting.TierLimit | backend/app/underwriting_scorer.py:379-386 | the limit of the first half-open tier holding the PD, 0 when none does |
| Underwriting.CreditLimit | backend/app/underwriting_scorer.py:48-54 | 3000, 2000, 1200 and 800 on the four PD bands, 0 outside them |
| Underwriting.CreditLimitAntitone | backend/app/underwriting_scorer.py:379-386 | a higher PD never gets a larger limit |
| Underwriting.Apr | backend/app/underwriting_scorer.py:388-397 | never above 35.99, at least 12 for a non-negative PD, between 13 and 24 for approvable PDs |
| Underwriting.AprMonotone | backend/app/underwriting_scorer.py:388-397 | a higher PD never gets a lower APR |
| Underwriting.PolicyCodesIff | backend/app/underwriting_scorer.py:256-320 | each reason code is called for exactly under its threshold condition |
| Underwriting.GenerateReasons | backend/app/underwriting_scorer.py:246-325 | at most five reasons, sorted by absolute impact, a permutation of the candidate reasons |
| Underwriting.ReasonsMatchPolicy | backend/app/underwriting_scorer.py:246-325 | the reasons carry exactly the policy's codes, each with its feature's impact and severity |
| Underwriting.UkInsufficientBufferLowersPd | backend/app/underwriting_scorer.py:151-157 | under the UK policy a 15-20 day buffer is reported insufficient although its impact is negative |
| Underwriting.SuggestedActionsIff | backend/app/underwriting_scorer.py:335-375 | each suggestion kind is called for exactly under its source condition |
| Underwriting.GenerateCounterfactuals | backend/app/underwriting_scorer.py:327-377 | at most three suggestions in source order, each improving; all called-for kinds appear except that the NSF one is dropped when all four apply; each carries its kind's values (`Suggestion`): buffer from its value to 20 days at -0.015, burden to 0.30 at (0.30 - burden) x 0.05, on-time to 1.0 at -0.020, NSF from the count to 0 at -0.015 per event |
| Underwriting.CounterfactualsMatchPolicy | backend/app/underwriting_scorer.py:327-377 | each suggestion is made exactly under its condition, the NSF one only when fewer than three others are made |
| Underwriting.ExpectedLoss | backend/app/underwriting_scorer.py:110-113 | non-negative for non-negative factors, 0 without exposure |
| Underwriting.DeclineFraudGate | backend/app/underwriting_scorer.py:399-446 | a decline at PD 1 with no limit, rate or counterfactuals; each fraud reason is listed exactly when its check failed, once each (the list is as long as the number of failed checks), liveness first and otherwise replay first, all with impact 1 and high severity |
| Underwriting.Score | backend/app/underwriting_scorer.py:60-131 | a failed liveness check gives the fraud-gate decline; otherwise the decision carries the computed PD, reasons and counterfactuals, is approved exactly when the PD is within the starter ceiling, and an approval is priced by the tier table and the APR curve; a decline has no limit, rate or loss; the decision meets the record's bounds |
| Underwriting.ScorePassesValidation | backend/app/underwriting_scorer.py:115-131 | every decision the scorer returns passes the record's validator |
| Underwriting.GateIgnoresCashflow | backend/app/underwriting_scorer.py:84-88 | with a failed liveness check, metrics and personal data do not change the decision |
| Underwriting.PrimeApplicant | backend/app/underwriting_scorer.py:145-244 | every feature in its best bucket gives PD 0.01, approval, a limit of 3000 at 13% APR and the matching expected loss |
| Underwriting.ApprovedWithoutLimitAtStarterCeiling | backend/app/underwriting_scorer.py:105-108 | a US PD of exactly 0.12 is approved with credit limit 0 and a 24% APR |
| Underwriting.StarterCeilingIsReachable | backend/app/underwriting_scorer.py:145-244 | an applicant with a 30-day buffer, burden 0.25, on-time ratio 0.5, two NSF events, CV 0.3, income 1000 and 3 months' tenure has PD exactly 0.12 |
| FraudGraph.AddUser | backend/app/graph_analyzer.py:25-33 | a user row sets the node's attributes and leaves edges alone |
| FraudGraph.AddEndpoint | backend/app/graph_analyzer.py:45-47 | an unknown endpoint becomes an attribute-less account; a known node is left as it is |
| FraudGraph.Link | backend/app/graph_analyzer.py:49-73 | a repeated pair gets one more transaction, count and amount; a new pair gets a fresh edge and adjacency entries |
| FraudGraph.AddTxnWf | backend/app/graph_analyzer.py:36-73 | adding a transaction row keeps the graph consistent |
| FraudGraph.Build | backend/app/graph_analyzer.py:18-73 | the built graph is consistent |
| FraudGraph.BuildNodes | backend/app/graph_analyzer.py:24-47 | nodes are exactly the user ids and transaction endpoints; a user gets its last row's attributes; any other node is a plain account |
| FraudGraph.BuildEdges | backend/app/graph_analyzer.py:35-73 | a pair is linked exactly when some rows join it; its count, total and transaction list are those rows' |
| FraudGraph.BuildEdgesWf | backend/app/graph_analyzer.py:35-73 | every edge of the built graph joins the endpoints of some row |
| FraudSignals.SeverityOf | backend/app/graph_analyzer.py:97-119 | a signal is of medium severity exactly when it is a shared-IP one |
| FraudSignals.GroupsAreFilters | backend/app/graph_analyzer.py:86-92 | a value has a group exactly when some user carries it, and the group lists those users in node order |
| FraudSignals.DetectShared | backend/app/graph_analyzer.py:84-122 | each node gains exactly its expected shared-attribute signals |
| FraudSignals.SharedRelated | backend/app/graph_analyzer.py:94-102 | a user is flagged exactly when its non-empty value is shared by more than one user; one signal that names exactly the other sharers |
| FraudSignals.StructuringAt | backend/app/graph_analyzer.py:124-153 | at most one signal, counting at least three small transactions, with at most five amounts, each the amount of a transaction on the node under 1000; the amounts are those of the first five small transactions in timestamp order |
| FraudSignals.StructuringSpec | backend/app/graph_analyzer.py:126-151 | an account is flagged exactly when at least three of its transactions are under 1000; the count is that number and min(count, 5) amounts are shown |
| FraudSignals.FirstLongCycleNone | backend/app/graph_analyzer.py:161-164 | no cycle is chosen exactly when every cycle through the node is shorter than three |
| FraudSignals.CircularFirstWins | backend/app/graph_analyzer.py:155-172 | a node gains one circular-flow signal, from the first long cycle through it, unless it already has one |
| FraudSignals.NodeSignals | backend/app/graph_analyzer.py:76-79 | a node's signals are its shared-device, shared-IP, structuring and circular ones, in that order |
| FraudSignals.CircularExactlyOnce | backend/app/graph_analyzer.py:161-170 | a node has one circular-flow signal if a cycle of three or more passes through it, none otherwise |
| FraudSignals.RiskScore | backend/app/graph_analyzer.py:174-205 | the score lies in [0, 10] and is 0 exactly when the node has no signals |
| FraudSignals.RiskMonotone | backend/app/graph_analyzer.py:183-205 | more signals never lower the score |
| FraudSignals.HighRiskNeedsTwoSignals | backend/app/graph_analyzer.py:183-205 | a score above 5 needs at least two signals |
| FraudSignals.DetectedRiskBound | backend/app/graph_analyzer.py:174-205 | with the detectors' signals a user scores at most 8 and any other node at most 7, so the cap of 10 is never reached |
| FraudResults.NodeViews | backend/app/graph_analyzer.py:212-223 | one view per node, in node order, with its signals and score |
| FraudResults.EdgeViewsComplete | backend/app/graph_analyzer.py:225-232 | every edge is reported once with its count and total, and nothing else is reported |
| FraudResults.GenerateReport | backend/app/graph_analyzer.py:207-251 | the high-risk list holds exactly the nodes scored above 5, sorted by score; the summary counts add up to the node count and match the lists |
| FraudResults.HighRiskHasTwoSignals | backend/app/graph_analyzer.py:234-239 | every high-risk account carries at least two signals |
| FraudResults.ReportCounts | backend/app/graph_analyzer.py:245-250 | accounts plus users is the node count and the transaction total is the number of linked pairs |
| FraudResults.Analyze | backend/app/graph_analyzer.py:18-82 | the report of the built graph under the detected signals: one view per node in node order carrying that node's detected signals and score, the edge views of the graph, and summary counts of its nodes and linked pairs |
| FraudResults.Counterparties | backend/app/graph_analyzer.py:262-272 | one entry per linked neighbour, with that edge's count and total |
| FraudResults.AccountContextOf | backend/app/graph_analyzer.py:253-281 | nothing for an unknown id; otherwise its score and signals, the first ten of its counterparties (neighbours with an edge, in neighbour order), the number of all counterparties, and the neighbour count |
| FraudResults.ContextCountsNeighbours | backend/app/graph_analyzer.py:262-279 | in a consistent graph, the transaction count and the neighbour count both equal the node's neighbour count |
| Explainer.MaskIdentifier | backend/app/llm_service.py:90-94 | short ids are unchanged; longer ones become their first two characters, three asterisks and their last two |
| Explainer.MaskIdempotent | backend/app/llm_service.py:90-94 | masking a masked id changes nothing |
| Explainer.MaskHidesMiddle | backend/app/llm_service.py:90-94 | long ids that agree on their first and last two characters mask alike |
| Explainer.Sentences | backend/app/llm_service.py:106-117 | one of the four fixed sentences per signal of a known type |
| Explainer.SentencesOfKnown | backend/app/llm_service.py:106-117 | the sentences are the known types' sentences, in signal order |
| Explainer.ExplanationParts | backend/app/llm_service.py:104-122 | with some known-type signal, the first three of the known types' sentences in signal order; otherwise the generic sentence alone |
| Explainer.FallbackExplanation | backend/app/llm_service.py:96-122 | a score under 3 (or none) gives the low-risk sentence; otherwise the first three known-type sentences joined by spaces, or the generic sentence when no signal has a known type |
| Explainer.ScoredContextNamesSignals | backend/app/llm_service.py:96-122 | for an analyzer context scored 3 or more, the explanation names min(signals, 3) signals, starting with the first |
| Explainer.TopicOf | backend/app/llm_service.py:189-196 | KYC exactly when the lower-cased question has a KYC keyword, AML exactly when it has an AML keyword and no KYC one |
| Explainer.ChooseAnswer | backend/app/llm_service.py:169-196 | Canada and the United States get canned answers by topic; any other country gets its generic answer |
| Explainer.ComplianceRouting | backend/app/llm_service.py:184-196 | canned exactly for the two countries; topic by keyword with KYC taking precedence; generic answers name the country |
| Explainer.ComplianceIgnoresCase | backend/app/llm_service.py:190 | lower-casing the question first does not change the answer |
| Explainer.KnowYourCustomerIsKyc | backend/app/llm_service.py:191 | a question that says "know your customer" gets the KYC answer |

## Left out

- Underwriting.Score: PDs are exact reals, while the scorer adds doubles. At a band edge (0.03, 0.06, 0.09, 0.10 or 0.12) the exact sum and the double sum can fall on different sides, so approval, limit and APR there are stated for the exact sum.
- Underwriting.ApprovedWithoutLimitAtStarterCeiling: stated for an exact PD of 0.12, which the program reaches only when its double sum lands on 0.12 exactly, as it does for the applicant of `Underwriting.StarterCeilingIsReachable`.
- Rounding: `round(x, k)` of medians, ratios, PD, loss and node scores is not modelled. Values are exact reals. Risk scores are multiples of 0.5, so their rounding is the identity anyway.
- Cashflow.StatsOf: `statistics.stdev` is a parameter (`StdevFn`), known only to be non-negative, zero on constant lists and blind to the order of the list, so the coefficient of variation is bounded but not computed.
- Timestamps: a transaction's timestamp is a day number plus a month key. `strftime('%Y-%m')` and `datetime` subtraction are not modelled, and the initial sort by timestamp is left out. The sort fixes the order of the monthly buckets, which the metrics read only through sums, counts, `statistics.median` and `statistics.stdev`. Neither statistic depends on order: the median by `Sorting.MedianPermutation`, the stdev parameter by its type, and the income statistics together by `Cashflow.StatsOfPermutation`. The date range is computed from the minimum and maximum day.
- FraudSignals.StructuringAt: the graph-row timestamps are strings compared in Python. The model uses an integer sort key with the same stable sort, and does not model the `try/except: pass` around it, which only matters for values Python cannot compare.
- Cycle enumeration: `nx.simple_cycles` over the directed view is not modelled. The cycles are an input of `FraudResults.Analyze`, in enumeration order, and each cycle's node list is used as given.
- Signal `details` strings and the `str()`/`float()` conversions of dataframe cells are not modelled. Rows arrive already typed, and a missing column is the empty string.
- Decision identifiers (`uuid4`) and `datetime.utcnow()` are inputs or are omitted.
- `RiskReason.description` and the free-text `Counterfactual.action` are not modelled: a reason is its code, impact and severity, and a suggestion names its kind (`Action`) instead of its sentence.
- The OpenAI calls of `generate_explanation`, `generate_batch_explanations` and `chat_about_compliance` are not modelled; only their rule-based fallbacks are.
- `lower()` is ASCII-only, with no Unicode case mapping.
- Dataframe iteration and Pydantic coercion are not modelled; the records are plain datatypes whose validators are the `Validate*` functions.
