# Enrollment dashboard core, modelled in Dafny

The dashboard shows international student applicants moving through an
enrollment pipeline:

- application;
- identity verification;
- an integrity and sanctions check;
- a capacity (waitlist) check;
- document submission;
- institution validation;
- a final outcome (Enrolled, Rejected, Fraud_Blacklist or Expired).

Each applicant is one `StudentData` record of enums and whole-day durations.
This project models the logic of six React components. It leaves out their
rendering.

- **Journey tracer.** It rebuilds one applicant's timeline as seven steps.
  Each step has a start and an end date, an actor, a status, and an SLA
  target. The list is cut at the first hard failure. A search box suggests
  up to five matching applicants.
- **Record table.** It filters the records by identifier, outcome and payment
  status, and sorts them by a clicked column. The direction flips on a
  second click. A detail modal shows a second copy of the timeline, with its
  own inclusion guards.
- **Pipeline, process-owner, KPI and basic views.** Integer tallies over the
  records:
  - the conversion funnel and its drops;
  - SLA-violation counts;
  - payment buckets;
  - the scholarship scatter and its Standard/Review split;
  - fraud and dunning counts and the waitlist conversion;
  - the cycle-time histogram, filled by a loop over the records;
  - outcome and capacity tallies;
  - the alert lists.

Modules, one per concern:

- `Records` holds the record and its enums.
- `Text` holds `toLowerCase`, `includes`, the string `<` order and number
  rendering.
- `Seqs` holds `filter`, `filter(...).length` and `map`.
- `Stages` holds `addDays`, the date chain and the per-stage status rules.
  These are shared by both timelines, which carry identical copies of them.
- `Journey` is the tracer.
- `TableSort` is the column sort. It is a stable insertion sort working in
  place on an array. It is generic in the comparator and is used with the
  column comparator.
- `Table` holds the modal, the row computation and the `TableState` class.
  `TableState` holds the filter and sort state that the click handlers
  update.
- `Aggregates` holds the funnel, violation and payment counters. The pipeline
  and process-owner views share them.
- `Dashboard`, `DashboardProcess`, `DashboardKPI` and `DashboardBasic` are the
  four views.

Dates are whole day numbers. `Blank` stands for the empty date string.
`addDays` adds the day count rounded up.

## Model

| member | source | states |
|---|---|---|
| Stages.Ceil | components/StudentJourneyExplorer.tsx:16 | `Math.ceil`: the result is the least integer not below the argument |
| Stages.AddDays | components/StudentJourneyExplorer.tsx:13-18 | the empty date stays empty; otherwise the date moves forward by at least `days` and by less than `days + 1` |
| Stages.AddWholeDays | components/StudentTable.tsx:22-27 | a whole number of days is added exactly |
| Stages.AddFractionalDays | components/StudentTable.tsx:25 | a fractional count such as 10.4 is rounded up to 11 |
| Stages.DateChain | components/StudentTable.tsx:34-49 | the chain starts at the application date, and each stage's end is not before the previous stage's end |
| Stages.DateChainOffsets | components/StudentJourneyExplorer.tsx:47-66 | closed form: each end date is the application date plus the running total of the durations; an empty date gives an all-empty chain |
| Stages.IdentityStepStatus | components/StudentJourneyExplorer.tsx:85 | Failed iff identity failed; Warning iff identity succeeded with more than three attempts |
| Stages.SanctionStepStatus | components/StudentTable.tsx:172 | Failed iff Blocked; Warning iff Cleared with a check longer than 10 days |
| Stages.CapacityStepStatus | components/StudentJourneyExplorer.tsx:107 | Accepted iff Success, Rejected iff Failed, Waitlisted iff Warning |
| Stages.SubmissionStepStatus | components/StudentJourneyExplorer.tsx:118 | never Failed; Warning iff submission took more than 14 days |
| Stages.ValidationStepStatus | components/StudentJourneyExplorer.tsx:129 | never Failed; Warning iff validation took more than 30 days |
| Stages.FinalStepStatus | components/StudentJourneyExplorer.tsx:140 | never Warning; Success iff the outcome is Enrolled |
| Stages.ThresholdsAreStrict | components/StudentTable.tsx:172-205 | at the targets 10, 14 and 30 the step is Success, and one day more is Warning |
| Journey.Steps | components/StudentJourneyExplorer.tsx:68-148 | seven steps in process order, with actors Student, System, University, University, Student, University, System; SLA targets 10, 14, 14 and 30 days on the sanctions-to-validation steps and 0 (no target) elsewhere; durations are the record's four stage durations on those steps and 0 elsewhere; each step starts where the previous one ended and does not end before it starts; each of the four timed steps ends `addDays(start, duration)`; steps 1-2 are at the application date and the last at the validation end; each status is the stage's rule |
| Journey.ActiveSteps | components/StudentJourneyExplorer.tsx:151-154 | a prefix of the seven steps: length 2 iff identity failed, 3 iff then sanctions blocked, 4 iff then capacity rejected, else 7; no step before the last fails, and a cut list ends in a failure |
| Journey.ActiveStepsStopAtFirstFailure | components/StudentJourneyExplorer.tsx:151-154 | the truncation equals the reference definition "keep steps through the first Failed one" |
| Journey.ActiveStepsStartWithApplication | components/StudentJourneyExplorer.tsx:152 | every timeline shows at least the application step (Success) and the identity step |
| Journey.ExpiredAfterFullPipeline | components/StudentJourneyExplorer.tsx:135-154 | a record that passes every stage but expired shows seven steps, ending in a Failed "Final Outcome: Expired" step with the termination note |
| Journey.IdentityFailureShowsTwoSteps | components/StudentJourneyExplorer.tsx:152 | a failed identity check shows exactly two steps, Success then Failed, whatever the other fields say |
| Journey.ScenarioAllPassed | components/StudentJourneyExplorer.tsx:47-148 | a worked example of end dates (day n+5, n+5, n+15, n+35, n+35) and seven Success steps |
| Journey.IsHighlighted | components/StudentJourneyExplorer.tsx:160-167 | the last shown row of an Enrolled record is highlighted, and nothing else is; that row is the final-outcome step exactly when all seven steps are shown, and otherwise it is a Failed step |
| Journey.CutTimelineHasNoOutcome | components/StudentJourneyExplorer.tsx:151-154 | a timeline cut short at a failed step has no final-outcome step |
| Journey.HighlightMarksEnrolledOutcome | components/StudentJourneyExplorer.tsx:161-168 | for a record that passes every gate, the highlighted row is the seventh, the "Final Outcome: Enrolled" Success step |
| Journey.HighlightOnFailedIdentity | components/StudentJourneyExplorer.tsx:161-168 | an Enrolled record whose identity failed highlights the Failed identity step |
| Journey.Suggestions | components/StudentJourneyExplorer.tsx:26-31 | empty for an empty term; at most five; each contains the term ignoring case; they are the first min(5, matches) matches in data order |
| Journey.SuggestionsFollowDataOrder | components/StudentJourneyExplorer.tsx:28-30 | the suggestions from a longer list begin with those from its first part |
| Records.EmptyTermMatchesAll | components/StudentTable.tsx:266-267 | the empty search term matches every identifier, so skipping the search filter for it changes nothing |
| Text.Lower | components/StudentTable.tsx:267 | `toLowerCase` keeps the length and lowers each character |
| Text.ContainsIff | components/StudentTable.tsx:267 | `includes` holds exactly when the term occurs at some index |
| Text.TextLessTotal | components/StudentTable.tsx:279-284 | two different strings are ordered one way or the other by `<` |
| Text.TextLessTransitive | components/StudentTable.tsx:279-284 | the string `<` is transitive |
| Text.NatToString | components/StudentTable.tsx:162 | a number in a template literal renders as one or more decimal digits that spell the number back (`DecimalValue`); 0 renders as "0", and no other number starts with a zero |
| Seqs.Filter | components/Dashboard.tsx:56-59 | `filter` keeps no more elements than it is given, all satisfying the predicate, and none it was not given |
| Seqs.FilterMembership | components/StudentTable.tsx:266-274 | an element is kept exactly when it is in the input and satisfies the predicate |
| Seqs.FilterAppend | components/StudentJourneyExplorer.tsx:28-29 | filtering keeps the input order: the filter of a concatenation is the concatenation of the filters |
| Seqs.FilterFilter | components/StudentTable.tsx:266-274 | two successive filters are one filter by the conjunction |
| Seqs.CountMonotone | components/Dashboard.tsx:56-58 | a stronger predicate counts no more elements |
| Seqs.FilterComplement | components/Dashboard.tsx:279-281 | filters by complementary predicates split the input: their multisets add up to it and their counts to its length |
| Seqs.Map | components/DashboardBasic.tsx:48-52 | `map` gives one result per element, in order |
| TableSort.KeyOf | components/StudentTable.tsx:279-282 | each column always yields values of one kind: numbers for the counts and durations, text for the identifier and the enum columns, a date for the application date |
| TableSort.ColumnCompare | components/StudentTable.tsx:279-282 | two records' values in one column are of the same kind, and `<` between them is the number order, the string order, or the date order with the empty date first |
| TableSort.Compare | components/StudentTable.tsx:278-286 | the comparator returns -1, 0 or 1; negative exactly when the first record sorts first under the column and direction, positive exactly when the second does |
| TableSort.CompareAntisymmetric | components/StudentTable.tsx:278-286 | swapping the two records negates the comparator's result |
| TableSort.PrecedesAsymmetric | components/StudentTable.tsx:278-286 | the comparator never puts each of two records before the other |
| TableSort.PrecedesNegativelyTransitive | components/StudentTable.tsx:278-286 | "may stand before" under the comparator is transitive, for every key and direction |
| TableSort.ComparatorConsistent | components/StudentTable.tsx:278-286 | the column comparator is a consistent comparator, as a stable sort needs |
| TableSort.InsertKeepsSorted | components/StudentTable.tsx:278 | inserting into a sorted list keeps it sorted |
| TableSort.SortSeqSorted | components/StudentTable.tsx:277-287 | the sort result is in comparator order |
| TableSort.SortSeqPermutes | components/StudentTable.tsx:277-287 | the sort result holds exactly the input records |
| TableSort.InsertInPlace | components/StudentTable.tsx:278 | shifting one element left into the sorted prefix of the array leaves the prefix equal to the insertion of that element, and the rest unchanged |
| TableSort.SortInPlace | components/StudentTable.tsx:278-286 | sorting the array in place leaves it equal to the stable sort of its old contents |
| Table.Row | components/StudentTable.tsx:145-208 | the row of each stage has that stage's actor (Student, System, University, University, Student, University), its SLA target (none, none, 10, 14, 14, 30), its duration (0, none, then the record's four stage durations) and its status rule; its date is the application date for the first two rows and otherwise `addDays` of the previous stage's end by the stage's duration |
| Table.Guarded | components/StudentTable.tsx:166-208 | the application and identity rows always come first, at most six rows; sanctions appear iff identity succeeded, capacity iff sanctions cleared, submission and validation iff cleared and capacity not rejected |
| Table.GuardedAfterIdentity | components/StudentTable.tsx:166-208 | once identity succeeded, the rows are the process order cut after sanctions (blocked), after capacity (rejected) or after validation |
| Table.FinalOutcomeBlock | components/StudentTable.tsx:211-235 | the block's title names the outcome; it is marked enrolled, and has a payment line, exactly when Enrolled; the payment line starts with "Payment: " and the status, and is only that when not delayed; the scholarship line appears iff Enrolled and requested, starting with "Scholarship: $" and the amount |
| Table.DetailModal | components/StudentTable.tsx:144-235 | 2 to 6 rows, each the row of its stage; the final block is always there with the outcome title; its payment line appears iff Enrolled, its scholarship line iff Enrolled and requested |
| Table.ModalGuards | components/StudentTable.tsx:145-208 | the application and identity rows come first; sanctions appear iff identity succeeded; capacity iff sanctions cleared; submission and validation iff cleared and capacity not rejected |
| Table.ModalRowOrder | components/StudentTable.tsx:144-208 | the shown rows are in strictly increasing process order |
| Table.RowsMatchSteps | components/StudentTable.tsx:145-208 | the k-th row in process order and the tracer's k-th step have the same end date, status and actor |
| Table.ModalAgreesWithTracer | components/StudentTable.tsx:145-208 | after a successful identity check, the modal rows are the tracer's steps without the final one: same count, end dates, statuses and actors |
| Table.ModalDivergesFromTracer | components/StudentTable.tsx:167-208 | the stage rows of the two timelines disagree in number exactly when identity failed but sanctions cleared; then the tracer shows 2 steps and the modal shows capacity next and 3 or 5 rows; the modal always ends with its final-outcome block, while a tracer cut at a failed step has no final-outcome step |
| Table.FilterRows | components/StudentTable.tsx:263-274 | the successively narrowed rows are the rows selected by all three filters together |
| Table.SortRows | components/StudentTable.tsx:277-287 | sorting a copy in an array gives the stable sort of the rows by the column comparator |
| Table.ProcessedData | components/StudentTable.tsx:262-290 | every row passes each active filter; the rows are a permutation of the filtered rows; unsorted they are the filtered rows in data order; sorted ascending the keys never decrease and descending they never increase |
| Table.TableState.constructor | components/StudentTable.tsx:246-249 | empty search, every filter "All", no sort column |
| Table.TableState.HandleSort | components/StudentTable.tsx:254-260 | the clicked column becomes the sort key; the direction is descending exactly when the same column was sorted ascending; the filters are unchanged |
| Table.TableState.ClearFilters | components/StudentTable.tsx:358 | search and both filters reset; the sort column kept |
| Table.ClickingCyclesDirection | components/StudentTable.tsx:246-260 | starting from a fresh table, three clicks on one column give ascending, then descending, then ascending |
| Aggregates.FunnelCounts | components/Dashboard.tsx:55-59 | applied is the record count; identity, sanctions and capacity count the records past that gate and every earlier one (identity succeeded; and sanctions cleared; and capacity not rejected); enrolled counts the Enrolled records; capacity ≤ sanctions ≤ identity ≤ applied and enrolled ≤ applied |
| Aggregates.EnrolledNotGatedByFunnel | components/Dashboard.tsx:58-59 | an enrolled record with a failed identity check gives an enrolled count above the capacity count |
| Aggregates.ViolationCounts | components/Dashboard.tsx:80-82 | the three counts are the records waiting more than 14 days, with an integrity check over 10 days, and with a validation over 30 days; each at most the record count |
| Aggregates.ViolationThresholds | components/DashboardProcess.tsx:68-70 | the thresholds are strict: 15, 11 and 31 days violate, 14, 10 and 30 do not |
| Aggregates.PaymentBuckets | components/Dashboard.tsx:85-95 | enrolled counts the Enrolled records, delayed the Delayed ones among them, on time the OnTime ones among them, and on time plus delayed is the enrolled count; critical counts the delayed enrolled payments 4 or more months behind and dunning those 2 or 3 months behind; critical plus dunning plus under-two-months is the delayed count |
| Aggregates.ArrearsSplit | components/DashboardProcess.tsx:75-76 | each delayed payment falls in exactly one of critical, dunning, under two months |
| Aggregates.ArrearsBucketsDisjoint | components/Dashboard.tsx:87-88 | no payment is both critical and dunning |
| Aggregates.PieCanFallShort | components/Dashboard.tsx:86-95 | one enrolled applicant one month late: the three pie slices add up to 0 against an enrolled count of 1 |
| Dashboard.FunnelData | components/Dashboard.tsx:61-67 | five rows named "1. Applied" … "5. Enrolled"; the counts are the record count, the identity-passed, sanctions-passed and capacity-passed counts, and the enrolled count; each drop is the previous count minus the current; drops 2-4 are non-negative |
| Dashboard.EnrolledDropCanBeNegative | components/Dashboard.tsx:66 | the enrolled drop is -1 for one enrolled applicant with a failed identity check |
| Dashboard.ScholarshipData | components/Dashboard.tsx:97-103 | one point per scholarship request |
| Dashboard.ScholarshipDataAppend | components/Dashboard.tsx:97-103 | the points of a list are those of its parts, in order |
| Dashboard.ScholarshipDataSingle | components/Dashboard.tsx:98-102 | one record gives its point exactly when it requested a scholarship |
| Dashboard.StandardReviewPartition | components/Dashboard.tsx:279-281 | the Standard and Review Needed series are disjoint, and together hold every point |
| DashboardProcess.ProcessFunnel | components/DashboardProcess.tsx:45-57 | the five stages in fixed order with their names; the first counts every record, the next three the records past identity, sanctions and capacity; the counts never increase through capacity; the last counts the enrolled |
| DashboardProcess.ScholarshipPoints | components/DashboardProcess.tsx:83 | one point per scholarship request |
| DashboardProcess.ScholarshipPointsExact | components/DashboardProcess.tsx:83 | a point is listed exactly when some requesting record has that amount and time |
| DashboardKPI.FraudCases | components/DashboardKPI.tsx:35 | a record counts when its identity check failed or it made more than three attempts: the count is the failed checks plus the records with more than three attempts whose check did not fail; at most the record count |
| DashboardKPI.FraudCasesAreFailedChecks | services/dataService.ts:24-26 | when more than three attempts imply a failed check, the fraud count is the failed-check count |
| DashboardKPI.WaitlistConversion | components/DashboardKPI.tsx:38-41 | `'0'` exactly when no one waited; otherwise the ratio of the waitlisted-and-enrolled count to the non-zero waitlisted count, at most 1 |
| DashboardKPI.WaitlistedAndEnrolled | components/DashboardKPI.tsx:38-40 | the numerator counts the records both waitlisted and enrolled |
| DashboardKPI.DunningRate | components/DashboardKPI.tsx:63-65 | `'0'` exactly when nobody is enrolled; otherwise the delayed-over-two-months count among the enrolled, over the enrolled count |
| DashboardKPI.DunningThresholdDiffers | components/DashboardKPI.tsx:64 | two months behind is not a dunning case here but is in the pipeline view's dunning bucket |
| DashboardKPI.ScholarshipDivisor | components/DashboardKPI.tsx:67-68 | the divisor is never zero: the request count, or 1 when there are none |
| DashboardKPI.CycleTimes | components/DashboardKPI.tsx:43-47 | one entry per record, in order, with total time = submission + validation time |
| DashboardKPI.BinOf | components/DashboardKPI.tsx:57-60 | the bins are half-open: < 20, [20, 40), [40, 60), ≥ 60 |
| DashboardKPI.BinCounts | components/DashboardKPI.tsx:50-61 | four counts, one per bin; what each holds and their total are stated by `BinCountIsFilterCount` and `BinsSumToTotal` |
| DashboardKPI.Histogram | components/DashboardKPI.tsx:50-61 | four named bins whose counts are the per-bin counts of the cycle times and add up to their number |
| DashboardKPI.BinCountIsFilterCount | components/DashboardKPI.tsx:56-61 | each bin's count is the number of cycle times in that bin's range |
| DashboardKPI.BinsSumToTotal | components/DashboardKPI.tsx:56-61 | every cycle time lands in exactly one bin, so the bins sum to the count |
| DashboardKPI.CycleScatterPartition | components/DashboardKPI.tsx:115-116 | the Enrolled and Rejected/Expired series split the cycle times, and the first has one point per enrolled record |
| DashboardBasic.FraudCount | components/DashboardBasic.tsx:32 | the count of Fraud_Blacklist records, which together with the enrolled count is at most the record count |
| DashboardBasic.OutcomeData | components/DashboardBasic.tsx:35-40 | four slices named Enrolled, Rejected, Fraud, Expired, whose values are the counts of records with that final outcome and add up to the record count |
| DashboardBasic.OutcomeCountsSum | components/DashboardBasic.tsx:31-39 | the four outcome counts add up to the record count |
| DashboardBasic.CapacityData | components/DashboardBasic.tsx:42-46 | three bars named Accepted, Rejected, Waitlisted, whose values are the counts of records with that capacity status and add up to the record count |
| DashboardBasic.CapacityCountsSum | components/DashboardBasic.tsx:43-45 | the three capacity counts add up to the record count |
| DashboardBasic.ScatterData | components/DashboardBasic.tsx:48-52 | one point per record, in order, x = submission time, y = validation time |
| DashboardBasic.PaymentAlerts | components/DashboardBasic.tsx:136-140 | one alert per delayed payment two or more months behind; each is at least two months late; COLLECTION iff four months or more |
| DashboardBasic.PaymentAlertsAppend | components/DashboardBasic.tsx:136 | the alerts of a list are those of its parts, in order |
| DashboardBasic.PaymentAlertsSingle | components/DashboardBasic.tsx:136 | one record raises an alert exactly when it is delayed two months or more |
| DashboardBasic.WaitlistAlerts | components/DashboardBasic.tsx:145 | every listed record waited more than 14 days, and the list holds only records of the input |
| DashboardBasic.IntegrityAlerts | components/DashboardBasic.tsx:151 | every listed record's integrity check took more than 10 days, and the list holds only records of the input |
| DashboardBasic.AlertSelection | components/DashboardBasic.tsx:145-151 | a record is in the waitlist alerts iff it waited more than 14 days, and in the integrity alerts iff its check took more than 10 |

## Left out

- Rendering: JSX, icons, charts, colour classes, the modal's over-deadline highlighting and the open/close state of the modal and of the suggestion list. They draw the values modelled here and decide nothing else.
- JavaScript `Date` in `addDays`: the UTC parse, the local-time `setDate` and `toISOString` can shift a date by a day across time zones. Dates are whole day numbers here.
- Floating point: the percentages (`toFixed`), the `Math.round` averages and the SLA averages. They are not modelled, including their division by zero for an empty list. `WaitlistConversion` and `DunningRate` keep the fraction as two integers.
- Text.Lower: lowers ASCII letters only. JavaScript's `toLowerCase` also lowers other scripts.
- The generated data (`generateMockData`, driven by `Math.random`), the CSV download and the app shell (`App.tsx`) are not part of this model. The generator's one guarantee that is used, more than three attempts implying a failed identity check, appears only as the precondition of `DashboardKPI.FraudCasesAreFailedChecks`.
- React hooks: `useMemo` and `useState` become plain functions, methods and the `TableState` fields.
- Step and row titles and detail texts are functions of a stage tag (`Journey.StepTitle`, `Journey.StepDetail`, `Table.RowTitle`, `Table.RowDetails`), not fields of each step.
- Table.ProcessedData: the input is a sequence value, so "the input is not mutated" holds by construction rather than being stated. The sort works on an array copy (`Table.SortRows`).
- TableSort.KeyLess: compares the ISO application date as a date rather than as a string. The two orders agree for well-formed ISO dates. Values of different kinds never meet, because one column always holds one kind.
- Text.TextLess: compares strings by Unicode scalar value. JavaScript's `<` compares UTF-16 code units, and the two orders differ for characters above U+FFFF.
- DashboardKPI.BinCounts: its own contract gives only the number of bins. The per-bin contents and the total are proved as separate lemmas, which keeps the histogram loop's proof small.
- TableSort.SortInPlace: `Array.prototype.sort` is specified only as stable, not as a particular algorithm. It is modelled as insertion sort; any stable sort with a consistent comparator gives the same result.
