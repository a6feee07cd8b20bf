/** The record table: its detail modal (a second copy of the applicant
    timeline, with its own inclusion guards), the filtered and sorted rows,
    and the sort-column state. */
module Table {
  import opened Records
  import opened Text
  import opened Seqs
  import opened Stages
  import opened TableSort
  import Journey

  /** The stage rows the modal can show, top to bottom. */
  datatype ModalStage =
    | ApplicationRow | IdentityRow | SanctionsRow | CapacityRow | SubmissionRow | ValidationRow

  /** One row of the modal's timeline. The modal shows a single date per row,
      the stage's end date; `None` is a `null` duration or target. The row's
      title and detail text are `RowTitle` and `RowDetails`. */
  datatype ModalItem = ModalItem(
    stage: ModalStage,
    date: Date,
    actor: Actor,
    duration: Option<nat>,
    deadline: Option<nat>,
    status: StepStatus)

  function RowTitle(stage: ModalStage): string {
    match stage
    case ApplicationRow => "Application Received"
    case IdentityRow => "Identity Verification"
    case SanctionsRow => "Integrity & Sanctions Check"
    case CapacityRow => "Capacity Check"
    case SubmissionRow => "Document Submission"
    case ValidationRow => "Institution Validation"
  }

  function RowDetails(s: StudentData, stage: ModalStage): string {
    match stage
    case ApplicationRow => "Application submitted via portal."
    case IdentityRow =>
      "Status: " + IdentityName(s.Identity_Verification_Status) + ". Attempts: "
      + NatToString(s.Verification_Attempts) + ". "
      + (if s.Verification_Attempts > 3 then "High attempt count flagged." else "")
    case SanctionsRow =>
      "Outcome: " + SanctionName(s.Sanction_Status) + ". Checked against international watchlists."
    case CapacityRow =>
      "Status: " + CapacityName(s.Capacity_Status) + ". "
      + (if s.Days_On_Waitlist > 0
         then "Student was on waitlist for " + NatToString(s.Days_On_Waitlist) + " days."
         else "Direct capacity availability.")
    case SubmissionRow =>
      "Student took " + NatToString(s.Document_Submission_Time)
      + " days to upload required diplomas and transcripts."
    case ValidationRow =>
      "Academic validation performed by faculty. Duration: "
      + NatToString(s.Institution_Validation_Time) + " days."
  }

  /** The row for one stage: its end date, who acts, the time taken and the
      target, and the stage status. */
  function Row(s: StudentData, stage: ModalStage): (r: ModalItem)
    ensures r.stage == stage
    ensures r.actor == [Student, System, University, University, Student, University][Order(stage)]
    ensures r.deadline == [None, None, Some(10), Some(14), Some(14), Some(30)][Order(stage)]
    ensures r.duration == [Some(0), None, Some(s.Integrity_Check_Duration), Some(s.Days_On_Waitlist),
                           Some(s.Document_Submission_Time), Some(s.Institution_Validation_Time)][Order(stage)]
    ensures r.status == [Success, IdentityStepStatus(s), SanctionStepStatus(s), CapacityStepStatus(s),
                         SubmissionStepStatus(s), ValidationStepStatus(s)][Order(stage)]
    ensures Order(stage) < 2 ==> r.date == s.Date_Applied
    ensures stage == SanctionsRow ==> r.date == AddDays(s.Date_Applied, s.Integrity_Check_Duration as real)
    ensures stage == CapacityRow ==> r.date == AddDays(DateChain(s).sanctionEnd, s.Days_On_Waitlist as real)
    ensures stage == SubmissionRow ==>
      r.date == AddDays(DateChain(s).capacityEnd, s.Document_Submission_Time as real)
    ensures stage == ValidationRow ==>
      r.date == AddDays(DateChain(s).submissionEnd, s.Institution_Validation_Time as real)
  {
    var c := DateChain(s);
    match stage
    case ApplicationRow => ModalItem(stage, s.Date_Applied, Student, Some(0), None, Success)
    case IdentityRow => ModalItem(stage, s.Date_Applied, System, None, None, IdentityStepStatus(s))
    case SanctionsRow =>
      ModalItem(stage, c.sanctionEnd, University, Some(s.Integrity_Check_Duration), Some(10), SanctionStepStatus(s))
    case CapacityRow =>
      ModalItem(stage, c.capacityEnd, University, Some(if s.Days_On_Waitlist > 0 then s.Days_On_Waitlist else 0),
                Some(14), CapacityStepStatus(s))
    case SubmissionRow =>
      ModalItem(stage, c.submissionEnd, Student, Some(s.Document_Submission_Time), Some(14), SubmissionStepStatus(s))
    case ValidationRow =>
      ModalItem(stage, c.validationEnd, University, Some(s.Institution_Validation_Time), Some(30),
                ValidationStepStatus(s))
  }

  /** The closing "Final Outcome" block; the payment and scholarship lines
      appear only for an enrolled applicant. */
  datatype FinalBlock = FinalBlock(
    title: string,
    enrolled: bool,
    payment: Option<string>,
    scholarship: Option<string>)

  datatype Modal = Modal(items: seq<ModalItem>, final: FinalBlock)

  function FinalOutcomeBlock(s: StudentData): (b: FinalBlock)
    ensures b.title == "Final Outcome: " + OutcomeName(s.Final_Outcome)
    ensures b.enrolled <==> s.Final_Outcome == Enrolled
    ensures b.payment.Some? <==> s.Final_Outcome == Enrolled
    ensures b.payment.Some? ==> "Payment: " + PaymentName(s.Payment_Status) <= b.payment.value
    ensures b.payment.Some? && s.Payment_Status != Delayed ==> b.payment.value == "Payment: " + PaymentName(s.Payment_Status)
    ensures b.scholarship.Some? <==> s.Final_Outcome == Enrolled && s.Scholarship_Requested == Yes
    ensures b.scholarship.Some? ==> "Scholarship: $" + NatToString(s.Scholarship_Amount) <= b.scholarship.value
  {
    var enrolled := s.Final_Outcome == Enrolled;
    FinalBlock(
      "Final Outcome: " + OutcomeName(s.Final_Outcome),
      enrolled,
      if enrolled then
        Some("Payment: " + PaymentName(s.Payment_Status)
             + (if s.Payment_Status == Delayed then " (" + NatToString(s.Months_Delayed) + " months)" else ""))
      else None,
      if enrolled && s.Scholarship_Requested == Yes then
        Some("Scholarship: $" + NatToString(s.Scholarship_Amount) + " (Approved in "
             + NatToString(s.Scholarship_Approval_Time) + " days)")
      else None)
  }

  /** Whether the modal shows the row for this stage. */
  predicate Shows(m: Modal, stage: ModalStage) {
    stage in ShownStages(m)
  }

  /** The stages the modal shows, each under its own guard, in process
      order: sanctions after a successful identity check, capacity after
      clearance, submission and validation after clearance unless capacity
      was rejected. */
  function Guarded(s: StudentData): (r: seq<ModalStage>)
    ensures 2 <= |r| <= 6 && r[0] == ApplicationRow && r[1] == IdentityRow
    ensures SanctionsRow in r <==> s.Identity_Verification_Status == IdSuccess
    ensures CapacityRow in r <==> s.Sanction_Status == Cleared
    ensures SubmissionRow in r <==> s.Sanction_Status == Cleared && s.Capacity_Status != CapRejected
    ensures ValidationRow in r <==> s.Sanction_Status == Cleared && s.Capacity_Status != CapRejected
  {
    [ApplicationRow, IdentityRow]
    + (if s.Identity_Verification_Status == IdSuccess then [SanctionsRow] else [])
    + (if s.Sanction_Status == Cleared then [CapacityRow] else [])
    + (if s.Capacity_Status != CapRejected && s.Sanction_Status == Cleared
       then [SubmissionRow, ValidationRow] else [])
  }

  /** The modal's timeline: one row per guarded stage, then the final
      block. */
  function DetailModal(s: StudentData): (m: Modal)
    ensures 2 <= |m.items| <= 6
    ensures forall i :: 0 <= i < |m.items| ==> m.items[i] == Row(s, m.items[i].stage)
    ensures ShownStages(m) == Guarded(s)
    ensures m.final.title == "Final Outcome: " + OutcomeName(s.Final_Outcome)
    ensures m.final.enrolled <==> s.Final_Outcome == Enrolled
    ensures m.final.payment.Some? <==> s.Final_Outcome == Enrolled
    ensures m.final.scholarship.Some? <==> s.Final_Outcome == Enrolled && s.Scholarship_Requested == Yes
  {
    Modal(Map(Guarded(s), (stage: ModalStage) => Row(s, stage)), FinalOutcomeBlock(s))
  }

  /** The position of a stage in the enrollment process. */
  function Order(stage: ModalStage): nat {
    match stage
    case ApplicationRow => 0
    case IdentityRow => 1
    case SanctionsRow => 2
    case CapacityRow => 3
    case SubmissionRow => 4
    case ValidationRow => 5
  }

  /** The stages of the rows shown, top to bottom. */
  function ShownStages(m: Modal): (r: seq<ModalStage>)
    ensures |r| == |m.items|
    ensures forall i :: 0 <= i < |r| ==> r[i] == m.items[i].stage
  {
    seq(|m.items|, i requires 0 <= i < |m.items| => m.items[i].stage)
  }

  /** Each stage row appears exactly when its guard holds: sanctions after a
      successful identity check, capacity after clearance, submission and
      validation after clearance unless capacity was rejected. The
      application and identity rows are always the first two. */
  lemma ModalGuards(s: StudentData)
    ensures var m := DetailModal(s);
      && m.items[0].stage == ApplicationRow && m.items[1].stage == IdentityRow
      && (Shows(m, SanctionsRow) <==> s.Identity_Verification_Status == IdSuccess)
      && (Shows(m, CapacityRow) <==> s.Sanction_Status == Cleared)
      && (Shows(m, SubmissionRow) <==> s.Sanction_Status == Cleared && s.Capacity_Status != CapRejected)
      && (Shows(m, ValidationRow) <==> s.Sanction_Status == Cleared && s.Capacity_Status != CapRejected)
  {
    var m := DetailModal(s);
    assert ShownStages(m)[0] == ApplicationRow && ShownStages(m)[1] == IdentityRow;
  }

  /** The rows shown come in process order. */
  lemma ModalRowOrder(s: StudentData)
    ensures var items := DetailModal(s).items;
      forall i, j :: 0 <= i < j < |items| ==> Order(items[i].stage) < Order(items[j].stage)
  {
    var g := Guarded(s);
    assert forall i, j :: 0 <= i < j < |g| ==> Order(g[i]) < Order(g[j]);
  }

  /** When the identity check passed, the modal's rows are the tracer's
      steps without its final-outcome step: same statuses and actors, and
      each row's date is that step's end date. */
  lemma {:induction false} ModalAgreesWithTracer(s: StudentData)
    requires s.Identity_Verification_Status == IdSuccess
    ensures var items := DetailModal(s).items;
      var steps := Journey.ActiveSteps(s);
      && |items| == (if |steps| == 7 then 6 else |steps|)
      && forall i :: 0 <= i < |items| ==>
           items[i].date == steps[i].end && items[i].status == steps[i].status
           && items[i].actor == steps[i].actor
  {
    var m := DetailModal(s);
    var items, steps, full := m.items, Journey.ActiveSteps(s), Journey.Steps(s);
    var order := [ApplicationRow, IdentityRow, SanctionsRow, CapacityRow, SubmissionRow, ValidationRow];
    GuardedAfterIdentity(s);
    forall i | 0 <= i < |items|
      ensures items[i].date == steps[i].end && items[i].status == steps[i].status
      ensures items[i].actor == steps[i].actor
    {
      assert items[i].stage == ShownStages(m)[i] == order[i];
      RowsMatchSteps(s, i);
      assert steps[i] == full[i];
    }
  }

  /** Helper: once identity passed, the guarded stages are a prefix of the
      process order, cut after sanctions, capacity or validation. */
  lemma GuardedAfterIdentity(s: StudentData)
    requires s.Identity_Verification_Status == IdSuccess
    ensures var order := [ApplicationRow, IdentityRow, SanctionsRow, CapacityRow, SubmissionRow, ValidationRow];
      var n := if s.Sanction_Status == Blocked then 3 else if s.Capacity_Status == CapRejected then 4 else 6;
      Guarded(s) == order[..n]
  {
  }

  /** Helper: the k-th row in process order and the k-th tracer step share
      their end date, status and actor. */
  lemma RowsMatchSteps(s: StudentData, k: nat)
    requires k < 6
    ensures var stage := [ApplicationRow, IdentityRow, SanctionsRow, CapacityRow, SubmissionRow, ValidationRow][k];
      var row, step := Row(s, stage), Journey.Steps(s)[k];
      row.date == step.end && row.status == step.status && row.actor == step.actor
  {
  }

  /** The stage rows of the two copies disagree in number exactly when
      identity failed but sanctions cleared: the modal then shows the
      capacity row (and, unless capacity was rejected, the submission and
      validation rows) that the tracer cuts off after the identity step.
      Their endings differ too: the modal always closes with its final
      outcome block, while a tracer cut short at a failed step carries no
      final-outcome step at all. */
  lemma {:induction false} ModalDivergesFromTracer(s: StudentData)
    ensures var items := DetailModal(s).items;
      var steps := Journey.ActiveSteps(s);
      (|items| == (if |steps| == 7 then 6 else |steps|))
        <==> !(s.Identity_Verification_Status == IdFailed && s.Sanction_Status == Cleared)
    ensures s.Identity_Verification_Status == IdFailed && s.Sanction_Status == Cleared ==>
      && |Journey.ActiveSteps(s)| == 2
      && DetailModal(s).items[2].stage == CapacityRow
      && |DetailModal(s).items| == (if s.Capacity_Status == CapRejected then 3 else 5)
    ensures DetailModal(s).final.title == "Final Outcome: " + OutcomeName(s.Final_Outcome)
    ensures var steps := Journey.ActiveSteps(s);
      |steps| < 7 ==> forall i :: 0 <= i < |steps| ==> steps[i].stage != Journey.Outcome
  {
    var steps := Journey.ActiveSteps(s);
    if s.Identity_Verification_Status == IdSuccess {
      ModalAgreesWithTracer(s);
    } else if s.Sanction_Status == Cleared {
      assert Guarded(s)[2] == CapacityRow;
    } else {
      assert Guarded(s) == [ApplicationRow, IdentityRow];
    }
    Journey.CutTimelineHasNoOutcome(s);
  }

  // ----- Filtering and sorting of the table rows -----

  /** The three row filters; `None` is the "All" choice. */
  predicate Selected(d: StudentData, term: string, outcome: Option<FinalOutcome>, payment: Option<PaymentStatus>) {
    && IdMatches(d, term)
    && (outcome.None? || d.Final_Outcome == outcome.value)
    && (payment.None? || d.Payment_Status == payment.value)
  }

  function Selector(term: string, outcome: Option<FinalOutcome>, payment: Option<PaymentStatus>): StudentData -> bool {
    d => Selected(d, term, outcome, payment)
  }

  function OutcomeMatcher(outcome: FinalOutcome): StudentData -> bool {
    (d: StudentData) => d.Final_Outcome == outcome
  }

  function PaymentMatcher(payment: PaymentStatus): StudentData -> bool {
    (d: StudentData) => d.Payment_Status == payment
  }

  /** The filters applied so far, as one predicate: the search, then the
      outcome filter. */
  function SearchAndOutcome(term: string, outcome: Option<FinalOutcome>): StudentData -> bool {
    (d: StudentData) => IdMatches(d, term) && (outcome.None? || d.Final_Outcome == outcome.value)
  }

  /** The search step: skipped for an empty term, which matches every row
      anyway. */
  lemma SearchStep(data: seq<StudentData>, term: string)
    ensures (if term != [] then Filter(data, IdMatcher(term)) else data) == Filter(data, IdMatcher(term))
  {
    if term == [] {
      forall i | 0 <= i < |data| ensures IdMatcher(term)(data[i]) {
        EmptyTermMatchesAll(data[i]);
      }
      FilterKeepsAll(data, IdMatcher(term));
    }
  }

  /** The outcome step narrows the searched rows to the chosen outcome. */
  lemma OutcomeStep(data: seq<StudentData>, term: string, outcome: Option<FinalOutcome>)
    ensures (if outcome.Some? then Filter(Filter(data, IdMatcher(term)), OutcomeMatcher(outcome.value))
             else Filter(data, IdMatcher(term)))
            == Filter(data, SearchAndOutcome(term, outcome))
  {
    if outcome.Some? {
      FilterFilter(data, IdMatcher(term), OutcomeMatcher(outcome.value), SearchAndOutcome(term, outcome));
    } else {
      FilterAgree(data, IdMatcher(term), SearchAndOutcome(term, outcome));
    }
  }

  /** The payment step narrows those rows to the chosen payment status. */
  lemma PaymentStep(data: seq<StudentData>, term: string, outcome: Option<FinalOutcome>, payment: Option<PaymentStatus>)
    ensures (if payment.Some? then Filter(Filter(data, SearchAndOutcome(term, outcome)), PaymentMatcher(payment.value))
             else Filter(data, SearchAndOutcome(term, outcome)))
            == Filter(data, Selector(term, outcome, payment))
  {
    if payment.Some? {
      FilterFilter(data, SearchAndOutcome(term, outcome), PaymentMatcher(payment.value), Selector(term, outcome, payment));
    } else {
      FilterAgree(data, SearchAndOutcome(term, outcome), Selector(term, outcome, payment));
    }
  }

  /** `result.sort(comparator)`: the rows are copied into an array, which
      is sorted in place. */
  method SortRows(rows: seq<StudentData>, cfg: SortConfig) returns (sorted: seq<StudentData>)
    ensures sorted == SortSeq(Comparator(cfg), rows)
  {
    var a := new StudentData[|rows|](i requires 0 <= i < |rows| => rows[i]);
    assert a[..] == rows;
    SortInPlace(a, Comparator(cfg));
    sorted := a[..];
  }

  /** The filtering half of the table's row computation: each active filter
      narrows the rows in turn. */
  method FilterRows(data: seq<StudentData>, term: string, outcome: Option<FinalOutcome>,
                    payment: Option<PaymentStatus>)
    returns (rows: seq<StudentData>)
    ensures rows == Filter(data, Selector(term, outcome, payment))
  {
    rows := data;
    if term != [] {
      rows := Filter(rows, IdMatcher(term));
    }
    SearchStep(data, term);
    if outcome.Some? {
      rows := Filter(rows, OutcomeMatcher(outcome.value));
    }
    OutcomeStep(data, term, outcome);
    if payment.Some? {
      rows := Filter(rows, PaymentMatcher(payment.value));
    }
    PaymentStep(data, term, outcome, payment);
  }

  /** The rows the table shows: the filtered rows, sorted when a sort column
      is set. */
  method ProcessedData(data: seq<StudentData>, term: string, outcome: Option<FinalOutcome>,
                       payment: Option<PaymentStatus>, sortConfig: Option<SortConfig>)
    returns (result: seq<StudentData>)
    ensures forall i :: 0 <= i < |result| ==> Selected(result[i], term, outcome, payment)
    ensures multiset(result) == multiset(Filter(data, Selector(term, outcome, payment)))
    ensures sortConfig.None? ==> result == Filter(data, Selector(term, outcome, payment))
    ensures sortConfig.Some? ==> Sorted(Comparator(sortConfig.value), result)
    ensures sortConfig.Some? && sortConfig.value.direction == Asc ==>
      forall i, j :: 0 <= i < j < |result| ==>
        !KeyLess(KeyOf(result[j], sortConfig.value.key), KeyOf(result[i], sortConfig.value.key))
    ensures sortConfig.Some? && sortConfig.value.direction == Desc ==>
      forall i, j :: 0 <= i < j < |result| ==>
        !KeyLess(KeyOf(result[i], sortConfig.value.key), KeyOf(result[j], sortConfig.value.key))
    ensures sortConfig.Some? ==> result == SortSeq(Comparator(sortConfig.value), Filter(data, Selector(term, outcome, payment)))
  {
    var rows := FilterRows(data, term, outcome, payment);
    if sortConfig.Some? {
      var sorted := SortRows(rows, sortConfig.value);
      ComparatorConsistent(sortConfig.value);
      SortSeqSorted(Comparator(sortConfig.value), rows);
      SortSeqPermutes(Comparator(sortConfig.value), rows);
      forall i | 0 <= i < |sorted| ensures Selected(sorted[i], term, outcome, payment) {
        assert sorted[i] in multiset(rows);
        FilterMembership(data, Selector(term, outcome, payment), sorted[i]);
      }
      rows := sorted;
    }
    result := rows;
  }

  /** The table's interactive state: the three filters and the sort column. */
  class TableState {
    var searchTerm: string
    var outcomeFilter: Option<FinalOutcome>
    var paymentFilter: Option<PaymentStatus>
    var sortConfig: Option<SortConfig>

    constructor ()
      ensures searchTerm == "" && outcomeFilter == None && paymentFilter == None && sortConfig == None
    {
      searchTerm := "";
      outcomeFilter := None;
      paymentFilter := None;
      sortConfig := None;
    }

    /** A click on a column header: the same column sorted ascending flips to
        descending; anything else sorts the clicked column ascending. */
    method HandleSort(key: SortKey)
      modifies this
      ensures sortConfig.Some? && sortConfig.value.key == key
      ensures (sortConfig.value.direction == Desc) <==>
                (old(sortConfig).Some? && old(sortConfig).value.key == key
                 && old(sortConfig).value.direction == Asc)
      ensures searchTerm == old(searchTerm) && outcomeFilter == old(outcomeFilter)
      ensures paymentFilter == old(paymentFilter)
    {
      var direction := Asc;
      if sortConfig.Some? && sortConfig.value.key == key && sortConfig.value.direction == Asc {
        direction := Desc;
      }
      sortConfig := Some(SortConfig(key, direction));
    }

    /** The "clear filters" button: every filter back to "All"; the sort
        column is kept. */
    method ClearFilters()
      modifies this
      ensures searchTerm == "" && outcomeFilter == None && paymentFilter == None
      ensures sortConfig == old(sortConfig)
    {
      searchTerm := "";
      outcomeFilter := None;
      paymentFilter := None;
    }
  }

  /** Clicking one column three times on a fresh table sorts it
      ascending, descending, then ascending again. */
  method ClickingCyclesDirection(key: SortKey)
    returns (first: Option<SortConfig>, second: Option<SortConfig>, third: Option<SortConfig>)
    ensures first == Some(SortConfig(key, Asc))
    ensures second == Some(SortConfig(key, Desc))
    ensures third == Some(SortConfig(key, Asc))
  {
    var t := new TableState();
    t.HandleSort(key);
    first := t.sortConfig;
    t.HandleSort(key);
    second := t.sortConfig;
    t.HandleSort(key);
    third := t.sortConfig;
  }
}
