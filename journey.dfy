/** The journey tracer: the search box's suggestion list and the full-page
    timeline of one applicant, built as seven steps and cut back to the first
    hard failure. */
module Journey {
  import opened Records
  import opened Text
  import opened Seqs
  import opened Stages

  /** The seven stages of the timeline, in order. */
  datatype JourneyStage =
    | Application | Identity | Sanctions | Capacity | Submission | Validation | Outcome

  /** One reconstructed stage of the enrollment process. Its title and detail
      text are `StepTitle` and `StepDetail`. */
  datatype Step = Step(
    stage: JourneyStage,
    start: Date,
    end: Date,
    actor: Actor,
    status: StepStatus,
    duration: nat,
    deadline: nat)

  /** Each step starts on the day the previous one ended. */
  predicate Chained(steps: seq<Step>) {
    forall i :: 0 < i < |steps| ==> steps[i].start == steps[i - 1].end
  }

  function StepTitle(s: StudentData, stage: JourneyStage): string {
    match stage
    case Application => "Application Received"
    case Identity => "Identity Verification"
    case Sanctions => "Sanctions & Integrity"
    case Capacity => "Capacity Check"
    case Submission => "Document Submission"
    case Validation => "Institution Validation"
    case Outcome => "Final Outcome: " + OutcomeName(s.Final_Outcome)
  }

  function StepDetail(s: StudentData, stage: JourneyStage): string {
    match stage
    case Application => "Initial application submitted via portal."
    case Identity =>
      "Attempts: " + NatToString(s.Verification_Attempts) + ". Status: "
      + IdentityName(s.Identity_Verification_Status) + "."
    case Sanctions =>
      "Outcome: " + SanctionName(s.Sanction_Status) + ". Check duration: "
      + NatToString(s.Integrity_Check_Duration) + " days."
    case Capacity =>
      "Status: " + CapacityName(s.Capacity_Status) + ". Waitlist time: "
      + NatToString(s.Days_On_Waitlist) + " days."
    case Submission =>
      "Time taken to submit docs: " + NatToString(s.Document_Submission_Time) + " days."
    case Validation =>
      "Validation process duration: " + NatToString(s.Institution_Validation_Time) + " days."
    case Outcome =>
      if s.Final_Outcome == Enrolled then
        "Payment: " + PaymentName(s.Payment_Status) + ". Scholarship: "
        + (if s.Scholarship_Requested == Yes then "$" + NatToString(s.Scholarship_Amount) else "None")
        + "."
      else "Enrollment process terminated."
  }

  /** The seven steps of the timeline, before any truncation. */
  function Steps(s: StudentData): (r: seq<Step>)
    ensures |r| == 7
    ensures forall i :: 0 <= i < 7 ==> r[i].stage == [Application, Identity, Sanctions, Capacity, Submission, Validation, Outcome][i]
    ensures forall i :: 0 <= i < 7 ==>
      r[i].actor == [Student, System, University, University, Student, University, System][i]
    ensures forall i :: 0 <= i < 7 ==> r[i].deadline == [0, 0, 10, 14, 14, 30, 0][i]
    ensures r[0].duration == 0 && r[1].duration == 0 && r[6].duration == 0
    ensures r[2].duration == s.Integrity_Check_Duration && r[3].duration == s.Days_On_Waitlist
    ensures r[4].duration == s.Document_Submission_Time && r[5].duration == s.Institution_Validation_Time
    ensures Chained(r)
    ensures forall i :: 2 <= i < 6 ==> r[i].end == AddDays(r[i].start, r[i].duration as real)
    ensures forall i :: 0 <= i < |r| ==> NotAfter(r[i].start, r[i].end)
    ensures r[0].start == r[0].end == r[1].start == r[1].end == s.Date_Applied
    ensures r[6].start == r[6].end == r[5].end
    ensures r[1].status == IdentityStepStatus(s) && r[2].status == SanctionStepStatus(s)
    ensures r[3].status == CapacityStepStatus(s) && r[4].status == SubmissionStepStatus(s)
    ensures r[5].status == ValidationStepStatus(s) && r[6].status == FinalStepStatus(s)
  {
    var c := DateChain(s);
    [
      Step(Application, c.applied, c.applied, Student, Success, 0, 0),
      Step(Identity, c.applied, c.applied, System, IdentityStepStatus(s), 0, 0),
      Step(Sanctions, c.applied, c.sanctionEnd, University, SanctionStepStatus(s),
           s.Integrity_Check_Duration, 10),
      Step(Capacity, c.sanctionEnd, c.capacityEnd, University, CapacityStepStatus(s),
           s.Days_On_Waitlist, 14),
      Step(Submission, c.capacityEnd, c.submissionEnd, Student, SubmissionStepStatus(s),
           s.Document_Submission_Time, 14),
      Step(Validation, c.submissionEnd, c.validationEnd, University, ValidationStepStatus(s),
           s.Institution_Validation_Time, 30),
      Step(Outcome, c.validationEnd, c.validationEnd, System, FinalStepStatus(s), 0, 0)
    ]
  }

  /** The steps shown: the full list cut after the identity step, the
      sanctions step or the capacity step, whichever fails first. */
  function ActiveSteps(s: StudentData): (r: seq<Step>)
    ensures 2 <= |r| <= 7 && r == Steps(s)[..|r|]
    ensures |r| == 2 <==> s.Identity_Verification_Status == IdFailed
    ensures |r| == 3 <==> s.Identity_Verification_Status == IdSuccess && s.Sanction_Status == Blocked
    ensures |r| == 4 <==> s.Identity_Verification_Status == IdSuccess && s.Sanction_Status == Cleared
                          && s.Capacity_Status == CapRejected
    ensures |r| == 7 <==> s.Identity_Verification_Status == IdSuccess && s.Sanction_Status == Cleared
                          && s.Capacity_Status != CapRejected
    ensures forall i :: 0 <= i < |r| - 1 ==> r[i].status != Failed
    ensures |r| < 7 ==> r[|r| - 1].status == Failed
  {
    var steps := Steps(s);
    if s.Identity_Verification_Status == IdFailed then steps[..2]
    else if s.Sanction_Status == Blocked then steps[..3]
    else if s.Capacity_Status == CapRejected then steps[..4]
    else steps
  }

  /** Reference definition of the truncation: keep steps up to and including
      the first Failed one. */
  function ThroughFirstFailure(steps: seq<Step>): (r: seq<Step>)
    ensures |r| <= |steps|
  {
    if steps == [] then []
    else if steps[0].status == Failed then [steps[0]]
    else [steps[0]] + ThroughFirstFailure(steps[1..])
  }

  /** The three truncation rules are exactly "stop at the first failed step". */
  lemma {:induction false} ActiveStepsStopAtFirstFailure(s: StudentData)
    ensures ActiveSteps(s) == ThroughFirstFailure(Steps(s))
  {
    var steps := Steps(s);
    var k := |ActiveSteps(s)|;
    ThroughFirstFailureOfPrefix(steps, k);
  }

  /** Helper: when the first `k - 1` steps pass and step `k - 1` fails (or
      `k` is the whole list and none before the last fails), the reference
      truncation keeps exactly `k` steps. */
  lemma {:induction false} ThroughFirstFailureOfPrefix(steps: seq<Step>, k: nat)
    requires 1 <= k <= |steps|
    requires forall i :: 0 <= i < k - 1 ==> steps[i].status != Failed
    requires k < |steps| ==> steps[k - 1].status == Failed
    ensures ThroughFirstFailure(steps) == steps[..k]
  {
    if k == 1 {
      if steps[0].status != Failed {
        assert |steps| == 1;
      }
    } else {
      ThroughFirstFailureOfPrefix(steps[1..], k - 1);
      assert steps[..k] == [steps[0]] + steps[1..][..k - 1];
    }
  }

  /** Every timeline has at least the application and identity steps. */
  lemma ActiveStepsStartWithApplication(s: StudentData)
    ensures |ActiveSteps(s)| >= 2
    ensures ActiveSteps(s)[0].stage == Application && ActiveSteps(s)[0].status == Success
    ensures ActiveSteps(s)[1].stage == Identity
  {
  }

  /** A timeline cut short at a failed step never reaches the
      final-outcome step. */
  lemma CutTimelineHasNoOutcome(s: StudentData)
    ensures var r := ActiveSteps(s);
      |r| < 7 ==> forall i :: 0 <= i < |r| ==> r[i].stage != Outcome
  {
    var r := ActiveSteps(s);
    assert forall i :: 0 <= i < |r| ==> r[i] == Steps(s)[i];
  }

  /** The truncation ignores the final outcome: a record that passes every
      stage but expired still shows all seven steps, ending in Failed with
      the termination note. */
  lemma ExpiredAfterFullPipeline(s: StudentData)
    requires s.Identity_Verification_Status == IdSuccess && s.Sanction_Status == Cleared
    requires s.Capacity_Status == Accepted && s.Final_Outcome == Expired
    ensures |ActiveSteps(s)| == 7
    ensures ActiveSteps(s)[6].status == Failed
    ensures ActiveSteps(s)[6].stage == Outcome
    ensures StepTitle(s, Outcome) == "Final Outcome: Expired"
    ensures StepDetail(s, Outcome) == "Enrollment process terminated."
  {
  }

  /** A failed identity check shows two steps whatever the other fields say. */
  lemma IdentityFailureShowsTwoSteps(s: StudentData)
    requires s.Identity_Verification_Status == IdFailed
    ensures |ActiveSteps(s)| == 2
    ensures ActiveSteps(s)[0].status == Success && ActiveSteps(s)[1].status == Failed
  {
  }

  /** A worked example: applied on day `n`, integrity 5 days, no waitlist,
      submission 10 days, validation 20 days, every stage passed, enrolled. */
  lemma {:induction false} ScenarioAllPassed(s: StudentData, n: int)
    requires s.Date_Applied == Day(n)
    requires s.Integrity_Check_Duration == 5 && s.Days_On_Waitlist == 0
    requires s.Document_Submission_Time == 10 && s.Institution_Validation_Time == 20
    requires s.Identity_Verification_Status == IdSuccess && s.Verification_Attempts <= 3
    requires s.Sanction_Status == Cleared && s.Capacity_Status == Accepted
    requires s.Final_Outcome == Enrolled
    ensures var r := ActiveSteps(s);
      && |r| == 7
      && r[2].end == Day(n + 5) && r[3].end == Day(n + 5)
      && r[4].end == Day(n + 15) && r[5].end == Day(n + 35) && r[6].end == Day(n + 35)
      && forall i :: 0 <= i < 7 ==> r[i].status == Success
  {
    DateChainOffsets(s);
  }

  /** The timeline view draws its last row in the "enrolled" style when the
      applicant's final outcome is Enrolled, whichever step that row is. */
  predicate IsHighlighted(s: StudentData, idx: int)
    ensures IsHighlighted(s, idx) ==> s.Final_Outcome == Enrolled && 1 <= idx < |ActiveSteps(s)|
    ensures s.Final_Outcome == Enrolled && idx == |ActiveSteps(s)| - 1 ==> IsHighlighted(s, idx)
    ensures IsHighlighted(s, idx) ==> (ActiveSteps(s)[idx].stage == Outcome <==> |ActiveSteps(s)| == 7)
    ensures IsHighlighted(s, idx) && |ActiveSteps(s)| < 7 ==> ActiveSteps(s)[idx].status == Failed
  {
    idx == |ActiveSteps(s)| - 1 && s.Final_Outcome == Enrolled
  }

  /** For a record that passed every stage, the highlighted row is the final
      outcome step, and it is a Success. */
  lemma HighlightMarksEnrolledOutcome(s: StudentData, idx: int)
    requires s.Identity_Verification_Status == IdSuccess && s.Sanction_Status == Cleared
    requires s.Capacity_Status != CapRejected
    requires IsHighlighted(s, idx)
    ensures idx == 6
    ensures ActiveSteps(s)[idx].stage == Outcome
    ensures StepTitle(s, ActiveSteps(s)[idx].stage) == "Final Outcome: Enrolled"
    ensures ActiveSteps(s)[idx].status == Success
  {
  }

  /** The highlight depends only on the position and the outcome field: an
      "Enrolled" record whose identity check failed highlights the failed
      identity step. */
  lemma HighlightOnFailedIdentity(s: StudentData)
    requires s.Identity_Verification_Status == IdFailed && s.Final_Outcome == Enrolled
    ensures IsHighlighted(s, 1)
    ensures ActiveSteps(s)[1].stage == Identity
    ensures ActiveSteps(s)[1].status == Failed
  {
  }

  /** The search box's suggestions: nothing for an empty term, otherwise the
      first five records whose identifier contains the term, ignoring case. */
  function Suggestions(data: seq<StudentData>, term: string): (r: seq<StudentData>)
    ensures term == [] ==> r == []
    ensures |r| <= 5
    ensures forall i :: 0 <= i < |r| ==> IdMatches(r[i], term)
    ensures term != [] ==> |r| == if Count(data, IdMatcher(term)) < 5 then Count(data, IdMatcher(term)) else 5
    ensures term != [] ==> r == Filter(data, IdMatcher(term))[..|r|]
  {
    if term == [] then []
    else
      var matches := Filter(data, IdMatcher(term));
      if |matches| < 5 then matches else matches[..5]
  }

  /** Suggestions keep the data order: those found in a longer list start
      with those found in its first part. */
  lemma SuggestionsFollowDataOrder(data: seq<StudentData>, more: seq<StudentData>, term: string)
    requires term != []
    ensures var r := Suggestions(data + more, term);
      var q := Suggestions(data, term);
      |q| <= |r| && r[..|q|] == q
  {
    FilterAppend(data, more, IdMatcher(term));
  }
}
