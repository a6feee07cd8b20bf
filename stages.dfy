/** The date arithmetic and the per-stage status rules of the applicant
    timeline. The journey tracer and the record table's detail modal each
    carry a copy of `addDays`, of the date chain and of the status ternaries;
    the copies are the same expressions, so they are defined once here and
    both timelines are built from them. */
module Stages {
  import opened Records

  datatype StepStatus = Success | Warning | Failed
  datatype Actor = Student | University | System

  /** `Math.ceil`: the least whole number not below `x`. */
  function Ceil(x: real): (r: int)
    ensures (r - 1) as real < x <= r as real
  {
    -((-x).Floor)
  }

  /** `addDays`: the empty date stays empty; otherwise the date moves forward
      by the day count rounded up to a whole number of days. */
  function AddDays(date: Date, days: real): (r: Date)
    ensures date.Blank? <==> r.Blank?
    ensures date.Day? ==> days <= (r.n - date.n) as real < days + 1.0
  {
    match date
    case Blank => Blank
    case Day(n) => Day(n + Ceil(days))
  }

  /** A whole number of days is added exactly. */
  lemma AddWholeDays(n: int, k: nat)
    ensures AddDays(Day(n), k as real) == Day(n + k)
  {
  }

  /** A fractional day count is rounded up before it is added. */
  lemma AddFractionalDays(n: int)
    ensures AddDays(Day(n), 10.4) == Day(n + 11)
  {
  }

  /** `d` is not later than `e` (two empty dates are in order). */
  predicate NotAfter(d: Date, e: Date) {
    (d.Blank? && e.Blank?) || (d.Day? && e.Day? && d.n <= e.n)
  }

  /** The end dates of the sequential stages: each stage starts where the
      previous one ended and lasts its own duration. */
  datatype Chain = Chain(
    applied: Date,
    sanctionEnd: Date,
    capacityEnd: Date,
    submissionEnd: Date,
    validationEnd: Date)

  function DateChain(s: StudentData): (c: Chain)
    ensures c.applied == s.Date_Applied
    ensures NotAfter(c.applied, c.sanctionEnd) && NotAfter(c.sanctionEnd, c.capacityEnd)
    ensures NotAfter(c.capacityEnd, c.submissionEnd) && NotAfter(c.submissionEnd, c.validationEnd)
  {
    var sanctionEnd := AddDays(s.Date_Applied, s.Integrity_Check_Duration as real);
    var capacityEnd := AddDays(sanctionEnd, s.Days_On_Waitlist as real);
    var submissionEnd := AddDays(capacityEnd, s.Document_Submission_Time as real);
    var validationEnd := AddDays(submissionEnd, s.Institution_Validation_Time as real);
    Chain(s.Date_Applied, sanctionEnd, capacityEnd, submissionEnd, validationEnd)
  }

  /** Closed form of the chain: every end date is the application date plus
      the running total of the stage durations. */
  lemma {:induction false} DateChainOffsets(s: StudentData)
    ensures s.Date_Applied.Blank? ==> DateChain(s) == Chain(Blank, Blank, Blank, Blank, Blank)
    ensures s.Date_Applied.Day? ==>
      var n := s.Date_Applied.n;
      var t1 := n + s.Integrity_Check_Duration;
      var t2 := t1 + s.Days_On_Waitlist;
      var t3 := t2 + s.Document_Submission_Time;
      var t4 := t3 + s.Institution_Validation_Time;
      DateChain(s) == Chain(Day(n), Day(t1), Day(t2), Day(t3), Day(t4))
  {
    if s.Date_Applied.Day? {
      var n := s.Date_Applied.n;
      var t1 := n + s.Integrity_Check_Duration;
      var t2 := t1 + s.Days_On_Waitlist;
      var t3 := t2 + s.Document_Submission_Time;
      AddWholeDays(n, s.Integrity_Check_Duration);
      AddWholeDays(t1, s.Days_On_Waitlist);
      AddWholeDays(t2, s.Document_Submission_Time);
      AddWholeDays(t3, s.Institution_Validation_Time);
    }
  }

  /** Identity step: Failed unless verification succeeded; a success after
      more than three attempts is a Warning. */
  function IdentityStepStatus(s: StudentData): (r: StepStatus)
    ensures r == Failed <==> s.Identity_Verification_Status == IdFailed
    ensures r == Warning <==> s.Identity_Verification_Status == IdSuccess && s.Verification_Attempts > 3
  {
    match s.Identity_Verification_Status
    case IdSuccess => if s.Verification_Attempts > 3 then Warning else Success
    case IdFailed => Failed
  }

  /** Sanctions step: Failed when Blocked; a clearance that took more than
      the 10-day target is a Warning. */
  function SanctionStepStatus(s: StudentData): (r: StepStatus)
    ensures r == Failed <==> s.Sanction_Status == Blocked
    ensures r == Warning <==> s.Sanction_Status == Cleared && s.Integrity_Check_Duration > 10
  {
    match s.Sanction_Status
    case Cleared => if s.Integrity_Check_Duration > 10 then Warning else Success
    case Blocked => Failed
  }

  /** Capacity step: one status per capacity outcome. */
  function CapacityStepStatus(s: StudentData): (r: StepStatus)
    ensures r == Success <==> s.Capacity_Status == Accepted
    ensures r == Failed <==> s.Capacity_Status == CapRejected
    ensures r == Warning <==> s.Capacity_Status == Waitlisted
  {
    match s.Capacity_Status
    case Accepted => Success
    case CapRejected => Failed
    case Waitlisted => Warning
  }

  /** Document submission: a Warning past the 14-day target, never Failed. */
  function SubmissionStepStatus(s: StudentData): (r: StepStatus)
    ensures r != Failed
    ensures r == Warning <==> s.Document_Submission_Time > 14
  {
    if s.Document_Submission_Time > 14 then Warning else Success
  }

  /** Institution validation: a Warning past the 30-day target, never Failed. */
  function ValidationStepStatus(s: StudentData): (r: StepStatus)
    ensures r != Failed
    ensures r == Warning <==> s.Institution_Validation_Time > 30
  {
    if s.Institution_Validation_Time > 30 then Warning else Success
  }

  /** Final outcome: Success only for an enrolled applicant. */
  function FinalStepStatus(s: StudentData): (r: StepStatus)
    ensures r != Warning
    ensures r == Success <==> s.Final_Outcome == Enrolled
  {
    if s.Final_Outcome == Enrolled then Success else Failed
  }

  /** The thresholds are strict: a duration equal to its target is on time,
      one day more is a Warning. */
  lemma ThresholdsAreStrict(s: StudentData)
    requires s.Sanction_Status == Cleared
    ensures s.Integrity_Check_Duration == 10 ==> SanctionStepStatus(s) == Success
    ensures s.Integrity_Check_Duration == 11 ==> SanctionStepStatus(s) == Warning
    ensures s.Document_Submission_Time == 14 ==> SubmissionStepStatus(s) == Success
    ensures s.Document_Submission_Time == 15 ==> SubmissionStepStatus(s) == Warning
    ensures s.Institution_Validation_Time == 30 ==> ValidationStepStatus(s) == Success
    ensures s.Institution_Validation_Time == 31 ==> ValidationStepStatus(s) == Warning
  {
  }
}
