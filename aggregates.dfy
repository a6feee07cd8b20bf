/** The counters the pipeline and process-owner views share: the same funnel
    counts, SLA-violation counts and payment buckets appear in both, written
    with the same filters, so they are defined once here. */
module Aggregates {
  import opened Records
  import opened Seqs

  // ----- Funnel -----

  predicate IdentityPassed(d: StudentData) {
    d.Identity_Verification_Status == IdSuccess
  }

  predicate SanctionPassed(d: StudentData) {
    d.Identity_Verification_Status == IdSuccess && d.Sanction_Status == Cleared
  }

  predicate CapacityPassed(d: StudentData) {
    d.Identity_Verification_Status == IdSuccess && d.Sanction_Status == Cleared
    && d.Capacity_Status != CapRejected
  }

  predicate IsEnrolled(d: StudentData) {
    d.Final_Outcome == Enrolled
  }

  /** The five funnel counts: all applications, then those past each gate,
      then the enrolled ones. */
  datatype Funnel = Funnel(applied: nat, identity: nat, sanction: nat, capacity: nat, enrolled: nat)

  /** Each gate's count is taken over the whole data with the conjunction of
      every earlier gate, so the first four counts never increase. The
      enrolled count is not gated on the earlier stages. */
  function FunnelCounts(data: seq<StudentData>): (f: Funnel)
    ensures f.applied == |data|
    ensures f.identity == Count(data, IdentityPassed)
    ensures f.sanction == Count(data, SanctionPassed)
    ensures f.capacity == Count(data, CapacityPassed)
    ensures f.enrolled == Count(data, IsEnrolled)
    ensures f.capacity <= f.sanction <= f.identity <= f.applied
    ensures f.enrolled <= f.applied
  {
    CountMonotone(data, CapacityPassed, SanctionPassed);
    CountMonotone(data, SanctionPassed, IdentityPassed);
    Funnel(|data|, Count(data, IdentityPassed), Count(data, SanctionPassed),
           Count(data, CapacityPassed), Count(data, IsEnrolled))
  }

  /** One applicant whose identity check failed but who is recorded as
      enrolled: the enrolled count exceeds the capacity count. */
  lemma EnrolledNotGatedByFunnel()
    ensures var d := StudentData("S-1", Blank, IdFailed, 1, Cleared, 0, Accepted, 0, 0, 0, No, 0, 0, OnTime, 0, Enrolled);
      var f := FunnelCounts([d]);
      f.capacity == 0 && f.enrolled == 1
  {
    var d := StudentData("S-1", Blank, IdFailed, 1, Cleared, 0, Accepted, 0, 0, 0, No, 0, 0, OnTime, 0, Enrolled);
    CountCons(d, [], CapacityPassed);
    CountCons(d, [], IsEnrolled);
    assert [d] + [] == [d];
  }

  // ----- SLA violations -----

  /** A waitlist longer than the 14-day target. */
  predicate WaitlistViolation(d: StudentData) {
    d.Days_On_Waitlist > 14
  }

  /** An integrity check longer than the 10-day target. */
  predicate IntegrityViolation(d: StudentData) {
    d.Integrity_Check_Duration > 10
  }

  /** An institution validation longer than the 30-day target. */
  predicate ValidationViolation(d: StudentData) {
    d.Institution_Validation_Time > 30
  }

  datatype Violations = Violations(waitlist: nat, integrity: nat, validation: nat)

  function ViolationCounts(data: seq<StudentData>): (v: Violations)
    ensures v.waitlist == Count(data, WaitlistViolation) <= |data|
    ensures v.integrity == Count(data, IntegrityViolation) <= |data|
    ensures v.validation == Count(data, ValidationViolation) <= |data|
  {
    Violations(Count(data, WaitlistViolation), Count(data, IntegrityViolation),
               Count(data, ValidationViolation))
  }

  /** The thresholds are strict: for a single record, a duration equal to
      its target is not a violation and one day more is. */
  lemma {:induction false} ViolationThresholds(d: StudentData)
    ensures var v := ViolationCounts([d]);
      && (v.waitlist == 1 <==> d.Days_On_Waitlist >= 15)
      && (v.integrity == 1 <==> d.Integrity_Check_Duration >= 11)
      && (v.validation == 1 <==> d.Institution_Validation_Time >= 31)
  {
    assert [d] + [] == [d];
    CountCons(d, [], WaitlistViolation);
    CountCons(d, [], IntegrityViolation);
    CountCons(d, [], ValidationViolation);
  }

  // ----- Payment buckets -----

  predicate IsDelayed(d: StudentData) {
    d.Payment_Status == Delayed
  }

  predicate IsOnTime(d: StudentData) {
    d.Payment_Status == OnTime
  }

  /** "Incasso": four months or more behind. */
  predicate Critical(d: StudentData) {
    d.Months_Delayed >= 4
  }

  /** "Dunning": two or three months behind. */
  predicate Dunning(d: StudentData) {
    2 <= d.Months_Delayed < 4
  }

  predicate NotCritical(d: StudentData) {
    d.Months_Delayed < 4
  }

  predicate AtLeastTwo(d: StudentData) {
    d.Months_Delayed >= 2
  }

  /** Less than two months behind: in no arrears bucket. */
  predicate BelowTwo(d: StudentData) {
    d.Months_Delayed < 2
  }

  /** The payment pie: `onTime` is the enrolled count minus the delayed
      count; the two arrears buckets are taken among the delayed. */
  datatype Payments = Payments(enrolled: nat, delayed: nat, onTime: int, dunning: nat, critical: nat)

  function PaymentBuckets(data: seq<StudentData>): (p: Payments)
    ensures p.enrolled == Count(data, IsEnrolled)
    ensures p.onTime == Count(Filter(data, IsEnrolled), IsOnTime) >= 0
    ensures p.onTime + p.delayed == p.enrolled
    ensures p.delayed == Count(Filter(data, IsEnrolled), IsDelayed)
    ensures p.critical == Count(Filter(Filter(data, IsEnrolled), IsDelayed), Critical)
    ensures p.dunning == Count(Filter(Filter(data, IsEnrolled), IsDelayed), Dunning)
    ensures p.critical + p.dunning <= p.delayed
    ensures p.critical + p.dunning + Count(Filter(Filter(data, IsEnrolled), IsDelayed), BelowTwo) == p.delayed
  {
    var enrolled := Filter(data, IsEnrolled);
    var delayed := Filter(enrolled, IsDelayed);
    FilterComplement(enrolled, IsOnTime, IsDelayed);
    ArrearsSplit(delayed);
    Payments(|enrolled|, |delayed|, |enrolled| - |delayed|, Count(delayed, Dunning), Count(delayed, Critical))
  }

  /** The delayed payments fall into exactly one of: critical, dunning,
      under two months. */
  lemma ArrearsSplit(delayed: seq<StudentData>)
    ensures Count(delayed, Critical) + Count(delayed, Dunning) + Count(delayed, BelowTwo) == |delayed|
  {
    FilterComplement(delayed, Critical, NotCritical);
    CountSplit(delayed, NotCritical, Dunning, BelowTwo, AtLeastTwo);
  }

  /** No payment is in both arrears buckets. */
  lemma ArrearsBucketsDisjoint(d: StudentData)
    ensures !(Critical(d) && Dunning(d))
    ensures Critical(d) || Dunning(d) || BelowTwo(d)
  {
  }

  /** One enrolled applicant one month behind: the three pie slices add up
      to less than the enrolled count. */
  lemma {:induction false} PieCanFallShort()
    ensures var d := StudentData("S-2", Blank, IdSuccess, 1, Cleared, 0, Accepted, 0, 0, 0, No, 0, 0, Delayed, 1, Enrolled);
      var p := PaymentBuckets([d]);
      p.enrolled == 1 && p.onTime + p.dunning + p.critical == 0
  {
    var d := StudentData("S-2", Blank, IdSuccess, 1, Cleared, 0, Accepted, 0, 0, 0, No, 0, 0, Delayed, 1, Enrolled);
    var p := PaymentBuckets([d]);
    assert [d] + [] == [d];
    CountCons(d, [], IsEnrolled);
    CountCons(d, [], IsOnTime);
    assert Filter([d], IsEnrolled) == [d];
    ArrearsSplit([d]);
    CountCons(d, [], BelowTwo);
  }

  // ----- Scholarship requests -----

  predicate Requested(d: StudentData) {
    d.Scholarship_Requested == Yes
  }
}
