/** The basic view: outcome and capacity tallies, the submission/validation
    scatter, and the three lists of active alerts. */
module DashboardBasic {
  import opened Records
  import opened Seqs
  import opened Aggregates

  datatype Slice = Slice(name: string, value: nat)

  predicate IsRejected(d: StudentData) {
    d.Final_Outcome == Rejected
  }

  predicate IsFraud(d: StudentData) {
    d.Final_Outcome == FraudBlacklist
  }

  predicate IsExpired(d: StudentData) {
    d.Final_Outcome == Expired
  }

  /** The blacklisted records. */
  function FraudCount(data: seq<StudentData>): (n: nat)
    ensures n == Count(data, IsFraud)
    ensures n + Count(data, IsEnrolled) <= |data|
  {
    OutcomeCountsSum(data);
    Count(data, IsFraud)
  }

  /** The outcome pie: one slice per final outcome. Every record has exactly
      one outcome, so the slices add up to the number of records. */
  function OutcomeData(data: seq<StudentData>): (r: seq<Slice>)
    ensures |r| == 4
    ensures r[0].name == "Enrolled" && r[1].name == "Rejected" && r[2].name == "Fraud" && r[3].name == "Expired"
    ensures r[0].value == Count(data, IsEnrolled) && r[1].value == Count(data, IsRejected)
    ensures r[2].value == FraudCount(data) && r[3].value == Count(data, IsExpired)
    ensures r[0].value + r[1].value + r[2].value + r[3].value == |data|
  {
    OutcomeCountsSum(data);
    [Slice("Enrolled", Count(data, IsEnrolled)), Slice("Rejected", Count(data, IsRejected)),
     Slice("Fraud", FraudCount(data)), Slice("Expired", Count(data, IsExpired))]
  }

  lemma {:induction false} OutcomeCountsSum(data: seq<StudentData>)
    ensures Count(data, IsEnrolled) + Count(data, IsRejected) + Count(data, IsFraud)
            + Count(data, IsExpired) == |data|
  {
    if data != [] {
      OutcomeCountsSum(data[1..]);
      assert data == [data[0]] + data[1..];
      CountCons(data[0], data[1..], IsEnrolled);
      CountCons(data[0], data[1..], IsRejected);
      CountCons(data[0], data[1..], IsFraud);
      CountCons(data[0], data[1..], IsExpired);
    }
  }

  predicate CapacityAccepted(d: StudentData) {
    d.Capacity_Status == Accepted
  }

  predicate CapacityRejected(d: StudentData) {
    d.Capacity_Status == CapRejected
  }

  predicate CapacityWaitlisted(d: StudentData) {
    d.Capacity_Status == Waitlisted
  }

  /** The capacity chart: one bar per capacity status, adding up to the
      number of records. */
  function CapacityData(data: seq<StudentData>): (r: seq<Slice>)
    ensures |r| == 3
    ensures r[0].name == "Accepted" && r[1].name == "Rejected" && r[2].name == "Waitlisted"
    ensures r[0].value == Count(data, CapacityAccepted)
    ensures r[1].value == Count(data, CapacityRejected)
    ensures r[2].value == Count(data, CapacityWaitlisted)
    ensures r[0].value + r[1].value + r[2].value == |data|
  {
    CapacityCountsSum(data);
    [Slice("Accepted", Count(data, CapacityAccepted)), Slice("Rejected", Count(data, CapacityRejected)),
     Slice("Waitlisted", Count(data, CapacityWaitlisted))]
  }

  lemma {:induction false} CapacityCountsSum(data: seq<StudentData>)
    ensures Count(data, CapacityAccepted) + Count(data, CapacityRejected) + Count(data, CapacityWaitlisted) == |data|
  {
    if data != [] {
      CapacityCountsSum(data[1..]);
      assert data == [data[0]] + data[1..];
      CountCons(data[0], data[1..], CapacityAccepted);
      CountCons(data[0], data[1..], CapacityRejected);
      CountCons(data[0], data[1..], CapacityWaitlisted);
    }
  }

  /** One point of the submission/validation scatter. */
  datatype ScatterPoint = ScatterPoint(x: nat, y: nat, status: FinalOutcome)

  function ScatterOf(d: StudentData): ScatterPoint {
    ScatterPoint(d.Document_Submission_Time, d.Institution_Validation_Time, d.Final_Outcome)
  }

  /** One point per record, in data order. */
  function ScatterData(data: seq<StudentData>): (r: seq<ScatterPoint>)
    ensures |r| == |data|
    ensures forall i :: 0 <= i < |r| ==>
      r[i].x == data[i].Document_Submission_Time && r[i].y == data[i].Institution_Validation_Time
      && r[i].status == data[i].Final_Outcome
  {
    Map(data, ScatterOf)
  }

  // ----- Alerts -----

  /** A payment alert is raised for a payment delayed two months or more,
      enrolled or not. */
  predicate PaymentAlertDue(d: StudentData) {
    d.Payment_Status == Delayed && d.Months_Delayed >= 2
  }

  datatype AlertBadge = Collection | DunningBadge

  datatype PaymentAlert = PaymentAlert(id: string, badge: AlertBadge, months: nat)

  function PaymentAlertOf(d: StudentData): PaymentAlert {
    PaymentAlert(d.Applicant_ID, if d.Months_Delayed >= 4 then Collection else DunningBadge, d.Months_Delayed)
  }

  /** The payment alerts: one per qualifying record, in data order, labelled
      COLLECTION from four months on and DUNNING below. */
  function PaymentAlerts(data: seq<StudentData>): (r: seq<PaymentAlert>)
    ensures |r| == Count(data, PaymentAlertDue)
    ensures forall i :: 0 <= i < |r| ==> r[i].months >= 2
    ensures forall i :: 0 <= i < |r| ==> (r[i].badge == Collection <==> r[i].months >= 4)
  {
    Map(Filter(data, PaymentAlertDue), PaymentAlertOf)
  }

  /** The alerts of a record list are those of its parts, in order. */
  lemma PaymentAlertsAppend(a: seq<StudentData>, b: seq<StudentData>)
    ensures PaymentAlerts(a + b) == PaymentAlerts(a) + PaymentAlerts(b)
  {
    FilterAppend(a, b, PaymentAlertDue);
    MapAppend(Filter(a, PaymentAlertDue), Filter(b, PaymentAlertDue), PaymentAlertOf);
  }

  /** A single record raises an alert exactly when its payment is delayed
      two months or more. */
  lemma PaymentAlertsSingle(d: StudentData)
    ensures PaymentAlerts([d]) == if d.Payment_Status == Delayed && d.Months_Delayed >= 2
                                  then [PaymentAlertOf(d)] else []
  {
    assert [d][1..] == [];
  }

  /** The waitlist alerts: the records waiting longer than 14 days. */
  function WaitlistAlerts(data: seq<StudentData>): (r: seq<StudentData>)
    ensures forall i :: 0 <= i < |r| ==> r[i].Days_On_Waitlist > 14
    ensures multiset(r) <= multiset(data)
  {
    Filter(data, WaitlistViolation)
  }

  /** The integrity alerts: the records whose check took longer than 10 days. */
  function IntegrityAlerts(data: seq<StudentData>): (r: seq<StudentData>)
    ensures forall i :: 0 <= i < |r| ==> r[i].Integrity_Check_Duration > 10
    ensures multiset(r) <= multiset(data)
  {
    Filter(data, IntegrityViolation)
  }

  /** A record is listed exactly when it is past the target. */
  lemma AlertSelection(data: seq<StudentData>, d: StudentData)
    ensures d in WaitlistAlerts(data) <==> d in data && d.Days_On_Waitlist > 14
    ensures d in IntegrityAlerts(data) <==> d in data && d.Integrity_Check_Duration > 10
  {
    FilterMembership(data, WaitlistViolation, d);
    FilterMembership(data, IntegrityViolation, d);
  }
}
