/** The applicant record shared by every view of the dashboard.
    Each string-literal union of the TypeScript types becomes a closed datatype; the
    string each constructor stands for is given by the `*Name` functions, which
    the views use when they print a value or compare values as text. */
module Records {
  import Text

  datatype Option<T> = None | Some(value: T)

  datatype IdentityStatus = IdSuccess | IdFailed
  datatype SanctionStatus = Blocked | Cleared
  datatype CapacityStatus = Accepted | Waitlisted | CapRejected
  datatype ScholarshipRequested = Yes | No
  datatype PaymentStatus = OnTime | Delayed
  datatype FinalOutcome = Enrolled | Rejected | FraudBlacklist | Expired

  /** A calendar date as a day number. `Blank` is the empty date string. */
  datatype Date = Blank | Day(n: int)

  datatype StudentData = StudentData(
    Applicant_ID: string,
    Date_Applied: Date,
    Identity_Verification_Status: IdentityStatus,
    Verification_Attempts: nat,
    Sanction_Status: SanctionStatus,
    Integrity_Check_Duration: nat,
    Capacity_Status: CapacityStatus,
    Days_On_Waitlist: nat,
    Document_Submission_Time: nat,
    Institution_Validation_Time: nat,
    Scholarship_Requested: ScholarshipRequested,
    Scholarship_Amount: nat,
    Scholarship_Approval_Time: nat,
    Payment_Status: PaymentStatus,
    Months_Delayed: nat,
    Final_Outcome: FinalOutcome
  )

  function IdentityName(v: IdentityStatus): string {
    match v
    case IdSuccess => "Success"
    case IdFailed => "Failed"
  }

  function SanctionName(v: SanctionStatus): string {
    match v
    case Blocked => "Blocked"
    case Cleared => "Cleared"
  }

  function CapacityName(v: CapacityStatus): string {
    match v
    case Accepted => "Accepted"
    case Waitlisted => "Waitlisted"
    case CapRejected => "Rejected"
  }

  function ScholarshipName(v: ScholarshipRequested): string {
    match v
    case Yes => "Yes"
    case No => "No"
  }

  function PaymentName(v: PaymentStatus): string {
    match v
    case OnTime => "On Time"
    case Delayed => "Delayed"
  }

  function OutcomeName(v: FinalOutcome): string {
    match v
    case Enrolled => "Enrolled"
    case Rejected => "Rejected"
    case FraudBlacklist => "Fraud_Blacklist"
    case Expired => "Expired"
  }

  /** The search used by the record table and the journey search box: the
      identifier contains the term, ignoring case. */
  predicate IdMatches(d: StudentData, term: string) {
    Text.ContainsIgnoringCase(d.Applicant_ID, term)
  }

  function IdMatcher(term: string): StudentData -> bool {
    d => IdMatches(d, term)
  }

  /** The empty term matches every record. */
  lemma EmptyTermMatchesAll(d: StudentData)
    ensures IdMatches(d, "")
  {
    Text.ContainsEmpty(Text.Lower(d.Applicant_ID));
    assert Text.Lower("") == "";
  }
}
