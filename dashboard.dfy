/** The pipeline view: the conversion funnel with the drop at each stage,
    and the scholarship scatter split into standard and review-needed
    amounts. Its violation counts and payment buckets are those of
    `Aggregates`. */
module Dashboard {
  import opened Records
  import opened Seqs
  import opened Aggregates

  /** One bar of the funnel: the count at the stage and how many fewer than
      at the stage before. */
  datatype FunnelRow = FunnelRow(stage: string, count: nat, drop: int)

  function FunnelData(data: seq<StudentData>): (rows: seq<FunnelRow>)
    ensures |rows| == 5
    ensures rows[0].stage == "1. Applied" && rows[1].stage == "2. ID Verified" && rows[2].stage == "3. Sanctions Clr"
    ensures rows[3].stage == "4. Cap. Accepted" && rows[4].stage == "5. Enrolled"
    ensures rows[0].count == |data| && rows[0].drop == 0
    ensures rows[1].count == Count(data, IdentityPassed)
    ensures rows[2].count == Count(data, SanctionPassed)
    ensures rows[3].count == Count(data, CapacityPassed)
    ensures forall i :: 1 <= i < 5 ==> rows[i].drop == rows[i - 1].count - rows[i].count
    ensures forall i :: 1 <= i < 4 ==> rows[i].drop >= 0
    ensures rows[4].count == Count(data, IsEnrolled)
  {
    var f := FunnelCounts(data);
    [
      FunnelRow("1. Applied", f.applied, 0),
      FunnelRow("2. ID Verified", f.identity, f.applied - f.identity),
      FunnelRow("3. Sanctions Clr", f.sanction, f.identity - f.sanction),
      FunnelRow("4. Cap. Accepted", f.capacity, f.sanction - f.capacity),
      FunnelRow("5. Enrolled", f.enrolled, f.capacity - f.enrolled)
    ]
  }

  /** The last drop compares the enrolled count with the capacity count, and
      the enrolled count is not gated on the earlier stages: it can be
      negative. */
  lemma {:induction false} EnrolledDropCanBeNegative()
    ensures var d := StudentData("S-1", Blank, IdFailed, 1, Cleared, 0, Accepted, 0, 0, 0, No, 0, 0, OnTime, 0, Enrolled);
      FunnelData([d])[4].drop == -1
  {
    EnrolledNotGatedByFunnel();
  }

  /** One point of the scholarship scatter. */
  datatype ScholarshipPoint = ScholarshipPoint(amount: nat, time: nat, status: FinalOutcome)

  function PointOf(d: StudentData): ScholarshipPoint {
    ScholarshipPoint(d.Scholarship_Amount, d.Scholarship_Approval_Time, d.Final_Outcome)
  }

  /** One point per scholarship request, in data order. */
  function ScholarshipData(data: seq<StudentData>): (r: seq<ScholarshipPoint>)
    ensures |r| == Count(data, Requested)
  {
    Map(Filter(data, Requested), PointOf)
  }

  /** The points of a record list are those of its parts, in order. */
  lemma ScholarshipDataAppend(a: seq<StudentData>, b: seq<StudentData>)
    ensures ScholarshipData(a + b) == ScholarshipData(a) + ScholarshipData(b)
  {
    FilterAppend(a, b, Requested);
    MapAppend(Filter(a, Requested), Filter(b, Requested), PointOf);
  }

  /** A single record gives its point exactly when it requested a
      scholarship. */
  lemma ScholarshipDataSingle(d: StudentData)
    ensures ScholarshipData([d]) == if d.Scholarship_Requested == Yes then [PointOf(d)] else []
  {
    assert [d][1..] == [];
  }

  /** "Standard": within the $200 limit, or exactly the $300 exception. */
  predicate Standard(p: ScholarshipPoint) {
    p.amount <= 200 || p.amount == 300
  }

  /** "Review Needed": above $200 and not the $300 exception. */
  predicate ReviewNeeded(p: ScholarshipPoint) {
    p.amount > 200 && p.amount != 300
  }

  /** The two scatter series split the points between them: each point is in
      exactly one, and together they hold every point. */
  lemma StandardReviewPartition(points: seq<ScholarshipPoint>)
    ensures multiset(Filter(points, Standard)) + multiset(Filter(points, ReviewNeeded)) == multiset(points)
    ensures Count(points, Standard) + Count(points, ReviewNeeded) == |points|
    ensures forall p :: !(Standard(p) && ReviewNeeded(p))
  {
    FilterComplement(points, Standard, ReviewNeeded);
  }
}
