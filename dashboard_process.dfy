/** The process-owner view: the same funnel counts as the pipeline view,
    listed without drops, and the scholarship scatter as bare
    (amount, time) points. Its violation counts and payment buckets are
    those of `Aggregates`. */
module DashboardProcess {
  import opened Records
  import opened Seqs
  import opened Aggregates

  datatype StageCount = StageCount(stage: string, count: nat)

  /** The five funnel stages in their fixed order, each stage's count no
      larger than the one before up to the capacity stage. */
  function ProcessFunnel(data: seq<StudentData>): (r: seq<StageCount>)
    ensures |r| == 5
    ensures r[0].stage == "1. Applied" && r[1].stage == "2. ID Verified" && r[2].stage == "3. Sanctions Clr"
    ensures r[3].stage == "4. Cap. Accepted" && r[4].stage == "5. Enrolled"
    ensures r[0].count == |data|
    ensures r[1].count == Count(data, IdentityPassed)
    ensures r[2].count == Count(data, SanctionPassed)
    ensures r[3].count == Count(data, CapacityPassed)
    ensures forall i, j :: 0 <= i <= j < 4 ==> r[j].count <= r[i].count
    ensures r[4].count == Count(data, IsEnrolled) <= |data|
  {
    var f := FunnelCounts(data);
    [
      StageCount("1. Applied", f.applied),
      StageCount("2. ID Verified", f.identity),
      StageCount("3. Sanctions Clr", f.sanction),
      StageCount("4. Cap. Accepted", f.capacity),
      StageCount("5. Enrolled", f.enrolled)
    ]
  }

  datatype AmountTime = AmountTime(amount: nat, time: nat)

  function AmountTimeOf(d: StudentData): AmountTime {
    AmountTime(d.Scholarship_Amount, d.Scholarship_Approval_Time)
  }

  /** One point per scholarship request, in data order. */
  function ScholarshipPoints(data: seq<StudentData>): (r: seq<AmountTime>)
    ensures |r| == Count(data, Requested)
  {
    Map(Filter(data, Requested), AmountTimeOf)
  }

  /** Every point comes from a requesting record, and every requesting
      record gives a point. */
  lemma {:induction false} ScholarshipPointsExact(data: seq<StudentData>)
    ensures forall p :: p in ScholarshipPoints(data) <==>
              exists d :: d in data && Requested(d) && p == AmountTimeOf(d)
  {
    var yes := Filter(data, Requested);
    var r := ScholarshipPoints(data);
    forall p ensures p in r <==> exists d :: d in data && Requested(d) && p == AmountTimeOf(d) {
      if p in r {
        var i :| 0 <= i < |r| && r[i] == p;
        FilterMembership(data, Requested, yes[i]);
      }
      if exists d :: d in data && Requested(d) && p == AmountTimeOf(d) {
        var d :| d in data && Requested(d) && p == AmountTimeOf(d);
        FilterMembership(data, Requested, d);
        var i :| 0 <= i < |yes| && yes[i] == d;
        assert r[i] == p;
      }
    }
  }
}
