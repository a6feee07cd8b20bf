/** The KPI view: fraud cases, waitlist conversion, the cycle-time histogram
    (filled by a loop that increments one bin per record), the dunning rate
    and the scholarship turnaround divisor. */
module DashboardKPI {
  import opened Records
  import opened Seqs
  import opened Aggregates

  // ----- Fraud -----

  /** Flagged as possible fraud: more than three verification attempts, or a
      failed identity check. */
  predicate FraudCase(d: StudentData) {
    d.Verification_Attempts > 3 || d.Identity_Verification_Status == IdFailed
  }

  predicate IdentityFailed(d: StudentData) {
    d.Identity_Verification_Status == IdFailed
  }

  /** More than three attempts on a check that did not fail. */
  predicate ManyAttemptsOnly(d: StudentData) {
    d.Verification_Attempts > 3 && d.Identity_Verification_Status != IdFailed
  }

  /** The fraud cases are the failed checks plus the records flagged only
      for their attempt count. */
  function FraudCases(data: seq<StudentData>): (n: nat)
    ensures n <= |data|
    ensures n == Count(data, IdentityFailed) + Count(data, ManyAttemptsOnly)
  {
    CountSplit(data, FraudCase, IdentityFailed, ManyAttemptsOnly, IdentityFailed);
    Count(data, FraudCase)
  }

  /** When every record with more than three attempts also failed the
      identity check, as generated data guarantees, the fraud count is the
      count of failed identity checks. */
  lemma FraudCasesAreFailedChecks(data: seq<StudentData>)
    requires forall i :: 0 <= i < |data| ==>
      data[i].Verification_Attempts > 3 ==> data[i].Identity_Verification_Status == IdFailed
    ensures FraudCases(data) == Count(data, IdentityFailed)
  {
    FilterAgree(data, FraudCase, IdentityFailed);
  }

  // ----- Rates -----

  /** A rate shown as a percentage: the literal `'0'` when the population is
      empty, otherwise the fraction `part / whole`. */
  datatype Rate = ZeroRate | Ratio(part: nat, whole: nat)

  predicate Waitlisted(d: StudentData) {
    d.Days_On_Waitlist > 0
  }

  function WaitlistConversion(data: seq<StudentData>): (r: Rate)
    ensures r.ZeroRate? <==> Count(data, Waitlisted) == 0
    ensures r.Ratio? ==> 0 < r.whole == Count(data, Waitlisted) && r.part <= r.whole
    ensures r.Ratio? ==> r.part == Count(Filter(data, Waitlisted), IsEnrolled)
  {
    var waitlisted := Filter(data, Waitlisted);
    if |waitlisted| > 0 then Ratio(Count(waitlisted, IsEnrolled), |waitlisted|) else ZeroRate
  }

  /** The waitlisted-and-enrolled count is the count of records that are
      both, taken over the whole data. */
  lemma WaitlistedAndEnrolled(data: seq<StudentData>)
    ensures Count(Filter(data, Waitlisted), IsEnrolled) == Count(data, WaitlistedEnrolled)
  {
    FilterFilter(data, Waitlisted, IsEnrolled, WaitlistedEnrolled);
  }

  predicate WaitlistedEnrolled(d: StudentData) {
    d.Days_On_Waitlist > 0 && d.Final_Outcome == Enrolled
  }

  /** A dunning case in this view: enrolled, delayed, and more than two
      months behind. */
  predicate DunningCase(d: StudentData) {
    d.Payment_Status == Delayed && d.Months_Delayed > 2
  }

  function DunningRate(data: seq<StudentData>): (r: Rate)
    ensures r.ZeroRate? <==> Count(data, IsEnrolled) == 0
    ensures r.Ratio? ==> 0 < r.whole == Count(data, IsEnrolled) && r.part <= r.whole
    ensures r.Ratio? ==> r.part == Count(Filter(data, IsEnrolled), DunningCase)
  {
    var enrolled := Filter(data, IsEnrolled);
    if |enrolled| > 0 then Ratio(Count(enrolled, DunningCase), |enrolled|) else ZeroRate
  }

  /** This view's dunning threshold is strict: two months behind is not a
      dunning case here, while the pipeline view's dunning bucket counts it. */
  lemma DunningThresholdDiffers(d: StudentData)
    requires d.Payment_Status == Delayed && d.Months_Delayed == 2
    ensures !DunningCase(d) && Dunning(d)
  {
  }

  /** The divisor of the average scholarship turnaround: the number of
      requests, or 1 when there are none. */
  function ScholarshipDivisor(data: seq<StudentData>): (n: nat)
    ensures n >= 1
    ensures Count(data, Requested) > 0 ==> n == Count(data, Requested)
    ensures Count(data, Requested) == 0 ==> n == 1
  {
    var requests := Count(data, Requested);
    if requests == 0 then 1 else requests
  }

  // ----- Cycle times -----

  /** A record's total cycle time: document submission plus validation. */
  datatype CycleTime = CycleTime(id: string, totalTime: nat, outcome: FinalOutcome)

  function CycleOf(d: StudentData): CycleTime {
    CycleTime(d.Applicant_ID, d.Document_Submission_Time + d.Institution_Validation_Time, d.Final_Outcome)
  }

  function CycleTimes(data: seq<StudentData>): (r: seq<CycleTime>)
    ensures |r| == |data|
    ensures forall i :: 0 <= i < |r| ==>
      r[i].id == data[i].Applicant_ID && r[i].outcome == data[i].Final_Outcome
      && r[i].totalTime == data[i].Document_Submission_Time + data[i].Institution_Validation_Time
  {
    Map(data, CycleOf)
  }

  /** The histogram bin of a cycle time: under 20 days, 20 to under 40,
      40 to under 60, and 60 or more. */
  function BinOf(t: nat): (b: nat)
    ensures b < 4
    ensures b == 0 <==> t < 20
    ensures b == 1 <==> 20 <= t < 40
    ensures b == 2 <==> 40 <= t < 60
    ensures b == 3 <==> 60 <= t
  {
    if t < 20 then 0 else if t < 40 then 1 else if t < 60 then 2 else 3
  }

  function InBin(b: nat): CycleTime -> bool {
    (c: CycleTime) => BinOf(c.totalTime) == b
  }

  function BinNames(): seq<string> {
    ["< 20 Days", "20-40 Days", "40-60 Days", "> 60 Days"]
  }

  datatype Bin = Bin(name: string, count: nat)

  /** The bin counts of a list of cycle times, taking the times one at a
      time from the front as the loop below does. */
  function BinCounts(cycles: seq<CycleTime>): (r: seq<nat>)
    ensures |r| == 4
    decreases |cycles|
  {
    if cycles == [] then [0, 0, 0, 0]
    else
      var r := BinCounts(cycles[..|cycles| - 1]);
      var b := BinOf(cycles[|cycles| - 1].totalTime);
      r[b := r[b] + 1]
  }

  /** Helper: taking one more cycle time adds one to its bin. */
  lemma BinCountsStep(cycles: seq<CycleTime>, i: nat)
    requires i < |cycles|
    ensures var b := BinOf(cycles[i].totalTime);
      BinCounts(cycles[..i + 1]) == BinCounts(cycles[..i])[b := BinCounts(cycles[..i])[b] + 1]
  {
    assert cycles[..i + 1][..i] == cycles[..i];
  }

  /** The four bins start at zero and each cycle time increments exactly
      one of them. */
  method Histogram(cycles: seq<CycleTime>) returns (bins: seq<Bin>)
    ensures |bins| == 4
    ensures forall b :: 0 <= b < 4 ==> bins[b].name == BinNames()[b]
    ensures forall b :: 0 <= b < 4 ==> bins[b].count == BinCounts(cycles)[b]
    ensures bins[0].count + bins[1].count + bins[2].count + bins[3].count == |cycles|
  {
    var counts := new nat[4](_ => 0);
    var i := 0;
    assert counts[..] == [0, 0, 0, 0];
    while i < |cycles|
      invariant 0 <= i <= |cycles|
      invariant counts[..] == BinCounts(cycles[..i])
    {
      var t := cycles[i].totalTime;
      ghost var before := counts[..];
      ghost var b := BinOf(t);
      BinCountsStep(cycles, i);
      if t < 20 {
        counts[0] := counts[0] + 1;
      } else if t < 40 {
        counts[1] := counts[1] + 1;
      } else if t < 60 {
        counts[2] := counts[2] + 1;
      } else {
        counts[3] := counts[3] + 1;
      }
      assert counts[..] == before[b := before[b] + 1];
      i := i + 1;
    }
    assert cycles[..i] == cycles;
    BinsSumToTotal(cycles);
    bins := [Bin("< 20 Days", counts[0]), Bin("20-40 Days", counts[1]),
             Bin("40-60 Days", counts[2]), Bin("> 60 Days", counts[3])];
  }

  /** Each bin holds exactly the cycle times in its range: the loop's count
      for a bin is the count of the filter by that bin. */
  lemma {:induction false} BinCountIsFilterCount(cycles: seq<CycleTime>, b: nat)
    requires b < 4
    ensures BinCounts(cycles)[b] == Count(cycles, InBin(b))
    decreases |cycles|
  {
    if cycles != [] {
      var init, c := cycles[..|cycles| - 1], cycles[|cycles| - 1];
      BinCountIsFilterCount(init, b);
      assert cycles == init + [c];
      CountSnoc(init, c, InBin(b));
    }
  }

  /** Every cycle time lies in exactly one bin, so the bin counts add up to
      the number of records. */
  lemma {:induction false} BinsSumToTotal(cycles: seq<CycleTime>)
    ensures var r := BinCounts(cycles); r[0] + r[1] + r[2] + r[3] == |cycles|
    decreases |cycles|
  {
    if cycles != [] {
      BinsSumToTotal(cycles[..|cycles| - 1]);
    }
  }

  predicate EnrolledCycle(c: CycleTime) {
    c.outcome == Enrolled
  }

  predicate OtherCycle(c: CycleTime) {
    c.outcome != Enrolled
  }

  /** The "Enrolled" and "Rejected/Expired" scatter series split the cycle
      times between them, and the first has one point per enrolled record. */
  lemma CycleScatterPartition(data: seq<StudentData>)
    ensures multiset(Filter(CycleTimes(data), EnrolledCycle)) + multiset(Filter(CycleTimes(data), OtherCycle))
            == multiset(CycleTimes(data))
    ensures Count(CycleTimes(data), EnrolledCycle) + Count(CycleTimes(data), OtherCycle) == |data|
    ensures Count(CycleTimes(data), EnrolledCycle) == Count(data, IsEnrolled)
  {
    var cycles := CycleTimes(data);
    FilterComplement(cycles, EnrolledCycle, OtherCycle);
    EnrolledCyclesCount(data);
  }

  /** Helper: mapping to cycle times keeps the enrolled count. */
  lemma {:induction false} EnrolledCyclesCount(data: seq<StudentData>)
    ensures Count(CycleTimes(data), EnrolledCycle) == Count(data, IsEnrolled)
  {
    if data != [] {
      EnrolledCyclesCount(data[1..]);
      assert data == [data[0]] + data[1..];
      MapAppend([data[0]], data[1..], CycleOf);
      assert CycleTimes([data[0]]) == [CycleOf(data[0])];
      CountCons(CycleOf(data[0]), CycleTimes(data[1..]), EnrolledCycle);
      CountCons(data[0], data[1..], IsEnrolled);
    }
  }
}
