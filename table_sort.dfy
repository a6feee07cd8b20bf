/** The record table's column sort: a comparator on one field of the record,
    ascending or descending, applied with `Array.prototype.sort`, which
    JavaScript requires to be stable. The sort is modelled as a stable
    insertion sort that works in place on the array. */
module TableSort {
  import opened Records
  import opened Text

  /** Any field of the record may be the sort key. */
  datatype SortKey =
    | ApplicantId | DateApplied | IdentityVerificationStatus | VerificationAttempts
    | SanctionStatusKey | IntegrityCheckDuration | CapacityStatusKey | DaysOnWaitlist
    | DocumentSubmissionTime | InstitutionValidationTime | ScholarshipRequestedKey
    | ScholarshipAmount | ScholarshipApprovalTime | PaymentStatusKey | MonthsDelayed
    | FinalOutcomeKey

  datatype SortDirection = Asc | Desc

  datatype SortConfig = SortConfig(key: SortKey, direction: SortDirection)

  /** The value `a[key]` as JavaScript compares it: numbers as numbers,
      string fields as strings, and the ISO application date, whose string
      order is its calendar order, as a date. */
  datatype KeyValue = Num(n: int) | Str(s: string) | When(d: Date)

  /** The kind of value a column holds: 0 numbers, 1 strings, 2 dates. */
  function KeyRank(key: SortKey): nat {
    match key
    case ApplicantId | IdentityVerificationStatus | SanctionStatusKey | CapacityStatusKey
       | ScholarshipRequestedKey | PaymentStatusKey | FinalOutcomeKey => 1
    case DateApplied => 2
    case _ => 0
  }

  /** Every record's value in one column has the column's kind. */
  function KeyOf(d: StudentData, key: SortKey): (v: KeyValue)
    ensures Rank(v) == KeyRank(key)
  {
    match key
    case ApplicantId => Str(d.Applicant_ID)
    case DateApplied => When(d.Date_Applied)
    case IdentityVerificationStatus => Str(IdentityName(d.Identity_Verification_Status))
    case VerificationAttempts => Num(d.Verification_Attempts)
    case SanctionStatusKey => Str(SanctionName(d.Sanction_Status))
    case IntegrityCheckDuration => Num(d.Integrity_Check_Duration)
    case CapacityStatusKey => Str(CapacityName(d.Capacity_Status))
    case DaysOnWaitlist => Num(d.Days_On_Waitlist)
    case DocumentSubmissionTime => Num(d.Document_Submission_Time)
    case InstitutionValidationTime => Num(d.Institution_Validation_Time)
    case ScholarshipRequestedKey => Str(ScholarshipName(d.Scholarship_Requested))
    case ScholarshipAmount => Num(d.Scholarship_Amount)
    case ScholarshipApprovalTime => Num(d.Scholarship_Approval_Time)
    case PaymentStatusKey => Str(PaymentName(d.Payment_Status))
    case MonthsDelayed => Num(d.Months_Delayed)
    case FinalOutcomeKey => Str(OutcomeName(d.Final_Outcome))
  }

  function Rank(v: KeyValue): nat {
    match v
    case Num(_) => 0
    case Str(_) => 1
    case When(_) => 2
  }

  /** `a[key] < b[key]`. Two values of one key always have the same kind;
      values of different kinds are ordered by kind only to keep the order
      total. */
  predicate KeyLess(x: KeyValue, y: KeyValue) {
    match (x, y)
    case (Num(a), Num(b)) => a < b
    case (Str(a), Str(b)) => TextLess(a, b)
    case (When(a), When(b)) =>
      (a.Blank? && b.Day?) || (a.Day? && b.Day? && a.n < b.n)
    case _ => Rank(x) < Rank(y)
  }

  /** Two records' values in one column are of the same kind, so `KeyLess`
      compares them as numbers, as strings or as dates, and its fallback on
      the kind never decides. */
  lemma ColumnCompare(a: StudentData, b: StudentData, key: SortKey)
    ensures var x, y := KeyOf(a, key), KeyOf(b, key);
      && (x.Num? ==> y.Num? && (KeyLess(x, y) <==> x.n < y.n))
      && (x.Str? ==> y.Str? && (KeyLess(x, y) <==> TextLess(x.s, y.s)))
      && (x.When? ==> y.When? && (KeyLess(x, y) <==> (x.d.Blank? && y.d.Day?) || (x.d.Day? && y.d.Day? && x.d.n < y.d.n)))
  {
    var x, y := KeyOf(a, key), KeyOf(b, key);
    assert Rank(x) == Rank(y);
  }

  lemma KeyLessIrreflexive(x: KeyValue)
    ensures !KeyLess(x, x)
  {
    if x.Str? {
      TextLessIrreflexive(x.s);
    }
  }

  lemma KeyLessTransitive(x: KeyValue, y: KeyValue, z: KeyValue)
    requires KeyLess(x, y) && KeyLess(y, z)
    ensures KeyLess(x, z)
  {
    if x.Str? && y.Str? && z.Str? {
      TextLessTransitive(x.s, y.s, z.s);
    }
  }

  lemma KeyLessTotal(x: KeyValue, y: KeyValue)
    requires x != y
    ensures KeyLess(x, y) || KeyLess(y, x)
  {
    if x.Str? && y.Str? {
      TextLessTotal(x.s, y.s);
    }
  }

  /** The comparator returns a negative number: `a` goes before `b`. */
  predicate Precedes(cfg: SortConfig, a: StudentData, b: StudentData) {
    match cfg.direction
    case Asc => KeyLess(KeyOf(a, cfg.key), KeyOf(b, cfg.key))
    case Desc => KeyLess(KeyOf(b, cfg.key), KeyOf(a, cfg.key))
  }

  lemma PrecedesAsymmetric(cfg: SortConfig, a: StudentData, b: StudentData)
    requires Precedes(cfg, a, b)
    ensures !Precedes(cfg, b, a)
  {
    var x, y := KeyOf(a, cfg.key), KeyOf(b, cfg.key);
    if cfg.direction == Asc {
      KeyLessAsymmetric(x, y);
    } else {
      KeyLessAsymmetric(y, x);
    }
  }

  /** If neither `b` precedes `a` nor `c` precedes `b`, then `c` does not
      precede `a`: "may stand before" is transitive. */
  lemma PrecedesNegativelyTransitive(cfg: SortConfig, a: StudentData, b: StudentData, c: StudentData)
    requires !Precedes(cfg, b, a) && !Precedes(cfg, c, b)
    ensures !Precedes(cfg, c, a)
  {
    var x, y, z := KeyOf(a, cfg.key), KeyOf(b, cfg.key), KeyOf(c, cfg.key);
    if cfg.direction == Asc {
      // !(y < x) and !(z < y); if z < x then z < y or y < x by totality.
      if KeyLess(z, x) {
        if y == x {
        } else if KeyLess(x, y) {
          KeyLessTransitive(z, x, y);
        } else {
          KeyLessTotal(x, y);
        }
      }
    } else {
      if KeyLess(x, z) {
        if y == x {
        } else if KeyLess(y, x) {
          KeyLessTransitive(y, x, z);
        } else {
          KeyLessTotal(x, y);
        }
      }
    }
  }

  /** The comparator passed to `sort`, as a function value. */
  function Comparator(cfg: SortConfig): (StudentData, StudentData) -> bool {
    (a: StudentData, b: StudentData) => Precedes(cfg, a, b)
  }

  /** What the insertion sort needs of a comparator `before`: no two records
      precede each other, and "may stand before" is transitive. */
  ghost predicate Consistent(before: (StudentData, StudentData) -> bool) {
    && (forall a, b :: before(a, b) ==> !before(b, a))
    && (forall a, b, c :: InOrder(before, a, b) && InOrder(before, b, c) ==> InOrder(before, a, c))
  }

  /** The key comparator is consistent, for every key and direction. */
  lemma ComparatorConsistent(cfg: SortConfig)
    ensures Consistent(Comparator(cfg))
  {
    var before := Comparator(cfg);
    forall a, b | before(a, b)
      ensures !before(b, a)
    {
      PrecedesAsymmetric(cfg, a, b);
    }
    forall a, b, c | InOrder(before, a, b) && InOrder(before, b, c)
      ensures InOrder(before, a, c)
    {
      PrecedesNegativelyTransitive(cfg, a, b, c);
    }
  }

  /** The comparator passed to `result.sort`: -1 puts `a` first, 1 puts `b`
      first, 0 keeps their order. */
  function Compare(cfg: SortConfig, a: StudentData, b: StudentData): (r: int)
    ensures r == -1 || r == 0 || r == 1
    ensures r < 0 <==> Precedes(cfg, a, b)
    ensures r > 0 <==> Precedes(cfg, b, a)
  {
    var x, y := KeyOf(a, cfg.key), KeyOf(b, cfg.key);
    if KeyLess(x, y) then
      (KeyLessAsymmetric(x, y); if cfg.direction == Asc then -1 else 1)
    else if KeyLess(y, x) then (if cfg.direction == Asc then 1 else -1)
    else 0
  }

  /** Swapping the arguments negates the comparator's result. */
  lemma CompareAntisymmetric(cfg: SortConfig, a: StudentData, b: StudentData)
    ensures Compare(cfg, b, a) == -Compare(cfg, a, b)
  {
    var x, y := KeyOf(a, cfg.key), KeyOf(b, cfg.key);
    if KeyLess(x, y) {
      KeyLessAsymmetric(x, y);
    } else if KeyLess(y, x) {
      KeyLessAsymmetric(y, x);
    }
  }

  lemma KeyLessAsymmetric(x: KeyValue, y: KeyValue)
    requires KeyLess(x, y)
    ensures !KeyLess(y, x)
  {
    if KeyLess(y, x) {
      KeyLessTransitive(x, y, x);
      KeyLessIrreflexive(x);
    }
  }

  /** `a` may stand before `b`: `b` does not precede it. With the key
      comparator: ascending, a's key is not above b's; descending, not
      below. */
  predicate InOrder(before: (StudentData, StudentData) -> bool, a: StudentData, b: StudentData) {
    !before(b, a)
  }

  /** Every record may stand before every later record. */
  predicate Sorted(before: (StudentData, StudentData) -> bool, s: seq<StudentData>) {
    forall i, j :: 0 <= i < j < |s| ==> InOrder(before, s[i], s[j])
  }

  /** Insert `x` into `s`, moving it past every element from the end that
      it strictly precedes. */
  function Insert(before: (StudentData, StudentData) -> bool, s: seq<StudentData>, x: StudentData): seq<StudentData> {
    if s == [] then [x]
    else if before(x, s[|s| - 1]) then Insert(before, s[..|s| - 1], x) + [s[|s| - 1]]
    else s + [x]
  }

  /** The stable sort: insert each element, in order, into the sorted prefix. */
  function SortSeq(before: (StudentData, StudentData) -> bool, s: seq<StudentData>): seq<StudentData> {
    if s == [] then []
    else Insert(before, SortSeq(before, s[..|s| - 1]), s[|s| - 1])
  }

  lemma {:induction false} InsertPermutes(before: (StudentData, StudentData) -> bool, s: seq<StudentData>, x: StudentData)
    ensures multiset(Insert(before, s, x)) == multiset(s) + multiset{x}
  {
    if s != [] && before(x, s[|s| - 1]) {
      InsertPermutes(before, s[..|s| - 1], x);
      assert s == s[..|s| - 1] + [s[|s| - 1]];
    }
  }

  lemma {:induction false} InsertKeepsSorted(before: (StudentData, StudentData) -> bool, s: seq<StudentData>, x: StudentData)
    requires Consistent(before)
    requires Sorted(before, s)
    ensures Sorted(before, Insert(before, s, x))
  {
    if s != [] {
      var last := s[|s| - 1];
      var init := s[..|s| - 1];
      if before(x, last) {
        InsertKeepsSorted(before, init, x);
        var t := Insert(before, init, x);
        InsertPermutes(before, init, x);
        forall i | 0 <= i < |t|
          ensures InOrder(before, t[i], last)
        {
          assert t[i] in multiset(t);
          if t[i] != x {
            assert t[i] in multiset(init);
            var k :| 0 <= k < |init| && init[k] == t[i];
            assert s[k] == t[i];
          }
        }
      } else {
        forall i | 0 <= i < |s| - 1
          ensures InOrder(before, s[i], x)
        {
          assert InOrder(before, s[i], last) && InOrder(before, last, x);
        }
      }
    }
  }

  /** The sort result is ordered by the comparator. */
  lemma {:induction false} SortSeqSorted(before: (StudentData, StudentData) -> bool, s: seq<StudentData>)
    requires Consistent(before)
    ensures Sorted(before, SortSeq(before, s))
  {
    if s != [] {
      SortSeqSorted(before, s[..|s| - 1]);
      InsertKeepsSorted(before, SortSeq(before, s[..|s| - 1]), s[|s| - 1]);
    }
  }

  /** The sort result holds exactly the input records. */
  lemma {:induction false} SortSeqPermutes(before: (StudentData, StudentData) -> bool, s: seq<StudentData>)
    ensures multiset(SortSeq(before, s)) == multiset(s)
  {
    if s != [] {
      var init, last := s[..|s| - 1], s[|s| - 1];
      SortSeqPermutes(before, init);
      InsertPermutes(before, SortSeq(before, init), last);
      assert s == init + [last];
    }
  }

  /** `Insert` puts `x` after the last element it does not precede: when
      `x` precedes every element from `j` on but not the one before, the
      result is `s` with `x` spliced in at `j`. */
  lemma {:induction false} InsertSplice(before: (StudentData, StudentData) -> bool, s: seq<StudentData>, x: StudentData, j: nat)
    requires j <= |s|
    requires j == 0 || !before(x, s[j - 1])
    requires forall k :: j <= k < |s| ==> before(x, s[k])
    ensures Insert(before, s, x) == s[..j] + [x] + s[j..]
    decreases |s|
  {
    if j < |s| {
      var init := s[..|s| - 1];
      InsertSplice(before, init, x, j);
      assert init[..j] == s[..j];
      assert init[j..] + [s[|s| - 1]] == s[j..];
    } else if s != [] {
      assert s[..j] == s;
    }
  }

  /** Shift `a[i]` left into the sorted prefix `a[..i]`. */
  method InsertInPlace(a: array<StudentData>, i: nat, before: (StudentData, StudentData) -> bool)
    requires i < a.Length
    modifies a
    ensures a[..i + 1] == Insert(before, old(a[..i]), old(a[i]))
    ensures a[i + 1..] == old(a[i + 1..])
  {
    ghost var sorted := a[..i];
    ghost var rest := a[i + 1..];
    var x := a[i];
    var j := i;
    while j > 0 && before(x, a[j - 1])
      invariant 0 <= j <= i
      invariant a[..j] == sorted[..j]
      invariant a[j + 1..i + 1] == sorted[j..]
      invariant a[i + 1..] == rest
      invariant forall k :: j <= k < i ==> before(x, sorted[k])
    {
      a[j] := a[j - 1];
      j := j - 1;
    }
    InsertSplice(before, sorted, x, j);
    ghost var shifted := a[..];
    a[j] := x;
    assert a[..] == shifted[j := x];
    PlaceAt(shifted, sorted, rest, x, i, j);
  }

  /** Helper: writing `x` into the gap at `j` of the shifted array gives the
      sorted prefix with `x` spliced in, and leaves the rest alone. */
  lemma PlaceAt(shifted: seq<StudentData>, sorted: seq<StudentData>, rest: seq<StudentData>,
                x: StudentData, i: nat, j: nat)
    requires j <= i < |shifted| && |sorted| == i
    requires shifted[..j] == sorted[..j]
    requires shifted[j + 1..i + 1] == sorted[j..]
    requires shifted[i + 1..] == rest
    ensures shifted[j := x][..i + 1] == sorted[..j] + [x] + sorted[j..]
    ensures shifted[j := x][i + 1..] == rest
  {
    var placed := shifted[j := x];
    assert placed[..i + 1] == placed[..j] + [x] + placed[j + 1..i + 1];
  }

  /** `result.sort(comparator)` on the table's working copy. */
  method SortInPlace(a: array<StudentData>, before: (StudentData, StudentData) -> bool)
    modifies a
    ensures a[..] == SortSeq(before, old(a[..]))
  {
    ghost var input := a[..];
    var i := 0;
    while i < a.Length
      invariant 0 <= i <= a.Length
      invariant a[..i] == SortSeq(before, input[..i])
      invariant a[i..] == input[i..]
    {
      assert a[i + 1..] == input[i + 1..] by {
        assert a[i..][1..] == a[i + 1..] && input[i..][1..] == input[i + 1..];
      }
      InsertInPlace(a, i, before);
      assert input[..i + 1][..i] == input[..i];
      i := i + 1;
    }
    assert a[..] == a[..a.Length] && input == input[..a.Length];
  }
}
