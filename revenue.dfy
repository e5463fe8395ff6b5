/** The revenue figure `umsatz`: for every course, its price (absent counts
    as 0) times the number of enrollments that refer to it, summed over the
    courses with `reduce` from 0. */
module Revenue {
  import opened Seqs
  import opened Records

  /** `anm.filter(a => a.fields.kurs?.includes(id)).length`: the number of
      positions holding an enrollment that refers to `id`. */
  function EnrollmentCount(anm: seq<Enrollment>, id: RecordId): (n: nat)
    ensures n == |Positions(anm, References(id))| <= |anm|
  {
    FilterCountIsPositions(anm, References(id));
    |Filter(anm, References(id))|
  }

  /** One step of the fold: `(k.fields.preis ?? 0) * anmCount`. A course
      without a price or without enrollments adds nothing; a course with a
      non-negative price adds a non-negative amount. */
  function CourseRevenue(k: Course, anm: seq<Enrollment>): (r: real)
    ensures k.preis.None? || EnrollmentCount(anm, k.recordId) == 0 ==> r == 0.0
    ensures PriceOrZero(k) >= 0.0 ==> r >= 0.0
  {
    PriceOrZero(k) * EnrollmentCount(anm, k.recordId) as real
  }

  /** The fold's step function for a fixed list of enrollments. */
  function CourseRevenueOf(anm: seq<Enrollment>): Course -> real {
    (k: Course) => CourseRevenue(k, anm)
  }

  /** Reference definition: the sum over the courses of their revenue. */
  function RevenueSum(kurs: seq<Course>, anm: seq<Enrollment>): real {
    Sum(kurs, CourseRevenueOf(anm))
  }

  /** Peeling the first course off the sum. */
  lemma RevenueSumStep(kurs: seq<Course>, anm: seq<Enrollment>)
    requires |kurs| > 0
    ensures RevenueSum(kurs, anm) == CourseRevenue(kurs[0], anm) + RevenueSum(kurs[1..], anm)
  {
  }

  /* The same figure seen from the enrollments: each enrollment is worth
     the prices of the courses it refers to. */

  /** What enrollment `a` adds to the revenue of course `k`. */
  function Share(k: Course, a: Enrollment): real {
    if References(k.recordId)(a) then PriceOrZero(k) else 0.0
  }

  /** The sum of the shares of course `k` over the enrollments. */
  function CourseShares(k: Course, anm: seq<Enrollment>): real
    decreases |anm|
  {
    if |anm| == 0 then 0.0 else Share(k, anm[0]) + CourseShares(k, anm[1..])
  }

  /** The sum of the prices of the courses `a` refers to, one per course
      record however often its id occurs in `a.kurs`. */
  function EnrollmentValue(a: Enrollment, kurs: seq<Course>): real
    decreases |kurs|
  {
    if |kurs| == 0 then 0.0 else Share(kurs[0], a) + EnrollmentValue(a, kurs[1..])
  }

  /** Reference definition: the sum over the enrollments of their value. */
  function PerEnrollmentSum(kurs: seq<Course>, anm: seq<Enrollment>): real
    decreases |anm|
  {
    if |anm| == 0 then 0.0 else EnrollmentValue(anm[0], kurs) + PerEnrollmentSum(kurs, anm[1..])
  }

  /** Price times count is the sum of the per-enrollment shares. */
  lemma {:induction false} CourseRevenueIsShares(k: Course, anm: seq<Enrollment>)
    ensures CourseRevenue(k, anm) == CourseShares(k, anm)
    decreases |anm|
  {
    if |anm| > 0 {
      CourseRevenueIsShares(k, anm[1..]);
      CourseRevenueStep(k, anm);
    }
  }

  /** Price times count grows by the price for each referring enrollment. */
  lemma CourseRevenueStep(k: Course, anm: seq<Enrollment>)
    requires |anm| > 0
    ensures CourseRevenue(k, anm) == Share(k, anm[0]) + CourseRevenue(k, anm[1..])
  {
    var p, n := PriceOrZero(k), EnrollmentCount(anm[1..], k.recordId);
    var c := if References(k.recordId)(anm[0]) then 1 else 0;
    CountStep(anm, k.recordId);
    assert EnrollmentCount(anm, k.recordId) == c + n;
    MulAdd(p, c, n);
    assert Share(k, anm[0]) == p * (c as real);
  }

  /** The count grows by one for each referring enrollment. */
  lemma CountStep(anm: seq<Enrollment>, id: RecordId)
    requires |anm| > 0
    ensures EnrollmentCount(anm, id) == (if References(id)(anm[0]) then 1 else 0) + EnrollmentCount(anm[1..], id)
  {
  }

  lemma MulAdd(p: real, c: nat, n: nat)
    ensures p * ((c + n) as real) == p * (c as real) + p * (n as real)
  {
  }

  lemma {:induction false} PerEnrollmentNoCourses(anm: seq<Enrollment>)
    ensures PerEnrollmentSum([], anm) == 0.0
    decreases |anm|
  {
    if |anm| > 0 {
      PerEnrollmentNoCourses(anm[1..]);
    }
  }

  /** Peeling the first course off every enrollment's value. */
  lemma {:induction false} PerEnrollmentSplit(kurs: seq<Course>, anm: seq<Enrollment>)
    requires |kurs| > 0
    ensures PerEnrollmentSum(kurs, anm) == CourseShares(kurs[0], anm) + PerEnrollmentSum(kurs[1..], anm)
    decreases |anm|
  {
    if |anm| > 0 {
      PerEnrollmentSplit(kurs, anm[1..]);
    }
  }

  /** Summing by course and summing by enrollment give the same revenue. */
  lemma {:induction false} RevenueExchange(kurs: seq<Course>, anm: seq<Enrollment>)
    ensures RevenueSum(kurs, anm) == PerEnrollmentSum(kurs, anm)
    decreases |kurs|
  {
    if |kurs| == 0 {
      PerEnrollmentNoCourses(anm);
    } else {
      RevenueSumStep(kurs, anm);
      RevenueExchange(kurs[1..], anm);
      CourseRevenueIsShares(kurs[0], anm);
      PerEnrollmentSplit(kurs, anm);
    }
  }

  /** `umsatz` as the dashboard computes it: `kurs.reduce` from 0. It equals both
      the sum by course and the sum by enrollment. */
  function Umsatz(kurs: seq<Course>, anm: seq<Enrollment>): (r: real)
    ensures r == RevenueSum(kurs, anm)
    ensures r == PerEnrollmentSum(kurs, anm)
  {
    RevenueExchange(kurs, anm);
    FoldSum(kurs, CourseRevenueOf(anm), 0.0)
  }

  /** No courses or no enrollments: no revenue. */
  lemma RevenueOfEmpty(kurs: seq<Course>, anm: seq<Enrollment>)
    requires |kurs| == 0 || |anm| == 0
    ensures Umsatz(kurs, anm) == 0.0
  {
  }

  /** Revenue is non-negative when every present price is. */
  lemma {:induction false} RevenueNonNegative(kurs: seq<Course>, anm: seq<Enrollment>)
    requires forall i :: 0 <= i < |kurs| && kurs[i].preis.Some? ==> kurs[i].preis.value >= 0.0
    ensures Umsatz(kurs, anm) >= 0.0
  {
    SumNonNegative(kurs, anm);
  }

  lemma {:induction false} SumNonNegative(kurs: seq<Course>, anm: seq<Enrollment>)
    requires forall i :: 0 <= i < |kurs| && kurs[i].preis.Some? ==> kurs[i].preis.value >= 0.0
    ensures RevenueSum(kurs, anm) >= 0.0
    decreases |kurs|
  {
    if |kurs| > 0 {
      RevenueSumStep(kurs, anm);
      SumNonNegative(kurs[1..], anm);
      assert PriceOrZero(kurs[0]) >= 0.0;
    }
  }

  /** Revenue depends on the enrollments only through the set of course ids
      each one refers to: not on the payment flag, not on the order or
      repetition of ids within a `kurs` list, and an absent list is the
      same as an empty one. */
  lemma {:induction false} RevenueDependsOnlyOnReferences(kurs: seq<Course>, anm: seq<Enrollment>, anm': seq<Enrollment>)
    requires |anm| == |anm'|
    requires forall i :: 0 <= i < |anm| ==> ReferencedIds(anm[i]) == ReferencedIds(anm'[i])
    ensures Umsatz(kurs, anm) == Umsatz(kurs, anm')
  {
    SumDependsOnlyOnReferences(kurs, anm, anm');
  }

  lemma {:induction false} SumDependsOnlyOnReferences(kurs: seq<Course>, anm: seq<Enrollment>, anm': seq<Enrollment>)
    requires |anm| == |anm'|
    requires forall i :: 0 <= i < |anm| ==> ReferencedIds(anm[i]) == ReferencedIds(anm'[i])
    ensures RevenueSum(kurs, anm) == RevenueSum(kurs, anm')
    decreases |kurs|
  {
    if |kurs| > 0 {
      RevenueSumStep(kurs, anm);
      RevenueSumStep(kurs, anm');
      CourseRevenueDependsOnlyOnReferences(kurs[0], anm, anm');
      SumDependsOnlyOnReferences(kurs[1..], anm, anm');
    }
  }

  lemma CourseRevenueDependsOnlyOnReferences(k: Course, anm: seq<Enrollment>, anm': seq<Enrollment>)
    requires |anm| == |anm'|
    requires forall i :: 0 <= i < |anm| ==> ReferencedIds(anm[i]) == ReferencedIds(anm'[i])
    ensures CourseRevenue(k, anm) == CourseRevenue(k, anm')
  {
    CountDependsOnlyOnReferences(anm, anm', k.recordId);
  }

  lemma CountDependsOnlyOnReferences(anm: seq<Enrollment>, anm': seq<Enrollment>, id: RecordId)
    requires |anm| == |anm'|
    requires forall i :: 0 <= i < |anm| ==> ReferencedIds(anm[i]) == ReferencedIds(anm'[i])
    ensures EnrollmentCount(anm, id) == EnrollmentCount(anm', id)
  {
    forall i | 0 <= i < |anm|
      ensures References(id)(anm[i]) == References(id)(anm'[i])
    {
      assert id in ReferencedIds(anm[i]) <==> id in ReferencedIds(anm'[i]);
    }
    FilterCountPointwise(anm, anm', References(id));
  }

  /** Changing payment flags (or anything but the `kurs` lists) leaves the
      revenue unchanged. */
  lemma RevenueIgnoresPayment(kurs: seq<Course>, anm: seq<Enrollment>, anm': seq<Enrollment>)
    requires |anm| == |anm'|
    requires forall i :: 0 <= i < |anm| ==> anm[i].kurs == anm'[i].kurs
    ensures Umsatz(kurs, anm) == Umsatz(kurs, anm')
  {
    RevenueDependsOnlyOnReferences(kurs, anm, anm');
  }

  /** One more enrollment in front adds exactly its value: the prices of all
      the courses it refers to. */
  lemma RevenueAddEnrollment(kurs: seq<Course>, a: Enrollment, anm: seq<Enrollment>)
    ensures Umsatz(kurs, [a] + anm) == EnrollmentValue(a, kurs) + Umsatz(kurs, anm)
  {
    assert ([a] + anm)[1..] == anm;
  }

  /** An enrollment that refers to no course, in particular one whose `kurs`
      is absent, is worth nothing. */
  lemma {:induction false} UnreferencingEnrollmentWorthNothing(a: Enrollment, kurs: seq<Course>)
    requires ReferencedIds(a) == {}
    ensures EnrollmentValue(a, kurs) == 0.0
    decreases |kurs|
  {
    if |kurs| > 0 {
      assert kurs[0].recordId !in ReferencedIds(a);
      UnreferencingEnrollmentWorthNothing(a, kurs[1..]);
    }
  }
}
