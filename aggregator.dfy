/** The statistics the dashboard shows, computed in one pass over the five
    record collections once they have all been fetched. */
module Aggregator {
  import opened Wrappers
  import opened Seqs
  import opened Records
  import opened Revenue

  /** The dashboard's `Stats` record. */
  datatype Stats = Stats(
    dozenten: nat,
    raeume: nat,
    teilnehmer: nat,
    kurse: nat,
    anmeldungen: nat,
    bezahlt: nat,
    unbezahlt: nat,
    aktiveKurse: nat,
    geplantKurse: nat,
    abgeschlossen: nat,
    abgesagt: nat,
    umsatz: real,
    kurseList: seq<Course>,
    anmeldungenList: seq<Enrollment>)

  /** How many courses and enrollments the previews show. */
  const PreviewSize: nat := 5

  /** `kurs.filter(k => k.fields.status === st).length`: the number of
      positions holding a course whose status is exactly `st`. */
  function CountStatus(kurs: seq<Course>, st: string): (n: nat)
    ensures n == |Positions(kurs, HasStatus(st))| <= |kurs|
  {
    FilterCountIsPositions(kurs, HasStatus(st));
    |Filter(kurs, HasStatus(st))|
  }

  /** Builds the statistics from the instructors, rooms, participants,
      courses and enrollments. Only the number of instructors, rooms and
      participants matters, so their element types are left open. */
  function Aggregate<D, R, P>(doz: seq<D>, rae: seq<R>, teil: seq<P>, kurs: seq<Course>, anm: seq<Enrollment>): (s: Stats)
    ensures s.dozenten == |doz| && s.raeume == |rae| && s.teilnehmer == |teil|
    ensures s.kurse == |kurs| && s.anmeldungen == |anm|
    // paid and unpaid split the enrollments
    ensures s.bezahlt == |Positions(anm, IsPaid)|
    ensures s.unbezahlt == |Positions(anm, IsUnpaid)|
    ensures s.bezahlt + s.unbezahlt == s.anmeldungen
    // each bucket counts the courses with exactly that status
    ensures s.geplantKurse == |Positions(kurs, HasStatus(Geplant))|
    ensures s.aktiveKurse == |Positions(kurs, HasStatus(Aktiv))|
    ensures s.abgeschlossen == |Positions(kurs, HasStatus(Abgeschlossen))|
    ensures s.abgesagt == |Positions(kurs, HasStatus(Abgesagt))|
    ensures s.geplantKurse + s.aktiveKurse + s.abgeschlossen + s.abgesagt == |Positions(kurs, HasKnownStatus)| <= s.kurse
    ensures s.geplantKurse + s.aktiveKurse + s.abgeschlossen + s.abgesagt == s.kurse
        <==> forall i :: 0 <= i < |kurs| ==> HasKnownStatus(kurs[i])
    // revenue: by course and by enrollment
    ensures s.umsatz == RevenueSum(kurs, anm) && s.umsatz == PerEnrollmentSum(kurs, anm)
    // previews: the first PreviewSize records, in input order
    ensures |s.kurseList| == Min(PreviewSize, |kurs|) && s.kurseList == kurs[..|s.kurseList|]
    ensures |s.anmeldungenList| == Min(PreviewSize, |anm|) && s.anmeldungenList == anm[..|s.anmeldungenList|]
  {
    PaymentPartition(anm);
    BucketPartition(kurs);
    FilterCountIsPositions(kurs, HasKnownStatus);
    Stats(
      dozenten := |doz|,
      raeume := |rae|,
      teilnehmer := |teil|,
      kurse := |kurs|,
      anmeldungen := |anm|,
      bezahlt := |Filter(anm, IsPaid)|,
      unbezahlt := |Filter(anm, IsUnpaid)|,
      aktiveKurse := CountStatus(kurs, Aktiv),
      geplantKurse := CountStatus(kurs, Geplant),
      abgeschlossen := CountStatus(kurs, Abgeschlossen),
      abgesagt := CountStatus(kurs, Abgesagt),
      umsatz := Umsatz(kurs, anm),
      kurseList := Take(kurs, PreviewSize),
      anmeldungenList := Take(anm, PreviewSize))
  }

  /** Every enrollment is either paid or unpaid, never both. */
  lemma PaymentPartition(anm: seq<Enrollment>)
    ensures |Filter(anm, IsPaid)| + |Filter(anm, IsUnpaid)| == |anm|
    ensures |Filter(anm, IsPaid)| == |Positions(anm, IsPaid)|
    ensures |Filter(anm, IsUnpaid)| == |Positions(anm, IsUnpaid)|
  {
    FilterComplement(anm, IsPaid, IsUnpaid);
    FilterCountIsPositions(anm, IsPaid);
    FilterCountIsPositions(anm, IsUnpaid);
  }

  /** The four buckets are disjoint and together hold exactly the courses
      with a known status. */
  lemma {:induction false} BucketPartition(kurs: seq<Course>)
    ensures CountStatus(kurs, Geplant) + CountStatus(kurs, Aktiv) + CountStatus(kurs, Abgeschlossen)
            + CountStatus(kurs, Abgesagt) == |Filter(kurs, HasKnownStatus)|
    decreases |kurs|
  {
    if |kurs| > 0 {
      BucketPartition(kurs[1..]);
    }
  }

  /** The statistics after one load: when all five fetches succeed they are
      recomputed from the fetched collections; when any fetch fails, no new
      statistics are produced and the previous value (absent on the first
      load) stays. */
  function AfterLoad<D, R, P>(prev: Option<Stats>, doz: Option<seq<D>>, rae: Option<seq<R>>, teil: Option<seq<P>>,
                              kurs: Option<seq<Course>>, anm: Option<seq<Enrollment>>): (r: Option<Stats>)
    ensures doz.Some? && rae.Some? && teil.Some? && kurs.Some? && anm.Some? ==>
              r == Some(Aggregate(doz.value, rae.value, teil.value, kurs.value, anm.value))
    ensures doz.None? || rae.None? || teil.None? || kurs.None? || anm.None? ==> r == prev
  {
    if doz.Some? && rae.Some? && teil.Some? && kurs.Some? && anm.Some? then
      Some(Aggregate(doz.value, rae.value, teil.value, kurs.value, anm.value))
    else
      prev
  }
}
