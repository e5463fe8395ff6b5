/** Worked examples of the statistics on small inputs. */
module Scenarios {
  import opened Wrappers
  import opened Records
  import opened Revenue
  import opened Aggregator

  type Opaque = int

  /** No courses and no enrollments: every figure is zero and both previews empty. */
  lemma EmptyInputs(doz: seq<Opaque>, rae: seq<Opaque>, teil: seq<Opaque>)
    ensures var s := Aggregate(doz, rae, teil, [], []);
      && s.kurse == 0 && s.anmeldungen == 0 && s.umsatz == 0.0
      && s.bezahlt == 0 && s.unbezahlt == 0
      && s.geplantKurse == 0 && s.aktiveKurse == 0 && s.abgeschlossen == 0 && s.abgesagt == 0
      && s.kurseList == [] && s.anmeldungenList == []
  {
  }

  /** One active course at 100 with two enrollments, one of them paid. */
  lemma OneCourseTwoEnrollments()
    ensures var c1 := Course("c1", Some(Aktiv), Some(100.0));
      var e1 := Enrollment("e1", Some(true), Some(["c1"]));
      var e2 := Enrollment("e2", None, Some(["c1"]));
      var s := Aggregate<Opaque, Opaque, Opaque>([], [], [], [c1], [e1, e2]);
      s.aktiveKurse == 1 && s.bezahlt == 1 && s.unbezahlt == 1 && s.umsatz == 200.0
  {
    var c1 := Course("c1", Some(Aktiv), Some(100.0));
    var e1 := Enrollment("e1", Some(true), Some(["c1"]));
    var e2 := Enrollment("e2", None, Some(["c1"]));
    var anm := [e1, e2];
    assert anm[1..] == [e2] && anm[1..][1..] == [];
    assert EnrollmentCount(anm, "c1") == 2;
    RevenueSumStep([c1], anm);
    assert [c1][1..] == [];
  }

  /** A course with an unknown status is counted, but in no bucket. */
  lemma UnknownStatus()
    ensures var c2 := Course("c2", Some("unknown_status"), Some(50.0));
      var s := Aggregate<Opaque, Opaque, Opaque>([], [], [], [c2], []);
      s.kurse == 1 && s.umsatz == 0.0
      && s.geplantKurse == 0 && s.aktiveKurse == 0 && s.abgeschlossen == 0 && s.abgesagt == 0
  {
  }

  /** Seven courses: the preview holds the first five, in order. */
  lemma PreviewOfSeven(kurs: seq<Course>)
    requires |kurs| == 7
    ensures Aggregate<Opaque, Opaque, Opaque>([], [], [], kurs, []).kurseList == kurs[..5]
  {
  }

  /** An enrollment naming the same course twice counts once for it. */
  lemma DuplicateReference()
    ensures var c1 := Course("c1", Some(Aktiv), Some(100.0));
      Umsatz([c1], [Enrollment("e1", Some(false), Some(["c1", "c1"]))]) == 100.0
  {
    var c1 := Course("c1", Some(Aktiv), Some(100.0));
    var anm := [Enrollment("e1", Some(false), Some(["c1", "c1"]))];
    assert References("c1")(anm[0]);
    assert EnrollmentCount(anm, "c1") == 1;
    RevenueSumStep([c1], anm);
    assert [c1][1..] == [];
  }

  /** An enrollment naming two courses counts for both. */
  lemma TwoCourseReference()
    ensures var c1 := Course("c1", Some(Aktiv), Some(100.0));
      var c2 := Course("c2", Some(Geplant), Some(50.0));
      Umsatz([c1, c2], [Enrollment("e1", None, Some(["c1", "c2"]))]) == 150.0
  {
    var c1 := Course("c1", Some(Aktiv), Some(100.0));
    var c2 := Course("c2", Some(Geplant), Some(50.0));
    var kurs := [c1, c2];
    var anm := [Enrollment("e1", None, Some(["c1", "c2"]))];
    assert References("c1")(anm[0]) && References("c2")(anm[0]);
    assert EnrollmentCount(anm, "c1") == 1 && EnrollmentCount(anm, "c2") == 1;
    assert kurs[1..] == [c2] && kurs[1..][1..] == [];
    assert CourseRevenue(c1, anm) == 100.0 && CourseRevenue(c2, anm) == 50.0;
    RevenueSumStep(kurs, anm);
    RevenueSumStep(kurs[1..], anm);
  }

  /** One failed fetch: the previous statistics stay. */
  lemma FailedFetch(prev: Option<Stats>, kurs: seq<Course>, anm: seq<Enrollment>)
    ensures AfterLoad<Opaque, Opaque, Opaque>(prev, Some([]), None, Some([]), Some(kurs), Some(anm)) == prev
  {
  }
}
