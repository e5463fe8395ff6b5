/** The two record kinds whose fields the dashboard reads: courses (`Kurse`)
    and enrollments (`Anmeldungen`), each with only the fields it uses. */
module Records {
  import opened Wrappers

  type RecordId = string

  /** A course. `status` and `preis` are optional fields. A JavaScript
      number price is modelled as an exact real. */
  datatype Course = Course(recordId: RecordId, status: Option<string>, preis: Option<real>)

  /** An enrollment. `bezahlt` is the optional payment flag and `kurs` the
      optional list of ids of the courses it refers to. */
  datatype Enrollment = Enrollment(recordId: RecordId, bezahlt: Option<bool>, kurs: Option<seq<RecordId>>)

  /** The four course states the dashboard buckets. */
  const Geplant := "geplant"
  const Aktiv := "aktiv"
  const Abgeschlossen := "abgeschlossen"
  const Abgesagt := "abgesagt"
  const KnownStatuses: set<string> := {Geplant, Aktiv, Abgeschlossen, Abgesagt}

  /** `a.fields.bezahlt === true`: strict, so an absent or `false` flag is
      not paid. */
  predicate IsPaid(a: Enrollment)
    ensures a.bezahlt.None? ==> !IsPaid(a)
    ensures a.bezahlt == Some(false) ==> !IsPaid(a)
  {
    a.bezahlt == Some(true)
  }

  /** `a.fields.bezahlt !== true`: the complement of being paid. */
  predicate IsUnpaid(a: Enrollment)
    ensures IsUnpaid(a) <==> !IsPaid(a)
  {
    a.bezahlt != Some(true)
  }

  /** `k.fields.status === st`: an exact match. An absent status matches
      nothing, a course matches at most one status, and a known status only
      matches courses with a known status. */
  function HasStatus(st: string): (match_: Course -> bool)
    ensures forall k: Course :: match_(k) ==> k.status.Some? && k.status.value == st
    ensures st in KnownStatuses ==> forall k: Course :: match_(k) ==> HasKnownStatus(k)
  {
    (k: Course) => k.status == Some(st)
  }

  /** The course carries one of the four known statuses. */
  predicate HasKnownStatus(k: Course) {
    k.status.Some? && k.status.value in KnownStatuses
  }

  /** `a.fields.kurs?.includes(id)`: false when the list is absent, and
      otherwise true iff some position of the list holds `id`. */
  function References(id: RecordId): (refers: Enrollment -> bool)
    ensures forall a: Enrollment :: a.kurs.None? ==> !refers(a)
    ensures forall a: Enrollment :: a.kurs.Some? ==> (refers(a) <==> exists j :: 0 <= j < |a.kurs.value| && a.kurs.value[j] == id)
  {
    (a: Enrollment) => a.kurs.Some? && id in a.kurs.value
  }

  /** The set of course ids an enrollment refers to; empty when `kurs` is absent. */
  function ReferencedIds(a: Enrollment): (ids: set<RecordId>)
    ensures forall id :: id in ids <==> References(id)(a)
  {
    if a.kurs.Some? then set id | id in a.kurs.value else {}
  }

  /** `k.fields.preis ?? 0`. */
  function PriceOrZero(k: Course): (p: real)
    ensures k.preis.None? ==> p == 0.0
    ensures k.preis.Some? ==> p == k.preis.value
  {
    k.preis.GetOr(0.0)
  }
}
