/** The data behind the "Kurse nach Status" bar chart: one bar per known
    status, in a fixed order, with a fixed color. */
module Chart {
  import opened Wrappers
  import opened Seqs
  import opened Records
  import opened Aggregator

  datatype ChartEntry = ChartEntry(name: string, value: nat, color: string)

  /** The statuses of the bars, in display order. */
  const ChartStatuses: seq<string> := [Geplant, Aktiv, Abgeschlossen, Abgesagt]

  /** The bar names, in display order. */
  const ChartNames: seq<string> := ["Geplant", "Aktiv", "Abgeschl.", "Abgesagt"]

  /** `statusChartData`: four bars when there are statistics, none before. */
  function StatusChartData(stats: Option<Stats>): (r: seq<ChartEntry>)
    ensures stats.None? ==> r == []
    ensures stats.Some? ==> |r| == 4 && forall i :: 0 <= i < 4 ==> r[i].name == ChartNames[i]
    ensures stats.Some? ==>
      && r[0].value == stats.value.geplantKurse
      && r[1].value == stats.value.aktiveKurse
      && r[2].value == stats.value.abgeschlossen
      && r[3].value == stats.value.abgesagt
  {
    match stats
    case None => []
    case Some(s) =>
      [ChartEntry("Geplant", s.geplantKurse, "oklch(0.55 0.18 258)"),
       ChartEntry("Aktiv", s.aktiveKurse, "oklch(0.52 0.15 162)"),
       ChartEntry("Abgeschl.", s.abgeschlossen, "oklch(0.52 0.02 260)"),
       ChartEntry("Abgesagt", s.abgesagt, "oklch(0.58 0.18 25)")]
  }

  function TotalValue(r: seq<ChartEntry>): nat {
    if |r| == 0 then 0 else r[0].value + TotalValue(r[1..])
  }

  /** For statistics computed from `kurs`, bar `i` counts the courses whose
      status is `ChartStatuses[i]`; the bars add up to at most the number of
      courses, and to exactly that number iff every course has a known status. */
  lemma ChartOfAggregate<D, R, P>(doz: seq<D>, rae: seq<R>, teil: seq<P>, kurs: seq<Course>, anm: seq<Enrollment>)
    ensures var r := StatusChartData(Some(Aggregate(doz, rae, teil, kurs, anm)));
      && |r| == 4
      && (forall i :: 0 <= i < 4 ==> r[i].value == |Positions(kurs, HasStatus(ChartStatuses[i]))|)
      && TotalValue(r) <= |kurs|
      && (TotalValue(r) == |kurs| <==> forall j :: 0 <= j < |kurs| ==> HasKnownStatus(kurs[j]))
  {
    var s := Aggregate(doz, rae, teil, kurs, anm);
    ChartBars(s, kurs);
    ChartTotal(s);
  }

  /** Bar `i` carries the bucket of `ChartStatuses[i]`. */
  lemma ChartBars(s: Stats, kurs: seq<Course>)
    requires s.geplantKurse == |Positions(kurs, HasStatus(Geplant))|
    requires s.aktiveKurse == |Positions(kurs, HasStatus(Aktiv))|
    requires s.abgeschlossen == |Positions(kurs, HasStatus(Abgeschlossen))|
    requires s.abgesagt == |Positions(kurs, HasStatus(Abgesagt))|
    ensures forall i :: 0 <= i < 4 ==> StatusChartData(Some(s))[i].value == |Positions(kurs, HasStatus(ChartStatuses[i]))|
  {
  }

  /** The bars add up to the four bucket counts. */
  lemma ChartTotal(s: Stats)
    ensures TotalValue(StatusChartData(Some(s))) == s.geplantKurse + s.aktiveKurse + s.abgeschlossen + s.abgesagt
  {
    var r := StatusChartData(Some(s));
    assert TotalValue(r[3..]) == s.abgesagt by {
      assert r[3..][1..] == [];
    }
    assert TotalValue(r[2..]) == s.abgeschlossen + s.abgesagt by {
      assert r[2..][1..] == r[3..];
    }
    assert TotalValue(r[1..]) == s.aktiveKurse + s.abgeschlossen + s.abgesagt by {
      assert r[1..][1..] == r[2..];
    }
  }
}
