/** The statistics blocks at the end of the fast-transformer and the
    hierarchical scripts. Both read the `overallHits` and `overallMisses`
    counters of the L1I, L1D and L2 cache objects inside one `try`; any read
    that fails (an `AttributeError`) abandons the whole block, so no rate is
    printed at all, only a message. */
module StatsReport {
  import opened HitRate

  datatype Level = L1I | L1D | L2
  datatype Stat = OverallHits | OverallMisses

  /** The counters the cache objects expose after a run. A missing entry is
      a counter that cannot be read. */
  type StatTable = map<(Level, Stat), nat>

  predicate Readable(t: StatTable, l: Level) {
    (l, OverallHits) in t && (l, OverallMisses) in t
  }

  function ReadLevel(t: StatTable, l: Level): Counters
    requires Readable(t, l)
  {
    Counters(t[(l, OverallHits)], t[(l, OverallMisses)])
  }

  /** One printed line: hits, misses and the hit rate in percent. */
  datatype Row = Row(hits: nat, misses: nat, rate: real)

  /** `row` reports the tallies `c` with their hit rate (see `Rate`). */
  predicate Describes(row: Row, c: Counters) {
    row.hits == c.hits && row.misses == c.misses && row.rate == Rate(c)
  }

  function RowOf(c: Counters): (row: Row)
    ensures Describes(row, c)
  {
    Row(c.hits, c.misses, Rate(c))
  }

  /** What the fast script prints: a line per level and an "Overall" line
      over all three levels, or the error message. */
  datatype FastStats =
    | FastStatsError
    | FastRates(l1d: Row, l1i: Row, l2: Row, overall: Row)

  function FastStatsBlock(t: StatTable): (r: FastStats)
    ensures r.FastRates? <==> Readable(t, L1D) && Readable(t, L1I) && Readable(t, L2)
    ensures r.FastRates? ==>
      && Describes(r.l1d, ReadLevel(t, L1D))
      && Describes(r.l1i, ReadLevel(t, L1I))
      && Describes(r.l2, ReadLevel(t, L2))
      && r.overall.hits == t[(L1D, OverallHits)] + t[(L1I, OverallHits)] + t[(L2, OverallHits)]
      && r.overall.misses == t[(L1D, OverallMisses)] + t[(L1I, OverallMisses)] + t[(L2, OverallMisses)]
      && r.overall.rate == Rate(Counters(r.overall.hits, r.overall.misses))
  {
    if Readable(t, L1D) && Readable(t, L1I) && Readable(t, L2) then
      var l1d, l1i, l2 := ReadLevel(t, L1D), ReadLevel(t, L1I), ReadLevel(t, L2);
      FastRates(RowOf(l1d), RowOf(l1i), RowOf(l2), RowOf(l1d.Plus(l1i).Plus(l2)))
    else FastStatsError
  }

  /** The overall rate pools the three levels' counts: it lies within the
      range of the rates of the levels that saw any access (it is not the
      mean of the three rates, see `PooledIsNotMeanOfRates`). */
  lemma FastOverallWithinLevels(t: StatTable, lo: real, hi: real)
    requires FastStatsBlock(t).FastRates?
    requires forall l :: Readable(t, l) && ReadLevel(t, l).Accesses() > 0 ==> lo <= Rate(ReadLevel(t, l)) <= hi
    ensures var r := FastStatsBlock(t);
      r.overall.hits + r.overall.misses > 0 ==> lo <= r.overall.rate <= hi
  {
    var l1d, l1i, l2 := ReadLevel(t, L1D), ReadLevel(t, L1I), ReadLevel(t, L2);
    ThreeLevelsWithin(l1d, l1i, l2, lo, hi);
    assert FastStatsBlock(t).overall == RowOf(l1d.Plus(l1i).Plus(l2));
  }

  /** Three levels pooled in the script's order stay within the bounds of
      their accessed levels' rates. */
  lemma ThreeLevelsWithin(a: Counters, b: Counters, c: Counters, lo: real, hi: real)
    requires a.Accesses() > 0 ==> lo <= Rate(a) <= hi
    requires b.Accesses() > 0 ==> lo <= Rate(b) <= hi
    requires c.Accesses() > 0 ==> lo <= Rate(c) <= hi
    ensures a.Plus(b).Plus(c).Accesses() > 0 ==> lo <= Rate(a.Plus(b).Plus(c)) <= hi
  {
    var levels := [a, b, c];
    assert levels[1..] == [b, c] && [b, c][1..] == [c] && [c][1..] == [];
    assert Total([c]) == c;
    assert Total([b, c]) == b.Plus(c);
    assert Total(levels) == a.Plus(b).Plus(c);
    forall i | 0 <= i < |levels| && levels[i].Accesses() > 0
      ensures lo <= Rate(levels[i]) <= hi
    {
      if i == 0 {
      } else if i == 1 {
      } else {
      }
    }
    AggregateWithinLevelRates(levels, lo, hi);
  }

  /** The pooled overall line with one busy level at (1000, 0), one quiet
      level at (1, 9) and an idle L2: more than 99%, where the mean of the
      two L1 rates is 55%. */
  lemma FastOverallExample(t: StatTable)
    requires Readable(t, L1D) && Readable(t, L1I) && Readable(t, L2)
    requires ReadLevel(t, L1D) == Counters(1000, 0) && ReadLevel(t, L1I) == Counters(1, 9)
    requires ReadLevel(t, L2) == Counters(0, 0)
    ensures FastStatsBlock(t).overall.rate == 100.0 * 1001.0 / 1010.0
    ensures (FastStatsBlock(t).l1d.rate + FastStatsBlock(t).l1i.rate) / 2.0 == 55.0
  {
    var r := FastStatsBlock(t);
    assert r.overall.hits == 1001 && r.overall.misses == 9;
    RateUnique(Counters(1000, 0), 100.0);
    RateUnique(Counters(1, 9), 10.0);
    RateUnique(Counters(1001, 9), 100.0 * 1001.0 / 1010.0);
  }

  /** What the hierarchical script prints: a line per level, the L1 hit rate
      over both L1 caches, and the L2's own (local) hit rate; or the note. */
  datatype HierStats =
    | HierStatsNote
    | HierRates(l1i: Row, l1d: Row, l2: Row, overallL1: Row, l2Local: real)

  function HierStatsBlock(t: StatTable): (r: HierStats)
    ensures r.HierRates? <==> Readable(t, L1I) && Readable(t, L1D) && Readable(t, L2)
    ensures r.HierRates? ==>
      && Describes(r.l1i, ReadLevel(t, L1I))
      && Describes(r.l1d, ReadLevel(t, L1D))
      && Describes(r.l2, ReadLevel(t, L2))
      && r.overallL1.hits == t[(L1I, OverallHits)] + t[(L1D, OverallHits)]
      && r.overallL1.misses == t[(L1I, OverallMisses)] + t[(L1D, OverallMisses)]
      && r.overallL1.rate == Rate(Counters(r.overallL1.hits, r.overallL1.misses))
      && r.l2Local == r.l2.rate
  {
    if Readable(t, L1I) && Readable(t, L1D) && Readable(t, L2) then
      var l1i, l1d, l2 := ReadLevel(t, L1I), ReadLevel(t, L1D), ReadLevel(t, L2);
      var l2Row := RowOf(l2);
      HierRates(RowOf(l1i), RowOf(l1d), l2Row, RowOf(l1i.Plus(l1d)), l2Row.rate)
    else HierStatsNote
  }

  /** The L1 line does not depend on the L2 counters at all. */
  lemma L1AggregateIgnoresL2(t1: StatTable, t2: StatTable)
    requires HierStatsBlock(t1).HierRates? && HierStatsBlock(t2).HierRates?
    requires ReadLevel(t1, L1I) == ReadLevel(t2, L1I) && ReadLevel(t1, L1D) == ReadLevel(t2, L1D)
    ensures HierStatsBlock(t1).overallL1 == HierStatsBlock(t2).overallL1
  {
  }

  /** Both L1 caches at (900, 100) and (700, 300), the L2 at (250, 150): the
      L1 line reads 1600 / 2000 = 80%, the L2 line 62.5%. */
  lemma HierExample(t: StatTable)
    requires Readable(t, L1I) && Readable(t, L1D) && Readable(t, L2)
    requires ReadLevel(t, L1I) == Counters(900, 100) && ReadLevel(t, L1D) == Counters(700, 300)
    requires ReadLevel(t, L2) == Counters(250, 150)
    ensures HierStatsBlock(t).overallL1.rate == 80.0
    ensures HierStatsBlock(t).l2Local == 62.5
  {
    var r := HierStatsBlock(t);
    assert r.overallL1.hits == 1600 && r.overallL1.misses == 400;
    RateUnique(Counters(1600, 400), 80.0);
    RateUnique(Counters(250, 150), 62.5);
  }
}
