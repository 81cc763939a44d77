/** Hit-rate arithmetic over the raw hit/miss tallies that a cache level
    reports after a run. A percentage is an exact `real`: the scripts divide
    two integers and multiply by 100, and no rounding is modelled here. */
module HitRate {

  /** The two counters read back from one cache level. */
  datatype Counters = Counters(hits: nat, misses: nat)
  {
    function Accesses(): nat { hits + misses }

    /** Adding the tallies of two levels (the scripts' `total_*` sums). */
    function Plus(other: Counters): Counters {
      Counters(hits + other.hits, misses + other.misses)
    }
  }

  /** The percentage of accesses that hit, with the zero-access policy:
      a level that was never accessed reports exactly 0, not an error. */
  function Rate(c: Counters): (r: real)
    ensures 0.0 <= r <= 100.0
    ensures c.Accesses() == 0 ==> r == 0.0
    ensures c.Accesses() > 0 ==> r * (c.Accesses() as real) == 100.0 * (c.hits as real)
  {
    if c.Accesses() > 0 then
      var a := c.Accesses() as real;
      assert (c.hits as real) / a <= 1.0;
      (c.hits as real) / a * 100.0
    else 0.0
  }

  /** The rate is pinned down by the equation `r * accesses == 100 * hits`. */
  lemma RateUnique(c: Counters, r: real)
    requires c.Accesses() > 0
    requires r * (c.Accesses() as real) == 100.0 * (c.hits as real)
    ensures Rate(c) == r
  {
    var a := c.Accesses() as real;
    assert (Rate(c) - r) * a == 0.0;
  }

  /** Reaching 100% means at least one access and no miss; 0% means no hit. */
  lemma RateExtremes(c: Counters)
    ensures Rate(c) == 100.0 <==> c.hits > 0 && c.misses == 0
    ensures Rate(c) == 0.0 <==> c.hits == 0
  {
    var a := c.Accesses() as real;
    if c.Accesses() > 0 {
      assert Rate(c) * a == 100.0 * (c.hits as real);
      if Rate(c) == 100.0 {
        assert 100.0 * a == 100.0 * (c.hits as real);
      }
    }
  }

  /** With misses fixed, more hits never lower the rate. */
  lemma RateMonotoneInHits(h1: nat, h2: nat, m: nat)
    requires h1 <= h2
    ensures Rate(Counters(h1, m)) <= Rate(Counters(h2, m))
  {
    if h1 + m > 0 {
      CrossMonotone(h1 as real, h2 as real, m as real, Rate(Counters(h1, m)), Rate(Counters(h2, m)));
    }
  }

  /** With hits fixed, more misses never raise the rate. */
  lemma RateAntitoneInMisses(h: nat, m1: nat, m2: nat)
    requires m1 <= m2
    ensures Rate(Counters(h, m2)) <= Rate(Counters(h, m1))
  {
    if h + m1 > 0 {
      CrossAntitone(h as real, m1 as real, m2 as real, Rate(Counters(h, m1)), Rate(Counters(h, m2)));
    } else {
      RateExtremes(Counters(h, m2));
    }
  }

  // Real-arithmetic steps, kept apart from Rate so that its definition is not in scope.

  lemma CancelPositive(x: real, y: real, k: real)
    requires k > 0.0 && x * k <= y * k
    ensures x <= y
  {
  }

  lemma CrossMonotone(h1: real, h2: real, m: real, r1: real, r2: real)
    requires 0.0 <= h1 <= h2 && 0.0 <= m && h1 + m > 0.0
    requires r1 * (h1 + m) == 100.0 * h1 && r2 * (h2 + m) == 100.0 * h2
    ensures r1 <= r2
  {
    var a1, a2 := h1 + m, h2 + m;
    var u, v, w := h1 * m, h2 * m, h1 * h2;
    assert u <= v;
    assert h1 * a2 == w + u;
    assert h2 * a1 == w + v;
    var s1, s2 := h1 * a2, h2 * a1;
    assert r1 * a1 * a2 == 100.0 * s1;
    assert r2 * a2 * a1 == 100.0 * s2;
    CancelPositive(r1, r2, a1 * a2);
  }

  lemma CrossAntitone(h: real, m1: real, m2: real, r1: real, r2: real)
    requires 0.0 <= h && 0.0 <= m1 <= m2 && h + m1 > 0.0
    requires r1 * (h + m1) == 100.0 * h && r2 * (h + m2) == 100.0 * h
    ensures r2 <= r1
  {
    var a1, a2 := h + m1, h + m2;
    var s1, s2 := h * a1, h * a2;
    assert s1 <= s2;
    assert r1 * a1 * a2 == 100.0 * s2;
    assert r2 * a2 * a1 == 100.0 * s1;
    CancelPositive(r2, r1, a1 * a2);
  }

  lemma WeightedMean(r: real, ra: real, rb: real, x: real, y: real, lo: real, hi: real)
    requires x > 0.0 && y > 0.0
    requires r * (x + y) == ra * x + rb * y
    requires lo <= ra <= hi && lo <= rb <= hi
    ensures lo <= r <= hi
  {
    var k := x + y;
    var p1, p2, p3, p4 := lo * x, ra * x, lo * y, rb * y;
    var q1, q2 := hi * x, hi * y;
    assert p1 <= p2 && p3 <= p4;
    assert p2 <= q1 && p4 <= q2;
    assert lo * k == p1 + p3;
    assert hi * k == q1 + q2;
    assert r * k == p2 + p4;
    CancelPositive(lo, r, k);
    CancelPositive(r, hi, k);
  }

  /** The tallies of a group of levels, summed level by level. */
  function Total(levels: seq<Counters>): (r: Counters)
    ensures levels == [] ==> r == Counters(0, 0)
  {
    if levels == [] then Counters(0, 0) else levels[0].Plus(Total(levels[1..]))
  }

  /** Grouping: the total of a concatenation is the sum of the two totals. */
  lemma {:induction false} TotalAppend(xs: seq<Counters>, ys: seq<Counters>)
    ensures Total(xs + ys) == Total(xs).Plus(Total(ys))
  {
    if xs == [] {
      assert xs + ys == ys;
    } else {
      assert (xs + ys)[1..] == xs[1..] + ys;
      TotalAppend(xs[1..], ys);
    }
  }

  /** A level with no accesses adds nothing to a group. */
  lemma PlusIdle(idle: Counters, c: Counters)
    requires idle.Accesses() == 0
    ensures idle.Plus(c) == c
    ensures c.Plus(idle) == c
  {
    PlusIdleRight(idle, c);
    assert idle.hits == 0;
  }

  lemma PlusIdleRight(idle: Counters, c: Counters)
    requires idle.Accesses() == 0
    ensures c.Plus(idle) == c
  {
  }

  /** The rate of a group: counts are summed first and divided once. */
  function AggregateRate(levels: seq<Counters>): (r: real)
    ensures 0.0 <= r <= 100.0
  {
    Rate(Total(levels))
  }

  /** Pooling two accessed levels gives their traffic-weighted mean, which
      lies between the two levels' own rates. */
  lemma PooledBetween(a: Counters, b: Counters, lo: real, hi: real)
    requires a.Accesses() > 0 && b.Accesses() > 0
    requires lo <= Rate(a) <= hi && lo <= Rate(b) <= hi
    ensures lo <= Rate(a.Plus(b)) <= hi
  {
    var x, y := a.Accesses() as real, b.Accesses() as real;
    var ra, rb, r := Rate(a), Rate(b), Rate(a.Plus(b));
    var ha, hb := a.hits as real, b.hits as real;
    assert r * (x + y) == 100.0 * (ha + hb);
    assert ra * x == 100.0 * ha;
    assert rb * y == 100.0 * hb;
    WeightedMean(r, ra, rb, x, y, lo, hi);
  }

  /** The group rate is never biased outside the range of its accessed
      levels' own rates: if every accessed level's rate lies in [lo, hi],
      so does the group's (unless no level was accessed, then it is 0). */
  lemma {:induction false} AggregateWithinLevelRates(levels: seq<Counters>, lo: real, hi: real)
    requires forall i :: 0 <= i < |levels| && levels[i].Accesses() > 0 ==> lo <= Rate(levels[i]) <= hi
    ensures Total(levels).Accesses() == 0 ==> AggregateRate(levels) == 0.0
    ensures Total(levels).Accesses() > 0 ==> lo <= AggregateRate(levels) <= hi
  {
    if levels != [] {
      var head, rest := levels[0], levels[1..];
      forall i | 0 <= i < |rest| && rest[i].Accesses() > 0
        ensures lo <= Rate(rest[i]) <= hi
      {
        assert rest[i] == levels[i + 1];
      }
      AggregateWithinLevelRates(rest, lo, hi);
      var tail := Total(rest);
      assert Total(levels) == head.Plus(tail);
      if head.Accesses() == 0 {
        PlusIdle(head, tail);
      } else if tail.Accesses() == 0 {
        PlusIdle(tail, head);
        assert lo <= Rate(head) <= hi;
      } else {
        assert lo <= Rate(head) <= hi;
        PooledBetween(head, tail, lo, hi);
      }
    }
  }

  /** The mean of the per-level rates is a different quantity: with one busy
      level at (1000, 0) and one quiet level at (1, 9), the mean is 55% while
      the pooled rate is 100 * 1001 / 1010, above 99%. */
  lemma PooledIsNotMeanOfRates()
    ensures var busy, quiet := Counters(1000, 0), Counters(1, 9);
      && (Rate(busy) + Rate(quiet)) / 2.0 == 55.0
      && AggregateRate([busy, quiet]) == 100.0 * 1001.0 / 1010.0
      && AggregateRate([busy, quiet]) > 99.0
  {
    var busy, quiet := Counters(1000, 0), Counters(1, 9);
    RateUnique(busy, 100.0);
    RateUnique(quiet, 10.0);
    assert Total([busy, quiet]) == Counters(1001, 9) by {
      assert [busy, quiet][1..] == [quiet];
    }
    RateUnique(Counters(1001, 9), 100.0 * 1001.0 / 1010.0);
  }
}
