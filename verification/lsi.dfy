/** The Langelier Saturation Index: three step-function factor tables, the
    binary TDS factor, and rounding to two decimals. */
module LsiIndex {
  import opened PoolTypes

  /** One breakpoint of a factor table. */
  datatype Point = Point(threshold: real, factor: real)

  const TempPoints: seq<Point> := [
    Point(32.0, 0.0), Point(38.0, 0.1), Point(46.0, 0.2), Point(53.0, 0.3), Point(60.0, 0.4),
    Point(66.0, 0.5), Point(76.0, 0.6), Point(84.0, 0.7), Point(94.0, 0.8), Point(105.0, 0.9)]

  const CalciumPoints: seq<Point> := [
    Point(25.0, 1.0), Point(50.0, 1.3), Point(75.0, 1.5), Point(100.0, 1.6), Point(150.0, 1.8),
    Point(200.0, 1.9), Point(300.0, 2.1), Point(400.0, 2.2), Point(800.0, 2.5)]

  const AlkalinityPoints: seq<Point> := [
    Point(25.0, 1.4), Point(50.0, 1.7), Point(75.0, 1.9), Point(100.0, 2.0), Point(150.0, 2.2),
    Point(200.0, 2.3), Point(300.0, 2.5), Point(400.0, 2.6)]

  /** Thresholds in non-decreasing order, stated on neighbours. */
  ghost predicate Ascending(points: seq<Point>)
  {
    forall i :: 0 <= i < |points| - 1 ==> points[i].threshold <= points[i + 1].threshold
  }

  /** Factors in non-decreasing order, the first not below zero. */
  ghost predicate FactorsRise(points: seq<Point>)
  {
    && (forall i :: 0 <= i < |points| - 1 ==> points[i].factor <= points[i + 1].factor)
    && (|points| > 0 ==> 0.0 <= points[0].factor)
  }

  lemma {:induction false} AscendingSpan(points: seq<Point>, i: int, j: int)
    requires Ascending(points)
    requires 0 <= i <= j < |points|
    ensures points[i].threshold <= points[j].threshold
    decreases j - i
  {
    if i < j {
      AscendingSpan(points, i + 1, j);
    }
  }

  /** The scan of the table: keep the factor of each breakpoint reached,
      stop at the first threshold above the value. */
  function FactorFrom(v: real, points: seq<Point>, acc: real): real
    decreases |points|
  {
    if |points| == 0 || v < points[0].threshold then acc
    else FactorFrom(v, points[1..], points[0].factor)
  }

  /** The factor of the value; zero below the first threshold. */
  function Factor(v: real, points: seq<Point>): (r: real)
    ensures |points| == 0 || v < points[0].threshold ==> r == 0.0
  {
    FactorFrom(v, points, 0.0)
  }

  /** Breakpoint k is the last one whose threshold is not above the value:
      threshold(k) <= v, and k is last or v < threshold(k + 1). */
  predicate SegmentOf(v: real, points: seq<Point>, k: int)
  {
    0 <= k < |points| && points[k].threshold <= v && (k + 1 == |points| || v < points[k + 1].threshold)
  }

  /** The loop of getFactor in services/poolAnalyzer.ts, with its early exit. It returns 0 below the
      first threshold and, on an ascending table, the factor of the largest
      threshold not above the value. */
  method GetFactor(v: real, points: seq<Point>) returns (factor: real)
    ensures factor == Factor(v, points)
    ensures |points| == 0 || v < points[0].threshold ==> factor == 0.0
    ensures Ascending(points) ==>
              forall k :: SegmentOf(v, points, k) ==> factor == points[k].factor
  {
    factor := 0.0;
    var i := 0;
    while i < |points|
      invariant 0 <= i <= |points|
      invariant FactorFrom(v, points[i..], factor) == Factor(v, points)
    {
      if v >= points[i].threshold {
        assert points[i..][1..] == points[i + 1..];
        factor := points[i].factor;
      } else {
        break;
      }
      i := i + 1;
    }
    if Ascending(points) {
      forall k | SegmentOf(v, points, k)
        ensures factor == points[k].factor
      {
        FactorOfSegment(v, points, k);
      }
    }
  }

  lemma {:induction false} FactorFromSegment(v: real, points: seq<Point>, acc: real, k: int)
    requires Ascending(points)
    requires 0 <= k < |points| && points[k].threshold <= v
    requires k + 1 == |points| || v < points[k + 1].threshold
    ensures FactorFrom(v, points, acc) == points[k].factor
    decreases k
  {
    AscendingSpan(points, 0, k);
    if k > 0 {
      FactorFromSegment(v, points[1..], points[0].factor, k - 1);
    }
  }

  /** On an ascending table the result is the factor of the breakpoint k
      with threshold(k) <= v < threshold(k + 1), the largest threshold not
      above the value. */
  lemma FactorOfSegment(v: real, points: seq<Point>, k: int)
    requires Ascending(points) && SegmentOf(v, points, k)
    ensures Factor(v, points) == points[k].factor
  {
    FactorFromSegment(v, points, 0.0, k);
  }

  /** At or above the last threshold the result is the last factor. */
  lemma FactorAtOrAboveLast(v: real, points: seq<Point>)
    requires Ascending(points) && |points| > 0
    requires points[|points| - 1].threshold <= v
    ensures Factor(v, points) == points[|points| - 1].factor
  {
    FactorOfSegment(v, points, |points| - 1);
  }

  lemma {:induction false} FactorFromAtLeast(v: real, points: seq<Point>, acc: real)
    requires FactorsRise(points)
    requires |points| > 0 ==> acc <= points[0].factor
    ensures acc <= FactorFrom(v, points, acc)
    decreases |points|
  {
    if |points| > 0 && v >= points[0].threshold {
      FactorFromAtLeast(v, points[1..], points[0].factor);
    }
  }

  lemma {:induction false} FactorFromMonotone(v1: real, v2: real, points: seq<Point>, acc1: real, acc2: real)
    requires FactorsRise(points)
    requires v1 <= v2 && acc1 <= acc2
    requires |points| > 0 ==> acc2 <= points[0].factor
    ensures FactorFrom(v1, points, acc1) <= FactorFrom(v2, points, acc2)
    decreases |points|
  {
    if |points| == 0 {
    } else if v1 < points[0].threshold {
      FactorFromAtLeast(v2, points, acc2);
    } else {
      FactorFromMonotone(v1, v2, points[1..], points[0].factor, points[0].factor);
    }
  }

  lemma {:induction false} FactorFromAtMost(v: real, points: seq<Point>, acc: real, top: real)
    requires FactorsRise(points)
    requires acc <= top
    requires |points| > 0 ==> points[|points| - 1].factor <= top
    ensures FactorFrom(v, points, acc) <= top
    decreases |points|
  {
    if |points| > 0 && v >= points[0].threshold {
      if |points| > 1 {
        FactorsRiseSpan(points, 0, |points| - 1);
      }
      FactorFromAtMost(v, points[1..], points[0].factor, top);
    }
  }

  lemma {:induction false} FactorsRiseSpan(points: seq<Point>, i: int, j: int)
    requires FactorsRise(points)
    requires 0 <= i <= j < |points|
    ensures points[i].factor <= points[j].factor
    decreases j - i
  {
    if i < j {
      FactorsRiseSpan(points, i + 1, j);
    }
  }

  /** With rising factors, the looked-up factor lies between 0 and the last factor. */
  lemma FactorBounded(v: real, points: seq<Point>)
    requires FactorsRise(points) && |points| > 0
    ensures 0.0 <= Factor(v, points) <= points[|points| - 1].factor
  {
    FactorFromAtLeast(v, points, 0.0);
    FactorsRiseSpan(points, 0, |points| - 1);
    FactorFromAtMost(v, points, 0.0, points[|points| - 1].factor);
  }

  /** When the factors rise with the thresholds, so does the looked-up factor. */
  lemma FactorMonotone(v1: real, v2: real, points: seq<Point>)
    requires FactorsRise(points)
    requires v1 <= v2
    ensures Factor(v1, points) <= Factor(v2, points)
  {
    FactorFromMonotone(v1, v2, points, 0.0, 0.0);
  }

  /** The temperature table is ascending in both columns. */
  lemma TempTableOrdered()
    ensures Ascending(TempPoints) && FactorsRise(TempPoints)
  {
  }

  /** The calcium table is ascending in both columns. */
  lemma CalciumTableOrdered()
    ensures Ascending(CalciumPoints) && FactorsRise(CalciumPoints)
  {
  }

  /** The alkalinity table is ascending in both columns. */
  lemma AlkalinityTableOrdered()
    ensures Ascending(AlkalinityPoints) && FactorsRise(AlkalinityPoints)
  {
  }

  /** 12.1 below 1000 ppm, 12.2 from 1000 ppm on. */
  function TdsFactor(tds: real): (f: real)
    ensures f == 12.1 <==> tds < 1000.0
    ensures f == 12.1 || f == 12.2
  {
    if tds < 1000.0 then 12.1 else 12.2
  }

  /** A real with at most two decimals. */
  predicate TwoDecimals(x: real)
  {
    (x * 100.0).Floor as real == x * 100.0
  }

  /** Rounding half up of a non-negative value, the magnitude step of Round2. */
  function RoundMagnitude(y: real): real
    requires y >= 0.0
  {
    (y * 100.0 + 0.5).Floor as real / 100.0
  }

  lemma RoundMagnitudeBounds(y: real)
    requires y >= 0.0
    ensures TwoDecimals(RoundMagnitude(y))
    ensures -0.005 < RoundMagnitude(y) - y <= 0.005
    ensures RoundMagnitude(y) >= 0.0
    ensures y == 0.0 ==> RoundMagnitude(y) == 0.0
  {
    var n := (y * 100.0 + 0.5).Floor;
    assert n as real <= y * 100.0 + 0.5 < n as real + 1.0;
    assert RoundMagnitude(y) * 100.0 == n as real;
    if y == 0.0 {
      assert n == 0;
    }
  }

  lemma TwoDecimalsNegate(m: real)
    requires TwoDecimals(m)
    ensures TwoDecimals(-m)
  {
    var n := (m * 100.0).Floor;
    assert (-m) * 100.0 == (-n) as real;
  }

  /** Rounding to two decimals, half away from zero: the nearest two-decimal
      value, ties going to the one of larger magnitude. */
  function Round2(x: real): (r: real)
    ensures TwoDecimals(r)
    ensures -0.005 <= r - x <= 0.005
    ensures r - x == 0.005 ==> x > 0.0
    ensures x - r == 0.005 ==> x < 0.0
  {
    if x >= 0.0 then
      RoundMagnitudeBounds(x);
      RoundMagnitude(x)
    else
      RoundMagnitudeBounds(-x);
      TwoDecimalsNegate(RoundMagnitude(-x));
      -RoundMagnitude(-x)
  }

  /** A value that already has two decimals is left unchanged. */
  lemma Round2Fixes(x: real)
    requires TwoDecimals(x)
    ensures Round2(x) == x
  {
    var n := (x * 100.0).Floor;
    if x >= 0.0 {
      assert (x * 100.0 + 0.5).Floor == n;
    } else {
      assert ((-x) * 100.0 + 0.5).Floor == -n;
    }
  }

  /** Rounding commutes with negation. */
  lemma Round2Odd(x: real)
    ensures Round2(-x) == -Round2(x)
  {
    if x == 0.0 {
    } else if x > 0.0 {
      assert -(-x) == x;
    }
  }

  /** The .005 tie goes away from zero on both sides. */
  lemma Round2Ties()
    ensures Round2(0.125) == 0.13
    ensures Round2(-0.125) == -0.13
  {
    assert (0.125 * 100.0 + 0.5).Floor == 13;
  }

  /** The unrounded index: pH plus the three table factors minus the TDS
      factor. Since the table factors lie between 0 and their last entries,
      it lies between pH - 12.2 and pH - 6.1. */
  function LsiRaw(r: Readings): (raw: real)
    ensures r.ph - 12.2 <= raw <= r.ph + 0.9 + 2.5 + 2.6 - 12.1
  {
    TempTableOrdered();
    CalciumTableOrdered();
    AlkalinityTableOrdered();
    FactorBounded(r.temperature, TempPoints);
    FactorBounded(r.calciumHardness, CalciumPoints);
    FactorBounded(r.totalAlkalinity, AlkalinityPoints);
    r.ph + Factor(r.temperature, TempPoints) + Factor(r.calciumHardness, CalciumPoints)
      + Factor(r.totalAlkalinity, AlkalinityPoints) - TdsFactor(r.tds)
  }

  /** The index as displayed and classified: rounded to two decimals. */
  function LsiValue(r: Readings): (lsi: real)
    ensures TwoDecimals(lsi)
    ensures -0.005 <= lsi - LsiRaw(r) <= 0.005
  {
    Round2(LsiRaw(r))
  }

  /** Raising temperature, calcium hardness or alkalinity never lowers the
      unrounded index. */
  lemma LsiRawMonotone(a: Readings, b: Readings)
    requires a.ph == b.ph && a.tds == b.tds
    requires a.temperature <= b.temperature
    requires a.calciumHardness <= b.calciumHardness
    requires a.totalAlkalinity <= b.totalAlkalinity
    ensures LsiRaw(a) <= LsiRaw(b)
  {
    TempTableOrdered();
    CalciumTableOrdered();
    AlkalinityTableOrdered();
    FactorMonotone(a.temperature, b.temperature, TempPoints);
    FactorMonotone(a.calciumHardness, b.calciumHardness, CalciumPoints);
    FactorMonotone(a.totalAlkalinity, b.totalAlkalinity, AlkalinityPoints);
  }
}
