/**
 * Evaluation of a PathSeries load factor: the piecewise-linear interpolation of a
 * uniformly time-stepped sample path (getFactor) and the time at which the path ends
 * (getDuration). Both are straight-line expressions over the series' fields, so they
 * are modelled as functions of a value that collects those fields.
 */
module Interpolation {
  import opened Wrappers

  /**
   * The fields of a PathSeries that evaluation reads. `path` is None where the source's
   * `thePath` is null (no samples held); sample `i` belongs to time
   * `startTime + i * pathTimeIncr`.
   */
  datatype Series = Series(path: Option<seq<real>>, pathTimeIncr: real, cFactor: real,
                           useLast: bool, startTime: real)
  {
    /** A held path is never empty: construction and receipt drop a zero-length one. */
    predicate Valid() {
      path.Some? ==> |path.value| > 0
    }
  }

  /** `incr`: the query time measured in time steps from `startTime`. */
  function Position(s: Series, pseudoTime: real): real
    requires s.pathTimeIncr > 0.0
  {
    (pseudoTime - s.startTime) / s.pathTimeIncr
  }

  /** `incr1`: the index of the last sample at or before the query time. */
  function LowIndex(s: Series, pseudoTime: real): int
    requires s.pathTimeIncr > 0.0
  {
    Position(s, pseudoTime).Floor
  }

  /** The factor returned once the query time has run off the usable part of the path. */
  function BeyondEnd(s: Series): real
    requires s.Valid() && s.path.Some?
  {
    if s.useLast then s.cFactor * s.path.value[|s.path.value| - 1] else 0.0
  }

  /** `x` lies between `a` and `b`, whichever of the two is the smaller. */
  predicate Between(x: real, a: real, b: real) {
    (a <= x <= b) || (b <= x <= a)
  }

  /** getFactor: the load factor at `pseudoTime`. */
  function Factor(s: Series, pseudoTime: real): real
    requires s.Valid() && s.pathTimeIncr > 0.0
  {
    if pseudoTime < s.startTime || s.path.None? then 0.0
    else
      var incr := Position(s, pseudoTime);
      var incr1 := LowIndex(s, pseudoTime);
      var incr2 := incr1 + 1;
      var size := |s.path.value|;
      if incr2 > size - 1 then
        BeyondEnd(s)
      else
        LowIndexNonNegative(s, pseudoTime);
        var value1 := s.path.value[incr1];
        var value2 := s.path.value[incr2];
        s.cFactor * (value1 + (value2 - value1) * (incr - incr1 as real))
  }

  /** getDuration: the end time of the path, `startTime + size * pathTimeIncr`. */
  function Duration(s: Series): (r: real)
    ensures s.path.None? ==> r == 0.0
  {
    if s.path.None? then 0.0
    else s.startTime + |s.path.value| as real * s.pathTimeIncr
  }

  /** Before `startTime`, or with no path held, the factor is zero. */
  lemma FactorQuickReturn(s: Series, pseudoTime: real)
    requires s.Valid() && s.pathTimeIncr > 0.0
    requires pseudoTime < s.startTime || s.path.None?
    ensures Factor(s, pseudoTime) == 0.0
  {
  }

  /** Past the quick return the floor index cannot be negative. */
  lemma LowIndexNonNegative(s: Series, pseudoTime: real)
    requires s.pathTimeIncr > 0.0
    requires pseudoTime >= s.startTime
    ensures Position(s, pseudoTime) >= 0.0
    ensures LowIndex(s, pseudoTime) >= 0
  {
  }

  /** The floor index is the grid cell holding the query time: `incr1 <= incr < incr1 + 1`. */
  lemma LowIndexBrackets(s: Series, pseudoTime: real)
    requires s.pathTimeIncr > 0.0
    ensures LowIndex(s, pseudoTime) as real <= Position(s, pseudoTime) < LowIndex(s, pseudoTime) as real + 1.0
  {
  }

  /**
   * When the upper index `incr1 + 1` passes the last sample, the extrapolation policy
   * decides: zero, or the scaled last sample when `useLast` is set.
   */
  lemma FactorBeyondEnd(s: Series, pseudoTime: real)
    requires s.Valid() && s.pathTimeIncr > 0.0 && s.path.Some?
    requires pseudoTime >= s.startTime
    requires LowIndex(s, pseudoTime) + 1 > |s.path.value| - 1
    ensures Factor(s, pseudoTime) == (if s.useLast then s.cFactor * s.path.value[|s.path.value| - 1] else 0.0)
    ensures !s.useLast ==> Factor(s, pseudoTime) == 0.0
  {
  }

  /** A convex combination of `a` and `b`, scaled by any factor, stays between the scaled ends. */
  lemma ScaledBlendBetween(c: real, a: real, b: real, f: real)
    requires 0.0 <= f <= 1.0
    ensures Between(c * (a + (b - a) * f), c * a, c * b)
  {
    var d := b - a;
    var w := a + d * f;
    assert Between(w, a, b) by {
      if d >= 0.0 {
        assert d * 0.0 <= d * f <= d * 1.0;
      } else {
        assert d * 1.0 <= d * f <= d * 0.0;
      }
    }
    if c >= 0.0 {
      if a <= w { assert c * a <= c * w; } else { assert c * w <= c * a; }
      if w <= b { assert c * w <= c * b; } else { assert c * b <= c * w; }
    } else {
      if a <= w { assert c * w <= c * a; } else { assert c * a <= c * w; }
      if w <= b { assert c * b <= c * w; } else { assert c * w <= c * b; }
    }
  }

  /**
   * Inside the path both indices are in range, the fractional part is in [0, 1), and the
   * factor is the scaled linear blend of the two neighbouring samples, hence lies between them.
   */
  lemma FactorInterpolates(s: Series, pseudoTime: real)
    requires s.Valid() && s.pathTimeIncr > 0.0 && s.path.Some?
    requires pseudoTime >= s.startTime
    requires LowIndex(s, pseudoTime) + 1 <= |s.path.value| - 1
    ensures var i := LowIndex(s, pseudoTime);
            var p := s.path.value;
            var f := Position(s, pseudoTime) - i as real;
            && 0 <= i && i + 1 < |p|
            && 0.0 <= f < 1.0
            && Factor(s, pseudoTime) == s.cFactor * (p[i] + (p[i + 1] - p[i]) * f)
            && Between(Factor(s, pseudoTime), s.cFactor * p[i], s.cFactor * p[i + 1])
  {
    var i := LowIndex(s, pseudoTime);
    var p := s.path.value;
    LowIndexNonNegative(s, pseudoTime);
    LowIndexBrackets(s, pseudoTime);
    ScaledBlendBetween(s.cFactor, p[i], p[i + 1], Position(s, pseudoTime) - i as real);
  }

  /** A time in grid cell `i` (measured from `startTime`) has position in [i, i + 1). */
  lemma PositionInCell(s: Series, i: int, pseudoTime: real)
    requires s.pathTimeIncr > 0.0
    requires s.startTime + i as real * s.pathTimeIncr <= pseudoTime < s.startTime + (i + 1) as real * s.pathTimeIncr
    ensures i as real <= Position(s, pseudoTime) < (i + 1) as real
    ensures LowIndex(s, pseudoTime) == i
    ensures Position(s, pseudoTime) - i as real
            == (pseudoTime - (s.startTime + i as real * s.pathTimeIncr)) / s.pathTimeIncr
  {
    var h := s.pathTimeIncr;
    var d := pseudoTime - s.startTime;
    assert i as real * h <= d < (i + 1) as real * h;
    assert Position(s, pseudoTime) * h == d;
  }

  /**
   * An independent statement of the interpolation: on the segment between grid points `i`
   * and `i + 1` the factor is the scaled straight line through the two samples.
   */
  lemma FactorOnSegment(s: Series, i: nat, pseudoTime: real)
    requires s.Valid() && s.pathTimeIncr > 0.0 && s.path.Some?
    requires i + 1 < |s.path.value|
    requires s.startTime + i as real * s.pathTimeIncr <= pseudoTime < s.startTime + (i + 1) as real * s.pathTimeIncr
    ensures var p := s.path.value;
            Factor(s, pseudoTime)
            == s.cFactor * (p[i] + (p[i + 1] - p[i])
                                   * ((pseudoTime - (s.startTime + i as real * s.pathTimeIncr)) / s.pathTimeIncr))
  {
    PositionInCell(s, i, pseudoTime);
  }

  /** At a grid point before the last one the factor is exactly the scaled sample. */
  lemma FactorAtGridPoint(s: Series, i: nat)
    requires s.Valid() && s.pathTimeIncr > 0.0 && s.path.Some?
    requires i + 1 < |s.path.value|
    ensures Factor(s, s.startTime + i as real * s.pathTimeIncr) == s.cFactor * s.path.value[i]
  {
    var t := s.startTime + i as real * s.pathTimeIncr;
    FactorOnSegment(s, i, t);
    assert (t - (s.startTime + i as real * s.pathTimeIncr)) / s.pathTimeIncr == 0.0;
  }

  /**
   * From the last grid point on (the last grid point included) the factor is the
   * beyond-end value: the last segment ends where the last sample sits.
   */
  lemma FactorFromLastGridPoint(s: Series, pseudoTime: real)
    requires s.Valid() && s.pathTimeIncr > 0.0 && s.path.Some?
    requires pseudoTime >= s.startTime + (|s.path.value| - 1) as real * s.pathTimeIncr
    ensures Factor(s, pseudoTime) == BeyondEnd(s)
  {
    var n := |s.path.value|;
    var h := s.pathTimeIncr;
    var d := pseudoTime - s.startTime;
    assert (n - 1) as real * h <= d;
    assert Position(s, pseudoTime) * h == d;
    assert Position(s, pseudoTime) >= (n - 1) as real;
    assert LowIndex(s, pseudoTime) >= n - 1;
  }

  /** Once the duration has elapsed the extrapolation policy alone gives the factor. */
  lemma FactorPastDuration(s: Series, pseudoTime: real)
    requires s.Valid() && s.pathTimeIncr > 0.0 && s.path.Some?
    requires pseudoTime >= Duration(s)
    ensures Factor(s, pseudoTime) == BeyondEnd(s)
  {
    var n := |s.path.value|;
    assert (n - 1) as real * s.pathTimeIncr <= n as real * s.pathTimeIncr;
    FactorFromLastGridPoint(s, pseudoTime);
  }

  /** The duration lies one time step past the last sample's time. */
  lemma DurationAfterLastSample(s: Series)
    requires s.Valid() && s.pathTimeIncr > 0.0 && s.path.Some?
    ensures Duration(s) == s.startTime + (|s.path.value| - 1) as real * s.pathTimeIncr + s.pathTimeIncr
    ensures Duration(s) > s.startTime
  {
  }

  /** Samples 0, 2, 4, 2, 0 one time unit apart: halfway to the second sample the factor is 1. */
  lemma MidpointExample()
    ensures Factor(Series(Some([0.0, 2.0, 4.0, 2.0, 0.0]), 1.0, 1.0, false, 0.0), 0.5) == 1.0
  {
    var s := Series(Some([0.0, 2.0, 4.0, 2.0, 0.0]), 1.0, 1.0, false, 0.0);
    PositionInCell(s, 0, 0.5);
  }

  /** Holding a last sample of 4 with a factor of 2 gives 8 at every time past the path. */
  lemma HoldLastExample(pseudoTime: real)
    requires pseudoTime >= 2.0
    ensures Factor(Series(Some([1.0, -3.0, 4.0]), 1.0, 2.0, true, 0.0), pseudoTime) == 8.0
  {
    FactorFromLastGridPoint(Series(Some([1.0, -3.0, 4.0]), 1.0, 2.0, true, 0.0), pseudoTime);
  }
}
