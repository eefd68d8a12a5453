/** Interpolated quantiles of ordered samples, over exact reals. */
module Quantiles {
  import opened Tallies

  /** The value at a fractional position: the two neighbours, weighted by how near they are. */
  function At(xs: seq<nat>, position: real): real
    requires 0.0 <= position <= (|xs| - 1) as real
  {
    var low := position.Floor;
    var high := if position == low as real then low else low + 1;
    xs[low] as real + (xs[high] as real - xs[low] as real) * (position - low as real)
  }

  /** Where a percentile falls among `n` samples, numbered from zero. */
  function Position(n: nat, percentile: real): real {
    (n - 1) as real * percentile
  }

  lemma PositionFits(n: nat, percentile: real)
    requires n > 0 && 0.0 <= percentile <= 1.0
    ensures 0.0 <= Position(n, percentile) <= (n - 1) as real
  {
    assert (n - 1) as real * percentile <= (n - 1) as real * 1.0;
  }

  /** Linear interpolation between the samples next to the percentile's position. */
  function Quantile(xs: seq<nat>, percentile: real): real
    requires xs != [] && 0.0 <= percentile <= 1.0
  {
    if |xs| == 1 then xs[0] as real
    else
      PositionFits(|xs|, percentile);
      At(xs, Position(|xs|, percentile))
  }

  /** The more weight the larger value has, the larger the mix, and no mix leaves the two. */
  lemma Weigh(a: real, b: real, f: real, g: real)
    requires a <= b && 0.0 <= f <= g <= 1.0
    ensures a <= a + (b - a) * f <= a + (b - a) * g <= b
  {
    var d := b - a;
    assert d * f <= d * g <= d * 1.0;
  }

  /** A position lies between its neighbours' values. */
  lemma AtLiesBetweenNeighbours(xs: seq<nat>, position: real)
    requires Ordered(xs) && 0.0 <= position <= (|xs| - 1) as real
    ensures xs[position.Floor] as real <= At(xs, position)
    ensures position.Floor + 1 < |xs| ==> At(xs, position) <= xs[position.Floor + 1] as real
    ensures position == position.Floor as real ==> At(xs, position) == xs[position.Floor] as real
  {
    hide At, Mix;
    var low := position.Floor;
    if position == low as real {
      AtASample(xs, low);
    } else {
      AtIsMix(xs, position);
      MixStaysBetween(xs[low] as real, xs[low + 1] as real, position - low as real);
    }
  }

  lemma AtASample(xs: seq<nat>, i: nat)
    requires i < |xs|
    ensures At(xs, i as real) == xs[i] as real
  {
    var d := xs[i] as real - xs[i] as real;
    assert d == 0.0 && i as real - i as real == 0.0;
    assert (i as real).Floor == i;
  }

  lemma AtIsMix(xs: seq<nat>, position: real)
    requires 0.0 <= position <= (|xs| - 1) as real && position != position.Floor as real
    ensures position.Floor + 1 < |xs|
    ensures At(xs, position)
              == Mix(xs[position.Floor] as real, xs[position.Floor + 1] as real, position - position.Floor as real)
  {
  }

  /** Moving right never goes down. */
  lemma AtIsMonotone(xs: seq<nat>, p: real, q: real)
    requires Ordered(xs) && 0.0 <= p <= q <= (|xs| - 1) as real
    ensures At(xs, p) <= At(xs, q)
  {
    AtLiesBetweenNeighbours(xs, p);
    AtLiesBetweenNeighbours(xs, q);
    var i, j := p.Floor, q.Floor;
    if i == j {
      if p != i as real {
        Weigh(xs[i] as real, xs[i + 1] as real, p - i as real, q - i as real);
      }
    } else {
      assert i + 1 <= j;
      assert xs[i + 1] <= xs[j];
    }
  }

  /** Over every ordered sample: a quantile grows with the percentile and never leaves the range of the sample. */
  lemma QuantilesAreMonotoneAndBounded(xs: seq<nat>, p: real, q: real)
    requires xs != [] && Ordered(xs) && 0.0 <= p <= q <= 1.0
    ensures xs[0] as real <= Quantile(xs, p) <= Quantile(xs, q) <= xs[|xs| - 1] as real
  {
    if |xs| > 1 {
      PositionFits(|xs|, p);
      PositionFits(|xs|, q);
      PositionsGrow(|xs|, p, q);
      PositionsAreMonotoneAndBounded(xs, Position(|xs|, p), Position(|xs|, q));
    }
  }

  lemma PositionsAreMonotoneAndBounded(xs: seq<nat>, a: real, b: real)
    requires Ordered(xs) && 0.0 <= a <= b <= (|xs| - 1) as real
    ensures xs[0] as real <= At(xs, a) <= At(xs, b) <= xs[|xs| - 1] as real
  {
    AtIsMonotone(xs, 0.0, a);
    AtIsMonotone(xs, a, b);
    AtIsMonotone(xs, b, (|xs| - 1) as real);
    AtLiesBetweenNeighbours(xs, 0.0);
    AtLiesBetweenNeighbours(xs, (|xs| - 1) as real);
  }

  lemma PositionsGrow(n: nat, p: real, q: real)
    requires n > 0 && p <= q
    ensures Position(n, p) <= Position(n, q)
  {
  }

  /** The ends of the scale are the ends of the sample. */
  lemma QuantileEnds(xs: seq<nat>)
    requires xs != [] && Ordered(xs)
    ensures Quantile(xs, 0.0) == xs[0] as real && Quantile(xs, 1.0) == xs[|xs| - 1] as real
  {
    if |xs| > 1 {
      AtLiesBetweenNeighbours(xs, 0.0);
      AtLiesBetweenNeighbours(xs, (|xs| - 1) as real);
    }
  }

  // ----- What the numbers are ------------------------------------------------

  /** The value that lies between `a` and `b` by the weight `w`. */
  function Mix(a: real, b: real, w: real): real {
    a + (b - a) * w
  }

  function Line(at: real, slope: real, x: real): real {
    at + slope * x
  }

  lemma Portion(d: real, w: real)
    requires 0.0 <= d && 0.0 <= w <= 1.0
    ensures 0.0 <= d * w <= d
  {
    assert d * w <= d * 1.0;
  }

  lemma MixStaysBetween(p: real, q: real, w: real)
    requires p <= q && 0.0 <= w <= 1.0
    ensures p <= Mix(p, q, w) <= q
  {
    var d := q - p;
    Portion(d, w);
    assert Mix(p, q, w) == p + d * w;
    assert p + d == q;
  }

  lemma PositionOfMix(n: nat, p: real, q: real, w: real)
    ensures Position(n, Mix(p, q, w)) == Mix(Position(n, p), Position(n, q), w)
  {
    var k := (n - 1) as real;
    assert k * ((q - p) * w) == (k * (q - p)) * w;
  }

  /** Along a straight line a mix of two places has the mix of their values. */
  lemma MixOnALine(at: real, slope: real, start: real, x: real, y: real, w: real)
    ensures Line(at, slope, Mix(x, y, w) - start) == Mix(Line(at, slope, x - start), Line(at, slope, y - start), w)
  {
    var u, v := x - start, y - start;
    assert Mix(x, y, w) - start == u + (v - u) * w;
    assert slope * (u + (v - u) * w) == slope * u + slope * ((v - u) * w);
    assert slope * ((v - u) * w) == (slope * v - slope * u) * w;
  }

  /** Between two neighbouring samples the value rises in proportion. */
  lemma BetweenNeighbours(xs: seq<nat>, i: nat, x: real)
    requires i + 1 < |xs| && i as real <= x <= (i + 1) as real
    ensures At(xs, x) == Line(xs[i] as real, xs[i + 1] as real - xs[i] as real, x - i as real)
  {
    if x == (i + 1) as real {
      assert x.Floor == i + 1;
    } else {
      assert x.Floor == i;
    }
  }

  /** At the position of a sample the quantile is that sample. */
  lemma QuantileAtSample(xs: seq<nat>, i: nat, percentile: real)
    requires i < |xs| && 0.0 <= percentile <= 1.0 && (|xs| - 1) as real * percentile == i as real
    ensures Quantile(xs, percentile) == xs[i] as real
  {
    if |xs| > 1 && i + 1 < |xs| {
      BetweenNeighbours(xs, i, i as real);
    } else if |xs| > 1 {
      BetweenNeighbours(xs, i - 1, i as real);
    }
  }

  lemma PositionsInterpolate(xs: seq<nat>, i: nat, a: real, b: real, w: real)
    requires i + 1 < |xs| && i as real <= a <= b <= (i + 1) as real && 0.0 <= w <= 1.0
    ensures i as real <= Mix(a, b, w) <= (i + 1) as real
    ensures At(xs, Mix(a, b, w)) == Mix(At(xs, a), At(xs, b), w)
  {
    hide Mix, Line, At;
    MixStaysBetween(a, b, w);
    BetweenNeighbours(xs, i, a);
    BetweenNeighbours(xs, i, b);
    BetweenNeighbours(xs, i, Mix(a, b, w));
    MixOnALine(xs[i] as real, xs[i + 1] as real - xs[i] as real, i as real, a, b, w);
  }

  /**
    From one sample to the next a quantile grows in proportion to the percentile: any mix of two percentiles has the
    same mix of their quantiles.
  */
  lemma QuantilesInterpolate(xs: seq<nat>, i: nat, p: real, q: real, w: real)
    requires i + 1 < |xs| && 0.0 <= p <= q <= 1.0 && 0.0 <= w <= 1.0
    requires i as real <= Position(|xs|, p) && Position(|xs|, q) <= (i + 1) as real
    ensures p <= Mix(p, q, w) <= q
    ensures Quantile(xs, Mix(p, q, w)) == Mix(Quantile(xs, p), Quantile(xs, q), w)
  {
    hide Mix, At, Position;
    MixStaysBetween(p, q, w);
    PositionsGrow(|xs|, p, q);
    PositionOfMix(|xs|, p, q, w);
    PositionsInterpolate(xs, i, Position(|xs|, p), Position(|xs|, q), w);
  }

  /** The median is the middle sample of an odd number, and the mean of the two middle ones of an even number. */
  lemma MedianIsTheMiddle(xs: seq<nat>, k: nat)
    ensures |xs| == 2 * k + 1 ==> Quantile(xs, 0.5) == xs[k] as real
    ensures |xs| == 2 * k + 2 ==> Quantile(xs, 0.5) == (xs[k] as real + xs[k + 1] as real) / 2.0
  {
    if |xs| == 2 * k + 1 {
      QuantileAtSample(xs, k, 0.5);
    } else if |xs| == 2 * k + 2 {
      BetweenNeighbours(xs, k, k as real + 0.5);
    }
  }
}
