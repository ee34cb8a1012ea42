/**
 Rate-quality curves of the codec bench and the BD-rate between two of them: `curve`, `_avg`
 and `bd_rate`, over the reals, with the logarithm and its inverse as parameters.
 */
module RateCurve {
  import opened Arithmetic
  import opened Interpolation
  import opened Options

  type Scores = map<string, real>

  /** One scored run: the rate it really took, and its scores over all and over each segment. */
  datatype Quality = Quality(kbpsActual: real, all: Scores, segments: map<string, Scores>)
  datatype Row = Row(tag: string, quality: Option<Quality>)
  datatype Point = Point(rate: real, quality: real)

  const TOLERANCE: real := 0.000000001

  // ----- Measured points ---------------------------------------------------

  /** The scores a row contributes to a curve, if it has any. */
  function Source(row: Row, tag: string, segment: Option<string>): Option<Scores> {
    if row.tag != tag || row.quality.None? then None
    else
      var q := row.quality.value;
      if segment.Some? && segment.value != "" then
        if segment.value in q.segments && q.segments[segment.value] != map[]
        then Some(q.segments[segment.value]) else None
      else if q.all != map[] then Some(q.all) else None
  }

  /** Every score the curve reads has the metric; the source raises an error otherwise. */
  ghost predicate Scored(rows: seq<Row>, tag: string, metric: string, segment: Option<string>) {
    forall i :: 0 <= i < |rows| ==>
      Source(rows[i], tag, segment).Some? ==> metric in Source(rows[i], tag, segment).value
  }

  function Measured(rows: seq<Row>, tag: string, metric: string, segment: Option<string>): seq<Point>
    requires Scored(rows, tag, metric, segment)
  {
    if rows == [] then []
    else
      var last := rows[|rows| - 1];
      var before := Measured(rows[..|rows| - 1], tag, metric, segment);
      match Source(last, tag, segment)
      case None => before
      case Some(scores) => before + [Point(last.quality.value.kbpsActual, scores[metric])]
  }

  /** The score a row has for a curve: for the segment asked for, if one is named, or over all. */
  ghost predicate HasScore(row: Row, metric: string, segment: Option<string>, score: real) {
    && row.quality.Some?
    && if segment.Some? && segment.value != ""
       then segment.value in row.quality.value.segments
            && MapsTo(row.quality.value.segments[segment.value], metric, score)
       else MapsTo(row.quality.value.all, metric, score)
  }

  predicate MapsTo(scores: Scores, metric: string, score: real) {
    metric in scores && scores[metric] == score
  }

  /** A point is measured just if a row of that tag took that rate and has that score. */
  lemma {:induction false} MeasuredExactly(rows: seq<Row>, tag: string, metric: string, segment: Option<string>,
                                           p: Point)
    requires Scored(rows, tag, metric, segment)
    ensures p in Measured(rows, tag, metric, segment)
       <==> exists i :: 0 <= i < |rows| && rows[i].tag == tag && HasScore(rows[i], metric, segment, p.quality)
                        && rows[i].quality.value.kbpsActual == p.rate
  {
    if rows != [] {
      var n := |rows| - 1;
      var before := rows[..n];
      MeasuredExactly(before, tag, metric, segment, p);
      assert forall i :: 0 <= i < n ==> before[i] == rows[i];
      var last := rows[n];
      var source := Source(last, tag, segment);
      assert last.tag == tag && HasScore(last, metric, segment, p.quality) ==>
          source.Some? && source.value[metric] == p.quality;
      assert source.Some? ==> HasScore(last, metric, segment, source.value[metric]);
    }
  }

  /** The order a sort of (rate, quality) pairs uses. */
  predicate AtMost(p: Point, q: Point) {
    p.rate < q.rate || (p.rate == q.rate && p.quality <= q.quality)
  }

  ghost predicate Sorted(pts: seq<Point>) {
    forall i, j :: 0 <= i < j < |pts| ==> AtMost(pts[i], pts[j])
  }

  /** Where `p` goes: after everything strictly before it. */
  function Place(p: Point, pts: seq<Point>): (k: nat)
    ensures k <= |pts|
    ensures forall i :: 0 <= i < k ==> AtMost(pts[i], p)
    ensures k < |pts| ==> AtMost(p, pts[k])
  {
    if pts == [] || AtMost(p, pts[0]) then 0 else 1 + Place(p, pts[1..])
  }

  function Insert(p: Point, pts: seq<Point>): (r: seq<Point>)
    ensures multiset(r) == multiset(pts) + multiset{p}
  {
    var k := Place(p, pts);
    assert pts == pts[..k] + pts[k..];
    pts[..k] + [p] + pts[k..]
  }

  lemma InsertKeepsOrder(p: Point, pts: seq<Point>)
    requires Sorted(pts)
    ensures Sorted(Insert(p, pts))
  {
    var k, r := Place(p, pts), Insert(p, pts);
    forall i, j | 0 <= i < j < |r|
      ensures AtMost(r[i], r[j])
    {
      if i == k && j > k + 1 {
        assert AtMost(pts[k], pts[j - 1]);
      }
    }
  }

  function Sort(pts: seq<Point>): (r: seq<Point>)
    ensures Sorted(r) && multiset(r) == multiset(pts)
  {
    if pts == [] then []
    else
      var rest := Sort(pts[1..]);
      assert pts == [pts[0]] + pts[1..];
      InsertKeepsOrder(pts[0], rest);
      Insert(pts[0], rest)
  }

  // ----- The envelope ------------------------------------------------------

  /**
   What the envelope of some measured points is: a curve that climbs in quality by more than
   the tolerance at every step and never falls in rate, made of measured points none of which
   is beaten by a cheaper one, and dominating every measured point up to the tolerance.
   */
  ghost predicate IsEnvelope(env: seq<Point>, pts: seq<Point>) {
    Climbs(env) && NeverCheaper(env) && Measures(env, pts) && Unbeaten(env, pts) && Covers(env, pts)
  }

  ghost predicate Climbs(env: seq<Point>) {
    forall i, j :: 0 <= i < j < |env| ==> env[i].quality + TOLERANCE < env[j].quality
  }

  ghost predicate NeverCheaper(env: seq<Point>) {
    forall i, j :: 0 <= i < j < |env| ==> env[i].rate <= env[j].rate
  }

  ghost predicate Measures(env: seq<Point>, pts: seq<Point>) {
    forall i :: 0 <= i < |env| ==> env[i] in pts
  }

  ghost predicate Unbeaten(env: seq<Point>, pts: seq<Point>) {
    forall i, p :: 0 <= i < |env| && p in pts && p.rate < env[i].rate ==> p.quality < env[i].quality
  }

  ghost predicate Covers(env: seq<Point>, pts: seq<Point>) {
    forall p :: p in pts ==> Dominated(p, env)
  }

  ghost predicate Dominated(p: Point, env: seq<Point>) {
    exists i :: 0 <= i < |env| && env[i].rate <= p.rate && p.quality <= env[i].quality + TOLERANCE
  }

  method Curve(rows: seq<Row>, tag: string, metric: string, segment: Option<string>)
    returns (env: seq<Point>)
    requires Scored(rows, tag, metric, segment)
    ensures IsEnvelope(env, Measured(rows, tag, metric, segment))
  {
    hide IsEnvelope;
    var pts := [];
    for i := 0 to |rows|
      invariant pts == Measured(rows[..i], tag, metric, segment)
    {
      assert rows[..i + 1][..i] == rows[..i];
      var source := Source(rows[i], tag, segment);
      if source.Some? {
        pts := pts + [Point(rows[i].quality.value.kbpsActual, source.value[metric])];
      }
    }
    assert rows[..|rows|] == rows;
    env := Envelope(Sort(pts));
    SamePoints(env, Sort(pts), pts);
  }

  /** The second loop of `curve`, over points already in order. */
  method Envelope(pts: seq<Point>) returns (env: seq<Point>)
    requires Sorted(pts)
    ensures IsEnvelope(env, pts)
  {
    hide IsEnvelope, Topped;
    env := [];
    NothingMeasured();
    for i := 0 to |pts|
      invariant IsEnvelope(env, pts[..i])
      invariant Topped(env, pts[..i])
    {
      var p := pts[i];
      assert pts[..i + 1] == pts[..i] + [p];
      assert forall q :: q in pts[..i] ==> AtMost(q, p);
      if env == [] || p.quality > env[|env| - 1].quality + TOLERANCE {
        ExtendEnvelope(env, pts[..i], p);
        env := env + [p];
      } else {
        SkipPoint(env, pts[..i], p);
      }
    }
    assert pts[..|pts|] == pts;
  }

  /** No point so far is better than the end of the envelope by more than the tolerance. */
  ghost predicate Topped(env: seq<Point>, pts: seq<Point>) {
    if env == [] then pts == []
    else forall p :: p in pts ==> p.quality <= env[|env| - 1].quality + TOLERANCE
  }

  lemma NothingMeasured()
    ensures IsEnvelope([], []) && Topped([], [])
  {
  }

  lemma ExtendEnvelope(env: seq<Point>, pts: seq<Point>, p: Point)
    requires IsEnvelope(env, pts) && Topped(env, pts)
    requires forall q :: q in pts ==> AtMost(q, p)
    requires env != [] ==> env[|env| - 1].quality + TOLERANCE < p.quality
    ensures IsEnvelope(env + [p], pts + [p]) && Topped(env + [p], pts + [p])
  {
    ExtendClimbs(env, p);
    ExtendRates(env, pts, p);
    ExtendUnbeaten(env, pts, p);
    ExtendCovers(env, pts, p);
  }

  lemma ExtendClimbs(env: seq<Point>, p: Point)
    requires Climbs(env) && (env != [] ==> env[|env| - 1].quality + TOLERANCE < p.quality)
    ensures Climbs(env + [p])
  {
    var env' := env + [p];
    forall i, j | 0 <= i < j < |env'|
      ensures env'[i].quality + TOLERANCE < env'[j].quality
    {
      if j == |env| && i < |env| - 1 {
        assert env[i].quality + TOLERANCE < env[|env| - 1].quality;
      }
    }
  }

  lemma ExtendRates(env: seq<Point>, pts: seq<Point>, p: Point)
    requires NeverCheaper(env) && Measures(env, pts)
    requires forall q :: q in pts ==> AtMost(q, p)
    ensures NeverCheaper(env + [p]) && Measures(env + [p], pts + [p])
  {
    var env' := env + [p];
    forall i, j | 0 <= i < j < |env'|
      ensures env'[i].rate <= env'[j].rate
    {
      if j == |env| {
        assert env[i] in pts;
      }
    }
  }

  lemma ExtendUnbeaten(env: seq<Point>, pts: seq<Point>, p: Point)
    requires Unbeaten(env, pts) && Topped(env, pts) && Measures(env, pts)
    requires forall q :: q in pts ==> AtMost(q, p)
    requires env != [] ==> env[|env| - 1].quality + TOLERANCE < p.quality
    ensures Unbeaten(env + [p], pts + [p]) && Topped(env + [p], pts + [p])
  {
    var env', pts' := env + [p], pts + [p];
    forall i, q | 0 <= i < |env'| && q in pts' && q.rate < env'[i].rate
      ensures q.quality < env'[i].quality
    {
      if i < |env| {
        assert env[i] in pts && AtMost(env[i], p);
        assert q in pts;
      } else {
        assert q in pts && q.quality <= env[|env| - 1].quality + TOLERANCE;
      }
    }
  }

  lemma ExtendCovers(env: seq<Point>, pts: seq<Point>, p: Point)
    requires Covers(env, pts)
    ensures Covers(env + [p], pts + [p])
  {
    var env', pts' := env + [p], pts + [p];
    forall q | q in pts'
      ensures Dominated(q, env')
    {
      if q in pts {
        var i :| 0 <= i < |env| && env[i].rate <= q.rate && q.quality <= env[i].quality + TOLERANCE;
        assert env'[i] == env[i];
      } else {
        assert env'[|env|] == p;
      }
    }
  }

  lemma SkipPoint(env: seq<Point>, pts: seq<Point>, p: Point)
    requires IsEnvelope(env, pts) && Topped(env, pts) && env != []
    requires forall q :: q in pts ==> AtMost(q, p)
    requires p.quality <= env[|env| - 1].quality + TOLERANCE
    ensures IsEnvelope(env, pts + [p]) && Topped(env, pts + [p])
  {
    hide Climbs, NeverCheaper;
    SkipUnbeaten(env, pts, p);
    SkipCovers(env, pts, p);
  }

  lemma SkipUnbeaten(env: seq<Point>, pts: seq<Point>, p: Point)
    requires Unbeaten(env, pts) && Measures(env, pts)
    requires forall q :: q in pts ==> AtMost(q, p)
    ensures Unbeaten(env, pts + [p]) && Measures(env, pts + [p])
  {
    forall i, q | 0 <= i < |env| && q in pts + [p] && q.rate < env[i].rate
      ensures q.quality < env[i].quality
    {
      assert env[i] in pts && AtMost(env[i], p);
      assert q in pts;
    }
  }

  lemma SkipCovers(env: seq<Point>, pts: seq<Point>, p: Point)
    requires Covers(env, pts) && Measures(env, pts) && env != []
    requires forall q :: q in pts ==> AtMost(q, p)
    requires p.quality <= env[|env| - 1].quality + TOLERANCE
    ensures Covers(env, pts + [p])
  {
    assert env[|env| - 1] in pts;
    assert Dominated(p, env);
  }

  lemma SamePoints(env: seq<Point>, pts: seq<Point>, pts': seq<Point>)
    requires IsEnvelope(env, pts) && multiset(pts) == multiset(pts')
    ensures IsEnvelope(env, pts')
  {
    hide Climbs, NeverCheaper, Dominated;
    forall p
      ensures p in pts <==> p in pts'
    {
      assert p in pts <==> p in multiset(pts);
      assert p in pts' <==> p in multiset(pts');
    }
  }

  // ----- The trapezoid average ---------------------------------------------

  const SAMPLES: nat := 2001

  function Linspace(lo: real, hi: real, n: nat): (xs: seq<real>)
    requires n >= 2
    ensures |xs| == n
  {
    seq(n, k requires 0 <= k < n => lo + (hi - lo) * (k as real) / ((n - 1) as real))
  }

  /** `np.trapezoid` over the first `n` samples. */
  function Trapezoid(xs: seq<real>, ys: seq<real>, n: nat): real
    requires |xs| == |ys| && n <= |xs|
  {
    if n < 2 then 0.0
    else Trapezoid(xs, ys, n - 1) + (ys[n - 2] + ys[n - 1]) / 2.0 * (xs[n - 1] - xs[n - 2])
  }

  function Samples(x: seq<real>, y: seq<real>, xs: seq<real>): (ys: seq<real>)
    requires Knots(x, y)
    ensures |ys| == |xs|
    ensures forall j :: 0 <= j < |xs| ==> ys[j] == At(x, y, xs[j])
  {
    seq(|xs|, j requires 0 <= j < |xs| => At(x, y, xs[j]))
  }

  function Average(x: seq<real>, y: seq<real>, lo: real, hi: real): real
    requires Knots(x, y) && lo < hi
  {
    var xs := Linspace(lo, hi, SAMPLES);
    Trapezoid(xs, Samples(x, y, xs), SAMPLES) / (hi - lo)
  }

  lemma LinspaceSpans(lo: real, hi: real)
    requires lo < hi
    ensures var xs := Linspace(lo, hi, SAMPLES);
            xs[0] == lo && xs[SAMPLES - 1] == hi
            && (forall i, j :: 0 <= i <= j < SAMPLES ==> xs[i] <= xs[j])
  {
    var xs := Linspace(lo, hi, SAMPLES);
    forall i, j | 0 <= i <= j < SAMPLES
      ensures xs[i] <= xs[j]
    {
      ProductNonNegative(hi - lo, (j - i) as real);
      assert (hi - lo) * (j as real) - (hi - lo) * (i as real) == (hi - lo) * ((j - i) as real);
    }
  }

  /** Samples that one curve keeps below another's give areas in the same order. */
  lemma {:induction false} TrapezoidMonotone(xs: seq<real>, ys: seq<real>, zs: seq<real>, n: nat)
    requires |xs| == |ys| == |zs| && n <= |xs|
    requires forall i, j :: 0 <= i <= j < |xs| ==> xs[i] <= xs[j]
    requires forall i :: 0 <= i < |xs| ==> ys[i] <= zs[i]
    ensures Trapezoid(xs, ys, n) <= Trapezoid(xs, zs, n)
  {
    if n >= 2 {
      TrapezoidMonotone(xs, ys, zs, n - 1);
      var w := xs[n - 1] - xs[n - 2];
      var a, b := (ys[n - 2] + ys[n - 1]) / 2.0, (zs[n - 2] + zs[n - 1]) / 2.0;
      ProductNonNegative(b - a, w);
      assert (b - a) * w == b * w - a * w;
    }
  }

  lemma {:induction false} TrapezoidShifts(xs: seq<real>, ys: seq<real>, zs: seq<real>, c: real, n: nat)
    requires |xs| == |ys| == |zs| && 1 <= n <= |xs|
    requires forall i :: 0 <= i < |xs| ==> zs[i] == ys[i] + c
    ensures Trapezoid(xs, zs, n) == Trapezoid(xs, ys, n) + c * (xs[n - 1] - xs[0])
  {
    if n >= 2 {
      TrapezoidShifts(xs, ys, zs, c, n - 1);
      var w := xs[n - 1] - xs[n - 2];
      var a := (ys[n - 2] + ys[n - 1]) / 2.0;
      assert (zs[n - 2] + zs[n - 1]) / 2.0 == a + c;
      assert (a + c) * w == a * w + c * w;
      assert c * (xs[n - 2] - xs[0]) + c * w == c * (xs[n - 1] - xs[0]);
    }
  }

  lemma {:induction false} TrapezoidOfConstant(xs: seq<real>, c: real, n: nat)
    requires 1 <= n <= |xs|
    ensures Trapezoid(xs, seq(|xs|, _ => c), n) == c * (xs[n - 1] - xs[0])
  {
    if n >= 2 {
      TrapezoidOfConstant(xs, c, n - 1);
      assert c * (xs[n - 2] - xs[0]) + c * (xs[n - 1] - xs[n - 2]) == c * (xs[n - 1] - xs[0]);
    }
  }

  lemma QuotientOrder(a: real, b: real, w: real)
    requires a <= b && w > 0.0
    ensures a / w <= b / w
  {
    assert (b / w - a / w) * w == b - a;
    PositiveFactor(b / w - a / w, w);
  }

  lemma AreaBetween(a: real, b: real, w: real, area: real)
    requires w > 0.0 && a * w <= area <= b * w
    ensures a <= area / w <= b
  {
    QuotientOrder(a * w, area, w);
    QuotientOrder(area, b * w, w);
    CancelFactor(a * w / w, a, w);
    CancelFactor(b * w / w, b, w);
  }

  /** Averages keep the order of the curves over the sampled range. */
  lemma AverageMonotone(x: seq<real>, y: seq<real>, x': seq<real>, y': seq<real>, lo: real, hi: real)
    requires Knots(x, y) && Knots(x', y') && lo < hi
    requires forall q :: lo <= q <= hi ==> At(x, y, q) <= At(x', y', q)
    ensures Average(x, y, lo, hi) <= Average(x', y', lo, hi)
  {
    hide At;
    LinspaceSpans(lo, hi);
    var xs := Linspace(lo, hi, SAMPLES);
    var ys, zs := Samples(x, y, xs), Samples(x', y', xs);
    assert forall j :: 0 <= j < SAMPLES ==> lo <= xs[j] <= hi;
    assert forall j :: 0 <= j < SAMPLES ==> ys[j] == At(x, y, xs[j]) <= At(x', y', xs[j]) == zs[j];
    TrapezoidMonotone(xs, ys, zs, SAMPLES);
    QuotientOrder(Trapezoid(xs, ys, SAMPLES), Trapezoid(xs, zs, SAMPLES), hi - lo);
  }

  /** An average over part of a nondecreasing curve lies between the curve's values at the ends. */
  lemma AverageBetweenEnds(x: seq<real>, y: seq<real>, lo: real, hi: real)
    requires Knots(x, y) && NonDecreasing(y) && x[0] <= lo < hi <= x[|x| - 1]
    ensures At(x, y, lo) <= Average(x, y, lo, hi) <= At(x, y, hi)
  {
    hide At, Linspace, Trapezoid;
    LinspaceSpans(lo, hi);
    var xs := Linspace(lo, hi, SAMPLES);
    var ys := Samples(x, y, xs);
    var a, b, w := At(x, y, lo), At(x, y, hi), hi - lo;
    forall j | 0 <= j < SAMPLES
      ensures a <= ys[j] <= b
    {
      assert xs[0] <= xs[j] <= xs[SAMPLES - 1];
      MonotoneData(x, y, lo, xs[j]);
      MonotoneData(x, y, xs[j], hi);
    }
    var bottom, top := seq(SAMPLES, _ => a), seq(SAMPLES, _ => b);
    TrapezoidMonotone(xs, bottom, ys, SAMPLES);
    TrapezoidMonotone(xs, ys, top, SAMPLES);
    TrapezoidOfConstant(xs, a, SAMPLES);
    TrapezoidOfConstant(xs, b, SAMPLES);
    AreaBetween(a, b, w, Trapezoid(xs, ys, SAMPLES));
  }

  // ----- What the average is -----------------------------------------------

  /** Where cell `k` of 2000 equal ones begins, and the one before it ends. */
  function CellEnd(lo: real, hi: real, k: nat): real { lo + (hi - lo) / 2000.0 * (k as real) }

  /** The sum of the curve's values where the cells from `first` on begin, `n` of them. */
  function CellSum(x: seq<real>, y: seq<real>, lo: real, hi: real, first: nat, n: nat): real
    requires Knots(x, y)
  {
    if n == 0 then 0.0
    else CellSum(x, y, lo, hi, first, n - 1) + At(x, y, CellEnd(lo, hi, first + n - 1))
  }

  /** The means of the curve's values at the left and at the right ends of 2000 equal cells. */
  function LeftMean(x: seq<real>, y: seq<real>, lo: real, hi: real): real
    requires Knots(x, y)
  {
    CellSum(x, y, lo, hi, 0, 2000) / 2000.0
  }

  function RightMean(x: seq<real>, y: seq<real>, lo: real, hi: real): real
    requires Knots(x, y)
  {
    CellSum(x, y, lo, hi, 1, 2000) / 2000.0
  }

  lemma LinspaceIsCells(lo: real, hi: real, k: nat)
    requires k < SAMPLES
    ensures Linspace(lo, hi, SAMPLES)[k] == CellEnd(lo, hi, k)
  {
    var w := hi - lo;
    assert w * (k as real) / 2000.0 == w / 2000.0 * (k as real);
  }

  lemma CellsAreEqual(lo: real, hi: real, k: nat)
    ensures CellEnd(lo, hi, k + 1) - CellEnd(lo, hi, k) == (hi - lo) / 2000.0
  {
    var w := (hi - lo) / 2000.0;
    assert w * ((k + 1) as real) == w * (k as real) + w;
  }

  lemma {:induction false} TrapezoidOfCells(x: seq<real>, y: seq<real>, lo: real, hi: real, xs: seq<real>,
                                            ys: seq<real>, n: nat)
    requires Knots(x, y) && |xs| == |ys| && n < |xs|
    requires forall k :: 0 <= k < |xs| ==> xs[k] == CellEnd(lo, hi, k) && ys[k] == At(x, y, CellEnd(lo, hi, k))
    ensures Trapezoid(xs, ys, n + 1)
         == (hi - lo) / 2000.0 * ((CellSum(x, y, lo, hi, 0, n) + CellSum(x, y, lo, hi, 1, n)) / 2.0)
  {
    hide At, CellEnd;
    if n > 0 {
      TrapezoidOfCells(x, y, lo, hi, xs, ys, n - 1);
      CellsAreEqual(lo, hi, n - 1);
      AddCell((hi - lo) / 2000.0, CellSum(x, y, lo, hi, 0, n - 1), CellSum(x, y, lo, hi, 1, n - 1), ys[n - 1], ys[n]);
    }
  }

  lemma AddCell(w: real, a: real, b: real, u: real, v: real)
    ensures w * ((a + b) / 2.0) + (u + v) / 2.0 * w == w * (((a + u) + (b + v)) / 2.0)
  {
  }

  lemma SumOverWidth(width: real, a: real, b: real)
    requires width > 0.0
    ensures width / 2000.0 * ((a + b) / 2.0) / width == (a / 2000.0 + b / 2000.0) / 2.0
  {
    var mean := (a / 2000.0 + b / 2000.0) / 2.0;
    assert width / 2000.0 * ((a + b) / 2.0) == mean * width;
    CancelFactor(mean * width / width, mean, width);
  }

  /**
   What the average is, for any data: halfway between the means of the curve at the left and at the
   right ends of 2000 equal cells of the range.
   */
  lemma AverageIsOfCells(x: seq<real>, y: seq<real>, lo: real, hi: real)
    requires Knots(x, y) && lo < hi
    ensures Average(x, y, lo, hi) == (LeftMean(x, y, lo, hi) + RightMean(x, y, lo, hi)) / 2.0
  {
    hide At, CellEnd, Linspace, Trapezoid, CellSum;
    var xs := Linspace(lo, hi, SAMPLES);
    var ys := Samples(x, y, xs);
    forall k | 0 <= k < SAMPLES
      ensures xs[k] == CellEnd(lo, hi, k) && ys[k] == At(x, y, CellEnd(lo, hi, k))
    {
      LinspaceIsCells(lo, hi, k);
    }
    TrapezoidOfCells(x, y, lo, hi, xs, ys, 2000);
    SumOverWidth(hi - lo, CellSum(x, y, lo, hi, 0, 2000), CellSum(x, y, lo, hi, 1, 2000));
  }

  lemma {:induction false} SumsDiffer(x: seq<real>, y: seq<real>, lo: real, hi: real, n: nat)
    requires Knots(x, y)
    ensures CellSum(x, y, lo, hi, 1, n) - CellSum(x, y, lo, hi, 0, n)
         == At(x, y, CellEnd(lo, hi, n)) - At(x, y, CellEnd(lo, hi, 0))
  {
    hide At, CellEnd;
    if n > 0 {
      SumsDiffer(x, y, lo, hi, n - 1);
    }
  }

  lemma CellsSpan(lo: real, hi: real)
    ensures CellEnd(lo, hi, 0) == lo && CellEnd(lo, hi, 2000) == hi
  {
  }

  /** So over a nondecreasing curve it lies between the two means, which are that close together. */
  lemma AverageBetweenCells(x: seq<real>, y: seq<real>, lo: real, hi: real)
    requires Knots(x, y) && NonDecreasing(y) && x[0] <= lo < hi <= x[|x| - 1]
    ensures LeftMean(x, y, lo, hi) <= Average(x, y, lo, hi) <= RightMean(x, y, lo, hi)
    ensures RightMean(x, y, lo, hi) - LeftMean(x, y, lo, hi) == (At(x, y, hi) - At(x, y, lo)) / 2000.0
  {
    AverageIsOfCells(x, y, lo, hi);
    SumsDiffer(x, y, lo, hi, 2000);
    CellsSpan(lo, hi);
    MonotoneData(x, y, lo, hi);
    hide At, CellEnd, CellSum, Average;
  }

  lemma {:induction false} TrapezoidOfLine(xs: seq<real>, ys: seq<real>, a: real, b: real, n: nat)
    requires |xs| == |ys| && n < |xs| && forall i :: 0 <= i < |xs| ==> ys[i] == a + b * xs[i]
    ensures Trapezoid(xs, ys, n + 1) == (a + b * ((xs[0] + xs[n]) / 2.0)) * (xs[n] - xs[0])
  {
    if n > 0 {
      TrapezoidOfLine(xs, ys, a, b, n - 1);
      LineCell(a, b, xs[0], xs[n - 1], xs[n], ys[n - 1], ys[n]);
    }
  }

  lemma LineCell(a: real, b: real, u: real, v: real, w: real, y: real, z: real)
    requires y == a + b * v && z == a + b * w
    ensures (a + b * ((u + v) / 2.0)) * (v - u) + (y + z) / 2.0 * (w - v) == (a + b * ((u + w) / 2.0)) * (w - u)
  {
    assert (y + z) / 2.0 == a + b * ((v + w) / 2.0);
    HalfSquares(a, b, u, v);
    HalfSquares(a, b, v, w);
    HalfSquares(a, b, u, w);
  }

  lemma HalfSquares(a: real, b: real, u: real, v: real)
    ensures (a + b * ((u + v) / 2.0)) * (v - u) == (a * v - a * u) + (b * (v * v) - b * (u * u)) / 2.0
  {
  }

  /** The average of a line is its value in the middle of the range. */
  lemma AverageOfLine(x: seq<real>, y: seq<real>, a: real, b: real, lo: real, hi: real)
    requires Knots(x, y) && OnParabola(x, y, a, b, 0.0) && lo < hi
    ensures Average(x, y, lo, hi) == a + b * ((lo + hi) / 2.0)
  {
    hide At, Linspace, Trapezoid, OnParabola;
    LinspaceSpans(lo, hi);
    var xs := Linspace(lo, hi, SAMPLES);
    var ys := Samples(x, y, xs);
    forall i | 0 <= i < SAMPLES
      ensures ys[i] == a + b * xs[i]
    {
      ReproducesLines(x, y, a, b, xs[i]);
    }
    TrapezoidOfLine(xs, ys, a, b, SAMPLES - 1);
    AreaOverWidth(Trapezoid(xs, ys, SAMPLES), a + b * ((lo + hi) / 2.0), hi - lo);
  }

  lemma AreaOverWidth(area: real, height: real, width: real)
    requires width > 0.0 && area == height * width
    ensures area / width == height
  {
    CancelFactor(area / width, height, width);
  }

  lemma AverageShifts(x: seq<real>, y: seq<real>, c: real, lo: real, hi: real)
    requires Knots(x, y) && lo < hi
    ensures Average(x, Shifted(y, c), lo, hi) == Average(x, y, lo, hi) + c
  {
    hide At;
    LinspaceSpans(lo, hi);
    var xs := Linspace(lo, hi, SAMPLES);
    var ys, zs := Samples(x, y, xs), Samples(x, Shifted(y, c), xs);
    forall j | 0 <= j < SAMPLES
      ensures zs[j] == ys[j] + c
    {
      ShiftsWithData(x, y, c, xs[j]);
    }
    TrapezoidShifts(xs, ys, zs, c, SAMPLES);
    var w, area := hi - lo, Trapezoid(xs, ys, SAMPLES);
    CancelFactor((area + c * w) / w, area / w + c, w);
  }

  // ----- BD-rate -----------------------------------------------------------

  /** A curve BD-rate can read: quality strictly increases, so its points are knots. */
  ghost predicate IsCurve(c: seq<Point>) {
    forall i, j :: 0 <= i < j < |c| ==> c[i].quality < c[j].quality
  }

  function Qualities(c: seq<Point>): (r: seq<real>)
    ensures |r| == |c| && (forall i :: 0 <= i < |c| ==> r[i] == c[i].quality)
  {
    seq(|c|, i requires 0 <= i < |c| => c[i].quality)
  }

  function LogRates(c: seq<Point>, log: real -> real): (r: seq<real>)
    ensures |r| == |c| && (forall i :: 0 <= i < |c| ==> r[i] == log(c[i].rate))
  {
    seq(|c|, i requires 0 <= i < |c| => log(c[i].rate))
  }

  function Lowest(s: seq<real>): (r: real)
    requires s != []
    ensures r in s && forall v :: v in s ==> r <= v
  {
    if |s| == 1 then s[0] else
      assert s == s[..|s| - 1] + [s[|s| - 1]];
      Min(Lowest(s[..|s| - 1]), s[|s| - 1])
  }

  function Highest(s: seq<real>): (r: real)
    requires s != []
    ensures r in s && forall v :: v in s ==> v <= r
  {
    if |s| == 1 then s[0] else
      assert s == s[..|s| - 1] + [s[|s| - 1]];
      Max(Highest(s[..|s| - 1]), s[|s| - 1])
  }

  /** The quality range two curves share, if it is wide enough to average over. */
  function Overlap(ref: seq<Point>, test: seq<Point>): Option<(real, real)> {
    if |ref| < 2 || |test| < 2 then None
    else
      var rq, tq := Qualities(ref), Qualities(test);
      var lo, hi := Max(Lowest(rq), Lowest(tq)), Min(Highest(rq), Highest(tq));
      if hi - lo <= 0.000001 then None else Some((lo, hi))
  }

  /** The mean log-rate one curve needs over a quality range. */
  function MeanLogRate(c: seq<Point>, log: real -> real, lo: real, hi: real): real
    requires IsCurve(c) && |c| >= 2 && lo < hi
  {
    Average(Qualities(c), LogRates(c, log), lo, hi)
  }

  datatype BdRate = BdRate(pct: real, qLo: real, qHi: real)

  function LogDifference(ref: seq<Point>, test: seq<Point>, log: real -> real): Option<real>
    requires IsCurve(ref) && IsCurve(test)
  {
    match Overlap(ref, test)
    case None => None
    case Some((lo, hi)) => Some(MeanLogRate(test, log, lo, hi) - MeanLogRate(ref, log, lo, hi))
  }

  function BdRateOf(ref: seq<Point>, test: seq<Point>, log: real -> real, exp: real -> real): Option<BdRate>
    requires IsCurve(ref) && IsCurve(test)
  {
    match LogDifference(ref, test, log)
    case None => None
    case Some(diff) =>
      var (lo, hi) := Overlap(ref, test).value;
      Some(BdRate((exp(diff) - 1.0) * 100.0, lo, hi))
  }

  ghost predicate AddsToProduct(exp: real -> real, a: real, b: real) {
    exp(a + b) == exp(a) * exp(b)
  }

  ghost predicate ProductToSum(log: real -> real, a: real, b: real) {
    log(a * b) == log(a) + log(b)
  }

  /** Everything the laws below need of `10 ** _`. */
  ghost predicate Exponential(exp: real -> real) {
    exp(0.0) == 1.0
    && (forall a, b :: AddsToProduct(exp, a, b))
    && (forall a, b :: a <= b ==> exp(a) <= exp(b))
  }

  ghost predicate Logarithm(log: real -> real, exp: real -> real) {
    && (forall a, b :: a > 0.0 && b > 0.0 ==> ProductToSum(log, a, b))
    && (forall a, b :: 0.0 < a <= b ==> log(a) <= log(b))
    && (forall a :: a > 0.0 ==> exp(log(a)) == a)
  }

  ghost predicate PositiveRates(c: seq<Point>) {
    forall i :: 0 <= i < |c| ==> c[i].rate > 0.0
  }

  lemma OverlapSymmetric(ref: seq<Point>, test: seq<Point>)
    ensures Overlap(ref, test) == Overlap(test, ref)
  {
  }

  /** The shared range lies inside both curves, at whose ends the quality extremes sit. */
  lemma OverlapInside(ref: seq<Point>, test: seq<Point>)
    requires IsCurve(ref) && IsCurve(test) && Overlap(ref, test).Some?
    ensures var (lo, hi) := Overlap(ref, test).value;
            lo < hi && ref[0].quality <= lo && hi <= ref[|ref| - 1].quality
            && test[0].quality <= lo && hi <= test[|test| - 1].quality
  {
    var rq, tq := Qualities(ref), Qualities(test);
    assert rq[0] in rq && rq[|rq| - 1] in rq && tq[0] in tq && tq[|tq| - 1] in tq;
  }

  /** Whether a quality lies in the range of a curve. */
  predicate Spans(c: seq<Point>, q: real)
    requires c != []
  {
    c[0].quality <= q <= c[|c| - 1].quality
  }

  /**
   There is a shared range just if both curves have two points and share two qualities further
   apart than a millionth; and it is all the qualities they share.
   */
  lemma OverlapExactly(ref: seq<Point>, test: seq<Point>)
    requires IsCurve(ref) && IsCurve(test)
    ensures Overlap(ref, test).Some?
       <==> |ref| >= 2 && |test| >= 2
            && exists q, q' :: Spans(ref, q) && Spans(test, q) && Spans(ref, q') && Spans(test, q')
                               && q' - q > 0.000001
    ensures Overlap(ref, test).Some? ==>
              var (lo, hi) := Overlap(ref, test).value;
              |ref| >= 2 && |test| >= 2 && forall q :: lo <= q <= hi <==> Spans(ref, q) && Spans(test, q)
  {
    if |ref| >= 2 && |test| >= 2 {
      EndsAreExtremes(ref);
      EndsAreExtremes(test);
      hide Lowest, Highest;
      var lo, hi := Max(ref[0].quality, test[0].quality), Min(ref[|ref| - 1].quality, test[|test| - 1].quality);
      if hi - lo > 0.000001 {
        assert Spans(ref, lo) && Spans(test, lo) && Spans(ref, hi) && Spans(test, hi);
      }
    }
  }

  lemma EndsAreExtremes(c: seq<Point>)
    requires IsCurve(c) && |c| >= 2
    ensures Lowest(Qualities(c)) == c[0].quality && Highest(Qualities(c)) == c[|c| - 1].quality
  {
    var q := Qualities(c);
    assert q[0] in q && q[|q| - 1] in q;
  }

  /** Swapping the curves negates the log-rate difference, so the two ratios cancel. */
  lemma SwapInverts(ref: seq<Point>, test: seq<Point>, log: real -> real, exp: real -> real)
    requires IsCurve(ref) && IsCurve(test) && Exponential(exp)
    ensures var there, back := BdRateOf(ref, test, log, exp), BdRateOf(test, ref, log, exp);
            there.Some? <==> back.Some?
    ensures var there, back := LogDifference(ref, test, log), LogDifference(test, ref, log);
            there.Some? ==> back == Some(-there.value)
    ensures var there, back := BdRateOf(ref, test, log, exp), BdRateOf(test, ref, log, exp);
            there.Some? ==>
              && (1.0 + there.value.pct / 100.0) * (1.0 + back.value.pct / 100.0) == 1.0
              && there.value.qLo == back.value.qLo && there.value.qHi == back.value.qHi
  {
    hide MeanLogRate, Overlap;
    OverlapSymmetric(ref, test);
    var there := LogDifference(ref, test, log);
    if there.Some? {
      var d := there.value;
      assert AddsToProduct(exp, d, -d);
    }
  }

  /**
   What the measure is for: a curve needing `k` times the rate at every quality reads as
   exactly (k - 1) * 100 percent; with `k` equal to one, a curve against itself reads zero.
   */
  lemma UniformRatioIsRead(ref: seq<Point>, k: real, log: real -> real, exp: real -> real)
    requires IsCurve(ref) && PositiveRates(ref) && k > 0.0
    requires Exponential(exp) && Logarithm(log, exp)
    ensures var test := ScaledRates(ref, k);
            IsCurve(test)
            && (BdRateOf(ref, test, log, exp).Some? <==> Overlap(ref, ref).Some?)
            && (BdRateOf(ref, test, log, exp).Some? ==>
                BdRateOf(ref, test, log, exp).value.pct == (k - 1.0) * 100.0)
  {
    hide MeanLogRate, Lowest, Highest;
    var test := ScaledRates(ref, k);
    assert Qualities(test) == Qualities(ref);
    if Overlap(ref, test).Some? {
      var (lo, hi) := Overlap(ref, test).value;
      ScaledMean(ref, k, log, exp, lo, hi);
    }
  }

  function ScaledRates(c: seq<Point>, k: real): (r: seq<Point>)
    ensures |r| == |c|
    ensures forall i :: 0 <= i < |c| ==> r[i] == Point(k * c[i].rate, c[i].quality)
  {
    seq(|c|, i requires 0 <= i < |c| => Point(k * c[i].rate, c[i].quality))
  }

  lemma ScaledLogRates(c: seq<Point>, k: real, log: real -> real, exp: real -> real)
    requires PositiveRates(c) && k > 0.0 && Logarithm(log, exp)
    ensures LogRates(ScaledRates(c, k), log) == Shifted(LogRates(c, log), log(k))
  {
    var l, r := LogRates(ScaledRates(c, k), log), Shifted(LogRates(c, log), log(k));
    forall i | 0 <= i < |c|
      ensures l[i] == r[i]
    {
      assert ProductToSum(log, k, c[i].rate);
    }
  }

  /** The unit rates are measured in does not matter. */
  lemma UnitDoesNotMatter(ref: seq<Point>, test: seq<Point>, k: real, log: real -> real, exp: real -> real)
    requires IsCurve(ref) && IsCurve(test) && PositiveRates(ref) && PositiveRates(test) && k > 0.0
    requires Logarithm(log, exp)
    ensures BdRateOf(ScaledRates(ref, k), ScaledRates(test, k), log, exp) == BdRateOf(ref, test, log, exp)
  {
    hide MeanLogRate, Lowest, Highest;
    var ref', test' := ScaledRates(ref, k), ScaledRates(test, k);
    assert Qualities(test') == Qualities(test) && Qualities(ref') == Qualities(ref);
    if Overlap(ref, test).Some? {
      var (lo, hi) := Overlap(ref, test).value;
      ScaledMean(ref, k, log, exp, lo, hi);
      ScaledMean(test, k, log, exp, lo, hi);
    }
  }

  lemma ScaledMean(c: seq<Point>, k: real, log: real -> real, exp: real -> real, lo: real, hi: real)
    requires IsCurve(c) && |c| >= 2 && PositiveRates(c) && k > 0.0 && lo < hi
    requires Logarithm(log, exp)
    ensures IsCurve(ScaledRates(c, k))
    ensures MeanLogRate(ScaledRates(c, k), log, lo, hi) == MeanLogRate(c, log, lo, hi) + log(k)
  {
    hide Average;
    assert Qualities(ScaledRates(c, k)) == Qualities(c);
    ScaledLogRates(c, k, log, exp);
    AverageShifts(Qualities(c), LogRates(c, log), log(k), lo, hi);
  }

  /** The log-rate a curve needs for quality `q`. */
  function CurveAt(c: seq<Point>, log: real -> real, q: real): real
    requires IsCurve(c) && |c| >= 2
  {
    At(Qualities(c), LogRates(c, log), q)
  }

  /** All over a quality range, `c` needs at most the rate `c'` needs. */
  ghost predicate NeedsNoMore(c: seq<Point>, c': seq<Point>, log: real -> real, lo: real, hi: real)
    requires IsCurve(c) && IsCurve(c') && |c| >= 2 && |c'| >= 2
  {
    forall q :: lo <= q <= hi ==> CurveAt(c, log, q) <= CurveAt(c', log, q)
  }

  lemma MeansInOrder(c: seq<Point>, c': seq<Point>, log: real -> real, lo: real, hi: real)
    requires IsCurve(c) && IsCurve(c') && |c| >= 2 && |c'| >= 2 && lo < hi
    requires NeedsNoMore(c, c', log, lo, hi)
    ensures MeanLogRate(c, log, lo, hi) <= MeanLogRate(c', log, lo, hi)
  {
    hide At, Average;
    var x, y, x', y' := Qualities(c), LogRates(c, log), Qualities(c'), LogRates(c', log);
    forall q | lo <= q <= hi
      ensures At(x, y, q) <= At(x', y', q)
    {
      assert CurveAt(c, log, q) <= CurveAt(c', log, q);
    }
    AverageMonotone(x, y, x', y', lo, hi);
  }

  /**
   A test curve that needs at least the reference's rate all over the shared range is never
   reported as a saving, and one that needs at most it is never reported as a loss.
   */
  lemma SignIsRight(ref: seq<Point>, test: seq<Point>, log: real -> real, exp: real -> real)
    requires IsCurve(ref) && IsCurve(test) && Exponential(exp)
    requires Overlap(ref, test).Some?
    ensures var (lo, hi) := Overlap(ref, test).value;
            NeedsNoMore(ref, test, log, lo, hi)
            ==> BdRateOf(ref, test, log, exp).value.pct >= 0.0
    ensures var (lo, hi) := Overlap(ref, test).value;
            NeedsNoMore(test, ref, log, lo, hi)
            ==> BdRateOf(ref, test, log, exp).value.pct <= 0.0
  {
    hide At, Average, Lowest, Highest;
    var (lo, hi) := Overlap(ref, test).value;
    if NeedsNoMore(ref, test, log, lo, hi) {
      MeansInOrder(ref, test, log, lo, hi);
    }
    if NeedsNoMore(test, ref, log, lo, hi) {
      MeansInOrder(test, ref, log, lo, hi);
    }
  }

  /** An envelope is a curve whose log-rate never falls. */
  lemma EnvelopeIsCurve(env: seq<Point>, pts: seq<Point>, log: real -> real, exp: real -> real)
    requires IsEnvelope(env, pts) && PositiveRates(env) && Logarithm(log, exp)
    ensures IsCurve(env) && NonDecreasing(LogRates(env, log))
  {
    hide Measures, Unbeaten, Covers;
  }

  /** The mean log-rate of such a curve stays between its values at the ends of the shared range. */
  lemma MeanBetweenEnds(c: seq<Point>, other: seq<Point>, log: real -> real)
    requires IsCurve(c) && NonDecreasing(LogRates(c, log))
    requires IsCurve(other) && Overlap(c, other).Some?
    ensures var (lo, hi) := Overlap(c, other).value;
            lo < hi && CurveAt(c, log, lo) <= MeanLogRate(c, log, lo, hi) <= CurveAt(c, log, hi)
  {
    hide At, Average, Lowest, Highest;
    OverlapInside(c, other);
    var (lo, hi) := Overlap(c, other).value;
    AverageBetweenEnds(Qualities(c), LogRates(c, log), lo, hi);
  }
}
