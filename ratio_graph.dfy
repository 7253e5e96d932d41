/**
 * The mirror ratio graph of the cross-section plot: two equal-length point
 * series, the second measured at mirrored rapidities, divided point by point.
 * Pairs whose x values are not mirror images, and pairs with a zero
 * denominator, are skipped; every other pair becomes one output point.
 */
module CrossSectionRatio {
  import opened Wrappers

  /** One point of a TGraphErrors: position, value and their errors. */
  datatype GraphPoint = GraphPoint(x: real, y: real, ex: real, ey: real)

  /**
   * The y error of an output point. sqrt is not modelled: RatioTimesSqrt(s)
   * stands for ratio * sqrt(s), where s is the summed squared relative error;
   * NaN is what the unguarded division yErr1 / y1 turns it into when y1 == 0.
   */
  datatype RatioError = RatioTimesSqrt(relErrSq: real) | NaN

  /** One point of the ratio graph. */
  datatype RatioPoint = RatioPoint(x: real, ratio: real, xErr: real, ratioErr: RatioError)

  /** A pair survives both checks: mirrored x values and a non-zero denominator. */
  predicate Kept(p1: GraphPoint, p2: GraphPoint) {
    p1.x == -p2.x && p2.y != 0.0
  }

  /** The point a kept pair emits. */
  function RatioOf(p1: GraphPoint, p2: GraphPoint): (r: RatioPoint)
    requires p2.y != 0.0
    ensures r.x == p1.x && r.ratio * p2.y == p1.y && r.xErr * 2.0 == p1.ex + p2.ex
    ensures r.ratioErr.NaN? <==> p1.y == 0.0
    ensures r.ratioErr.RatioTimesSqrt? ==>
      r.ratioErr.relErrSq * p1.y * p1.y * p2.y * p2.y
        == p1.ey * p1.ey * p2.y * p2.y + p2.ey * p2.ey * p1.y * p1.y
  {
    var ratio := p1.y / p2.y;
    var err := if p1.y == 0.0 then NaN
               else RatioTimesSqrt((p1.ey / p1.y) * (p1.ey / p1.y) + (p2.ey / p2.y) * (p2.ey / p2.y));
    RatioPoint(p1.x, ratio, (p1.ex + p2.ex) / 2.0, err)
  }

  /** The points the loop emits for the first |g1| pairs, in input order. */
  function RatioPoints(g1: seq<GraphPoint>, g2: seq<GraphPoint>): (r: seq<RatioPoint>)
    requires |g1| == |g2|
    ensures |r| <= |g1|
    decreases |g1|
  {
    if g1 == [] then []
    else
      var n := |g1| - 1;
      var prev := RatioPoints(g1[..n], g2[..n]);
      if Kept(g1[n], g2[n]) then prev + [RatioOf(g1[n], g2[n])] else prev
  }

  /** The indices of the kept pairs, in increasing order. */
  function KeptIndices(g1: seq<GraphPoint>, g2: seq<GraphPoint>): seq<nat>
    requires |g1| == |g2|
    decreases |g1|
  {
    if g1 == [] then []
    else
      var n := |g1| - 1;
      KeptIndices(g1[..n], g2[..n]) + (if Kept(g1[n], g2[n]) then [n] else [])
  }

  /** The four vectors xVals, yVals, xErrs, yErrs read as one graph. */
  function Assemble(xs: seq<real>, ys: seq<real>, xErrs: seq<real>, yErrs: seq<RatioError>): (g: seq<RatioPoint>)
    requires |xs| == |ys| == |xErrs| == |yErrs|
    ensures |g| == |xs|
    ensures forall k :: 0 <= k < |g| ==> g[k] == RatioPoint(xs[k], ys[k], xErrs[k], yErrs[k])
  {
    seq(|xs|, k requires 0 <= k < |xs| => RatioPoint(xs[k], ys[k], xErrs[k], yErrs[k]))
  }

  /**
   * GetRatioGraph: None (nullptr) for a missing graph or unequal point
   * counts, otherwise the graph of the kept pairs in input order.
   */
  method GetRatioGraph(gr1: Option<seq<GraphPoint>>, gr2: Option<seq<GraphPoint>>)
    returns (r: Option<seq<RatioPoint>>)
    ensures r.None? <==> gr1.None? || gr2.None? || |gr1.value| != |gr2.value|
    ensures r.Some? ==> r.value == RatioPoints(gr1.value, gr2.value)
  {
    if gr1.None? || gr2.None? {
      return None;
    }
    var g1, g2 := gr1.value, gr2.value;
    var n1, n2 := |g1|, |g2|;
    if n1 != n2 {
      return None;
    }
    var xVals, yVals, xErrs: seq<real>, yErrs: seq<RatioError> := [], [], [], [];
    for i := 0 to n1
      invariant |xVals| == |yVals| == |xErrs| == |yErrs|
      invariant Assemble(xVals, yVals, xErrs, yErrs) == RatioPoints(g1[..i], g2[..i])
    {
      assert g1[..i + 1][..i] == g1[..i] && g2[..i + 1][..i] == g2[..i];
      var p1, p2 := g1[i], g2[i];
      if p1.x != -p2.x {
        continue;
      }
      if p2.y == 0.0 {
        continue;
      }
      var point := RatioOf(p1, p2);
      xVals := xVals + [point.x];
      yVals := yVals + [point.ratio];
      xErrs := xErrs + [point.xErr];
      yErrs := yErrs + [point.ratioErr];
    }
    assert g1[..n1] == g1 && g2[..n1] == g2;
    return Some(Assemble(xVals, yVals, xErrs, yErrs));
  }

  /**
   * The ratio graph is the kept pairs, in input order: its k-th point comes
   * from the k-th kept index, the kept indices are increasing, and an index
   * is kept exactly when its pair passes both checks.
   */
  lemma {:induction false} RatioPointsAreKeptPairs(g1: seq<GraphPoint>, g2: seq<GraphPoint>)
    requires |g1| == |g2|
    ensures var ks := KeptIndices(g1, g2);
      && |RatioPoints(g1, g2)| == |ks|
      && (forall k :: 0 <= k < |ks| ==>
            (ks[k] < |g1| && Kept(g1[ks[k]], g2[ks[k]]) && RatioPoints(g1, g2)[k] == RatioOf(g1[ks[k]], g2[ks[k]])))
      && (forall k, l :: 0 <= k < l < |ks| ==> ks[k] < ks[l])
      && (forall i :: 0 <= i < |g1| && Kept(g1[i], g2[i]) ==> i in ks)
    decreases |g1|
  {
    if g1 != [] {
      var n := |g1| - 1;
      var p1, p2 := g1[..n], g2[..n];
      RatioPointsAreKeptPairs(p1, p2);
      assert forall i :: 0 <= i < n ==> p1[i] == g1[i] && p2[i] == g2[i];
    }
  }

  /** The ratio graph is never longer than its inputs. */
  lemma {:induction false} RatioPointsNoLonger(g1: seq<GraphPoint>, g2: seq<GraphPoint>)
    requires |g1| == |g2|
    ensures |RatioPoints(g1, g2)| <= |g1|
    ensures |RatioPoints(g1, g2)| == |g1| <==> forall i :: 0 <= i < |g1| ==> Kept(g1[i], g2[i])
    decreases |g1|
  {
    if g1 != [] {
      var n := |g1| - 1;
      RatioPointsNoLonger(g1[..n], g2[..n]);
      assert forall i :: 0 <= i < n ==> g1[..n][i] == g1[i] && g2[..n][i] == g2[i];
    }
  }

  /** A pair with a zero denominator, or unmirrored x values, adds no point. */
  lemma SkippedPairAddsNothing(g1: seq<GraphPoint>, g2: seq<GraphPoint>, p1: GraphPoint, p2: GraphPoint)
    requires |g1| == |g2| && !Kept(p1, p2)
    ensures RatioPoints(g1 + [p1], g2 + [p2]) == RatioPoints(g1, g2)
  {
    assert (g1 + [p1])[..|g1|] == g1 && (g2 + [p2])[..|g2|] == g2;
  }

  /** A y1 == 0 numerator is not guarded: its point is kept with ratio 0 and a NaN error. */
  lemma ZeroNumeratorKeptWithNaN(p1: GraphPoint, p2: GraphPoint)
    requires Kept(p1, p2) && p1.y == 0.0
    ensures RatioPoints([p1], [p2]) == [RatioPoint(p1.x, 0.0, (p1.ex + p2.ex) / 2.0, NaN)]
  {
    assert [p1][..0] == [] && [p2][..0] == [];
  }

  /** Two mirrored pairs, one with a zero denominator: only the other survives, with ratio 2. */
  lemma MirroredExample()
    ensures var g1 := [GraphPoint(2.0, 3.0, 0.1, 0.15), GraphPoint(1.0, 4.0, 0.1, 0.2)];
      var g2 := [GraphPoint(-2.0, 1.5, 0.1, 0.075), GraphPoint(-1.0, 0.0, 0.1, 0.1)];
      RatioPoints(g1, g2) == [RatioPoint(2.0, 2.0, 0.1, RatioTimesSqrt(0.0025 + 0.0025))]
  {
    var g1 := [GraphPoint(2.0, 3.0, 0.1, 0.15), GraphPoint(1.0, 4.0, 0.1, 0.2)];
    var g2 := [GraphPoint(-2.0, 1.5, 0.1, 0.075), GraphPoint(-1.0, 0.0, 0.1, 0.1)];
    assert g1[..1] == [g1[0]] && g2[..1] == [g2[0]];
    assert [g1[0]][..0] == [] && [g2[0]][..0] == [];
  }

  /** A rapidity bin of the corrected-yield table. */
  datatype Point = Point(ymin: real, ymax: real, correctedYield: real, correctedYieldError: real)

  /** The graph's x value: the bin centre. */
  function Centre(p: Point): (c: real)
    ensures p.ymin <= p.ymax ==> p.ymin <= c <= p.ymax
  {
    (p.ymax + p.ymin) / 2.0
  }

  /** The graph's x error: the bin half-width. */
  function HalfWidth(p: Point): (w: real)
    ensures w >= 0.0 <==> p.ymin <= p.ymax
  {
    (p.ymax - p.ymin) / 2.0
  }

  /** The centre and half-width give back the bin: centre -/+ half-width are its edges. */
  lemma CentreHalfWidthRecoverBin(p: Point)
    ensures Centre(p) - HalfWidth(p) == p.ymin && Centre(p) + HalfWidth(p) == p.ymax
    ensures p.ymin <= p.ymax <==> HalfWidth(p) >= 0.0
  {
  }

  /** The TGraphErrors built from a point table: bin centre and half-width, yield and its error. */
  function ToGraph(ps: seq<Point>): (g: seq<GraphPoint>)
    ensures |g| == |ps|
    ensures forall i :: 0 <= i < |ps| ==>
      g[i] == GraphPoint(Centre(ps[i]), ps[i].correctedYield, HalfWidth(ps[i]), ps[i].correctedYieldError)
  {
    seq(|ps|, i requires 0 <= i < |ps| =>
      GraphPoint(Centre(ps[i]), ps[i].correctedYield, HalfWidth(ps[i]), ps[i].correctedYieldError))
  }

  /** q is p's bin reflected through y = 0. */
  predicate MirrorBin(p: Point, q: Point) {
    q.ymin == -p.ymax && q.ymax == -p.ymin
  }

  /**
   * When every bin of the first table is the mirror of the second's at the
   * same index and no denominator yield is zero, the ratio graph keeps every
   * pair, at the first table's centres with the common half-width as x error.
   */
  lemma MirroredTablesKeepEveryPoint(ps1: seq<Point>, ps2: seq<Point>)
    requires |ps1| == |ps2|
    requires forall i :: 0 <= i < |ps1| ==> MirrorBin(ps2[i], ps1[i]) && ps2[i].correctedYield != 0.0
    ensures var r := RatioPoints(ToGraph(ps1), ToGraph(ps2));
      && |r| == |ps1|
      && forall i :: 0 <= i < |r| ==>
           (r[i].x == Centre(ps1[i]) && r[i].xErr == HalfWidth(ps1[i])
            && r[i].ratio * ps2[i].correctedYield == ps1[i].correctedYield)
  {
    var g1, g2 := ToGraph(ps1), ToGraph(ps2);
    forall i | 0 <= i < |g1|
      ensures Kept(g1[i], g2[i])
    {
      assert g1[i].x == Centre(ps1[i]) && g2[i].x == Centre(ps2[i]);
    }
    AllKeptPoints(g1, g2);
  }

  /** When every pair is kept, the k-th output point is the ratio of the k-th pair. */
  lemma {:induction false} AllKeptPoints(g1: seq<GraphPoint>, g2: seq<GraphPoint>)
    requires |g1| == |g2| && forall i :: 0 <= i < |g1| ==> Kept(g1[i], g2[i])
    ensures |RatioPoints(g1, g2)| == |g1|
    ensures forall i :: 0 <= i < |g1| ==> Kept(g1[i], g2[i]) && RatioPoints(g1, g2)[i] == RatioOf(g1[i], g2[i])
    decreases |g1|
  {
    if g1 != [] {
      var n := |g1| - 1;
      assert forall i :: 0 <= i < n ==> g1[..n][i] == g1[i] && g2[..n][i] == g2[i];
      AllKeptPoints(g1[..n], g2[..n]);
      assert Kept(g1[n], g2[n]);
    }
  }
}
