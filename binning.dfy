/**
 * One axis of a ROOT histogram: N bins given by N+1 strictly increasing edges.
 * Bin 0 is the underflow cell, bins 1..N are the half-open bins
 * [edges[b-1], edges[b]) and bin N+1 is the overflow cell.
 */
module Binning {

  datatype Axis = Axis(edges: seq<real>) {

    /** At least one bin, and edges strictly increasing. */
    predicate Valid() {
      |edges| >= 2 && forall i, j :: 0 <= i < j < |edges| ==> edges[i] < edges[j]
    }

    function NBins(): nat
      requires Valid()
    {
      |edges| - 1
    }

    /** GetXmin: the low edge of bin 1. */
    function Xmin(): real
      requires Valid()
    {
      edges[0]
    }

    /** GetXmax: the upper edge of bin N. */
    function Xmax(): real
      requires Valid()
    {
      edges[|edges| - 1]
    }
  }

  /** Binary search for the bin [e[i], e[i+1]) that holds x, inside a bracket e[lo] <= x < e[hi]. */
  function Locate(e: seq<real>, x: real, lo: nat, hi: nat): (i: nat)
    requires lo < hi < |e| && e[lo] <= x < e[hi]
    ensures lo <= i < hi && e[i] <= x < e[i + 1]
    decreases hi - lo
  {
    if hi - lo == 1 then lo
    else
      var mid := (lo + hi) / 2;
      if x < e[mid] then Locate(e, x, lo, mid) else Locate(e, x, mid, hi)
  }

  /**
   * TAxis::FindBin on an axis that cannot be extended: 0 below the range,
   * N+1 at or above the upper edge, otherwise the bin whose half-open
   * interval holds x.
   */
  function FindBin(a: Axis, x: real): (b: nat)
    requires a.Valid()
    ensures b <= a.NBins() + 1
    ensures b == 0 <==> x < a.Xmin()
    ensures b == a.NBins() + 1 <==> a.Xmax() <= x
    ensures 1 <= b <= a.NBins() ==> a.edges[b - 1] <= x < a.edges[b]
  {
    if x < a.Xmin() then 0
    else if a.Xmax() <= x then a.NBins() + 1
    else 1 + Locate(a.edges, x, 0, a.NBins())
  }

  /** Bins do not overlap: a coordinate inside bin i is found in bin i and nowhere else. */
  lemma FindBinUnique(a: Axis, x: real, i: nat)
    requires a.Valid() && 1 <= i <= a.NBins()
    requires a.edges[i - 1] <= x < a.edges[i]
    ensures FindBin(a, x) == i
  {
    assert a.Xmin() <= a.edges[i - 1] && a.edges[i] <= a.Xmax();
  }

  /** Bins cover the axis in order: FindBin never decreases as the coordinate grows. */
  lemma FindBinMonotone(a: Axis, x: real, y: real)
    requires a.Valid() && x <= y
    ensures FindBin(a, x) <= FindBin(a, y)
  {
  }

  /**
   * TAxis::GetBinLowEdge: the stored edge for bins 1..N; for any other bin
   * ROOT extrapolates with the average width (Xmax - Xmin) / N, so the low
   * edge of bin 0 is Xmin minus one average width.
   */
  function LowEdge(a: Axis, bin: int): (e: real)
    requires a.Valid()
    ensures 1 <= bin <= a.NBins() ==> e == a.edges[bin - 1]
    ensures bin == 0 ==> e < a.Xmin()
  {
    if 1 <= bin <= a.NBins() then a.edges[bin - 1]
    else
      var width := (a.Xmax() - a.Xmin()) / (a.NBins() as real);
      assert width > 0.0;
      a.Xmin() + (bin - 1) as real * width
  }

  /**
   * With exact arithmetic the low edges of bins 0..N pin the whole axis:
   * bins 1..N give edges 0..N-1, and bin 0's extrapolated edge gives the
   * upper edge of bin N, which is never read directly.
   */
  lemma {:induction false} LowEdgesDetermineAxis(a: Axis, b: Axis)
    requires a.Valid() && b.Valid() && a.NBins() == b.NBins()
    requires forall i :: 0 <= i <= a.NBins() ==> LowEdge(a, i) == LowEdge(b, i)
    ensures a == b
  {
    var n := a.NBins();
    forall k | 0 <= k < n
      ensures a.edges[k] == b.edges[k]
    {
      assert LowEdge(a, k + 1) == LowEdge(b, k + 1);
    }
    assert a.Xmin() == b.Xmin() by {
      assert LowEdge(a, 1) == LowEdge(b, 1);
    }
    var wa := (a.Xmax() - a.Xmin()) / (n as real);
    var wb := (b.Xmax() - b.Xmin()) / (n as real);
    assert LowEdge(a, 0) == a.Xmin() - wa;
    assert LowEdge(b, 0) == b.Xmin() - wb;
    assert LowEdge(a, 0) == LowEdge(b, 0);
    assert wa == wb;
    assert a.Xmax() - a.Xmin() == wa * (n as real);
    assert b.Xmax() - b.Xmin() == wb * (n as real);
    assert a.edges[n] == b.edges[n];
    assert a.edges == b.edges;
  }
}
