/**
 * Histogram contents and the ROOT operations the analysis applies to them.
 * A 2-D histogram (TH2D) is a value; the 1-D histograms of the closure
 * test (TH1D) are objects whose cell array is changed in place.
 */
module Histogram {
  import opened Binning

  /**
   * The quotient ROOT's TH1::Divide stores in one cell: numerator over
   * denominator, and 0 where the denominator cell is 0.
   */
  function SafeDiv(n: real, d: real): (q: real)
    ensures d != 0.0 ==> q * d == n
    ensures d == 0.0 ==> q == 0.0
  {
    if d == 0.0 then 0.0 else n / d
  }

  /** The sum of s[lo..hi]. */
  function Sum(s: seq<real>, lo: int, hi: int): real
    requires 0 <= lo <= hi <= |s|
    decreases hi - lo
  {
    if lo == hi then 0.0 else Sum(s, lo, hi - 1) + s[hi - 1]
  }

  /** TH1::Integral(): the sum of the in-range cells 1..N; both flow cells are left out. */
  function InRangeSum(c: seq<real>): real
    requires |c| >= 2
  {
    Sum(c, 1, |c| - 1)
  }

  /** The contents of a histogram after Reset. */
  function Zeros(n: nat): seq<real>
  {
    seq(n, i => 0.0)
  }

  /** TH1::Scale(k): every cell, flows included, multiplied by k. */
  function Scaled(c: seq<real>, k: real): seq<real>
  {
    seq(|c|, i requires 0 <= i < |c| => k * c[i])
  }

  /** TH1::Divide(num, den): the cell-wise quotient under the zero-denominator convention. */
  function CellRatio(n: seq<real>, d: seq<real>): seq<real>
    requires |n| == |d|
  {
    seq(|n|, i requires 0 <= i < |n| => SafeDiv(n[i], d[i]))
  }

  /** TH1::Fill(x, w): the cell FindBin(x) gains w, whatever bin that is. */
  function Filled(c: seq<real>, a: Axis, x: real, w: real): seq<real>
    requires a.Valid() && |c| == a.NBins() + 2
  {
    var b := FindBin(a, x);
    c[b := c[b] + w]
  }

  /** One Fill call: a coordinate and its weight. */
  datatype Entry = Entry(x: real, w: real)

  /** The cells after filling the entries in order. */
  function FillAll(c: seq<real>, a: Axis, es: seq<Entry>): (r: seq<real>)
    requires a.Valid() && |c| == a.NBins() + 2
    ensures |r| == |c|
    decreases |es|
  {
    if es == [] then c
    else
      var last := es[|es| - 1];
      Filled(FillAll(c, a, es[..|es| - 1]), a, last.x, last.w)
  }

  /** The total weight of the entries that land in an in-range bin 1..N. */
  function InRangeWeight(a: Axis, es: seq<Entry>): real
    requires a.Valid()
    decreases |es|
  {
    if es == [] then 0.0
    else
      var last := es[|es| - 1];
      var b := FindBin(a, last.x);
      InRangeWeight(a, es[..|es| - 1]) + (if 1 <= b <= a.NBins() then last.w else 0.0)
  }

  lemma {:induction false} SumScaled(c: seq<real>, k: real, lo: int, hi: int)
    requires 0 <= lo <= hi <= |c|
    ensures Sum(Scaled(c, k), lo, hi) == k * Sum(c, lo, hi)
    decreases hi - lo
  {
    if lo < hi {
      SumScaled(c, k, lo, hi - 1);
    }
  }

  /** Scaling multiplies the integral by the same factor. */
  lemma IntegralScaled(c: seq<real>, k: real)
    requires |c| >= 2
    ensures InRangeSum(Scaled(c, k)) == k * InRangeSum(c)
  {
    SumScaled(c, k, 1, |c| - 1);
  }

  /** Scale(1/Integral()) leaves an integral of exactly 1 when the integral was not 0. */
  lemma NormalisedIntegral(c: seq<real>)
    requires |c| >= 2 && InRangeSum(c) != 0.0
    ensures InRangeSum(Scaled(c, 1.0 / InRangeSum(c))) == 1.0
  {
    IntegralScaled(c, 1.0 / InRangeSum(c));
  }

  /** Normalising a histogram whose integral is already 1 changes no cell. */
  lemma NormaliseIdempotent(c: seq<real>)
    requires |c| >= 2 && InRangeSum(c) == 1.0
    ensures Scaled(c, 1.0 / InRangeSum(c)) == c
  {
  }

  lemma {:induction false} SumUpdate(c: seq<real>, i: int, v: real, lo: int, hi: int)
    requires 0 <= lo <= hi <= |c| && 0 <= i < |c|
    ensures Sum(c[i := v], lo, hi) == Sum(c, lo, hi) + (if lo <= i < hi then v - c[i] else 0.0)
    decreases hi - lo
  {
    if lo < hi {
      SumUpdate(c, i, v, lo, hi - 1);
    }
  }

  /** A fill adds its weight to the integral exactly when it lands in bins 1..N. */
  lemma FilledIntegral(c: seq<real>, a: Axis, x: real, w: real)
    requires a.Valid() && |c| == a.NBins() + 2
    ensures var b := FindBin(a, x);
      InRangeSum(Filled(c, a, x, w)) == InRangeSum(c) + (if 1 <= b <= a.NBins() then w else 0.0)
  {
    var b := FindBin(a, x);
    SumUpdate(c, b, c[b] + w, 1, |c| - 1);
  }

  /** The integral after a sequence of fills is the old integral plus the in-range weight. */
  lemma {:induction false} FillAllIntegral(c: seq<real>, a: Axis, es: seq<Entry>)
    requires a.Valid() && |c| == a.NBins() + 2
    ensures InRangeSum(FillAll(c, a, es)) == InRangeSum(c) + InRangeWeight(a, es)
    decreases |es|
  {
    if es != [] {
      var last := es[|es| - 1];
      FillAllIntegral(c, a, es[..|es| - 1]);
      FilledIntegral(FillAll(c, a, es[..|es| - 1]), a, last.x, last.w);
    }
  }

  lemma {:induction false} SumZeros(n: nat, lo: int, hi: int)
    requires 0 <= lo <= hi <= n
    ensures Sum(Zeros(n), lo, hi) == 0.0
    decreases hi - lo
  {
    if lo < hi {
      SumZeros(n, lo, hi - 1);
    }
  }

  /** A histogram just reset has integral 0. */
  lemma ZerosIntegral(n: nat)
    requires n >= 2
    ensures InRangeSum(Zeros(n)) == 0.0
  {
    SumZeros(n, 1, n - 1);
  }

  /** A 2-D histogram: cells[ix][iy] for ix in 0..Nx+1 and iy in 0..Ny+1, flows included. */
  datatype Hist2 = Hist2(xaxis: Axis, yaxis: Axis, cells: seq<seq<real>>) {

    predicate Valid() {
      && xaxis.Valid() && yaxis.Valid()
      && |cells| == xaxis.NBins() + 2
      && forall ix :: 0 <= ix < |cells| ==> |cells[ix]| == yaxis.NBins() + 2
    }
  }

  /** CheckConsistency's bin-count test, the only one on which ROOT refuses to divide. */
  predicate SameBinCounts(h: Hist2, d: Hist2)
    requires h.Valid() && d.Valid()
  {
    h.xaxis.NBins() == d.xaxis.NBins() && h.yaxis.NBins() == d.yaxis.NBins()
  }

  /**
   * TH2::Divide(d) applied to h: with equal bin counts every cell, flows
   * included, becomes SafeDiv(h, d) and h keeps its axes; with different
   * bin counts ROOT reports an error and leaves h as it was.
   */
  function Divide(h: Hist2, d: Hist2): (r: Hist2)
    requires h.Valid() && d.Valid()
    ensures r.Valid() && r.xaxis == h.xaxis && r.yaxis == h.yaxis
  {
    if !SameBinCounts(h, d) then h
    else
      Hist2(h.xaxis, h.yaxis,
            seq(|h.cells|, ix requires 0 <= ix < |h.cells| =>
              seq(|h.cells[ix]|, iy requires 0 <= iy < |h.cells[ix]| => SafeDiv(h.cells[ix][iy], d.cells[ix][iy]))))
  }

  /** Every cell of the ratio table is numerator / denominator, or 0 on an empty denominator cell. */
  lemma DivideCells(h: Hist2, d: Hist2, ix: nat, iy: nat)
    requires h.Valid() && d.Valid() && SameBinCounts(h, d)
    requires ix < |h.cells| && iy < |h.cells[ix]|
    ensures Divide(h, d).cells[ix][iy] * d.cells[ix][iy] == h.cells[ix][iy] || d.cells[ix][iy] == 0.0
    ensures d.cells[ix][iy] == 0.0 ==> Divide(h, d).cells[ix][iy] == 0.0
  {
  }

  /** A table of a histogram over itself holds 1 in every filled cell and 0 in every empty one. */
  lemma DivideBySelf(h: Hist2, ix: nat, iy: nat)
    requires h.Valid() && ix < |h.cells| && iy < |h.cells[ix]|
    ensures Divide(h, h).cells[ix][iy] == if h.cells[ix][iy] == 0.0 then 0.0 else 1.0
  {
  }

  /** A ratio of non-negative accumulators is non-negative. */
  lemma DivideNonNegative(h: Hist2, d: Hist2, ix: nat, iy: nat)
    requires h.Valid() && d.Valid() && SameBinCounts(h, d)
    requires ix < |h.cells| && iy < |h.cells[ix]|
    requires h.cells[ix][iy] >= 0.0 && d.cells[ix][iy] >= 0.0
    ensures Divide(h, d).cells[ix][iy] >= 0.0
  {
  }

  /** The sum of column iy over the x bins first..last. */
  function ColumnSum(cells: seq<seq<real>>, iy: nat, first: int, last: int): real
    requires 0 <= first && last < |cells|
    requires forall ix :: 0 <= ix < |cells| ==> iy < |cells[ix]|
    decreases last - first
  {
    if last < first then 0.0 else ColumnSum(cells, iy, first, last - 1) + cells[last][iy]
  }

  /** The total of every row, over its m cells. */
  function RowTotals(cells: seq<seq<real>>, m: nat): (p: seq<real>)
    requires forall ix :: 0 <= ix < |cells| ==> |cells[ix]| == m
    ensures |p| == |cells|
  {
    seq(|cells|, ix requires 0 <= ix < |cells| => Sum(cells[ix], 0, m))
  }

  /** The sum of each of the m columns over rows first..last. */
  function ColumnSums(cells: seq<seq<real>>, m: nat, first: nat, last: int): (p: seq<real>)
    requires last < |cells|
    requires forall ix :: 0 <= ix < |cells| ==> |cells[ix]| == m
    ensures |p| == m
  {
    seq(m, iy requires 0 <= iy < m => ColumnSum(cells, iy, first, last))
  }

  /** TH2::ProjectionX with its default range: each x cell sums its row over all y cells, flows included. */
  function ProjectionX(h: Hist2): (p: seq<real>)
    requires h.Valid()
    ensures |p| == h.xaxis.NBins() + 2
  {
    RowTotals(h.cells, h.yaxis.NBins() + 2)
  }

  /** TH2::ProjectionY over the x bins first..last: each y cell sums its column over those bins. */
  function ProjectionY(h: Hist2, first: nat, last: nat): (p: seq<real>)
    requires h.Valid() && last < |h.cells|
    ensures |p| == h.yaxis.NBins() + 2
  {
    ColumnSums(h.cells, h.yaxis.NBins() + 2, first, last)
  }

  lemma {:induction false} SumPointwise(a: seq<real>, b: seq<real>, c: seq<real>, lo: int, hi: int)
    requires 0 <= lo <= hi <= |a| && |a| == |b| == |c|
    requires forall i :: lo <= i < hi ==> c[i] == a[i] + b[i]
    ensures Sum(c, lo, hi) == Sum(a, lo, hi) + Sum(b, lo, hi)
    decreases hi - lo
  {
    if lo < hi {
      SumPointwise(a, b, c, lo, hi - 1);
    }
  }

  /** Summing the column sums over rows 0..last gives the sum of those rows' totals. */
  lemma {:induction false} ColumnSumsTotal(cells: seq<seq<real>>, m: nat, last: int)
    requires -1 <= last < |cells|
    requires forall ix :: 0 <= ix < |cells| ==> |cells[ix]| == m
    ensures Sum(ColumnSums(cells, m, 0, last), 0, m) == Sum(RowTotals(cells, m), 0, last + 1)
    decreases last + 1
  {
    var cur := ColumnSums(cells, m, 0, last);
    if last >= 0 {
      ColumnSumsTotal(cells, m, last - 1);
      var prev := ColumnSums(cells, m, 0, last - 1);
      assert forall iy :: 0 <= iy < m ==> cur[iy] == prev[iy] + cells[last][iy];
      SumPointwise(prev, cells[last], cur, 0, m);
    } else {
      assert cur == Zeros(m);
      SumZeros(m, 0, m);
    }
  }

  /**
   * ProjectionX and the full-range ProjectionY of one histogram hold the
   * same total content, flow cells included: both add up every cell.
   */
  lemma ProjectionsSameTotal(h: Hist2)
    requires h.Valid()
    ensures Sum(ProjectionX(h), 0, h.xaxis.NBins() + 2) == Sum(ProjectionY(h, 0, h.xaxis.NBins() + 1), 0, h.yaxis.NBins() + 2)
  {
    ColumnSumsTotal(h.cells, h.yaxis.NBins() + 2, |h.cells| - 1);
  }

  /** A 1-D histogram (TH1D) whose cells 0..N+1 are changed in place. */
  class Hist1D {
    const axis: Axis
    const cells: array<real>

    ghost predicate Valid() {
      axis.Valid() && cells.Length == axis.NBins() + 2
    }

    /** A histogram with the given axis and cell contents (a projection or a clone). */
    constructor (axis: Axis, contents: seq<real>)
      requires axis.Valid() && |contents| == axis.NBins() + 2
      ensures Valid() && this.axis == axis && fresh(cells) && cells[..] == contents
    {
      this.axis := axis;
      cells := new real[|contents|](i requires 0 <= i < |contents| => contents[i]);
    }

    /** TH1::Reset: every cell back to 0. */
    method Reset()
      requires Valid()
      modifies cells
      ensures cells[..] == Zeros(cells.Length)
    {
      for i := 0 to cells.Length
        invariant forall j :: 0 <= j < i ==> cells[j] == 0.0
      {
        cells[i] := 0.0;
      }
      assert forall j :: 0 <= j < cells.Length ==> cells[..][j] == Zeros(cells.Length)[j];
    }

    /** TH1::Fill(x, w). */
    method Fill(x: real, w: real)
      requires Valid()
      modifies cells
      ensures cells[..] == Filled(old(cells[..]), axis, x, w)
    {
      var b := FindBin(axis, x);
      cells[b] := cells[b] + w;
    }

    /** TH1::Integral(): the sum of bins 1..N. */
    method Integral() returns (s: real)
      requires Valid()
      ensures s == InRangeSum(cells[..])
    {
      s := 0.0;
      var i := 1;
      while i < cells.Length - 1
        invariant 1 <= i <= cells.Length - 1
        invariant s == Sum(cells[..], 1, i)
      {
        s := s + cells[i];
        i := i + 1;
      }
    }

    /** TH1::Scale(k): every cell, flows included, multiplied by k. */
    method Scale(k: real)
      requires Valid()
      modifies cells
      ensures cells[..] == Scaled(old(cells[..]), k)
    {
      ghost var before := cells[..];
      for i := 0 to cells.Length
        invariant forall j :: 0 <= j < i ==> cells[j] == k * before[j]
        invariant forall j :: i <= j < cells.Length ==> cells[j] == before[j]
      {
        cells[i] := k * cells[i];
      }
      assert forall j :: 0 <= j < cells.Length ==> cells[..][j] == Scaled(before, k)[j];
    }

    /**
     * TH1::Divide(num, den, 1, 1, "B") on the cell contents: with matching
     * bin counts every cell becomes SafeDiv(num, den); otherwise ROOT
     * refuses and nothing changes. num or den may be this histogram itself.
     */
    method Divide(num: Hist1D, den: Hist1D) returns (ok: bool)
      requires Valid() && num.Valid() && den.Valid()
      modifies cells
      ensures ok <==> num.cells.Length == cells.Length && den.cells.Length == cells.Length
      ensures ok ==> cells[..] == CellRatio(old(num.cells[..]), old(den.cells[..]))
      ensures !ok ==> cells[..] == old(cells[..])
    {
      ok := num.cells.Length == cells.Length && den.cells.Length == cells.Length;
      if !ok {
        return;
      }
      for i := 0 to cells.Length
        invariant forall j :: 0 <= j < i ==> cells[j] == SafeDiv(old(num.cells[j]), old(den.cells[j]))
        invariant forall j :: i <= j < cells.Length ==>
          cells[j] == old(cells[j]) && num.cells[j] == old(num.cells[j]) && den.cells[j] == old(den.cells[j])
      {
        cells[i] := SafeDiv(num.cells[i], den.cells[i]);
      }
    }
  }
}
