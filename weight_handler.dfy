/**
 * The 2-D weight table: numerator, denominator and their cell-wise ratio,
 * looked up by (pt, y), written to and reloaded from a ROOT file. A file is
 * a map from key names to stored objects; a file that cannot be opened is
 * None (for reading) or a false `opens` flag (for writing).
 */
module WeightTable {
  import opened Wrappers
  import opened Binning
  import opened Histogram

  /** What TFile::Get can return under a name: a TH2D, or an object dynamic_cast<TH2D*> turns into null. */
  datatype StoredObject = TH2DObject(hist: Hist2) | OtherObject

  type Container = map<string, StoredObject>

  /** Every TH2D held in the file is well formed. */
  predicate WellFormed(c: Container) {
    forall name :: name in c && c[name].TH2DObject? ==> c[name].hist.Valid()
  }

  const DefaultRatioName := "h_ratio"
  const DefaultNumName := "h_num"
  const DefaultDenName := "h_den"

  /** dynamic_cast<TH2D*>(file.Get(name)): the histogram, or null when the key is absent or not a TH2D. */
  function Retrieve(c: Container, name: string): (h: Option<Hist2>)
    ensures h.Some? <==> name in c && c[name].TH2DObject?
    ensures h.Some? ==> c[name] == TH2DObject(h.value)
  {
    if name in c && c[name].TH2DObject? then Some(c[name].hist) else None
  }

  /** Write(name) into a fresh file when the pointer is not null; a later key of the same name is the one Get returns. */
  function WriteIfSet(c: Container, h: Option<Hist2>, name: string): Container
  {
    if h.Some? then c[name := TH2DObject(h.value)] else c
  }

  /** The contents of a file opened with "RECREATE" after writing ratio, numerator and denominator in that order. */
  function Written(ratio: Option<Hist2>, num: Option<Hist2>, den: Option<Hist2>,
                   ratioName: string, numName: string, denName: string): Container
  {
    WriteIfSet(WriteIfSet(WriteIfSet(map[], ratio, ratioName), num, numName), den, denName)
  }

  /**
   * GetWeight on a ratio table: 0 without a table, otherwise the content of
   * cell (FindBin(pt), FindBin(y)), which may be an underflow or overflow cell.
   */
  function WeightAt(ratio: Option<Hist2>, pt: real, y: real): real
    requires ratio.Some? ==> ratio.value.Valid()
  {
    if ratio.None? then 0.0
    else ratio.value.cells[FindBin(ratio.value.xaxis, pt)][FindBin(ratio.value.yaxis, y)]
  }

  class WeightHandler {
    var num: Option<Hist2>
    var den: Option<Hist2>
    var ratio: Option<Hist2>

    ghost predicate Valid()
      reads this
    {
      && (num.Some? ==> num.value.Valid())
      && (den.Some? ==> den.value.Valid())
      && (ratio.Some? ==> ratio.value.Valid())
    }

    /** The default constructor: all three tables null. */
    constructor ()
      ensures Valid() && num.None? && den.None? && ratio.None?
    {
      num, den, ratio := None, None, None;
    }

    /** Copies of the two inputs, and a copy of the numerator divided in place by the denominator. */
    constructor FromPair(inNum: Hist2, inDen: Hist2)
      requires inNum.Valid() && inDen.Valid()
      ensures Valid()
      ensures num == Some(inNum) && den == Some(inDen) && ratio == Some(Divide(inNum, inDen))
    {
      num := Some(inNum);
      den := Some(inDen);
      var r := inNum;
      r := Divide(r, inDen);
      ratio := Some(r);
    }

    /**
     * LoadFromFile: false and no change when the file does not open;
     * otherwise all three pointers are reassigned from the file (null where
     * a name is missing or not a TH2D) and the result says whether all three
     * were found.
     */
    method LoadFromFile(file: Option<Container>, ratioName: string, numName: string, denName: string)
      returns (ok: bool)
      requires Valid()
      requires file.Some? ==> WellFormed(file.value)
      modifies this
      ensures Valid()
      ensures file.None? ==> !ok && num == old(num) && den == old(den) && ratio == old(ratio)
      ensures file.Some? ==>
        && ratio == Retrieve(file.value, ratioName)
        && num == Retrieve(file.value, numName)
        && den == Retrieve(file.value, denName)
      ensures ok <==> file.Some? && ratio.Some? && num.Some? && den.Some?
    {
      if file.None? {
        return false;
      }
      ratio := Retrieve(file.value, ratioName);
      num := Retrieve(file.value, numName);
      den := Retrieve(file.value, denName);
      if ratio.None? || num.None? || den.None? {
        return false;
      }
      return true;
    }

    /**
     * WriteToFile: false and no file when it does not open; otherwise the
     * recreated file holds every non-null table under its name, and the
     * result is true.
     */
    method WriteToFile(opens: bool, ratioName: string, numName: string, denName: string)
      returns (ok: bool, file: Option<Container>)
      ensures ok == opens
      ensures opens ==> file == Some(Written(ratio, num, den, ratioName, numName, denName))
      ensures !opens ==> file.None?
    {
      if !opens {
        return false, None;
      }
      var c: Container := map[];
      if ratio.Some? { c := c[ratioName := TH2DObject(ratio.value)]; }
      if num.Some? { c := c[numName := TH2DObject(num.value)]; }
      if den.Some? { c := c[denName := TH2DObject(den.value)]; }
      return true, Some(c);
    }

    /** GetWeight(pt, y): a pure lookup, with no range guard. */
    method GetWeight(pt: real, y: real) returns (w: real)
      requires Valid()
      ensures ratio.None? ==> w == 0.0
      ensures ratio.Some? ==> w == ratio.value.cells[FindBin(ratio.value.xaxis, pt)][FindBin(ratio.value.yaxis, y)]
    {
      if ratio.None? {
        return 0.0;
      }
      var binX := FindBin(ratio.value.xaxis, pt);
      var binY := FindBin(ratio.value.yaxis, y);
      w := ratio.value.cells[binX][binY];
    }
  }

  /** Writing a handler and loading the file back with the same, distinct names restores all three tables. */
  lemma WriteThenLoad(r: Hist2, n: Hist2, d: Hist2, ratioName: string, numName: string, denName: string)
    requires ratioName != numName && ratioName != denName && numName != denName
    ensures var c := Written(Some(r), Some(n), Some(d), ratioName, numName, denName);
      && Retrieve(c, ratioName) == Some(r)
      && Retrieve(c, numName) == Some(n)
      && Retrieve(c, denName) == Some(d)
  {
  }

  /** A null table is skipped on write, so loading the file back under the same names fails. */
  lemma NullTableNotWritten(r: Option<Hist2>, n: Option<Hist2>, d: Option<Hist2>,
                            ratioName: string, numName: string, denName: string)
    requires ratioName != numName && ratioName != denName && numName != denName
    requires r.None? || n.None? || d.None?
    ensures var c := Written(r, n, d, ratioName, numName, denName);
      Retrieve(c, ratioName).None? || Retrieve(c, numName).None? || Retrieve(c, denName).None?
  {
  }

  /** When two names coincide the later write shadows the earlier one: the ratio name then reloads the numerator. */
  lemma SharedNameReloadsLaterTable(r: Hist2, n: Hist2, d: Hist2, name: string, denName: string)
    requires name != denName
    ensures Retrieve(Written(Some(r), Some(n), Some(d), name, name, denName), name) == Some(n)
  {
  }

  /** Without a table every coordinate weighs 0. */
  lemma NoTableWeighsZero(pt: real, y: real)
    ensures WeightAt(None, pt, y) == 0.0
  {
  }

  /** Two coordinates in the same cell get the same weight. */
  lemma SameCellSameWeight(h: Hist2, pt1: real, y1: real, pt2: real, y2: real)
    requires h.Valid()
    requires FindBin(h.xaxis, pt1) == FindBin(h.xaxis, pt2) && FindBin(h.yaxis, y1) == FindBin(h.yaxis, y2)
    ensures WeightAt(Some(h), pt1, y1) == WeightAt(Some(h), pt2, y2)
  {
  }

  /** A coordinate inside bin (i, j) reads exactly cell (i, j). */
  lemma WeightOfBin(h: Hist2, pt: real, y: real, i: nat, j: nat)
    requires h.Valid() && 1 <= i <= h.xaxis.NBins() && 1 <= j <= h.yaxis.NBins()
    requires h.xaxis.edges[i - 1] <= pt < h.xaxis.edges[i] && h.yaxis.edges[j - 1] <= y < h.yaxis.edges[j]
    ensures WeightAt(Some(h), pt, y) == h.cells[i][j]
  {
    FindBinUnique(h.xaxis, pt, i);
    FindBinUnique(h.yaxis, y, j);
  }

  /**
   * No range guard: a pt below the axis reads the underflow row and a pt at
   * or above the upper edge reads the overflow row, whatever they hold.
   */
  lemma OutOfRangeReadsFlowCells(h: Hist2, pt: real, y: real)
    requires h.Valid()
    ensures pt < h.xaxis.Xmin() ==> WeightAt(Some(h), pt, y) == h.cells[0][FindBin(h.yaxis, y)]
    ensures h.xaxis.Xmax() <= pt ==>
      WeightAt(Some(h), pt, y) == h.cells[h.xaxis.NBins() + 1][FindBin(h.yaxis, y)]
    ensures y < h.yaxis.Xmin() ==> WeightAt(Some(h), pt, y) == h.cells[FindBin(h.xaxis, pt)][0]
    ensures h.yaxis.Xmax() <= y ==>
      WeightAt(Some(h), pt, y) == h.cells[FindBin(h.xaxis, pt)][h.yaxis.NBins() + 1]
  {
  }

  /** An out-of-range lookup can return a non-zero weight: here the upper edge itself reads overflow cell content 2. */
  lemma UpperEdgeWeightNotZero()
    ensures var a := Axis([0.0, 1.0]);
      var h := Hist2(a, a, [[0.0, 0.0, 0.0], [0.0, 0.0, 0.0], [0.0, 0.0, 2.0]]);
      h.Valid() && WeightAt(Some(h), 1.0, 1.0) == 2.0
  {
    var a := Axis([0.0, 1.0]);
    assert FindBin(a, 1.0) == 2;
  }

  /** A table built from identical numerator and denominator weighs every filled cell 1 and every empty cell 0. */
  lemma IdenticalInputsWeighOne(h: Hist2, pt: real, y: real)
    requires h.Valid()
    ensures var c := h.cells[FindBin(h.xaxis, pt)][FindBin(h.yaxis, y)];
      WeightAt(Some(Divide(h, h)), pt, y) == if c == 0.0 then 0.0 else 1.0
  {
    DivideBySelf(h, FindBin(h.xaxis, pt), FindBin(h.yaxis, y));
  }

  /** Weights of a table built from non-negative accumulators are never negative. */
  lemma WeightNonNegative(n: Hist2, d: Hist2, pt: real, y: real)
    requires n.Valid() && d.Valid() && SameBinCounts(n, d)
    requires forall ix, iy :: 0 <= ix < |n.cells| && 0 <= iy < |n.cells[ix]| ==> n.cells[ix][iy] >= 0.0
    requires forall ix, iy :: 0 <= ix < |d.cells| && 0 <= iy < |d.cells[ix]| ==> d.cells[ix][iy] >= 0.0
    ensures WeightAt(Some(Divide(n, d)), pt, y) >= 0.0
  {
    DivideNonNegative(n, d, FindBin(n.xaxis, pt), FindBin(n.yaxis, y));
  }

  /**
   * A whole write/reload cycle through the class: a handler with all three
   * tables, written with the default names and loaded into a default
   * handler, gives back the same three tables.
   */
  method ReloadCopy(h: WeightHandler) returns (ok: bool, copy: WeightHandler)
    requires h.Valid() && h.num.Some? && h.den.Some? && h.ratio.Some?
    ensures ok && copy.num == h.num && copy.den == h.den && copy.ratio == h.ratio
  {
    var written, file := h.WriteToFile(true, DefaultRatioName, DefaultNumName, DefaultDenName);
    copy := new WeightHandler();
    WriteThenLoad(h.ratio.value, h.num.value, h.den.value, DefaultRatioName, DefaultNumName, DefaultDenName);
    ok := copy.LoadFromFile(file, DefaultRatioName, DefaultNumName, DefaultDenName);
  }
}
