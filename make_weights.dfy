/**
 * The weight-making program: open both inputs, fetch the numerator and
 * denominator TH2D, check that their binnings agree, then build the table
 * and write it under the default names. Exit code 1 on any failed check.
 */
module MakeWeights {
  import opened Wrappers
  import opened Binning
  import opened Histogram
  import opened WeightTable

  /** The check the program runs: equal bin counts, then equal low edges of bins 0..N on each axis, compared exactly. */
  predicate BinningCompatible(a: Hist2, b: Hist2)
    requires a.Valid() && b.Valid()
  {
    && a.xaxis.NBins() == b.xaxis.NBins()
    && a.yaxis.NBins() == b.yaxis.NBins()
    && (forall i :: 0 <= i <= a.xaxis.NBins() ==> LowEdge(a.xaxis, i) == LowEdge(b.xaxis, i))
    && (forall j :: 0 <= j <= a.yaxis.NBins() ==> LowEdge(a.yaxis, j) == LowEdge(b.yaxis, j))
  }

  /** The bin-count check, then the two low-edge loops, each returning at the first mismatch. */
  method CheckBinning(num: Hist2, den: Hist2) returns (ok: bool)
    requires num.Valid() && den.Valid()
    ensures ok <==> BinningCompatible(num, den)
  {
    if num.xaxis.NBins() != den.xaxis.NBins() || num.yaxis.NBins() != den.yaxis.NBins() {
      return false;
    }
    var i := 0;
    while i <= num.xaxis.NBins()
      invariant 0 <= i <= num.xaxis.NBins() + 1
      invariant forall k :: 0 <= k < i ==> LowEdge(num.xaxis, k) == LowEdge(den.xaxis, k)
    {
      if LowEdge(num.xaxis, i) != LowEdge(den.xaxis, i) {
        return false;
      }
      i := i + 1;
    }
    var j := 0;
    while j <= num.yaxis.NBins()
      invariant 0 <= j <= num.yaxis.NBins() + 1
      invariant forall k :: 0 <= k < j ==> LowEdge(num.yaxis, k) == LowEdge(den.yaxis, k)
    {
      if LowEdge(num.yaxis, j) != LowEdge(den.yaxis, j) {
        return false;
      }
      j := j + 1;
    }
    return true;
  }

  /** The check accepts two histograms exactly when both axes have identical edges, the last upper edge included. */
  lemma BinningCompatibleIffSameAxes(a: Hist2, b: Hist2)
    requires a.Valid() && b.Valid()
    ensures BinningCompatible(a, b) <==> a.xaxis == b.xaxis && a.yaxis == b.yaxis
  {
    if BinningCompatible(a, b) {
      LowEdgesDetermineAxis(a.xaxis, b.xaxis);
      LowEdgesDetermineAxis(a.yaxis, b.yaxis);
    }
  }

  /** Everything the program checks before it builds the table. */
  predicate InputsAccepted(numFile: Option<Container>, numHistName: string,
                           denFile: Option<Container>, denHistName: string)
    requires numFile.Some? ==> WellFormed(numFile.value)
    requires denFile.Some? ==> WellFormed(denFile.value)
  {
    && numFile.Some? && denFile.Some?
    && Retrieve(numFile.value, numHistName).Some?
    && Retrieve(denFile.value, denHistName).Some?
    && BinningCompatible(Retrieve(numFile.value, numHistName).value, Retrieve(denFile.value, denHistName).value)
  }

  /**
   * main: returns the exit code and the weight file written (None when the
   * program stops early or the output file does not open). The exit code is
   * 0 whenever the checks pass, whether or not the write succeeded.
   */
  method MakeWeights(numFile: Option<Container>, numHistName: string,
                     denFile: Option<Container>, denHistName: string,
                     weightFileOpens: bool)
    returns (exitCode: int, weightFile: Option<Container>)
    requires numFile.Some? ==> WellFormed(numFile.value)
    requires denFile.Some? ==> WellFormed(denFile.value)
    ensures exitCode == 0 || exitCode == 1
    ensures exitCode == 0 <==> InputsAccepted(numFile, numHistName, denFile, denHistName)
    ensures exitCode == 0 && weightFileOpens ==>
      var n := Retrieve(numFile.value, numHistName).value;
      var d := Retrieve(denFile.value, denHistName).value;
      weightFile == Some(Written(Some(Divide(n, d)), Some(n), Some(d), DefaultRatioName, DefaultNumName, DefaultDenName))
    ensures exitCode == 1 || !weightFileOpens ==> weightFile.None?
  {
    if numFile.None? {
      return 1, None;
    }
    var hNum := Retrieve(numFile.value, numHistName);
    if denFile.None? {
      return 1, None;
    }
    var hDen := Retrieve(denFile.value, denHistName);
    if hNum.None? || hDen.None? {
      return 1, None;
    }
    var compatible := CheckBinning(hNum.value, hDen.value);
    if !compatible {
      return 1, None;
    }
    var w := new WeightHandler.FromPair(hNum.value, hDen.value);
    var written;
    written, weightFile := w.WriteToFile(weightFileOpens, DefaultRatioName, DefaultNumName, DefaultDenName);
    return 0, weightFile;
  }

  /**
   * A table the program writes reloads with the default names into three
   * histograms on one and the same binning, the ratio holding num / den
   * cell by cell.
   */
  lemma WrittenTableReloadsConsistent(n: Hist2, d: Hist2)
    requires n.Valid() && d.Valid() && BinningCompatible(n, d)
    ensures var c := Written(Some(Divide(n, d)), Some(n), Some(d), DefaultRatioName, DefaultNumName, DefaultDenName);
      && Retrieve(c, DefaultRatioName) == Some(Divide(n, d))
      && Retrieve(c, DefaultNumName) == Some(n)
      && Retrieve(c, DefaultDenName) == Some(d)
      && d.xaxis == n.xaxis && d.yaxis == n.yaxis
      && Divide(n, d).xaxis == n.xaxis && Divide(n, d).yaxis == n.yaxis
  {
    BinningCompatibleIffSameAxes(n, d);
    WriteThenLoad(Divide(n, d), n, d, DefaultRatioName, DefaultNumName, DefaultDenName);
  }
}
