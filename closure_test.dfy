/**
 * The closure test: replay generator-level events through the weight
 * table, fill unweighted and weighted spectra of the leading signal D0's
 * pt and y, normalise them and the projected target spectra to unit
 * integral, and divide weighted by target cell by cell.
 */
module ClosureTest {
  import opened Wrappers
  import opened Binning
  import opened Histogram
  import opened WeightTable

  /** One generator-level D0 of an event: Gpt, Gy and GisSignalCalc. */
  datatype GenCandidate = GenCandidate(gpt: real, gy: real, isSignal: bool)

  datatype GenEvent = GenEvent(candidates: seq<GenCandidate>)

  /** The value both leading coordinates start from. */
  const Unset: real := -999.0

  /** The leading pair after scanning the candidates in order: a signal candidate replaces it only with a strictly larger Gpt. */
  function Leading(cs: seq<GenCandidate>): (lead: (real, real))
    ensures lead.0 >= Unset
    ensures lead.0 == Unset ==> lead.1 == Unset
    decreases |cs|
  {
    if cs == [] then (Unset, Unset)
    else
      var prev := Leading(cs[..|cs| - 1]);
      var c := cs[|cs| - 1];
      if c.isSignal && c.gpt > prev.0 then (c.gpt, c.gy) else prev
  }

  /** The candidate loop of one event. */
  method LeadingCandidate(cs: seq<GenCandidate>) returns (leadingGpt: real, leadingGy: real)
    ensures (leadingGpt, leadingGy) == Leading(cs)
  {
    leadingGpt, leadingGy := Unset, Unset;
    for j := 0 to |cs|
      invariant (leadingGpt, leadingGy) == Leading(cs[..j])
    {
      assert cs[..j + 1][..j] == cs[..j];
      if !cs[j].isSignal {
        continue;
      }
      if cs[j].gpt > leadingGpt {
        leadingGpt := cs[j].gpt;
        leadingGy := cs[j].gy;
      }
    }
    assert cs[..|cs|] == cs;
  }

  /**
   * The leading pair is the Gpt and Gy of the first signal candidate with
   * the greatest Gpt; when no signal candidate exceeds -999 both stay -999.
   */
  lemma {:induction false} LeadingIsFirstMaximum(cs: seq<GenCandidate>)
    ensures forall j :: 0 <= j < |cs| && cs[j].isSignal ==> cs[j].gpt <= Leading(cs).0
    ensures Leading(cs).0 == Unset ==> Leading(cs).1 == Unset
    ensures Leading(cs).0 != Unset ==>
      exists k :: 0 <= k < |cs| && cs[k].isSignal && cs[k].gpt > Unset
        && Leading(cs) == (cs[k].gpt, cs[k].gy)
        && (forall j :: 0 <= j < k && cs[j].isSignal ==> cs[j].gpt < cs[k].gpt)
    ensures (forall j :: 0 <= j < |cs| && cs[j].isSignal ==> cs[j].gpt <= Unset) ==> Leading(cs) == (Unset, Unset)
    decreases |cs|
  {
    if cs != [] {
      var n := |cs| - 1;
      var p := cs[..n];
      LeadingIsFirstMaximum(p);
      assert forall j :: 0 <= j < n ==> p[j] == cs[j];
      var c := cs[n];
      if c.isSignal && c.gpt > Leading(p).0 {
        assert Leading(cs) == (cs[n].gpt, cs[n].gy);
      } else {
        assert Leading(cs) == Leading(p);
        if Leading(cs).0 != Unset {
          var k :| 0 <= k < n && p[k].isSignal && p[k].gpt > Unset
            && Leading(p) == (p[k].gpt, p[k].gy)
            && (forall j :: 0 <= j < k && p[j].isSignal ==> p[j].gpt < p[k].gpt);
          assert cs[k] == p[k];
        }
      }
    }
  }

  /** The range gate: both coordinates inside the closed axis intervals [Xmin, Xmax]. */
  predicate InGate(xa: Axis, ya: Axis, pt: real, y: real)
    requires xa.Valid() && ya.Valid()
  {
    xa.Xmin() <= pt <= xa.Xmax() && ya.Xmin() <= y <= ya.Xmax()
  }

  /** An accepted event: its leading Gpt and Gy and the weight looked up for them. */
  datatype Selected = Selected(gpt: real, gy: real, weight: real)

  /** The events that pass the gate, in order, with their leading pair and weight. */
  function AcceptedEvents(evs: seq<GenEvent>, xa: Axis, ya: Axis, ratio: Option<Hist2>): (acc: seq<Selected>)
    requires xa.Valid() && ya.Valid() && (ratio.Some? ==> ratio.value.Valid())
    decreases |evs|
  {
    if evs == [] then []
    else
      var prev := AcceptedEvents(evs[..|evs| - 1], xa, ya, ratio);
      var lead := Leading(evs[|evs| - 1].candidates);
      if InGate(xa, ya, lead.0, lead.1) then prev + [Selected(lead.0, lead.1, WeightAt(ratio, lead.0, lead.1))]
      else prev
  }

  /** The leading-Gpt fills: weight 1, or the looked-up weight. */
  function PtEntries(acc: seq<Selected>, weighted: bool): seq<Entry>
    decreases |acc|
  {
    if acc == [] then []
    else
      var s := acc[|acc| - 1];
      PtEntries(acc[..|acc| - 1], weighted) + [Entry(s.gpt, if weighted then s.weight else 1.0)]
  }

  /** The leading-Gy fills. */
  function GyEntries(acc: seq<Selected>, weighted: bool): seq<Entry>
    decreases |acc|
  {
    if acc == [] then []
    else
      var s := acc[|acc| - 1];
      GyEntries(acc[..|acc| - 1], weighted) + [Entry(s.gy, if weighted then s.weight else 1.0)]
  }

  /** The closed window of the Gy-in-2-to-5 spectra. */
  predicate In2to5(pt: real) {
    2.0 <= pt <= 5.0
  }

  /** The leading-Gy fills of accepted events whose leading Gpt lies in [2, 5]. */
  function GyIn2to5Entries(acc: seq<Selected>, weighted: bool): seq<Entry>
    decreases |acc|
  {
    if acc == [] then []
    else
      var s := acc[|acc| - 1];
      GyIn2to5Entries(acc[..|acc| - 1], weighted)
        + (if In2to5(s.gpt) then [Entry(s.gy, if weighted then s.weight else 1.0)] else [])
  }

  lemma AcceptedSnoc(evs: seq<GenEvent>, e: GenEvent, xa: Axis, ya: Axis, ratio: Option<Hist2>)
    requires xa.Valid() && ya.Valid() && (ratio.Some? ==> ratio.value.Valid())
    ensures var lead := Leading(e.candidates);
      AcceptedEvents(evs + [e], xa, ya, ratio)
        == if InGate(xa, ya, lead.0, lead.1)
           then AcceptedEvents(evs, xa, ya, ratio) + [Selected(lead.0, lead.1, WeightAt(ratio, lead.0, lead.1))]
           else AcceptedEvents(evs, xa, ya, ratio)
  {
    assert (evs + [e])[..|evs|] == evs;
  }

  lemma EntriesSnoc(acc: seq<Selected>, s: Selected, weighted: bool)
    ensures var w := if weighted then s.weight else 1.0;
      && PtEntries(acc + [s], weighted) == PtEntries(acc, weighted) + [Entry(s.gpt, w)]
      && GyEntries(acc + [s], weighted) == GyEntries(acc, weighted) + [Entry(s.gy, w)]
      && GyIn2to5Entries(acc + [s], weighted)
         == GyIn2to5Entries(acc, weighted) + (if In2to5(s.gpt) then [Entry(s.gy, w)] else [])
  {
    assert (acc + [s])[..|acc|] == acc;
  }

  lemma FillAllSnoc(c: seq<real>, a: Axis, es: seq<Entry>, e: Entry)
    requires a.Valid() && |c| == a.NBins() + 2
    ensures FillAll(c, a, es + [e]) == Filled(FillAll(c, a, es), a, e.x, e.w)
  {
    assert (es + [e])[..|es|] == es;
  }

  /** There are no more accepted events than events; every accepted event passed the gate and carries the weight looked up for its leading pair. */
  lemma {:induction false} AcceptedPassGate(evs: seq<GenEvent>, xa: Axis, ya: Axis, ratio: Option<Hist2>)
    requires xa.Valid() && ya.Valid() && (ratio.Some? ==> ratio.value.Valid())
    ensures |AcceptedEvents(evs, xa, ya, ratio)| <= |evs|
    ensures forall s :: s in AcceptedEvents(evs, xa, ya, ratio) ==>
      InGate(xa, ya, s.gpt, s.gy) && s.weight == WeightAt(ratio, s.gpt, s.gy)
    decreases |evs|
  {
    if evs != [] {
      AcceptedPassGate(evs[..|evs| - 1], xa, ya, ratio);
    }
  }

  /** How many of the accepted events have a leading Gpt strictly below xmax. */
  function CountBelow(acc: seq<Selected>, xmax: real): nat
    decreases |acc|
  {
    if acc == [] then 0
    else CountBelow(acc[..|acc| - 1], xmax) + (if acc[|acc| - 1].gpt < xmax then 1 else 0)
  }

  lemma {:induction false} PtInRangeWeight(acc: seq<Selected>, xa: Axis, ya: Axis)
    requires xa.Valid() && ya.Valid()
    requires forall s :: s in acc ==> InGate(xa, ya, s.gpt, s.gy)
    ensures InRangeWeight(xa, PtEntries(acc, false)) == CountBelow(acc, xa.Xmax()) as real
    decreases |acc|
  {
    if acc != [] {
      var n := |acc| - 1;
      assert forall s :: s in acc[..n] ==> s in acc;
      PtInRangeWeight(acc[..n], xa, ya);
      var es := PtEntries(acc, false);
      assert es[..|es| - 1] == PtEntries(acc[..n], false);
      assert acc[n] in acc;
    }
  }

  /**
   * Before normalisation the unweighted Gpt spectrum integrates to the
   * number of gated events strictly below the upper pt edge: the gate is
   * closed at Xmax, but a leading Gpt equal to Xmax fills the overflow cell,
   * which Integral() leaves out.
   */
  lemma UnweightedPtIntegral(acc: seq<Selected>, xa: Axis, ya: Axis)
    requires xa.Valid() && ya.Valid()
    requires forall s :: s in acc ==> InGate(xa, ya, s.gpt, s.gy)
    ensures InRangeSum(FillAll(Zeros(xa.NBins() + 2), xa, PtEntries(acc, false))) == CountBelow(acc, xa.Xmax()) as real
  {
    ZerosIntegral(xa.NBins() + 2);
    FillAllIntegral(Zeros(xa.NBins() + 2), xa, PtEntries(acc, false));
    PtInRangeWeight(acc, xa, ya);
  }

  /** The accepted events whose leading Gpt lies in [2, 5], in order. */
  function In2to5Events(acc: seq<Selected>): seq<Selected>
    decreases |acc|
  {
    if acc == [] then []
    else In2to5Events(acc[..|acc| - 1]) + (if In2to5(acc[|acc| - 1].gpt) then [acc[|acc| - 1]] else [])
  }

  /**
   * The Gy-in-2-to-5 fills are the Gy fills of the accepted events whose
   * leading Gpt lies in [2, 5]: a subset of the full-range Gy fills, kept in
   * order.
   */
  lemma {:induction false} GyIn2to5IsFilter(acc: seq<Selected>, weighted: bool)
    ensures GyIn2to5Entries(acc, weighted) == GyEntries(In2to5Events(acc), weighted)
    ensures forall s :: s in In2to5Events(acc) ==> s in acc && In2to5(s.gpt)
    ensures forall e :: e in GyIn2to5Entries(acc, weighted) ==> e in GyEntries(acc, weighted)
    ensures |GyIn2to5Entries(acc, weighted)| <= |GyEntries(acc, weighted)|
    decreases |acc|
  {
    if acc != [] {
      var n := |acc| - 1;
      var p, s := acc[..n], acc[n];
      assert acc == p + [s];
      GyIn2to5IsFilter(p, weighted);
      EntriesSnoc(p, s, weighted);
      assert forall t :: t in p ==> t in acc;
      if In2to5(s.gpt) {
        assert In2to5Events(acc) == In2to5Events(p) + [s];
        EntriesSnoc(In2to5Events(p), s, weighted);
      } else {
        assert In2to5Events(acc) == In2to5Events(p);
        assert GyIn2to5Entries(acc, weighted) == GyIn2to5Entries(p, weighted);
      }
    }
  }

  /** When every accepted event carries weight 1, the weighted fills are the unweighted ones. */
  lemma {:induction false} UnitWeightsSameEntries(acc: seq<Selected>)
    requires forall s :: s in acc ==> s.weight == 1.0
    ensures PtEntries(acc, true) == PtEntries(acc, false)
    ensures GyEntries(acc, true) == GyEntries(acc, false)
    ensures GyIn2to5Entries(acc, true) == GyIn2to5Entries(acc, false)
    decreases |acc|
  {
    if acc != [] {
      var n := |acc| - 1;
      assert forall s :: s in acc[..n] ==> s in acc;
      UnitWeightsSameEntries(acc[..n]);
      assert acc[n] in acc;
    }
  }

  /** The six filled arrays are pairwise distinct. */
  predicate Disjoint(a: array<real>, b: array<real>, c: array<real>, d: array<real>, e: array<real>, f: array<real>)
  {
    && a != b && a != c && a != d && a != e && a != f
    && b != c && b != d && b != e && b != f
    && c != d && c != e && c != f
    && d != e && d != f
    && e != f
  }

  /** h, reset to empty, has since been filled with es in order. */
  ghost predicate Tracks(h: Hist1D, es: seq<Entry>)
    reads h.cells
  {
    h.Valid() && h.cells[..] == FillAll(Zeros(h.cells.Length), h.axis, es)
  }

  /** One Fill, tracked against the fill list it extends. */
  method FillTracked(h: Hist1D, ghost es: seq<Entry>, ghost es': seq<Entry>, x: real, w: real)
    requires Tracks(h, es) && es' == es + [Entry(x, w)]
    modifies h.cells
    ensures Tracks(h, es')
  {
    FillAllSnoc(Zeros(h.cells.Length), h.axis, es, Entry(x, w));
    h.Fill(x, w);
  }

  /** The histograms hold their starting contents filled with the entries of the accepted events. */
  ghost predicate Replayed(acc: seq<Selected>,
                           unwPt: Hist1D, wPt: Hist1D, unwGy: Hist1D, wGy: Hist1D, unwGy25: Hist1D, wGy25: Hist1D)
    reads unwPt.cells, wPt.cells, unwGy.cells, wGy.cells, unwGy25.cells, wGy25.cells
  {
    && Tracks(unwPt, PtEntries(acc, false)) && Tracks(wPt, PtEntries(acc, true))
    && Tracks(unwGy, GyEntries(acc, false)) && Tracks(wGy, GyEntries(acc, true))
    && Tracks(unwGy25, GyIn2to5Entries(acc, false)) && Tracks(wGy25, GyIn2to5Entries(acc, true))
  }

  /** Before any event every histogram is empty. */
  lemma ReplayedStart(unwPt: Hist1D, wPt: Hist1D, unwGy: Hist1D, wGy: Hist1D, unwGy25: Hist1D, wGy25: Hist1D)
    requires Tracks(unwPt, []) && Tracks(wPt, []) && Tracks(unwGy, []) && Tracks(wGy, [])
    requires Tracks(unwGy25, []) && Tracks(wGy25, [])
    ensures Replayed([], unwPt, wPt, unwGy, wGy, unwGy25, wGy25)
  {
    assert PtEntries([], false) == PtEntries([], true) == [];
    assert GyEntries([], false) == GyEntries([], true) == [];
    assert GyIn2to5Entries([], false) == GyIn2to5Entries([], true) == [];
  }

  /** An unweighted and a weighted fill at x, tracked together. */
  method FillPair(u: Hist1D, w: Hist1D, ghost eu: seq<Entry>, ghost ew: seq<Entry>, ghost eu': seq<Entry>, ghost ew': seq<Entry>,
                  x: real, weight: real)
    requires u.cells != w.cells
    requires Tracks(u, eu) && Tracks(w, ew)
    requires eu' == eu + [Entry(x, 1.0)] && ew' == ew + [Entry(x, weight)]
    modifies u.cells, w.cells
    ensures Tracks(u, eu') && Tracks(w, ew')
  {
    FillTracked(u, eu, eu', x, 1.0);
    FillTracked(w, ew, ew', x, weight);
  }

  /** The fills of one accepted event: Gpt and Gy with weight 1 and with its weight, the 2-to-5 pair only inside [2, 5]. */
  method FillSelected(s: Selected, ghost acc: seq<Selected>,
                      unwPt: Hist1D, wPt: Hist1D, unwGy: Hist1D, wGy: Hist1D, unwGy25: Hist1D, wGy25: Hist1D)
    requires Disjoint(unwPt.cells, wPt.cells, unwGy.cells, wGy.cells, unwGy25.cells, wGy25.cells)
    requires Replayed(acc, unwPt, wPt, unwGy, wGy, unwGy25, wGy25)
    modifies unwPt.cells, wPt.cells, unwGy.cells, wGy.cells, unwGy25.cells, wGy25.cells
    ensures Replayed(acc + [s], unwPt, wPt, unwGy, wGy, unwGy25, wGy25)
  {
    EntriesSnoc(acc, s, false);
    EntriesSnoc(acc, s, true);
    var acc' := acc + [s];
    FillPair(unwPt, wPt, PtEntries(acc, false), PtEntries(acc, true),
             PtEntries(acc', false), PtEntries(acc', true), s.gpt, s.weight);
    FillPair(unwGy, wGy, GyEntries(acc, false), GyEntries(acc, true),
             GyEntries(acc', false), GyEntries(acc', true), s.gy, s.weight);
    if In2to5(s.gpt) {
      FillPair(unwGy25, wGy25, GyIn2to5Entries(acc, false), GyIn2to5Entries(acc, true),
               GyIn2to5Entries(acc', false), GyIn2to5Entries(acc', true), s.gy, s.weight);
    } else {
      assert GyIn2to5Entries(acc', false) == GyIn2to5Entries(acc, false);
      assert GyIn2to5Entries(acc', true) == GyIn2to5Entries(acc, true);
    }
  }

  /** The body of the event loop: the leading pair, the gate, the weight lookup and the fills. */
  method ReplayEvent(e: GenEvent, ghost acc: seq<Selected>, table: WeightHandler, xa: Axis, ya: Axis,
                     unwPt: Hist1D, wPt: Hist1D, unwGy: Hist1D, wGy: Hist1D, unwGy25: Hist1D, wGy25: Hist1D)
    returns (ghost acc': seq<Selected>)
    requires table.Valid() && xa.Valid() && ya.Valid()
    requires Disjoint(unwPt.cells, wPt.cells, unwGy.cells, wGy.cells, unwGy25.cells, wGy25.cells)
    requires Replayed(acc, unwPt, wPt, unwGy, wGy, unwGy25, wGy25)
    modifies unwPt.cells, wPt.cells, unwGy.cells, wGy.cells, unwGy25.cells, wGy25.cells
    ensures var lead := Leading(e.candidates);
      acc' == if InGate(xa, ya, lead.0, lead.1)
              then acc + [Selected(lead.0, lead.1, WeightAt(table.ratio, lead.0, lead.1))]
              else acc
    ensures Replayed(acc', unwPt, wPt, unwGy, wGy, unwGy25, wGy25)
  {
    acc' := acc;
    var leadingGpt, leadingGy := LeadingCandidate(e.candidates);
    if InGate(xa, ya, leadingGpt, leadingGy) {
      var weight := table.GetWeight(leadingGpt, leadingGy);
      var s := Selected(leadingGpt, leadingGy, weight);
      FillSelected(s, acc, unwPt, wPt, unwGy, wGy, unwGy25, wGy25);
      acc' := acc + [s];
    }
  }

  /**
   * The event loop: every accepted event fills both unweighted spectra with
   * weight 1 and both weighted spectra with GetWeight(Gpt, Gy), and the
   * 2-to-5 pair only when 2 <= Gpt <= 5.
   */
  method Replay(events: seq<GenEvent>, table: WeightHandler, xa: Axis, ya: Axis,
                unwPt: Hist1D, wPt: Hist1D, unwGy: Hist1D, wGy: Hist1D, unwGy25: Hist1D, wGy25: Hist1D)
    requires table.Valid() && xa.Valid() && ya.Valid()
    requires Disjoint(unwPt.cells, wPt.cells, unwGy.cells, wGy.cells, unwGy25.cells, wGy25.cells)
    requires Replayed([], unwPt, wPt, unwGy, wGy, unwGy25, wGy25)
    modifies unwPt.cells, wPt.cells, unwGy.cells, wGy.cells, unwGy25.cells, wGy25.cells
    ensures Replayed(AcceptedEvents(events, xa, ya, table.ratio), unwPt, wPt, unwGy, wGy, unwGy25, wGy25)
  {
    ghost var acc: seq<Selected> := [];
    for i := 0 to |events|
      invariant acc == AcceptedEvents(events[..i], xa, ya, table.ratio)
      invariant Replayed(acc, unwPt, wPt, unwGy, wGy, unwGy25, wGy25)
    {
      assert events[..i + 1] == events[..i] + [events[i]];
      AcceptedSnoc(events[..i], events[i], xa, ya, table.ratio);
      acc := ReplayEvent(events[i], acc, table, xa, ya, unwPt, wPt, unwGy, wGy, unwGy25, wGy25);
    }
    assert events[..|events|] == events;
  }

  /** Scale(1/Integral()) with its IEEE result on a zero integral left out: the cells are then kept. */
  function Normalised(c: seq<real>): (r: seq<real>)
    requires |c| >= 2
    ensures |r| == |c|
    ensures InRangeSum(c) != 0.0 ==> InRangeSum(r) == 1.0
  {
    if InRangeSum(c) == 0.0 then c
    else
      NormalisedIntegral(c);
      Scaled(c, 1.0 / InRangeSum(c))
  }

  /** h->Scale(1/h->Integral()). */
  method Normalise(h: Hist1D)
    requires h.Valid()
    modifies h.cells
    ensures h.cells[..] == Normalised(old(h.cells[..]))
  {
    var integral := h.Integral();
    if integral != 0.0 {
      h.Scale(1.0 / integral);
    }
  }

  /** A normalised spectrum has integral 1 unless it was empty, and normalising it again changes nothing. */
  lemma NormalisedProperties(c: seq<real>)
    requires |c| >= 2
    ensures InRangeSum(c) != 0.0 ==> InRangeSum(Normalised(c)) == 1.0
    ensures Normalised(Normalised(c)) == Normalised(c)
  {
    if InRangeSum(c) != 0.0 {
      NormalisedIntegral(c);
      NormaliseIdempotent(Normalised(c));
    }
  }

  /** The four spectra of one observable after normalisation, and the closure ratio weighted / target. */
  datatype Spectrum = Spectrum(unweighted: seq<real>, weighted: seq<real>, target: seq<real>, closure: seq<real>)

  datatype ClosureOutput = ClosureOutput(leadingGpt: Spectrum, leadingGy: Spectrum, leadingGyIn2to5: Spectrum)

  /** The spectra of one observable from the target projection and the two fill lists. */
  function ExpectedSpectrum(a: Axis, target: seq<real>, unweighted: seq<Entry>, weighted: seq<Entry>): Spectrum
    requires a.Valid() && |target| == a.NBins() + 2
  {
    var u := Normalised(FillAll(Zeros(|target|), a, unweighted));
    var w := Normalised(FillAll(Zeros(|target|), a, weighted));
    var t := Normalised(target);
    Spectrum(u, w, t, CellRatio(w, t))
  }

  /** The bins the Gy-in-2-to-5 target is projected over: those holding 2.001 and 4.999. */
  function Window(num: Hist2): (w: (nat, nat))
    requires num.Valid()
    ensures w.0 <= w.1 <= num.xaxis.NBins() + 1
  {
    FindBinMonotone(num.xaxis, 2.0 + 0.001, 5.0 - 0.001);
    (FindBin(num.xaxis, 2.0 + 0.001), FindBin(num.xaxis, 5.0 - 0.001))
  }

  /** The three spectra from the target projections and the accepted events. */
  function SpectraOf(xa: Axis, ya: Axis, pPt: seq<real>, pGy: seq<real>, pGy25: seq<real>, acc: seq<Selected>): ClosureOutput
    requires xa.Valid() && ya.Valid()
    requires |pPt| == xa.NBins() + 2 && |pGy| == ya.NBins() + 2 && |pGy25| == ya.NBins() + 2
  {
    ClosureOutput(
      ExpectedSpectrum(xa, pPt, PtEntries(acc, false), PtEntries(acc, true)),
      ExpectedSpectrum(ya, pGy, GyEntries(acc, false), GyEntries(acc, true)),
      ExpectedSpectrum(ya, pGy25, GyIn2to5Entries(acc, false), GyIn2to5Entries(acc, true)))
  }

  /** The target spectra: the numerator projected on pt, on y, and on y over the 2-to-5 window of pt bins. */
  datatype Targets = Targets(pt: seq<real>, gy: seq<real>, gy25: seq<real>)

  function TargetsOf(num: Hist2): (t: Targets)
    requires num.Valid()
    ensures |t.pt| == num.xaxis.NBins() + 2 && |t.gy| == num.yaxis.NBins() + 2 && |t.gy25| == num.yaxis.NBins() + 2
  {
    Targets(ProjectionX(num), ProjectionY(num, 0, num.xaxis.NBins() + 1), ProjectionY(num, Window(num).0, Window(num).1))
  }

  /** What the closure test produces for the events and the loaded table, whose numerator also supplies the gate's axes. */
  function ExpectedOutput(events: seq<GenEvent>, num: Hist2, ratio: Option<Hist2>): ClosureOutput
    requires num.Valid() && (ratio.Some? ==> ratio.value.Valid())
  {
    var t := TargetsOf(num);
    SpectraOf(num.xaxis, num.yaxis, t.pt, t.gy, t.gy25, AcceptedEvents(events, num.xaxis, num.yaxis, ratio))
  }

  /** The unweighted and weighted histograms of one observable: clones of the target projection, then Reset. */
  method BookSpectrum(a: Axis, projected: seq<real>) returns (unweighted: Hist1D, weighted: Hist1D)
    requires a.Valid() && |projected| == a.NBins() + 2
    ensures unweighted.axis == a && weighted.axis == a
    ensures fresh(unweighted.cells) && fresh(weighted.cells) && unweighted.cells != weighted.cells
    ensures Tracks(unweighted, []) && Tracks(weighted, [])
  {
    unweighted := new Hist1D(a, projected);
    unweighted.Reset();
    weighted := new Hist1D(a, projected);
    weighted.Reset();
  }

  /**
   * The target histogram (a clone of the projection), then all three
   * normalised, then h_closure: a reset clone of the target divided as
   * weighted / target. Filled from empty with eu and ew, the pair gives the
   * expected spectrum.
   */
  method FinishSpectrum(unweighted: Hist1D, weighted: Hist1D, projected: seq<real>,
                        ghost eu: seq<Entry>, ghost ew: seq<Entry>)
    returns (s: Spectrum)
    requires unweighted.axis == weighted.axis && |projected| == weighted.cells.Length
    requires Tracks(unweighted, eu) && Tracks(weighted, ew) && unweighted.cells != weighted.cells
    modifies unweighted.cells, weighted.cells
    ensures s == ExpectedSpectrum(weighted.axis, projected, eu, ew)
  {
    var target := new Hist1D(weighted.axis, projected);
    Normalise(unweighted);
    Normalise(weighted);
    Normalise(target);
    var closure := new Hist1D(target.axis, target.cells[..]);
    closure.Reset();
    var divided := closure.Divide(weighted, target);
    s := Spectrum(unweighted.cells[..], weighted.cells[..], target.cells[..], closure.cells[..]);
  }

  /**
   * The spectra of the three observables, booked as reset clones of the
   * target projections pPt, pGy and pGy25 and filled by the event loop.
   */
  method BookAndReplay(events: seq<GenEvent>, table: WeightHandler, xa: Axis, ya: Axis,
                       pPt: seq<real>, pGy: seq<real>, pGy25: seq<real>)
    returns (unwPt: Hist1D, wPt: Hist1D, unwGy: Hist1D, wGy: Hist1D, unwGy25: Hist1D, wGy25: Hist1D)
    requires table.Valid() && xa.Valid() && ya.Valid()
    requires |pPt| == xa.NBins() + 2 && |pGy| == ya.NBins() + 2 && |pGy25| == ya.NBins() + 2
    ensures unwPt.axis == wPt.axis == xa && unwGy.axis == wGy.axis == ya && unwGy25.axis == wGy25.axis == ya
    ensures Replayed(AcceptedEvents(events, xa, ya, table.ratio), unwPt, wPt, unwGy, wGy, unwGy25, wGy25)
    ensures Disjoint(unwPt.cells, wPt.cells, unwGy.cells, wGy.cells, unwGy25.cells, wGy25.cells)
    ensures fresh(unwPt.cells) && fresh(wPt.cells) && fresh(unwGy.cells) && fresh(wGy.cells)
    ensures fresh(unwGy25.cells) && fresh(wGy25.cells)
  {
    unwPt, wPt := BookSpectrum(xa, pPt);
    unwGy, wGy := BookSpectrum(ya, pGy);
    unwGy25, wGy25 := BookSpectrum(ya, pGy25);
    ReplayedStart(unwPt, wPt, unwGy, wGy, unwGy25, wGy25);
    Replay(events, table, xa, ya, unwPt, wPt, unwGy, wGy, unwGy25, wGy25);
  }

  /** The three observables finished one after the other. */
  method FinishAll(unwPt: Hist1D, wPt: Hist1D, unwGy: Hist1D, wGy: Hist1D, unwGy25: Hist1D, wGy25: Hist1D,
                   pPt: seq<real>, pGy: seq<real>, pGy25: seq<real>, ghost acc: seq<Selected>)
    returns (out: ClosureOutput)
    requires unwPt.axis == wPt.axis && unwGy.axis == wGy.axis && unwGy25.axis == wGy25.axis
    requires |pPt| == wPt.cells.Length && |pGy| == wGy.cells.Length && |pGy25| == wGy25.cells.Length
    requires Replayed(acc, unwPt, wPt, unwGy, wGy, unwGy25, wGy25)
    requires Disjoint(unwPt.cells, wPt.cells, unwGy.cells, wGy.cells, unwGy25.cells, wGy25.cells)
    modifies unwPt.cells, wPt.cells, unwGy.cells, wGy.cells, unwGy25.cells, wGy25.cells
    requires wGy.axis == wGy25.axis
    ensures out == SpectraOf(wPt.axis, wGy.axis, pPt, pGy, pGy25, acc)
  {
    var sPt := FinishSpectrum(unwPt, wPt, pPt, PtEntries(acc, false), PtEntries(acc, true));
    var sGy := FinishSpectrum(unwGy, wGy, pGy, GyEntries(acc, false), GyEntries(acc, true));
    var sGy25 := FinishSpectrum(unwGy25, wGy25, pGy25, GyIn2to5Entries(acc, false), GyIn2to5Entries(acc, true));
    out := ClosureOutput(sPt, sGy, sGy25);
  }

  /**
   * The closure property: with a table of a histogram over itself, and
   * every accepted event in a filled cell of that histogram, each weighted
   * spectrum equals its unweighted one, so each closure ratio is the
   * unweighted spectrum over the target.
   */
  lemma ClosureSelfTable(events: seq<GenEvent>, h: Hist2)
    requires h.Valid()
    requires forall s :: s in AcceptedEvents(events, h.xaxis, h.yaxis, Some(Divide(h, h))) ==>
      h.cells[FindBin(h.xaxis, s.gpt)][FindBin(h.yaxis, s.gy)] != 0.0
    ensures var out := ExpectedOutput(events, h, Some(Divide(h, h)));
      && out.leadingGpt.weighted == out.leadingGpt.unweighted
      && out.leadingGy.weighted == out.leadingGy.unweighted
      && out.leadingGyIn2to5.weighted == out.leadingGyIn2to5.unweighted
      && out.leadingGpt.closure == CellRatio(out.leadingGpt.unweighted, out.leadingGpt.target)
  {
    var ratio := Some(Divide(h, h));
    var acc := AcceptedEvents(events, h.xaxis, h.yaxis, ratio);
    AcceptedPassGate(events, h.xaxis, h.yaxis, ratio);
    forall s | s in acc
      ensures s.weight == 1.0
    {
      IdenticalInputsWeighOne(h, s.gpt, s.gy);
    }
    UnitWeightsSameEntries(acc);
  }

  /** Booking, the event loop and the finishing steps for given target projections. */
  method Spectra(events: seq<GenEvent>, table: WeightHandler, xa: Axis, ya: Axis,
                 pPt: seq<real>, pGy: seq<real>, pGy25: seq<real>)
    returns (out: ClosureOutput)
    requires table.Valid() && xa.Valid() && ya.Valid()
    requires |pPt| == xa.NBins() + 2 && |pGy| == ya.NBins() + 2 && |pGy25| == ya.NBins() + 2
    ensures out == SpectraOf(xa, ya, pPt, pGy, pGy25, AcceptedEvents(events, xa, ya, table.ratio))
  {
    var unwPt, wPt, unwGy, wGy, unwGy25, wGy25 := BookAndReplay(events, table, xa, ya, pPt, pGy, pGy25);
    ghost var acc := AcceptedEvents(events, xa, ya, table.ratio);
    out := FinishAll(unwPt, wPt, unwGy, wGy, unwGy25, wGy25, pPt, pGy, pGy25, acc);
  }

  /**
   * main from the table load on: exit code 1 when the event file does not
   * open, otherwise the nine normalised spectra and three closure ratios.
   * The table must hold a numerator: its axes book the histograms and gate
   * the events.
   */
  method RunClosureTest(events: Option<seq<GenEvent>>, table: WeightHandler)
    returns (exitCode: int, out: Option<ClosureOutput>)
    requires table.Valid() && table.num.Some?
    ensures events.None? ==> exitCode == 1 && out.None?
    ensures events.Some? ==> exitCode == 0 && out == Some(ExpectedOutput(events.value, table.num.value, table.ratio))
  {
    if events.None? {
      return 1, None;
    }
    var num := table.num.value;
    var t := TargetsOf(num);
    var result := Spectra(events.value, table, num.xaxis, num.yaxis, t.pt, t.gy, t.gy25);
    return 0, Some(result);
  }
}
