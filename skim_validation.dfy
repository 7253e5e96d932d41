/**
 * The skim validation of run 399543: a four-tier event selection cascade
 * (trigger, cluster compatibility, primary vertex, HF energy), two mutually
 * exclusive ZDC categories with one counter per tier, and the D-candidate
 * selection whose masses fill the per-tier mass spectra.
 */
module SkimValidation {

  /** The trigger choices with a name of their own; any other value selects "All". */
  const ListedChoices: set<int> := {0, 1, 400, 1400, 10000, 110000, 14000, 114000}

  /** The output-name tag of a trigger choice. */
  function TriggerName(choice: int): (name: string)
    ensures name == "All" <==> choice !in ListedChoices
  {
    if choice == 0 then "ZBTrigger"
    else if choice == 1 then "ZDCORTrigger"
    else if choice == 400 then "ZBTrigger_Max400"
    else if choice == 1400 then "ZDCORTrigger_Max400"
    else if choice == 10000 then "ZBTrigger_Min400"
    else if choice == 110000 then "ZDCORTrigger_Min400"
    else if choice == 14000 then "ZBTrigger_Min400_or_Max400"
    else if choice == 114000 then "ZDCORTrigger_Min400_or_Max400"
    else "All"
  }

  /** One reconstructed D candidate and its two daughter tracks. */
  datatype DCandidate = DCandidate(
    passCutNominal: bool, pt: real, mass: real,
    trk1PixelHit: int, trk1StripHit: int, trk2PixelHit: int, trk2StripHit: int,
    trk1PtErr: real, trk1Pt: real, trk2PtErr: real, trk2Pt: real,
    trk1MassHypo: real,
    trk1KaonScore: real, trk1P: real, trk2KaonScore: real, trk2P: real)

  /** The event-level quantities the selection reads. */
  datatype Event = Event(
    isZeroBias: bool, isL1ZDCOr: bool,
    isZeroBiasMax400: bool, isL1ZDCOrMax400: bool,
    isZeroBiasMin400: bool, isL1ZDCOrMin400: bool,
    selectedBkgFilter: bool, selectedVtxFilter: bool,
    zdcSumMinus: real, zdcSumPlus: real,
    hfEMaxMinus: real, hfEMaxPlus: real,
    candidates: seq<DCandidate>)

  /** evtsel[0]: the trigger flag the choice selects; an unlisted choice accepts every event. */
  function BaseTrigger(e: Event, choice: int): (accepted: bool)
    ensures choice !in ListedChoices ==> accepted
    ensures choice == 14000 ==> (accepted <==> BaseTrigger(e, 10000) || BaseTrigger(e, 400))
    ensures choice == 114000 ==> (accepted <==> BaseTrigger(e, 110000) || BaseTrigger(e, 1400))
  {
    if choice == 0 then e.isZeroBias
    else if choice == 1 then e.isL1ZDCOr
    else if choice == 400 then e.isZeroBiasMax400
    else if choice == 1400 then e.isL1ZDCOrMax400
    else if choice == 10000 then e.isZeroBiasMin400
    else if choice == 110000 then e.isL1ZDCOrMin400
    else if choice == 14000 then e.isZeroBiasMin400 || e.isZeroBiasMax400
    else if choice == 114000 then e.isL1ZDCOrMin400 || e.isL1ZDCOrMax400
    else true
  }

  /** The two ZDC categories: 0nXn (Ngamma) and Xn0n (gammaN). */
  datatype Category = ZeroNXn | XnZeroN

  /** 0nXn: ZDC- below 1000 and ZDC+ above 1100; Xn0n: ZDC- above 1000 and ZDC+ below 1100. */
  predicate InCategory(e: Event, cat: Category)
    ensures InCategory(e, cat) ==> e.zdcSumMinus != 1000.0 && e.zdcSumPlus != 1100.0
  {
    match cat
    case ZeroNXn => e.zdcSumMinus < 1000.0 && e.zdcSumPlus > 1100.0
    case XnZeroN => e.zdcSumMinus > 1000.0 && e.zdcSumPlus < 1100.0
  }

  /** The HF cut of tier 3, on the side the category expects empty. */
  predicate HFCut(e: Event, cat: Category) {
    match cat
    case ZeroNXn => e.hfEMaxMinus < 8.6
    case XnZeroN => e.hfEMaxPlus < 9.2
  }

  /** evtsel as the category block sees it: each tier ANDs one more requirement onto the previous one. */
  function Selection(e: Event, choice: int, cat: Category): (sel: seq<bool>)
    ensures |sel| == 4
    ensures forall k :: 1 <= k < 4 && sel[k] ==> sel[k - 1]
  {
    var s0 := BaseTrigger(e, choice);
    var s1 := s0 && e.selectedBkgFilter;
    var s2 := s1 && e.selectedVtxFilter;
    [s0, s1, s2, s2 && HFCut(e, cat)]
  }

  /** An event is counted for a category at tier k. */
  predicate Counted(e: Event, choice: int, cat: Category, k: nat)
    requires k < 4
  {
    InCategory(e, cat) && Selection(e, choice, cat)[k]
  }

  /** The relative pt error is below 0.1; a zero pt divides to -inf, +inf or NaN, so only a negative error passes. */
  predicate RelErrBelow(err: real, pt: real)
    ensures pt > 0.0 ==> (RelErrBelow(err, pt) <==> err < 0.1 * pt)
    ensures pt < 0.0 ==> (RelErrBelow(err, pt) <==> err > 0.1 * pt)
  {
    if pt == 0.0 then err < 0.0
    else
      RatioBelowBound(err, pt);
      err / pt < 0.1
  }

  /** Dividing by a non-zero pt and comparing with 0.1 is comparing err with 0.1 * pt, the other way round when pt < 0. */
  lemma RatioBelowBound(err: real, pt: real)
    requires pt != 0.0
    ensures pt > 0.0 ==> (err / pt < 0.1 <==> err < 0.1 * pt)
    ensures pt < 0.0 ==> (err / pt < 0.1 <==> err > 0.1 * pt)
  {
    var q := err / pt;
    assert err == q * pt;
    if pt < 0.0 {
      var d := 0.1 - q;
      assert d * pt == 0.1 * pt - err;
      if d > 0.0 {
        assert d * pt < 0.0;
      } else {
        assert d * pt >= 0.0;
      }
    }
  }

  /** The kaon-identification clause of the track that Dtrk1MassHypo points at. */
  predicate KaonClause(c: DCandidate)
    ensures KaonClause(c) ==> (if c.trk1MassHypo > 0.3 then c.trk1P else c.trk2P) != 0.85
  {
    if c.trk1MassHypo > 0.3 then (-3.0 < c.trk1KaonScore < 3.0 && c.trk1P < 0.85) || c.trk1P > 0.85
    else (-3.0 < c.trk2KaonScore < 3.0 && c.trk2P < 0.85) || c.trk2P > 0.85
  }

  /** passDSelection. */
  predicate PassDSelection(c: DCandidate)
    ensures PassDSelection(c) ==> c.trk1Pt != 0.0 || c.trk1PtErr < 0.0
    ensures PassDSelection(c) ==> (if c.trk1MassHypo > 0.3 then c.trk1P else c.trk2P) != 0.85
  {
    && c.passCutNominal
    && c.pt > 1.0
    && c.trk1PixelHit + c.trk1StripHit >= 11 && c.trk2PixelHit + c.trk2StripHit >= 11
    && RelErrBelow(c.trk1PtErr, c.trk1Pt) && RelErrBelow(c.trk2PtErr, c.trk2Pt)
    && KaonClause(c)
  }

  /** The masses one counted event fills into its category's mass spectrum at a tier: those of the passing candidates, in order. */
  function PassingMasses(cs: seq<DCandidate>): seq<real>
    decreases |cs|
  {
    if cs == [] then []
    else PassingMasses(cs[..|cs| - 1]) + (if PassDSelection(cs[|cs| - 1]) then [cs[|cs| - 1].mass] else [])
  }

  /** The counter of a category at tier k after the events. */
  function Count(events: seq<Event>, choice: int, cat: Category, k: nat): nat
    requires k < 4
    decreases |events|
  {
    if events == [] then 0
    else Count(events[..|events| - 1], choice, cat, k) + (if Counted(events[|events| - 1], choice, cat, k) then 1 else 0)
  }

  /** The masses filled into a category's tier-k mass spectrum after the events, in fill order. */
  function Masses(events: seq<Event>, choice: int, cat: Category, k: nat): seq<real>
    requires k < 4
    decreases |events|
  {
    if events == [] then []
    else
      var e := events[|events| - 1];
      Masses(events[..|events| - 1], choice, cat, k) + (if Counted(e, choice, cat, k) then PassingMasses(e.candidates) else [])
  }

  /** The four counters and four mass spectra of each category. */
  datatype Summary = Summary(count0nXn: seq<int>, countXn0n: seq<int>, mass0nXn: seq<seq<real>>, massXn0n: seq<seq<real>>)

  /** The counters and mass spectra the selection implies for a category. */
  predicate Summarises(counts: seq<int>, masses: seq<seq<real>>, events: seq<Event>, choice: int, cat: Category) {
    |counts| == 4 && |masses| == 4
    && forall k :: 0 <= k < 4 ==> counts[k] == Count(events, choice, cat, k) && masses[k] == Masses(events, choice, cat, k)
  }

  /** The candidate loop of one counted event at one tier: each passing candidate fills its mass. */
  method FillMasses(cs: seq<DCandidate>, mass: array<seq<real>>, isel: nat)
    requires isel < mass.Length
    modifies mass
    ensures mass[isel] == old(mass[isel]) + PassingMasses(cs)
    ensures forall k :: 0 <= k < mass.Length && k != isel ==> mass[k] == old(mass[k])
  {
    for iD := 0 to |cs|
      invariant mass[isel] == old(mass[isel]) + PassingMasses(cs[..iD])
      invariant forall k :: 0 <= k < mass.Length && k != isel ==> mass[k] == old(mass[k])
    {
      assert cs[..iD + 1][..iD] == cs[..iD];
      if !PassDSelection(cs[iD]) {
        continue;
      }
      mass[isel] := mass[isel] + [cs[iD].mass];
    }
    assert cs[..|cs|] == cs;
  }

  /** The tier loop of one category block: each tier the event passes counts it once and fills its candidates' masses. */
  method FillCategory(e: Event, evtsel: array<bool>, count: array<int>, mass: array<seq<real>>)
    requires evtsel.Length == 4 && count.Length == 4 && mass.Length == 4
    modifies count, mass
    ensures forall k :: 0 <= k < 4 ==> count[k] == old(count[k]) + (if evtsel[k] then 1 else 0)
    ensures forall k :: 0 <= k < 4 ==> mass[k] == old(mass[k]) + (if evtsel[k] then PassingMasses(e.candidates) else [])
  {
    for isel := 0 to 4
      invariant forall k :: 0 <= k < isel ==> count[k] == old(count[k]) + (if evtsel[k] then 1 else 0)
      invariant forall k :: 0 <= k < isel ==> mass[k] == old(mass[k]) + (if evtsel[k] then PassingMasses(e.candidates) else [])
      invariant forall k :: isel <= k < 4 ==> count[k] == old(count[k]) && mass[k] == old(mass[k])
    {
      if !evtsel[isel] {
        continue;
      }
      count[isel] := count[isel] + 1;
      FillMasses(e.candidates, mass, isel);
    }
  }

  /** One step of Count and Masses. */
  lemma CountSnoc(events: seq<Event>, e: Event, choice: int, cat: Category)
    ensures forall k :: 0 <= k < 4 ==>
      Count(events + [e], choice, cat, k) == Count(events, choice, cat, k) + (if Counted(e, choice, cat, k) then 1 else 0)
    ensures forall k :: 0 <= k < 4 ==>
      Masses(events + [e], choice, cat, k)
        == Masses(events, choice, cat, k) + (if Counted(e, choice, cat, k) then PassingMasses(e.candidates) else [])
  {
    assert (events + [e])[..|events|] == events;
  }

  /** The body of the event loop: evtsel built tier by tier, then the block of the event's category, if any. */
  method ProcessEvent(e: Event, triggerChoice: int,
                      count0nXn: array<int>, countXn0n: array<int>, mass0nXn: array<seq<real>>, massXn0n: array<seq<real>>)
    requires count0nXn.Length == 4 && countXn0n.Length == 4 && mass0nXn.Length == 4 && massXn0n.Length == 4
    requires count0nXn != countXn0n && mass0nXn != massXn0n
    modifies count0nXn, countXn0n, mass0nXn, massXn0n
    ensures forall k :: 0 <= k < 4 ==>
      count0nXn[k] == old(count0nXn[k]) + (if Counted(e, triggerChoice, ZeroNXn, k) then 1 else 0)
    ensures forall k :: 0 <= k < 4 ==>
      countXn0n[k] == old(countXn0n[k]) + (if Counted(e, triggerChoice, XnZeroN, k) then 1 else 0)
    ensures forall k :: 0 <= k < 4 ==>
      mass0nXn[k] == old(mass0nXn[k]) + (if Counted(e, triggerChoice, ZeroNXn, k) then PassingMasses(e.candidates) else [])
    ensures forall k :: 0 <= k < 4 ==>
      massXn0n[k] == old(massXn0n[k]) + (if Counted(e, triggerChoice, XnZeroN, k) then PassingMasses(e.candidates) else [])
  {
    var evtsel := new bool[4](_ => false);
    evtsel[0] := BaseTrigger(e, triggerChoice);
    evtsel[1] := evtsel[0] && e.selectedBkgFilter;
    evtsel[2] := evtsel[1] && e.selectedVtxFilter;
    if e.zdcSumMinus < 1000.0 && e.zdcSumPlus > 1100.0 {
      evtsel[3] := evtsel[2] && e.hfEMaxMinus < 8.6;
      assert evtsel[..] == Selection(e, triggerChoice, ZeroNXn);
      FillCategory(e, evtsel, count0nXn, mass0nXn);
    }
    if e.zdcSumMinus > 1000.0 && e.zdcSumPlus < 1100.0 {
      evtsel[3] := evtsel[2] && e.hfEMaxPlus < 9.2;
      assert evtsel[..] == Selection(e, triggerChoice, XnZeroN);
      FillCategory(e, evtsel, countXn0n, massXn0n);
    }
  }

  /** The event loop: the counters and mass spectra of both categories at every tier. */
  method CheckRun(events: seq<Event>, triggerChoice: int) returns (s: Summary)
    ensures Summarises(s.count0nXn, s.mass0nXn, events, triggerChoice, ZeroNXn)
    ensures Summarises(s.countXn0n, s.massXn0n, events, triggerChoice, XnZeroN)
  {
    var count0nXn := new int[4](_ => 0);
    var countXn0n := new int[4](_ => 0);
    var mass0nXn := new seq<real>[4](_ => []);
    var massXn0n := new seq<real>[4](_ => []);
    for iE := 0 to |events|
      invariant Summarises(count0nXn[..], mass0nXn[..], events[..iE], triggerChoice, ZeroNXn)
      invariant Summarises(countXn0n[..], massXn0n[..], events[..iE], triggerChoice, XnZeroN)
    {
      var e := events[iE];
      assert events[..iE + 1] == events[..iE] + [e];
      CountSnoc(events[..iE], e, triggerChoice, ZeroNXn);
      CountSnoc(events[..iE], e, triggerChoice, XnZeroN);
      ProcessEvent(e, triggerChoice, count0nXn, countXn0n, mass0nXn, massXn0n);
    }
    assert events[..|events|] == events;
    s := Summary(count0nXn[..], countXn0n[..], mass0nXn[..], massXn0n[..]);
  }

  /** No event is in both categories. */
  lemma CategoriesExclusive(e: Event)
    ensures !(InCategory(e, ZeroNXn) && InCategory(e, XnZeroN))
  {
  }

  /** A ZDC sum exactly at a threshold puts the event in neither category. */
  lemma ThresholdValuesInNeither(e: Event)
    requires e.zdcSumMinus == 1000.0 || e.zdcSumPlus == 1100.0
    ensures !InCategory(e, ZeroNXn) && !InCategory(e, XnZeroN)
  {
  }

  /** The tiers nest: passing tier k means passing every lower tier. */
  lemma CascadeNests(e: Event, choice: int, cat: Category, j: nat, k: nat)
    requires j <= k < 4 && Counted(e, choice, cat, k)
    ensures Counted(e, choice, cat, j)
  {
    var sel := Selection(e, choice, cat);
    var i := k;
    while i > j
      invariant j <= i <= k && sel[i]
    {
      i := i - 1;
    }
  }

  /** Counters never grow with the tier. */
  lemma {:induction false} CountMonotoneInTier(events: seq<Event>, choice: int, cat: Category, j: nat, k: nat)
    requires j <= k < 4
    ensures Count(events, choice, cat, k) <= Count(events, choice, cat, j)
    ensures |Masses(events, choice, cat, k)| <= |Masses(events, choice, cat, j)|
    decreases |events|
  {
    if events != [] {
      var n := |events| - 1;
      CountMonotoneInTier(events[..n], choice, cat, j, k);
      if Counted(events[n], choice, cat, k) {
        CascadeNests(events[n], choice, cat, j, k);
      }
    }
  }

  /** An event is counted in at most one category, so at every tier the two counters together never exceed the events. */
  lemma {:induction false} CategoryCountsBounded(events: seq<Event>, choice: int, k: nat)
    requires k < 4
    ensures Count(events, choice, ZeroNXn, k) + Count(events, choice, XnZeroN, k) <= |events|
    decreases |events|
  {
    if events != [] {
      CategoryCountsBounded(events[..|events| - 1], choice, k);
      CategoriesExclusive(events[|events| - 1]);
    }
  }

  /** An unlisted choice is named "All", a listed one is not, and distinct listed choices get distinct names. */
  lemma TriggerNames(choice: int, other: int)
    ensures TriggerName(choice) == "All" <==> choice !in ListedChoices
    ensures choice in ListedChoices && other in ListedChoices && choice != other ==> TriggerName(choice) != TriggerName(other)
  {
  }

  /** Under an unlisted choice the trigger tier accepts every event. */
  lemma UnlistedChoiceAcceptsAll(e: Event, choice: int)
    requires choice !in ListedChoices
    ensures Selection(e, choice, ZeroNXn)[0] && Selection(e, choice, XnZeroN)[0]
  {
  }

  /** The kaon clause reads only the track Dtrk1MassHypo selects: the other track's score and momentum do not matter. */
  lemma KaonClauseReadsSelectedTrack(c: DCandidate, d: DCandidate)
    requires c.trk1MassHypo == d.trk1MassHypo
    requires c.trk1MassHypo > 0.3 ==> c.trk1KaonScore == d.trk1KaonScore && c.trk1P == d.trk1P
    requires c.trk1MassHypo <= 0.3 ==> c.trk2KaonScore == d.trk2KaonScore && c.trk2P == d.trk2P
    ensures KaonClause(c) <==> KaonClause(d)
  {
  }

  /** A selected track with momentum exactly 0.85 fails the kaon clause whatever its score. */
  lemma MomentumAtCutFailsKaonClause(c: DCandidate)
    requires c.trk1MassHypo > 0.3 ==> c.trk1P == 0.85
    requires c.trk1MassHypo <= 0.3 ==> c.trk2P == 0.85
    ensures !KaonClause(c) && !PassDSelection(c)
  {
  }

  /** Every mass filled comes from a candidate that passes the selection. */
  lemma {:induction false} PassingMassesFromPassingCandidates(cs: seq<DCandidate>)
    ensures |PassingMasses(cs)| <= |cs|
    ensures forall m :: m in PassingMasses(cs) ==> exists c :: c in cs && PassDSelection(c) && c.mass == m
    decreases |cs|
  {
    if cs != [] {
      var n := |cs| - 1;
      PassingMassesFromPassingCandidates(cs[..n]);
      assert forall c :: c in cs[..n] ==> c in cs;
      assert cs[n] in cs;
    }
  }
}
