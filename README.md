# D0 UPC weight table, closure test, mirror ratio graph and skim validation in Dafny

This project models four pieces of a heavy-ion D0 analysis. Each is written
in Dafny, with its promises stated as contracts and proved.

- **The 2-D weight table** (`WeightHandler`) and the program that makes it
  (`MakeWeights`). The program opens a numerator and a denominator TH2D. It
  checks that their bin counts and bin low edges agree. Then it builds the
  table (a clone of the numerator divided cell by cell by the denominator)
  and writes ratio, numerator and denominator to a file. `GetWeight(pt, y)`
  looks a weight up in the ratio table.
- **The closure test.** It replays generator-level events: for each event
  it finds the leading signal D0 (greatest Gpt; the first one wins a tie)
  and gates it on the table's axis ranges. It then fills unweighted and
  weighted spectra of Gpt, Gy and Gy for 2 <= Gpt <= 5. The target spectra
  are projections of the numerator. All nine are normalised to unit
  integral, and each weighted spectrum is divided by its target.
- **The mirror ratio graph** of the cross-section plot. Two point series,
  the second at mirrored rapidities, are divided point by point. A pair is
  skipped when its x values are not mirror images or its denominator is 0.
- **The skim validation of run 399543.** A four-tier event selection
  (trigger, cluster compatibility, primary vertex, HF energy) runs inside
  two mutually exclusive ZDC categories, 0nXn and Xn0n. Each category has
  one counter per tier. Each counted event fills the masses of its D
  candidates that pass the D selection.

Module layout:

- `Binning`: axes, `FindBin`, `GetBinLowEdge`.
- `Histogram`: TH2D as a value. TH1D as a class over an array that is reset,
  filled, scaled and divided in place.
- `WeightTable`: the `WeightHandler` class and its file round trip.
- `MakeWeights`: the weight-making program.
- `ClosureTest`: the closure test.
- `CrossSectionRatio`: the ratio graph.
- `SkimValidation`: the skim validation.
- `Wrappers`: an `Option` type. A null pointer, a file that does not open
  and a missing graph are all `None`.

ROOT itself is not part of this model. Its behaviour is written out as
definitions, and these are modelling assumptions:

- `TAxis::FindBin` on an axis that cannot be extended: 0 below the range,
  N+1 at or above the upper edge, half-open bins in between.
- `TAxis::GetBinLowEdge`: the stored edge for bins 1..N. Any other bin is
  extrapolated with the average bin width.
- `TH1::Divide` gives 0 where the denominator cell is 0. It leaves the
  target unchanged when the bin counts differ.
- `TH1::Integral()` sums bins 1..N.
- `TH1::Scale` multiplies every cell, the flow cells included.
- Projections sum cells, the flow cells included.

Numbers are exact reals. Counters are unbounded integers.

Three behaviours of the code are worth stating plainly:

- `GetWeight` has no range guard. A coordinate outside the table's range
  reads the underflow or overflow cell (WeightHandler.h:118-121), so it can
  get a non-zero weight (`OutOfRangeReadsFlowCells`,
  `UpperEdgeWeightNotZero`).
- The binning check's loops compare the low edges of bins 0..N. Bin 0's low
  edge is extrapolated from Xmin, Xmax and N, so it pins Xmax. With exact
  arithmetic the check accepts exactly the pairs with identical axes
  (`BinningCompatibleIffSameAxes`). With floating-point edges this holds
  only up to rounding.
- `GetRatioGraph` returns a null graph for series of different lengths
  (`GetRatioGraph`); the example `MirroredExample` uses series of equal
  length.

## Model

| member | source | states |
|---|---|---|
| Binning.FindBin | WeightHandler/20250305_DzeroUPC_DptDyWeight/include/WeightHandler.h:118-119 | The bin is 0 exactly when the coordinate is below Xmin, and N+1 exactly when it is at or above Xmax. Otherwise it is the bin whose half-open interval holds the coordinate. |
| Binning.FindBinUnique | WeightHandler/20250305_DzeroUPC_DptDyWeight/include/WeightHandler.h:118-119 | A coordinate inside the interval of bin i is found in bin i: bins do not overlap. |
| Binning.FindBinMonotone | WeightHandler/20250305_DzeroUPC_DptDyWeight/include/WeightHandler.h:118-119 | The bin found never decreases as the coordinate grows. |
| Binning.LowEdge | WeightHandler/20250305_DzeroUPC_GptGyWeight/source/MakeWeights.cpp:64-80 | The low edge the check compares is the stored edge for bins 1..N. For bin 0 it lies strictly below Xmin. |
| Binning.LowEdgesDetermineAxis | WeightHandler/20250305_DzeroUPC_GptGyWeight/source/MakeWeights.cpp:64-80 | Two axes with the same bin count and equal low edges for bins 0..N are the same axis, the last upper edge included. |
| Histogram.SafeDiv | WeightHandler/20250305_DzeroUPC_DptDyWeight/include/WeightHandler.h:26 | The stored quotient times the denominator gives back the numerator. The quotient is 0 when the denominator is 0. |
| Histogram.Divide | WeightHandler/20250305_DzeroUPC_DptDyWeight/include/WeightHandler.h:25-26 | The ratio table keeps the numerator's axes and is well formed. |
| Histogram.DivideCells | WeightHandler/20250305_DzeroUPC_DptDyWeight/include/WeightHandler.h:25-26 | Every ratio cell, flow cells included, is numerator over denominator, or 0 on an empty denominator cell. |
| Histogram.DivideBySelf | WeightHandler/20250305_DzeroUPC_DptDyWeight/include/WeightHandler.h:25-26 | A table of a histogram over itself holds 1 in each filled cell and 0 in each empty one. |
| Histogram.DivideNonNegative | WeightHandler/20250305_DzeroUPC_DptDyWeight/include/WeightHandler.h:25-26 | Non-negative numerator and denominator cells give a non-negative ratio cell. |
| Histogram.ProjectionX | WeightHandler/20250305_DzeroUPC_GptGyWeight/source/ClosureTest.cpp:47-49 | The x projection has one cell per x cell of the table, flows included; each is the row's total over all y cells. |
| Histogram.ProjectionY | WeightHandler/20250305_DzeroUPC_GptGyWeight/source/ClosureTest.cpp:54-69 | The y projection over x bins first..last has one cell per y cell, flows included; each is that column's sum over those x bins. |
| Histogram.ProjectionsSameTotal | WeightHandler/20250305_DzeroUPC_GptGyWeight/source/ClosureTest.cpp:47-56 | The x projection and the full-range y projection of one table hold the same total content: both add up every cell. |
| Histogram.IntegralScaled | WeightHandler/20250305_DzeroUPC_GptGyWeight/source/ClosureTest.cpp:113-123 | Scaling by k multiplies the integral by k. |
| Histogram.NormalisedIntegral | WeightHandler/20250305_DzeroUPC_GptGyWeight/source/ClosureTest.cpp:113-123 | Scale(1/Integral()) leaves an integral of exactly 1 when the integral was not 0. |
| Histogram.NormaliseIdempotent | WeightHandler/20250305_DzeroUPC_GptGyWeight/source/ClosureTest.cpp:113-123 | Normalising a histogram whose integral is already 1 changes no cell. |
| Histogram.FilledIntegral | WeightHandler/20250305_DzeroUPC_GptGyWeight/source/ClosureTest.cpp:100-103 | A fill adds its weight to the integral exactly when it lands in bins 1..N. |
| Histogram.FillAllIntegral | WeightHandler/20250305_DzeroUPC_GptGyWeight/source/ClosureTest.cpp:99-109 | After a sequence of fills, the integral is the old integral plus the weight that landed in range. |
| Histogram.ZerosIntegral | WeightHandler/20250305_DzeroUPC_GptGyWeight/source/ClosureTest.cpp:47-48 | A histogram just reset has integral 0. |
| Histogram.Hist1D.constructor | WeightHandler/20250305_DzeroUPC_GptGyWeight/source/ClosureTest.cpp:47-49 | A clone holds the given axis and exactly the given cell contents, in a fresh array. |
| Histogram.Hist1D.Reset | WeightHandler/20250305_DzeroUPC_GptGyWeight/source/ClosureTest.cpp:47-48 | Every cell is 0 afterwards. |
| Histogram.Hist1D.Fill | WeightHandler/20250305_DzeroUPC_GptGyWeight/source/ClosureTest.cpp:100-103 | Cell FindBin(x) gains w, whatever bin that is, and every other cell is unchanged. |
| Histogram.Hist1D.Integral | WeightHandler/20250305_DzeroUPC_GptGyWeight/source/ClosureTest.cpp:113 | The result is the sum of cells 1..N; both flow cells are left out. |
| Histogram.Hist1D.Scale | WeightHandler/20250305_DzeroUPC_GptGyWeight/source/ClosureTest.cpp:113-123 | Every cell, flow cells included, is multiplied by k. |
| Histogram.Hist1D.Divide | WeightHandler/20250305_DzeroUPC_GptGyWeight/source/ClosureTest.cpp:142 | With matching sizes, each cell becomes the zero-guarded quotient of the old numerator and denominator cells. Otherwise nothing changes. The result reports which case applied. |
| WeightTable.Retrieve | WeightHandler/20250305_DzeroUPC_DptDyWeight/include/WeightHandler.h:73-75 | The lookup finds a histogram exactly when the name is present and holds a TH2D, and then it is that TH2D. |
| WeightTable.WeightHandler.constructor | WeightHandler/20250305_DzeroUPC_DptDyWeight/include/WeightHandler.h:19 | All three tables are null. |
| WeightTable.WeightHandler.FromPair | WeightHandler/20250305_DzeroUPC_DptDyWeight/include/WeightHandler.h:21-27 | The handler holds copies of both inputs and their cell-wise ratio. |
| WeightTable.WeightHandler.LoadFromFile | WeightHandler/20250305_DzeroUPC_DptDyWeight/include/WeightHandler.h:60-84 | If the file does not open, the result is false and nothing changes. Otherwise all three pointers are reassigned from the file, null where a name is missing or not a TH2D. The result is true exactly when all three were found. |
| WeightTable.WeightHandler.WriteToFile | WeightHandler/20250305_DzeroUPC_DptDyWeight/include/WeightHandler.h:87-107 | The result is whether the file opened. An opened file holds each non-null table under its name, written in the order ratio, num, den. |
| WeightTable.WeightHandler.GetWeight | WeightHandler/20250305_DzeroUPC_DptDyWeight/include/WeightHandler.h:110-122 | The weight is 0 without a ratio table. Otherwise it is the content of cell (FindBin(pt), FindBin(y)), with no range guard. |
| WeightTable.WriteThenLoad | WeightHandler/20250305_DzeroUPC_DptDyWeight/include/WeightHandler.h:73-75 | Loading back a written file under the same distinct names gives back all three tables. |
| WeightTable.NullTableNotWritten | WeightHandler/20250305_DzeroUPC_DptDyWeight/include/WeightHandler.h:100-102 | A null table is not written, so loading the file back under the same names fails. |
| WeightTable.SharedNameReloadsLaterTable | WeightHandler/20250305_DzeroUPC_DptDyWeight/include/WeightHandler.h:100-102 | When the ratio and numerator names coincide, the later write wins and that name reloads the numerator. |
| WeightTable.NoTableWeighsZero | WeightHandler/20250305_DzeroUPC_DptDyWeight/include/WeightHandler.h:112-116 | Without a table every coordinate weighs 0. |
| WeightTable.SameCellSameWeight | WeightHandler/20250305_DzeroUPC_DptDyWeight/include/WeightHandler.h:118-121 | Two coordinates that fall in the same cell get the same weight. |
| WeightTable.WeightOfBin | WeightHandler/20250305_DzeroUPC_DptDyWeight/include/WeightHandler.h:118-121 | A coordinate inside in-range bin (i, j) reads exactly cell (i, j). |
| WeightTable.OutOfRangeReadsFlowCells | WeightHandler/20250305_DzeroUPC_DptDyWeight/include/WeightHandler.h:118-121 | A pt or y below its axis reads the underflow row or column. One at or above the upper edge reads the overflow row or column. |
| WeightTable.UpperEdgeWeightNotZero | WeightHandler/20250305_DzeroUPC_DptDyWeight/include/WeightHandler.h:118-121 | Concrete case: a coordinate on the upper edges of a table reads the overflow cell's content 2, not 0. |
| WeightTable.IdenticalInputsWeighOne | WeightHandler/20250305_DzeroUPC_DptDyWeight/include/WeightHandler.h:21-27 | A table built from identical inputs weighs coordinates in filled cells 1 and those in empty cells 0. |
| WeightTable.WeightNonNegative | WeightHandler/20250305_DzeroUPC_DptDyWeight/include/WeightHandler.h:21-27 | A table built from non-negative accumulators never yields a negative weight. |
| WeightTable.ReloadCopy | WeightHandler/20250305_DzeroUPC_DptDyWeight/include/WeightHandler.h:60-107 | Writing a full handler under the default names and loading the file into a default handler succeeds and reproduces all three tables. |
| MakeWeights.CheckBinning | WeightHandler/20250305_DzeroUPC_GptGyWeight/source/MakeWeights.cpp:57-80 | The check passes exactly when the bin counts agree and the low edges of bins 0..N agree on both axes. |
| MakeWeights.BinningCompatibleIffSameAxes | WeightHandler/20250305_DzeroUPC_GptGyWeight/source/MakeWeights.cpp:57-80 | The check accepts two histograms exactly when their axes are identical, including the upper edge of the last bin. |
| MakeWeights.MakeWeights | WeightHandler/20250305_DzeroUPC_GptGyWeight/source/MakeWeights.cpp:27-86 | The exit code is 0 exactly when both files open, both histograms are found and the binning check passes, and 1 otherwise. On 0, with an output file that opens, the file holds num/den, num and den under the default names. Nothing is written on exit code 1. |
| MakeWeights.WrittenTableReloadsConsistent | WeightHandler/20250305_DzeroUPC_GptGyWeight/source/MakeWeights.cpp:83-84 | The file written reloads under the default names into the ratio, numerator and denominator, all on one binning. |
| ClosureTest.LeadingCandidate | WeightHandler/20250305_DzeroUPC_GptGyWeight/source/ClosureTest.cpp:80-91 | The candidate loop computes the leading pair defined by the in-order scan. |
| ClosureTest.Leading | WeightHandler/20250305_DzeroUPC_GptGyWeight/source/ClosureTest.cpp:80-91 | The leading Gpt never falls below the start value -999, and while it is -999 the leading Gy is -999 too. |
| ClosureTest.LeadingIsFirstMaximum | WeightHandler/20250305_DzeroUPC_GptGyWeight/source/ClosureTest.cpp:80-91 | The leading Gpt bounds every signal candidate's Gpt. When it is not -999, the pair is the Gpt and Gy of the first signal candidate with that Gpt. When no signal candidate exceeds -999, both stay -999. |
| ClosureTest.AcceptedSnoc | WeightHandler/20250305_DzeroUPC_GptGyWeight/source/ClosureTest.cpp:94-110 | `AcceptedEvents` lists the events whose leading pair passes the gate (`InGate`: the closed box [Xmin, Xmax] x [Ymin, Ymax]), in event order: one more event adds its leading pair and its GetWeight exactly when the pair passes the gate, and adds nothing otherwise. |
| ClosureTest.AcceptedPassGate | WeightHandler/20250305_DzeroUPC_GptGyWeight/source/ClosureTest.cpp:94-99 | Every accepted event's leading pair lies in the closed gate [Xmin, Xmax] x [Ymin, Ymax] and carries GetWeight of that pair. |
| ClosureTest.GyIn2to5IsFilter | WeightHandler/20250305_DzeroUPC_GptGyWeight/source/ClosureTest.cpp:105-109 | The 2-to-5 Gy fills are the Gy fills of the accepted events with 2 <= Gpt <= 5, and of no others; there are never more of them than Gy fills. |
| ClosureTest.UnitWeightsSameEntries | WeightHandler/20250305_DzeroUPC_GptGyWeight/source/ClosureTest.cpp:99-109 | When every accepted event weighs 1, the weighted fill lists equal the unweighted ones for all three observables. |
| ClosureTest.UnweightedPtIntegral | WeightHandler/20250305_DzeroUPC_GptGyWeight/source/ClosureTest.cpp:94-100 | Before normalisation, the unweighted Gpt spectrum integrates to the number of gated events with Gpt strictly below Xmax. An event at exactly Xmax passes the gate but fills the overflow cell. |
| ClosureTest.FillSelected | WeightHandler/20250305_DzeroUPC_GptGyWeight/source/ClosureTest.cpp:99-109 | One accepted event extends each histogram's fill list by its own entry. The 2-to-5 pair is extended only when 2 <= Gpt <= 5. |
| ClosureTest.Replay | WeightHandler/20250305_DzeroUPC_GptGyWeight/source/ClosureTest.cpp:74-111 | After the event loop, each of the six histograms holds exactly the fills of the accepted events, in event order. Unweighted fills have weight 1; weighted fills carry the looked-up weight. |
| ClosureTest.ReplayEvent | WeightHandler/20250305_DzeroUPC_GptGyWeight/source/ClosureTest.cpp:80-110 | One event's step extends the fills by its leading pair exactly when the pair passes the gate, weighted by GetWeight, and leaves them unchanged otherwise. |
| ClosureTest.Normalise | WeightHandler/20250305_DzeroUPC_GptGyWeight/source/ClosureTest.cpp:113-123 | The cells become the normalised contents of the old cells. |
| ClosureTest.Normalised | WeightHandler/20250305_DzeroUPC_GptGyWeight/source/ClosureTest.cpp:113-123 | Normalising keeps the number of cells, and a spectrum whose integral is not 0 comes out with integral exactly 1. |
| ClosureTest.NormalisedProperties | WeightHandler/20250305_DzeroUPC_GptGyWeight/source/ClosureTest.cpp:113-123 | A spectrum with a non-zero integral has integral 1 after normalisation. Normalising twice is the same as once. |
| ClosureTest.BookSpectrum | WeightHandler/20250305_DzeroUPC_GptGyWeight/source/ClosureTest.cpp:47-48 | The unweighted and weighted histograms are fresh, distinct, on the projection's axis, and empty. |
| ClosureTest.Window | WeightHandler/20250305_DzeroUPC_GptGyWeight/source/ClosureTest.cpp:62-69 | The x-bin window of the 2-to-5 projection, FindBin(2.001)..FindBin(4.999), is ordered and lies within the table's cells. |
| ClosureTest.TargetsOf | WeightHandler/20250305_DzeroUPC_GptGyWeight/source/ClosureTest.cpp:49-69 | The three target projections have the lengths of the axes they are booked on, flow cells included. |
| ClosureTest.FinishSpectrum | WeightHandler/20250305_DzeroUPC_GptGyWeight/source/ClosureTest.cpp:113-142 | The three normalised spectra and the weighted/target ratio are the ones the fill lists and the target projection determine. |
| ClosureTest.BookAndReplay | WeightHandler/20250305_DzeroUPC_GptGyWeight/source/ClosureTest.cpp:47-111 | Six fresh, distinct histograms are booked and then hold the fills of the accepted events. |
| ClosureTest.FinishAll | WeightHandler/20250305_DzeroUPC_GptGyWeight/source/ClosureTest.cpp:113-142 | The three observables' outputs are those determined by the projections and the accepted events. |
| ClosureTest.Spectra | WeightHandler/20250305_DzeroUPC_GptGyWeight/source/ClosureTest.cpp:47-142 | Booking, the event loop and the normalisation together give the outputs that the projections and the accepted events determine. |
| ClosureTest.ClosureSelfTable | WeightHandler/20250305_DzeroUPC_GptGyWeight/source/ClosureTest.cpp:94-142 | With a table made of one histogram over itself, and every accepted event in a filled cell, each weighted spectrum equals its unweighted one, so the Gpt closure ratio is unweighted over target. |
| ClosureTest.RunClosureTest | WeightHandler/20250305_DzeroUPC_GptGyWeight/source/ClosureTest.cpp:34-142 | If the event file does not open, the exit code is 1 with no output. Otherwise the exit code is 0 and the nine spectra and three closure ratios are those of the accepted events and the numerator's projections. |
| CrossSectionRatio.RatioOf | MainAnalysis/20241210_DzeroUPC/plotCrossSectionRatio.C:65-71 | The point sits at x1. Its ratio times y2 is y1, and its x error is the mean of the two x errors. Its squared relative error is the sum of the two squared relative errors. The error is NaN exactly when y1 is 0. |
| CrossSectionRatio.RatioPoints | MainAnalysis/20241210_DzeroUPC/plotCrossSectionRatio.C:42-72 | The loop's output is never longer than its input. A pair is kept (`Kept`) exactly when x1 == -x2 and y2 != 0; see `RatioPointsAreKeptPairs` for the full contract. |
| CrossSectionRatio.GetRatioGraph | MainAnalysis/20241210_DzeroUPC/plotCrossSectionRatio.C:23-75 | The result is null exactly when a graph is null or the point counts differ. Otherwise it is the kept pairs' points, in input order. |
| CrossSectionRatio.RatioPointsAreKeptPairs | MainAnalysis/20241210_DzeroUPC/plotCrossSectionRatio.C:42-72 | The k-th output point comes from the k-th kept index. Kept indices increase. An index is kept exactly when its x values mirror and its denominator is non-zero. |
| CrossSectionRatio.RatioPointsNoLonger | MainAnalysis/20241210_DzeroUPC/plotCrossSectionRatio.C:42-72 | The graph is never longer than its inputs. It is as long exactly when every pair is kept. |
| CrossSectionRatio.SkippedPairAddsNothing | MainAnalysis/20241210_DzeroUPC/plotCrossSectionRatio.C:53-63 | A pair with unmirrored x values or a zero denominator adds no point. |
| CrossSectionRatio.ZeroNumeratorKeptWithNaN | MainAnalysis/20241210_DzeroUPC/plotCrossSectionRatio.C:65-66 | A zero numerator is not guarded: its point is kept with ratio 0 and a NaN error. |
| CrossSectionRatio.MirroredExample | MainAnalysis/20241210_DzeroUPC/plotCrossSectionRatio.C:53-71 | Concrete case: of two mirrored pairs, the one with a zero denominator is dropped. The other gives ratio 2. |
| CrossSectionRatio.CentreHalfWidthRecoverBin | MainAnalysis/20241210_DzeroUPC/plotCrossSectionRatio.C:99-102 | The centre minus and plus the half-width are the bin's edges. The half-width is non-negative exactly when ymin <= ymax. |
| CrossSectionRatio.Centre | MainAnalysis/20241210_DzeroUPC/plotCrossSectionRatio.C:99-100 | The bin centre lies between ymin and ymax when the bin is ordered. |
| CrossSectionRatio.HalfWidth | MainAnalysis/20241210_DzeroUPC/plotCrossSectionRatio.C:101-102 | The half-width is non-negative exactly when ymin <= ymax. |
| CrossSectionRatio.ToGraph | MainAnalysis/20241210_DzeroUPC/plotCrossSectionRatio.C:99-117 | The graph has one point per table row: bin centre, corrected yield, half-width and yield error. |
| CrossSectionRatio.MirroredTablesKeepEveryPoint | MainAnalysis/20241210_DzeroUPC/plotCrossSectionRatio.C:184 | When each bin of the first table mirrors the second's and no denominator yield is 0, every pair is kept. Each point sits at the first table's centre, with its half-width and the yield ratio. |
| SkimValidation.Selection | SkimValidation/20241110_SkimValidation/CheckRun399543_1119.cpp:170-188 | There are four tiers, and passing a tier implies passing the one before it. |
| SkimValidation.TriggerName | SkimValidation/20241110_SkimValidation/CheckRun399543_1119.cpp:76-84 | The trigger name is "All" exactly when the choice is not one of the listed ones. |
| SkimValidation.BaseTrigger | SkimValidation/20241110_SkimValidation/CheckRun399543_1119.cpp:173-181 | An unlisted choice accepts every event. Choice 14000 accepts exactly what 10000 or 400 accepts, and 114000 exactly what 110000 or 1400 accepts. |
| SkimValidation.InCategory | SkimValidation/20241110_SkimValidation/CheckRun399543_1119.cpp:186-188 | An event in either ZDC category has neither sum at its threshold (1000 minus side, 1100 plus side), since both comparisons are strict. The tier-3 HF cut (`HFCut`) reads the minus side below 8.6 for 0nXn and the plus side below 9.2 for Xn0n (lines 188 and 227). |
| SkimValidation.FillMasses | SkimValidation/20241110_SkimValidation/CheckRun399543_1119.cpp:206-220 | The tier's mass list gains the masses of the passing candidates, in order. Other tiers are unchanged. |
| SkimValidation.FillCategory | SkimValidation/20241110_SkimValidation/CheckRun399543_1119.cpp:190-221 | Each tier the event passes gains one count and the passing candidates' masses. Other tiers are unchanged. |
| SkimValidation.ProcessEvent | SkimValidation/20241110_SkimValidation/CheckRun399543_1119.cpp:170-261 | Each counter and mass list of each category grows exactly when the event is in that category and passes that tier. |
| SkimValidation.CheckRun | SkimValidation/20241110_SkimValidation/CheckRun399543_1119.cpp:126-262 | After the event loop, every counter and mass list of both categories equals the count and masses of the events the selection accepts. |
| SkimValidation.CategoriesExclusive | SkimValidation/20241110_SkimValidation/CheckRun399543_1119.cpp:186 | No event is in both ZDC categories. |
| SkimValidation.ThresholdValuesInNeither | SkimValidation/20241110_SkimValidation/CheckRun399543_1119.cpp:225 | A ZDC sum exactly at 1000 (minus side) or 1100 (plus side) puts the event in neither category. |
| SkimValidation.CascadeNests | SkimValidation/20241110_SkimValidation/CheckRun399543_1119.cpp:182-188 | An event counted at tier k is counted at every lower tier. |
| SkimValidation.CountMonotoneInTier | SkimValidation/20241110_SkimValidation/CheckRun399543_1119.cpp:190-193 | Counters and mass-list lengths never increase from one tier to the next. |
| SkimValidation.CategoryCountsBounded | SkimValidation/20241110_SkimValidation/CheckRun399543_1119.cpp:186 | At each tier the two category counters together never exceed the number of events. |
| SkimValidation.TriggerNames | SkimValidation/20241110_SkimValidation/CheckRun399543_1119.cpp:76-84 | The name is "All" exactly for an unlisted choice. Distinct listed choices get distinct names. |
| SkimValidation.UnlistedChoiceAcceptsAll | SkimValidation/20241110_SkimValidation/CheckRun399543_1119.cpp:173-181 | Under an unlisted trigger choice, the trigger tier accepts every event. |
| SkimValidation.KaonClauseReadsSelectedTrack | SkimValidation/20241110_SkimValidation/CheckRun399543_1119.cpp:213-217 | The kaon clause depends only on the track that Dtrk1MassHypo selects. |
| SkimValidation.MomentumAtCutFailsKaonClause | SkimValidation/20241110_SkimValidation/CheckRun399543_1119.cpp:213-217 | A selected track with momentum exactly 0.85 fails the kaon clause and the D selection, whatever its score. |
| SkimValidation.PassingMassesFromPassingCandidates | SkimValidation/20241110_SkimValidation/CheckRun399543_1119.cpp:206-220 | There are no more masses than candidates, and each mass comes from a candidate that passes the selection. |
| SkimValidation.RelErrBelow | SkimValidation/20241110_SkimValidation/CheckRun399543_1119.cpp:211-212 | For positive pt, err/pt < 0.1 means err < 0.1*pt. For negative pt the inequality flips: err > 0.1*pt. |
| SkimValidation.KaonClause | SkimValidation/20241110_SkimValidation/CheckRun399543_1119.cpp:213-217 | A candidate passing the kaon clause does not have its selected track's momentum at exactly 0.85. |
| SkimValidation.PassDSelection | SkimValidation/20241110_SkimValidation/CheckRun399543_1119.cpp:207-217 | A passing candidate has a non-zero track-1 pt or a negative track-1 pt error, and its selected track's momentum is not exactly 0.85. |

## Left out

- File and tree I/O is not modelled. A file is a map from key names to stored objects. A file that does not open is `None` or a `false` flag. The event tree is a sequence of events.
- Drawing, canvases, titles, styles, output file names, progress bars and console messages are not modelled.
- The TH2D/TH1D binning and filling are ROOT behaviour. They are written out as definitions (see above), not taken from ROOT's source. `TH1::Divide`'s "B" option only changes the errors.
- Bin errors are not modelled: Sumw2 errors, binomial errors and the errors of projections.
- Floating point is not modelled: IEEE rounding, infinities and NaN. Numbers are exact reals. The one NaN the ratio graph can emit is an explicit constructor.
- CrossSectionRatio.RatioOf: sqrt and pow are not modelled. The error is `RatioTimesSqrt(s)`, which stands for ratio * sqrt(s), and its contract states s rather than the square root.
- ClosureTest.Normalise: a spectrum with integral 0 is left unchanged. In the source, Scale(1/0) fills it with infinities or NaN.
- ClosureTest.Normalised: the same zero-integral case as Normalise.
- ClosureTest.RunClosureTest: requires that the table holds a numerator. The source ignores LoadFromFile's result and dereferences `h_num` even when it is null.
- ClosureTest.RunClosureTest: the gate reads the axes of `h_num_norm`. WeightHandler2D.h, which defines `WeightHandler2D` and `h_num_norm`, is not part of this model. The gate uses the numerator's axes, and the table is the `WeightHandler` of WeightHandler.h.
- ClosureTest.FinishSpectrum: the target clone is created after the event loop, not at booking. Nothing touches it before normalisation, so its contents are the same.
- The closure plots' ratio pads, legends and the weights' own plots are not modelled.
- SkimValidation.CheckRun: the ten event-level histograms per tier (vertex position and errors, ZDC sums, HF maxima) are not modelled. They are filled under exactly the condition that increments the counter.
- SkimValidation.CheckRun: the mass histograms are modelled as the list of masses filled, in order. The binning of these histograms (40 bins over [1.5, 2.2]) is not modelled.
- The printed count ratios are not modelled.
- `long long` counters are unbounded integers; overflow is not modelled.
- SkimValidation.RelErrBelow: a track with pt 0 is modelled as passing exactly when its pt error is negative. This matches IEEE division giving -inf, +inf or NaN.
- plotCrossSection.h (`getPointArr`, `getDoubleArr` and the Point reader) is not part of this model. A point table is a sequence of `Point` values.
- Memory ownership is not modelled: `Clone`, `delete` and the handler's destructor. Tables are values.
