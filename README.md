# sxmc fit plots, modelled in Dafny

This project models the plotting core of sxmc (`src/plots.cpp`), which runs after a fit. It covers three pieces.

**`SpectralPlot`.** An overlay of histograms on one canvas, with a legend:
- `add` clones a histogram and styles it with the plot's line width and titles.
- The clone always gets a legend entry.
- The clone is drawn only when its integral is non-zero: the first drawn curve gets the plot's axis ranges, and later ones are drawn "same".
- `make_like` returns an empty clone with the same binning.

**`plot_fit`.** The driver. It:
- creates one plot per dataset and observable;
- reads the best-fit parameter vector (the sources first, then every systematic's `<name>_<j>` parameters);
- scales each signal's model histogram to its expected count (`nexpected · norm / n_mc · param`);
- projects that histogram on each observable, and fails beyond three dimensions;
- picks a colour and line style from a fixed six-entry palette;
- adds the marginals to the dataset's plots;
- accumulates two per-dataset totals. The full-dimensional total adds every contribution. The total of each observable clones the first marginal and then adds only later marginals with a positive integral.
- finally bins the raw data for each dataset and observable, and adds the observable total ("Fit") and the data ("Data") to every plot.

**Values and state.** Histograms are values: binning, flat bin contents and an entry count. The plots and the running totals are objects updated in place (`Plots.SpectralPlot`, `Totals.DatasetTotals`).

The model-evaluation engine is outside the model. For each signal, its accepted count `norms[i]` and its model histogram `models[i]` are inputs. Each step of the signal loop is proved against specification functions of the inputs:
- `DatasetModels`: the scaled models of a dataset so far;
- `DatasetMarginals`: their marginals on one observable;
- `HasYield`: whether one of its signals so far has a non-zero expected count;
- `PlotClones` and `PlotLegend`: the styled clones and the legend entries a plot of the dataset holds so far.

The end state of `PlotFit` is stated in those terms:
- every full total is the sum of its dataset's scaled models;
- every observable total is the clone of the first marginal plus every later marginal with a positive integral;
- every plot is a valid plot. It holds one styled clone of the signal's marginal and one legend entry per signal of its dataset, then the "Fit" clone of its observable's total and the "Data" clone, with their legend entries;
- the data histogram is made like the plot's first drawn curve and filled with the matching records.

Two behaviours of the code are modelled as the code has them:
- **A missing best-fit key is not fatal.** `best_fit[name]` default-inserts the key and reads a default estimate (`dflt` here). The key is not reported as a configuration error.
- **An empty dataset is not handled.** This covers a dataset with no signal, or with only zero-yield signals. Its plots have nothing drawn, so the data pass reads `histograms[0]` past the end of an empty vector. The model turns that case into a `Failed` outcome. `PlotFit` proves that the run completes exactly when two things hold. Projection must be possible: there is no signal, or there are 1 to 3 observables. And every dataset must have had a non-zero expected count, unless there is no observable.

## Model

| member | source | states |
|---|---|---|
| Histograms.Scale | src/plots.cpp:234 | every bin is multiplied by the factor; binning and entry count are kept; the integral is multiplied by the factor |
| Histograms.Add | src/plots.cpp:268 | adding an equally binned histogram adds bin by bin; entry counts and integrals add up |
| Histograms.Reset | src/plots.cpp:146 | the binning is kept; every bin is zero; no entries; integral zero |
| Histograms.FindBin | src/plots.cpp:306 | a value has an in-range bin exactly when lower ≤ x < upper on a non-empty axis; that bin is below nbins, and x lies between its lower and its upper edge |
| Histograms.Fill | src/plots.cpp:306 | one more entry and the binning is kept; the bin holding x gains one and no other bin changes; outside the axis no bin changes; the integral grows by one exactly when x is inside the axis |
| Palette.SignalsPerDataset | src/plots.cpp:257 | the integer quotient ns is positive and ns·ndatasets ≤ nsignals < (ns+1)·ndatasets |
| Palette.PaletteIndex | src/plots.cpp:257-260 | the palette index is below 6, so it is inside both tables; for a signal before the first ns it is i mod 6 |
| Palette.Color | src/plots.cpp:259 | the colour is an entry of the six-entry table; for a signal before the first ns it is the table's colour at i mod 6 |
| Palette.Style | src/plots.cpp:260 | the line style is an entry of the table; for a signal before the first ns it is the table's style at i mod 6 |
| Palette.PalettePeriodic | src/plots.cpp:257-260 | signals ns positions apart get the same palette entry |
| Palette.EntriesDistinct | src/plots.cpp:24-30 | any two different entries of the six-entry table differ in colour or in line style |
| Palette.DistinctWithinDataset | src/plots.cpp:257-260 | two of the first ns signals whose positions differ mod 6 differ in colour or in line style |
| Parameters.Key | src/plots.cpp:204-205 | the key is the systematic's name, an underscore, then decimal digits that denote j |
| Parameters.DecimalRoundTrip | src/plots.cpp:205 | the decimal text written for j reads back as j |
| Parameters.KeyInjective | src/plots.cpp:204-206 | two parameters of one systematic never share a key |
| Parameters.Lookup | src/plots.cpp:196 | `best_fit[key].point_estimate` is the fit's estimate when the key is present, and the default estimate otherwise |
| Parameters.LookupExtends | src/plots.cpp:196-206 | reading the working copy after default insertions gives what reading the original fit gives |
| Parameters.Slot | src/plots.cpp:201-210 | parameter j of systematic k lands in the systematics block after the sources |
| Parameters.SlotInjective | src/plots.cpp:201-210 | no two systematic parameters share a slot |
| Parameters.SlotCover | src/plots.cpp:201-210 | every slot of the systematics block belongs to some systematic parameter |
| Parameters.Subscript | src/plots.cpp:196 | `best_fit[key]` reads the fit's estimate, or the default when the key is missing; the key is then present; the working copy still agrees with the fit |
| Parameters.FillBlock | src/plots.cpp:203-209 | the npars estimates keyed `<name>_<j>` go to positions idx+j; no other position changes |
| Parameters.BuildParams | src/plots.cpp:192-210 | the vector has one slot per best-fit entry; the sources' estimates come first, in order; each systematic's estimates sit at its slots; the remaining slots are 0 |
| Parameters.AssembledUnique | src/plots.cpp:192-210 | the layout leaves no slot undetermined: two vectors assembled from the same fit are equal |
| Yields.Efficiency | src/plots.cpp:230 | eff·n_mc = norm; eff ≥ 0; eff ≤ 1 exactly when norm ≤ n_mc |
| Yields.ExpectedCount | src/plots.cpp:231 | nexp·n_mc = nexpected·norm·params[source index] |
| Yields.ScaleToYield | src/plots.cpp:233-234 | same binning and entries; the integral becomes nexp; every bin keeps its share of the integral |
| Yields.ScaledSignalIntegral | src/plots.cpp:230-234 | the scaled model integrates to nexpected·(norm/n_mc)·param |
| Projection.Marginal | src/plots.cpp:240-247 | the projection on axis j has that one axis, is well formed, and keeps the integral and the entry count |
| Projection.MarginalAt | src/plots.cpp:240-247 | bin i of the projection on axis j sums every cell whose j-th coordinate is i |
| Projection.Project | src/plots.cpp:236-253 | succeeds exactly for 1 to 3 dimensions, with one marginal per axis; a 1-D histogram is its own marginal; otherwise fails with the message the source prints |
| Plots.NonEmpty | src/plots.cpp:101-105 | the drawn curves are among the added ones, each with a non-zero integral |
| Plots.NonEmptyMembers | src/plots.cpp:101-105 | a curve is drawn exactly when it was added and its integral is non-zero |
| Plots.MakeLike | src/plots.cpp:144-148 | the clone has the new name and the same binning; every bin is zero; no entries; the line attributes are kept |
| Plots.SpectralPlot.constructor | src/plots.cpp:33-53 | the plot keeps its line width, ranges, log flag and titles; nothing is added, drawn or in the legend |
| Plots.SpectralPlot.Add | src/plots.cpp:90-128 | the clone is renamed `__<objname>` and styled, and always gets a legend entry; it is drawn only with a non-zero integral: as the first curve, with the x range and the y range (unless both are -1), otherwise as "same"; the plot's invariant is kept |
| Totals.TotalOf | src/plots.cpp:262-269 | the total of a dataset's contributions is binned like the first one |
| Totals.PositiveTotal | src/plots.cpp:277-286 | an observable's total is binned like the first marginal |
| Totals.TotalOfIntegral | src/plots.cpp:262-269 | the full-dimensional total integrates to the sum of the contributions' integrals |
| Totals.PositiveTotalIntegral | src/plots.cpp:277-286 | an observable's total integrates to the first marginal's integral plus the positive integrals of the later ones |
| Totals.PositiveTotalOfNonNegative | src/plots.cpp:284-285 | when the later marginals have no negative bin, skipping the non-positive ones changes nothing: the observable's total equals the plain sum |
| Totals.TotalCurve | src/plots.cpp:278-282 | the clone that starts a total keeps the marginal's contents, in magenta, solid |
| Totals.NextFull | src/plots.cpp:262-269 | after a contribution, the dataset has a full total binned like it; no other dataset's total changes |
| Totals.NextSlot | src/plots.cpp:277-286 | after a marginal, the observable's total exists and is binned like it |
| Totals.NextFullTotal | src/plots.cpp:262-269 | a step of the full total turns the sum of the contributions so far into the sum including the new one |
| Totals.NextSlotTotal | src/plots.cpp:277-286 | a step of an observable's total turns the first clone plus the positive later marginals into the same with the new marginal |
| Totals.DatasetTotals.constructor | src/plots.cpp:163-183 | one empty total per observable for every dataset; no full totals |
| Totals.DatasetTotals.AddFull | src/plots.cpp:262-269 | `all_totals_nd[ds]` takes one step of NextFull; the observable totals are untouched |
| Totals.DatasetTotals.AddMarginal | src/plots.cpp:277-286 | `all_totals[ds][j]` takes one step of NextSlot; nothing else changes |
| DataBinning.DatasetIdTruncates | src/plots.cpp:304 | the dataset id of a record is its last field truncated toward zero |
| DataBinning.Matching | src/plots.cpp:303-305 | the selected records are whole records, in increasing order |
| DataBinning.MatchingMembers | src/plots.cpp:303-305 | a record is selected exactly when it is whole and its last field, truncated to an integer, is the dataset id |
| DataBinning.SelectedFields | src/plots.cpp:303-306 | `Selected`, the values filled, are the observable's fields of the selected records, one per record, in record order |
| DataBinning.NoLeakage | src/plots.cpp:303-305 | no record is selected for two different datasets |
| DataBinning.FillAll | src/plots.cpp:306 | filling n values adds n entries; each bin gains the number of values that fall into it; the integral gains the number of values inside the axis |
| DataBinning.DataCurveBins | src/plots.cpp:295-308 | the data histogram `DataCurve` is named "hdata", black and solid, binned like the template, with one entry per selected record; each bin counts the selected values falling into it |
| DataBinning.BinData | src/plots.cpp:295-308 | the scanning loop computes `DataCurve`: made like the template, black and solid, named "hdata", holding exactly the fills of the selected records, one entry per selected record |
| FitPlot.Scaled | src/plots.cpp:230-234 | a signal's scaled model is binned like its model and integrates to its expected count |
| FitPlot.DatasetModelsIntegral | src/plots.cpp:262-269 | a dataset's scaled models together integrate to the sum of its signals' expected counts |
| FitPlot.DatasetMarginalsCount | src/plots.cpp:271-275 | a dataset has one marginal per signal on every observable |
| FitPlot.DatasetModelsBinning | src/plots.cpp:262-269 | a dataset's scaled models are well formed and all binned like the dataset's models |
| FitPlot.DatasetMarginalsBinning | src/plots.cpp:236-248 | a dataset's marginals on observable j are well-formed 1-D histograms binned like axis j of its models |
| FitPlot.DatasetMarginalsYield | src/plots.cpp:271-275 | some marginal of a dataset is non-empty exactly when some signal of the dataset has a non-zero expected count |
| FitPlot.MakeRow | src/plots.cpp:171-180 | one new blank plot per observable: line width 2, the observable's range, y range and log flag, no title, the observable's x title |
| FitPlot.MakePlots | src/plots.cpp:163-183 | one row of new blank plots per dataset; no plot is shared between two cells |
| FitPlot.MarginalCurve | src/plots.cpp:272-273 | setting the colour and style keeps the projection's contents and gives it the signal's colour and style |
| FitPlot.TotalSlot | src/plots.cpp:277-286 | there is an observable total exactly when a marginal was contributed; it is magenta, solid, binned like the first marginal, and integrates to the first marginal's integral plus the positive later ones |
| FitPlot.PlotsInit | src/plots.cpp:163-183 | before the signal loop, every plot is in the state of "no signal seen" |
| FitPlot.TotalsInit | src/plots.cpp:159-168 | before the signal loop, the empty totals are the totals of no signal |
| FitPlot.FullStepAt | src/plots.cpp:262-269 | after signal i, the dataset's full total is present exactly when one of its signals was seen, and is the sum of its scaled models |
| FitPlot.FullStep | src/plots.cpp:262-269 | one more signal keeps "every full total is the sum of its dataset's scaled models" |
| FitPlot.SlotStepAt | src/plots.cpp:277-286 | after signal i, the total of dataset ds on observable j is that of the dataset's marginals so far: it takes the step for the signal's own dataset and stays the same otherwise |
| FitPlot.SlotsStep | src/plots.cpp:271-287 | one more signal keeps "every observable total is that of its dataset's marginals" |
| FitPlot.FeedCell | src/plots.cpp:272-286 | the plot stays valid; its clones gain the marginal styled and named `__<signal>`; its legend gains the signal's entry; it has something drawn once a non-empty marginal was added; the total takes one NextSlot step |
| FitPlot.FeedMarginals | src/plots.cpp:271-287 | plot j of the dataset's row gains the styled clone of marginal j in the signal's colour and style, and the signal's legend entry; every observable total of the dataset takes its step; the full totals are untouched |
| FitPlot.FeedPlots | src/plots.cpp:271-287 | the plots of the signal's dataset gain its clones and legend entry, the dataset's observable totals take their step, the other datasets' plots stay as they were |
| FitPlot.PlotStep | src/plots.cpp:271-275 | one more signal extends the clones and legend of its own dataset's plots by its clone and entry, and leaves those of other datasets as they were |
| FitPlot.FeedSignal | src/plots.cpp:220-288 | one pass of the signal loop succeeds exactly with 1 to 3 observables; it steps the full total with the scaled model and the observable totals with the marginals in the signal's palette entry, and every plot then holds the clones and legend of the signals so far |
| FitPlot.StepSignal | src/plots.cpp:220-288 | one pass takes the totals and plots from "after i signals" to "after i+1 signals" |
| FitPlot.RunSignals | src/plots.cpp:220-288 | the signal loop completes exactly when there is no signal or there are 1 to 3 observables; the totals and plots then reflect every signal |
| FitPlot.FinishedDrawn | src/plots.cpp:310-311 | a finished plot draws its non-empty signal clones, then the fit and the data unless empty; the first drawn curve has the plot's axis ranges |
| FitPlot.FinishCell | src/plots.cpp:294-311 | it succeeds exactly when the plot has something drawn; the plot then stays valid, keeps its clones and legend, and gains the "Fit" clone of the total and the "Data" clone of the data histogram made like its first drawn curve, with the legend entries "Fit" and "Data" |
| FitPlot.FinishRow | src/plots.cpp:294-318 | every plot of a dataset gains its "Fit" and "Data" clones and entries as FinishCell states, exactly when the plots have something drawn (or there is no observable) |
| FitPlot.FitsPresent | src/plots.cpp:310 | after the signal loop, a dataset with a non-zero expected count has a total for every observable |
| FitPlot.FinishPlots | src/plots.cpp:290-319 | the data pass succeeds exactly when every dataset's plots have something drawn (or there is no observable); every plot then is valid and holds its clones and legend followed by its "Fit" and "Data" clones and entries |
| FitPlot.FinishReady | src/plots.cpp:290-311 | after the signal loop each plot holds the clones and legend of its dataset's signals, and every dataset with a non-zero expected count has a total for every observable |
| FitPlot.FinishAll | src/plots.cpp:290-319 | the data pass succeeds exactly when every dataset has a non-zero expected count (or there is no observable); every plot then is valid and holds its signals' clones and legend entries, the "Fit" clone of its observable's total and the "Data" clone |
| FitPlot.Setup | src/plots.cpp:159-210 | the parameter vector is assembled from the best fit; every plot is new, blank and configured for its observable; the totals are empty |
| FitPlot.PlotFit | src/plots.cpp:151-322 | the parameters are assembled from the best fit; the run completes exactly when projection is possible (no signal, or 1 to 3 observables) and every dataset has a non-zero expected count (or there is no observable); then every plot is configured for its observable, every full and observable total is the sum its dataset's signals give, and every plot is valid and holds its signals' styled clones and legend entries, then its "Fit" total and its "Data" |

## Left out

- Drawing: fonts, margins, log-scale calls, `Update`, and `SpectralPlot::save` with its `SaveAs` files (src/plots.cpp:131-141, 313-315). The canvas is modelled as a log of the draw operations with their axis ranges; the legend as a list of (object name, text) entries.
- File output: the ROOT file and its `Write`/`Close` (src/plots.cpp:186-188, 317, 321). This includes the full total being written once per observable.
- The model evaluation (src/plots.cpp:212-228). Each signal's accepted count and model histogram are inputs.
- The copy constructor and destructor (src/plots.cpp:56-87). Plots are distinct objects, which `Distinct` states.
- Console output (src/plots.cpp:191, 198, 208, 250-251).
- The y-axis title text (src/plots.cpp:173-176) and the live time it uses. The titles are an input.
- Floating point: bins, estimates and counts are reals. There is no single-precision rounding of `params` or of the totals, and no infinity or NaN. Efficiency requires n_mc > 0, and ScaleToYield requires a model with a non-zero integral, because the source divides by these.
- Under- and overflow bins are not stored. A fill outside the axis only counts as an entry, and Integral() ignores those bins too.
- The projections' object names (`hpdf_x/y/z`) and ROOT's reuse of a same-named object are not tracked beyond the curve name. Every use is cloned, so the reuse has no effect on the plots.
- The full total's name `htotal_<ds>` is not tracked.
- The type of a missing best-fit entry is not part of this model. Its default point estimate is the parameter `dflt`.
- The null checks on clones (src/plots.cpp:101, 284). A clone is never null here.
- Palette.PaletteIndex: requires 0 < |datasets| ≤ |signals|. The source divides by |datasets| and then takes a remainder modulo the quotient, so fewer signals than datasets is undefined there.
- FitPlot.Ready requires every model histogram to have exactly one axis per observable. With fewer axes the source dereferences a null projection. With more axes (up to three) the source writes `hpdf[j]` past the end of its vector (src/plots.cpp:236-247).
- FitPlot.Ready requires every signal's dataset to be in the dataset set. Otherwise `all_plots[ds]` default-inserts an empty row and indexes it (src/plots.cpp:255, 275).
- FitPlot.Scalable requires a dataset's model histograms to share their axes. The source never checks this: ROOT's `Add` on inconsistent binnings reports an error and the totals are then not modelled (src/plots.cpp:268, 285).
- FitPlot.DefaultOptions: the draw option `add` gets when the data histogram is added with no option (src/plots.cpp:311) is taken to be the empty string. The default argument is declared in a header that is not part of this model.
- Projection.Project dispatches on the histogram's dimension. The source dispatches on the exact classes TH1D, TH2D and TH3D (src/plots.cpp:237-244). Any other class takes the fatal branch even when it has 1 to 3 dimensions.
- FitPlot.PlotFit: the `assert(false)` for a model of more than three dimensions, and reading the first curve of a plot with nothing drawn, are undefined or abort in the source. Both are modelled as a `Failed` outcome.
- FitPlot.FinishPlots: visits the datasets in an arbitrary order, where the source visits them in increasing order. On success the plots end in the same state, because each dataset's plots are disjoint from the others'.
- The data histogram's marker style and size (src/plots.cpp:298-299).
- Plots.SpectralPlot.Add: ensures `old(Valid()) ==> Valid()` rather than requiring `Valid()`. The invariant is kept, but the method does not demand it of its callers.
