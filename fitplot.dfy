/** plot_fit: drives the whole pipeline. One SpectralPlot per dataset and
    observable; the parameter vector from the best fit; for every signal, its
    model histogram scaled to the expected count, projected on each
    observable, added to the plots and accumulated into the dataset totals;
    finally every plot gets its "Fit" total and its "Data" histogram.
    The model-evaluation engine is not modelled: its outputs (the accepted
    count `norms[i]` and the model histogram `models[i]` of signal i) are
    inputs. */
module FitPlot {
  import opened Histograms
  import opened Entities
  import opened Parameters
  import opened Yields
  import opened Projection
  import opened Palette
  import opened Plots
  import opened Totals
  import opened DataBinning

  datatype Outcome = Done | Failed(reason: string)

  /** The draw option `add` uses when none is given. */
  const DefaultOptions := ""

  // ---------------------------------------------------------------------------
  // What the run computes, as functions of its inputs

  /** Every signal can be scaled: it has Monte-Carlo events, its source has a
      parameter slot, and its model histogram is well formed and not empty;
      signals of one dataset share their binning. */
  ghost predicate Scalable(signals: seq<Signal>, norms: seq<nat>, models: seq<Hist>, nparams: nat)
  {
    && |norms| == |signals| && |models| == |signals|
    && (forall k :: 0 <= k < |signals| ==>
          signals[k].nmc > 0 && signals[k].source.index < nparams && Valid(models[k]) && Integral(models[k]) != 0.0)
    && (forall k, k' :: 0 <= k < |signals| && 0 <= k' < |signals| && signals[k].dataset == signals[k'].dataset
          ==> models[k].axes == models[k'].axes)
  }

  /** Besides, every model histogram has one axis per observable, every signal
      belongs to a known dataset, and there are at least as many signals as
      datasets (the palette divides by their ratio). */
  ghost predicate Ready(signals: seq<Signal>, norms: seq<nat>, models: seq<Hist>,
                        nparams: nat, nobs: nat, datasets: set<nat>)
  {
    && Scalable(signals, norms, models, nparams)
    && (forall k :: 0 <= k < |signals| ==> signals[k].dataset in datasets && Dim(models[k]) == nobs)
    && (|signals| > 0 ==> |datasets| <= |signals|)
  }

  /** Signal k's model histogram scaled to its expected count. */
  function Scaled(signals: seq<Signal>, norms: seq<nat>, models: seq<Hist>, params: seq<real>, k: nat): (h: Hist)
    requires Scalable(signals, norms, models, |params|) && k < |signals|
    ensures SameBinning(h, models[k]) && Integral(h) == ExpectedCount(signals[k], norms[k], params)
  {
    ScaleToYield(models[k], ExpectedCount(signals[k], norms[k], params))
  }

  /** The scaled histograms of the first `count` signals of dataset ds. */
  ghost function DatasetModels(signals: seq<Signal>, norms: seq<nat>, models: seq<Hist>, params: seq<real>,
                               ds: nat, count: nat): seq<Hist>
    requires Scalable(signals, norms, models, |params|) && count <= |signals|
  {
    if count == 0 then []
    else
      var hs := DatasetModels(signals, norms, models, params, ds, count - 1);
      if signals[count - 1].dataset == ds then hs + [Scaled(signals, norms, models, params, count - 1)] else hs
  }

  /** Their marginals on observable j. */
  ghost function DatasetMarginals(signals: seq<Signal>, norms: seq<nat>, models: seq<Hist>, params: seq<real>,
                                  nobs: nat, datasets: set<nat>, ds: nat, j: nat, count: nat): seq<Hist>
    requires Ready(signals, norms, models, |params|, nobs, datasets) && count <= |signals|
    requires j < nobs && (count == 0 || nobs <= 3)
  {
    if count == 0 then []
    else
      var hs := DatasetMarginals(signals, norms, models, params, nobs, datasets, ds, j, count - 1);
      if signals[count - 1].dataset == ds
      then hs + [Project(Scaled(signals, norms, models, params, count - 1)).value[j]]
      else hs
  }

  /** The expected counts of the first `count` signals of dataset ds, summed. */
  ghost function DatasetYield(signals: seq<Signal>, norms: seq<nat>, models: seq<Hist>, params: seq<real>,
                              ds: nat, count: nat): real
    requires Scalable(signals, norms, models, |params|) && count <= |signals|
  {
    if count == 0 then 0.0
    else
      DatasetYield(signals, norms, models, params, ds, count - 1)
      + (if signals[count - 1].dataset == ds then ExpectedCount(signals[count - 1], norms[count - 1], params) else 0.0)
  }

  /** Some signal of dataset ds among the first `count` has a non-zero
      expected count. */
  ghost predicate HasYield(signals: seq<Signal>, norms: seq<nat>, models: seq<Hist>, params: seq<real>,
                           ds: nat, count: nat)
    requires Scalable(signals, norms, models, |params|) && count <= |signals|
  {
    && count > 0
    && (|| HasYield(signals, norms, models, params, ds, count - 1)
        || (signals[count - 1].dataset == ds && ExpectedCount(signals[count - 1], norms[count - 1], params) != 0.0))
  }

  /** The number of signals of dataset ds among the first `count`. */
  ghost function SignalCount(signals: seq<Signal>, ds: nat, count: nat): nat
    requires count <= |signals|
  {
    if count == 0 then 0
    else SignalCount(signals, ds, count - 1) + (if signals[count - 1].dataset == ds then 1 else 0)
  }

  /** The clone `add` makes on plot p (of observable j) in signal k's pass:
      the signal's marginal on j in its palette entry, named "__<signal>". */
  ghost function SignalClone(p: SpectralPlot, signals: seq<Signal>, norms: seq<nat>, models: seq<Hist>,
                             params: seq<real>, nobs: nat, datasets: set<nat>, j: nat, k: nat): Curve
    requires Ready(signals, norms, models, |params|, nobs, datasets) && k < |signals| && j < nobs <= 3
  {
    assert signals[k].dataset in datasets;
    p.Styled(MarginalCurve(Project(Scaled(signals, norms, models, params, k)).value[j], j,
                           Color(k, |signals|, |datasets|), Style(k, |signals|, |datasets|)),
             signals[k].name)
  }

  /** The clones plot p, of dataset ds and observable j, holds after the
      first `count` signals: one per signal of ds, in signal order. */
  ghost function PlotClones(p: SpectralPlot, signals: seq<Signal>, norms: seq<nat>, models: seq<Hist>,
                            params: seq<real>, nobs: nat, datasets: set<nat>, ds: nat, j: nat, count: nat)
    : seq<Curve>
    requires Ready(signals, norms, models, |params|, nobs, datasets) && count <= |signals|
    requires j < nobs && (count == 0 || nobs <= 3)
  {
    if count == 0 then []
    else
      var cs := PlotClones(p, signals, norms, models, params, nobs, datasets, ds, j, count - 1);
      if signals[count - 1].dataset == ds
      then cs + [SignalClone(p, signals, norms, models, params, nobs, datasets, j, count - 1)]
      else cs
  }

  /** The legend of a plot of dataset ds after the first `count` signals:
      the clone's name and the signal's title, per signal of ds. */
  ghost function PlotLegend(signals: seq<Signal>, ds: nat, count: nat): seq<LegendEntry>
    requires count <= |signals|
  {
    if count == 0 then []
    else
      var es := PlotLegend(signals, ds, count - 1);
      if signals[count - 1].dataset == ds
      then es + [LegendEntry("__" + signals[count - 1].name, signals[count - 1].title)]
      else es
  }

  /** Some histogram of hs is not empty. */
  ghost predicate AnyNonZero(hs: seq<Hist>)
  {
    exists e :: 0 <= e < |hs| && Integral(hs[e]) != 0.0
  }

  lemma AnyNonZeroSnoc(hs: seq<Hist>, h: Hist)
    ensures AnyNonZero(hs + [h]) <==> AnyNonZero(hs) || Integral(h) != 0.0
  {
    var all := hs + [h];
    if AnyNonZero(hs) {
      var e :| 0 <= e < |hs| && Integral(hs[e]) != 0.0;
      assert all[e] == hs[e];
    }
    if Integral(h) != 0.0 {
      assert all[|hs|] == h;
    }
  }

  // ---------------------------------------------------------------------------
  // Lemmas about those functions

  /** The full-dimensional total of a dataset integrates to the sum of its
      signals' expected counts. */
  lemma {:induction false} DatasetModelsIntegral(signals: seq<Signal>, norms: seq<nat>, models: seq<Hist>,
                                                params: seq<real>, ds: nat, count: nat)
    requires Scalable(signals, norms, models, |params|) && count <= |signals|
    ensures SumIntegrals(DatasetModels(signals, norms, models, params, ds, count))
            == DatasetYield(signals, norms, models, params, ds, count)
  {
    if count > 0 {
      DatasetModelsIntegral(signals, norms, models, params, ds, count - 1);
      var hs := DatasetModels(signals, norms, models, params, ds, count - 1);
      if signals[count - 1].dataset == ds {
        var h := Scaled(signals, norms, models, params, count - 1);
        assert (hs + [h])[..|hs|] == hs;
        assert SumIntegrals(hs + [h]) == SumIntegrals(hs) + Integral(h);
      } else {
        assert DatasetModels(signals, norms, models, params, ds, count) == hs;
      }
    }
  }

  /** One marginal per scaled model. */
  lemma {:induction false} DatasetMarginalsCount(signals: seq<Signal>, norms: seq<nat>, models: seq<Hist>,
                                                params: seq<real>, nobs: nat, datasets: set<nat>,
                                                ds: nat, j: nat, count: nat)
    requires Ready(signals, norms, models, |params|, nobs, datasets) && count <= |signals|
    requires j < nobs && (count == 0 || nobs <= 3)
    ensures |DatasetMarginals(signals, norms, models, params, nobs, datasets, ds, j, count)|
            == |DatasetModels(signals, norms, models, params, ds, count)| == SignalCount(signals, ds, count)
  {
    if count > 0 {
      DatasetMarginalsCount(signals, norms, models, params, nobs, datasets, ds, j, count - 1);
    }
  }

  /** A dataset's scaled models are well formed and share the binning of
      every model of the dataset. */
  lemma {:induction false} DatasetModelsBinning(signals: seq<Signal>, norms: seq<nat>, models: seq<Hist>,
                                               params: seq<real>, ds: nat, count: nat)
    requires Scalable(signals, norms, models, |params|) && count <= |signals|
    ensures var hs := DatasetModels(signals, norms, models, params, ds, count);
            && (forall e :: 0 <= e < |hs| ==> Valid(hs[e]))
            && SameBinningAll(hs)
            && (hs != [] ==> forall k :: 0 <= k < |signals| && signals[k].dataset == ds ==> hs[0].axes == models[k].axes)
  {
    if count > 0 {
      DatasetModelsBinning(signals, norms, models, params, ds, count - 1);
    }
  }

  /** A dataset's marginals on observable j are well-formed one-dimensional
      histograms binned like axis j of every model of the dataset. */
  lemma {:induction false} DatasetMarginalsBinning(signals: seq<Signal>, norms: seq<nat>, models: seq<Hist>,
                                                  params: seq<real>, nobs: nat, datasets: set<nat>,
                                                  ds: nat, j: nat, count: nat)
    requires Ready(signals, norms, models, |params|, nobs, datasets) && count <= |signals|
    requires j < nobs && (count == 0 || nobs <= 3)
    ensures var hs := DatasetMarginals(signals, norms, models, params, nobs, datasets, ds, j, count);
            && (forall e :: 0 <= e < |hs| ==> Valid(hs[e]) && Dim(hs[e]) == 1)
            && SameBinningAll(hs)
            && (hs != [] ==> forall k :: 0 <= k < |signals| && signals[k].dataset == ds ==> hs[0].axes == [models[k].axes[j]])
  {
    if count > 0 {
      DatasetMarginalsBinning(signals, norms, models, params, nobs, datasets, ds, j, count - 1);
    }
  }

  /** Some marginal of observable j is non-empty exactly when some signal of
      the dataset has a non-zero expected count. */
  lemma {:induction false} DatasetMarginalsYield(signals: seq<Signal>, norms: seq<nat>, models: seq<Hist>,
                                                params: seq<real>, nobs: nat, datasets: set<nat>,
                                                ds: nat, j: nat, count: nat)
    requires Ready(signals, norms, models, |params|, nobs, datasets) && count <= |signals|
    requires j < nobs && (count == 0 || nobs <= 3)
    ensures AnyNonZero(DatasetMarginals(signals, norms, models, params, nobs, datasets, ds, j, count))
            <==> HasYield(signals, norms, models, params, ds, count)
  {
    if count > 0 {
      DatasetMarginalsYield(signals, norms, models, params, nobs, datasets, ds, j, count - 1);
      var k := count - 1;
      if signals[k].dataset == ds {
        var hs := DatasetMarginals(signals, norms, models, params, nobs, datasets, ds, j, k);
        var m := Project(Scaled(signals, norms, models, params, k)).value[j];
        AnyNonZeroSnoc(hs, m);
      }
    }
  }

  // ---------------------------------------------------------------------------
  // The plots

  /** All plots of the run. */
  ghost function AllPlots(plots: map<nat, seq<SpectralPlot>>): set<SpectralPlot>
  {
    set ds, j | ds in plots && 0 <= j < |plots[ds]| :: plots[ds][j]
  }

  lemma InAllPlots(plots: map<nat, seq<SpectralPlot>>)
    ensures forall ds, j :: ds in plots && 0 <= j < |plots[ds]| ==> plots[ds][j] in AllPlots(plots)
  {
  }

  /** No plot object is shared between two (dataset, observable) cells. */
  ghost predicate Distinct(plots: map<nat, seq<SpectralPlot>>)
  {
    forall ds, ds', a, b ::
      ds in plots && ds' in plots && 0 <= a < |plots[ds]| && 0 <= b < |plots[ds']| && (ds != ds' || a != b)
      ==> plots[ds][a] != plots[ds'][b]
  }

  ghost predicate RowDistinct(row: seq<SpectralPlot>)
  {
    forall a, b :: 0 <= a < b < |row| ==> row[a] != row[b]
  }


  /** A fresh plot for observable o: line width 2, the observable's range,
      y-range and log scale, no title, the observable's title on x. */
  ghost predicate Configured(p: SpectralPlot, o: Observable, ytitle: string)
  {
    && p.lineWidth == 2
    && p.xmin == o.lower && p.xmax == o.upper && p.ymin == o.ymin && p.ymax == o.ymax
    && p.logy == o.logscale && p.title == "" && p.xtitle == o.title && p.ytitle == ytitle
  }

  ghost predicate Blank(p: SpectralPlot)
    reads p
  {
    p.Valid() && p.clones == [] && p.histograms == [] && p.legend == [] && p.canvas == []
  }

  /** A row of plots as set up for one dataset: one blank plot per
      observable, configured for it, none shared. */
  ghost predicate RowReady(row: seq<SpectralPlot>, observables: seq<Observable>, ytitles: seq<string>)
    reads row
  {
    && |row| == |observables| && |ytitles| == |observables|
    && RowDistinct(row)
    && (forall j :: 0 <= j < |row| ==> Configured(row[j], observables[j], ytitles[j]) && Blank(row[j]))
  }

  /** The plots of one dataset, one per observable. The y-axis titles are
      given: their text formatting is not modelled. */
  method MakeRow(observables: seq<Observable>, ytitles: seq<string>) returns (row: seq<SpectralPlot>)
    requires |ytitles| == |observables|
    ensures RowReady(row, observables, ytitles)
    ensures forall j :: 0 <= j < |row| ==> fresh(row[j])
  {
    row := [];
    for j := 0 to |observables|
      invariant |row| == j
      invariant forall a, b :: 0 <= a < b < |row| ==> row[a] != row[b]
      invariant forall k :: 0 <= k < |row| ==>
                  fresh(row[k]) && Configured(row[k], observables[k], ytitles[k]) && Blank(row[k])
    {
      var o := observables[j];
      var p := new SpectralPlot(2, o.lower, o.upper, o.ymin, o.ymax, o.logscale, "", o.title, ytitles[j]);
      row := row + [p];
    }
  }

  /** A new row of distinct plots, none of them already in use, keeps the
      plots distinct. */
  lemma DistinctInsert(plots: map<nat, seq<SpectralPlot>>, ds: nat, row: seq<SpectralPlot>)
    requires Distinct(plots) && ds !in plots && RowDistinct(row)
    requires forall ds', a, b :: ds' in plots && 0 <= a < |plots[ds']| && 0 <= b < |row| ==> plots[ds'][a] != row[b]
    ensures Distinct(plots[ds := row])
  {
  }

  /** The row of dataset ds has distinct plots, and no plot of another
      dataset is in it. */
  lemma Apart(plots: map<nat, seq<SpectralPlot>>, ds: nat)
    requires Distinct(plots) && ds in plots
    ensures RowDistinct(plots[ds])
    ensures forall ds', j :: ds' in plots && ds' != ds && 0 <= j < |plots[ds']| ==> plots[ds'][j] !in plots[ds]
  {
  }

  /** One row of plots for every dataset. */
  method MakePlots(datasets: set<nat>, observables: seq<Observable>, ytitles: seq<string>)
    returns (plots: map<nat, seq<SpectralPlot>>)
    requires |ytitles| == |observables|
    ensures plots.Keys == datasets && Distinct(plots)
    ensures forall ds :: ds in plots ==> RowReady(plots[ds], observables, ytitles)
    ensures forall p :: p in AllPlots(plots) ==> fresh(p)
  {
    plots := map[];
    var rest := datasets;
    while rest != {}
      invariant rest <= datasets && plots.Keys == datasets - rest && Distinct(plots)
      invariant forall ds :: ds in plots ==> RowReady(plots[ds], observables, ytitles)
      invariant forall ds, j :: ds in plots && 0 <= j < |plots[ds]| ==> fresh(plots[ds][j])
      decreases rest
    {
      var ds :| ds in rest;
      var row := MakeRow(observables, ytitles);
      DistinctInsert(plots, ds, row);
      plots := plots[ds := row];
      rest := rest - {ds};
    }
    forall p | p in AllPlots(plots)
      ensures fresh(p)
    {
      var ds, j :| ds in plots && 0 <= j < |plots[ds]| && p == plots[ds][j];
    }
  }

  function ObservableNames(observables: seq<Observable>): (names: seq<string>)
    ensures |names| == |observables|
  {
    seq(|observables|, j requires 0 <= j < |observables| => observables[j].name)
  }

  /** The projection of a scaled model on observable j, in a palette entry:
      setting the colour and style leaves the projection's contents as
      they are. */
  function MarginalCurve(h: Hist, j: nat, color: int, style: int): (c: Curve)
    ensures c.hist == h && c.lineColor == color && c.lineStyle == style
  {
    var name := if j == 0 then "hpdf_x" else if j == 1 then "hpdf_y" else "hpdf_z";
    Curve(name, h, color, style, 1, "", "", "")
  }

  // ---------------------------------------------------------------------------
  // The signal loop

  /** What `all_totals[ds][j]` holds once the marginals hs were contributed:
      nothing before the first; then the first one's clone, named after the
      dataset and the observable, in magenta, holding the first marginal plus
      every later one with a positive integral. */
  function TotalSlot(hs: seq<Hist>, ds: nat, obsName: string): (slot: Option<Curve>)
    requires SameBinningAll(hs)
    ensures slot.None? <==> hs == []
    ensures slot.Some? ==> slot.value.lineColor == KMagenta && slot.value.lineStyle == 1
    ensures slot.Some? ==> SameBinning(slot.value.hist, hs[0])
    ensures slot.Some? ==> Integral(slot.value.hist) == Integral(hs[0]) + SumPositive(hs[1..])
  {
    if hs == [] then None
    else
      PositiveTotalIntegral(hs);
      Some(TotalCurve(MarginalCurve(hs[0], 0, KMagenta, 1), ds, obsName).(hist := PositiveTotal(hs)))
  }

  /** A plot holding exactly these clones and legend entries: its drawn
      curves and canvas are those of a valid plot (the non-empty clones, the
      first with the configured ranges), something is drawn exactly when
      `drawn`, and every drawn curve is one-dimensional. */
  ghost predicate Holds(p: SpectralPlot, clones: seq<Curve>, legend: seq<LegendEntry>, drawn: bool)
    reads p
  {
    && p.Valid()
    && p.clones == clones && p.legend == legend
    && (p.histograms != [] <==> drawn)
    && (forall k :: 0 <= k < |p.histograms| ==> Valid(p.histograms[k].hist) && Dim(p.histograms[k].hist) == 1)
  }

  /** The marginals of one signal, in its palette entry. */
  function Coloured(marginals: seq<Hist>, color: int, style: int): (ms: seq<Curve>)
    ensures |ms| == |marginals|
    ensures forall j :: 0 <= j < |ms| ==> ms[j] == MarginalCurve(marginals[j], j, color, style)
  {
    seq(|marginals|, j requires 0 <= j < |marginals| => MarginalCurve(marginals[j], j, color, style))
  }

  /** The slots of one dataset after the first n observables got their
      marginal from ms. */
  function Stepped(slots: seq<Option<Curve>>, ms: seq<Curve>, ds: nat, names: seq<string>, n: nat)
    : (r: seq<Option<Curve>>)
    requires |slots| == |ms| == |names| && n <= |slots|
    requires forall j :: 0 <= j < |slots| && slots[j].Some? ==> SameBinning(ms[j].hist, slots[j].value.hist)
    ensures |r| == |slots|
    ensures forall j :: 0 <= j < |slots| ==>
              r[j] == if j < n then NextSlot(slots[j], ms[j], ds, names[j]) else slots[j]
  {
    seq(|slots|, j requires 0 <= j < |slots| =>
          if j < n then NextSlot(slots[j], ms[j], ds, names[j]) else slots[j])
  }

  /** Observable n of the loop is the next to get its marginal. */
  lemma SteppedNext(slots: seq<Option<Curve>>, ms: seq<Curve>, ds: nat, names: seq<string>, n: nat)
    requires |slots| == |ms| == |names| && n < |slots|
    requires forall j :: 0 <= j < |slots| && slots[j].Some? ==> SameBinning(ms[j].hist, slots[j].value.hist)
    ensures Stepped(slots, ms, ds, names, n)[n := NextSlot(slots[n], ms[n], ds, names[n])]
            == Stepped(slots, ms, ds, names, n + 1)
  {
  }

  /** One observable of the signal loop's pass: `add(hpdf[j], name, title,
      "hist")` gives the plot the clone of the marginal named after the
      signal and a legend entry with the signal's title, and something is
      drawn once a non-empty curve was added; then the marginal goes to the
      dataset's total of observable j. */
  method FeedCell(p: SpectralPlot, totals: DatasetTotals, ds: nat, j: nat, m: Curve, s: Signal,
                  ghost clones: seq<Curve>, ghost legend: seq<LegendEntry>, ghost drawn: bool)
    requires Holds(p, clones, legend, drawn) && Valid(m.hist) && Dim(m.hist) == 1
    requires ds in totals.marginal && j < |totals.marginal[ds]| && j < |totals.observables|
    requires totals.marginal[ds][j].Some? ==> SameBinning(m.hist, totals.marginal[ds][j].value.hist)
    modifies p, totals
    ensures Holds(p, clones + [p.Styled(m, s.name)], legend + [LegendEntry("__" + s.name, s.title)],
                  drawn || Integral(m.hist) != 0.0)
    ensures totals.full == old(totals.full)
    ensures totals.marginal
            == old(totals.marginal)[ds := old(totals.marginal)[ds][j := NextSlot(old(totals.marginal)[ds][j], m, ds, totals.observables[j])]]
  {
    p.Add(m, s.name, s.title, "hist");
    totals.AddMarginal(ds, j, m);
  }

  /** The loop over observables for one signal: marginal j, drawn in the
      signal's palette entry, goes to plot j of the signal's dataset and to
      that dataset's total of observable j. Every marginal carries the
      signal's expected count y. */
  method FeedMarginals(row: seq<SpectralPlot>, totals: DatasetTotals, ds: nat, marginals: seq<Hist>, y: real,
                       color: int, style: int, s: Signal,
                       ghost clones: seq<seq<Curve>>, ghost legend: seq<LegendEntry>, ghost drawn: bool)
    requires |row| == |marginals| == |totals.observables|
    requires RowDistinct(row)
    requires ds in totals.marginal && |totals.marginal[ds]| == |row|
    requires forall j :: 0 <= j < |row| && totals.marginal[ds][j].Some? ==>
               SameBinning(marginals[j], totals.marginal[ds][j].value.hist)
    requires |clones| == |row| && forall j :: 0 <= j < |row| ==> Holds(row[j], clones[j], legend, drawn)
    requires forall j :: 0 <= j < |row| ==> Valid(marginals[j]) && Dim(marginals[j]) == 1 && Integral(marginals[j]) == y
    modifies totals, row
    ensures totals.full == old(totals.full)
    ensures totals.marginal == old(totals.marginal)[ds := Stepped(old(totals.marginal[ds]), Coloured(marginals, color, style),
                                                                   ds, totals.observables, |row|)]
    ensures forall j :: 0 <= j < |row| ==>
              Holds(row[j], clones[j] + [row[j].Styled(MarginalCurve(marginals[j], j, color, style), s.name)],
                    legend + [LegendEntry("__" + s.name, s.title)], drawn || y != 0.0)
  {
    ghost var slots := totals.marginal[ds];
    ghost var ms := Coloured(marginals, color, style);
    ghost var after := seq(|row|, j requires 0 <= j < |row| =>
                             clones[j] + [row[j].Styled(MarginalCurve(marginals[j], j, color, style), s.name)]);
    ghost var legend', drawn' := legend + [LegendEntry("__" + s.name, s.title)], drawn || y != 0.0;
    assert Stepped(slots, ms, ds, totals.observables, 0) == slots;
    for j := 0 to |row|
      invariant totals.full == old(totals.full)
      invariant totals.marginal == old(totals.marginal)[ds := Stepped(slots, ms, ds, totals.observables, j)]
      invariant forall j' :: 0 <= j' < |row| ==>
                  if j' < j then Holds(row[j'], after[j'], legend', drawn') else Holds(row[j'], clones[j'], legend, drawn)
    {
      var m := MarginalCurve(marginals[j], j, color, style);
      assert after[j] == clones[j] + [row[j].Styled(m, s.name)];
      FeedCell(row[j], totals, ds, j, m, s, clones[j], legend, drawn);
      assert Holds(row[j], after[j], legend', drawn');
      SteppedNext(slots, ms, ds, totals.observables, j);
    }
  }

  // ---------------------------------------------------------------------------
  // The state after the first `count` signals

  /** `all_totals_nd`: a dataset has a full total once one of its signals was
      seen, and it is the sum of the dataset's scaled models so far. */
  ghost predicate FullAt(full: map<nat, Hist>, signals: seq<Signal>, norms: seq<nat>, models: seq<Hist>,
                         params: seq<real>, datasets: set<nat>, count: nat)
    requires Scalable(signals, norms, models, |params|) && count <= |signals|
  {
    && full.Keys <= datasets
    && (forall ds :: ds in datasets ==> FullOf(full, signals, norms, models, params, ds, count))
  }

  /** Dataset ds has a full total exactly when one of its signals was seen,
      and it is the sum of the dataset's scaled models so far. */
  ghost predicate FullOf(full: map<nat, Hist>, signals: seq<Signal>, norms: seq<nat>, models: seq<Hist>,
                         params: seq<real>, ds: nat, count: nat)
    requires Scalable(signals, norms, models, |params|) && count <= |signals|
  {
    && (ds in full <==> DatasetModels(signals, norms, models, params, ds, count) != [])
    && SameBinningAll(DatasetModels(signals, norms, models, params, ds, count))
    && (ds in full ==> full[ds] == TotalOf(DatasetModels(signals, norms, models, params, ds, count)))
  }

  /** `all_totals`: every dataset has one slot per observable, holding the
      total of the dataset's marginals so far on that observable. */
  ghost predicate SlotsAt(marginal: map<nat, seq<Option<Curve>>>, names: seq<string>,
                          signals: seq<Signal>, norms: seq<nat>, models: seq<Hist>, params: seq<real>,
                          nobs: nat, datasets: set<nat>, count: nat)
    requires Ready(signals, norms, models, |params|, nobs, datasets) && count <= |signals|
    requires count == 0 || nobs <= 3
  {
    && marginal.Keys == datasets && |names| == nobs
    && (forall ds :: ds in datasets ==> |marginal[ds]| == nobs)
    && (forall ds, j :: ds in datasets && 0 <= j < nobs ==>
          SlotAt(marginal[ds][j], names[j], signals, norms, models, params, nobs, datasets, ds, j, count))
  }

  /** The slot of dataset ds and observable j, named `name`, holds the total
      of the dataset's marginals on j. */
  ghost predicate SlotAt(slot: Option<Curve>, name: string,
                         signals: seq<Signal>, norms: seq<nat>, models: seq<Hist>, params: seq<real>,
                         nobs: nat, datasets: set<nat>, ds: nat, j: nat, count: nat)
    requires Ready(signals, norms, models, |params|, nobs, datasets) && count <= |signals|
    requires (count == 0 || nobs <= 3) && j < nobs
  {
    && SameBinningAll(DatasetMarginals(signals, norms, models, params, nobs, datasets, ds, j, count))
    && slot == TotalSlot(DatasetMarginals(signals, norms, models, params, nobs, datasets, ds, j, count), ds, name)
  }

  /** The plots: one per dataset and observable, none shared, each holding
      the clones and legend entries of its dataset's signals so far, with
      something drawn exactly when one of them has a non-zero expected
      count. */
  ghost predicate PlotsAt(plots: map<nat, seq<SpectralPlot>>,
                          signals: seq<Signal>, norms: seq<nat>, models: seq<Hist>, params: seq<real>,
                          nobs: nat, datasets: set<nat>, count: nat)
    requires Ready(signals, norms, models, |params|, nobs, datasets) && count <= |signals|
    requires count == 0 || nobs <= 3
    reads AllPlots(plots)
  {
    && plots.Keys == datasets && Distinct(plots)
    && (forall ds :: ds in datasets ==> |plots[ds]| == nobs)
    && (forall ds, j :: ds in datasets && 0 <= j < nobs ==>
          Holds(plots[ds][j], PlotClones(plots[ds][j], signals, norms, models, params, nobs, datasets, ds, j, count),
                PlotLegend(signals, ds, count), HasYield(signals, norms, models, params, ds, count)))
  }

  /** Before the first signal: every plot is blank, as set up. */
  lemma PlotsInit(plots: map<nat, seq<SpectralPlot>>, signals: seq<Signal>, norms: seq<nat>, models: seq<Hist>,
                  params: seq<real>, observables: seq<Observable>, datasets: set<nat>, ytitles: seq<string>)
    requires Ready(signals, norms, models, |params|, |observables|, datasets)
    requires plots.Keys == datasets && Distinct(plots)
    requires forall ds :: ds in plots ==> RowReady(plots[ds], observables, ytitles)
    ensures PlotsAt(plots, signals, norms, models, params, |observables|, datasets, 0)
  {
  }

  /** Before the first signal: no full totals, every slot empty. */
  lemma TotalsInit(names: seq<string>, signals: seq<Signal>, norms: seq<nat>, models: seq<Hist>,
                   params: seq<real>, nobs: nat, datasets: set<nat>)
    requires Ready(signals, norms, models, |params|, nobs, datasets) && |names| == nobs
    ensures FullAt(map[], signals, norms, models, params, datasets, 0)
    ensures SlotsAt(map ds | ds in datasets :: seq(nobs, _ => None), names, signals, norms, models, params, nobs, datasets, 0)
  {
  }

  /** One more signal's scaled model has the binning of its dataset's
      full total. */
  lemma FullStepBinning(full: map<nat, Hist>, signals: seq<Signal>, norms: seq<nat>, models: seq<Hist>,
                        params: seq<real>, nobs: nat, datasets: set<nat>, i: nat)
    requires Ready(signals, norms, models, |params|, nobs, datasets) && i < |signals|
    requires FullAt(full, signals, norms, models, params, datasets, i)
    ensures var ds := signals[i].dataset;
            ds in full ==> SameBinning(Scaled(signals, norms, models, params, i), full[ds])
  {
    var ds := signals[i].dataset;
    var hs := DatasetModels(signals, norms, models, params, ds, i);
    DatasetModelsBinning(signals, norms, models, params, ds, i);
    if ds in full {
      assert hs[0].axes == models[i].axes;
    }
  }

  /** After one more signal, the full total of dataset ds' is still present
      exactly when a signal of ds' was seen, and is their sum. */
  lemma FullStepAt(full: map<nat, Hist>, signals: seq<Signal>, norms: seq<nat>, models: seq<Hist>,
                   params: seq<real>, nobs: nat, datasets: set<nat>, i: nat, ds': nat)
    requires Ready(signals, norms, models, |params|, nobs, datasets) && i < |signals|
    requires FullAt(full, signals, norms, models, params, datasets, i) && ds' in datasets
    requires var ds := signals[i].dataset;
             ds in full ==> SameBinning(Scaled(signals, norms, models, params, i), full[ds])
    ensures FullOf(NextFull(full, signals[i].dataset, Scaled(signals, norms, models, params, i)),
                   signals, norms, models, params, ds', i + 1)
  {
    var ds, h := signals[i].dataset, Scaled(signals, norms, models, params, i);
    var hs := DatasetModels(signals, norms, models, params, ds', i);
    DatasetModelsBinning(signals, norms, models, params, ds', i);
    DatasetModelsBinning(signals, norms, models, params, ds', i + 1);
    if ds' == ds {
      assert DatasetModels(signals, norms, models, params, ds, i + 1) == hs + [h];
      if hs != [] {
        assert hs[0].axes == models[i].axes;
      }
      NextFullTotal(full, ds, hs, h);
    } else {
      assert DatasetModels(signals, norms, models, params, ds', i + 1) == hs;
    }
  }

  /** One more signal adds its scaled model to its dataset's full total. */
  lemma FullStep(full: map<nat, Hist>, signals: seq<Signal>, norms: seq<nat>, models: seq<Hist>,
                 params: seq<real>, nobs: nat, datasets: set<nat>, i: nat)
    requires Ready(signals, norms, models, |params|, nobs, datasets) && i < |signals|
    requires FullAt(full, signals, norms, models, params, datasets, i)
    ensures var ds := signals[i].dataset;
            ds in full ==> SameBinning(Scaled(signals, norms, models, params, i), full[ds])
    ensures FullAt(NextFull(full, signals[i].dataset, Scaled(signals, norms, models, params, i)),
                   signals, norms, models, params, datasets, i + 1)
  {
    FullStepBinning(full, signals, norms, models, params, nobs, datasets, i);
    forall ds' | ds' in datasets {
      FullStepAt(full, signals, norms, models, params, nobs, datasets, i, ds');
    }
  }

  /** After one more signal, slot j of dataset ds' holds the total of the
      dataset's marginals on j so far: the signal's own dataset takes the
      step, any other keeps its slot. */
  lemma SlotStepAt(slot: Option<Curve>, name: string,
                   signals: seq<Signal>, norms: seq<nat>, models: seq<Hist>, params: seq<real>,
                   nobs: nat, datasets: set<nat>, i: nat, color: int, style: int, ds': nat, j: nat)
    requires Ready(signals, norms, models, |params|, nobs, datasets) && i < |signals| && 1 <= nobs <= 3
    requires ds' in datasets && j < nobs
    requires SlotAt(slot, name, signals, norms, models, params, nobs, datasets, ds', j, i)
    ensures var ms := Coloured(Project(Scaled(signals, norms, models, params, i)).value, color, style);
            ds' == signals[i].dataset ==>
              && (slot.Some? ==> SameBinning(ms[j].hist, slot.value.hist))
              && SlotAt(NextSlot(slot, ms[j], ds', name), name, signals, norms, models, params, nobs, datasets, ds', j, i + 1)
    ensures ds' != signals[i].dataset ==>
              SlotAt(slot, name, signals, norms, models, params, nobs, datasets, ds', j, i + 1)
  {
    var hs := DatasetMarginals(signals, norms, models, params, nobs, datasets, ds', j, i);
    DatasetMarginalsBinning(signals, norms, models, params, nobs, datasets, ds', j, i);
    DatasetMarginalsBinning(signals, norms, models, params, nobs, datasets, ds', j, i + 1);
    if ds' == signals[i].dataset {
      var m := MarginalCurve(Project(Scaled(signals, norms, models, params, i)).value[j], j, color, style);
      assert DatasetMarginals(signals, norms, models, params, nobs, datasets, ds', j, i + 1) == hs + [m.hist];
      if hs != [] {
        assert hs[0].axes == [models[i].axes[j]];
      }
      NextSlotTotal(slot, m, hs, m, ds', name);
    } else {
      assert DatasetMarginals(signals, norms, models, params, nobs, datasets, ds', j, i + 1) == hs;
    }
  }

  /** The marginals of one more signal have the binning of its dataset's
      totals. */
  lemma SlotsStepBinning(marginal: map<nat, seq<Option<Curve>>>, names: seq<string>,
                  signals: seq<Signal>, norms: seq<nat>, models: seq<Hist>, params: seq<real>,
                  nobs: nat, datasets: set<nat>, i: nat, color: int, style: int)
    requires Ready(signals, norms, models, |params|, nobs, datasets) && i < |signals| && 1 <= nobs <= 3
    requires SlotsAt(marginal, names, signals, norms, models, params, nobs, datasets, i)
    ensures var ds, ms := signals[i].dataset, Coloured(Project(Scaled(signals, norms, models, params, i)).value, color, style);
            forall j :: 0 <= j < nobs && marginal[ds][j].Some? ==> SameBinning(ms[j].hist, marginal[ds][j].value.hist)
  {
    var ds := signals[i].dataset;
    forall j | 0 <= j < nobs {
      SlotStepAt(marginal[ds][j], names[j], signals, norms, models, params, nobs, datasets, i, color, style, ds, j);
    }
  }

  /** Slot j of dataset ds' after one more signal. */
  lemma SlotsStepCell(marginal: map<nat, seq<Option<Curve>>>, names: seq<string>,
                  signals: seq<Signal>, norms: seq<nat>, models: seq<Hist>, params: seq<real>,
                  nobs: nat, datasets: set<nat>, i: nat, color: int, style: int, ds': nat, j: nat)
    requires Ready(signals, norms, models, |params|, nobs, datasets) && i < |signals| && 1 <= nobs <= 3
    requires SlotsAt(marginal, names, signals, norms, models, params, nobs, datasets, i)
    requires var ds, ms := signals[i].dataset, Coloured(Project(Scaled(signals, norms, models, params, i)).value, color, style);
            forall j :: 0 <= j < nobs && marginal[ds][j].Some? ==> SameBinning(ms[j].hist, marginal[ds][j].value.hist)
    requires ds' in datasets && j < nobs
    ensures var ds, ms := signals[i].dataset, Coloured(Project(Scaled(signals, norms, models, params, i)).value, color, style);
            SlotAt(marginal[ds := Stepped(marginal[ds], ms, ds, names, nobs)][ds'][j], names[j],
                   signals, norms, models, params, nobs, datasets, ds', j, i + 1)
  {
    SlotStepAt(marginal[ds'][j], names[j], signals, norms, models, params, nobs, datasets, i, color, style, ds', j);
  }

  /** One more signal adds its marginals, in whatever palette entry, to its
      dataset's slots. */
  lemma SlotsStep(marginal: map<nat, seq<Option<Curve>>>, names: seq<string>,
                  signals: seq<Signal>, norms: seq<nat>, models: seq<Hist>, params: seq<real>,
                  nobs: nat, datasets: set<nat>, i: nat, color: int, style: int)
    requires Ready(signals, norms, models, |params|, nobs, datasets) && i < |signals| && 1 <= nobs <= 3
    requires SlotsAt(marginal, names, signals, norms, models, params, nobs, datasets, i)
    ensures var ds, ms := signals[i].dataset, Coloured(Project(Scaled(signals, norms, models, params, i)).value, color, style);
            forall j :: 0 <= j < nobs && marginal[ds][j].Some? ==> SameBinning(ms[j].hist, marginal[ds][j].value.hist)
    ensures var ds, ms := signals[i].dataset, Coloured(Project(Scaled(signals, norms, models, params, i)).value, color, style);
            SlotsAt(marginal[ds := Stepped(marginal[ds], ms, ds, names, nobs)],
                    names, signals, norms, models, params, nobs, datasets, i + 1)
  {
    SlotsStepBinning(marginal, names, signals, norms, models, params, nobs, datasets, i, color, style);
    var ds, ms := signals[i].dataset, Coloured(Project(Scaled(signals, norms, models, params, i)).value, color, style);
    var marginal' := marginal[ds := Stepped(marginal[ds], ms, ds, names, nobs)];
    forall ds', j | ds' in datasets && 0 <= j < nobs
      ensures SlotAt(marginal'[ds'][j], names[j], signals, norms, models, params, nobs, datasets, ds', j, i + 1)
    {
      SlotsStepCell(marginal, names, signals, norms, models, params, nobs, datasets, i, color, style, ds', j);
    }
  }

  // ---------------------------------------------------------------------------
  // The loops of plot_fit

  /** One pass of the signal loop: scale signal i's model to its expected
      count, project it on every observable (failing beyond three
      dimensions), pick its palette entry, and feed its dataset's full total,
      plots and observable totals. */
  method FeedSignal(plots: map<nat, seq<SpectralPlot>>, totals: DatasetTotals,
                    signals: seq<Signal>, norms: seq<nat>, models: seq<Hist>, params: seq<real>,
                    nobs: nat, datasets: set<nat>, i: nat) returns (ok: bool)
    requires Ready(signals, norms, models, |params|, nobs, datasets) && i < |signals| && (i == 0 || nobs <= 3)
    requires |totals.observables| == nobs && totals.marginal.Keys == datasets
    requires forall ds :: ds in datasets ==> |totals.marginal[ds]| == nobs
    requires var ds := signals[i].dataset;
             ds in totals.full ==> SameBinning(Scaled(signals, norms, models, params, i), totals.full[ds])
    requires 1 <= nobs <= 3 ==>
               var ds, ms := signals[i].dataset, Coloured(Project(Scaled(signals, norms, models, params, i)).value,
                                                          Color(i, |signals|, |datasets|), Style(i, |signals|, |datasets|));
               forall j :: 0 <= j < nobs && totals.marginal[ds][j].Some? ==> SameBinning(ms[j].hist, totals.marginal[ds][j].value.hist)
    requires PlotsAt(plots, signals, norms, models, params, nobs, datasets, i)
    modifies totals, AllPlots(plots)
    ensures ok <==> 1 <= nobs <= 3
    ensures ok ==> totals.full == NextFull(old(totals.full), signals[i].dataset, Scaled(signals, norms, models, params, i))
    ensures ok ==> var ds, ms := signals[i].dataset, Coloured(Project(Scaled(signals, norms, models, params, i)).value,
                                                              Color(i, |signals|, |datasets|), Style(i, |signals|, |datasets|));
                   totals.marginal == old(totals.marginal)[ds := Stepped(old(totals.marginal[ds]), ms, ds, totals.observables, nobs)]
    ensures ok ==> PlotsAt(plots, signals, norms, models, params, nobs, datasets, i + 1)
  {
    var s := signals[i];
    var h := Scaled(signals, norms, models, params, i);
    var proj := Project(h);
    if proj.Err? {
      return false;
    }
    var ds := s.dataset;
    var color, style := Color(i, |signals|, |datasets|), Style(i, |signals|, |datasets|);
    totals.AddFull(ds, h);
    FeedPlots(plots, totals, signals, norms, models, params, nobs, datasets, i, proj.value, Integral(h), color, style);
    ok := true;
  }

  /** The plots and observable totals part of one pass of the signal loop:
      signal i's marginals, each carrying its expected count y, go in its
      palette entry to its dataset's plots and totals; the other datasets'
      plots are untouched. */
  method FeedPlots(plots: map<nat, seq<SpectralPlot>>, totals: DatasetTotals,
                   signals: seq<Signal>, norms: seq<nat>, models: seq<Hist>, params: seq<real>,
                   nobs: nat, datasets: set<nat>, i: nat, marginals: seq<Hist>, y: real, color: int, style: int)
    requires Ready(signals, norms, models, |params|, nobs, datasets) && i < |signals|
    requires |totals.observables| == nobs && totals.marginal.Keys == datasets
    requires forall ds :: ds in datasets ==> |totals.marginal[ds]| == nobs
    requires 1 <= nobs <= 3 && marginals == Project(Scaled(signals, norms, models, params, i)).value
    requires color == Color(i, |signals|, |datasets|) && style == Style(i, |signals|, |datasets|)
    requires |marginals| == nobs && y == ExpectedCount(signals[i], norms[i], params)
    requires forall j :: 0 <= j < nobs ==> Valid(marginals[j]) && Dim(marginals[j]) == 1 && Integral(marginals[j]) == y
    requires var ds := signals[i].dataset;
             forall j :: 0 <= j < nobs && totals.marginal[ds][j].Some? ==>
               SameBinning(marginals[j], totals.marginal[ds][j].value.hist)
    requires PlotsAt(plots, signals, norms, models, params, nobs, datasets, i)
    modifies totals, AllPlots(plots)
    ensures totals.full == old(totals.full)
    ensures var ds := signals[i].dataset;
            totals.marginal == old(totals.marginal)[ds := Stepped(old(totals.marginal[ds]), Coloured(marginals, color, style),
                                                                   ds, totals.observables, nobs)]
    ensures PlotsAt(plots, signals, norms, models, params, nobs, datasets, i + 1)
  {
    var ds := signals[i].dataset;
    Apart(plots, ds);
    ghost var clones := seq(nobs, j requires 0 <= j < nobs =>
                              PlotClones(plots[ds][j], signals, norms, models, params, nobs, datasets, ds, j, i));
    FeedMarginals(plots[ds], totals, ds, marginals, y, color, style, signals[i],
                  clones, PlotLegend(signals, ds, i), HasYield(signals, norms, models, params, ds, i));
    forall ds', j | ds' in datasets && 0 <= j < nobs
      ensures Holds(plots[ds'][j], PlotClones(plots[ds'][j], signals, norms, models, params, nobs, datasets, ds', j, i + 1),
                    PlotLegend(signals, ds', i + 1), HasYield(signals, norms, models, params, ds', i + 1))
    {
      PlotStep(plots[ds'][j], signals, norms, models, params, nobs, datasets, marginals, color, style, ds', j, i);
      if ds' != ds {
        assert unchanged(plots[ds'][j]);
        assert old(Holds(plots[ds'][j], PlotClones(plots[ds'][j], signals, norms, models, params, nobs, datasets, ds', j, i),
                         PlotLegend(signals, ds', i), HasYield(signals, norms, models, params, ds', i)));
      }
    }
  }

  /** One more signal adds its clone and legend entry to each plot of its
      own dataset, which then has something drawn if it had or the signal's
      expected count is not zero; the other datasets' plots stay as they
      were. */
  lemma PlotStep(p: SpectralPlot, signals: seq<Signal>, norms: seq<nat>, models: seq<Hist>, params: seq<real>,
                 nobs: nat, datasets: set<nat>, marginals: seq<Hist>, color: int, style: int, ds: nat, j: nat, i: nat)
    requires Ready(signals, norms, models, |params|, nobs, datasets) && i < |signals| && j < nobs && 1 <= nobs <= 3
    requires marginals == Project(Scaled(signals, norms, models, params, i)).value
    requires color == Color(i, |signals|, |datasets|) && style == Style(i, |signals|, |datasets|)
    ensures signals[i].dataset == ds ==>
              && PlotClones(p, signals, norms, models, params, nobs, datasets, ds, j, i + 1)
                 == PlotClones(p, signals, norms, models, params, nobs, datasets, ds, j, i)
                    + [p.Styled(MarginalCurve(marginals[j], j, color, style), signals[i].name)]
              && PlotLegend(signals, ds, i + 1)
                 == PlotLegend(signals, ds, i) + [LegendEntry("__" + signals[i].name, signals[i].title)]
              && (HasYield(signals, norms, models, params, ds, i + 1)
                  <==> HasYield(signals, norms, models, params, ds, i) || ExpectedCount(signals[i], norms[i], params) != 0.0)
    ensures signals[i].dataset != ds ==>
              && PlotClones(p, signals, norms, models, params, nobs, datasets, ds, j, i + 1)
                 == PlotClones(p, signals, norms, models, params, nobs, datasets, ds, j, i)
              && PlotLegend(signals, ds, i + 1) == PlotLegend(signals, ds, i)
              && (HasYield(signals, norms, models, params, ds, i + 1) <==> HasYield(signals, norms, models, params, ds, i))
  {
  }

  // ---------------------------------------------------------------------------
  // The data pass

  /** A plot once plot_fit is done with it: a valid plot holding its signal
      clones, then the "Fit" clone of its observable's total and the "Data"
      clone of the data histogram made like its first drawn curve, with
      their legend entries. */
  ghost predicate Finished(p: SpectralPlot, clones: seq<Curve>, legend: seq<LegendEntry>, fit: Option<Curve>,
                           data: seq<real>, nobs: nat, ds: nat, j: nat)
    requires j < nobs
    reads p
  {
    && p.Valid()
    && NonEmpty(clones) != [] && Valid(NonEmpty(clones)[0].hist) && Dim(NonEmpty(clones)[0].hist) == 1
    && fit.Some?
    && p.clones == clones + [p.Styled(fit.value, "fit"),
                             p.Styled(DataCurve(NonEmpty(clones)[0], data, nobs, ds, j), "data")]
    && p.legend == legend + [LegendEntry("__fit", "Fit"), LegendEntry("__data", "Data")]
  }

  /** What a finished plot draws: its non-empty signal clones, then the fit
      and the data unless empty, the first of them with the configured axis
      ranges. */
  lemma FinishedDrawn(p: SpectralPlot, clones: seq<Curve>, legend: seq<LegendEntry>, fit: Option<Curve>,
                      data: seq<real>, nobs: nat, ds: nat, j: nat)
    requires j < nobs && Finished(p, clones, legend, fit, data, nobs, ds, j)
    ensures var f := p.Styled(fit.value, "fit");
            var d := p.Styled(DataCurve(NonEmpty(clones)[0], data, nobs, ds, j), "data");
            p.histograms == NonEmpty(clones) + (if Integral(f.hist) != 0.0 then [f] else [])
                                             + (if Integral(d.hist) != 0.0 then [d] else [])
    ensures p.canvas[0] == DrawOp(NonEmpty(clones)[0], p.canvas[0].options, Range(p.xmin, p.xmax), p.YRange())
  {
    var f := p.Styled(fit.value, "fit");
    var d := p.Styled(DataCurve(NonEmpty(clones)[0], data, nobs, ds, j), "data");
    NonEmptyPair(clones, f, d);
  }

  /** The non-empty curves of clones followed by f and d. */
  lemma NonEmptyPair(clones: seq<Curve>, f: Curve, d: Curve)
    ensures NonEmpty(clones + [f, d]) == NonEmpty(clones) + (if Integral(f.hist) != 0.0 then [f] else [])
                                                          + (if Integral(d.hist) != 0.0 then [d] else [])
  {
    assert clones + [f, d] == (clones + [f]) + [d];
    NonEmptySnoc(clones, f);
    NonEmptySnoc(clones + [f], d);
  }

  /** The object names `add` gives the fit and data clones. */
  lemma FitDataNames()
    ensures "__" + "fit" == "__fit" && "__" + "data" == "__data"
  {
  }

  /** The data pass on one plot: the data histogram is made like the plot's
      first drawn curve and filled from the dataset's records; then the plot
      gets the observable's total as "Fit" and the data as "Data". A plot
      with nothing drawn has no first curve, and the pass fails there. */
  method FinishCell(p: SpectralPlot, fit: Option<Curve>, data: seq<real>, nobs: nat, ds: nat, j: nat,
                    ghost clones: seq<Curve>, ghost legend: seq<LegendEntry>, ghost drawn: bool) returns (ok: bool)
    requires j < nobs && Holds(p, clones, legend, drawn) && (drawn ==> fit.Some?)
    modifies p
    ensures ok <==> drawn
    ensures ok ==> Finished(p, clones, legend, fit, data, nobs, ds, j)
  {
    if p.histograms == [] {
      return false;
    }
    var first := p.histograms[0];
    assert first == NonEmpty(clones)[0];
    var hdata := BinData(first, data, nobs, ds, j);
    p.Add(fit.value, "fit", "Fit", "hist");
    p.Add(hdata, "data", "Data", DefaultOptions);
    assert p.clones == clones + [p.Styled(fit.value, "fit"), p.Styled(hdata, "data")];
    FitDataNames();
    assert p.legend == legend + [LegendEntry("__fit", "Fit"), LegendEntry("__data", "Data")];
    ok := true;
  }

  /** The data pass over one dataset's plots, one observable at a time. */
  method FinishRow(row: seq<SpectralPlot>, fits: seq<Option<Curve>>, data: seq<real>, nobs: nat, ds: nat,
                   ghost clones: seq<seq<Curve>>, ghost legend: seq<LegendEntry>, ghost drawn: bool)
    returns (ok: bool)
    requires |row| == |fits| == |clones| == nobs
    requires RowDistinct(row)
    requires forall j :: 0 <= j < nobs ==> Holds(row[j], clones[j], legend, drawn)
    requires drawn ==> forall j :: 0 <= j < nobs ==> fits[j].Some?
    modifies row
    ensures ok <==> nobs == 0 || drawn
    ensures ok ==> forall j :: 0 <= j < nobs ==> Finished(row[j], clones[j], legend, fits[j], data, nobs, ds, j)
  {
    for j := 0 to nobs
      invariant j > 0 ==> drawn
      invariant forall j' :: 0 <= j' < j ==> Finished(row[j'], clones[j'], legend, fits[j'], data, nobs, ds, j')
      invariant forall j' :: j <= j' < nobs ==> Holds(row[j'], clones[j'], legend, drawn)
    {
      ok := FinishCell(row[j], fits[j], data, nobs, ds, j, clones[j], legend, drawn);
      if !ok {
        return;
      }
    }
    ok := true;
  }

  /** Once every signal was seen, a dataset with some yield has a total for
      every observable. */
  lemma FitsPresent(marginal: map<nat, seq<Option<Curve>>>, names: seq<string>,
                    signals: seq<Signal>, norms: seq<nat>, models: seq<Hist>, params: seq<real>,
                    nobs: nat, datasets: set<nat>)
    requires Ready(signals, norms, models, |params|, nobs, datasets) && (|signals| == 0 || nobs <= 3)
    requires SlotsAt(marginal, names, signals, norms, models, params, nobs, datasets, |signals|)
    ensures forall ds, j :: ds in datasets && HasYield(signals, norms, models, params, ds, |signals|) && 0 <= j < nobs
              ==> marginal[ds][j].Some?
  {
    forall ds, j | ds in datasets && HasYield(signals, norms, models, params, ds, |signals|) && 0 <= j < nobs
      ensures marginal[ds][j].Some?
    {
      assert SlotAt(marginal[ds][j], names[j], signals, norms, models, params, nobs, datasets, ds, j, |signals|);
      DatasetMarginalsYield(signals, norms, models, params, nobs, datasets, ds, j, |signals|);
    }
  }

  /** A plot before the data pass reaches it, or after. */
  ghost predicate Stage(p: SpectralPlot, clones: seq<Curve>, legend: seq<LegendEntry>, drawn: bool, done: bool,
                        fit: Option<Curve>, data: seq<real>, nobs: nat, ds: nat, j: nat)
    requires j < nobs
    reads p
  {
    if done then Finished(p, clones, legend, fit, data, nobs, ds, j) else Holds(p, clones, legend, drawn)
  }

  /** The data pass over every dataset, given the clones and legend entries
      each plot of dataset ds holds and the datasets whose plots have
      something drawn. It succeeds exactly when every plot has something
      drawn (or there is no observable). */
  method FinishPlots(plots: map<nat, seq<SpectralPlot>>, fits: map<nat, seq<Option<Curve>>>,
                     data: seq<real>, nobs: nat, datasets: set<nat>,
                     ghost clones: map<nat, seq<seq<Curve>>>, ghost legend: map<nat, seq<LegendEntry>>,
                     ghost drawn: set<nat>, ghost all: set<SpectralPlot>) returns (ok: bool)
    requires plots.Keys == datasets && Distinct(plots) && fits.Keys == datasets
    requires clones.Keys == datasets && legend.Keys == datasets
    requires forall ds, j :: ds in plots && 0 <= j < |plots[ds]| ==> plots[ds][j] in all
    requires forall ds :: ds in datasets ==> |plots[ds]| == nobs && |fits[ds]| == nobs && |clones[ds]| == nobs
    requires forall ds, j :: ds in datasets && 0 <= j < nobs ==> Holds(plots[ds][j], clones[ds][j], legend[ds], ds in drawn)
    requires forall ds, j :: ds in drawn && ds in datasets && 0 <= j < nobs ==> fits[ds][j].Some?
    modifies all
    ensures ok <==> nobs == 0 || datasets <= drawn
    ensures ok ==> forall ds, j :: ds in datasets && 0 <= j < nobs ==>
              Finished(plots[ds][j], clones[ds][j], legend[ds], fits[ds][j], data, nobs, ds, j)
  {
    ok := true;
    var rest := datasets;
    while rest != {}
      invariant rest <= datasets
      invariant nobs == 0 || datasets - rest <= drawn
      invariant forall ds, j :: ds in datasets && 0 <= j < nobs ==>
                  Stage(plots[ds][j], clones[ds][j], legend[ds], ds in drawn, ds !in rest, fits[ds][j], data, nobs, ds, j)
      decreases rest
    {
      var ds :| ds in rest;
      Apart(plots, ds);
      label Before:
      ok := FinishRow(plots[ds], fits[ds], data, nobs, ds, clones[ds], legend[ds], ds in drawn);
      if !ok {
        return;
      }
      forall ds', j | ds' in datasets && 0 <= j < nobs
        ensures Stage(plots[ds'][j], clones[ds'][j], legend[ds'], ds' in drawn, ds' !in rest - {ds},
                      fits[ds'][j], data, nobs, ds', j)
      {
        if ds' != ds {
          assert unchanged@Before(plots[ds'][j]);
        }
      }
      rest := rest - {ds};
    }
  }

  /** The clones of every plot once every signal was seen. */
  ghost function AllClones(plots: map<nat, seq<SpectralPlot>>, signals: seq<Signal>, norms: seq<nat>, models: seq<Hist>,
                           params: seq<real>, nobs: nat, datasets: set<nat>): (m: map<nat, seq<seq<Curve>>>)
    requires Ready(signals, norms, models, |params|, nobs, datasets) && (|signals| == 0 || nobs <= 3)
    requires plots.Keys == datasets && forall ds :: ds in datasets ==> |plots[ds]| == nobs
    ensures m.Keys == datasets && forall ds :: ds in datasets ==> |m[ds]| == nobs
    ensures forall ds, j :: ds in datasets && 0 <= j < nobs ==>
              m[ds][j] == PlotClones(plots[ds][j], signals, norms, models, params, nobs, datasets, ds, j, |signals|)
  {
    map ds | ds in datasets :: seq(nobs, j requires 0 <= j < nobs =>
      PlotClones(plots[ds][j], signals, norms, models, params, nobs, datasets, ds, j, |signals|))
  }

  /** The legend of every dataset's plots once every signal was seen. */
  ghost function AllLegends(signals: seq<Signal>, datasets: set<nat>): (m: map<nat, seq<LegendEntry>>)
    ensures m.Keys == datasets && forall ds :: ds in datasets ==> m[ds] == PlotLegend(signals, ds, |signals|)
  {
    map ds | ds in datasets :: PlotLegend(signals, ds, |signals|)
  }

  /** The data pass after the signal loop: it succeeds exactly when every
      dataset had a signal with a non-zero expected count (or there is no
      observable), and then every plot has its signal clones, its fit and
      its data. */
  method FinishAll(plots: map<nat, seq<SpectralPlot>>, totals: DatasetTotals,
                   signals: seq<Signal>, norms: seq<nat>, models: seq<Hist>, params: seq<real>,
                   nobs: nat, datasets: set<nat>, data: seq<real>) returns (ok: bool)
    requires Ready(signals, norms, models, |params|, nobs, datasets)
    requires |signals| == 0 || 1 <= nobs <= 3
    requires SlotsAt(totals.marginal, totals.observables, signals, norms, models, params, nobs, datasets, |signals|)
    requires PlotsAt(plots, signals, norms, models, params, nobs, datasets, |signals|)
    modifies AllPlots(plots)
    ensures ok <==> nobs == 0 || forall ds :: ds in datasets ==> HasYield(signals, norms, models, params, ds, |signals|)
    ensures ok ==> forall ds, j :: ds in datasets && 0 <= j < nobs ==>
              Finished(plots[ds][j], PlotClones(plots[ds][j], signals, norms, models, params, nobs, datasets, ds, j, |signals|),
                       PlotLegend(signals, ds, |signals|), totals.marginal[ds][j], data, nobs, ds, j)
  {
    FinishReady(plots, totals.marginal, totals.observables, signals, norms, models, params, nobs, datasets);
    InAllPlots(plots);
    ok := FinishPlots(plots, totals.marginal, data, nobs, datasets,
                      AllClones(plots, signals, norms, models, params, nobs, datasets), AllLegends(signals, datasets),
                      Yielding(signals, norms, models, params, datasets), AllPlots(plots));
    assert unchanged(totals);
  }

  /** The datasets with a signal of non-zero expected count. */
  ghost function Yielding(signals: seq<Signal>, norms: seq<nat>, models: seq<Hist>, params: seq<real>,
                          datasets: set<nat>): (r: set<nat>)
    requires Scalable(signals, norms, models, |params|)
    ensures forall ds :: ds in r <==> ds in datasets && HasYield(signals, norms, models, params, ds, |signals|)
  {
    set ds | ds in datasets && HasYield(signals, norms, models, params, ds, |signals|)
  }

  /** After the signal loop, the plots and totals are as the data pass
      needs them: each plot holds its signal clones, and a dataset with
      some yield has a total for every observable. */
  lemma FinishReady(plots: map<nat, seq<SpectralPlot>>, marginal: map<nat, seq<Option<Curve>>>, names: seq<string>,
                    signals: seq<Signal>, norms: seq<nat>, models: seq<Hist>, params: seq<real>,
                    nobs: nat, datasets: set<nat>)
    requires Ready(signals, norms, models, |params|, nobs, datasets) && (|signals| == 0 || 1 <= nobs <= 3)
    requires SlotsAt(marginal, names, signals, norms, models, params, nobs, datasets, |signals|)
    requires PlotsAt(plots, signals, norms, models, params, nobs, datasets, |signals|)
    ensures var clones := AllClones(plots, signals, norms, models, params, nobs, datasets);
            var legend, drawn := AllLegends(signals, datasets), Yielding(signals, norms, models, params, datasets);
            && marginal.Keys == datasets && (forall ds :: ds in datasets ==> |marginal[ds]| == nobs)
            && (forall ds, j :: ds in datasets && 0 <= j < nobs ==> Holds(plots[ds][j], clones[ds][j], legend[ds], ds in drawn))
            && (forall ds, j :: ds in drawn && ds in datasets && 0 <= j < nobs ==> marginal[ds][j].Some?)
  {
    FitsPresent(marginal, names, signals, norms, models, params, nobs, datasets);
  }

  // ---------------------------------------------------------------------------
  // plot_fit

  /** One pass of the signal loop, taking the state after the first i
      signals to the state after the first i + 1. */
  method StepSignal(plots: map<nat, seq<SpectralPlot>>, totals: DatasetTotals,
                    signals: seq<Signal>, norms: seq<nat>, models: seq<Hist>, params: seq<real>,
                    nobs: nat, datasets: set<nat>, i: nat) returns (ok: bool)
    requires Ready(signals, norms, models, |params|, nobs, datasets) && i < |signals|
    requires (i == 0 || 1 <= nobs <= 3) && |totals.observables| == nobs
    requires FullAt(totals.full, signals, norms, models, params, datasets, i)
    requires SlotsAt(totals.marginal, totals.observables, signals, norms, models, params, nobs, datasets, i)
    requires PlotsAt(plots, signals, norms, models, params, nobs, datasets, i)
    modifies totals, AllPlots(plots)
    ensures ok <==> 1 <= nobs <= 3
    ensures ok ==> FullAt(totals.full, signals, norms, models, params, datasets, i + 1)
    ensures ok ==> SlotsAt(totals.marginal, totals.observables, signals, norms, models, params, nobs, datasets, i + 1)
    ensures ok ==> PlotsAt(plots, signals, norms, models, params, nobs, datasets, i + 1)
  {
    FullStep(totals.full, signals, norms, models, params, nobs, datasets, i);
    if 1 <= nobs <= 3 {
      SlotsStep(totals.marginal, totals.observables, signals, norms, models, params, nobs, datasets, i,
                Color(i, |signals|, |datasets|), Style(i, |signals|, |datasets|));
    }
    ok := FeedSignal(plots, totals, signals, norms, models, params, nobs, datasets, i);
  }

  /** The signal loop: every signal in turn, stopping at the first model
      that cannot be projected. */
  method RunSignals(plots: map<nat, seq<SpectralPlot>>, totals: DatasetTotals,
                    signals: seq<Signal>, norms: seq<nat>, models: seq<Hist>, params: seq<real>,
                    nobs: nat, datasets: set<nat>) returns (ok: bool)
    requires Ready(signals, norms, models, |params|, nobs, datasets) && |totals.observables| == nobs
    requires FullAt(totals.full, signals, norms, models, params, datasets, 0)
    requires SlotsAt(totals.marginal, totals.observables, signals, norms, models, params, nobs, datasets, 0)
    requires PlotsAt(plots, signals, norms, models, params, nobs, datasets, 0)
    modifies totals, AllPlots(plots)
    ensures ok <==> |signals| == 0 || 1 <= nobs <= 3
    ensures ok ==> FullAt(totals.full, signals, norms, models, params, datasets, |signals|)
    ensures ok ==> SlotsAt(totals.marginal, totals.observables, signals, norms, models, params, nobs, datasets, |signals|)
    ensures ok ==> PlotsAt(plots, signals, norms, models, params, nobs, datasets, |signals|)
  {
    for i := 0 to |signals|
      invariant i == 0 || 1 <= nobs <= 3
      invariant FullAt(totals.full, signals, norms, models, params, datasets, i)
      invariant SlotsAt(totals.marginal, totals.observables, signals, norms, models, params, nobs, datasets, i)
      invariant PlotsAt(plots, signals, norms, models, params, nobs, datasets, i)
    {
      ok := StepSignal(plots, totals, signals, norms, models, params, nobs, datasets, i);
      if !ok {
        return;
      }
    }
    ok := true;
  }

  /** Before the signal loop: a blank plot for every dataset and observable,
      empty totals, and the parameters read from the best fit. */
  method Setup(bestFit: map<string, real>, dflt: real, sources: seq<Source>,
               signals: seq<Signal>, norms: seq<nat>, models: seq<Hist>, systs: seq<Systematic>,
               observables: seq<Observable>, datasets: set<nat>, ytitles: seq<string>)
    returns (plots: map<nat, seq<SpectralPlot>>, totals: DatasetTotals, params: seq<real>)
    requires |ytitles| == |observables| && |sources| + TotalPars(systs) <= |bestFit|
    requires Ready(signals, norms, models, |bestFit|, |observables|, datasets)
    ensures Assembled(params, bestFit, sources, systs, dflt)
    ensures fresh(totals) && forall p :: p in AllPlots(plots) ==> fresh(p)
    ensures PlotsAt(plots, signals, norms, models, params, |observables|, datasets, 0)
    ensures forall ds, j :: ds in datasets && 0 <= j < |observables| ==>
              Configured(plots[ds][j], observables[j], ytitles[j])
    ensures totals.observables == ObservableNames(observables)
    ensures FullAt(totals.full, signals, norms, models, params, datasets, 0)
    ensures SlotsAt(totals.marginal, totals.observables, signals, norms, models, params, |observables|, datasets, 0)
  {
    var names := ObservableNames(observables);
    totals := new DatasetTotals(datasets, names);
    plots := MakePlots(datasets, observables, ytitles);
    params := BuildParams(bestFit, sources, systs, dflt);
    TotalsInit(names, signals, norms, models, params, |observables|, datasets);
    PlotsInit(plots, signals, norms, models, params, observables, datasets, ytitles);
  }

  /** The whole of plot_fit, minus drawing and files: set up the plots, read
      the parameters from the best fit, run every signal through the totals
      and the plots, then add each plot's fit and data. It fails when a model
      has no projection (not one to three observables) or when some plot has
      nothing drawn for its data histogram to be made like. */
  method PlotFit(bestFit: map<string, real>, dflt: real, sources: seq<Source>,
                 signals: seq<Signal>, norms: seq<nat>, models: seq<Hist>, systs: seq<Systematic>,
                 observables: seq<Observable>, datasets: set<nat>, data: seq<real>, ytitles: seq<string>)
    returns (r: Outcome, params: seq<real>, plots: map<nat, seq<SpectralPlot>>, totals: DatasetTotals)
    requires |ytitles| == |observables| && |sources| + TotalPars(systs) <= |bestFit|
    requires Ready(signals, norms, models, |bestFit|, |observables|, datasets)
    ensures Assembled(params, bestFit, sources, systs, dflt)
    ensures r.Done? <==> (|signals| == 0 || 1 <= |observables| <= 3)
                         && (|observables| == 0 || forall ds :: ds in datasets ==> HasYield(signals, norms, models, params, ds, |signals|))
    ensures r.Done? ==> plots.Keys == datasets && Distinct(plots)
    ensures r.Done? ==> forall ds :: ds in datasets ==> |plots[ds]| == |observables|
    ensures r.Done? ==> forall ds, j :: ds in datasets && 0 <= j < |observables| ==>
                          Configured(plots[ds][j], observables[j], ytitles[j])
    ensures r.Done? ==> totals.observables == ObservableNames(observables)
    ensures r.Done? ==> FullAt(totals.full, signals, norms, models, params, datasets, |signals|)
    ensures r.Done? ==> SlotsAt(totals.marginal, totals.observables, signals, norms, models, params,
                                |observables|, datasets, |signals|)
    ensures r.Done? ==> forall ds, j :: ds in datasets && 0 <= j < |observables| ==>
                          Finished(plots[ds][j],
                                   PlotClones(plots[ds][j], signals, norms, models, params, |observables|, datasets, ds, j, |signals|),
                                   PlotLegend(signals, ds, |signals|), totals.marginal[ds][j], data, |observables|, ds, j)
  {
    var nobs := |observables|;
    plots, totals, params := Setup(bestFit, dflt, sources, signals, norms, models, systs, observables, datasets, ytitles);
    var ok := RunSignals(plots, totals, signals, norms, models, params, nobs, datasets);
    if !ok {
      r := Failed("SpectralPlot::plot_fit: Can't create projection in >3 observable dimensions.");
      return;
    }
    ok := FinishAll(plots, totals, signals, norms, models, params, nobs, datasets, data);
    r := if ok then Done else Failed("a plot has no curve to make the data histogram like");
  }
}
