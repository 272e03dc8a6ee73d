/** The per-dataset running totals of plot_fit: `all_totals_nd` (the
    full-dimensional sum of every scaled signal histogram of a dataset) and
    `all_totals` (per observable, the "total fit" curve). Both are created
    lazily by cloning the first contribution; afterwards the full-dimensional
    total adds every contribution, while an observable's total adds a marginal
    only if its integral is positive. */
module Totals {
  import opened Histograms
  import opened Plots
  import Palette
  import Parameters

  // ---------------------------------------------------------------------------
  // Specification: what a total is, given everything contributed so far

  predicate SameBinningAll(hs: seq<Hist>)
  {
    forall k :: 0 <= k < |hs| ==> SameBinning(hs[k], hs[0])
  }

  /** The first histogram plus every later one. */
  function TotalOf(hs: seq<Hist>): (r: Hist)
    requires |hs| > 0 && SameBinningAll(hs)
    ensures SameBinning(r, hs[0])
  {
    if |hs| == 1 then hs[0]
    else Add(TotalOf(hs[..|hs| - 1]), hs[|hs| - 1])
  }

  /** The first histogram plus every later one whose integral is positive. */
  function PositiveTotal(hs: seq<Hist>): (r: Hist)
    requires |hs| > 0 && SameBinningAll(hs)
    ensures SameBinning(r, hs[0])
  {
    if |hs| == 1 then hs[0]
    else
      var t := PositiveTotal(hs[..|hs| - 1]);
      if Integral(hs[|hs| - 1]) > 0.0 then Add(t, hs[|hs| - 1]) else t
  }

  function SumIntegrals(hs: seq<Hist>): real
  {
    if hs == [] then 0.0 else SumIntegrals(hs[..|hs| - 1]) + Integral(hs[|hs| - 1])
  }

  /** The sum of the positive integrals. */
  function SumPositive(hs: seq<Hist>): real
  {
    if hs == [] then 0.0
    else
      var last := Integral(hs[|hs| - 1]);
      SumPositive(hs[..|hs| - 1]) + (if last > 0.0 then last else 0.0)
  }

  lemma SameBinningPrefix(hs: seq<Hist>, n: nat)
    requires 0 < n <= |hs| && SameBinningAll(hs)
    ensures SameBinningAll(hs[..n])
  {
  }

  /** The full-dimensional total's integral is the sum of all contributions'. */
  lemma {:induction false} TotalOfIntegral(hs: seq<Hist>)
    requires |hs| > 0 && SameBinningAll(hs)
    ensures Integral(TotalOf(hs)) == SumIntegrals(hs)
  {
    if |hs| == 1 {
      assert hs[..0] == [];
    } else {
      SameBinningPrefix(hs, |hs| - 1);
      TotalOfIntegral(hs[..|hs| - 1]);
    }
  }

  /** An observable's total integrates to the first marginal's integral plus
      the positive integrals of the later ones. */
  lemma {:induction false} PositiveTotalIntegral(hs: seq<Hist>)
    requires |hs| > 0 && SameBinningAll(hs)
    ensures Integral(PositiveTotal(hs)) == Integral(hs[0]) + SumPositive(hs[1..])
  {
    if |hs| == 1 {
      assert hs[1..] == [];
    } else {
      var init := hs[..|hs| - 1];
      SameBinningPrefix(hs, |hs| - 1);
      PositiveTotalIntegral(init);
      assert init[1..] == hs[1..][..|hs[1..]| - 1];
    }
  }

  /** When every later marginal is non-negative, skipping the non-positive
      ones changes nothing: the observable's total equals the plain total. */
  lemma {:induction false} PositiveTotalOfNonNegative(hs: seq<Hist>)
    requires |hs| > 0 && SameBinningAll(hs)
    requires forall k :: 1 <= k < |hs| ==> forall i :: 0 <= i < |hs[k].contents| ==> hs[k].contents[i] >= 0.0
    ensures PositiveTotal(hs).contents == TotalOf(hs).contents
  {
    if |hs| > 1 {
      var init, last := hs[..|hs| - 1], hs[|hs| - 1];
      SameBinningPrefix(hs, |hs| - 1);
      PositiveTotalOfNonNegative(init);
      if Integral(last) <= 0.0 {
        AllZero(last);
      }
    }
  }

  /** A histogram with non-negative bins and a non-positive integral is empty. */
  lemma AllZero(h: Hist)
    requires forall i :: 0 <= i < |h.contents| ==> h.contents[i] >= 0.0
    requires Integral(h) <= 0.0
    ensures forall i :: 0 <= i < |h.contents| ==> h.contents[i] == 0.0
  {
    forall i | 0 <= i < |h.contents|
      ensures h.contents[i] == 0.0
    {
      NonNegSum(h.contents, i);
    }
  }

  lemma {:induction false} NonNegSum(s: seq<real>, i: nat)
    requires forall k :: 0 <= k < |s| ==> s[k] >= 0.0
    requires i < |s|
    ensures 0.0 <= s[i] <= Sum(s)
  {
    if i > 0 {
      NonNegSum(s[1..], i - 1);
    } else if |s| > 1 {
      NonNegSum(s[1..], 0);
    }
  }

  // ---------------------------------------------------------------------------
  // The running totals

  /** The clone of a dataset's first marginal that starts its total curve. */
  function TotalCurve(m: Curve, ds: nat, obsName: string): (r: Curve)
    ensures r.hist == m.hist && r.lineColor == Palette.KMagenta && r.lineStyle == 1
  {
    m.(name := "htotal_" + Parameters.Decimal(ds) + obsName,
       lineColor := Palette.KMagenta, lineStyle := 1)
  }

  /** The full-dimensional total of a dataset after one more contribution:
      a clone of the first one, afterwards bin-wise addition. */
  function NextFull(full: map<nat, Hist>, ds: nat, h: Hist): (r: map<nat, Hist>)
    requires ds in full ==> SameBinning(h, full[ds])
    ensures r.Keys == full.Keys + {ds} && SameBinning(r[ds], h)
    ensures forall ds' :: ds' in full && ds' != ds ==> r[ds'] == full[ds']
  {
    full[ds := if ds in full then Add(full[ds], h) else h]
  }

  /** An observable's total after one more marginal: the first is cloned and
      restyled whatever its integral; a later one is added only if its
      integral is positive. */
  function NextSlot(slot: Option<Curve>, m: Curve, ds: nat, obsName: string): (r: Option<Curve>)
    requires slot.Some? ==> SameBinning(m.hist, slot.value.hist)
    ensures r.Some? && SameBinning(r.value.hist, m.hist)
  {
    if slot.None? then Some(TotalCurve(m, ds, obsName))
    else if Integral(m.hist) > 0.0 then Some(slot.value.(hist := Add(slot.value.hist, m.hist)))
    else slot
  }

  /** The full totals after contributions hs to dataset ds: absent before the
      first, then the sum of all of them. */
  lemma NextFullTotal(full: map<nat, Hist>, ds: nat, hs: seq<Hist>, h: Hist)
    requires SameBinningAll(hs) && SameBinningAll(hs + [h]) && (hs != [] ==> SameBinning(h, hs[0]))
    requires ds in full <==> hs != []
    requires ds in full ==> full[ds] == TotalOf(hs)
    ensures NextFull(full, ds, h)[ds] == TotalOf(hs + [h])
  {
    var all := hs + [h];
    if hs == [] {
      assert all == [h];
    } else {
      assert all[..|all| - 1] == hs;
      SameBinningPrefix(all, |hs|);
    }
  }

  /** A running total of observable curves: the clone of the first curve,
      named after the dataset and the observable and drawn in magenta, holding
      the first marginal plus every later one with a positive integral. */
  lemma NextSlotTotal(slot: Option<Curve>, first: Curve, hs: seq<Hist>, m: Curve, ds: nat, obsName: string)
    requires SameBinningAll(hs) && SameBinningAll(hs + [m.hist]) && (hs != [] ==> SameBinning(m.hist, hs[0]))
    requires slot.None? <==> hs == []
    requires hs == [] ==> first == m
    requires slot.Some? ==> slot == Some(TotalCurve(first, ds, obsName).(hist := PositiveTotal(hs)))
    ensures NextSlot(slot, m, ds, obsName) == Some(TotalCurve(first, ds, obsName).(hist := PositiveTotal(hs + [m.hist])))
  {
    var all := hs + [m.hist];
    if hs == [] {
      assert all == [m.hist];
    } else {
      assert all[..|all| - 1] == hs;
      SameBinningPrefix(all, |hs|);
    }
  }

  class DatasetTotals {
    /** The observable names, in axis order. */
    const observables: seq<string>
    /** all_totals_nd: a dataset has an entry once something was contributed. */
    var full: map<nat, Hist>
    /** all_totals: one slot per observable for each dataset, None until the
        first contribution. */
    var marginal: map<nat, seq<Option<Curve>>>

    /** One empty slot per observable for every dataset; no full totals. */
    constructor (datasets: set<nat>, observables: seq<string>)
      ensures this.observables == observables && full == map[]
      ensures marginal == map ds | ds in datasets :: seq(|observables|, _ => None)
    {
      this.observables := observables;
      full := map[];
      marginal := map ds | ds in datasets :: seq(|observables|, _ => None);
    }

    /** `all_totals_nd[ds]`: clone the first contribution, then `Add`. */
    method AddFull(ds: nat, h: Hist)
      requires ds in full ==> SameBinning(h, full[ds])
      modifies this
      ensures full == NextFull(old(full), ds, h) && marginal == old(marginal)
    {
      if ds !in full {
        full := full[ds := h];
      } else {
        full := full[ds := Add(full[ds], h)];
      }
    }

    /** `all_totals[ds][j]`: clone and restyle the first marginal, then add
        the later ones whose integral is positive. */
    method AddMarginal(ds: nat, j: nat, m: Curve)
      requires ds in marginal && j < |marginal[ds]| && j < |observables|
      requires marginal[ds][j].Some? ==> SameBinning(m.hist, marginal[ds][j].value.hist)
      modifies this
      ensures marginal == old(marginal)[ds := old(marginal)[ds][j := NextSlot(old(marginal)[ds][j], m, ds, observables[j])]]
      ensures full == old(full)
    {
      var slots := marginal[ds];
      if slots[j].None? {
        var total := TotalCurve(m, ds, observables[j]);
        slots := slots[j := Some(total)];
      } else if Integral(m.hist) > 0.0 {
        slots := slots[j := Some(slots[j].value.(hist := Add(slots[j].value.hist, m.hist)))];
      } else {
        assert slots == slots[j := slots[j]];
      }
      marginal := marginal[ds := slots];
    }
  }
}
