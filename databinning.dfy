/** The data histograms of plot_fit: the flat `data` array holds records of
    one value per observable followed by a dataset id; for a dataset and an
    observable, every whole record of that dataset fills its observable value
    into a histogram made like the plot's first curve. */
module DataBinning {
  import opened Histograms
  import opened Plots
  import Palette

  /** `unsigned dds = data[...]`: the float-to-unsigned conversion truncates
      toward zero. A negative result never equals a dataset id. */
  function DatasetId(v: real): int
  {
    if v >= 0.0 then v.Floor else -((-v).Floor)
  }

  /** DatasetId truncates toward zero: it is the integer nearest zero that
      lies within one of v, on zero's side of it. */
  lemma DatasetIdTruncates(v: real)
    ensures 0.0 <= v ==> 0 <= DatasetId(v) && DatasetId(v) as real <= v < DatasetId(v) as real + 1.0
    ensures v < 0.0 ==> DatasetId(v) <= 0 && DatasetId(v) as real - 1.0 < v <= DatasetId(v) as real
  {
  }

  /** `data.size() / (n + 1)`: the number of whole records. */
  function NumRecords(data: seq<real>, nobs: nat): nat
  {
    |data| / (nobs + 1)
  }

  lemma FieldInBounds(data: seq<real>, nobs: nat, r: nat, i: nat)
    requires r < NumRecords(data, nobs) && i <= nobs
    ensures r * (nobs + 1) + i < |data|
  {
    var w := nobs + 1;
    assert (r + 1) * w <= NumRecords(data, nobs) * w;
    assert NumRecords(data, nobs) * w <= |data|;
  }

  /** Field i of record r. */
  function Field(data: seq<real>, nobs: nat, r: nat, i: nat): real
    requires r < NumRecords(data, nobs) && i <= nobs
  {
    FieldInBounds(data, nobs, r, i);
    data[r * (nobs + 1) + i]
  }

  /** The dataset id of record r: its last field. */
  function RecordDataset(data: seq<real>, nobs: nat, r: nat): int
    requires r < NumRecords(data, nobs)
  {
    DatasetId(Field(data, nobs, r, nobs))
  }

  /** The records among the first `count` that belong to dataset ds, in
      increasing order. */
  function Matching(data: seq<real>, nobs: nat, ds: nat, count: nat): (rs: seq<nat>)
    requires count <= NumRecords(data, nobs)
    ensures forall k :: 0 <= k < |rs| ==> rs[k] < count
    ensures forall a, b :: 0 <= a < b < |rs| ==> rs[a] < rs[b]
  {
    if count == 0 then []
    else
      var rs := Matching(data, nobs, ds, count - 1);
      if RecordDataset(data, nobs, count - 1) == ds then rs + [count - 1] else rs
  }

  /** Field i of each record of dataset ds among the first `count`
      (SelectedFields states what it holds). */
  function Selected(data: seq<real>, nobs: nat, ds: nat, i: nat, count: nat): seq<real>
    requires i < nobs && count <= NumRecords(data, nobs)
  {
    if count == 0 then []
    else
      var xs := Selected(data, nobs, ds, i, count - 1);
      if RecordDataset(data, nobs, count - 1) == ds then xs + [Field(data, nobs, count - 1, i)] else xs
  }

  /** A record is selected exactly when it is a whole record of dataset ds. */
  lemma {:induction false} MatchingMembers(data: seq<real>, nobs: nat, ds: nat, count: nat, r: nat)
    requires count <= NumRecords(data, nobs)
    ensures r in Matching(data, nobs, ds, count) <==> r < count && RecordDataset(data, nobs, r) == ds
  {
    if count > 0 {
      MatchingMembers(data, nobs, ds, count - 1, r);
    }
  }

  /** The values filled are the observable's fields of the matching records,
      one per record, in record order. */
  lemma {:induction false} SelectedFields(data: seq<real>, nobs: nat, ds: nat, i: nat, count: nat)
    requires i < nobs && count <= NumRecords(data, nobs)
    ensures |Selected(data, nobs, ds, i, count)| == |Matching(data, nobs, ds, count)|
    ensures forall k :: 0 <= k < |Matching(data, nobs, ds, count)| ==>
              Selected(data, nobs, ds, i, count)[k] == Field(data, nobs, Matching(data, nobs, ds, count)[k], i)
  {
    if count > 0 {
      SelectedFields(data, nobs, ds, i, count - 1);
    }
  }

  /** Records of different datasets are never selected together. */
  lemma NoLeakage(data: seq<real>, nobs: nat, ds: nat, ds': nat, r: nat)
    requires ds != ds'
    ensures !(r in Matching(data, nobs, ds, NumRecords(data, nobs)) && r in Matching(data, nobs, ds', NumRecords(data, nobs)))
  {
    MatchingMembers(data, nobs, ds, NumRecords(data, nobs), r);
    MatchingMembers(data, nobs, ds', NumRecords(data, nobs), r);
  }

  /** The number of values that fall inside the axis range. */
  function InRange(a: Axis, xs: seq<real>): (n: nat)
    ensures n <= |xs|
  {
    if xs == [] then 0
    else InRange(a, xs[..|xs| - 1]) + (if FindBin(a, xs[|xs| - 1]).Some? then 1 else 0)
  }

  /** The number of values that fall into bin b. */
  function BinCount(a: Axis, xs: seq<real>, b: nat): nat
  {
    if xs == [] then 0
    else BinCount(a, xs[..|xs| - 1], b) + (if FindBin(a, xs[|xs| - 1]) == Some(b) then 1 else 0)
  }

  /** Fill each value in turn: bin b gains one per value falling into it. */
  function FillAll(h: Hist, xs: seq<real>): (r: Hist)
    requires Valid(h) && Dim(h) == 1
    ensures Valid(r) && SameBinning(r, h)
    ensures r.entries == h.entries + |xs|
    ensures Integral(r) == Integral(h) + InRange(h.axes[0], xs) as real
    ensures forall b :: 0 <= b < |h.contents| ==> r.contents[b] == h.contents[b] + BinCount(h.axes[0], xs, b) as real
  {
    if xs == [] then h
    else Fill(FillAll(h, xs[..|xs| - 1]), xs[|xs| - 1])
  }

  /** The data histogram of dataset ds and observable i: made like the
      template, drawn in black, holding the fills of the matching records. */
  function DataCurve(template: Curve, data: seq<real>, nobs: nat, ds: nat, i: nat): Curve
    requires Valid(template.hist) && Dim(template.hist) == 1 && i < nobs
  {
    MakeLike(template, "hdata").(lineColor := Palette.KBlack, lineStyle := 1,
                                 hist := FillAll(Reset(template.hist), Selected(data, nobs, ds, i, NumRecords(data, nobs))))
  }

  /** The data histogram is "hdata", in black solid line, with the
      template's binning and one entry per whole record of the dataset; bin
      b counts the selected values that fall into it, and its integral
      counts those inside the axis range. */
  lemma DataCurveBins(template: Curve, data: seq<real>, nobs: nat, ds: nat, i: nat)
    requires Valid(template.hist) && Dim(template.hist) == 1 && i < nobs
    ensures var c := DataCurve(template, data, nobs, ds, i);
            && c.name == "hdata" && c.lineColor == Palette.KBlack && c.lineStyle == 1
            && Valid(c.hist) && SameBinning(c.hist, template.hist)
            && c.hist.entries == |Matching(data, nobs, ds, NumRecords(data, nobs))|
    ensures var c, xs := DataCurve(template, data, nobs, ds, i), Selected(data, nobs, ds, i, NumRecords(data, nobs));
            && Integral(c.hist) == InRange(template.hist.axes[0], xs) as real
            && forall b :: 0 <= b < |c.hist.contents| ==> c.hist.contents[b] == BinCount(template.hist.axes[0], xs, b) as real
  {
    SelectedFields(data, nobs, ds, i, NumRecords(data, nobs));
    var h := Reset(template.hist);
    assert h.axes == template.hist.axes;
  }

  /** The scanning loop for dataset ds and observable i: the result has the
      template's binning, one entry per whole record of ds, and holds exactly
      the fills of those records' i-th fields. */
  method BinData(template: Curve, data: seq<real>, nobs: nat, ds: nat, i: nat) returns (hdata: Curve)
    requires Valid(template.hist) && Dim(template.hist) == 1 && i < nobs
    ensures SameBinning(hdata.hist, template.hist)
    ensures hdata.hist == FillAll(Reset(template.hist), Selected(data, nobs, ds, i, NumRecords(data, nobs)))
    ensures hdata.hist.entries == |Matching(data, nobs, ds, NumRecords(data, nobs))|
    ensures hdata.name == "hdata" && hdata.lineColor == Palette.KBlack && hdata.lineStyle == 1
    ensures hdata == DataCurve(template, data, nobs, ds, i)
  {
    hdata := MakeLike(template, "hdata");
    hdata := hdata.(lineColor := Palette.KBlack, lineStyle := 1);
    var idata := 0;
    while idata < |data| / (nobs + 1)
      invariant idata <= NumRecords(data, nobs)
      invariant hdata == MakeLike(template, "hdata").(lineColor := Palette.KBlack, lineStyle := 1,
                           hist := FillAll(Reset(template.hist), Selected(data, nobs, ds, i, idata)))
    {
      FieldInBounds(data, nobs, idata, nobs);
      var dds := DatasetId(data[idata * (nobs + 1) + nobs]);
      if dds == ds {
        FieldInBounds(data, nobs, idata, i);
        hdata := hdata.(hist := Fill(hdata.hist, data[idata * (nobs + 1) + i]));
      }
      idata := idata + 1;
    }
    SelectedFields(data, nobs, ds, i, NumRecords(data, nobs));
  }
}
