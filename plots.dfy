/** SpectralPlot: an overlay of histograms built one `add` at a time, with a
    legend and a canvas. The canvas is modelled as the log of what was drawn
    on it, together with the axis ranges configured on the drawn curve. */
module Plots {
  import opened Histograms

  /** A ROOT histogram object: its numbers plus the attributes this core sets. */
  datatype Curve = Curve(name: string, hist: Hist, lineColor: int, lineStyle: int,
                         lineWidth: int, title: string, xtitle: string, ytitle: string)

  /** An axis range set with SetAxisRange, or none (automatic). */
  datatype Range = Auto | Range(lo: real, hi: real)

  /** TLegend::AddEntry(object, text), the object given by its name. */
  datatype LegendEntry = LegendEntry(objName: string, text: string)

  /** One DrawClone on the canvas. */
  datatype DrawOp = DrawOp(curve: Curve, options: string, xrange: Range, yrange: Range)

  /** The curves whose integral is non-zero, in order. */
  function NonEmpty(cs: seq<Curve>): (r: seq<Curve>)
    ensures |r| <= |cs|
    ensures forall k :: 0 <= k < |r| ==> Integral(r[k].hist) != 0.0 && r[k] in cs
  {
    if cs == [] then []
    else
      var rest := NonEmpty(cs[..|cs| - 1]);
      var last := cs[|cs| - 1];
      if Integral(last.hist) == 0.0 then rest else rest + [last]
  }

  lemma NonEmptySnoc(cs: seq<Curve>, c: Curve)
    ensures NonEmpty(cs + [c]) == if Integral(c.hist) == 0.0 then NonEmpty(cs) else NonEmpty(cs) + [c]
  {
    assert (cs + [c])[..|cs|] == cs;
  }

  /** A curve is kept exactly when it was added and is not empty. */
  lemma {:induction false} NonEmptyMembers(cs: seq<Curve>, c: Curve)
    ensures c in NonEmpty(cs) <==> c in cs && Integral(c.hist) != 0.0
  {
    if cs != [] {
      var init := cs[..|cs| - 1];
      NonEmptyMembers(init, c);
      assert cs == init + [cs[|cs| - 1]];
    }
  }

  /** `make_like`: a clone of h under a new name, reset to empty. */
  function MakeLike(h: Curve, name: string): (r: Curve)
    ensures r.name == name && SameBinning(r.hist, h.hist)
    ensures forall k :: 0 <= k < |r.hist.contents| ==> r.hist.contents[k] == 0.0
    ensures r.hist.entries == 0 && Integral(r.hist) == 0.0
    ensures r.lineColor == h.lineColor && r.lineStyle == h.lineStyle && r.lineWidth == h.lineWidth
  {
    h.(name := name, hist := Reset(h.hist))
  }

  class SpectralPlot {
    const lineWidth: int
    const xmin: real
    const xmax: real
    const ymin: real
    const ymax: real
    const logy: bool
    const title: string
    const xtitle: string
    const ytitle: string

    /** The curves drawn, i.e. the non-empty clones, in order. */
    var histograms: seq<Curve>
    var legend: seq<LegendEntry>
    var canvas: seq<DrawOp>
    /** Every clone `add` has made, in order. */
    ghost var clones: seq<Curve>

    /** The y-range the first curve gets: (-1, -1) means automatic. */
    function YRange(): Range
    {
      if ymin == -1.0 && ymax == -1.0 then Auto else Range(ymin, ymax)
    }

    /** The clone `add` makes of h: renamed "__<objname>", with the plot's
        line width and titles. */
    function Styled(h: Curve, objname: string): (c: Curve)
    {
      h.(name := "__" + objname, lineWidth := lineWidth, title := title,
         xtitle := xtitle, ytitle := ytitle)
    }

    ghost predicate Valid()
      reads this
    {
      && |legend| == |clones|
      && (forall k :: 0 <= k < |clones| ==> legend[k].objName == clones[k].name)
      && histograms == NonEmpty(clones)
      && |canvas| == |histograms|
      && (forall k :: 0 <= k < |canvas| ==> canvas[k].curve == histograms[k])
      && (|canvas| > 0 ==> canvas[0].xrange == Range(xmin, xmax) && canvas[0].yrange == YRange())
      && (forall k :: 0 < k < |canvas| ==>
            canvas[k].xrange == Auto && canvas[k].yrange == Auto && "same " <= canvas[k].options)
    }

    constructor (lineWidth: int, xmin: real, xmax: real, ymin: real, ymax: real, logy: bool,
                 title: string, xtitle: string, ytitle: string)
      ensures Valid()
      ensures this.lineWidth == lineWidth && this.xmin == xmin && this.xmax == xmax
      ensures this.ymin == ymin && this.ymax == ymax && this.logy == logy
      ensures this.title == title && this.xtitle == xtitle && this.ytitle == ytitle
      ensures histograms == [] && legend == [] && canvas == [] && clones == []
    {
      this.lineWidth, this.xmin, this.xmax, this.ymin, this.ymax := lineWidth, xmin, xmax, ymin, ymax;
      this.logy, this.title, this.xtitle, this.ytitle := logy, title, xtitle, ytitle;
      histograms, legend, canvas, clones := [], [], [], [];
    }

    /** `SpectralPlot::add`: the clone always gets a legend entry; it is drawn
        only if its integral is non-zero, as the base curve with the
        configured axis ranges when it is the first, otherwise "same". */
    method Add(h: Curve, objname: string, text: string, options: string)
      modifies this
      ensures old(Valid()) ==> Valid()
      ensures clones == old(clones) + [Styled(h, objname)]
      ensures legend == old(legend) + [LegendEntry("__" + objname, text)]
      ensures Integral(h.hist) == 0.0 ==> histograms == old(histograms) && canvas == old(canvas)
      ensures Integral(h.hist) != 0.0 ==> histograms == old(histograms) + [Styled(h, objname)]
      ensures Integral(h.hist) != 0.0 && old(histograms) == [] ==>
                canvas == old(canvas) + [DrawOp(Styled(h, objname), options, Range(xmin, xmax), YRange())]
      ensures Integral(h.hist) != 0.0 && old(histograms) != [] ==>
                canvas == old(canvas) + [DrawOp(Styled(h, objname), "same " + options, Auto, Auto)]
    {
      var c := Styled(h, objname);
      var yrange := YRange();
      legend := legend + [LegendEntry(c.name, text)];
      NonEmptySnoc(clones, c);
      clones := clones + [c];
      if Integral(c.hist) == 0.0 {
        return;
      }
      histograms := histograms + [c];
      if |histograms| == 1 {
        canvas := canvas + [DrawOp(c, options, Range(xmin, xmax), yrange)];
      } else {
        canvas := canvas + [DrawOp(c, "same " + options, Auto, Auto)];
      }
    }
  }
}
