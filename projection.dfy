/** Projection of a full-dimensional model histogram onto each observable
    axis (ROOT's ProjectionX/Y/Z), as used by plot_fit. With the flat layout of
    module Histograms, the marginal on axis j is computed in two steps: sum
    each run of `below` consecutive cells (the axes before j), then add up
    the resulting blocks of `nj` sums bin-wise (the axes after j). */
module Projection {
  import opened Histograms

  // ---------------------------------------------------------------------------
  // Arithmetic on block layouts

  lemma MulStep(w: nat, n: nat)
    requires n > 0
    ensures w <= w * n && w * n - w == w * (n - 1)
  {
    assert w * n == w + w * (n - 1);
  }

  lemma {:induction false} CellCountAppend(a: seq<Axis>, b: seq<Axis>)
    ensures CellCount(a + b) == CellCount(a) * CellCount(b)
  {
    if a == [] {
      assert a + b == b;
    } else {
      assert (a + b)[1..] == a[1..] + b;
      CellCountAppend(a[1..], b);
      var x, y, z := a[0].nbins, CellCount(a[1..]), CellCount(b);
      assert x * (y * z) == (x * y) * z;
    }
  }

  /** The cells of a histogram split as (axes before j) x (axis j) x (axes after j). */
  lemma CellCountAround(axes: seq<Axis>, j: nat)
    requires j < |axes|
    ensures CellCount(axes) == Below(axes, j) * (axes[j].nbins * Above(axes, j))
  {
    assert axes == axes[..j] + axes[j..];
    CellCountAppend(axes[..j], axes[j..]);
    assert axes[j..][1..] == axes[j + 1..];
  }

  /** Number of cells spanned by the axes before axis j (its stride). */
  function Below(axes: seq<Axis>, j: nat): nat
    requires j <= |axes|
  {
    CellCount(axes[..j])
  }

  /** Number of cells spanned by the axes after axis j. */
  function Above(axes: seq<Axis>, j: nat): nat
    requires j < |axes|
  {
    CellCount(axes[j + 1..])
  }

  // ---------------------------------------------------------------------------
  // Block sums and strided column sums

  /** The sums of the n consecutive blocks of width w. */
  function ChunkSums(s: seq<real>, w: nat, n: nat): (r: seq<real>)
    requires |s| == w * n
    ensures |r| == n
    decreases n
  {
    if n == 0 then []
    else
      MulStep(w, n);
      [Sum(s[..w])] + ChunkSums(s[w..], w, n - 1)
  }

  /** The bin-wise sum of the n consecutive blocks of width w. */
  function ColumnSums(s: seq<real>, w: nat, n: nat): (r: seq<real>)
    requires |s| == w * n
    ensures |r| == w
    decreases n
  {
    if n == 0 then Zeros(w)
    else
      MulStep(w, n);
      AddSeq(s[..w], ColumnSums(s[w..], w, n - 1))
  }

  /** The cells i, i + w, i + 2w, ... of a sequence of n blocks of width w. */
  function Column(s: seq<real>, w: nat, n: nat, i: nat): (r: seq<real>)
    requires |s| == w * n && i < w
    ensures |r| == n
    decreases n
  {
    if n == 0 then []
    else
      MulStep(w, n);
      [s[i]] + Column(s[w..], w, n - 1, i)
  }

  lemma {:induction false} ColumnAt(s: seq<real>, w: nat, n: nat, i: nat, k: nat)
    requires |s| == w * n && i < w && k < n
    ensures i + w * k < |s| && Column(s, w, n, i)[k] == s[i + w * k]
    decreases n
  {
    MulStep(w, n);
    if k > 0 {
      ColumnAt(s[w..], w, n - 1, i, k - 1);
      assert w + w * (k - 1) == w * k;
    }
  }

  lemma {:induction false} ChunkSumsAt(s: seq<real>, w: nat, n: nat, k: nat)
    requires |s| == w * n && k < n
    ensures w * k + w <= |s| && ChunkSums(s, w, n)[k] == Sum(s[w * k..w * k + w])
    decreases n
  {
    MulStep(w, n);
    if k > 0 {
      ChunkSumsAt(s[w..], w, n - 1, k - 1);
      assert w + w * (k - 1) == w * k;
      assert s[w..][w * (k - 1)..w * (k - 1) + w] == s[w * k..w * k + w];
    }
  }

  lemma {:induction false} ColumnSumsAt(s: seq<real>, w: nat, n: nat, i: nat)
    requires |s| == w * n && i < w
    ensures ColumnSums(s, w, n)[i] == Sum(Column(s, w, n, i))
    decreases n
  {
    if n > 0 {
      MulStep(w, n);
      ColumnSumsAt(s[w..], w, n - 1, i);
    }
  }

  lemma {:induction false} SumChunkSums(s: seq<real>, w: nat, n: nat)
    requires |s| == w * n
    ensures Sum(ChunkSums(s, w, n)) == Sum(s)
    decreases n
  {
    if n > 0 {
      MulStep(w, n);
      SumChunkSums(s[w..], w, n - 1);
      SumSplit(s, w);
    }
  }

  lemma {:induction false} SumColumnSums(s: seq<real>, w: nat, n: nat)
    requires |s| == w * n
    ensures Sum(ColumnSums(s, w, n)) == Sum(s)
    decreases n
  {
    if n == 0 {
      SumZeros(w);
    } else {
      MulStep(w, n);
      SumColumnSums(s[w..], w, n - 1);
      SumAddSeq(s[..w], ColumnSums(s[w..], w, n - 1));
      SumSplit(s, w);
    }
  }

  // ---------------------------------------------------------------------------
  // Marginals

  /** ProjectionX/Y/Z onto axis j: the histogram over axis j alone whose bin i
      holds the sum of every cell whose j-th coordinate is i. */
  function Marginal(h: Hist, j: nat): (r: Hist)
    requires Valid(h) && j < Dim(h)
    ensures r.axes == [h.axes[j]] && Valid(r)
    ensures Integral(r) == Integral(h)
    ensures r.entries == h.entries
  {
    var below, nj, above := Below(h.axes, j), h.axes[j].nbins, Above(h.axes, j);
    CellCountAround(h.axes, j);
    var blocks := ChunkSums(h.contents, below, nj * above);
    SumChunkSums(h.contents, below, nj * above);
    SumColumnSums(blocks, nj, above);
    assert CellCount([h.axes[j]]) == nj by { assert [h.axes[j]][1..] == []; }
    Hist([h.axes[j]], ColumnSums(blocks, nj, above), h.entries)
  }

  /** Bin i of the marginal on axis j is the sum, over every setting of the
      axes after j, of the block sum over the axes before j at coordinate i. */
  lemma MarginalAt(h: Hist, j: nat, i: nat)
    requires Valid(h) && j < Dim(h) && i < h.axes[j].nbins
    ensures CellCount(h.axes) == Below(h.axes, j) * (h.axes[j].nbins * Above(h.axes, j))
    ensures var blocks := ChunkSums(h.contents, Below(h.axes, j), h.axes[j].nbins * Above(h.axes, j));
            Marginal(h, j).contents[i] == Sum(Column(blocks, h.axes[j].nbins, Above(h.axes, j), i))
  {
    CellCountAround(h.axes, j);
    var blocks := ChunkSums(h.contents, Below(h.axes, j), h.axes[j].nbins * Above(h.axes, j));
    ColumnSumsAt(blocks, h.axes[j].nbins, Above(h.axes, j), i);
  }

  predicate IsMarginal(h: Hist, j: nat, m: Hist)
    requires Valid(h) && j < Dim(h)
  {
    Valid(m) && m.axes == [h.axes[j]] && Integral(m) == Integral(h) && m.entries == h.entries
  }

  /** The dimension dispatch of plot_fit: a one-dimensional histogram is its
      own marginal, two and three dimensions give the X, Y (and Z)
      projections, and any other dimension is fatal. */
  function Project(h: Hist): (r: Result<seq<Hist>>)
    requires Valid(h)
    ensures r.Ok? <==> 1 <= Dim(h) <= 3
    ensures r.Ok? ==> |r.value| == Dim(h)
    ensures r.Ok? ==> forall j :: 0 <= j < Dim(h) ==> IsMarginal(h, j, r.value[j])
    ensures r.Ok? && Dim(h) == 1 ==> r.value[0] == h
  {
    if Dim(h) == 1 then
      assert CellCount(h.axes) == CellCount([h.axes[0]]) by { assert h.axes == [h.axes[0]]; }
      Ok([h])
    else if Dim(h) == 2 then Ok([Marginal(h, 0), Marginal(h, 1)])
    else if Dim(h) == 3 then Ok([Marginal(h, 0), Marginal(h, 1), Marginal(h, 2)])
    else Err("SpectralPlot::plot_fit: Can't create projection in >3 observable dimensions.")
  }
}
