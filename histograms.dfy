/** Histograms as values: the part of ROOT's TH1/TH2/TH3 that the plotting
    core relies on. A histogram has 1 to 3 axes in practice (any number can be
    represented, so that a projection can refuse the others), and its bin
    contents are stored flat with the X bin varying fastest:
    cell (ix, iy, iz) sits at ix + nx * (iy + ny * iz).
    Under- and overflow cells are not stored: a fill outside the axis range is
    counted in `entries` only, as ROOT's Integral() ignores those cells too. */
module Histograms {

  datatype Axis = Axis(nbins: nat, lower: real, upper: real)

  /** `entries` is ROOT's entry counter: one per Fill call. */
  datatype Hist = Hist(axes: seq<Axis>, contents: seq<real>, entries: nat)

  datatype Result<T> = Ok(value: T) | Err(error: string)

  /** Number of in-range cells of a histogram with these axes. */
  function CellCount(axes: seq<Axis>): nat
  {
    if axes == [] then 1 else axes[0].nbins * CellCount(axes[1..])
  }

  function Dim(h: Hist): nat { |h.axes| }

  /** The flat contents match the binning. */
  predicate Valid(h: Hist)
  {
    |h.contents| == CellCount(h.axes)
  }

  predicate SameBinning(h1: Hist, h2: Hist)
  {
    h1.axes == h2.axes && |h1.contents| == |h2.contents|
  }

  // ---------------------------------------------------------------------------
  // Sums over sequences of bin contents

  function Sum(s: seq<real>): real
  {
    if s == [] then 0.0 else s[0] + Sum(s[1..])
  }

  lemma {:induction false} SumAppend(a: seq<real>, b: seq<real>)
    ensures Sum(a + b) == Sum(a) + Sum(b)
  {
    if a == [] {
      assert a + b == b;
    } else {
      assert (a + b)[1..] == a[1..] + b;
      SumAppend(a[1..], b);
    }
  }

  lemma SumSplit(s: seq<real>, k: nat)
    requires k <= |s|
    ensures Sum(s) == Sum(s[..k]) + Sum(s[k..])
  {
    assert s == s[..k] + s[k..];
    SumAppend(s[..k], s[k..]);
  }

  function Zeros(n: nat): (r: seq<real>)
    ensures |r| == n && forall k :: 0 <= k < n ==> r[k] == 0.0
  {
    seq(n, k => 0.0)
  }

  lemma {:induction false} SumZeros(n: nat)
    ensures Sum(Zeros(n)) == 0.0
  {
    if n > 0 {
      assert Zeros(n)[1..] == Zeros(n - 1);
      SumZeros(n - 1);
    }
  }

  /** Bin-wise sum of two equally long content sequences. */
  function AddSeq(a: seq<real>, b: seq<real>): (r: seq<real>)
    requires |a| == |b|
    ensures |r| == |a| && forall k :: 0 <= k < |a| ==> r[k] == a[k] + b[k]
  {
    seq(|a|, k requires 0 <= k < |a| => a[k] + b[k])
  }

  lemma {:induction false} SumAddSeq(a: seq<real>, b: seq<real>)
    requires |a| == |b|
    ensures Sum(AddSeq(a, b)) == Sum(a) + Sum(b)
  {
    if a != [] {
      assert AddSeq(a, b)[1..] == AddSeq(a[1..], b[1..]);
      SumAddSeq(a[1..], b[1..]);
    }
  }

  /** Bin-wise multiple of a content sequence. */
  function ScaleSeq(s: seq<real>, c: real): (r: seq<real>)
    ensures |r| == |s| && forall k :: 0 <= k < |s| ==> r[k] == s[k] * c
  {
    seq(|s|, k requires 0 <= k < |s| => s[k] * c)
  }

  lemma ScaleSeqTail(s: seq<real>, c: real)
    requires s != []
    ensures ScaleSeq(s, c)[0] == c * s[0] && ScaleSeq(s, c)[1..] == ScaleSeq(s[1..], c)
  {
    var r, t := ScaleSeq(s, c), ScaleSeq(s[1..], c);
    assert forall k :: 0 <= k < |t| ==> r[1..][k] == s[k + 1] * c == t[k];
  }

  lemma {:induction false} SumScaleSeq(s: seq<real>, c: real)
    ensures Sum(ScaleSeq(s, c)) == c * Sum(s)
  {
    if s == [] {
      assert ScaleSeq(s, c) == [];
    } else {
      ScaleSeqTail(s, c);
      SumScaleSeq(s[1..], c);
      var head, tail := s[0], Sum(s[1..]);
      assert Sum(ScaleSeq(s, c)) == c * head + c * tail;
      assert Sum(s) == head + tail;
    }
  }

  // ---------------------------------------------------------------------------
  // Histogram operations

  /** TH1::Integral(): the sum of the in-range bin contents. */
  function Integral(h: Hist): real
  {
    Sum(h.contents)
  }

  /** TH1::Scale(c): every bin is multiplied by c; the entry count is kept. */
  function Scale(h: Hist, c: real): (r: Hist)
    ensures SameBinning(r, h) && r.entries == h.entries
    ensures forall k :: 0 <= k < |h.contents| ==> r.contents[k] == h.contents[k] * c
    ensures Integral(r) == c * Integral(h)
  {
    SumScaleSeq(h.contents, c);
    Hist(h.axes, ScaleSeq(h.contents, c), h.entries)
  }

  /** TH1::Add(h2): bin-wise sum of two histograms with the same binning;
      the entry counts add up. */
  function Add(h1: Hist, h2: Hist): (r: Hist)
    requires SameBinning(h1, h2)
    ensures SameBinning(r, h1) && r.entries == h1.entries + h2.entries
    ensures forall k :: 0 <= k < |h1.contents| ==> r.contents[k] == h1.contents[k] + h2.contents[k]
    ensures Integral(r) == Integral(h1) + Integral(h2)
  {
    SumAddSeq(h1.contents, h2.contents);
    Hist(h1.axes, AddSeq(h1.contents, h2.contents), h1.entries + h2.entries)
  }

  /** Clone followed by TH1::Reset(): the same binning, every bin zero and no
      entries. */
  function Reset(h: Hist): (r: Hist)
    ensures SameBinning(r, h) && r.entries == 0
    ensures forall k :: 0 <= k < |r.contents| ==> r.contents[k] == 0.0
    ensures Integral(r) == 0.0
  {
    SumZeros(|h.contents|);
    Hist(h.axes, Zeros(|h.contents|), 0)
  }

  /** TAxis::FindBin for fixed-width bins, zero-based: None stands for the
      underflow (x < lower) and overflow (x >= upper) cells. */
  function FindBin(a: Axis, x: real): (r: Option<nat>)
    ensures r.Some? <==> a.lower <= x < a.upper && a.nbins > 0
    ensures r.Some? ==> r.value < a.nbins
    ensures r.Some? ==> a.lower + (r.value as real) * (a.upper - a.lower) / (a.nbins as real) <= x
    ensures r.Some? ==> x < a.lower + ((r.value + 1) as real) * (a.upper - a.lower) / (a.nbins as real)
  {
    if x < a.lower || x >= a.upper || a.nbins == 0 then None
    else
      BinEdges(a, x);
      Some(((x - a.lower) / (a.upper - a.lower) * a.nbins as real).Floor as nat)
  }

  datatype Option<T> = None | Some(value: T)

  /** The bin ⌊(x - lower) / width · nbins⌋ of an in-range value x is a
      bin of the axis, and x lies between its edges. */
  lemma BinEdges(a: Axis, x: real)
    requires a.lower <= x < a.upper && a.nbins > 0
    ensures var k := ((x - a.lower) / (a.upper - a.lower) * a.nbins as real).Floor;
            && 0 <= k < a.nbins
            && a.lower + (k as real) * (a.upper - a.lower) / (a.nbins as real) <= x
            && x < a.lower + ((k + 1) as real) * (a.upper - a.lower) / (a.nbins as real)
  {
    var d, w, n := x - a.lower, a.upper - a.lower, a.nbins as real;
    FractionBelowOne(d, w, n);
    var k := (d / w * n).Floor;
    assert (k + 1) as real == k as real + 1.0;
    assert k == ((x - a.lower) / (a.upper - a.lower) * a.nbins as real).Floor;
  }

  lemma FractionBelowOne(d: real, w: real, n: real)
    requires 0.0 <= d < w && n > 0.0
    ensures 0.0 <= d / w * n < n
    ensures (d / w * n).Floor as real * w / n <= d
    ensures d < ((d / w * n).Floor as real + 1.0) * w / n
  {
    var t := d / w;
    assert 0.0 <= t < 1.0;
    assert t * n < n;
    var f := (t * n).Floor as real;
    assert f <= t * n;
    assert f * w <= t * n * w;
    assert t * w == d;
    UpperEdge(t, w, n);
    assert (t * n).Floor == (d / w * n).Floor;
    assert ((t * n).Floor as real + 1.0) * w / n == ((d / w * n).Floor as real + 1.0) * w / n;
  }

  lemma MulMono(a: real, b: real, c: real)
    requires a >= b && c > 0.0
    ensures a * c >= b * c
  {
  }

  /** A value below the next bin boundary: t·n < ⌊t·n⌋ + 1. */
  lemma UpperEdge(t: real, w: real, n: real)
    requires w > 0.0 && n > 0.0
    ensures t * w < ((t * n).Floor as real + 1.0) * w / n
  {
    var q := ((t * n).Floor as real + 1.0) / n;
    assert q * n == (t * n).Floor as real + 1.0;
    if t >= q {
      MulMono(t, q, n);
      assert false;
    }
    MulMono(q, t, w);
    assert t * w != q * w;
    assert q * w == ((t * n).Floor as real + 1.0) * w / n;
  }

  /** TH1::Fill(x) on a one-dimensional histogram: the bin holding x gains
      one; the entry count grows by one whether or not x is in range. */
  function Fill(h: Hist, x: real): (r: Hist)
    requires Valid(h) && Dim(h) == 1
    ensures Valid(r) && SameBinning(r, h) && r.entries == h.entries + 1
    ensures Integral(r) == Integral(h) + (if FindBin(h.axes[0], x).Some? then 1.0 else 0.0)
    ensures FindBin(h.axes[0], x).None? ==> r.contents == h.contents
    ensures FindBin(h.axes[0], x).Some? ==>
              var k := FindBin(h.axes[0], x).value;
              k < |h.contents| && r.contents == h.contents[k := h.contents[k] + 1.0]
  {
    assert CellCount(h.axes) == h.axes[0].nbins by { assert h.axes[1..] == []; }
    match FindBin(h.axes[0], x)
    case None => Hist(h.axes, h.contents, h.entries + 1)
    case Some(k) =>
      var c := h.contents[k := h.contents[k] + 1.0];
      assert c == h.contents[..k] + [h.contents[k] + 1.0] + h.contents[k + 1..];
      assert h.contents == h.contents[..k] + [h.contents[k]] + h.contents[k + 1..];
      SumAppend(h.contents[..k] + [h.contents[k] + 1.0], h.contents[k + 1..]);
      SumAppend(h.contents[..k], [h.contents[k] + 1.0]);
      SumAppend(h.contents[..k] + [h.contents[k]], h.contents[k + 1..]);
      SumAppend(h.contents[..k], [h.contents[k]]);
      Hist(h.axes, c, h.entries + 1)
  }
}
