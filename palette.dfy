/** The fixed six-entry colour/line-style table of src/plots.cpp and the
    index plot_fit uses to pick an entry for each signal. */
module Palette {

  // ROOT's EColor values.
  const KBlack := 1
  const KGreen := 416
  const KBlue := 600
  const KRed := 632
  const KMagenta := 616

  const NColors: nat := 6
  const Colors: seq<int> := [KRed, KRed, KBlack, KBlack, KBlue, KGreen + 1]
  const Styles: seq<int> := [1, 2, 1, 2, 3, 1]

  /** Euclidean division is determined by quotient and remainder. */
  lemma DivModUnique(a: nat, n: nat, q: nat, r: nat)
    requires n > 0 && r < n && a == q * n + r
    ensures a % n == r
  {
    var q', r' := a / n, a % n;
    assert a == q' * n + r';
    var d := q - q';
    assert d * n == r' - r;
    if d >= 1 {
      assert false;
    } else if d <= -1 {
      assert false;
    }
  }

  /** "Signals per dataset" as the source computes it: an integer quotient. */
  function SignalsPerDataset(nsignals: nat, ndatasets: nat): (ns: nat)
    requires 0 < ndatasets <= nsignals
    ensures 0 < ns && ns * ndatasets <= nsignals < (ns + 1) * ndatasets
  {
    nsignals / ndatasets
  }

  /** The palette entry of signal i: its position modulo the signals per
      dataset, folded into the table. The integer division and the modulo by
      the quotient need a dataset and at least as many signals as datasets. */
  function PaletteIndex(i: nat, nsignals: nat, ndatasets: nat): (ii: nat)
    requires 0 < ndatasets <= nsignals
    ensures ii < NColors && ii < |Colors| && ii < |Styles|
    ensures i < SignalsPerDataset(nsignals, ndatasets) ==> ii == i % NColors
  {
    var ns := SignalsPerDataset(nsignals, ndatasets);
    if i < ns then DivModUnique(i, ns, 0, i); (i % ns) % NColors
    else (i % ns) % NColors
  }

  /** The line colour of signal i: a table entry, the table's colours in
      order for the first signals of the list. */
  function Color(i: nat, nsignals: nat, ndatasets: nat): (c: int)
    requires 0 < ndatasets <= nsignals
    ensures c in Colors
    ensures i < SignalsPerDataset(nsignals, ndatasets) ==> c == Colors[i % NColors]
  {
    Colors[PaletteIndex(i, nsignals, ndatasets)]
  }

  /** The line style of signal i, from the same table entry. */
  function Style(i: nat, nsignals: nat, ndatasets: nat): (st: int)
    requires 0 < ndatasets <= nsignals
    ensures st in Styles
    ensures i < SignalsPerDataset(nsignals, ndatasets) ==> st == Styles[i % NColors]
  {
    Styles[PaletteIndex(i, nsignals, ndatasets)]
  }

  /** Signals one "dataset stride" apart share their colour and style: with
      signals listed dataset by dataset, like signals of different datasets
      look alike. */
  lemma PalettePeriodic(i: nat, nsignals: nat, ndatasets: nat)
    requires 0 < ndatasets <= nsignals
    ensures var ns := SignalsPerDataset(nsignals, ndatasets);
            PaletteIndex(i + ns, nsignals, ndatasets) == PaletteIndex(i, nsignals, ndatasets)
  {
    var ns := SignalsPerDataset(nsignals, ndatasets);
    var q := i / ns;
    assert i == q * ns + i % ns;
    assert i + ns == (q + 1) * ns + i % ns;
    DivModUnique(i + ns, ns, q + 1, i % ns);
  }

  /** No two table entries look the same. */
  lemma EntriesDistinct(a: nat, b: nat)
    requires a < NColors && b < NColors && a != b
    ensures Colors[a] != Colors[b] || Styles[a] != Styles[b]
  {
  }

  /** Within the first signals-per-dataset positions, two signals whose
      positions differ modulo six get distinguishable curves. */
  lemma DistinctWithinDataset(i: nat, i': nat, nsignals: nat, ndatasets: nat)
    requires 0 < ndatasets <= nsignals
    requires i < SignalsPerDataset(nsignals, ndatasets) && i' < SignalsPerDataset(nsignals, ndatasets)
    requires i % NColors != i' % NColors
    ensures Color(i, nsignals, ndatasets) != Color(i', nsignals, ndatasets)
         || Style(i, nsignals, ndatasets) != Style(i', nsignals, ndatasets)
  {
    EntriesDistinct(PaletteIndex(i, nsignals, ndatasets), PaletteIndex(i', nsignals, ndatasets));
  }
}
