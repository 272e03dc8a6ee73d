/** Reconstruction of the parameter vector in plot_fit (src/plots.cpp): the
    source point estimates in source order, then for every systematic its
    `npars` estimates keyed "<name>_<j>", written through a running index. */
module Parameters {
  import opened Entities

  function Digit(d: nat): (c: char)
    requires d < 10
    ensures '0' <= c <= '9' && c as int - '0' as int == d
  {
    ('0' as int + d) as char
  }

  /** Every character is a decimal digit. */
  ghost predicate Digits(s: string)
  {
    forall k :: 0 <= k < |s| ==> '0' <= s[k] <= '9'
  }

  /** The decimal text `std::ostream << j` writes for a size_t. */
  function Decimal(n: nat): (s: string)
    ensures 1 <= |s| && Digits(s)
  {
    if n < 10 then [Digit(n)] else Decimal(n / 10) + [Digit(n % 10)]
  }

  /** The number a string of decimal digits denotes. */
  function DecimalValue(s: string): nat
    requires Digits(s)
  {
    if s == [] then 0
    else
      DecimalValue(s[..|s| - 1]) * 10 + (s[|s| - 1] as int - '0' as int)
  }

  /** Decimal writes the number it is given. */
  lemma {:induction false} DecimalRoundTrip(n: nat)
    ensures DecimalValue(Decimal(n)) == n
  {
    if n >= 10 {
      DecimalRoundTrip(n / 10);
      var s := Decimal(n);
      assert s[..|s| - 1] == Decimal(n / 10);
    }
  }

  /** The best-fit key of the j-th parameter of a systematic: the
      systematic's name, an underscore, then j in decimal. */
  function Key(name: string, j: nat): (key: string)
    ensures |key| > |name| + 1 && key[..|name|] == name && key[|name|] == '_'
    ensures Digits(key[|name| + 1..])
    ensures DecimalValue(key[|name| + 1..]) == j
  {
    DecimalRoundTrip(j);
    var key := name + "_" + Decimal(j);
    assert key[|name| + 1..] == Decimal(j);
    key
  }

  /** The parameters of one systematic have distinct keys. */
  lemma KeyInjective(name: string, j: nat, j': nat)
    requires Key(name, j) == Key(name, j')
    ensures j == j'
  {
    assert Key(name, j)[|name| + 1..] == Key(name, j')[|name| + 1..];
  }

  /** `best_fit[key].point_estimate`: std::map::operator[] inserts a
      default-constructed interval for a missing key, whose point estimate is
      `dflt`. */
  function Lookup(fit: map<string, real>, key: string, dflt: real): (r: real)
    ensures key in fit ==> r == fit[key]
    ensures key !in fit ==> r == dflt
  {
    if key in fit then fit[key] else dflt
  }

  /** Reading the working copy, after any default insertions, gives what
      reading the original fit gives. */
  lemma LookupExtends(fit: map<string, real>, bestFit: map<string, real>, key: string, dflt: real)
    requires DefaultExtends(fit, bestFit, dflt)
    ensures Lookup(fit, key, dflt) == Lookup(bestFit, key, dflt)
  {
    if key in fit && key !in bestFit {
      assert fit[key] == dflt;
    }
  }

  /** Σ npars over the systematics. */
  function TotalPars(systs: seq<Systematic>): nat
  {
    if systs == [] then 0 else TotalPars(systs[..|systs| - 1]) + systs[|systs| - 1].npars
  }

  /** Position of the j-th parameter of systematic k in the vector. */
  function Slot(nsources: nat, systs: seq<Systematic>, k: nat, j: nat): (p: nat)
    requires k < |systs| && j < systs[k].npars
    ensures nsources <= p < nsources + TotalPars(systs)
  {
    TotalParsStep(systs, k);
    TotalParsMono(systs, k + 1);
    nsources + TotalPars(systs[..k]) + j
  }

  lemma TotalParsStep(systs: seq<Systematic>, i: nat)
    requires i < |systs|
    ensures TotalPars(systs[..i + 1]) == TotalPars(systs[..i]) + systs[i].npars
  {
    assert systs[..i + 1][..i] == systs[..i];
  }

  lemma {:induction false} TotalParsMono(systs: seq<Systematic>, i: nat)
    requires i <= |systs|
    ensures TotalPars(systs[..i]) <= TotalPars(systs)
    decreases |systs| - i
  {
    if i < |systs| {
      TotalParsStep(systs, i);
      TotalParsMono(systs, i + 1);
    } else {
      assert systs[..i] == systs;
    }
  }

  /** The slots of the systematics before i all precede the block of i. */
  lemma SlotBefore(nsources: nat, systs: seq<Systematic>, k: nat, j: nat, i: nat)
    requires k < i <= |systs| && j < systs[k].npars
    ensures Slot(nsources, systs, k, j) < nsources + TotalPars(systs[..i])
  {
    assert systs[..i][..k] == systs[..k];
    assert Slot(nsources, systs, k, j) == Slot(nsources, systs[..i], k, j);
  }

  /** Distinct (systematic, parameter) pairs get distinct slots. */
  lemma SlotInjective(nsources: nat, systs: seq<Systematic>, k: nat, j: nat, k': nat, j': nat)
    requires k < |systs| && j < systs[k].npars
    requires k' < |systs| && j' < systs[k'].npars
    requires Slot(nsources, systs, k, j) == Slot(nsources, systs, k', j')
    ensures k == k' && j == j'
  {
    if k < k' {
      SlotBefore(nsources, systs, k, j, k');
    } else if k' < k {
      SlotBefore(nsources, systs, k', j', k);
    }
  }

  /** Every position of the systematic block is some systematic's slot. */
  lemma {:induction false} SlotCover(nsources: nat, systs: seq<Systematic>, p: nat)
    requires nsources <= p < nsources + TotalPars(systs)
    ensures exists k: nat, j: nat :: k < |systs| && j < systs[k].npars && Slot(nsources, systs, k, j) == p
  {
    var last := |systs| - 1;
    TotalParsStep(systs, last);
    assert systs[..last + 1] == systs;
    if p < nsources + TotalPars(systs[..last]) {
      SlotCover(nsources, systs[..last], p);
      var k: nat, j: nat :| k < last && j < systs[k].npars && Slot(nsources, systs[..last], k, j) == p;
      assert systs[..last][..k] == systs[..k];
      assert Slot(nsources, systs, k, j) == p;
    } else {
      assert Slot(nsources, systs, last, p - nsources - TotalPars(systs[..last])) == p;
    }
  }

  /** The working copy of the fit after `operator[]` has default-inserted
      some missing keys. */
  ghost predicate DefaultExtends(fit: map<string, real>, bestFit: map<string, real>, dflt: real)
  {
    && (forall key :: key in bestFit ==> key in fit && fit[key] == bestFit[key])
    && (forall key :: key in fit && key !in bestFit ==> fit[key] == dflt)
  }

  /** `fit[key].point_estimate` on the working copy: a missing key is inserted
      with the default estimate, and either way the value read is the one
      Lookup gives on the original fit. */
  method Subscript(fit: map<string, real>, key: string, ghost bestFit: map<string, real>, dflt: real)
    returns (fit': map<string, real>, value: real)
    requires DefaultExtends(fit, bestFit, dflt)
    ensures DefaultExtends(fit', bestFit, dflt)
    ensures key in fit' && fit'.Keys == fit.Keys + {key}
    ensures value == Lookup(bestFit, key, dflt)
  {
    fit' := fit;
    if key !in fit' {
      fit' := fit'[key := dflt];
    }
    value := fit'[key];
  }

  /** The inner loop for one systematic: its `npars` estimates land at
      idx, idx + 1, ..., and nothing else in `params` changes. */
  method FillBlock(params: seq<real>, fit: map<string, real>, ghost bestFit: map<string, real>,
                   dflt: real, idx: nat, name: string, npars: nat)
    returns (params': seq<real>, fit': map<string, real>)
    requires idx + npars <= |params| && DefaultExtends(fit, bestFit, dflt)
    ensures |params'| == |params| && DefaultExtends(fit', bestFit, dflt)
    ensures forall j :: 0 <= j < npars ==> params'[idx + j] == Lookup(bestFit, Key(name, j), dflt)
    ensures forall p :: 0 <= p < |params| && !(idx <= p < idx + npars) ==> params'[p] == params[p]
  {
    params', fit' := params, fit;
    for j := 0 to npars
      invariant |params'| == |params| && DefaultExtends(fit', bestFit, dflt)
      invariant forall j' :: 0 <= j' < j ==> params'[idx + j'] == Lookup(bestFit, Key(name, j'), dflt)
      invariant forall p :: 0 <= p < |params| && !(idx <= p < idx + j) ==> params'[p] == params[p]
    {
      var bf;
      fit', bf := Subscript(fit', Key(name, j), bestFit, dflt);
      params' := params'[idx + j := bf];
    }
  }

  /** The parameter vector plot_fit builds: one slot per best-fit entry;
      the sources' estimates first, in source order; then each systematic's
      `npars` estimates, keyed "<name>_<j>", at its slots; the slots left over
      hold 0. */
  ghost predicate Assembled(params: seq<real>, bestFit: map<string, real>, sources: seq<Source>,
                            systs: seq<Systematic>, dflt: real)
  {
    && |params| == |bestFit| && |sources| + TotalPars(systs) <= |params|
    && (forall i :: 0 <= i < |sources| ==> params[i] == Lookup(bestFit, sources[i].name, dflt))
    && (forall k, j :: 0 <= k < |systs| && 0 <= j < systs[k].npars ==>
          params[Slot(|sources|, systs, k, j)] == Lookup(bestFit, Key(systs[k].name, j), dflt))
    && (forall p :: |sources| + TotalPars(systs) <= p < |params| ==> params[p] == 0.0)
  }

  /** The layout leaves nothing open: exactly one vector is assembled from a
      fit, every slot being a source's, a systematic parameter's or a left
      over one. */
  lemma AssembledUnique(params: seq<real>, params': seq<real>, bestFit: map<string, real>,
                        sources: seq<Source>, systs: seq<Systematic>, dflt: real)
    requires Assembled(params, bestFit, sources, systs, dflt)
    requires Assembled(params', bestFit, sources, systs, dflt)
    ensures params == params'
  {
    forall p | 0 <= p < |params|
      ensures params[p] == params'[p]
    {
      if |sources| <= p < |sources| + TotalPars(systs) {
        SlotCover(|sources|, systs, p);
        var k: nat, j: nat :| k < |systs| && j < systs[k].npars && Slot(|sources|, systs, k, j) == p;
      }
    }
  }

  /** The two filling loops of plot_fit. `params` is sized by the number of
      best-fit entries, so the sources and systematics must fit in it; a key
      the fit lacks reads as `dflt`, and unwritten trailing slots stay 0. */
  method BuildParams(bestFit: map<string, real>, sources: seq<Source>,
                     systs: seq<Systematic>, dflt: real) returns (params: seq<real>)
    requires |sources| + TotalPars(systs) <= |bestFit|
    ensures Assembled(params, bestFit, sources, systs, dflt)
  {
    var fit := bestFit;
    params := seq(|bestFit|, _ => 0.0);
    TotalParsMono(systs, 0);
    for i := 0 to |sources|
      invariant |params| == |bestFit| && DefaultExtends(fit, bestFit, dflt)
      invariant forall i' :: 0 <= i' < i ==> params[i'] == Lookup(bestFit, sources[i'].name, dflt)
      invariant forall p :: i <= p < |params| ==> params[p] == 0.0
    {
      var bf;
      fit, bf := Subscript(fit, sources[i].name, bestFit, dflt);
      params := params[i := bf];
    }

    var idx := |sources|;
    assert systs[..0] == [];
    for i := 0 to |systs|
      invariant |params| == |bestFit| && DefaultExtends(fit, bestFit, dflt)
      invariant idx == |sources| + TotalPars(systs[..i])
      invariant forall i' :: 0 <= i' < |sources| ==> params[i'] == Lookup(bestFit, sources[i'].name, dflt)
      invariant forall k, j :: 0 <= k < i && 0 <= j < systs[k].npars ==>
                  params[Slot(|sources|, systs, k, j)] == Lookup(bestFit, Key(systs[k].name, j), dflt)
      invariant forall p :: idx <= p < |params| ==> params[p] == 0.0
    {
      TotalParsStep(systs, i);
      TotalParsMono(systs, i + 1);
      ghost var before := params;
      params, fit := FillBlock(params, fit, bestFit, dflt, idx, systs[i].name, systs[i].npars);
      forall k, j | 0 <= k < i && 0 <= j < systs[k].npars
        ensures params[Slot(|sources|, systs, k, j)] == Lookup(bestFit, Key(systs[k].name, j), dflt)
      {
        SlotBefore(|sources|, systs, k, j, i);
      }
      forall j | 0 <= j < systs[i].npars
        ensures params[Slot(|sources|, systs, i, j)] == Lookup(bestFit, Key(systs[i].name, j), dflt)
      {
        assert Slot(|sources|, systs, i, j) == idx + j;
      }
      idx := idx + systs[i].npars;
    }
    assert systs[..|systs|] == systs;
  }
}
