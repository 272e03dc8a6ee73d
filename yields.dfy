/** Yield scaling in plot_fit: the efficiency of a signal is the accepted
    (normalisation) count returned by the model evaluation over its number of
    Monte-Carlo events; the expected count is the nominal count times that
    efficiency times the signal's source parameter; the model histogram is
    rescaled so that its integral is that expected count. */
module Yields {
  import opened Histograms
  import opened Entities

  /** `1.0 * norm / n_mc`. A signal generated from no events is excluded: the
      double division would give an infinity or NaN. */
  function Efficiency(norm: nat, nmc: nat): (eff: real)
    requires nmc > 0
    ensures 0.0 <= eff && eff * nmc as real == norm as real
    ensures eff <= 1.0 <==> norm <= nmc
  {
    var eff := norm as real / nmc as real;
    assert eff * nmc as real == norm as real;
    assert eff <= 1.0 ==> eff * nmc as real <= 1.0 * nmc as real;
    assert eff > 1.0 ==> eff * nmc as real > 1.0 * nmc as real;
    eff
  }

  /** `nexp = nexpected * eff * params[source.index]`. */
  function ExpectedCount(s: Signal, norm: nat, params: seq<real>): (nexp: real)
    requires s.nmc > 0 && s.source.index < |params|
    ensures nexp * s.nmc as real == s.nexpected * norm as real * params[s.source.index]
  {
    s.nexpected * Efficiency(norm, s.nmc) * params[s.source.index]
  }

  /** `h->Scale(nexp / h->Integral())`. The code has no guard for an empty
      model histogram, so its integral must not be zero. */
  function ScaleToYield(h: Hist, nexp: real): (r: Hist)
    requires Integral(h) != 0.0
    ensures SameBinning(r, h) && r.entries == h.entries
    ensures Integral(r) == nexp
    ensures forall k :: 0 <= k < |h.contents| ==> r.contents[k] * Integral(h) == h.contents[k] * nexp
  {
    var c := nexp / Integral(h);
    var r := Scale(h, c);
    assert c * Integral(h) == nexp;
    r
  }

  /** The scaled model histogram of a signal has integral
      nexpected * (norm / n_mc) * params[source.index]. */
  lemma ScaledSignalIntegral(s: Signal, norm: nat, params: seq<real>, h: Hist)
    requires s.nmc > 0 && s.source.index < |params| && Integral(h) != 0.0
    ensures Integral(ScaleToYield(h, ExpectedCount(s, norm, params)))
            == s.nexpected * (norm as real / s.nmc as real) * params[s.source.index]
  {
  }
}
