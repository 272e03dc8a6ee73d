/** The fit entities plot_fit works on (sxmc's Source, Systematic, Signal and
    Observable), reduced to the fields the plotting core reads. */
module Entities {

  /** A fit component; `index` is its slot in the parameter vector. */
  datatype Source = Source(name: string, index: nat)

  /** A nuisance component contributing `npars` parameters. */
  datatype Systematic = Systematic(name: string, npars: nat)

  /** One expected-rate model, tied to a source and a dataset. `nexpected` is
      its nominal expected count and `nmc` the number of Monte-Carlo events it
      was generated from. */
  datatype Signal = Signal(name: string, title: string, dataset: nat, source: Source,
                           nexpected: real, nmc: nat)

  /** One measured quantity with its binning and plot settings. */
  datatype Observable = Observable(name: string, title: string, units: string,
                                   lower: real, upper: real, bins: nat,
                                   ymin: real, ymax: real, logscale: bool)
}
