/**
 * The library numerics the pipeline calls but this model does not interpret:
 * the magnitude of the real DFT, Shannon entropy, the standard deviation, and the
 * calendar fields of a date. They are passed in as function values.
 */
module Library {

  /** The spectrum `f` gives for `x` has one bin per frequency `0 .. |x| / 2`. */
  ghost predicate HasBins(f: seq<real> -> seq<real>, x: seq<real>)
  {
    |f(x)| == |x| / 2 + 1
  }

  datatype Externals = Externals(
    spectrum: seq<real> -> seq<real>,   // `np.abs(np.fft.rfft(x))`
    entropy: seq<real> -> real,         // `scipy.stats.entropy(p)`, natural log
    std: seq<real> -> real,             // `np.std(x)`
    month: int -> int,                  // `date.month` of a day number
    dayOfWeek: int -> int)              // `date.dayofweek` of a day number
  {
    /** The real DFT of `n` samples has `n / 2 + 1` bins. */
    ghost predicate Valid()
    {
      forall x: seq<real> :: HasBins(spectrum, x)
    }
  }
}
