/**
 * The two fetched market indicators (`get_pcr`, `get_vix`). Each tries one
 * fetch of the last five daily closes and, on any failure, takes the number
 * typed in at the prompt. The fetch and the prompt are parameters here:
 * `fetched` is what the data provider returned (None when it raised), and
 * `manual` is what the user would type. For `GetPcr` the fetch is of
 * `PcrTicker` (the default, and only, symbol the script passes to
 * `get_pcr`); for `GetVix` it is of `VixTicker`.
 */
module Indicators {
  import opened Wrappers
  import opened Rounding
  import opened Series

  /** The benchmark index whose closes give the PCR proxy. */
  const PcrTicker: string := "^NSEI"

  /** The volatility index. */
  const VixTicker: string := "^INDIAVIX"

  /** A close history from which the PCR proxy can be computed. */
  predicate PcrComputable(closes: seq<real>)
  {
    |closes| > 0 && Mean(closes) != 0.0
  }

  /** `get_pcr`: latest close over the mean close, rounded to hundredths, or the manual value. */
  function GetPcr(fetched: Option<seq<real>>, manual: real): (r: real)
    ensures fetched.Some? && PcrComputable(fetched.value) ==>
      IsCents(r) && -0.005 <= r - LastOverMean(fetched.value) <= 0.005
    ensures !(fetched.Some? && PcrComputable(fetched.value)) ==> r == manual
  {
    if fetched.Some? && PcrComputable(fetched.value) then Round2(LastOverMean(fetched.value))
    else manual
  }

  /** When the latest close is the highest of a positive window, the fetched PCR proxy is at least 1.00. */
  lemma PeakPcrAtLeastOne(closes: seq<real>, manual: real)
    requires |closes| > 0
    requires forall i :: 0 <= i < |closes| ==> 0.0 < closes[i] <= Last(closes)
    ensures GetPcr(Some(closes), manual) >= 1.0
  {
    PeakRatioAtLeastOne(closes);
    Round2Monotone(1.0, LastOverMean(closes));
    Round2Fixes(1.0);
  }

  /** `get_vix`: the latest close rounded to hundredths, or the manual value. */
  function GetVix(fetched: Option<seq<real>>, manual: real): (r: real)
    ensures fetched.Some? && |fetched.value| > 0 ==>
      IsCents(r) && -0.005 <= r - Last(fetched.value) <= 0.005
    ensures !(fetched.Some? && |fetched.value| > 0) ==> r == manual
  {
    if fetched.Some? && |fetched.value| > 0 then Round2(Last(fetched.value))
    else manual
  }
}
