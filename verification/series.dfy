/**
 * Arithmetic on a price or volume history, most recent value last: the
 * mean, the latest value over the mean, and the day-over-day change.
 */
module Series {

  function Sum(s: seq<real>): real
  {
    if |s| == 0 then 0.0 else s[0] + Sum(s[1..])
  }

  /** The arithmetic mean of a non-empty history (`Series.mean()`). */
  function Mean(s: seq<real>): real
    requires |s| > 0
  {
    Sum(s) / |s| as real
  }

  /** The most recent value (`iloc[-1]`). */
  function Last(s: seq<real>): real
    requires |s| > 0
  {
    s[|s| - 1]
  }

  /** The value before the most recent one (`iloc[-2]`). */
  function Prior(s: seq<real>): real
    requires |s| > 1
  {
    s[|s| - 2]
  }

  /** If every value lies in [lo, hi], the sum lies between |s| * lo and |s| * hi. */
  lemma {:induction false} SumBounds(s: seq<real>, lo: real, hi: real)
    requires forall i :: 0 <= i < |s| ==> lo <= s[i] <= hi
    ensures lo * |s| as real <= Sum(s) <= hi * |s| as real
  {
    if |s| > 0 {
      SumBounds(s[1..], lo, hi);
      assert lo * |s| as real == lo + lo * (|s| - 1) as real;
      assert hi * |s| as real == hi + hi * (|s| - 1) as real;
    }
  }

  /** The mean lies within any bounds that hold for every value. */
  lemma MeanBounds(s: seq<real>, lo: real, hi: real)
    requires |s| > 0
    requires forall i :: 0 <= i < |s| ==> lo <= s[i] <= hi
    ensures lo <= Mean(s) <= hi
  {
    SumBounds(s, lo, hi);
    var n := |s| as real;
    assert Mean(s) * n == Sum(s);
  }

  /** The latest value over the mean (the volume ratio, and the PCR proxy). */
  function LastOverMean(s: seq<real>): (r: real)
    requires |s| > 0 && Mean(s) != 0.0
    ensures r * Mean(s) == Last(s)
  {
    Last(s) / Mean(s)
  }

  /** A flat history has ratio exactly 1. */
  lemma FlatRatioIsOne(s: seq<real>, c: real)
    requires |s| > 0 && c != 0.0
    requires forall i :: 0 <= i < |s| ==> s[i] == c
    ensures Mean(s) == c
    ensures LastOverMean(s) == 1.0
  {
    MeanBounds(s, c, c);
    assert Last(s) == s[|s| - 1] == c;
    assert LastOverMean(s) == c / c == 1.0;
  }

  /** When the latest value is the highest of a positive history, its ratio is at least 1. */
  lemma PeakRatioAtLeastOne(s: seq<real>)
    requires |s| > 0
    requires forall i :: 0 <= i < |s| ==> 0.0 < s[i] <= Last(s)
    ensures Mean(s) > 0.0
    ensures LastOverMean(s) >= 1.0
  {
    MeanBounds(s, 0.0, Last(s));
    SumPositive(s);
    var m := Mean(s);
    assert m * |s| as real == Sum(s);
    assert m > 0.0;
    assert LastOverMean(s) == Last(s) / m;
    QuotientAtLeastOne(Last(s), m);
  }

  lemma QuotientAtLeastOne(a: real, b: real)
    requires 0.0 < b <= a
    ensures a / b >= 1.0
  {
    assert a / b * b == a;
  }

  lemma {:induction false} SumPositive(s: seq<real>)
    requires |s| > 0
    requires forall i :: 0 <= i < |s| ==> 0.0 < s[i]
    ensures Sum(s) >= s[0]
  {
    if |s| > 1 {
      SumPositive(s[1..]);
    }
  }

  /** Day-over-day change of the latest value, in percent. */
  function PercentChange(s: seq<real>): (r: real)
    requires |s| > 1 && Prior(s) != 0.0
    ensures Prior(s) * (1.0 + r / 100.0) == Last(s)
  {
    ((Last(s) - Prior(s)) / Prior(s)) * 100.0
  }

  /** From a positive prior value, the change is positive, zero or negative exactly as the price rose, stayed or fell. */
  lemma PercentChangeSign(s: seq<real>)
    requires |s| > 1 && Prior(s) > 0.0
    ensures PercentChange(s) > 0.0 <==> Last(s) > Prior(s)
    ensures PercentChange(s) == 0.0 <==> Last(s) == Prior(s)
    ensures PercentChange(s) < 0.0 <==> Last(s) < Prior(s)
  {
    var p, r := Prior(s), PercentChange(s);
    assert p * (1.0 + r / 100.0) == Last(s);
    assert Last(s) - p == p * r / 100.0;
  }
}
