/**
 * The operator volume tracker (`operator_volume_tracker`): for every
 * requested symbol, in order, one record of its volume spike ratio,
 * activity band, last traded price and day-over-day change. A symbol whose
 * history cannot be fetched or used gets a record built from three numbers
 * typed in at the prompt instead; it is never dropped.
 */
module VolumeTracker {
  import opened Wrappers
  import opened Rounding
  import opened Series

  datatype Activity = Normal | OperatorActivity | HeavyOperatorControl {

    /** The label stored in the record's "Activity" column. */
    function Text(): string
    {
      match this
      case Normal => "\U{1F7E2} Normal"
      case OperatorActivity => "\U{1F7E0} Operator Activity"
      case HeavyOperatorControl => "\U{1F534} Heavy Operator Control"
    }

    function Rank(): nat
    {
      match this
      case Normal => 0
      case OperatorActivity => 1
      case HeavyOperatorControl => 2
    }
  }

  /** The activity band of a volume ratio, the one rule used on both the fetched and the manual path. */
  function ClassifyActivity(ratio: real): (a: Activity)
    ensures a == Normal <==> ratio < 2.0
    ensures a == OperatorActivity <==> 2.0 <= ratio < 4.0
    ensures a == HeavyOperatorControl <==> ratio >= 4.0
  {
    if ratio < 2.0 then Normal
    else if ratio < 4.0 then OperatorActivity
    else HeavyOperatorControl
  }

  /** A larger volume ratio never gives a lower activity band. */
  lemma ActivityMonotone(a: real, b: real)
    requires a <= b
    ensures ClassifyActivity(a).Rank() <= ClassifyActivity(b).Rank()
  {
  }

  /** The data provider's ticker for a requested symbol: the symbol with the NSE suffix. */
  function Ticker(symbol: string): string
  {
    symbol + ".NS"
  }

  /** One day of a symbol's history: closing price and traded volume. */
  datatype Bar = Bar(close: real, volume: real)

  /** One row of the tracker's table. */
  datatype VolumeRecord = VolumeRecord(
    symbol: string,
    volumeRatio: real,
    activity: Activity,
    ltp: real,
    change: real)

  /** The three numbers the user types for a symbol whose fetch failed: volume ratio, LTP, change (%). */
  datatype ManualEntry = ManualEntry(ratio: real, ltp: real, change: real)

  function Closes(h: seq<Bar>): (c: seq<real>)
    ensures |c| == |h|
    ensures forall i :: 0 <= i < |h| ==> c[i] == h[i].close
  {
    seq(|h|, i requires 0 <= i < |h| => h[i].close)
  }

  function Volumes(h: seq<Bar>): (v: seq<real>)
    ensures |v| == |h|
    ensures forall i :: 0 <= i < |h| ==> v[i] == h[i].volume
  {
    seq(|h|, i requires 0 <= i < |h| => h[i].volume)
  }

  /**
   * A history the fetched path can turn into a record: the day before the
   * last exists, and neither divisor (the mean volume, the prior close) is zero.
   */
  predicate Usable(h: seq<Bar>)
  {
    |h| > 1 && Mean(Volumes(h)) != 0.0 && h[|h| - 2].close != 0.0
  }

  /** The body of the `try`: a record from a fetched history, or None where the script falls into `except`. */
  function Scan(symbol: string, fetched: Option<seq<Bar>>): (r: Option<VolumeRecord>)
    ensures r.Some? <==> fetched.Some? && Usable(fetched.value)
    ensures r.Some? ==>
      var h := fetched.value;
      && r.value.symbol == symbol
      && IsCents(r.value.volumeRatio)
      && -0.005 <= r.value.volumeRatio - LastOverMean(Volumes(h)) <= 0.005
      && r.value.activity == ClassifyActivity(r.value.volumeRatio)
      && r.value.ltp == Round2(h[|h| - 1].close)
      && r.value.change == Round2(PercentChange(Closes(h)))
  {
    if fetched.Some? && Usable(fetched.value) then
      var h := fetched.value;
      var ratio := Round2(LastOverMean(Volumes(h)));
      var ltp := Round2(Last(Closes(h)));
      var chg := Round2(PercentChange(Closes(h)));
      Some(VolumeRecord(symbol, ratio, ClassifyActivity(ratio), ltp, chg))
    else
      None
  }

  /** The body of the `except`: a record from the values typed in, classified by the same rule. */
  function ManualRecord(symbol: string, m: ManualEntry): (r: VolumeRecord)
    ensures r.symbol == symbol
    ensures r.volumeRatio == m.ratio && r.ltp == m.ltp && r.change == m.change
    ensures r.activity == ClassifyActivity(m.ratio)
  {
    VolumeRecord(symbol, m.ratio, ClassifyActivity(m.ratio), m.ltp, m.change)
  }

  /**
   * `operator_volume_tracker(symbols)`. `fetched[i]` is what the data
   * provider returned for `Ticker(symbols[i])` (None when it raised)
   * and `manual[i]` what the user would type for it.
   */
  method OperatorVolumeTracker(symbols: seq<string>, fetched: seq<Option<seq<Bar>>>, manual: seq<ManualEntry>)
    returns (records: seq<VolumeRecord>)
    requires |fetched| == |symbols| && |manual| == |symbols|
    ensures |records| == |symbols|
    ensures forall i :: 0 <= i < |symbols| ==>
      records[i].symbol == symbols[i] && records[i].activity == ClassifyActivity(records[i].volumeRatio)
    ensures forall i :: 0 <= i < |symbols| ==>
      records[i] == Scan(symbols[i], fetched[i]).GetOr(ManualRecord(symbols[i], manual[i]))
  {
    records := [];
    for i := 0 to |symbols|
      invariant |records| == i
      invariant forall k :: 0 <= k < i ==>
        records[k] == Scan(symbols[k], fetched[k]).GetOr(ManualRecord(symbols[k], manual[k]))
    {
      var s := symbols[i];
      var scanned := Scan(s, fetched[i]);
      if scanned.Some? {
        records := records + [scanned.value];
      } else {
        records := records + [ManualRecord(s, manual[i])];
      }
    }
  }
}
