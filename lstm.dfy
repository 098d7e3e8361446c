/** lstm/lstm.py: `prepare_data` cuts a series into sliding windows, each paired
    with the value that follows it. */
module Lstm {

  /** `prepare_data`: for each `i` from `window` to the end, the `window` values
      before position `i` and the value at `i`. */
  method PrepareData<T>(series: seq<T>, window: nat := 60) returns (xs: seq<seq<T>>, ys: seq<T>)
    ensures |xs| == |ys| == if |series| >= window then |series| - window else 0
    ensures forall k :: 0 <= k < |xs| ==> |xs[k]| == window && xs[k] == series[k..k + window]
    ensures forall k :: 0 <= k < |ys| ==> ys[k] == series[k + window]
  {
    xs, ys := [], [];
    var i := window;
    while i < |series|
      invariant window <= i <= if |series| >= window then |series| else window
      invariant |xs| == |ys| == i - window
      invariant forall k :: 0 <= k < |xs| ==> xs[k] == series[k..k + window]
      invariant forall k :: 0 <= k < |ys| ==> ys[k] == series[k + window]
    {
      xs := xs + [series[i - window..i]];
      ys := ys + [series[i]];
      i := i + 1;
    }
  }
}
