/** A live chart: the latest part of the published buffer, down-sampled by a stride
    (`samplingInterval`) and cut to the 100 newest sampled points, with zoom buttons
    that move the stride between 1 and 10. */
module MainCharts {
  import opened Js

  const MaxDataPoints: int := 1000
  const DisplayedDataPoints: int := 100
  const InitialZoomLevel: real := 1.0

  /** `Math.floor(MAX_DATA_POINTS / DISPLAYED_DATA_POINTS)`: the stride that fits a full
      buffer into the display. */
  const InitialSamplingInterval: int := MaxDataPoints / DisplayedDataPoints

  /** `s.filter((_, index) => index % k === 0)`: the elements at positions divisible by `k`. */
  function EveryNth<T>(s: seq<T>, k: int): (r: seq<T>)
    requires k >= 1
    ensures |r| <= |s|
    ensures |s| > 0 ==> |r| > 0 && r[0] == s[0]
  {
    if |s| == 0 then []
    else EveryNth(s[..|s| - 1], k) + (if (|s| - 1) % k == 0 then [s[|s| - 1]] else [])
  }

  lemma DivUnique(a: int, k: int, q: int, r: int)
    requires k >= 1 && 0 <= r < k && a == q * k + r
    ensures a / k == q && a % k == r
  {
    var q' := a / k;
    assert a == q' * k + a % k;
    if q' > q {
      MulLe(q + 1, q', k);
      assert false;
    } else if q' < q {
      MulLe(q' + 1, q, k);
      assert false;
    }
  }

  lemma MulLe(x: int, y: int, k: int)
    requires x <= y && 0 <= k
    ensures x * k <= y * k
  {
    assert y * k - x * k == (y - x) * k;
  }

  /** Number of positions in `[0, n)` divisible by `k`. */
  function StrideCount(n: nat, k: int): nat
    requires k >= 1
  {
    (n + k - 1) / k
  }

  /** How the count of multiples grows by one position: it rises exactly when the new
      position `m` is itself a multiple, and then the old count times `k` is `m`. */
  lemma StrideCountStep(m: nat, k: int)
    requires k >= 1
    ensures m % k == 0 ==> StrideCount(m + 1, k) == StrideCount(m, k) + 1 && StrideCount(m, k) * k == m
    ensures m % k != 0 ==> StrideCount(m + 1, k) == StrideCount(m, k)
  {
    var q, rem := m / k, m % k;
    assert m == q * k + rem;
    assert (q + 1) * k == q * k + k;
    if rem == 0 {
      DivUnique(m + k - 1, k, q, k - 1);
      DivUnique(m + k, k, q + 1, 0);
    } else {
      DivUnique(m + k - 1, k, q + 1, rem - 1);
      DivUnique(m + k, k, q + 1, rem);
    }
  }

  /** The filter keeps `s[0], s[k], s[2k], ...`: exactly one element per multiple of `k`
      below `|s|`, in order. */
  lemma {:induction false} EveryNthSpec<T>(s: seq<T>, k: int)
    requires k >= 1
    ensures |EveryNth(s, k)| == StrideCount(|s|, k)
    ensures forall j :: 0 <= j < |EveryNth(s, k)| ==> j * k < |s| && EveryNth(s, k)[j] == s[j * k]
  {
    if |s| > 0 {
      var m := |s| - 1;
      var p := s[..m];
      EveryNthSpec(p, k);
      StrideCountStep(m, k);
      var rp := EveryNth(p, k);
      var r := EveryNth(s, k);
      assert r == rp + (if m % k == 0 then [s[m]] else []);
      forall j | 0 <= j < |r|
        ensures j * k < |s| && r[j] == s[j * k]
      {
        if j < |rp| {
          assert j * k < m && rp[j] == p[j * k];
        } else {
          assert j == |rp| && m % k == 0;
        }
      }
    }
  }

  /** `sampleData`: the whole input for an interval below 1, otherwise the newest
      `DisplayedDataPoints` elements of the stride. */
  function SampleData<T>(data: seq<T>, interval: int): (r: seq<T>)
    ensures interval >= 1 ==> |r| <= DisplayedDataPoints
  {
    if interval < 1 then data else SliceFrom(EveryNth(data, interval), -DisplayedDataPoints)
  }

  /** How many points `SampleData` returns for an input of length `n`. */
  function SampledCount(n: nat, interval: int): nat
  {
    if interval < 1 then n else Min(StrideCount(n, interval), DisplayedDataPoints)
  }

  /** Where the `j`-th returned point sits in the input. */
  function SampledPosition(n: nat, interval: int, j: int): int
  {
    if interval < 1 then j else (StrideCount(n, interval) - SampledCount(n, interval) + j) * interval
  }

  /** `SampleData` returns the last (at most 100) elements whose positions are divisible by
      the interval, in their original order; with an interval below 1, the input itself. */
  lemma SampleDataSpec<T>(data: seq<T>, interval: int)
    ensures |SampleData(data, interval)| == SampledCount(|data|, interval)
    ensures forall j :: 0 <= j < |SampleData(data, interval)| ==>
              0 <= SampledPosition(|data|, interval, j) < |data| &&
              SampleData(data, interval)[j] == data[SampledPosition(|data|, interval, j)]
    ensures interval < 1 ==> SampleData(data, interval) == data
  {
    if interval >= 1 {
      EveryNthSpec(data, interval);
      var e := EveryNth(data, interval);
      var r := SampleData(data, interval);
      forall j | 0 <= j < |r|
        ensures 0 <= SampledPosition(|data|, interval, j) < |data|
        ensures r[j] == data[SampledPosition(|data|, interval, j)]
      {
        var i := |e| - |r| + j;
        assert r[j] == e[i];
        assert 0 <= i * interval;
      }
    }
  }

  /** `SampleDataSpec` at one point. */
  lemma SampledPoint<T>(data: seq<T>, interval: int, j: int)
    requires 0 <= j < SampledCount(|data|, interval)
    ensures |SampleData(data, interval)| == SampledCount(|data|, interval)
    ensures 0 <= SampledPosition(|data|, interval, j) < |data|
    ensures SampleData(data, interval)[j] == data[SampledPosition(|data|, interval, j)]
  {
    SampleDataSpec(data, interval);
  }

  /** The number of newest buffer entries a zoom level brings into range: `MAX_DATA_POINTS * zoomLevel`, floored. */
  function ZoomSpan(zoomLevel: real): (r: int)
    ensures 0.0 <= zoomLevel ==> 0 <= r
    ensures zoomLevel <= 1.0 ==> r <= MaxDataPoints
  {
    ((MaxDataPoints as real) * zoomLevel).Floor
  }

  /** `getVisibleData` (and `getVisibleTimestamps`): the zoomed-in tail of the buffer, sampled. */
  function GetVisibleData<T>(data: seq<T>, zoomLevel: real, interval: int): (r: seq<T>)
    ensures interval >= 1 ==> |r| <= DisplayedDataPoints
  {
    SampleData(SliceFrom(data, -ZoomSpan(zoomLevel)), interval)
  }

  /** How many points are drawn from a buffer of length `n` when its last `span` entries
      are sampled. */
  function VisibleCount(n: nat, span: int, interval: int): nat
  {
    SampledCount(n - RelativeIndex(n, -span), interval)
  }

  /** Where the `j`-th drawn point sits in the buffer. */
  function VisiblePosition(n: nat, span: int, interval: int, j: int): int
  {
    var from := RelativeIndex(n, -span);
    from + SampledPosition(n - from, interval, j)
  }

  /** The last `span` entries of a buffer are the buffer from `RelativeIndex(n, -span)` on. */
  lemma TailFrom<T>(data: seq<T>, span: int)
    ensures SliceFrom(data, -span) == data[RelativeIndex(|data|, -span)..]
  {
  }

  lemma VisiblePositionShift(n: nat, span: int, interval: int, j: int, from: nat)
    requires from == RelativeIndex(n, -span)
    ensures VisiblePosition(n, span, interval, j) == from + SampledPosition(n - from, interval, j)
  {
  }

  /** The `j`-th point drawn from the last `span` entries is the entry at `VisiblePosition`. */
  lemma TailSampledPoint<T>(data: seq<T>, span: int, interval: int, j: int)
    requires 0 <= j < VisibleCount(|data|, span, interval)
    ensures |SampleData(SliceFrom(data, -span), interval)| == VisibleCount(|data|, span, interval)
    ensures 0 <= VisiblePosition(|data|, span, interval, j) < |data|
    ensures SampleData(SliceFrom(data, -span), interval)[j] == data[VisiblePosition(|data|, span, interval, j)]
  {
    var from := RelativeIndex(|data|, -span);
    var tail := data[from..];
    TailFrom(data, span);
    SampledPoint(tail, interval, j);
    VisiblePositionShift(|data|, span, interval, j, from);
    var p := SampledPosition(|tail|, interval, j);
    assert tail[p] == data[from + p];
  }

  /** Sampling the last `span` entries of a buffer draws `VisibleCount` points, each the
      entry at its `VisiblePosition`. */
  lemma TailSampledAt<T>(data: seq<T>, span: int, interval: int)
    ensures |SampleData(SliceFrom(data, -span), interval)| == VisibleCount(|data|, span, interval)
    ensures forall j :: 0 <= j < VisibleCount(|data|, span, interval) ==>
              0 <= VisiblePosition(|data|, span, interval, j) < |data| &&
              SampleData(SliceFrom(data, -span), interval)[j] == data[VisiblePosition(|data|, span, interval, j)]
  {
    TailFrom(data, span);
    SampleDataSpec(data[RelativeIndex(|data|, -span)..], interval);
    forall j | 0 <= j < VisibleCount(|data|, span, interval)
      ensures 0 <= VisiblePosition(|data|, span, interval, j) < |data|
      ensures SampleData(SliceFrom(data, -span), interval)[j] == data[VisiblePosition(|data|, span, interval, j)]
    {
      TailSampledPoint(data, span, interval, j);
    }
  }

  /** What is visible depends on the buffer only through its length: point `j` is the
      buffer entry at `VisiblePosition`. */
  lemma VisibleDataAt<T>(data: seq<T>, zoomLevel: real, interval: int)
    ensures |GetVisibleData(data, zoomLevel, interval)| == VisibleCount(|data|, ZoomSpan(zoomLevel), interval)
    ensures forall j :: 0 <= j < VisibleCount(|data|, ZoomSpan(zoomLevel), interval) ==>
              0 <= VisiblePosition(|data|, ZoomSpan(zoomLevel), interval, j) < |data| &&
              GetVisibleData(data, zoomLevel, interval)[j] == data[VisiblePosition(|data|, ZoomSpan(zoomLevel), interval, j)]
  {
    TailSampledAt(data, ZoomSpan(zoomLevel), interval);
  }

  /** Buffers in lockstep give charts in lockstep: the `j`-th plotted value and the `j`-th
      x-axis timestamp come from the same arrival. */
  lemma VisibleAligned<A, B>(data: seq<A>, timestamps: seq<B>, zoomLevel: real, interval: int)
    requires |data| == |timestamps|
    ensures |GetVisibleData(data, zoomLevel, interval)| == |GetVisibleData(timestamps, zoomLevel, interval)|
    ensures forall j :: 0 <= j < |GetVisibleData(data, zoomLevel, interval)| ==>
              var p := VisiblePosition(|data|, ZoomSpan(zoomLevel), interval, j);
              0 <= p < |data| &&
              GetVisibleData(data, zoomLevel, interval)[j] == data[p] &&
              GetVisibleData(timestamps, zoomLevel, interval)[j] == timestamps[p]
  {
    VisibleDataAt(data, zoomLevel, interval);
    VisibleDataAt(timestamps, zoomLevel, interval);
  }

  /** `getVisibleData().map(item => item[dataIndex])`: one channel of each row, `undefined`
      where the row has no such channel. */
  function ChannelValues(rows: seq<seq<real>>, dataIndex: int): (r: seq<Option<real>>)
    ensures |r| == |rows|
    ensures forall i :: 0 <= i < |r| ==> (r[i].Some? <==> 0 <= dataIndex < |rows[i]|)
    ensures forall i :: 0 <= i < |r| && r[i].Some? ==> r[i].value == rows[i][dataIndex]
  {
    seq(|rows|, i requires 0 <= i < |rows| =>
      if 0 <= dataIndex < |rows[i]| then Some(rows[i][dataIndex]) else None)
  }

  function Ceil(x: real): int
  {
    -((-x).Floor)
  }

  /** `Math.max(1, Math.floor(samplingInterval / 1.2))`. */
  function ZoomInInterval(s: int): (r: int)
    ensures 1 <= r
    ensures 2 <= s ==> r < s
  {
    Max(1, ((s as real) / 1.2).Floor)
  }

  /** `Math.min(Math.floor(MAX_DATA_POINTS / DISPLAYED_DATA_POINTS), Math.ceil(samplingInterval * 1.2))`. */
  function ZoomOutInterval(s: int): (r: int)
    ensures r <= InitialSamplingInterval
    ensures 1 <= s < InitialSamplingInterval ==> s < r
  {
    Min(MaxDataPoints / DisplayedDataPoints, Ceil((s as real) * 1.2))
  }

  /** Zooming in never raises the stride and never takes it below 1. */
  lemma ZoomInBounds(s: int)
    ensures 1 <= ZoomInInterval(s)
    ensures 1 <= s ==> ZoomInInterval(s) <= s
  {
    if 1 <= s {
      assert (s as real) / 1.2 <= s as real;
    }
  }

  /** Zooming out never lowers the stride (from a non-negative one) and never takes it above 10. */
  lemma ZoomOutBounds(s: int)
    ensures ZoomOutInterval(s) <= InitialSamplingInterval
    ensures 0 <= s <= InitialSamplingInterval ==> s <= ZoomOutInterval(s)
  {
    if 0 <= s {
      assert (s as real) <= (s as real) * 1.2;
    }
  }

  /** One press of a zoom control, with the outcome of its zoom-level gate. */
  datatype ZoomAction = ZoomIn(gate: bool) | ZoomOut(gate: bool) | Reset

  /** The stride after one action: a gate that is false leaves it unchanged. */
  function ApplyZoom(s: int, action: ZoomAction): int
  {
    match action
    case ZoomIn(gate) => if gate then ZoomInInterval(s) else s
    case ZoomOut(gate) => if gate then ZoomOutInterval(s) else s
    case Reset => InitialSamplingInterval
  }

  function RunZoom(s: int, actions: seq<ZoomAction>): int
    decreases |actions|
  {
    if |actions| == 0 then s else RunZoom(ApplyZoom(s, actions[0]), actions[1..])
  }

  /** Over any sequence of zoom-in, zoom-out and reset presses, whatever their gates,
      a stride starting in [1, 10] stays in [1, 10]. */
  lemma {:induction false} IntervalStaysInRange(s: int, actions: seq<ZoomAction>)
    requires 1 <= s <= InitialSamplingInterval
    ensures 1 <= RunZoom(s, actions) <= InitialSamplingInterval
    decreases |actions|
  {
    if |actions| > 0 {
      ZoomInBounds(s);
      ZoomOutBounds(s);
      IntervalStaysInRange(ApplyZoom(s, actions[0]), actions[1..]);
    }
  }

  /** The chart's zoom state. */
  class DataChart {
    var zoomLevel: real
    var samplingInterval: int

    /** The stride stays in [1, 10]; the zoom level stays between 1/12 and 1.2, because
        zooming in needs a level above 0.1 and zooming out a level below 1. */
    ghost predicate Valid()
      reads this
    {
      1 <= samplingInterval <= InitialSamplingInterval &&
      1.0 / 12.0 < zoomLevel < 1.2
    }

    constructor ()
      ensures Valid() && zoomLevel == InitialZoomLevel && samplingInterval == 10
    {
      zoomLevel := InitialZoomLevel;
      samplingInterval := InitialSamplingInterval;
    }

    method ZoomInX()
      requires Valid()
      modifies this
      ensures Valid()
      ensures samplingInterval == ApplyZoom(old(samplingInterval), ZoomIn(old(zoomLevel) > 0.1))
      ensures samplingInterval <= old(samplingInterval)
      ensures old(zoomLevel) <= 0.1 ==> zoomLevel == old(zoomLevel) && samplingInterval == old(samplingInterval)
      ensures old(zoomLevel) > 0.1 ==> zoomLevel == old(zoomLevel) / 1.2
    {
      if zoomLevel > 0.1 {
        var newZoomLevel := zoomLevel / 1.2;
        var newSamplingInterval := ZoomInInterval(samplingInterval);
        ZoomInBounds(samplingInterval);
        zoomLevel := newZoomLevel;
        samplingInterval := newSamplingInterval;
      }
    }

    method ZoomOutX()
      requires Valid()
      modifies this
      ensures Valid()
      ensures samplingInterval == ApplyZoom(old(samplingInterval), ZoomOut(old(zoomLevel) < 1.0))
      ensures samplingInterval >= old(samplingInterval)
      ensures old(zoomLevel) >= 1.0 ==> zoomLevel == old(zoomLevel) && samplingInterval == old(samplingInterval)
      ensures old(zoomLevel) < 1.0 ==> zoomLevel == old(zoomLevel) * 1.2
    {
      if zoomLevel < 1.0 {
        var newZoomLevel := zoomLevel * 1.2;
        var newSamplingInterval := ZoomOutInterval(samplingInterval);
        ZoomOutBounds(samplingInterval);
        zoomLevel := newZoomLevel;
        samplingInterval := newSamplingInterval;
      }
    }

    method ResetZoom()
      modifies this
      ensures Valid()
      ensures zoomLevel == InitialZoomLevel && samplingInterval == ApplyZoom(old(samplingInterval), Reset)
    {
      zoomLevel := InitialZoomLevel;
      samplingInterval := InitialSamplingInterval;
    }

    /** The points the chart plots from the published buffer. */
    function VisibleData<T>(data: seq<T>): (r: seq<T>)
      reads this
      requires Valid()
      ensures |r| <= DisplayedDataPoints
    {
      GetVisibleData(data, zoomLevel, samplingInterval)
    }
  }

  /** Within the chart's zoom range, the range is a genuine tail of at least 83 entries
      (never the `slice(-0)` case that would return the whole buffer). */
  lemma ZoomSpanPositive(zoomLevel: real)
    requires 1.0 / 12.0 < zoomLevel < 1.2
    ensures 83 <= ZoomSpan(zoomLevel) < 1200
  {
  }
}
