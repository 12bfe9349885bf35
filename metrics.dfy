/** The metrics panel's derived values (components/Metrics.tsx): the chart rows and
    the four summary figures computed from the metric snapshot. */
module Metrics {
  import opened Types
  import Monitor

  /** One chart row: the point with its formatted time label. */
  datatype ChartRow = ChartRow(point: MetricPoint, time: string)

  /** `data.map(d => ({ ...d, time: format(d.timestamp) }))`; the locale time
      formatting is the parameter `format`. */
  function ChartData(data: seq<MetricPoint>, format: int -> string): (r: seq<ChartRow>)
    ensures |r| == |data|
    ensures forall i :: 0 <= i < |data| ==> r[i].point == data[i] && r[i].time == format(data[i].timestamp)
  {
    seq(|data|, i requires 0 <= i < |data| => ChartRow(data[i], format(data[i].timestamp)))
  }

  /** `data.length`. */
  function TotalRequests(data: seq<MetricPoint>): nat
  {
    |data|
  }

  /** `data.reduce((acc, curr) => acc + curr.tokens, 0)`. */
  function TotalTokens(data: seq<MetricPoint>): int
  {
    if data == [] then 0 else data[0].tokens + TotalTokens(data[1..])
  }

  /** `data.reduce((acc, curr) => acc + curr.latency, 0)`. */
  function TotalLatency(data: seq<MetricPoint>): int
  {
    if data == [] then 0 else data[0].latency + TotalLatency(data[1..])
  }

  /** `Math.round(a / n)` for a positive count `n`: the integer nearest to `a / n`,
      halves rounded up. */
  function RoundedQuotient(a: int, n: nat): (r: int)
    requires 0 < n
    ensures 2 * a - n < 2 * n * r <= 2 * a + n
  {
    var q := (2 * a + n) / (2 * n);
    assert 2 * n * q <= 2 * a + n < 2 * n * q + 2 * n;
    q
  }

  /** The average-latency figure: 0 for no points, else the rounded mean. */
  function AverageLatency(data: seq<MetricPoint>): (r: int)
    ensures data == [] ==> r == 0
    ensures data != [] ==> 2 * TotalLatency(data) - |data| < 2 * |data| * r <= 2 * TotalLatency(data) + |data|
  {
    if |data| > 0 then RoundedQuotient(TotalLatency(data), |data|) else 0
  }

  /** The last-model figure: the model of the newest point, or "-" for none. */
  function LastModel(data: seq<MetricPoint>): (r: string)
    ensures data == [] ==> r == "-"
    ensures data != [] ==> r == data[|data| - 1].model
  {
    if |data| > 0 then data[|data| - 1].model else "-"
  }

  /** Appending a point adds its tokens to the total. */
  lemma {:induction false} TotalTokensAppend(data: seq<MetricPoint>, p: MetricPoint)
    ensures TotalTokens(data + [p]) == TotalTokens(data) + p.tokens
  {
    if data != [] {
      assert (data + [p])[1..] == data[1..] + [p];
      TotalTokensAppend(data[1..], p);
    }
  }

  /** The token total never decreases when a point with a non-negative count arrives. */
  lemma TotalTokensMonotone(data: seq<MetricPoint>, p: MetricPoint)
    requires 0 <= p.tokens
    ensures TotalTokens(data) <= TotalTokens(data + [p])
  {
    TotalTokensAppend(data, p);
  }

  /** Latencies all within [lo, hi] keep their sum within [n * lo, n * hi]. */
  lemma {:induction false} TotalLatencyBounds(data: seq<MetricPoint>, lo: int, hi: int)
    requires forall i :: 0 <= i < |data| ==> lo <= data[i].latency <= hi
    ensures |data| * lo <= TotalLatency(data) <= |data| * hi
  {
    if data != [] {
      forall i | 0 <= i < |data[1..]| ensures lo <= data[1..][i].latency <= hi {
        assert data[1..][i] == data[i + 1];
      }
      TotalLatencyBounds(data[1..], lo, hi);
      assert |data| * lo == lo + |data[1..]| * lo;
      assert |data| * hi == hi + |data[1..]| * hi;
    }
  }

  lemma MulMonotone(n: int, x: int, y: int)
    requires 0 <= n && x <= y
    ensures n * x <= n * y
  {
    assert n * y - n * x == n * (y - x);
  }

  /** A rounded quotient of a value between n * lo and n * hi lies between lo and hi. */
  lemma RoundedBetween(a: int, n: int, r: int, lo: int, hi: int)
    requires 0 < n && n * lo <= a <= n * hi
    requires 2 * a - n < 2 * n * r <= 2 * a + n
    ensures lo <= r <= hi
  {
    if r < lo {
      MulMonotone(2 * n, r, lo - 1);
      assert false;
    }
    if r > hi {
      MulMonotone(2 * n, hi + 1, r);
      assert false;
    }
  }

  /** The displayed average lies between the smallest and the largest latency. */
  lemma AverageLatencyBounds(data: seq<MetricPoint>, lo: int, hi: int)
    requires data != []
    requires forall i :: 0 <= i < |data| ==> lo <= data[i].latency <= hi
    ensures lo <= AverageLatency(data) <= hi
  {
    TotalLatencyBounds(data, lo, hi);
    RoundedBetween(TotalLatency(data), |data|, AverageLatency(data), lo, hi);
  }

  /** After the hub records a metric, the last-model figure is that metric's model. */
  lemma LastModelAfterAdd(data: seq<MetricPoint>, p: MetricPoint)
    ensures LastModel(Monitor.Push(data, p, Monitor.MaxMetrics)) == p.model
  {
  }

  /** While the store is below its cap, each new metric raises the request count by
      one; at the cap the count stays at the cap. */
  lemma RequestsAfterAdd(data: seq<MetricPoint>, p: MetricPoint)
    requires |data| <= Monitor.MaxMetrics
    ensures TotalRequests(Monitor.Push(data, p, Monitor.MaxMetrics))
         == if |data| < Monitor.MaxMetrics then |data| + 1 else Monitor.MaxMetrics
  {
  }
}
