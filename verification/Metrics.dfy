/** Per-minute counts of finished jobs: a running total, the total at the last flush, and a
    list of data points, newest first. */
module Metrics {
  import opened Redis
  import opened Batches

  const MINUTE: nat := 60000

  datatype Metrics = Metrics(count: nat, prevTs: Option<nat>, prevCount: int, data: seq<int>)

  const Empty := Metrics(0, None, 0, [])

  function Zeros(n: nat): seq<int> {
    seq(n, _ => 0)
  }

  /** What one finished job at `ts` does to the metrics. */
  function Collect(m: Metrics, maxPoints: nat, ts: nat): Metrics {
    if m.prevTs.None? then
      Metrics(m.count + 1, Some(ts), 0, m.data)
    else
      var n := Min(ts / MINUTE - m.prevTs.value / MINUTE, maxPoints);
      if n > 0 then
        var data := Zeros(n - 1) + [m.count - m.prevCount] + m.data;
        Metrics(m.count + 1, Some(ts), m.count, data[..Min(|data|, maxPoints)])
      else m.(count := m.count + 1)
  }

  class MetricsStore {
    var count: nat
    var prevTs: Option<nat>
    var prevCount: int
    var data: seq<int>

    constructor ()
      ensures Model() == Empty
    {
      count, prevTs, prevCount, data := 0, None, 0, [];
    }

    function Model(): Metrics
      reads this
    {
      Metrics(count, prevTs, prevCount, data)
    }

    method CollectMetrics(maxDataPoints: nat, timestamp: nat)
      modifies this
      ensures Model() == Collect(old(Model()), maxDataPoints, timestamp)
    {
      var before := count;
      count := count + 1;
      if prevTs.None? {
        prevTs, prevCount := Some(timestamp), 0;
        return;
      }
      var n := Min(timestamp / MINUTE - prevTs.value / MINUTE, maxDataPoints);
      if n > 0 {
        var delta := before - prevCount;
        if n > 1 {
          var points := [delta];
          for i := 1 to n
            invariant points == [delta] + Zeros(i - 1)
          {
            points := points + [0];
          }
          PushAll(points);
          ReversedPoints(delta, n - 1);
        } else {
          data := [delta] + data;
        }
        assert data == Zeros(n - 1) + [delta] + old(data);
        data := data[..Min(|data|, maxDataPoints)];
        prevCount, prevTs := before, Some(timestamp);
      }
    }

    /** LPUSH of all points, at most 7000 in one command. */
    method PushAll(points: seq<int>)
      modifies this`data
      ensures data == Reverse(points) + old(data)
    {
      var cursor := new BatchCursor(|points|, 7000);
      var batch := cursor.Next();
      var done := 0;
      while batch.Some?
        invariant fresh(cursor) && cursor.n == |points| && cursor.batchSize == 7000
        invariant done <= |points|
        invariant batch.None? ==> done == |points|
        invariant batch.Some? ==> batch.value.from == done + 1 && done < batch.value.to == cursor.Consumed()
        invariant data == Reverse(points[..done]) + old(data)
        decreases |points| - done
      {
        var to := batch.value.to;
        data := Reverse(points[done..to]) + data;
        ReverseConcat(points[..done], points[done..to]);
        assert points[..done] + points[done..to] == points[..to];
        done := to;
        batch := cursor.Next();
      }
      assert points[..done] == points;
    }
  }

  lemma {:induction false} ReversedPoints(delta: int, n: nat)
    ensures Reverse([delta] + Zeros(n)) == Zeros(n) + [delta]
  {
    assert ([delta] + Zeros(n))[1..] == Zeros(n);
    ReversedZeros(n);
  }

  lemma {:induction false} ReversedZeros(n: nat)
    ensures Reverse(Zeros(n)) == Zeros(n)
  {
    if n > 0 {
      assert Zeros(n)[1..] == Zeros(n - 1);
      ReversedZeros(n - 1);
      assert Zeros(n - 1) + [0] == Zeros(n);
    }
  }

  // ---------------------------------------------------------------- the ideal histogram

  /** Jobs among `times` that finished in minute `minute`. */
  function InMinute(times: seq<nat>, minute: int): nat {
    if times == [] then 0
    else (if times[|times| - 1] / MINUTE == minute then 1 else 0) + InMinute(times[..|times| - 1], minute)
  }

  predicate NonDecreasing(times: seq<nat>) {
    forall i, j :: 0 <= i < j < |times| ==> times[i] <= times[j]
  }

  function Current(times: seq<nat>): nat
    requires times != []
  {
    times[|times| - 1] / MINUTE
  }

  /** The metrics hold the per-minute histogram of `times`: point i is the number of jobs of
      minute current - 1 - i, points reach back to the first minute unless trimmed, and the
      total is the flushed count plus the jobs of the current minute. */
  ghost predicate Histogram(m: Metrics, maxPoints: nat, times: seq<nat>) {
    if times == [] then m == Empty
    else
      && m.count == |times|
      && m.prevTs.Some? && m.prevTs.value / MINUTE == Current(times)
      && m.count == m.prevCount + InMinute(times, Current(times))
      && |m.data| == Min(maxPoints, Current(times) - times[0] / MINUTE)
      && forall i :: 0 <= i < |m.data| ==> m.data[i] == InMinute(times, Current(times) - 1 - i)
  }

  function CollectAll(maxPoints: nat, times: seq<nat>): Metrics {
    if times == [] then Empty
    else Collect(CollectAll(maxPoints, times[..|times| - 1]), maxPoints, times[|times| - 1])
  }

  lemma {:induction false} NoneLater(times: seq<nat>, minute: int)
    requires NonDecreasing(times) && times != [] && minute > Current(times)
    ensures InMinute(times, minute) == 0
  {
    var init := times[..|times| - 1];
    if init != [] {
      assert init[|init| - 1] <= times[|times| - 1];
      NoneLater(init, minute);
    }
  }

  lemma InMinuteAppend(times: seq<nat>, ts: nat, minute: int)
    ensures InMinute(times + [ts], minute) == (if ts / MINUTE == minute then 1 else 0) + InMinute(times, minute)
  {
    assert (times + [ts])[..|times|] == times;
  }

  /** One more finished job keeps the histogram right exactly when the minutes skipped since
      the previous one number at most `maxPoints`: over a longer gap the last count is stored
      at the oldest point, minutes away from where it belongs. */
  lemma CollectKeepsHistogramIff(m: Metrics, maxPoints: nat, times: seq<nat>, ts: nat)
    requires times != [] && NonDecreasing(times + [ts]) && Histogram(m, maxPoints, times)
    ensures Histogram(Collect(m, maxPoints, ts), maxPoints, times + [ts])
       <==> ts / MINUTE - Current(times) <= maxPoints
  {
    var all := times + [ts];
    var r := Collect(m, maxPoints, ts);
    var cur := Current(times);
    assert all[|times| - 1] <= all[|times|];
    assert NonDecreasing(times) by {
      forall i, j | 0 <= i < j < |times| ensures times[i] <= times[j] { assert all[i] <= all[j]; }
    }
    forall k: int ensures InMinute(all, k) == (if ts / MINUTE == k then 1 else 0) + InMinute(times, k) {
      InMinuteAppend(times, ts, k);
    }
    forall k: int | k > cur ensures InMinute(times, k) == 0 { NoneLater(times, k); }
    assert InMinute(times, cur) >= 1;
    var gap := ts / MINUTE - cur;
    if 0 < gap <= maxPoints {
      forall i | 0 <= i < |r.data| ensures r.data[i] == InMinute(all, Current(all) - 1 - i) {
        if i >= gap {
          assert r.data[i] == m.data[i - gap];
          assert cur - 1 - (i - gap) == Current(all) - 1 - i;
        } else if i < gap - 1 {
          assert r.data[i] == 0;
        }
      }
    } else if gap > maxPoints > 0 {
      assert r.data[maxPoints - 1] == m.count - m.prevCount;
      assert InMinute(all, Current(all) - 1 - (maxPoints - 1)) == 0;
    }
  }

  /** Over every run of finished jobs in time order with no gap longer than `maxPoints`, the
      incrementally kept metrics are the histogram. */
  lemma {:induction false} MetricsAreHistogram(maxPoints: nat, times: seq<nat>)
    requires NonDecreasing(times)
    requires forall i :: 0 < i < |times| ==> times[i] / MINUTE - times[i - 1] / MINUTE <= maxPoints
    ensures Histogram(CollectAll(maxPoints, times), maxPoints, times)
  {
    if |times| == 1 {
      OneFinish(maxPoints, times[0]);
      assert times == [times[0]];
    } else if times != [] {
      hide Histogram, Collect, InMinute;
      var init, last := times[..|times| - 1], times[|times| - 1];
      assert times == init + [last];
      assert init[|init| - 1] == times[|times| - 2];
      assert NonDecreasing(init);
      forall i | 0 < i < |init| ensures init[i] / MINUTE - init[i - 1] / MINUTE <= maxPoints {
        assert init[i] == times[i] && init[i - 1] == times[i - 1];
      }
      MetricsAreHistogram(maxPoints, init);
      assert times[|times| - 1] / MINUTE - times[|times| - 1 - 1] / MINUTE <= maxPoints;
      CollectKeepsHistogramIff(CollectAll(maxPoints, init), maxPoints, init, last);
    } else {
      NoFinish(maxPoints);
    }
  }

  lemma NoFinish(maxPoints: nat)
    ensures Histogram(CollectAll(maxPoints, []), maxPoints, [])
  {
  }

  lemma OneFinish(maxPoints: nat, ts: nat)
    ensures Histogram(CollectAll(maxPoints, [ts]), maxPoints, [ts])
  {
    assert [ts][..0] == [];
    assert InMinute([ts], ts / MINUTE) == 1;
  }
}
