/** A backtest on a truncated feed is the beginning of the backtest on the whole feed. */
module NoLookAhead {
  import opened Decimals
  import opened Backtest

  /** The feed without the candles later than `t`. */
  function Before(feed: seq<Quote>, t: int): seq<Quote> {
    if feed == [] then []
    else
      var last := feed[|feed| - 1];
      Before(feed[..|feed| - 1], t) + (if last.bar.timestamp <= t then [last] else [])
  }

  // ---- The index --------------------------------------------------------------------------------------------

  lemma IndexExtends(feed: seq<Quote>, q: Quote)
    ensures CandleMap(feed + [q]) == CandleMap(feed)[(q.symbol, q.bar.timestamp) := q.bar]
    ensures Timestamps(feed + [q]) == Inserted(Timestamps(feed), q.bar.timestamp)
    ensures forall x :: Mentions(feed + [q], x) <==> Mentions(feed, x) || x == q.bar.timestamp
  {
    assert (feed + [q])[..|feed|] == feed;
  }

  lemma {:induction false} SameCandlesBefore(feed: seq<Quote>, t: int, symbol: string, time: int)
    requires time <= t
    ensures (symbol, time) in CandleMap(feed) <==> (symbol, time) in CandleMap(Before(feed, t))
    ensures (symbol, time) in CandleMap(feed)
            ==> CandleMap(feed)[(symbol, time)] == CandleMap(Before(feed, t))[(symbol, time)]
  {
    if feed != [] {
      var last := |feed| - 1;
      SameCandlesBefore(feed[..last], t, symbol, time);
      IndexExtends(Before(feed[..last], t), feed[last]);
      assert feed[last].bar.timestamp > t ==> Before(feed, t) == Before(feed[..last], t);
    }
  }

  // ---- The timestamps ---------------------------------------------------------------------------------------

  predicate Mentions(feed: seq<Quote>, time: int) {
    feed != [] && (feed[|feed| - 1].bar.timestamp == time || Mentions(feed[..|feed| - 1], time))
  }

  predicate Increasing(times: seq<int>) {
    forall i, j :: 0 <= i < j < |times| ==> times[i] < times[j]
  }

  lemma {:induction false} InsertedIsIncreasing(times: seq<int>, t: int)
    requires Increasing(times)
    ensures Increasing(Inserted(times, t))
    ensures forall x :: x in Inserted(times, t) <==> x in times || x == t
  {
    if times != [] {
      var last := |times| - 1;
      assert times == times[..last] + [times[last]];
      if times[last] > t {
        var front := Inserted(times[..last], t);
        InsertedIsIncreasing(times[..last], t);
        forall i | 0 <= i < |front| ensures front[i] < times[last] {
          assert front[i] in front;
        }
      }
    }
  }

  /** The timestamps are the distinct timestamps of the feed, in increasing order. */
  lemma {:induction false} TimestampsAreSorted(feed: seq<Quote>)
    ensures Increasing(Timestamps(feed))
    ensures forall x :: x in Timestamps(feed) <==> Mentions(feed, x)
  {
    if feed != [] {
      var last := |feed| - 1;
      TimestampsAreSorted(feed[..last]);
      InsertedIsIncreasing(Timestamps(feed[..last]), feed[last].bar.timestamp);
    }
  }

  function UpTo(times: seq<int>, t: int): nat {
    if times == [] then 0
    else if times[|times| - 1] <= t then |times|
    else UpTo(times[..|times| - 1], t)
  }

  lemma {:induction false} UpToSplits(times: seq<int>, t: int)
    requires Increasing(times)
    ensures UpTo(times, t) <= |times|
    ensures forall i :: 0 <= i < |times| ==> (times[i] <= t <==> i < UpTo(times, t))
  {
    if times != [] && times[|times| - 1] > t { UpToSplits(times[..|times| - 1], t); }
  }

  lemma FrontIsBelowLast(a: seq<int>)
    requires Increasing(a) && a != []
    ensures Increasing(a[..|a| - 1])
    ensures forall x :: x in a[..|a| - 1] <==> x in a && x < a[|a| - 1]
    ensures forall x :: x in a ==> x <= a[|a| - 1]
    ensures a[|a| - 1] in a
  {
    assert a == a[..|a| - 1] + [a[|a| - 1]];
  }

  /** Increasing sequences with the same elements are the same. */
  lemma {:induction false} IncreasingIsUnique(a: seq<int>, b: seq<int>)
    requires Increasing(a) && Increasing(b) && forall x :: x in a <==> x in b
    ensures a == b
  {
    assert |a| > 0 ==> a[0] in a && a[0] in b;
    assert |b| > 0 ==> b[0] in b && b[0] in a;
    hide Increasing;
    if a != [] {
      var m, n := |a| - 1, |b| - 1;
      FrontIsBelowLast(a);
      FrontIsBelowLast(b);
      assert a[m] == b[n];
      forall x ensures x in a[..m] <==> x in b[..n] {
        assert x in a <==> x in b;
      }
      IncreasingIsUnique(a[..m], b[..n]);
      assert a == a[..m] + [a[m]] && b == b[..n] + [b[n]];
    }
  }

  lemma {:induction false} BeforeKeepsEarly(feed: seq<Quote>, t: int, x: int)
    ensures Mentions(Before(feed, t), x) <==> x <= t && Mentions(feed, x)
  {
    if feed != [] {
      var last := |feed| - 1;
      BeforeKeepsEarly(feed[..last], t, x);
      IndexExtends(Before(feed[..last], t), feed[last]);
      assert feed[last].bar.timestamp > t ==> Before(feed, t) == Before(feed[..last], t);
    }
  }

  /** Dropping the later candles leaves exactly the earlier timestamps. */
  lemma TimestampsBefore(feed: seq<Quote>, t: int)
    ensures UpTo(Timestamps(feed), t) <= |Timestamps(feed)|
    ensures Timestamps(Before(feed, t)) == Timestamps(feed)[..UpTo(Timestamps(feed), t)]
    ensures forall x :: x in Timestamps(Before(feed, t)) ==> x <= t
  {
    hide Timestamps, Before, UpTo, Mentions;
    var all, early := Timestamps(feed), Timestamps(Before(feed, t));
    TimestampsAreSorted(feed);
    TimestampsAreSorted(Before(feed, t));
    UpToSplits(all, t);
    var prefix := all[..UpTo(all, t)];
    forall x ensures x in early <==> x in prefix {
      BeforeKeepsEarly(feed, t, x);
      if x in all && x <= t {
        var i :| 0 <= i < |all| && all[i] == x;
        assert prefix[i] == x;
      }
    }
    forall x | x in early ensures x <= t { BeforeKeepsEarly(feed, t, x); }
    IncreasingIsUnique(early, prefix);
  }

  // ---- The run ----------------------------------------------------------------------------------------------

  /** Both indexes give the same candle, or none, for every symbol at this time. */
  ghost predicate AgreeAt(c1: Candles, c2: Candles, time: int) {
    forall symbol :: (symbol, time) in c1 <==> (symbol, time) in c2
  }

  ghost predicate SameAt(c1: Candles, c2: Candles, time: int) {
    AgreeAt(c1, c2, time) && forall symbol :: (symbol, time) in c1 && (symbol, time) in c2
                                              ==> c1[(symbol, time)] == c2[(symbol, time)]
  }

  lemma {:induction false} SweepReadsOnlyItsTime(cfg: Config, strategy: Strategy, c1: Candles, c2: Candles, time: int,
                                                 buckets: seq<Bucket>, n: nat)
    requires n <= |buckets| && SameAt(c1, c2, time)
    ensures SweepFirst(cfg, strategy, c1, time, buckets, n) == SweepFirst(cfg, strategy, c2, time, buckets, n)
  {
    hide Shown, BarDone, HeldOf;
    if n > 0 { SweepReadsOnlyItsTime(cfg, strategy, c1, c2, time, buckets, n - 1); }
  }

  lemma {:induction false} RunReadsOnlyItsTimes(cfg: Config, strategy: Strategy, c1: Candles, c2: Candles,
                                                buckets: seq<Bucket>, times: seq<int>)
    requires forall time :: time in times ==> SameAt(c1, c2, time)
    ensures RunOver(cfg, strategy, c1, buckets, times) == RunOver(cfg, strategy, c2, buckets, times)
  {
    hide SweepFirst, SameAt;
    if times != [] {
      var last := |times| - 1;
      assert times == times[..last] + [times[last]];
      RunReadsOnlyItsTimes(cfg, strategy, c1, c2, buckets, times[..last]);
      var p := RunOver(cfg, strategy, c1, buckets, times[..last]);
      SweepReadsOnlyItsTime(cfg, strategy, c1, c2, times[last], p.buckets, |p.buckets|);
    }
  }

  /** The equity curve of a run over fewer timestamps is the beginning of the longer curve. */
  lemma {:induction false} CurveGrows(cfg: Config, strategy: Strategy, candles: Candles, buckets: seq<Bucket>,
                                      times: seq<int>, k: nat)
    requires k <= |times|
    ensures |RunOver(cfg, strategy, candles, buckets, times).curve| == |times|
    ensures RunOver(cfg, strategy, candles, buckets, times[..k]).curve
            == RunOver(cfg, strategy, candles, buckets, times).curve[..k]
  {
    hide SweepFirst, HalfEven2;
    if k == |times| {
      assert times[..k] == times;
      if k > 0 { CurveGrows(cfg, strategy, candles, buckets, times[..k - 1], k - 1); }
    } else {
      var last := |times| - 1;
      assert times[..last][..k] == times[..k];
      CurveGrows(cfg, strategy, candles, buckets, times[..last], k);
    }
  }

  /** No look-ahead: without the candles later than `t`, the backtest ends with the very buckets (cash, positions,
      stops, counters, trades, strategy inputs) that the full backtest had after its last timestamp up to `t`, and
      with that part of its equity curve. */
  lemma NoLookAhead(cfg: Config, strategy: Strategy, buckets: seq<Bucket>, feed: seq<Quote>, t: int)
    ensures var times := Timestamps(feed);
            var k := UpTo(times, t);
            && k <= |times|
            && Run(cfg, strategy, buckets, Before(feed, t))
               == RunOver(cfg, strategy, CandleMap(feed), buckets, times[..k])
            && k <= |Run(cfg, strategy, buckets, feed).curve|
            && Run(cfg, strategy, buckets, Before(feed, t)).curve == Run(cfg, strategy, buckets, feed).curve[..k]
  {
    hide CandleMap, Before, Timestamps, UpTo, RunOver;
    var times := Timestamps(feed);
    var k := UpTo(times, t);
    TimestampsBefore(feed, t);
    var early := Timestamps(Before(feed, t));
    forall time | time in early ensures SameAt(CandleMap(Before(feed, t)), CandleMap(feed), time) {
      forall symbol
        ensures (symbol, time) in CandleMap(feed) <==> (symbol, time) in CandleMap(Before(feed, t))
        ensures (symbol, time) in CandleMap(feed)
                ==> CandleMap(feed)[(symbol, time)] == CandleMap(Before(feed, t))[(symbol, time)]
      {
        SameCandlesBefore(feed, t, symbol, time);
      }
    }
    RunReadsOnlyItsTimes(cfg, strategy, CandleMap(Before(feed, t)), CandleMap(feed), buckets, early);
    CurveGrows(cfg, strategy, CandleMap(feed), buckets, times, k);
  }
}
