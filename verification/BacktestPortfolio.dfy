/** All buckets of a backtest together, and the net asset value the report gives. */
module BacktestPortfolio {
  import opened Decimals
  import opened Market
  import opened TransactionCosts
  import opened Backtest
  import opened BacktestLedger

  /** Every bucket keeps its ledger, and no symbol is held beyond the configured maximum across all buckets. */
  ghost predicate AllKept(cfg: Config, strategy: Strategy, buckets: seq<Bucket>) {
    && (forall i :: 0 <= i < |buckets| ==> Kept(cfg, strategy, buckets[i]))
    && (forall symbol :: WithinLimit(cfg, strategy, HeldOf(buckets, symbol)))
  }

  predicate SameCapitals(before: seq<Bucket>, after: seq<Bucket>) {
    && |before| == |after|
    && forall i :: 0 <= i < |before| ==> before[i].initialCapital == after[i].initialCapital
  }

  function Share(b: Bucket, symbol: string): real { if b.symbol == symbol then b.quantity else 0.0 }

  /** Replacing one bucket changes a symbol's total by that bucket's change. */
  lemma {:induction false} HeldAfterUpdate(buckets: seq<Bucket>, i: nat, c: Bucket, symbol: string)
    requires i < |buckets|
    ensures HeldOf(buckets[i := c], symbol) == HeldOf(buckets, symbol) - Share(buckets[i], symbol) + Share(c, symbol)
  {
    var last := |buckets| - 1;
    if i < last {
      assert buckets[i := c][..last] == buckets[..last][i := c];
      HeldAfterUpdate(buckets[..last], i, c, symbol);
    } else {
      assert buckets[i := c][..last] == buckets[..last];
    }
  }

  lemma LessIsWithinLimit(cfg: Config, strategy: Strategy, less: real, held: real)
    requires WithinLimit(cfg, strategy, held) && less <= held
    ensures WithinLimit(cfg, strategy, less)
  {}

  lemma StepKeepsAll(cfg: Config, strategy: Strategy, candles: Candles, time: int, s: Sweep, i: nat)
    requires i < |s.buckets| && AllKept(cfg, strategy, s.buckets)
    ensures var t := BucketStep(cfg, strategy, candles, time, s, i);
            AllKept(cfg, strategy, t.buckets) && SameCapitals(s.buckets, t.buckets)
  {
    hide Kept, Exited, BarDone, HeldOf, WithinLimit;
    var b := s.buckets[i];
    if (b.symbol, time) in candles {
      var bar := candles[(b.symbol, time)];
      var shown := Shown(cfg, b, bar);
      ExitKeeps(cfg, strategy, b, bar);
      ExitKeepsIdentity(cfg, b, bar);
      SameLedger(cfg, strategy, Exited(cfg, b, bar), b.history + [bar], b.peak);
      var buckets := s.buckets[i := shown];
      var combined := HeldOf(buckets, b.symbol);
      BarKeeps(cfg, strategy, combined, shown, bar);
      var c := BarDone(cfg, strategy, combined, shown, bar).0;
      var final := buckets[i := c];
      forall symbol ensures WithinLimit(cfg, strategy, HeldOf(final, symbol)) {
        assert WithinLimit(cfg, strategy, HeldOf(s.buckets, symbol));
        HeldAfterUpdate(s.buckets, i, shown, symbol);
        HeldAfterUpdate(buckets, i, c, symbol);
        if symbol == b.symbol && c.quantity != shown.quantity {
          assert HeldOf(final, symbol) == combined + c.quantity;
        } else {
          LessIsWithinLimit(cfg, strategy, HeldOf(final, symbol), HeldOf(s.buckets, symbol));
        }
      }
    }
  }

  lemma {:induction false} SweepKeepsAll(cfg: Config, strategy: Strategy, candles: Candles, time: int,
                                         buckets: seq<Bucket>, n: nat)
    requires n <= |buckets| && AllKept(cfg, strategy, buckets)
    ensures var t := SweepFirst(cfg, strategy, candles, time, buckets, n);
            AllKept(cfg, strategy, t.buckets) && SameCapitals(buckets, t.buckets)
  {
    hide BucketStep, AllKept;
    if n > 0 {
      SweepKeepsAll(cfg, strategy, candles, time, buckets, n - 1);
      StepKeepsAll(cfg, strategy, candles, time, SweepFirst(cfg, strategy, candles, time, buckets, n - 1), n - 1);
    }
  }

  /** For every configuration, feed and deterministic strategy, after every timestamp: signals are counted once, no
      symbol is held beyond the limit over all buckets, cash stays at or above the lesser of the capital and 0 with
      slippage on; for quantities of at most four decimals trades are counted exactly and the books balance up to
      rounding; for whole shares with slippage on they balance exactly. */
  lemma {:induction false} RunKeepsAll(cfg: Config, strategy: Strategy, candles: Candles,
                                       buckets: seq<Bucket>, times: seq<int>)
    requires AllKept(cfg, strategy, buckets)
    ensures var p := RunOver(cfg, strategy, candles, buckets, times);
            AllKept(cfg, strategy, p.buckets) && SameCapitals(buckets, p.buckets)
  {
    hide AllKept, SweepFirst;
    if times != [] {
      var last := |times| - 1;
      RunKeepsAll(cfg, strategy, candles, buckets, times[..last]);
      var p := RunOver(cfg, strategy, candles, buckets, times[..last]);
      SweepKeepsAll(cfg, strategy, candles, times[last], p.buckets, |p.buckets|);
    }
  }

  /** New buckets start out kept, whatever capital they are given. */
  lemma NewBucketsAreKept(cfg: Config, strategy: Strategy, buckets: seq<Bucket>)
    requires forall i :: 0 <= i < |buckets| ==>
               buckets[i] == NewBucket(buckets[i].id, buckets[i].symbol, buckets[i].initialCapital)
    ensures AllKept(cfg, strategy, buckets)
  {
    ZeroIsOnGrid();
    OneCent();
    hide Pips, Whole, Cents, Unrounded, FineSignals, NewBucket;
    forall i | 0 <= i < |buckets| ensures Kept(cfg, strategy, buckets[i]) {
      NewBucketIsKept(cfg, strategy, buckets[i]);
    }
    forall symbol ensures HeldOf(buckets, symbol) == 0.0 {
      forall i | 0 <= i < |buckets| ensures buckets[i].quantity == 0.0 { NewBucketIsKept(cfg, strategy, buckets[i]); }
      FlatBucketsHoldNothing(buckets, symbol);
    }
  }

  lemma NewBucketIsKept(cfg: Config, strategy: Strategy, b: Bucket)
    requires b == NewBucket(b.id, b.symbol, b.initialCapital)
    ensures Kept(cfg, strategy, b) && b.quantity == 0.0
  {
    ZeroIsOnGrid();
    OneCent();
    hide Pips, Whole, Cents, Unrounded, FineSignals;
  }

  lemma {:induction false} FlatBucketsHoldNothing(buckets: seq<Bucket>, symbol: string)
    requires forall i :: 0 <= i < |buckets| ==> buckets[i].quantity == 0.0
    ensures HeldOf(buckets, symbol) == 0.0
  {
    if buckets != [] { FlatBucketsHoldNothing(buckets[..|buckets| - 1], symbol); }
  }

  // ---- The trade counter ------------------------------------------------------------------------------------

  predicate AllCounted(buckets: seq<Bucket>) { forall i :: 0 <= i < |buckets| ==> Counted(buckets[i]) }

  predicate AllAudited(buckets: seq<Bucket>) { forall i :: 0 <= i < |buckets| ==> Audited(buckets[i]) }

  /** This bucket's bar is filled as dust. */
  predicate DustAt(cfg: Config, strategy: Strategy, candles: Candles, time: int, s: Sweep, i: nat)
    requires i < |s.buckets|
  {
    var b := s.buckets[i];
    (b.symbol, time) in candles &&
    var bar := candles[(b.symbol, time)];
    var shown := Shown(cfg, b, bar);
    DustBar(cfg, strategy, HeldOf(s.buckets[i := shown], b.symbol), shown, bar)
  }

  predicate DustFreeSweep(cfg: Config, strategy: Strategy, candles: Candles, time: int, buckets: seq<Bucket>, n: nat)
    requires n <= |buckets|
  {
    n > 0 ==>
      && DustFreeSweep(cfg, strategy, candles, time, buckets, n - 1)
      && !DustAt(cfg, strategy, candles, time, SweepFirst(cfg, strategy, candles, time, buckets, n - 1), n - 1)
  }

  /** No fill of the run is dust. */
  predicate DustFree(cfg: Config, strategy: Strategy, candles: Candles, buckets: seq<Bucket>, times: seq<int>) {
    times != [] ==>
      var last := |times| - 1;
      var before := RunOver(cfg, strategy, candles, buckets, times[..last]).buckets;
      && DustFree(cfg, strategy, candles, buckets, times[..last])
      && DustFreeSweep(cfg, strategy, candles, times[last], before, |before|)
  }

  lemma StepIsAuditedExactlyWhen(cfg: Config, strategy: Strategy, candles: Candles, time: int, s: Sweep, i: nat)
    requires i < |s.buckets| && AllCounted(s.buckets)
    ensures var t := BucketStep(cfg, strategy, candles, time, s, i);
            && AllCounted(t.buckets)
            && (AllAudited(t.buckets) <==> AllAudited(s.buckets) && !DustAt(cfg, strategy, candles, time, s, i))
  {
    hide Counted, Audited, Exited, BarDone, HeldOf, DustBar;
    var b := s.buckets[i];
    if (b.symbol, time) in candles {
      var bar := candles[(b.symbol, time)];
      var shown := Shown(cfg, b, bar);
      ExitIsAuditedExactlyWhen(cfg, b, bar);
      SameCounters(Exited(cfg, b, bar), b.history + [bar]);
      var combined := HeldOf(s.buckets[i := shown], b.symbol);
      BarIsAuditedExactlyWhen(cfg, strategy, combined, shown, bar);
      OneBucketAudited(s.buckets, i, BarDone(cfg, strategy, combined, shown, bar).0,
                       !DustAt(cfg, strategy, candles, time, s, i));
      assert s.buckets[i := shown][i := BarDone(cfg, strategy, combined, shown, bar).0]
             == s.buckets[i := BarDone(cfg, strategy, combined, shown, bar).0];
    }
  }

  lemma SameCounters(b: Bucket, history: seq<Bar>)
    ensures Counted(b.(history := history)) <==> Counted(b)
    ensures Audited(b.(history := history)) <==> Audited(b)
  {}

  lemma OneBucketAudited(buckets: seq<Bucket>, i: nat, c: Bucket, clean: bool)
    requires i < |buckets| && AllCounted(buckets) && Counted(c) && (Audited(c) <==> Audited(buckets[i]) && clean)
    ensures AllCounted(buckets[i := c]) && (AllAudited(buckets[i := c]) <==> AllAudited(buckets) && clean)
  {
    hide Counted, Audited;
    if AllAudited(buckets[i := c]) {
      assert Audited(buckets[i := c][i]);
      forall k | 0 <= k < |buckets| ensures Audited(buckets[k]) { assert Audited(buckets[i := c][k]); }
    }
  }

  lemma {:induction false} SweepIsAuditedExactlyWhen(cfg: Config, strategy: Strategy, candles: Candles, time: int,
                                                     buckets: seq<Bucket>, n: nat)
    requires n <= |buckets| && AllCounted(buckets)
    ensures var t := SweepFirst(cfg, strategy, candles, time, buckets, n);
            && AllCounted(t.buckets)
            && (AllAudited(t.buckets)
                <==> AllAudited(buckets) && DustFreeSweep(cfg, strategy, candles, time, buckets, n))
  {
    hide BucketStep, AllCounted, AllAudited, DustAt;
    if n > 0 {
      SweepIsAuditedExactlyWhen(cfg, strategy, candles, time, buckets, n - 1);
      StepIsAuditedExactlyWhen(cfg, strategy, candles, time,
                               SweepFirst(cfg, strategy, candles, time, buckets, n - 1), n - 1);
    }
  }

  /** For every configuration, feed and strategy: at the end of a run executed signals are completed trades and open
      positions, in every bucket, if and only if they were at its start and no fill of the run was dust. */
  lemma {:induction false} RunIsAuditedExactlyWhen(cfg: Config, strategy: Strategy, candles: Candles,
                                                   buckets: seq<Bucket>, times: seq<int>)
    requires AllCounted(buckets)
    ensures var final := RunOver(cfg, strategy, candles, buckets, times).buckets;
            && AllCounted(final)
            && (AllAudited(final) <==> AllAudited(buckets) && DustFree(cfg, strategy, candles, buckets, times))
  {
    hide AllCounted, AllAudited, SweepFirst, DustFreeSweep;
    if times != [] {
      var last := |times| - 1;
      RunIsAuditedExactlyWhen(cfg, strategy, candles, buckets, times[..last]);
      var before := RunOver(cfg, strategy, candles, buckets, times[..last]).buckets;
      SweepIsAuditedExactlyWhen(cfg, strategy, candles, times[last], before, |before|);
    }
  }

  lemma NewBucketsAreAudited(buckets: seq<Bucket>)
    requires forall i :: 0 <= i < |buckets| ==>
               buckets[i] == NewBucket(buckets[i].id, buckets[i].symbol, buckets[i].initialCapital)
    ensures AllCounted(buckets) && AllAudited(buckets)
  {}

  const Speck := Signal(Buy, Some(0.00004), None, None)
  const Plain := Config(true, false, false, false, None, Delivery)

  /** One bar at 50 and a signal for 0.00004 shares: a trade is counted, and there is neither a trade nor a position. */
  lemma DustIsCountedAsTrade(strategy: Strategy)
    requires strategy == ((id: string, history: seq<Bar>) => Some(Speck))
    ensures var final := Run(Plain, strategy, [NewBucket("s", "SBIN", 100.0)],
                             [Quote("SBIN", Bar(1, 50.0, 50.0, 50.0, 50.0, 0.0))]).buckets;
            |final| == 1 && final[0].tradesExecuted == 1 && final[0].trades == [] && final[0].quantity == 0.0
  {
    hide Touched, Closing;
    var bar := Bar(1, 50.0, 50.0, 50.0, 50.0, 0.0);
    var b := NewBucket("s", "SBIN", 100.0);
    var buckets, feed := [b], [Quote("SBIN", bar)];
    assert feed[..0] == [] && CandleMap(feed) == map[("SBIN", 1) := bar];
    assert Timestamps(feed) == [1] && [1][..0] == [];
    SpeckIsFilled(b, bar);
    hide Entered, HalfEven2, Equity, HeldOf;
    var c := Entered(Plain, HeldOf([Shown(Plain, b, bar)], "SBIN"), Shown(Plain, b, bar), bar, Speck).0;
    assert Shown(Plain, b, bar) == b.(history := [bar]);
    assert RunOver(Plain, strategy, CandleMap(feed), buckets, []) == Progress(buckets, []);
    assert SweepFirst(Plain, strategy, CandleMap(feed), 1, buckets, 0) == Sweep(buckets, 0.0);
  }

  lemma SpeckIsFilled(b: Bucket, bar: Bar)
    requires b.cash == 100.0 && b.quantity == 0.0 && bar.close == 50.0
    ensures forall combined :: var (c, abandoned) := Entered(Plain, combined, b.(history := [bar]), bar, Speck);
              !abandoned && c.tradesExecuted == b.tradesExecuted + 1 && c.trades == b.trades && c.quantity == 0.0
  {
    RoundedAway(0.00004);
    hide HalfEven4, HalfEven2;
    NotionalIs(0.00004, 50.0);
  }

  // ---- The reported net asset value -------------------------------------------------------------------------

  function TotalBooked(buckets: seq<Bucket>): real {
    if buckets == [] then 0.0
    else TotalBooked(buckets[..|buckets| - 1]) + (buckets[|buckets| - 1].cash + buckets[|buckets| - 1].costBasis)
  }

  function TotalAllocated(buckets: seq<Bucket>): real {
    if buckets == [] then 0.0 else TotalAllocated(buckets[..|buckets| - 1]) + buckets[|buckets| - 1].initialCapital
  }

  function TotalDrift(fine: bool, buckets: seq<Bucket>): real {
    if buckets == [] then 0.0 else TotalDrift(fine, buckets[..|buckets| - 1]) + Drift(fine, buckets[|buckets| - 1])
  }

  predicate AllBalanced(fine: bool, buckets: seq<Bucket>) {
    forall i :: 0 <= i < |buckets| ==> Balanced(fine, buckets[i])
  }

  predicate AllFunded(buckets: seq<Bucket>) { forall i :: 0 <= i < |buckets| ==> Funded(buckets[i]) }

  lemma {:induction false} BooksAddUp(fine: bool, buckets: seq<Bucket>)
    ensures AllBalanced(fine, buckets) ==>
              Abs(TotalBooked(buckets) - TotalAllocated(buckets) - TotalRealized(buckets)) <= TotalDrift(fine, buckets)
    ensures AllFunded(buckets) ==> TotalBooked(buckets) == TotalAllocated(buckets) + TotalRealized(buckets)
  {
    hide Drift, BookedCost, Rounding;
    if buckets != [] { BooksAddUp(fine, buckets[..|buckets| - 1]); }
  }

  /** The default allocation: an equal share, rounded to four decimals. */
  function EqualShare(total: real, n: nat): real
    requires n > 0
  {
    HalfEven4(total / n as real)
  }

  lemma {:induction false} EqualAllocations(buckets: seq<Bucket>, share: real)
    requires forall i :: 0 <= i < |buckets| ==> buckets[i].initialCapital == share
    ensures TotalAllocated(buckets) == Notional(|buckets| as real, share)
  {
    hide Notional;
    if buckets == [] {
      NotionalOfZero(share);
    } else {
      EqualAllocations(buckets[..|buckets| - 1], share);
      NotionalSplits((|buckets| - 1) as real, 1.0, share);
      NotionalOfOne(share);
    }
  }

  lemma SplitError(total: real, n: nat)
    requires n > 0
    ensures Abs(Notional(n as real, EqualShare(total, n)) - total) <= n as real * 0.00005
  {
    hide HalfEven4, Notional;
    var m, share := n as real, EqualShare(total, n);
    var exact := total / m;
    NotionalNonNegative(m, 0.00005 - (share - exact));
    NotionalNonNegative(m, 0.00005 + (share - exact));
    NotionalOfGain(m, share, exact);
    NotionalOfGain(m, 0.00005, share - exact);
    NotionalOfGain(m, share - exact, -0.00005);
    ExactSplit(total, m);
  }

  lemma ExactSplit(total: real, m: real)
    requires m > 0.0
    ensures Notional(m, total / m) == total
    ensures Notional(m, 0.00005) == m * 0.00005 && Notional(m, -0.00005) == -(m * 0.00005)
  {
    DivideBack(total, m);
  }

  /** However the capital was allocated: the report differs from the books by what was not allocated, up to what
      rounding has moved in the trades and the report's own rounding to the paisa. */
  lemma NavGapIsUnallocated(fine: bool, total: real, buckets: seq<Bucket>)
    ensures var gap := ReportedNav(total, buckets) - TotalBooked(buckets) - (total - TotalAllocated(buckets));
            && (AllBalanced(fine, buckets) ==> Abs(gap) <= 0.005 + TotalDrift(fine, buckets))
            && (AllFunded(buckets) ==> Abs(gap) <= 0.005)
            && Cents(ReportedNav(total, buckets))
  {
    hide HalfEven2, AllFunded, AllBalanced, TotalDrift;
    BooksAddUp(fine, buckets);
  }

  /** With 100 rupees of 1000 given to nobody, an idle backtest reports 1000 and has 900. */
  lemma UnallocatedCapitalIsReported()
    ensures var buckets := [NewBucket("s", "SBIN", 900.0)];
            ReportedNav(1000.0, buckets) == 1000.0 && TotalBooked(buckets) == 900.0
  {
    assert Cents(1000.0) by { WholeBy(1000.0 * 100.0, 100000); }
    hide HalfEven2, Cents;
    var buckets := [NewBucket("s", "SBIN", 900.0)];
    assert buckets[..0] == [];
    assert TotalRealized(buckets) == 0.0;
  }

  /** Every backtest from new buckets of one share each ends with their capitals, and, unless a fill was dust, with
      balanced books. */
  lemma FinalBooks(cfg: Config, strategy: Strategy, share: real, buckets: seq<Bucket>, feed: seq<Quote>)
    requires Pips(share)
    requires forall i :: 0 <= i < |buckets| ==> buckets[i] == NewBucket(buckets[i].id, buckets[i].symbol, share)
    requires DustFree(cfg, strategy, CandleMap(feed), buckets, Timestamps(feed))
    ensures var final := Run(cfg, strategy, buckets, feed).buckets;
            && |final| == |buckets| && (forall i :: 0 <= i < |final| ==> final[i].initialCapital == share)
            && AllBalanced(FineSignals(strategy), final)
            && (Unrounded(cfg, strategy) ==> AllFunded(final))
  {
    assert forall i :: 0 <= i < |buckets| ==> buckets[i].initialCapital == share;
    NewBucketsAreAudited(buckets);
    NewBucketsAreKept(cfg, strategy, buckets);
    hide Pips, Unrounded, FineSignals, AllKept, AllBalanced, AllFunded, AllCounted, AllAudited, NewBucket;
    hide RunOver, CandleMap, Timestamps, DustFree;
    RunKeepsAll(cfg, strategy, CandleMap(feed), buckets, Timestamps(feed));
    RunIsAuditedExactlyWhen(cfg, strategy, CandleMap(feed), buckets, Timestamps(feed));
    KeptBooks(cfg, strategy, share, Run(cfg, strategy, buckets, feed).buckets);
  }

  lemma KeptBooks(cfg: Config, strategy: Strategy, share: real, buckets: seq<Bucket>)
    requires AllKept(cfg, strategy, buckets) && AllAudited(buckets) && Pips(share)
    requires forall i :: 0 <= i < |buckets| ==> buckets[i].initialCapital == share
    ensures AllBalanced(FineSignals(strategy), buckets)
    ensures Unrounded(cfg, strategy) ==> AllFunded(buckets)
  {
    hide Pips, Unrounded, FineSignals, Audited, Balanced, Funded, WithinLimit, HeldOf;
  }

  /** For every backtest with the default split in which no fill was dust, under any configuration and strategy, the
      reported net asset value is what the buckets hold in cash and at cost, up to the rounding of the split, of the
      report and of the trades; for whole shares with slippage on the trades add nothing to that. */
  lemma ReportedNavMatchesBooks(cfg: Config, strategy: Strategy, total: real, buckets: seq<Bucket>, feed: seq<Quote>)
    requires buckets != []
    requires forall i :: 0 <= i < |buckets| ==>
               buckets[i] == NewBucket(buckets[i].id, buckets[i].symbol, EqualShare(total, |buckets|))
    requires DustFree(cfg, strategy, CandleMap(feed), buckets, Timestamps(feed))
    ensures var final := Run(cfg, strategy, buckets, feed).buckets;
            var gap := Abs(ReportedNav(total, final) - TotalBooked(final));
            && |final| == |buckets|
            && gap <= 0.005 + |buckets| as real * 0.00005 + TotalDrift(FineSignals(strategy), final)
            && (Unrounded(cfg, strategy) ==> gap <= 0.005 + |buckets| as real * 0.00005)
  {
    hide Unrounded, FineSignals, AllBalanced, AllFunded, NewBucket, Run, TotalDrift, TotalBooked, TotalAllocated;
    hide EqualShare, Notional, ReportedNav, Pips, DustFree, CandleMap, Timestamps;
    var share := EqualShare(total, |buckets|);
    assert Pips(share) by { ShareIsFine(total, |buckets|); }
    FinalBooks(cfg, strategy, share, buckets, feed);
    var final := Run(cfg, strategy, buckets, feed).buckets;
    NavGapIsUnallocated(FineSignals(strategy), total, final);
    EqualAllocations(final, share);
    SplitError(total, |buckets|);
  }

  lemma ShareIsFine(total: real, n: nat)
    requires n > 0
    ensures Pips(EqualShare(total, n))
  {}
}
