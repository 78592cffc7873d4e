/** The trailing stop of a long position, as a function of the prices seen. */
module TrailingStop {
  import opened Decimals
  import opened Market

  function ProfitRatio(average: real, price: real): real
    requires 0.0 < average
  {
    (price - average) / average
  }

  /** The stop a price justifies, if it justifies one. */
  function Candidate(average: real, price: real): Option<real>
    requires 0.0 < average
  {
    var ratio := ProfitRatio(average, price);
    if ratio >= 0.05 then Some(Max(HalfEven2(average * 1.035), HalfEven2(price * 0.985)))
    else if ratio >= 0.03 then Some(Max(HalfEven2(average * 1.015), HalfEven2(price * 0.985)))
    else if ratio >= 0.015 then Some(HalfEven2(average * 1.001))
    else None
  }

  function Raised(average: real, stop: real, price: real): real
    requires 0.0 < average
  {
    var c := Candidate(average, price);
    if c.Some? && c.value > stop then c.value else stop
  }

  function Follow(average: real, stop: real, ticks: seq<real>): real
    requires 0.0 < average
  {
    if ticks == [] then stop
    else Raised(average, Follow(average, stop, ticks[..|ticks| - 1]), ticks[|ticks| - 1])
  }

  function Highest(ticks: seq<real>): (h: real)
    requires ticks != []
    ensures h in ticks
    ensures forall t :: t in ticks ==> t <= h
  {
    var last := |ticks| - 1;
    if last == 0 then ticks[0]
    else
      var h := Highest(ticks[..last]);
      assert ticks == ticks[..last] + [ticks[last]];
      Max(h, ticks[last])
  }

  lemma RatioThreshold(average: real, price: real, k: real)
    requires 0.0 < average
    ensures ProfitRatio(average, price) >= k <==> price >= average + average * k
  {
    var r := ProfitRatio(average, price);
    DivideBack(price - average, average);
    if r >= k {
      NotionalNonNegative(average, r - k);
      assert average * (r - k) == (price - average) - average * k;
    } else {
      SignOfProduct(average, k - r);
      assert average * (k - r) == average * k - (price - average);
    }
  }

  lemma Thresholds(average: real, price: real)
    requires 0.0 < average
    ensures ProfitRatio(average, price) >= 0.05 <==> price >= average * 1.05
    ensures ProfitRatio(average, price) >= 0.03 <==> price >= average * 1.03
    ensures ProfitRatio(average, price) >= 0.015 <==> price >= average * 1.015
  {
    hide ProfitRatio;
    RatioThreshold(average, price, 0.05);
    RatioThreshold(average, price, 0.03);
    RatioThreshold(average, price, 0.015);
  }

  /** What a price locks in. From a gain of 5 percent on, 3.5 percent or 1.5 percent below the price, whichever is more;
      from 3 percent, 1.5 percent or the same distance; from 1.5 percent, 0.1 percent; below that the stop stays. */
  lemma RaisedTo(average: real, stop: real, price: real)
    requires 0.0 < average
    ensures var raised := Raised(average, stop, price);
            && (average * 1.05 <= price ==>
                  Abs(raised - Max(stop, Max(average * 1.035, price * 0.985))) <= 0.005)
            && (average * 1.03 <= price < average * 1.05 ==>
                  Abs(raised - Max(stop, Max(average * 1.015, price * 0.985))) <= 0.005)
            && (average * 1.015 <= price < average * 1.03 ==> Abs(raised - Max(stop, average * 1.001)) <= 0.005)
            && (price < average * 1.015 ==> raised == stop)
  {
    hide ProfitRatio, HalfEven2;
    Thresholds(average, price);
  }

  /** A higher price never justifies a lower stop. */
  lemma CandidateMonotone(average: real, low: real, high: real)
    requires 0.0 < average && low <= high
    ensures Candidate(average, low).Some? ==>
              Candidate(average, high).Some? && Candidate(average, low).value <= Candidate(average, high).value
  {
    hide ProfitRatio, HalfEven2;
    Thresholds(average, low);
    Thresholds(average, high);
    HalfEven2Monotone(average * 1.001, average * 1.015);
    HalfEven2Monotone(average * 1.015, average * 1.035);
    HalfEven2Monotone(low * 0.985, high * 0.985);
  }

  /** The stop after a run of ticks, from its start and the highest tick alone. */
  function ClosedForm(average: real, stop: real, ticks: seq<real>): real
    requires 0.0 < average
  {
    if ticks == [] || Candidate(average, Highest(ticks)).None? then stop
    else Max(stop, Candidate(average, Highest(ticks)).value)
  }

  /** For every run of ticks, the ratchet ends where the highest tick alone would have put it. */
  lemma {:induction false} FollowIsClosedForm(average: real, stop: real, ticks: seq<real>)
    requires 0.0 < average
    ensures Follow(average, stop, ticks) == ClosedForm(average, stop, ticks)
  {
    hide Candidate;
    if ticks != [] {
      var last := |ticks| - 1;
      FollowIsClosedForm(average, stop, ticks[..last]);
      if last != 0 {
        CandidateMonotone(average, Highest(ticks[..last]), Highest(ticks));
        CandidateMonotone(average, ticks[last], Highest(ticks));
      }
    }
  }

  lemma NeverFalls(average: real, stop: real, ticks: seq<real>, n: nat)
    requires 0.0 < average && n <= |ticks|
    ensures stop <= Follow(average, stop, ticks[..n]) <= Follow(average, stop, ticks)
    decreases |ticks| - n
  {
    hide Candidate;
    if n < |ticks| {
      assert ticks[..n + 1][..n] == ticks[..n];
      NeverFalls(average, stop, ticks, n + 1);
    } else {
      assert ticks[..n] == ticks;
    }
    FollowIsClosedForm(average, stop, ticks[..n]);
  }

  lemma SameHighest(ticks: seq<real>, shuffled: seq<real>)
    requires multiset(ticks) == multiset(shuffled) && ticks != []
    ensures shuffled != [] && Highest(ticks) == Highest(shuffled)
  {
    assert |shuffled| == |multiset(shuffled)| == |multiset(ticks)| == |ticks|;
    var h, k := Highest(ticks), Highest(shuffled);
    assert h in multiset(ticks) && k in multiset(shuffled);
    assert h in shuffled && k in ticks;
  }

  /** The order of the ticks does not matter. */
  lemma OrderIsIrrelevant(average: real, stop: real, ticks: seq<real>, shuffled: seq<real>)
    requires 0.0 < average && multiset(ticks) == multiset(shuffled)
    ensures Follow(average, stop, ticks) == Follow(average, stop, shuffled)
  {
    hide Candidate, Follow, Highest;
    FollowIsClosedForm(average, stop, ticks);
    FollowIsClosedForm(average, stop, shuffled);
    if ticks != [] { SameHighest(ticks, shuffled); }
    if shuffled != [] { SameHighest(shuffled, ticks); }
  }

  datatype Watch = Holding(stop: real) | Fired(tick: nat, stop: real)

  /** A position under watch: each tick first moves the stop, then may fire it; nothing happens after that. */
  function Watched(average: real, stop: real, ticks: seq<real>): Watch
    requires 0.0 < average
  {
    if ticks == [] then Holding(stop)
    else
      var last := |ticks| - 1;
      match Watched(average, stop, ticks[..last])
      case Fired(i, s) => Fired(i, s)
      case Holding(s) =>
        var raised := Raised(average, s, ticks[last]);
        if ticks[last] > raised then Holding(raised) else Fired(last, raised)
  }

  predicate FiresAt(average: real, stop: real, ticks: seq<real>, i: nat)
    requires 0.0 < average && i < |ticks|
  {
    ticks[i] <= ClosedForm(average, stop, ticks[..i + 1])
  }

  /** A stop fires at the first tick at or below the closed form of the ticks up to it, and until then it is that
      closed form. */
  lemma {:induction false} FiresAtFirstCrossing(average: real, stop: real, ticks: seq<real>)
    requires 0.0 < average
    ensures match Watched(average, stop, ticks)
            case Holding(s) => s == ClosedForm(average, stop, ticks)
                               && forall i :: 0 <= i < |ticks| ==> !FiresAt(average, stop, ticks, i)
            case Fired(k, s) => k < |ticks| && s == ClosedForm(average, stop, ticks[..k + 1])
                                && FiresAt(average, stop, ticks, k)
                                && forall i :: 0 <= i < k ==> !FiresAt(average, stop, ticks, i)
  {
    hide Candidate, ClosedForm, Raised;
    if ticks == [] {
      FollowIsClosedForm(average, stop, ticks);
    } else {
      var last := |ticks| - 1;
      var prefix := ticks[..last];
      FiresAtFirstCrossing(average, stop, prefix);
      FollowIsClosedForm(average, stop, prefix);
      FollowIsClosedForm(average, stop, ticks);
      assert ticks[..last + 1] == ticks;
      forall i | 0 <= i < last
        ensures prefix[..i + 1] == ticks[..i + 1]
        ensures FiresAt(average, stop, prefix, i) == FiresAt(average, stop, ticks, i)
      {
        assert prefix[..i + 1] == ticks[..i + 1];
      }
    }
  }

  /** Above an average of 5/14 a raised stop stays strictly below the price that raised it: raising never fires. */
  lemma RaiseStaysBelowPrice(average: real, price: real)
    requires 0.005 < average * 0.014
    ensures Candidate(average, price).Some? ==> Candidate(average, price).value < price
  {
    hide ProfitRatio, HalfEven2;
    Thresholds(average, price);
  }

  /** The exact condition, for any average: none of the three locked-in levels is rounded up to the price that first
      justifies it, and no price of at most 33 paise can reach the trailing levels. */
  predicate RaisesAreSafe(average: real) {
    && HalfEven2(average * 1.001) < average * 1.015
    && HalfEven2(average * 1.015) < average * 1.03
    && HalfEven2(average * 1.035) < average * 1.05
    && 0.33 < average * 1.03
  }

  /** Raising the stop never fires it, at any price, if and only if the average is safe in this sense. */
  lemma RaisesNeverFireExactlyWhenSafe(average: real)
    requires 0.0 < average
    ensures (forall price :: Candidate(average, price).Some? ==> Candidate(average, price).value < price)
            <==> RaisesAreSafe(average)
  {
    hide ProfitRatio, HalfEven2;
    if RaisesAreSafe(average) {
      forall price | Candidate(average, price).Some? ensures Candidate(average, price).value < price {
        Thresholds(average, price);
        if average * 1.03 <= price { TrailsBelow(price); }
      }
    } else {
      var price := if HalfEven2(average * 1.001) >= average * 1.015 then average * 1.015
                   else if HalfEven2(average * 1.015) >= average * 1.03 then average * 1.03
                   else if HalfEven2(average * 1.035) >= average * 1.05 then average * 1.05
                   else 0.33;
      Thresholds(average, price);
      TrailsToItself();
      assert Candidate(average, price).Some? && Candidate(average, price).value >= price;
    }
  }

  lemma TrailsBelow(price: real)
    requires 0.33 < price
    ensures HalfEven2(price * 0.985) < price
  {
    hide HalfEven2;
    if 3.0 * price <= 1.0 {
      WholeInt(33);
      NearestCent(price * 0.985, 0.33);
    }
  }

  lemma TrailsToItself()
    ensures HalfEven2(0.33 * 0.985) == 0.33
  {
    hide HalfEven2;
    WholeInt(33);
    NearestCent(0.33 * 0.985, 0.33);
  }

  /** A concrete case: bought at 0.3448, a tick of 0.35 lifts the stop to 0.35 and fires it. */
  lemma TinyPricesFireThemselves()
    ensures Watched(0.3448, 0.30, [0.35]) == Fired(0, 0.35)
  {
    Thresholds(0.3448, 0.35);
    hide ProfitRatio;
    assert HalfEven2(0.3448 * 1.001) == 0.35;
    assert [0.35][..0] == [];
    assert Watched(0.3448, 0.30, [0.35][..0]) == Holding(0.30);
  }
}
