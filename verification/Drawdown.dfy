/** One-pass drawdown against its definition. */
module Drawdown {
  import opened Decimals
  import opened Market

  datatype Peak = Peak(high: real, worst: real)

  /** The loss from one value to another, in percent of the first; 0 where there is nothing to lose. */
  function Loss(from: real, to: real): real {
    if from > 0.0 then (from - to) / from * 100.0 else 0.0
  }

  /** What each new net asset value does to the running peak and the worst loss. */
  function Observe(p: Peak, nav: real): Peak {
    var high := Max(p.high, nav);
    Peak(high, Max(p.worst, Loss(high, nav)))
  }

  function OnePass(navs: seq<real>): Peak
    requires navs != []
  {
    if |navs| == 1 then Peak(navs[0], 0.0)
    else Observe(OnePass(navs[..|navs| - 1]), navs[|navs| - 1])
  }

  /** A fall to a value that is not negative is the worse the higher it starts; one to a negative value, the lower. */
  lemma LossFromHigher(low: real, high: real, to: real)
    requires 0.0 < low <= high
    ensures 0.0 <= to ==> Loss(low, to) <= Loss(high, to)
    ensures to <= 0.0 ==> Loss(high, to) <= Loss(low, to)
  {
    LossAsQuotient(low, to);
    LossAsQuotient(high, to);
    QuotientFalls(to, low, high);
  }

  lemma LossAsQuotient(from: real, to: real)
    requires 0.0 < from
    ensures Loss(from, to) == 100.0 - to / from * 100.0
  {
    QuotientSplits(from, to, from);
    DivideBack(from, from);
    NotionalInjective(from, from / from, 1.0);
  }

  lemma QuotientSplits(a: real, b: real, x: real)
    requires x != 0.0
    ensures (a - b) / x == a / x - b / x
  {
    var u, v, w := a / x, b / x, (a - b) / x;
    DivideBack(a, x);
    DivideBack(b, x);
    DivideBack(a - b, x);
    NotionalOfGain(x, u, v);
    NotionalInjective(x, w, u - v);
  }

  lemma QuotientFalls(to: real, low: real, high: real)
    requires 0.0 < low <= high
    ensures 0.0 <= to ==> to / high <= to / low
    ensures to <= 0.0 ==> to / low <= to / high
  {
    var a, b := to / low, to / high;
    assert a * low == to && b * high == to;
    if 0.0 <= to {
      if a < b { SignOfProduct(low, b - a); QuotientSign(to, high); NotionalNonNegative(high - low, b); }
    } else {
      if b < a { SignOfProduct(low, a - b); QuotientSign(-to, high); NotionalNonNegative(high - low, -b); }
    }
  }

  lemma QuotientSign(x: real, q: real)
    requires 0.0 <= x && 0.0 < q
    ensures 0.0 <= x / q && -x / q == -(x / q)
  {}

  ghost predicate NonNegative(navs: seq<real>) {
    forall i :: 0 <= i < |navs| ==> 0.0 <= navs[i]
  }

  lemma {:induction false} HighIsMaximum(navs: seq<real>) returns (k: nat)
    requires navs != []
    ensures forall i :: 0 <= i < |navs| ==> navs[i] <= OnePass(navs).high
    ensures k < |navs| && navs[k] == OnePass(navs).high
  {
    hide Loss;
    var last := |navs| - 1;
    if last == 0 {
      k := 0;
    } else {
      k := HighIsMaximum(navs[..last]);
      if OnePass(navs[..last]).high < navs[last] { k := last; }
    }
  }

  lemma NoLoss(x: real)
    ensures Loss(x, x) == 0.0
    ensures x <= 0.0 ==> forall to :: Loss(x, to) == 0.0
  {}

  /** For any history at all, the one-pass figure is the loss from some value to a later one. */
  lemma {:induction false} WorstIsAttained(navs: seq<real>) returns (from: nat, to: nat)
    requires navs != []
    ensures from <= to < |navs| && Loss(navs[from], navs[to]) == OnePass(navs).worst
    ensures 0.0 <= OnePass(navs).worst
  {
    hide Loss;
    var last := |navs| - 1;
    if last == 0 {
      NoLoss(navs[0]);
      from, to := 0, 0;
    } else {
      from, to := WorstIsAttained(navs[..last]);
      if OnePass(navs[..last]).worst < Loss(OnePass(navs).high, navs[last]) {
        from := HighIsMaximum(navs);
        to := last;
      }
    }
  }

  // ---- When the figure is the drawdown ----------------------------------------------------------------------

  /** No loss from any value to a later one is larger than the figure. */
  ghost predicate Exact(navs: seq<real>)
    requires navs != []
  {
    forall i, j :: 0 <= i <= j < |navs| ==> Loss(navs[i], navs[j]) <= OnePass(navs).worst
  }

  /** The lowest positive value so far. */
  function Lowest(navs: seq<real>): Option<real> {
    if navs == [] then None
    else
      var low, nav := Lowest(navs[..|navs| - 1]), navs[|navs| - 1];
      if nav > 0.0 && (low.Some? ==> nav < low.value) then Some(nav) else low
  }

  lemma {:induction false} LowestIsLowest(navs: seq<real>)
    ensures forall x :: x in navs && 0.0 < x ==> Lowest(navs).Some? && Lowest(navs).value <= x
    ensures Lowest(navs).Some? ==> Lowest(navs).value in navs && 0.0 < Lowest(navs).value
  {
    if navs != [] {
      var last := |navs| - 1;
      LowestIsLowest(navs[..last]);
      assert navs == navs[..last] + [navs[last]];
    }
  }

  /** The step at which a new value is compared with the peak only, although a lower start may have lost more. */
  predicate Covered(navs: seq<real>, nav: real)
    requires navs != []
  {
    0.0 <= nav || Lowest(navs).None? || Loss(Lowest(navs).value, nav) <= Observe(OnePass(navs), nav).worst
  }

  /** From an exact history the next value leaves the figure exact if and only if it is not negative, or the loss to it
      from the lowest positive value so far is within the figure. */
  lemma StepStaysExactExactlyWhen(navs: seq<real>, nav: real)
    requires navs != [] && Exact(navs)
    ensures Exact(navs + [nav]) <==> Covered(navs, nav)
  {
    hide Loss;
    var all, last := navs + [nav], |navs|;
    assert all[..last] == navs && OnePass(all) == Observe(OnePass(navs), nav);
    var high, worst := OnePass(all).high, OnePass(all).worst;
    var k := HighIsMaximum(all);
    var from, to := WorstIsAttained(all);
    LowestIsLowest(navs);
    if Covered(navs, nav) {
      forall i, j | 0 <= i <= j < |all| ensures Loss(all[i], all[j]) <= worst {
        if j < last {
          assert Loss(navs[i], navs[j]) <= OnePass(navs).worst;
        } else {
          LossToLast(navs, nav, all[i], high);
        }
      }
    } else {
      var i :| 0 <= i < |navs| && navs[i] == Lowest(navs).value;
      assert all[i] == navs[i] && all[last] == nav && worst < Loss(all[i], all[last]);
    }
  }

  lemma LossToLast(navs: seq<real>, nav: real, x: real, high: real)
    requires navs != [] && Covered(navs, nav) && (x in navs || x == nav)
    requires high == Observe(OnePass(navs), nav).high && x <= high
    requires 0.0 <= Observe(OnePass(navs), nav).worst
    ensures Loss(x, nav) <= Observe(OnePass(navs), nav).worst
  {
    hide Loss;
    LowestIsLowest(navs);
    NoLoss(x);
    if 0.0 < x && x in navs {
      LossFromHigher(x, high, nav);
      if nav < 0.0 { LossFromHigher(Lowest(navs).value, x, nav); }
    }
  }

  ghost predicate AlwaysExact(navs: seq<real>) {
    forall n :: 0 < n <= |navs| ==> Exact(navs[..n])
  }

  predicate AlwaysCovered(navs: seq<real>) {
    forall n :: 0 < n < |navs| ==> Covered(navs[..n], navs[n])
  }

  /** The figure has been exact after every value if and only if every value was covered. */
  lemma {:induction false} AlwaysExactExactlyWhen(navs: seq<real>)
    ensures AlwaysExact(navs) <==> AlwaysCovered(navs)
  {
    hide Loss, Exact, Covered;
    if |navs| == 1 {
      OneValueIsExact(navs);
    } else if navs != [] {
      var last := |navs| - 1;
      var before := navs[..last];
      AlwaysExactExactlyWhen(before);
      PrefixesSplit(navs);
      if AlwaysExact(before) {
        assert before[..last] == before;
        StepStaysExactExactlyWhen(before, navs[last]);
        assert before + [navs[last]] == navs;
      }
    }
  }

  lemma OneValueIsExact(navs: seq<real>)
    requires |navs| == 1
    ensures AlwaysExact(navs)
  {
    NoLoss(navs[0]);
    assert navs[..1] == navs;
  }

  lemma PrefixesSplit(navs: seq<real>)
    requires |navs| > 1
    ensures AlwaysExact(navs) <==> AlwaysExact(navs[..|navs| - 1]) && Exact(navs)
    ensures AlwaysCovered(navs)
            <==> AlwaysCovered(navs[..|navs| - 1]) && Covered(navs[..|navs| - 1], navs[|navs| - 1])
  {
    hide Exact, Covered;
    var last := |navs| - 1;
    var before := navs[..last];
    assert navs[..|navs|] == navs;
    forall n | 0 <= n <= last ensures before[..n] == navs[..n] {}
    if AlwaysExact(navs) {
      forall n | 0 < n <= last ensures Exact(before[..n]) { assert Exact(navs[..n]); }
    }
    if AlwaysExact(before) && Exact(navs) {
      forall n | 0 < n <= |navs| ensures Exact(navs[..n]) {
        if n < |navs| { assert Exact(before[..n]); }
      }
    }
    if AlwaysCovered(navs) {
      forall n | 0 < n < last ensures Covered(before[..n], before[n]) { assert Covered(navs[..n], navs[n]); }
    }
    if AlwaysCovered(before) && Covered(before, navs[last]) {
      forall n | 0 < n < |navs| ensures Covered(navs[..n], navs[n]) {
        if n < last { assert Covered(before[..n], before[n]); }
      }
    }
  }

  /** While no value is negative, the one-pass figure is the largest loss from any value to any later one. */
  lemma OnePassIsWorstPair(navs: seq<real>) returns (from: nat, to: nat)
    requires navs != [] && NonNegative(navs)
    ensures forall i, j :: 0 <= i <= j < |navs| ==> Loss(navs[i], navs[j]) <= OnePass(navs).worst
    ensures from <= to < |navs| && Loss(navs[from], navs[to]) == OnePass(navs).worst
  {
    hide Loss, OnePass, Lowest;
    AlwaysExactExactlyWhen(navs);
    assert AlwaysCovered(navs);
    assert navs[..|navs|] == navs;
    assert Exact(navs);
    from, to := WorstIsAttained(navs);
  }
}
