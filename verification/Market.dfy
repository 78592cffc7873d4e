/** Vocabulary shared by the ledgers. */
module Market {
  import opened Decimals

  datatype Side = Buy | Sell
  {
    /** +1 for a purchase, -1 for a sale. */
    function Sign(): real { if Buy? then 1.0 else -1.0 }
  }

  datatype Fill = Fill(side: Side, quantity: real, price: real)

  /** The value of a quantity at a price. */
  function Notional(quantity: real, price: real): real { quantity * price }

  lemma NotionalIs(quantity: real, price: real)
    ensures Notional(quantity, price) == quantity * price
  {}

  lemma NotionalOfOne(price: real)
    ensures Notional(1.0, price) == price
  {}

  lemma NotionalOfZero(price: real)
    ensures Notional(0.0, price) == 0.0
  {}

  lemma NotionalOfNegative(quantity: real, price: real)
    ensures Notional(-quantity, price) == -Notional(quantity, price)
  {}

  lemma NotionalNonNegative(quantity: real, price: real)
    requires 0.0 <= quantity && 0.0 <= price
    ensures 0.0 <= Notional(quantity, price)
  {}

  lemma NotionalSplits(q1: real, q2: real, price: real)
    ensures Notional(q1 + q2, price) == Notional(q1, price) + Notional(q2, price)
    ensures Notional(q1 - q2, price) == Notional(q1, price) - Notional(q2, price)
  {}

  lemma NotionalOfGain(quantity: real, price: real, cost: real)
    ensures Notional(quantity, price - cost) == Notional(quantity, price) - Notional(quantity, cost)
  {}

  lemma AbsOfNotional(x: real, y: real, a: real, b: real)
    requires Abs(x) <= a && Abs(y) <= b
    ensures Abs(Notional(x, y)) <= Notional(a, b)
  {
    NotionalNonNegative(a - Abs(x), Abs(y));
    NotionalNonNegative(a, b - Abs(y));
    NotionalSplits(a, Abs(x), Abs(y));
    NotionalOfGain(a, b, Abs(y));
    assert Abs(Notional(x, y)) == Notional(Abs(x), Abs(y));
  }

  lemma NotionalInjective(quantity: real, a: real, b: real)
    requires quantity != 0.0
    ensures Notional(quantity, a) == Notional(quantity, b) ==> a == b
  {
    NotionalOfGain(quantity, a, b);
    if Notional(quantity, a) == Notional(quantity, b) && a != b {
      NotionalNonZero(quantity, a - b);
    }
  }

  lemma NotionalNonZero(quantity: real, price: real)
    requires quantity != 0.0 && price != 0.0
    ensures Notional(quantity, price) != 0.0
  {}

  lemma DivideBack(value: real, quantity: real)
    requires quantity != 0.0
    ensures quantity * (value / quantity) == value
  {}

  lemma SignOfProduct(q: real, d: real)
    requires q > 0.0
    ensures d > 0.0 ==> q * d > 0.0
    ensures d < 0.0 ==> q * d < 0.0
    ensures d == 0.0 ==> q * d == 0.0
  {}

  /** The value of a holding moves by at most half a unit of the fourth decimal per share when its price is rounded. */
  lemma RoundedAverage(quantity: real, exact: real, rounded: real)
    requires 0.0 < quantity && Abs(rounded - exact) <= 0.00005
    ensures Abs(Notional(quantity, rounded) - quantity * exact) <= quantity * 0.00005
  {
    var d := rounded - exact;
    NotionalNonNegative(quantity, 0.00005 - d);
    NotionalNonNegative(quantity, 0.00005 + d);
    assert Notional(quantity, rounded) - quantity * exact == quantity * d;
  }

  lemma NotionalOnGrid(q: real, x: real)
    requires Whole(q) && Pips(x)
    ensures Pips(Notional(q, x))
  {
    SharesTimesPips(q, x);
  }
}
