/** The slippage and charges calculator. */
module TransactionCosts {
  import opened Decimals
  import opened Market

  function Portion(value: real, rate: real): real { value * rate }

  /** A percentage of a value, rounded half-up to the paisa. */
  function Levy(value: real, rate: real): (r: real)
    ensures Cents(r)
  {
    HalfUp2(Portion(value, rate))
  }

  lemma LevyBounds(value: real, rate: real)
    ensures Abs(Levy(value, rate) - Portion(value, rate)) <= 0.005
    ensures 0.0 <= Portion(value, rate) ==> 0.0 <= Levy(value, rate)
    ensures Portion(value, rate) <= 0.0 ==> Levy(value, rate) <= 0.0
    ensures 0.0 <= Portion(value, rate) < 0.005 ==> Levy(value, rate) == 0.0
  {
    hide HalfUp2, Cents, Portion;
    var x := Portion(value, rate);
    RoundedBounds(x, x);
  }

  lemma PortionBounds(value: real, rate: real, cap: real)
    requires 0.0 <= rate <= cap
    ensures 0.0 <= value ==> 0.0 <= Portion(value, rate) <= value * cap
    ensures value <= 0.0 ==> value * cap <= Portion(value, rate) <= 0.0
  {}

  lemma RoundedBounds(x: real, bound: real)
    ensures 0.0 <= x <= bound ==> 0.0 <= HalfUp2(x) <= bound + 0.005
    ensures bound <= x <= 0.0 ==> bound - 0.005 <= HalfUp2(x) <= 0.0
    ensures 0.0 <= x < 0.005 ==> HalfUp2(x) == 0.0
  {
    OneCent();
    RoundingKeepsSide(x, 0.0);
  }

  lemma OneCent()
    ensures Cents(0.01) && Cents(0.0)
  {
    WholeBy(0.01 * 100.0, 1);
    WholeBy(0.0 * 100.0, 0);
  }

  lemma LevyMonotone(a: real, b: real, rate: real)
    requires a <= b && 0.0 <= rate
    ensures Levy(a, rate) <= Levy(b, rate)
  {
    HalfUp2Monotone(a * rate, b * rate);
  }

  const BASE_SLIPPAGE := 0.0005
  const MAX_SLIPPAGE := 0.0010

  /** The rate grows with the volatility in percent and is capped once that reaches 3. */
  function SlippageRate(volatility: Option<real>): (rate: real)
    ensures BASE_SLIPPAGE <= rate <= MAX_SLIPPAGE
  {
    if volatility.Some? && volatility.value > 0.0 then
      BASE_SLIPPAGE + Min(1.0, volatility.value / 3.0) * (MAX_SLIPPAGE - BASE_SLIPPAGE)
    else
      BASE_SLIPPAGE
  }

  function SlippageAmount(price: real, volatility: Option<real>): real {
    Levy(price, SlippageRate(volatility))
  }

  /** The price a market order really gets. */
  function EffectivePrice(price: real, side: Side, volatility: Option<real>): (r: real)
    ensures Cents(r)
    ensures side.Sell? ==> 0.01 <= r
  {
    var slip := SlippageAmount(price, volatility);
    OneCent();
    match side
    case Buy => HalfUp2(price + slip)
    case Sell => Max(0.01, HalfUp2(price - slip))
  }

  lemma SlippageBounds(price: real, volatility: Option<real>)
    ensures 0.0 <= price ==> 0.0 <= SlippageAmount(price, volatility) <= price * 0.001 + 0.005
    ensures price <= 0.0 ==> price * 0.001 - 0.005 <= SlippageAmount(price, volatility) <= 0.0
    ensures 0.0 <= price < 5.0 ==> SlippageAmount(price, volatility) == 0.0
  {
    hide Portion, Levy, SlippageRate;
    LevyBounds(price, SlippageRate(volatility));
    PortionBounds(price, SlippageRate(volatility), 0.001);
  }

  /** A purchase never gets a better price than quoted, a sale never a better one (down to the one-paisa floor), once
      the quote is rounded to the paisa as the price is. */
  lemma SlippageIsAdverse(price: real, volatility: Option<real>)
    requires 0.0 <= price
    ensures HalfUp2(price) <= EffectivePrice(price, Buy, volatility)
    ensures EffectivePrice(price, Sell, volatility) <= Max(0.01, HalfUp2(price))
    ensures Cents(price) ==> HalfUp2(price) == price
  {
    hide SlippageAmount, HalfUp2, Cents;
    SlippageBounds(price, volatility);
    var slip := SlippageAmount(price, volatility);
    HalfUp2Monotone(price, price + slip);
    HalfUp2Monotone(price - slip, price);
  }

  /** Against an unrounded quote a purchase is no better exactly when rounding has not lowered the quote, or slippage
      reaches half a paisa and so rounds up to one. */
  lemma BuysNoBetterExactlyWhen(price: real, volatility: Option<real>)
    requires 0.0 <= price
    ensures price <= EffectivePrice(price, Buy, volatility)
            <==> price <= HalfUp2(price) || 0.005 <= price * SlippageRate(volatility)
  {
    hide HalfUp2, Cents, SlippageRate;
    SlippageSteps(price, volatility);
  }

  /** A sale is no better exactly when rounding has not raised the quote above the floor, or slippage reaches half a
      paisa. */
  lemma SellsNoBetterExactlyWhen(price: real, volatility: Option<real>)
    requires 0.0 <= price
    ensures EffectivePrice(price, Sell, volatility) <= Max(0.01, price)
            <==> HalfUp2(price) <= Max(0.01, price) || 0.005 <= price * SlippageRate(volatility)
  {
    hide HalfUp2, Cents, SlippageRate;
    SlippageSteps(price, volatility);
  }

  /** There is no slippage below half a paisa, and at least one paisa from there on. */
  lemma SlippageSteps(price: real, volatility: Option<real>)
    requires 0.0 <= price
    ensures price * SlippageRate(volatility) < 0.005 ==> SlippageAmount(price, volatility) == 0.0
    ensures 0.005 <= price * SlippageRate(volatility) ==> 0.01 <= SlippageAmount(price, volatility)
  {
    hide HalfUp2, Cents, SlippageRate;
    var rate := SlippageRate(volatility);
    assert Portion(price, rate) == price * rate;
    PortionBounds(price, rate, 0.001);
    hide Portion;
    LevyBounds(price, rate);
    if 0.005 <= price * rate {
      HalfPaisa();
      HalfUp2Monotone(0.005, price * rate);
    }
  }

  /** Against an unrounded quote it can: 1.004 buys at 1.00. */
  lemma FinerQuoteBuysCheaper()
    ensures EffectivePrice(1.004, Buy, None) == 1.0
  {
    hide HalfUp2, SlippageAmount;
    SlippageBounds(1.004, None);
    OneRupee();
    NearestCent(1.004, 1.0);
  }

  lemma OneRupee()
    ensures Cents(1.0) && Cents(10.0) && Cents(9.99)
  {
    WholeBy(1.0 * 100.0, 100);
    WholeBy(10.0 * 100.0, 1000);
    WholeBy(9.99 * 100.0, 999);
  }

  lemma RoundingShifts(x: real, d: real)
    requires 0.0 <= x && 0.0 <= d && Cents(d)
    ensures HalfUp2(x + d) == HalfUp2(x) + d
  {
    var n := (d * 100.0).Floor;
    assert (x + d) * 100.0 == x * 100.0 + n as real;
    ShiftedFloor(x * 100.0, n);
  }

  lemma ShiftedFloor(y: real, n: int)
    requires 0.0 <= y && 0 <= n
    ensures RoundHalfUp(y + n as real) == RoundHalfUp(y) + n
  {}

  /** A higher quote never makes a cheaper purchase. */
  lemma PurchasesKeepOrder(low: real, high: real, volatility: Option<real>)
    requires 0.0 <= low <= high
    ensures EffectivePrice(low, Buy, volatility) <= EffectivePrice(high, Buy, volatility)
  {
    hide HalfUp2, Cents, SlippageRate, Portion;
    LevyMonotone(low, high, SlippageRate(volatility));
    HalfUp2Monotone(low + SlippageAmount(low, volatility), high + SlippageAmount(high, volatility));
  }

  /** Both quotes round to the same paisa while slippage steps up between them, above the one-paisa floor. */
  predicate StepsWithin(low: real, high: real, volatility: Option<real>) {
    && HalfUp2(low) == HalfUp2(high)
    && SlippageAmount(low, volatility) < SlippageAmount(high, volatility)
    && 0.01 < HalfUp2(low) - SlippageAmount(low, volatility)
  }

  /** A higher quote never sells for less, except exactly when slippage steps up within one paisa. */
  lemma SalesKeepOrderExactlyWhen(low: real, high: real, volatility: Option<real>)
    requires 0.0 <= low <= high
    ensures EffectivePrice(low, Sell, volatility) <= EffectivePrice(high, Sell, volatility)
            <==> !StepsWithin(low, high, volatility)
  {
    hide HalfUp2, Cents, SlippageAmount, SlippageRate;
    RoundedSale(low, volatility);
    RoundedSale(high, volatility);
    HalfUp2Monotone(low, high);
    SlippageGrows(low, high, volatility);
    if HalfUp2(low) != HalfUp2(high) { SlippageGrowsLess(low, high, volatility); }
  }

  /** Slippage is whole paise, so it can be taken off after rounding. */
  lemma RoundedSale(price: real, volatility: Option<real>)
    requires 0.0 <= price
    ensures HalfUp2(price - SlippageAmount(price, volatility)) == HalfUp2(price) - SlippageAmount(price, volatility)
    ensures EffectivePrice(price, Sell, volatility) == Max(0.01, HalfUp2(price) - SlippageAmount(price, volatility))
  {
    hide HalfUp2, Cents, Portion, SlippageRate;
    SlippageBounds(price, volatility);
    var slip := SlippageAmount(price, volatility);
    RoundingShifts(price - slip, slip);
  }

  lemma SlippageGrows(low: real, high: real, volatility: Option<real>)
    requires low <= high
    ensures SlippageAmount(low, volatility) <= SlippageAmount(high, volatility)
  {
    hide HalfUp2, Cents, SlippageRate, Portion, Levy;
    LevyMonotone(low, high, SlippageRate(volatility));
  }

  /** From one paisa to a higher one slippage grows no more than the rounded price. */
  lemma SlippageGrowsLess(low: real, high: real, volatility: Option<real>)
    requires 0.0 <= low <= high && HalfUp2(low) != HalfUp2(high)
    ensures SlippageAmount(high, volatility) - SlippageAmount(low, volatility) <= HalfUp2(high) - HalfUp2(low)
  {
    hide HalfUp2, Cents, Portion, SlippageRate;
    var rate := SlippageRate(volatility);
    HalfUp2Monotone(low, high);
    CentsSum(HalfUp2(high), HalfUp2(low));
    CentsSum(SlippageAmount(high, volatility), SlippageAmount(low, volatility));
    WholePaisa(HalfUp2(high) - HalfUp2(low));
    PortionGrowsSlowly(low, high, rate);
    LevyBounds(low, rate);
    LevyBounds(high, rate);
    hide SlippageAmount;
    var grown := SlippageAmount(high, volatility) - SlippageAmount(low, volatility);
    LessThanAPaisaMore(grown, HalfUp2(high) - HalfUp2(low));
  }

  lemma WholePaisa(d: real)
    requires Cents(d) && 0.0 < d
    ensures 0.01 <= d
  {}

  lemma LessThanAPaisaMore(x: real, y: real)
    requires Cents(x) && Cents(y) && x < y + 0.01
    ensures x <= y
  {
    if y < x { SameCent(x, y); }
  }

  lemma PortionGrowsSlowly(low: real, high: real, rate: real)
    requires low <= high && 0.0 <= rate <= 0.001
    ensures Portion(high, rate) <= Portion(low, rate) + (high - low) * 0.001
  {
    assert Portion(high, rate) - Portion(low, rate) == (high - low) * rate;
    PortionBounds(high - low, rate, 0.001);
  }

  /** So a sale at a higher quote is worse by at most one paisa, and never at quotes in paise. */
  lemma SlippageKeepsOrder(low: real, high: real, side: Side, volatility: Option<real>)
    requires 0.0 <= low <= high
    ensures EffectivePrice(low, side, volatility) <= EffectivePrice(high, side, volatility) + 0.01
    ensures Cents(low) && Cents(high) ==>
              EffectivePrice(low, side, volatility) <= EffectivePrice(high, side, volatility)
  {
    hide HalfUp2, Cents, SlippageRate;
    if side.Buy? {
      PurchasesKeepOrder(low, high, volatility);
    } else {
      SaleLosesAtMostAPaisa(low, high, SlippageRate(volatility));
      SalesKeepOrderExactlyWhen(low, high, volatility);
    }
  }

  lemma SaleLosesAtMostAPaisa(low: real, high: real, rate: real)
    requires 0.0 <= low <= high && 0.0 <= rate <= 0.001
    ensures HalfUp2(low - Levy(low, rate)) <= HalfUp2(high - Levy(high, rate)) + 0.01
  {
    hide HalfUp2, Cents, Levy, Portion;
    OneCent();
    LevyBounds(low, rate);
    LevyBounds(high, rate);
    PortionGrowsSlower(low, high, rate);
    PortionBounds(high, rate, 0.001);
    var x := high - Levy(high, rate);
    assert 0.0 <= x;
    RoundingShifts(x, 0.01);
    HalfUp2Monotone(low - Levy(low, rate), x + 0.01);
  }

  /** At finer quotes a sale can be the worse: 9.9999 sells at 10.00, and 10.00 at 9.99. */
  lemma FinerQuoteSellsDearer()
    ensures EffectivePrice(9.9999, Sell, None) == 10.0 && EffectivePrice(10.0, Sell, None) == 9.99
  {
    hide HalfUp2;
    OneCent();
    OneRupee();
    assert Portion(9.9999, 0.0005) == 9.9999 * 0.0005 && Portion(10.0, 0.0005) == 0.005;
    assert HalfUp2(9.9999 * 0.0005) == 0.0 by { NearestCent(9.9999 * 0.0005, 0.0); }
    assert HalfUp2(0.005) == 0.01 by { HalfPaisa(); }
    NearestCent(9.9999, 10.0);
    NearestCent(9.99, 9.99);
  }

  lemma HalfPaisa()
    ensures HalfUp2(0.005) == 0.01
  {
    assert RoundHalfUp(0.005 * 100.0) == 1;
  }

  lemma PortionGrowsSlower(low: real, high: real, rate: real)
    requires low <= high && rate <= 1.0
    ensures Portion(high, rate) <= Portion(low, rate) + (high - low)
  {
    assert Portion(high, rate) - Portion(low, rate) == (high - low) * rate;
  }

  datatype Product = Delivery | Intraday

  datatype Exchange = NSE | BSE

  datatype Costs = Costs(tradedValue: real, brokerage: real, stt: real, exchangeCharges: real,
                         sebiCharges: real, stampDuty: real, gst: real, totalCharges: real)

  function SttRate(side: Side, product: Product): (r: real)
    ensures 0.0 <= r <= 0.001
  {
    if product.Delivery? then 0.0010 else if side.Sell? then 0.00025 else 0.0
  }

  function ExchangeRate(exchange: Exchange): (r: real)
    ensures 0.0 <= r <= 0.0000375
  {
    if exchange.BSE? then 0.0000375 else 0.0000297
  }

  function StampRate(side: Side, product: Product): (r: real)
    ensures 0.0 <= r <= 0.00015
  {
    if side.Sell? then 0.0 else if product.Delivery? then 0.00015 else 0.00003
  }

  function ExactBrokerage(value: real, product: Product): real {
    if product.Delivery? then 0.0 else Min(20.0, value * 0.0003)
  }

  function TransactionCosts(tradedValue: real, side: Side, product: Product, exchange: Exchange): Costs {
    var value := HalfUp2(tradedValue);
    var brokerage := HalfUp2(ExactBrokerage(value, product));
    var stt := Levy(value, SttRate(side, product));
    var exchangeCharges := Levy(value, ExchangeRate(exchange));
    var sebi := Levy(value, 0.000001);
    var stamp := Levy(value, StampRate(side, product));
    var gst := Levy(brokerage + exchangeCharges + sebi, 0.18);
    Costs(value, brokerage, stt, exchangeCharges, sebi, stamp, gst,
          HalfUp2(brokerage + stt + exchangeCharges + sebi + stamp + gst))
  }

  function Charges(tradedValue: real, side: Side, product: Product, exchange: Exchange := NSE): (r: real)
    ensures Cents(r)
  {
    TransactionCosts(tradedValue, side, product, exchange).totalCharges
  }

  /** What the tariff charges before any rounding. */
  function ExactCharges(value: real, side: Side, product: Product, exchange: Exchange): real {
    var brokerage := ExactBrokerage(value, product);
    var exchangeCharges := Portion(value, ExchangeRate(exchange));
    var sebi := Portion(value, 0.000001);
    brokerage + Portion(value, SttRate(side, product)) + exchangeCharges + sebi
    + Portion(value, StampRate(side, product)) + (brokerage + exchangeCharges + sebi) * 0.18
  }

  /** The final rounding changes nothing: the parts are whole paise already. */
  lemma TotalIsSum(tradedValue: real, side: Side, product: Product, exchange: Exchange)
    ensures var c := TransactionCosts(tradedValue, side, product, exchange);
            c.totalCharges == c.brokerage + c.stt + c.exchangeCharges + c.sebiCharges + c.stampDuty + c.gst
  {
    hide Levy, Cents, SttRate, ExchangeRate, StampRate, ExactBrokerage;
    var c := TransactionCosts(tradedValue, side, product, exchange);
    CentsSum(c.brokerage, c.stt);
    CentsSum(c.brokerage + c.stt, c.exchangeCharges);
    CentsSum(c.brokerage + c.stt + c.exchangeCharges, c.sebiCharges);
    CentsSum(c.brokerage + c.stt + c.exchangeCharges + c.sebiCharges, c.stampDuty);
    CentsSum(c.brokerage + c.stt + c.exchangeCharges + c.sebiCharges + c.stampDuty, c.gst);
  }

  lemma Components(tradedValue: real, side: Side, product: Product, exchange: Exchange)
    requires 0.0 <= tradedValue
    ensures var c := TransactionCosts(tradedValue, side, product, exchange);
            var v := HalfUp2(tradedValue);
            && 0.0 <= v && v <= tradedValue + 0.005
            && 0.0 <= c.brokerage && Abs(c.brokerage - ExactBrokerage(v, product)) <= 0.005
            && 0.0 <= c.stt && Abs(c.stt - Portion(v, SttRate(side, product))) <= 0.005
            && 0.0 <= c.exchangeCharges && Abs(c.exchangeCharges - Portion(v, ExchangeRate(exchange))) <= 0.005
            && 0.0 <= c.sebiCharges && Abs(c.sebiCharges - Portion(v, 0.000001)) <= 0.005
            && 0.0 <= c.stampDuty && Abs(c.stampDuty - Portion(v, StampRate(side, product))) <= 0.005
            && 0.0 <= c.gst
            && Abs(c.gst - (c.brokerage + c.exchangeCharges + c.sebiCharges) * 0.18) <= 0.005
  {
    hide Levy, Portion, HalfUp2, Cents, SttRate, ExchangeRate, StampRate;
    var v := HalfUp2(tradedValue);
    var c := TransactionCosts(tradedValue, side, product, exchange);
    RoundedBounds(tradedValue, tradedValue);
    RoundedBounds(ExactBrokerage(v, product), ExactBrokerage(v, product));
    LevyBounds(v, SttRate(side, product));
    PortionBounds(v, SttRate(side, product), 0.001);
    LevyBounds(v, ExchangeRate(exchange));
    PortionBounds(v, ExchangeRate(exchange), 0.0000375);
    LevyBounds(v, 0.000001);
    PortionBounds(v, 0.000001, 0.000001);
    LevyBounds(v, StampRate(side, product));
    PortionBounds(v, StampRate(side, product), 0.00015);
    var base := c.brokerage + c.exchangeCharges + c.sebiCharges;
    LevyBounds(base, 0.18);
    PortionBounds(base, 0.18, 0.18);
    PortionIs(base, 0.18);
  }

  lemma PortionIs(value: real, rate: real)
    ensures Portion(value, rate) == value * rate
  {}

  /** Below 4.99 rupees every component rounds to nothing. */
  lemma SmallTradesAreFree(value: real, side: Side, product: Product, exchange: Exchange)
    requires 0.0 <= value < 4.99
    ensures Charges(value, side, product, exchange) == 0.0
  {
    hide Portion, Levy, HalfUp2, Cents, SttRate, ExchangeRate, StampRate;
    var v := HalfUp2(value);
    RoundedBounds(value, value);
    RoundedBounds(ExactBrokerage(v, product), 0.005);
    LevyBounds(v, SttRate(side, product));
    PortionBounds(v, SttRate(side, product), 0.001);
    LevyBounds(v, ExchangeRate(exchange));
    PortionBounds(v, ExchangeRate(exchange), 0.0000375);
    LevyBounds(v, 0.000001);
    PortionBounds(v, 0.000001, 0.000001);
    LevyBounds(v, StampRate(side, product));
    PortionBounds(v, StampRate(side, product), 0.00015);
    LevyBounds(0.0, 0.18);
    PortionBounds(0.0, 0.18, 0.18);
    TotalIsSum(value, side, product, exchange);
  }

  /** The tariff: each part is its percentage of the value to half a paisa. Delivery pays no brokerage and 0.1 percent
      transaction tax both ways; intraday pays 0.03 percent brokerage, at most 20 rupees, and 0.025 percent transaction
      tax on sales. Only purchases pay stamp duty, 0.015 percent for delivery and 0.003 intraday. The exchange takes
      0.00297 percent (NSE) or 0.00375 (BSE), the regulator 0.0001, and the goods and services tax is 18 percent of
      brokerage, exchange and regulator. */
  lemma TariffIs(value: real, side: Side, product: Product, exchange: Exchange)
    requires 0.0 <= value && Cents(value)
    ensures var c := TransactionCosts(value, side, product, exchange);
            var intraday, sale := product == Intraday, side == Sell;
            && c.tradedValue == value
            && Abs(c.brokerage - (if !intraday then 0.0
                                  else if 20.0 < value * 0.0003 then 20.0 else value * 0.0003)) <= 0.005
            && Abs(c.stt - value * (if !intraday then 0.001 else if sale then 0.00025 else 0.0)) <= 0.005
            && Abs(c.stampDuty - value * (if sale then 0.0 else if intraday then 0.00003 else 0.00015)) <= 0.005
            && Abs(c.exchangeCharges - value * (if exchange == BSE then 0.0000375 else 0.0000297)) <= 0.005
            && Abs(c.sebiCharges - value * 0.000001) <= 0.005
            && Abs(c.gst - (c.brokerage + c.exchangeCharges + c.sebiCharges) * 0.18) <= 0.005
  {
    hide HalfUp2, Cents, TransactionCosts;
    Components(value, side, product, exchange);
    TradedValueIs(value, side, product, exchange);
  }

  lemma TradedValueIs(value: real, side: Side, product: Product, exchange: Exchange)
    ensures TransactionCosts(value, side, product, exchange).tradedValue == HalfUp2(value)
  {
    hide HalfUp2;
  }

  /** The slippage rate: 0.05 percent when calm, rising in proportion to the volatility to 0.1 percent at 3. */
  lemma SlippageRateIs(volatility: real)
    ensures SlippageRate(None) == 0.0005
    ensures volatility <= 0.0 ==> SlippageRate(Some(volatility)) == 0.0005
    ensures 0.0 <= volatility <= 3.0 ==> SlippageRate(Some(volatility)) * 3.0 == 0.0015 + volatility * 0.0005
    ensures 3.0 <= volatility ==> SlippageRate(Some(volatility)) == 0.001
  {}

  /** Slippage is that rate of the price, to half a paisa, added to a purchase and taken off a sale. */
  lemma EffectivePriceIs(price: real, volatility: Option<real>)
    requires 0.0 <= price && Cents(price)
    ensures Abs(EffectivePrice(price, Buy, volatility) - (price + Portion(price, SlippageRate(volatility)))) <= 0.005
    ensures Abs(EffectivePrice(price, Sell, volatility)
                - Max(0.01, price - Portion(price, SlippageRate(volatility)))) <= 0.005
  {
    var rate := SlippageRate(volatility);
    hide HalfUp2, Cents, Portion, SlippageRate;
    LevyBounds(price, rate);
    CentsSum(price, Levy(price, rate));
  }

  /** The total is within 3.27 paise of the exact tariff on the rounded value. */
  lemma ChargesNearExact(value: real, side: Side, product: Product, exchange: Exchange)
    requires 0.0 <= value
    ensures Abs(Charges(value, side, product, exchange)
                - ExactCharges(HalfUp2(value), side, product, exchange)) <= 0.0327
  {
    hide Portion, Levy, HalfUp2, Cents, SttRate, ExchangeRate, StampRate, TransactionCosts, ExactBrokerage;
    Components(value, side, product, exchange);
    TotalIsSum(value, side, product, exchange);
  }

  lemma ExactBelowQuarterPercent(v: real, side: Side, product: Product, exchange: Exchange)
    requires 0.0 <= v
    ensures ExactCharges(v, side, product, exchange) <= v * 0.0025
  {
    hide Portion, SttRate, ExchangeRate, StampRate;
    PortionBounds(v, SttRate(side, product), 0.001);
    PortionBounds(v, ExchangeRate(exchange), 0.0000375);
    PortionBounds(v, 0.000001, 0.000001);
    PortionBounds(v, StampRate(side, product), 0.00015);
  }

  /** Charges are never negative and never exceed the value of the order itself. */
  lemma ChargesBelowValue(value: real, side: Side, product: Product, exchange: Exchange)
    requires 0.0 <= value
    ensures 0.0 <= Charges(value, side, product, exchange) <= value
  {
    hide HalfUp2, Cents, TransactionCosts, ExactCharges;
    if value < 4.99 {
      SmallTradesAreFree(value, side, product, exchange);
    } else {
      ChargesNearExact(value, side, product, exchange);
      ExactBelowQuarterPercent(HalfUp2(value), side, product, exchange);
      Components(value, side, product, exchange);
      TotalIsSum(value, side, product, exchange);
    }
  }

  lemma ComponentsMonotone(v1: real, v2: real, side: Side, product: Product, exchange: Exchange)
    requires v1 <= v2
    ensures var c := TransactionCosts(v1, side, product, exchange);
            var d := TransactionCosts(v2, side, product, exchange);
            && c.brokerage <= d.brokerage && c.stt <= d.stt && c.exchangeCharges <= d.exchangeCharges
            && c.sebiCharges <= d.sebiCharges && c.stampDuty <= d.stampDuty && c.gst <= d.gst
  {
    hide Portion, Levy, HalfUp2, Cents, SttRate, ExchangeRate, StampRate;
    HalfUp2Monotone(v1, v2);
    var a, b := HalfUp2(v1), HalfUp2(v2);
    HalfUp2Monotone(ExactBrokerage(a, product), ExactBrokerage(b, product));
    LevyMonotone(a, b, SttRate(side, product));
    LevyMonotone(a, b, ExchangeRate(exchange));
    LevyMonotone(a, b, 0.000001);
    LevyMonotone(a, b, StampRate(side, product));
    var c := TransactionCosts(v1, side, product, exchange);
    var d := TransactionCosts(v2, side, product, exchange);
    LevyMonotone(c.brokerage + c.exchangeCharges + c.sebiCharges,
                 d.brokerage + d.exchangeCharges + d.sebiCharges, 0.18);
  }

  /** A larger order never pays less. */
  lemma ChargesMonotone(v1: real, v2: real, side: Side, product: Product, exchange: Exchange)
    requires v1 <= v2
    ensures Charges(v1, side, product, exchange) <= Charges(v2, side, product, exchange)
  {
    hide TransactionCosts, Cents;
    ComponentsMonotone(v1, v2, side, product, exchange);
    TotalIsSum(v1, side, product, exchange);
    TotalIsSum(v2, side, product, exchange);
  }
}
