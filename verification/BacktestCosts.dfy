/** What one trade of a backtest pays, and what it pays twice. */
module BacktestCosts {
  import opened Common
  import opened Decimals
  import opened RiskSizing
  import opened BacktestModel
  import opened BacktestFills
  import opened BacktestCharges
  import Funding

  // ---------- Slippage ----------

  lemma RateIsZero(c: Config, quantity: real, volume: real)
    requires SaneCosts(c) && 0.0 <= quantity && 0.0 <= volume
    ensures SlippageRate(c, quantity, volume) == 0.0 <==> c.slippageRate == 0.0
  {
    if c.volumeModel && volume != 0.0 {
      MulDiv(quantity, volume);
      if quantity / volume < 0.0 {
        MulLt(quantity / volume, 0.0, volume);
      }
      var share := quantity / volume;
      MulNonNeg(share, c.volumeFactor);
      MulNonNeg(c.slippageRate, Mul(share, c.volumeFactor));
      assert c.slippageRate * (1.0 + share * c.volumeFactor)
          == c.slippageRate + Mul(c.slippageRate, Mul(share, c.volumeFactor));
    }
  }

  lemma Positive(x: real, y: real)
    requires 0.0 < x && 0.0 < y
    ensures 0.0 < Mul(x, y)
  {
  }

  /** A fill is off its price exactly when there is a rate to slip by. */
  lemma FillIsOff(c: Config, buy: bool, price: real, quantity: real, volume: real)
    requires SaneCosts(c) && 0.0 < price && 0.0 <= quantity && 0.0 <= volume
    ensures SlippedPrice(c, buy, price, quantity, volume) == price <==> c.slippageRate == 0.0
  {
    RateIsZero(c, quantity, volume);
    RateIsCost(c, quantity, volume);
    var rate := SlippageRate(c, quantity, volume);
    hide SlippageRate;
    assert price * (1.0 + rate) == price + Mul(price, rate) && price * (1.0 - rate) == price - Mul(price, rate);
    if 0.0 < rate {
      Positive(price, rate);
    }
  }

  lemma NoRateNoSlip(c: Config, buy: bool, price: real, quantity: real, volume: real)
    requires SaneCosts(c) && c.slippageRate == 0.0 && 0.0 <= quantity && 0.0 <= volume
    ensures SlippedPrice(c, buy, price, quantity, volume) == price
  {
    RateIsZero(c, quantity, volume);
  }

  /** Without the volume model a fill does not depend on the quantity. */
  lemma FixedFill(c: Config, buy: bool, price: real, quantity: real, other: real, volume: real)
    requires !c.volumeModel
    ensures SlippedPrice(c, buy, price, quantity, volume) == SlippedPrice(c, buy, price, other, volume)
  {
  }

  /** What slippage at both ends takes from a move. */
  lemma GrossLosesSlippage(long: bool, quantity: real, base: real, entry: real, at: real, price: real)
    requires if long then base <= entry && price <= at else entry <= base && at <= price
    ensures GrossPnl(long, quantity, entry, price)
         == GrossPnl(long, quantity, base, at) - SlippageCost(base, entry, quantity) - SlippageCost(at, price, quantity)
  {
    assert GrossPnl(long, quantity, entry, price) == Mul(if long then price - entry else entry - price, quantity);
    assert GrossPnl(long, quantity, base, at) == Mul(if long then at - base else base - at, quantity);
    assert SlippageCost(base, entry, quantity) == Mul(Abs(entry - base), quantity);
    assert SlippageCost(at, price, quantity) == Mul(Abs(price - at), quantity);
    hide GrossPnl, SlippageCost, Mul;
    var move, first, last := if long then at - base else base - at, Abs(entry - base), Abs(price - at);
    MulAdd(move, first, quantity);
    MulAdd(move - first, last, quantity);
    assert (if long then price - entry else entry - price) == move - first - last;
  }

  lemma SlippageSign(wanted: real, filled: real, quantity: real)
    requires 0.0 < quantity
    ensures 0.0 <= SlippageCost(wanted, filled, quantity)
    ensures SlippageCost(wanted, filled, quantity) == 0.0 <==> filled == wanted
  {
    var off := Abs(filled - wanted);
    assert SlippageCost(wanted, filled, quantity) == Mul(off, quantity);
    MulNonNeg(off, quantity);
    if 0.0 < off {
      Positive(off, quantity);
    }
  }

  lemma EnteredFigures(c: Config, signal: TestSignal, bar: Bar, risk: real)
    ensures var t, base := EnterTrade(c, signal, bar, risk), EntryBase(c, signal, bar);
      && t.signal == signal && 0.0 < t.quantity
      && t.entry == SlippedPrice(c, signal.long, base, 1.0, bar.volume)
      && t.entrySlippage
         == Quantize(SlippageCost(base, SlippedPrice(c, signal.long, base, t.quantity, bar.volume), t.quantity), MONEY)
  {
    hide SlippedPrice, StopDistance, RoundToLotSize, Quantize, MarginFor, CalculateFee, SlippageCost;
  }

  lemma ClosedFigures(c: Config, t: Trade, bar: Bar, at: real, reason: ExitReason)
    ensures var x := CloseTrade(c, t, bar, at, reason).exit.value;
      var gross := GrossPnl(t.signal.long, t.quantity, t.entry, x.price);
      && x.price == SlippedPrice(c, !t.signal.long, at, t.quantity, bar.volume)
      && x.slippage == SlippageCost(at, x.price, t.quantity)
      && Abs(x.net - NetPnl(t, gross, x.fee, x.funding, x.slippage)) <= 0.005
  {
    var x := CloseTrade(c, t, bar, at, reason).exit.value;
    var gross := GrossPnl(t.signal.long, t.quantity, t.entry, x.price);
    hide SlippedPrice, CalculateFee, FundingCharge, SlippageCost, GrossPnl, IsFundingBar;
    QuantizeError(NetPnl(t, gross, x.fee, x.funding, x.slippage), CENT);
    hide Quantize;
  }

  /** What a trade should net: the move from the price it was to be entered at to the price it was to leave at, less
      fees, the size of its funding, and its slippage once. */
  function Meant(t: Trade, base: real, at: real, x: Exit): real {
    GrossPnl(t.signal.long, t.quantity, base, at) - (t.entryFee + x.fee + Abs(t.funding + x.funding))
    - (t.entrySlippage + x.slippage)
  }

  /** Main result on slippage.  The gross profit of a trade is taken between the slipped prices, and both slippages are
      taken from it again.  What it nets is less than it should be by the whole slippage at both ends, and so is right
      exactly when the slippage rate is zero; under the fixed model it has paid both slippages twice. */
  lemma SlippageCountsTwice(c: Config, signal: TestSignal, entryBar: Bar, risk: real, funding: real, bar: Bar, at: real,
                            reason: ExitReason)
    requires SaneCosts(c) && 0.0 <= entryBar.volume && 0.0 <= bar.volume && 0.0 <= at
    ensures var t, base := EnterTrade(c, signal, entryBar, risk).(funding := funding), EntryBase(c, signal, entryBar);
      var x := CloseTrade(c, t, bar, at, reason).exit.value;
      var net := NetPnl(t, GrossPnl(t.signal.long, t.quantity, t.entry, x.price), x.fee, x.funding, x.slippage);
      var meant := Meant(t, base, at, x);
      && Abs(x.net - net) <= 0.005
      && net == meant - SlippageCost(base, t.entry, t.quantity) - SlippageCost(at, x.price, t.quantity)
      && net <= meant
      && (net == meant <==> c.slippageRate == 0.0)
      && (!c.volumeModel ==> Abs(x.net - (meant - t.entrySlippage - x.slippage)) <= 0.00500001)
  {
    var t, base := EnterTrade(c, signal, entryBar, risk).(funding := funding), EntryBase(c, signal, entryBar);
    var x := CloseTrade(c, t, bar, at, reason).exit.value;
    EnteredFigures(c, signal, entryBar, risk);
    ClosedFigures(c, t, bar, at, reason);
    SlippageNeverHelps(c, signal.long, base, 1.0, entryBar.volume);
    SlippageNeverHelps(c, !signal.long, at, t.quantity, bar.volume);
    FillIsOff(c, signal.long, base, 1.0, entryBar.volume);
    if c.slippageRate == 0.0 {
      NoRateNoSlip(c, !signal.long, at, t.quantity, bar.volume);
    }
    if !c.volumeModel {
      FixedFill(c, signal.long, base, 1.0, t.quantity, entryBar.volume);
    }
    hide EnterTrade, CloseTrade, EntryBase, SlippedPrice, SlippageCost, GrossPnl;
    SlippageSign(base, t.entry, t.quantity);
    SlippageSign(at, x.price, t.quantity);
    GrossLosesSlippage(signal.long, t.quantity, base, t.entry, at, x.price);
    QuantizeError(SlippageCost(base, t.entry, t.quantity), MONEY);
    hide Quantize;
  }

  /** The default fee and slippage, and no funding. */
  const SLIPPING := Config(10000.0, 0.0004, false, 0.0005, 0.1, false, true, 1)

  const BOUGHT := TestSignal(0, "BTCUSDT", true, 100.0, Some(110.0), 90.05, 1)

  const FLAT := Bar(0, 100.0, 100.0, 100.0, 100.0, 0.0, 0.0)

  const RISEN := Bar(Funding.HOUR, 100.0, 110.0, 100.0, 110.0, 0.0, 0.0)

  function Bought(): Trade {
    Trade(BOUGHT, 0, 100.05, 20.0, 2001.0, 0.8004, 1.0, 0.0, None)
  }

  lemma LongFigures()
    ensures SlippedPrice(SLIPPING, true, 100.0, 1.0, 0.0) == 100.05
    ensures SlippedPrice(SLIPPING, true, 100.0, 20.0, 0.0) == 100.05
    ensures SlippedPrice(SLIPPING, false, 110.0, 20.0, 0.0) == 109.945
    ensures SlippageCost(100.0, 100.05, 20.0) == 1.0 && SlippageCost(110.0, 109.945, 20.0) == 1.1
    ensures Fee(20.0, 100.05, 0.0004) == 0.8004 && Fee(20.0, 109.945, 0.0004) == 0.87956
    ensures MarginFor(20.0, 100.05, 1) == 2001.0
    ensures GrossPnl(true, 20.0, 100.05, 109.945) == 197.9 && GrossPnl(true, 20.0, 100.0, 110.0) == 200.0
  {
  }

  lemma LongQuantity()
    ensures TestQuantity(200.0, StopDistance(100.05, 90.05), "BTCUSDT") == 20.0
  {
    assert Multiple(20000, 0.001) == 20.0;
    FloorToStepExact(20000, 0.001);
    hide FloorToStep;
  }

  lemma LongRounded()
    ensures Quantize(1.0, MONEY) == 1.0 && Quantize(0.8004, MONEY) == 0.8004 && Quantize(0.87956, MONEY) == 0.87956
    ensures Quantize(2001.0, CENT) == 2001.0 && Quantize(194.12004, CENT) == 194.12
  {
    assert Multiple(100000000, MONEY) == 1.0 && Multiple(80040000, MONEY) == 0.8004;
    assert Multiple(87956000, MONEY) == 0.87956 && Multiple(200100, CENT) == 2001.0;
    QuantizeExact(100000000, MONEY);
    QuantizeExact(80040000, MONEY);
    QuantizeExact(87956000, MONEY);
    QuantizeExact(200100, CENT);
    assert 194.12004 / CENT == 19412.004 && RoundHalfEven(19412.004) == 19412;
  }

  lemma LongIsEntered()
    ensures EnterTrade(SLIPPING, BOUGHT, FLAT, 200.0) == Bought()
  {
    LongFigures();
    LongQuantity();
    LongRounded();
    hide SlippedPrice, TestQuantity, StopDistance, SlippageCost, MarginFor, Fee, Quantize, GrossPnl;
  }

  /** One long of 20 coins, to be bought at 100 and sold at 110: the move is worth 200, fees take 1.68 and slippage
      2.10, and the trade nets 194.12 instead of 196.22. */
  lemma LongPaysSlippageTwice()
    ensures var t := EnterTrade(SLIPPING, BOUGHT, FLAT, 200.0);
      var left := CheckExit(SLIPPING, t, RISEN);
      && t.entrySlippage == 1.0 && left.Some?
      && var x := left.value.exit.value;
         x.slippage == 1.1 && x.net == 194.12 && Meant(t, 100.0, 110.0, x) == 196.22004
  {
    LongIsEntered();
    LongFigures();
    LongRounded();
    assert FindExit(Bought(), RISEN) == Some((110.0, TakeProfit));
    assert FundingCharge(SLIPPING, true, 20.0, 109.945, 0.0) == 0.0;
    hide EnterTrade, SlippedPrice, SlippageCost, Fee, Quantize, GrossPnl, FindExit, FundingCharge, IsFundingBar;
  }

  // ---------- Funding ----------

  /** No slippage, the default fee, and funding. */
  const PLAIN := Config(10000.0, 0.0004, false, 0.0, 0.1, true, true, 1)

  const SOLD := TestSignal(0, "BTCUSDT", false, 100.0, Some(90.0), 110.0, 1)

  /** An hour before a funding is due, and the hour it is due; longs pay a tenth of a percent. */
  const BEFORE := Bar(7 * Funding.HOUR, 100.0, 100.0, 100.0, 100.0, 0.0, 0.001)

  const DUE := Bar(8 * Funding.HOUR, 100.0, 100.0, 90.0, 95.0, 0.0, 0.001)

  function Short(): Trade {
    Trade(SOLD, 7 * Funding.HOUR, 100.0, 20.0, 2000.0, 0.8, 0.0, 0.0, None)
  }

  lemma ShortIsEntered()
    ensures EnterTrade(PLAIN, SOLD, BEFORE, 200.0) == Short()
  {
    assert Multiple(20000, 0.001) == 20.0 && Multiple(200000, CENT) == 2000.0;
    assert Multiple(80000000, MONEY) == 0.8 && Multiple(0, MONEY) == 0.0;
    assert SlippedPrice(PLAIN, false, 100.0, 1.0, 0.0) == 100.0;
    FloorToStepExact(20000, 0.001);
    assert TestQuantity(200.0, 10.0, "BTCUSDT") == 20.0;
    assert SlippageCost(100.0, 100.0, 20.0) == 0.0 && MarginFor(20.0, 100.0, 1) == 2000.0;
    assert Fee(20.0, 100.0, 0.0004) == 0.8;
    QuantizeExact(200000, CENT);
    QuantizeExact(80000000, MONEY);
    QuantizeExact(0, MONEY);
    hide SlippedPrice, TestQuantity, SlippageCost, MarginFor, Fee, Quantize;
  }

  lemma ShortFunding()
    ensures !IsFundingBar(BEFORE) && IsFundingBar(DUE)
    ensures FundingCharge(PLAIN, false, 20.0, 95.0, 0.001) == -1.9
    ensures FundingCharge(PLAIN, false, 20.0, 90.0, 0.001) == -1.8
  {
  }

  lemma ShortFigures()
    ensures SlippedPrice(PLAIN, true, 90.0, 20.0, 0.0) == 90.0 && SlippageCost(90.0, 90.0, 20.0) == 0.0
    ensures CalculateFee(20.0, 90.0, 0.0004) == 0.72 && GrossPnl(false, 20.0, 100.0, 90.0) == 200.0
    ensures Quantize(194.78, CENT) == 194.78
  {
    assert Fee(20.0, 90.0, 0.0004) == 0.72;
    assert Multiple(72000000, MONEY) == 0.72 && Multiple(19478, CENT) == 194.78;
    QuantizeExact(72000000, MONEY);
    QuantizeExact(19478, CENT);
    hide Fee, Quantize;
  }

  lemma ShortExit(t: Trade)
    requires t.signal == SOLD
    ensures FindExit(t, DUE) == Some((90.0, TakeProfit))
  {
  }

  /** One short of 20 coins, sold at 100 and bought back at its target 90 on the bar on which a funding of a tenth of a
      percent falls due.  It received 1.90 for that bar at the close and another 1.80 at its exit, and its net profit
      pays both: 194.78, where with the one credit it is due the trade earns 200.38. */
  lemma ShortPaysItsCredit()
    ensures var t := Accrued(PLAIN, EnterTrade(PLAIN, SOLD, BEFORE, 200.0), DUE);
      && !IsFundingBar(BEFORE) && IsFundingBar(DUE)
      && t.funding == -1.9
      && var left := CheckExit(PLAIN, t, DUE);
         left.Some?
         && var x := left.value.exit.value;
            && x.price == 90.0 && x.funding == -1.8 && x.net == 194.78
            && GrossPnl(false, 20.0, 100.0, 90.0) - (t.entryFee + x.fee) - t.funding == 200.38
  {
    ShortIsEntered();
    var t := Short().(funding := -1.9);
    ShortFunding();
    ShortFigures();
    ShortExit(t);
    assert Short().funding == 0.0;
    hide EnterTrade, FundingCharge, SlippedPrice, SlippageCost, Fee, Quantize, GrossPnl, NetPnl, FindExit, IsFundingBar,
      CalculateFee;
  }
}
