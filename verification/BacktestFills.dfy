/** Where a backtest fills: at which price a trade is entered and at which it leaves. */
module BacktestFills {
  import opened Common
  import opened Decimals
  import opened RiskSizing
  import opened BacktestModel

  /** The bar traded at this price. */
  predicate Within(bar: Bar, price: real) {
    bar.low <= price <= bar.high
  }

  ghost predicate StopReached(t: Trade, bar: Bar) {
    if t.signal.long then bar.low <= t.signal.stop else t.signal.stop <= bar.high
  }

  ghost predicate TargetReached(t: Trade, bar: Bar) {
    t.signal.takeProfit.Some?
    && if t.signal.long then t.signal.takeProfit.value <= bar.high else bar.low <= t.signal.takeProfit.value
  }

  /** A trade leaves a bar exactly when the bar reached its stop or its target, at one of the two that was reached; of
      two that were, at the one nearer to the open, and at the target on a tie. */
  lemma LeavesAtNearest(t: Trade, bar: Bar)
    ensures var found := FindExit(t, bar);
      && (found.Some? <==> StopReached(t, bar) || TargetReached(t, bar))
      && (found.Some? && found.value.1.StopLoss? ==>
            && StopReached(t, bar) && found.value.0 == t.signal.stop
            && (TargetReached(t, bar) ==> Abs(bar.open - t.signal.stop) < Abs(bar.open - t.signal.takeProfit.value)))
      && (found.Some? && !found.value.1.StopLoss? ==>
            && found.value.1.TakeProfit? && TargetReached(t, bar) && found.value.0 == t.signal.takeProfit.value
            && (StopReached(t, bar) ==> Abs(bar.open - found.value.0) <= Abs(bar.open - t.signal.stop)))
  {
  }

  /** The price at which a trade leaves is one the bar traded at, exactly when the bar did not jump over it.  After a
      jump the trade still leaves at its own level: better than the market at a stop, worse at a target. */
  lemma LeavesWithinBar(t: Trade, bar: Bar)
    ensures var found := FindExit(t, bar);
      found.Some? ==>
        (Within(bar, found.value.0)
         <==> (if t.signal.long == found.value.1.StopLoss? then found.value.0 <= bar.high
               else bar.low <= found.value.0))
  {
    LeavesAtNearest(t, bar);
  }

  /** A long with a stop above everything a bar traded at sells at that stop. */
  lemma JumpFillsAtStop(t: Trade, bar: Bar)
    requires t.signal.long && bar.high < t.signal.stop && bar.low <= bar.high
    requires t.signal.takeProfit.Some? ==> bar.high < t.signal.takeProfit.value
    ensures FindExit(t, bar) == Some((t.signal.stop, StopLoss)) && !Within(bar, t.signal.stop)
  {
  }

  predicate SaneCosts(c: Config) {
    0.0 <= c.slippageRate && 0.0 <= c.volumeFactor && 0.0 <= c.feeRate
  }

  lemma RateIsCost(c: Config, quantity: real, volume: real)
    requires SaneCosts(c) && 0.0 <= quantity && 0.0 <= volume
    ensures 0.0 <= SlippageRate(c, quantity, volume)
    ensures c.volumeModel && volume != 0.0 ==> SlippageRate(c, quantity, volume) <= 0.01
    ensures c.slippageRate <= 0.01 ==> c.slippageRate <= SlippageRate(c, quantity, volume) <= 0.01
  {
    if c.volumeModel && volume != 0.0 {
      MulDiv(quantity, volume);
      if quantity / volume < 0.0 {
        MulLt(quantity / volume, 0.0, volume);
      }
      var share := quantity / volume;
      MulNonNeg(share, c.volumeFactor);
      MulNonNeg(c.slippageRate, Mul(share, c.volumeFactor));
      assert c.slippageRate * (1.0 + share * c.volumeFactor)
          == c.slippageRate + Mul(c.slippageRate, Mul(share, c.volumeFactor));
    }
  }

  /** Slippage never helps: a buy fills at the wanted price or above, a sale at it or below, and the volume model never
      slips by more than one percent. */
  lemma SlippageNeverHelps(c: Config, buy: bool, price: real, quantity: real, volume: real)
    requires SaneCosts(c) && 0.0 <= price && 0.0 <= quantity && 0.0 <= volume
    ensures var fill := SlippedPrice(c, buy, price, quantity, volume);
      && (if buy then price <= fill else fill <= price)
      && (c.volumeModel && volume != 0.0 ==> Abs(fill - price) <= 0.01 * price)
  {
    RateIsCost(c, quantity, volume);
    var rate := SlippageRate(c, quantity, volume);
    hide SlippageRate;
    MulNonNeg(price, rate);
    assert price * (1.0 + rate) == price + Mul(price, rate) && price * (1.0 - rate) == price - Mul(price, rate);
    if c.volumeModel && volume != 0.0 {
      MulLe(rate, 0.01, price);
      assert Mul(rate, price) == Mul(price, rate) && Mul(0.01, price) == 0.01 * price;
    }
    hide Mul;
  }

  /** So a trade is entered at the base price or worse, and left at its level or worse. */
  lemma TradePaysSlippage(c: Config, signal: TestSignal, bar: Bar, risk: real, t: Trade, at: real, reason: ExitReason)
    requires SaneCosts(c) && 0.0 <= bar.volume && 0.0 <= at && 0.0 <= t.quantity
    ensures var base: real := if c.entryOnNextOpen then bar.open else signal.entry;
      var entry := EnterTrade(c, signal, bar, risk).entry;
      if signal.long then base <= entry else entry <= base
    ensures var left := CloseTrade(c, t, bar, at, reason).exit.value.price;
      if t.signal.long then left <= at else at <= left
  {
    var base: real := if c.entryOnNextOpen then bar.open else signal.entry;
    SlippageNeverHelps(c, signal.long, base, 1.0, bar.volume);
    SlippageNeverHelps(c, !t.signal.long, at, t.quantity, bar.volume);
    hide SlippedPrice, TestQuantity, StopDistance, Quantize, MarginFor, CalculateFee, SlippageCost, IsFundingBar,
      FundingCharge, GrossPnl, NetPnl;
  }

  /** What funding takes from a long it gives to a short of the same size, and a positive rate is paid by the long. */
  lemma FundingMovesBetweenSides(c: Config, quantity: real, price: real, rate: real)
    ensures FundingCharge(c, true, quantity, price, rate) == -FundingCharge(c, false, quantity, price, rate)
    ensures 0.0 <= quantity && 0.0 <= price && 0.0 <= rate ==> 0.0 <= FundingCharge(c, true, quantity, price, rate)
  {
    if 0.0 <= quantity && 0.0 <= price && 0.0 <= rate {
      MulNonNeg(quantity, price);
      MulNonNeg(Mul(quantity, price), rate);
    }
  }

  /** The quantity of a trade is tradable, and unless it is the single smallest lot, the way to the stop is worth no
      more than the risk it was sized for. */
  lemma QuantityWithinRisk(risk: real, distance: real, symbol: string)
    requires 0.0 < distance
    ensures var quantity := TestQuantity(risk, distance, symbol);
      && LotSize(symbol) <= quantity
      && (quantity == LotSize(symbol) || Mul(quantity, distance) <= risk)
  {
    var lot := LotSize(symbol);
    MulDiv(risk, distance);
    if 0.0 <= risk / distance {
      FloorToStepLargest(risk / distance, lot);
      MulLe(RoundToLotSize(risk / distance, symbol), risk / distance, distance);
      if 0.0 < RoundToLotSize(risk / distance, symbol) {
        AtLeastOne(Truncate((risk / distance) / lot), lot);
      }
    } else {
      NotPositive(risk / distance, lot);
    }
    hide FloorToStep, Mul;
  }

  lemma AtLeastOne(k: int, lot: real)
    requires 0.0 < lot && 0.0 < Multiple(k, lot)
    ensures lot <= Multiple(k, lot)
  {
    if k <= 0 {
      MultipleMono(k, 0, lot);
    } else {
      MultipleMono(1, k, lot);
    }
  }

  lemma NotPositive(value: real, lot: real)
    requires 0.0 < lot && value < 0.0
    ensures FloorToStep(value, lot) <= 0.0
  {
    MulDiv(value, lot);
    if 0.0 < value / lot {
      MulLt(0.0, value / lot, lot);
    }
    MultipleMono(Truncate(value / lot), 0, lot);
  }
}
