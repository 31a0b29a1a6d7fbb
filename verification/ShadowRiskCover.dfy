/** How well the worst loss used for sizing covers what a trade stopped out at its stop really loses. */
module ShadowRiskCover {
  import opened Common
  import opened Decimals
  import opened Funding
  import opened ShadowPnl
  import opened ShadowSizing
  import Optimal = ShadowSizingOptimal

  /** The most that one rounding to eight decimals can move a figure. */
  const HALF: real := 0.000000005

  /** What a trade of this size loses when it is closed exactly at its stop. */
  function LossAtStop(inp: SizingInput, quantity: real, start: int, end: int): real
    requires inp.direction.IsSide()
  {
    -CalculateShadowPnl(inp.direction, inp.entry, inp.stop, quantity, None, start, end, inp.costs).value.net
  }

  /** Four per-coin figures and six figures of the trade are rounded. */
  function RoundingSlack(quantity: real): real {
    (4.0 * quantity + 6.0) * HALF
  }

  /** The sizing averages the entry with the slipped stop, the trade with the stop itself.  A long that pays
      funding is therefore charged on a higher average than it was sized for. */
  function FundingGap(inp: SizingInput, quantity: real): real {
    if inp.direction.Long? && 0.0 < inp.costs.fundingRate
    then quantity * (inp.stop * (inp.costs.slippageBps / TEN_THOUSAND) / 2.0
                     * (inp.costs.fundingRate * Intervals(inp) as real))
    else 0.0
  }

  // ---------- One rounded figure ----------

  lemma RoundedScales(unit: real, total: real, q: real)
    requires 0.0 <= q && total == Mul(q, unit)
    ensures Mul(q, Quantize(unit, MONEY)) - (Mul(q, HALF) + HALF)
         <= Quantize(total, MONEY)
         <= Mul(q, Quantize(unit, MONEY)) + (Mul(q, HALF) + HALF)
  {
    QuantizeError(unit, MONEY);
    QuantizeError(total, MONEY);
    var rounded := Quantize(unit, MONEY);
    hide Quantize;
    ScaleWithin(q, unit, rounded);
  }

  lemma ScaleWithin(q: real, x: real, y: real)
    requires 0.0 <= q && x - HALF <= y <= x + HALF
    ensures Mul(q, y) - Mul(q, HALF) <= Mul(q, x) <= Mul(q, y) + Mul(q, HALF)
  {
    MulLe(y - HALF, x, q);
    MulLe(x, y + HALF, q);
    MulAdd(y, HALF, q);
    MulSwap(q, x);
    MulSwap(q, y);
    MulSwap(q, HALF);
  }

  lemma MulSwap(x: real, y: real)
    ensures Mul(x, y) == Mul(y, x)
  {
  }

  lemma FeeScales(price: real, q: real, feeRate: real)
    requires 0.0 <= q
    ensures Mul(q, FillFee(price, 1.0, feeRate)) - (Mul(q, HALF) + HALF)
         <= FillFee(price, q, feeRate)
         <= Mul(q, FillFee(price, 1.0, feeRate)) + (Mul(q, HALF) + HALF)
  {
    assert price * q * feeRate == Mul(q, price * 1.0 * feeRate);
    hide Mul, Quantize;
    var unit, total := price * 1.0 * feeRate, price * q * feeRate;
    RoundedScales(unit, total, q);
    assert FillFee(price, 1.0, feeRate) == Quantize(unit, MONEY);
    assert FillFee(price, q, feeRate) == Quantize(total, MONEY);
    hide FillFee;
  }

  lemma SlippageScales(price: real, q: real, bps: real)
    requires 0.0 <= q
    ensures Mul(q, FillSlippageCost(price, 1.0, bps)) - (Mul(q, HALF) + HALF)
         <= FillSlippageCost(price, q, bps)
         <= Mul(q, FillSlippageCost(price, 1.0, bps)) + (Mul(q, HALF) + HALF)
  {
    assert price * q * bps / TEN_THOUSAND == Mul(q, price * 1.0 * bps / TEN_THOUSAND);
    hide Mul, Quantize;
    var unit, total := price * 1.0 * bps / TEN_THOUSAND, price * q * bps / TEN_THOUSAND;
    RoundedScales(unit, total, q);
    assert FillSlippageCost(price, 1.0, bps) == Quantize(unit, MONEY);
    assert FillSlippageCost(price, q, bps) == Quantize(total, MONEY);
    hide FillSlippageCost;
  }

  // ---------- Funding ----------

  /** The unrounded funding a trade is charged, and what sizing reserves for one coin. */
  function TradeFunding(inp: SizingInput, quantity: real, events: nat): real {
    FundingCharge(inp.direction, inp.entry, inp.stop, quantity, inp.costs.fundingRate, events)
  }

  function CoinFunding(inp: SizingInput): real {
    FundingReserve(inp, ExpectedFillPrice(inp.direction, inp.stop, inp.costs.slippageBps, false))
  }

  /** The half of the slippage by which the two averages differ. */
  function HalfSlip(inp: SizingInput): real {
    inp.stop * (inp.costs.slippageBps / TEN_THOUSAND) / 2.0
  }

  lemma AveragesDiffer(inp: SizingInput)
    requires 0.0 < inp.entry && 0.0 < inp.stop && inp.direction.IsSide()
    ensures 0.0 <= HalfSlip(inp)
    ensures var stopFill := ExpectedFillPrice(inp.direction, inp.stop, inp.costs.slippageBps, false);
      && 0.0 < (inp.entry + stopFill) / 2.0
      && (inp.entry + inp.stop) / 2.0
         == (inp.entry + stopFill) / 2.0 + if inp.direction.Long? then HalfSlip(inp) else -HalfSlip(inp)
  {
    var slip := inp.costs.slippageBps / TEN_THOUSAND;
    assert 0.0 <= slip <= 0.1;
    MulNonNeg(inp.stop, slip);
    MulLe(slip, 0.1, inp.stop);
    MulSwap(inp.stop, slip);
    assert inp.stop * (1.0 - slip) == inp.stop - Mul(inp.stop, slip);
    assert inp.stop * (1.0 + slip) == inp.stop + Mul(inp.stop, slip);
  }

  /** A charge at a rate no greater than the reserved one, on an average that is `delta` greater. */
  lemma ChargeWithin(average: real, reserved: real, delta: real, q: real, x: real, y: real)
    requires average == reserved + delta && 0.0 <= average && 0.0 <= q && x <= y
    ensures Mul(Mul(average, q), x) <= Mul(q, Mul(reserved, y)) + Mul(q, Mul(delta, y))
    ensures x == y ==> Mul(Mul(average, q), x) == Mul(q, Mul(reserved, y)) + Mul(q, Mul(delta, y))
  {
    MulNonNeg(average, q);
    MulLe(x, y, Mul(average, q));
    MulSwap(x, Mul(average, q));
    MulSwap(y, Mul(average, q));
    assert Mul(Mul(average, q), y) == Mul(q, Mul(reserved, y)) + Mul(q, Mul(delta, y));
    hide Mul;
  }

  function SignedRate(inp: SizingInput, events: int): real {
    inp.costs.fundingRate * (if inp.direction.Long? then 1.0 else -1.0) * events as real
  }

  function ReservedRate(inp: SizingInput): real {
    Abs(inp.costs.fundingRate) * Intervals(inp) as real
  }

  lemma RateWithin(inp: SizingInput, events: nat)
    requires events <= Intervals(inp)
    ensures SignedRate(inp, events) <= ReservedRate(inp) && 0.0 <= ReservedRate(inp)
    ensures inp.direction.Long? && 0.0 <= inp.costs.fundingRate && events == Intervals(inp) ==>
              SignedRate(inp, events) == ReservedRate(inp)
    ensures inp.direction.Long? && inp.costs.fundingRate <= 0.0 ==> SignedRate(inp, events) <= 0.0
  {
    var rate := inp.costs.fundingRate;
    var signed := rate * (if inp.direction.Long? then 1.0 else -1.0);
    assert signed <= Abs(rate);
    MulLe(signed, Abs(rate), events as real);
    MulLe(events as real, Intervals(inp) as real, Abs(rate));
    MulSwap(events as real, Abs(rate));
    MulSwap(Intervals(inp) as real, Abs(rate));
    MulNonNeg(Abs(rate), Intervals(inp) as real);
    if signed <= 0.0 {
      MulLe(signed, 0.0, events as real);
    }
    assert SignedRate(inp, events) == Mul(signed, events as real);
    assert ReservedRate(inp) == Mul(Abs(rate), Intervals(inp) as real);
    hide Mul;
  }

  lemma FundingShape(inp: SizingInput, q: real, events: nat)
    ensures TradeFunding(inp, q, events) == Mul(Mul((inp.entry + inp.stop) / 2.0, q), SignedRate(inp, events))
    ensures CoinFunding(inp)
         == Mul((inp.entry + ExpectedFillPrice(inp.direction, inp.stop, inp.costs.slippageBps, false)) / 2.0,
                ReservedRate(inp))
    ensures FundingGap(inp, q) == if inp.direction.Long? && 0.0 < inp.costs.fundingRate
                                  then Mul(q, Mul(HalfSlip(inp), ReservedRate(inp))) else 0.0
  {
    hide ExpectedFillPrice;
  }

  /** What funding costs the trade, against what was reserved for it. */
  lemma FundingWithin(inp: SizingInput, q: real, events: nat)
    requires inp.direction.IsSide() && 0.0 < inp.entry && 0.0 < inp.stop && 0.0 <= q && events <= Intervals(inp)
    ensures TradeFunding(inp, q, events) <= Mul(q, CoinFunding(inp)) + FundingGap(inp, q)
    ensures inp.direction.Long? && 0.0 < inp.costs.fundingRate && events == Intervals(inp) ==>
              TradeFunding(inp, q, events) == Mul(q, CoinFunding(inp)) + FundingGap(inp, q)
  {
    FundingShape(inp, q, events);
    AveragesDiffer(inp);
    RateWithin(inp, events);
    var stopFill := ExpectedFillPrice(inp.direction, inp.stop, inp.costs.slippageBps, false);
    var average, reserved, x, y :=
      (inp.entry + inp.stop) / 2.0, (inp.entry + stopFill) / 2.0, SignedRate(inp, events), ReservedRate(inp);
    assert 0.0 <= average && 0.0 <= reserved;
    hide ExpectedFillPrice, SignedRate, ReservedRate, TradeFunding, CoinFunding, HalfSlip, FundingGap;
    ChargeWithin(average, reserved, average - reserved, q, x, y);
    if inp.direction.Long? && inp.costs.fundingRate <= 0.0 {
      CreditWithin(average, reserved, q, x, y);
    } else if inp.direction.Short? {
      ShortfallNegative(HalfSlip(inp), q, y);
    }
    hide Mul;
  }

  /** Main result on the reserve: it covers every funding the trade can be charged within its intervals, exactly when
      the trade is not a long that pays funding and slips at its stop. */
  lemma ReserveCoversFunding(inp: SizingInput, q: real)
    requires inp.direction.IsSide() && 0.0 < inp.entry && 0.0 < inp.stop && 0.0 < q
    ensures (forall events: nat :: events <= Intervals(inp) ==>
               TradeFunding(inp, q, events) <= Mul(q, CoinFunding(inp)))
       <==> !(inp.direction.Long? && 0.0 < inp.costs.fundingRate && 0.0 < inp.costs.slippageBps)
  {
    GapIsPositive(inp, q);
    var most: nat := Intervals(inp);
    FundingWithin(inp, q, most);
    hide TradeFunding, CoinFunding, FundingGap, Mul, Intervals;
    forall events: nat | events <= Intervals(inp)
      ensures TradeFunding(inp, q, events) <= Mul(q, CoinFunding(inp)) + FundingGap(inp, q)
    {
      FundingWithin(inp, q, events);
    }
  }

  lemma GapIsPositive(inp: SizingInput, q: real)
    requires 0.0 < inp.stop && 0.0 < q
    ensures 1 <= Intervals(inp) && 0.0 <= FundingGap(inp, q)
    ensures 0.0 < FundingGap(inp, q)
       <==> inp.direction.Long? && 0.0 < inp.costs.fundingRate && 0.0 < inp.costs.slippageBps
  {
    if inp.direction.Long? && 0.0 < inp.costs.fundingRate {
      var slip := inp.costs.slippageBps / TEN_THOUSAND;
      var rate, half := Mul(inp.costs.fundingRate, Intervals(inp) as real), Mul(inp.stop, slip) / 2.0;
      MulPositive(inp.costs.fundingRate, Intervals(inp) as real);
      MulNonNeg(inp.stop, slip);
      MulNonNeg(half, rate);
      MulNonNeg(q, Mul(half, rate));
      assert FundingGap(inp, q) == Mul(q, Mul(half, rate));
      if 0.0 < inp.costs.slippageBps {
        MulPositive(inp.stop, slip);
        MulPositive(half, rate);
        MulPositive(q, Mul(half, rate));
      } else {
        assert slip == 0.0 && half == 0.0 && Mul(half, rate) == 0.0;
      }
    }
  }

  lemma MulPositive(x: real, y: real)
    requires 0.0 < x && 0.0 < y
    ensures 0.0 < Mul(x, y)
  {
  }

  lemma CreditWithin(average: real, reserved: real, q: real, x: real, y: real)
    requires 0.0 <= average && 0.0 <= reserved && 0.0 <= q && x <= 0.0 && 0.0 <= y
    ensures Mul(Mul(average, q), x) <= Mul(q, Mul(reserved, y))
  {
    MulNonNeg(average, q);
    MulLe(x, 0.0, Mul(average, q));
    MulSwap(x, Mul(average, q));
    MulNonNeg(reserved, y);
    MulNonNeg(q, Mul(reserved, y));
    assert Mul(0.0, Mul(average, q)) == 0.0;
    hide Mul;
  }

  lemma ShortfallNegative(delta: real, q: real, y: real)
    requires 0.0 <= delta && 0.0 <= q && 0.0 <= y
    ensures Mul(q, Mul(-delta, y)) <= 0.0
  {
    MulNonNeg(delta, y);
    MulNonNeg(q, Mul(delta, y));
    assert Mul(q, Mul(-delta, y)) == -Mul(q, Mul(delta, y));
    hide Mul;
  }

  // ---------- The whole trade ----------

  lemma GrossWithin(inp: SizingInput, q: real)
    requires inp.direction.IsSide() && 0.0 <= q
    ensures -GrossPnl(inp.direction, inp.entry, inp.stop, q).value <= Mul(q, Abs(inp.entry - inp.stop))
    ensures inp.direction.Long? && inp.stop <= inp.entry ==>
              -GrossPnl(inp.direction, inp.entry, inp.stop, q).value == Mul(q, Abs(inp.entry - inp.stop))
  {
    var move := if inp.direction.Long? then inp.stop - inp.entry else inp.entry - inp.stop;
    MulLe(-move, Abs(inp.entry - inp.stop), q);
    MulSwap(q, Abs(inp.entry - inp.stop));
    assert GrossPnl(inp.direction, inp.entry, inp.stop, q).value == -Mul(-move, q);
    hide Mul;
  }

  lemma Distribute(q: real, a: real, b: real, c: real, d: real, e: real, f: real)
    ensures Mul(q, a + b + c + d + e + f)
         == Mul(q, a) + Mul(q, b) + Mul(q, c) + Mul(q, d) + Mul(q, e) + Mul(q, f)
  {
  }

  /** The trade's net figure before its own rounding, with the sign of a loss. */
  function RawLoss(inp: SizingInput, q: real, events: nat): real
    requires inp.direction.IsSide()
  {
    var c := inp.costs;
    var entryFill := ExpectedFillPrice(inp.direction, inp.entry, c.slippageBps, true);
    var stopFill := ExpectedFillPrice(inp.direction, inp.stop, c.slippageBps, false);
    -GrossPnl(inp.direction, inp.entry, inp.stop, q).value
    + FillFee(entryFill, q, c.takerFeeRate) + FillFee(stopFill, q, c.takerFeeRate)
    + Quantize(TradeFunding(inp, q, events), MONEY)
    + (FillSlippageCost(inp.entry, q, c.slippageBps) + FillSlippageCost(inp.stop, q, c.slippageBps))
  }

  lemma LossIsRounded(inp: SizingInput, q: real, start: int, end: int)
    requires inp.direction.IsSide()
    ensures var raw := RawLoss(inp, q, FundingEvents(start, end, inp.costs.fundingHours));
      raw - HALF <= LossAtStop(inp, q, start, end) <= raw + HALF
  {
    var events := FundingEvents(start, end, inp.costs.fundingHours);
    hide Quantize, FundingEvents, ExpectedFillPrice, FillFee, FillSlippageCost, FundingCharge, ReturnPct;
    assert LossAtStop(inp, q, start, end) == -Quantize(-RawLoss(inp, q, events), MONEY);
    QuantizeError(-RawLoss(inp, q, events), MONEY);
  }

  /** The per-coin figure that sizing multiplies out, part by part. */
  lemma SizedLossShape(inp: SizingInput, q: real)
    ensures var c := inp.costs;
      var entryFill := ExpectedFillPrice(inp.direction, inp.entry, c.slippageBps, true);
      var stopFill := ExpectedFillPrice(inp.direction, inp.stop, c.slippageBps, false);
      LossOf(q, WorstLossPerCoin(inp)) ==
        Mul(q, Abs(inp.entry - inp.stop))
        + Mul(q, FillFee(entryFill, 1.0, c.takerFeeRate)) + Mul(q, FillFee(stopFill, 1.0, c.takerFeeRate))
        + Mul(q, FillSlippageCost(inp.entry, 1.0, c.slippageBps))
        + Mul(q, FillSlippageCost(inp.stop, 1.0, c.slippageBps))
        + Mul(q, CoinFunding(inp))
  {
    assert LossOf(q, WorstLossPerCoin(inp)) == Mul(q, WorstLossPerCoin(inp));
    hide Mul, LossOf, ExpectedFillPrice, FillFee, FillSlippageCost, FundingReserve;
    var c := inp.costs;
    var entryFill := ExpectedFillPrice(inp.direction, inp.entry, c.slippageBps, true);
    var stopFill := ExpectedFillPrice(inp.direction, inp.stop, c.slippageBps, false);
    Distribute(q, Abs(inp.entry - inp.stop),
               FillFee(entryFill, 1.0, c.takerFeeRate), FillFee(stopFill, 1.0, c.takerFeeRate),
               FillSlippageCost(inp.entry, 1.0, c.slippageBps), FillSlippageCost(inp.stop, 1.0, c.slippageBps),
               CoinFunding(inp));
  }

  /** The loss at the stop lies within the rounding slack of the sized loss, once the funding is put right. */
  lemma LossAtStopBounds(inp: SizingInput, q: real, start: int, end: int)
    requires inp.direction.IsSide() && 0.0 < inp.entry && 0.0 < inp.stop && 0.0 <= q
    requires FundingEvents(start, end, inp.costs.fundingHours) <= Intervals(inp)
    ensures LossAtStop(inp, q, start, end) <= LossOf(q, WorstLossPerCoin(inp)) + FundingGap(inp, q) + RoundingSlack(q)
    ensures
      inp.direction.Long? && inp.stop <= inp.entry && 0.0 < inp.costs.fundingRate
      && FundingEvents(start, end, inp.costs.fundingHours) == Intervals(inp) ==>
        LossOf(q, WorstLossPerCoin(inp)) + FundingGap(inp, q) - RoundingSlack(q) <= LossAtStop(inp, q, start, end)
  {
    assert RoundingSlack(q) == 4.0 * Mul(q, HALF) + 6.0 * HALF;
    var c, events := inp.costs, FundingEvents(start, end, inp.costs.fundingHours);
    hide Mul, LossOf, WorstLossPerCoin, LossAtStop, CoinFunding, TradeFunding, FundingGap, FundingEvents,
         ExpectedFillPrice, FillFee, FillSlippageCost, GrossPnl, RoundingSlack;
    var entryFill := ExpectedFillPrice(inp.direction, inp.entry, c.slippageBps, true);
    var stopFill := ExpectedFillPrice(inp.direction, inp.stop, c.slippageBps, false);
    LossIsRounded(inp, q, start, end);
    SizedLossShape(inp, q);
    GrossWithin(inp, q);
    FeeScales(entryFill, q, c.takerFeeRate);
    FeeScales(stopFill, q, c.takerFeeRate);
    SlippageScales(inp.entry, q, c.slippageBps);
    SlippageScales(inp.stop, q, c.slippageBps);
    FundingWithin(inp, q, events);
    QuantizeError(TradeFunding(inp, q, events), MONEY);
    hide Quantize;
  }

  /** Main result: a size approved from a risk budget, closed at its stop after no more funding events than it
      was sized for, loses no more than the budget, up to rounding and, for a long that pays funding, the gap. */
  lemma ApprovedTradeKeepsBudget(inp: SizingInput, start: int, end: int)
    requires FundingEvents(start, end, inp.costs.fundingHours) <= Intervals(inp)
    ensures var r := SizeFromRiskBudget(inp);
      r.Approved? ==>
        && inp.direction.IsSide()
        && LossAtStop(inp, r.quantity, start, end)
           <= RiskBudget(inp) + FundingGap(inp, r.quantity) + RoundingSlack(r.quantity)
  {
    Optimal.ApprovedIsLargest(inp);
    var r := SizeFromRiskBudget(inp);
    hide LossAtStop, RiskBudget, FundingGap, RoundingSlack, WorstLossPerCoin, LossOf, SizeFromRiskBudget, FundingEvents;
    if r.Approved? {
      LossAtStopBounds(inp, r.quantity, start, end);
    }
  }

  /** The gap is real: here a long loses more at its stop than the worst loss it was sized for. */
  lemma WorstLossIsExceeded()
    ensures exists inp: SizingInput, q: real, start: int, end: int ::
      && inp.direction.IsSide() && 0.0 < inp.stop < inp.entry && 0.0 < q
      && FundingEvents(start, end, inp.costs.fundingHours) <= Intervals(inp)
      && LossOf(q, WorstLossPerCoin(inp)) < LossAtStop(inp, q, start, end)
  {
    var costs: CostConfig := CostFields(0.0004, 5.0, 0.0001, 8);
    var rules: SymbolRules := RuleFields(0.001, 0.001, 0.1, 5.0);
    var inp := SizingInput(Long, 100.0, 99.0, 102.0, 10000.0, 10000.0, 0.02, 0.0, 0.1, 0.2, 1.1,
                           10, 10, 20, 10, 1, rules, costs);
    var q, start, end := 10.0, 0, 8 * HOUR;
    assert FundingEvents(start, end, costs.fundingHours) == 1;
    assert Intervals(inp) == 1;
    assert FundingGap(inp, q) == 10.0 * (99.0 * 0.0005 / 2.0 * 0.0001);
    assert RoundingSlack(q) == 0.00000023;
    assert RoundingSlack(q) < FundingGap(inp, q);
    hide LossAtStop, LossOf, WorstLossPerCoin, FundingEvents, FundingGap, RoundingSlack;
    LossAtStopBounds(inp, q, start, end);
  }
}
