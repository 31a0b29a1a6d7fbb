/** Profit, fee, slippage and funding of a shadow trade: agents/shadow/pnl.py. */
module ShadowPnl {
  import opened Common
  import opened Decimals
  import opened Funding

  const TEN_THOUSAND: real := 10000.0

  /** Money is kept to eight decimals. */
  const MONEY: real := 0.00000001

  datatype CostFields = CostFields(
    takerFeeRate: real,
    slippageBps: real,
    fundingRate: real,        // signed, per interval
    fundingHours: Interval)

  /** The ranges that constructing a `ShadowCostConfig` enforces. */
  type CostConfig = c: CostFields | 0.0 <= c.takerFeeRate <= 0.1 && 0.0 <= c.slippageBps <= 1000.0
    witness CostFields(0.0004, 5.0, 0.0001, 8)

  datatype Pnl = Pnl(
    gross: real,
    entryFee: real,
    exitFee: real,
    funding: real,
    entrySlippage: real,
    exitSlippage: real,
    slippage: real,
    net: real,
    returnPct: Option<real>)

  function GrossPnl(direction: Direction, entry: real, exit: real, quantity: real): Option<real> {
    match direction
    case Long => Some((exit - entry) * quantity)
    case Short => Some((entry - exit) * quantity)
    case Hold => None
  }

  function FillFee(price: real, quantity: real, feeRate: real): real {
    Quantize(price * quantity * feeRate, MONEY)
  }

  function FillSlippageCost(price: real, quantity: real, slippageBps: real): real {
    Quantize(price * quantity * slippageBps / TEN_THOUSAND, MONEY)
  }

  /** A buy fills above the price and a sell below it. */
  function ExpectedFillPrice(direction: Direction, price: real, slippageBps: real, isEntry: bool): real {
    var rate := slippageBps / TEN_THOUSAND;
    var isBuy := (direction.Long? && isEntry) || (direction.Short? && !isEntry);
    price * (if isBuy then 1.0 + rate else 1.0 - rate)
  }

  /** Funding on the average notional; a positive rate costs longs and credits shorts. */
  function FundingCharge(direction: Direction, entry: real, exit: real, quantity: real, rate: real, events: nat): real {
    (entry + exit) / 2.0 * quantity * rate * events as real * (if direction.Long? then 1.0 else -1.0)
  }

  function ReturnPct(net: real, margin: Option<real>): Option<real> {
    if margin.Some? && 0.0 < margin.value
    then Some(Quantize(net / margin.value * 100.0, 0.0001))
    else None
  }

  /** `None` stands for the error raised for an unsupported direction. */
  function CalculateShadowPnl(direction: Direction, entry: real, exit: real, quantity: real,
                              margin: Option<real>, start: int, end: int, config: CostConfig): Option<Pnl>
  {
    var gross := GrossPnl(direction, entry, exit, quantity);
    if gross.None? then None
    else
      var entryFill := ExpectedFillPrice(direction, entry, config.slippageBps, true);
      var exitFill := ExpectedFillPrice(direction, exit, config.slippageBps, false);
      var entryFee := FillFee(entryFill, quantity, config.takerFeeRate);
      var exitFee := FillFee(exitFill, quantity, config.takerFeeRate);
      var entrySlippage := FillSlippageCost(entry, quantity, config.slippageBps);
      var exitSlippage := FillSlippageCost(exit, quantity, config.slippageBps);
      var slippage := entrySlippage + exitSlippage;
      var events := FundingEvents(start, end, config.fundingHours);
      var funding := Quantize(FundingCharge(direction, entry, exit, quantity, config.fundingRate, events), MONEY);
      var net := Quantize(gross.value - entryFee - exitFee - funding - slippage, MONEY);
      Some(Pnl(Quantize(gross.value, MONEY), entryFee, exitFee, funding,
               entrySlippage, exitSlippage, slippage, net, ReturnPct(net, margin)))
  }

  /** Slippage is always against the trader: what is bought costs more than its price, what is sold brings less. */
  lemma FillIsAgainstTrader(direction: Direction, price: real, bps: real, isEntry: bool)
    requires direction.IsSide() && 0.0 <= price && 0.0 <= bps
    ensures var fill := ExpectedFillPrice(direction, price, bps, isEntry);
      if direction.Long? == isEntry then price <= fill else fill <= price
    ensures bps <= TEN_THOUSAND ==> 0.0 <= ExpectedFillPrice(direction, price, bps, isEntry)
  {
    var rate := bps / TEN_THOUSAND;
    MulNonNeg(price, rate);
    assert price * (1.0 + rate) == price + Mul(price, rate) && price * (1.0 - rate) == price - Mul(price, rate);
    if bps <= TEN_THOUSAND {
      MulNonNeg(price, 1.0 - rate);
      assert price * (1.0 - rate) == Mul(price, 1.0 - rate);
    }
  }

  lemma FeeNonNegative(price: real, quantity: real, rate: real)
    requires 0.0 <= price && 0.0 <= quantity && 0.0 <= rate
    ensures 0.0 <= FillFee(price, quantity, rate)
    ensures 0.0 <= FillSlippageCost(price, quantity, rate)
  {
    MulNonNeg(price, quantity);
    MulNonNeg(Mul(price, quantity), rate);
    assert Mul(Mul(price, quantity), rate) == price * quantity * rate;
    assert Multiple(0, MONEY) == 0.0;
    QuantizeExact(0, MONEY);
    QuantizeMonotone(0.0, price * quantity * rate, MONEY);
    QuantizeMonotone(0.0, price * quantity * rate / TEN_THOUSAND, MONEY);
  }

  lemma FlatFigures(direction: Direction, price: real, quantity: real, rate: real)
    requires direction.IsSide()
    ensures GrossPnl(direction, price, price, quantity) == Some(0.0)
    ensures FundingCharge(direction, price, price, quantity, rate, 0) == 0.0
  {
  }

  /** A trade closed where it was opened, before any funding falls due, never gains: it loses its costs. */
  lemma FlatTradeLoses(direction: Direction, price: real, quantity: real, margin: Option<real>, start: int, end: int,
                       config: CostConfig)
    requires direction.IsSide() && 0.0 <= price && 0.0 <= quantity
    requires FundingEvents(start, end, config.fundingHours) == 0
    ensures CalculateShadowPnl(direction, price, price, quantity, margin, start, end, config).value.net <= 0.0
  {
    FillIsAgainstTrader(direction, price, config.slippageBps, true);
    FillIsAgainstTrader(direction, price, config.slippageBps, false);
    FeeNonNegative(ExpectedFillPrice(direction, price, config.slippageBps, true), quantity, config.takerFeeRate);
    FeeNonNegative(ExpectedFillPrice(direction, price, config.slippageBps, false), quantity, config.takerFeeRate);
    FeeNonNegative(price, quantity, config.slippageBps);
    FlatFigures(direction, price, quantity, config.fundingRate);
    assert Multiple(0, MONEY) == 0.0;
    QuantizeExact(0, MONEY);
    hide GrossPnl, FundingCharge, ExpectedFillPrice, FillFee, FillSlippageCost, Quantize, FundingEvents, ReturnPct,
      Multiple;
    var r := CalculateShadowPnl(direction, price, price, quantity, margin, start, end, config).value;
    QuantizeMonotone(0.0 - r.entryFee - r.exitFee - r.funding - r.slippage, 0.0, MONEY);
  }
}
