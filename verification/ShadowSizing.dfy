/** Risk-budget sizing of shadow trades: agents/shadow/sizing.py and agents/shadow/exchange_rules.py. */
module ShadowSizing {
  import opened Common
  import opened Decimals
  import opened ShadowPnl

  datatype RuleFields = RuleFields(quantityStep: real, minQuantity: real, priceTick: real, minNotional: real)

  /** Every entry of the rule table has a positive step and a positive minimum. */
  type SymbolRules = r: RuleFields | 0.0 < r.quantityStep && 0.0 < r.minQuantity && 0.0 < r.priceTick
    witness RuleFields(0.001, 0.001, 0.1, 5.0)

  /** Unknown symbols have no rules: they fail closed. */
  function GetSymbolRules(symbol: string): Option<SymbolRules> {
    if symbol == "BTCUSDT" then Some(RuleFields(0.001, 0.001, 0.1, 5.0))
    else if symbol == "ETHUSDT" then Some(RuleFields(0.01, 0.01, 0.01, 5.0))
    else None
  }

  datatype SizingInput = SizingInput(
    direction: Direction,
    entry: real,
    stop: real,
    target: real,
    equity: real,
    available: real,
    riskPct: real,
    openRisk: real,
    maxPortfolioRiskPct: real,
    maxMarginRatio: real,
    marginBuffer: real,
    planMaxLeverage: int,
    userMaxLeverage: int,
    systemMaxLeverage: int,
    safeLeverageCap: int,
    fundingIntervals: int,
    rules: SymbolRules,
    costs: CostConfig)

  datatype Code =
    | InvalidDirection | InvalidSizingInput | InvalidRiskPct | InvalidMarginBuffer | InvalidWorstLoss
    | MinQuantity | NoMarginCapacity | LeverageCap | MinNotional | InsufficientBalance
    | RiskBudgetExceeded | PortfolioRiskExceeded | LotStep | InvalidLeverage

  datatype SizingResult =
    | Rejected(code: Code, rejectedBudget: real)
    | Approved(quantity: real, leverage: int, notional: real, margin: real, budget: real,
               maxLoss: real, utilization: real, lossPerCoin: real)

  function Intervals(inp: SizingInput): (n: int)
    ensures 1 <= n && inp.fundingIntervals <= n && (n == 1 || n == inp.fundingIntervals)
  {
    if inp.fundingIntervals < 1 then 1 else inp.fundingIntervals
  }

  function WorstLossPerCoin(inp: SizingInput): real {
    var gross := Abs(inp.entry - inp.stop);
    var entryFill := ExpectedFillPrice(inp.direction, inp.entry, inp.costs.slippageBps, true);
    var stopFill := ExpectedFillPrice(inp.direction, inp.stop, inp.costs.slippageBps, false);
    var entryFee := FillFee(entryFill, 1.0, inp.costs.takerFeeRate);
    var exitFee := FillFee(stopFill, 1.0, inp.costs.takerFeeRate);
    var entrySlippage := FillSlippageCost(inp.entry, 1.0, inp.costs.slippageBps);
    var exitSlippage := FillSlippageCost(inp.stop, 1.0, inp.costs.slippageBps);
    gross + entryFee + exitFee + entrySlippage + exitSlippage + FundingReserve(inp, stopFill)
  }

  /** A possible funding credit is never counted: the rate enters by its size. */
  function FundingReserve(inp: SizingInput, stopFill: real): real {
    (inp.entry + stopFill) / 2.0 * Abs(inp.costs.fundingRate) * Intervals(inp) as real
  }

  function RiskBudget(inp: SizingInput): real {
    inp.equity * inp.riskPct
  }

  function PortfolioLimit(inp: SizingInput): real {
    inp.equity * inp.maxPortfolioRiskPct
  }

  function Notional(quantity: real, price: real): real {
    quantity * price
  }

  function MarginAt(notional: real, leverage: int): real
    requires leverage != 0
  {
    notional / leverage as real
  }

  function Buffered(margin: real, buffer: real): real {
    margin * buffer
  }

  function LossOf(quantity: real, lossPerCoin: real): real {
    quantity * lossPerCoin
  }

  function Utilization(maxLoss: real, budget: real): real {
    if 0.0 < budget then maxLoss / budget else 0.0
  }

  function MarginCap(inp: SizingInput): real
    requires inp.marginBuffer != 0.0
  {
    Min(inp.equity * inp.maxMarginRatio, inp.available / inp.marginBuffer)
  }

  function MaxLeverage(inp: SizingInput): int {
    MinInt(MinInt(inp.planMaxLeverage, inp.userMaxLeverage), MinInt(inp.systemMaxLeverage, inp.safeLeverageCap))
  }

  function RequiredLeverage(notional: real, marginCap: real): int
    requires marginCap != 0.0
  {
    Ceiling(notional / marginCap)
  }

  /** The quantity after the leverage cap. */
  function FitToLeverage(quantity: real, entry: real, step: real, marginCap: real, maxLeverage: int): real
    requires entry != 0.0 && marginCap != 0.0 && 0.0 < step
  {
    if RequiredLeverage(Notional(quantity, entry), marginCap) <= maxLeverage then quantity
    else FloorToStep(Min(quantity, marginCap * maxLeverage as real / entry), step)
  }

  function SizeFromRiskBudget(inp: SizingInput): SizingResult {
    if !inp.direction.IsSide() then Rejected(InvalidDirection, 0.0)
    else if inp.entry <= 0.0 || inp.stop <= 0.0 || inp.target <= 0.0 || inp.equity <= 0.0 || inp.available <= 0.0 then
      Rejected(InvalidSizingInput, 0.0)
    else if !(0.0 < inp.riskPct <= 1.0) then Rejected(InvalidRiskPct, 0.0)
    else if inp.marginBuffer < 1.0 then Rejected(InvalidMarginBuffer, 0.0)
    else
      var budget := RiskBudget(inp);
      var lossPerCoin := WorstLossPerCoin(inp);
      if lossPerCoin <= 0.0 then Rejected(InvalidWorstLoss, budget)
      else SizeForLoss(inp, budget, lossPerCoin)
  }

  /** The largest quantity the budget pays for, before the leverage cap. */
  function BudgetQuantity(inp: SizingInput, budget: real, lossPerCoin: real): real
    requires lossPerCoin != 0.0
  {
    FloorToStep(budget / lossPerCoin, inp.rules.quantityStep)
  }

  function SizeForLoss(inp: SizingInput, budget: real, lossPerCoin: real): SizingResult
    requires 0.0 < lossPerCoin && 0.0 < inp.entry && 1.0 <= inp.marginBuffer
  {
    var first := BudgetQuantity(inp, budget, lossPerCoin);
    if first < inp.rules.minQuantity then Rejected(MinQuantity, budget)
    else if MarginCap(inp) <= 0.0 || MaxLeverage(inp) < 1 then Rejected(NoMarginCapacity, budget)
    else
      var quantity := FitToLeverage(first, inp.entry, inp.rules.quantityStep, MarginCap(inp), MaxLeverage(inp));
      if quantity < inp.rules.minQuantity then Rejected(LeverageCap, budget)
      else Settle(inp, quantity, budget, lossPerCoin)
  }

  /** The leverage, the margin and the last checks for a quantity that has been decided. */
  function Settle(inp: SizingInput, quantity: real, budget: real, lossPerCoin: real): SizingResult
    requires 1.0 <= inp.marginBuffer && 0.0 < MarginCap(inp)
  {
    var notional := Notional(quantity, inp.entry);
    var required := RequiredLeverage(notional, MarginCap(inp));
    var leverage := if required < 1 then 1 else required;
    var margin := MarginAt(notional, leverage);
    var maxLoss := LossOf(quantity, lossPerCoin);
    if notional < inp.rules.minNotional then Rejected(MinNotional, budget)
    else if inp.available < Buffered(margin, inp.marginBuffer) then Rejected(InsufficientBalance, budget)
    else if budget < maxLoss then Rejected(RiskBudgetExceeded, budget)
    else if PortfolioLimit(inp) < inp.openRisk + maxLoss then Rejected(PortfolioRiskExceeded, budget)
    else Approved(quantity, leverage, notional, margin, budget, maxLoss, Utilization(maxLoss, budget), lossPerCoin)
  }

  function EvaluateFixedQuantityRisk(inp: SizingInput, quantity: real, leverage: int, margin: real): SizingResult {
    var budget := RiskBudget(inp);
    if quantity <= 0.0 || quantity < inp.rules.minQuantity then Rejected(MinQuantity, budget)
    else if quantity != FloorToStep(quantity, inp.rules.quantityStep) then Rejected(LotStep, budget)
    else if leverage < 1 then Rejected(InvalidLeverage, budget)
    else
      var lossPerCoin := WorstLossPerCoin(inp);
      var maxLoss := LossOf(quantity, lossPerCoin);
      if budget < maxLoss then Rejected(RiskBudgetExceeded, budget)
      else if PortfolioLimit(inp) < inp.openRisk + maxLoss then Rejected(PortfolioRiskExceeded, budget)
      else Approved(quantity, leverage, Notional(quantity, inp.entry), margin, budget, maxLoss,
                    Utilization(maxLoss, budget), lossPerCoin)
  }
}
