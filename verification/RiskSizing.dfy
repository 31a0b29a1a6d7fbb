/** Position sizing and the stateless risk checks: agents/risk/sizing.py, agents/risk/validators.py and the
    tables of agents/risk/constants.py.  They are shared by the paper engine and the live risk engine. */
module RiskSizing {
  import opened Common
  import opened Decimals

  const SYSTEM_MAX_LEVERAGE := 20
  const MAX_DCA_COUNT := 2
  const CONSECUTIVE_LOSS_COOLDOWN := 3
  const CONSECUTIVE_LOSS_HALT := 5
  const COOLDOWN_MINUTES := 30

  datatype Plan = Free | Pro | Elite | OtherPlan

  function PlanMaxLeverage(plan: Plan): int {
    match plan
    case Free => 5
    case Pro => 10
    case Elite => 20
    case OtherPlan => 5
  }

  function PlanMaxPositions(plan: Plan): int {
    match plan
    case Free => 1
    case Pro => 5
    case Elite => 20
    case OtherPlan => 1
  }

  /** The signal the strategy layer hands to the risk checks. */
  datatype Signal = Signal(
    direction: Direction,
    coin: string,
    symbol: string,
    confidence: real,
    entry: real,
    takeProfit: Option<real>,
    stopLoss: Option<real>,
    leverage: int)

  function ResolveFinalLeverage(recommended: int, userMax: int, plan: Plan): (leverage: int)
    ensures leverage <= recommended && leverage <= userMax && leverage <= SYSTEM_MAX_LEVERAGE
    ensures 1 <= recommended && 1 <= userMax ==> 1 <= leverage
  {
    MinInt(MinInt(recommended, userMax), MinInt(PlanMaxLeverage(plan), SYSTEM_MAX_LEVERAGE))
  }

  function LotSize(symbol: string): real {
    if symbol == "ETHUSDT" then 0.01 else 0.001
  }

  const MIN_NOTIONAL: real := 5.0

  function RoundToLotSize(quantity: real, symbol: string): real {
    FloorToStep(quantity, LotSize(symbol))
  }

  /** The ratio of the distance to the target over the distance to the stop; `None` when a side is wrong. */
  function RiskReward(signal: Signal): Option<real> {
    if signal.takeProfit.None? || signal.stopLoss.None? then None
    else
      var target, stop := signal.takeProfit.value, signal.stopLoss.value;
      var profit := if signal.direction.Long? then target - signal.entry else signal.entry - target;
      var loss := if signal.direction.Long? then signal.entry - stop else stop - signal.entry;
      if loss <= 0.0 || profit <= 0.0 then None else Some(profit / loss)
  }

  predicate RiskRewardOk(signal: Signal) {
    RiskReward(signal).Some? && 2.0 <= RiskReward(signal).value
  }

  /** A signal passes exactly when its stop is on the losing side and its target at least twice as far away on the
      other. */
  lemma RiskRewardMeans(signal: Signal)
    ensures RiskRewardOk(signal)
       <==> && signal.takeProfit.Some? && signal.stopLoss.Some?
            && var sign := if signal.direction.Long? then 1.0 else -1.0;
               var profit := sign * (signal.takeProfit.value - signal.entry);
               var loss := sign * (signal.entry - signal.stopLoss.value);
               0.0 < loss && 2.0 * loss <= profit
  {
    if signal.takeProfit.Some? && signal.stopLoss.Some? {
      var target, stop := signal.takeProfit.value, signal.stopLoss.value;
      var profit := if signal.direction.Long? then target - signal.entry else signal.entry - target;
      var loss := if signal.direction.Long? then signal.entry - stop else stop - signal.entry;
      if 0.0 < loss {
        MulDiv(profit, loss);
        ProductLe(profit / loss, profit, 2.0, loss);
        if 2.0 <= profit / loss {
          MulLe(2.0, profit / loss, loss);
        }
        assert Mul(2.0, loss) == 2.0 * loss;
        hide Mul;
      }
    }
  }

  // ---------- Products and quotients, by the names the code gives them ----------

  function RiskAmount(balance: real, risk: real): real {
    balance * risk
  }

  function Notional(quantity: real, price: real): real {
    quantity * price
  }

  function LossAtDistance(quantity: real, distance: real): real {
    quantity * distance
  }

  function MarginFor(quantity: real, price: real, leverage: int): real
    requires leverage != 0
  {
    quantity * price / leverage as real
  }

  function Fee(quantity: real, price: real, rate: real): real {
    quantity * price * rate
  }

  datatype Sizing = Sizing(quantity: real, margin: real, maxLoss: real, leverage: int)

  function SizedQuantity(balance: real, risk: real, distance: real, symbol: string): real
    requires distance != 0.0
  {
    RoundToLotSize(RiskAmount(balance, risk) / distance, symbol)
  }

  /** `None` stands for the exceptions: an entry equal to the stop, or a leverage of zero. */
  function CalculatePositionSize(balance: real, risk: real, entry: real, stop: real, leverage: int,
                                 symbol: string): Option<Sizing>
  {
    var distance := Abs(entry - stop);
    if distance == 0.0 || leverage == 0 then None
    else
      var quantity := SizedQuantity(balance, risk, distance, symbol);
      Some(Sizing(quantity,
                  Quantize(MarginFor(quantity, entry, leverage), 0.01),
                  Quantize(LossAtDistance(quantity, distance), 0.01),
                  leverage))
  }

  predicate ValidatePositionSize(sizing: Sizing, available: real, entry: real, symbol: string) {
    && LotSize(symbol) <= sizing.quantity
    && MIN_NOTIONAL <= Notional(sizing.quantity, entry)
    && sizing.margin <= available * 0.2
    && sizing.margin * 1.1 <= available
  }

  function LossRatio(loss: real, limit: real): real {
    if 0.0 < limit then loss / limit else 0.0
  }

  predicate DailyLossOk(dailyLoss: real, limit: real, projected: real) {
    LossRatio(dailyLoss, limit) < 1.0 && dailyLoss + projected <= limit
  }

  predicate WeeklyLossOk(weeklyLoss: real, limit: real) {
    limit <= 0.0 || LossRatio(weeklyLoss, limit) < 1.0
  }

  /** Below the limit, today's loss with the loss that the new trade may bring. */
  lemma DailyLossMeans(dailyLoss: real, limit: real, projected: real)
    ensures DailyLossOk(dailyLoss, limit, projected)
       <==> (0.0 < limit ==> dailyLoss < limit) && dailyLoss + projected <= limit
    ensures WeeklyLossOk(dailyLoss, limit) <==> (0.0 < limit ==> dailyLoss < limit)
  {
    if 0.0 < limit {
      MulDiv(dailyLoss, limit);
      if 1.0 <= dailyLoss / limit {
        MulLe(1.0, dailyLoss / limit, limit);
      } else {
        MulLt(dailyLoss / limit, 1.0, limit);
      }
      assert Mul(1.0, limit) == limit;
      hide Mul;
    }
  }

  function PositionLimit(maxConcurrent: int, plan: Plan): int {
    MinInt(maxConcurrent, PlanMaxPositions(plan))
  }

  predicate PortfolioRiskOk(totalBalance: real, openRisk: real, newRisk: real, aggressive: bool) {
    openRisk + newRisk <= RiskAmount(totalBalance, if aggressive then 0.15 else 0.1)
  }

  /** The weighted average of two entries. */
  function AverageEntry(quantity0: real, entry0: real, quantity1: real, entry1: real): real {
    if quantity0 + quantity1 == 0.0 then entry1
    else (quantity0 * entry0 + quantity1 * entry1) / (quantity0 + quantity1)
  }
}
