/** Trade candidates: the numeric part of agents/decision/candidate_generator.py, and the checks of
    agents/risk/engine.py that its figures have to pass. */
module Candidate {
  import opened Common
  import opened Decimals

  const PRICE: real := 0.01
  const COST: real := 0.0001
  const FEE_RATE: real := 0.0005

  /** `quantize` with ROUND_HALF_UP: a tie goes away from zero. */
  function RoundHalfUp(x: real): (n: int)
    ensures n as real - 0.5 <= x <= n as real + 0.5
  {
    if 0.0 <= x then (x + 0.5).Floor else -((-x + 0.5).Floor)
  }

  function Rounded(value: real, quantum: real): real
    requires 0.0 < quantum
  {
    Multiple(RoundHalfUp(value / quantum), quantum)
  }

  /** What a candidate is made from.  The prices and levels the generator reads are positive where present. */
  datatype Inputs = Inputs(
    unknownStrategy: bool,
    noTrade: bool,
    risk: real,
    maxRisk: real,
    longScore: real,
    minLong: real,
    shortScore: real,
    minShort: real,
    entry: Option<real>,
    requiredRr: real,
    atr: real,
    atrMultiplier: real,
    minStopPct: real,
    signalStop: Option<real>,
    signalTarget: Option<real>,
    supports: seq<real>,
    resistances: seq<real>,
    requestedLeverage: int,
    maxLeverage: int,
    requestedMarginRatio: real,
    maxMarginRatio: real,
    balance: real,
    slippageBps: real)

  datatype Trade = Trade(
    long: bool,
    entry: real,
    stop: real,
    target: real,
    leverage: int,
    marginRatio: real,
    notional: real,
    rr: real,
    grossProfit: real,
    grossLoss: real,
    fees: real,
    slippage: real,
    netProfit: real,
    netLoss: real,
    liquidation: real)

  // ---------- Levels ----------

  /** The greatest level below a price. */
  function NearestBelow(levels: seq<real>, price: real): (r: Option<real>)
    ensures r.Some? ==> r.value in levels && r.value < price
    ensures forall k :: 0 <= k < |levels| && levels[k] < price ==> r.Some? && levels[k] <= r.value
  {
    if |levels| == 0 then None
    else
      var rest, last := NearestBelow(levels[..|levels| - 1], price), levels[|levels| - 1];
      assert levels == levels[..|levels| - 1] + [last];
      if last < price && (rest.None? || rest.value < last) then Some(last) else rest
  }

  /** The least level above a price. */
  function NearestAbove(levels: seq<real>, price: real): (r: Option<real>)
    ensures r.Some? ==> r.value in levels && price < r.value
    ensures forall k :: 0 <= k < |levels| && price < levels[k] ==> r.Some? && r.value <= levels[k]
  {
    if |levels| == 0 then None
    else
      var rest, last := NearestAbove(levels[..|levels| - 1], price), levels[|levels| - 1];
      assert levels == levels[..|levels| - 1] + [last];
      if price < last && (rest.None? || last < rest.value) then Some(last) else rest
  }

  // ---------- Exits ----------

  function RewardRatio(i: Inputs): (rr: real)
    ensures 2.0 <= rr
  {
    Max(i.requiredRr, 2.0)
  }

  function StopDistance(i: Inputs, entry: real): real {
    Max(i.atr * i.atrMultiplier, entry * i.minStopPct)
  }

  /** How far the target has to be for a given way to the stop. */
  function Reward(distance: real, rr: real): real {
    Mul(distance, rr)
  }

  function LongStop(i: Inputs, entry: real): real {
    if i.signalStop.Some? && i.signalStop.value < entry then i.signalStop.value
    else
      var support := NearestBelow(i.supports, entry);
      if support.Some? then support.value else entry - StopDistance(i, entry)
  }

  function ShortStop(i: Inputs, entry: real): real {
    if i.signalStop.Some? && entry < i.signalStop.value then i.signalStop.value
    else
      var resistance := NearestAbove(i.resistances, entry);
      if resistance.Some? then resistance.value else entry + StopDistance(i, entry)
  }

  function LongTarget(i: Inputs, entry: real, least: real): real {
    var resistance := NearestAbove(i.resistances, entry);
    if i.signalTarget.Some? && entry < i.signalTarget.value then Max(i.signalTarget.value, least)
    else if resistance.Some? && least <= resistance.value then resistance.value
    else least
  }

  function ShortTarget(i: Inputs, entry: real, most: real): real {
    var support := NearestBelow(i.supports, entry);
    if i.signalTarget.Some? && i.signalTarget.value < entry then Min(i.signalTarget.value, most)
    else if support.Some? && support.value <= most then support.value
    else most
  }

  /** Stop and target, rounded to the cent. */
  function ComputeExits(i: Inputs, long: bool, entry: real): Option<(real, real)> {
    var rr := RewardRatio(i);
    if long then
      var stop := LongStop(i, entry);
      if entry <= stop then None
      else Some((Rounded(stop, PRICE), Rounded(LongTarget(i, entry, entry + Reward(entry - stop, rr)), PRICE)))
    else
      var stop := ShortStop(i, entry);
      if stop <= entry then None
      else
        var target := ShortTarget(i, entry, entry - Reward(stop - entry, rr));
        if target <= 0.0 then None else Some((Rounded(stop, PRICE), Rounded(target, PRICE)))
  }

  // ---------- The candidate ----------

  function LiquidationPrice(long: bool, entry: real, leverage: int): real
    requires 0 < leverage
  {
    Rounded(if long then entry * (1.0 - 1.0 / leverage as real) else entry * (1.0 + 1.0 / leverage as real), PRICE)
  }

  /** The side with a strong score, when the other has none. */
  function ChooseSide(i: Inputs): Direction {
    var long, short := i.minLong <= i.longScore, i.minShort <= i.shortScore;
    if long && short then Hold else if long then Long else if short then Short else Hold
  }

  function Leverage(i: Inputs): (l: int)
    ensures 1 <= l
  {
    var asked := if i.requestedLeverage == 0 then i.maxLeverage else i.requestedLeverage;
    if MinInt(asked, i.maxLeverage) < 1 then 1 else MinInt(asked, i.maxLeverage)
  }

  function MarginRatio(i: Inputs): real {
    Quantize(Max(0.0, Min(i.maxMarginRatio, i.requestedMarginRatio)), 0.000001)
  }

  function Exposure(balance: real, marginRatio: real, leverage: int): real {
    balance * marginRatio * leverage as real
  }

  function Notional(i: Inputs): real {
    Rounded(Exposure(i.balance, MarginRatio(i), Leverage(i)), COST)
  }

  /** The share of a notional that a price move is worth. */
  function Worth(notional: real, distance: real, entry: real): real
    requires entry != 0.0
  {
    notional * distance / entry
  }

  function Fees(notional: real): real {
    Rounded(notional * FEE_RATE * 2.0, COST)
  }

  function Slippage(notional: real, bps: real): real {
    Rounded(notional * bps / 10000.0 * 2.0, COST)
  }

  function Build(i: Inputs, long: bool, entry: real, stop: real, target: real): Trade
    requires 0.0 < entry && (if long then stop < entry else entry < stop)
  {
    var profit := if long then target - entry else entry - target;
    var loss := if long then entry - stop else stop - entry;
    var notional := Notional(i);
    var grossProfit := Rounded(Worth(notional, profit, entry), COST);
    var grossLoss := Rounded(Worth(notional, loss, entry), COST);
    var fees := Fees(notional);
    var slippage := Slippage(notional, i.slippageBps);
    Trade(long, Rounded(entry, PRICE), stop, target, Leverage(i), MarginRatio(i), notional,
          Quantize(profit / loss, COST), grossProfit, grossLoss, fees, slippage,
          Rounded(grossProfit - fees - slippage, COST), Rounded(grossLoss + fees + slippage, COST),
          LiquidationPrice(long, entry, Leverage(i)))
  }

  /** `None` stands for a HOLD candidate, which carries no prices. */
  function Generate(i: Inputs): Option<Trade> {
    if i.unknownStrategy || i.noTrade || i.maxRisk < i.risk || i.entry.None? || i.entry.value <= 0.0 then None
    else
      var side, entry := ChooseSide(i), i.entry.value;
      if side.Hold? then None
      else
        var exits := ComputeExits(i, side.Long?, entry);
        if exits.None? then None
        else
          var (stop, target) := exits.value;
          if side.Long? then
            if target <= entry || entry <= stop then None else Some(Build(i, true, entry, stop, target))
          else
            if entry <= target || stop <= entry then None else Some(Build(i, false, entry, stop, target))
  }

  // ---------- The checks of the risk engine ----------

  datatype Limits = Limits(
    minRr: real,                 // the strategy's and the global minimum, whichever is greater
    maxLeverage: int,
    maxMarginRatio: real,
    minNetProfit: real,
    maxNetLoss: real,
    liquidationBuffer: real,
    others: bool)                // the checks that do not read the candidate's prices

  predicate LiquidationSafe(t: Trade, buffer: real) {
    if t.long then t.liquidation < t.stop * (1.0 - buffer) else t.stop * (1.0 + buffer) < t.liquidation
  }

  predicate ValidateCandidate(t: Trade, l: Limits) {
    && 0.0 < t.stop && 0.0 < t.target
    && l.minRr <= t.rr
    && t.leverage <= l.maxLeverage && t.marginRatio <= l.maxMarginRatio
    && l.minNetProfit < t.netProfit && t.netLoss <= l.maxNetLoss
    && LiquidationSafe(t, l.liquidationBuffer)
    && l.others
  }
}
