/** Which inputs give a candidate, and every figure of it, in plain terms. */
module CandidateFigures {
  import opened Common
  import opened Decimals
  import opened Candidate
  import opened CandidateSafety

  // ---------- When a candidate is made ----------

  /** The stop of a side: the strategy's own if it is on the losing side, or else the nearest level there, or else the
      greater of the volatility and the least percentage away. */
  ghost predicate StopFor(stop: real, i: Inputs, long: bool, entry: real) {
    var noise := if Mul(i.atr, i.atrMultiplier) <= Mul(entry, i.minStopPct) then Mul(entry, i.minStopPct)
                 else Mul(i.atr, i.atrMultiplier);
    var own := i.signalStop.Some? && if long then i.signalStop.value < entry else entry < i.signalStop.value;
    var level := if long then NearestBelow(i.supports, entry) else NearestAbove(i.resistances, entry);
    stop == if own then i.signalStop.value
            else if level.Some? then level.value
            else if long then entry - noise else entry + noise
  }

  /** The ratio that is required: at least two. */
  function Required(i: Inputs): real {
    if 2.0 < i.requiredRr then i.requiredRr else 2.0
  }

  /** The target of a side for its stop: at least the required multiple away, and further if the strategy says so, or if
      without a target of the strategy the nearest level is further. */
  ghost predicate TargetFor(target: real, i: Inputs, long: bool, entry: real, stop: real) {
    var way := if long then entry - stop else stop - entry;
    var least := Mul(way, Required(i));
    var own := i.signalTarget.Some? && if long then entry < i.signalTarget.value else i.signalTarget.value < entry;
    var level := if long then NearestAbove(i.resistances, entry) else NearestBelow(i.supports, entry);
    var wanted := if own then i.signalTarget else level;
    var far := wanted.Some? && least <= if long then wanted.value - entry else entry - wanted.value;
    target == if far then wanted.value else if long then entry + least else entry - least
  }

  /** The two exits of a side exist: the stop is on the losing side, a short's target is above zero, and both are
      still on their sides once they are cent prices. */
  ghost predicate Exits(i: Inputs, long: bool, entry: real, stop: real, target: real) {
    exists s, t ::
      && StopFor(s, i, long, entry) && (if long then s < entry else entry < s)
      && TargetFor(t, i, long, entry, s) && (long || 0.0 < t)
      && stop == Rounded(s, 0.01) && target == Rounded(t, 0.01)
      && if long then stop < entry < target else target < entry < stop
  }

  lemma ExitsMean(i: Inputs, long: bool, entry: real)
    ensures var x := ComputeExits(i, long, entry);
      && (forall stop, target :: Exits(i, long, entry, stop, target) ==> x == Some((stop, target)))
      && (x.Some? && (if long then x.value.0 < entry < x.value.1 else x.value.1 < entry < x.value.0) ==>
            Exits(i, long, entry, x.value.0, x.value.1))
  {
    var s := if long then LongStop(i, entry) else ShortStop(i, entry);
    var t := if long then LongTarget(i, entry, entry + Reward(entry - s, Required(i)))
             else ShortTarget(i, entry, entry - Reward(s - entry, Required(i)));
    ExitsShape(i, long, entry);
    StopIsFor(i, long, entry);
    TargetIsFor(i, long, entry, s);
    hide ComputeExits, NearestAbove, NearestBelow, Required, Rounded, Reward, Mul, LongStop, ShortStop, LongTarget,
      ShortTarget;
    forall stop, target | Exits(i, long, entry, stop, target)
      ensures ComputeExits(i, long, entry) == Some((stop, target))
    {
      var s', t' :| StopFor(s', i, long, entry) && (if long then s' < entry else entry < s')
        && TargetFor(t', i, long, entry, s') && (long || 0.0 < t')
        && stop == Rounded(s', 0.01) && target == Rounded(t', 0.01);
      assert s' == s && t' == t;
    }
  }

  lemma ExitsShape(i: Inputs, long: bool, entry: real)
    ensures var s := if long then LongStop(i, entry) else ShortStop(i, entry);
      var t := if long then LongTarget(i, entry, entry + Reward(entry - s, Required(i)))
               else ShortTarget(i, entry, entry - Reward(s - entry, Required(i)));
      ComputeExits(i, long, entry)
      == if (if long then s < entry else entry < s) && (long || 0.0 < t) then
           Some((Rounded(s, 0.01), Rounded(t, 0.01)))
         else None
  {
    assert RewardRatio(i) == Required(i);
    hide RewardRatio, Required, Rounded, Reward, LongStop, ShortStop, LongTarget, ShortTarget;
  }

  lemma StopIsFor(i: Inputs, long: bool, entry: real)
    ensures StopFor(if long then LongStop(i, entry) else ShortStop(i, entry), i, long, entry)
  {
    NoiseDistance(i, entry);
    hide NearestAbove, NearestBelow, StopDistance, Mul;
  }

  lemma TargetIsFor(i: Inputs, long: bool, entry: real, stop: real)
    ensures var rr := Required(i);
      TargetFor(if long then LongTarget(i, entry, entry + Reward(entry - stop, rr))
                else ShortTarget(i, entry, entry - Reward(stop - entry, rr)), i, long, entry, stop)
  {
    hide NearestAbove, NearestBelow, Mul, Required;
  }

  /** Main result on inputs: a candidate is made exactly when the strategy is known, nothing forbids trading, the
      risk is within its maximum, there is a positive price, one score is strong and the other is not, and that side
      has exits; the side is that of the strong score, and the exits are those. */
  lemma MadeExactly(i: Inputs)
    ensures var t := Generate(i);
      var strong := i.minLong <= i.longScore;
      && (t.Some? <==>
            && !i.unknownStrategy && !i.noTrade && i.risk <= i.maxRisk && i.entry.Some? && 0.0 < i.entry.value
            && strong != (i.minShort <= i.shortScore)
            && exists stop, target :: Exits(i, strong, i.entry.value, stop, target))
      && (t.Some? ==> t.value.long == strong && Exits(i, strong, i.entry.value, t.value.stop, t.value.target))
  {
    if i.entry.Some? && 0.0 < i.entry.value {
      ExitsMean(i, i.minLong <= i.longScore, i.entry.value);
      hide Exits, ComputeExits, Rounded, Worth, Notional, LiquidationPrice, Quantize, MarginRatio, Fees, Slippage,
        Leverage;
    }
  }

  // ---------- The figures of a candidate ----------

  /** What is asked for within its caps: the leverage from 1 up to the maximum, the maximum where none is asked for, and
      the share of the balance from zero up to its maximum, to six decimals. */
  predicate SizedBy(t: Trade, i: Inputs) {
    var asked := if i.requestedLeverage == 0 then i.maxLeverage else i.requestedLeverage;
    && (1 <= asked <= i.maxLeverage ==> t.leverage == asked)
    && (asked < 1 || i.maxLeverage < 1 ==> t.leverage == 1)
    && (1 <= i.maxLeverage < asked ==> t.leverage == i.maxLeverage)
    && (0.0 <= i.requestedMarginRatio <= i.maxMarginRatio ==>
          t.marginRatio == Quantize(i.requestedMarginRatio, 0.000001))
    && (i.requestedMarginRatio < 0.0 || i.maxMarginRatio < 0.0 ==> t.marginRatio == 0.0)
    && (0.0 <= i.maxMarginRatio < i.requestedMarginRatio ==> t.marginRatio == Quantize(i.maxMarginRatio, 0.000001))
    && t.notional == Rounded(Mul(Mul(i.balance, t.marginRatio), t.leverage as real), 0.0001)
  }

  lemma RatioMeans(i: Inputs)
    ensures 0.0 <= i.requestedMarginRatio <= i.maxMarginRatio ==>
              MarginRatio(i) == Quantize(i.requestedMarginRatio, 0.000001)
    ensures i.requestedMarginRatio < 0.0 || i.maxMarginRatio < 0.0 ==> MarginRatio(i) == 0.0
    ensures 0.0 <= i.maxMarginRatio < i.requestedMarginRatio ==>
              MarginRatio(i) == Quantize(i.maxMarginRatio, 0.000001)
  {
    assert Multiple(0, 0.000001) == 0.0;
    QuantizeExact(0, 0.000001);
    hide Quantize;
  }

  lemma ExposureMeans(balance: real, ratio: real, leverage: int)
    ensures Exposure(balance, ratio, leverage) == Mul(Mul(balance, ratio), leverage as real)
  {
  }

  lemma SizeMeans(i: Inputs, long: bool, entry: real, stop: real, target: real)
    requires 0.0 < entry && (if long then stop < entry else entry < stop)
    ensures SizedBy(Build(i, long, entry, stop, target), i)
  {
    RatioMeans(i);
    ExposureMeans(i.balance, MarginRatio(i), Leverage(i));
    hide Quantize, Rounded, Worth, LiquidationPrice, Fees, Slippage, MarginRatio, Mul, Exposure;
  }

  /** What the two ways of a candidate are worth and cost, to half a ten-thousandth. */
  ghost predicate WorthBy(t: Trade, i: Inputs, entry: real)
    requires 0.0 < entry
  {
    var profit := if t.long then t.target - entry else entry - t.target;
    var loss := if t.long then entry - t.stop else t.stop - entry;
    && t.grossProfit == Rounded(Mul(t.notional, profit) / entry, 0.0001)
    && t.grossLoss == Rounded(Mul(t.notional, loss) / entry, 0.0001)
    && t.fees == Rounded(0.001 * t.notional, 0.0001)
    && t.slippage == Rounded(Mul(t.notional, i.slippageBps) / 5000.0, 0.0001)
    && t.netProfit == t.grossProfit - t.fees - t.slippage && t.netLoss == t.grossLoss + t.fees + t.slippage
    && OnGrid(t.rr, 0.0001) && Abs(Mul(t.rr, loss) - profit) <= Mul(0.00005, loss)
    && t.entry == Rounded(entry, 0.01)
    && (0 < t.leverage ==>
          var share := entry / t.leverage as real;
          t.liquidation == Rounded(if t.long then entry - share else entry + share, 0.01))
  }

  lemma RatioOf(profit: real, loss: real)
    requires 0.0 < loss
    ensures OnGrid(Quantize(profit / loss, COST), COST)
    ensures Abs(Mul(Quantize(profit / loss, COST), loss) - profit) <= Mul(0.00005, loss)
  {
    var ratio := Quantize(profit / loss, COST);
    QuantizeError(profit / loss, COST);
    MulDiv(profit, loss);
    hide Quantize, OnGrid;
    MulLe(profit / loss - 0.00005, ratio, loss);
    MulLe(ratio, profit / loss + 0.00005, loss);
    MulAdd(profit / loss, 0.00005, loss);
  }

  lemma CostsOf(notional: real, bps: real)
    ensures Fees(notional) == Rounded(0.001 * notional, 0.0001)
    ensures Slippage(notional, bps) == Rounded(Mul(notional, bps) / 5000.0, 0.0001)
  {
    assert notional * bps / 10000.0 * 2.0 == Mul(notional, bps) / 5000.0;
    hide Rounded, Mul;
  }

  lemma BuildShape(i: Inputs, long: bool, entry: real, stop: real, target: real)
    requires 0.0 < entry && (if long then stop < entry else entry < stop)
    ensures var t := Build(i, long, entry, stop, target);
      var profit := if long then target - entry else entry - target;
      var loss := if long then entry - stop else stop - entry;
      && t.long == long && t.stop == stop && t.target == target && t.entry == Rounded(entry, PRICE)
      && t.rr == Quantize(profit / loss, COST) && t.fees == Fees(t.notional)
      && t.grossProfit == Rounded(Worth(t.notional, profit, entry), COST)
      && t.grossLoss == Rounded(Worth(t.notional, loss, entry), COST)
      && t.slippage == Slippage(t.notional, i.slippageBps) && 0 < t.leverage
      && t.liquidation == LiquidationPrice(long, entry, t.leverage)
  {
    hide Quantize, Rounded, Worth, LiquidationPrice, Fees, Slippage, MarginRatio, Exposure;
  }

  lemma LiquidationMeans(long: bool, entry: real, leverage: int)
    requires 0.0 < entry && 0 < leverage
    ensures var share := entry / leverage as real;
      LiquidationPrice(long, entry, leverage) == Rounded(if long then entry - share else entry + share, 0.01)
  {
    LeverageShare(entry, leverage);
    hide Rounded;
  }

  lemma ShareOf(notional: real, distance: real, entry: real)
    requires entry != 0.0
    ensures Worth(notional, distance, entry) == Mul(notional, distance) / entry
  {
  }

  lemma WorthMeans(i: Inputs, long: bool, entry: real, stop: real, target: real)
    requires 0.0 < entry && (if long then stop < entry else entry < stop)
    ensures WorthBy(Build(i, long, entry, stop, target), i, entry)
  {
    BuildFigures(i, long, entry, stop, target);
    BuildShape(i, long, entry, stop, target);
    hide Build;
    var t := Build(i, long, entry, stop, target);
    var profit := if long then target - entry else entry - target;
    var loss := if long then entry - stop else stop - entry;
    hide Worth, Mul, Rounded, Quantize, OnGrid, LiquidationPrice, Fees, Slippage;
    ShareOf(t.notional, profit, entry);
    ShareOf(t.notional, loss, entry);
    CostsOf(t.notional, i.slippageBps);
    RatioOf(profit, loss);
    LiquidationMeans(long, entry, t.leverage);
  }

  /** Main result on figures: every candidate carries the size that was asked for within its caps, the worth and the
      cost of its two ways at that size, its ratio, its price to the cent and the price at which its margin is gone. */
  lemma FiguresMean(i: Inputs)
    ensures var t := Generate(i);
      t.Some? ==> 0.0 < i.entry.value && SizedBy(t.value, i) && WorthBy(t.value, i, i.entry.value)
  {
    hide ComputeExits, SizedBy, WorthBy, Build, ChooseSide;
    if Generate(i).Some? {
      var long, entry := ChooseSide(i).Long?, i.entry.value;
      var (stop, target) := ComputeExits(i, long, entry).value;
      SizeMeans(i, long, entry, stop, target);
      WorthMeans(i, long, entry, stop, target);
    }
  }

  /** Main result on approvals: a candidate is approved exactly when its exits are above zero, its ratio, its
      leverage and its share are within their limits, it earns more than the least profit and loses no more than the
      most, the price at which its margin is gone lies beyond the stop by the buffer, and nothing else speaks
      against it. */
  lemma ApprovedExactly(t: Trade, l: Limits)
    ensures ValidateCandidate(t, l)
       <==> && 0.0 < t.stop && 0.0 < t.target && l.minRr <= t.rr
            && t.leverage <= l.maxLeverage && t.marginRatio <= l.maxMarginRatio
            && l.minNetProfit < t.netProfit && t.netLoss <= l.maxNetLoss && l.others
            && var room := Mul(t.stop, l.liquidationBuffer);
               if t.long then t.liquidation < t.stop - room else t.stop + room < t.liquidation
  {
    var buffer := l.liquidationBuffer;
    assert t.stop * (1.0 - buffer) == t.stop - Mul(t.stop, buffer);
    assert t.stop * (1.0 + buffer) == t.stop + Mul(t.stop, buffer);
  }
}
