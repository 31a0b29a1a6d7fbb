/** What every candidate promises, and what the cent takes from it. */
module CandidateSafety {
  import opened Common
  import opened Decimals
  import opened Candidate

  // ---------- Rounding half up ----------

  /** A number rounds to an integer exactly when it is nearer to it than to any other, or half way to zero from it. */
  lemma RoundsTo(x: real, n: int)
    ensures RoundHalfUp(x) == n
       <==> if 0 < n then n as real - 0.5 <= x < n as real + 0.5
            else if n < 0 then n as real - 0.5 < x <= n as real + 0.5
            else -0.5 < x < 0.5
  {
  }

  lemma NearestUp(y: real, value: real, quantum: real)
    requires 0.0 < quantum && Mul(y, quantum) == value
    ensures value - quantum / 2.0 <= Multiple(RoundHalfUp(y), quantum) <= value + quantum / 2.0
  {
    var n := RoundHalfUp(y) as real;
    MulLe(n - 0.5, y, quantum);
    MulLe(y, n + 0.5, quantum);
    MulAdd(n, 0.5, quantum);
    assert Mul(0.5, quantum) == quantum / 2.0;
  }

  lemma RoundedError(value: real, quantum: real)
    requires 0.0 < quantum
    ensures value - quantum / 2.0 <= Rounded(value, quantum) <= value + quantum / 2.0
    ensures OnGrid(Rounded(value, quantum), quantum)
  {
    MulDiv(value, quantum);
    NearestUp(value / quantum, value, quantum);
  }

  lemma RoundedExact(k: int, quantum: real)
    requires 0.0 < quantum
    ensures Rounded(Multiple(k, quantum), quantum) == Multiple(k, quantum)
  {
    DivEq(Multiple(k, quantum), k as real, quantum);
  }

  lemma RoundedMonotone(x: real, y: real, quantum: real)
    requires 0.0 < quantum && x <= y
    ensures Rounded(x, quantum) <= Rounded(y, quantum)
  {
    MulDiv(y, quantum);
    DivLe(x, y / quantum, quantum);
    MultipleMono(RoundHalfUp(x / quantum), RoundHalfUp(y / quantum), quantum);
  }

  lemma GridKept(x: real, quantum: real)
    requires 0.0 < quantum && OnGrid(x, quantum)
    ensures Rounded(x, quantum) == x
  {
    var k :| x == Multiple(k, quantum);
    RoundedExact(k, quantum);
  }

  // ---------- Exits ----------

  /** How much of the way to the target may be lost to the cent. */
  function Slack(rr: real): real {
    0.005 * (1.0 + rr)
  }

  lemma RewardSlack(distance: real, loss: real, rr: real)
    requires 0.0 <= rr && loss <= distance + 0.005
    ensures Reward(loss, rr) <= Reward(distance, rr) + 0.005 * rr
  {
    MulLe(loss, distance + 0.005, rr);
    MulAdd(distance, 0.005, rr);
  }

  lemma ExitsKeepReward(i: Inputs, long: bool, entry: real)
    ensures var x := ComputeExits(i, long, entry);
      x.Some? ==>
        var (stop, target) := x.value;
        var loss := if long then entry - stop else stop - entry;
        var profit := if long then target - entry else entry - target;
        Reward(loss, RewardRatio(i)) - Slack(RewardRatio(i)) <= profit
        && OnGrid(stop, PRICE) && OnGrid(target, PRICE)
  {
    var rr := RewardRatio(i);
    hide Rounded, Reward, NearestAbove, NearestBelow, StopDistance, RewardRatio;
    if long {
      var stop := LongStop(i, entry);
      var target := LongTarget(i, entry, entry + Reward(entry - stop, rr));
      RoundedError(stop, PRICE);
      RoundedError(target, PRICE);
      RewardSlack(entry - stop, entry - Rounded(stop, PRICE), rr);
    } else {
      var stop := ShortStop(i, entry);
      var target := ShortTarget(i, entry, entry - Reward(stop - entry, rr));
      RoundedError(stop, PRICE);
      RoundedError(target, PRICE);
      RewardSlack(stop - entry, Rounded(stop, PRICE) - entry, rr);
    }
  }

  // ---------- The candidate ----------

  function LossDistance(t: Trade, entry: real): real {
    if t.long then entry - t.stop else t.stop - entry
  }

  function ProfitDistance(t: Trade, entry: real): real {
    if t.long then t.target - entry else entry - t.target
  }

  lemma CostsOnGrid(notional: real, bps: real)
    ensures OnGrid(Fees(notional), COST) && OnGrid(Slippage(notional, bps), COST)
  {
    RoundedError(notional * FEE_RATE * 2.0, COST);
    RoundedError(notional * bps / 10000.0 * 2.0, COST);
  }

  lemma NetIsExact(profit: real, loss: real, fees: real, slippage: real)
    requires OnGrid(profit, COST) && OnGrid(loss, COST) && OnGrid(fees, COST) && OnGrid(slippage, COST)
    ensures Rounded(profit - fees - slippage, COST) == profit - fees - slippage
    ensures Rounded(loss + fees + slippage, COST) == loss + fees + slippage
  {
    hide Rounded, OnGrid;
    GridSum(profit, fees, COST);
    GridSum(profit - fees, slippage, COST);
    GridKept(profit - fees - slippage, COST);
    GridSum(loss, fees, COST);
    GridSum(loss + fees, slippage, COST);
    GridKept(loss + fees + slippage, COST);
  }

  /** Both costs are paid twice, on the way in and on the way out. */
  lemma CostsAreTwoSided(notional: real, bps: real)
    ensures Abs(Fees(notional) - 2.0 * (0.0005 * notional)) <= 0.00005
    ensures Abs(Slippage(notional, bps) - 2.0 * (notional * bps / 10000.0)) <= 0.00005
  {
    RoundedError(notional * FEE_RATE * 2.0, COST);
    RoundedError(notional * bps / 10000.0 * 2.0, COST);
    hide Rounded;
  }

  lemma LeverageShare(entry: real, leverage: int)
    requires 0.0 < entry && 0 < leverage
    ensures 0.0 < entry / leverage as real
    ensures entry * (1.0 - 1.0 / leverage as real) == entry - entry / leverage as real
    ensures entry * (1.0 + 1.0 / leverage as real) == entry + entry / leverage as real
  {
    var share := 1.0 / leverage as real;
    MulDiv(1.0, leverage as real);
    MulDiv(entry, leverage as real);
    assert Mul(Mul(entry, share), leverage as real) == Mul(entry, Mul(share, leverage as real)) == entry;
    DivEq(entry, Mul(entry, share), leverage as real);
    if entry / leverage as real <= 0.0 {
      MulLe(entry / leverage as real, 0.0, leverage as real);
    }
  }

  /** The liquidation price is where the move against the position is worth its isolated margin: one part in the
      leverage of the entry, to the cent, on the losing side. */
  lemma LiquidationLosesMargin(long: bool, entry: real, leverage: int)
    requires 0.0 < entry && 0 < leverage
    ensures var liquidation, share := LiquidationPrice(long, entry, leverage), entry / leverage as real;
      Abs((if long then entry - liquidation else liquidation - entry) - share) <= 0.005
  {
    LeverageShare(entry, leverage);
    RoundedError(entry - entry / leverage as real, PRICE);
    RoundedError(entry + entry / leverage as real, PRICE);
    hide Rounded;
  }

  lemma BuildFigures(i: Inputs, long: bool, entry: real, stop: real, target: real)
    requires 0.0 < entry && (if long then stop < entry else entry < stop)
    ensures var t := Build(i, long, entry, stop, target);
      && t.netProfit == t.grossProfit - t.fees - t.slippage
      && t.netLoss == t.grossLoss + t.fees + t.slippage
      && Abs(t.grossProfit - Worth(t.notional, ProfitDistance(t, entry), entry)) <= 0.00005
      && Abs(t.grossLoss - Worth(t.notional, LossDistance(t, entry), entry)) <= 0.00005
  {
    hide Rounded, Worth, OnGrid, Notional, LiquidationPrice, Quantize, Fees, Slippage, MarginRatio, Leverage;
    var t := Build(i, long, entry, stop, target);
    RoundedError(Worth(t.notional, ProfitDistance(t, entry), entry), COST);
    RoundedError(Worth(t.notional, LossDistance(t, entry), entry), COST);
    CostsOnGrid(t.notional, i.slippageBps);
    NetIsExact(t.grossProfit, t.grossLoss, t.fees, t.slippage);
  }

  /** Main result on candidates: stop and target lie on their sides of the price that was read, the way to the target
      is the required multiple of the way to the stop up to what rounding to the cent can take, and the net figures
      are the gross ones with both costs, exactly. */
  lemma CandidateIsSound(i: Inputs)
    ensures var t := Generate(i);
      t.Some? ==>
        var entry, rr := i.entry.value, RewardRatio(i);
        && (if t.value.long then t.value.stop < entry < t.value.target else t.value.target < entry < t.value.stop)
        && t.value.long == ChooseSide(i).Long?
        && Reward(LossDistance(t.value, entry), rr) - Slack(rr) <= ProfitDistance(t.value, entry)
        && t.value.netProfit == t.value.grossProfit - t.value.fees - t.value.slippage
        && t.value.netLoss == t.value.grossLoss + t.value.fees + t.value.slippage
        && OnGrid(t.value.stop, PRICE) && OnGrid(t.value.target, PRICE)
  {
    var made := Generate(i);
    if made.Some? {
      var long, entry := ChooseSide(i).Long?, i.entry.value;
      ExitsKeepReward(i, long, entry);
      var (stop, target) := ComputeExits(i, long, entry).value;
      BuildFigures(i, long, entry, stop, target);
      hide ComputeExits, Rounded, Worth, OnGrid, Notional, LiquidationPrice, Quantize, Reward, Slack, RewardRatio,
        MarginRatio, Fees, Slippage, Leverage;
    }
  }

  lemma SafeBeyondStop(t: Trade, buffer: real)
    requires 0.0 <= buffer && 0.0 < t.stop && LiquidationSafe(t, buffer)
    ensures if t.long then t.liquidation < t.stop else t.stop < t.liquidation
  {
    MulNonNeg(t.stop, buffer);
    assert t.stop * (1.0 - buffer) == t.stop - Mul(t.stop, buffer);
    assert t.stop * (1.0 + buffer) == t.stop + Mul(t.stop, buffer);
  }

  /** The candidate's own entry is the rounded price. */
  lemma EntryIsRounded(i: Inputs)
    ensures var t := Generate(i);
      t.Some? ==> t.value.entry == Rounded(i.entry.value, PRICE)
  {
    hide ComputeExits, Rounded, Worth, Notional, LiquidationPrice, Quantize, MarginRatio, Fees, Slippage, Leverage;
  }

  /** Main result on approved candidates: liquidation, stop, entry and target stand in this order for a long trade and
      in the reverse order for a short one.  Around the price that was read the order is strict; the candidate's own
      entry, a cent price, can only touch its stop or its target. */
  lemma ApprovedIsOrdered(i: Inputs, l: Limits)
    requires 0.0 <= l.liquidationBuffer
    ensures var t := Generate(i);
      t.Some? && ValidateCandidate(t.value, l) ==>
        var entry := i.entry.value;
        if t.value.long then
          t.value.liquidation < t.value.stop < entry < t.value.target
          && t.value.stop <= t.value.entry <= t.value.target
        else
          t.value.target < entry < t.value.stop < t.value.liquidation
          && t.value.target <= t.value.entry <= t.value.stop
  {
    CandidateIsSound(i);
    EntryIsRounded(i);
    var made := Generate(i);
    assert made.Some? ==> i.entry.Some?;
    hide Generate, Rounded, OnGrid, Reward, Slack, RewardRatio, ChooseSide, LiquidationSafe;
    if made.Some? && ValidateCandidate(made.value, l) {
      var t, entry := made.value, i.entry.value;
      SafeBeyondStop(t, l.liquidationBuffer);
      GridKept(t.stop, PRICE);
      GridKept(t.target, PRICE);
      if t.long {
        RoundedMonotone(t.stop, entry, PRICE);
        RoundedMonotone(entry, t.target, PRICE);
      } else {
        RoundedMonotone(t.target, entry, PRICE);
        RoundedMonotone(entry, t.stop, PRICE);
      }
    }
  }

  // ---------- What the cent costs ----------

  /** When the price and the stop are cent prices, the required ratio of two survives the rounding of the target. */
  lemma CentPricesKeepReward(i: Inputs, long: bool, entry: real)
    requires RewardRatio(i) == 2.0 && OnGrid(entry, PRICE)
    requires OnGrid(if long then LongStop(i, entry) else ShortStop(i, entry), PRICE)
    ensures var x := ComputeExits(i, long, entry);
      x.Some? ==>
        var (stop, target) := x.value;
        if long then stop < entry && 2.0 * (entry - stop) <= target - entry
        else entry < stop && 2.0 * (stop - entry) <= entry - target
  {
    hide Rounded, NearestAbove, NearestBelow, StopDistance, RewardRatio, OnGrid;
    var stop := if long then LongStop(i, entry) else ShortStop(i, entry);
    GridKept(stop, PRICE);
    GridSum(entry, stop, PRICE);
    GridSum(stop, entry, PRICE);
    GridSum(entry, entry - stop, PRICE);
    GridSum(entry + (entry - stop), entry - stop, PRICE);
    var edge := entry + 2.0 * (entry - stop);
    assert edge == entry + (entry - stop) + (entry - stop);
    GridKept(edge, PRICE);
    assert Reward(entry - stop, 2.0) == 2.0 * (entry - stop) && Reward(stop - entry, 2.0) == 2.0 * (stop - entry);
    hide Reward;
    if long {
      RoundedMonotone(edge, LongTarget(i, entry, edge), PRICE);
    } else {
      RoundedMonotone(ShortTarget(i, entry, edge), edge, PRICE);
    }
  }

  lemma TwiceIsTwo(profit: real, loss: real)
    requires 0.0 < loss && 2.0 * loss <= profit
    ensures 2.0 <= Quantize(profit / loss, COST)
  {
    MulDiv(profit, loss);
    assert Mul(2.0, loss) <= profit;
    if profit / loss < 2.0 {
      MulLt(profit / loss, 2.0, loss);
    }
    QuantizeMonotone(2.0, profit / loss, COST);
    assert Multiple(20000, COST) == 2.0;
    QuantizeExact(20000, COST);
  }

  /** The price, and the stop of either side, are cent prices. */
  ghost predicate AtCents(i: Inputs, entry: real) {
    OnGrid(entry, PRICE) && OnGrid(LongStop(i, entry), PRICE) && OnGrid(ShortStop(i, entry), PRICE)
  }

  /** So a candidate at cent prices passes a reward gate of two. */
  lemma CentPricesPassGate(i: Inputs)
    requires RewardRatio(i) == 2.0
    requires i.entry.Some? ==> AtCents(i, i.entry.value)
    ensures Generate(i).Some? ==> 2.0 <= Generate(i).value.rr
  {
    hide OnGrid, RewardRatio, ComputeExits, LongStop, ShortStop;
    if Generate(i).Some? {
      var long, entry := ChooseSide(i).Long?, i.entry.value;
      CentPricesKeepReward(i, long, entry);
      var (stop, target) := ComputeExits(i, long, entry).value;
      if long {
        TwiceIsTwo(target - entry, entry - stop);
      } else {
        TwiceIsTwo(entry - target, stop - entry);
      }
      hide Quantize, Rounded, Worth, Notional, LiquidationPrice, MarginRatio, Fees, Slippage, Leverage;
    }
  }

  /** A ratio is quantized to at least two exactly when it falls short of two by at most half a quantum; the tie goes
      to the even neighbour, which is two. */
  lemma QuantizedToTwo(ratio: real)
    ensures 2.0 <= Quantize(ratio, COST) <==> 1.99995 <= ratio
  {
    assert ratio / COST == 10000.0 * ratio;
    var n := RoundHalfEven(10000.0 * ratio);
    assert Multiple(n, COST) == 0.0001 * n as real;
    assert 2.0 <= 0.0001 * n as real <==> 20000 <= n;
    if 1.99995 <= ratio {
      assert 19999 <= (10000.0 * ratio).Floor;
    } else {
      assert (10000.0 * ratio).Floor <= 19999;
    }
  }

  /** Exactly when a candidate reaches a ratio of two: the way to its target is at least twice the way to its stop, but
      for half a quantum of the ratio. */
  lemma ReachesTwo(i: Inputs)
    ensures var t := Generate(i);
      t.Some? ==>
        (2.0 <= t.value.rr <==>
          Mul(1.99995, LossDistance(t.value, i.entry.value)) <= ProfitDistance(t.value, i.entry.value))
  {
    hide ComputeExits, ChooseSide;
    var made := Generate(i);
    if made.Some? {
      var t, entry := made.value, i.entry.value;
      hide Quantize, Rounded, Worth, Notional, LiquidationPrice, MarginRatio, Fees, Slippage, Leverage, Mul;
      var profit, loss := ProfitDistance(t, entry), LossDistance(t, entry);
      assert 0.0 < loss && t.rr == Quantize(profit / loss, COST);
      QuantizedToTwo(profit / loss);
      MulDiv(profit, loss);
      AtLeast(1.99995, profit / loss, profit, loss);
    }
  }

  lemma AtLeast(y: real, q: real, x: real, z: real)
    requires 0.0 < z && Mul(q, z) == x
    ensures y <= q <==> Mul(y, z) <= x
  {
    if y <= q {
      MulLe(y, q, z);
    } else {
      MulLt(q, y, z);
    }
  }

  /** Off the cent it may not: from 100 with a stop at 99.994 the rounded target is no further away than the rounded
      stop, so the candidate is made with a ratio of one and no gate of two can pass it. */
  lemma CentDoomsCandidate(i: Inputs, l: Limits)
    requires !i.unknownStrategy && !i.noTrade && i.risk <= i.maxRisk && ChooseSide(i).Long?
    requires i.entry == Some(100.0) && i.requiredRr <= 2.0
    requires i.signalStop == Some(99.994) && i.signalTarget.None? && i.resistances == []
    requires 2.0 <= l.minRr
    ensures Generate(i).Some? && Generate(i).value.rr == 1.0 && !ValidateCandidate(Generate(i).value, l)
  {
    assert 99.994 / PRICE == 9999.4 && 100.012 / PRICE == 10001.2;
    assert RoundHalfUp(9999.4) == 9999 && RoundHalfUp(10001.2) == 10001;
    assert Reward(100.0 - 99.994, 2.0) == 0.012;
    assert ComputeExits(i, true, 100.0) == Some((99.99, 100.01));
    hide ComputeExits, Rounded, Worth, Notional, LiquidationPrice, MarginRatio, Fees, Slippage, Leverage;
    assert 1.0 / COST == 10000.0;
    assert RoundHalfEven(10000.0) == 10000;
    assert Generate(i).value.rr == Quantize((100.01 - 100.0) / (100.0 - 99.99), COST);
  }

  lemma NearestCent(y: real, k: int)
    requires 0.0 < y
    ensures RoundHalfUp(y) == k <==> k as real - 0.5 <= y < k as real + 0.5
  {
  }

  /** Which prices round to a given cent price. */
  lemma RoundedTo(x: real, cents: real)
    requires 0.0 < x && OnGrid(cents, PRICE)
    ensures Rounded(x, PRICE) == cents <==> cents - 0.005 <= x < cents + 0.005
  {
    var k :| cents == Multiple(k, PRICE);
    var n := RoundHalfUp(x / PRICE);
    assert x / PRICE == 100.0 * x;
    NearestCent(100.0 * x, k);
    assert Multiple(k, PRICE) == 0.01 * k as real && Multiple(n, PRICE) == 0.01 * n as real;
    hide RoundHalfUp;
  }

  /** Exactly when a candidate's own entry meets its stop or its target: the price that was read lies within half a
      cent of it. */
  lemma EntryMeetsExits(i: Inputs)
    ensures var t := Generate(i);
      t.Some? ==>
        var entry, own, stop, target := i.entry.value, t.value.entry, t.value.stop, t.value.target;
        if t.value.long then
          (own == stop <==> entry < stop + 0.005) && (own == target <==> target - 0.005 <= entry)
        else
          (own == stop <==> stop - 0.005 <= entry) && (own == target <==> entry < target + 0.005)
  {
    CandidateIsSound(i);
    EntryIsRounded(i);
    var made := Generate(i);
    assert made.Some? ==> i.entry.Some? && 0.0 < i.entry.value;
    hide Generate, Rounded, OnGrid, Reward, Slack, RewardRatio, ChooseSide;
    if made.Some? {
      RoundedTo(i.entry.value, made.value.stop);
      RoundedTo(i.entry.value, made.value.target);
    }
  }

  /** So it need not keep clear of its stop: 100.004 and a stop of 99.999 both become 100.00. */
  lemma EntryMayMeetStop(i: Inputs)
    requires !i.unknownStrategy && !i.noTrade && i.risk <= i.maxRisk && ChooseSide(i).Long?
    requires i.entry == Some(100.004) && i.requiredRr <= 2.0
    requires i.signalStop == Some(99.999) && i.signalTarget == Some(101.0)
    ensures Generate(i).Some? && Generate(i).value.entry == Generate(i).value.stop == 100.0
  {
    assert 99.999 / PRICE == 9999.9 && 101.0 / PRICE == 10100.0 && 100.004 / PRICE == 10000.4;
    assert RoundHalfUp(9999.9) == 10000 && RoundHalfUp(10100.0) == 10100 && RoundHalfUp(10000.4) == 10000;
    assert Reward(100.004 - 99.999, 2.0) == 0.01;
    assert ComputeExits(i, true, 100.004) == Some((100.0, 101.0));
    assert Rounded(100.004, PRICE) == 100.0;
    EntryIsRounded(i);
    hide ComputeExits, Rounded, Worth, Notional, LiquidationPrice, MarginRatio, Fees, Slippage, Leverage, Quantize;
  }

  // ---------- Side, size and levels ----------

  lemma SameDistance(i: Inputs, j: Inputs, entry: real)
    requires i.atr == j.atr && i.atrMultiplier == j.atrMultiplier && i.minStopPct == j.minStopPct
    ensures StopDistance(i, entry) == StopDistance(j, entry)
  {
  }

  lemma SameLevels(i: Inputs, j: Inputs, entry: real)
    requires i.signalStop == j.signalStop && i.signalTarget == j.signalTarget
    requires i.supports == j.supports && i.resistances == j.resistances
    requires StopDistance(i, entry) == StopDistance(j, entry)
    ensures LongStop(i, entry) == LongStop(j, entry) && ShortStop(i, entry) == ShortStop(j, entry)
    ensures forall edge :: LongTarget(i, entry, edge) == LongTarget(j, entry, edge)
    ensures forall edge :: ShortTarget(i, entry, edge) == ShortTarget(j, entry, edge)
  {
    hide NearestAbove, NearestBelow, StopDistance;
  }

  lemma ExitsIgnoreScores(i: Inputs, longScore: real, shortScore: real, long: bool, entry: real)
    ensures ComputeExits(i.(longScore := longScore, shortScore := shortScore), long, entry)
      == ComputeExits(i, long, entry)
  {
    var other := i.(longScore := longScore, shortScore := shortScore);
    SameDistance(i, other, entry);
    assert RewardRatio(other) == RewardRatio(i);
    hide Rounded, Reward, NearestAbove, NearestBelow, StopDistance, RewardRatio;
    SameLevels(i, other, entry);
    hide LongStop, ShortStop, LongTarget, ShortTarget;
  }

  lemma BuildIgnoresScores(i: Inputs, longScore: real, shortScore: real, long: bool, entry: real, stop: real,
                           target: real)
    requires 0.0 < entry && (if long then stop < entry else entry < stop)
    ensures Build(i.(longScore := longScore, shortScore := shortScore), long, entry, stop, target)
      == Build(i, long, entry, stop, target)
  {
    hide Rounded, Worth, LiquidationPrice, Quantize, Fees, Slippage, Exposure;
  }

  /** The other side's score can only veto: as long as it is not strong the candidate is the same in every figure, and
      once it is strong there is none.  It never turns a trade round. */
  lemma OtherScoreOnlyVetoes(i: Inputs, score: real)
    ensures var t := Generate(i);
      t.Some? && t.value.long ==>
        Generate(i.(shortScore := score)) == if score < i.minShort then t else None
    ensures var t := Generate(i);
      t.Some? && !t.value.long ==>
        Generate(i.(longScore := score)) == if score < i.minLong then t else None
  {
    var made := Generate(i);
    if made.Some? {
      var long, entry := made.value.long, i.entry.value;
      var longScore, shortScore := if long then i.longScore else score, if long then score else i.shortScore;
      assert ChooseSide(i).Long? == long && ChooseSide(i).Short? == !long;
      ExitsIgnoreScores(i, longScore, shortScore, long, entry);
      var (stop, target) := ComputeExits(i, long, entry).value;
      BuildIgnoresScores(i, longScore, shortScore, long, entry, stop, target);
      hide ComputeExits, Build;
      var other := i.(longScore := longScore, shortScore := shortScore);
      assert other == if long then i.(shortScore := score) else i.(longScore := score);
    }
  }

  /** Leverage and margin ratio stay within their caps, and the notional is what they and the balance make, each up to
      its rounding. */
  lemma SizeIsCapped(i: Inputs)
    ensures 1 <= Leverage(i) && (Leverage(i) <= i.maxLeverage || Leverage(i) == 1)
    ensures -0.0000005 <= MarginRatio(i) && (0.0 <= i.maxMarginRatio ==> MarginRatio(i) <= i.maxMarginRatio + 0.0000005)
    ensures Abs(Notional(i) - Exposure(i.balance, MarginRatio(i), Leverage(i))) <= 0.00005
  {
    hide Exposure;
    QuantizeError(Max(0.0, Min(i.maxMarginRatio, i.requestedMarginRatio)), 0.000001);
    RoundedError(Exposure(i.balance, MarginRatio(i), Leverage(i)), COST);
    hide Quantize, Rounded;
  }

  lemma RewardNear(distance: real, loss: real, rr: real)
    requires 0.0 <= rr && Abs(loss - distance) <= 0.005
    ensures Abs(Reward(loss, rr) - Reward(distance, rr)) <= 0.005 * rr
  {
    RewardSlack(distance, loss, rr);
    RewardSlack(loss, distance, rr);
  }

  ghost predicate AnyBelow(levels: seq<real>, price: real) {
    exists k :: 0 <= k < |levels| && levels[k] < price
  }

  ghost predicate AnyAbove(levels: seq<real>, price: real) {
    exists k :: 0 <= k < |levels| && price < levels[k]
  }

  /** A cent price stands at a level below another price, with no level between the two. */
  ghost predicate AtLevelBelow(levels: seq<real>, price: real, cents: real) {
    exists k :: 0 <= k < |levels| && levels[k] < price && Abs(levels[k] - cents) <= 0.005
                && forall j :: 0 <= j < |levels| && levels[j] < price ==> levels[j] <= levels[k]
  }

  ghost predicate AtLevelAbove(levels: seq<real>, price: real, cents: real) {
    exists k :: 0 <= k < |levels| && price < levels[k] && Abs(levels[k] - cents) <= 0.005
                && forall j :: 0 <= j < |levels| && price < levels[j] ==> levels[k] <= levels[j]
  }

  /** Every level above a price is at least a distance away from it. */
  ghost predicate AllFarAbove(levels: seq<real>, price: real, distance: real) {
    forall k :: 0 <= k < |levels| && price < levels[k] ==> distance <= levels[k] - price
  }

  ghost predicate AllFarBelow(levels: seq<real>, price: real, distance: real) {
    forall k :: 0 <= k < |levels| && levels[k] < price ==> distance <= price - levels[k]
  }

  lemma NearestStand(levels: seq<real>, price: real)
    ensures var r := NearestBelow(levels, price);
      && (AnyBelow(levels, price) <==> r.Some?)
      && (r.Some? ==> forall x :: Abs(r.value - x) <= 0.005 ==> AtLevelBelow(levels, price, x))
      && (r.Some? ==> forall d :: AllFarBelow(levels, price, d) ==> d <= price - r.value)
    ensures var r := NearestAbove(levels, price);
      && (AnyAbove(levels, price) <==> r.Some?)
      && (r.Some? ==> forall x :: Abs(r.value - x) <= 0.005 ==> AtLevelAbove(levels, price, x))
      && (r.Some? ==> forall d :: AllFarAbove(levels, price, d) ==> d <= r.value - price)
  {
  }

  lemma StopOfTrade(i: Inputs)
    ensures var t := Generate(i);
      t.Some? ==>
        && i.entry.Some?
        && 0.0 < i.entry.value
        && var entry := i.entry.value;
          t.value.stop == Rounded(if t.value.long then LongStop(i, entry) else ShortStop(i, entry), PRICE)
  {
    hide Rounded, LongStop, ShortStop, LongTarget, ShortTarget, Reward, Worth, Notional, LiquidationPrice, Quantize,
      Fees, Slippage, MarginRatio, Leverage, ChooseSide, RewardRatio;
  }

  lemma NoiseDistance(i: Inputs, entry: real)
    ensures StopDistance(i, entry) == Max(Mul(i.atr, i.atrMultiplier), Mul(entry, i.minStopPct))
  {
  }

  lemma LongStopStands(i: Inputs, entry: real, cents: real)
    requires i.signalStop.None? && Abs(LongStop(i, entry) - cents) <= 0.005
    ensures if AnyBelow(i.supports, entry) then AtLevelBelow(i.supports, entry, cents)
            else Abs(entry - cents - StopDistance(i, entry)) <= 0.005
  {
    NearestStand(i.supports, entry);
    hide StopDistance, NearestBelow, AnyBelow, AtLevelBelow, AllFarBelow;
  }

  lemma ShortStopStands(i: Inputs, entry: real, cents: real)
    requires i.signalStop.None? && Abs(ShortStop(i, entry) - cents) <= 0.005
    ensures if AnyAbove(i.resistances, entry) then AtLevelAbove(i.resistances, entry, cents)
            else Abs(cents - entry - StopDistance(i, entry)) <= 0.005
  {
    NearestStand(i.resistances, entry);
    hide StopDistance, NearestAbove, AnyAbove, AtLevelAbove, AllFarAbove;
  }

  lemma LongTargetStands(i: Inputs, entry: real, edge: real, cents: real)
    requires i.signalTarget.None? && Abs(LongTarget(i, entry, edge) - cents) <= 0.005
    ensures AtLevelAbove(i.resistances, entry, cents) || Abs(cents - edge) <= 0.005
    ensures AnyAbove(i.resistances, entry) && AllFarAbove(i.resistances, entry, edge - entry) ==>
              AtLevelAbove(i.resistances, entry, cents)
  {
    NearestStand(i.resistances, entry);
    hide NearestAbove, AnyAbove, AtLevelAbove, AllFarAbove;
  }

  lemma ShortTargetStands(i: Inputs, entry: real, edge: real, cents: real)
    requires i.signalTarget.None? && Abs(ShortTarget(i, entry, edge) - cents) <= 0.005
    ensures AtLevelBelow(i.supports, entry, cents) || Abs(cents - edge) <= 0.005
    ensures AnyBelow(i.supports, entry) && AllFarBelow(i.supports, entry, entry - edge) ==>
              AtLevelBelow(i.supports, entry, cents)
  {
    NearestStand(i.supports, entry);
    hide NearestBelow, AnyBelow, AtLevelBelow, AllFarBelow;
  }

  lemma FartherIsFar(levels: seq<real>, price: real, distance: real, near: real)
    requires near <= distance
    ensures AllFarAbove(levels, price, distance) ==> AllFarAbove(levels, price, near)
    ensures AllFarBelow(levels, price, distance) ==> AllFarBelow(levels, price, near)
  {
  }

  /** A stop the strategy did not give stands at the nearest level on the losing side, and where there is no level on
      that side it is just clear of both the volatility and the least percentage. */
  lemma StopStandsAtLevel(i: Inputs)
    requires i.signalStop.None?
    ensures var t := Generate(i);
      t.Some? ==>
        var entry, stop, loss := i.entry.value, t.value.stop, LossDistance(t.value, i.entry.value);
        if t.value.long && AnyBelow(i.supports, entry) then AtLevelBelow(i.supports, entry, stop)
        else if !t.value.long && AnyAbove(i.resistances, entry) then AtLevelAbove(i.resistances, entry, stop)
        else Abs(loss - Max(Mul(i.atr, i.atrMultiplier), Mul(entry, i.minStopPct))) <= 0.005
  {
    StopOfTrade(i);
    hide Generate, Rounded, OnGrid;
    var made := Generate(i);
    if made.Some? {
      var t, entry := made.value, i.entry.value;
      RoundedError(if t.long then LongStop(i, entry) else ShortStop(i, entry), PRICE);
      NoiseDistance(i, entry);
      hide StopDistance, Mul, Max, AnyBelow, AnyAbove, AtLevelBelow, AtLevelAbove, LongStop, ShortStop;
      if t.long {
        LongStopStands(i, entry, t.stop);
      } else {
        ShortStopStands(i, entry, t.stop);
      }
    }
  }

  lemma TargetOfTrade(i: Inputs)
    ensures var t := Generate(i);
      t.Some? ==>
        && i.entry.Some?
        && var entry, rr := i.entry.value, RewardRatio(i);
           if t.value.long then
             t.value.target == Rounded(LongTarget(i, entry, entry + Reward(entry - LongStop(i, entry), rr)), PRICE)
           else
             t.value.target == Rounded(ShortTarget(i, entry, entry - Reward(ShortStop(i, entry) - entry, rr)), PRICE)
  {
    hide Rounded, LongStop, ShortStop, LongTarget, ShortTarget, Reward, Worth, Notional, LiquidationPrice, Quantize,
      Fees, Slippage, MarginRatio, Leverage, ChooseSide, RewardRatio;
  }

  lemma LongTargetOnCents(i: Inputs, entry: real, stop: real, target: real)
    requires i.signalTarget.None? && Abs(LongStop(i, entry) - stop) <= 0.005
    requires Abs(LongTarget(i, entry, entry + Reward(entry - LongStop(i, entry), RewardRatio(i))) - target) <= 0.005
    ensures var rr := RewardRatio(i);
      var least := Reward(entry - stop, rr);
      && (AtLevelAbove(i.resistances, entry, target) || Abs(target - entry - least) <= Slack(rr))
      && (AnyAbove(i.resistances, entry) && AllFarAbove(i.resistances, entry, least + Slack(rr)) ==>
            AtLevelAbove(i.resistances, entry, target))
  {
    hide RewardRatio, LongStop, LongTarget, Reward, AnyAbove, AtLevelAbove, AllFarAbove;
    var rr := RewardRatio(i);
    var edge := entry + Reward(entry - LongStop(i, entry), rr);
    RewardNear(entry - LongStop(i, entry), entry - stop, rr);
    LongTargetStands(i, entry, edge, target);
    FartherIsFar(i.resistances, entry, Reward(entry - stop, rr) + Slack(rr), edge - entry);
  }

  lemma ShortTargetOnCents(i: Inputs, entry: real, stop: real, target: real)
    requires i.signalTarget.None? && Abs(ShortStop(i, entry) - stop) <= 0.005
    requires Abs(ShortTarget(i, entry, entry - Reward(ShortStop(i, entry) - entry, RewardRatio(i))) - target) <= 0.005
    ensures var rr := RewardRatio(i);
      var least := Reward(stop - entry, rr);
      && (AtLevelBelow(i.supports, entry, target) || Abs(entry - target - least) <= Slack(rr))
      && (AnyBelow(i.supports, entry) && AllFarBelow(i.supports, entry, least + Slack(rr)) ==>
            AtLevelBelow(i.supports, entry, target))
  {
    hide RewardRatio, ShortStop, ShortTarget, Reward, AnyBelow, AtLevelBelow, AllFarBelow;
    var rr := RewardRatio(i);
    var edge := entry - Reward(ShortStop(i, entry) - entry, rr);
    RewardNear(ShortStop(i, entry) - entry, stop - entry, rr);
    ShortTargetStands(i, entry, edge, target);
    FartherIsFar(i.supports, entry, Reward(stop - entry, rr) + Slack(rr), entry - edge);
  }

  /** A target the strategy did not give stands at the nearest level beyond the price, or is the least sufficient one up
      to what the cent takes; and it stands at the level whenever no level is nearer than that. */
  lemma TargetStandsAtLevel(i: Inputs)
    requires i.signalTarget.None?
    ensures var t := Generate(i);
      t.Some? ==>
        var entry, target, rr := i.entry.value, t.value.target, RewardRatio(i);
        var least := Reward(LossDistance(t.value, entry), rr);
        var atLevel := if t.value.long then AtLevelAbove(i.resistances, entry, target)
                       else AtLevelBelow(i.supports, entry, target);
        && (atLevel || Abs(ProfitDistance(t.value, entry) - least) <= Slack(rr))
        && ((if t.value.long then
               AnyAbove(i.resistances, entry) && AllFarAbove(i.resistances, entry, least + Slack(rr))
             else
               AnyBelow(i.supports, entry) && AllFarBelow(i.supports, entry, least + Slack(rr))) ==> atLevel)
  {
    StopOfTrade(i);
    TargetOfTrade(i);
    hide Generate, Rounded, OnGrid;
    var made := Generate(i);
    if made.Some? {
      var t, entry, rr := made.value, i.entry.value, RewardRatio(i);
      hide RewardRatio, Slack, LongStop, ShortStop, LongTarget, ShortTarget, Reward, AnyBelow, AnyAbove,
        AtLevelBelow, AtLevelAbove, AllFarBelow, AllFarAbove;
      if t.long {
        RoundedError(LongStop(i, entry), PRICE);
        RoundedError(LongTarget(i, entry, entry + Reward(entry - LongStop(i, entry), rr)), PRICE);
        LongTargetOnCents(i, entry, t.stop, t.target);
      } else {
        RoundedError(ShortStop(i, entry), PRICE);
        RoundedError(ShortTarget(i, entry, entry - Reward(ShortStop(i, entry) - entry, rr)), PRICE);
        ShortTargetOnCents(i, entry, t.stop, t.target);
      }
    }
  }

  lemma StrategyTarget(i: Inputs, long: bool, entry: real, edge: real)
    requires i.signalTarget.Some?
    ensures long && entry < i.signalTarget.value ==> LongTarget(i, entry, edge) == Max(i.signalTarget.value, edge)
    ensures !long && i.signalTarget.value < entry ==> ShortTarget(i, entry, edge) == Min(i.signalTarget.value, edge)
  {
    hide NearestAbove, NearestBelow;
  }

  /** A strategy's own exits are respected by every candidate.  A stop on the losing side is taken, to the half cent.  A
      target on the other side is never drawn nearer than that: it is taken, or moved out to the required multiple of
      the way to the stop, up to what the cent takes. */
  lemma StrategyExitsStand(i: Inputs)
    ensures var t := Generate(i);
      t.Some? ==>
        var entry, stop, target, rr := i.entry.value, t.value.stop, t.value.target, RewardRatio(i);
        var least := Reward(LossDistance(t.value, entry), rr);
        && (i.signalStop.Some? && (if t.value.long then i.signalStop.value < entry else entry < i.signalStop.value) ==>
              Abs(stop - i.signalStop.value) <= 0.005)
        && (i.signalTarget.Some?
            && (if t.value.long then entry < i.signalTarget.value else i.signalTarget.value < entry) ==>
              && (if t.value.long then i.signalTarget.value - 0.005 <= target
                  else target <= i.signalTarget.value + 0.005)
              && (Abs(target - i.signalTarget.value) <= 0.005
                  || Abs(ProfitDistance(t.value, entry) - least) <= Slack(rr)))
  {
    StopOfTrade(i);
    TargetOfTrade(i);
    hide Generate, Rounded, OnGrid;
    var made := Generate(i);
    if made.Some? {
      var t, entry, rr := made.value, i.entry.value, RewardRatio(i);
      hide RewardRatio;
      var stop := if t.long then LongStop(i, entry) else ShortStop(i, entry);
      var edge := if t.long then entry + Reward(entry - stop, rr) else entry - Reward(stop - entry, rr);
      var target := if t.long then LongTarget(i, entry, edge) else ShortTarget(i, entry, edge);
      RoundedError(stop, PRICE);
      RoundedError(target, PRICE);
      StrategyStop(i, t.long, entry);
      if i.signalTarget.Some? {
        StrategyTarget(i, t.long, entry, edge);
      }
      hide LongStop, ShortStop, LongTarget, ShortTarget, Reward;
      RewardNear(if t.long then entry - stop else stop - entry, LossDistance(t, entry), rr);
    }
  }

  lemma StrategyStop(i: Inputs, long: bool, entry: real)
    ensures i.signalStop.Some? && long && i.signalStop.value < entry ==> LongStop(i, entry) == i.signalStop.value
    ensures i.signalStop.Some? && !long && entry < i.signalStop.value ==> ShortStop(i, entry) == i.signalStop.value
  {
    hide NearestAbove, NearestBelow, StopDistance;
  }
}
