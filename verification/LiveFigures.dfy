/** The calls on a live position in plain figures. */
module LiveFigures {
  import opened Common
  import opened Decimals
  import opened RiskSizing
  import opened LivePosition

  /** What a quantity gains from one price to another on a side. */
  function Gain(direction: Direction, from: real, to: real, quantity: real): real {
    if direction.Long? then Mul(to - from, quantity) else Mul(from - to, quantity)
  }

  lemma GainMeans(direction: Direction, from: real, to: real, quantity: real, rate: real)
    ensures Gross(direction, from, to, quantity) == Gain(direction, from, to, quantity)
    ensures StopRisk(direction, from, to, quantity) == -Gain(direction, from, to, quantity)
    ensures Fee(quantity, to, rate) == Mul(Mul(quantity, to), rate)
  {
  }

  // ---------- Whether a DCA is allowed ----------

  /** How far the position is down, as a share of the margin it was opened with, at least this much. */
  predicate Down(p: State, share: real) {
    var gain := if p.status.Closed? then 0.0 else Gain(p.direction, p.entry, p.current, p.quantity);
    0.0 < p.originalMargin && gain < 0.0 && Mul(share, p.originalMargin) <= -gain
  }

  lemma DownMeans(p: State)
    ensures 0.05 <= DrawdownPct(p) <==> Down(p, 0.05)
  {
    GainMeans(p.direction, p.entry, p.current, p.quantity, 0.0);
    var pnl := UnrealizedPnl(p);
    if 0.0 < p.originalMargin && pnl < 0.0 {
      MulDiv(-pnl, p.originalMargin);
      ProductGe(-pnl / p.originalMargin, -pnl, 0.05, p.originalMargin);
    }
    hide Gross, Mul, Gain;
  }

  /** A quotient is at least a number exactly when the dividend is at least its product. */
  lemma ProductGe(q: real, x: real, y: real, z: real)
    requires 0.0 < z && Mul(q, z) == x
    ensures y <= q <==> Mul(y, z) <= x
  {
    if y <= q {
      MulLe(y, q, z);
    } else {
      MulLt(q, y, z);
    }
  }

  /** What forbids a DCA: the first of these, in the order in which the check looks. */
  function Forbidden(p: State, direction: Direction, entry: real, risk: real, atr: real, stats: Stats)
    : Option<Eligibility>
  {
    var move := if entry < p.entry then p.entry - entry else entry - p.entry;
    var held := -Gain(p.direction, p.entry, p.stop, p.quantity);
    var conditions :=
      Or(When(p.direction != direction, WrongDirection),
         Or(When(2 <= p.dcaCount, CountLimit),
            Or(When(move < atr, Premature), When(2.0 * p.originalRisk < held + risk, RiskLimit))));
    var halfOfDay := 0.0 < stats.dailyLimit && Mul(0.5, stats.dailyLimit) <= stats.dailyLoss;
    var mostOfWeek := 0.0 < stats.weeklyLimit && Mul(0.75, stats.weeklyLimit) <= stats.weeklyLoss;
    var prohibitions :=
      Or(When(halfOfDay, DailyLossWarning),
         Or(When(stats.inCooldown, InCooldown),
            Or(When(mostOfWeek, WeeklyLossWarning), When(Down(p, 0.05), Drawdown))));
    Or(conditions, prohibitions)
  }

  lemma SharesMean(loss: real, limit: real)
    requires 0.0 < limit
    ensures 0.5 <= loss / limit <==> Mul(0.5, limit) <= loss
    ensures 0.75 <= loss / limit <==> Mul(0.75, limit) <= loss
  {
    MulDiv(loss, limit);
    ProductGe(loss / limit, loss, 0.5, limit);
    ProductGe(loss / limit, loss, 0.75, limit);
  }

  /** Main result on eligibility: the check answers with the first of four conditions and four prohibitions that speaks
      against a DCA, and with none when nothing does. */
  lemma EligibilityMeans(p: State, direction: Direction, entry: real, risk: real, atr: real, stats: Stats)
    ensures var answer := CheckDca(p, direction, entry, risk, atr, stats);
      match Forbidden(p, direction, entry, risk, atr, stats)
      case Some(reason) => answer == reason
      case None => answer.Eligible?
  {
    DownMeans(p);
    GainMeans(p.direction, p.entry, p.stop, p.quantity, 0.0);
    if 0.0 < stats.dailyLimit {
      SharesMean(stats.dailyLoss, stats.dailyLimit);
    }
    if 0.0 < stats.weeklyLimit {
      SharesMean(stats.weeklyLoss, stats.weeklyLimit);
    }
    hide DrawdownPct, Down, Gain, StopRisk, Mul;
  }

  // ---------- What the calls do ----------

  /** The price at which the margin is used up but for 0.4 percent of the entry. */
  predicate Liquidates(price: real, p: State, entry: real)
    requires p.leverage != 0
  {
    Gain(p.direction, entry, price, 1.0) == 0.004 * entry - entry / p.leverage as real
  }

  lemma LiquidationMeans(p: State, entry: real)
    requires p.leverage != 0
    ensures Liquidates(LiquidationPrice(p.direction, entry, p.leverage), p, entry)
  {
    var l := p.leverage as real;
    assert entry * (1.0 / l) == entry / l;
    assert entry * (1.0 - 1.0 / l + 0.004) == entry - entry * (1.0 / l) + 0.004 * entry;
    assert entry * (1.0 + 1.0 / l - 0.004) == entry + entry * (1.0 / l) - 0.004 * entry;
  }

  /** What a close reports, each to its digits: the gain, the fee on the price it was closed at, and the gain less the
      fee. */
  predicate Reports(c: Closing, p: State, quantity: real, price: real, rate: real) {
    var gain, fee := Gain(p.direction, p.entry, price, quantity), Mul(Mul(quantity, price), rate);
    && c.quantity == quantity
    && c.gross == Quantize(gain, 0.01) && c.fee == Quantize(fee, 0.0001) && c.net == Quantize(gain - fee, 0.01)
  }

  lemma ReportMeans(p: State, quantity: real, price: real, rate: real)
    ensures Reports(ClosingOf(p, quantity, price, rate), p, quantity, price, rate)
    ensures ClosingOf(p, quantity, price, rate).net == Quantize(Net(p.direction, p.entry, price, quantity, rate), 0.01)
  {
    GainMeans(p.direction, p.entry, price, quantity, rate);
    hide Quantize, Gross, Fee, Mul, Gain;
  }

  /** Main result on closes: a close realizes what it reports for the whole quantity, to the cent, and changes only the
      status and the price beside. */
  lemma CloseMeans(p: State, price: real, rate: real)
    ensures var b, c := ClosePosition(p, price, rate), ClosingOf(p, p.quantity, price, rate);
      && Reports(c, p, p.quantity, price, rate) && b.realized == p.realized + c.net
      && b.status.Closed? && b.current == price
      && b == p.(status := b.status, current := b.current, realized := b.realized)
  {
    ReportMeans(p, p.quantity, price, rate);
    hide Quantize, Net, Reports;
  }

  /** Main result on partial closes: they go through for an open position, a ratio inside (0, 1) and at least a
      thousandth; then the most thousandths within the ratio are closed and realized, and the ratio's share of the
      margin is given back. */
  lemma PartialMeans(p: State, price: real, ratio: real, rate: real)
    requires 0.0 <= p.quantity
    ensures var b := PartialClose(p, price, ratio, rate);
      && (b.Some? <==> !p.status.Closed? && 0.0 < ratio < 1.0 && 0.001 <= Mul(p.quantity, ratio))
      && (b.Some? ==>
            var q := b.value;
            var part := p.quantity - q.quantity;
            var c := ClosingOf(p, part, price, rate);
            && OnGrid(part, 0.001) && part <= Mul(p.quantity, ratio) < part + 0.001
            && Reports(c, p, part, price, rate) && q.realized == p.realized + c.net
            && q.margin == p.margin - Quantize(Mul(p.margin, ratio), 0.0001)
            && q.status.PartiallyClosed? && q.current == price
            && q == p.(quantity := q.quantity, margin := q.margin, realized := q.realized, status := q.status,
                       current := q.current))
  {
    var part := ClosedQuantity(p.quantity, ratio);
    if 0.0 < ratio < 1.0 {
      MulNonNeg(p.quantity, ratio);
      FloorToStepLargest(Mul(p.quantity, ratio), 0.001);
      assert Multiple(1, 0.001) == 0.001 && Multiple(0, 0.001) == 0.0;
      assert p.quantity * ratio == Mul(p.quantity, ratio);
      Thousandths(part);
      assert p.margin * ratio == Mul(p.margin, ratio);
      ReportMeans(p, part, price, rate);
      hide Quantize, Net, Reports, FloorToStep, OnGrid, Mul;
      assert p.quantity - (p.quantity - part) == part;
    }
  }

  lemma Thousandths(part: real)
    requires OnGrid(part, 0.001)
    ensures 0.0 < part <==> 0.001 <= part
  {
    var k :| part == Multiple(k, 0.001);
    assert part == 0.001 * k as real;
  }

  /** Main result on enlargements: quantity and margin are added, the entry is the average of both to the cent, the
      liquidation price is that of the new entry, and the count is one more. */
  lemma DcaMeans(p: State, entry: real, quantity: real, margin: real)
    requires 0.0 < p.quantity + quantity && p.leverage != 0
    ensures var b := ApplyDca(p, entry, quantity, margin);
      && b.quantity == p.quantity + quantity && b.margin == p.margin + margin && b.dcaCount == p.dcaCount + 1
      && Abs(Mul(b.entry, b.quantity) - (Mul(p.entry, p.quantity) + Mul(entry, quantity))) <= Mul(0.005, b.quantity)
      && OnGrid(b.entry, 0.01) && Liquidates(b.liquidation, p, b.entry)
      && b == p.(entry := b.entry, quantity := b.quantity, margin := b.margin, liquidation := b.liquidation,
                 dcaCount := b.dcaCount)
  {
    var total, exact := p.quantity + quantity, ExactAverage(p.quantity, p.entry, quantity, entry);
    var average := RoundedAverage(p.quantity, p.entry, quantity, entry);
    QuantizeError(exact, 0.01);
    MulDiv(p.quantity * p.entry + quantity * entry, total);
    assert Mul(exact, total) == Mul(p.entry, p.quantity) + Mul(entry, quantity);
    hide ExactAverage, Quantize;
    MulLe(exact - 0.005, average, total);
    MulLe(average, exact + 0.005, total);
    MulAdd(exact, 0.005, total);
    LiquidationMeans(p, average);
    hide Mul, RoundedAverage, LiquidationPrice, Liquidates, OnGrid;
  }

  /** A position is opened as it is asked for, its risk and its margin on record, with nothing realized. */
  lemma OpenedMeans(direction: Direction, entry: real, stop: real, quantity: real, leverage: int, margin: real,
                    maxLoss: real)
    requires leverage != 0
    ensures var p := Opened(direction, entry, stop, quantity, leverage, margin, maxLoss);
      && p.direction == direction && p.stop == stop && p.quantity == quantity && p.leverage == leverage
      && p.entry == p.current == entry && p.margin == p.originalMargin == margin && p.originalRisk == maxLoss
      && p.status.Open? && p.realized == 0.0 && p.dcaCount == 0 && Liquidates(p.liquidation, p, entry)
  {
    var p := Opened(direction, entry, stop, quantity, leverage, margin, maxLoss);
    LiquidationMeans(p, entry);
    hide LiquidationPrice, Liquidates;
  }

  // ---------- Runs ----------

  /** Main result on events: a partial close that goes through changes the position and any other changes nothing; a DCA
      is applied exactly when nothing forbids it. */
  lemma StepMeans(p: State, rate: real, e: Event)
    requires 0.0 < p.quantity && p.leverage != 0 && (e.DcaEvent? ==> 0.0 < e.quantity)
    ensures var q := Step(p, rate, e);
      match e
      case PartialEvent(price, ratio) =>
        if PartialClose(p, price, ratio, rate).Some? then PartialClose(p, price, ratio, rate) == Some(q) else q == p
      case DcaEvent(entry, quantity, margin, risk, atr, stats) =>
        if Forbidden(p, p.direction, entry, risk, atr, stats).None? then q == ApplyDca(p, entry, quantity, margin)
        else q == p
  {
    if e.DcaEvent? {
      EligibilityMeans(p, p.direction, e.entry, e.risk, e.atr, e.stats);
    }
    hide PartialClose, CheckDca, Forbidden, ApplyDca;
  }

  /** A run takes its events one after the other. */
  lemma {:induction false} RunMeans(p: State, rate: real, events: seq<Event>, e: Event)
    ensures Run(p, rate, []) == p
    ensures Run(p, rate, events + [e]) == Step(Run(p, rate, events), rate, e)
    decreases |events|
  {
    hide Step;
    if |events| == 0 {
      assert (events + [e])[1..] == [] && (events + [e])[0] == e;
    } else {
      assert (events + [e])[1..] == events[1..] + [e] && (events + [e])[0] == events[0];
      RunMeans(Step(p, rate, events[0]), rate, events[1..], e);
    }
  }

  /** Main result on the life of a position: from its opening, with the loss at its stop as its risk, over any partial
      closes and approved DCAs, it keeps a positive quantity and its stop, at most two DCAs are made, and what it would
      lose at the stop is at most twice its first risk and half a cent a coin. */
  lemma LifeKeepsRisk(direction: Direction, entry: real, stop: real, quantity: real, leverage: int, margin: real,
                      rate: real, events: seq<Event>)
    requires leverage != 0 && 0.0 < quantity && Gain(direction, entry, stop, quantity) <= 0.0
    requires forall k :: 0 <= k < |events| && events[k].DcaEvent? ==>
               0.0 < events[k].quantity && events[k].risk == -Gain(direction, events[k].entry, stop, events[k].quantity)
    ensures var first := -Gain(direction, entry, stop, quantity);
      var p := Run(Opened(direction, entry, stop, quantity, leverage, margin, first), rate, events);
      && 0.0 < p.quantity && 0 <= p.dcaCount <= 2
      && -Gain(p.direction, p.entry, p.stop, p.quantity) <= 2.0 * first + 0.005 * p.quantity
      && p.originalRisk == first && p.direction == direction && p.stop == stop
  {
    var first := -Gain(direction, entry, stop, quantity);
    var p := Opened(direction, entry, stop, quantity, leverage, margin, first);
    GainMeans(direction, entry, stop, quantity, rate);
    forall k | 0 <= k < |events|
      ensures TrueRisk(direction, stop, events[k])
    {
      if events[k].DcaEvent? {
        GainMeans(direction, events[k].entry, stop, events[k].quantity, rate);
      }
    }
    hide Gain, StopRisk, LiquidationPrice;
    assert Bounded(p);
    RunKeepsRiskBounded(p, rate, events);
    FixedInRun(p, rate, events);
    var q := Run(p, rate, events);
    GainMeans(q.direction, q.entry, q.stop, q.quantity, rate);
    hide Run, Opened;
  }

  lemma {:induction false} FixedInRun(p: State, rate: real, events: seq<Event>)
    ensures var q := Run(p, rate, events);
      q.direction == p.direction && q.stop == p.stop && q.originalRisk == p.originalRisk
    decreases |events|
  {
    if |events| > 0 {
      FixedInStep(p, rate, events[0]);
      hide Step;
      FixedInRun(Step(p, rate, events[0]), rate, events[1..]);
    }
  }

  lemma FixedInStep(p: State, rate: real, e: Event)
    ensures var q := Step(p, rate, e);
      q.direction == p.direction && q.stop == p.stop && q.originalRisk == p.originalRisk
  {
    hide CheckDca, Net, Quantize, ClosedQuantity, MarginShare, RoundedAverage, LiquidationPrice;
  }
}
