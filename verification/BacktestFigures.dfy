/** The trades and the equity curve of a backtest in plain figures. */
module BacktestFigures {
  import opened Common
  import opened Decimals
  import opened RiskSizing
  import opened BacktestModel
  import opened BacktestLedger
  import opened BacktestFills

  // ---------- A trade ----------

  /** The share by which a fill slips: the configured rate, or under the volume model that rate grown by the share of
      the bar's volume times the factor, and at most a hundredth. */
  predicate Slips(rate: real, c: Config, quantity: real, volume: real) {
    if !c.volumeModel || volume == 0.0 then rate == c.slippageRate
    else
      var grown := c.slippageRate + Mul(c.slippageRate, Mul(quantity / volume, c.volumeFactor));
      rate <= grown && rate <= 0.01 && (rate == grown || rate == 0.01)
  }

  /** A buy fills above its price and a sale below it, by such a share. */
  ghost predicate Fills(fill: real, c: Config, buy: bool, price: real, quantity: real, volume: real) {
    exists rate :: Slips(rate, c, quantity, volume) && fill == if buy then price + Mul(price, rate)
                                                               else price - Mul(price, rate)
  }

  lemma FillMeans(c: Config, buy: bool, price: real, quantity: real, volume: real)
    ensures Fills(SlippedPrice(c, buy, price, quantity, volume), c, buy, price, quantity, volume)
  {
    var rate := SlippageRate(c, quantity, volume);
    if c.volumeModel && volume != 0.0 {
      var share := quantity / volume;
      assert c.slippageRate * (1.0 + share * c.volumeFactor)
          == c.slippageRate + Mul(c.slippageRate, Mul(share, c.volumeFactor));
    }
    assert Slips(rate, c, quantity, volume);
    hide SlippageRate;
    assert price * (1.0 + rate) == price + Mul(price, rate) && price * (1.0 - rate) == price - Mul(price, rate);
  }

  /** The lots bought for a risk: the most whose way to the stop is worth no more, or else a single one. */
  ghost predicate LotsFor(quantity: real, risk: real, distance: real, lot: real)
    requires 0.0 < distance
  {
    if lot <= risk / distance then
      OnGrid(quantity, lot) && Mul(quantity, distance) <= risk && risk < Mul(quantity + lot, distance)
    else quantity == lot
  }

  lemma QuantityMeans(risk: real, distance: real, symbol: string)
    requires 0.0 < distance
    ensures LotsFor(TestQuantity(risk, distance, symbol), risk, distance, if symbol == "ETHUSDT" then 0.01 else 0.001)
  {
    var lot, raw := LotSize(symbol), risk / distance;
    MulDiv(risk, distance);
    if 0.0 <= raw {
      FloorToStepLargest(raw, lot);
      var whole := FloorToStep(raw, lot);
      OneOrMore(raw, whole, lot);
      MulLe(whole, raw, distance);
      MulLt(raw, whole + lot, distance);
    } else {
      NotPositive(raw, lot);
    }
    hide FloorToStep, Mul, OnGrid;
  }

  lemma OneOrMore(raw: real, whole: real, lot: real)
    requires 0.0 < lot && whole == FloorToStep(raw, lot) && 0.0 <= whole <= raw < whole + lot && OnGrid(whole, lot)
    ensures lot <= raw <==> 0.0 < whole
  {
    var k :| whole == Multiple(k, lot);
    if 0.0 < whole {
      if k <= 0 {
        MultipleMono(k, 0, lot);
      }
      MultipleMono(1, k, lot);
    }
  }

  lemma EntryShape(c: Config, signal: TestSignal, bar: Bar, risk: real)
    ensures var t := EnterTrade(c, signal, bar, risk);
      var base: real := if c.entryOnNextOpen then bar.open else signal.entry;
      && t.signal == signal && t.entryTime == bar.timestamp && t.funding == 0.0 && t.exit.None?
      && t.entry == SlippedPrice(c, signal.long, base, 1.0, bar.volume)
      && t.quantity == TestQuantity(risk, StopDistance(t.entry, signal.stop), signal.symbol)
      && t.margin == Quantize(MarginFor(t.quantity, t.entry, signal.leverage), CENT)
      && t.entryFee == Quantize(Fee(t.quantity, t.entry, c.feeRate), MONEY)
      && t.entrySlippage
         == Quantize(SlippageCost(base, SlippedPrice(c, signal.long, base, t.quantity, bar.volume), t.quantity), MONEY)
  {
    hide Quantize, SlippedPrice, TestQuantity, StopDistance, MarginFor, Fee, SlippageCost;
  }

  lemma WayMeans(price: real, stop: real)
    requires 0.0 < price
    ensures StopDistance(price, stop) == if price == stop then 0.001 * price else Abs(price - stop)
    ensures 0.0 < StopDistance(price, stop)
  {
  }

  lemma EntryProducts(quantity: real, price: real, rate: real, leverage: Leverage, base: real, fill: real)
    ensures MarginFor(quantity, price, leverage) == Mul(quantity, price) / leverage as real
    ensures Fee(quantity, price, rate) == Mul(Mul(quantity, price), rate)
    ensures SlippageCost(base, fill, quantity) == Mul(Abs(fill - base), quantity)
  {
    TradeProducts(quantity, price, rate);
  }

  /** Main result on entries: a trade is entered on its bar, at the open of the bar or at the price of the signal,
      slipped as one coin would be; its lots are those its risk pays for at the way to its stop, or at a thousandth
      of its price where there is no way; and its margin, its fee and its slippage are those of these lots. */
  lemma EntryMeans(c: Config, signal: TestSignal, bar: Bar, risk: real)
    requires 0.0 < EnterTrade(c, signal, bar, risk).entry
    ensures var t := EnterTrade(c, signal, bar, risk);
      var base: real := if c.entryOnNextOpen then bar.open else signal.entry;
      var way := if t.entry == signal.stop then 0.001 * t.entry else Abs(t.entry - signal.stop);
      && t.signal == signal && t.entryTime == bar.timestamp && t.funding == 0.0 && t.exit.None?
      && Fills(t.entry, c, signal.long, base, 1.0, bar.volume)
      && LotsFor(t.quantity, risk, way, if signal.symbol == "ETHUSDT" then 0.01 else 0.001)
      && t.margin == Quantize(Mul(t.quantity, t.entry) / signal.leverage as real, 0.01)
      && t.entryFee == Quantize(Mul(Mul(t.quantity, t.entry), c.feeRate), 0.00000001)
      && exists fill :: Fills(fill, c, signal.long, base, t.quantity, bar.volume)
                        && t.entrySlippage == Quantize(Mul(Abs(fill - base), t.quantity), 0.00000001)
  {
    var t := EnterTrade(c, signal, bar, risk);
    var base: real := if c.entryOnNextOpen then bar.open else signal.entry;
    EntryShape(c, signal, bar, risk);
    hide EnterTrade, SlippedPrice, TestQuantity, StopDistance, Fills, LotsFor, Mul, Quantize, MarginFor, Fee,
      SlippageCost;
    FillMeans(c, signal.long, base, 1.0, bar.volume);
    FillMeans(c, signal.long, base, t.quantity, bar.volume);
    WayMeans(t.entry, signal.stop);
    QuantityMeans(risk, StopDistance(t.entry, signal.stop), signal.symbol);
    EntryProducts(t.quantity, t.entry, c.feeRate, signal.leverage, base,
                  SlippedPrice(c, signal.long, base, t.quantity, bar.volume));
  }

  lemma TradeProducts(quantity: real, price: real, rate: real)
    ensures Fee(quantity, price, rate) == Mul(Mul(quantity, price), rate)
  {
  }

  /** The hours at which funding is charged. */
  predicate FundingHour(bar: Bar) {
    bar.timestamp / 3_600_000_000 % 24 in {0, 8, 16}
  }

  /** What a funding costs a trade at a price: longs pay a positive rate, shorts receive it. */
  function FundingAt(c: Config, t: Trade, price: real, rate: real): real {
    var amount := Mul(Mul(t.quantity, price), rate);
    if !c.applyFunding then 0.0 else if t.signal.long then amount else -amount
  }

  lemma FundingMeans(c: Config, t: Trade, bar: Bar, price: real)
    ensures FundingCharge(c, t.signal.long, t.quantity, price, bar.fundingRate)
         == FundingAt(c, t, price, bar.fundingRate)
    ensures IsFundingBar(bar) <==> FundingHour(bar)
  {
  }

  /** What a trade has moved in its favour at a price. */
  function Move(t: Trade, price: real): real {
    Mul(if t.signal.long then price - t.entry else t.entry - price, t.quantity)
  }

  lemma MoveMeans(t: Trade, price: real)
    ensures GrossPnl(t.signal.long, t.quantity, t.entry, price) == Move(t, price)
  {
  }

  /** Main result on exits: a trade that leaves at a level is filled on the other side of it, pays the fee on that
      fill and the funding of a marked bar at it, and nets its move less every cost it had. */
  lemma ExitMeans(c: Config, t: Trade, bar: Bar, at: real, reason: ExitReason)
    ensures var left := CloseTrade(c, t, bar, at, reason);
      left.exit.Some? && left == t.(exit := left.exit)
      && var x := left.exit.value;
         && x.time == bar.timestamp && x.reason == reason
         && Fills(x.price, c, !t.signal.long, at, t.quantity, bar.volume)
         && x.fee == Quantize(Mul(Mul(t.quantity, x.price), c.feeRate), 0.00000001)
         && x.funding == (if FundingHour(bar) then FundingAt(c, t, x.price, bar.fundingRate) else 0.0)
         && x.slippage == Mul(Abs(x.price - at), t.quantity)
         && x.gross == Quantize(Move(t, x.price), 0.01)
         && x.net == Quantize(Move(t, x.price) - t.entryFee - x.fee - Abs(t.funding + x.funding) - t.entrySlippage
                              - x.slippage, 0.01)
  {
    var price := SlippedPrice(c, !t.signal.long, at, t.quantity, bar.volume);
    var x := CloseTrade(c, t, bar, at, reason).exit.value;
    FillMeans(c, !t.signal.long, at, t.quantity, bar.volume);
    FundingMeans(c, t, bar, price);
    MoveMeans(t, price);
    TradeProducts(t.quantity, price, c.feeRate);
    assert SlippageCost(at, price, t.quantity) == Mul(Abs(price - at), t.quantity);
    hide Quantize, SlippedPrice, FundingCharge, IsFundingBar, FundingHour, GrossPnl, SlippageCost, Fee, Fills, Move,
      FundingAt, Mul;
  }

  // ---------- The curve ----------

  /** What trades have moved in their favour at a price, all together. */
  function Moves(ts: seq<Trade>, price: real): real {
    if |ts| == 0 then 0.0 else Moves(ts[..|ts| - 1], price) + Move(ts[|ts| - 1], price)
  }

  lemma {:induction false} MovesMean(ts: seq<Trade>, price: real)
    ensures Sum(ts, Unrealized(price)) == Moves(ts, price)
  {
    if |ts| > 0 {
      MovesMean(ts[..|ts| - 1], price);
      MoveMeans(ts[|ts| - 1], price);
    }
  }

  /** What a run has earned by its closed trades, less everything it was charged on the way. */
  function Earned(b: Book): real {
    Sum(b.closed, NetOf) - Sum(b.closed, Charged) - Sum(b.open, Charged)
  }

  /** The point of a bar: the equity is the capital, what was earned and what the open trades have moved at the
      close; the cash is that without the moves and the margins; each to the cent. */
  predicate PointOf(p: Point, capital: real, b: Book, bar: Bar) {
    && p.timestamp == bar.timestamp && p.open == |b.open|
    && p.equity == Quantize(capital + Earned(b) + Moves(b.open, bar.close), 0.01)
    && p.cash == Quantize(capital + Earned(b) - Sum(b.open, MarginOf), 0.01)
    && p.unrealized == Quantize(Moves(b.open, bar.close), 0.01)
  }

  lemma {:induction false} CurveKept(c: Config, signals: seq<TestSignal>, bars: seq<Bar>, k: nat, risk: real)
    requires k < |bars|
    ensures |RunBars(c, signals, bars, risk).curve| == |bars|
    ensures RunBars(c, signals, bars, risk).curve[k]
         == MakePoint(RunBars(c, signals, bars[..k + 1], risk).book, bars[k])
  {
    hide BookAfter, SignalsAt, NextPending, MakePoint, Equity;
    CurveLength(c, signals, bars, risk);
    if k == |bars| - 1 {
      assert bars[..k + 1] == bars;
      LastPoint(c, signals, bars, risk);
    } else {
      var rest := bars[..|bars| - 1];
      CurveKept(c, signals, rest, k, risk);
      assert rest[..k + 1] == bars[..k + 1];
    }
  }

  lemma PointMeans(c: Config, signals: seq<TestSignal>, bars: seq<Bar>, bar: Bar, risk: real)
    ensures var b := RunBars(c, signals, bars, risk).book;
      PointOf(MakePoint(b, bar), c.initialCapital, b, bar)
  {
    var b := RunBars(c, signals, bars, risk).book;
    LedgerIdentity(c, signals, bars, risk);
    MovesMean(b.open, bar.close);
    hide RunBars, Sum, Moves, Quantize, Unrealized;
  }

  /** The risk of a trade: what is asked for, or two percent of the capital. */
  function RiskOf(c: Config, risk: Option<real>): real {
    match risk
    case Some(amount) => if amount == 0.0 then 0.02 * c.initialCapital else amount
    case None => 0.02 * c.initialCapital
  }

  /** The end of a run changes the equity and the cash of the last point, and only where something was still open. */
  lemma FinishKeepsPoints(c: Config, s: State, bar: Bar, k: nat)
    requires k < |s.curve|
    ensures var r := Finish(c, s, bar);
      && |r.curve| == |s.curve|
      && (k < |s.curve| - 1 || s.book.open == [] ==> r.curve[k] == s.curve[k])
      && r.curve[k] == s.curve[k].(equity := r.curve[k].equity, cash := r.curve[k].cash)
  {
    hide ForceAll, Quantize;
  }

  lemma ResultIsFinish(c: Config, signals: seq<TestSignal>, bars: seq<Bar>, risk: Option<real>)
    requires |bars| > 0
    ensures var s := RunBars(c, signals, bars, RiskOf(c, risk));
      |s.curve| == |bars| && RunBacktest(c, signals, bars, risk) == Some(Finish(c, s, bars[|bars| - 1]))
  {
    assert RiskPerTrade(c, risk) == RiskOf(c, risk);
    CurveLength(c, signals, bars, RiskOf(c, risk));
    hide RunBars, Finish, RiskPerTrade, RiskOf;
  }

  /** Main result on the curve: the point that a whole run reports for a bar is that of what was open and closed after
      the bar; only the equity and the cash of the last point are those after what was still open has been closed. */
  lemma CurveMeans(c: Config, signals: seq<TestSignal>, bars: seq<Bar>, k: nat, risk: Option<real>)
    requires k < |bars|
    ensures RunBacktest(c, signals, bars, risk).Some?
    ensures var r := RunBacktest(c, signals, bars, risk).value;
      var b := RunBars(c, signals, bars[..k + 1], RiskOf(c, risk)).book;
      && |r.curve| == |bars|
      && exists p: Point :: PointOf(p, c.initialCapital, b, bars[k])
           && (k < |bars| - 1 || b.open == [] ==> r.curve[k] == p)
           && r.curve[k] == p.(equity := r.curve[k].equity, cash := r.curve[k].cash)
  {
    var amount, bar := RiskOf(c, risk), bars[|bars| - 1];
    ResultIsFinish(c, signals, bars, risk);
    CurveKept(c, signals, bars, k, amount);
    PointMeans(c, signals, bars[..k + 1], bars[k], amount);
    assert k == |bars| - 1 ==> bars[..k + 1] == bars;
    hide RunBars, RunBacktest, Finish, MakePoint, PointOf, RiskOf;
    FinishKeepsPoints(c, RunBars(c, signals, bars, amount), bar, k);
  }

  /** The last point has the equity and the cash of the end: the capital and all net profits, less what was charged
      on the way. */
  lemma LastPointMeans(c: Config, signals: seq<TestSignal>, bars: seq<Bar>, risk: Option<real>)
    requires |bars| > 0
    ensures var r := RunBacktest(c, signals, bars, risk).value;
      && |r.curve| == |bars|
      && var last := r.curve[|bars| - 1];
         last.equity == last.cash
         && last.cash == Quantize(c.initialCapital + Sum(r.trades, NetOf) - Sum(r.trades, Charged), 0.01)
  {
    FinalEquity(c, signals, bars, risk);
    hide RunBacktest, Sum, Quantize;
  }

  /** Without costs, entering a trade at the close of a bar leaves the equity of its point as it was. */
  lemma EntryKeepsEquity(c: Config, b: Book, pending: Option<TestSignal>, bar: Bar, risk: real)
    requires c.entryOnNextOpen && c.slippageRate == 0.0 && !c.volumeModel && c.feeRate == 0.0 && bar.open == bar.close
    ensures MakePoint(EnterPending(c, b, pending, bar, risk), bar).equity == MakePoint(b, bar).equity
  {
    if pending.Some? && |b.open| < c.maxOpen {
      var t := EnterTrade(c, pending.value, bar, risk);
      assert t.entry == bar.close;
      assert Unrealized(bar.close)(t) == 0.0;
      assert Fee(t.quantity, t.entry, 0.0) == 0.0 && Multiple(0, MONEY) == 0.0;
      QuantizeExact(0, MONEY);
      assert t.entryFee == 0.0;
      hide EnterTrade, Sum, Quantize, Unrealized;
      SumAppend(b.open, t, MarginOf);
      SumAppend(b.open, t, Unrealized(bar.close));
    }
  }

  // ---------- One bar ----------

  /** Main result on funding: on a marked bar every open trade is charged at the close, and cash falls by all of it; on
      any other bar nothing is charged. */
  lemma AccrualMeans(c: Config, b: Book, bar: Bar)
    ensures var n := AccrueAll(c, b, bar);
      && n.closed == b.closed && |n.open| == |b.open|
      && (forall k :: 0 <= k < |b.open| ==>
            n.open[k] == b.open[k].(funding := b.open[k].funding
              + if FundingHour(bar) then FundingAt(c, b.open[k], bar.close, bar.fundingRate) else 0.0))
      && n.cash + Sum(n.open, Charged) == b.cash + Sum(b.open, Charged)
  {
    AccrueSums(c, b.cash, b.open, bar);
    forall k | 0 <= k < |b.open|
      ensures FundingCharge(c, b.open[k].signal.long, b.open[k].quantity, bar.close, bar.fundingRate)
           == FundingAt(c, b.open[k], bar.close, bar.fundingRate)
    {
      FundingMeans(c, b.open[k], bar, bar.close);
    }
    hide FundingCharge, FundingAt, Sum, CashAfterFunding;
  }

  /** Main result on entering: a waiting signal is entered where there is room, for its margin and its fee; else nothing
      changes. */
  lemma EnteringMeans(c: Config, b: Book, pending: Option<TestSignal>, bar: Bar, risk: real)
    ensures var n := EnterPending(c, b, pending, bar, risk);
      && n.closed == b.closed
      && (pending.None? || c.maxOpen <= |b.open| ==> n == b)
      && (pending.Some? && |b.open| < c.maxOpen ==>
            var t := EnterTrade(c, pending.value, bar, risk);
            n.open == b.open + [t] && n.cash == b.cash - t.margin - t.entryFee)
  {
    hide EnterTrade;
  }

  /** The bar reached the stop of a trade, or its target. */
  ghost predicate Reached(t: Trade, bar: Bar) {
    StopReached(t, bar) || TargetReached(t, bar)
  }

  /** A trade leaves at the one that was reached; of both, at the one nearer to the open, at the target on a tie. */
  ghost function Leaves(c: Config, t: Trade, bar: Bar): Trade {
    var stop := t.signal.stop;
    if TargetReached(t, bar)
       && (StopReached(t, bar) ==> Abs(bar.open - t.signal.takeProfit.value) <= Abs(bar.open - stop))
    then CloseTrade(c, t, bar, t.signal.takeProfit.value, TakeProfit)
    else CloseTrade(c, t, bar, stop, StopLoss)
  }

  ghost function Staying(ts: seq<Trade>, bar: Bar): seq<Trade> {
    if |ts| == 0 then []
    else Staying(ts[..|ts| - 1], bar) + if Reached(ts[|ts| - 1], bar) then [] else [ts[|ts| - 1]]
  }

  ghost function Leaving(c: Config, ts: seq<Trade>, bar: Bar): seq<Trade> {
    if |ts| == 0 then []
    else Leaving(c, ts[..|ts| - 1], bar) + if Reached(ts[|ts| - 1], bar) then [Leaves(c, ts[|ts| - 1], bar)] else []
  }

  lemma LeaveMeans(c: Config, t: Trade, bar: Bar)
    ensures CheckExit(c, t, bar) == if Reached(t, bar) then Some(Leaves(c, t, bar)) else None
  {
    hide CloseTrade;
  }

  /** Main result on leaving: the trades whose stop or target the bar reached leave, each at its level and in order, and
      give back their margin and their net profit; the others stay, in order. */
  lemma {:induction false} LeavingMeans(c: Config, cash: real, ts: seq<Trade>, closed: seq<Trade>, bar: Bar)
    ensures var b, left := ExitAll(c, cash, ts, closed, bar), Leaving(c, ts, bar);
      && b.open == Staying(ts, bar) && b.closed == closed + left
      && b.cash == cash + Sum(left, MarginOf) + Sum(left, NetOf)
  {
    if |ts| > 0 {
      var t, rest := ts[|ts| - 1], ts[..|ts| - 1];
      LeavingMeans(c, cash, rest, closed, bar);
      LeaveMeans(c, t, bar);
      LeftKeepsMargin(c, t, bar);
      LeavingNext(c, ts, bar);
      hide CheckExit, Leaves, Reached, Staying, Leaving, Sum, MarginOf;
      if Reached(t, bar) {
        SumAppend(Leaving(c, rest, bar), Leaves(c, t, bar), MarginOf);
        SumAppend(Leaving(c, rest, bar), Leaves(c, t, bar), NetOf);
      }
    }
  }

  lemma LeavingNext(c: Config, ts: seq<Trade>, bar: Bar)
    requires |ts| > 0
    ensures var t, rest := ts[|ts| - 1], ts[..|ts| - 1];
      && Staying(ts, bar) == (if Reached(t, bar) then Staying(rest, bar) else Staying(rest, bar) + [t])
      && Leaving(c, ts, bar)
         == if Reached(t, bar) then Leaving(c, rest, bar) + [Leaves(c, t, bar)] else Leaving(c, rest, bar)
  {
    hide Reached, Leaves;
  }

  lemma LeftKeepsMargin(c: Config, t: Trade, bar: Bar)
    ensures MarginOf(Leaves(c, t, bar)) == t.margin && Leaves(c, t, bar).exit.Some?
  {
    CloseKeepsCharges(c, t, bar, t.signal.stop, StopLoss);
    if TargetReached(t, bar) {
      CloseKeepsCharges(c, t, bar, t.signal.takeProfit.value, TakeProfit);
    }
    hide CloseTrade;
  }

  /** The first signal stamped with an instant, if there is one. */
  ghost predicate FirstAt(signal: Option<TestSignal>, signals: seq<TestSignal>, instant: int) {
    if signal.None? then forall k :: 0 <= k < |signals| ==> signals[k].timestamp != instant
    else
      exists k :: 0 <= k < |signals| && signals[k] == signal.value && signals[k].timestamp == instant
                  && forall j :: 0 <= j < k ==> signals[j].timestamp != instant
  }

  lemma {:induction false} FirstMeans(signals: seq<TestSignal>, instant: int)
    ensures var at := SignalsAt(signals, instant);
      FirstAt(if at == [] then None else Some(at[0]), signals, instant)
  {
    if |signals| > 0 {
      var rest := signals[..|signals| - 1];
      FirstMeans(rest, instant);
      var at := SignalsAt(rest, instant);
      if at != [] {
        var k :| 0 <= k < |rest| && rest[k] == at[0] && rest[k].timestamp == instant
                 && forall j :: 0 <= j < k ==> rest[j].timestamp != instant;
        assert signals[k] == rest[k] && forall j :: 0 <= j < k ==> signals[j] == rest[j];
      } else {
        assert forall j :: 0 <= j < |rest| ==> signals[j] == rest[j] && rest[j].timestamp != instant;
      }
    }
  }

  /** Main result on bars: a run plays its bars in order.  On each the signal that waited is entered, what is open is
      charged, what was reached leaves, and the first signal of the bar waits for the next one if there is room; the
      equity is the capital, what was earned and the moves at the close. */
  lemma BarMeans(c: Config, signals: seq<TestSignal>, bars: seq<Bar>, bar: Bar, risk: real)
    ensures var s, n := RunBars(c, signals, bars, risk), RunBars(c, signals, bars + [bar], risk);
      var charged := AccrueAll(c, EnterPending(c, s.book, s.pending, bar, risk), bar);
      && n.book == ExitAll(c, charged.cash, charged.open, charged.closed, bar)
      && n.equity == c.initialCapital + Earned(n.book) + Moves(n.book.open, bar.close)
      && (exists first :: FirstAt(first, signals, bar.timestamp)
                          && n.pending == if |n.book.open| < c.maxOpen then first else None)
    ensures RunBars(c, signals, [], risk).book == Book(c.initialCapital, [], [])
    ensures RunBars(c, signals, [], risk).equity == c.initialCapital && RunBars(c, signals, [], risk).pending.None?
  {
    assert (bars + [bar])[..|bars|] == bars;
    var n := RunBars(c, signals, bars + [bar], risk);
    LedgerIdentity(c, signals, bars + [bar], risk);
    MovesMean(n.book.open, bar.close);
    FirstMeans(signals, bar.timestamp);
    var at := SignalsAt(signals, bar.timestamp);
    assert FirstAt(if at == [] then None else Some(at[0]), signals, bar.timestamp);
    hide FirstAt, SignalsAt, EnterPending, AccrueAll, ExitAll, Sum, Moves, Unrealized, MakePoint;
  }

  /** What is still open at the end leaves at the last close, in order, because time is up. */
  lemma {:induction false} EndMeans(c: Config, cash: real, ts: seq<Trade>, closed: seq<Trade>, bar: Bar)
    ensures var b := ForceAll(c, cash, ts, closed, bar);
      && |b.closed| == |closed| + |ts| && b.closed[..|closed|] == closed && b.open == []
      && forall k :: 0 <= k < |ts| ==> b.closed[|closed| + k] == CloseTrade(c, ts[k], bar, bar.close, Timeout)
  {
    hide CloseTrade;
    if |ts| > 0 {
      EndMeans(c, cash, ts[..|ts| - 1], closed, bar);
    }
  }
}
