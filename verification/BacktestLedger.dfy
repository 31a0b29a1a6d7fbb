/** The ledger of a backtest, and what a trade can know when it is entered. */
module BacktestLedger {
  import opened Common
  import opened Decimals
  import opened RiskSizing
  import opened BacktestModel

  // ---------- The cash identity ----------

  /** What was taken from cash for a trade while it was open. */
  function Charged(t: Trade): real {
    t.entryFee + t.funding
  }

  function NetOf(t: Trade): real {
    if t.exit.Some? then t.exit.value.net else 0.0
  }

  /** What a closed trade brought to cash, all told. */
  function Settled(t: Trade): real {
    NetOf(t) - Charged(t)
  }

  /** Cash and open margins, with the charges of open trades put back and the outcome of closed ones taken out. */
  function Worth(b: Book): real {
    b.cash + Sum(b.open, MarginOf) + Sum(b.open, Charged) - Sum(b.closed, Settled)
  }

  lemma SumAppend(ts: seq<Trade>, t: Trade, f: Trade -> real)
    ensures Sum(ts + [t], f) == Sum(ts, f) + f(t)
  {
    assert (ts + [t])[..|ts|] == ts;
  }

  lemma SumEmpty(ts: seq<Trade>, f: Trade -> real)
    requires ts == []
    ensures Sum(ts, f) == 0.0
  {
  }

  lemma EnterKeepsWorth(c: Config, b: Book, pending: Option<TestSignal>, bar: Bar, risk: real)
    ensures Worth(EnterPending(c, b, pending, bar, risk)) == Worth(b)
  {
    if pending.Some? && |b.open| < c.maxOpen {
      var t := EnterTrade(c, pending.value, bar, risk);
      assert t.funding == 0.0;
      hide EnterTrade, Sum;
      SumAppend(b.open, t, MarginOf);
      SumAppend(b.open, t, Charged);
    }
  }

  lemma {:induction false} AccrueSums(c: Config, cash: real, ts: seq<Trade>, bar: Bar)
    ensures CashAfterFunding(c, cash, ts, bar) + Sum(AccruedAll(c, ts, bar), Charged) == cash + Sum(ts, Charged)
    ensures Sum(AccruedAll(c, ts, bar), MarginOf) == Sum(ts, MarginOf)
  {
    hide FundingCharge;
    if |ts| > 0 {
      AccrueSums(c, cash, ts[..|ts| - 1], bar);
      assert AccruedAll(c, ts, bar)[..|ts| - 1] == AccruedAll(c, ts[..|ts| - 1], bar);
    }
  }

  lemma AccrueKeepsWorth(c: Config, b: Book, bar: Bar)
    ensures Worth(AccrueAll(c, b, bar)) == Worth(b)
  {
    AccrueSums(c, b.cash, b.open, bar);
    hide Sum, CashAfterFunding, AccruedAll, IsFundingBar;
  }

  lemma CloseKeepsCharges(c: Config, t: Trade, bar: Bar, at: real, reason: ExitReason)
    ensures var x := CloseTrade(c, t, bar, at, reason);
      x.exit.Some? && x == t.(exit := x.exit) && x.exit.value.time == bar.timestamp
      && Charged(x) == Charged(t) && MarginOf(x) == MarginOf(t) && Settled(x) == x.exit.value.net - Charged(t)
  {
    hide SlippedPrice, CalculateFee, FundingCharge, SlippageCost, GrossPnl, NetPnl, Quantize, IsFundingBar;
  }

  lemma CheckExitShape(c: Config, t: Trade, bar: Bar)
    ensures var x := CheckExit(c, t, bar);
      x.Some? ==>
        && x.value.exit.Some? && x.value == t.(exit := x.value.exit) && x.value.exit.value.time == bar.timestamp
        && Settled(x.value) == x.value.exit.value.net - Charged(t)
  {
    hide CloseTrade;
    var found := FindExit(t, bar);
    if found.Some? {
      CloseKeepsCharges(c, t, bar, found.value.0, found.value.1);
    }
  }

  lemma {:induction false} ExitKeepsWorth(c: Config, cash: real, ts: seq<Trade>, closed: seq<Trade>, bar: Bar)
    ensures Worth(ExitAll(c, cash, ts, closed, bar)) == Worth(Book(cash, ts, closed))
  {
    hide CheckExit, Charged, Settled;
    if |ts| > 0 {
      var rest, t := ts[..|ts| - 1], ts[|ts| - 1];
      var b := ExitAll(c, cash, rest, closed, bar);
      ExitKeepsWorth(c, cash, rest, closed, bar);
      CheckExitShape(c, t, bar);
      SumAppend(b.open, t, MarginOf);
      SumAppend(b.open, t, Charged);
      if CheckExit(c, t, bar).Some? {
        SumAppend(b.closed, CheckExit(c, t, bar).value, Settled);
      }
    }
  }

  lemma {:induction false} ForceKeepsWorth(c: Config, cash: real, ts: seq<Trade>, closed: seq<Trade>, bar: Bar)
    ensures Worth(ForceAll(c, cash, ts, closed, bar)) == Worth(Book(cash, ts, closed))
    ensures ForceAll(c, cash, ts, closed, bar).open == []
  {
    hide CloseTrade, Charged, Settled;
    if |ts| > 0 {
      var rest, t := ts[..|ts| - 1], ts[|ts| - 1];
      var b := ForceAll(c, cash, rest, closed, bar);
      ForceKeepsWorth(c, cash, rest, closed, bar);
      CloseKeepsCharges(c, t, bar, bar.close, Timeout);
      SumAppend(b.closed, ForceExit(c, t, bar), Settled);
    }
  }

  lemma StepKeepsWorth(c: Config, s: State, bar: Bar, risk: real)
    ensures Worth(BookAfter(c, s, bar, risk)) == Worth(s.book)
  {
    hide Worth, EnterPending, AccrueAll, ExitAll;
    var entered := EnterPending(c, s.book, s.pending, bar, risk);
    var charged := AccrueAll(c, entered, bar);
    EnterKeepsWorth(c, s.book, s.pending, bar, risk);
    AccrueKeepsWorth(c, entered, bar);
    ExitKeepsWorth(c, charged.cash, charged.open, charged.closed, bar);
  }

  /** Main result on cash: at the end of every bar, cash and open margins are the capital, plus the net profits of
      the closed trades, less every entry fee and every funding charge made on the way. */
  lemma {:induction false} LedgerIdentity(c: Config, signals: seq<TestSignal>, bars: seq<Bar>, risk: real)
    ensures var b := RunBars(c, signals, bars, risk).book;
      b.cash + Sum(b.open, MarginOf)
      == c.initialCapital + Sum(b.closed, NetOf) - Sum(b.closed, Charged) - Sum(b.open, Charged)
  {
    WorthIsCapital(c, signals, bars, risk);
    SettledSplits(RunBars(c, signals, bars, risk).book.closed);
    hide RunBars, Sum;
  }

  lemma {:induction false} WorthIsCapital(c: Config, signals: seq<TestSignal>, bars: seq<Bar>, risk: real)
    ensures Worth(RunBars(c, signals, bars, risk).book) == c.initialCapital
  {
    hide BookAfter, SignalsAt, NextPending, MakePoint, Equity;
    if |bars| > 0 {
      WorthIsCapital(c, signals, bars[..|bars| - 1], risk);
      StepKeepsWorth(c, RunBars(c, signals, bars[..|bars| - 1], risk), bars[|bars| - 1], risk);
    }
  }

  lemma {:induction false} SettledSplits(ts: seq<Trade>)
    ensures Sum(ts, Settled) == Sum(ts, NetOf) - Sum(ts, Charged)
  {
    if |ts| > 0 {
      SettledSplits(ts[..|ts| - 1]);
    }
  }

  /** The last point is made from the last book. */
  lemma LastPoint(c: Config, signals: seq<TestSignal>, bars: seq<Bar>, risk: real)
    requires |bars| > 0
    ensures var s := RunBars(c, signals, bars, risk);
      |s.curve| == |bars| && s.curve[|bars| - 1] == MakePoint(s.book, bars[|bars| - 1])
  {
    hide BookAfter, SignalsAt, NextPending, MakePoint, Equity;
    CurveLength(c, signals, bars, risk);
    CurveLength(c, signals, bars[..|bars| - 1], risk);
  }

  lemma FlatEquity(b: Book, price: real)
    requires b.open == []
    ensures Equity(b, price) == b.cash
    ensures Worth(b) == b.cash - Sum(b.closed, Settled)
  {
    SumEmpty(b.open, MarginOf);
    SumEmpty(b.open, Unrealized(price));
    SumEmpty(b.open, Charged);
  }

  /** Main result on the final figure: the last equity is, to the cent, the capital plus the net profits of all
      trades less the entry fees and the funding charged while they were open. */
  lemma FinalEquity(c: Config, signals: seq<TestSignal>, bars: seq<Bar>, risk: Option<real>)
    requires |bars| > 0
    ensures var r := RunBacktest(c, signals, bars, risk);
      && r.Some? && |r.value.curve| == |bars|
      && r.value.cash == c.initialCapital + Sum(r.value.trades, NetOf) - Sum(r.value.trades, Charged)
      && r.value.curve[|bars| - 1].equity == Quantize(r.value.cash, CENT)
      && r.value.curve[|bars| - 1].cash == Quantize(r.value.cash, CENT)
  {
    hide RunBars, Sum, Quantize, Equity, ForceAll, Worth, NetOf, Charged, Settled, Unrealized;
    var amount, bar := RiskPerTrade(c, risk), bars[|bars| - 1];
    var s := RunBars(c, signals, bars, amount);
    WorthIsCapital(c, signals, bars, amount);
    LastPoint(c, signals, bars, amount);
    var r := Finish(c, s, bar);
    SettledSplits(r.trades);
    if s.book.open == [] {
      FlatEquity(s.book, bar.close);
    } else {
      ForceKeepsWorth(c, s.book.cash, s.book.open, s.book.closed, bar);
      FlatEquity(ForceAll(c, s.book.cash, s.book.open, s.book.closed, bar), 0.0);
    }
  }

  /** A net profit already has the entry fee and the funding of the trade taken out of it. */
  lemma NetHasCharges(c: Config, t: Trade, bar: Bar, at: real, reason: ExitReason)
    ensures var x := CloseTrade(c, t, bar, at, reason).exit.value;
      var price := SlippedPrice(c, !t.signal.long, at, t.quantity, bar.volume);
      Abs(x.net + t.entryFee + x.fee + Abs(t.funding + x.funding) + t.entrySlippage + x.slippage
          - GrossPnl(t.signal.long, t.quantity, t.entry, price)) <= 0.005
  {
    var price := SlippedPrice(c, !t.signal.long, at, t.quantity, bar.volume);
    var gross := GrossPnl(t.signal.long, t.quantity, t.entry, price);
    var x := CloseTrade(c, t, bar, at, reason).exit.value;
    hide SlippedPrice, CalculateFee, FundingCharge, SlippageCost, GrossPnl, IsFundingBar;
    assert x.net == Quantize(NetPnl(t, gross, x.fee, x.funding, x.slippage), CENT);
    QuantizeError(NetPnl(t, gross, x.fee, x.funding, x.slippage), CENT);
    hide Quantize;
  }

  /** So the run takes those charges twice: its cash is the capital plus the net profits exactly when the charges
      of all trades cancel. */
  lemma ChargesCountTwice(c: Config, signals: seq<TestSignal>, bars: seq<Bar>, risk: Option<real>)
    requires |bars| > 0
    ensures var r := RunBacktest(c, signals, bars, risk).value;
      r.cash == c.initialCapital + Sum(r.trades, NetOf) <==> Sum(r.trades, Charged) == 0.0
  {
    FinalEquity(c, signals, bars, risk);
    hide RunBacktest, Sum;
  }

  // ---------- Funding in the net profit ----------

  /** What leaving a bar charges for funding.  A trade that leaves on a marked bar has just been charged for that bar,
      and is charged for it again at its exit price; on any other bar it is charged nothing. */
  lemma LeavingIsChargedAgain(c: Config, t: Trade, bar: Bar)
    ensures var u := if IsFundingBar(bar) then Accrued(c, t, bar) else t;
      var left := CheckExit(c, u, bar);
      left.Some? ==>
        var x := left.value.exit.value;
        var atClose := FundingCharge(c, t.signal.long, t.quantity, bar.close, bar.fundingRate);
        var atExit := FundingCharge(c, t.signal.long, t.quantity, x.price, bar.fundingRate);
        left.value.funding + x.funding == t.funding + if IsFundingBar(bar) then atClose + atExit else 0.0
  {
    hide FundingCharge, IsFundingBar, SlippedPrice, CalculateFee, SlippageCost, GrossPnl, NetPnl, Quantize, FindExit;
  }

  /** The net profit counts the size of the funding, not its sign: it is what it should be exactly when the trade
      received no funding on balance, and a balance received lowers it by that much instead of raising it. */
  lemma CreditCountsAsCost(t: Trade, gross: real, exitFee: real, exitFunding: real, exitSlippage: real)
    ensures var funding := t.funding + exitFunding;
      var meant := gross - t.entryFee - exitFee - funding - t.entrySlippage - exitSlippage;
      var net := NetPnl(t, gross, exitFee, exitFunding, exitSlippage);
      && (net == meant <==> 0.0 <= funding)
      && (funding < 0.0 ==> net == meant + 2.0 * funding)
  {
  }
}
