/** A backtest never looks ahead, and it closes every trade it enters exactly once. */
module BacktestCausality {
  import opened Common
  import opened Decimals
  import opened RiskSizing
  import opened BacktestModel
  import opened BacktestLedger

  ghost predicate Increasing(bars: seq<Bar>) {
    forall i, j :: 0 <= i < j < |bars| ==> bars[i].timestamp < bars[j].timestamp
  }

  // ---------- No look-ahead ----------

  /** Of the signals, a run over some bars reads only those stamped with the times of the bars. */
  lemma {:induction false} StateDependsOnPast(c: Config, signals: seq<TestSignal>, other: seq<TestSignal>,
                                             bars: seq<Bar>, otherBars: seq<Bar>, k: nat, risk: real)
    requires k <= |bars| && k <= |otherBars| && bars[..k] == otherBars[..k]
    requires forall i :: 0 <= i < k ==> SignalsAt(signals, bars[i].timestamp) == SignalsAt(other, bars[i].timestamp)
    ensures RunBars(c, signals, bars[..k], risk) == RunBars(c, other, otherBars[..k], risk)
  {
    hide StepBar, SignalsAt;
    if 0 < k {
      assert bars[..k][..k - 1] == bars[..k - 1] && otherBars[..k][..k - 1] == otherBars[..k - 1];
      assert bars[..k][k - 1] == bars[k - 1];
      StateDependsOnPast(c, signals, other, bars, otherBars, k - 1, risk);
    }
  }

  // ---------- Times and the cap ----------

  predicate EnteredBefore(t: Trade, now: int) {
    t.signal.timestamp < t.entryTime <= now
  }

  /** What holds after the bar stamped `now`. */
  ghost predicate Timely(c: Config, s: State, now: int) {
    && (forall k :: 0 <= k < |s.book.open| ==> EnteredBefore(s.book.open[k], now) && s.book.open[k].exit.None?)
    && (forall k :: 0 <= k < |s.book.closed| ==>
          var t := s.book.closed[k];
          EnteredBefore(t, now) && t.exit.Some? && t.entryTime <= t.exit.value.time <= now)
    && (s.pending.Some? ==> s.pending.value.timestamp == now && |s.book.open| < c.maxOpen)
    && (|s.book.open| <= c.maxOpen || s.book.open == [])
  }

  ghost predicate TimelyBook(b: Book, now: int) {
    && (forall k :: 0 <= k < |b.open| ==> EnteredBefore(b.open[k], now) && b.open[k].exit.None?)
    && (forall k :: 0 <= k < |b.closed| ==>
          var t := b.closed[k];
          EnteredBefore(t, now) && t.exit.Some? && t.entryTime <= t.exit.value.time <= now)
  }

  lemma EnteredShape(c: Config, signal: TestSignal, bar: Bar, risk: real)
    ensures var t := EnterTrade(c, signal, bar, risk);
      t.signal == signal && t.entryTime == bar.timestamp && t.exit.None? && t.funding == 0.0
  {
    hide SlippedPrice, TestQuantity, StopDistance, Quantize, MarginFor, CalculateFee, SlippageCost;
  }

  lemma {:induction false} ExitTimely(c: Config, cash: real, ts: seq<Trade>, closed: seq<Trade>, bar: Bar)
    requires TimelyBook(Book(cash, ts, closed), bar.timestamp)
    ensures TimelyBook(ExitAll(c, cash, ts, closed, bar), bar.timestamp)
    ensures |ExitAll(c, cash, ts, closed, bar).open| <= |ts|
  {
    hide CheckExit, EnteredBefore, Settled, Charged;
    if |ts| > 0 {
      ExitTimely(c, cash, ts[..|ts| - 1], closed, bar);
      CheckExitShape(c, ts[|ts| - 1], bar);
      if CheckExit(c, ts[|ts| - 1], bar).Some? {
        SameEntry(ts[|ts| - 1], CheckExit(c, ts[|ts| - 1], bar).value, bar.timestamp);
      }
    }
  }

  lemma SameEntry(t: Trade, x: Trade, now: int)
    requires x.signal == t.signal && x.entryTime == t.entryTime
    ensures EnteredBefore(x, now) == EnteredBefore(t, now)
    ensures EnteredBefore(t, now) ==> t.entryTime <= now
  {
  }

  lemma AccrueTimely(c: Config, b: Book, bar: Bar)
    requires TimelyBook(b, bar.timestamp)
    ensures TimelyBook(AccrueAll(c, b, bar), bar.timestamp)
    ensures |AccrueAll(c, b, bar).open| == |b.open|
  {
    hide FundingCharge, IsFundingBar, CashAfterFunding;
  }

  lemma EnterTimely(c: Config, s: State, last: int, bar: Bar, risk: real)
    requires Timely(c, s, last) && last < bar.timestamp
    ensures TimelyBook(EnterPending(c, s.book, s.pending, bar, risk), bar.timestamp)
    ensures |EnterPending(c, s.book, s.pending, bar, risk).open| <= c.maxOpen
         || EnterPending(c, s.book, s.pending, bar, risk).open == []
  {
    hide EnterTrade;
    if s.pending.Some? {
      EnteredShape(c, s.pending.value, bar, risk);
    }
  }

  lemma {:induction false} SignalsAtTime(signals: seq<TestSignal>, timestamp: int)
    ensures forall k :: 0 <= k < |SignalsAt(signals, timestamp)| ==>
              SignalsAt(signals, timestamp)[k].timestamp == timestamp
  {
    if |signals| > 0 {
      SignalsAtTime(signals[..|signals| - 1], timestamp);
    }
  }

  lemma StepTimely(c: Config, s: State, last: int, signals: seq<TestSignal>, bar: Bar, risk: real)
    requires Timely(c, s, last) && last < bar.timestamp
    ensures Timely(c, StepBar(c, s, SignalsAt(signals, bar.timestamp), bar, risk), bar.timestamp)
  {
    hide EnterPending, AccrueAll, ExitAll, SignalsAt, Equity, MakePoint, EnteredBefore;
    var entered := EnterPending(c, s.book, s.pending, bar, risk);
    var charged := AccrueAll(c, entered, bar);
    EnterTimely(c, s, last, bar, risk);
    AccrueTimely(c, entered, bar);
    ExitTimely(c, charged.cash, charged.open, charged.closed, bar);
    SignalsAtTime(signals, bar.timestamp);
  }

  /** Main result on times: after any bar every trade was entered strictly after its signal and not later than now,
      a closed one left not before it was entered, no more trades are open than the cap allows, and a waiting
      signal is the current bar's and has room. */
  lemma {:induction false} RunTimely(c: Config, signals: seq<TestSignal>, bars: seq<Bar>, risk: real)
    requires Increasing(bars) && |bars| > 0
    ensures Timely(c, RunBars(c, signals, bars, risk), bars[|bars| - 1].timestamp)
  {
    hide StepBar, SignalsAt;
    var rest, last := bars[..|bars| - 1], bars[|bars| - 1];
    if |rest| == 0 {
      assert Timely(c, Initial(c), last.timestamp - 1);
      StepTimely(c, Initial(c), last.timestamp - 1, signals, last, risk);
    } else {
      RunTimely(c, signals, rest, risk);
      StepTimely(c, RunBars(c, signals, rest, risk), rest[|rest| - 1].timestamp, signals, last, risk);
    }
  }

  // ---------- Each trade is closed once ----------

  /** A trade as it was on entry. */
  function AsEntered(t: Trade): Trade {
    t.(funding := 0.0, exit := None)
  }

  ghost function Entries(ts: seq<Trade>): multiset<Trade> {
    if |ts| == 0 then multiset{} else Entries(ts[..|ts| - 1]) + multiset{AsEntered(ts[|ts| - 1])}
  }

  ghost function AllEntries(b: Book): multiset<Trade> {
    Entries(b.open) + Entries(b.closed)
  }

  /** The trades a run enters: one for each bar that finds a signal waiting. */
  ghost function EnteredTrades(c: Config, signals: seq<TestSignal>, bars: seq<Bar>, risk: real): multiset<Trade> {
    if |bars| == 0 then multiset{}
    else
      var rest, last := bars[..|bars| - 1], bars[|bars| - 1];
      var pending := RunBars(c, signals, rest, risk).pending;
      EnteredTrades(c, signals, rest, risk)
      + if pending.Some? then multiset{EnterTrade(c, pending.value, last, risk)} else multiset{}
  }

  lemma EntriesAppend(ts: seq<Trade>, t: Trade)
    ensures Entries(ts + [t]) == Entries(ts) + multiset{AsEntered(t)}
  {
    assert (ts + [t])[..|ts|] == ts;
  }

  lemma {:induction false} AccrueEntries(c: Config, ts: seq<Trade>, bar: Bar)
    ensures Entries(AccruedAll(c, ts, bar)) == Entries(ts)
  {
    hide FundingCharge;
    if |ts| > 0 {
      AccrueEntries(c, ts[..|ts| - 1], bar);
      assert AccruedAll(c, ts, bar)[..|ts| - 1] == AccruedAll(c, ts[..|ts| - 1], bar);
    }
  }

  /** Adding the same trades to either part of equal unions keeps them equal. */
  lemma Regroup(before: multiset<Trade>, closed: multiset<Trade>, kept: multiset<Trade>, left: multiset<Trade>,
                added: multiset<Trade>)
    requires kept + left == before + closed
    ensures (kept + added) + left == (before + added) + closed
    ensures kept + (left + added) == (before + added) + closed
  {
    assert (kept + added) + left == (kept + left) + added;
    assert kept + (left + added) == (kept + left) + added;
    assert (before + added) + closed == (before + closed) + added;
  }

  lemma {:induction false} ExitEntries(c: Config, cash: real, ts: seq<Trade>, closed: seq<Trade>, bar: Bar)
    ensures AllEntries(ExitAll(c, cash, ts, closed, bar)) == Entries(ts) + Entries(closed)
  {
    hide CheckExit, Settled, Charged;
    if |ts| > 0 {
      var rest, t := ts[..|ts| - 1], ts[|ts| - 1];
      var b := ExitAll(c, cash, rest, closed, bar);
      ExitEntries(c, cash, rest, closed, bar);
      CheckExitShape(c, t, bar);
      EntriesAppend(b.open, t);
      Regroup(Entries(rest), Entries(closed), Entries(b.open), Entries(b.closed), multiset{AsEntered(t)});
      if CheckExit(c, t, bar).Some? {
        assert AsEntered(CheckExit(c, t, bar).value) == AsEntered(t);
        EntriesAppend(b.closed, CheckExit(c, t, bar).value);
      }
    }
  }

  lemma {:induction false} ForceEntries(c: Config, cash: real, ts: seq<Trade>, closed: seq<Trade>, bar: Bar)
    ensures Entries(ForceAll(c, cash, ts, closed, bar).closed) == Entries(ts) + Entries(closed)
  {
    hide CloseTrade, Settled, Charged;
    if |ts| > 0 {
      var rest, t := ts[..|ts| - 1], ts[|ts| - 1];
      var b := ForceAll(c, cash, rest, closed, bar);
      ForceEntries(c, cash, rest, closed, bar);
      CloseKeepsCharges(c, t, bar, bar.close, Timeout);
      EntriesAppend(b.closed, ForceExit(c, t, bar));
      Regroup(Entries(rest), Entries(closed), multiset{}, Entries(b.closed), multiset{AsEntered(t)});
    }
  }

  lemma StepEntries(c: Config, s: State, bar: Bar, risk: real)
    requires s.pending.Some? ==> |s.book.open| < c.maxOpen
    ensures AllEntries(BookAfter(c, s, bar, risk)) == AllEntries(s.book)
      + if s.pending.Some? then multiset{EnterTrade(c, s.pending.value, bar, risk)} else multiset{}
  {
    hide EnterTrade, ExitAll, Entries, AccruedAll, CashAfterFunding, IsFundingBar;
    var entered := EnterPending(c, s.book, s.pending, bar, risk);
    var charged := AccrueAll(c, entered, bar);
    if s.pending.Some? {
      EnteredShape(c, s.pending.value, bar, risk);
      EntriesAppend(s.book.open, EnterTrade(c, s.pending.value, bar, risk));
    }
    AccrueEntries(c, entered.open, bar);
    ExitEntries(c, charged.cash, charged.open, charged.closed, bar);
  }

  /** A waiting signal always finds room, so it is entered at the next bar and never dropped. */
  lemma {:induction false} PendingHasRoom(c: Config, signals: seq<TestSignal>, bars: seq<Bar>, risk: real)
    ensures var s := RunBars(c, signals, bars, risk);
      s.pending.Some? ==> |s.book.open| < c.maxOpen
  {
    hide BookAfter, SignalsAt, Equity, MakePoint;
  }

  lemma {:induction false} RunEntries(c: Config, signals: seq<TestSignal>, bars: seq<Bar>, risk: real)
    ensures AllEntries(RunBars(c, signals, bars, risk).book) == EnteredTrades(c, signals, bars, risk)
  {
    hide BookAfter, SignalsAt, NextPending, Equity, MakePoint, EnterTrade;
    if |bars| > 0 {
      var rest, last := bars[..|bars| - 1], bars[|bars| - 1];
      RunEntries(c, signals, rest, risk);
      PendingHasRoom(c, signals, rest, risk);
      StepEntries(c, RunBars(c, signals, rest, risk), last, risk);
    }
  }

  /** Main result on trades: the trades of the result are the entered trades, each exactly once, and all closed. */
  lemma ClosedExactlyOnce(c: Config, signals: seq<TestSignal>, bars: seq<Bar>, risk: Option<real>)
    requires |bars| > 0 && Increasing(bars)
    ensures var r := RunBacktest(c, signals, bars, risk).value;
      && Entries(r.trades) == EnteredTrades(c, signals, bars, RiskPerTrade(c, risk))
      && (forall k :: 0 <= k < |r.trades| ==>
            r.trades[k].exit.Some? && r.trades[k].entryTime <= r.trades[k].exit.value.time)
  {
    var amount, bar := RiskPerTrade(c, risk), bars[|bars| - 1];
    hide RunBars, EnteredTrades, RiskPerTrade, Finish, Entries, Timely;
    CurveLength(c, signals, bars, amount);
    RunEntries(c, signals, bars, amount);
    RunTimely(c, signals, bars, amount);
    FinishEntries(c, RunBars(c, signals, bars, amount), bar);
    FinishClosed(c, RunBars(c, signals, bars, amount), bar);
  }

  lemma FinishEntries(c: Config, s: State, bar: Bar)
    requires |s.curve| > 0
    ensures Entries(Finish(c, s, bar).trades) == AllEntries(s.book)
  {
    hide ForceAll, Quantize;
    if s.book.open == [] {
      assert Entries(s.book.open) == multiset{};
    } else {
      hide Entries;
      ForceEntries(c, s.book.cash, s.book.open, s.book.closed, bar);
    }
  }

  lemma FinishClosed(c: Config, s: State, bar: Bar)
    requires |s.curve| > 0 && Timely(c, s, bar.timestamp)
    ensures var trades := Finish(c, s, bar).trades;
      forall k :: 0 <= k < |trades| ==> trades[k].exit.Some? && trades[k].entryTime <= trades[k].exit.value.time
  {
    hide ForceAll, EnteredBefore, Quantize;
    if s.book.open != [] {
      ForceTimely(c, s.book.cash, s.book.open, s.book.closed, bar);
    }
  }

  lemma {:induction false} ForceTimely(c: Config, cash: real, ts: seq<Trade>, closed: seq<Trade>, bar: Bar)
    requires TimelyBook(Book(cash, ts, closed), bar.timestamp)
    ensures TimelyBook(ForceAll(c, cash, ts, closed, bar), bar.timestamp)
  {
    hide CloseTrade, EnteredBefore, Settled, Charged;
    if |ts| > 0 {
      ForceTimely(c, cash, ts[..|ts| - 1], closed, bar);
      CloseKeepsCharges(c, ts[|ts| - 1], bar, bar.close, Timeout);
      SameEntry(ts[|ts| - 1], ForceExit(c, ts[|ts| - 1], bar), bar.timestamp);
    }
  }

  // ---------- Later bars change nothing that was ----------

  /** `after` is `before` with trades appended that left at `time` or later. */
  ghost predicate Grown(before: seq<Trade>, after: seq<Trade>, time: int) {
    && before <= after
    && forall j :: |before| <= j < |after| ==> after[j].exit.Some? && time <= after[j].exit.value.time
  }

  lemma {:induction false} ExitGrows(c: Config, cash: real, ts: seq<Trade>, closed: seq<Trade>, bar: Bar)
    ensures Grown(closed, ExitAll(c, cash, ts, closed, bar).closed, bar.timestamp)
  {
    hide CheckExit, Settled, Charged;
    if |ts| > 0 {
      ExitGrows(c, cash, ts[..|ts| - 1], closed, bar);
      CheckExitShape(c, ts[|ts| - 1], bar);
    }
  }

  lemma {:induction false} ForceGrows(c: Config, cash: real, ts: seq<Trade>, closed: seq<Trade>, bar: Bar)
    ensures Grown(closed, ForceAll(c, cash, ts, closed, bar).closed, bar.timestamp)
  {
    hide CloseTrade, Settled, Charged;
    if |ts| > 0 {
      ForceGrows(c, cash, ts[..|ts| - 1], closed, bar);
      CloseKeepsCharges(c, ts[|ts| - 1], bar, bar.close, Timeout);
    }
  }

  lemma StepGrows(c: Config, s: State, at: seq<TestSignal>, bar: Bar, risk: real)
    ensures var after := StepBar(c, s, at, bar, risk);
      s.curve <= after.curve && Grown(s.book.closed, after.book.closed, bar.timestamp)
  {
    hide EnterTrade, AccruedAll, CashAfterFunding, IsFundingBar, ExitAll, Equity, MakePoint, NextPending, Grown;
    var charged := AccrueAll(c, EnterPending(c, s.book, s.pending, bar, risk), bar);
    ExitGrows(c, charged.cash, charged.open, charged.closed, bar);
  }

  lemma GrownTwice(x: seq<Trade>, y: seq<Trade>, z: seq<Trade>, time: int, later: int)
    requires Grown(x, y, time) && Grown(y, z, later) && time <= later
    ensures Grown(x, z, time)
  {
    forall j | |x| <= j < |z|
      ensures z[j].exit.Some? && time <= z[j].exit.value.time
    {
      if j < |y| {
        assert z[j] == y[j];
      }
    }
  }

  /** A run over all bars begins with the run over the first of them. */
  lemma {:induction false} RunGrows(c: Config, signals: seq<TestSignal>, bars: seq<Bar>, k: nat, risk: real)
    requires k < |bars| && Increasing(bars)
    ensures var past, all := RunBars(c, signals, bars[..k], risk), RunBars(c, signals, bars, risk);
      past.curve <= all.curve && Grown(past.book.closed, all.book.closed, bars[k].timestamp)
  {
    hide StepBar, SignalsAt, Grown;
    var rest, last := bars[..|bars| - 1], bars[|bars| - 1];
    StepGrows(c, RunBars(c, signals, rest, risk), SignalsAt(signals, last.timestamp), last, risk);
    if k < |rest| {
      assert rest[..k] == bars[..k];
      RunGrows(c, signals, rest, k, risk);
      GrownTwice(RunBars(c, signals, bars[..k], risk).book.closed, RunBars(c, signals, rest, risk).book.closed,
                 RunBars(c, signals, bars, risk).book.closed, bars[k].timestamp, last.timestamp);
    } else {
      assert rest == bars[..k];
    }
  }

  lemma FinishGrows(c: Config, s: State, bar: Bar)
    requires |s.curve| > 0
    ensures var r := Finish(c, s, bar);
      |r.curve| == |s.curve| && r.curve[..|s.curve| - 1] == s.curve[..|s.curve| - 1]
      && Grown(s.book.closed, r.trades, bar.timestamp)
  {
    hide ForceAll, Quantize;
    ForceGrows(c, s.book.cash, s.book.open, s.book.closed, bar);
  }

  /** The result of a whole run begins with what had happened after `k` bars: the points of those bars, and the trades
      closed by then; every other trade leaves later. */
  lemma ResultGrows(c: Config, signals: seq<TestSignal>, bars: seq<Bar>, k: nat, risk: Option<real>)
    requires k < |bars| && Increasing(bars)
    ensures var r := RunBacktest(c, signals, bars, risk).value;
      var past := RunBars(c, signals, bars[..k], RiskPerTrade(c, risk));
      && |past.curve| == k && |r.curve| == |bars| && r.curve[..k] == past.curve
      && Grown(past.book.closed, r.trades, bars[k].timestamp)
  {
    var amount, bar := RiskPerTrade(c, risk), bars[|bars| - 1];
    hide RunBars, RiskPerTrade, Finish, Grown;
    var all, past := RunBars(c, signals, bars, amount), RunBars(c, signals, bars[..k], amount);
    CurveLength(c, signals, bars, amount);
    CurveLength(c, signals, bars[..k], amount);
    RunGrows(c, signals, bars, k, amount);
    FinishGrows(c, all, bar);
    GrownTwice(past.book.closed, all.book.closed, Finish(c, all, bar).trades, bars[k].timestamp, bar.timestamp);
    var r := Finish(c, all, bar);
    assert r.curve[..k] == r.curve[..|bars| - 1][..k] == all.curve[..|bars| - 1][..k] == all.curve[..k] == past.curve;
  }

  /** Main result on information: two whole runs whose inputs agree on the first `k` bars, and on the signals stamped
      with the times of those bars, report the same first `k` points and the same trades closed by then, whatever bars
      and signals come later; every further trade of either leaves after those bars. */
  lemma NoLookAhead(c: Config, signals: seq<TestSignal>, other: seq<TestSignal>, bars: seq<Bar>, otherBars: seq<Bar>,
                    k: nat, risk: Option<real>)
    requires k < |bars| && k < |otherBars| && bars[..k] == otherBars[..k]
    requires Increasing(bars) && Increasing(otherBars)
    requires forall i :: 0 <= i < k ==> SignalsAt(signals, bars[i].timestamp) == SignalsAt(other, bars[i].timestamp)
    ensures var r, q := RunBacktest(c, signals, bars, risk).value, RunBacktest(c, other, otherBars, risk).value;
      && k <= |r.curve| && k <= |q.curve| && r.curve[..k] == q.curve[..k]
      && exists n :: 0 <= n <= |r.trades| && n <= |q.trades| && r.trades[..n] == q.trades[..n]
                     && Grown(r.trades[..n], r.trades, bars[k].timestamp)
                     && Grown(q.trades[..n], q.trades, otherBars[k].timestamp)
  {
    var amount := RiskPerTrade(c, risk);
    var r, q := RunBacktest(c, signals, bars, risk).value, RunBacktest(c, other, otherBars, risk).value;
    hide RunBacktest, RunBars, RiskPerTrade;
    ResultGrows(c, signals, bars, k, risk);
    ResultGrows(c, other, otherBars, k, risk);
    StateDependsOnPast(c, signals, other, bars, otherBars, k, amount);
    var past := RunBars(c, signals, bars[..k], amount).book.closed;
    assert r.trades[..|past|] == past == q.trades[..|past|];
  }
}
