/** Paper accounts in concrete runs: how an account is locked out, and how little a leverage or a second stop is
    checked. */
module PaperRuns {
  import opened Common
  import opened Decimals
  import opened RiskSizing
  import opened PaperModel
  import opened PaperInvariant
  import opened PaperGate
  import opened PaperReach
  import opened PaperStops

  // ---------- A run into the lockout ----------

  /** The defaults of a paper account, on the middle plan. */
  const DEFAULTS := Settings(Pro, false, 0.02, 10, 5, 0.03, 0.1, None, None, 0.0004, true)

  const ENTRY := Signal(Long, "BTC", "BTCUSDT", 0.9, 1000.0, Some(1032.0), Some(984.0), 10)

  const LOCKING: seq<Event> :=
    [Submit(ENTRY, 0), PartialCall(0, 999.0, 0.1, 0), PartialCall(0, 999.0, 0.1, 0), CloseCall(0, 999.0, 0)]

  function Bought(): Position {
    Position(0, "BTC", Long, 1000.0, 12.5, 12.5, 10, 1032.0, 984.0, 1250.0, 200.0, Open, 0.0, 1000.0, 0)
  }

  lemma EntrySize()
    ensures CalculatePositionSize(10000.0, 0.02, 1000.0, 984.0, 10, "BTCUSDT") == Some(Sizing(12.5, 1250.0, 200.0, 10))
  {
    assert Multiple(12500, 0.001) == 12.5 && Multiple(125000, 0.01) == 1250.0 && Multiple(20000, 0.01) == 200.0;
    FloorToStepExact(12500, 0.001);
    QuantizeExact(125000, 0.01);
    QuantizeExact(20000, 0.01);
  }

  lemma EntryIsApproved(a: Account)
    requires a == InitialAccount(10000.0)
    ensures Validate(a, DEFAULTS, ENTRY, 0).verdict == Approved(12.5, 10, 1250.0, 200.0, NoAction)
  {
    EntrySize();
    RiskRewardMeans(ENTRY);
    hide RiskRewardOk, CalculatePositionSize;
    assert Available(a) == 10000.0;
    assert CheckGate(a, DEFAULTS, ENTRY, 0).Pass?;
  }

  lemma EntryIsBooked()
    ensures var b := Step(InitialAccount(10000.0), DEFAULTS, LOCKING[0]);
      b.positions == [Bought()] && b.history == []
  {
    EntryIsApproved(InitialAccount(10000.0));
    hide Validate;
  }

  /** A close that loses at least a cent adds a loss to the end of the history. */
  lemma LossIsRecorded(p: Position, price: real, quantity: real, fee: real, reason: Reason, rate: real, now: int)
    requires NetPnl(p.direction, p.entry, price, quantity, rate) <= -0.01
    ensures MakeRecord(p, price, quantity, fee, reason, rate, now).net < 0.0
  {
    assert Multiple(-1, 0.01) == -0.01;
    QuantizeExact(-1, 0.01);
    QuantizeMonotone(NetPnl(p.direction, p.entry, price, quantity, rate), -0.01, 0.01);
  }

  /** Selling below the entry loses. */
  lemma SaleLoses(quantity: real)
    requires 1.0 <= quantity
    ensures NetPnl(Long, 1000.0, 999.0, quantity, 0.0004) <= -0.01
  {
  }

  lemma PartsSold()
    ensures PartialQuantity(12.5, 0.1) == 1.2 && PartialQuantity(11.3, 0.1) == 1.1
  {
    assert NormalQuantum(125) == 0.001 && NormalQuantum(1250) == 0.01 && NormalQuantum(12500) == 0.1;
    assert NormalQuantum(113) == 0.001 && NormalQuantum(1130) == 0.01 && NormalQuantum(11300) == 0.1;
    assert Portion(12.5, 0.1) == 1.25 && Portion(11.3, 0.1) == 1.13;
    assert (12.5 * 1000.0).Floor == 12500 && (11.3 * 1000.0).Floor == 11300;
    assert 1.25 / 0.1 == 12.5 && 1.13 / 0.1 == 11.3;
    assert Truncate(12.5) == 12 && Truncate(11.3) == 11;
  }

  lemma PartSaleCounts(a: Account, quantity: real)
    requires |a.positions| == 1 && 1.0 <= quantity
    requires var p := a.positions[0];
      && p.id == 0 && p.direction.Long? && p.entry == 1000.0 && PartialQuantity(p.quantity, 0.1) == quantity
    ensures var b := Step(a, DEFAULTS, PartialCall(0, 999.0, 0.1, 0));
      && |b.positions| == 1
      && b.positions[0] == Reduced(a.positions[0], quantity, 0.1, 999.0, 0.0004)
      && TrailingLosses(b.history) == TrailingLosses(a.history) + 1
  {
    var p := a.positions[0];
    assert FindId(a.positions, 0) == Some(0);
    SaleLoses(quantity);
    LossIsRecorded(p, 999.0, quantity, Fee(quantity, p.entry, 0.0004), Partial, 0.0004, 0);
    hide NetPnl, MakeRecord, Fee, PartialQuantity, Reduced;
  }

  lemma LastSaleCounts(a: Account)
    requires |a.positions| == 1
    requires var p := a.positions[0];
      && p.id == 0 && p.direction.Long? && p.entry == 1000.0 && 1.0 <= p.quantity
    ensures var b := Step(a, DEFAULTS, CloseCall(0, 999.0, 0));
      b.positions == [] && TrailingLosses(b.history) == TrailingLosses(a.history) + 1
  {
    var p := a.positions[0];
    assert FindId(a.positions, 0) == Some(0);
    SaleLoses(p.quantity);
    LossIsRecorded(p, 999.0, p.quantity, EntryFeeShare(p, 0.0004), Manual, 0.0004, 0);
    hide NetPnl, MakeRecord, EntryFeeShare;
  }

  /** The lockout is reached within four calls from a fresh default account: one entry, sold in three parts at a small
      loss.  From there on no signal is ever accepted. */
  lemma LockoutIsReached()
    ensures var a := Run(InitialAccount(10000.0), DEFAULTS, LOCKING);
      && LockedOut(a)
      && forall events, sig, now :: !SubmitSignal(Run(a, DEFAULTS, events), DEFAULTS, sig, now).accepted
  {
    var a0 := InitialAccount(10000.0);
    var a1 := Step(a0, DEFAULTS, LOCKING[0]);
    var a2 := Step(a1, DEFAULTS, LOCKING[1]);
    var a3 := Step(a2, DEFAULTS, LOCKING[2]);
    var a4 := Step(a3, DEFAULTS, LOCKING[3]);
    EntryIsBooked();
    PartsSold();
    PartSaleCounts(a1, 1.2);
    PartSaleCounts(a2, 1.1);
    LastSaleCounts(a3);
    hide Step, NetPnl, PartialQuantity, SubmitSignal;
    assert TrailingLosses(a1.history) == 0;
    FourCalls(a0);
    forall events, sig, now
      ensures !SubmitSignal(Run(a4, DEFAULTS, events), DEFAULTS, sig, now).accepted
    {
      LockedOutForever(a4, DEFAULTS, events);
    }
  }

  lemma FourCalls(a: Account)
    ensures Run(a, DEFAULTS, LOCKING)
      == Step(Step(Step(Step(a, DEFAULTS, LOCKING[0]), DEFAULTS, LOCKING[1]), DEFAULTS, LOCKING[2]), DEFAULTS,
              LOCKING[3])
  {
    hide Step;
    var b := Step(a, DEFAULTS, LOCKING[0]);
    var c := Step(b, DEFAULTS, LOCKING[1]);
    var d := Step(c, DEFAULTS, LOCKING[2]);
    assert LOCKING[1..][1..] == LOCKING[2..] && LOCKING[2..][1..] == LOCKING[3..];
    assert Run(a, DEFAULTS, LOCKING) == Run(b, DEFAULTS, LOCKING[1..]);
    assert Run(b, DEFAULTS, LOCKING[1..]) == Run(c, DEFAULTS, LOCKING[2..]);
    assert Run(c, DEFAULTS, LOCKING[2..]) == Run(d, DEFAULTS, LOCKING[3..]);
    assert Run(d, DEFAULTS, LOCKING[3..]) == Step(d, DEFAULTS, LOCKING[3]);
  }

  // ---------- A second stop ----------

  /** Two longs in one coin, each within every limit: the first with a wide stop, the second with a near one. */
  const WIDE := Signal(Long, "BTC", "BTCUSDT", 0.9, 1000.0, Some(1200.0), Some(900.0), 10)

  const NEAR := Signal(Long, "BTC", "BTCUSDT", 0.9, 1000.0, Some(1020.0), Some(990.0), 10)

  function Held(): Position {
    Position(0, "BTC", Long, 1000.0, 2.0, 2.0, 10, 1200.0, 900.0, 200.0, 200.0, Open, 0.0, 1000.0, 0)
  }

  lemma WideSize()
    ensures CalculatePositionSize(10000.0, 0.02, 1000.0, 900.0, 10, "BTCUSDT") == Some(Sizing(2.0, 200.0, 200.0, 10))
  {
    assert Multiple(2000, 0.001) == 2.0 && Multiple(20000, 0.01) == 200.0;
    FloorToStepExact(2000, 0.001);
    QuantizeExact(20000, 0.01);
  }

  lemma WideIsApproved(a: Account)
    requires a == InitialAccount(10000.0)
    ensures Validate(a, DEFAULTS, WIDE, 0).verdict == Approved(2.0, 10, 200.0, 200.0, NoAction)
  {
    WideSize();
    RiskRewardMeans(WIDE);
    hide RiskRewardOk, CalculatePositionSize;
    assert Available(a) == 10000.0;
    assert CheckGate(a, DEFAULTS, WIDE, 0).Pass?;
  }

  lemma WideIsBooked()
    ensures var b := Step(InitialAccount(10000.0), DEFAULTS, Submit(WIDE, 0));
      b == InitialAccount(10000.0).(balance := 9999.2, positions := [Held()], nextId := 1)
  {
    WideIsApproved(InitialAccount(10000.0));
    hide Validate;
  }

  /** The second entry is sized from what the first left free, 9799.20. */
  lemma NearSize()
    ensures CalculatePositionSize(9799.2, 0.02, 1000.0, 990.0, 10, "BTCUSDT")
         == Some(Sizing(19.598, 1959.8, 195.98, 10))
  {
    assert 9799.2 * 0.02 / 10.0 / 0.001 == 19598.4 && Truncate(19598.4) == 19598;
    assert SizedQuantity(9799.2, 0.02, 10.0, "BTCUSDT") == 19.598;
    assert Multiple(195980, 0.01) == 1959.8 && Multiple(19598, 0.01) == 195.98;
    QuantizeExact(195980, 0.01);
    QuantizeExact(19598, 0.01);
  }

  lemma NearIsApproved(a: Account)
    requires a == InitialAccount(10000.0).(balance := 9999.2, positions := [Held()], nextId := 1)
    ensures Validate(a, DEFAULTS, NEAR, 0).verdict == Approved(19.598, 10, 1959.8, 195.98, Dca)
  {
    NearSize();
    RiskRewardMeans(NEAR);
    assert Locked(a) == 200.0 && OpenRisk(a) == 200.0;
    hide RiskRewardOk, CalculatePositionSize, Locked, OpenRisk;
    assert Available(a) == 9799.2;
    assert FindCoin(a.positions, "BTC") == Some(0);
    assert CheckGate(a, DEFAULTS, NEAR, 0).Pass?;
  }

  /** The risk booked for a DCA can be far from the loss at the stop: two accepted signals on a fresh default account
      book a risk of 395.98, and would lose 2159.80 at the stop that the position keeps, more than a fifth of the
      balance and twice what the open risk may be. */
  lemma SecondStopIsIgnored()
    ensures var a := Step(InitialAccount(10000.0), DEFAULTS, Submit(WIDE, 0));
      var r := SubmitSignal(a, DEFAULTS, NEAR, 0);
      && SubmitSignal(InitialAccount(10000.0), DEFAULTS, WIDE, 0).accepted && r.accepted
      && OpenRisk(r.account) == 395.98
      && Sum(r.account.positions, LossAtStop) == 2159.8
      && 2.0 * RiskAmount(r.account.balance, 0.1) < 2159.8
  {
    var a0 := InitialAccount(10000.0);
    var a := Step(a0, DEFAULTS, Submit(WIDE, 0));
    WideIsApproved(a0);
    WideIsBooked();
    NearIsApproved(a);
    hide Validate;
    assert FindCoin(a.positions, "BTC") == Some(0);
    assert AverageEntry(2.0, 1000.0, 19.598, 1000.0) == 1000.0;
    var q := Enlarged(Held(), NEAR, Approved(19.598, 10, 1959.8, 195.98, Dca));
    assert SubmitSignal(a, DEFAULTS, NEAR, 0).account.positions == [q];
    assert LossAtStop(q) == 2159.8 && RiskOf(q) == 395.98;
  }

  // ---------- Leverages below one ----------

  /** A leverage that resolves to zero is refused in every account: sizing divides by it. */
  lemma ZeroLeverageIsRefused(a: Account, s: Settings, sig: Signal, now: int)
    requires Sound(a, s) && ResolveFinalLeverage(sig.leverage, s.maxLeverage, s.plan) == 0
    ensures !SubmitSignal(a, s, sig, now).accepted
  {
    SubmissionShape(a, s, sig, now);
    MarginNeedsLeverage(DecisionAccount(a, s, sig, now), s, sig, now);
    hide SubmitSignal, DecisionAccount, Validate, ResolveFinalLeverage;
  }

  lemma NegativeSize(leverage: int)
    requires leverage < 0
    ensures CalculatePositionSize(10000.0, 0.02, 1000.0, 984.0, leverage, "BTCUSDT")
         == Some(Sizing(12.5, Quantize(MarginFor(12.5, 1000.0, leverage), 0.01), 200.0, leverage))
    ensures Quantize(MarginFor(12.5, 1000.0, leverage), 0.01) <= 0.0
    ensures leverage == -1 ==> Quantize(MarginFor(12.5, 1000.0, leverage), 0.01) == -12500.0
  {
    assert Multiple(12500, 0.001) == 12.5 && Multiple(20000, 0.01) == 200.0 && Multiple(-1250000, 0.01) == -12500.0;
    FloorToStepExact(12500, 0.001);
    QuantizeExact(20000, 0.01);
    QuantizeExact(-1250000, 0.01);
    MarginSign(12.5, 1000.0, leverage);
    hide MarginFor, Quantize, FloorToStep;
    if leverage == -1 {
      MinusOne();
    }
  }

  lemma MinusOne()
    ensures MarginFor(12.5, 1000.0, -1) == -12500.0
  {
  }

  /** Any leverage below zero passes: the same entry is accepted on a fresh default account, and locks a margin that is
      not positive, -12500.00 at a leverage of -1. */
  lemma NegativeLeverageIsAccepted(leverage: int)
    requires leverage < 0
    ensures var r := SubmitSignal(InitialAccount(10000.0), DEFAULTS, ENTRY.(leverage := leverage), 0);
      && r.accepted && Locked(r.account) <= 0.0
      && (leverage == -1 ==> Locked(r.account) == -12500.0)
  {
    var a, sig := InitialAccount(10000.0), ENTRY.(leverage := leverage);
    NegativeSize(leverage);
    RiskRewardMeans(sig);
    var margin := Quantize(MarginFor(12.5, 1000.0, leverage), 0.01);
    hide RiskRewardOk, CalculatePositionSize, MarginFor, Quantize;
    assert Available(a) == 10000.0;
    assert CheckGate(a, DEFAULTS, sig, 0).Pass?;
    assert Validate(a, DEFAULTS, sig, 0).verdict == Approved(12.5, leverage, margin, 200.0, NoAction);
    hide Validate;
    var r := SubmitSignal(a, DEFAULTS, sig, 0);
    var ps := r.account.positions;
    assert |ps| == 1 && MarginOf(ps[0]) == margin && Sum(ps[1..], MarginOf) == 0.0;
    assert Locked(r.account) == margin;
  }
}
