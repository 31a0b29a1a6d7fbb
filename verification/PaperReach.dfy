/** What every paper account keeps that a run can reach from a fresh one, and what an accepted signal books in it. */
module PaperReach {
  import opened Common
  import opened Decimals
  import opened RiskSizing
  import opened PaperModel
  import opened PaperInvariant
  import opened PaperGate
  import PaperExposure

  const LOT: real := 0.001

  /** The quantity of a position is a positive number of whole lots and, where leverages are sane, it locks no negative
      margin. */
  ghost predicate Backed(p: Position, sane: bool) {
    OnGrid(p.quantity, LOT) && LOT <= p.quantity && (sane ==> 0.0 <= p.margin)
  }

  ghost predicate AllBacked(ps: seq<Position>, sane: bool) {
    forall i :: 0 <= i < |ps| ==> Backed(ps[i], sane)
  }

  /** A signal asks for a leverage of at least 1, and the settings allow one. */
  predicate Leveraged(s: Settings, e: Event) {
    e.Submit? ==> 1 <= e.signal.leverage && 1 <= s.maxLeverage
  }

  ghost predicate AllLeveraged(s: Settings, events: seq<Event>) {
    forall k :: 0 <= k < |events| ==> Leveraged(s, events[k])
  }

  // ---------- Whole lots ----------

  lemma {:induction false} MultipleOnGrid(k: int, x: real, step: real)
    requires OnGrid(x, step)
    ensures OnGrid(Multiple(k, x), step)
    decreases if k < 0 then -k else k
  {
    if k == 0 {
      assert Multiple(0, x) == 0.0 == Multiple(0, step);
    } else {
      var j := if k < 0 then k + 1 else k - 1;
      MultipleOnGrid(j, x, step);
      MultipleAdd(j, 1, x);
      assert Multiple(1, x) == x;
      GridSum(Multiple(j, x), x, step);
    }
  }

  lemma LotsOnGrid(quantity: real, symbol: string)
    ensures OnGrid(RoundToLotSize(quantity, symbol), LOT) && OnGrid(LotSize(symbol), LOT)
  {
    assert LotSize(symbol) == if symbol == "ETHUSDT" then Multiple(10, LOT) else Multiple(1, LOT);
    MultipleOnGrid(Truncate(quantity / LotSize(symbol)), LotSize(symbol), LOT);
  }

  lemma {:induction false} NormalOnGrid(thousandths: int)
    ensures OnGrid(NormalQuantum(thousandths), LOT)
    decreases if thousandths < 0 then -thousandths else thousandths
  {
    if thousandths != 0 && thousandths % 10 == 0 {
      NormalOnGrid(thousandths / 10);
      MultipleOnGrid(10, NormalQuantum(thousandths / 10), LOT);
      assert Multiple(10, NormalQuantum(thousandths / 10)) == NormalQuantum(thousandths);
    } else {
      assert NormalQuantum(thousandths) == Multiple(1, LOT);
    }
  }

  lemma PartialOnGrid(quantity: real, ratio: real)
    ensures OnGrid(PartialQuantity(quantity, ratio), LOT)
  {
    var quantum := NormalQuantum((quantity * 1000.0).Floor);
    NormalOnGrid((quantity * 1000.0).Floor);
    MultipleOnGrid(Truncate(Portion(quantity, ratio) / quantum), quantum, LOT);
    hide NormalQuantum, Portion, OnGrid;
  }

  /** A positive number of lots is at least one. */
  lemma OneLot(x: real)
    requires OnGrid(x, LOT) && 0.0 < x
    ensures LOT <= x
  {
    var k :| x == Multiple(k, LOT);
    assert x == 0.001 * k as real;
  }

  // ---------- Each operation ----------

  lemma MarginLeft(margin: real, ratio: real)
    requires 0.0 <= margin && ratio < 1.0
    ensures 0.0 <= margin - margin * ratio
  {
    MulNonNeg(margin, 1.0 - ratio);
    assert Mul(margin, 1.0 - ratio) == margin - margin * ratio;
  }

  /** A partial close leaves at least one lot, and a margin that is not negative. */
  lemma ReducedIsBacked(p: Position, ratio: real, price: real, rate: real, sane: bool)
    requires Backed(p, sane) && 0.0 < ratio < 1.0
    ensures Backed(Reduced(p, PartialQuantity(p.quantity, ratio), ratio, price, rate), sane)
  {
    var quantity := PartialQuantity(p.quantity, ratio);
    PartialQuantityBounds(p.quantity, ratio);
    PartialOnGrid(p.quantity, ratio);
    if sane {
      MarginLeft(p.margin, ratio);
    }
    GridSum(p.quantity, quantity, LOT);
    OneLot(p.quantity - quantity);
    hide PartialQuantity, OnGrid, NetPnl;
  }

  /** What is approved is a positive number of lots. */
  lemma ApprovedIsWhole(a: Account, s: Settings, sig: Signal, now: int)
    ensures var v := Validate(a, s, sig, now).verdict;
      v.Approved? ==> OnGrid(v.quantity, LOT) && LOT <= v.quantity
  {
    var v := Validate(a, s, sig, now).verdict;
    if v.Approved? {
      ApprovedSize(a, s, sig, now);
      ApprovedFigures(a, s, sig, now);
      hide Validate, MarginFor, Quantize, Notional, OnGrid, LossAtDistance, Available, ResolveFinalLeverage;
      var distance := Abs(sig.entry - sig.stopLoss.value);
      LotsOnGrid(RiskAmount(Available(a), s.riskPerTrade) / distance, sig.symbol);
      OneLot(v.quantity);
    }
  }

  lemma MarginSign(quantity: real, price: real, leverage: int)
    requires leverage < 0 && 0.0 < Notional(quantity, price)
    ensures Quantize(MarginFor(quantity, price, leverage), 0.01) <= 0.0
  {
    var margin, l := MarginFor(quantity, price, leverage), leverage as real;
    MulDiv(Notional(quantity, price), l);
    assert Mul(margin, l) == Notional(quantity, price);
    assert Mul(margin, -l) == -Mul(margin, l);
    if 0.0 < margin {
      MulNonNeg(margin, -l);
    }
    assert Multiple(0, 0.01) == 0.0;
    QuantizeExact(0, 0.01);
    QuantizeMonotone(margin, 0.0, 0.01);
  }

  /** An approved entry locks a positive margin exactly when the leverage that was resolved for it is at least 1.  No
      entry is approved at 0. */
  lemma MarginNeedsLeverage(a: Account, s: Settings, sig: Signal, now: int)
    ensures var v := Validate(a, s, sig, now).verdict;
      v.Approved? ==>
        && ResolveFinalLeverage(sig.leverage, s.maxLeverage, s.plan) != 0
        && (0.0 < v.margin <==> 1 <= ResolveFinalLeverage(sig.leverage, s.maxLeverage, s.plan))
  {
    var v := Validate(a, s, sig, now).verdict;
    if v.Approved? {
      ApprovedSignalIsComplete(a, s, sig, now);
      ApprovedFigures(a, s, sig, now);
      var leverage := ResolveFinalLeverage(sig.leverage, s.maxLeverage, s.plan);
      hide Validate, MarginFor, Quantize, Notional, LossAtDistance, Available, ResolveFinalLeverage, SizedQuantity;
      if 1 <= leverage {
        MarginOfNotional(v.quantity, sig.entry, leverage);
        QuantizeError(MarginFor(v.quantity, sig.entry, leverage), 0.01);
      } else {
        MarginSign(v.quantity, sig.entry, leverage);
      }
    }
  }

  lemma EnterKeepsBacked(a: Account, s: Settings, sig: Signal, v: Verdict, sane: bool)
    requires AllBacked(a.positions, sane) && v.Approved? && sig.takeProfit.Some? && sig.stopLoss.Some?
    requires OnGrid(v.quantity, LOT) && LOT <= v.quantity && (sane ==> 0.0 <= v.margin)
    ensures AllBacked(Enter(a, s, sig, v).positions, sane)
  {
    var existing := FindCoin(a.positions, sig.coin);
    if v.preAction.Dca? && existing.Some? {
      GridSum(a.positions[existing.value].quantity, v.quantity, LOT);
    }
    hide OnGrid, Fee, AverageEntry;
  }

  lemma RemovalKeepsBacked(ps: seq<Position>, i: nat, sane: bool)
    requires AllBacked(ps, sane) && i < |ps|
    ensures AllBacked(Without(ps, i), sane)
  {
    hide Backed;
  }

  lemma DecisionIsBacked(a: Account, s: Settings, sig: Signal, now: int, sane: bool)
    requires AllBacked(a.positions, sane)
    ensures AllBacked(DecisionAccount(a, s, sig, now).positions, sane)
  {
    hide Backed, AllBacked, Validate, NetPnl, MakeRecord, EntryFeeShare, Without;
    var i := FindCoin(a.positions, sig.coin);
    if i.Some? {
      RemovalKeepsBacked(a.positions, i.value, sane);
    }
  }

  lemma SubmitKeepsBacked(a: Account, s: Settings, sig: Signal, now: int, sane: bool)
    requires Sound(a, s) && AllBacked(a.positions, sane)
    requires sane ==> 1 <= s.maxLeverage && 1 <= sig.leverage
    ensures AllBacked(SubmitSignal(a, s, sig, now).account.positions, sane)
  {
    SubmissionShape(a, s, sig, now);
    var d := DecisionAccount(a, s, sig, now);
    DecisionIsBacked(a, s, sig, now, sane);
    ValidateKeepsPositions(d, s, sig, now);
    ApprovedIsWhole(d, s, sig, now);
    MarginNeedsLeverage(d, s, sig, now);
    hide Validate, SubmitSignal, DecisionAccount, Backed, AllBacked, OnGrid, Enter;
    if SubmitSignal(a, s, sig, now).accepted {
      EnterKeepsBacked(d, s, sig, Validate(d, s, sig, now).verdict, sane);
    }
  }

  lemma PartialKeepsBacked(a: Account, s: Settings, i: nat, price: real, ratio: real, now: int, sane: bool)
    requires AllBacked(a.positions, sane) && i < |a.positions|
    ensures var b := PartialClose(a, s, i, price, ratio, now);
      b.Some? ==> AllBacked(b.value.positions, sane)
  {
    PartialCase(a, s, i, price, ratio, now);
    if PartialClose(a, s, i, price, ratio, now).Some? {
      ReducedIsBacked(a.positions[i], ratio, price, s.feeRate, sane);
      PartialShape(a, s, i, price, ratio, now);
      hide PartialClose, PartialQuantity, NetPnl, MakeRecord, Reduced, Backed;
    }
  }

  /** One engine call keeps every position backed. */
  lemma StepKeepsBacked(a: Account, s: Settings, e: Event, sane: bool)
    requires Sound(a, s) && AllBacked(a.positions, sane) && (sane ==> Leveraged(s, e))
    ensures AllBacked(Step(a, s, e).positions, sane)
  {
    hide SubmitSignal, PartialClose, Hit, Without, OnGrid, NetPnl, MakeRecord, EntryFeeShare;
    match e
    case Submit(sig, now) =>
      SubmitKeepsBacked(a, s, sig, now, sane);
    case TickPrice(coin, price, now) =>
      var i := FindCoin(a.positions, coin);
      if i.Some? {
        RemovalKeepsBacked(a.positions, i.value, sane);
      }
    case CloseCall(id, price, now) =>
      var i := FindId(a.positions, id);
      if i.Some? {
        RemovalKeepsBacked(a.positions, i.value, sane);
      }
    case PartialCall(id, price, ratio, now) =>
      var i := FindId(a.positions, id);
      if i.Some? {
        PartialKeepsBacked(a, s, i.value, price, ratio, now, sane);
      }
    case PricesCall(prices) =>
    case HaltCall =>
    case ResumeCall =>
  }

  /** Main result on reachable accounts: quantities stay whole lots, at least one, at any leverage; and margins never
      turn negative when every leverage asked for and allowed is at least 1. */
  lemma {:induction false} RunKeepsBacked(a: Account, s: Settings, events: seq<Event>, sane: bool)
    requires Sound(a, s) && AllBacked(a.positions, sane) && (sane ==> AllLeveraged(s, events))
    ensures AllBacked(Run(a, s, events).positions, sane)
    decreases |events|
  {
    if |events| > 0 {
      hide Step;
      StepKeepsSound(a, s, events[0]);
      StepKeepsBacked(a, s, events[0], sane);
      RunKeepsBacked(Step(a, s, events[0]), s, events[1..], sane);
    }
  }

  /** So the digits that a partial close reads off a quantity are all of its digits. */
  lemma DigitsAreExact(balance: real, s: Settings, events: seq<Event>, i: nat)
    requires i < |Run(InitialAccount(balance), s, events).positions|
    ensures var quantity := Run(InitialAccount(balance), s, events).positions[i].quantity;
      quantity == 0.001 * (quantity * 1000.0).Floor as real
  {
    RunKeepsBacked(InitialAccount(balance), s, events, false);
    hide Run;
    var p := Run(InitialAccount(balance), s, events).positions[i];
    assert Backed(p, false);
    var k :| p.quantity == Multiple(k, LOT);
    assert p.quantity * 1000.0 == k as real;
  }

  // ---------- Exposure of an accepted signal ----------

  lemma {:induction false} LockedNonNegative(ps: seq<Position>)
    requires AllBacked(ps, true)
    ensures 0.0 <= Sum(ps, MarginOf)
  {
    if |ps| > 0 {
      LockedNonNegative(ps[1..]);
    }
  }

  lemma DecisionFacts(a: Account, s: Settings, sig: Signal, now: int)
    requires Sound(a, s) && AllBacked(a.positions, true)
    requires 0.0 <= s.riskPerTrade && 1 <= s.maxLeverage && 1 <= sig.leverage
    ensures var d := DecisionAccount(a, s, sig, now);
      var v := Validate(d, s, sig, now).verdict;
      v.Approved? ==>
        && sig.stopLoss.Some?
        && v.maxLoss <= RiskAmount(d.balance, s.riskPerTrade) + 0.005
        && LossAtDistance(v.quantity, Abs(sig.entry - sig.stopLoss.value)) <= RiskAmount(d.balance, s.riskPerTrade)
        && d.balance - Locked(d) == Available(d)
        && (s.feeRate <= 0.0004 ==>
              0.79 * Available(d) <= Available(d) - Fee(v.quantity, sig.entry, s.feeRate) - v.margin)
  {
    var d := DecisionAccount(a, s, sig, now);
    var v := Validate(d, s, sig, now).verdict;
    DecisionIsBacked(a, s, sig, now, true);
    LockedNonNegative(d.positions);
    if v.Approved? {
      ApprovedSize(d, s, sig, now);
      ApprovedFigures(d, s, sig, now);
      FreeIsPositive(d, s, sig, now);
      ApprovedLoss(d, s, sig, now);
      if s.feeRate <= 0.0004 {
        ApprovedMargin(d, s, sig, now);
      }
      hide DecisionAccount, Validate, Fee, LossAtDistance, RiskAmount, Locked, Available, Quantize, MarginFor;
      QuantizeError(LossAtDistance(v.quantity, Abs(sig.entry - sig.stopLoss.value)), 0.01);
    }
  }

  /** Main result on what is booked.  In every account that a run can reach, an accepted signal, be it a fresh entry, a
      DCA or the entry after a reverse close, adds to the open risk that the account books at most the amount that was
      checked against the daily limit, to the cent, and leaves free at least 79 percent of what was free when it was
      decided.  What the positions would lose at their stops is the subject of PaperStops. */
  lemma AcceptedExposure(balance: real, s: Settings, events: seq<Event>, sig: Signal, now: int)
    requires 0.0 <= s.riskPerTrade && s.feeRate <= 0.0004 && 1 <= s.maxLeverage && 1 <= sig.leverage
    requires AllLeveraged(s, events)
    ensures var a := Run(InitialAccount(balance), s, events);
      var d, r := DecisionAccount(a, s, sig, now), SubmitSignal(a, s, sig, now);
      r.accepted ==>
        && OpenRisk(r.account) - OpenRisk(d) <= RiskAmount(d.balance, s.riskPerTrade) + 0.005
        && 0.79 * (d.balance - Locked(d)) <= r.account.balance - Locked(r.account)
  {
    var a := Run(InitialAccount(balance), s, events);
    RunKeepsSound(InitialAccount(balance), s, events);
    RunKeepsBacked(InitialAccount(balance), s, events, true);
    SubmissionShape(a, s, sig, now);
    DecisionFacts(a, s, sig, now);
    hide Run, SubmitSignal, DecisionAccount, Validate, Fee, RiskAmount, Locked, OpenRisk, Available, Enter;
    if SubmitSignal(a, s, sig, now).accepted {
      var d := DecisionAccount(a, s, sig, now);
      PaperExposure.EntryBooksExposure(d, s, sig, Validate(d, s, sig, now).verdict);
    }
  }
}
