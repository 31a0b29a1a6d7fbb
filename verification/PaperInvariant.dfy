/** What holds of every reachable paper account, and when a position may be opened or enlarged. */
module PaperInvariant {
  import opened Common
  import opened Decimals
  import opened RiskSizing
  import opened PaperModel

  predicate SoundPosition(p: Position, nextId: nat) {
    && p.id < nextId
    && p.direction.IsSide()
    && 0.0 < p.quantity <= p.originalQuantity
    && 0 <= p.dcaCount <= MAX_DCA_COUNT
    && !p.status.Closed?
  }

  /** No two positions share a coin or an identifier. */
  predicate Apart(ps: seq<Position>) {
    forall i, j :: 0 <= i < j < |ps| ==> ps[i].coin != ps[j].coin && ps[i].id != ps[j].id
  }

  function Capacity(s: Settings): nat {
    var limit := PositionLimit(s.maxConcurrent, s.plan);
    if limit < 0 then 0 else limit
  }

  predicate Sound(a: Account, s: Settings) {
    && (forall i :: 0 <= i < |a.positions| ==> SoundPosition(a.positions[i], a.nextId))
    && Apart(a.positions)
    && |a.positions| <= Capacity(s)
  }

  /** The account lets a signal through: what must hold at the moment a position is opened or enlarged. */
  predicate GateOpen(a: Account, s: Settings, sig: Signal, now: int) {
    && !a.halted
    && !InCooldown(a, now)
    && TrailingLosses(a.history) < CONSECUTIVE_LOSS_COOLDOWN
    && DailyLoss(a, now) + RiskAmount(a.balance, s.riskPerTrade) <= RiskAmount(a.balance, s.dailyLossPct)
    && s.active && InTradingHours(s, now) && 0.6 <= sig.confidence && RiskRewardOk(sig)
  }

  // ---------- The gate ----------

  /** The gate passes exactly when every one of its checks does, whatever their order. */
  lemma GatePasses(a: Account, s: Settings, sig: Signal, now: int)
    ensures CheckGate(a, s, sig, now).Pass?
       <==> && GateOpen(a, s, sig, now)
            && sig.direction.IsSide() && 0.0 < sig.stopLoss.value
            && LossRatio(DailyLoss(a, now), RiskAmount(a.balance, s.dailyLossPct)) < 1.0
            && WeeklyLossOk(WeeklyLoss(a, now), RiskAmount(a.balance, s.weeklyLossPct))
  {
    hide DailyLoss, WeeklyLoss, RiskAmount, LossRatio, TrailingLosses, WeeklyLossOk;
  }

  /** A validation halts an account only on a loss limit or on five losses in a row, and starts a cooldown only on
      three, never both. */
  lemma ValidateHaltsOnLosses(a: Account, s: Settings, sig: Signal, now: int)
    ensures var b := Validate(a, s, sig, now).account;
      && (a.halted ==> b == a)
      && (b.halted && !a.halted ==>
            || !DailyLossOk(DailyLoss(a, now), RiskAmount(a.balance, s.dailyLossPct),
                            RiskAmount(a.balance, s.riskPerTrade))
            || !WeeklyLossOk(WeeklyLoss(a, now), RiskAmount(a.balance, s.weeklyLossPct))
            || CONSECUTIVE_LOSS_HALT <= TrailingLosses(a.history))
      && (b.cooldownUntil != a.cooldownUntil ==>
            && b.halted == a.halted && !InCooldown(a, now)
            && b.cooldownUntil == Some(now + COOLDOWN_MINUTES * MINUTE)
            && CONSECUTIVE_LOSS_COOLDOWN <= TrailingLosses(a.history) < CONSECUTIVE_LOSS_HALT)
  {
    hide DailyLossOk, WeeklyLossOk, RiskRewardOk, DailyLoss, WeeklyLoss, RiskAmount, TrailingLosses, CheckSize;
  }

  // ---------- Each operation ----------

  lemma ApprovedSize(a: Account, s: Settings, sig: Signal, now: int)
    ensures var v := Validate(a, s, sig, now).verdict;
      v.Approved? ==>
        && 0.0 < v.quantity
        && GateOpen(a, s, sig, now)
        && sig.direction.IsSide() && sig.takeProfit.Some? && sig.stopLoss.Some?
        && Validate(a, s, sig, now).account == a
        && v.preAction == PreActionFor(a, sig)
        && (v.preAction.NoAction? ==> |a.positions| < PositionLimit(s.maxConcurrent, s.plan))
        && (v.preAction.Dca? ==> a.positions[FindCoin(a.positions, sig.coin).value].dcaCount < MAX_DCA_COUNT)
  {
    if Validate(a, s, sig, now).verdict.Approved? {
      ApprovedSignalIsComplete(a, s, sig, now);
      hide Available, OpenRisk, RiskAmount, DailyLoss, WeeklyLoss, RiskReward, LossRatio, CalculatePositionSize,
           PortfolioRiskOk, ResolveFinalLeverage, Notional;
    }
  }

  lemma OpenKeepsSound(a: Account, s: Settings, sig: Signal, v: Verdict)
    requires Sound(a, s) && v.Approved? && 0.0 < v.quantity
    requires sig.direction.IsSide() && sig.takeProfit.Some? && sig.stopLoss.Some?
    requires FindCoin(a.positions, sig.coin).None? && |a.positions| < Capacity(s)
    ensures Sound(OpenPosition(a, s, sig, v), s)
  {
    hide Fee;
  }

  lemma CloseKeepsSound(a: Account, s: Settings, i: nat, price: real, reason: Reason, now: int)
    requires Sound(a, s) && i < |a.positions|
    ensures Sound(ClosePosition(a, s, i, price, reason, now), s)
    ensures var b := ClosePosition(a, s, i, price, reason, now);
      && |b.positions| == |a.positions| - 1
      && FindCoin(b.positions, a.positions[i].coin).None?
  {
    hide NetPnl, MakeRecord, EntryFeeShare;
  }

  /** A partial close takes less than everything. */
  lemma PartialQuantityBounds(quantity: real, ratio: real)
    requires 0.0 < quantity && 0.0 < ratio < 1.0
    ensures 0.0 <= PartialQuantity(quantity, ratio) < quantity
  {
    PortionBounds(quantity, ratio);
    hide Portion, FloorToStep;
    FloorToStepLargest(Portion(quantity, ratio), NormalQuantum((quantity * 1000.0).Floor));
  }

  lemma PortionBounds(quantity: real, ratio: real)
    requires 0.0 < quantity && 0.0 < ratio < 1.0
    ensures 0.0 <= Portion(quantity, ratio) < quantity
  {
    MulNonNeg(quantity, ratio);
    MulLt(ratio, 1.0, quantity);
    assert Mul(ratio, quantity) == quantity * ratio;
  }

  lemma PartialCase(a: Account, s: Settings, i: nat, price: real, ratio: real, now: int)
    requires i < |a.positions|
    ensures PartialClose(a, s, i, price, ratio, now).Some?
       <==> 0.0 < ratio < 1.0 && 0.0 < PartialQuantity(a.positions[i].quantity, ratio)
  {
    hide NetPnl, MakeRecord, PartialQuantity, Fee;
  }

  lemma PositiveFloor(value: real, step: real)
    requires 0.0 <= value && 0.0 < step
    ensures 0.0 < FloorToStep(value, step) <==> step <= value
  {
    FloorToStepLargest(value, step);
    assert Multiple(1, step) == step && Multiple(0, step) == 0.0;
    if value < step && 0.0 < FloorToStep(value, step) {
      var k :| FloorToStep(value, step) == Multiple(k, step);
      if k <= 0 {
        MultipleMono(k, 0, step);
      } else {
        MultipleMono(1, k, step);
      }
    }
  }

  /** A partial close goes through exactly when the part is worth one unit of the quantity's last digit that is not
      zero.  A round quantity has a large unit. */
  lemma PartialCloseNeedsUnit(a: Account, s: Settings, i: nat, price: real, ratio: real, now: int)
    requires Sound(a, s) && i < |a.positions|
    ensures var quantity := a.positions[i].quantity;
      PartialClose(a, s, i, price, ratio, now).Some?
      <==> 0.0 < ratio < 1.0 && NormalQuantum((quantity * 1000.0).Floor) <= Portion(quantity, ratio)
  {
    hide PartialClose, NormalQuantum, FloorToStep, Portion;
    var quantity := a.positions[i].quantity;
    PartialCase(a, s, i, price, ratio, now);
    if 0.0 < ratio < 1.0 {
      PortionBounds(quantity, ratio);
      PositiveFloor(Portion(quantity, ratio), NormalQuantum((quantity * 1000.0).Floor));
    }
  }

  /** Half of ten coins cannot be closed: ten counts in tens. */
  lemma HalfOfTenIsRefused(a: Account, s: Settings, i: nat, price: real, now: int)
    requires Sound(a, s) && i < |a.positions| && a.positions[i].quantity == 10.0
    ensures PartialClose(a, s, i, price, 0.5, now).None?
  {
    PartialCloseNeedsUnit(a, s, i, price, 0.5, now);
    assert NormalQuantum(1) == 0.001;
    assert NormalQuantum(10) == 0.01;
    assert NormalQuantum(100) == 0.1;
    assert NormalQuantum(1000) == 1.0;
    assert NormalQuantum(10000) == 10.0;
    assert (10.0 * 1000.0).Floor == 10000;
    hide PartialClose;
  }

  /** What a partial close does, part by part. */
  lemma PartialShape(a: Account, s: Settings, i: nat, price: real, ratio: real, now: int)
    requires i < |a.positions| && PartialClose(a, s, i, price, ratio, now).Some?
    ensures var b, p := PartialClose(a, s, i, price, ratio, now).value, a.positions[i];
      var quantity := PartialQuantity(p.quantity, ratio);
      var q := Reduced(p, quantity, ratio, price, s.feeRate);
      && 0.0 < quantity && q.coin == p.coin && q.id == p.id && q.direction == p.direction && q.entry == p.entry
      && b == a.(balance := a.balance + NetPnl(p.direction, p.entry, price, quantity, s.feeRate),
                 positions := a.positions[i := q],
                 history := a.history
                   + [MakeRecord(p, price, quantity, Fee(quantity, p.entry, s.feeRate), Partial, s.feeRate, now)])
  {
    hide NetPnl, MakeRecord, PartialQuantity, Fee;
  }

  lemma PartialKeepsSound(a: Account, s: Settings, i: nat, price: real, ratio: real, now: int)
    requires Sound(a, s) && i < |a.positions|
    ensures var b := PartialClose(a, s, i, price, ratio, now);
      b.Some? ==> Sound(b.value, s) && |b.value.positions| == |a.positions|
  {
    var p := a.positions[i];
    if 0.0 < ratio < 1.0 {
      PartialQuantityBounds(p.quantity, ratio);
    }
    hide NetPnl, MakeRecord, Fee, PartialQuantity;
  }

  lemma DcaKeepsSound(a: Account, s: Settings, i: nat, sig: Signal, v: Verdict)
    requires Sound(a, s) && i < |a.positions| && v.Approved? && 0.0 < v.quantity
    requires a.positions[i].dcaCount < MAX_DCA_COUNT
    ensures Sound(ApplyDca(a, s, i, sig, v), s)
  {
    hide Fee, AverageEntry;
  }

  /** Entering on an approved verdict, once nothing opposite is in the way. */
  lemma EnterKeepsSound(a: Account, s: Settings, sig: Signal, now: int)
    requires Sound(a, s)
    requires Validate(a, s, sig, now).verdict.Approved?
    requires !Validate(a, s, sig, now).verdict.preAction.CloseExisting?
    requires sig.takeProfit.Some? && sig.stopLoss.Some?
    ensures Sound(Enter(a, s, sig, Validate(a, s, sig, now).verdict), s)
  {
    var v := Validate(a, s, sig, now).verdict;
    ApprovedSize(a, s, sig, now);
    hide Validate;
    if v.preAction.Dca? {
      DcaKeepsSound(a, s, FindCoin(a.positions, sig.coin).value, sig, v);
    } else {
      OpenKeepsSound(a, s, sig, v);
    }
  }

  /** After a reverse close nothing is left in the coin. */
  lemma ReversedHasNoCoin(a: Account, s: Settings, sig: Signal, now: int)
    requires Sound(a, s)
    ensures var b := AfterReverse(a, s, sig, now);
      Sound(b, s) && FindCoin(b.positions, sig.coin).None? && PreActionFor(b, sig).NoAction?
  {
    var existing := FindCoin(a.positions, sig.coin);
    if existing.Some? {
      CloseKeepsSound(a, s, existing.value, sig.entry, ReverseSignal, now);
    }
  }

  /** The account in which the last decision about a submitted signal was taken. */
  function DecisionAccount(a: Account, s: Settings, sig: Signal, now: int): Account {
    var first := Validate(a, s, sig, now);
    if first.verdict.Approved? && first.verdict.preAction.CloseExisting? then AfterReverse(a, s, sig, now) else a
  }

  lemma ValidateKeepsPositions(a: Account, s: Settings, sig: Signal, now: int)
    ensures var b := Validate(a, s, sig, now).account;
      && b.positions == a.positions && b.balance == a.balance && b.history == a.history && b.nextId == a.nextId
  {
    hide CheckGate, CheckSize;
  }

  /** A submission ends in a refusal that moves no money beyond the reverse close, or in an entry that was
      approved in the account it is made in. */
  lemma SubmissionShape(a: Account, s: Settings, sig: Signal, now: int)
    requires Sound(a, s)
    ensures var d := DecisionAccount(a, s, sig, now);
      var r := SubmitSignal(a, s, sig, now);
      var v := Validate(d, s, sig, now);
      && Sound(d, s)
      && r.accepted == v.verdict.Approved?
      && (r.accepted ==>
            && !v.verdict.preAction.CloseExisting?
            && sig.takeProfit.Some? && sig.stopLoss.Some?
            && r.account == Enter(d, s, sig, v.verdict))
      && (!r.accepted ==> r.account == v.account)
  {
    ReversedHasNoCoin(a, s, sig, now);
    var d := DecisionAccount(a, s, sig, now);
    if Validate(d, s, sig, now).verdict.Approved? {
      ApprovedSize(d, s, sig, now);
    }
    hide CheckGate, CheckSize, AfterReverse, Enter;
  }

  lemma SubmitKeepsSound(a: Account, s: Settings, sig: Signal, now: int)
    requires Sound(a, s)
    ensures Sound(SubmitSignal(a, s, sig, now).account, s)
  {
    SubmissionShape(a, s, sig, now);
    var d := DecisionAccount(a, s, sig, now);
    ValidateKeepsPositions(d, s, sig, now);
    hide Validate, SubmitSignal, DecisionAccount;
    if SubmitSignal(a, s, sig, now).accepted {
      EnterKeepsSound(d, s, sig, now);
    }
  }

  /** One engine call keeps the account sound. */
  lemma StepKeepsSound(a: Account, s: Settings, e: Event)
    requires Sound(a, s)
    ensures Sound(Step(a, s, e), s)
  {
    hide SubmitSignal, ClosePosition, PartialClose, Hit;
    match e
    case Submit(sig, now) =>
      SubmitKeepsSound(a, s, sig, now);
    case TickPrice(coin, price, now) =>
      var i := FindCoin(a.positions, coin);
      if i.Some? && Hit(a.positions[i.value], price).Some? {
        CloseKeepsSound(a, s, i.value, price, Hit(a.positions[i.value], price).value, now);
      }
    case CloseCall(id, price, now) =>
      var i := FindId(a.positions, id);
      if i.Some? {
        CloseKeepsSound(a, s, i.value, price, Manual, now);
      }
    case PartialCall(id, price, ratio, now) =>
      var i := FindId(a.positions, id);
      if i.Some? {
        PartialKeepsSound(a, s, i.value, price, ratio, now);
      }
    case PricesCall(prices) =>
    case HaltCall =>
    case ResumeCall =>
  }

  /** Every account that a run can reach is sound. */
  lemma {:induction false} RunKeepsSound(a: Account, s: Settings, events: seq<Event>)
    requires Sound(a, s)
    ensures Sound(Run(a, s, events), s)
    decreases |events|
  {
    if |events| > 0 {
      StepKeepsSound(a, s, events[0]);
      RunKeepsSound(Step(a, s, events[0]), s, events[1..]);
    }
  }
}
