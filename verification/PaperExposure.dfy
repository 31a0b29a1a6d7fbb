/** What one call does to the open risk and the locked margin of a paper account, and when a price closes. */
module PaperExposure {
  import opened Common
  import opened Decimals
  import opened RiskSizing
  import opened PaperModel
  import opened PaperInvariant
  import PaperGate
  import PaperLedger

  /** An entry, new or added, locks exactly the approved margin and adds exactly the approved loss. */
  lemma EntryBooksExposure(a: Account, s: Settings, sig: Signal, v: Verdict)
    requires v.Approved? && sig.takeProfit.Some? && sig.stopLoss.Some?
    ensures var b := Enter(a, s, sig, v);
      && Locked(b) == Locked(a) + v.margin
      && OpenRisk(b) == OpenRisk(a) + v.maxLoss
      && b.balance == a.balance - Fee(v.quantity, sig.entry, s.feeRate)
  {
    hide Fee, AverageEntry, Sum;
    var existing := FindCoin(a.positions, sig.coin);
    if v.preAction.Dca? && existing.Some? {
      var q := Enlarged(a.positions[existing.value], sig, v);
      PaperLedger.SumReplace(a.positions, existing.value, q, MarginOf);
      PaperLedger.SumReplace(a.positions, existing.value, q, RiskOf);
    } else {
      var p := OpenPosition(a, s, sig, v).positions[|a.positions|];
      PaperGate.SumAppend(a.positions, p, MarginOf);
      PaperGate.SumAppend(a.positions, p, RiskOf);
    }
  }

  lemma ApprovedWithinPortfolio(a: Account, s: Settings, sig: Signal, now: int)
    ensures var v := Validate(a, s, sig, now).verdict;
      v.Approved? ==> OpenRisk(a) + v.maxLoss <= RiskAmount(a.balance, if s.aggressive then 0.15 else 0.1)
  {
    hide CheckGate, RiskAmount, OpenRisk, Available, CalculatePositionSize, ValidatePositionSize, ResolveFinalLeverage,
      PreActionFor;
  }

  /** Main result on the portfolio as it is booked: after any accepted signal, a reversal included, the open risk that
      the account books for all positions is within the share of the balance on which the signal was decided. */
  lemma AcceptedKeepsPortfolioRisk(a: Account, s: Settings, sig: Signal, now: int)
    requires Sound(a, s)
    ensures var d, r := DecisionAccount(a, s, sig, now), SubmitSignal(a, s, sig, now);
      r.accepted ==> OpenRisk(r.account) <= RiskAmount(d.balance, if s.aggressive then 0.15 else 0.1)
  {
    var d := DecisionAccount(a, s, sig, now);
    SubmissionShape(a, s, sig, now);
    ApprovedWithinPortfolio(d, s, sig, now);
    hide SubmitSignal, DecisionAccount, Validate, OpenRisk, RiskAmount, Enter, Locked, Fee;
    if SubmitSignal(a, s, sig, now).accepted {
      EntryBooksExposure(d, s, sig, Validate(d, s, sig, now).verdict);
    }
  }

  /** The price lies strictly between stop and target. */
  predicate Between(p: Position, price: real) {
    if p.direction.Long? then p.stopLoss < price < p.takeProfit else p.takeProfit < price < p.stopLoss
  }

  predicate TargetReached(p: Position, price: real) {
    if p.direction.Long? then p.takeProfit <= price else price <= p.takeProfit
  }

  /** A price closes the position of its coin exactly when it is not strictly between stop and target: all of it, at
      that price, and as a target hit whenever the target was reached.  No other position is touched. */
  lemma TickClosesWhenReached(a: Account, s: Settings, coin: string, price: real, now: int)
    requires Sound(a, s) && FindCoin(a.positions, coin).Some?
    ensures var i := FindCoin(a.positions, coin).value;
      var p, b := a.positions[i], Tick(a, s, coin, price, now);
      if Between(p, price) then
        b == a.(positions := a.positions[i := p.(current := price)])
      else
        && b.positions == Without(a.positions, i)
        && |b.history| == |a.history| + 1 && b.history[..|a.history|] == a.history
        && var r := b.history[|a.history|];
           r.close == price && r.quantity == p.quantity && r.positionId == p.id
           && r.reason == if TargetReached(p, price) then TpHit else SlHit
  {
    hide NetPnl, GrossPnl, EntryFeeShare, Quantize, Fee;
  }

  // ---------- Loss windows ----------

  /** The losses closed from one instant up to another. */
  function LossesWithin(history: seq<Record>, from: int, until: int): real {
    if |history| == 0 then 0.0
    else
      (if history[0].net < 0.0 && from <= history[0].closedAt < until then Abs(history[0].net) else 0.0)
      + LossesWithin(history[1..], from, until)
  }

  lemma {:induction false} LossesAgree(history: seq<Record>, onDay: int -> bool, from: int, until: int)
    requires forall k :: 0 <= k < |history| ==>
               (onDay(history[k].closedAt / DAY) <==> from <= history[k].closedAt < until)
    ensures Losses(history, onDay) == LossesWithin(history, from, until)
  {
    if |history| > 0 {
      LossesAgree(history[1..], onDay, from, until);
    }
  }

  lemma DayOf(t: int, now: int)
    ensures t / DAY == now / DAY <==> now / DAY * DAY <= t < now / DAY * DAY + DAY
    ensures now / DAY - now / DAY % 7 <= t / DAY <==> now / (7 * DAY) * (7 * DAY) <= t
  {
    var week := now / (7 * DAY);
    assert now / DAY / 7 == week;
    assert now / DAY - now / DAY % 7 == 7 * week;
  }

  /** The daily loss is what was lost since the last midnight, and the weekly loss what was lost since the last Monday
      midnight, for a history that does not run ahead of the clock. */
  lemma LossWindows(a: Account, now: int)
    requires forall k :: 0 <= k < |a.history| ==> a.history[k].closedAt <= now
    ensures DailyLoss(a, now) == LossesWithin(a.history, now - now % 86_400_000_000, now + 1)
    ensures WeeklyLoss(a, now) == LossesWithin(a.history, now - now % 604_800_000_000, now + 1)
  {
    assert DAY == 86_400_000_000;
    assert now / DAY * DAY == now - now % DAY && now / (7 * DAY) * (7 * DAY) == now - now % (7 * DAY);
    forall k | 0 <= k < |a.history|
      ensures a.history[k].closedAt / DAY == now / DAY <==> now / DAY * DAY <= a.history[k].closedAt < now + 1
      ensures now / DAY - now / DAY % 7 <= a.history[k].closedAt / DAY
         <==> now / (7 * DAY) * (7 * DAY) <= a.history[k].closedAt < now + 1
    {
      DayOf(a.history[k].closedAt, now);
    }
    LossesAgree(a.history, day => day == now / DAY, now / DAY * DAY, now + 1);
    LossesAgree(a.history, day => now / DAY - now / DAY % 7 <= day, now / (7 * DAY) * (7 * DAY), now + 1);
  }

  // ---------- Trading hours and records ----------

  /** Trading hours may span midnight: a minute is inside when, counted round the clock from the start, it comes no
      later than the end. */
  lemma HoursGoRoundTheClock(s: Settings, now: int)
    requires s.hoursStart.Some? ==> 0 <= s.hoursStart.value < 1440
    requires s.hoursEnd.Some? ==> 0 <= s.hoursEnd.value < 1440
    ensures InTradingHours(s, now)
       <==> (s.hoursStart.Some? && s.hoursEnd.Some? ==>
               (now / 60_000_000 % 1440 - s.hoursStart.value) % 1440
               <= (s.hoursEnd.value - s.hoursStart.value) % 1440)
  {
  }

  /** The rounded figures of a record belong together: its net profit is its gross profit less the fee of the close, to
      the cent. */
  lemma RecordFiguresAgree(p: Position, close: real, quantity: real, entryFee: real, reason: Reason, rate: real,
                           now: int)
    ensures var r := MakeRecord(p, close, quantity, entryFee, reason, rate, now);
      && Abs(r.net - (r.gross - Fee(quantity, close, rate))) <= 0.01
      && Abs(r.fee - (entryFee + Fee(quantity, close, rate))) <= 0.00005
      && (p.direction.IsSide() ==> Abs(r.gross - p.direction.Sign() * Mul(quantity, close - p.entry)) <= 0.005)
  {
    var gross := GrossPnl(p.direction, p.entry, close, quantity);
    assert p.direction.IsSide() ==> gross == p.direction.Sign() * Mul(quantity, close - p.entry);
    QuantizeError(gross, 0.01);
    QuantizeError(entryFee + Fee(quantity, close, rate), 0.0001);
    QuantizeError(NetPnl(p.direction, p.entry, close, quantity, rate), 0.01);
    hide Quantize, GrossPnl, Fee, Mul;
  }
}
