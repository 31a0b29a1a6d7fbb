/** What the positions of a paper account would lose at their own stops, against the risk that the account books. */
module PaperStops {
  import opened Common
  import opened Decimals
  import opened RiskSizing
  import opened PaperModel
  import opened PaperInvariant
  import opened PaperGate
  import opened PaperReach
  import PaperLedger
  import PaperExposure

  /** The gross loss of closing a position at its own stop; negative where the stop lies beyond the entry. */
  function LossAtStop(p: Position): real {
    -GrossPnl(p.direction, p.entry, p.stopLoss, p.quantity)
  }

  /** A way up or down, counted as a loss for a long or for a short. */
  function Signed(direction: Direction, way: real): real {
    if direction.Long? then way else -way
  }

  lemma LossSigned(p: Position)
    requires p.direction.IsSide()
    ensures LossAtStop(p) == Signed(p.direction, Mul(p.entry - p.stopLoss, p.quantity))
  {
  }

  /** On the losing side of the entry it is the distance times the quantity. */
  lemma LossIsDistance(p: Position)
    requires p.direction.IsSide() && 0.0 < Signed(p.direction, p.entry - p.stopLoss)
    ensures LossAtStop(p) == LossAtDistance(p.quantity, Abs(p.entry - p.stopLoss))
  {
  }

  // ---------- A fresh entry ----------

  /** An approved stop is on the losing side, and what is booked is the loss there, to the cent. */
  lemma ApprovedStop(a: Account, s: Settings, sig: Signal, now: int)
    ensures var v := Validate(a, s, sig, now).verdict;
      v.Approved? ==>
        && sig.direction.IsSide() && sig.takeProfit.Some? && sig.stopLoss.Some? && 0.0 < v.quantity
        && 0.0 < Signed(sig.direction, sig.entry - sig.stopLoss.value)
        && LossAtDistance(v.quantity, Abs(sig.entry - sig.stopLoss.value)) <= v.maxLoss + 0.005
        && 0.0 <= v.maxLoss
  {
    var v := Validate(a, s, sig, now).verdict;
    if v.Approved? {
      ApprovedSize(a, s, sig, now);
      ApprovedFigures(a, s, sig, now);
      RiskRewardMeans(sig);
      hide Validate, RiskRewardOk, SizedQuantity, MarginFor, Notional, Available, Quantize, ResolveFinalLeverage;
      var loss := LossAtDistance(v.quantity, Abs(sig.entry - sig.stopLoss.value));
      MulNonNeg(v.quantity, Abs(sig.entry - sig.stopLoss.value));
      assert 0.0 <= loss;
      QuantizeError(loss, 0.01);
      assert Multiple(0, 0.01) == 0.0;
      QuantizeExact(0, 0.01);
      QuantizeMonotone(0.0, loss, 0.01);
    }
  }

  /** Main result on fresh entries.  In every account that a run can reach, an accepted signal in a coin that is not
      held when it is decided opens one position, and what that position would lose at its stop is at most the balance
      times the risk per trade. */
  lemma FreshEntryLoss(balance: real, s: Settings, events: seq<Event>, sig: Signal, now: int)
    requires 0.0 <= s.riskPerTrade && 1 <= s.maxLeverage && 1 <= sig.leverage && AllLeveraged(s, events)
    ensures var a := Run(InitialAccount(balance), s, events);
      var d, r := DecisionAccount(a, s, sig, now), SubmitSignal(a, s, sig, now);
      r.accepted && FindCoin(d.positions, sig.coin).None? ==>
        && |r.account.positions| == |d.positions| + 1 && r.account.positions[..|d.positions|] == d.positions
        && var p := r.account.positions[|d.positions|];
           p.coin == sig.coin && p.direction == sig.direction && Some(p.stopLoss) == sig.stopLoss
           && LossAtStop(p) == LossAtDistance(p.quantity, Abs(p.entry - p.stopLoss))
           && LossAtStop(p) <= RiskAmount(d.balance, s.riskPerTrade)
  {
    var a := Run(InitialAccount(balance), s, events);
    RunKeepsSound(InitialAccount(balance), s, events);
    RunKeepsBacked(InitialAccount(balance), s, events, true);
    SubmissionShape(a, s, sig, now);
    DecisionFacts(a, s, sig, now);
    var d, r := DecisionAccount(a, s, sig, now), SubmitSignal(a, s, sig, now);
    ApprovedStop(d, s, sig, now);
    hide Run, SubmitSignal, DecisionAccount, Validate, Fee, RiskAmount, Locked, Available, LossAtStop;
    if r.accepted && FindCoin(d.positions, sig.coin).None? {
      LossIsDistance(r.account.positions[|d.positions|]);
    }
  }

  // ---------- An added quantity ----------

  /** The position's own stop is no further away than the stop the signal was sized for. */
  predicate StopCovers(p: Position, sig: Signal) {
    sig.stopLoss.Some? ==>
      if p.direction.Long? then sig.stopLoss.value <= p.stopLoss else p.stopLoss <= sig.stopLoss.value
  }

  /** Adding to a position adds what the added quantity would lose at the old stop. */
  lemma EnlargedLoss(p: Position, sig: Signal, v: Verdict)
    requires v.Approved? && 0.0 < p.quantity && 0.0 < v.quantity && p.direction.IsSide()
    ensures LossAtStop(Enlarged(p, sig, v))
         == LossAtStop(p) + Signed(p.direction, Mul(sig.entry - p.stopLoss, v.quantity))
  {
    var q := Enlarged(p, sig, v);
    PaperLedger.AverageCost(p.quantity, p.entry, v.quantity, sig.entry);
    assert Mul(q.entry, q.quantity) == Mul(p.entry, p.quantity) + Mul(sig.entry, v.quantity);
    LossSigned(p);
    LossSigned(q);
    hide LossAtStop, AverageEntry, Mul;
    MulAdd(p.entry, p.stopLoss, p.quantity);
    MulAdd(q.entry, p.stopLoss, q.quantity);
    MulAdd(sig.entry, p.stopLoss, v.quantity);
    AddRight(p.stopLoss, p.quantity, v.quantity);
  }

  lemma AddRight(x: real, y: real, z: real)
    ensures Mul(x, y + z) == Mul(x, y) + Mul(x, z)
  {
  }

  lemma MulSign(x: real, y: real)
    requires 0.0 < y
    ensures Mul(x, y) <= 0.0 <==> x <= 0.0
  {
    if x <= 0.0 {
      MulLe(x, 0.0, y);
    } else {
      MulLt(0.0, x, y);
    }
  }

  lemma AddedLoss(p: Position, sig: Signal, v: Verdict)
    requires v.Approved? && 0.0 < p.quantity && 0.0 < v.quantity && p.direction.IsSide() && sig.stopLoss.Some?
    requires 0.0 < Signed(p.direction, sig.entry - sig.stopLoss.value)
    ensures var added, sized := LossAtStop(Enlarged(p, sig, v)) - LossAtStop(p),
                                LossAtDistance(v.quantity, Abs(sig.entry - sig.stopLoss.value));
      && added == sized + Signed(p.direction, Mul(sig.stopLoss.value - p.stopLoss, v.quantity))
      && (added <= sized <==> StopCovers(p, sig))
  {
    EnlargedLoss(p, sig, v);
    var stop := sig.stopLoss.value;
    assert LossAtDistance(v.quantity, Abs(sig.entry - stop)) == Signed(p.direction, Mul(sig.entry - stop, v.quantity));
    hide LossAtStop, Enlarged, LossAtDistance;
    MulAdd(sig.entry - stop, stop - p.stopLoss, v.quantity);
    assert sig.entry - stop + (stop - p.stopLoss) == sig.entry - p.stopLoss;
    MulSign(stop - p.stopLoss, v.quantity);
    MulSign(p.stopLoss - stop, v.quantity);
    assert Mul(p.stopLoss - stop, v.quantity) == -Mul(stop - p.stopLoss, v.quantity);
    hide Mul;
  }

  lemma AddShape(d: Account, s: Settings, sig: Signal, v: Verdict)
    requires v.Approved? && sig.takeProfit.Some? && sig.stopLoss.Some? && v.preAction.Dca?
    requires FindCoin(d.positions, sig.coin).Some?
    ensures var i := FindCoin(d.positions, sig.coin).value;
      Enter(d, s, sig, v).positions == d.positions[i := Enlarged(d.positions[i], sig, v)]
  {
    hide Fee, AverageEntry;
  }

  /** Main result on added quantities.  An accepted signal in a coin that is held when it is decided enlarges the
      position, and its stop stays.  The loss at that stop rises by the loss the added quantity was sized for and by the
      way between the two stops, so by no more than the sized loss exactly when the position's stop covers the
      signal's. */
  lemma DcaLoss(a: Account, s: Settings, sig: Signal, now: int)
    requires Sound(a, s)
    ensures var d, r := DecisionAccount(a, s, sig, now), SubmitSignal(a, s, sig, now);
      var i := FindCoin(d.positions, sig.coin);
      r.accepted && i.Some? ==>
        && |r.account.positions| == |d.positions| && sig.stopLoss.Some?
        && var p, q := d.positions[i.value], r.account.positions[i.value];
           var more := q.quantity - p.quantity;
           var sized := LossAtDistance(more, Abs(sig.entry - sig.stopLoss.value));
           && r.account.positions == d.positions[i.value := q]
           && q.stopLoss == p.stopLoss && q.direction == p.direction == sig.direction && 0.0 < more
           && LossAtStop(q) - LossAtStop(p)
              == sized + Signed(p.direction, Mul(sig.stopLoss.value - p.stopLoss, more))
           && (LossAtStop(q) - LossAtStop(p) <= sized <==> StopCovers(p, sig))
  {
    SubmissionShape(a, s, sig, now);
    var d, r := DecisionAccount(a, s, sig, now), SubmitSignal(a, s, sig, now);
    var v := Validate(d, s, sig, now).verdict;
    ApprovedSize(d, s, sig, now);
    ApprovedStop(d, s, sig, now);
    var i := FindCoin(d.positions, sig.coin);
    hide SubmitSignal, DecisionAccount, Validate, Fee, LossAtStop, LossAtDistance, StopCovers, Mul, AverageEntry,
      Enter;
    if r.accepted && i.Some? {
      AddShape(d, s, sig, v);
      AddedLoss(d.positions[i.value], sig, v);
    }
  }

  // ---------- Runs in which stops cover ----------

  /** What is booked for a position covers its loss at the stop, to half a cent for each entry. */
  ghost predicate Booked(p: Position) {
    0.0 <= p.maxLoss && LossAtStop(p) <= p.maxLoss + 0.005 * (1.0 + p.dcaCount as real)
  }

  ghost predicate AllBooked(ps: seq<Position>) {
    forall i :: 0 <= i < |ps| ==> Booked(ps[i])
  }

  /** A signal that would add to a position is sized for a stop that the position's own stop covers. */
  predicate Covering(a: Account, e: Event) {
    e.Submit? ==>
      var i := FindCoin(a.positions, e.signal.coin);
      i.Some? && a.positions[i.value].direction == e.signal.direction ==> StopCovers(a.positions[i.value], e.signal)
  }

  ghost predicate CoveringRun(a: Account, s: Settings, events: seq<Event>)
    decreases |events|
  {
    |events| == 0 || (Covering(a, events[0]) && CoveringRun(Step(a, s, events[0]), s, events[1..]))
  }

  lemma ReducedIsBooked(p: Position, quantity: real, ratio: real, price: real, rate: real)
    requires Booked(p) && p.direction.IsSide() && 0.0 < quantity < p.quantity && 0 <= p.dcaCount
    ensures Booked(Reduced(p, quantity, ratio, price, rate))
  {
    var q := Reduced(p, quantity, ratio, price, rate);
    LossSigned(p);
    LossSigned(q);
    var way := p.entry - p.stopLoss;
    AddRight(way, q.quantity, quantity);
    assert Mul(way, q.quantity) == Mul(q.quantity, way) && Mul(way, quantity) == Mul(quantity, way);
    hide LossAtStop, NetPnl;
    SameSign(way, q.quantity, quantity);
    hide Mul;
  }

  lemma SameSign(way: real, y: real, z: real)
    requires 0.0 < y && 0.0 < z
    ensures 0.0 <= way ==> 0.0 <= Mul(way, y) && 0.0 <= Mul(way, z)
    ensures way <= 0.0 ==> Mul(way, y) <= 0.0 && Mul(way, z) <= 0.0
  {
    MulSign(way, y);
    MulSign(way, z);
    MulSign(-way, y);
    MulSign(-way, z);
  }

  lemma EnlargedIsBooked(p: Position, sig: Signal, v: Verdict)
    requires Booked(p) && v.Approved? && 0.0 < p.quantity && 0.0 < v.quantity && 0.0 <= v.maxLoss
    requires p.direction.IsSide() && p.direction == sig.direction && sig.stopLoss.Some? && StopCovers(p, sig)
    requires 0.0 < Signed(sig.direction, sig.entry - sig.stopLoss.value)
    requires LossAtDistance(v.quantity, Abs(sig.entry - sig.stopLoss.value)) <= v.maxLoss + 0.005
    ensures Booked(Enlarged(p, sig, v))
  {
    AddedLoss(p, sig, v);
    hide LossAtStop, LossAtDistance, AverageEntry, StopCovers;
  }

  lemma EnterKeepsBooked(d: Account, s: Settings, sig: Signal, now: int)
    requires Sound(d, s) && AllBooked(d.positions) && Covering(d, Submit(sig, now))
    requires Validate(d, s, sig, now).verdict.Approved?
    requires !Validate(d, s, sig, now).verdict.preAction.CloseExisting?
    requires sig.takeProfit.Some? && sig.stopLoss.Some?
    ensures AllBooked(Enter(d, s, sig, Validate(d, s, sig, now).verdict).positions)
  {
    var v := Validate(d, s, sig, now).verdict;
    var i := FindCoin(d.positions, sig.coin);
    ApprovedSize(d, s, sig, now);
    ApprovedStop(d, s, sig, now);
    hide Validate, LossAtStop, LossAtDistance, Fee, AverageEntry, StopCovers;
    if v.preAction.Dca? {
      EnlargedIsBooked(d.positions[i.value], sig, v);
    } else {
      LossIsDistance(OpenPosition(d, s, sig, v).positions[|d.positions|]);
    }
  }

  lemma RemovalKeepsBooked(ps: seq<Position>, i: nat)
    requires AllBooked(ps) && i < |ps|
    ensures AllBooked(Without(ps, i))
  {
    hide Booked;
  }

  lemma DecisionIsBooked(a: Account, s: Settings, sig: Signal, now: int)
    requires Sound(a, s) && AllBooked(a.positions) && Covering(a, Submit(sig, now))
    ensures var d := DecisionAccount(a, s, sig, now);
      AllBooked(d.positions) && Covering(d, Submit(sig, now))
  {
    ReversedHasNoCoin(a, s, sig, now);
    hide Booked, Validate, NetPnl, MakeRecord, EntryFeeShare, Without, StopCovers;
    var i := FindCoin(a.positions, sig.coin);
    if i.Some? {
      RemovalKeepsBooked(a.positions, i.value);
    }
  }

  lemma SubmitKeepsBooked(a: Account, s: Settings, sig: Signal, now: int)
    requires Sound(a, s) && AllBooked(a.positions) && Covering(a, Submit(sig, now))
    ensures AllBooked(SubmitSignal(a, s, sig, now).account.positions)
  {
    SubmissionShape(a, s, sig, now);
    var d := DecisionAccount(a, s, sig, now);
    DecisionIsBooked(a, s, sig, now);
    ValidateKeepsPositions(d, s, sig, now);
    hide Validate, SubmitSignal, DecisionAccount, Booked, AllBooked, Enter, Covering;
    if SubmitSignal(a, s, sig, now).accepted {
      EnterKeepsBooked(d, s, sig, now);
    }
  }

  lemma PartialKeepsBooked(a: Account, s: Settings, i: nat, price: real, ratio: real, now: int)
    requires Sound(a, s) && AllBooked(a.positions) && i < |a.positions|
    ensures var b := PartialClose(a, s, i, price, ratio, now);
      b.Some? ==> AllBooked(b.value.positions)
  {
    PartialCase(a, s, i, price, ratio, now);
    var p := a.positions[i];
    if PartialClose(a, s, i, price, ratio, now).Some? {
      PartialQuantityBounds(p.quantity, ratio);
      PartialShape(a, s, i, price, ratio, now);
      hide PartialClose, PartialQuantity, NetPnl, MakeRecord, Reduced, Booked;
      ReducedIsBooked(p, PartialQuantity(p.quantity, ratio), ratio, price, s.feeRate);
    }
  }

  lemma RepricedIsBooked(p: Position, price: real)
    requires Booked(p)
    ensures Booked(p.(current := price))
  {
  }

  /** One engine call keeps every position booked, if a signal that adds to one is sized for a stop it covers. */
  lemma StepKeepsBooked(a: Account, s: Settings, e: Event)
    requires Sound(a, s) && AllBooked(a.positions) && Covering(a, e)
    ensures AllBooked(Step(a, s, e).positions)
  {
    hide SubmitSignal, PartialClose, Hit, Without, NetPnl, MakeRecord, EntryFeeShare, Covering, LossAtStop;
    match e
    case Submit(sig, now) =>
      SubmitKeepsBooked(a, s, sig, now);
    case TickPrice(coin, price, now) =>
      var i := FindCoin(a.positions, coin);
      if i.Some? {
        RemovalKeepsBooked(a.positions, i.value);
        RepricedIsBooked(a.positions[i.value], price);
      }
    case CloseCall(id, price, now) =>
      var i := FindId(a.positions, id);
      if i.Some? {
        RemovalKeepsBooked(a.positions, i.value);
      }
    case PartialCall(id, price, ratio, now) =>
      var i := FindId(a.positions, id);
      if i.Some? {
        PartialKeepsBooked(a, s, i.value, price, ratio, now);
      }
    case PricesCall(prices) =>
      forall i | 0 <= i < |a.positions|
        ensures Booked(UpdatePrices(a, prices).positions[i])
      {
        var p := a.positions[i];
        if p.coin in prices {
          RepricedIsBooked(p, prices[p.coin]);
        }
      }
    case HaltCall =>
    case ResumeCall =>
  }

  lemma {:induction false} RunKeepsBooked(a: Account, s: Settings, events: seq<Event>)
    requires Sound(a, s) && AllBooked(a.positions) && CoveringRun(a, s, events)
    ensures AllBooked(Run(a, s, events).positions)
    decreases |events|
  {
    if |events| > 0 {
      hide Step, Covering, AllBooked;
      StepKeepsSound(a, s, events[0]);
      StepKeepsBooked(a, s, events[0]);
      RunKeepsBooked(Step(a, s, events[0]), s, events[1..]);
    }
  }

  lemma {:induction false} LossesWithinRisk(ps: seq<Position>)
    requires AllBooked(ps) && forall i :: 0 <= i < |ps| ==> ps[i].dcaCount <= MAX_DCA_COUNT
    ensures Sum(ps, LossAtStop) <= Sum(ps, RiskOf) + 0.015 * |ps| as real
  {
    if |ps| > 0 {
      assert Booked(ps[0]);
      hide LossAtStop;
      LossesWithinRisk(ps[1..]);
    }
  }

  /** Main result on stops.  As long as every signal that adds to a position is sized for a stop which that position's
      own stop covers, the risk the account books is real: after any accepted signal, what all open positions together
      would lose at their stops is within the share of the balance on which the signal was decided, up to one and a half
      cents a position. */
  lemma StopsKeepPortfolioRisk(balance: real, s: Settings, events: seq<Event>, sig: Signal, now: int)
    requires CoveringRun(InitialAccount(balance), s, events)
    requires Covering(Run(InitialAccount(balance), s, events), Submit(sig, now))
    ensures var a := Run(InitialAccount(balance), s, events);
      var d, r := DecisionAccount(a, s, sig, now), SubmitSignal(a, s, sig, now);
      r.accepted ==>
        Sum(r.account.positions, LossAtStop)
        <= RiskAmount(d.balance, if s.aggressive then 0.15 else 0.1) + 0.015 * |r.account.positions| as real
  {
    var a := Run(InitialAccount(balance), s, events);
    RunKeepsSound(InitialAccount(balance), s, events);
    RunKeepsBooked(InitialAccount(balance), s, events);
    SubmitKeepsBooked(a, s, sig, now);
    SubmitKeepsSound(a, s, sig, now);
    PaperExposure.AcceptedKeepsPortfolioRisk(a, s, sig, now);
    hide Run, SubmitSignal, DecisionAccount, RiskAmount, Covering, CoveringRun, Booked, AllBooked, Sum;
    LossesWithinRisk(SubmitSignal(a, s, sig, now).account.positions);
  }
}
