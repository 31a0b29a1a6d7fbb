/** The paper trading engine as it runs: positions, the account and the engine are objects that the calls update
    in place.  Each method is proved against the function of the same name on account values in `PaperModel`;
    what the system promises is proved about those. */
module PaperEngine {
  import opened Common
  import opened Decimals
  import opened RiskSizing
  import opened PaperModel
  import opened PaperInvariant

  class PaperPosition {
    const id: nat
    const coin: string
    const direction: Direction
    const leverage: int
    const takeProfit: real
    const stopLoss: real
    var entry: real
    var quantity: real
    var originalQuantity: real
    var margin: real
    var maxLoss: real
    var status: Status
    var realized: real
    var current: real
    var dcaCount: int

    constructor (id: nat, signal: Signal, quantity: real, leverage: int, margin: real, maxLoss: real)
      requires signal.takeProfit.Some? && signal.stopLoss.Some?
      ensures View() == Position(id, signal.coin, signal.direction, signal.entry, quantity, quantity, leverage,
                                 signal.takeProfit.value, signal.stopLoss.value, margin, maxLoss, Open, 0.0,
                                 signal.entry, 0)
    {
      this.id, coin, direction, this.leverage := id, signal.coin, signal.direction, leverage;
      takeProfit, stopLoss := signal.takeProfit.value, signal.stopLoss.value;
      entry, this.quantity, originalQuantity := signal.entry, quantity, quantity;
      this.margin, this.maxLoss := margin, maxLoss;
      status, realized, current, dcaCount := Open, 0.0, signal.entry, 0;
    }

    function View(): Position
      reads this
    {
      Position(id, coin, direction, entry, quantity, originalQuantity, leverage, takeProfit, stopLoss, margin,
               maxLoss, status, realized, current, dcaCount)
    }

    /** The position after it was closed in full. */
    method MarkClosed(price: real, net: real)
      modifies this
      ensures View() == old(View()).(status := Closed, current := price, realized := old(realized) + net)
    {
      status := Closed;
      current := price;
      realized := realized + net;
    }

    /** The position after `closed` of it was sold for `net`, together with that share of its margin. */
    method Reduce(closed: real, ratio: real, price: real, net: real)
      modifies this
      ensures View() == old(View()).(quantity := old(quantity) - closed,
                                     margin := old(margin) - old(margin) * ratio,
                                     realized := old(realized) + net,
                                     status := PartiallyClosed,
                                     current := price)
    {
      var closeMargin := margin * ratio;
      quantity := quantity - closed;
      margin := margin - closeMargin;
      realized := realized + net;
      status := PartiallyClosed;
      current := price;
    }

    /** The position after more of it was bought on a signal. */
    method Enlarge(signal: Signal, v: Verdict)
      requires v.Approved?
      modifies this
      ensures View() == Enlarged(old(View()), signal, v)
    {
      hide AverageEntry;
      var average := AverageEntry(quantity, entry, v.quantity, signal.entry);
      entry := average;
      quantity := quantity + v.quantity;
      originalQuantity := originalQuantity + v.quantity;
      margin := margin + v.margin;
      maxLoss := maxLoss + v.maxLoss;
      dcaCount := dcaCount + 1;
    }

    /** Takes the new price and says whether the target or the stop was reached. */
    method UpdatePrice(price: real) returns (hit: Option<Reason>)
      modifies this`current
      ensures if status.Closed? then hit.None? && View() == old(View())
              else hit == Hit(old(View()), price) && View() == old(View()).(current := price)
    {
      if status.Closed? {
        return None;
      }
      current := price;
      if direction.Long? {
        if takeProfit <= price {
          return Some(TpHit);
        }
        if price <= stopLoss {
          return Some(SlHit);
        }
      } else {
        if price <= takeProfit {
          return Some(TpHit);
        }
        if stopLoss <= price {
          return Some(SlHit);
        }
      }
      return None;
    }
  }

  function Views(ps: seq<PaperPosition>): (vs: seq<Position>)
    reads ps
    ensures |vs| == |ps| && forall k :: 0 <= k < |ps| ==> vs[k] == ps[k].View()
  {
    seq(|ps|, i requires 0 <= i < |ps| reads ps => ps[i].View())
  }

  /** Updating one position leaves the views of the others as they were. */
  lemma ViewsAfter(ps: seq<PaperPosition>, before: seq<Position>, at: nat)
    requires at < |ps| == |before|
    requires forall k :: 0 <= k < |ps| && k != at ==> ps[k].View() == before[k]
    ensures Views(ps) == before[at := ps[at].View()]
  {
  }

  /** Removing one position removes its view. */
  lemma ViewsWithout(ps: seq<PaperPosition>, left: seq<PaperPosition>, before: seq<Position>, at: nat)
    requires at < |ps| == |before| && left == ps[..at] + ps[at + 1..]
    requires forall k :: 0 <= k < |ps| && k != at ==> ps[k].View() == before[k]
    ensures Views(left) == Without(before, at)
  {
  }

  class PaperAccountState {
    var balance: real
    var openPositions: seq<PaperPosition>
    var tradeHistory: seq<Record>
    var isHalted: bool
    var cooldownUntil: Option<int>
    var nextId: nat

    constructor (initialBalance: real)
      ensures View() == InitialAccount(initialBalance) && Valid()
    {
      balance, openPositions, tradeHistory := initialBalance, [], [];
      isHalted, cooldownUntil, nextId := false, None, 0;
    }

    function View(): Account
      reads this, openPositions
    {
      Account(balance, Views(openPositions), tradeHistory, isHalted, cooldownUntil, nextId)
    }

    /** The positions are different objects with different identifiers. */
    ghost predicate Valid()
      reads this, openPositions
    {
      forall i, j :: 0 <= i < j < |openPositions| ==>
        openPositions[i] != openPositions[j] && openPositions[i].id != openPositions[j].id
    }

    method DebitFee(fee: real)
      modifies this`balance
      ensures balance == old(balance) - fee
    {
      balance := balance - fee;
    }

    method CreditPnl(net: real)
      modifies this`balance
      ensures balance == old(balance) + net
    {
      balance := balance + net;
    }

    method AddTrade(record: Record)
      modifies this`tradeHistory
      ensures tradeHistory == old(tradeHistory) + [record]
    {
      tradeHistory := tradeHistory + [record];
    }

    method Halt()
      modifies this`isHalted
      ensures isHalted
    {
      isHalted := true;
    }

    method Resume()
      modifies this`isHalted, this`cooldownUntil
      ensures !isHalted && cooldownUntil.None?
    {
      isHalted := false;
      cooldownUntil := None;
    }

    method SetCooldown(minutes: int, now: int)
      modifies this`cooldownUntil
      ensures cooldownUntil == Some(now + minutes * MINUTE)
    {
      cooldownUntil := Some(now + minutes * MINUTE);
    }

    /** Counts back from the end of the history to the last record that was not a loss. */
    method ConsecutiveLosses() returns (count: nat)
      ensures count == TrailingLosses(tradeHistory)
    {
      count := 0;
      var i := |tradeHistory|;
      assert tradeHistory[..i] == tradeHistory;
      while 0 < i && tradeHistory[i - 1].net < 0.0
        invariant 0 <= i <= |tradeHistory|
        invariant TrailingLosses(tradeHistory) == count + TrailingLosses(tradeHistory[..i])
      {
        assert tradeHistory[..i][..i - 1] == tradeHistory[..i - 1];
        count := count + 1;
        i := i - 1;
      }
    }

    method GetOpenByCoin(coin: string) returns (position: PaperPosition?, ghost at: nat)
      ensures var i := FindCoin(View().positions, coin);
        if i.None? then position == null
        else position == openPositions[i.value] && at == i.value
    {
      for i := 0 to |openPositions|
        invariant forall k :: 0 <= k < i ==> openPositions[k].coin != coin
      {
        if openPositions[i].coin == coin {
          FirstInCoin(View().positions, i, coin);
          return openPositions[i], i;
        }
      }
      position, at := null, 0;
    }

    method GetPosition(id: nat) returns (position: PaperPosition?, ghost at: nat)
      ensures var i := FindId(View().positions, id);
        if i.None? then position == null
        else position == openPositions[i.value] && at == i.value
    {
      for i := 0 to |openPositions|
        invariant forall k :: 0 <= k < i ==> openPositions[k].id != id
      {
        if openPositions[i].id == id {
          FirstWithId(View().positions, i, id);
          return openPositions[i], i;
        }
      }
      position, at := null, 0;
    }

    method AddPosition(position: PaperPosition)
      modifies this`openPositions
      ensures openPositions == old(openPositions) + [position]
    {
      openPositions := openPositions + [position];
    }

    /** Takes out the position with an identifier, or leaves everything as it is when there is none. */
    method RemovePosition(id: nat) returns (removed: PaperPosition?)
      requires Valid()
      modifies this`openPositions
      ensures forall at :: 0 <= at < |old(openPositions)| && old(openPositions)[at].id == id ==>
        removed == old(openPositions)[at]
        && openPositions == old(openPositions)[..at] + old(openPositions)[at + 1..]
      ensures removed == null <==>
        forall at :: 0 <= at < |old(openPositions)| ==> old(openPositions)[at].id != id
      ensures removed == null ==> openPositions == old(openPositions)
    {
      for i := 0 to |openPositions|
        invariant openPositions == old(openPositions)
        invariant forall k :: 0 <= k < i ==> openPositions[k].id != id
      {
        if openPositions[i].id == id {
          removed := openPositions[i];
          openPositions := openPositions[..i] + openPositions[i + 1..];
          return;
        }
      }
      removed := null;
    }
  }

  /** What a call that closes at most one position adds to the history. */
  function Reported(record: Option<Record>): seq<Record> {
    if record.Some? then [record.value] else []
  }

  lemma {:induction false} FirstInCoin(ps: seq<Position>, k: nat, coin: string)
    requires k < |ps| && ps[k].coin == coin && forall j :: 0 <= j < k ==> ps[j].coin != coin
    ensures FindCoin(ps, coin) == Some(k)
  {
    if 0 < k {
      FirstInCoin(ps[1..], k - 1, coin);
    }
  }

  lemma {:induction false} FirstWithId(ps: seq<Position>, k: nat, id: nat)
    requires k < |ps| && ps[k].id == id && forall j :: 0 <= j < k ==> ps[j].id != id
    ensures FindId(ps, id) == Some(k)
  {
    if 0 < k {
      FirstWithId(ps[1..], k - 1, id);
    }
  }

  // ---------- Moving money ----------

  /** Opens, closes and changes positions.  It has no state of its own. */
  class PositionManager {
    static method OpenPosition(account: PaperAccountState, s: Settings, signal: Signal, v: Verdict)
      returns (position: PaperPosition)
      requires account.Valid() && Sound(account.View(), s)
      requires v.Approved? && signal.takeProfit.Some? && signal.stopLoss.Some?
      modifies account
      ensures account.Valid()
      ensures account.View() == PaperModel.OpenPosition(old(account.View()), s, signal, v)
      ensures account.openPositions == old(account.openPositions) + [position] && fresh(position)
      ensures position.coin == signal.coin && account.tradeHistory == old(account.tradeHistory)
    {
      ghost var before := account.View();
      ghost var held := account.openPositions;
      account.DebitFee(Fee(v.quantity, signal.entry, s.feeRate));
      position := new PaperPosition(account.nextId, signal, v.quantity, v.leverage, v.margin, v.maxLoss);
      account.nextId := account.nextId + 1;
      account.AddPosition(position);
      assert forall k :: 0 <= k < |held| ==>
        held[k].View() == before.positions[k] && held[k].id == before.positions[k].id;
      hide Fee;
      assert account.View().positions
          == PaperModel.OpenPosition(before, s, signal, v).positions;
    }

    static method ClosePosition(account: PaperAccountState, s: Settings, position: PaperPosition, ghost at: nat,
                                price: real, reason: Reason, now: int)
      returns (record: Record)
      requires account.Valid() && at < |account.openPositions| && account.openPositions[at] == position
      modifies account, position
      ensures account.Valid()
      ensures account.View() == PaperModel.ClosePosition(old(account.View()), s, at, price, reason, now)
      ensures account.tradeHistory == old(account.tradeHistory) + [record]
      ensures account.openPositions == old(account.openPositions)[..at] + old(account.openPositions)[at + 1..]
      ensures position.status.Closed? && position.current == price
      ensures position.realized ==
        old(position.realized)
        + NetPnl(position.direction, old(position.entry), price, old(position.quantity), s.feeRate)
    {
      hide NetPnl, EntryFeeShare, MakeRecord;
      ghost var before, held := account.View(), account.openPositions;
      var quantity := position.quantity;
      var net := NetPnl(position.direction, position.entry, price, quantity, s.feeRate);
      var entryFee := EntryFeeShare(position.View(), s.feeRate);
      record := MakeRecord(position.View(), price, quantity, entryFee, reason, s.feeRate, now);
      account.CreditPnl(net);
      account.AddTrade(record);
      position.MarkClosed(price, net);
      var _ := account.RemovePosition(position.id);
      assert account.openPositions == held[..at] + held[at + 1..];
      ViewsWithout(held, account.openPositions, before.positions, at);
    }

    /** A ratio outside (0, 1), or a quantity that rounds to nothing, raises an error before anything changes. */
    static method PartialClose(account: PaperAccountState, s: Settings, position: PaperPosition, ghost at: nat,
                               price: real, ratio: real, now: int)
      returns (record: Option<Record>)
      requires account.Valid() && at < |account.openPositions| && account.openPositions[at] == position
      modifies account, position
      ensures account.Valid() && account.openPositions == old(account.openPositions)
      ensures var b := PaperModel.PartialClose(old(account.View()), s, at, price, ratio, now);
        account.View() == if b.None? then old(account.View()) else b.value
      ensures record.Some? <==> PaperModel.PartialClose(old(account.View()), s, at, price, ratio, now).Some?
      ensures account.tradeHistory == old(account.tradeHistory) + Reported(record)
    {
      hide NetPnl, Fee, MakeRecord, PartialQuantity, PaperModel.PartialClose, Reduced;
      PartialCase(account.View(), s, at, price, ratio, now);
      ghost var before := account.View();
      if !(0.0 < ratio < 1.0) {
        return None;
      }
      var quantity := PartialQuantity(position.quantity, ratio);
      if quantity <= 0.0 {
        return None;
      }
      PartialShape(before, s, at, price, ratio, now);
      ghost var was := position.View();
      assert was == before.positions[at];
      var net := NetPnl(position.direction, position.entry, price, quantity, s.feeRate);
      var entryFee := Fee(quantity, position.entry, s.feeRate);
      var r := MakeRecord(position.View(), price, quantity, entryFee, Partial, s.feeRate, now);
      account.CreditPnl(net);
      account.AddTrade(r);
      assert position.View() == was;
      position.Reduce(quantity, ratio, price, net);
      record := Some(r);
      ViewsAfter(account.openPositions, before.positions, at);
      hide Views;
      ReducedView(was, position.View(), quantity, ratio, price, s.feeRate);
    }

    static method ApplyDca(account: PaperAccountState, s: Settings, position: PaperPosition, ghost at: nat,
                           signal: Signal, v: Verdict)
      requires account.Valid() && at < |account.openPositions| && account.openPositions[at] == position
      requires v.Approved?
      modifies account, position
      ensures account.Valid() && account.openPositions == old(account.openPositions)
      ensures account.View() == PaperModel.ApplyDca(old(account.View()), s, at, signal, v)
      ensures account.tradeHistory == old(account.tradeHistory)
    {
      hide Fee, Enlarged;
      ghost var before := account.View();
      account.DebitFee(Fee(v.quantity, signal.entry, s.feeRate));
      position.Enlarge(signal, v);
      ViewsAfter(account.openPositions, before.positions, at);
    }
  }

  // ---------- The engine ----------

  class PaperTradingEngine {
    const settings: Settings
    const account: PaperAccountState

    ghost predicate Valid()
      reads this, account, account.openPositions
    {
      account.Valid() && Sound(account.View(), settings)
    }

    constructor (initialBalance: real, settings: Settings)
      ensures Valid() && fresh(account) && this.settings == settings
      ensures account.View() == InitialAccount(initialBalance)
    {
      this.settings := settings;
      account := new PaperAccountState(initialBalance);
    }

    /** The ordered checks.  Some refusals halt the account or start a cooldown. */
    method Validate(signal: Signal, now: int) returns (v: Verdict)
      requires Valid()
      modifies account
      ensures Valid() && account.openPositions == old(account.openPositions)
      ensures account.View() == PaperModel.Validate(old(account.View()), settings, signal, now).account
      ensures v == PaperModel.Validate(old(account.View()), settings, signal, now).verdict
      ensures account.tradeHistory == old(account.tradeHistory)
    {
      hide Sound, DailyLoss, WeeklyLoss, RiskAmount, RiskRewardOk, InTradingHours, DailyLossOk, WeeklyLossOk,
           CheckSize, InCooldown;
      var a := account.View();
      if a.halted {
        return Rejected(KillSwitch);
      }
      if signal.direction.Hold? {
        return Rejected(HoldSignal);
      }
      if !settings.active {
        return Rejected(TradingInactive);
      }
      if signal.stopLoss.None? || signal.stopLoss.value <= 0.0 {
        return Rejected(NoStopLoss);
      }
      if !RiskRewardOk(signal) {
        return Rejected(BadRiskReward);
      }
      if signal.confidence < 0.6 {
        return Rejected(LowConfidence);
      }
      if !InTradingHours(settings, now) {
        return Rejected(TimeRestriction);
      }
      if !DailyLossOk(DailyLoss(a, now), RiskAmount(a.balance, settings.dailyLossPct),
                      RiskAmount(a.balance, settings.riskPerTrade)) {
        account.Halt();
        SoundAsBefore(a, account.View(), settings);
        return Rejected(DailyLossLimit);
      }
      if !WeeklyLossOk(WeeklyLoss(a, now), RiskAmount(a.balance, settings.weeklyLossPct)) {
        account.Halt();
        SoundAsBefore(a, account.View(), settings);
        return Rejected(WeeklyLossLimit);
      }
      if InCooldown(a, now) {
        return Rejected(ConsecutiveLosses);
      }
      var consecutive := account.ConsecutiveLosses();
      if CONSECUTIVE_LOSS_HALT <= consecutive {
        account.Halt();
        SoundAsBefore(a, account.View(), settings);
        return Rejected(ConsecutiveLosses);
      }
      if CONSECUTIVE_LOSS_COOLDOWN <= consecutive {
        account.SetCooldown(COOLDOWN_MINUTES, now);
        SoundAsBefore(a, account.View(), settings);
        return Rejected(ConsecutiveLosses);
      }
      return CheckSize(a, settings, signal);
    }

    /** Returns the position that a signal opened or enlarged, if it was accepted, or else the code of its refusal, and
        the record of the position that was closed for it, if one was. */
    method SubmitSignal(signal: Signal, now: int)
      returns (accepted: bool, position: PaperPosition?, closedTrade: Option<Record>, code: Option<Code>)
      requires Valid()
      modifies account, account.openPositions
      ensures Valid()
      ensures accepted == PaperModel.SubmitSignal(old(account.View()), settings, signal, now).accepted
      ensures account.View() == PaperModel.SubmitSignal(old(account.View()), settings, signal, now).account
      ensures forall k :: 0 <= k < |account.openPositions| ==>
        account.openPositions[k] in old(account.openPositions) || fresh(account.openPositions[k])
      ensures accepted <==> position != null
      ensures var d := DecisionAccount(old(account.View()), settings, signal, now);
        var v := PaperModel.Validate(d, settings, signal, now).verdict;
        code == if v.Rejected? then Some(v.code) else None
      ensures accepted ==> position in account.openPositions && position.coin == signal.coin
      ensures account.tradeHistory == old(account.tradeHistory) + Reported(closedTrade)
    {
      hide PaperModel.Validate, Sound, PaperModel.Enter, AfterReverse;
      position, closedTrade, code := null, None, None;
      ghost var before := account.View();
      ghost var held := account.openPositions;
      SubmitKeepsSound(before, settings, signal, now);
      ApprovedIsWellFormed(before, settings, signal, now);
      var v := Validate(signal, now);
      accepted := false;
      if v.Rejected? {
        code := Some(v.code);
        return;
      }
      if v.preAction.CloseExisting? {
        closedTrade := CloseOpposite(signal, now);
        ApprovedIsWellFormed(account.View(), settings, signal, now);
        v := Validate(signal, now);
        if v.Rejected? {
          code := Some(v.code);
          return;
        }
      }
      assert forall k :: 0 <= k < |account.openPositions| ==> account.openPositions[k] in held;
      position := EnterPosition(signal, v, now);
      accepted := true;
    }

    /** Reversing begins with closing what is open in the coin, at the entry of the signal. */
    method CloseOpposite(signal: Signal, now: int) returns (record: Option<Record>)
      requires Valid()
      modifies account, account.openPositions
      ensures Valid()
      ensures account.View() == AfterReverse(old(account.View()), settings, signal, now)
      ensures FindCoin(account.View().positions, signal.coin).None?
      ensures account.tradeHistory == old(account.tradeHistory) + Reported(record)
      ensures forall k :: 0 <= k < |account.openPositions| ==> account.openPositions[k] in old(account.openPositions)
    {
      hide PaperModel.ClosePosition, Sound;
      ReversedHasNoCoin(account.View(), settings, signal, now);
      var existing, at := account.GetOpenByCoin(signal.coin);
      record := None;
      if existing != null {
        var r := PositionManager.ClosePosition(account, settings, existing, at, signal.entry, ReverseSignal, now);
        record := Some(r);
      }
    }

    /** An approved signal enlarges the position in its coin or opens a new one. */
    method EnterPosition(signal: Signal, v: Verdict, now: int) returns (position: PaperPosition)
      requires Valid() && v.Approved? && signal.takeProfit.Some? && signal.stopLoss.Some?
      requires v == PaperModel.Validate(account.View(), settings, signal, now).verdict
      requires !v.preAction.CloseExisting?
      modifies account, account.openPositions
      ensures Valid()
      ensures account.View() == Enter(old(account.View()), settings, signal, v)
      ensures forall k :: 0 <= k < |account.openPositions| ==>
        account.openPositions[k] in old(account.openPositions) || fresh(account.openPositions[k])
      ensures position in account.openPositions && position.coin == signal.coin
      ensures account.tradeHistory == old(account.tradeHistory)
    {
      EnterKeepsSound(account.View(), settings, signal, now);
      hide PaperModel.Validate, PaperModel.OpenPosition, PaperModel.ApplyDca, Sound;
      if v.preAction.Dca? {
        var existing, at := account.GetOpenByCoin(signal.coin);
        if existing != null {
          PositionManager.ApplyDca(account, settings, existing, at, signal, v);
          return existing;
        }
      }
      position := PositionManager.OpenPosition(account, settings, signal, v);
    }

    /** A price for a coin: positions whose target or stop it reaches are closed. */
    method Tick(coin: string, price: real, now: int) returns (closed: seq<Record>)
      requires Valid()
      modifies account, account.openPositions
      ensures Valid()
      ensures account.View() == PaperModel.Tick(old(account.View()), settings, coin, price, now)
      ensures forall k :: 0 <= k < |account.openPositions| ==> account.openPositions[k] in old(account.openPositions)
      ensures account.tradeHistory == old(account.tradeHistory) + closed
    {
      ghost var before := account.View();
      TickKeepsSound(before, settings, coin, price, now);
      ghost var m := FindCoin(before.positions, coin);
      var snapshot := account.openPositions;
      closed := [];
      assert forall k :: 0 <= k < |snapshot| ==>
        !snapshot[k].status.Closed? && snapshot[k].coin == before.positions[k].coin;
      ghost var after := PaperModel.Tick(before, settings, coin, price, now);
      hide PaperModel.Tick, Sound, FindCoin, Views, PaperAccountState.View, PaperPosition.View, PaperAccountState.Valid;
      for j := 0 to |snapshot|
        invariant account.Valid()
        invariant m.None? || j <= m.value ==>
          account.View() == before && account.openPositions == snapshot && closed == []
        invariant m.Some? && m.value < j ==> account.View() == after
        invariant account.tradeHistory == old(account.tradeHistory) + closed
        invariant forall k :: 0 <= k < |account.openPositions| ==> account.openPositions[k] in snapshot
      {
        if snapshot[j].coin == coin {
          OnlyPlace(before, settings, j);
          assert m == Some(j as nat);
          closed := TickPosition(snapshot[j], j, price, now);
        } else {
          assert m != Some(j as nat);
        }
      }
      if m.None? {
        TickNowhere(before, settings, coin, price, now);
      }
    }

    method TickPosition(position: PaperPosition, ghost at: nat, price: real, now: int) returns (closed: seq<Record>)
      requires account.Valid() && at < |account.openPositions| && account.openPositions[at] == position
      requires FindCoin(account.View().positions, position.coin) == Some(at)
      requires !position.status.Closed?
      modifies account, position
      ensures account.Valid()
      ensures account.View() == PaperModel.Tick(old(account.View()), settings, position.coin, price, now)
      ensures forall k :: 0 <= k < |account.openPositions| ==> account.openPositions[k] in old(account.openPositions)
      ensures account.tradeHistory == old(account.tradeHistory) + closed
    {
      hide NetPnl, EntryFeeShare, MakeRecord;
      ghost var before := account.View();
      var hit := position.UpdatePrice(price);
      ViewsAfter(account.openPositions, before.positions, at);
      ghost var priced := before.(positions := before.positions[at := before.positions[at].(current := price)]);
      assert account.View() == priced;
      closed := [];
      if hit.Some? {
        PricedCloseSame(before, settings, at, price, hit.value, now);
        var record := PositionManager.ClosePosition(account, settings, position, at, price, hit.value, now);
        closed := [record];
      }
    }

    method ManualClose(id: nat, price: real, now: int) returns (record: Option<Record>)
      requires Valid()
      modifies account, account.openPositions
      ensures Valid()
      ensures account.View() == PaperModel.ManualClose(old(account.View()), settings, id, price, now)
      ensures account.tradeHistory == old(account.tradeHistory) + Reported(record)
      ensures forall k :: 0 <= k < |account.openPositions| ==> account.openPositions[k] in old(account.openPositions)
    {
      StepKeepsSound(account.View(), settings, CloseCall(id, price, now));
      hide PaperModel.ClosePosition, Sound;
      var position, at := account.GetPosition(id);
      if position == null {
        return None;
      }
      var r := PositionManager.ClosePosition(account, settings, position, at, price, Manual, now);
      record := Some(r);
    }

    method ManualPartialClose(id: nat, price: real, ratio: real, now: int) returns (record: Option<Record>)
      requires Valid()
      modifies account, account.openPositions
      ensures Valid()
      ensures account.View() == PaperModel.ManualPartialClose(old(account.View()), settings, id, price, ratio, now)
      ensures account.tradeHistory == old(account.tradeHistory) + Reported(record)
      ensures account.openPositions == old(account.openPositions)
    {
      StepKeepsSound(account.View(), settings, PartialCall(id, price, ratio, now));
      hide PaperModel.PartialClose, Sound;
      var position, at := account.GetPosition(id);
      if position == null {
        return None;
      }
      record := PositionManager.PartialClose(account, settings, position, at, price, ratio, now);
    }

    method UpdatePrices(prices: map<string, real>)
      requires Valid()
      modifies account.openPositions
      ensures Valid()
      ensures account.View() == PaperModel.UpdatePrices(old(account.View()), prices)
      ensures account.openPositions == old(account.openPositions)
    {
      ghost var before := account.View();
      StepKeepsSound(before, settings, PricesCall(prices));
      ghost var after := PaperModel.UpdatePrices(before, prices).positions;
      var positions := account.openPositions;
      for j := 0 to |positions|
        invariant forall k :: 0 <= k < |positions| ==>
          positions[k].View() == if k < j then after[k] else before.positions[k]
      {
        if positions[j].coin in prices {
          positions[j].current := prices[positions[j].coin];
        }
      }
      assert account.View().positions == after;
    }

    method Halt()
      requires Valid()
      modifies account
      ensures Valid() && account.openPositions == old(account.openPositions)
      ensures account.View() == Step(old(account.View()), settings, HaltCall)
    {
      StepKeepsSound(account.View(), settings, HaltCall);
      account.Halt();
    }

    method Resume()
      requires Valid()
      modifies account
      ensures Valid() && account.openPositions == old(account.openPositions)
      ensures account.View() == Step(old(account.View()), settings, ResumeCall)
    {
      StepKeepsSound(account.View(), settings, ResumeCall);
      account.Resume();
    }
  }

  lemma ReducedView(p: Position, q: Position, quantity: real, ratio: real, price: real, rate: real)
    requires q == p.(quantity := p.quantity - quantity,
                     margin := p.margin - p.margin * ratio,
                     realized := p.realized + NetPnl(p.direction, p.entry, price, quantity, rate),
                     status := PartiallyClosed,
                     current := price)
    ensures q == Reduced(p, quantity, ratio, price, rate)
  {
    hide NetPnl;
  }

  lemma ApprovedIsWellFormed(a: Account, s: Settings, signal: Signal, now: int)
    ensures var v := PaperModel.Validate(a, s, signal, now);
      v.verdict.Approved? ==>
        signal.takeProfit.Some? && signal.stopLoss.Some? && v.account == a
        && (FindCoin(a.positions, signal.coin).None? ==> v.verdict.preAction.NoAction?)
  {
    if PaperModel.Validate(a, s, signal, now).verdict.Approved? {
      ApprovedSize(a, s, signal, now);
    }
  }

  lemma OnlyPlace(a: Account, s: Settings, j: nat)
    requires Sound(a, s) && j < |a.positions|
    ensures FindCoin(a.positions, a.positions[j].coin) == Some(j)
  {
  }

  lemma TickKeepsSound(a: Account, s: Settings, coin: string, price: real, now: int)
    requires Sound(a, s)
    ensures Sound(PaperModel.Tick(a, s, coin, price, now), s)
  {
    StepKeepsSound(a, s, TickPrice(coin, price, now));
    hide PaperModel.Tick, Sound;
  }

  lemma TickNowhere(a: Account, s: Settings, coin: string, price: real, now: int)
    requires FindCoin(a.positions, coin).None?
    ensures PaperModel.Tick(a, s, coin, price, now) == a
  {
  }

  /** The price last seen plays no part in closing a position. */
  lemma PricedCloseSame(a: Account, s: Settings, i: nat, price: real, reason: Reason, now: int)
    requires i < |a.positions|
    ensures PaperModel.ClosePosition(
              a.(positions := a.positions[i := a.positions[i].(current := price)]), s, i, price, reason, now)
         == PaperModel.ClosePosition(a, s, i, price, reason, now)
  {
    var p := a.positions[i];
    var q := p.(current := price);
    assert EntryFeeShare(q, s.feeRate) == EntryFeeShare(p, s.feeRate);
    hide NetPnl, GrossPnl, Fee, Quantize, EntryFeeShare;
    assert MakeRecord(q, price, p.quantity, EntryFeeShare(q, s.feeRate), reason, s.feeRate, now)
        == MakeRecord(p, price, p.quantity, EntryFeeShare(p, s.feeRate), reason, s.feeRate, now);
    assert Without(a.positions[i := q], i) == Without(a.positions, i);
  }

  lemma SoundAsBefore(a: Account, b: Account, s: Settings)
    requires Sound(a, s) && b.positions == a.positions && b.nextId == a.nextId
    ensures Sound(b, s)
  {
  }
}
