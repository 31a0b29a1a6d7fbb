/** The paper account refines a naive cash ledger.

    The ledger knows nothing of positions, entries or profit.  It only sees fills: so much of a coin bought
    (positive) or sold (negative) at a price, paid for in cash together with a fee on the value traded. */
module PaperLedger {
  import opened Common
  import opened Decimals
  import opened RiskSizing
  import opened PaperModel
  import opened PaperInvariant
  import opened PaperGate

  // ---------- The ledger ----------

  datatype Fill = Fill(coin: string, quantity: real, price: real)

  /** The cash a fill brings in: minus the value bought, minus the fee. */
  function CashOf(quantity: real, price: real, rate: real): real {
    -quantity * price - Fee(Abs(quantity), price, rate)
  }

  /** The cash left after the fills, in order. */
  function Cash(cash: real, fills: seq<Fill>, rate: real): real
    decreases |fills|
  {
    if |fills| == 0 then cash
    else Cash(cash + CashOf(fills[0].quantity, fills[0].price, rate), fills[1..], rate)
  }

  /** The quantity of a coin that the fills add up to. */
  function Holding(fills: seq<Fill>, coin: string): real {
    if |fills| == 0 then 0.0
    else (if fills[0].coin == coin then fills[0].quantity else 0.0) + Holding(fills[1..], coin)
  }

  // ---------- The account, seen from the ledger ----------

  function SignedQuantity(p: Position): real {
    p.direction.Sign() * p.quantity
  }

  /** What the position cost, negative for a short. */
  function SignedCost(p: Position): real {
    p.direction.Sign() * (p.entry * p.quantity)
  }

  function OpenCost(ps: seq<Position>): real {
    Sum(ps, SignedCost)
  }

  /** The net quantity held in a coin. */
  function Held(ps: seq<Position>, coin: string): real {
    var i := FindCoin(ps, coin);
    if i.None? then 0.0 else SignedQuantity(ps[i.value])
  }

  /** The coin and the price at which a call trades, if it trades at all. */
  function Traded(a: Account, e: Event): Option<(string, real)> {
    match e
    case Submit(sig, _) => Some((sig.coin, sig.entry))
    case TickPrice(coin, price, _) => Some((coin, price))
    case CloseCall(id, price, _) =>
      var i := FindId(a.positions, id);
      if i.Some? then Some((a.positions[i.value].coin, price)) else None
    case PartialCall(id, price, _, _) =>
      var i := FindId(a.positions, id);
      if i.Some? then Some((a.positions[i.value].coin, price)) else None
    case PricesCall(_) => None
    case HaltCall => None
    case ResumeCall => None
  }

  /** The trades of a call as fills: the change of the net quantity, at the price of the call. */
  function FillsOf(a: Account, b: Account, e: Event): seq<Fill> {
    var t := Traded(a, e);
    if t.None? then []
    else [Fill(t.value.0, Held(b.positions, t.value.0) - Held(a.positions, t.value.0), t.value.1)]
  }

  function Fills(a: Account, s: Settings, events: seq<Event>): seq<Fill>
    decreases |events|
  {
    if |events| == 0 then []
    else
      var b := Step(a, s, events[0]);
      FillsOf(a, b, events[0]) + Fills(b, s, events[1..])
  }

  // ---------- Sums over positions ----------

  lemma {:induction false} SumConcat(ps: seq<Position>, qs: seq<Position>, f: Position -> real)
    ensures Sum(ps + qs, f) == Sum(ps, f) + Sum(qs, f)
  {
    if |ps| == 0 {
      assert ps + qs == qs;
    } else {
      assert (ps + qs)[1..] == ps[1..] + qs;
      SumConcat(ps[1..], qs, f);
    }
  }

  lemma SumOne(p: Position, f: Position -> real)
    ensures Sum([p], f) == f(p)
  {
  }

  lemma SumAround(ps: seq<Position>, i: nat, f: Position -> real)
    requires i < |ps|
    ensures Sum(ps, f) == Sum(Without(ps, i), f) + f(ps[i])
  {
    hide Sum;
    assert ps == ps[..i] + ([ps[i]] + ps[i + 1..]);
    SumOne(ps[i], f);
    SumConcat(ps[..i], [ps[i]] + ps[i + 1..], f);
    SumConcat([ps[i]], ps[i + 1..], f);
    SumConcat(ps[..i], ps[i + 1..], f);
  }

  lemma SumReplace(ps: seq<Position>, i: nat, p: Position, f: Position -> real)
    requires i < |ps|
    ensures Sum(ps[i := p], f) == Sum(ps, f) - f(ps[i]) + f(p)
  {
    SumAround(ps, i, f);
    SumAround(ps[i := p], i, f);
    assert Without(ps[i := p], i) == Without(ps, i);
  }

  // ---------- One trade on the books ----------

  /** Between the two accounts exactly one trade in the coin happened: the balance less the cost of what is
      open moved by the cash of that trade, and nothing else was traded. */
  ghost predicate Booked(a: Account, b: Account, coin: string, price: real, rate: real) {
    && b.balance - OpenCost(b.positions) ==
       a.balance - OpenCost(a.positions)
       + CashOf(Held(b.positions, coin) - Held(a.positions, coin), price, rate)
    && (forall c :: c != coin ==> Held(b.positions, c) == Held(a.positions, c))
  }

  lemma NothingBooked(a: Account, b: Account, coin: string, price: real, rate: real)
    requires a.balance == b.balance && OpenCost(a.positions) == OpenCost(b.positions)
    requires forall c :: Held(b.positions, c) == Held(a.positions, c)
    ensures Booked(a, b, coin, price, rate)
  {
    assert CashOf(0.0, price, rate) == 0.0;
    hide CashOf, OpenCost, Held;
  }

  /** Two trades on the same side at one price are one trade. */
  lemma CashAdds(x: real, y: real, price: real, rate: real)
    requires (0.0 <= x && 0.0 <= y) || (x <= 0.0 && y <= 0.0)
    ensures CashOf(x + y, price, rate) == CashOf(x, price, rate) + CashOf(y, price, rate)
  {
    assert Abs(x + y) == Abs(x) + Abs(y);
    assert Fee(Abs(x) + Abs(y), price, rate) == Fee(Abs(x), price, rate) + Fee(Abs(y), price, rate);
    hide Fee, Abs;
  }

  lemma OpenCash(direction: Direction, quantity: real, price: real, rate: real)
    requires direction.IsSide() && 0.0 <= quantity
    ensures CashOf(direction.Sign() * quantity, price, rate)
         == -Fee(quantity, price, rate) - direction.Sign() * (price * quantity)
  {
    hide Fee;
  }

  lemma CloseCash(direction: Direction, entry: real, close: real, quantity: real, rate: real)
    requires direction.IsSide() && 0.0 <= quantity
    ensures CashOf(-direction.Sign() * quantity, close, rate)
         == NetPnl(direction, entry, close, quantity, rate) + direction.Sign() * (entry * quantity)
  {
    hide Fee;
  }

  lemma AverageCost(q0: real, e0: real, q1: real, e1: real)
    requires q0 + q1 != 0.0
    ensures AverageEntry(q0, e0, q1, e1) * (q0 + q1) == q0 * e0 + q1 * e1
  {
    MulDiv(q0 * e0 + q1 * e1, q0 + q1);
  }

  /** Enlarging adds the cost of what was bought. */
  lemma EnlargedCost(p: Position, sig: Signal, v: Verdict)
    requires v.Approved? && 0.0 < p.quantity && 0.0 < v.quantity && p.direction == sig.direction
    ensures SignedCost(Enlarged(p, sig, v)) == SignedCost(p) + sig.direction.Sign() * (sig.entry * v.quantity)
    ensures SignedQuantity(Enlarged(p, sig, v)) == SignedQuantity(p) + sig.direction.Sign() * v.quantity
  {
    AverageCost(p.quantity, p.entry, v.quantity, sig.entry);
    hide AverageEntry;
  }

  lemma ReducedCost(p: Position, quantity: real, ratio: real, price: real, rate: real)
    ensures SignedCost(Reduced(p, quantity, ratio, price, rate))
         == SignedCost(p) - p.direction.Sign() * (p.entry * quantity)
    ensures SignedQuantity(Reduced(p, quantity, ratio, price, rate))
         == SignedQuantity(p) - p.direction.Sign() * quantity
  {
    hide NetPnl;
  }

  // ---------- Where a position is found ----------

  lemma HeldAt(ps: seq<Position>, i: nat)
    requires Apart(ps) && i < |ps|
    ensures FindCoin(ps, ps[i].coin) == Some(i)
  {
  }

  lemma HeldIs(ps: seq<Position>, i: nat)
    requires Apart(ps) && i < |ps|
    ensures Held(ps, ps[i].coin) == SignedQuantity(ps[i]) == ps[i].direction.Sign() * ps[i].quantity
    ensures SignedCost(ps[i]) == ps[i].direction.Sign() * (ps[i].entry * ps[i].quantity)
  {
    HeldAt(ps, i);
  }

  lemma HeldReplace(ps: seq<Position>, i: nat, p: Position, c: string)
    requires Apart(ps) && i < |ps| && p.coin == ps[i].coin
    ensures Held(ps[i := p], c) == if c == p.coin then SignedQuantity(p) else Held(ps, c)
  {
    var qs := ps[i := p];
    var k := FindCoin(ps, c);
    if k.Some? {
      HeldUnique(qs, k.value, c);
    }
    hide SignedQuantity;
  }

  /** A coin is found at its only place. */
  lemma HeldUnique(ps: seq<Position>, k: nat, c: string)
    requires k < |ps| && ps[k].coin == c
    requires forall j :: 0 <= j < |ps| && ps[j].coin == c ==> j == k
    ensures FindCoin(ps, c) == Some(k)
  {
  }

  lemma HeldWithout(ps: seq<Position>, i: nat, c: string)
    requires Apart(ps) && i < |ps|
    ensures Held(Without(ps, i), c) == if c == ps[i].coin then 0.0 else Held(ps, c)
  {
    var k, qs := FindCoin(ps, c), Without(ps, i);
    if k.Some? && k.value != i {
      HeldUnique(qs, if k.value < i then k.value else k.value - 1, c);
    }
    hide SignedQuantity;
  }

  lemma HeldAppend(ps: seq<Position>, p: Position, c: string)
    requires FindCoin(ps, p.coin).None?
    ensures Held(ps + [p], c) == if c == p.coin then SignedQuantity(p) else Held(ps, c)
  {
    var k, qs := FindCoin(ps, c), ps + [p];
    hide SignedQuantity;
    if c == p.coin {
      HeldUnique(qs, |ps|, c);
    } else if k.Some? {
      FindPrefix(ps, [p], c);
    }
  }

  lemma {:induction false} FindPrefix(ps: seq<Position>, qs: seq<Position>, c: string)
    requires FindCoin(ps, c).Some?
    ensures FindCoin(ps + qs, c) == FindCoin(ps, c)
  {
    assert (ps + qs)[0] == ps[0];
    if ps[0].coin != c {
      assert (ps + qs)[1..] == ps[1..] + qs;
      FindPrefix(ps[1..], qs, c);
    }
  }

  lemma HeldNowhere(ps: seq<Position>, c: string)
    requires FindCoin(ps, c).None?
    ensures Held(ps, c) == 0.0
  {
  }

  // ---------- Each operation is one trade ----------

  lemma OpenBooked(a: Account, s: Settings, sig: Signal, v: Verdict)
    requires v.Approved? && 0.0 < v.quantity
    requires sig.direction.IsSide() && sig.takeProfit.Some? && sig.stopLoss.Some?
    requires FindCoin(a.positions, sig.coin).None?
    ensures Booked(a, OpenPosition(a, s, sig, v), sig.coin, sig.entry, s.feeRate)
    ensures Held(OpenPosition(a, s, sig, v).positions, sig.coin) == sig.direction.Sign() * v.quantity
  {
    hide CashOf, Fee, SignedQuantity, SignedCost, Held, Sum;
    var b := OpenPosition(a, s, sig, v);
    var p := b.positions[|a.positions|];
    HeldIs([p], 0);
    OpenCash(sig.direction, v.quantity, sig.entry, s.feeRate);
    SumAppend(a.positions, p, SignedCost);
    forall c
      ensures Held(b.positions, c) == if c == sig.coin then SignedQuantity(p) else Held(a.positions, c)
    {
      HeldAppend(a.positions, p, c);
    }
    HeldNowhere(a.positions, sig.coin);
  }

  /** Selling `quantity` out of position `i`, which leaves `left` of its cost. */
  lemma ReductionBooked(a: Account, b: Account, i: nat, quantity: real, price: real, rate: real)
    requires Apart(a.positions) && i < |a.positions|
    requires var p := a.positions[i];
      && p.direction.IsSide() && 0.0 <= quantity
      && b.balance == a.balance + NetPnl(p.direction, p.entry, price, quantity, rate)
      && OpenCost(b.positions) == OpenCost(a.positions) - p.direction.Sign() * (p.entry * quantity)
      && (forall c :: Held(b.positions, c)
                      == Held(a.positions, c) - if c == p.coin then p.direction.Sign() * quantity else 0.0)
    ensures Booked(a, b, a.positions[i].coin, price, rate)
  {
    var p := a.positions[i];
    CloseCash(p.direction, p.entry, price, quantity, rate);
    assert -p.direction.Sign() * quantity == -(p.direction.Sign() * quantity);
    hide CashOf, NetPnl, Held, OpenCost;
  }

  lemma CloseBooked(a: Account, s: Settings, i: nat, price: real, reason: Reason, now: int)
    requires Sound(a, s) && i < |a.positions|
    ensures Booked(a, ClosePosition(a, s, i, price, reason, now), a.positions[i].coin, price, s.feeRate)
    ensures Held(ClosePosition(a, s, i, price, reason, now).positions, a.positions[i].coin) == 0.0
  {
    hide NetPnl, MakeRecord, EntryFeeShare, SignedQuantity, SignedCost, Held, Sum, Without;
    var b, p := ClosePosition(a, s, i, price, reason, now), a.positions[i];
    HeldIs(a.positions, i);
    SumAround(a.positions, i, SignedCost);
    forall c
      ensures Held(b.positions, c)
           == Held(a.positions, c) - if c == p.coin then p.direction.Sign() * p.quantity else 0.0
    {
      HeldWithout(a.positions, i, c);
    }
    HeldWithout(a.positions, i, p.coin);
    ReductionBooked(a, b, i, p.quantity, price, s.feeRate);
  }

  lemma PartialBooked(a: Account, s: Settings, i: nat, price: real, ratio: real, now: int)
    requires Sound(a, s) && i < |a.positions| && PartialClose(a, s, i, price, ratio, now).Some?
    ensures Booked(a, PartialClose(a, s, i, price, ratio, now).value, a.positions[i].coin, price, s.feeRate)
  {
    hide NetPnl, MakeRecord, PartialQuantity, SignedQuantity, SignedCost, Held, Sum, Reduced, PartialClose, Fee;
    PartialShape(a, s, i, price, ratio, now);
    var b, p := PartialClose(a, s, i, price, ratio, now).value, a.positions[i];
    var quantity := PartialQuantity(p.quantity, ratio);
    var q := Reduced(p, quantity, ratio, price, s.feeRate);
    HeldIs(a.positions, i);
    ReducedCost(p, quantity, ratio, price, s.feeRate);
    SumReplace(a.positions, i, q, SignedCost);
    forall c
      ensures Held(b.positions, c)
           == Held(a.positions, c) - if c == p.coin then p.direction.Sign() * quantity else 0.0
    {
      HeldReplace(a.positions, i, q, c);
    }
    ReductionBooked(a, b, i, quantity, price, s.feeRate);
  }

  lemma EnlargedKeeps(p: Position, sig: Signal, v: Verdict)
    requires v.Approved?
    ensures var q := Enlarged(p, sig, v); q.coin == p.coin && q.id == p.id && q.direction == p.direction
  {
    hide AverageEntry;
  }

  lemma DcaBooked(a: Account, s: Settings, i: nat, sig: Signal, v: Verdict)
    requires Sound(a, s) && i < |a.positions| && v.Approved? && 0.0 < v.quantity
    requires a.positions[i].coin == sig.coin && a.positions[i].direction == sig.direction
    ensures Booked(a, ApplyDca(a, s, i, sig, v), sig.coin, sig.entry, s.feeRate)
  {
    hide Fee, CashOf, SignedQuantity, SignedCost, Held, Sum, Enlarged;
    var b, p := ApplyDca(a, s, i, sig, v), a.positions[i];
    var q := Enlarged(p, sig, v);
    HeldIs(a.positions, i);
    EnlargedKeeps(p, sig, v);
    EnlargedCost(p, sig, v);
    SumReplace(a.positions, i, q, SignedCost);
    OpenCash(sig.direction, v.quantity, sig.entry, s.feeRate);
    forall c
      ensures Held(b.positions, c)
           == Held(a.positions, c) + if c == sig.coin then sig.direction.Sign() * v.quantity else 0.0
    {
      HeldReplace(a.positions, i, q, c);
    }
  }

  // ---------- Each call is one trade ----------

  /** An approved entry trades on the side of the signal. */
  lemma EnterBooked(a: Account, s: Settings, sig: Signal, now: int)
    requires Sound(a, s)
    requires Validate(a, s, sig, now).verdict.Approved?
    requires !Validate(a, s, sig, now).verdict.preAction.CloseExisting?
    requires sig.takeProfit.Some? && sig.stopLoss.Some?
    ensures Booked(a, Enter(a, s, sig, Validate(a, s, sig, now).verdict), sig.coin, sig.entry, s.feeRate)
    ensures FindCoin(a.positions, sig.coin).None? ==>
      var v := Validate(a, s, sig, now).verdict;
      0.0 < v.quantity && Held(Enter(a, s, sig, v).positions, sig.coin) == sig.direction.Sign() * v.quantity
  {
    var v := Validate(a, s, sig, now).verdict;
    ApprovedSize(a, s, sig, now);
    hide Validate, Booked, Held;
    if v.preAction.Dca? {
      DcaBooked(a, s, FindCoin(a.positions, sig.coin).value, sig, v);
    } else {
      OpenBooked(a, s, sig, v);
    }
  }

  /** Closing one side and opening the other at the same price books as a single trade. */
  lemma BookedTwice(a: Account, b: Account, c: Account, coin: string, price: real, rate: real)
    requires Booked(a, b, coin, price, rate) && Booked(b, c, coin, price, rate)
    requires Held(b.positions, coin) == 0.0
    requires Held(a.positions, coin) <= 0.0 <= Held(c.positions, coin)
          || Held(c.positions, coin) <= 0.0 <= Held(a.positions, coin)
    ensures Booked(a, c, coin, price, rate)
  {
    hide CashOf, OpenCost, Held;
    CashAdds(-Held(a.positions, coin), Held(c.positions, coin), price, rate);
  }

  lemma ReverseBooked(a: Account, s: Settings, sig: Signal, now: int)
    requires Sound(a, s)
    ensures Booked(a, AfterReverse(a, s, sig, now), sig.coin, sig.entry, s.feeRate)
    ensures Held(AfterReverse(a, s, sig, now).positions, sig.coin) == 0.0
  {
    var i := FindCoin(a.positions, sig.coin);
    if i.Some? {
      CloseBooked(a, s, i.value, sig.entry, ReverseSignal, now);
    } else {
      NothingBooked(a, a, sig.coin, sig.entry, s.feeRate);
    }
  }

  /** Where the two trades of a reversal stand: the old side was the opposite of the new one. */
  lemma ReversalSides(a: Account, s: Settings, sig: Signal, now: int)
    requires Sound(a, s) && sig.direction.IsSide()
    requires Validate(a, s, sig, now).verdict.Approved?
    requires Validate(a, s, sig, now).verdict.preAction.CloseExisting?
    ensures sig.direction.Long? ==> Held(a.positions, sig.coin) <= 0.0
    ensures sig.direction.Short? ==> 0.0 <= Held(a.positions, sig.coin)
  {
    ApprovedSize(a, s, sig, now);
    hide Validate;
  }

  /** The account in which a signal is decided is the one before it, or that with the opposite side closed. */
  lemma DecisionCases(a: Account, s: Settings, sig: Signal, now: int)
    ensures var v := Validate(a, s, sig, now).verdict;
      DecisionAccount(a, s, sig, now) ==
        if v.Approved? && v.preAction.CloseExisting? then AfterReverse(a, s, sig, now) else a
  {
    hide Validate, AfterReverse;
  }

  lemma SubmitBooked(a: Account, s: Settings, sig: Signal, now: int)
    requires Sound(a, s)
    ensures Booked(a, SubmitSignal(a, s, sig, now).account, sig.coin, sig.entry, s.feeRate)
  {
    hide Validate, SubmitSignal, DecisionAccount, AfterReverse, Enter, Held, Booked, OpenCost;
    var d, r := DecisionAccount(a, s, sig, now), SubmitSignal(a, s, sig, now);
    SubmissionShape(a, s, sig, now);
    DecisionCases(a, s, sig, now);
    ReverseBooked(a, s, sig, now);
    if r.accepted {
      ApprovedSize(d, s, sig, now);
      EnterBooked(d, s, sig, now);
      if d != a {
        ReversedHasNoCoin(a, s, sig, now);
        ReversalSides(a, s, sig, now);
        BookedTwice(a, d, r.account, sig.coin, sig.entry, s.feeRate);
      }
    } else {
      ValidateKeepsPositions(d, s, sig, now);
      RefusalBooked(a, d, r.account, sig.coin, sig.entry, s.feeRate);
    }
  }

  /** A refusal after a reverse close, or none, books no more than that close. */
  lemma RefusalBooked(a: Account, d: Account, b: Account, coin: string, price: real, rate: real)
    requires a == d || Booked(a, d, coin, price, rate)
    requires b.balance == d.balance && b.positions == d.positions
    ensures Booked(a, b, coin, price, rate)
  {
    hide CashOf, OpenCost, Held;
    if a == d {
      NothingBooked(a, b, coin, price, rate);
    }
  }

  lemma SameBooks(a: Account, b: Account, coin: string, price: real, rate: real)
    requires Apart(a.positions) && |a.positions| == |b.positions| && a.balance == b.balance
    requires forall k :: 0 <= k < |a.positions| ==>
      && b.positions[k].coin == a.positions[k].coin
      && SignedQuantity(b.positions[k]) == SignedQuantity(a.positions[k])
      && SignedCost(b.positions[k]) == SignedCost(a.positions[k])
    ensures Booked(a, b, coin, price, rate)
    ensures forall c :: Held(b.positions, c) == Held(a.positions, c)
    ensures OpenCost(b.positions) == OpenCost(a.positions)
  {
    SumSame(a.positions, b.positions, SignedCost);
    hide SignedQuantity, SignedCost;
    forall c
      ensures Held(b.positions, c) == Held(a.positions, c)
    {
      var k := FindCoin(b.positions, c);
      if k.Some? {
        HeldUnique(a.positions, k.value, c);
      }
    }
    NothingBooked(a, b, coin, price, rate);
  }

  lemma {:induction false} SumSame(ps: seq<Position>, qs: seq<Position>, f: Position -> real)
    requires |ps| == |qs| && forall k :: 0 <= k < |ps| ==> f(ps[k]) == f(qs[k])
    ensures Sum(ps, f) == Sum(qs, f)
  {
    if |ps| > 0 {
      SumSame(ps[1..], qs[1..], f);
    }
  }

  /** Every engine call books one trade in the coin it trades, or none. */
  lemma StepBooked(a: Account, s: Settings, e: Event)
    requires Sound(a, s)
    ensures var t := Traded(a, e);
      t.Some? ==> Booked(a, Step(a, s, e), t.value.0, t.value.1, s.feeRate)
    ensures var b := Step(a, s, e);
      Traded(a, e).None? ==>
        b.balance == a.balance && OpenCost(b.positions) == OpenCost(a.positions)
        && forall c :: Held(b.positions, c) == Held(a.positions, c)
  {
    hide SubmitSignal, ClosePosition, PartialClose, Hit, Held, OpenCost, CashOf, SignedQuantity, SignedCost;
    var b := Step(a, s, e);
    match e
    case Submit(sig, now) =>
      SubmitBooked(a, s, sig, now);
    case TickPrice(coin, price, now) =>
      var i := FindCoin(a.positions, coin);
      if i.None? {
        NothingBooked(a, b, coin, price, s.feeRate);
      } else if Hit(a.positions[i.value], price).Some? {
        CloseBooked(a, s, i.value, price, Hit(a.positions[i.value], price).value, now);
      } else {
        PricedSame(a.positions[i.value], price);
        SameBooks(a, b, coin, price, s.feeRate);
      }
    case CloseCall(id, price, now) =>
      var i := FindId(a.positions, id);
      if i.Some? {
        CloseBooked(a, s, i.value, price, Manual, now);
      }
    case PartialCall(id, price, ratio, now) =>
      var i := FindId(a.positions, id);
      if i.Some? {
        if PartialClose(a, s, i.value, price, ratio, now).Some? {
          PartialBooked(a, s, i.value, price, ratio, now);
        } else {
          NothingBooked(a, b, a.positions[i.value].coin, price, s.feeRate);
        }
      }
    case PricesCall(prices) =>
      forall k | 0 <= k < |a.positions|
        ensures SignedQuantity(b.positions[k]) == SignedQuantity(a.positions[k])
             && SignedCost(b.positions[k]) == SignedCost(a.positions[k])
      {
        PricedSame(a.positions[k], b.positions[k].current);
      }
      SameBooks(a, b, "", 0.0, s.feeRate);
    case HaltCall =>
    case ResumeCall =>
  }

  lemma PricedSame(p: Position, price: real)
    ensures var q := p.(current := price); SignedQuantity(q) == SignedQuantity(p) && SignedCost(q) == SignedCost(p)
  {
  }

  // ---------- Whole runs ----------

  /** The first fill of a call, if it has one. */
  lemma FillsCash(a: Account, s: Settings, e: Event, rest: seq<Fill>, cash: real)
    requires Sound(a, s)
    ensures var b := Step(a, s, e);
      cash == a.balance - OpenCost(a.positions) ==>
        Cash(cash, FillsOf(a, b, e) + rest, s.feeRate) == Cash(b.balance - OpenCost(b.positions), rest, s.feeRate)
    ensures forall c :: var b := Step(a, s, e);
      Holding(FillsOf(a, b, e) + rest, c) == Held(b.positions, c) - Held(a.positions, c) + Holding(rest, c)
  {
    hide Step, Held, OpenCost, CashOf, Sound;
    StepBooked(a, s, e);
    var b := Step(a, s, e);
    var fills := FillsOf(a, b, e);
    if fills == [] {
      assert fills + rest == rest;
    } else {
      assert (fills + rest)[1..] == rest;
    }
  }

  /** Over any run, the balance less the cost of what is open is the ledger's cash, and the net quantity in
      every coin is the ledger's holding, both counted from where the run began. */
  lemma {:induction false} RunRefinesLedger(a: Account, s: Settings, events: seq<Event>)
    requires Sound(a, s)
    ensures var b := Run(a, s, events);
      b.balance - OpenCost(b.positions) == Cash(a.balance - OpenCost(a.positions), Fills(a, s, events), s.feeRate)
    ensures forall c :: var b := Run(a, s, events);
      Held(b.positions, c) == Held(a.positions, c) + Holding(Fills(a, s, events), c)
    decreases |events|
  {
    hide Step, Held, OpenCost, CashOf, Sound, FillsOf;
    if |events| > 0 {
      var b := Step(a, s, events[0]);
      StepKeepsSound(a, s, events[0]);
      RunRefinesLedger(b, s, events[1..]);
      FillsCash(a, s, events[0], Fills(b, s, events[1..]), a.balance - OpenCost(a.positions));
    }
  }

  /** Profit not yet realized, at a price for every coin. */
  function UnrealizedAt(prices: string -> real): Position -> real {
    (p: Position) => p.direction.Sign() * ((prices(p.coin) - p.entry) * p.quantity)
  }

  /** What the ledger's holding in the coin of a position is worth. */
  function WorthAt(fills: seq<Fill>, prices: string -> real): Position -> real {
    (p: Position) => Holding(fills, p.coin) * prices(p.coin)
  }

  lemma {:induction false} SumSplit(ps: seq<Position>, f: Position -> real, g: Position -> real, h: Position -> real)
    requires forall k :: 0 <= k < |ps| ==> f(ps[k]) == g(ps[k]) + h(ps[k])
    ensures Sum(ps, f) == Sum(ps, g) + Sum(ps, h)
  {
    if |ps| > 0 {
      SumSplit(ps[1..], f, g, h);
    }
  }

  /** Main result: from a fresh account, after any run of engine calls and at any prices, the balance plus the
      unrealized profit is the equity of the cash ledger: its cash plus the worth of its holdings.  The ledger
      holds exactly the net quantity of each open position, and nothing in any other coin. */
  lemma EquityIsLedgerEquity(balance: real, s: Settings, events: seq<Event>, prices: string -> real)
    ensures var a := InitialAccount(balance);
      var b, fills := Run(a, s, events), Fills(a, s, events);
      && b.balance + Sum(b.positions, UnrealizedAt(prices))
         == Cash(balance, fills, s.feeRate) + Sum(b.positions, WorthAt(fills, prices))
      && (forall k :: 0 <= k < |b.positions| ==>
            Holding(fills, b.positions[k].coin) == SignedQuantity(b.positions[k]))
      && (forall c :: FindCoin(b.positions, c).None? ==> Holding(fills, c) == 0.0)
  {
    hide Run, Fills, Sum, Cash, Holding, SignedQuantity, SignedCost, UnrealizedAt, WorthAt, Held, SoundPosition;
    var a := InitialAccount(balance);
    var b, fills := Run(a, s, events), Fills(a, s, events);
    RunKeepsSound(a, s, events);
    RunRefinesLedger(a, s, events);
    NothingOpen(a.positions);
    forall k | 0 <= k < |b.positions|
      ensures Holding(fills, b.positions[k].coin) == SignedQuantity(b.positions[k])
      ensures WorthAt(fills, prices)(b.positions[k])
           == UnrealizedAt(prices)(b.positions[k]) + SignedCost(b.positions[k])
    {
      HeldIs(b.positions, k);
      HeldNowhere([], b.positions[k].coin);
      WorthSplits(b.positions[k], fills, prices);
    }
    forall c | FindCoin(b.positions, c).None?
      ensures Holding(fills, c) == 0.0
    {
      HeldNowhere(b.positions, c);
      HeldNowhere([], c);
    }
    SumSplit(b.positions, WorthAt(fills, prices), UnrealizedAt(prices), SignedCost);
  }

  lemma NothingOpen(ps: seq<Position>)
    requires ps == []
    ensures OpenCost(ps) == 0.0
  {
  }

  lemma WorthSplits(p: Position, fills: seq<Fill>, prices: string -> real)
    requires Holding(fills, p.coin) == SignedQuantity(p)
    ensures WorthAt(fills, prices)(p) == UnrealizedAt(prices)(p) + SignedCost(p)
  {
    hide Holding;
    assert SignedQuantity(p) * prices(p.coin)
        == p.direction.Sign() * ((prices(p.coin) - p.entry) * p.quantity) + SignedCost(p);
  }
}
