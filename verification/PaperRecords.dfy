/** The rounded trade records against the exact account: how far they drift, and whose entry fees they carry. */
module PaperRecords {
  import opened Common
  import opened Decimals
  import opened RiskSizing
  import opened PaperModel
  import opened PaperInvariant
  import opened PaperGate
  import opened PaperLedger

  // ---------- Entry fees, as they leave the balance ----------

  datatype Debit = Debit(id: nat, amount: real)

  /** The entry fee debited by a call: the fee on the quantity by which a position of the coin grew. */
  function DebitsOf(a: Account, b: Account, e: Event, rate: real): seq<Debit> {
    if !e.Submit? then []
    else
      var i := FindCoin(b.positions, e.signal.coin);
      if i.None? then []
      else
        var p := b.positions[i.value];
        var bought := p.quantity - QuantityOf(a.positions, p.id);
        if bought <= 0.0 then [] else [Debit(p.id, Fee(bought, e.signal.entry, rate))]
  }

  function Debits(a: Account, s: Settings, events: seq<Event>): seq<Debit>
    decreases |events|
  {
    if |events| == 0 then []
    else
      var b := Step(a, s, events[0]);
      DebitsOf(a, b, events[0], s.feeRate) + Debits(b, s, events[1..])
  }

  function Total(debits: seq<Debit>): real {
    if |debits| == 0 then 0.0 else debits[0].amount + Total(debits[1..])
  }

  function TotalFor(debits: seq<Debit>, id: nat): real {
    if |debits| == 0 then 0.0
    else (if debits[0].id == id then debits[0].amount else 0.0) + TotalFor(debits[1..], id)
  }

  // ---------- Sums over the history ----------

  function NetOf(history: seq<Record>): real {
    if |history| == 0 then 0.0 else NetOf(history[..|history| - 1]) + history[|history| - 1].net
  }

  /** The entry fee of the quantity that a record closes. */
  function EntryPart(r: Record, rate: real): real {
    Fee(r.quantity, r.entry, rate)
  }

  function ExitPart(r: Record, rate: real): real {
    Fee(r.quantity, r.close, rate)
  }

  /** Sums `f` over the records of one position. */
  function OfPosition(history: seq<Record>, id: nat, f: Record -> real): real {
    if |history| == 0 then 0.0
    else
      var last := history[|history| - 1];
      OfPosition(history[..|history| - 1], id, f) + if last.positionId == id then f(last) else 0.0
  }

  function EntryParts(rate: real): Record -> real {
    r => EntryPart(r, rate)
  }

  function BothParts(rate: real): Record -> real {
    r => EntryPart(r, rate) + ExitPart(r, rate)
  }

  function RecordFee(r: Record): real {
    r.fee
  }

  function One(r: Record): real {
    1.0
  }

  // ---------- What each call does to the two accounts ----------

  /** The entry fee still attached to what is left of a position. */
  function FeeLeft(ps: seq<Position>, id: nat, rate: real): real {
    var i := FindId(ps, id);
    if i.None? then 0.0 else Fee(ps[i.value].quantity, ps[i.value].entry, rate)
  }

  /** The entry fees of a position, already recorded or still open. */
  function FeesOf(a: Account, id: nat, rate: real): real {
    OfPosition(a.history, id, EntryParts(rate)) + FeeLeft(a.positions, id, rate)
  }

  /** The balance without what the records say was earned. */
  function Unrecorded(a: Account): real {
    a.balance - NetOf(a.history)
  }

  /** From `a` to `b` the debits left the balance, the records drifted by at most half a cent each, and the
      entry fees of every position grew by its debits. */
  ghost predicate Kept(a: Account, b: Account, debits: seq<Debit>, rate: real) {
    && |a.history| <= |b.history|
    && Abs(Unrecorded(b) + Total(debits) - Unrecorded(a)) <= 0.005 * (|b.history| - |a.history|) as real
    && (forall id :: FeesOf(b, id, rate) == FeesOf(a, id, rate) + TotalFor(debits, id))
  }

  lemma KeptTwice(a: Account, b: Account, c: Account, xs: seq<Debit>, ys: seq<Debit>, rate: real)
    requires Kept(a, b, xs, rate) && Kept(b, c, ys, rate)
    ensures Kept(a, c, xs + ys, rate)
  {
    hide FeesOf, Unrecorded;
    TotalConcat(xs, ys);
    forall id
      ensures FeesOf(c, id, rate) == FeesOf(a, id, rate) + TotalFor(xs + ys, id)
    {
      TotalForConcat(xs, ys, id);
    }
  }

  lemma {:induction false} TotalConcat(xs: seq<Debit>, ys: seq<Debit>)
    ensures Total(xs + ys) == Total(xs) + Total(ys)
  {
    if |xs| == 0 {
      assert xs + ys == ys;
    } else {
      assert (xs + ys)[1..] == xs[1..] + ys;
      TotalConcat(xs[1..], ys);
    }
  }

  lemma {:induction false} TotalForConcat(xs: seq<Debit>, ys: seq<Debit>, id: nat)
    ensures TotalFor(xs + ys, id) == TotalFor(xs, id) + TotalFor(ys, id)
  {
    if |xs| == 0 {
      assert xs + ys == ys;
    } else {
      assert (xs + ys)[1..] == xs[1..] + ys;
      TotalForConcat(xs[1..], ys, id);
    }
  }

  lemma NetAppend(history: seq<Record>, r: Record)
    ensures NetOf(history + [r]) == NetOf(history) + r.net
  {
    assert (history + [r])[..|history|] == history;
  }

  lemma OfPositionAppend(history: seq<Record>, r: Record, id: nat, f: Record -> real)
    ensures OfPosition(history + [r], id, f) == OfPosition(history, id, f) + if r.positionId == id then f(r) else 0.0
  {
    assert (history + [r])[..|history|] == history;
  }

  /** Nothing was debited or recorded, and the open quantities and entries are the same. */
  lemma KeptSame(a: Account, b: Account, rate: real)
    requires a.balance == b.balance && a.history == b.history
    requires forall id :: FeeLeft(b.positions, id, rate) == FeeLeft(a.positions, id, rate)
    ensures Kept(a, b, [], rate)
  {
    hide NetOf, OfPosition, FeeLeft;
  }

  /** A call that closes part or all of a position, with one record for it. */
  lemma KeptByRecord(a: Account, b: Account, p: Position, quantity: real, r: Record, rate: real)
    requires b.balance == a.balance + NetPnl(p.direction, p.entry, r.close, quantity, rate)
    requires b.history == a.history + [r]
    requires r.net == Quantize(NetPnl(p.direction, p.entry, r.close, quantity, rate), 0.01)
    requires r.positionId == p.id && r.quantity == quantity && r.entry == p.entry
    requires forall id :: FeeLeft(b.positions, id, rate)
                          == FeeLeft(a.positions, id, rate) - if id == p.id then Fee(quantity, p.entry, rate) else 0.0
    ensures Kept(a, b, [], rate)
  {
    hide NetOf, OfPosition, FeeLeft, NetPnl, Fee;
    NetAppend(a.history, r);
    QuantizeError(NetPnl(p.direction, p.entry, r.close, quantity, rate), 0.01);
    hide Quantize;
    forall id
      ensures FeesOf(b, id, rate) == FeesOf(a, id, rate)
    {
      OfPositionAppend(a.history, r, id, EntryParts(rate));
    }
  }

  // ---------- The entry fee left in a position ----------

  lemma FeeLeftWithout(ps: seq<Position>, i: nat, id: nat, rate: real)
    requires Apart(ps) && i < |ps|
    ensures FeeLeft(Without(ps, i), id, rate)
         == FeeLeft(ps, id, rate) - if id == ps[i].id then Fee(ps[i].quantity, ps[i].entry, rate) else 0.0
  {
    hide Fee;
    var qs := Without(ps, i);
    var k, j := FindId(qs, id), FindId(ps, id);
    if k.Some? {
      QuantityAt(ps, if k.value < i then k.value else k.value + 1);
    }
    if j.Some? {
      QuantityAt(ps, j.value);
      QuantityAt(ps, i);
      if j.value != i {
        assert qs[if j.value < i then j.value else j.value - 1].id == id;
      }
    }
  }

  lemma FeeLeftReplace(ps: seq<Position>, i: nat, p: Position, id: nat, rate: real)
    requires Apart(ps) && i < |ps| && p.id == ps[i].id
    ensures FeeLeft(ps[i := p], id, rate)
         == if id == p.id then Fee(p.quantity, p.entry, rate) else FeeLeft(ps, id, rate)
  {
    hide Fee;
    var qs := ps[i := p];
    IdUnique(qs, i);
    var j := FindId(ps, id);
    if j.Some? {
      IdUnique(ps, j.value);
      IdUnique(qs, j.value);
    }
  }

  lemma IdUnique(ps: seq<Position>, k: nat)
    requires k < |ps|
    requires forall i, j :: 0 <= i < j < |ps| ==> ps[i].id != ps[j].id
    ensures FindId(ps, ps[k].id) == Some(k)
  {
  }

  lemma {:induction false} FindIdPrefix(ps: seq<Position>, qs: seq<Position>, id: nat)
    requires FindId(ps, id).Some?
    ensures FindId(ps + qs, id) == FindId(ps, id)
  {
    assert (ps + qs)[0] == ps[0];
    if ps[0].id != id {
      assert (ps + qs)[1..] == ps[1..] + qs;
      FindIdPrefix(ps[1..], qs, id);
    }
  }

  lemma FeeLeftAppend(ps: seq<Position>, p: Position, id: nat, rate: real)
    requires Apart(ps) && FindId(ps, p.id).None?
    ensures FeeLeft(ps + [p], id, rate)
         == FeeLeft(ps, id, rate) + if id == p.id then Fee(p.quantity, p.entry, rate) else 0.0
  {
    hide Fee;
    if id == p.id {
      IdUnique(ps + [p], |ps|);
    } else if FindId(ps, id).Some? {
      FindIdPrefix(ps, [p], id);
    }
  }

  // ---------- Each operation ----------

  lemma CloseKept(a: Account, s: Settings, i: nat, price: real, reason: Reason, now: int)
    requires Sound(a, s) && i < |a.positions|
    ensures Kept(a, ClosePosition(a, s, i, price, reason, now), [], s.feeRate)
  {
    hide NetPnl, EntryFeeShare, FeeLeft, Fee, Without, GrossPnl, Quantize;
    var b, p := ClosePosition(a, s, i, price, reason, now), a.positions[i];
    forall id
      ensures FeeLeft(b.positions, id, s.feeRate)
           == FeeLeft(a.positions, id, s.feeRate) - if id == p.id then Fee(p.quantity, p.entry, s.feeRate) else 0.0
    {
      FeeLeftWithout(a.positions, i, id, s.feeRate);
    }
    KeptByRecord(a, b, p, p.quantity, b.history[|a.history|], s.feeRate);
  }

  lemma FeeSplits(quantity: real, part: real, price: real, rate: real)
    ensures Fee(quantity - part, price, rate) == Fee(quantity, price, rate) - Fee(part, price, rate)
  {
  }

  lemma PartialKept(a: Account, s: Settings, i: nat, price: real, ratio: real, now: int)
    requires Sound(a, s) && i < |a.positions| && PartialClose(a, s, i, price, ratio, now).Some?
    ensures Kept(a, PartialClose(a, s, i, price, ratio, now).value, [], s.feeRate)
  {
    hide NetPnl, FeeLeft, Fee, PartialClose, PartialQuantity, GrossPnl, Quantize;
    PartialShape(a, s, i, price, ratio, now);
    var b, p := PartialClose(a, s, i, price, ratio, now).value, a.positions[i];
    var quantity := PartialQuantity(p.quantity, ratio);
    FeeSplits(p.quantity, quantity, p.entry, s.feeRate);
    forall id
      ensures FeeLeft(b.positions, id, s.feeRate)
           == FeeLeft(a.positions, id, s.feeRate) - if id == p.id then Fee(quantity, p.entry, s.feeRate) else 0.0
    {
      FeeLeftReplace(a.positions, i, b.positions[i], id, s.feeRate);
      FeeLeftReplace(a.positions, i, p, id, s.feeRate);
      assert a.positions[i := p] == a.positions;
    }
    KeptByRecord(a, b, p, quantity, b.history[|a.history|], s.feeRate);
  }

  lemma TotalOne(d: Debit, id: nat)
    ensures Total([d]) == d.amount && TotalFor([d], id) == if d.id == id then d.amount else 0.0
  {
  }

  /** One debit, and the position of that debit carries the fee from now on. */
  lemma KeptByDebit(a: Account, b: Account, d: Debit, rate: real)
    requires b.balance == a.balance - d.amount && b.history == a.history
    requires forall id :: FeeLeft(b.positions, id, rate)
                          == FeeLeft(a.positions, id, rate) + if id == d.id then d.amount else 0.0
    ensures Kept(a, b, [d], rate)
  {
    hide NetOf, OfPosition, FeeLeft, Total, TotalFor;
    TotalOne(d, d.id);
    forall id
      ensures FeesOf(b, id, rate) == FeesOf(a, id, rate) + TotalFor([d], id)
    {
      TotalOne(d, id);
    }
  }

  lemma AverageFee(q0: real, e0: real, q1: real, e1: real, rate: real)
    requires q0 + q1 != 0.0
    ensures Fee(q0 + q1, AverageEntry(q0, e0, q1, e1), rate) == Fee(q0, e0, rate) + Fee(q1, e1, rate)
  {
    AverageCost(q0, e0, q1, e1);
    var average := AverageEntry(q0, e0, q1, e1);
    hide AverageEntry;
    assert Fee(q0 + q1, average, rate) == average * (q0 + q1) * rate;
  }

  lemma EnlargedFee(p: Position, sig: Signal, v: Verdict, rate: real)
    requires v.Approved? && 0.0 < p.quantity && 0.0 < v.quantity
    ensures var q := Enlarged(p, sig, v);
      Fee(q.quantity, q.entry, rate) == Fee(p.quantity, p.entry, rate) + Fee(v.quantity, sig.entry, rate)
      && q.quantity == p.quantity + v.quantity
  {
    AverageFee(p.quantity, p.entry, v.quantity, sig.entry, rate);
    hide AverageEntry, Fee;
  }

  lemma DcaKept(a: Account, s: Settings, i: nat, sig: Signal, v: Verdict)
    requires Sound(a, s) && i < |a.positions| && v.Approved? && 0.0 < v.quantity
    ensures Kept(a, ApplyDca(a, s, i, sig, v),
                 [Debit(a.positions[i].id, Fee(v.quantity, sig.entry, s.feeRate))], s.feeRate)
  {
    hide FeeLeft, Fee, Enlarged, Kept;
    var b, p := ApplyDca(a, s, i, sig, v), a.positions[i];
    EnlargedKeeps(p, sig, v);
    EnlargedFee(p, sig, v, s.feeRate);
    forall id
      ensures FeeLeft(b.positions, id, s.feeRate)
           == FeeLeft(a.positions, id, s.feeRate) + if id == p.id then Fee(v.quantity, sig.entry, s.feeRate) else 0.0
    {
      FeeLeftReplace(a.positions, i, b.positions[i], id, s.feeRate);
      FeeLeftReplace(a.positions, i, p, id, s.feeRate);
      assert a.positions[i := p] == a.positions;
    }
    KeptByDebit(a, b, Debit(p.id, Fee(v.quantity, sig.entry, s.feeRate)), s.feeRate);
  }

  lemma OpenKept(a: Account, s: Settings, sig: Signal, v: Verdict)
    requires Sound(a, s) && v.Approved? && sig.takeProfit.Some? && sig.stopLoss.Some?
    ensures Kept(a, OpenPosition(a, s, sig, v), [Debit(a.nextId, Fee(v.quantity, sig.entry, s.feeRate))], s.feeRate)
  {
    hide FeeLeft, Fee, Kept;
    var b := OpenPosition(a, s, sig, v);
    forall id
      ensures FeeLeft(b.positions, id, s.feeRate)
           == FeeLeft(a.positions, id, s.feeRate)
              + if id == a.nextId then Fee(v.quantity, sig.entry, s.feeRate) else 0.0
    {
      FeeLeftAppend(a.positions, b.positions[|a.positions|], id, s.feeRate);
    }
    KeptByDebit(a, b, Debit(a.nextId, Fee(v.quantity, sig.entry, s.feeRate)), s.feeRate);
  }

  // ---------- Each call ----------

  /** What an entry on an approved verdict buys: `v.quantity` for the position that then holds the coin. */
  lemma EnterKept(a: Account, d: Account, s: Settings, sig: Signal, now: int)
    requires Sound(a, s) && Sound(d, s) && a.nextId == d.nextId
    requires a == d || FindCoin(d.positions, sig.coin).None?
    requires Validate(d, s, sig, now).verdict.Approved?
    requires !Validate(d, s, sig, now).verdict.preAction.CloseExisting?
    requires sig.takeProfit.Some? && sig.stopLoss.Some?
    ensures var b := Enter(d, s, sig, Validate(d, s, sig, now).verdict);
      Kept(d, b, DebitsOf(a, b, Submit(sig, now), s.feeRate), s.feeRate)
  {
    var v := Validate(d, s, sig, now).verdict;
    ApprovedSize(d, s, sig, now);
    hide Validate, Kept, Fee;
    var b := Enter(d, s, sig, v);
    if v.preAction.Dca? {
      var i := FindCoin(d.positions, sig.coin).value;
      var p := d.positions[i];
      DcaKept(d, s, i, sig, v);
      EnlargedKeeps(p, sig, v);
      hide Enlarged;
      EnlargedFee(p, sig, v, s.feeRate);
      HeldUnique(b.positions, i, sig.coin);
      QuantityAt(a.positions, i);
      assert DebitsOf(a, b, Submit(sig, now), s.feeRate) == [Debit(p.id, Fee(v.quantity, sig.entry, s.feeRate))];
    } else {
      OpenKept(d, s, sig, v);
      HeldUnique(b.positions, |d.positions|, sig.coin);
      assert QuantityOf(a.positions, a.nextId) == 0.0;
      assert DebitsOf(a, b, Submit(sig, now), s.feeRate) == [Debit(d.nextId, Fee(v.quantity, sig.entry, s.feeRate))];
    }
  }

  lemma NoDebit(a: Account, d: Account, b: Account, s: Settings, sig: Signal, now: int)
    requires Sound(a, s) && (a == d || FindCoin(d.positions, sig.coin).None?)
    requires b.positions == d.positions
    ensures DebitsOf(a, b, Submit(sig, now), s.feeRate) == []
  {
    hide Fee;
    var i := FindCoin(b.positions, sig.coin);
    if i.Some? {
      QuantityAt(a.positions, i.value);
    }
  }

  lemma ReverseKept(a: Account, s: Settings, sig: Signal, now: int)
    requires Sound(a, s)
    ensures Kept(a, AfterReverse(a, s, sig, now), [], s.feeRate)
    ensures AfterReverse(a, s, sig, now).nextId == a.nextId
  {
    hide Kept, NetPnl, MakeRecord, EntryFeeShare, Without;
    var i := FindCoin(a.positions, sig.coin);
    if i.Some? {
      CloseKept(a, s, i.value, sig.entry, ReverseSignal, now);
    } else {
      KeptSame(a, a, s.feeRate);
    }
  }

  lemma SubmitKept(a: Account, s: Settings, sig: Signal, now: int)
    requires Sound(a, s)
    ensures var b := SubmitSignal(a, s, sig, now).account;
      Kept(a, b, DebitsOf(a, b, Submit(sig, now), s.feeRate), s.feeRate)
  {
    hide Validate, SubmitSignal, DecisionAccount, AfterReverse, Enter, Kept, DebitsOf, SoundPosition;
    var d, r := DecisionAccount(a, s, sig, now), SubmitSignal(a, s, sig, now);
    SubmissionShape(a, s, sig, now);
    DecisionCases(a, s, sig, now);
    ReverseKept(a, s, sig, now);
    KeptSame(a, a, s.feeRate);
    ReversedHasNoCoin(a, s, sig, now);
    assert Kept(a, d, [], s.feeRate);
    var debits := DebitsOf(a, r.account, Submit(sig, now), s.feeRate);
    if r.accepted {
      EnterKept(a, d, s, sig, now);
    } else {
      ValidateKeepsPositions(d, s, sig, now);
      NoDebit(a, d, r.account, s, sig, now);
      KeptSame(d, r.account, s.feeRate);
    }
    KeptTwice(a, d, r.account, [], debits, s.feeRate);
    assert [] + debits == debits;
  }

  /** Every engine call keeps the records within half a cent each and attributes every entry fee once. */
  lemma StepKept(a: Account, s: Settings, e: Event)
    requires Sound(a, s)
    ensures Kept(a, Step(a, s, e), DebitsOf(a, Step(a, s, e), e, s.feeRate), s.feeRate)
  {
    hide SubmitSignal, ClosePosition, PartialClose, Hit, Kept, SoundPosition, Fee;
    var b := Step(a, s, e);
    match e
    case Submit(sig, now) =>
      SubmitKept(a, s, sig, now);
    case TickPrice(coin, price, now) =>
      var i := FindCoin(a.positions, coin);
      if i.Some? && Hit(a.positions[i.value], price).Some? {
        CloseKept(a, s, i.value, price, Hit(a.positions[i.value], price).value, now);
      } else {
        PricesKept(a, b, s.feeRate);
      }
    case CloseCall(id, price, now) =>
      var i := FindId(a.positions, id);
      if i.Some? {
        CloseKept(a, s, i.value, price, Manual, now);
      } else {
        PricesKept(a, b, s.feeRate);
      }
    case PartialCall(id, price, ratio, now) =>
      var i := FindId(a.positions, id);
      if i.Some? && PartialClose(a, s, i.value, price, ratio, now).Some? {
        PartialKept(a, s, i.value, price, ratio, now);
      } else {
        PricesKept(a, b, s.feeRate);
      }
    case PricesCall(prices) =>
      PricesKept(a, b, s.feeRate);
    case HaltCall =>
      PricesKept(a, b, s.feeRate);
    case ResumeCall =>
      PricesKept(a, b, s.feeRate);
  }

  lemma PricesKept(a: Account, b: Account, rate: real)
    requires Apart(a.positions) && a.balance == b.balance && a.history == b.history
    requires |a.positions| == |b.positions|
    requires forall k :: 0 <= k < |a.positions| ==>
      && b.positions[k].id == a.positions[k].id
      && b.positions[k].quantity == a.positions[k].quantity && b.positions[k].entry == a.positions[k].entry
    ensures Kept(a, b, [], rate)
  {
    hide Fee, Kept;
    forall id
      ensures FeeLeft(b.positions, id, rate) == FeeLeft(a.positions, id, rate)
    {
      var k := FindId(b.positions, id);
      if k.Some? {
        QuantityAt(a.positions, k.value);
      }
    }
    KeptSame(a, b, rate);
  }

  lemma {:induction false} RunKept(a: Account, s: Settings, events: seq<Event>)
    requires Sound(a, s)
    ensures Kept(a, Run(a, s, events), Debits(a, s, events), s.feeRate)
    decreases |events|
  {
    hide Step, Kept, DebitsOf, SoundPosition;
    if |events| == 0 {
      KeptSame(a, a, s.feeRate);
    } else {
      var b := Step(a, s, events[0]);
      StepKeepsSound(a, s, events[0]);
      StepKept(a, s, events[0]);
      RunKept(b, s, events[1..]);
      KeptTwice(a, b, Run(a, s, events), DebitsOf(a, b, events[0], s.feeRate), Debits(b, s, events[1..]), s.feeRate);
    }
  }

  // ---------- The fee of a record ----------

  predicate FeeRounded(r: Record, rate: real) {
    Abs(r.fee - (EntryPart(r, rate) + ExitPart(r, rate))) <= 0.00005
  }

  predicate AllRounded(history: seq<Record>, rate: real) {
    forall k :: 0 <= k < |history| ==> FeeRounded(history[k], rate)
  }

  /** Scaling the fee of the original quantity by the fraction closed gives the fee of what is closed. */
  lemma ShareIsFee(p: Position, rate: real)
    requires 0.0 < p.originalQuantity
    ensures EntryFeeShare(p, rate) == Fee(p.quantity, p.entry, rate)
  {
    MulDiv(p.quantity, p.originalQuantity);
    assert EntryFeeShare(p, rate) == Mul(p.quantity / p.originalQuantity, p.originalQuantity) * (p.entry * rate);
  }

  lemma RecordRounded(p: Position, close: real, quantity: real, reason: Reason, rate: real, now: int)
    ensures FeeRounded(MakeRecord(p, close, quantity, Fee(quantity, p.entry, rate), reason, rate, now), rate)
  {
    hide Fee, GrossPnl, NetPnl;
    QuantizeError(Fee(quantity, p.entry, rate) + Fee(quantity, close, rate), 0.0001);
    hide Quantize;
  }

  lemma CloseRounded(a: Account, s: Settings, i: nat, price: real, reason: Reason, now: int)
    requires Sound(a, s) && i < |a.positions| && AllRounded(a.history, s.feeRate)
    ensures AllRounded(ClosePosition(a, s, i, price, reason, now).history, s.feeRate)
  {
    hide FeeRounded, MakeRecord, EntryFeeShare, Fee, NetPnl;
    ShareIsFee(a.positions[i], s.feeRate);
    RecordRounded(a.positions[i], price, a.positions[i].quantity, reason, s.feeRate, now);
  }

  lemma PartialRounded(a: Account, s: Settings, i: nat, price: real, ratio: real, now: int)
    requires i < |a.positions| && AllRounded(a.history, s.feeRate)
    requires PartialClose(a, s, i, price, ratio, now).Some?
    ensures AllRounded(PartialClose(a, s, i, price, ratio, now).value.history, s.feeRate)
  {
    hide FeeRounded, MakeRecord, Fee, NetPnl, PartialClose, PartialQuantity, Reduced;
    PartialShape(a, s, i, price, ratio, now);
    RecordRounded(a.positions[i], price, PartialQuantity(a.positions[i].quantity, ratio), Partial, s.feeRate, now);
  }

  lemma EnterKeepsHistory(a: Account, s: Settings, sig: Signal, v: Verdict)
    requires v.Approved? && sig.takeProfit.Some? && sig.stopLoss.Some?
    ensures Enter(a, s, sig, v).history == a.history
  {
    hide Fee, Enlarged;
  }

  lemma StepRounded(a: Account, s: Settings, e: Event)
    requires Sound(a, s) && AllRounded(a.history, s.feeRate)
    ensures AllRounded(Step(a, s, e).history, s.feeRate)
  {
    hide SubmitSignal, ClosePosition, PartialClose, Hit, AllRounded, SoundPosition, Validate, Enter, DecisionAccount;
    match e
    case Submit(sig, now) =>
      var d := DecisionAccount(a, s, sig, now);
      SubmissionShape(a, s, sig, now);
      DecisionCases(a, s, sig, now);
      var i := FindCoin(a.positions, sig.coin);
      if i.Some? {
        CloseRounded(a, s, i.value, sig.entry, ReverseSignal, now);
      }
      ValidateKeepsPositions(d, s, sig, now);
      if Validate(d, s, sig, now).verdict.Approved? {
        EnterKeepsHistory(d, s, sig, Validate(d, s, sig, now).verdict);
      }
    case TickPrice(coin, price, now) =>
      var i := FindCoin(a.positions, coin);
      if i.Some? && Hit(a.positions[i.value], price).Some? {
        CloseRounded(a, s, i.value, price, Hit(a.positions[i.value], price).value, now);
      }
    case CloseCall(id, price, now) =>
      var i := FindId(a.positions, id);
      if i.Some? {
        CloseRounded(a, s, i.value, price, Manual, now);
      }
    case PartialCall(id, price, ratio, now) =>
      var i := FindId(a.positions, id);
      if i.Some? && PartialClose(a, s, i.value, price, ratio, now).Some? {
        PartialRounded(a, s, i.value, price, ratio, now);
      }
    case PricesCall(prices) =>
    case HaltCall =>
    case ResumeCall =>
  }

  lemma {:induction false} RunRounded(a: Account, s: Settings, events: seq<Event>)
    requires Sound(a, s) && AllRounded(a.history, s.feeRate)
    ensures AllRounded(Run(a, s, events).history, s.feeRate)
    decreases |events|
  {
    hide Step, AllRounded, SoundPosition;
    if |events| > 0 {
      StepKeepsSound(a, s, events[0]);
      StepRounded(a, s, events[0]);
      RunRounded(Step(a, s, events[0]), s, events[1..]);
    }
  }

  // ---------- Main results ----------

  /** The records drift from the account by at most half a cent each, whatever the run. */
  lemma RecordsFollowBalance(balance: real, s: Settings, events: seq<Event>)
    ensures var b := Run(InitialAccount(balance), s, events);
      Abs(b.balance - (balance - Total(Debits(InitialAccount(balance), s, events)) + NetOf(b.history)))
      <= 0.005 * |b.history| as real
  {
    hide Run, Debits, Total, SoundPosition;
    RunKept(InitialAccount(balance), s, events);
    assert NetOf([]) == 0.0;
    hide NetOf;
  }

  lemma {:induction false} RoundedTotal(history: seq<Record>, id: nat, rate: real)
    requires AllRounded(history, rate)
    ensures Abs(OfPosition(history, id, RecordFee) - OfPosition(history, id, BothParts(rate)))
         <= 0.00005 * OfPosition(history, id, One)
  {
    if |history| > 0 {
      assert FeeRounded(history[|history| - 1], rate);
      hide EntryPart, ExitPart;
      RoundedTotal(history[..|history| - 1], id, rate);
    }
  }

  function ExitParts(rate: real): Record -> real {
    r => ExitPart(r, rate)
  }

  lemma {:induction false} PartsTotal(history: seq<Record>, id: nat, rate: real)
    ensures OfPosition(history, id, BothParts(rate))
         == OfPosition(history, id, EntryParts(rate)) + OfPosition(history, id, ExitParts(rate))
  {
    hide EntryPart, ExitPart;
    if |history| > 0 {
      PartsTotal(history[..|history| - 1], id, rate);
    }
  }

  /** Over the life of a position that is no longer open, the entry fees in its records are exactly the entry
      fees debited for it, whatever the order of enlargements and partial closes; and the rounded fees of its
      records add up to the entry and exit fees it paid, within half of 0.0001 for each record. */
  lemma ClosedPositionFees(balance: real, s: Settings, events: seq<Event>, id: nat)
    requires FindId(Run(InitialAccount(balance), s, events).positions, id).None?
    ensures var a := InitialAccount(balance);
      var history, debits := Run(a, s, events).history, Debits(a, s, events);
      && OfPosition(history, id, EntryParts(s.feeRate)) == TotalFor(debits, id)
      && Abs(OfPosition(history, id, RecordFee)
             - (TotalFor(debits, id) + OfPosition(history, id, ExitParts(s.feeRate))))
         <= 0.00005 * OfPosition(history, id, One)
  {
    var a := InitialAccount(balance);
    var b := Run(a, s, events);
    hide Run, Debits, TotalFor, SoundPosition, FeeRounded;
    RunKept(a, s, events);
    RunRounded(a, s, events);
    assert FeesOf(a, id, s.feeRate) == 0.0;
    hide OfPosition;
    RoundedTotal(b.history, id, s.feeRate);
    PartsTotal(b.history, id, s.feeRate);
  }
}
