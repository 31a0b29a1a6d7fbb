/** What the order protocol guarantees against every pattern of gateway failures. */
module ExecutionSafety {
  import opened Common
  import opened ExecutionModel

  /** The tickets with a purpose that the gateway took, in order. */
  function Accepted(sent: seq<Sent>, p: Purpose): seq<Ticket> {
    if |sent| == 0 then []
    else
      var last := sent[|sent| - 1];
      Accepted(sent[..|sent| - 1], p)
      + if last.fill.Some? && last.ticket.purpose == p then [last.ticket] else []
  }

  function Refused(sent: seq<Sent>): nat {
    if |sent| == 0 then 0
    else Refused(sent[..|sent| - 1]) + if sent[|sent| - 1].fill.None? then 1 else 0
  }

  function Count(sent: seq<Sent>, p: Purpose): nat {
    if |sent| == 0 then 0
    else Count(sent[..|sent| - 1], p) + if sent[|sent| - 1].ticket.purpose == p then 1 else 0
  }

  /** The orders a call sent: those after the ones sent before it. */
  function New(before: seq<Sent>, after: seq<Sent>): seq<Sent>
    requires before <= after
  {
    after[|before|..]
  }

  /** What a call has sent so far, summed up. */
  datatype Tally = Tally(tp: seq<Ticket>, sl: seq<Ticket>, entries: seq<Ticket>, closes: seq<Ticket>, refused: nat,
                         tps: nat, sls: nat, all: nat)

  ghost function TallyOf(sent: seq<Sent>): Tally {
    Tally(Accepted(sent, TakeProfit), Accepted(sent, StopLoss), Accepted(sent, Entry), Accepted(sent, EmergencyClose),
          Refused(sent), Count(sent, TakeProfit), Count(sent, StopLoss), |sent|)
  }

  lemma TallyParts(sent: seq<Sent>)
    ensures var t := TallyOf(sent);
      && Accepted(sent, TakeProfit) == t.tp && Accepted(sent, StopLoss) == t.sl
      && Accepted(sent, Entry) == t.entries && Accepted(sent, EmergencyClose) == t.closes
      && |sent| == t.all
  {
  }

  ghost function Added(t: Tally, s: Sent): Tally {
    var taken := if s.fill.Some? then [s.ticket] else [];
    Tally(if s.ticket.purpose.TakeProfit? then t.tp + taken else t.tp,
          if s.ticket.purpose.StopLoss? then t.sl + taken else t.sl,
          if s.ticket.purpose.Entry? then t.entries + taken else t.entries,
          if s.ticket.purpose.EmergencyClose? then t.closes + taken else t.closes,
          t.refused + if s.fill.None? then 1 else 0,
          t.tps + if s.ticket.purpose.TakeProfit? then 1 else 0,
          t.sls + if s.ticket.purpose.StopLoss? then 1 else 0,
          t.all + 1)
  }

  lemma PlaceTally(answers: Answers, before: seq<Sent>, sent: seq<Sent>, t: Ticket)
    requires before <= sent
    ensures var after := Place(answers, sent, t);
      before <= after && TallyOf(New(before, after)) == Added(TallyOf(New(before, sent)), Sent(t, LastFill(after)))
  {
    var after := Place(answers, sent, t);
    assert New(before, after)[..|New(before, after)| - 1] == New(before, sent);
  }

  /** Invariant of the guards: what is recorded as filled is what was accepted. */
  ghost predicate Recorded(o: Order, quantity: real, before: seq<Sent>, g: Guards)
    requires o.direction.IsSide() && o.takeProfit.Some? && o.stopLoss.Some?
  {
    && before <= g.sent
    && var t := TallyOf(New(before, g.sent));
       && t.tp == (if g.takeProfit.Some? then [TpTicket(o, quantity)] else [])
       && t.sl == (if g.stopLoss.Some? then [SlTicket(o, quantity)] else [])
       && t.closes == []
       && (g.stopLoss.Some? ==> g.takeProfit.Some?)
  }

  lemma TryRecorded(answers: Answers, o: Order, quantity: real, before: seq<Sent>, g: Guards)
    requires o.direction.IsSide() && o.takeProfit.Some? && o.stopLoss.Some?
    requires Recorded(o, quantity, before, g)
    ensures var h := TryGuards(answers, o, quantity, g);
      && Recorded(o, quantity, before, h)
      && var t, u := TallyOf(New(before, g.sent)), TallyOf(New(before, h.sent));
         && u.entries == t.entries
         && u.refused == t.refused + (if Complete(h) then 0 else 1)
         && u.all <= t.all + (if g.takeProfit.Some? then 1 else 2)
         && u.tps <= t.tps + (if g.takeProfit.Some? then 0 else 1)
         && u.sls <= t.sls + (if h.takeProfit.Some? then 1 else 0)
         && (h.takeProfit.None? ==> u.all <= t.all + 1)
  {
    hide TallyOf;
    var afterTp := g;
    if g.takeProfit.None? {
      var sent := Place(answers, g.sent, TpTicket(o, quantity));
      PlaceTally(answers, before, g.sent, TpTicket(o, quantity));
      afterTp := Guards(sent, LastFill(sent), g.stopLoss);
    }
    if afterTp.takeProfit.Some? && afterTp.stopLoss.None? {
      PlaceTally(answers, before, afterTp.sent, SlTicket(o, quantity));
    }
  }

  /** What an entered position is left with. */
  ghost predicate Guarded(o: Order, quantity: real, fill: Fill, r: Outcome, t: Tally)
    requires o.direction.IsSide() && o.takeProfit.Some? && o.stopLoss.Some?
  {
    && (!r.tpSlFailed ==> t.tp == [TpTicket(o, quantity)] && t.sl == [SlTicket(o, quantity)] && t.closes == [])
    && (r.tpSlFailed ==> t.sl == [] && (t.tp == [] || t.tp == [TpTicket(o, quantity)]))
    && (r.tpSlFailed && !r.closeFailed ==> t.closes == [CloseTicket(o, fill.quantity)])
    && (r.tpSlFailed && r.closeFailed ==> t.closes == [])
  }

  lemma ProtectGuards(answers: Answers, o: Order, quantity: real, fill: Fill, before: seq<Sent>, sent: seq<Sent>)
    requires o.direction.IsSide() && o.takeProfit.Some? && o.stopLoss.Some? && before <= sent
    requires var t := TallyOf(New(before, sent));
      t.tp == t.sl == t.closes == [] && t.refused == t.tps == t.sls == 0 && t.all == 1
    ensures var (r, after) := Protect(answers, o, quantity, fill, sent);
      && before <= after && r.executed && r.approved && r.entry == Some(fill)
      && (r.closeFailed ==> r.tpSlFailed)
      && var t := TallyOf(New(before, after));
         && Guarded(o, quantity, fill, r, t)
         && t.entries == TallyOf(New(before, sent)).entries
         && t.all <= 5 && t.tps <= 2 && t.sls <= 2
         && t.refused == (if r.closeFailed then 3 else if r.tpSlFailed then 2 else t.refused) <= 3
         && (!r.tpSlFailed ==> t.refused <= 1)
  {
    var start := Guards(sent, None, None);
    hide TallyOf, TryGuards;
    TryRecorded(answers, o, quantity, before, start);
    var first := TryGuards(answers, o, quantity, start);
    if !Complete(first) {
      TryRecorded(answers, o, quantity, before, first);
      var last := TryGuards(answers, o, quantity, first);
      if !Complete(last) {
        PlaceTally(answers, before, last.sent, CloseTicket(o, fill.quantity));
      }
    }
  }

  /** Everything that has to hold before an order may be sent, as a conjunction. */
  ghost predicate Cleared(setup: Setup, req: Request) {
    && setup.live && !req.fastExit
    && ValidationOf(setup, req).Answered?
    && var v, o := ValidationOf(setup, req).value, OrderOf(req);
       && v.approved
       && (req.validation.Some? ==> req.candidate.Some? && req.finalAction.Some?)
       && (req.finalAction.Some? ==> req.finalAction.value.IsSide())
       && o.direction.IsSide() && o.stopLoss.Some? && o.takeProfit.Some?
       && v.quantity.Some? && 0.0 < v.quantity.value && v.leverage.Some? && 0 < v.leverage.value
       && (setup.gate.Some? ==> setup.gate.value.Answered? && setup.gate.value.value.allowed)
  }

  lemma SendingIsCleared(setup: Setup, req: Request, answers: Answers, sent: seq<Sent>)
    ensures Execute(setup, req, answers, sent)
         == if Cleared(setup, req) then SendOrders(answers, OrderOf(req), ValidationOf(setup, req).value, sent)
            else (Execute(setup, req, answers, sent).0, sent)
    ensures !Cleared(setup, req) ==> !Execute(setup, req, answers, sent).0.executed
    ensures Cleared(setup, req) ==> Orderable(OrderOf(req), ValidationOf(setup, req).value)
  {
    hide SendOrders;
  }

  lemma EmptyTally()
    ensures TallyOf([]) == Tally([], [], [], [], 0, 0, 0, 0)
  {
  }

  /** Main result on sending: orders are sent exactly when everything before them holds, and then the entry comes
      first. */
  lemma OrdersOnlyWhenCleared(setup: Setup, req: Request, answers: Answers, sent: seq<Sent>)
    ensures var (r, after) := Execute(setup, req, answers, sent);
      && sent <= after
      && (after != sent <==> Cleared(setup, req))
      && (Cleared(setup, req) ==>
            after[|sent|].ticket == EntryTicket(OrderOf(req), ValidationOf(setup, req).value.quantity.value))
  {
    hide TallyOf, Protect;
    SendingIsCleared(setup, req, answers, sent);
    if Cleared(setup, req) {
      var o, v := OrderOf(req), ValidationOf(setup, req).value;
      var entered := Place(answers, sent, EntryTicket(o, v.quantity.value));
      EmptyTally();
      assert New(sent, sent) == [];
      PlaceTally(answers, sent, sent, EntryTicket(o, v.quantity.value));
      if LastFill(entered).Some? {
        ProtectPrefix(answers, o, v.quantity.value, LastFill(entered).value, entered);
      }
    }
  }

  lemma ProtectPrefix(answers: Answers, o: Order, quantity: real, fill: Fill, sent: seq<Sent>)
    requires o.direction.IsSide() && o.takeProfit.Some? && o.stopLoss.Some?
    ensures sent <= Protect(answers, o, quantity, fill, sent).1
  {
  }

  /** Main result on protection, for every gateway: the call reports an execution exactly when the entry was taken;
      an executed trade is left with exactly one target and one stop for the approved quantity, or with no stop and
      exactly one close of the filled quantity, or else the failed close is reported; at most five orders are
      sent; and whatever the gateway does, a single refusal after the entry never unprotects the position. */
  lemma PositionIsGuarded(setup: Setup, req: Request, answers: Answers, sent: seq<Sent>)
    requires Cleared(setup, req)
    ensures var (r, after) := Execute(setup, req, answers, sent);
      var o, quantity := OrderOf(req), ValidationOf(setup, req).value.quantity.value;
      && sent <= after
      && var t := TallyOf(New(sent, after));
         && t.entries == (if r.executed then [EntryTicket(o, quantity)] else [])
         && r.approved == r.executed == r.entry.Some?
         && (!r.executed ==> t.all == 1 && t.tp == t.sl == t.closes == [])
         && (r.executed ==> Guarded(o, quantity, r.entry.value, r, t))
         && t.all <= 5 && t.tps <= 2 && t.sls <= 2
         && (r.executed && t.refused <= 1 ==> !r.tpSlFailed)
         && (r.closeFailed <==> r.executed && t.refused == 3)
  {
    hide TallyOf, Protect, Guarded;
    SendingIsCleared(setup, req, answers, sent);
    var o, quantity := OrderOf(req), ValidationOf(setup, req).value.quantity.value;
    var entered := Place(answers, sent, EntryTicket(o, quantity));
    EmptyTally();
    assert New(sent, sent) == [];
    PlaceTally(answers, sent, sent, EntryTicket(o, quantity));
    if LastFill(entered).Some? {
      ProtectGuards(answers, o, quantity, LastFill(entered).value, sent, entered);
    }
  }

  // ---------- Only the entry enlarges ----------

  /** Every order after the first one of the call can only reduce what the entry bought or sold. */
  ghost predicate Reducing(o: Order, before: seq<Sent>, sent: seq<Sent>)
    requires o.direction.IsSide()
  {
    && |before| < |sent| && before <= sent
    && forall k :: |before| < k < |sent| ==>
         sent[k].ticket.reduceOnly && sent[k].ticket.side == CloseSide(o.direction)
         && sent[k].ticket.symbol == o.symbol && !sent[k].ticket.purpose.Entry?
  }

  lemma TryReduces(answers: Answers, o: Order, quantity: real, before: seq<Sent>, g: Guards)
    requires o.direction.IsSide() && o.takeProfit.Some? && o.stopLoss.Some? && Reducing(o, before, g.sent)
    ensures Reducing(o, before, TryGuards(answers, o, quantity, g).sent)
    ensures g.sent <= TryGuards(answers, o, quantity, g).sent
  {
  }

  lemma ProtectReduces(answers: Answers, o: Order, quantity: real, fill: Fill, before: seq<Sent>, sent: seq<Sent>)
    requires o.direction.IsSide() && o.takeProfit.Some? && o.stopLoss.Some? && Reducing(o, before, sent)
    ensures var after := Protect(answers, o, quantity, fill, sent).1;
      sent <= after && Reducing(o, before, after)
  {
    hide TryGuards;
    var start := Guards(sent, None, None);
    TryReduces(answers, o, quantity, before, start);
    var first := TryGuards(answers, o, quantity, start);
    if !Complete(first) {
      TryReduces(answers, o, quantity, before, first);
    }
  }

  /** Main result on exposure: whatever the gateway answers, no order of a call but its entry can enlarge the position
      or open another; all the others are reduce-only, in the same symbol and on the side opposite to the entry. */
  lemma OnlyEntryEnlarges(setup: Setup, req: Request, answers: Answers, sent: seq<Sent>)
    ensures var after := Execute(setup, req, answers, sent).1;
      after != sent ==>
        && OrderOf(req).direction.IsSide() && Reducing(OrderOf(req), sent, after)
        && after[|sent|].ticket.purpose.Entry? && after[|sent|].ticket.side == EntrySide(OrderOf(req).direction)
        && EntrySide(OrderOf(req).direction) != CloseSide(OrderOf(req).direction)
  {
    SendingIsCleared(setup, req, answers, sent);
    if Cleared(setup, req) {
      var o, quantity := OrderOf(req), ValidationOf(setup, req).value.quantity.value;
      var entered := Place(answers, sent, EntryTicket(o, quantity));
      hide Protect, Cleared;
      if LastFill(entered).Some? {
        ProtectReduces(answers, o, quantity, LastFill(entered).value, sent, entered);
      }
    }
  }

  // ---------- What the protocol does not do ----------

  /** The gateway takes the target when it is first sent, or when it is sent again. */
  predicate TargetTaken(answers: Answers, entered: seq<Sent>, o: Order, quantity: real)
    requires o.direction.IsSide() && o.takeProfit.Some?
  {
    var target := TpTicket(o, quantity);
    answers(entered, target).Some? || answers(Place(answers, entered, target), target).Some?
  }

  lemma ProtectTarget(answers: Answers, o: Order, quantity: real, fill: Fill, before: seq<Sent>, sent: seq<Sent>)
    requires o.direction.IsSide() && o.takeProfit.Some? && o.stopLoss.Some? && before <= sent
    requires var t := TallyOf(New(before, sent)); t.tp == t.sl == t.closes == []
    ensures var after := Protect(answers, o, quantity, fill, sent).1;
      before <= after
      && TallyOf(New(before, after)).tp
         == if TargetTaken(answers, sent, o, quantity) then [TpTicket(o, quantity)] else []
  {
    var start := Guards(sent, None, None);
    hide TallyOf;
    TryRecorded(answers, o, quantity, before, start);
    var first := TryGuards(answers, o, quantity, start);
    assert first.takeProfit == answers(sent, TpTicket(o, quantity));
    if !Complete(first) {
      TryRecorded(answers, o, quantity, before, first);
      var last := TryGuards(answers, o, quantity, first);
      assert last.takeProfit.Some? <==> TargetTaken(answers, sent, o, quantity);
      if !Complete(last) {
        PlaceTally(answers, before, last.sent, CloseTicket(o, fill.quantity));
      }
    }
  }

  /** Main result on left-over targets: after an emergency close, taken or not, the target is still with the exchange
      exactly when the gateway took it at one of its two sends; no order ever takes it back. */
  lemma TargetLeftOver(setup: Setup, req: Request, answers: Answers, sent: seq<Sent>)
    requires Cleared(setup, req) && Execute(setup, req, answers, sent).0.tpSlFailed
    ensures var (r, after) := Execute(setup, req, answers, sent);
      var o, quantity := OrderOf(req), ValidationOf(setup, req).value.quantity.value;
      && sent <= after
      && Accepted(New(sent, after), TakeProfit)
         == if TargetTaken(answers, Place(answers, sent, EntryTicket(o, quantity)), o, quantity)
            then [TpTicket(o, quantity)] else []
  {
    hide TallyOf, Protect, TargetTaken;
    SendingIsCleared(setup, req, answers, sent);
    var o, quantity := OrderOf(req), ValidationOf(setup, req).value.quantity.value;
    var entered := Place(answers, sent, EntryTicket(o, quantity));
    EmptyTally();
    assert New(sent, sent) == [];
    PlaceTally(answers, sent, sent, EntryTicket(o, quantity));
    ProtectTarget(answers, o, quantity, LastFill(entered).value, sent, entered);
    TallyParts(New(sent, Execute(setup, req, answers, sent).1));
  }

  /** Main result on partial fills: target and stop are for the position that was entered exactly when the entry was
      filled in the approved quantity, and can close all of it exactly when it was filled in no more. */
  lemma GuardsMatchFill(setup: Setup, req: Request, answers: Answers, sent: seq<Sent>)
    requires Cleared(setup, req)
    requires var r := Execute(setup, req, answers, sent).0; r.executed && !r.tpSlFailed
    ensures var (r, after) := Execute(setup, req, answers, sent);
      var approved, filled := ValidationOf(setup, req).value.quantity.value, r.entry.value.quantity;
      && sent <= after
      && var targets, stops := Accepted(New(sent, after), TakeProfit), Accepted(New(sent, after), StopLoss);
         && |targets| == |stops| == 1
         && (targets[0].quantity == stops[0].quantity == filled <==> filled == approved)
         && (filled <= targets[0].quantity && filled <= stops[0].quantity <==> filled <= approved)
  {
    PositionIsGuarded(setup, req, answers, sent);
    var (r, after) := Execute(setup, req, answers, sent);
    TallyParts(New(sent, after));
    hide Execute, Cleared, Accepted, TallyOf;
  }

  /** A gateway that takes everything but stops. */
  function NoStops(): Answers {
    (sent: seq<Sent>, t: Ticket) => if t.purpose.StopLoss? then None else Some(Fill(t.quantity, t.price))
  }

  /** A gateway that takes everything but fills an entry in part. */
  function PartialEntry(filled: real): Answers {
    (sent: seq<Sent>, t: Ticket) => Some(Fill(if t.purpose.Entry? then filled else t.quantity, t.price))
  }

  /** The target of a trade that had to be closed in an emergency stays with the exchange: it was taken on the first
      try, every stop was refused, and no order takes it back. */
  lemma TargetOutlivesClose(o: Order, v: Validation)
    requires Orderable(o, v)
    ensures var (r, after) := SendOrders(NoStops(), o, v, []);
      && r.tpSlFailed && !r.closeFailed
      && Accepted(after, TakeProfit) == [TpTicket(o, v.quantity.value)]
      && Accepted(after, EmergencyClose) == [CloseTicket(o, v.quantity.value)]
      && |after| == 5
  {
    var quantity := v.quantity.value;
    var answers := NoStops();
    var fill := Some(Fill(quantity, o.entry));
    var s1 := [Sent(EntryTicket(o, quantity), fill)];
    var s2 := s1 + [Sent(TpTicket(o, quantity), Some(Fill(quantity, o.takeProfit.value)))];
    var s3 := s2 + [Sent(SlTicket(o, quantity), None)];
    var s4 := s3 + [Sent(SlTicket(o, quantity), None)];
    var s5 := s4 + [Sent(CloseTicket(o, quantity), fill)];
    assert Place(answers, [], EntryTicket(o, quantity)) == s1;
    assert SendOrders(answers, o, v, []).1 == s5;
    hide Accepted;
    AcceptedNext([], s1[0]);
    AcceptedNext(s1, s2[1]);
    AcceptedNext(s2, s3[2]);
    AcceptedNext(s3, s4[3]);
    AcceptedNext(s4, s5[4]);
  }

  lemma AcceptedNext(sent: seq<Sent>, s: Sent)
    ensures forall p :: Accepted([], p) == []
    ensures forall p :: Accepted(sent + [s], p)
                     == Accepted(sent, p) + if s.fill.Some? && s.ticket.purpose == p then [s.ticket] else []
  {
    assert (sent + [s])[..|sent|] == sent;
  }

  /** When the entry is filled in part, target and stop still carry the approved quantity, not the filled one. */
  lemma GuardsIgnorePartialFill(o: Order, v: Validation, filled: real)
    requires Orderable(o, v) && 0.0 < filled < v.quantity.value
    ensures var (r, after) := SendOrders(PartialEntry(filled), o, v, []);
      && r.executed && !r.tpSlFailed && r.entry.value.quantity == filled
      && Accepted(after, StopLoss) == [SlTicket(o, v.quantity.value)]
  {
    var quantity := v.quantity.value;
    var answers := PartialEntry(filled);
    var s1 := [Sent(EntryTicket(o, quantity), Some(Fill(filled, o.entry)))];
    var s2 := s1 + [Sent(TpTicket(o, quantity), Some(Fill(quantity, o.takeProfit.value)))];
    var s3 := s2 + [Sent(SlTicket(o, quantity), Some(Fill(quantity, o.stopLoss.value)))];
    assert Place(answers, [], EntryTicket(o, quantity)) == s1;
    assert SendOrders(answers, o, v, []).1 == s3;
    hide Accepted;
    AcceptedNext([], s1[0]);
    AcceptedNext(s1, s2[1]);
    AcceptedNext(s2, s3[2]);
  }
}
