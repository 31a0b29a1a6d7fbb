/** What holds over every run of the kill switch. */
module KillSwitchSafety {
  import opened Common
  import opened KillSwitchModel

  // ---------- The ends of halts ----------

  /** A daily halt ends at the first midnight to come. */
  lemma MidnightIsNext(now: int)
    ensures now < NextMidnight(now) <= now + DAY && NextMidnight(now) % DAY == 0
    ensures forall t: int :: now < t && t % DAY == 0 ==> NextMidnight(now) <= t
  {
    forall t: int | now < t && t % DAY == 0
      ensures NextMidnight(now) <= t
    {
      assert t == t / DAY * DAY;
    }
  }

  lemma MondayIsWeek(now: int)
    ensures NextMonday(now) == (now / WEEK + 1) * WEEK
  {
    var d := now / DAY;
    assert d == d / 7 * 7 + d % 7;
    assert d / 7 == now / WEEK;
  }

  /** A weekly halt ends at the first Monday midnight to come. */
  lemma MondayIsNext(now: int)
    ensures now < NextMonday(now) <= now + WEEK && NextMonday(now) % WEEK == 0
    ensures forall t: int :: now < t && t % WEEK == 0 ==> NextMonday(now) <= t
  {
    MondayIsWeek(now);
    hide NextMonday;
    forall t: int | now < t && t % WEEK == 0
      ensures NextMonday(now) <= t
    {
      assert t == t / WEEK * WEEK;
    }
  }

  /** A timed halt is in force once it is written, and its key outlives its end less one second, and its end by no more
      than the write was late, or else one second. */
  lemma ExpiryNearEnd(until: int, r: Readings)
    requires InOrder(r)
    ensures var expiry := HaltExpiry(Some(until), r).value;
      && r.written < expiry && until - SECOND < expiry
      && (expiry <= until + (r.written - r.ttlClock) || expiry == r.written + SECOND)
  {
  }

  // ---------- Stops that only a resume lifts ----------

  /** The user is stopped and nothing but a resume will change that. */
  predicate StoppedForGood(store: Store, user: UserId) {
    (UserStop(user) in store && store[UserStop(user)].expiry.None?)
    || (Halted(user) in store && store[Halted(user)].expiry.None?)
  }

  /** The user is halted at least until `t`. */
  predicate HaltedUntil(store: Store, user: UserId, t: int) {
    Halted(user) in store && (store[Halted(user)].expiry.None? || t <= store[Halted(user)].expiry.value)
  }

  lemma StopsRefuse(store: Store, user: UserId, now: int)
    ensures StoppedForGood(store, user) ==> !CheckKillSwitch(store, user, now)
    ensures forall t :: HaltedUntil(store, user, t) && now < t ==> !CheckKillSwitch(store, user, now)
  {
  }

  lemma StepKeepsStop(store: Store, e: Event, user: UserId)
    requires StoppedForGood(store, user) && e.call != Deactivate(user)
    ensures StoppedForGood(Step(store, e), user)
  {
    StopsRefuse(store, user, e.r.checked);
    if e.call.ValidateFor? && e.call.user == user {
    } else {
      hide Until, HaltExpiry, CheckKillSwitch, Get;
    }
  }

  lemma StepKeepsHalt(store: Store, e: Event, user: UserId, t: int)
    requires HaltedUntil(store, user, t) && e.call != Deactivate(user) && e.r.checked < t
    ensures HaltedUntil(Step(store, e), user, t)
  {
    StopsRefuse(store, user, e.r.checked);
    if e.call.ValidateFor? && e.call.user == user {
    } else {
      hide CheckKillSwitch, Get;
    }
  }

  lemma {:induction false} RunKeepsStop(store: Store, events: seq<Event>, user: UserId)
    requires StoppedForGood(store, user)
    requires forall k :: 0 <= k < |events| ==> events[k].call != Deactivate(user)
    ensures StoppedForGood(RunFrom(store, events), user)
  {
    hide Step, StoppedForGood;
    if |events| > 0 {
      RunKeepsStop(store, events[..|events| - 1], user);
      StepKeepsStop(RunFrom(store, events[..|events| - 1]), events[|events| - 1], user);
    }
  }

  lemma {:induction false} RunKeepsHalt(store: Store, events: seq<Event>, user: UserId, t: int)
    requires HaltedUntil(store, user, t)
    requires forall k :: 0 <= k < |events| ==> events[k].call != Deactivate(user) && events[k].r.checked < t
    ensures HaltedUntil(RunFrom(store, events), user, t)
  {
    hide Step, HaltedUntil;
    if |events| > 0 {
      RunKeepsHalt(store, events[..|events| - 1], user, t);
      StepKeepsHalt(RunFrom(store, events[..|events| - 1]), events[|events| - 1], user, t);
    }
  }

  /** A call after which only a resume lets the user trade again: an emergency stop, or a validation that halted on
      five losses in a row. */
  predicate StopsForGood(store: Store, e: Event, user: UserId) {
    || e.call == Activate(user)
    || (e.call.ValidateFor? && e.call.user == user && 5 <= e.call.facts.consecutive
        && Validate(store, user, e.call.facts, e.r).0.ConsecutiveLoss?)
  }

  /** Main result on manual halts: after such a call every later validation of the user is refused, whatever else is
      called and whatever the clock says, until the user is resumed. */
  lemma ManualHaltHolds(store: Store, stop: Event, events: seq<Event>, user: UserId, f: Facts, r: Readings)
    requires StopsForGood(store, stop, user)
    requires forall k :: 0 <= k < |events| ==> events[k].call != Deactivate(user)
    ensures var later := RunFrom(Step(store, stop), events);
      Validate(later, user, f, r) == (KillSwitchOn, later)
  {
    hide RunFrom;
    assert StoppedForGood(Step(store, stop), user) by {
      hide CheckKillSwitch, CheckConsecutive;
    }
    RunKeepsStop(Step(store, stop), events, user);
    StopsRefuse(RunFrom(Step(store, stop), events), user, r.checked);
    hide Step, StoppedForGood, CheckKillSwitch;
  }

  /** The end of the halt that a validation sets on a loss limit. */
  function LossHaltEnd(v: Verdict, r: Readings): Option<int> {
    match v
    case DailyLoss => Some(NextMidnight(r.clock))
    case WeeklyLoss => Some(NextMonday(r.clock))
    case _ => None
  }

  /** Main result on timed halts: after a validation that met a loss limit, every validation of the user that looks at
      the stops at least one second before the end of the halt is refused, until the user is resumed. */
  lemma TimedHaltHolds(store: Store, user: UserId, limit: Facts, halted: Readings, events: seq<Event>, f: Facts,
                       r: Readings)
    requires InOrder(halted)
    requires LossHaltEnd(Validate(store, user, limit, halted).0, halted).Some?
    requires forall k :: 0 <= k < |events| ==> events[k].call != Deactivate(user) && events[k].r.checked <= r.checked
    requires r.checked <= LossHaltEnd(Validate(store, user, limit, halted).0, halted).value - SECOND
    ensures var later := RunFrom(Validate(store, user, limit, halted).1, events);
      Validate(later, user, f, r) == (KillSwitchOn, later)
  {
    hide RunFrom, NextMidnight, NextMonday;
    var (v, after) := Validate(store, user, limit, halted);
    var end := LossHaltEnd(v, halted).value;
    ExpiryNearEnd(end, halted);
    var t := HaltExpiry(Some(end), halted).value;
    assert HaltedUntil(after, user, t) by {
      hide CheckKillSwitch, CheckConsecutive, TimeToLive;
    }
    hide HaltExpiry, LossHaltEnd, HaltedUntil, Step, Validate;
    RunKeepsHalt(after, events, user, t);
    StopsRefuse(RunFrom(after, events), user, r.checked);
    RefusedByStop(RunFrom(after, events), user, f, r);
  }

  lemma RefusedByStop(store: Store, user: UserId, f: Facts, r: Readings)
    requires !CheckKillSwitch(store, user, r.checked)
    ensures Validate(store, user, f, r) == (KillSwitchOn, store)
  {
  }

  // ---------- Resuming ----------

  /** Resuming a user clears whatever held that user, and nothing else: the global stop and every other user's keys
      stay, so trading goes on exactly when no global stop is active. */
  lemma ResumeLiftsOnlyTheUser(store: Store, user: UserId, now: int)
    ensures var after := ResumeTrading(store, user);
      && CheckKillSwitch(after, user, now) == !Exists(store, GlobalStop, now)
      && Get(after, Cooldown(user), now).None?
      && (forall key :: key !in {Halted(user), UserStop(user), Cooldown(user)} ==>
            Get(after, key, now) == Get(store, key, now))
  {
  }

  /** Under a global stop no validation passes, and none is lifted by resuming users. */
  lemma {:induction false} GlobalStopHolds(store: Store, events: seq<Event>, user: UserId, f: Facts, r: Readings)
    requires GlobalStop in store && store[GlobalStop].expiry.None?
    requires forall k :: 0 <= k < |events| ==> !events[k].call.DeactivateGlobal?
    ensures var later := RunFrom(store, events);
      GlobalStop in later && later[GlobalStop].expiry.None? && Validate(later, user, f, r) == (KillSwitchOn, later)
  {
    if |events| > 0 {
      var rest, last := events[..|events| - 1], events[|events| - 1];
      GlobalStopHolds(store, rest, user, f, r);
      GlobalStays(RunFrom(store, rest), last);
    }
  }

  lemma GlobalStays(store: Store, e: Event)
    requires GlobalStop in store && store[GlobalStop].expiry.None? && !e.call.DeactivateGlobal?
    ensures var later := Step(store, e);
      GlobalStop in later && later[GlobalStop].expiry.None?
  {
    hide CheckKillSwitch, Until, HaltExpiry, Get;
  }

  // ---------- Reading the state ----------

  /** The two readers agree: the state is halted exactly when the check refuses, at every instant. */
  lemma StateAgreesWithCheck(store: Store, user: UserId, now: int)
    ensures GetHaltState(store, user, now).isHalted <==> !CheckKillSwitch(store, user, now)
    ensures GetHaltState(store, user, now).isGlobal <==> Exists(store, GlobalStop, now)
  {
  }

  /** No call for one user is felt by another. */
  lemma OthersUnaffected(store: Store, e: Event, user: UserId, now: int)
    requires !e.call.ActivateGlobal? && !e.call.DeactivateGlobal? && e.call.user != user
    ensures var after := Step(store, e);
      && CheckKillSwitch(after, user, now) == CheckKillSwitch(store, user, now)
      && GetHaltState(after, user, now) == GetHaltState(store, user, now)
      && Get(after, Cooldown(user), now) == Get(store, Cooldown(user), now)
  {
    hide Until, HaltExpiry;
  }

  // ---------- Cooldowns ----------

  ghost predicate CoolingUntil(store: Store, user: UserId, end: int) {
    Cooldown(user) in store && store[Cooldown(user)].value == CooldownEnd(end)
    && store[Cooldown(user)].expiry.Some? && end <= store[Cooldown(user)].expiry.value
  }

  lemma StepKeepsCooldown(store: Store, e: Event, user: UserId, end: int)
    requires CoolingUntil(store, user, end) && e.call != Deactivate(user) && e.r.checked <= e.r.clock < end
    ensures CoolingUntil(Step(store, e), user, end)
  {
    hide CheckKillSwitch, Until, HaltExpiry;
  }

  lemma {:induction false} RunKeepsCooldown(store: Store, events: seq<Event>, user: UserId, end: int)
    requires CoolingUntil(store, user, end)
    requires forall k :: 0 <= k < |events| ==>
               events[k].call != Deactivate(user) && events[k].r.checked <= events[k].r.clock < end
    ensures CoolingUntil(RunFrom(store, events), user, end)
  {
    hide Step, CoolingUntil;
    if |events| > 0 {
      RunKeepsCooldown(store, events[..|events| - 1], user, end);
      StepKeepsCooldown(RunFrom(store, events[..|events| - 1]), events[|events| - 1], user, end);
    }
  }

  /** A cooldown is not forgotten before its end. */
  ghost predicate CooldownKept(store: Store, user: UserId) {
    Cooldown(user) in store ==>
      && store[Cooldown(user)].value.CooldownEnd? && store[Cooldown(user)].expiry.Some?
      && store[Cooldown(user)].value.end <= store[Cooldown(user)].expiry.value
  }

  lemma StepIsKept(store: Store, e: Event, user: UserId)
    requires CooldownKept(store, user) && InOrder(e.r)
    ensures CooldownKept(Step(store, e), user)
  {
    hide CheckKillSwitch, Until, HaltExpiry;
  }

  lemma {:induction false} RunIsKept(events: seq<Event>, user: UserId)
    requires forall k :: 0 <= k < |events| ==> InOrder(events[k].r)
    ensures CooldownKept(RunFrom(map[], events), user)
  {
    hide Step;
    if |events| > 0 {
      RunIsKept(events[..|events| - 1], user);
      StepIsKept(RunFrom(map[], events[..|events| - 1]), events[|events| - 1], user);
    }
  }

  /** When the cooldown ends that a validation is refused for: the one in force, or else one of thirty minutes. */
  function CooldownEndsAt(store: Store, user: UserId, r: Readings): int {
    var stored := Get(store, Cooldown(user), r.checked);
    if stored.Some? && stored.value.CooldownEnd? && r.clock < stored.value.end then stored.value.end
    else r.clock + 30 * MINUTE
  }

  lemma RefusedCools(store: Store, user: UserId, losing: Facts, r: Readings)
    requires CooldownKept(store, user) && InOrder(r) && losing.consecutive < 5
    requires Validate(store, user, losing, r).0.ConsecutiveLoss?
    ensures CoolingUntil(Validate(store, user, losing, r).1, user, CooldownEndsAt(store, user, r))
  {
    hide CheckKillSwitch;
  }

  lemma CoolingRefuses(store: Store, user: UserId, end: int, f: Facts, r: Readings)
    requires CoolingUntil(store, user, end) && r.checked <= r.clock < end
    ensures !Validate(store, user, f, r).0.Approved?
  {
    hide CheckKillSwitch, DailyLimitReached, WeeklyLimitReached;
  }

  /** Main result on cooldowns.  In every store the calls can make, a validation refused for three or four losses in a
      row keeps the user from every approval until the cooldown ends, the one already in force or a new one of thirty
      minutes, whatever figures the later validations bring, until the user is resumed.  Five losses are
      ManualHaltHolds. */
  lemma CooldownHolds(before: seq<Event>, user: UserId, losing: Facts, refused: Readings, events: seq<Event>, f: Facts,
                      r: Readings)
    requires InOrder(refused) && losing.consecutive < 5
    requires forall k :: 0 <= k < |before| ==> InOrder(before[k].r)
    requires Validate(RunFrom(map[], before), user, losing, refused).0.ConsecutiveLoss?
    requires forall k :: 0 <= k < |events| ==>
               && events[k].call != Deactivate(user)
               && events[k].r.checked <= events[k].r.clock < CooldownEndsAt(RunFrom(map[], before), user, refused)
    requires r.checked <= r.clock < CooldownEndsAt(RunFrom(map[], before), user, refused)
    ensures var later := RunFrom(Validate(RunFrom(map[], before), user, losing, refused).1, events);
      !Validate(later, user, f, r).0.Approved?
  {
    hide RunFrom, Validate, CoolingUntil, CooldownKept, CooldownEndsAt;
    var store := RunFrom(map[], before);
    var end := CooldownEndsAt(store, user, refused);
    RunIsKept(before, user);
    RefusedCools(store, user, losing, refused);
    var after := Validate(store, user, losing, refused).1;
    RunKeepsCooldown(after, events, user, end);
    CoolingRefuses(RunFrom(after, events), user, end, f, r);
  }

  // ---------- What the calls so far mean ----------

  datatype Hold = Free | HeldUntil(end: int) | HeldForGood

  predicate InForce(h: Hold, now: int) {
    h.HeldForGood? || (h.HeldUntil? && now < h.end)
  }

  /** What the last call that halted or resumed the user left behind. */
  ghost function HoldAfter(events: seq<Event>, user: UserId): Hold {
    if |events| == 0 then Free
    else
      var rest, e := events[..|events| - 1], events[|events| - 1];
      var earlier := HoldAfter(rest, user);
      match e.call
      case Activate(u) => if u == user then HeldForGood else earlier
      case Deactivate(u) => if u == user then Free else earlier
      case ValidateFor(u, f) =>
        if u != user then earlier else HoldOf(Validate(RunFrom(map[], rest), user, f, e.r).0, f, e.r, earlier)
      case _ => earlier
  }

  function HoldOf(v: Verdict, f: Facts, r: Readings, earlier: Hold): Hold {
    match v
    case DailyLoss => HeldUntil(HaltExpiry(Some(NextMidnight(r.clock)), r).value)
    case WeeklyLoss => HeldUntil(HaltExpiry(Some(NextMonday(r.clock)), r).value)
    case ConsecutiveLoss => if 5 <= f.consecutive then HeldForGood else earlier
    case _ => earlier
  }

  function GlobalAfter(events: seq<Event>): bool {
    if |events| == 0 then false
    else
      var last := events[|events| - 1].call;
      if last.ActivateGlobal? then true
      else if last.DeactivateGlobal? then false
      else GlobalAfter(events[..|events| - 1])
  }

  ghost predicate Mirrors(store: Store, global: bool, user: UserId, h: Hold) {
    && (GlobalStop in store <==> global)
    && (GlobalStop in store ==> store[GlobalStop].expiry.None?)
    && (UserStop(user) in store ==> store[UserStop(user)].expiry.None? && h.HeldForGood?)
    && (h.Free? ==> Halted(user) !in store)
    && (h.HeldUntil? ==> Halted(user) in store && store[Halted(user)].expiry == Some(h.end))
    && (h.HeldForGood? ==> StoppedForGood(store, user))
  }

  lemma MirrorRefuses(store: Store, global: bool, user: UserId, h: Hold, now: int)
    requires Mirrors(store, global, user, h)
    ensures CheckKillSwitch(store, user, now) <==> !global && !InForce(h, now)
  {
  }

  lemma {:induction false} RunMirrors(events: seq<Event>, user: UserId)
    ensures Mirrors(RunFrom(map[], events), GlobalAfter(events), user, HoldAfter(events, user))
  {
    hide Step, Mirrors, Validate, HoldOf;
    if |events| == 0 {
      assert Mirrors(map[], false, user, Free) by {
        hide CheckKillSwitch;
        EmptyMirrors(user);
      }
    } else {
      var rest, e := events[..|events| - 1], events[|events| - 1];
      RunMirrors(rest, user);
      StepMirrors(RunFrom(map[], rest), GlobalAfter(rest), user, HoldAfter(rest, user), e);
    }
  }

  lemma EmptyMirrors(user: UserId)
    ensures Mirrors(map[], false, user, Free)
  {
  }

  ghost function HoldNext(store: Store, user: UserId, h: Hold, e: Event): Hold {
    match e.call
    case Activate(u) => if u == user then HeldForGood else h
    case Deactivate(u) => if u == user then Free else h
    case ValidateFor(u, f) => if u == user then HoldOf(Validate(store, user, f, e.r).0, f, e.r, h) else h
    case _ => h
  }

  lemma StepMirrors(store: Store, global: bool, user: UserId, h: Hold, e: Event)
    requires Mirrors(store, global, user, h)
    ensures Mirrors(Step(store, e),
                    if e.call.ActivateGlobal? then true else if e.call.DeactivateGlobal? then false else global,
                    user, HoldNext(store, user, h, e))
  {
    hide CheckKillSwitch, TimeToLive, NextMidnight, NextMonday, DailyLimitReached, WeeklyLimitReached;
    MirrorRefuses(store, global, user, h, e.r.checked);
    if e.call.ValidateFor? && e.call.user == user && CheckKillSwitch(store, user, e.r.checked) {
      ValidMirrors(store, global, user, h, e.call.facts, e.r);
    }
  }

  lemma ValidMirrors(store: Store, global: bool, user: UserId, h: Hold, f: Facts, r: Readings)
    requires Mirrors(store, global, user, h) && CheckKillSwitch(store, user, r.checked)
    ensures var (v, after) := Validate(store, user, f, r);
      Mirrors(after, global, user, HoldOf(v, f, r, h))
  {
    hide TimeToLive, NextMidnight, NextMonday, DailyLimitReached, WeeklyLimitReached;
    MirrorRefuses(store, global, user, h, r.checked);
  }

  /** Main result on runs: after any calls, in any interleaving of users and with any clock readings, a user is
      refused exactly when the global switch was last turned on, or what last held the user has not ended. */
  lemma RefusedExactlyWhenHeld(events: seq<Event>, user: UserId, now: int)
    ensures CheckKillSwitch(RunFrom(map[], events), user, now)
       <==> !GlobalAfter(events) && !InForce(HoldAfter(events, user), now)
  {
    hide RunFrom, GlobalAfter, HoldAfter, Mirrors, CheckKillSwitch;
    RunMirrors(events, user);
    MirrorRefuses(RunFrom(map[], events), GlobalAfter(events), user, HoldAfter(events, user), now);
  }
}
