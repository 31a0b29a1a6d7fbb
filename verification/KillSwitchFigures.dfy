/** What the calls of the kill switch write, key by key, and what they report, in plain figures. */
module KillSwitchFigures {
  import opened Common
  import opened KillSwitchModel
  import opened KillSwitchSafety

  /** When a halt ends: a daily one at the next midnight, a weekly one at the next Monday midnight, one for failures of
      the exchange after thirty minutes, and any other only by a resume. */
  ghost predicate EndsAt(end: Option<int>, trigger: Trigger, clock: int) {
    match trigger
    case DailyLossLimit => end.Some? && FirstAfter(end.value, clock, 86_400_000_000)
    case WeeklyLossLimit => end.Some? && FirstAfter(end.value, clock, 604_800_000_000)
    case ApiFailures => end == Some(clock + 1_800_000_000)
    case _ => end.None?
  }

  /** The first multiple of a period after an instant. */
  ghost predicate FirstAfter(t: int, now: int, period: int)
    requires period > 0
  {
    now < t && t % period == 0 && forall u: int :: now < u && u % period == 0 ==> t <= u
  }

  lemma UntilMeans(trigger: Trigger, clock: int)
    ensures EndsAt(Until(trigger, clock), trigger, clock)
  {
    MidnightIsNext(clock);
    MondayIsNext(clock);
    hide NextMidnight, NextMonday;
  }

  /** How long the key of a halt lives from the time it is written: the whole seconds left of it, and one at least; for
      ever without an end. */
  ghost predicate LivesUntil(expiry: Option<int>, end: Option<int>, r: Readings) {
    if end.None? then expiry.None?
    else
      && expiry.Some?
      && var left, life := end.value - r.ttlClock, expiry.value - r.written;
         if left < 2_000_000 then life == 1_000_000 else life % 1_000_000 == 0 && life <= left < life + 1_000_000
  }

  lemma ExpiryMeans(end: Option<int>, r: Readings)
    ensures LivesUntil(HaltExpiry(end, r), end, r)
  {
  }

  /** A halt of a user is what a key of that user says. */
  ghost predicate HaltWritten(e: Entry, trigger: Trigger, r: Readings) {
    && e.value.Halt? && e.value.trigger == trigger && EndsAt(e.value.until, trigger, r.clock)
    && LivesUntil(e.expiry, e.value.until, r)
  }

  /** Main result on halts: a halt writes the halt of its user and nothing else; an emergency stop writes the user's
      stop, which never expires, beside it. */
  lemma HaltMeans(store: Store, user: UserId, trigger: Trigger, r: Readings)
    ensures var after := HaltTrading(store, user, trigger, r);
      && Halted(user) in after && HaltWritten(after[Halted(user)], trigger, r)
      && after == store[Halted(user) := after[Halted(user)]]
    ensures var after := EmergencyStop(store, user, trigger, r);
      && Halted(user) in after && HaltWritten(after[Halted(user)], trigger, r)
      && after == store[UserStop(user) := Entry(Stopped, None)][Halted(user) := after[Halted(user)]]
  {
    UntilMeans(trigger, r.clock);
    ExpiryMeans(Until(trigger, r.clock), r);
    hide Until, HaltExpiry;
  }

  /** A key counts until it expires, or for ever. */
  predicate Live(store: Store, key: Key, now: int) {
    key in store && match store[key].expiry
                    case None => true
                    case Some(end) => now < end
  }

  /** Main result on reports: a global stop is reported as such; a user's stop as a manual halt without an end; a
      halt with its own trigger and end; and nothing otherwise. */
  lemma ReportMeans(store: Store, user: UserId, now: int)
    ensures var report := GetHaltState(store, user, now);
      if Live(store, GlobalStop, now) then report == HaltState(true, None, None, true)
      else if Live(store, UserStop(user), now) then report == HaltState(true, Some(Manual), None, false)
      else if Live(store, Halted(user), now) then
        && report.isHalted && !report.isGlobal
        && (store[Halted(user)].value.Halt? ==>
              report.trigger == Some(store[Halted(user)].value.trigger)
              && report.until == store[Halted(user)].value.until)
      else report == HaltState(false, None, None, false)
    ensures CheckKillSwitch(store, user, now)
       <==> !Live(store, GlobalStop, now) && !Live(store, UserStop(user), now) && !Live(store, Halted(user), now)
  {
  }

  /** So a halt is reported by its trigger and its end for as long as its key lives. */
  lemma HaltIsReported(store: Store, user: UserId, trigger: Trigger, r: Readings, now: int)
    requires !Live(store, GlobalStop, now) && !Live(store, UserStop(user), now)
    ensures var after := HaltTrading(store, user, trigger, r);
      Live(after, Halted(user), now) ==>
        var report := GetHaltState(after, user, now);
        && report.isHalted && report.trigger == Some(trigger) && EndsAt(report.until, trigger, r.clock)
        && !report.isGlobal
  {
    HaltMeans(store, user, trigger, r);
    ReportMeans(HaltTrading(store, user, trigger, r), user, now);
    hide HaltTrading, GetHaltState;
  }

  // ---------- A validation ----------

  /** The cooldown of a user is running. */
  predicate Cooling(store: Store, user: UserId, r: Readings) {
    && Live(store, Cooldown(user), r.checked) && store[Cooldown(user)].value.CooldownEnd?
    && r.clock < store[Cooldown(user)].value.end
  }

  /** What refuses a validation: the first of these, in the order in which the engine looks. */
  function Obstacle(store: Store, user: UserId, f: Facts, r: Readings): Option<Verdict> {
    var stopped := Live(store, GlobalStop, r.checked) || Live(store, UserStop(user), r.checked)
                   || Live(store, Halted(user), r.checked);
    var day := (0.0 < f.dailyLimit && f.dailyLimit <= f.daily) || f.dailyLimit < f.daily + f.projected;
    var week := 0.0 < f.weeklyLimit && f.weeklyLimit <= f.weekly;
    var early := match f.early case Some(code) => Some(EarlyReject(code)) case None => None;
    var late := match f.late case Some(code) => Some(LateReject(code)) case None => None;
    var losses := Or(When(day, DailyLoss),
                     Or(When(week, WeeklyLoss), When(Cooling(store, user, r) || 3 <= f.consecutive, ConsecutiveLoss)));
    Or(When(stopped, KillSwitchOn), Or(early, Or(losses, late)))
  }

  /** Main result on validations: the verdict is that of the first obstacle, and an approval without one.  A loss
      limit or five losses in a row halt the user, three or four start a cooldown of thirty minutes if none is
      running, and nothing else is written. */
  lemma ValidationMeans(store: Store, user: UserId, f: Facts, r: Readings)
    ensures var (v, after) := Validate(store, user, f, r);
      var obstacle := Obstacle(store, user, f, r);
      && v == (if obstacle.Some? then obstacle.value else Approved)
      && match v
         case DailyLoss => after == HaltTrading(store, user, DailyLossLimit, r)
         case WeeklyLoss => after == HaltTrading(store, user, WeeklyLossLimit, r)
         case ConsecutiveLoss =>
           if 5 <= f.consecutive then after == HaltTrading(store, user, ConsecutiveLosses, r)
           else if Cooling(store, user, r) then after == store
           else
             after == store[Cooldown(user) :=
                              Entry(CooldownEnd(r.clock + 1_800_000_000), Some(r.written + 1_800_000_000))]
         case _ => after == store
  {
    ReportMeans(store, user, r.checked);
    hide HaltTrading, CheckKillSwitch;
  }
}
