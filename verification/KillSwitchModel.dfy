/** Stops, halts and cooldowns in the key store: agents/risk/kill_switch.py, the checks 0 and 7 to 9 of
    agents/risk/validators.py, and the calls of agents/risk/engine.py that read and write them.

    Instants are microseconds counted from a Monday 00:00 UTC.
 */
module KillSwitchModel {
  import opened Common
  import opened Decimals

  const SECOND: int := 1_000_000
  const MINUTE: int := 60 * SECOND
  const DAY: int := 86_400 * SECOND
  const WEEK: int := 7 * DAY

  type UserId = nat

  datatype Trigger =
    | DailyLossLimit
    | WeeklyLossLimit
    | ConsecutiveLosses
    | ApiFailures
    | LiquidationEvent
    | SystemError
    | Manual

  datatype Key = GlobalStop | UserStop(user: UserId) | Halted(user: UserId) | Cooldown(user: UserId)

  datatype Value =
    | Stopped
    | Halt(trigger: Trigger, until: Option<int>)
    | CooldownEnd(end: int)

  /** A key without an expiry stays until it is deleted. */
  datatype Entry = Entry(value: Value, expiry: Option<int>)

  type Store = map<Key, Entry>

  // ---------- The key store ----------

  function Get(store: Store, key: Key, now: int): Option<Value> {
    if key in store && (store[key].expiry.None? || now < store[key].expiry.value) then Some(store[key].value) else None
  }

  predicate Exists(store: Store, key: Key, now: int) {
    Get(store, key, now).Some?
  }

  // ---------- How long a halt lasts ----------

  function NextMidnight(now: int): int {
    (now / DAY + 1) * DAY
  }

  /** On a Monday the next Monday is a week away. */
  function NextMonday(now: int): int {
    var weekday := now / DAY % 7;
    var days := if (7 - weekday) % 7 == 0 then 7 else (7 - weekday) % 7;
    (now / DAY + days) * DAY
  }

  /** `None` stands for "manual_resume". */
  function Until(trigger: Trigger, now: int): Option<int> {
    match trigger
    case DailyLossLimit => Some(NextMidnight(now))
    case WeeklyLossLimit => Some(NextMonday(now))
    case ApiFailures => Some(now + 30 * MINUTE)
    case _ => None
  }

  /** Whole seconds, and at least one. */
  function TimeToLive(until: int, now: int): int {
    var seconds := (until - now) / SECOND;
    if seconds < 1 then 1 else seconds
  }

  // ---------- The calls ----------

  /** What a call reads from the clock, in turn: when it looks at the stops, when it computes the end of a halt, when
      it computes the time to live, and when the store takes the write. */
  datatype Readings = Readings(checked: int, clock: int, ttlClock: int, written: int)

  predicate InOrder(r: Readings) {
    r.checked <= r.clock <= r.ttlClock <= r.written
  }

  function HaltExpiry(until: Option<int>, r: Readings): Option<int> {
    if until.None? then None else Some(r.written + TimeToLive(until.value, r.ttlClock) * SECOND)
  }

  function HaltTrading(store: Store, user: UserId, trigger: Trigger, r: Readings): Store {
    var until := Until(trigger, r.clock);
    store[Halted(user) := Entry(Halt(trigger, until), HaltExpiry(until, r))]
  }

  function EmergencyStop(store: Store, user: UserId, trigger: Trigger, r: Readings): Store {
    HaltTrading(store[UserStop(user) := Entry(Stopped, None)], user, trigger, r)
  }

  /** Lifts the user's stop, halt and cooldown together. */
  function ResumeTrading(store: Store, user: UserId): Store {
    store - {Halted(user), UserStop(user), Cooldown(user)}
  }

  /** True when trading may go on. */
  predicate CheckKillSwitch(store: Store, user: UserId, now: int) {
    if Exists(store, GlobalStop, now) then false
    else if Exists(store, UserStop(user), now) then false
    else Get(store, Halted(user), now).None?
  }

  datatype HaltState = HaltState(isHalted: bool, trigger: Option<Trigger>, until: Option<int>, isGlobal: bool)

  function GetHaltState(store: Store, user: UserId, now: int): HaltState {
    if Exists(store, GlobalStop, now) then HaltState(true, None, None, true)
    else if Exists(store, UserStop(user), now) then HaltState(true, Some(Manual), None, false)
    else
      var halt := Get(store, Halted(user), now);
      if halt.None? then HaltState(false, None, None, false)
      else if halt.value.Halt? then HaltState(true, Some(halt.value.trigger), halt.value.until, false)
      else HaltState(true, None, None, false)
  }

  // ---------- A validation ----------

  /** What a validation is given: the outcome of the checks before the loss checks, the figures of the loss checks,
      and the outcome of the checks after them. */
  datatype Facts = Facts(
    early: Option<string>,
    daily: real,
    dailyLimit: real,
    projected: real,
    weekly: real,
    weeklyLimit: real,
    consecutive: int,
    late: Option<string>)

  datatype Verdict =
    | Approved
    | KillSwitchOn
    | EarlyReject(code: string)
    | DailyLoss
    | WeeklyLoss
    | ConsecutiveLoss
    | LateReject(code: string)

  predicate DailyLimitReached(f: Facts) {
    (0.0 < f.dailyLimit && f.dailyLimit <= f.daily) || f.dailyLimit < f.daily + f.projected
  }

  predicate WeeklyLimitReached(f: Facts) {
    0.0 < f.weeklyLimit && f.weeklyLimit <= f.weekly
  }

  const COOLDOWN: int := 30 * MINUTE

  /** Whether the losses in a row let trading go on, and the store with the cooldown that starts at three. */
  function CheckConsecutive(store: Store, user: UserId, count: int, r: Readings): (bool, Store) {
    var end := Get(store, Cooldown(user), r.checked);
    if end.Some? && end.value.CooldownEnd? && r.clock < end.value.end then (false, store)
    else if 5 <= count then (false, store)
    else if 3 <= count then
      (false, store[Cooldown(user) := Entry(CooldownEnd(r.clock + COOLDOWN), Some(r.written + COOLDOWN))])
    else (true, store)
  }

  function Validate(store: Store, user: UserId, f: Facts, r: Readings): (Verdict, Store) {
    if !CheckKillSwitch(store, user, r.checked) then (KillSwitchOn, store)
    else if f.early.Some? then (EarlyReject(f.early.value), store)
    else if DailyLimitReached(f) then (DailyLoss, HaltTrading(store, user, DailyLossLimit, r))
    else if WeeklyLimitReached(f) then (WeeklyLoss, HaltTrading(store, user, WeeklyLossLimit, r))
    else
      var (ok, after) := CheckConsecutive(store, user, f.consecutive, r);
      if !ok then
        (ConsecutiveLoss, if 5 <= f.consecutive then HaltTrading(after, user, ConsecutiveLosses, r) else after)
      else if f.late.Some? then (LateReject(f.late.value), after)
      else (Approved, after)
  }

  // ---------- Runs ----------

  datatype Call =
    | Activate(user: UserId)
    | Deactivate(user: UserId)
    | ActivateGlobal
    | DeactivateGlobal
    | ValidateFor(user: UserId, facts: Facts)

  datatype Event = Event(call: Call, r: Readings)

  function Step(store: Store, e: Event): Store {
    match e.call
    case Activate(user) => EmergencyStop(store, user, Manual, e.r)
    case Deactivate(user) => ResumeTrading(store, user)
    case ActivateGlobal => store[GlobalStop := Entry(Stopped, None)]
    case DeactivateGlobal => store - {GlobalStop}
    case ValidateFor(user, facts) => Validate(store, user, facts, e.r).1
  }

  /** The store after the calls, one at a time. */
  function RunFrom(store: Store, events: seq<Event>): Store {
    if |events| == 0 then store else Step(RunFrom(store, events[..|events| - 1]), events[|events| - 1])
  }
}
