/** The kill switch as it runs against the key store, and the risk engine's calls on it. */
module KillSwitchEngine {
  import opened Common
  import opened KillSwitchModel

  class KeyStore {
    var entries: Store

    constructor ()
      ensures entries == map[]
    {
      entries := map[];
    }

    method Set(key: Key, value: Value, expiry: Option<int>)
      modifies this
      ensures entries == old(entries)[key := Entry(value, expiry)]
    {
      entries := entries[key := Entry(value, expiry)];
    }

    method Delete(keys: set<Key>)
      modifies this
      ensures entries == old(entries) - keys
    {
      entries := entries - keys;
    }
  }

  class KillSwitch {
    const keys: KeyStore

    constructor (keys: KeyStore)
      ensures this.keys == keys
    {
      this.keys := keys;
    }

    method ActivateGlobal()
      modifies keys
      ensures keys.entries == old(keys.entries)[GlobalStop := Entry(Stopped, None)]
    {
      keys.Set(GlobalStop, Stopped, None);
    }

    method DeactivateGlobal()
      modifies keys
      ensures keys.entries == old(keys.entries) - {GlobalStop}
    {
      keys.Delete({GlobalStop});
    }

    method HaltTrading(user: UserId, trigger: Trigger, r: Readings)
      modifies keys
      ensures keys.entries == KillSwitchModel.HaltTrading(old(keys.entries), user, trigger, r)
    {
      hide TimeToLive, Until;
      var until := Until(trigger, r.clock);
      if until.None? {
        keys.Set(Halted(user), Halt(trigger, until), None);
      } else {
        var seconds := TimeToLive(until.value, r.ttlClock);
        keys.Set(Halted(user), Halt(trigger, until), Some(r.written + seconds * SECOND));
      }
    }

    method ResumeTrading(user: UserId)
      modifies keys
      ensures keys.entries == KillSwitchModel.ResumeTrading(old(keys.entries), user)
    {
      keys.Delete({Halted(user), UserStop(user), Cooldown(user)});
    }

    method EmergencyStop(user: UserId, trigger: Trigger, r: Readings)
      modifies keys
      ensures keys.entries == KillSwitchModel.EmergencyStop(old(keys.entries), user, trigger, r)
    {
      keys.Set(UserStop(user), Stopped, None);
      HaltTrading(user, trigger, r);
    }
  }

  class RiskEngine {
    const keys: KeyStore
    const killSwitch: KillSwitch

    constructor (keys: KeyStore)
      ensures this.keys == keys && killSwitch.keys == keys
    {
      this.keys := keys;
      var switch := new KillSwitch(keys);
      killSwitch := switch;
    }

    predicate Valid() {
      killSwitch.keys == keys
    }

    /** The cooldown check, which starts a cooldown at three losses in a row. */
    method CheckConsecutiveLosses(user: UserId, count: int, r: Readings) returns (ok: bool)
      modifies keys
      ensures (ok, keys.entries) == CheckConsecutive(old(keys.entries), user, count, r)
    {
      var end := Get(keys.entries, Cooldown(user), r.checked);
      if end.Some? && end.value.CooldownEnd? {
        if r.clock < end.value.end {
          return false;
        }
      }
      if 5 <= count {
        return false;
      }
      if 3 <= count {
        keys.Set(Cooldown(user), CooldownEnd(r.clock + COOLDOWN), Some(r.written + COOLDOWN));
        return false;
      }
      return true;
    }

    method Validate(user: UserId, f: Facts, r: Readings) returns (v: Verdict)
      requires Valid()
      modifies keys
      ensures (v, keys.entries) == KillSwitchModel.Validate(old(keys.entries), user, f, r)
    {
      hide CheckKillSwitch, CheckConsecutive, KillSwitchModel.HaltTrading, DailyLimitReached, WeeklyLimitReached;
      if !CheckKillSwitch(keys.entries, user, r.checked) {
        return KillSwitchOn;
      }
      if f.early.Some? {
        return EarlyReject(f.early.value);
      }
      if DailyLimitReached(f) {
        killSwitch.HaltTrading(user, DailyLossLimit, r);
        return DailyLoss;
      }
      if WeeklyLimitReached(f) {
        killSwitch.HaltTrading(user, WeeklyLossLimit, r);
        return WeeklyLoss;
      }
      var ok := CheckConsecutiveLosses(user, f.consecutive, r);
      if !ok {
        if 5 <= f.consecutive {
          killSwitch.HaltTrading(user, ConsecutiveLosses, r);
        }
        return ConsecutiveLoss;
      }
      if f.late.Some? {
        return LateReject(f.late.value);
      }
      return Approved;
    }

    method ActivateKillSwitch(user: UserId, r: Readings)
      requires Valid()
      modifies keys
      ensures keys.entries == Step(old(keys.entries), Event(Activate(user), r))
    {
      killSwitch.EmergencyStop(user, Manual, r);
    }

    method DeactivateKillSwitch(user: UserId, r: Readings)
      requires Valid()
      modifies keys
      ensures keys.entries == Step(old(keys.entries), Event(Deactivate(user), r))
    {
      killSwitch.ResumeTrading(user);
    }

    method ActivateGlobalKillSwitch(r: Readings)
      requires Valid()
      modifies keys
      ensures keys.entries == Step(old(keys.entries), Event(KillSwitchModel.ActivateGlobal, r))
    {
      killSwitch.ActivateGlobal();
    }

    method DeactivateGlobalKillSwitch(r: Readings)
      requires Valid()
      modifies keys
      ensures keys.entries == Step(old(keys.entries), Event(KillSwitchModel.DeactivateGlobal, r))
    {
      killSwitch.DeactivateGlobal();
    }
  }
}
