/** Power, steam and brew transitions, and the setters the profile and settings managers use. */
module StateManagers {
  import opened Options
  import opened Hysteresis
  import opened BrewProfiles
  import opened BrewTimers
  import opened Machines
  import opened Devices
  import opened StatusManagers

  class StateManager {
    const brewTimer: BrewTimer
    const profiler: BrewProfiler
    const heaters: HeaterControllers
    const weightSensor: WeightSensor
    const statusManager: StatusManager
    var power: bool
    var steam: bool

    ghost const Repr: set<object> :=
      {this, brewTimer, profiler, heaters, weightSensor, statusManager, statusManager.sensor, statusManager.leds}

    ghost predicate Valid()
      reads Repr
    {
      statusManager.Valid() && brewTimer.Valid() && heaters.Exclusive() && Coherent(View())
    }

    ghost function View(): Machine
      requires statusManager.Valid()
      reads Repr
    {
      Machine(statusManager.Settings(), power, steam, heaters.brewActive, heaters.steamActive,
              heaters.brewTarget, heaters.steamTarget, profiler.View(), brewTimer.state,
              weightSensor.tares, statusManager.View())
    }

    /** The statuses notified since the machine's status was `before`. */
    twostate predicate Notified()
      reads this, statusManager
    {
      statusManager.notified == old(statusManager.notified) + Notice(old(statusManager.cached), statusManager.cached)
    }

    /** Steps and auto-stop condition of the profiler. */
    twostate predicate RecipeKept()
      reads this, profiler
    {
      profiler.steps == old(profiler.steps) && profiler.stop == old(profiler.stop)
    }

    twostate predicate TargetsKept()
      reads this, heaters
    {
      heaters.brewTarget == old(heaters.brewTarget) && heaters.steamTarget == old(heaters.steamTarget)
    }

    twostate predicate FlagsKept()
      reads this, profiler
    {
      power == old(power) && steam == old(steam) && profiler.active == old(profiler.active)
    }

    /** The devices agree with the flags: one heater at most, the LEDs, and a callback only with the power on. */
    lemma DevicesAgree()
      requires Valid()
      ensures heaters.brewActive <==> power && !steam
      ensures heaters.steamActive <==> power && steam
      ensures profiler.active ==> power && !steam
      ensures statusManager.leds.power <==> power
      ensures statusManager.leds.brew <==> power && !steam && statusManager.published == Ready
      ensures statusManager.leds.steam <==> power && steam && statusManager.published == Ready
      ensures statusManager.published == Disabled <==> !power
      ensures statusManager.sensor.registered == map[] <==> !power
      ensures power ==>
                var callback := statusManager.sensor.registered[statusManager.descriptor.value];
                && callback.steam == steam
                && callback.target == (if steam then heaters.steamTarget else heaters.brewTarget)
                && callback.window == (if steam then statusManager.steamWindow else statusManager.brewWindow)
    {
      var sensor := statusManager.sensor;
      if power {
        assert statusManager.descriptor.value in sensor.registered.Keys;
      } else {
        assert sensor.registered.Keys == {};
      }
    }

    constructor (steamSwitch: bool, timer: BrewTimer, profiler: BrewProfiler, heaters: HeaterControllers,
                 weightSensor: WeightSensor, statusManager: StatusManager)
      requires statusManager.Valid() && statusManager.View() == StatusState(Disabled, Disabled, ALL_OFF, None)
      requires timer.Valid() && timer.state == 0 && !profiler.active && weightSensor.tares == 0
      requires !heaters.brewActive && !heaters.steamActive && heaters.Exclusive()
      ensures Valid() && !power && steam == steamSwitch
      ensures View() == InitialMachine(statusManager.Settings(), steamSwitch, heaters.brewTarget,
                                       heaters.steamTarget, profiler.View())
      ensures this.statusManager == statusManager && this.heaters == heaters && this.profiler == profiler
    {
      power, steam := false, steamSwitch;
      brewTimer, this.profiler, this.heaters := timer, profiler, heaters;
      this.weightSensor, this.statusManager := weightSensor, statusManager;
    }

    /** Everything a power command does, before the new power state is stored. */
    twostate predicate Switched(state: bool, temperature: int)
      reads Repr
    {
      && old(statusManager.Valid()) && statusManager.Valid() && brewTimer.Valid() && heaters.Exclusive()
      && View() == SetPower(old(View()), state, temperature).(power := old(power)) && Notified()
    }

    method SwitchOff(temperature: int)
      requires Valid() && power
      modifies profiler, heaters, brewTimer, statusManager, statusManager.sensor, statusManager.leds
      ensures Switched(false, temperature)
    {
      profiler.active := false;
      heaters.SwitchSteam(false);
      heaters.SwitchBrew(false);
      statusManager.Disable();
      brewTimer.Reset();
    }

    method SwitchOn(temperature: int)
      requires Valid() && !power
      modifies heaters, statusManager, statusManager.sensor, statusManager.leds
      ensures Switched(true, temperature)
    {
      if steam {
        heaters.SwitchSteam(true);
        statusManager.IndicateState(true, heaters.steamTarget, temperature);
      } else {
        heaters.SwitchBrew(true);
        statusManager.IndicateState(false, heaters.brewTarget, temperature);
      }
    }

    method SetPowerState(state: bool, temperature: int)
      requires Valid()
      modifies Repr
      ensures Valid() && View() == SetPower(old(View()), state, temperature) && Notified()
      ensures power == state && steam == old(steam) && profiler.active == (old(profiler.active) && state)
      ensures RecipeKept() && TargetsKept()
    {
      if power == state {
        return;
      }
      PowerKeepsCoherence(View(), state, temperature);
      if power {
        SwitchOff(temperature);
      } else {
        SwitchOn(temperature);
      }
      power := state;
    }

    /** `ok` is false where the source throws. */
    method StartBrewing(ms: nat) returns (ok: bool)
      requires Valid()
      modifies Repr
      ensures Valid() && Outcome(View(), ok) == StartBrew(old(View()), ms) && Notified()
      ensures ok <==> old(profiler.active || (power && !steam))
      ensures profiler.active == ok && power == old(power) && steam == old(steam) && RecipeKept() && TargetsKept()
    {
      if profiler.active {
        return true;
      }
      if !power {
        return false;
      }
      if steam {
        return false;
      }
      profiler.active := true;
      brewTimer.Start(ms);
      return true;
    }

    method StopBrewing(ms: nat)
      requires Valid()
      modifies Repr
      ensures Valid() && View() == StopBrew(old(View()), ms) && Notified()
      ensures !profiler.active && power == old(power) && steam == old(steam) && RecipeKept() && TargetsKept()
    {
      if !profiler.active {
        return;
      }
      brewTimer.Stop(ms);
      profiler.active := false;
    }

    method SetBrewTarget(target: int, temperature: int)
      requires Valid()
      modifies Repr
      ensures Valid() && View() == SetBrewTemperature(old(View()), target, temperature) && Notified()
      ensures heaters.brewTarget == target && heaters.steamTarget == old(heaters.steamTarget)
      ensures FlagsKept() && RecipeKept()
    {
      heaters.brewTarget := target;
      if !steam && power {
        statusManager.IndicateState(false, target, temperature);
      }
    }

    method SetSteamTarget(target: int, temperature: int)
      requires Valid()
      modifies Repr
      ensures Valid() && View() == SetSteamTemperature(old(View()), target, temperature) && Notified()
      ensures heaters.steamTarget == target && heaters.brewTarget == old(heaters.brewTarget)
      ensures FlagsKept() && RecipeKept()
    {
      heaters.steamTarget := target;
      if steam && power {
        statusManager.IndicateState(true, target, temperature);
      }
    }

    /** The heater changes hands, before the new mode is stored. */
    method SwitchMode(temperature: int)
      requires Valid() && power && !profiler.active
      modifies heaters, statusManager, statusManager.sensor, statusManager.leds
      ensures statusManager.Valid() && brewTimer.Valid() && heaters.Exclusive() && Notified()
      ensures View() == SetSteam(old(View()), !steam, temperature).machine.(steam := steam)
    {
      if steam {
        heaters.SwitchSteam(false);
        heaters.SwitchBrew(true);
        statusManager.IndicateState(false, heaters.brewTarget, temperature);
      } else {
        heaters.SwitchBrew(false);
        heaters.SwitchSteam(true);
        statusManager.IndicateState(true, heaters.steamTarget, temperature);
      }
    }

    method SetSteamModeState(state: bool, temperature: int) returns (ok: bool)
      requires Valid()
      modifies Repr
      ensures Valid() && Outcome(View(), ok) == SetSteam(old(View()), state, temperature) && Notified()
      ensures ok <==> old(steam) == state || !old(profiler.active)
      ensures steam == (if ok then state else old(steam)) && power == old(power)
      ensures profiler.active == old(profiler.active) && RecipeKept() && TargetsKept()
    {
      if steam == state {
        return true;
      }
      if profiler.active {
        return false;
      }
      SteamKeepsCoherence(View(), state, temperature);
      if power {
        SwitchMode(temperature);
      }
      steam := state;
      return true;
    }

    method ResetWeight() returns (ok: bool)
      requires Valid()
      modifies Repr
      ensures Valid() && Outcome(View(), ok) == ResetScales(old(View())) && Notified()
      ensures ok <==> !old(profiler.active)
      ensures weightSensor.tares == old(weightSensor.tares) + if ok then 1 else 0
      ensures FlagsKept() && RecipeKept() && TargetsKept()
    {
      if profiler.active {
        return false;
      }
      weightSensor.tares := weightSensor.tares + 1;
      return true;
    }

    method SetSteps(steps: seq<BrewStep>) returns (ok: bool)
      requires Valid()
      modifies Repr
      ensures Valid() && Outcome(View(), ok) == SetBrewSteps(old(View()), steps) && Notified()
      ensures ok <==> !old(profiler.active) && ConvertSteps(steps).Some?
      ensures profiler.steps == (if ok then ConvertSteps(steps).value else old(profiler.steps))
      ensures profiler.stop == old(profiler.stop) && FlagsKept() && TargetsKept()
    {
      if profiler.active {
        return false;
      }
      var converted := ConvertSteps(steps);
      if converted.None? {
        return false;
      }
      profiler.steps := converted.value;
      return true;
    }

    method SetStopCondition(stop: Condition) returns (ok: bool)
      requires Valid()
      modifies Repr
      ensures Valid() && Outcome(View(), ok) == SetAutoStop(old(View()), stop) && Notified()
      ensures ok <==> !old(profiler.active)
      ensures profiler.stop == (if ok then stop else old(profiler.stop))
      ensures profiler.steps == old(profiler.steps) && FlagsKept() && TargetsKept()
    {
      if profiler.active {
        return false;
      }
      profiler.stop := stop;
      return true;
    }

    /** A reading delivered to the callback registered under `d`. */
    method DeliverReading(d: nat, temperature: int, now: int)
      requires Valid() && d in statusManager.sensor.registered
      modifies Repr
      ensures Valid() && Notified()
      ensures View() == old(View()).(status := ReadingStatus(old(View()).status, temperature, now))
    {
      assert d in statusManager.sensor.registered.Keys;
      ReadingKeepsCoherence(View(), temperature, now);
      statusManager.OnTemperature(d, temperature, now);
    }
  }
}
