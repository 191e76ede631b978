/** The heating status: what is published, what the LEDs show, and the one callback on the sensor. */
module StatusManagers {
  import opened Options
  import opened Hysteresis
  import opened Machines
  import opened LedsHandlers
  import opened Devices

  class StatusManager {
    const brewWindow: int
    const steamWindow: int
    const period: nat
    const leds: LedsHandler
    const sensor: TemperatureSensor
    var published: HeatingStatus            // m_heatingStatus
    var cached: HeatingStatus               // m_heatingStatusCached
    var descriptor: Option<nat>             // m_temperatureCallback
    var notified: seq<HeatingStatus>        // calls of m_callback, in order

    /** The last status the change callback was given is the published one; each differs from the one before. */
    ghost predicate ToldChanges()
      reads this
    {
      && cached == published
      && published == (if notified == [] then Disabled else notified[|notified| - 1])
      && (notified != [] ==> notified[0] != Disabled)
      && forall i :: 0 < i < |notified| ==> notified[i] != notified[i - 1]
    }

    /** The sensor holds exactly the callback this object remembers. */
    ghost predicate Valid()
      reads this, sensor
    {
      && ToldChanges()
      && sensor.registered.Keys == (if descriptor.Some? then {descriptor.value} else {})
      && (descriptor.Some? ==> descriptor.value < sensor.next)
    }

    function Settings(): Config {
      Config(brewWindow, steamWindow, period, sensor.fixedUpdateRate)
    }

    ghost function View(): StatusState
      requires Valid()
      reads this, sensor, leds
    {
      StatusState(cached, published, leds.View(),
                  if descriptor.Some? then Some(sensor.registered[descriptor.value]) else None)
    }

    constructor (brewWindow: int, steamWindow: int, period: nat, leds: LedsHandler, sensor: TemperatureSensor)
      requires sensor.registered == map[] && leds.View() == ALL_OFF
      ensures Valid() && View() == StatusState(Disabled, Disabled, ALL_OFF, None) && notified == []
      ensures this.leds == leds && this.sensor == sensor
      ensures this.brewWindow == brewWindow && this.steamWindow == steamWindow && this.period == period
      ensures Settings() == Config(brewWindow, steamWindow, period, sensor.fixedUpdateRate)
    {
      this.brewWindow, this.steamWindow, this.period := brewWindow, steamWindow, period;
      this.leds, this.sensor := leds, sensor;
      published, cached, descriptor, notified := Disabled, Disabled, None, [];
    }

    method UnregisterTemperatureCallback()
      requires Valid()
      modifies this`descriptor, sensor
      ensures Valid() && View() == old(View()).(callback := None)
      ensures sensor.registered == map[] && sensor.next == old(sensor.next)
    {
      if descriptor.Some? {
        sensor.UnregisterCallback(descriptor.value);
        descriptor := None;
      }
      assert sensor.registered.Keys == {};
    }

    method Publish(status: HeatingStatus)
      requires Valid()
      modifies this`cached, this`published, this`notified
      ensures Valid() && View() == PublishStatus(old(View()), status)
      ensures published == cached == status
      ensures notified == old(notified) + (if status == old(published) then [] else [status])
    {
      if status != cached {
        cached := status;
        published := status;
        notified := notified + [status];
      }
    }

    method Apply(steamMode: bool, status: HeatingStatus)
      requires Valid()
      modifies this`cached, this`published, this`notified, leds
      ensures Valid() && View() == ApplyStatus(old(View()), steamMode, status)
      ensures notified == old(notified) + Notice(old(cached), status)
    {
      if steamMode {
        if status == Preheat {
          leds.IndicateSteamPreheat();
        } else if status == Overheat {
          leds.IndicateSteamOverheat();
        } else {
          leds.IndicateSteamReady();
        }
      } else {
        if status == Preheat {
          leds.IndicateBrewPreheat();
        } else if status == Overheat {
          leds.IndicateBrewOverheat();
        } else {
          leds.IndicateBrewReady();
        }
      }
      Publish(status);
    }

    method Disable()
      requires Valid()
      modifies this`descriptor, this`cached, this`published, this`notified, sensor, leds
      ensures Valid() && View() == DisableStatus(old(View()))
      ensures notified == old(notified) + Notice(old(cached), Disabled)
    {
      UnregisterTemperatureCallback();
      leds.IndicatePowerOff();
      Publish(Disabled);
    }

    /** indicateBrewState and indicateSteamState; `temperature` is what the sensor reads at that moment. */
    method IndicateState(steamMode: bool, target: int, temperature: int)
      requires Valid()
      modifies this`descriptor, this`cached, this`published, this`notified, sensor, leds
      ensures Valid() && View() == IndicateStatus(Settings(), old(View()), steamMode, target, temperature)
      ensures notified == old(notified) + Notice(old(cached), cached)
    {
      var window := if steamMode then steamWindow else brewWindow;
      UnregisterTemperatureCallback();
      Apply(steamMode, MakeStatus(temperature, target, window));
      var memory := if sensor.fixedUpdateRate.Some?
                    then FixedRate(RequiredInvocations(period, sensor.fixedUpdateRate.value), 0)
                    else VariableRate(period, None);
      var d := sensor.RegisterCallback(Registration(steamMode, target, window, memory));
      descriptor := Some(d);
      assert sensor.registered.Keys == {d};
    }

    /** The callback the sensor holds under `d`, invoked with a reading at clock `now`. */
    method OnTemperature(d: nat, temperature: int, now: int)
      requires Valid() && d in sensor.registered
      modifies this`cached, this`published, this`notified, sensor`registered, leds
      ensures Valid() && descriptor == Some(d) && View() == ReadingStatus(old(View()), temperature, now)
      ensures notified == old(notified) + Notice(old(cached), cached)
    {
      var callback := sensor.registered[d];
      assert d in sensor.registered.Keys;
      var status := MakeStatus(temperature, callback.target, callback.window);
      var memory := callback.memory;
      match memory {
        case FixedRate(required, inRange) =>
          if status != Ready {
            memory := FixedRate(required, 0);
            Apply(callback.steam, status);
          } else if cached != Ready {
            memory := FixedRate(required, inRange + 1);
            if inRange + 1 >= required {
              Apply(callback.steam, Ready);
            }
          }
        case VariableRate(period, since) =>
          if status != Ready {
            memory := VariableRate(period, None);
            Apply(callback.steam, status);
          } else if cached != Ready {
            var start := if since.None? then now else since.value;
            memory := VariableRate(period, Some(start));
            if now - start >= period {
              memory := VariableRate(period, None);
              Apply(callback.steam, Ready);
            }
          }
      }
      sensor.registered := sensor.registered[d := callback.(memory := memory)];
    }
  }
}
