/** The hardware the managers drive, reduced to the fields they can observe. Hardware calls do not fail. */
module Devices {
  import opened Options
  import opened BrewProfiles
  import opened Machines

  /**
    The brew temperature controller and the steam controller. They drive one heater, so `history`
    records which of the two was active after every call made to either of them.
   */
  class HeaterControllers {
    var brewActive: bool
    var steamActive: bool
    var brewTarget: int
    var steamTarget: int
    ghost var history: seq<(bool, bool)>

    /** At no instant were both controllers active. */
    ghost predicate Exclusive()
      reads this
    {
      !(brewActive && steamActive) && forall i :: 0 <= i < |history| ==> !(history[i].0 && history[i].1)
    }

    constructor (brewTarget: int, steamTarget: int)
      ensures !brewActive && !steamActive && history == []
      ensures this.brewTarget == brewTarget && this.steamTarget == steamTarget
    {
      brewActive, steamActive, history := false, false, [];
      this.brewTarget, this.steamTarget := brewTarget, steamTarget;
    }

    method SwitchBrew(active: bool)
      modifies this`brewActive, this`history
      ensures brewActive == active && history == old(history) + [(active, steamActive)]
    {
      brewActive := active;
      history := history + [(brewActive, steamActive)];
    }

    method SwitchSteam(active: bool)
      modifies this`steamActive, this`history
      ensures steamActive == active && history == old(history) + [(brewActive, active)]
    {
      steamActive := active;
      history := history + [(brewActive, steamActive)];
    }
  }

  class BrewProfiler {
    var active: bool
    var steps: seq<Step>
    var stop: Condition

    function View(): Profiler
      reads this
    {
      Profiler(active, steps, stop)
    }

    constructor ()
      ensures View() == Profiler(false, [], Never)
    {
      active, steps, stop := false, [], Never;
    }
  }

  /** Callbacks are kept by descriptor; a new descriptor was never used before. */
  class TemperatureSensor {
    const fixedUpdateRate: Option<Rate>
    var registered: map<nat, Registration>
    var next: nat

    constructor (rate: Option<Rate>)
      ensures fixedUpdateRate == rate && registered == map[] && next == 0
    {
      fixedUpdateRate, registered, next := rate, map[], 0;
    }

    method RegisterCallback(callback: Registration) returns (descriptor: nat)
      modifies this
      ensures descriptor == old(next) && next == old(next) + 1
      ensures registered == old(registered)[descriptor := callback]
    {
      descriptor := next;
      registered := registered[next := callback];
      next := next + 1;
    }

    method UnregisterCallback(descriptor: nat)
      modifies this`registered
      ensures registered == old(registered) - {descriptor}
    {
      registered := registered - {descriptor};
    }
  }

  class WeightSensor {
    var tares: nat

    constructor ()
      ensures tares == 0
    {
      tares := 0;
    }
  }
}
