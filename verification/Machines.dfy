/**
  The machine state as a value: power, steam and brew flags, the two heater controllers, the brew
  profiler and timer, the heating status with its LEDs, and the sensor callback.
 */
module Machines {
  import opened Options
  import opened Hysteresis
  import opened BrewProfiles
  import opened BrewTimers

  type Rate = r: nat | r > 0 witness 1

  datatype Config = Config(brewWindow: int, steamWindow: int, period: nat, rate: Option<Rate>)

  datatype Leds = Leds(power: bool, brew: bool, steam: bool)

  /** A callback registered with the temperature sensor, with all it captured. */
  datatype Registration = Registration(steam: bool, target: int, window: int, memory: Memory)

  datatype StatusState =
    StatusState(cached: HeatingStatus, published: HeatingStatus, leds: Leds, callback: Option<Registration>)

  datatype Profiler = Profiler(active: bool, steps: seq<Step>, stop: Condition)

  datatype Machine = Machine(
    config: Config,
    power: bool,
    steam: bool,
    brewHeating: bool,   // brew temperature controller active
    steamHeating: bool,  // steam controller active
    brewTarget: int,
    steamTarget: int,
    profiler: Profiler,
    timer: nat,
    tares: nat,
    status: StatusState)

  /** Result of an operation that may throw. */
  datatype Outcome = Outcome(machine: Machine, ok: bool)

  // ---------------------------------------------------------------- heating status

  const ALL_OFF: Leds := Leds(false, false, false)

  /** Power is always shown; the LED of the mode says that the heater is ready. */
  function Pattern(steam: bool, status: HeatingStatus): Leds {
    Leds(true, !steam && status == Ready, steam && status == Ready)
  }

  function PublishStatus(s: StatusState, status: HeatingStatus): StatusState {
    if status == s.cached then s else s.(cached := status, published := status)
  }

  /** The statuses handed to the change callback when the cached status goes from one value to another. */
  function Notice(before: HeatingStatus, after: HeatingStatus): seq<HeatingStatus> {
    if before == after then [] else [after]
  }

  /** Anything that is neither too cold nor too hot is shown as ready. */
  function ApplyStatus(s: StatusState, steam: bool, status: HeatingStatus): StatusState {
    var shown := if status == Preheat || status == Overheat then status else Ready;
    PublishStatus(s.(leds := Pattern(steam, shown)), status)
  }

  function NewMemory(c: Config): Memory {
    if c.rate.Some? then FixedRate(RequiredInvocations(c.period, c.rate.value), 0)
    else VariableRate(c.period, None)
  }

  function Window(c: Config, steam: bool): int {
    if steam then c.steamWindow else c.brewWindow
  }

  function IndicateStatus(c: Config, s: StatusState, steam: bool, target: int, temperature: int): StatusState {
    ApplyStatus(s, steam, MakeStatus(temperature, target, Window(c, steam)))
      .(callback := Some(Registration(steam, target, Window(c, steam), NewMemory(c))))
  }

  function DisableStatus(s: StatusState): StatusState {
    PublishStatus(s.(leds := ALL_OFF, callback := None), Disabled)
  }

  /** The registered callback runs on a reading. */
  function ReadingStatus(s: StatusState, temperature: int, now: int): StatusState
    requires s.callback.Some?
  {
    var reg := s.callback.value;
    var band := MakeStatus(temperature, reg.target, reg.window);
    var w := React(Watch(reg.memory, s.cached), Reading(band, now));
    var applied := if band != Ready || w.status != s.cached then ApplyStatus(s, reg.steam, w.status) else s;
    applied.(callback := Some(reg.(memory := w.memory)))
  }

  // ---------------------------------------------------------------- commands

  function Indicate(m: Machine, steam: bool, target: int, temperature: int): Machine {
    m.(status := IndicateStatus(m.config, m.status, steam, target, temperature))
  }

  function SetPower(m: Machine, state: bool, temperature: int): Machine {
    if m.power == state then m
    else if m.power then
      m.(profiler := m.profiler.(active := false), steamHeating := false, brewHeating := false,
         status := DisableStatus(m.status), timer := 0, power := state)
    else if m.steam then
      Indicate(m.(steamHeating := true), true, m.steamTarget, temperature).(power := state)
    else
      Indicate(m.(brewHeating := true), false, m.brewTarget, temperature).(power := state)
  }

  function StartBrew(m: Machine, ms: nat): Outcome {
    if m.profiler.active then Outcome(m, true)
    else if !m.power || m.steam then Outcome(m, false)
    else Outcome(m.(profiler := m.profiler.(active := true), timer := StartedWord(ms)), true)
  }

  function StopBrew(m: Machine, ms: nat): Machine {
    if !m.profiler.active then m
    else m.(timer := Elapsed(m.timer, ms), profiler := m.profiler.(active := false))
  }

  function SetBrewTemperature(m: Machine, target: int, temperature: int): Machine {
    var t := m.(brewTarget := target);
    if !m.steam && m.power then Indicate(t, false, target, temperature) else t
  }

  function SetSteamTemperature(m: Machine, target: int, temperature: int): Machine {
    var t := m.(steamTarget := target);
    if m.steam && m.power then Indicate(t, true, target, temperature) else t
  }

  function SetSteam(m: Machine, state: bool, temperature: int): Outcome {
    if m.steam == state then Outcome(m, true)
    else if m.profiler.active then Outcome(m, false)
    else if !m.power then Outcome(m.(steam := state), true)
    else if m.steam then
      Outcome(Indicate(m.(steamHeating := false, brewHeating := true), false, m.brewTarget, temperature)
                .(steam := state), true)
    else
      Outcome(Indicate(m.(brewHeating := false, steamHeating := true), true, m.steamTarget, temperature)
                .(steam := state), true)
  }

  function ResetScales(m: Machine): Outcome {
    if m.profiler.active then Outcome(m, false) else Outcome(m.(tares := m.tares + 1), true)
  }

  function SetBrewSteps(m: Machine, steps: seq<BrewStep>): Outcome {
    if m.profiler.active || ConvertSteps(steps).None? then Outcome(m, false)
    else Outcome(m.(profiler := m.profiler.(steps := ConvertSteps(steps).value)), true)
  }

  function SetAutoStop(m: Machine, stop: Condition): Outcome {
    if m.profiler.active then Outcome(m, false)
    else Outcome(m.(profiler := m.profiler.(stop := stop)), true)
  }

  function ApplyProfile(m: Machine, profile: BrewProfile, temperature: int): Outcome {
    var stepped := SetBrewSteps(SetBrewTemperature(m, profile.temperature, temperature), profile.steps);
    if !stepped.ok then stepped
    else if GetStopCondition(profile).None? then Outcome(stepped.machine, false)
    else SetAutoStop(stepped.machine, GetStopCondition(profile).value)
  }

  /** The task of the dispatcher's destructor. */
  function ShutDown(m: Machine, ms: nat, temperature: int): Machine {
    var stopped := StopBrew(m, ms);
    if stopped.power then SetPower(stopped, false, temperature) else stopped
  }

  // ---------------------------------------------------------------- coherence

  function ActiveTarget(m: Machine): int {
    if m.steam then m.steamTarget else m.brewTarget
  }

  /** The flags decide which heater works; the brew profiler only works with the power on and no steam. */
  predicate HeatersCoherent(m: Machine) {
    && (m.brewHeating <==> m.power && !m.steam)
    && (m.steamHeating <==> m.power && m.steam)
    && (m.profiler.active ==> m.power && !m.steam)
  }

  /** The callback serves the current mode and target, and the LEDs show the cached status. */
  predicate StatusCoherent(m: Machine) {
    && m.status.cached == m.status.published
    && (!m.power <==> m.status.published == Disabled)
    && (!m.power <==> m.status.callback.None?)
    && (!m.power <==> m.status.leds == ALL_OFF)
    && (m.power ==>
          && m.status.callback.value.steam == m.steam
          && m.status.callback.value.target == ActiveTarget(m)
          && m.status.callback.value.window == Window(m.config, m.steam)
          && m.status.leds == Pattern(m.steam, m.status.cached))
  }

  predicate Coherent(m: Machine) {
    HeatersCoherent(m) && StatusCoherent(m)
  }

  /** The state StateManager and StatusManager are built in: everything off, the steam switch where it is. */
  function InitialMachine(c: Config, steam: bool, brewTarget: int, steamTarget: int, profiler: Profiler): Machine {
    Machine(c, false, steam, false, false, brewTarget, steamTarget, profiler.(active := false), 0, 0,
            StatusState(Disabled, Disabled, ALL_OFF, None))
  }

  lemma InitialIsCoherent(c: Config, steam: bool, brewTarget: int, steamTarget: int, profiler: Profiler)
    ensures var m := InitialMachine(c, steam, brewTarget, steamTarget, profiler);
            && Coherent(m) && m.config == c && m.steam == steam && !m.power && !m.profiler.active
            && m.brewTarget == brewTarget && m.steamTarget == steamTarget
            && m.profiler.steps == profiler.steps && m.profiler.stop == profiler.stop
  {
  }

  // Every command, accepted or refused, keeps the machine coherent.

  lemma PowerKeepsCoherence(m: Machine, state: bool, temperature: int)
    requires Coherent(m)
    ensures Coherent(SetPower(m, state, temperature))
  {
  }

  lemma BrewKeepsCoherence(m: Machine, ms: nat)
    requires Coherent(m)
    ensures Coherent(StartBrew(m, ms).machine) && Coherent(StopBrew(m, ms))
  {
  }

  lemma SteamKeepsCoherence(m: Machine, state: bool, temperature: int)
    requires Coherent(m)
    ensures Coherent(SetSteam(m, state, temperature).machine)
  {
  }

  lemma TargetsKeepCoherence(m: Machine, target: int, temperature: int)
    requires Coherent(m)
    ensures Coherent(SetBrewTemperature(m, target, temperature))
    ensures Coherent(SetSteamTemperature(m, target, temperature))
  {
  }

  lemma ProfileKeepsCoherence(m: Machine, profile: BrewProfile, temperature: int)
    requires Coherent(m)
    ensures Coherent(ApplyProfile(m, profile, temperature).machine)
  {
    TargetsKeepCoherence(m, profile.temperature, temperature);
  }

  lemma ShutDownKeepsCoherence(m: Machine, ms: nat, temperature: int)
    requires Coherent(m)
    ensures Coherent(ShutDown(m, ms, temperature))
  {
    BrewKeepsCoherence(m, ms);
    PowerKeepsCoherence(StopBrew(m, ms), false, temperature);
  }

  /** So does every sensor reading, whatever the automaton decides. */
  lemma ReadingKeepsCoherence(m: Machine, temperature: int, now: int)
    requires Coherent(m) && m.power
    ensures Coherent(m.(status := ReadingStatus(m.status, temperature, now)))
    ensures ReadingStatus(m.status, temperature, now).cached ==
            React(Watch(m.status.callback.value.memory, m.status.cached),
                  Reading(MakeStatus(temperature, ActiveTarget(m), Window(m.config, m.steam)), now)).status
  {
  }

  // ---------------------------------------------------------------- the status over a whole history

  /** Readings (temperature, clock) delivered to one registration. */
  function Deliver(s: StatusState, rs: seq<(int, int)>): (t: StatusState)
    requires s.callback.Some?
    ensures t.callback.Some?
    ensures t.callback.value.(memory := s.callback.value.memory) == s.callback.value
  {
    if rs == [] then s
    else ReadingStatus(Deliver(s, rs[..|rs| - 1]), rs[|rs| - 1].0, rs[|rs| - 1].1)
  }

  function Bands(rs: seq<(int, int)>, target: int, window: int): (b: seq<Reading>)
    ensures |b| == |rs|
    ensures forall i :: 0 <= i < |rs| ==> b[i] == Reading(MakeStatus(rs[i].0, target, window), rs[i].1)
  {
    seq(|rs|, i requires 0 <= i < |rs| => Reading(MakeStatus(rs[i].0, target, window), rs[i].1))
  }

  lemma {:induction false} DeliverObserves(s: StatusState, rs: seq<(int, int)>)
    requires s.callback.Some? && s.cached == s.published && s.cached != Disabled
    requires s.leds == Pattern(s.callback.value.steam, s.cached)
    ensures var reg, t := s.callback.value, Deliver(s, rs);
            && Watch(t.callback.value.memory, t.cached)
               == Observe(Watch(reg.memory, s.cached), Bands(rs, reg.target, reg.window))
            && t.published == t.cached && t.cached != Disabled
            && t.leds == Pattern(reg.steam, t.cached)
    decreases |rs|
  {
    if rs != [] {
      var reg := s.callback.value;
      var front := rs[..|rs| - 1];
      DeliverObserves(s, front);
      assert Bands(rs, reg.target, reg.window)[..|rs| - 1] == Bands(front, reg.target, reg.window);
    }
  }

  /**
    From a registration on, the published status is a function of the history: ready iff the current
    in-range run goes back to a ready registration, or is long enough by count or by clock, according
    to the sensor; otherwise the class of the last reading outside. The LEDs show it all along.
   */
  lemma StatusFollowsHistory(c: Config, s: StatusState, steam: bool, target: int, temperature: int,
                             rs: seq<(int, int)>)
    requires s.cached == s.published
    ensures var window := if steam then c.steamWindow else c.brewWindow;
            var init, bands := MakeStatus(temperature, target, window), Bands(rs, target, window);
            var t := Deliver(IndicateStatus(c, s, steam, target, temperature), rs);
            && (t.published == Ready <==>
                  || ReadyThroughout(init, bands)
                  || (if c.rate.Some? then RunLength(bands) >= RequiredInvocations(c.period, c.rate.value)
                      else RunLasted(bands, c.period)))
            && (t.published != Ready ==> t.published == LastOutside(init, bands))
            && t.leds == Leds(true, !steam && t.published == Ready, steam && t.published == Ready)
  {
    var init := MakeStatus(temperature, target, Window(c, steam));
    var bands := Bands(rs, target, Window(c, steam));
    DeliverObserves(IndicateStatus(c, s, steam, target, temperature), rs);
    if c.rate.Some? {
      FixedRateMeetsHistory(RequiredInvocations(c.period, c.rate.value), init, bands);
    } else {
      VariableRateMeetsHistory(c.period, init, bands);
    }
  }

  // ---------------------------------------------------------------- the guarded three-flag machine

  datatype Flags = Flags(power: bool, steam: bool, brewing: bool)

  datatype Command = PowerTo(state: bool) | SteamTo(state: bool) | Brew | Halt | Tare

  function FlagsOf(m: Machine): Flags {
    Flags(m.power, m.steam, m.profiler.active)
  }

  predicate Accepts(f: Flags, c: Command) {
    match c
    case PowerTo(state) => true
    case SteamTo(state) => !f.brewing || f.steam == state
    case Brew => f.brewing || (f.power && !f.steam)
    case Halt => true
    case Tare => !f.brewing
  }

  function FlagStep(f: Flags, c: Command): Flags {
    if !Accepts(f, c) then f else
    match c
    case PowerTo(state) => Flags(state, f.steam, f.brewing && state)
    case SteamTo(state) => f.(steam := state)
    case Brew => f.(brewing := true)
    case Halt => f.(brewing := false)
    case Tare => f
  }

  function Perform(m: Machine, c: Command, temperature: int, ms: nat): Outcome {
    match c
    case PowerTo(state) => Outcome(SetPower(m, state, temperature), true)
    case SteamTo(state) => SetSteam(m, state, temperature)
    case Brew => StartBrew(m, ms)
    case Halt => Outcome(StopBrew(m, ms), true)
    case Tare => ResetScales(m)
  }

  /** The flags move as in the three-flag machine, and a refused command changes nothing at all. */
  lemma RefinesThreeFlags(m: Machine, c: Command, temperature: int, ms: nat)
    requires Coherent(m)
    ensures var o := Perform(m, c, temperature, ms);
            && FlagsOf(o.machine) == FlagStep(FlagsOf(m), c)
            && (o.ok <==> Accepts(FlagsOf(m), c))
            && (!o.ok ==> o.machine == m)
  {
  }

  /** A shutdown is a halt followed by power off. */
  lemma ShutDownFlags(m: Machine, ms: nat, temperature: int)
    requires Coherent(m)
    ensures FlagsOf(ShutDown(m, ms, temperature)) == FlagStep(FlagStep(FlagsOf(m), Halt), PowerTo(false))
  {
  }

  // ---------------------------------------------------------------- recipes

  predicate SameRecipe(a: Machine, b: Machine) {
    a.profiler.steps == b.profiler.steps && a.profiler.stop == b.profiler.stop
  }

  /** A profile is applied in full exactly when no brew is active and everything in it can be converted. */
  lemma ProfileApplied(m: Machine, profile: BrewProfile, temperature: int)
    ensures var o := ApplyProfile(m, profile, temperature);
            && (o.ok <==>
                  && !m.profiler.active
                  && (forall i :: 0 <= i < |profile.steps| ==>
                        && profile.steps[i].targetType != OtherTarget
                        && (profile.steps[i].advance.Some? ==> profile.steps[i].advance.value.kind != OtherAdvance))
                  && (profile.stop.Some? ==> profile.stop.value.kind != OtherStop))
            && (m.profiler.active ==> SameRecipe(m, o.machine))
            && o.machine.brewTarget == profile.temperature
            && FlagsOf(o.machine) == FlagsOf(m)
    ensures var o := ApplyProfile(m, profile, temperature);
            o.ok ==>
              var steps, installed := profile.steps, o.machine.profiler.steps;
              && |installed| == |steps|
              && (forall i :: 0 <= i < |steps| ==>
                    && (installed[i].0.ConstantPressure? <==> steps[i].targetType == PressureTarget)
                    && (installed[i].0.ConstantFlow? <==> steps[i].targetType == FlowRateTarget)
                    && installed[i].0.value == steps[i].targetValue)
              && (forall i :: 0 <= i < |steps| ==>
                    match steps[i].advance
                    case None => installed[i].1 == Never
                    case Some(advance) =>
                      && !installed[i].1.Never? && installed[i].1.value == advance.value
                      && (installed[i].1.OnTotalTime? <==> advance.kind == TotalTimeAdvance)
                      && (installed[i].1.OnWeight? <==> advance.kind == TotalWeightAdvance)
                      && (installed[i].1.OnStepTime? <==> advance.kind == StepTimeAdvance))
    ensures var o := ApplyProfile(m, profile, temperature);
            o.ok ==>
              var stop := o.machine.profiler.stop;
              match profile.stop
              case None => stop == Never
              case Some(condition) =>
                && !stop.Never? && stop.value == condition.value
                && (stop.OnTotalTime? <==> condition.kind == TotalTimeStop)
                && (stop.OnWeight? <==> condition.kind == TotalWeightStop)
  {
    ConvertStepsIsPointwise(profile.steps);
    StopConditionIsKept(profile);
  }

  /** The callback under way is the one a registration at this temperature would leave. */
  predicate FreshlyIndicated(m: Machine, temperature: int) {
    m.power && !m.steam ==>
      && m.status.cached == MakeStatus(temperature, m.brewTarget, m.config.brewWindow)
      && m.status.callback.Some? && m.status.callback.value.memory == NewMemory(m.config)
  }

  /**
    Refused is not undone. A refused profile leaves the machine as it was exactly if its temperature is
    the current target, registering again makes no difference, and its steps, if they were installed
    before the stop condition was refused, are the current ones.
   */
  lemma RefusedProfileUnchanged(m: Machine, profile: BrewProfile, temperature: int)
    requires Coherent(m) && !ApplyProfile(m, profile, temperature).ok
    ensures ApplyProfile(m, profile, temperature).machine == m <==>
              && profile.temperature == m.brewTarget
              && FreshlyIndicated(m, temperature)
              && (!m.profiler.active && ConvertSteps(profile.steps).Some? ==>
                    ConvertSteps(profile.steps).value == m.profiler.steps)
  {
  }

  /** A reachable machine, brewing, and a profile whose refusal changes its target. */
  lemma RefusedProfileSetsTemperature() returns (m: Machine, profile: BrewProfile)
    ensures m == StartBrew(SetPower(InitialMachine(Config(0, 0, 0, None), false, 0, 0, Profiler(false, [], Never)),
                                    true, 0), 0).machine
    ensures Coherent(m) && !ApplyProfile(m, profile, 0).ok
    ensures m.brewTarget == 0 && ApplyProfile(m, profile, 0).machine.brewTarget == 1
    ensures m.status.published == Ready && ApplyProfile(m, profile, 0).machine.status.published == Preheat
  {
    var off := InitialMachine(Config(0, 0, 0, None), false, 0, 0, Profiler(false, [], Never));
    m := StartBrew(SetPower(off, true, 0), 0).machine;
    profile := BrewProfile("", 1, [], None);
    PowerKeepsCoherence(off, true, 0);
    BrewKeepsCoherence(SetPower(off, true, 0), 0);
  }
}
