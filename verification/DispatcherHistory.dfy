/** The published heating status is, in every run, a function of what the sensor read since the registration. */
module DispatcherHistory {
  import opened Hysteresis
  import opened BrewProfiles
  import opened Machines
  import opened DispatcherSystem
  import opened DispatcherMachine

  /** The registered callback and the cached status are the automaton's state after the history. */
  ghost predicate HistoryInv(w: World) {
    var status := Settled(w).status;
    status.callback.Some? ==>
      var reg := status.callback.value;
      var init := MakeStatus(w.history.temperature, reg.target, reg.window);
      Watch(reg.memory, status.cached)
        == Observe(Watch(NewMemory(w.machine.config), init), Bands(w.history.readings, reg.target, reg.window))
  }

  lemma TaskKeepsConfig(w: World, task: Task, temperature: int, ms: nat, writable: bool)
    ensures TaskEffect(w, task, temperature, ms, writable).machine.config == w.machine.config
  {
    if task.SetProfileTask? {
      ProfileKeepsConfig(w.machine, task.profile, temperature);
    }
  }

  lemma ProfileKeepsConfig(m: Machine, profile: BrewProfile, temperature: int)
    ensures ApplyProfile(m, profile, temperature).machine.config == m.config
  {
  }

  lemma InstallKeepsHistory(w: World, task: Task, e: Effect, touches: bool, temperature: int)
    requires HistoryInv(w) && !w.worker.Publishing? && e.machine.config == w.machine.config
    requires if !touches then e.machine.status == w.machine.status
             else e.machine.status.callback.Some? ==>
               var reg := e.machine.status.callback.value;
               && reg.memory == NewMemory(w.machine.config)
               && e.machine.status.cached == MakeStatus(temperature, reg.target, reg.window)
    ensures HistoryInv(Install(w, task, e, touches, temperature))
  {
  }

  lemma ExecuteKeepsHistory(w: World, temperature: int, ms: nat, writable: bool)
    requires SyncInv(w) && HistoryInv(w) && Enabled(w, Execute(temperature, ms, writable))
    ensures HistoryInv(ExecuteStep(w, temperature, ms, writable))
  {
    var task := w.worker.task;
    if !task.AddSinkTask? && !task.ReleaseSinkTask? {
      var e := TaskEffect(w, task, temperature, ms, writable);
      TaskKeepsConfig(w, task, temperature, ms, writable);
      EffectIsCoherent(w, task, temperature, ms, writable);
      if Touches(w.machine, task, writable) {
        TouchedStatus(w, task, temperature, ms, writable);
      } else {
        UntouchedStatus(w, task, temperature, ms, writable);
      }
      InstallKeepsHistory(w, task, e, Touches(w.machine, task, writable), temperature);
    }
  }

  lemma ReadingMovesWatch(s: StatusState, temperature: int, now: int)
    requires s.callback.Some?
    ensures var reg, t := s.callback.value, ReadingStatus(s, temperature, now);
            && t.callback.Some? && t.callback.value == reg.(memory := t.callback.value.memory)
            && Watch(t.callback.value.memory, t.cached)
               == React(Watch(reg.memory, s.cached), Reading(MakeStatus(temperature, reg.target, reg.window), now))
  {
  }

  lemma ReadingKeepsHistory(w: World, temperature: int, now: int)
    requires SyncInv(w) && HistoryInv(w) && Enabled(w, SensorReading(temperature, now))
    ensures HistoryInv(SensorStep(w, temperature, now))
  {
    var reg := w.machine.status.callback.value;
    var before := w.history.readings;
    var after := before + [(temperature, now)];
    ReadingMovesWatch(w.machine.status, temperature, now);
    assert after[..|after| - 1] == before;
    assert Bands(after, reg.target, reg.window)[..|after| - 1] == Bands(before, reg.target, reg.window);
  }

  lemma StepKeepsHistory(w: World, a: Action)
    requires SyncInv(w) && HistoryInv(w) && Enabled(w, a)
    ensures HistoryInv(Apply(w, a))
  {
    match a
    case Execute(temperature, ms, writable) => ExecuteKeepsHistory(w, temperature, ms, writable);
    case SensorReading(temperature, now) => ReadingKeepsHistory(w, temperature, now);
    case _ =>
  }

  lemma {:induction false} RunKeepsHistory(w: World, acts: seq<Action>)
    requires SyncInv(w) && HistoryInv(w) && ValidRun(w, acts)
    ensures HistoryInv(Run(w, acts))
    decreases |acts|
  {
    if acts != [] {
      StepKeepsSync(w, acts[0]);
      StepKeepsHistory(w, acts[0]);
      RunKeepsHistory(Apply(w, acts[0]), acts[1..]);
    }
  }

  /**
    In every reachable state with the power on, whatever tasks came in between, the published status is
    ready iff the in-range run since the last registration goes back to a ready registration or is long
    enough by count or by clock, and otherwise the class of the last reading outside.
   */
  lemma PublishedFollowsHistory(w: World, acts: seq<Action>)
    requires InitialWorld(w) && ValidRun(w, acts) && Run(w, acts).machine.power
    ensures var v := Run(w, acts);
            var c, published := v.machine.config, v.machine.status.published;
            var target := if v.machine.steam then v.machine.steamTarget else v.machine.brewTarget;
            var window := if v.machine.steam then c.steamWindow else c.brewWindow;
            var init := MakeStatus(v.history.temperature, target, window);
            var bands := Bands(v.history.readings, target, window);
            && (published == Ready <==>
                  || ReadyThroughout(init, bands)
                  || (if c.rate.Some? then RunLength(bands) >= RequiredInvocations(c.period, c.rate.value)
                      else RunLasted(bands, c.period)))
            && (published != Ready ==> published == LastOutside(init, bands))
            && v.machine.status.leds
               == Leds(true, !v.machine.steam && published == Ready, v.machine.steam && published == Ready)
  {
    RunKeepsSync(w, acts);
    RunKeepsHistory(w, acts);
    var v := Run(w, acts);
    var c := v.machine.config;
    var target, window := ActiveTarget(v.machine), Window(c, v.machine.steam);
    var init := MakeStatus(v.history.temperature, target, window);
    var bands := Bands(v.history.readings, target, window);
    if c.rate.Some? {
      FixedRateMeetsHistory(RequiredInvocations(c.period, c.rate.value), init, bands);
    } else {
      VariableRateMeetsHistory(c.period, init, bands);
    }
  }

  // ---------------------------------------------------------------- what the history is

  /** The step replaces the callback, or removes it. */
  predicate Replaces(w: World, a: Action) {
    a.Execute? && w.worker.Started? && Touches(w.machine, w.worker.task, a.writable)
  }

  predicate NoReplacement(w: World, acts: seq<Action>)
    requires ValidRun(w, acts)
    decreases |acts|
  {
    acts == [] || (!Replaces(w, acts[0]) && NoReplacement(Apply(w, acts[0]), acts[1..]))
  }

  function ReadingOf(a: Action): seq<(int, int)> {
    if a.SensorReading? then [(a.temperature, a.now)] else []
  }

  function ReadingsOf(acts: seq<Action>): seq<(int, int)> {
    if acts == [] then [] else ReadingOf(acts[0]) + ReadingsOf(acts[1..])
  }

  lemma ReadingExtendsHistory(w: World, a: Action)
    requires Enabled(w, a) && !Replaces(w, a)
    ensures Apply(w, a).history == History(w.history.temperature, w.history.readings + ReadingOf(a))
  {
    assert w.history.readings + [] == w.history.readings;
  }

  lemma {:induction false} RunExtendsHistory(w: World, acts: seq<Action>)
    requires ValidRun(w, acts) && NoReplacement(w, acts)
    ensures Run(w, acts).history == History(w.history.temperature, w.history.readings + ReadingsOf(acts))
    decreases |acts|
  {
    if acts == [] {
      assert w.history.readings + [] == w.history.readings;
    } else {
      var first := ReadingOf(acts[0]);
      ReadingExtendsHistory(w, acts[0]);
      RunExtendsHistory(Apply(w, acts[0]), acts[1..]);
      assert w.history.readings + first + ReadingsOf(acts[1..]) == w.history.readings + (first + ReadingsOf(acts[1..]));
    }
  }

  /** After a replacement the history is the temperature it was made at and the readings of the run since. */
  lemma HistoryIsReadingsSince(w: World, a: Action, acts: seq<Action>)
    requires Enabled(w, a) && Replaces(w, a)
    requires ValidRun(Apply(w, a), acts) && NoReplacement(Apply(w, a), acts)
    ensures Run(Apply(w, a), acts).history == History(a.temperature, ReadingsOf(acts))
  {
    RunExtendsHistory(Apply(w, a), acts);
    assert [] + ReadingsOf(acts) == ReadingsOf(acts);
  }
}
