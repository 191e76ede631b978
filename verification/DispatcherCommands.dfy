/** What the commands do, task by task and over whole runs: flags, events, targets, recipe and tares. */
module DispatcherCommands {
  import opened Options
  import opened BrewProfiles
  import opened Machines
  import opened DispatcherSystem
  import opened DispatcherMachine
  import opened DispatcherViews

  // ---------------------------------------------------------------- one task

  /** Executing a task installs its effect: the callback apart, which is registered later. */
  lemma ExecuteInstalls(w: World, temperature: int, ms: nat, writable: bool)
    requires PlainTask(w)
    ensures var e := TaskEffect(w, w.worker.task, temperature, ms, writable);
            var v := ExecuteStep(w, temperature, ms, writable);
            && v.machine.(status := e.machine.status) == e.machine
            && v.broadcasts == w.broadcasts + EventSeq(e.event)
  {
  }

  /** Power goes to the state asked for and stops a brew; everyone is told, but not by the destructor's task. */
  lemma PowerObeyed(w: World, temperature: int, ms: nat, writable: bool)
    requires Coherent(w.machine) && w.worker.Started?
    requires var task := w.worker.task; task.SetPowerTask? || task.TogglePowerTask? || task.ShutDownTask?
    ensures var m, v := w.machine, ExecuteStep(w, temperature, ms, writable);
            && v.machine.steam == m.steam
            && v.machine.profiler.active == (m.profiler.active && v.machine.power)
            && match w.worker.task
               case SetPowerTask(state) =>
                 v.machine.power == state && v.broadcasts == w.broadcasts + [PowerEvent(state)]
               case TogglePowerTask =>
                 v.machine.power == !m.power && v.broadcasts == w.broadcasts + [PowerEvent(!m.power)]
               case _ =>
                 !v.machine.power && v.broadcasts == w.broadcasts
  {
    ExecuteInstalls(w, temperature, ms, writable);
    assert w.broadcasts + [] == w.broadcasts;
  }

  /** The steam mode goes to the one asked for unless a brew is active, and only then is anyone told. */
  lemma SteamObeyed(w: World, temperature: int, ms: nat, writable: bool)
    requires Coherent(w.machine) && w.worker.Started? && (w.worker.task.SetSteamTask? || w.worker.task.ToggleSteamTask?)
    ensures var m, v := w.machine, ExecuteStep(w, temperature, ms, writable);
            var wanted := if w.worker.task.SetSteamTask? then w.worker.task.state else !m.steam;
            && v.machine.power == m.power && v.machine.profiler.active == m.profiler.active
            && (if m.steam == wanted || !m.profiler.active
                then v.machine.steam == wanted && v.broadcasts == w.broadcasts + [SteamEvent(wanted)]
                else v.machine.steam == m.steam && v.broadcasts == w.broadcasts)
  {
    ExecuteInstalls(w, temperature, ms, writable);
    assert w.broadcasts + [] == w.broadcasts;
  }

  /** A start needs power and no steam, unless the brew is active already; a stop always stops. */
  lemma BrewObeyed(w: World, temperature: int, ms: nat, writable: bool)
    requires w.worker.Started?
    requires var task := w.worker.task;
             || task.StartBrewTask? || task.StopBrewTask? || task.ToggleBrewTask?
             || task.StartBrewReply? || task.StopBrewReply?
    ensures var m, v := w.machine, ExecuteStep(w, temperature, ms, writable);
            var startable := m.profiler.active || (m.power && !m.steam);
            && v.machine.power == m.power && v.machine.steam == m.steam
            && match w.worker.task
               case StartBrewTask =>
                 && v.machine.profiler.active == startable
                 && v.broadcasts == w.broadcasts + (if startable then [BrewEvent(true)] else [])
               case StartBrewReply => v.machine.profiler.active == startable && v.broadcasts == w.broadcasts
               case StopBrewTask =>
                 && !v.machine.profiler.active
                 && v.broadcasts == w.broadcasts + (if m.profiler.active then [BrewEvent(false)] else [])
               case StopBrewReply => !v.machine.profiler.active && v.broadcasts == w.broadcasts + [ProgressEvent(None)]
               case _ =>
                 && v.machine.profiler.active == (!m.profiler.active && startable)
                 && v.broadcasts == w.broadcasts + (if startable then [BrewEvent(v.machine.profiler.active)] else [])
  {
    ExecuteInstalls(w, temperature, ms, writable);
    assert w.broadcasts + [] == w.broadcasts;
  }

  lemma OthersLeaveFlags(w: World, task: Task, temperature: int, ms: nat, writable: bool)
    requires || task.ResetWeightTask? || task.QueryTask? || task.NotifyHeaterTask? || task.NotifyStepTask?
             || task.SetProfileTask? || task.SetSettingsTask?
    ensures var m, after := w.machine, TaskEffect(w, task, temperature, ms, writable).machine;
            after.power == m.power && after.steam == m.steam && after.profiler.active == m.profiler.active
  {
    if task.SetProfileTask? {
      ProfileApplied(w.machine, task.profile, temperature);
    }
  }

  /** No other task moves a flag; each tells what it carries. */
  lemma OthersTell(w: World, temperature: int, ms: nat, writable: bool)
    requires Coherent(w.machine) && w.worker.Started?
    requires var task := w.worker.task;
             || task.ResetWeightTask? || task.QueryTask? || task.NotifyHeaterTask? || task.NotifyStepTask?
             || task.SetProfileTask? || task.SetSettingsTask? || task.AddSinkTask? || task.ReleaseSinkTask?
    ensures var m, v := w.machine, ExecuteStep(w, temperature, ms, writable);
            && v.machine.power == m.power && v.machine.steam == m.steam
            && v.machine.profiler.active == m.profiler.active
            && match w.worker.task
               case NotifyHeaterTask(status) => v.broadcasts == w.broadcasts + [HeaterEvent(status)]
               case NotifyStepTask(step) => v.broadcasts == w.broadcasts + [ProgressEvent(Some(step))]
               case SetProfileTask(profile) =>
                 v.broadcasts == w.broadcasts
                   + (if writable && ApplyProfile(m, profile, temperature).ok then [ProfileEvent(profile)] else [])
               case SetSettingsTask(target) =>
                 v.broadcasts == w.broadcasts + (if writable then [SettingsEvent(target)] else [])
               case _ => v.broadcasts == w.broadcasts
  {
    assert w.broadcasts + [] == w.broadcasts;
    if PlainTask(w) {
      ExecuteInstalls(w, temperature, ms, writable);
      OthersLeaveFlags(w, w.worker.task, temperature, ms, writable);
    }
  }

  // ---------------------------------------------------------------- whole runs

  /** What profiles, settings and scale resets have left on the devices. */
  datatype Installed =
    Installed(brewTarget: int, steamTarget: int, steps: seq<Step>, stop: Condition, tares: nat)

  function InstalledOn(m: Machine): Installed {
    Installed(m.brewTarget, m.steamTarget, m.profiler.steps, m.profiler.stop, m.tares)
  }

  /**
    Settings that were written set the steam target. A profile that was written sets the brew target; if
    no brew is active, its steps if all can be converted, and then its stop condition if that can be.
   */
  function AfterTask(d: Installed, task: Task, brewing: bool, writable: bool): Installed {
    match task
    case SetSettingsTask(target) => if writable then d.(steamTarget := target) else d
    case SetProfileTask(profile) =>
      if !writable then d
      else if brewing || ConvertSteps(profile.steps).None? then d.(brewTarget := profile.temperature)
      else
        Installed(profile.temperature, d.steamTarget, ConvertSteps(profile.steps).value,
                  if GetStopCondition(profile).None? then d.stop else GetStopCondition(profile).value, d.tares)
    case ResetWeightTask => if brewing then d else d.(tares := d.tares + 1)
    case _ => d
  }

  function NextInstalled(w: World, a: Action, d: Installed): Installed
    requires Enabled(w, a)
  {
    if a.Execute? then AfterTask(d, w.worker.task, w.machine.profiler.active, a.writable) else d
  }

  function LastInstalled(w: World, acts: seq<Action>, d: Installed): Installed
    requires ValidRun(w, acts)
    decreases |acts|
  {
    if acts == [] then d else LastInstalled(Apply(w, acts[0]), acts[1..], NextInstalled(w, acts[0], d))
  }

  lemma ProfileInstalls(m: Machine, profile: BrewProfile, temperature: int)
    ensures var after := ApplyProfile(m, profile, temperature).machine;
            && after.brewTarget == profile.temperature && after.steamTarget == m.steamTarget && after.tares == m.tares
            && (if !m.profiler.active && ConvertSteps(profile.steps).Some? then
                  && after.profiler.steps == ConvertSteps(profile.steps).value
                  && after.profiler.stop == (match GetStopCondition(profile)
                                             case None => m.profiler.stop
                                             case Some(stop) => stop)
                else after.profiler == m.profiler)
  {
  }

  /** A task other than a profile. */
  lemma OthersInstall(w: World, task: Task, temperature: int, ms: nat, writable: bool)
    requires !task.SetProfileTask?
    ensures var m, after := w.machine, TaskEffect(w, task, temperature, ms, writable).machine;
            && after.steamTarget == (if task.SetSettingsTask? && writable then task.steamTemperature else m.steamTarget)
            && after.brewTarget == m.brewTarget
            && after.tares == m.tares + (if task.ResetWeightTask? && !m.profiler.active then 1 else 0)
            && after.profiler.steps == m.profiler.steps && after.profiler.stop == m.profiler.stop
  {
  }

  /** In particular no start, stop, power, steam or shutdown task changes any of it. */
  lemma TasksInstall(w: World, task: Task, temperature: int, ms: nat, writable: bool)
    ensures var m, after := w.machine, TaskEffect(w, task, temperature, ms, writable).machine;
            && after.steamTarget == (if task.SetSettingsTask? && writable then task.steamTemperature else m.steamTarget)
            && after.brewTarget == (if task.SetProfileTask? && writable then task.profile.temperature else m.brewTarget)
            && after.tares == m.tares + (if task.ResetWeightTask? && !m.profiler.active then 1 else 0)
    ensures var m, after := w.machine, TaskEffect(w, task, temperature, ms, writable).machine;
            if task.SetProfileTask? && writable && !m.profiler.active && ConvertSteps(task.profile.steps).Some? then
              && after.profiler.steps == ConvertSteps(task.profile.steps).value
              && after.profiler.stop == (match GetStopCondition(task.profile)
                                         case None => m.profiler.stop
                                         case Some(stop) => stop)
            else after.profiler.steps == m.profiler.steps && after.profiler.stop == m.profiler.stop
  {
    if task.SetProfileTask? {
      ProfileInstalls(w.machine, task.profile, temperature);
    } else {
      OthersInstall(w, task, temperature, ms, writable);
    }
  }

  lemma TaskFollows(w: World, task: Task, temperature: int, ms: nat, writable: bool)
    ensures InstalledOn(TaskEffect(w, task, temperature, ms, writable).machine)
         == AfterTask(InstalledOn(w.machine), task, w.machine.profiler.active, writable)
  {
    TasksInstall(w, task, temperature, ms, writable);
  }

  lemma ExecuteFollows(w: World, a: Action)
    requires Enabled(w, a) && a.Execute?
    ensures InstalledOn(Apply(w, a).machine) == NextInstalled(w, a, InstalledOn(w.machine))
  {
    if PlainTask(w) {
      ExecuteInstalls(w, a.temperature, a.ms, a.writable);
      TaskFollows(w, w.worker.task, a.temperature, a.ms, a.writable);
    }
  }

  lemma StepFollows(w: World, a: Action)
    requires Enabled(w, a)
    ensures InstalledOn(Apply(w, a).machine) == NextInstalled(w, a, InstalledOn(w.machine))
  {
    if a.Execute? {
      ExecuteFollows(w, a);
    }
  }

  lemma {:induction false} RunFollows(w: World, acts: seq<Action>)
    requires ValidRun(w, acts)
    ensures InstalledOn(Run(w, acts).machine) == LastInstalled(w, acts, InstalledOn(w.machine))
    decreases |acts|
  {
    if acts != [] {
      StepFollows(w, acts[0]);
      RunFollows(Apply(w, acts[0]), acts[1..]);
    }
  }

  /**
    In every run the steam target is that of the last settings written, the brew target that of the last
    profile written, the steps those of the last one written with no brew active and all steps
    convertible, the stop condition that of the last one accepted in full, and the scale was tared once
    for each reset with no brew active; without any such task they are what they were.
   */
  lemma DevicesFollowTasks(w: World, acts: seq<Action>)
    requires ValidRun(w, acts)
    ensures var m, n := w.machine, Run(w, acts).machine;
            LastInstalled(w, acts, Installed(m.brewTarget, m.steamTarget, m.profiler.steps, m.profiler.stop, m.tares))
            == Installed(n.brewTarget, n.steamTarget, n.profiler.steps, n.profiler.stop, n.tares)
  {
    RunFollows(w, acts);
  }
}
