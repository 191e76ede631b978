/** What every run of the dispatcher keeps of the machine: coherence, flags, timer, recipe, shutdown. */
module DispatcherMachine {
  import opened Options
  import opened Hysteresis
  import opened BrewProfiles
  import opened BrewTimers
  import opened Machines
  import opened DispatcherSystem

  // ---------------------------------------------------------------- coherence

  /** A dispatcher over managers in the state they are built in starts its runs here. */
  lemma StartIsInitial(c: Config, steam: bool, brewTarget: int, steamTarget: int, profiler: Profiler,
                       profile: BrewProfile, settings: int)
    ensures var w := Init(InitialMachine(c, steam, brewTarget, steamTarget, profiler), profile, settings);
            && InitialWorld(w) && w.machine.steam == steam && !w.machine.power
            && w.machine.brewTarget == brewTarget && w.machine.steamTarget == steamTarget
            && w.profile == profile && w.settings == settings && w.queue == [] && w.sinks == []
  {
    InitialIsCoherent(c, steam, brewTarget, steamTarget, profiler);
  }

  /** The machine with the callback the worker is about to register. */
  function Settled(w: World): Machine {
    if w.worker.Publishing?
    then w.machine.(status := w.machine.status.(callback := w.worker.callback))
    else w.machine
  }

  /** The sensor's thread is inside the callback only while that callback is registered. */
  ghost predicate SyncInv(w: World) {
    && Coherent(Settled(w))
    && (w.worker.Publishing? ==> w.sensor.Quiet? && w.machine.status.callback.None?)
    && (w.sensor.Stored? ==>
          w.machine.status.callback.Some? && w.sensor.status == w.machine.status.published)
  }

  lemma EffectIsCoherent(w: World, task: Task, temperature: int, ms: nat, writable: bool)
    requires Coherent(w.machine)
    ensures Coherent(TaskEffect(w, task, temperature, ms, writable).machine)
  {
    var m := w.machine;
    match task {
      case SetPowerTask(state) => PowerKeepsCoherence(m, state, temperature);
      case TogglePowerTask => PowerKeepsCoherence(m, !m.power, temperature);
      case SetSteamTask(state) => SteamKeepsCoherence(m, state, temperature);
      case ToggleSteamTask => SteamKeepsCoherence(m, !m.steam, temperature);
      case SetProfileTask(profile) => ProfileKeepsCoherence(m, profile, temperature);
      case SetSettingsTask(target) => TargetsKeepCoherence(m, target, temperature);
      case ShutDownTask => ShutDownKeepsCoherence(m, ms, temperature);
      case _ => BrewKeepsCoherence(m, ms);
    }
  }

  /** A task that does not unregister the callback leaves the whole status alone. */
  lemma UntouchedStatus(w: World, task: Task, temperature: int, ms: nat, writable: bool)
    requires Coherent(w.machine) && !Touches(w.machine, task, writable)
    ensures TaskEffect(w, task, temperature, ms, writable).machine.status == w.machine.status
  {
  }

  /** One that does leaves a callback that has not seen a reading yet, and the status of the moment, or none. */
  lemma TouchedStatus(w: World, task: Task, temperature: int, ms: nat, writable: bool)
    requires Coherent(w.machine) && Touches(w.machine, task, writable)
    ensures var after := TaskEffect(w, task, temperature, ms, writable).machine;
            if after.power then
              && after.status.callback.Some? && after.status.callback.value.memory == NewMemory(w.machine.config)
              && after.status.cached == MakeStatus(temperature, ActiveTarget(after), Window(after.config, after.steam))
            else after.status.callback.None?
  {
    EffectIsCoherent(w, task, temperature, ms, writable);
    if task.SetProfileTask? {
      ProfileIsIndicated(w.machine, task.profile, temperature);
    }
  }

  lemma ProfileIsIndicated(m: Machine, profile: BrewProfile, temperature: int)
    requires m.power && !m.steam
    ensures var after := ApplyProfile(m, profile, temperature).machine;
            && after.config == m.config && after.power && !after.steam && after.brewTarget == profile.temperature
            && after.status == IndicateStatus(m.config, m.status, false, profile.temperature, temperature)
  {
  }

  lemma InstallKeepsSync(w: World, task: Task, e: Effect, touches: bool, temperature: int)
    requires SyncInv(w) && w.worker.Started? && Coherent(e.machine)
    requires if touches then w.sensor.Quiet? else e.machine.status == w.machine.status
    ensures SyncInv(Install(w, task, e, touches, temperature))
  {
  }

  lemma ExecuteKeepsSync(w: World, temperature: int, ms: nat, writable: bool)
    requires SyncInv(w) && Enabled(w, Execute(temperature, ms, writable))
    ensures SyncInv(ExecuteStep(w, temperature, ms, writable))
  {
    var task := w.worker.task;
    if !task.AddSinkTask? && !task.ReleaseSinkTask? {
      EffectIsCoherent(w, task, temperature, ms, writable);
      if !Touches(w.machine, task, writable) {
        UntouchedStatus(w, task, temperature, ms, writable);
      }
      InstallKeepsSync(w, task, TaskEffect(w, task, temperature, ms, writable),
                       Touches(w.machine, task, writable), temperature);
    }
  }

  lemma StepKeepsSync(w: World, a: Action)
    requires SyncInv(w) && Enabled(w, a)
    ensures SyncInv(Apply(w, a))
  {
    match a
    case Execute(temperature, ms, writable) => ExecuteKeepsSync(w, temperature, ms, writable);
    case SensorReading(temperature, now) => ReadingKeepsCoherence(w.machine, temperature, now);
    case _ =>
  }

  lemma {:induction false} RunKeepsSync(w: World, acts: seq<Action>)
    requires SyncInv(w) && ValidRun(w, acts)
    ensures SyncInv(Run(w, acts))
    decreases |acts|
  {
    if acts != [] {
      StepKeepsSync(w, acts[0]);
      RunKeepsSync(Apply(w, acts[0]), acts[1..]);
    }
  }

  /**
    In every reachable state heaters and profiler agree with the flags; whenever the worker is not in
    the middle of replacing the callback, so do status, callback, target and LEDs.
   */
  lemma StatusAlwaysCoherent(w: World, acts: seq<Action>)
    requires InitialWorld(w) && ValidRun(w, acts)
    ensures var v := Run(w, acts);
            && HeatersCoherent(v.machine)
            && !(v.machine.brewHeating && v.machine.steamHeating)
            && (!v.worker.Publishing? ==> Coherent(v.machine))
    ensures var m := Run(w, acts).machine;
            && (m.brewHeating <==> m.power && !m.steam) && (m.steamHeating <==> m.power && m.steam)
            && (m.status.leds.power <==> m.power)
            && (m.status.leds.brew <==> m.power && !m.steam && m.status.published == Ready)
            && (m.status.leds.steam <==> m.power && m.steam && m.status.published == Ready)
    ensures var v := Run(w, acts);
            var m, callback := v.machine, v.machine.status.callback;
            !v.worker.Publishing? ==>
              && (callback.Some? <==> m.power)
              && (m.power ==>
                    && callback.value.steam == m.steam
                    && callback.value.target == (if m.steam then m.steamTarget else m.brewTarget)
                    && callback.value.window == (if m.steam then m.config.steamWindow else m.config.brewWindow))
  {
    RunKeepsSync(w, acts);
  }

  // ---------------------------------------------------------------- notices

  /** What a task has under way is the published status, if the task changed it. */
  lemma TaskNoticeIsTheChange(w: World, task: Task, temperature: int, ms: nat, writable: bool)
    requires Coherent(w.machine)
    ensures var before := w.machine.status.published;
            var after := TaskEffect(w, task, temperature, ms, writable).machine.status.published;
            TaskNotice(w, task, temperature, ms, writable) == if before == after then [] else [after]
  {
    EffectIsCoherent(w, task, temperature, ms, writable);
    if !Touches(w.machine, task, writable) {
      UntouchedStatus(w, task, temperature, ms, writable);
    }
    var v := w.(worker := Started(task));
    EffectIgnoresWorker(w, v, task, temperature, ms, writable);
    if !task.AddSinkTask? && !task.ReleaseSinkTask? {
      InstalledNotice(v, task, TaskEffect(v, task, temperature, ms, writable),
                      Touches(w.machine, task, writable), temperature);
    }
  }

  lemma EffectIgnoresWorker(w: World, v: World, task: Task, temperature: int, ms: nat, writable: bool)
    requires v == w.(worker := v.worker)
    ensures TaskEffect(v, task, temperature, ms, writable) == TaskEffect(w, task, temperature, ms, writable)
  {
  }

  lemma InstalledNotice(w: World, task: Task, e: Effect, touches: bool, temperature: int)
    requires w.worker == Started(task)
    ensures var v := Install(w, task, e, touches, temperature);
            var before, after := w.machine.status.cached, e.machine.status.cached;
            if touches then v.worker.Publishing? && v.worker.notice == (if before == after then None else Some(after))
            else !v.worker.Publishing?
  {
  }

  /** So it is with what a reading has under way. */
  lemma ReadingNoticeIsTheChange(w: World, temperature: int, now: int)
    requires Coherent(w.machine) && w.machine.status.callback.Some?
    ensures var v := SensorStep(w, temperature, now);
            var before, after := w.machine.status.published, v.machine.status.published;
            v.sensor == if before == after then Quiet else Stored(after)
  {
    ReadingKeepsCoherence(w.machine, temperature, now);
  }

  // ---------------------------------------------------------------- flags

  function FlagTask(f: Flags, task: Task): Flags {
    match task
    case SetPowerTask(state) => FlagStep(f, PowerTo(state))
    case TogglePowerTask => FlagStep(f, PowerTo(!f.power))
    case StartBrewTask => FlagStep(f, Brew)
    case StartBrewReply => FlagStep(f, Brew)
    case StopBrewTask => FlagStep(f, Halt)
    case StopBrewReply => FlagStep(f, Halt)
    case ToggleBrewTask => if f.brewing then FlagStep(f, Halt) else FlagStep(f, Brew)
    case SetSteamTask(state) => FlagStep(f, SteamTo(state))
    case ToggleSteamTask => FlagStep(f, SteamTo(!f.steam))
    case ShutDownTask => FlagStep(FlagStep(f, Halt), PowerTo(false))
    case _ => f
  }

  function FlagRun(f: Flags, tasks: seq<Task>): Flags {
    if tasks == [] then f else FlagTask(FlagRun(f, tasks[..|tasks| - 1]), tasks[|tasks| - 1])
  }

  predicate MovesFlags(w: World, task: Task, temperature: int, ms: nat, writable: bool) {
    FlagsOf(TaskEffect(w, task, temperature, ms, writable).machine) == FlagTask(FlagsOf(w.machine), task)
  }

  lemma PowerTaskMovesFlags(w: World, task: Task, temperature: int, ms: nat, writable: bool)
    requires Coherent(w.machine) && (task.SetPowerTask? || task.TogglePowerTask? || task.ShutDownTask?)
    ensures MovesFlags(w, task, temperature, ms, writable)
  {
    if task.ShutDownTask? {
      ShutDownFlags(w.machine, ms, temperature);
    }
  }

  lemma SteamTaskMovesFlags(w: World, task: Task, temperature: int, ms: nat, writable: bool)
    requires task.SetSteamTask? || task.ToggleSteamTask?
    ensures MovesFlags(w, task, temperature, ms, writable)
  {
  }

  predicate BrewCommand(task: Task) {
    task.StartBrewTask? || task.StopBrewTask? || task.ToggleBrewTask? || task.StartBrewReply? || task.StopBrewReply?
  }

  lemma BrewTaskMovesFlags(w: World, task: Task, temperature: int, ms: nat, writable: bool)
    requires Coherent(w.machine) && BrewCommand(task)
    ensures MovesFlags(w, task, temperature, ms, writable)
  {
  }

  lemma TaskMovesFlags(w: World, task: Task, temperature: int, ms: nat, writable: bool)
    requires Coherent(w.machine)
    ensures MovesFlags(w, task, temperature, ms, writable)
  {
    if task.SetPowerTask? || task.TogglePowerTask? || task.ShutDownTask? {
      PowerTaskMovesFlags(w, task, temperature, ms, writable);
    } else if task.SetSteamTask? || task.ToggleSteamTask? {
      SteamTaskMovesFlags(w, task, temperature, ms, writable);
    } else if BrewCommand(task) {
      BrewTaskMovesFlags(w, task, temperature, ms, writable);
    } else if task.SetProfileTask? {
      ProfileApplied(w.machine, task.profile, temperature);
    }
  }

  /** Flags follow the executed tasks, and tasks are executed in the order of submission. */
  ghost predicate FlagInv(start: Flags, w: World) {
    && FlagsOf(w.machine) == FlagRun(start, w.executed)
    && w.executed + (if w.worker.Started? then [w.worker.task] else []) + w.queue == w.submitted
  }

  lemma ExecuteKeepsFlags(start: Flags, w: World, temperature: int, ms: nat, writable: bool)
    requires Coherent(w.machine) && FlagInv(start, w) && w.worker.Started?
    ensures FlagInv(start, ExecuteStep(w, temperature, ms, writable))
  {
    var task := w.worker.task;
    var executed := w.executed + [task];
    assert executed[..|w.executed|] == w.executed;
    assert executed + [] + w.queue == executed + w.queue;
    TaskMovesFlags(w, task, temperature, ms, writable);
    if !task.AddSinkTask? && !task.ReleaseSinkTask? {
      InstallKeepsFlags(start, w, task, TaskEffect(w, task, temperature, ms, writable),
                        Touches(w.machine, task, writable), temperature);
    }
  }

  lemma InstallKeepsFlags(start: Flags, w: World, task: Task, e: Effect, touches: bool, temperature: int)
    requires FlagInv(start, w) && w.worker == Started(task)
    requires FlagsOf(e.machine) == FlagTask(FlagsOf(w.machine), task)
    ensures FlagInv(start, Install(w, task, e, touches, temperature))
  {
    var executed := w.executed + [task];
    assert executed[..|w.executed|] == w.executed;
    assert executed + [] + w.queue == executed + w.queue;
  }

  lemma QueuedKeepsFlags(start: Flags, w: World, task: Task)
    requires FlagInv(start, w)
    ensures FlagInv(start, Queued(w, task))
  {
    var begun := w.executed + (if w.worker.Started? then [w.worker.task] else []);
    assert begun + (w.queue + [task]) == (begun + w.queue) + [task];
  }

  lemma BeginKeepsFlags(start: Flags, w: World)
    requires FlagInv(start, w) && Enabled(w, Begin)
    ensures FlagInv(start, Apply(w, Begin))
  {
    assert w.queue == [w.queue[0]] + w.queue[1..];
    assert w.executed + [] + w.queue == w.executed + [w.queue[0]] + w.queue[1..];
  }

  lemma EnqueueKeepsFlags(start: Flags, w: World)
    requires FlagInv(start, w) && w.worker.Publishing?
    ensures FlagInv(start, EnqueueStep(w))
  {
    if w.worker.notice.Some? {
      QueuedKeepsFlags(start, w, NotifyHeaterTask(w.worker.notice.value));
    }
  }

  lemma StepKeepsFlags(start: Flags, w: World, a: Action)
    requires SyncInv(w) && FlagInv(start, w) && Enabled(w, a)
    ensures FlagInv(start, Apply(w, a))
  {
    match a
    case Execute(temperature, ms, writable) => ExecuteKeepsFlags(start, w, temperature, ms, writable);
    case Begin => BeginKeepsFlags(start, w);
    case Submit(task) => QueuedKeepsFlags(start, w, task);
    case SensorEnqueue => QueuedKeepsFlags(start, w, NotifyHeaterTask(w.sensor.status));
    case Enqueue => EnqueueKeepsFlags(start, w);
    case _ =>
  }

  lemma {:induction false} RunKeepsFlags(start: Flags, w: World, acts: seq<Action>)
    requires SyncInv(w) && FlagInv(start, w) && ValidRun(w, acts)
    ensures FlagInv(start, Run(w, acts))
    decreases |acts|
  {
    if acts != [] {
      StepKeepsSync(w, acts[0]);
      StepKeepsFlags(start, w, acts[0]);
      RunKeepsFlags(start, Apply(w, acts[0]), acts[1..]);
    }
  }

  /**
    In every run, power, steam and brewing are those of the guarded three-flag machine applied to a
    prefix of the submitted tasks, in queue order; a brew implies power and no steam.
   */
  lemma FlagsFollowQueueOrder(w: World, acts: seq<Action>)
    requires InitialWorld(w) && ValidRun(w, acts)
    ensures var v := Run(w, acts);
            && v.executed <= v.submitted
            && FlagsOf(v.machine) == FlagRun(FlagsOf(w.machine), v.executed)
            && (v.machine.profiler.active ==> v.machine.power && !v.machine.steam)
  {
    RunKeepsSync(w, acts);
    RunKeepsFlags(FlagsOf(w.machine), w, acts);
  }

  /** A refused start, steam switch or scale reset changes nothing and tells nobody. */
  lemma RefusalChangesNothing(w: World, temperature: int, ms: nat, writable: bool)
    requires SyncInv(w) && w.worker.Started?
    requires var f, task := FlagsOf(w.machine), w.worker.task;
             || (task in {StartBrewTask, StartBrewReply} && !Accepts(f, Brew))
             || (task.SetSteamTask? && !Accepts(f, SteamTo(task.state)))
             || (task.ToggleSteamTask? && !Accepts(f, SteamTo(!f.steam)))
             || (task.ResetWeightTask? && !Accepts(f, Tare))
    ensures var v := ExecuteStep(w, temperature, ms, writable);
            v == w.(executed := w.executed + [w.worker.task], worker := Idle)
  {
    assert w.broadcasts + [] == w.broadcasts;
  }

  // ---------------------------------------------------------------- timer

  /** The last brew of a run: none since the power was last off, one under way, or one that was stopped. */
  datatype BrewSpan = NoBrew | Brewing(start: nat) | Stopped(start: nat, end: nat)

  /** A step starts a brew, cuts the power, stops a brew, or does none of these. */
  function NextSpan(w: World, a: Action, span: BrewSpan): BrewSpan
    requires Enabled(w, a)
  {
    var before, after := w.machine, Apply(w, a).machine;
    if !a.Execute? then span
    else if !before.profiler.active && after.profiler.active then Brewing(a.ms)
    else if before.power && !after.power then NoBrew
    else if before.profiler.active && !after.profiler.active && span.Brewing? then Stopped(span.start, a.ms)
    else span
  }

  function LastSpan(w: World, acts: seq<Action>, span: BrewSpan): BrewSpan
    requires ValidRun(w, acts)
    decreases |acts|
  {
    if acts == [] then span else LastSpan(Apply(w, acts[0]), acts[1..], NextSpan(w, acts[0], span))
  }

  /** The timer's word is decided by the last brew. */
  ghost predicate TimerInv(m: Machine, span: BrewSpan) {
    match span
    case NoBrew => !m.profiler.active && m.timer == 0
    case Brewing(start) => m.profiler.active && m.timer == StartedWord(start)
    case Stopped(start, end) => !m.profiler.active && m.timer == Elapsed(StartedWord(start), end)
  }

  /** How a task may change profiler and timer: not at all, by a start, a stop, or a power off. */
  predicate TimerMove(m: Machine, after: Machine, ms: nat) {
    || (after.profiler.active == m.profiler.active && after.timer == m.timer && (m.power ==> after.power))
    || (!m.profiler.active && after.profiler.active && after.timer == StartedWord(ms))
    || (m.profiler.active && !after.profiler.active && after.timer == Elapsed(m.timer, ms) && (m.power ==> after.power))
    || (m.power && !after.power && !after.profiler.active && after.timer == 0)
  }

  lemma TaskMovesTimer(w: World, task: Task, temperature: int, ms: nat, writable: bool)
    requires Coherent(w.machine)
    ensures TimerMove(w.machine, TaskEffect(w, task, temperature, ms, writable).machine, ms)
  {
  }

  lemma ExecuteMovesTimer(w: World, temperature: int, ms: nat, writable: bool)
    requires Coherent(w.machine) && w.worker.Started?
    ensures TimerMove(w.machine, ExecuteStep(w, temperature, ms, writable).machine, ms)
  {
    TaskMovesTimer(w, w.worker.task, temperature, ms, writable);
  }

  lemma OtherStepsKeepTimer(w: World, a: Action)
    requires Enabled(w, a) && !a.Execute?
    ensures var after := Apply(w, a).machine;
            after.profiler == w.machine.profiler && after.timer == w.machine.timer
  {
  }

  lemma StepKeepsTimer(w: World, a: Action, span: BrewSpan)
    requires SyncInv(w) && TimerInv(w.machine, span) && Enabled(w, a)
    ensures TimerInv(Apply(w, a).machine, NextSpan(w, a, span))
  {
    if a.Execute? {
      ExecuteMovesTimer(w, a.temperature, a.ms, a.writable);
    } else {
      OtherStepsKeepTimer(w, a);
    }
  }

  lemma {:induction false} RunKeepsTimer(w: World, acts: seq<Action>, span: BrewSpan)
    requires SyncInv(w) && TimerInv(w.machine, span) && ValidRun(w, acts)
    ensures TimerInv(Run(w, acts).machine, LastSpan(w, acts, span))
    decreases |acts|
  {
    if acts != [] {
      StepKeepsSync(w, acts[0]);
      StepKeepsTimer(w, acts[0], span);
      RunKeepsTimer(Apply(w, acts[0]), acts[1..], NextSpan(w, acts[0], span));
    }
  }

  /**
    In every run the running flag tells whether a brew is active, exactly unless the last brew was stopped
    across a wrap of the masked clock; a brew is active iff the run's last start was not followed by a stop
    or a power off.
   */
  lemma TimerTellsBrewing(w: World, acts: seq<Action>)
    requires InitialWorld(w) && ValidRun(w, acts)
    ensures var m, span := Run(w, acts).machine, LastSpan(w, acts, NoBrew);
            && (m.profiler.active <==> span.Brewing?)
            && (Running(m.timer) == m.profiler.active <==> !(span.Stopped? && !NoWrap(span.start, span.end)))
  {
    RunKeepsTimer(w, acts, NoBrew);
  }

  /**
    The brew time reported after any run: zero without a brew, the time since the start of the brew under
    way modulo a period, the duration of a stopped one modulo a period; if the clock wrapped before that
    stop, the time since that duration instead.
   */
  lemma ReportedBrewTime(w: World, acts: seq<Action>, now: nat)
    requires InitialWorld(w) && ValidRun(w, acts)
    ensures var reported := Elapsed(Run(w, acts).machine.timer, now);
            match LastSpan(w, acts, NoBrew)
            case NoBrew => reported == 0
            case Brewing(start) => reported % RUNNING_FLAG == (now - start) % RUNNING_FLAG
            case Stopped(start, end) =>
              var duration := (end - start) % RUNNING_FLAG;
              if NoWrap(start, end) then reported == duration
              else reported % RUNNING_FLAG == (now - duration) % RUNNING_FLAG
  {
    RunKeepsTimer(w, acts, NoBrew);
    match LastSpan(w, acts, NoBrew) {
      case NoBrew =>
      case Brewing(start) => ElapsedValue(start, now);
      case Stopped(start, end) =>
        ElapsedValue(start, end);
        var duration := (end - start) % RUNNING_FLAG;
        if !NoWrap(start, end) {
          assert Elapsed(StartedWord(start), end) == StartedWord(duration);
          ElapsedValue(duration, now);
        }
    }
  }

  // ---------------------------------------------------------------- recipe

  lemma TaskLeavesRecipe(w: World, task: Task, temperature: int, ms: nat, writable: bool)
    requires w.machine.profiler.active
    ensures SameRecipe(w.machine, TaskEffect(w, task, temperature, ms, writable).machine)
  {
  }

  /** No step changes the recipe of a brew in progress. */
  lemma RecipeFrozenByStep(w: World, a: Action)
    requires Enabled(w, a) && w.machine.profiler.active
    ensures Apply(w, a).machine.profiler.steps == w.machine.profiler.steps
    ensures Apply(w, a).machine.profiler.stop == w.machine.profiler.stop
  {
    match a
    case Execute(temperature, ms, writable) => TaskLeavesRecipe(w, w.worker.task, temperature, ms, writable);
    case _ =>
  }

  /** Active before every step of the run. */
  predicate ActiveThroughout(w: World, acts: seq<Action>)
    requires ValidRun(w, acts)
    decreases |acts|
  {
    acts == [] || (w.machine.profiler.active && ActiveThroughout(Apply(w, acts[0]), acts[1..]))
  }

  /** One recipe per brew: from start to stop the steps and the auto-stop condition stay the same. */
  lemma {:induction false} OneRecipePerBrew(w: World, acts: seq<Action>)
    requires ValidRun(w, acts) && ActiveThroughout(w, acts)
    ensures Run(w, acts).machine.profiler.steps == w.machine.profiler.steps
    ensures Run(w, acts).machine.profiler.stop == w.machine.profiler.stop
    decreases |acts|
  {
    if acts != [] {
      RecipeFrozenByStep(w, acts[0]);
      OneRecipePerBrew(Apply(w, acts[0]), acts[1..]);
    }
  }

  // ---------------------------------------------------------------- shutdown

  /** What may still be queued or arrive once the destructor's task is in the queue: no outside command. */
  predicate Passive(task: Task) {
    task.NotifyHeaterTask? || task.NotifyStepTask? || task.StopBrewTask? || task.ReleaseSinkTask?
    || task.AddSinkTask? || task.QueryTask?
  }

  predicate AllPassive(tasks: seq<Task>) {
    forall i :: 0 <= i < |tasks| ==> Passive(tasks[i])
  }

  predicate Off(w: World) {
    && !w.machine.power && !w.machine.profiler.active
    && !w.machine.brewHeating && !w.machine.steamHeating
    && w.machine.status.callback.None? && w.machine.status.published == Disabled
    && w.machine.status.leds == ALL_OFF && w.sensor.Quiet?
  }

  predicate NothingToReactivate(w: World) {
    && AllPassive(w.queue)
    && (w.worker.Started? ==> Passive(w.worker.task))
    && (w.worker.Publishing? ==> w.worker.callback.None?)
  }

  /** The destructor's task is queued with only passive tasks behind it, or is being started. */
  ghost predicate ShutDownPending(w: World) {
    || (w.worker == Started(ShutDownTask) && AllPassive(w.queue))
    || (exists i :: 0 <= i < |w.queue| && w.queue[i] == ShutDownTask && AllPassive(w.queue[i + 1..]))
  }

  ghost predicate ShutInv(w: World) {
    ShutDownPending(w) || (w.shut && Off(w) && NothingToReactivate(w))
  }

  predicate PassiveSubmissions(acts: seq<Action>) {
    forall i :: 0 <= i < |acts| && acts[i].Submit? ==> Passive(acts[i].task)
  }

  lemma PendingBehind(w: World, task: Task, i: nat)
    requires i < |w.queue| && w.queue[i] == ShutDownTask && AllPassive(w.queue[i + 1..]) && Passive(task)
    ensures ShutDownPending(Queued(w, task))
  {
    var queue := w.queue + [task];
    assert queue[i + 1..] == w.queue[i + 1..] + [task];
    assert 0 <= i < |queue| && queue[i] == ShutDownTask && AllPassive(queue[i + 1..]);
  }

  lemma QueuedKeepsShut(w: World, task: Task)
    requires ShutInv(w) && Passive(task)
    ensures ShutInv(Queued(w, task))
  {
    if i :| 0 <= i < |w.queue| && w.queue[i] == ShutDownTask && AllPassive(w.queue[i + 1..]) {
      PendingBehind(w, task, i);
    }
  }

  lemma BeginKeepsShut(w: World)
    requires ShutInv(w) && Enabled(w, Begin)
    ensures ShutInv(Apply(w, Begin))
  {
    if ShutDownPending(w) {
      var i :| 0 <= i < |w.queue| && w.queue[i] == ShutDownTask && AllPassive(w.queue[i + 1..]);
      if i > 0 {
        assert w.queue[1..][i - 1] == ShutDownTask;
        assert w.queue[1..][i..] == w.queue[i + 1..];
      }
    }
  }

  lemma PassiveTaskKeepsOff(w: World, temperature: int, ms: nat, writable: bool)
    requires Coherent(w.machine) && w.worker.Started? && Off(w) && Passive(w.worker.task)
    ensures var v := ExecuteStep(w, temperature, ms, writable);
            && v.machine == w.machine && v.queue == w.queue && v.sensor == w.sensor && v.shut == w.shut
            && !v.worker.Publishing? && !v.worker.Started?
  {
  }

  lemma ShutDownTurnsOff(w: World, temperature: int, ms: nat, writable: bool)
    requires SyncInv(w) && w.worker == Started(ShutDownTask) && AllPassive(w.queue)
    requires Enabled(w, Execute(temperature, ms, writable))
    ensures var v := ExecuteStep(w, temperature, ms, writable);
            v.shut && Off(v) && NothingToReactivate(v)
  {
  }

  lemma ExecuteKeepsShut(w: World, temperature: int, ms: nat, writable: bool)
    requires SyncInv(w) && ShutInv(w) && Enabled(w, Execute(temperature, ms, writable))
    ensures ShutInv(ExecuteStep(w, temperature, ms, writable))
  {
    var v := ExecuteStep(w, temperature, ms, writable);
    assert v.queue == w.queue;
    if w.worker == Started(ShutDownTask) && AllPassive(w.queue) {
      ShutDownTurnsOff(w, temperature, ms, writable);
    } else if ShutDownPending(w) {
      assert ShutDownPending(v);
    } else {
      PassiveTaskKeepsOff(w, temperature, ms, writable);
    }
  }

  lemma StepKeepsShut(w: World, a: Action)
    requires SyncInv(w) && ShutInv(w) && Enabled(w, a) && (a.Submit? ==> Passive(a.task))
    ensures ShutInv(Apply(w, a))
  {
    match a
    case Submit(task) => QueuedKeepsShut(w, task);
    case Begin => BeginKeepsShut(w);
    case Execute(temperature, ms, writable) => ExecuteKeepsShut(w, temperature, ms, writable);
    case SensorEnqueue => QueuedKeepsShut(w, NotifyHeaterTask(w.sensor.status));
    case Enqueue =>
      if w.worker.notice.Some? {
        QueuedKeepsShut(w, NotifyHeaterTask(w.worker.notice.value));
      }
    case _ =>
  }

  lemma {:induction false} RunKeepsShut(w: World, acts: seq<Action>)
    requires SyncInv(w) && ShutInv(w) && ValidRun(w, acts) && PassiveSubmissions(acts)
    ensures ShutInv(Run(w, acts))
    decreases |acts|
  {
    if acts != [] {
      StepKeepsSync(w, acts[0]);
      StepKeepsShut(w, acts[0]);
      assert forall i :: 0 <= i < |acts| - 1 ==> acts[1..][i] == acts[i + 1];
      RunKeepsShut(Apply(w, acts[0]), acts[1..]);
    }
  }

  /**
    Safe shutdown: from any reachable state, whatever is queued before the destructor's task, if only
    passive tasks are behind it and only passive tasks arrive, then once that task has left the queue
    and been executed everything is off, and it stays off through the rest of the drain.
   */
  lemma SafeShutDown(start: World, before: seq<Action>, acts: seq<Action>)
    requires InitialWorld(start) && ValidRun(start, before)
    requires ShutDownPending(Run(start, before))
    requires ValidRun(Run(start, before), acts) && PassiveSubmissions(acts)
    ensures var v := Run(Run(start, before), acts);
            ShutDownTask !in v.queue && v.worker != Started(ShutDownTask) ==> v.shut && Off(v)
    ensures var v := Run(Run(start, before), acts);
            ShutDownTask !in v.queue && v.worker != Started(ShutDownTask) ==>
              && !v.machine.power && !v.machine.profiler.active
              && !v.machine.brewHeating && !v.machine.steamHeating
              && v.machine.status.published == Disabled && v.machine.status.callback.None?
              && v.machine.status.leds == Leds(false, false, false)
  {
    RunKeepsSync(start, before);
    RunKeepsShut(Run(start, before), acts);
  }
}
