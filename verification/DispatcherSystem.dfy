/**
  The dispatcher as a system of interleaved steps: clients and the profiler submit tasks, the executor's
  worker runs them one at a time, and the sensor's thread runs the registered callback in between.

  The queue is the plain FIFO that the serial executor refines. A task that replaces the sensor callback
  is cut at the point where other threads can tell: the status is stored, then its notification is
  queued and the new callback registered. `unregisterCallback` waits for a running callback, so such a
  task is executed only while the sensor's thread is quiet. Broadcasts go to one sink at a time.
 */
module DispatcherSystem {
  import opened Options
  import opened Lists
  import opened Hysteresis
  import opened BrewProfiles
  import opened Machines

  datatype Event =
    | PowerEvent(on: bool) | BrewEvent(brewing: bool) | SteamEvent(steaming: bool)
    | HeaterEvent(status: HeatingStatus) | ProfileEvent(profile: BrewProfile)
    | SettingsEvent(steamTemperature: int) | ProgressEvent(step: Option<nat>)

  datatype Task =
    | SetPowerTask(state: bool) | TogglePowerTask
    | StartBrewTask | StopBrewTask | ToggleBrewTask
    | SetSteamTask(state: bool) | ToggleSteamTask
    | StartBrewReply | StopBrewReply         // the forms with a callback
    | ResetWeightTask | QueryTask
    | SetProfileTask(profile: BrewProfile) | SetSettingsTask(steamTemperature: int)
    | NotifyHeaterTask(status: HeatingStatus) | NotifyStepTask(step: nat)
    | AddSinkTask(id: nat) | ReleaseSinkTask(id: nat)
    | ShutDownTask                           // submitted by the destructor

  /**
    `log` holds the events pushed so far. For reference: `snapshot` are the first six of them, `joined` is
    the number of broadcasts and `order` the number of executed tasks when the sink was added.
   */
  datatype Sink = Sink(id: nat, log: seq<Event>, snapshot: seq<Event>, joined: nat, order: nat)

  datatype Departed = Departed(sink: Sink, left: nat)

  datatype WorkerPc =
    | Idle
    | Started(task: Task)
    | Publishing(notice: Option<HeatingStatus>, callback: Option<Registration>, event: Option<Event>)
    | Joining(id: nat, initial: seq<Event>)
    | Broadcasting(sent: Event, next: nat)

  /** The temperature at a registration of the callback, and the readings (temperature, clock) since. */
  datatype History = History(temperature: int, readings: seq<(int, int)>)

  datatype SensorPc = Quiet | Stored(status: HeatingStatus)

  /**
    `broadcasts`, `submitted`, `executed` and `departed` are logs. `shut` says that the destructor's task
    was executed; `silenced` how many tasks had been executed when it turned the power off without telling
    the sinks, unless a power command came later; `history` what the sensor read since the callback was
    registered.
   */
  datatype World = World(
    machine: Machine,
    profile: BrewProfile,
    settings: int,
    sinks: seq<Sink>,
    departed: seq<Departed>,
    broadcasts: seq<Event>,
    queue: seq<Task>,
    worker: WorkerPc,
    sensor: SensorPc,
    submitted: seq<Task>,
    executed: seq<Task>,
    shut: bool,
    silenced: Option<nat>,
    history: History)

  datatype Action =
    | Submit(task: Task)
    | Begin
    | Execute(temperature: int, ms: nat, writable: bool)
    | Enqueue
    | PushInitial
    | PushNext
    | SensorReading(temperature: int, now: int)
    | SensorEnqueue

  function Init(machine: Machine, profile: BrewProfile, settings: int): World {
    World(machine, profile, settings, [], [], [], [], Idle, Quiet, [], [], false, None, History(0, []))
  }

  predicate InitialWorld(w: World) {
    && w == Init(w.machine, w.profile, w.settings)
    && Coherent(w.machine) && !w.machine.power && w.machine.timer == 0
  }

  // ---------------------------------------------------------------- task bodies

  /** What a task does to the managers, and the event it broadcasts if it does not throw. */
  datatype Effect = Effect(machine: Machine, profile: BrewProfile, settings: int, event: Option<Event>)

  function PowerEffect(w: World, state: bool, temperature: int): Effect {
    Effect(SetPower(w.machine, state, temperature), w.profile, w.settings, Some(PowerEvent(state)))
  }

  function StartEffect(w: World, ms: nat): Effect {
    var o := StartBrew(w.machine, ms);
    Effect(o.machine, w.profile, w.settings, if o.ok then Some(BrewEvent(true)) else None)
  }

  function StopEffect(w: World, ms: nat): Effect {
    if !w.machine.profiler.active then Effect(w.machine, w.profile, w.settings, None)
    else Effect(StopBrew(w.machine, ms), w.profile, w.settings, Some(BrewEvent(false)))
  }

  function SteamEffect(w: World, state: bool, temperature: int): Effect {
    var o := SetSteam(w.machine, state, temperature);
    Effect(o.machine, w.profile, w.settings, if o.ok then Some(SteamEvent(state)) else None)
  }

  function ProfileEffect(w: World, profile: BrewProfile, temperature: int, writable: bool): Effect {
    if !writable then Effect(w.machine, profile, w.settings, None)
    else
      var o := ApplyProfile(w.machine, profile, temperature);
      Effect(o.machine, profile, w.settings, if o.ok then Some(ProfileEvent(profile)) else None)
  }

  function SettingsEffect(w: World, target: int, temperature: int, writable: bool): Effect {
    if !writable then Effect(w.machine, w.profile, target, None)
    else Effect(SetSteamTemperature(w.machine, target, temperature), w.profile, target, Some(SettingsEvent(target)))
  }

  function TaskEffect(w: World, task: Task, temperature: int, ms: nat, writable: bool): Effect {
    var m := w.machine;
    match task
    case SetPowerTask(state) => PowerEffect(w, state, temperature)
    case TogglePowerTask => PowerEffect(w, !m.power, temperature)
    case StartBrewTask => StartEffect(w, ms)
    case StopBrewTask => StopEffect(w, ms)
    case ToggleBrewTask => if m.profiler.active then StopEffect(w, ms) else StartEffect(w, ms)
    case SetSteamTask(state) => SteamEffect(w, state, temperature)
    case ToggleSteamTask => SteamEffect(w, !m.steam, temperature)
    case StartBrewReply => StartEffect(w, ms).(event := None)
    case StopBrewReply => Effect(StopBrew(m, ms), w.profile, w.settings, Some(ProgressEvent(None)))
    case ResetWeightTask => Effect(ResetScales(m).machine, w.profile, w.settings, None)
    case SetProfileTask(profile) => ProfileEffect(w, profile, temperature, writable)
    case SetSettingsTask(target) => SettingsEffect(w, target, temperature, writable)
    case NotifyHeaterTask(status) => Effect(m, w.profile, w.settings, Some(HeaterEvent(status)))
    case NotifyStepTask(step) => Effect(m, w.profile, w.settings, Some(ProgressEvent(Some(step))))
    case ShutDownTask => Effect(ShutDown(m, ms, temperature), w.profile, w.settings, None)
    case _ => Effect(m, w.profile, w.settings, None)
  }

  /** The task unregisters the sensor callback on its way. */
  predicate Touches(m: Machine, task: Task, writable: bool) {
    match task
    case SetPowerTask(state) => m.power != state
    case TogglePowerTask => true
    case SetSteamTask(state) => m.steam != state && !m.profiler.active && m.power
    case ToggleSteamTask => !m.profiler.active && m.power
    case SetProfileTask(profile) => writable && !m.steam && m.power
    case SetSettingsTask(target) => writable && m.steam && m.power
    case ShutDownTask => m.power
    case _ => false
  }

  function EventSeq(event: Option<Event>): seq<Event> {
    if event.Some? then [event.value] else []
  }

  /** The six events sent to a new sink. */
  function InitialEvent(w: World, i: nat): Event {
    if i == 0 then PowerEvent(w.machine.power)
    else if i == 1 then BrewEvent(w.machine.profiler.active)
    else if i == 2 then SteamEvent(w.machine.steam)
    else if i == 3 then HeaterEvent(w.machine.status.published)
    else if i == 4 then ProfileEvent(w.profile)
    else SettingsEvent(w.settings)
  }

  function InitialEvents(w: World): (events: seq<Event>)
    ensures |events| == 6 && forall i :: 0 <= i < 6 ==> events[i] == InitialEvent(w, i)
  {
    [InitialEvent(w, 0), InitialEvent(w, 1), InitialEvent(w, 2), InitialEvent(w, 3), InitialEvent(w, 4),
     InitialEvent(w, 5)]
  }

  function Stays(id: nat): Sink -> bool {
    (s: Sink) => s.id != id
  }

  function Leaves(id: nat): Sink -> bool {
    (s: Sink) => s.id == id
  }

  function RemoveSink(sinks: seq<Sink>, id: nat): seq<Sink> {
    Filter(sinks, Stays(id))
  }

  function RemovedSinks(sinks: seq<Sink>, id: nat, left: nat): seq<Departed> {
    var gone := Filter(sinks, Leaves(id));
    seq(|gone|, i requires 0 <= i < |gone| => Departed(gone[i], left))
  }

  // ---------------------------------------------------------------- steps

  predicate Enabled(w: World, a: Action) {
    match a
    case Submit(task) => !task.NotifyHeaterTask?
    case Begin => w.worker.Idle? && w.queue != []
    case Execute(temperature, ms, writable) =>
      w.worker.Started? && (Touches(w.machine, w.worker.task, writable) ==> w.sensor.Quiet?)
    case Enqueue => w.worker.Publishing?
    case PushInitial => w.worker.Joining?
    case PushNext => w.worker.Broadcasting?
    case SensorReading(temperature, now) => w.sensor.Quiet? && w.machine.status.callback.Some?
    case SensorEnqueue => w.sensor.Stored?
  }

  function Queued(w: World, task: Task): World {
    w.(queue := w.queue + [task], submitted := w.submitted + [task])
  }

  /** The worker's state once the managers are done. */
  function AfterManagers(event: Option<Event>): WorkerPc {
    if event.Some? then Broadcasting(event.value, 0) else Idle
  }

  /** The managers' new state, and what the worker does next: publish and re-register, or broadcast. */
  function Install(w: World, task: Task, e: Effect, touches: bool, temperature: int): World {
    w.(
      executed := w.executed + [task],
      machine := if touches then e.machine.(status := e.machine.status.(callback := None)) else e.machine,
      profile := e.profile,
      settings := e.settings,
      broadcasts := w.broadcasts + EventSeq(e.event),
      worker :=
        if touches then
          var before, after := w.machine.status.cached, e.machine.status.cached;
          Publishing(if before == after then None else Some(after), e.machine.status.callback, e.event)
        else AfterManagers(e.event),
      shut := w.shut || task.ShutDownTask?,
      silenced :=
        if task.SetPowerTask? || task.TogglePowerTask? then None
        else if task.ShutDownTask? && w.machine.power then Some(|w.executed|)
        else w.silenced,
      history := if touches then History(temperature, []) else w.history)
  }

  function ExecuteStep(w: World, temperature: int, ms: nat, writable: bool): World
    requires w.worker.Started?
  {
    var task := w.worker.task;
    match task
    case AddSinkTask(id) => w.(executed := w.executed + [task], worker := Joining(id, []))
    case ReleaseSinkTask(id) =>
      w.(executed := w.executed + [task], worker := Idle, sinks := RemoveSink(w.sinks, id),
         departed := w.departed + RemovedSinks(w.sinks, id, |w.broadcasts|))
    case _ =>
      Install(w, task, TaskEffect(w, task, temperature, ms, writable), Touches(w.machine, task, writable),
              temperature)
  }

  /** The status whose notification a task is about to queue. */
  function TaskNotice(w: World, task: Task, temperature: int, ms: nat, writable: bool): seq<HeatingStatus> {
    var v := ExecuteStep(w.(worker := Started(task)), temperature, ms, writable);
    if v.worker.Publishing? && v.worker.notice.Some? then [v.worker.notice.value] else []
  }

  function PushInitialStep(w: World): World
    requires w.worker.Joining?
  {
    var initial := w.worker.initial + [InitialEvent(w, |w.worker.initial|)];
    if |initial| < 6 then w.(worker := Joining(w.worker.id, initial))
    else w.(worker := Idle, sinks := w.sinks + [Sink(w.worker.id, initial, initial, |w.broadcasts|, |w.executed|)])
  }

  function PushNextStep(w: World): World
    requires w.worker.Broadcasting?
  {
    var i := w.worker.next;
    if i < |w.sinks| then
      w.(sinks := w.sinks[i := w.sinks[i].(log := w.sinks[i].log + [w.worker.sent])],
         worker := Broadcasting(w.worker.sent, i + 1))
    else w.(worker := Idle)
  }

  function EnqueueStep(w: World): World
    requires w.worker.Publishing?
  {
    var told := if w.worker.notice.Some? then Queued(w, NotifyHeaterTask(w.worker.notice.value)) else w;
    told.(machine := w.machine.(status := w.machine.status.(callback := w.worker.callback)),
          worker := AfterManagers(w.worker.event))
  }

  function SensorStep(w: World, temperature: int, now: int): World
    requires w.machine.status.callback.Some?
  {
    var status := ReadingStatus(w.machine.status, temperature, now);
    w.(machine := w.machine.(status := status),
       sensor := if status.cached == w.machine.status.cached then Quiet else Stored(status.cached),
       history := w.history.(readings := w.history.readings + [(temperature, now)]))
  }

  function Apply(w: World, a: Action): World
    requires Enabled(w, a)
  {
    match a
    case Submit(task) => Queued(w, task)
    case Begin => w.(worker := Started(w.queue[0]), queue := w.queue[1..])
    case Execute(temperature, ms, writable) => ExecuteStep(w, temperature, ms, writable)
    case Enqueue => EnqueueStep(w)
    case PushInitial => PushInitialStep(w)
    case PushNext => PushNextStep(w)
    case SensorReading(temperature, now) => SensorStep(w, temperature, now)
    case SensorEnqueue => Queued(w, NotifyHeaterTask(w.sensor.status)).(sensor := Quiet)
  }

  predicate ValidRun(w: World, acts: seq<Action>)
    decreases |acts|
  {
    acts == [] || (Enabled(w, acts[0]) && ValidRun(Apply(w, acts[0]), acts[1..]))
  }

  function Run(w: World, acts: seq<Action>): World
    requires ValidRun(w, acts)
    decreases |acts|
  {
    if acts == [] then w else Run(Apply(w, acts[0]), acts[1..])
  }

  lemma {:induction false} RunAppend(w: World, first: seq<Action>, second: seq<Action>)
    requires ValidRun(w, first) && ValidRun(Run(w, first), second)
    ensures ValidRun(w, first + second) && Run(w, first + second) == Run(Run(w, first), second)
    decreases |first|
  {
    if first == [] {
      assert first + second == second;
    } else {
      RunAppend(Apply(w, first[0]), first[1..], second);
      RunCons(w, first[0], first[1..] + second);
      assert [first[0]] + (first[1..] + second) == first + second;
    }
  }

  lemma RunCons(w: World, a: Action, rest: seq<Action>)
    requires Enabled(w, a) && ValidRun(Apply(w, a), rest)
    ensures ValidRun(w, [a] + rest) && Run(w, [a] + rest) == Run(Apply(w, a), rest)
  {
    assert ([a] + rest)[1..] == rest;
  }

  lemma RunExtend(w: World, acts: seq<Action>, a: Action)
    requires ValidRun(w, acts) && Enabled(Run(w, acts), a)
    ensures ValidRun(w, acts + [a]) && Run(w, acts + [a]) == Apply(Run(w, acts), a)
  {
    assert [a][1..] == [];
    RunAppend(w, acts, [a]);
  }

  // ---------------------------------------------------------------- adding and releasing a sink as runs

  function PushSteps(n: nat): seq<Action> {
    if n == 0 then [] else [PushInitial] + PushSteps(n - 1)
  }

  function AddActions(): seq<Action> {
    [Execute(0, 0, false)] + PushSteps(6)
  }

  lemma {:induction false} SnapshotIsARun(w: World, n: nat)
    requires w.worker.Joining? && |w.worker.initial| == 5 - n && w.worker.initial == InitialEvents(w)[..5 - n]
    ensures ValidRun(w, PushSteps(n + 1))
    ensures Run(w, PushSteps(n + 1)) ==
            w.(worker := Idle,
               sinks := w.sinks + [Sink(w.worker.id, InitialEvents(w), InitialEvents(w), |w.broadcasts|, |w.executed|)])
    decreases n
  {
    var v := PushInitialStep(w);
    if n > 0 {
      assert v.worker.initial == InitialEvents(w)[..6 - n] && InitialEvents(v) == InitialEvents(w);
      SnapshotIsARun(v, n - 1);
    } else {
      assert w.worker.initial + [InitialEvent(w, 5)] == InitialEvents(w);
    }
    RunCons(w, PushInitial, PushSteps(n));
  }

  /** With no other thread in between, a sink is added with the six events of the moment. */
  lemma AddSinkIsARun(w: World, id: nat)
    requires w.worker == Started(AddSinkTask(id))
    ensures ValidRun(w, AddActions())
    ensures Run(w, AddActions()) ==
            w.(worker := Idle, executed := w.executed + [AddSinkTask(id)],
               sinks := w.sinks + [Sink(id, InitialEvents(w), InitialEvents(w), |w.broadcasts|, |w.executed| + 1)])
  {
    var v := w.(executed := w.executed + [AddSinkTask(id)], worker := Joining(id, []));
    assert Apply(w, Execute(0, 0, false)) == v;
    assert InitialEvents(v) == InitialEvents(w);
    SnapshotIsARun(v, 5);
    RunCons(w, Execute(0, 0, false), PushSteps(6));
  }

  /** What a list of sinks is without the fields kept for reference. */
  function Outline(sinks: seq<Sink>): seq<Sink> {
    seq(|sinks|, i requires 0 <= i < |sinks| => Sink(sinks[i].id, sinks[i].log, [], 0, 0))
  }

  /** The worker is about to run this task, with these sinks. */
  function Starting(w: World, sinks: seq<Sink>, task: Task): World {
    w.(sinks := sinks, worker := Started(task))
  }

  lemma AddSinkOutline(v: World, sinks: seq<Sink>, id: nat)
    requires Outline(sinks) == sinks
    ensures var w := Starting(v, sinks, AddSinkTask(id));
            && ValidRun(w, AddActions())
            && Outline(Run(w, AddActions()).sinks) == sinks + [Sink(id, InitialEvents(v), [], 0, 0)]
  {
    var w := Starting(v, sinks, AddSinkTask(id));
    AddSinkIsARun(w, id);
    assert InitialEvents(w) == InitialEvents(v);
    assert forall i :: 0 <= i < |sinks| ==> Outline(sinks)[i] == sinks[i];
  }
}
