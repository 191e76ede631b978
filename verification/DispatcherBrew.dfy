/** The brew view: what every client believes about the brew, in every run. */
module DispatcherBrew {
  import opened Options
  import opened Machines
  import opened DispatcherSystem
  import opened DispatcherMachine
  import opened DispatcherViews
  import opened DispatcherPower

  /** The task sends a brew event; the forms with a reply and the power commands send none. */
  predicate TellsBrew(f: Flags, task: Task) {
    match task
    case StartBrewTask => Accepts(f, Brew)
    case StopBrewTask => f.brewing
    case ToggleBrewTask => f.brewing || Accepts(f, Brew)
    case _ => false
  }

  lemma BrewEventsTell(w: World, task: Task, temperature: int, ms: nat, writable: bool)
    requires Coherent(w.machine)
    ensures var e := TaskEffect(w, task, temperature, ms, writable);
            if TellsBrew(FlagsOf(w.machine), task) then e.event == Some(BrewEvent(e.machine.profiler.active))
            else e.event.Some? ==> !e.event.value.BrewEvent?
  {
  }

  lemma ExecuteInstallsProfiler(w: World, temperature: int, ms: nat, writable: bool)
    requires PlainTask(w)
    ensures var e := TaskEffect(w, w.worker.task, temperature, ms, writable);
            FlagsOf(e.machine).brewing == ExecuteStep(w, temperature, ms, writable).machine.profiler.active
  {
  }

  /**
    What a client added after `order` tasks was last told: by a task since then that sends a brew event,
    or by its snapshot.
   */
  function BrewTold(start: Flags, tasks: seq<Task>, order: nat): bool {
    if |tasks| <= order || tasks == [] then FlagRun(start, tasks).brewing
    else
      var front := tasks[..|tasks| - 1];
      if TellsBrew(FlagRun(start, front), tasks[|tasks| - 1]) then FlagRun(start, tasks).brewing
      else BrewTold(start, front, order)
  }

  lemma BrewToldAppend(start: Flags, tasks: seq<Task>, task: Task, order: nat)
    requires order <= |tasks|
    ensures BrewTold(start, tasks + [task], order) ==
            if TellsBrew(FlagRun(start, tasks), task) then FlagTask(FlagRun(start, tasks), task).brewing
            else BrewTold(start, tasks, order)
  {
    assert (tasks + [task])[..|tasks|] == tasks;
  }

  ghost predicate ShowsBrew(start: Flags, w: World, k: nat)
    requires k < |w.sinks|
  {
    && w.sinks[k].order <= |w.executed|
    && LastOf(Whole(w, k), BrewKind) == Some(BrewEvent(BrewTold(start, w.executed, w.sinks[k].order)))
  }

  ghost predicate BrewInv(start: Flags, w: World) {
    forall k :: 0 <= k < |w.sinks| ==> ShowsBrew(start, w, k)
  }

  lemma ExecuteKeepsBrew(start: Flags, w: World, temperature: int, ms: nat, writable: bool)
    requires Coherent(w.machine) && FlagInv(start, w) && BrewInv(start, w) && PlainTask(w)
    ensures BrewInv(start, ExecuteStep(w, temperature, ms, writable))
  {
    var v := ExecuteStep(w, temperature, ms, writable);
    var task := w.worker.task;
    var e := TaskEffect(w, task, temperature, ms, writable);
    TaskMovesFlags(w, task, temperature, ms, writable);
    BrewEventsTell(w, task, temperature, ms, writable);
    ExecuteIsLogged(w, temperature, ms, writable);
    ExecuteInstallsProfiler(w, temperature, ms, writable);
    assert v.machine.profiler.active == FlagTask(FlagsOf(w.machine), task).brewing;
    forall k | 0 <= k < |v.sinks|
      ensures ShowsBrew(start, v, k)
    {
      ExecuteExtendsWhole(w, temperature, ms, writable, k);
      EventMovesBrew(start, w, v, task, e.event, k);
    }
  }

  lemma EventMovesBrew(start: Flags, w: World, v: World, task: Task, event: Option<Event>, k: nat)
    requires BrewInv(start, w) && k < |w.sinks| && v.sinks == w.sinks && v.executed == w.executed + [task]
    requires Whole(v, k) == Whole(w, k) + EventSeq(event)
    requires var f := FlagRun(start, w.executed);
             if TellsBrew(f, task) then event == Some(BrewEvent(FlagTask(f, task).brewing))
             else event.Some? ==> !event.value.BrewEvent?
    ensures ShowsBrew(start, v, k)
  {
    assert ShowsBrew(start, w, k);
    LastOfAppend(Whole(w, k), event, BrewKind);
    BrewToldAppend(start, w.executed, task, w.sinks[k].order);
  }

  lemma DeliveryKeepsBrew(start: Flags, w: World, a: Action)
    requires JoiningInv(w) && BrewInv(start, w) && Enabled(w, a) && Delivers(w, a)
    ensures BrewInv(start, Apply(w, a))
  {
    var v := Apply(w, a);
    DeliveryKeepsState(w, a);
    assert |v.sinks| == |w.sinks|;
    forall k | 0 <= k < |v.sinks|
      ensures ShowsBrew(start, v, k)
    {
      DeliveryKeepsWhole(w, a, k);
      assert ShowsBrew(start, w, k);
      assert v.sinks[k].order == w.sinks[k].(log := []).order;
    }
  }

  lemma JoinKeepsBrew(start: Flags, w: World)
    requires JoiningInv(w) && FlagInv(start, w) && BrewInv(start, w) && w.worker.Joining? && |w.worker.initial| == 5
    ensures BrewInv(start, PushInitialStep(w))
  {
    var v := PushInitialStep(w);
    var snapshot := w.worker.initial + [InitialEvent(w, 5)];
    SnapshotShows(w, snapshot);
    forall k | 0 <= k < |v.sinks|
      ensures ShowsBrew(start, v, k)
    {
      if k < |w.sinks| {
        assert ShowsBrew(start, w, k);
        assert Whole(v, k) == Whole(w, k);
      } else {
        assert Whole(v, k) == snapshot;
      }
    }
  }

  /** A join or a release sends no brew event and moves no flag. */
  lemma ListKeepsBrew(start: Flags, w: World, temperature: int, ms: nat, writable: bool)
    requires BrewInv(start, w) && w.worker.Started? && !PlainTask(w)
    ensures BrewInv(start, ExecuteStep(w, temperature, ms, writable))
  {
    var v := ExecuteStep(w, temperature, ms, writable);
    forall k | 0 <= k < |v.sinks|
      ensures ShowsBrew(start, v, k)
    {
      var j := ListedBefore(w, temperature, ms, writable, k);
      assert ShowsBrew(start, w, j);
      BrewToldAppend(start, w.executed, w.worker.task, w.sinks[j].order);
    }
  }

  lemma StepKeepsBrew(start: Flags, w: World, a: Action)
    requires SyncInv(w) && JoiningInv(w) && FlagInv(start, w) && BrewInv(start, w) && Enabled(w, a)
    ensures BrewInv(start, Apply(w, a))
  {
    if Delivers(w, a) {
      DeliveryKeepsBrew(start, w, a);
    } else if a.PushInitial? {
      JoinKeepsBrew(start, w);
    } else if PlainTask(w) {
      ExecuteKeepsBrew(start, w, a.temperature, a.ms, a.writable);
    } else {
      ListKeepsBrew(start, w, a.temperature, a.ms, a.writable);
    }
  }

  lemma {:induction false} RunKeepsBrew(start: Flags, w: World, acts: seq<Action>)
    requires SyncInv(w) && ViewInv(w) && FlagInv(start, w) && BrewInv(start, w) && ValidRun(w, acts)
    ensures FlagInv(start, Run(w, acts)) && BrewInv(start, Run(w, acts))
    decreases |acts|
  {
    if acts != [] {
      StepKeepsSync(w, acts[0]);
      StepKeepsViews(w, acts[0]);
      StepKeepsFlags(start, w, acts[0]);
      StepKeepsBrew(start, w, acts[0]);
      RunKeepsBrew(start, Apply(w, acts[0]), acts[1..]);
    }
  }

  // ---------------------------------------------------------------- when it is wrong

  /** A brew runs only with the power on and without steam. */
  predicate Sane(f: Flags) {
    f.brewing ==> f.power && !f.steam
  }

  /** The start with a reply, and during a brew the stop with a reply, power off and the destructor's task. */
  predicate SilentBrewTask(f: Flags, task: Task) {
    || (task.StartBrewReply? && !f.brewing && f.power && !f.steam)
    || (f.brewing &&
          (task.StopBrewReply? || task.ShutDownTask? || task == SetPowerTask(false) || task.TogglePowerTask?))
  }

  /** These are exactly the tasks that start or stop a brew without telling. */
  lemma SilentBrewTasks(f: Flags, task: Task)
    requires Sane(f)
    ensures SilentBrewTask(f, task) <==> FlagTask(f, task).brewing != f.brewing && !TellsBrew(f, task)
    ensures Sane(FlagTask(f, task))
  {
  }

  /** How many of the tasks after the first `order` moved the brew silently since the last one that told it. */
  function SilentMoves(start: Flags, tasks: seq<Task>, order: nat): nat {
    if |tasks| <= order || tasks == [] then 0
    else
      var front, last := tasks[..|tasks| - 1], tasks[|tasks| - 1];
      var f := FlagRun(start, front);
      if TellsBrew(f, last) then 0
      else SilentMoves(start, front, order) + (if SilentBrewTask(f, last) then 1 else 0)
  }

  /** What was told is out of date iff that number is odd. */
  lemma {:induction false} ToldIsWrongIffOdd(start: Flags, tasks: seq<Task>, order: nat)
    requires Sane(start)
    ensures BrewTold(start, tasks, order) != FlagRun(start, tasks).brewing <==>
              SilentMoves(start, tasks, order) % 2 == 1
    ensures Sane(FlagRun(start, tasks))
    decreases |tasks|
  {
    if tasks != [] {
      var front, last := tasks[..|tasks| - 1], tasks[|tasks| - 1];
      ToldIsWrongIffOdd(start, front, order);
      SilentBrewTasks(FlagRun(start, front), last);
    }
  }

  /**
    In every run a client believes about the brew what it was last told, and is wrong iff the number of
    silent starts and stops executed since then is odd.
   */
  lemma BrewViewExactly(w: World, acts: seq<Action>, k: nat)
    requires InitialWorld(w) && ValidRun(w, acts) && k < |Run(w, acts).sinks|
    ensures var v := Run(w, acts);
            var start, order := FlagsOf(w.machine), v.sinks[k].order;
            var shown := LastOf(v.sinks[k].log + Carried(v, k), BrewKind);
            && shown == Some(BrewEvent(BrewTold(start, v.executed, order)))
            && (shown != Some(BrewEvent(v.machine.profiler.active)) <==>
                  SilentMoves(start, v.executed, order) % 2 == 1)
  {
    var start := FlagsOf(w.machine);
    RunKeepsBrew(start, w, acts);
    var v := Run(w, acts);
    assert ShowsBrew(start, v, k);
    assert v.sinks[k].log + Carried(v, k) == Whole(v, k);
    assert FlagsOf(v.machine).brewing == v.machine.profiler.active;
    ToldIsWrongIffOdd(start, v.executed, v.sinks[k].order);
  }

  // ---------------------------------------------------------------- a client that is wrong

  /** From an initial state the steam switch is turned off, with the power off. */
  lemma NoSteamRun(w: World) returns (acts: seq<Action>)
    requires InitialWorld(w)
    ensures ValidRun(w, acts)
    ensures var v := Run(w, acts);
            && v.worker.Idle? && v.queue == [] && v.sensor.Quiet? && v.sinks == []
            && v.machine == w.machine.(steam := false)
  {
    acts := StartRun(w, SetSteamTask(false));
    var v := Run(w, acts);
    RunExtend(w, acts, Execute(0, 0, false));
    acts, v := acts + [Execute(0, 0, false)], Apply(v, Execute(0, 0, false));
    assert v.worker == Broadcasting(SteamEvent(false), 0) && v.sinks == [];
    RunExtend(w, acts, PushNext);
    acts := acts + [PushNext];
  }

  /** Power on and a start with a reply, one behind the other. */
  lemma SilentStartRun(w: World) returns (acts: seq<Action>)
    requires w.worker.Idle? && w.queue == [] && w.sensor.Quiet? && |w.sinks| == 1
    requires Coherent(w.machine) && !w.machine.power && !w.machine.steam
    ensures ValidRun(w, acts)
    ensures var v := Run(w, acts);
            && v.worker.Idle? && v.machine.profiler.active
            && |v.sinks| == 1 && v.sinks[0].log == w.sinks[0].log + [PowerEvent(true)]
  {
    var e := Execute(0, 0, false);
    acts := StartRun(w, SetPowerTask(true));
    var v := Run(w, acts);
    RunExtend(w, acts, Submit(StartBrewReply));
    acts, v := acts + [Submit(StartBrewReply)], Apply(v, Submit(StartBrewReply));
    assert v.worker == Started(SetPowerTask(true)) && v.queue == [StartBrewReply];
    RunExtend(w, acts, e);
    acts, v := acts + [e], Apply(v, e);
    assert v.worker.Publishing? && v.worker.event == Some(PowerEvent(true));
    assert v.machine.power && !v.machine.steam && !v.machine.profiler.active;
    RunExtend(w, acts, Enqueue);
    acts, v := acts + [Enqueue], Apply(v, Enqueue);
    assert v.worker == Broadcasting(PowerEvent(true), 0) && v.queue[0] == StartBrewReply && v.sinks == w.sinks;
    var start := StartReplyRun(v);
    RunAppend(w, acts, start);
    acts := acts + start;
  }

  lemma StartReplyRun(w: World) returns (acts: seq<Action>)
    requires w.worker == Broadcasting(PowerEvent(true), 0) && |w.sinks| == 1
    requires w.queue != [] && w.queue[0] == StartBrewReply
    requires w.machine.power && !w.machine.steam && !w.machine.profiler.active
    ensures ValidRun(w, acts)
    ensures var v := Run(w, acts);
            && v.worker.Idle? && v.machine.profiler.active
            && |v.sinks| == 1 && v.sinks[0].log == w.sinks[0].log + [PowerEvent(true)]
  {
    var e := Execute(0, 0, false);
    acts := [];
    RunExtend(w, acts, PushNext);
    var v := Apply(w, PushNext);
    acts := acts + [PushNext];
    RunExtend(w, acts, PushNext);
    acts, v := acts + [PushNext], Apply(v, PushNext);
    assert v.worker.Idle?;
    RunExtend(w, acts, Begin);
    acts, v := acts + [Begin], Apply(v, Begin);
    RunExtend(w, acts, e);
    acts, v := acts + [e], Apply(v, e);
  }

  /** From every initial state a run leads to a client that was told of no brew while one is active. */
  lemma UntoldBrewExists(w: World) returns (acts: seq<Action>)
    requires InitialWorld(w)
    ensures ValidRun(w, acts)
    ensures var v := Run(w, acts);
            && v.worker.Idle? && |v.sinks| == 1 && v.machine.profiler.active
            && LastOf(v.sinks[0].log, BrewKind) == Some(BrewEvent(false))
  {
    acts := NoSteamRun(w);
    var u := Run(w, acts);
    var join := JoinRun(u);
    RunAppend(w, acts, join);
    acts := acts + join;
    var start := SilentStartRun(Run(w, acts));
    RunAppend(w, acts, start);
    acts := acts + start;
    SnapshotShows(u, InitialEvents(u));
    LastOfAppend(InitialEvents(u), Some(PowerEvent(true)), BrewKind);
  }
}
