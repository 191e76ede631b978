/** The power view: which clients are right about the power, in every run, and which are not. */
module DispatcherPower {
  import opened Options
  import opened Machines
  import opened DispatcherSystem
  import opened DispatcherMachine
  import opened DispatcherViews

  /** The destructor's task turned the power off, no power command came since, and the sink was there before. */
  predicate Misled(w: World, s: Sink) {
    w.silenced.Some? && s.order <= w.silenced.value
  }

  ghost predicate ShowsPower(w: World, k: nat)
    requires k < |w.sinks|
  {
    && w.sinks[k].order <= |w.executed|
    && LastOf(Whole(w, k), PowerKind) == Some(PowerEvent(w.machine.power || Misled(w, w.sinks[k])))
  }

  ghost predicate PowerInv(w: World) {
    && (w.silenced.Some? ==> !w.machine.power && w.silenced.value < |w.executed|)
    && forall k :: 0 <= k < |w.sinks| ==> ShowsPower(w, k)
  }

  lemma InstallKeepsPower(w: World, task: Task, e: Effect, touches: bool, temperature: int, k: nat)
    requires PowerInv(w) && w.worker == Started(task) && k < |w.sinks|
    requires e.event.Some? && e.event.value.PowerEvent? <==> PowerCommand(task)
    requires if PowerCommand(task) then e.event.value == PowerEvent(e.machine.power)
             else e.machine.power == (w.machine.power && !task.ShutDownTask?)
    requires var v := Install(w, task, e, touches, temperature);
             Whole(v, k) == Whole(w, k) + EventSeq(e.event)
    ensures ShowsPower(Install(w, task, e, touches, temperature), k)
  {
    assert ShowsPower(w, k);
    LastOfAppend(Whole(w, k), e.event, PowerKind);
  }

  lemma ExecuteKeepsPower(w: World, temperature: int, ms: nat, writable: bool)
    requires Coherent(w.machine) && PowerInv(w) && PlainTask(w)
    ensures PowerInv(ExecuteStep(w, temperature, ms, writable))
  {
    var v := ExecuteStep(w, temperature, ms, writable);
    var task := w.worker.task;
    var e := TaskEffect(w, task, temperature, ms, writable);
    EventsTellChanges(w, task, temperature, ms, writable);
    if task.ShutDownTask? {
      ShutDownFlags(w.machine, ms, temperature);
      assert !FlagsOf(e.machine).power;
    }
    assert v == Install(w, task, e, Touches(w.machine, task, writable), temperature);
    forall k | 0 <= k < |v.sinks|
      ensures ShowsPower(v, k)
    {
      ExecuteExtendsWhole(w, temperature, ms, writable, k);
      InstallKeepsPower(w, task, e, Touches(w.machine, task, writable), temperature, k);
    }
  }

  lemma DeliveryKeepsPower(w: World, a: Action)
    requires JoiningInv(w) && PowerInv(w) && Enabled(w, a) && Delivers(w, a)
    ensures PowerInv(Apply(w, a))
  {
    var v := Apply(w, a);
    DeliveryKeepsState(w, a);
    assert |v.sinks| == |w.sinks|;
    forall k | 0 <= k < |v.sinks|
      ensures ShowsPower(v, k)
    {
      DeliveryKeepsWhole(w, a, k);
      assert ShowsPower(w, k);
      assert v.sinks[k].order == w.sinks[k].(log := []).order;
    }
  }

  /** A new sink is told the power as it is, and is not misled by what was executed before. */
  lemma JoinKeepsPower(w: World)
    requires JoiningInv(w) && PowerInv(w) && w.worker.Joining? && |w.worker.initial| == 5
    ensures PowerInv(PushInitialStep(w))
  {
    var v := PushInitialStep(w);
    var snapshot := w.worker.initial + [InitialEvent(w, 5)];
    SnapshotShows(w, snapshot);
    forall k | 0 <= k < |v.sinks|
      ensures ShowsPower(v, k)
    {
      if k < |w.sinks| {
        assert ShowsPower(w, k);
        assert Whole(v, k) == Whole(w, k);
      } else {
        assert Whole(v, k) == snapshot;
      }
    }
  }

  lemma ListKeepsPower(w: World, temperature: int, ms: nat, writable: bool)
    requires PowerInv(w) && w.worker.Started? && !PlainTask(w)
    ensures PowerInv(ExecuteStep(w, temperature, ms, writable))
  {
    var v := ExecuteStep(w, temperature, ms, writable);
    forall k | 0 <= k < |v.sinks|
      ensures ShowsPower(v, k)
    {
      var j := ListedBefore(w, temperature, ms, writable, k);
      assert ShowsPower(w, j);
    }
  }

  lemma StepKeepsPower(w: World, a: Action)
    requires SyncInv(w) && JoiningInv(w) && PowerInv(w) && Enabled(w, a)
    ensures PowerInv(Apply(w, a))
  {
    if Delivers(w, a) {
      DeliveryKeepsPower(w, a);
    } else if a.PushInitial? {
      JoinKeepsPower(w);
    } else if PlainTask(w) {
      ExecuteKeepsPower(w, a.temperature, a.ms, a.writable);
    } else {
      ListKeepsPower(w, a.temperature, a.ms, a.writable);
    }
  }

  lemma {:induction false} RunKeepsPower(w: World, acts: seq<Action>)
    requires SyncInv(w) && ViewInv(w) && PowerInv(w) && ValidRun(w, acts)
    ensures ViewInv(Run(w, acts)) && PowerInv(Run(w, acts))
    decreases |acts|
  {
    if acts != [] {
      StepKeepsSync(w, acts[0]);
      StepKeepsViews(w, acts[0]);
      StepKeepsPower(w, acts[0]);
      RunKeepsPower(Apply(w, acts[0]), acts[1..]);
    }
  }

  /**
    In every run, replaying what a sink has and is about to get yields the steam mode, and it yields the
    power except to a sink that was there when the destructor's task turned the power off: that one is
    told on. Between tasks the log alone decides.
   */
  lemma ViewsAreTrue(w: World, acts: seq<Action>, k: nat)
    requires InitialWorld(w) && ValidRun(w, acts) && k < |Run(w, acts).sinks|
    ensures var v := Run(w, acts);
            var log := v.sinks[k].log;
            var events := if v.worker.Idle? || v.worker.Started? then log else log + Carried(v, k);
            && LastOf(events, SteamKind) == Some(SteamEvent(v.machine.steam))
            && (LastOf(events, PowerKind) == Some(PowerEvent(v.machine.power)) <==> !Misled(v, v.sinks[k]))
            && (Misled(v, v.sinks[k]) ==> LastOf(events, PowerKind) == Some(PowerEvent(true)) && !v.machine.power)
  {
    RunKeepsPower(w, acts);
    var v := Run(w, acts);
    assert LastOf(Whole(v, k), SteamKind) == Some(SteamEvent(v.machine.steam));
    assert ShowsPower(v, k);
    assert v.sinks[k].log + [] == v.sinks[k].log;
  }

  // ---------------------------------------------------------------- who is misled

  /** A turn-off by the destructor's task at place n of the executed tasks, with no power command after it. */
  ghost predicate SilencedAt(start: Flags, tasks: seq<Task>, n: nat) {
    && n < |tasks| && tasks[n] == ShutDownTask && FlagRun(start, tasks[..n]).power
    && forall i :: n < i < |tasks| ==> !PowerCommand(tasks[i])
  }

  predicate Placed(executed: seq<Task>, s: Sink) {
    0 < s.order <= |executed| && executed[s.order - 1] == AddSinkTask(s.id)
  }

  /** `silenced` is that place, and each sink's `order` is right behind the task that added it. */
  ghost predicate PlacesInv(start: Flags, w: World) {
    && (forall n: nat :: w.silenced == Some(n) <==> SilencedAt(start, w.executed, n))
    && (forall k :: 0 <= k < |w.sinks| ==> Placed(w.executed, w.sinks[k]))
    && (w.worker.Joining? ==>
          w.executed != [] && w.executed[|w.executed| - 1] == AddSinkTask(w.worker.id))
  }

  lemma SilencedAppend(start: Flags, tasks: seq<Task>, task: Task, n: nat)
    ensures SilencedAt(start, tasks + [task], n) <==>
              if n == |tasks| then task == ShutDownTask && FlagRun(start, tasks).power
              else SilencedAt(start, tasks, n) && !PowerCommand(task)
  {
    var all := tasks + [task];
    if n < |tasks| {
      assert all[..n] == tasks[..n];
      assert forall i :: n < i < |all| ==> all[i] == if i < |tasks| then tasks[i] else task;
      assert all[|tasks|] == task;
    } else if n == |tasks| {
      assert all[..n] == tasks;
    }
  }

  /** Executing a task moves `silenced` as it moves the place. */
  lemma SilencedFollows(start: Flags, w: World, task: Task, after: Option<nat>)
    requires PowerInv(w) && w.machine.power == FlagRun(start, w.executed).power
    requires forall n: nat :: w.silenced == Some(n) <==> SilencedAt(start, w.executed, n)
    requires after == if PowerCommand(task) then None
                      else if task.ShutDownTask? && w.machine.power then Some(|w.executed|)
                      else w.silenced
    ensures forall n: nat :: after == Some(n) <==> SilencedAt(start, w.executed + [task], n)
  {
    forall n: nat
      ensures after == Some(n) <==> SilencedAt(start, w.executed + [task], n)
    {
      SilencedAppend(start, w.executed, task, n);
    }
  }

  lemma ExecuteIsLogged(w: World, temperature: int, ms: nat, writable: bool)
    requires w.worker.Started?
    ensures var task, v := w.worker.task, ExecuteStep(w, temperature, ms, writable);
            && v.executed == w.executed + [task]
            && (PlainTask(w) ==> v.sinks == w.sinks)
            && (v.worker.Joining? ==> task == AddSinkTask(v.worker.id))
            && v.silenced == if PowerCommand(task) then None
                             else if task.ShutDownTask? && w.machine.power then Some(|w.executed|)
                             else w.silenced
  {
  }

  /** Executing a task adds no sink to the list. */
  lemma SinkBefore(w: World, temperature: int, ms: nat, writable: bool, k: nat) returns (j: nat)
    requires w.worker.Started? && k < |ExecuteStep(w, temperature, ms, writable).sinks|
    ensures j < |w.sinks| && w.sinks[j] == ExecuteStep(w, temperature, ms, writable).sinks[k]
  {
    if PlainTask(w) {
      ExecuteIsLogged(w, temperature, ms, writable);
      j := k;
    } else {
      j := ListedBefore(w, temperature, ms, writable, k);
    }
  }

  lemma ExecuteKeepsPlaces(start: Flags, w: World, temperature: int, ms: nat, writable: bool)
    requires PowerInv(w) && FlagInv(start, w) && PlacesInv(start, w) && w.worker.Started?
    ensures PlacesInv(start, ExecuteStep(w, temperature, ms, writable))
  {
    var v := ExecuteStep(w, temperature, ms, writable);
    var task := w.worker.task;
    ExecuteIsLogged(w, temperature, ms, writable);
    assert w.machine.power == FlagsOf(w.machine).power;
    SilencedFollows(start, w, task, v.silenced);
    forall k | 0 <= k < |v.sinks|
      ensures Placed(v.executed, v.sinks[k])
    {
      var j := SinkBefore(w, temperature, ms, writable, k);
      assert Placed(w.executed, w.sinks[j]);
    }
  }

  lemma StepKeepsPlaces(start: Flags, w: World, a: Action)
    requires PowerInv(w) && FlagInv(start, w) && PlacesInv(start, w) && JoiningInv(w) && Enabled(w, a)
    ensures PlacesInv(start, Apply(w, a))
  {
    if Delivers(w, a) {
      DeliveryKeepsPlaces(start, w, a);
    } else if a.Execute? {
      ExecuteKeepsPlaces(start, w, a.temperature, a.ms, a.writable);
    }
  }

  lemma DeliveryKeepsPlaces(start: Flags, w: World, a: Action)
    requires PlacesInv(start, w) && JoiningInv(w) && Enabled(w, a) && Delivers(w, a)
    ensures PlacesInv(start, Apply(w, a))
  {
    var v := Apply(w, a);
    DeliveryKeepsState(w, a);
    assert |v.sinks| == |w.sinks|;
    assert v.worker.Joining? ==> w.worker.Joining? && v.worker.id == w.worker.id;
    forall k | 0 <= k < |v.sinks|
      ensures v.sinks[k].order == w.sinks[k].order && v.sinks[k].id == w.sinks[k].id
    {
      DeliveryKeepsWhole(w, a, k);
      assert v.sinks[k].order == w.sinks[k].(log := []).order && v.sinks[k].id == w.sinks[k].(log := []).id;
    }
  }

  lemma {:induction false} RunKeepsPlaces(start: Flags, w: World, acts: seq<Action>)
    requires SyncInv(w) && ViewInv(w) && PowerInv(w) && FlagInv(start, w) && PlacesInv(start, w) && ValidRun(w, acts)
    ensures PlacesInv(start, Run(w, acts))
    decreases |acts|
  {
    if acts != [] {
      StepKeepsSync(w, acts[0]);
      StepKeepsViews(w, acts[0]);
      StepKeepsPower(w, acts[0]);
      StepKeepsFlags(start, w, acts[0]);
      StepKeepsPlaces(start, w, acts[0]);
      RunKeepsPlaces(start, Apply(w, acts[0]), acts[1..]);
    }
  }

  /**
    In every run a sink's power view is wrong iff, among the tasks executed, one of the destructor turned
    the power off after the task that added the sink, and no power command was executed after it.
   */
  lemma PowerViewExactly(w: World, acts: seq<Action>, k: nat)
    requires InitialWorld(w) && ValidRun(w, acts) && k < |Run(w, acts).sinks|
    ensures var v := Run(w, acts);
            var s := v.sinks[k];
            && 0 < s.order <= |v.executed| && v.executed[s.order - 1] == AddSinkTask(s.id)
            && (LastOf(s.log + Carried(v, k), PowerKind) != Some(PowerEvent(v.machine.power)) <==>
                  exists n :: s.order <= n && SilencedAt(FlagsOf(w.machine), v.executed, n))
  {
    RunKeepsPower(w, acts);
    RunKeepsPlaces(FlagsOf(w.machine), w, acts);
    var v := Run(w, acts);
    assert ShowsPower(v, k);
    assert Placed(v.executed, v.sinks[k]);
    assert v.sinks[k].log + Carried(v, k) == Whole(v, k);
    if Misled(v, v.sinks[k]) {
      assert SilencedAt(FlagsOf(w.machine), v.executed, v.silenced.value);
    }
  }

  /** The destructor's task leaves the power view of its sinks true exactly if the power was off before it. */
  lemma ShutDownPowerView(w: World, temperature: int, ms: nat, writable: bool, k: nat)
    requires SyncInv(w) && PowerInv(w) && w.silenced.None? && w.worker == Started(ShutDownTask) && k < |w.sinks|
    ensures var v := ExecuteStep(w, temperature, ms, writable);
            && k < |v.sinks|
            && (LastOf(Whole(v, k), PowerKind) == Some(PowerEvent(v.machine.power)) <==> !w.machine.power)
  {
    ExecuteKeepsPower(w, temperature, ms, writable);
    ExecuteExtendsWhole(w, temperature, ms, writable, k);
    assert ShowsPower(w, k) && ShowsPower(ExecuteStep(w, temperature, ms, writable), k);
  }

  // ---------------------------------------------------------------- a client that is misled

  /** The worker of a quiet dispatcher starts a task. */
  lemma StartRun(w: World, task: Task) returns (acts: seq<Action>)
    requires w.worker.Idle? && w.queue == [] && !task.NotifyHeaterTask?
    ensures ValidRun(w, acts)
    ensures Run(w, acts) == w.(submitted := w.submitted + [task], worker := Started(task))
  {
    acts := [Submit(task)] + ([Begin] + []);
    var v := Apply(w, Submit(task));
    assert v.queue == [task];
    RunCons(v, Begin, []);
    RunCons(w, Submit(task), [Begin] + []);
  }

  /** From a quiet dispatcher without sinks, a power command and its notification are executed. */
  lemma PowerOnRun(w: World) returns (acts: seq<Action>)
    requires InitialWorld(w)
    ensures ValidRun(w, acts)
    ensures var v := Run(w, acts);
            v.worker.Idle? && v.queue == [] && v.sensor.Quiet? && v.sinks == [] && v.machine.power
  {
    acts := StartRun(w, SetPowerTask(true));
    var v := Run(w, acts);
    var e := Execute(0, 0, false);
    RunExtend(w, acts, e);
    acts, v := acts + [e], Apply(v, e);
    assert v.worker.Publishing? && v.worker.notice.Some? && v.machine.power;
    RunExtend(w, acts, Enqueue);
    acts, v := acts + [Enqueue], Apply(v, Enqueue);
    assert v.worker.Broadcasting? && |v.queue| == 1 && v.queue[0].NotifyHeaterTask?;
    RunExtend(w, acts, PushNext);
    acts, v := acts + [PushNext], Apply(v, PushNext);
    RunExtend(w, acts, Begin);
    acts, v := acts + [Begin], Apply(v, Begin);
    NotifyStartsBroadcast(v, 0, 0, false);
    RunExtend(w, acts, e);
    acts, v := acts + [e], Apply(v, e);
    RunExtend(w, acts, PushNext);
    acts, v := acts + [PushNext], Apply(v, PushNext);
  }

  lemma JoinRun(w: World) returns (acts: seq<Action>)
    requires w.worker.Idle? && w.queue == [] && w.sinks == []
    ensures ValidRun(w, acts)
    ensures var v := Run(w, acts);
            && v.worker.Idle? && v.queue == [] && v.sensor == w.sensor && v.machine == w.machine
            && |v.sinks| == 1 && v.sinks[0].order == |v.executed| && v.sinks[0].log == InitialEvents(w)
  {
    acts := StartRun(w, AddSinkTask(0));
    var v := Run(w, acts);
    assert InitialEvents(v) == InitialEvents(w);
    AddSinkIsARun(v, 0);
    RunAppend(w, acts, AddActions());
    acts := acts + AddActions();
  }

  /** The destructor's task finds the power on and one sink. */
  lemma ShutDownRun(w: World) returns (acts: seq<Action>)
    requires w.worker.Idle? && w.queue == [] && w.sensor.Quiet? && w.machine.power
    requires |w.sinks| == 1 && w.sinks[0].order == |w.executed|
    ensures ValidRun(w, acts)
    ensures var v := Run(w, acts);
            |v.sinks| == 1 && Misled(v, v.sinks[0]) && Carried(v, 0) == []
  {
    acts := StartRun(w, ShutDownTask);
    RunExtend(w, acts, Execute(0, 0, false));
    acts := acts + [Execute(0, 0, false)];
  }

  /** From every initial state a run leads to a client that is told on while the power is off. */
  lemma MisledClientExists(w: World) returns (acts: seq<Action>)
    requires InitialWorld(w)
    ensures ValidRun(w, acts)
    ensures var v := Run(w, acts);
            |v.sinks| == 1 && !v.machine.power && LastOf(v.sinks[0].log, PowerKind) == Some(PowerEvent(true))
  {
    acts := PowerOnRun(w);
    var join := JoinRun(Run(w, acts));
    RunAppend(w, acts, join);
    acts := acts + join;
    var shut := ShutDownRun(Run(w, acts));
    RunAppend(w, acts, shut);
    acts := acts + shut;
    ViewsAreTrue(w, acts, 0);
    var v := Run(w, acts);
    assert v.sinks[0].log + [] == v.sinks[0].log;
  }
}
