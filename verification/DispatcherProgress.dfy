/** Once nothing new arrives the dispatcher drains in a bounded number of steps. */
module DispatcherProgress {
  import opened Options
  import opened Lists
  import opened Machines
  import opened DispatcherSystem
  import opened DispatcherMachine
  import opened DispatcherViews
  import opened DispatcherPower

  /** Steps the dispatcher takes by itself: no submission and no sensor reading. */
  predicate Internal(a: Action) {
    !a.Submit? && !a.SensorReading?
  }

  predicate AllInternal(acts: seq<Action>) {
    forall i :: 0 <= i < |acts| ==> Internal(acts[i])
  }

  predicate Drained(w: World) {
    w.worker.Idle? && w.queue == [] && w.sensor.Quiet?
  }

  /** Until it is drained, the sensor's thread or else the worker has a next step. */
  lemma NeverStuck(w: World, temperature: int, ms: nat, writable: bool) returns (a: Action)
    requires SyncInv(w) && !Drained(w)
    ensures Internal(a) && Enabled(w, a)
    ensures w.sensor.Quiet? ==> !a.SensorEnqueue?
    ensures a.Execute? ==> a == Execute(temperature, ms, writable)
  {
    if w.sensor.Stored? {
      a := SensorEnqueue;
    } else {
      a := match w.worker
        case Idle => Begin
        case Started(_) => Execute(temperature, ms, writable)
        case Publishing(_, _, _) => Enqueue
        case Joining(_, _) => PushInitial
        case Broadcasting(_, _) => PushNext;
    }
  }

  // ---------------------------------------------------------------- a bound on the drain

  function Joiners(tasks: seq<Task>): nat {
    if tasks == [] then 0 else (if tasks[0].AddSinkTask? then 1 else 0) + Joiners(tasks[1..])
  }

  /** Sinks there are or will be. */
  function SinkBound(w: World): nat {
    |w.sinks| + Joiners(w.queue)
    + (if w.worker.Joining? || (w.worker.Started? && w.worker.task.AddSinkTask?) then 1 else 0)
  }

  /** Steps a queued task may cost when there are at most n sinks. */
  function Cost(task: Task, n: nat): nat {
    if task.NotifyHeaterTask? then n + 3 else 2 * n + 15
  }

  function QueueCost(tasks: seq<Task>, n: nat): nat {
    if tasks == [] then 0 else Cost(tasks[0], n) + QueueCost(tasks[1..], n)
  }

  function WorkerCost(w: World, n: nat): int {
    match w.worker
    case Idle => 0
    case Started(task) => Cost(task, n) - 1
    case Publishing(notice, callback, event) =>
      1 + (if notice.Some? then n + 3 else 0) + (if event.Some? then n + 1 else 0)
    case Joining(id, initial) => 6 - |initial|
    case Broadcasting(sent, next) => n + 1 - next
  }

  function TotalCost(w: World, n: nat): int {
    QueueCost(w.queue, n) + WorkerCost(w, n) + (if w.sensor.Stored? then n + 4 else 0)
  }

  ghost predicate BoundInv(w: World, n: nat) {
    && SinkBound(w) <= n
    && (w.worker.Broadcasting? ==> w.worker.next <= |w.sinks|)
    && (w.worker.Joining? ==> |w.worker.initial| < 6)
  }

  lemma {:induction false} AppendCost(tasks: seq<Task>, task: Task, n: nat)
    ensures QueueCost(tasks + [task], n) == QueueCost(tasks, n) + Cost(task, n)
    ensures Joiners(tasks + [task]) == Joiners(tasks) + (if task.AddSinkTask? then 1 else 0)
  {
    if tasks == [] {
      assert tasks + [task] == [task];
    } else {
      assert (tasks + [task])[1..] == tasks[1..] + [task];
      AppendCost(tasks[1..], task, n);
    }
  }

  lemma ListTaskCosts(w: World, temperature: int, ms: nat, writable: bool, n: nat)
    requires BoundInv(w, n) && w.worker.Started? && !PlainTask(w)
    ensures var v := ExecuteStep(w, temperature, ms, writable);
            BoundInv(v, n) && TotalCost(v, n) < TotalCost(w, n)
  {
    if w.worker.task.ReleaseSinkTask? {
      FilterMembers(w.sinks, Stays(w.worker.task.id));
    }
  }

  lemma NotifyTaskCosts(w: World, temperature: int, ms: nat, writable: bool, n: nat)
    requires BoundInv(w, n) && w.worker.Started? && w.worker.task.NotifyHeaterTask?
    ensures var v := ExecuteStep(w, temperature, ms, writable);
            BoundInv(v, n) && TotalCost(v, n) < TotalCost(w, n)
  {
    NotifyStartsBroadcast(w, temperature, ms, writable);
  }

  lemma ExecuteCosts(w: World, temperature: int, ms: nat, writable: bool, n: nat)
    requires SyncInv(w) && BoundInv(w, n) && Enabled(w, Execute(temperature, ms, writable))
    ensures var v := ExecuteStep(w, temperature, ms, writable);
            BoundInv(v, n) && TotalCost(v, n) < TotalCost(w, n)
  {
    var task := w.worker.task;
    if task.ReleaseSinkTask? || task.AddSinkTask? {
      ListTaskCosts(w, temperature, ms, writable, n);
    } else if task.NotifyHeaterTask? {
      NotifyTaskCosts(w, temperature, ms, writable, n);
    } else {
      var e := TaskEffect(w, task, temperature, ms, writable);
      InstallCosts(w, task, e, Touches(w.machine, task, writable), temperature, n);
    }
  }

  lemma InstallCosts(w: World, task: Task, e: Effect, touches: bool, temperature: int, n: nat)
    requires BoundInv(w, n) && w.worker == Started(task) && !task.AddSinkTask? && !task.NotifyHeaterTask?
    ensures var v := Install(w, task, e, touches, temperature);
            BoundInv(v, n) && TotalCost(v, n) < TotalCost(w, n)
  {
  }

  lemma EnqueueCosts(w: World, n: nat)
    requires BoundInv(w, n) && w.worker.Publishing?
    ensures BoundInv(EnqueueStep(w), n) && TotalCost(EnqueueStep(w), n) < TotalCost(w, n)
  {
    if w.worker.notice.Some? {
      AppendCost(w.queue, NotifyHeaterTask(w.worker.notice.value), n);
    }
  }

  lemma SensorEnqueueCosts(w: World, n: nat)
    requires BoundInv(w, n) && w.sensor.Stored?
    ensures var v := Apply(w, SensorEnqueue);
            BoundInv(v, n) && TotalCost(v, n) < TotalCost(w, n)
  {
    AppendCost(w.queue, NotifyHeaterTask(w.sensor.status), n);
  }

  lemma DeliveryCosts(w: World, a: Action, n: nat)
    requires BoundInv(w, n) && Enabled(w, a) && (a.PushInitial? || a.PushNext? || a.Begin?)
    ensures BoundInv(Apply(w, a), n) && TotalCost(Apply(w, a), n) < TotalCost(w, n)
  {
  }

  lemma StepCosts(w: World, a: Action, n: nat)
    requires SyncInv(w) && BoundInv(w, n) && Internal(a) && Enabled(w, a)
    ensures BoundInv(Apply(w, a), n) && TotalCost(Apply(w, a), n) < TotalCost(w, n)
  {
    match a {
      case Execute(temperature, ms, writable) => ExecuteCosts(w, temperature, ms, writable, n);
      case Enqueue => EnqueueCosts(w, n);
      case SensorEnqueue => SensorEnqueueCosts(w, n);
      case _ => DeliveryCosts(w, a, n);
    }
  }

  lemma CostIsNatural(w: World, n: nat)
    requires BoundInv(w, n)
    ensures TotalCost(w, n) >= 0
  {
  }

  /** Whatever the temperatures, clocks and file outcomes, the dispatcher left alone stops within TotalCost steps. */
  lemma {:induction false} DrainIsBounded(w: World, acts: seq<Action>, n: nat)
    requires SyncInv(w) && BoundInv(w, n) && ValidRun(w, acts) && AllInternal(acts)
    ensures |acts| <= TotalCost(w, n)
    decreases |acts|
  {
    CostIsNatural(w, n);
    if acts != [] {
      StepCosts(w, acts[0], n);
      StepKeepsSync(w, acts[0]);
      DrainIsBounded(Apply(w, acts[0]), acts[1..], n);
    }
  }

  /** And it can be driven to the end, with any temperature, clock and file outcome for the tasks on the way. */
  lemma {:induction false} DrainExists(w: World, temperature: int, ms: nat, writable: bool, n: nat)
      returns (acts: seq<Action>)
    requires SyncInv(w) && BoundInv(w, n)
    ensures ValidRun(w, acts) && AllInternal(acts) && Drained(Run(w, acts))
    decreases TotalCost(w, n)
  {
    CostIsNatural(w, n);
    if Drained(w) {
      acts := [];
    } else {
      var a := NeverStuck(w, temperature, ms, writable);
      StepCosts(w, a, n);
      StepKeepsSync(w, a);
      var rest := DrainExists(Apply(w, a), temperature, ms, writable, n);
      acts := [a] + rest;
      assert acts[1..] == rest;
    }
  }

  // ---------------------------------------------------------------- what holds when it is drained

  lemma {:induction false} RunKeepsBound(w: World, acts: seq<Action>)
    requires BoundInv(w, SinkBound(w)) && ValidRun(w, acts)
    ensures BoundInv(Run(w, acts), SinkBound(Run(w, acts)))
    decreases |acts|
  {
    if acts != [] {
      var v := Apply(w, acts[0]);
      if acts[0].Execute? {
        ExecutePcIsWellFormed(w, acts[0].temperature, acts[0].ms, acts[0].writable);
      }
      assert BoundInv(v, SinkBound(v));
      RunKeepsBound(v, acts[1..]);
    }
  }

  lemma ExecutePcIsWellFormed(w: World, temperature: int, ms: nat, writable: bool)
    requires w.worker.Started?
    ensures var v := ExecuteStep(w, temperature, ms, writable);
            && (v.worker.Broadcasting? ==> v.worker.next == 0)
            && (v.worker.Joining? ==> v.worker.initial == [])
  {
  }

  /**
    A drained dispatcher: all submitted tasks were executed, every sink's log is its snapshot followed by
    all broadcasts since it joined, and it shows the published heater state, the steam mode and, unless
    the sink was there when the destructor's task turned it off, the power.
   */
  lemma DrainedAgreement(w: World, acts: seq<Action>, k: nat)
    requires InitialWorld(w) && ValidRun(w, acts) && Drained(Run(w, acts)) && k < |Run(w, acts).sinks|
    ensures var v := Run(w, acts);
            && v.executed == v.submitted
            && SinkInOrder(v.broadcasts, v.sinks[k], v.sinks[k].log)
            && LastOf(v.sinks[k].log, HeaterKind) == Some(HeaterEvent(v.machine.status.published))
            && LastOf(v.sinks[k].log, SteamKind) == Some(SteamEvent(v.machine.steam))
            && (LastOf(v.sinks[k].log, PowerKind) == Some(PowerEvent(v.machine.power)) <==> !Misled(v, v.sinks[k]))
  {
    RunKeepsSync(w, acts);
    RunKeepsFlags(FlagsOf(w.machine), w, acts);
    HeaterViewAgreement(w, acts, k);
    ViewsAreTrue(w, acts, k);
    TotalOrderBroadcast(w, acts);
    var v := Run(w, acts);
    assert Notices(v) == [];
    assert v.sinks[k].log + [] == v.sinks[k].log;
    assert v.executed + [] + [] == v.executed;
    assert SinkInOrder(v.broadcasts, v.sinks[k], v.sinks[k].log + Carried(v, k));
  }

  /** The run cannot be continued by the dispatcher itself. */
  ghost predicate Settles(w: World) {
    forall a :: Internal(a) ==> !Enabled(w, a)
  }

  /**
    From any reachable state in which the destructor's task is the last command, whatever the order of
    the steps, the temperatures, the clocks and the file outcomes: the dispatcher left alone takes at
    most TotalCost steps, and where it cannot go on it is drained and everything is off.
   */
  lemma ShutDownDrains(start: World, before: seq<Action>, acts: seq<Action>)
    requires InitialWorld(start) && ValidRun(start, before) && ShutDownPending(Run(start, before))
    requires ValidRun(Run(start, before), acts) && AllInternal(acts)
    ensures var w := Run(start, before);
            |acts| <= TotalCost(w, SinkBound(w))
    ensures var v := Run(Run(start, before), acts);
            Settles(v) ==> Drained(v) && Off(v)
  {
    RunKeepsSync(start, before);
    RunKeepsBound(start, before);
    var w := Run(start, before);
    RunKeepsSync(w, acts);
    DrainIsBounded(w, acts, SinkBound(w));
    SafeShutDown(start, before, acts);
    if !Drained(Run(w, acts)) {
      var a := NeverStuck(Run(w, acts), 0, 0, false);
    }
  }

  /** Such a run exists, with any temperature, clock and file outcome. */
  lemma ShutDownCompletes(start: World, before: seq<Action>, temperature: int, ms: nat, writable: bool)
      returns (acts: seq<Action>)
    requires InitialWorld(start) && ValidRun(start, before) && ShutDownPending(Run(start, before))
    ensures ValidRun(Run(start, before), acts) && AllInternal(acts)
    ensures var v := Run(Run(start, before), acts);
            Drained(v) && Off(v)
  {
    RunKeepsSync(start, before);
    RunKeepsBound(start, before);
    var w := Run(start, before);
    acts := DrainExists(w, temperature, ms, writable, SinkBound(w));
    ShutDownDrains(start, before, acts);
    SafeShutDown(start, before, acts);
  }
}
