/**
  Executor and dispatcher as one system: the executor's instructions and the dispatcher's steps, of which
  those that put a task in the queue or take one from it are taken together.
 */
module ServedDispatcher {
  import opened Options
  import opened Words
  import Executor = ExecutorSystem
  import opened Hysteresis
  import opened DispatcherSystem
  import opened DispatcherMachine

  // ---------------------------------------------------------------- the dispatcher's queue

  /** The tasks the worker has started, in order. */
  function Begun(w: World): seq<Task> {
    w.executed + if w.worker.Started? then [w.worker.task] else []
  }

  function QueueOf(w: World): Executor.Fifo<Task> {
    Executor.Fifo(w.queue, Begun(w))
  }

  /** What a step of the dispatcher is to its queue. */
  function QueueLabel(w: World, a: Action): Executor.FifoStep<Task> {
    match a
    case Submit(task) => Executor.Enqueue(task)
    case Begin => Executor.Dequeue
    case Enqueue =>
      if w.worker.Publishing? && w.worker.notice.Some? then Executor.Enqueue(NotifyHeaterTask(w.worker.notice.value))
      else Executor.Stutter
    case SensorEnqueue =>
      if w.sensor.Stored? then Executor.Enqueue(NotifyHeaterTask(w.sensor.status)) else Executor.Stutter
    case _ => Executor.Stutter
  }

  lemma ExecuteKeepsQueue(w: World, temperature: int, ms: nat, writable: bool)
    requires w.worker.Started?
    ensures QueueOf(ExecuteStep(w, temperature, ms, writable)) == QueueOf(w)
  {
    var v := ExecuteStep(w, temperature, ms, writable);
    assert v.queue == w.queue && !v.worker.Started? && v.executed == w.executed + [w.worker.task];
    assert v.executed + [] == v.executed;
  }

  /** Every step of the dispatcher is an enqueue, a start of the front task, or invisible. */
  lemma DispatcherRefinesFifo(w: World, a: Action)
    requires Enabled(w, a)
    ensures QueueOf(Apply(w, a)) == Executor.FifoNext(QueueOf(w), QueueLabel(w, a))
  {
    if a.Execute? {
      ExecuteKeepsQueue(w, a.temperature, a.ms, a.writable);
    } else {
      assert w.executed + [] == w.executed;
    }
  }

  // ---------------------------------------------------------------- the system

  datatype Both = Both(s: Executor.State<Task>, w: World)

  datatype Move =
    | Instruct(i: Executor.Action<Task>)        // an instruction that is invisible to the queue
    | Step(a: Action)                           // a step of the dispatcher that is
    | Joint(i: Executor.Action<Task>, a: Action)

  /** A thread has stored this status and is to queue its notification. */
  predicate Announces(w: World, status: HeatingStatus) {
    w.sensor == Stored(status) || (w.worker.Publishing? && w.worker.notice == Some(status))
  }

  /**
    A heater notification is submitted only by who announces it. `pop_front` follows the return of the
    task, so the executor's worker goes on only when the dispatcher's is idle.
   */
  predicate May(b: Both, m: Move) {
    match m
    case Instruct(i) =>
      && Executor.Enabled(b.s, i) && Executor.StepLabel(b.s, i).Stutter?
      && (i.Work? && b.s.worker.Popping? ==> b.w.worker.Idle?)
      && (i.Acquire? && i.item.NotifyHeaterTask? ==> Announces(b.w, i.item.status))
    case Step(a) => Enabled(b.w, a) && QueueLabel(b.w, a).Stutter?
    case Joint(i, a) =>
      && Executor.Enabled(b.s, i) && Enabled(b.w, a)
      && Executor.StepLabel(b.s, i) == QueueLabel(b.w, a) && !QueueLabel(b.w, a).Stutter?
  }

  function Next(b: Both, m: Move): Both
    requires May(b, m)
  {
    match m
    case Instruct(i) => b.(s := Executor.Apply(b.s, i))
    case Step(a) => b.(w := Apply(b.w, a))
    case Joint(i, a) => Both(Executor.Apply(b.s, i), Apply(b.w, a))
  }

  predicate ValidMoves(b: Both, moves: seq<Move>)
    decreases |moves|
  {
    moves == [] || (May(b, moves[0]) && ValidMoves(Next(b, moves[0]), moves[1..]))
  }

  function RunMoves(b: Both, moves: seq<Move>): Both
    requires ValidMoves(b, moves)
    decreases |moves|
  {
    if moves == [] then b else RunMoves(Next(b, moves[0]), moves[1..])
  }

  lemma MovesCons(b: Both, m: Move, rest: seq<Move>)
    requires May(b, m) && ValidMoves(Next(b, m), rest)
    ensures ValidMoves(b, [m] + rest) && RunMoves(b, [m] + rest) == RunMoves(Next(b, m), rest)
  {
    assert ([m] + rest)[1..] == rest;
  }

  lemma HeadFirst(first: seq<Move>, second: seq<Move>)
    requires first != []
    ensures [first[0]] + (first[1..] + second) == first + second
  {
  }

  lemma {:induction false} MovesAppend(b: Both, first: seq<Move>, second: seq<Move>)
    requires ValidMoves(b, first) && ValidMoves(RunMoves(b, first), second)
    ensures ValidMoves(b, first + second) && RunMoves(b, first + second) == RunMoves(RunMoves(b, first), second)
    decreases |first|
  {
    if first == [] {
      assert first + second == second;
    } else {
      var c, rest := Next(b, first[0]), first[1..];
      MovesAppend(c, rest, second);
      MovesCons(b, first[0], rest + second);
      HeadFirst(first, second);
    }
  }

  function DispatcherAct(m: Move): seq<Action> {
    if m.Instruct? then [] else [m.a]
  }

  /** The dispatcher's part of a run. */
  function DispatcherActs(moves: seq<Move>): seq<Action> {
    if moves == [] then [] else DispatcherAct(moves[0]) + DispatcherActs(moves[1..])
  }

  /** The executor's part. */
  function ExecutorActs(moves: seq<Move>): seq<Executor.Action<Task>> {
    if moves == [] then []
    else (if moves[0].Step? then [] else [moves[0].i]) + ExecutorActs(moves[1..])
  }

  /** Each part is a run of its own system, so what is proved of all its runs holds here. */
  lemma {:induction false} PartsAreRuns(b: Both, moves: seq<Move>)
    requires ValidMoves(b, moves)
    ensures ValidRun(b.w, DispatcherActs(moves)) && Run(b.w, DispatcherActs(moves)) == RunMoves(b, moves).w
    ensures Executor.ValidRun(b.s, ExecutorActs(moves))
    ensures Executor.Run(b.s, ExecutorActs(moves)) == RunMoves(b, moves).s
    decreases |moves|
  {
    if moves != [] {
      var m, rest := moves[0], moves[1..];
      PartsAreRuns(Next(b, m), rest);
      if m.Instruct? {
        assert [] + DispatcherActs(rest) == DispatcherActs(rest);
      } else {
        RunCons(b.w, m.a, DispatcherActs(rest));
      }
      if m.Step? {
        assert [] + ExecutorActs(rest) == ExecutorActs(rest);
      } else {
        Executor.RunCons(b.s, m.i, ExecutorActs(rest));
      }
    }
  }

  // ---------------------------------------------------------------- the invariant

  ghost predicate Linked(b: Both) {
    && Executor.Abstract(b.s) == QueueOf(b.w)
    && (!b.w.worker.Idle? ==> b.s.worker.Popping?)
    && forall task :: task in Executor.InHand(b.s) && task.NotifyHeaterTask? ==> Announces(b.w, task.status)
  }

  ghost predicate BothInv(b: Both) {
    Executor.Inv(b.s) && SyncInv(b.w) && Linked(b)
  }

  predicate InitialBoth(b: Both) {
    b.s == Executor.Init() && InitialWorld(b.w)
  }

  lemma InstructKeepsLinked(b: Both, i: Executor.Action<Task>)
    requires BothInv(b) && May(b, Instruct(i))
    ensures Linked(Next(b, Instruct(i)))
  {
    Executor.RefinesFifo(b.s, i);
  }

  lemma StutterKeepsAnnounced(w: World, a: Action, status: HeatingStatus)
    requires SyncInv(w) && Enabled(w, a) && QueueLabel(w, a).Stutter? && Announces(w, status)
    ensures Announces(Apply(w, a), status)
  {
    match a
    case Execute(temperature, ms, writable) => assert ExecuteStep(w, temperature, ms, writable).sensor == w.sensor;
    case _ =>
  }

  lemma StepKeepsLinked(b: Both, a: Action)
    requires BothInv(b) && May(b, Step(a))
    ensures Linked(Next(b, Step(a)))
  {
    DispatcherRefinesFifo(b.w, a);
    forall task | task in Executor.InHand(b.s) && task.NotifyHeaterTask?
      ensures Announces(Apply(b.w, a), task.status)
    {
      StutterKeepsAnnounced(b.w, a, task.status);
    }
  }

  lemma JointKeepsLinked(b: Both, i: Executor.Action<Task>, a: Action)
    requires BothInv(b) && May(b, Joint(i, a))
    ensures Linked(Next(b, Joint(i, a)))
  {
    Executor.RefinesFifo(b.s, i);
    DispatcherRefinesFifo(b.w, a);
  }

  lemma MoveKeepsBoth(b: Both, m: Move)
    requires BothInv(b) && May(b, m)
    ensures BothInv(Next(b, m))
  {
    match m {
      case Instruct(i) =>
        InstructKeepsLinked(b, i);
        Executor.StepKeepsInv(b.s, i);
      case Step(a) =>
        StepKeepsLinked(b, a);
        StepKeepsSync(b.w, a);
      case Joint(i, a) =>
        JointKeepsLinked(b, i, a);
        Executor.StepKeepsInv(b.s, i);
        StepKeepsSync(b.w, a);
    }
  }

  lemma {:induction false} MovesKeepBoth(b: Both, moves: seq<Move>)
    requires BothInv(b) && ValidMoves(b, moves)
    ensures BothInv(RunMoves(b, moves))
    decreases |moves|
  {
    if moves != [] {
      MoveKeepsBoth(b, moves[0]);
      MovesKeepBoth(Next(b, moves[0]), moves[1..]);
    }
  }

  lemma ReachableBoth(b: Both, moves: seq<Move>)
    requires InitialBoth(b) && ValidMoves(b, moves)
    ensures BothInv(RunMoves(b, moves))
  {
    assert QueueOf(b.w).done == [];
    MovesKeepBoth(b, moves);
  }

  /**
    In every reachable state the dispatcher's queue is what waits in the executor's two lists, the tasks
    it has begun are those the executor started, and a task runs only inside an invocation.
   */
  lemma ExecutorServesDispatcher(b: Both, moves: seq<Move>)
    requires InitialBoth(b) && ValidMoves(b, moves)
    ensures var c := RunMoves(b, moves);
            && Executor.Abstract(c.s) == Executor.Fifo(c.w.queue, Begun(c.w))
            && (!c.w.worker.Idle? ==> c.s.worker.Popping?)
            && ValidRun(b.w, DispatcherActs(moves)) && c.w == Run(b.w, DispatcherActs(moves))
            && Executor.ValidRun(b.s, ExecutorActs(moves)) && c.s == Executor.Run(b.s, ExecutorActs(moves))
  {
    ReachableBoth(b, moves);
    PartsAreRuns(b, moves);
  }

  // ---------------------------------------------------------------- the callback and unregisterCallback

  /** Neither the worker nor a task it runs takes a step. */
  predicate WorkerStands(moves: seq<Move>) {
    forall i :: 0 <= i < |moves| ==>
      match moves[i]
      case Instruct(e) => !e.Work? && !e.RequestStop?
      case Step(a) => false
      case Joint(e, a) => a.Submit? || a.SensorEnqueue?
  }

  /** Outside the critical section. */
  predicate Unlocked(s: Executor.State<Task>) {
    s.lock == Executor.Free && s.submitters == map[]
  }

  /** The last two instructions of a submission. */
  lemma CountAndRelease(b: Both, id: nat) returns (moves: seq<Move>)
    requires Executor.LockInv(b.s) && b.s.lock == Executor.HeldBySubmitter(id) && !b.s.submitters[id].Locked?
    ensures ValidMoves(b, moves) && WorkerStands(moves) && DispatcherActs(moves) == [] && |moves| <= 2
    ensures var c := RunMoves(b, moves);
            && c.w == b.w && Unlocked(c.s)
            && c.s.worker == b.s.worker && c.s.local == b.s.local && c.s.stop == b.s.stop
  {
    var release := [Instruct(Executor.Release(id))] + [];
    assert release[1..] == [] && DispatcherActs(release) == [];
    if b.s.submitters[id].Queued? {
      var counted := Next(b, Instruct(Executor.Count(id)));
      assert Executor.Apply(counted.s, Executor.Release(id)).submitters == map[];
      MovesCons(counted, Instruct(Executor.Release(id)), []);
      MovesCons(b, Instruct(Executor.Count(id)), release);
      moves := [Instruct(Executor.Count(id))] + release;
      assert moves[1..] == release;
    } else {
      assert Executor.Apply(b.s, Executor.Release(id)).submitters == map[];
      MovesCons(b, Instruct(Executor.Release(id)), []);
      moves := release;
    }
  }

  /** From its emplacement on, taken together with the dispatcher's step for the task. */
  lemma EmplaceAndRelease(b: Both, id: nat, a: Action) returns (moves: seq<Move>)
    requires Executor.LockInv(b.s) && b.s.lock == Executor.HeldBySubmitter(id) && b.s.submitters[id].Locked?
    requires Enabled(b.w, a) && QueueLabel(b.w, a) == Executor.Enqueue(b.s.submitters[id].item)
    ensures ValidMoves(b, moves) && DispatcherActs(moves) == [a] && |moves| <= 3
    ensures a.Submit? || a.SensorEnqueue? ==> WorkerStands(moves)
    ensures var c := RunMoves(b, moves);
            && c.w == Apply(b.w, a) && Unlocked(c.s)
            && c.s.worker == b.s.worker && c.s.local == b.s.local && c.s.stop == b.s.stop
  {
    var m := Joint(Executor.Emplace(id), a);
    var c := Next(b, m);
    var rest := CountAndRelease(c, id);
    MovesCons(b, m, rest);
    moves := [m] + rest;
    assert moves[1..] == rest && [a] + DispatcherActs(rest) == [a];
  }

  /** A whole submission. */
  lemma SubmitBoth(b: Both, id: nat, task: Task, a: Action) returns (moves: seq<Move>)
    requires Executor.LockInv(b.s) && Unlocked(b.s)
    requires Enabled(b.w, a) && QueueLabel(b.w, a) == Executor.Enqueue(task)
    ensures ValidMoves(b, moves) && DispatcherActs(moves) == [a] && |moves| <= 4
    ensures a.Submit? || a.SensorEnqueue? ==> WorkerStands(moves)
    ensures var c := RunMoves(b, moves);
            && c.w == Apply(b.w, a) && Unlocked(c.s)
            && c.s.worker == b.s.worker && c.s.local == b.s.local && c.s.stop == b.s.stop
  {
    var m := Instruct(Executor.Acquire(id, task));
    var c := Next(b, m);
    assert c.s.submitters == map[id := Executor.Locked(task)];
    var rest := EmplaceAndRelease(c, id, a);
    MovesCons(b, m, rest);
    moves := [m] + rest;
    assert moves[1..] == rest && [] + DispatcherActs(rest) == DispatcherActs(rest);
  }

  /** Who holds the lock can finish; the task in its hand may be the very notification. */
  lemma HolderFinishesBoth(b: Both) returns (moves: seq<Move>)
    requires BothInv(b) && !b.s.lock.HeldByWorker? && !b.w.worker.Publishing?
    ensures ValidMoves(b, moves) && WorkerStands(moves) && |moves| <= 3
    ensures var c := RunMoves(b, moves);
            && Unlocked(c.s) && c.s.worker == b.s.worker
            && c.w.worker == b.w.worker && c.w.machine == b.w.machine && (c.w.sensor == b.w.sensor || c.w.sensor.Quiet?)
  {
    if !b.s.lock.HeldBySubmitter? {
      moves := [];
    } else {
      var id := b.s.lock.id;
      match b.s.submitters[id] {
        case Locked(item) =>
          assert item in Executor.InHand(b.s);
          moves := EmplaceAndRelease(b, id, if item.NotifyHeaterTask? then SensorEnqueue else Submit(item));
        case _ =>
          moves := CountAndRelease(b, id);
      }
    }
  }

  /**
    No deadlock between a task that waits in `unregisterCallback` and the callback that queues its
    notification: from every reachable state in which they do, whoever holds the queue's lock, at most
    seven moves without one of the worker end the callback; then the task can go on.
   */
  lemma CallbackReturns(b: Both, before: seq<Move>, thread: nat) returns (moves: seq<Move>)
    requires InitialBoth(b) && ValidMoves(b, before)
    requires RunMoves(b, before).w.worker.Started? && RunMoves(b, before).w.sensor.Stored?
    ensures ValidMoves(RunMoves(b, before), moves) && WorkerStands(moves) && |moves| <= 7
    ensures var c := RunMoves(b, before);
            var d := RunMoves(c, moves);
            && d.w.worker == c.w.worker && d.s.worker == c.s.worker && d.s.lock == Executor.Free && d.w.sensor.Quiet?
            && forall temperature, ms, writable :: May(d, Step(Execute(temperature, ms, writable)))
  {
    ReachableBoth(b, before);
    var c := RunMoves(b, before);
    moves := HolderFinishesBoth(c);
    var d := RunMoves(c, moves);
    if d.w.sensor.Stored? {
      MovesKeepBoth(c, moves);
      var submit := SubmitBoth(d, thread, NotifyHeaterTask(d.w.sensor.status), SensorEnqueue);
      MovesAppend(c, moves, submit);
      moves := moves + submit;
    }
  }

  // ---------------------------------------------------------------- every run is served

  /** With a task listed the worker reaches the invocation, by itself. */
  lemma {:induction false} WorkerReachesTask(b: Both) returns (moves: seq<Move>)
    requires BothInv(b) && b.w.worker.Idle? && b.w.queue != [] && |b.w.queue| < WORD
    requires b.s.submitters == map[] && !b.s.lock.HeldBySubmitter? && !b.s.stop
    ensures ValidMoves(b, moves) && DispatcherActs(moves) == []
    ensures var c := RunMoves(b, moves);
            && c.w == b.w && c.s.worker.Invoking? && c.s.submitters == map[] && !c.s.stop && c.s.lock == Executor.Free
    decreases Executor.Remaining(b.s)
  {
    if b.s.worker.Invoking? {
      moves := [];
    } else {
      TaskLetsWorkerOn(b);
      var m := Instruct(Executor.Work);
      MoveKeepsBoth(b, m);
      Executor.WorkDecreasesRemaining(b.s);
      var rest := WorkerReachesTask(Next(b, m));
      MovesCons(b, m, rest);
      moves := [m] + rest;
      assert moves[1..] == rest && [] + DispatcherActs(rest) == DispatcherActs(rest);
    }
  }

  lemma TaskLetsWorkerOn(b: Both)
    requires BothInv(b) && b.w.worker.Idle? && b.w.queue != [] && |b.w.queue| < WORD
    requires b.s.submitters == map[] && !b.s.lock.HeldBySubmitter? && !b.s.stop && !b.s.worker.Invoking?
    ensures May(b, Instruct(Executor.Work)) && !Executor.Apply(b.s, Executor.Work).stop
    ensures var t := Executor.Apply(b.s, Executor.Work);
            t.submitters == map[] && !t.lock.HeldBySubmitter?
  {
    assert |b.s.shared| <= |b.w.queue|;
    if b.s.worker.Waiting? {
      assert b.s.local + b.s.shared == b.w.queue;
      assert b.s.counter == |b.s.shared|;
    }
  }

  /** One step of the dispatcher is served: as it is, inside a submission, or at the next invocation. */
  lemma ServeStep(b: Both, a: Action) returns (moves: seq<Move>)
    requires BothInv(b) && Enabled(b.w, a) && |b.w.queue| < WORD && Unlocked(b.s) && !b.s.stop
    ensures ValidMoves(b, moves) && DispatcherActs(moves) == [a]
    ensures var c := RunMoves(b, moves);
            c.w == Apply(b.w, a) && Unlocked(c.s) && !c.s.stop
  {
    match QueueLabel(b.w, a) {
      case Stutter =>
        MovesCons(b, Step(a), []);
        moves := [Step(a)] + [];
      case Enqueue(task) =>
        moves := SubmitBoth(b, 0, task, a);
      case Dequeue =>
        moves := WorkerReachesTask(b);
        var c := RunMoves(b, moves);
        MovesKeepBoth(b, moves);
        var m := Joint(Executor.Work, a);
        MovesCons(c, m, []);
        MovesAppend(b, moves, [m] + []);
        ActsAppend(moves, [m] + []);
        moves := moves + ([m] + []);
    }
  }

  lemma AppendLater(head: seq<Action>, front: seq<Action>, back: seq<Action>)
    ensures head + (front + back) == head + front + back
  {
  }

  lemma {:induction false} ActsAppend(first: seq<Move>, second: seq<Move>)
    ensures DispatcherActs(first + second) == DispatcherActs(first) + DispatcherActs(second)
  {
    if first == [] {
      assert first + second == second;
    } else {
      var rest := first[1..];
      ActsAppend(rest, second);
      assert (first + second)[1..] == rest + second && (first + second)[0] == first[0];
      AppendLater(DispatcherAct(first[0]), DispatcherActs(rest), DispatcherActs(second));
    }
  }

  /**
    Every run of the dispatcher, shorter than the counter is wide, is the dispatcher's part of a run of
    both: what is proved of the dispatcher's runs is not about runs the executor could not serve.
   */
  lemma EveryRunIsServed(w: World, acts: seq<Action>) returns (moves: seq<Move>)
    requires InitialWorld(w) && ValidRun(w, acts) && |acts| < WORD
    ensures ValidMoves(Both(Executor.Init(), w), moves) && DispatcherActs(moves) == acts
    ensures RunMoves(Both(Executor.Init(), w), moves).w == Run(w, acts)
  {
    var b := Both(Executor.Init(), w);
    ReachableBoth(b, []);
    moves := ServeRun(b, acts);
    PartsAreRuns(b, moves);
  }

  lemma {:induction false} ServeRun(b: Both, acts: seq<Action>) returns (moves: seq<Move>)
    requires BothInv(b) && ValidRun(b.w, acts) && |b.w.queue| + |acts| < WORD && Unlocked(b.s) && !b.s.stop
    ensures ValidMoves(b, moves) && DispatcherActs(moves) == acts
    decreases |acts|
  {
    if acts == [] {
      moves := [];
    } else {
      var first := ServeStep(b, acts[0]);
      var c := RunMoves(b, first);
      MovesKeepBoth(b, first);
      DispatcherRefinesFifo(b.w, acts[0]);
      assert |c.w.queue| <= |b.w.queue| + 1;
      var rest := ServeRun(c, acts[1..]);
      MovesAppend(b, first, rest);
      ActsAppend(first, rest);
      moves := first + rest;
      assert [acts[0]] + acts[1..] == acts;
    }
  }
}
