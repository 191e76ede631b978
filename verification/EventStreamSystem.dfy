/**
  The per-client event stream as a small-step system: threads pushing events, the write worker, the
  stream that completes writes and the cancellation, interleaved under sequential consistency.
  Unlike the executor, the counter is adjusted outside the lock, so it may lag the list or wrap.
 */
module EventStreamSystem {
  import opened Options
  import opened Words

  datatype Lock = Free | HeldByPusher(id: nat) | HeldByWorker

  /** A thread inside `pushEvent`; `index` is the position its event got in the push order. */
  datatype PusherPc<E> = Locked(event: E) | Pushed(index: nat) | Uncounted(index: nat)

  datatype WorkerPc =
    | LoopTop | Waiting | Locking | Splicing | Unlocking | Subtracting | Checking
    | Storing | Starting | Awaiting | Examining | Popping | Finishing | Finished

  datatype WriteStatus = Idle | InProgress | Failed

  /**
    `outstanding` is the event the stream is writing. `pushed`, `popped` and `completed` are logs;
    `drained` is |pushed| when the last splice found nothing; `passCancels` and `passLate` are the
    cancellations and the late pushes (event already taken, not counted) at the last passed wait.
   */
  datatype State<E> = State(
    lock: Lock,
    pushers: map<nat, PusherPc<E>>,
    shared: seq<E>,
    counter: nat,
    cancels: nat,
    worker: WorkerPc,
    local: seq<E>,
    writeStatus: WriteStatus,
    outstanding: Option<E>,
    pushed: seq<E>,
    popped: seq<E>,
    completed: seq<E>,
    drained: nat,
    passCancels: nat,
    passLate: set<nat>)

  datatype Action<E> =
    | Acquire(id: nat, event: E)  // scoped_lock of pushEvent
    | Push(id: nat)               // m_eventsQueue.push_back
    | Release(id: nat)            // end of the scope
    | Count(id: nat)              // m_queueSize.fetch_add(1), outside the lock
    | Cancel                      // OnCancel
    | WriteDone(ok: bool)         // OnWriteDone
    | Work                        // the worker's next instruction

  function Init<E>(): State<E> {
    State(Free, map[], [], 0, 0, LoopTop, [], Idle, None, [], [], [], 0, 0, {})
  }

  /** The threads whose event is in the list or taken from it, but not yet counted. */
  function Late<E>(s: State<E>): set<nat> {
    set id | id in s.pushers && !s.pushers[id].Locked?
  }

  /** Those of them whose event the worker already took. */
  function LateTaken<E>(s: State<E>): set<nat> {
    set id | id in s.pushers && !s.pushers[id].Locked? && s.pushers[id].index + |s.shared| < |s.pushed|
  }

  predicate WorkEnabled<E>(s: State<E>) {
    match s.worker
    case Waiting => s.counter != 0
    case Locking => s.lock == Free
    case Awaiting => s.writeStatus != InProgress
    case Finished => false
    case _ => true
  }

  predicate Enabled<E>(s: State<E>, a: Action<E>) {
    match a
    case Acquire(id, event) => s.lock == Free && id !in s.pushers
    case Push(id) => id in s.pushers && s.pushers[id].Locked?
    case Release(id) => id in s.pushers && s.pushers[id].Pushed?
    case Count(id) => id in s.pushers && s.pushers[id].Uncounted?
    case Cancel => true
    case WriteDone(ok) => s.outstanding.Some?
    case Work => WorkEnabled(s)
  }

  function WorkStep<E(==)>(s: State<E>): State<E>
    requires WorkEnabled(s)
  {
    match s.worker
    case LoopTop => s.(worker := if s.local == [] then Waiting else Storing)
    case Waiting => s.(worker := Locking, passCancels := s.cancels, passLate := LateTaken(s))
    case Locking => s.(worker := Splicing, lock := HeldByWorker)
    case Splicing =>
      s.(worker := Unlocking, local := s.shared + s.local, shared := [],
         drained := if s.shared + s.local == [] then |s.pushed| else s.drained)
    case Unlocking => s.(worker := Subtracting, lock := Free)
    case Subtracting => s.(worker := Checking, counter := FetchSub(s.counter, |s.local|))
    case Checking => s.(worker := if s.local == [] then Finishing else Storing)
    case Storing => s.(worker := Starting, writeStatus := InProgress)
    case Starting =>
      s.(worker := Awaiting, outstanding := if s.local == [] then None else Some(s.local[0]))
    case Awaiting => s.(worker := Examining)
    case Examining => s.(worker := if s.writeStatus == Failed then Finishing else Popping)
    case Popping =>
      if s.local == [] then s else
      s.(worker := LoopTop, popped := s.popped + [s.local[0]], local := s.local[1..])
    case Finishing => s.(worker := Finished)
  }

  function Apply<E(==)>(s: State<E>, a: Action<E>): State<E>
    requires Enabled(s, a)
  {
    match a
    case Acquire(id, event) => s.(lock := HeldByPusher(id), pushers := s.pushers[id := Locked(event)])
    case Push(id) =>
      var event := s.pushers[id].event;
      s.(shared := s.shared + [event], pushed := s.pushed + [event],
         pushers := s.pushers[id := Pushed(|s.pushed|)])
    case Release(id) => s.(lock := Free, pushers := s.pushers[id := Uncounted(s.pushers[id].index)])
    case Count(id) => s.(counter := FetchAdd(s.counter, 1), pushers := s.pushers - {id})
    case Cancel => s.(counter := FetchAdd(s.counter, 1), cancels := s.cancels + 1)
    case WriteDone(ok) =>
      s.(outstanding := None, writeStatus := if ok then Idle else Failed,
         completed := s.completed + if ok then [s.outstanding.value] else [])
    case Work => WorkStep(s)
  }

  predicate ValidRun<E(==)>(s: State<E>, acts: seq<Action<E>>)
    decreases |acts|
  {
    acts == [] || (Enabled(s, acts[0]) && ValidRun(Apply(s, acts[0]), acts[1..]))
  }

  function Run<E(==)>(s: State<E>, acts: seq<Action<E>>): State<E>
    requires ValidRun(s, acts)
    decreases |acts|
  {
    if acts == [] then s else Run(Apply(s, acts[0]), acts[1..])
  }

  lemma RunCons<E>(s: State<E>, a: Action<E>, rest: seq<Action<E>>)
    requires Enabled(s, a) && ValidRun(Apply(s, a), rest)
    ensures ValidRun(s, [a] + rest) && Run(s, [a] + rest) == Run(Apply(s, a), rest)
  {
    assert ([a] + rest)[1..] == rest;
  }

  lemma {:induction false} RunAppend<E>(s: State<E>, first: seq<Action<E>>, second: seq<Action<E>>)
    requires ValidRun(s, first) && ValidRun(Run(s, first), second)
    ensures ValidRun(s, first + second) && Run(s, first + second) == Run(Run(s, first), second)
    decreases |first|
  {
    if first == [] {
      assert first + second == second;
    } else {
      RunAppend(Apply(s, first[0]), first[1..], second);
      RunCons(s, first[0], first[1..] + second);
      assert [first[0]] + (first[1..] + second) == first + second;
    }
  }

  // ---------------------------------------------------------------- the invariant

  ghost predicate LockInv<E>(s: State<E>) {
    && (forall id :: id in s.pushers && !s.pushers[id].Uncounted? ==> s.lock == HeldByPusher(id))
    && (s.lock.HeldByPusher? ==> s.lock.id in s.pushers && !s.pushers[s.lock.id].Uncounted?)
    && (s.lock.HeldByWorker? <==> s.worker in {Splicing, Unlocking})
  }

  ghost predicate OrderInv<E>(s: State<E>) {
    && s.popped + s.local + s.shared == s.pushed
    && (forall id :: id in s.pushers && !s.pushers[id].Locked? ==> s.pushers[id].index < |s.pushed|)
  }

  /** The event at the head was written with success but is still in the local list. */
  predicate Written<E>(s: State<E>) {
    && s.local != []
    && s.worker in {Awaiting, Examining, Popping}
    && s.outstanding.None?
    && s.writeStatus == Idle
  }

  ghost predicate WriteInv<E>(s: State<E>) {
    && (s.outstanding.Some? ==>
          s.worker.Awaiting? && s.writeStatus == InProgress && s.local != [] && s.outstanding.value == s.local[0])
    && (s.worker.Awaiting? && s.outstanding.None? ==> s.writeStatus != InProgress)
    && (s.worker.Starting? ==> s.writeStatus == InProgress)
    && (s.worker.Examining? ==> s.writeStatus != InProgress)
    && (s.worker.Popping? ==> s.writeStatus == Idle)
    && s.completed == s.popped + (if Written(s) then [s.local[0]] else [])
  }

  ghost predicate PassCause<E>(s: State<E>) {
    s.passCancels > 0 || s.passLate != {}
  }

  ghost predicate WorkerInv<E>(s: State<E>) {
    && (s.worker in {Waiting, Locking, Splicing} ==> s.local == [])
    && (s.worker in {Storing, Starting, Awaiting, Examining, Popping} ==> s.local != [])
    && (s.worker.Unlocking? ==> s.shared == [])
    && s.passCancels <= s.cancels
    && (s.worker in {Locking, Splicing} && s.shared == [] ==> PassCause(s))
    && (s.worker in {Unlocking, Subtracting, Checking} && s.local == [] ==>
          PassCause(s) && s.drained == |s.popped|)
    && (s.worker in {Finishing, Finished} ==>
          if s.local == [] then PassCause(s) && s.drained == |s.popped| else s.writeStatus == Failed)
  }

  /** counter + uncounted pushes = listed events + spliced but not subtracted ones + cancellations. */
  function Balance<E>(s: State<E>): int {
    |s.shared| + (if s.worker in {Unlocking, Subtracting} then |s.local| else 0) + s.cancels - |Late(s)|
  }

  ghost predicate Inv<E>(s: State<E>) {
    LockInv(s) && OrderInv(s) && WriteInv(s) && WorkerInv(s) && s.counter == Balance(s) % WORD
  }

  lemma WorkKeepsOrder<E>(s: State<E>)
    requires OrderInv(s) && WorkerInv(s) && WorkEnabled(s)
    ensures OrderInv(WorkStep(s))
  {
    match s.worker
    case Popping =>
      assert s.local == [s.local[0]] + s.local[1..];
      assert s.popped + s.local == s.popped + [s.local[0]] + s.local[1..];
    case Splicing =>
      assert s.shared + s.local + [] == s.local + s.shared;
    case _ =>
  }

  /** The wait is passed with nothing listed only after a cancellation or over a late push. */
  lemma EmptyPassHasCause<E>(s: State<E>)
    requires Inv(s) && s.worker.Waiting? && s.counter != 0 && s.shared == []
    ensures s.cancels > 0 || LateTaken(s) != {}
  {
    assert LateTaken(s) == Late(s);
    assert Balance(s) == s.cancels - |LateTaken(s)|;
  }

  lemma WorkKeepsWrites<E>(s: State<E>)
    requires WriteInv(s) && WorkerInv(s) && WorkEnabled(s)
    ensures WriteInv(WorkStep(s))
  {
  }

  lemma WorkKeepsBalance<E>(s: State<E>)
    requires WorkerInv(s) && WorkEnabled(s) && s.counter == Balance(s) % WORD
    ensures WorkStep(s).counter == Balance(WorkStep(s)) % WORD
  {
    var t := WorkStep(s);
    assert Late(t) == Late(s);
    if s.worker.Subtracting? {
      CountOff(Balance(s), |s.local|);
      assert Balance(t) == Balance(s) - |s.local|;
    } else {
      assert Balance(t) == Balance(s);
    }
  }

  lemma WorkKeepsWorker<E>(s: State<E>)
    requires Inv(s) && WorkEnabled(s)
    ensures WorkerInv(WorkStep(s))
  {
    match s.worker
    case Waiting =>
      if s.shared == [] {
        EmptyPassHasCause(s);
      }
    case Splicing =>
      assert s.shared + s.local == s.shared;
      assert s.popped + [] + s.shared == s.pushed;
    case _ =>
  }

  lemma WorkKeepsInv<E>(s: State<E>)
    requires Inv(s) && WorkEnabled(s)
    ensures Inv(WorkStep(s))
  {
    WorkKeepsOrder(s);
    WorkKeepsWrites(s);
    WorkKeepsBalance(s);
    WorkKeepsWorker(s);
  }

  lemma PushKeepsInv<E>(s: State<E>, id: nat)
    requires Inv(s) && Enabled(s, Push(id))
    ensures Inv(Apply(s, Push(id)))
  {
    var t := Apply(s, Push(id));
    var event := s.pushers[id].event;
    assert Late(t) == Late(s) + {id} && id !in Late(s);
    assert s.popped + s.local + (s.shared + [event]) == (s.popped + s.local + s.shared) + [event];
  }

  lemma CountChangesLate<E>(s: State<E>, id: nat)
    requires Enabled(s, Count(id))
    ensures |Late(s)| == |Late(Apply(s, Count(id)))| + 1
  {
    var rest := Late(Apply(s, Count(id)));
    assert Late(s) == rest + {id} && id !in rest;
  }

  lemma CountKeepsInv<E>(s: State<E>, id: nat)
    requires Inv(s) && Enabled(s, Count(id))
    ensures Inv(Apply(s, Count(id)))
  {
    CountChangesLate(s, id);
    CountOne(Balance(s));
    assert Balance(Apply(s, Count(id))) == Balance(s) + 1;
  }

  lemma LockStepKeepsInv<E>(s: State<E>, a: Action<E>)
    requires Inv(s) && Enabled(s, a) && (a.Acquire? || a.Release?)
    ensures Inv(Apply(s, a))
  {
    assert Late(Apply(s, a)) == Late(s);
  }

  lemma CancelKeepsInv<E>(s: State<E>)
    requires Inv(s)
    ensures Inv(Apply(s, Cancel))
  {
    assert Late(Apply(s, Cancel)) == Late(s);
    CountOne(Balance(s));
  }

  lemma WriteDoneKeepsInv<E>(s: State<E>, ok: bool)
    requires Inv(s) && s.outstanding.Some?
    ensures Inv(Apply(s, WriteDone(ok)))
  {
    assert Late(Apply(s, WriteDone(ok))) == Late(s);
  }

  lemma StepKeepsInv<E>(s: State<E>, a: Action<E>)
    requires Inv(s) && Enabled(s, a)
    ensures Inv(Apply(s, a))
  {
    match a
    case Work => WorkKeepsInv(s);
    case Push(id) => PushKeepsInv(s, id);
    case Count(id) => CountKeepsInv(s, id);
    case Acquire(_, _) => LockStepKeepsInv(s, a);
    case Release(_) => LockStepKeepsInv(s, a);
    case Cancel => CancelKeepsInv(s);
    case WriteDone(ok) => WriteDoneKeepsInv(s, ok);
  }

  lemma {:induction false} RunKeepsInv<E>(s: State<E>, acts: seq<Action<E>>)
    requires Inv(s) && ValidRun(s, acts)
    ensures Inv(Run(s, acts))
    decreases |acts|
  {
    if acts != [] {
      StepKeepsInv(s, acts[0]);
      RunKeepsInv(Apply(s, acts[0]), acts[1..]);
    }
  }

  lemma Reachable<E>(acts: seq<Action<E>>)
    requires ValidRun(Init<E>(), acts)
    ensures Inv(Run(Init<E>(), acts))
  {
    assert Late(Init<E>()) == {};
    RunKeepsInv(Init<E>(), acts);
  }

  // ---------------------------------------------------------------- counter

  /** In every interleaving the counter balances lists, late pushes and cancellations, modulo its width. */
  lemma CounterBalance<E>(acts: seq<Action<E>>)
    requires ValidRun(Init<E>(), acts)
    ensures var s := Run(Init<E>(), acts);
            && s.counter < WORD
            && (s.counter + |Late(s)|) % WORD ==
               (|s.shared| + (if s.worker in {Unlocking, Subtracting} then |s.local| else 0) + s.cancels) % WORD
  {
    Reachable(acts);
  }

  /** A listed event with every push counted always lets the waiting worker through. */
  lemma NoStuckEvent<E>(acts: seq<Action<E>>)
    requires ValidRun(Init<E>(), acts)
    ensures var s := Run(Init<E>(), acts);
            s.worker.Waiting? && Late(s) == {} && |s.shared| + s.cancels < WORD ==>
              (WorkEnabled(s) <==> s.shared != [] || s.cancels > 0)
  {
    Reachable(acts);
  }

  /** The worker does not pass its wait in the run. */
  predicate NoPass<E(==)>(s: State<E>, acts: seq<Action<E>>)
    requires ValidRun(s, acts)
    decreases |acts|
  {
    acts == [] || (!(acts[0].Work? && s.worker.Waiting?) && NoPass(Apply(s, acts[0]), acts[1..]))
  }

  lemma {:induction false} NoPassKeepsCause<E>(s: State<E>, acts: seq<Action<E>>)
    requires Inv(s) && ValidRun(s, acts) && NoPass(s, acts)
    ensures Inv(Run(s, acts))
    ensures Run(s, acts).passCancels == s.passCancels && Run(s, acts).passLate == s.passLate
    decreases |acts|
  {
    if acts != [] {
      StepKeepsInv(s, acts[0]);
      NoPassKeepsCause(Apply(s, acts[0]), acts[1..]);
    }
  }

  /**
    If the worker splices nothing, then as it passed its last wait a cancellation had come, or a push
    whose event it had already taken was not counted yet.
   */
  lemma EmptySpliceHasCause<E>(before: seq<Action<E>>, after: seq<Action<E>>)
    requires ValidRun(Init<E>(), before)
    requires Run(Init<E>(), before).worker.Waiting? && WorkEnabled(Run(Init<E>(), before))
    requires ValidRun(WorkStep(Run(Init<E>(), before)), after) && NoPass(WorkStep(Run(Init<E>(), before)), after)
    requires var t := Run(WorkStep(Run(Init<E>(), before)), after);
             t.worker.Checking? && t.local == []
    ensures var s := Run(Init<E>(), before);
            s.cancels > 0 || LateTaken(s) != {}
  {
    Reachable(before);
    var s := Run(Init<E>(), before);
    WorkKeepsInv(s);
    NoPassKeepsCause(WorkStep(s), after);
  }

  /**
    Without a cancellation the worker must sleep when all events are taken. It does so exactly when
    no push is late: one late push is enough to make it go on and, finding nothing, end the stream.
   */
  lemma IdleWorkerSleepsExactlyWhenCounted<E>(acts: seq<Action<E>>)
    requires ValidRun(Init<E>(), acts)
    ensures var s := Run(Init<E>(), acts);
            s.worker.Waiting? && s.shared == [] && s.cancels == 0 && |Late(s)| < WORD ==>
              (!WorkEnabled(s) <==> LateTaken(s) == {})
  {
    Reachable(acts);
    var s := Run(Init<E>(), acts);
    if s.worker.Waiting? && s.shared == [] && s.cancels == 0 && |Late(s)| < WORD {
      assert LateTaken(s) == Late(s);
      if Late(s) != {} {
        assert |Late(s)| > 0;
        assert Balance(s) == -|Late(s)|;
        assert (-|Late(s)|) % WORD == WORD - |Late(s)|;
      }
    }
  }

  function WorkSteps<E(==)>(n: nat): seq<Action<E>> {
    if n == 0 then [] else [Work] + WorkSteps(n - 1)
  }

  /** Past the wait with the lock free, six steps take what is listed. */
  lemma TakeIsARun<E>(s: State<E>)
    requires s.worker.Waiting? && s.local == [] && s.lock == Free && s.counter != 0
    ensures ValidRun(s, WorkSteps(6))
    ensures Run(s, WorkSteps(6)) ==
            s.(worker := if s.shared == [] then Finishing else Storing, local := s.shared, shared := [],
               counter := FetchSub(s.counter, |s.shared|), passCancels := s.cancels, passLate := LateTaken(s),
               drained := if s.shared == [] then |s.pushed| else s.drained)
  {
    var s1 := WorkStep(s);
    var s2 := WorkStep(s1);
    var s3 := WorkStep(s2);
    assert s.shared + [] == s.shared && s3.local == s.shared;
    var s4 := WorkStep(s3);
    var s5 := WorkStep(s4);
    RunCons(s5, Work, WorkSteps(0));
    RunCons(s4, Work, WorkSteps(1));
    RunCons(s3, Work, WorkSteps(2));
    RunCons(s2, Work, WorkSteps(3));
    RunCons(s1, Work, WorkSteps(4));
    RunCons(s, Work, WorkSteps(5));
  }

  /** From such a state the worker alone ends the stream, although nothing failed and nobody cancelled. */
  lemma LatePushEndsStream<E>(s: State<E>)
    requires Inv(s) && s.worker.Waiting? && s.lock == Free && s.shared == [] && s.counter != 0
    ensures ValidRun(s, WorkSteps(6) + WorkSteps(1))
    ensures var t := Run(s, WorkSteps(6) + WorkSteps(1));
            && t.worker.Finished? && t.pushers == s.pushers && t.cancels == s.cancels
            && t.completed == s.completed && t.writeStatus == s.writeStatus
  {
    TakeIsARun(s);
    var t := Run(s, WorkSteps(6));
    RunCons(t, Work, WorkSteps(0));
    RunAppend(s, WorkSteps(6), WorkSteps(1));
  }

  // ---------------------------------------------------------------- a stream that ends by itself

  /** Two events listed, the second one not counted yet. */
  const TWO_LISTED: State<int> :=
    State(Free, map[1 := Uncounted(1)], [10, 20], 1, 0, LoopTop, [], Idle, None, [10, 20], [], [], 0, 0, {})

  /** Both spliced and subtracted: the counter has wrapped below zero. */
  const BOTH_TAKEN: State<int> :=
    State(Free, map[1 := Uncounted(1)], [], WORD - 1, 0, Storing, [10, 20], Idle, None, [10, 20], [], [], 0, 0, {})

  const ONE_WRITTEN: State<int> :=
    BOTH_TAKEN.(local := [20], popped := [10], completed := [10])

  const BOTH_WRITTEN: State<int> :=
    BOTH_TAKEN.(worker := Waiting, local := [], popped := [10, 20], completed := [10, 20])

  lemma PushTwo() returns (acts: seq<Action<int>>)
    ensures ValidRun(Init<int>(), acts) && Run(Init<int>(), acts) == TWO_LISTED
  {
    var s1 := Apply(Init<int>(), Acquire(0, 10));
    var s2 := Apply(s1, Push(0));
    var s3 := Apply(s2, Release(0));
    var s4 := Apply(s3, Count(0));
    var s5 := Apply(s4, Acquire(1, 20));
    var s6 := Apply(s5, Push(1));
    var s7 := Apply(s6, Release(1));
    assert s4.pushers == map[];
    assert s7.pushers == map[1 := Uncounted(1)];
    assert s7 == TWO_LISTED;
    acts := [Release(1)];
    RunCons(s6, Release(1), []);
    RunCons(s5, Push(1), acts);
    acts := [Push(1)] + acts;
    RunCons(s4, Acquire(1, 20), acts);
    acts := [Acquire(1, 20)] + acts;
    RunCons(s3, Count(0), acts);
    acts := [Count(0)] + acts;
    RunCons(s2, Release(0), acts);
    acts := [Release(0)] + acts;
    RunCons(s1, Push(0), acts);
    acts := [Push(0)] + acts;
    RunCons(Init<int>(), Acquire(0, 10), acts);
    acts := [Acquire(0, 10)] + acts;
  }

  lemma TakeBoth()
    ensures ValidRun(TWO_LISTED, WorkSteps(7)) && Run(TWO_LISTED, WorkSteps(7)) == BOTH_TAKEN
  {
    var s1 := WorkStep(TWO_LISTED);
    var s2 := WorkStep(s1);
    var s3 := WorkStep(s2);
    var s4 := WorkStep(s3);
    var s5 := WorkStep(s4);
    var s6 := WorkStep(s5);
    var s7 := WorkStep(s6);
    assert LateTaken(s1) == {};
    assert s4.local == [10, 20];
    assert s7 == BOTH_TAKEN;
    RunCons(s6, Work, WorkSteps(0));
    RunCons(s5, Work, WorkSteps(1));
    RunCons(s4, Work, WorkSteps(2));
    RunCons(s3, Work, WorkSteps(3));
    RunCons(s2, Work, WorkSteps(4));
    RunCons(s1, Work, WorkSteps(5));
    RunCons(TWO_LISTED, Work, WorkSteps(6));
  }

  /** One write that succeeds: store, start, completion, wake-up, test, pop, loop. */
  const ONE_WRITE: seq<Action<int>> := WorkSteps(2) + ([WriteDone(true)] + WorkSteps(4))

  lemma WriteOne(s: State<int>)
    requires s.worker.Storing? && s.local != [] && s.outstanding.None?
    ensures ValidRun(s, ONE_WRITE)
    ensures Run(s, ONE_WRITE) ==
            s.(worker := if |s.local| == 1 then Waiting else Storing, writeStatus := Idle, local := s.local[1..],
               popped := s.popped + [s.local[0]], completed := s.completed + [s.local[0]])
  {
    var s1 := WorkStep(s);
    var s2 := WorkStep(s1);
    var s3 := Apply(s2, WriteDone(true));
    var s4 := WorkStep(s3);
    var s5 := WorkStep(s4);
    var s6 := WorkStep(s5);
    var s7 := WorkStep(s6);
    RunCons(s6, Work, WorkSteps(0));
    RunCons(s5, Work, WorkSteps(1));
    RunCons(s4, Work, WorkSteps(2));
    RunCons(s3, Work, WorkSteps(3));
    RunCons(s2, WriteDone(true), WorkSteps(4));
    RunCons(s1, Work, WorkSteps(0));
    RunCons(s, Work, WorkSteps(1));
    RunAppend(s, WorkSteps(2), [WriteDone(true)] + WorkSteps(4));
  }

  lemma WriteBoth()
    ensures ValidRun(BOTH_TAKEN, ONE_WRITE) && Run(BOTH_TAKEN, ONE_WRITE) == ONE_WRITTEN
    ensures ValidRun(ONE_WRITTEN, ONE_WRITE) && Run(ONE_WRITTEN, ONE_WRITE) == BOTH_WRITTEN
  {
    WriteOne(BOTH_TAKEN);
    assert BOTH_TAKEN.local[1..] == [20];
    WriteOne(ONE_WRITTEN);
    assert ONE_WRITTEN.local[1..] == [] && [10] + [20] == [10, 20];
  }

  lemma BothWrittenIsReachable() returns (acts: seq<Action<int>>)
    ensures ValidRun(Init<int>(), acts) && Run(Init<int>(), acts) == BOTH_WRITTEN
  {
    acts := PushTwo();
    TakeBoth();
    WriteBoth();
    RunAppend(Init<int>(), acts, WorkSteps(7));
    acts := acts + WorkSteps(7);
    RunAppend(Init<int>(), acts, ONE_WRITE);
    acts := acts + ONE_WRITE;
    RunAppend(Init<int>(), acts, ONE_WRITE);
    acts := acts + ONE_WRITE;
  }

  /** A reachable run ends the stream with no cancellation and no failed write, before the second push is counted. */
  lemma StreamEndsUncancelled() returns (acts: seq<Action<int>>)
    ensures ValidRun(Init<int>(), acts)
    ensures var s := Run(Init<int>(), acts);
            s.worker.Finished? && s.cancels == 0 && s.completed == [10, 20] && s.writeStatus == Idle && Late(s) == {1}
  {
    acts := BothWrittenIsReachable();
    Reachable(acts);
    LatePushEndsStream(BOTH_WRITTEN);
    RunAppend(Init<int>(), acts, WorkSteps(6) + WorkSteps(1));
    acts := acts + (WorkSteps(6) + WorkSteps(1));
  }

  // ---------------------------------------------------------------- ordered writes

  /** What the stream completed is a prefix of what was pushed; the only write in progress is the next event. */
  lemma WritesInOrder<E>(acts: seq<Action<E>>)
    requires ValidRun(Init<E>(), acts)
    ensures var s := Run(Init<E>(), acts);
            && s.completed <= s.pushed
            && (s.outstanding.Some? ==>
                  && |s.completed| < |s.pushed| && s.outstanding.value == s.pushed[|s.completed|]
                  && s.local != [] && s.local[0] == s.outstanding.value
                  && !WorkEnabled(s))
            && (s.worker.Starting? ==> s.outstanding.None?)
  {
    Reachable(acts);
    var s := Run(Init<E>(), acts);
    assert s.popped + s.local + s.shared == s.pushed;
    if s.local != [] {
      assert s.pushed[|s.popped|] == s.local[0];
    }
  }

  /** The head of the local list does not move between StartWrite and OnWriteDone. */
  lemma HeadStaysWhileWriting<E>(s: State<E>, a: Action<E>)
    requires Inv(s) && Enabled(s, a) && s.outstanding.Some?
    ensures Apply(s, a).local == s.local
    ensures a.WriteDone? || Apply(s, a).outstanding == s.outstanding
  {
  }

  // ---------------------------------------------------------------- the end of the stream

  function Rank<E>(s: State<E>): nat {
    match s.worker
    case LoopTop => if s.local == [] then 8 else 16
    case Waiting => 7
    case Locking => 6
    case Splicing => 5
    case Unlocking => if s.local == [] then 4 else 18
    case Subtracting => if s.local == [] then 3 else 17
    case Checking => if s.local == [] then 2 else 16
    case Storing => 15
    case Starting => 14
    case Awaiting => if s.outstanding.Some? then 13 else 12
    case Examining => 11
    case Popping => 10
    case Finishing => 1
    case Finished => 0
  }

  function Remaining<E>(s: State<E>): nat {
    21 * |s.shared| + 7 * |s.local| + Rank(s)
  }

  /** Neither pushes nor further cancellations: only the worker and the stream go on. */
  predicate Closing<E>(acts: seq<Action<E>>) {
    forall i :: 0 <= i < |acts| ==> acts[i].Work? || acts[i].WriteDone?
  }

  /** Writes the worker may still start. */
  function WritesLeft<E>(s: State<E>): int {
    if s.worker in {Finishing, Finished} then 0
    else |s.local| + |s.shared| - (if s.worker in {Awaiting, Examining, Popping} then 1 else 0)
  }

  /** StartWrite calls made by a run. */
  function Starts<E(==)>(s: State<E>, acts: seq<Action<E>>): nat
    requires ValidRun(s, acts)
    decreases |acts|
  {
    if acts == [] then 0
    else (if acts[0].Work? && s.worker.Starting? then 1 else 0) + Starts(Apply(s, acts[0]), acts[1..])
  }

  /** The step uses up some of what remains, and a write it starts is one of those left. */
  predicate Closes<E(==)>(s: State<E>, a: Action<E>)
    requires Enabled(s, a)
  {
    var t := Apply(s, a);
    && Remaining(t) < Remaining(s)
    && 0 <= WritesLeft(t) + (if a.Work? && s.worker.Starting? then 1 else 0) <= WritesLeft(s)
    && WritesLeft(t) >= 0
  }

  lemma TakingCloses<E>(s: State<E>)
    requires WorkerInv(s) && WorkEnabled(s) && s.worker in {LoopTop, Waiting, Locking, Splicing}
    ensures Closes(s, Work)
  {
  }

  lemma CountingCloses<E>(s: State<E>)
    requires WorkerInv(s) && s.worker in {Unlocking, Subtracting, Checking, Finishing}
    ensures Closes(s, Work)
  {
  }

  lemma WritingCloses<E>(s: State<E>)
    requires WorkerInv(s) && WriteInv(s) && WorkEnabled(s)
    requires s.worker in {Storing, Starting, Awaiting, Examining, Popping}
    ensures Closes(s, Work)
  {
  }

  lemma WriteDoneCloses<E>(s: State<E>, ok: bool)
    requires WriteInv(s) && s.outstanding.Some?
    ensures Closes(s, WriteDone(ok))
  {
  }

  lemma ClosingStep<E>(s: State<E>, a: Action<E>)
    requires Inv(s) && Enabled(s, a) && (a.Work? || a.WriteDone?)
    ensures Closes(s, a)
  {
    if a.WriteDone? {
      WriteDoneCloses(s, a.ok);
    } else if s.worker in {LoopTop, Waiting, Locking, Splicing} {
      TakingCloses(s);
    } else if s.worker in {Unlocking, Subtracting, Checking, Finishing} {
      CountingCloses(s);
    } else {
      WritingCloses(s);
    }
  }

  /** Every run without pushes is bounded and starts at most one write for each event left. */
  lemma ClosingIsBounded<E>(s: State<E>, acts: seq<Action<E>>)
    requires Inv(s) && Closing(acts) && ValidRun(s, acts)
    ensures |acts| <= Remaining(s)
    ensures Starts(s, acts) <= |s.local| + |s.shared|
  {
    ClosingAccount(s, acts);
  }

  lemma {:induction false} ClosingAccount<E>(s: State<E>, acts: seq<Action<E>>)
    requires Inv(s) && Closing(acts) && ValidRun(s, acts)
    ensures |acts| + Remaining(Run(s, acts)) <= Remaining(s)
    ensures Starts(s, acts) + WritesLeft(Run(s, acts)) <= WritesLeft(s)
    ensures WritesLeft(Run(s, acts)) >= 0
    decreases |acts|
  {
    if acts != [] {
      ClosingStep(s, acts[0]);
      StepKeepsInv(s, acts[0]);
      ClosingAccount(Apply(s, acts[0]), acts[1..]);
    }
  }

  /** Once cancelled and with no push in flight, the worker or the stream can always take a step until the end. */
  lemma CancelledWorkerNeverBlocks<E>(s: State<E>)
    requires Inv(s) && s.cancels > 0 && s.pushers == map[] && !s.worker.Finished?
    requires |s.shared| + s.cancels < WORD
    ensures if s.outstanding.Some? then forall ok: bool :: Enabled(s, WriteDone(ok)) else WorkEnabled(s)
  {
    assert Late(s) == {};
    assert s.worker.Waiting? ==> s.counter == |s.shared| + s.cancels;
  }

  lemma {:induction false} ClosingKeepsQuiet<E>(s: State<E>, acts: seq<Action<E>>)
    requires Inv(s) && Closing(acts) && ValidRun(s, acts)
    ensures var t := Run(s, acts);
            && Inv(t) && t.pushers == s.pushers && t.cancels == s.cancels && |t.shared| <= |s.shared|
            && t.pushed == s.pushed
    decreases |acts|
  {
    if acts != [] {
      StepKeepsInv(s, acts[0]);
      ClosingKeepsQuiet(Apply(s, acts[0]), acts[1..]);
    }
  }

  /** So a run that cannot be continued, whatever the outcomes of its writes, has ended the stream. */
  lemma CancelledStreamEnds<E>(s: State<E>, acts: seq<Action<E>>)
    requires Inv(s) && s.cancels > 0 && s.pushers == map[] && |s.shared| + s.cancels < WORD
    requires Closing(acts) && ValidRun(s, acts)
    requires Run(s, acts).outstanding.None? && !WorkEnabled(Run(s, acts))
    ensures Run(s, acts).worker.Finished?
    ensures |acts| <= Remaining(s) && Starts(s, acts) <= |s.local| + |s.shared|
  {
    ClosingKeepsQuiet(s, acts);
    ClosingIsBounded(s, acts);
    if !Run(s, acts).worker.Finished? {
      CancelledWorkerNeverBlocks(Run(s, acts));
    }
  }

  /** With no cancellation and no push in flight, a worker that cannot go on has nothing left to write. */
  lemma IdleWorkerHasWrittenAll<E>(t: State<E>)
    requires Inv(t) && t.cancels == 0 && t.pushers == map[] && |t.shared| < WORD
    requires t.outstanding.None? && !WorkEnabled(t) && !t.worker.Finished?
    ensures t.worker.Waiting? && t.completed == t.pushed
  {
    assert Late(t) == {};
    assert t.worker.Waiting?;
    assert t.shared == [];
    assert t.popped + [] + [] == t.popped;
  }

  /**
    A stream that nobody cancels, left alone with nothing being pushed, takes a bounded number of steps
    and then has written everything that was pushed and waits for more, or it has ended: after a failed
    write, or because it took an event before the push was counted.
   */
  lemma SettledStreamHasWrittenAll<E>(s: State<E>, acts: seq<Action<E>>)
    requires Inv(s) && s.cancels == 0 && s.pushers == map[] && |s.shared| < WORD
    requires Closing(acts) && ValidRun(s, acts)
    ensures |acts| <= Remaining(s)
    ensures var t := Run(s, acts);
            t.outstanding.None? && !WorkEnabled(t) ==>
              if t.worker.Finished? then t.writeStatus == Failed || t.passLate != {}
              else t.worker.Waiting? && t.completed == t.pushed == s.pushed
  {
    ClosingKeepsQuiet(s, acts);
    ClosingIsBounded(s, acts);
    var t := Run(s, acts);
    if t.outstanding.None? && !WorkEnabled(t) && !t.worker.Finished? {
      IdleWorkerHasWrittenAll(t);
    }
  }

  /** A worker that ended without a failed write has completed all that was pushed before its last splice. */
  lemma EndsAfterAllWrites<E>(acts: seq<Action<E>>)
    requires ValidRun(Init<E>(), acts)
    ensures var s := Run(Init<E>(), acts);
            s.worker.Finished? && s.writeStatus != Failed ==>
              s.drained <= |s.pushed| && s.completed == s.pushed[..s.drained]
  {
    Reachable(acts);
  }
}
