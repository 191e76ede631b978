/**
  The serial executor as a small-step system: any number of submitting threads, the worker thread
  and the destructor's stop request, interleaved one instruction at a time under sequential
  consistency. `wait(0)` is a step that is enabled exactly when the counter is not 0.
 */
module ExecutorSystem {
  import opened Words

  datatype Lock = Free | HeldBySubmitter(id: nat) | HeldByWorker

  /** Where a submitting thread stands inside its critical section; a thread outside it has no entry. */
  datatype SubmitterPc<T> = Locked(item: T) | Queued | Counted

  datatype WorkerPc =
    | LoopTop | Waiting | Locking | Splicing | Subtracting | Unlocking | Checking
    | Invoking | Popping | Exited

  /** `submitted`, `started` and `executed` are logs; `drained` is |submitted| when the last splice found nothing. */
  datatype State<T> = State(
    lock: Lock,
    submitters: map<nat, SubmitterPc<T>>,
    shared: seq<T>,
    counter: nat,
    stop: bool,
    worker: WorkerPc,
    local: seq<T>,
    submitted: seq<T>,
    started: seq<T>,
    executed: seq<T>,
    drained: nat)

  datatype Action<T> =
    | Acquire(id: nat, item: T)  // scoped_lock of a submit function
    | Emplace(id: nat)           // m_queue.emplace_back
    | Count(id: nat)             // m_queueSize.fetch_add(1)
    | Release(id: nat)           // end of the scope
    | RequestStop                // the destructor
    | Work                       // the worker's next instruction

  function Init<T>(): State<T> {
    State(Free, map[], [], 0, false, LoopTop, [], [], [], [], 0)
  }

  predicate WorkEnabled<T(==)>(s: State<T>) {
    match s.worker
    case Waiting => s.counter != 0
    case Locking => s.lock == Free
    case Exited => false
    case _ => true
  }

  predicate Enabled<T(==)>(s: State<T>, a: Action<T>) {
    match a
    case Acquire(id, item) => s.lock == Free && id !in s.submitters
    case Emplace(id) => id in s.submitters && s.submitters[id].Locked?
    case Count(id) => id in s.submitters && s.submitters[id].Queued?
    case Release(id) => id in s.submitters && s.submitters[id].Counted?
    case RequestStop => !s.stop
    case Work => WorkEnabled(s)
  }

  function WorkStep<T(==)>(s: State<T>): State<T>
    requires WorkEnabled(s)
  {
    match s.worker
    case LoopTop => s.(worker := if s.local == [] then Waiting else Invoking)
    case Waiting => s.(worker := Locking)
    case Locking => s.(worker := Splicing, lock := HeldByWorker)
    case Splicing =>
      s.(worker := Subtracting, local := s.shared + s.local, shared := [],
         drained := if s.shared + s.local == [] then |s.submitted| else s.drained)
    case Subtracting => s.(worker := Unlocking, counter := FetchSub(s.counter, |s.local|))
    case Unlocking => s.(worker := Checking, lock := Free)
    case Checking => s.(worker := if s.local == [] then Exited else Invoking)
    case Invoking =>
      s.(worker := Popping, started := s.started + if s.local == [] then [] else [s.local[0]])
    case Popping =>
      if s.local == [] then s else
      s.(worker := LoopTop, executed := s.executed + [s.local[0]], local := s.local[1..])
  }

  function Apply<T(==)>(s: State<T>, a: Action<T>): State<T>
    requires Enabled(s, a)
  {
    match a
    case Acquire(id, item) =>
      s.(lock := HeldBySubmitter(id), submitters := s.submitters[id := Locked(item)])
    case Emplace(id) =>
      var item := s.submitters[id].item;
      s.(shared := s.shared + [item], submitted := s.submitted + [item],
         submitters := s.submitters[id := Queued])
    case Count(id) =>
      s.(counter := FetchAdd(s.counter, 1), submitters := s.submitters[id := Counted])
    case Release(id) => s.(lock := Free, submitters := s.submitters - {id})
    case RequestStop => s.(stop := true, counter := FetchAdd(s.counter, 1))
    case Work => WorkStep(s)
  }

  predicate ValidRun<T(==)>(s: State<T>, acts: seq<Action<T>>)
    decreases |acts|
  {
    acts == [] || (Enabled(s, acts[0]) && ValidRun(Apply(s, acts[0]), acts[1..]))
  }

  function Run<T(==)>(s: State<T>, acts: seq<Action<T>>): State<T>
    requires ValidRun(s, acts)
    decreases |acts|
  {
    if acts == [] then s else Run(Apply(s, acts[0]), acts[1..])
  }

  lemma RunCons<T>(s: State<T>, a: Action<T>, rest: seq<Action<T>>)
    requires Enabled(s, a) && ValidRun(Apply(s, a), rest)
    ensures ValidRun(s, [a] + rest) && Run(s, [a] + rest) == Run(Apply(s, a), rest)
  {
    assert ([a] + rest)[1..] == rest;
  }

  lemma {:induction false} RunAppend<T>(s: State<T>, first: seq<Action<T>>, second: seq<Action<T>>)
    requires ValidRun(s, first) && ValidRun(Run(s, first), second)
    ensures ValidRun(s, first + second) && Run(s, first + second) == Run(Run(s, first), second)
    decreases |first|
  {
    if first == [] {
      assert first + second == second;
    } else {
      RunAppend(Apply(s, first[0]), first[1..], second);
      RunCons(s, first[0], first[1..] + second);
      assert [first[0]] + (first[1..] + second) == first + second;
    }
  }

  // ---------------------------------------------------------------- the invariant

  function Holder<T>(s: State<T>): map<nat, SubmitterPc<T>> {
    if s.lock.HeldBySubmitter? && s.lock.id in s.submitters
    then map[s.lock.id := s.submitters[s.lock.id]] else map[]
  }

  /** Mutual exclusion: a thread is inside the critical section exactly when it holds the lock. */
  ghost predicate LockInv<T>(s: State<T>) {
    && s.submitters == Holder(s)
    && (s.lock.HeldBySubmitter? ==> s.lock.id in s.submitters)
    && (s.lock.HeldByWorker? <==> s.worker in {Splicing, Subtracting, Unlocking})
  }

  function Bit(b: bool): nat {
    if b then 1 else 0
  }

  predicate QueuedNotCounted<T>(s: State<T>) {
    s.lock.HeldBySubmitter? && s.lock.id in s.submitters && s.submitters[s.lock.id].Queued?
  }

  /** The value the counter stands for at every instruction boundary. */
  function Balance<T>(s: State<T>): int {
    |s.shared| + Bit(s.stop)
    + (if s.worker.Subtracting? then |s.local| else 0)
    - Bit(QueuedNotCounted(s))
  }

  ghost predicate OrderInv<T>(s: State<T>) {
    && s.executed + s.local + s.shared == s.submitted
    && s.started == s.executed + (if s.worker.Popping? && s.local != [] then [s.local[0]] else [])
  }

  ghost predicate WorkerInv<T>(s: State<T>) {
    && (s.worker in {Waiting, Locking, Splicing, Exited} ==> s.local == [])
    && (s.worker in {Invoking, Popping} ==> s.local != [])
    && (QueuedNotCounted(s) ==> s.shared != [])
    && (s.worker in {Locking, Splicing} && s.shared == [] ==> s.stop)
    && (s.worker in {Subtracting, Unlocking} ==> s.shared == [])
    && (s.worker in {Subtracting, Unlocking, Checking, Exited} && s.local == [] ==>
          s.stop && s.drained == |s.executed|)
  }

  ghost predicate Inv<T>(s: State<T>) {
    LockInv(s) && OrderInv(s) && WorkerInv(s) && s.counter == Balance(s) % WORD
  }

  lemma WorkKeepsOrder<T>(s: State<T>)
    requires OrderInv(s) && WorkerInv(s) && WorkEnabled(s)
    ensures OrderInv(WorkStep(s))
  {
    match s.worker
    case Popping =>
      assert s.local == [s.local[0]] + s.local[1..];
      assert s.executed + s.local == s.executed + [s.local[0]] + s.local[1..];
    case Splicing =>
      assert s.shared + s.local + [] == s.local + s.shared;
    case _ =>
  }

  lemma WorkKeepsCounter<T>(s: State<T>)
    requires LockInv(s) && WorkerInv(s) && WorkEnabled(s) && s.counter == Balance(s) % WORD
    ensures LockInv(WorkStep(s)) && WorkStep(s).counter == Balance(WorkStep(s)) % WORD
  {
  }

  lemma WorkKeepsWorker<T>(s: State<T>)
    requires Inv(s) && WorkEnabled(s)
    ensures WorkerInv(WorkStep(s))
  {
    match s.worker
    case Waiting =>
      assert s.shared == [] && !s.stop ==> Balance(s) == 0;
    case Splicing =>
      assert s.shared + s.local == s.shared;
      assert s.executed + [] + s.shared == s.submitted;
    case _ =>
  }

  lemma WorkKeepsInv<T>(s: State<T>)
    requires Inv(s) && WorkEnabled(s)
    ensures Inv(WorkStep(s))
  {
    WorkKeepsOrder(s);
    WorkKeepsCounter(s);
    WorkKeepsWorker(s);
  }

  lemma EmplaceKeepsInv<T>(s: State<T>, id: nat)
    requires Inv(s) && Enabled(s, Emplace(id))
    ensures Inv(Apply(s, Emplace(id)))
  {
    var item := s.submitters[id].item;
    assert s.executed + s.local + (s.shared + [item]) == (s.executed + s.local + s.shared) + [item];
  }

  lemma CountKeepsInv<T>(s: State<T>, a: Action<T>)
    requires Inv(s) && Enabled(s, a) && (a.Count? || a.RequestStop?)
    ensures Inv(Apply(s, a))
  {
    assert Balance(Apply(s, a)) == Balance(s) + 1;
    CountOne(Balance(s));
  }

  lemma LockStepKeepsInv<T>(s: State<T>, a: Action<T>)
    requires Inv(s) && Enabled(s, a) && (a.Acquire? || a.Release?)
    ensures Inv(Apply(s, a))
  {
    assert Balance(Apply(s, a)) == Balance(s);
  }

  lemma StepKeepsInv<T>(s: State<T>, a: Action<T>)
    requires Inv(s) && Enabled(s, a)
    ensures Inv(Apply(s, a))
  {
    match a
    case Work => WorkKeepsInv(s);
    case Emplace(id) => EmplaceKeepsInv(s, id);
    case Acquire(_, _) => LockStepKeepsInv(s, a);
    case Release(_) => LockStepKeepsInv(s, a);
    case Count(_) => CountKeepsInv(s, a);
    case RequestStop => CountKeepsInv(s, a);
  }

  lemma {:induction false} RunKeepsInv<T>(s: State<T>, acts: seq<Action<T>>)
    requires Inv(s) && ValidRun(s, acts)
    ensures Inv(Run(s, acts))
    decreases |acts|
  {
    if acts != [] {
      StepKeepsInv(s, acts[0]);
      RunKeepsInv(Apply(s, acts[0]), acts[1..]);
    }
  }

  // ---------------------------------------------------------------- order

  /** The items handed to the submit functions, in the order in which the lock was taken. */
  function LockOrder<T>(acts: seq<Action<T>>): seq<T> {
    if acts == [] then []
    else Acquired(acts[0]) + LockOrder(acts[1..])
  }

  /** The item whose submitter holds the lock but has not put it in the list yet. */
  function InHand<T>(s: State<T>): seq<T> {
    if s.lock.HeldBySubmitter? && s.lock.id in s.submitters && s.submitters[s.lock.id].Locked?
    then [s.submitters[s.lock.id].item] else []
  }

  function Acquired<T>(a: Action<T>): seq<T> {
    if a.Acquire? then [a.item] else []
  }

  lemma StepExtendsOrder<T>(s: State<T>, a: Action<T>)
    requires LockInv(s) && Enabled(s, a)
    ensures Apply(s, a).submitted + InHand(Apply(s, a)) == s.submitted + InHand(s) + Acquired(a)
  {
    match a
    case Emplace(id) =>
      assert InHand(s) == [s.submitters[id].item] && InHand(Apply(s, a)) == [];
    case _ =>
  }

  lemma AppendLater<T>(before: seq<T>, first: seq<T>, later: seq<T>)
    ensures before + first + later == before + (first + later)
  {
  }

  lemma {:induction false} LockOrderIsSubmissionOrder<T>(s: State<T>, acts: seq<Action<T>>)
    requires Inv(s) && ValidRun(s, acts)
    ensures var t := Run(s, acts);
            t.submitted + InHand(t) == s.submitted + InHand(s) + LockOrder(acts)
    decreases |acts|
  {
    if acts == [] {
    } else {
      StepKeepsInv(s, acts[0]);
      StepExtendsOrder(s, acts[0]);
      LockOrderIsSubmissionOrder(Apply(s, acts[0]), acts[1..]);
      AppendLater(s.submitted + InHand(s), Acquired(acts[0]), LockOrder(acts[1..]));
    }
  }

  /** In every interleaving: done ++ local ++ shared is the submission sequence in lock order. */
  lemma ExecutorOrder<T>(acts: seq<Action<T>>)
    requires ValidRun(Init<T>(), acts)
    ensures var s := Run(Init<T>(), acts);
            && s.executed + s.local + s.shared + InHand(s) == LockOrder(acts)
            && s.executed <= s.started <= LockOrder(acts)
            && |s.started| <= |s.executed| + 1
  {
    RunKeepsInv(Init<T>(), acts);
    LockOrderIsSubmissionOrder(Init<T>(), acts);
    LogsArePrefixes(Run(Init<T>(), acts), LockOrder(acts));
  }

  lemma LogsArePrefixes<T>(s: State<T>, all: seq<T>)
    requires OrderInv(s) && s.submitted + InHand(s) == all
    ensures s.executed + s.local + s.shared + InHand(s) == all
    ensures s.executed <= s.started <= all && |s.started| <= |s.executed| + 1
  {
    if s.worker.Popping? && s.local != [] {
      assert all[|s.executed|] == s.local[0];
    }
  }

  // ---------------------------------------------------------------- counter and wake-up

  /** Between critical sections the counter is the list length, plus one once stop was requested. */
  lemma CounterWhenUnlocked<T>(acts: seq<Action<T>>)
    requires ValidRun(Init<T>(), acts)
    ensures var s := Run(Init<T>(), acts);
            s.lock == Free ==> s.counter == (|s.shared| + Bit(s.stop)) % WORD
  {
    RunKeepsInv(Init<T>(), acts);
  }

  /** The subtraction under the lock never takes the counter below zero. */
  lemma NoUnderflow<T>(acts: seq<Action<T>>)
    requires ValidRun(Init<T>(), acts)
    ensures var s := Run(Init<T>(), acts);
            s.worker.Subtracting? && |s.shared| + |s.local| + 1 < WORD ==>
              |s.local| <= s.counter && WorkStep(s).counter == s.counter - |s.local|
  {
    RunKeepsInv(Init<T>(), acts);
  }

  /** A waiting worker is let through exactly when there is something to run or a stop to obey. */
  lemma WakeUpExactly<T>(acts: seq<Action<T>>)
    requires ValidRun(Init<T>(), acts)
    ensures var s := Run(Init<T>(), acts);
            s.worker.Waiting? && s.lock == Free && |s.shared| + 1 < WORD ==>
              (WorkEnabled(s) <==> s.shared != [] || s.stop)
  {
    RunKeepsInv(Init<T>(), acts);
  }

  // ---------------------------------------------------------------- submitting while a task runs

  /** A run in which the worker takes no step; nor does the destructor. */
  predicate SubmittersOnly<T>(acts: seq<Action<T>>) {
    forall i :: 0 <= i < |acts| ==> !acts[i].Work? && !acts[i].RequestStop?
  }

  /** What the holder of the lock still has to do. */
  function HolderActions<T>(s: State<T>): seq<Action<T>> {
    if !s.lock.HeldBySubmitter? || s.lock.id !in s.submitters then []
    else match s.submitters[s.lock.id]
      case Locked(_) => [Emplace(s.lock.id)] + ([Count(s.lock.id)] + ([Release(s.lock.id)] + []))
      case Queued => [Count(s.lock.id)] + ([Release(s.lock.id)] + [])
      case Counted => [Release(s.lock.id)] + []
  }

  function SubmitActions<T>(id: nat, item: T): seq<Action<T>> {
    [Acquire(id, item)] + ([Emplace(id)] + ([Count(id)] + ([Release(id)] + [])))
  }

  /** A thread inside the critical section can take its next step whatever the others do. */
  lemma HolderFinishes<T>(s: State<T>)
    requires LockInv(s) && !s.lock.HeldByWorker?
    ensures ValidRun(s, HolderActions(s)) && SubmittersOnly(HolderActions(s))
    ensures var t := Run(s, HolderActions(s));
            && t == s.(lock := Free, submitters := map[], shared := s.shared + InHand(s),
                       submitted := s.submitted + InHand(s), counter := t.counter)
  {
    assert s.shared + [] == s.shared && s.submitted + [] == s.submitted;
    if s.lock.HeldBySubmitter? {
      var id := s.lock.id;
      var s1 := if s.submitters[id].Locked? then Apply(s, Emplace(id)) else s;
      var s2 := if s1.submitters[id].Queued? then Apply(s1, Count(id)) else s1;
      var s3 := Apply(s2, Release(id));
      assert s3.submitters == map[];
      RunCons(s2, Release(id), []);
      if s1.submitters[id].Queued? {
        RunCons(s1, Count(id), [Release(id)] + []);
      }
      if s.submitters[id].Locked? {
        RunCons(s, Emplace(id), [Count(id)] + ([Release(id)] + []));
      }
    }
  }

  /** With the lock free, any thread submits in four steps. */
  lemma SubmitIsARun<T>(s: State<T>, id: nat, item: T)
    requires s.lock == Free && s.submitters == map[]
    ensures ValidRun(s, SubmitActions(id, item)) && SubmittersOnly(SubmitActions(id, item))
    ensures Run(s, SubmitActions(id, item)) ==
            s.(shared := s.shared + [item], submitted := s.submitted + [item], counter := FetchAdd(s.counter, 1))
  {
    var s1 := Apply(s, Acquire(id, item));
    var s2 := Apply(s1, Emplace(id));
    var s3 := Apply(s2, Count(id));
    var s4 := Apply(s3, Release(id));
    assert s4.submitters == map[];
    RunCons(s3, Release(id), []);
    RunCons(s2, Count(id), [Release(id)] + []);
    RunCons(s1, Emplace(id), [Count(id)] + ([Release(id)] + []));
    RunCons(s, Acquire(id, item), [Emplace(id)] + ([Count(id)] + ([Release(id)] + [])));
  }

  /**
    While the worker does not hold the lock, in particular while it runs a task that waits for another
    thread, any thread outside the critical section gets its item to the back of the list without a step
    of the worker: whoever holds the lock can finish, and then it is free.
   */
  lemma SubmitNeedsNoWorker<T>(s: State<T>, id: nat, item: T) returns (acts: seq<Action<T>>)
    requires Inv(s) && !s.lock.HeldByWorker?
    ensures ValidRun(s, acts) && SubmittersOnly(acts) && |acts| <= 7
    ensures var t := Run(s, acts);
            && t == s.(lock := Free, submitters := map[], shared := t.shared, submitted := t.submitted,
                       counter := t.counter)
            && t.shared == s.shared + InHand(s) + [item] && t.submitted == s.submitted + InHand(s) + [item]
            && t.counter == (|t.shared| + Bit(t.stop)) % WORD
  {
    HolderFinishes(s);
    var t := Run(s, HolderActions(s));
    SubmitIsARun(t, id, item);
    RunAppend(s, HolderActions(s), SubmitActions(id, item));
    acts := HolderActions(s) + SubmitActions(id, item);
    RunKeepsInv(s, acts);
  }

  /** A worker that holds the lock lets go of it within three steps of its own, without waiting. */
  lemma WorkerReleasesLock<T>(s: State<T>) returns (acts: seq<Action<T>>)
    requires Inv(s) && s.lock.HeldByWorker?
    ensures ValidRun(s, acts) && WorkOnly(acts) && Run(s, acts).lock == Free
    ensures |acts| == match s.worker case Splicing => 3 case Subtracting => 2 case _ => 1
    decreases Remaining(s)
  {
    WorkDecreasesRemaining(s);
    var s1 := WorkStep(s);
    if s1.lock == Free {
      acts := [Work];
    } else {
      WorkKeepsInv(s);
      var rest := WorkerReleasesLock(s1);
      acts := [Work] + rest;
      assert acts[1..] == rest;
    }
  }

  /** In every reachable state with a task under way, any thread can submit without a step of the worker. */
  lemma RunningTaskBlocksNobody<T>(before: seq<Action<T>>, id: nat, item: T) returns (acts: seq<Action<T>>)
    requires ValidRun(Init<T>(), before) && Run(Init<T>(), before).worker in {Invoking, Popping}
    ensures var s := Run(Init<T>(), before);
            ValidRun(s, acts) && SubmittersOnly(acts) && |acts| <= 7
    ensures var s := Run(Init<T>(), before);
            var t := Run(s, acts);
            && t.worker == s.worker && t.local == s.local && t.started == s.started && t.executed == s.executed
            && t.shared == s.shared + InHand(s) + [item] && t.lock == Free
  {
    RunKeepsInv(Init<T>(), before);
    acts := SubmitNeedsNoWorker(Run(Init<T>(), before), id, item);
  }

  // ---------------------------------------------------------------- one turn of the worker

  function WorkSteps<T(==)>(n: nat): seq<Action<T>> {
    if n == 0 then [] else [Work] + WorkSteps(n - 1)
  }

  lemma {:induction false} WorkStepsAreWork<T>(n: nat)
    ensures WorkOnly(WorkSteps<T>(n)) && |WorkSteps<T>(n)| == n
  {
    if n > 0 {
      WorkStepsAreWork<T>(n - 1);
    }
  }

  /** With an empty local list, nobody holding the lock and the counter not 0, seven steps splice. */
  lemma SpliceIsARun<T>(s: State<T>)
    requires s.worker.LoopTop? && s.local == [] && s.lock == Free && s.counter != 0
    ensures ValidRun(s, WorkSteps(7))
    ensures Run(s, WorkSteps(7)) ==
            s.(worker := if s.shared == [] then Exited else Invoking, local := s.shared, shared := [],
               counter := FetchSub(s.counter, |s.shared|),
               drained := if s.shared == [] then |s.submitted| else s.drained)
  {
    var s1 := WorkStep(s);
    var s2 := WorkStep(s1);
    var s3 := WorkStep(s2);
    var s4 := WorkStep(s3);
    assert s.shared + [] == s.shared && s4.local == s.shared;
    var s5 := WorkStep(s4);
    var s6 := WorkStep(s5);
    RunCons(s6, Work, WorkSteps(0));
    RunCons(s5, Work, WorkSteps(1));
    RunCons(s4, Work, WorkSteps(2));
    RunCons(s3, Work, WorkSteps(3));
    RunCons(s2, Work, WorkSteps(4));
    RunCons(s1, Work, WorkSteps(5));
    RunCons(s, Work, WorkSteps(6));
  }

  /** Two steps run the task at the front. */
  lemma InvokeIsARun<T>(s: State<T>)
    requires s.worker.Invoking? && s.local != []
    ensures ValidRun(s, WorkSteps(2))
    ensures Run(s, WorkSteps(2)) ==
            s.(worker := LoopTop, local := s.local[1..], started := s.started + [s.local[0]],
               executed := s.executed + [s.local[0]])
  {
    var s1 := WorkStep(s);
    RunCons(s1, Work, WorkSteps(0));
    RunCons(s, Work, WorkSteps(1));
  }

  // ---------------------------------------------------------------- shutdown

  /** The worker leaves its loop only after a stop, having run everything submitted before its last splice. */
  lemma ExitsOnlyWhenStoppedAndDrained<T>(acts: seq<Action<T>>)
    requires ValidRun(Init<T>(), acts)
    ensures var s := Run(Init<T>(), acts);
            s.worker.Exited? ==>
              && s.stop
              && s.local == []
              && s.drained <= |s.submitted|
              && s.executed == s.submitted[..s.drained]
              && s.shared == s.submitted[s.drained..]
  {
    RunKeepsInv(Init<T>(), acts);
  }

  function Rank<T>(s: State<T>): nat {
    match s.worker
    case LoopTop => 8
    case Waiting => 7
    case Locking => 6
    case Splicing => 5
    case Subtracting => if s.local == [] then 4 else 14
    case Unlocking => if s.local == [] then 3 else 13
    case Checking => if s.local == [] then 2 else 12
    case Invoking => 7
    case Popping => 6
    case Exited => 0
  }

  /** Bound on the instructions left to the worker when nobody submits any more. */
  function Remaining<T>(s: State<T>): nat {
    23 * |s.shared| + 3 * |s.local| + Rank(s)
  }

  predicate WorkOnly<T>(acts: seq<Action<T>>) {
    forall i :: 0 <= i < |acts| ==> acts[i].Work?
  }

  lemma WorkDecreasesRemaining<T>(s: State<T>)
    requires Inv(s) && WorkEnabled(s)
    ensures Remaining(WorkStep(s)) < Remaining(s)
  {
  }

  /** After a stop, with no submitter in its critical section, the worker can always go on until it exits. */
  lemma StoppedWorkerNeverBlocks<T>(s: State<T>)
    requires Inv(s) && s.stop && !s.lock.HeldBySubmitter? && !s.worker.Exited?
    requires |s.shared| + 1 < WORD
    ensures WorkEnabled(s)
  {
    assert s.worker.Waiting? ==> s.counter == |s.shared| + 1;
  }

  /** The worker has found its list empty and can no longer see what is submitted. */
  predicate PastLastLook<T(==)>(s: State<T>) {
    s.worker.Exited? || (s.worker.Checking? && s.local == [])
  }

  /** From a stopped state the worker alone runs every accepted task, in order, and exits. */
  lemma {:induction false} StoppedWorkerDrains<T>(s: State<T>) returns (acts: seq<Action<T>>)
    requires Inv(s) && s.stop && !s.lock.HeldBySubmitter?
    requires |s.shared| + 1 < WORD
    ensures WorkOnly(acts) && ValidRun(s, acts) && |acts| <= Remaining(s)
    ensures Run(s, acts).worker.Exited?
    ensures Run(s, acts).executed == if PastLastLook(s) then s.executed else s.submitted
    decreases Remaining(s)
  {
    if s.worker.Exited? {
      acts := [];
    } else {
      StoppedWorkerNeverBlocks(s);
      WorkDecreasesRemaining(s);
      WorkKeepsInv(s);
      var t := WorkStep(s);
      assert t.submitted == s.submitted && (PastLastLook(s) ==> PastLastLook(t) && t.executed == s.executed);
      assert PastLastLook(t) && !PastLastLook(s) ==> t.executed == t.submitted by {
        assert t.executed + [] + [] == t.executed;
      }
      var rest := StoppedWorkerDrains(t);
      acts := [Work] + rest;
      assert acts[1..] == rest;
      assert Apply(s, Work) == t;
    }
  }

  /** Every worker-only run is short: the drain cannot go on for ever. */
  lemma {:induction false} DrainIsBounded<T>(s: State<T>, acts: seq<Action<T>>)
    requires Inv(s) && WorkOnly(acts) && ValidRun(s, acts)
    ensures |acts| + Remaining(Run(s, acts)) <= Remaining(s)
    decreases |acts|
  {
    if acts != [] {
      WorkDecreasesRemaining(s);
      WorkKeepsInv(s);
      DrainIsBounded(WorkStep(s), acts[1..]);
    }
  }

  // ---------------------------------------------------------------- refinement of a plain FIFO queue

  datatype Fifo<T> = Fifo(waiting: seq<T>, done: seq<T>)

  datatype FifoStep<T> = Enqueue(item: T) | Dequeue | Stutter

  function FifoNext<T>(q: Fifo<T>, step: FifoStep<T>): Fifo<T> {
    match step
    case Enqueue(item) => q.(waiting := q.waiting + [item])
    case Dequeue => if q.waiting == [] then q else Fifo(q.waiting[1..], q.done + [q.waiting[0]])
    case Stutter => q
  }

  /** What a client sees of the executor: tasks not started yet, and those started. The splice is invisible. */
  function Abstract<T>(s: State<T>): Fifo<T> {
    Fifo((if s.worker.Popping? && s.local != [] then s.local[1..] else s.local) + s.shared, s.started)
  }

  function StepLabel<T>(s: State<T>, a: Action<T>): FifoStep<T> {
    match a
    case Emplace(id) =>
      if id in s.submitters && s.submitters[id].Locked? then Enqueue(s.submitters[id].item) else Stutter
    case Work => if s.worker.Invoking? then Dequeue else Stutter
    case _ => Stutter
  }

  lemma EmplaceEnqueues<T>(s: State<T>, id: nat)
    requires Enabled(s, Emplace(id))
    ensures Abstract(Apply(s, Emplace(id))) == FifoNext(Abstract(s), Enqueue(s.submitters[id].item))
  {
    var item := s.submitters[id].item;
    var taken := if s.worker.Popping? && s.local != [] then s.local[1..] else s.local;
    assert taken + (s.shared + [item]) == (taken + s.shared) + [item];
  }

  lemma WorkDequeues<T>(s: State<T>)
    requires Inv(s) && WorkEnabled(s)
    ensures Abstract(WorkStep(s)) == FifoNext(Abstract(s), StepLabel(s, Work))
    ensures s.worker.Invoking? ==> Abstract(s).waiting != []
  {
    if s.worker.Invoking? {
      assert (s.local + s.shared)[1..] == s.local[1..] + s.shared;
    } else if s.worker.Splicing? {
      assert s.shared + s.local + [] == s.local + s.shared;
    }
  }

  /** Every instruction is an enqueue, a start of the front task, or invisible. */
  lemma RefinesFifo<T>(s: State<T>, a: Action<T>)
    requires Inv(s) && Enabled(s, a)
    ensures Abstract(Apply(s, a)) == FifoNext(Abstract(s), StepLabel(s, a))
    ensures StepLabel(s, a).Dequeue? ==> Abstract(s).waiting != []
  {
    match a
    case Emplace(id) => EmplaceEnqueues(s, id);
    case Work => WorkDequeues(s);
    case _ =>
  }

  function FifoRun<T>(q: Fifo<T>, steps: seq<FifoStep<T>>): Fifo<T>
    decreases |steps|
  {
    if steps == [] then q else FifoRun(FifoNext(q, steps[0]), steps[1..])
  }

  function Labels<T(==)>(s: State<T>, acts: seq<Action<T>>): seq<FifoStep<T>>
    requires ValidRun(s, acts)
    decreases |acts|
  {
    if acts == [] then [] else [StepLabel(s, acts[0])] + Labels(Apply(s, acts[0]), acts[1..])
  }

  /** So every run of the executor, however interleaved, is a run of a plain FIFO queue. */
  lemma {:induction false} ExecutorIsFifo<T>(s: State<T>, acts: seq<Action<T>>)
    requires Inv(s) && ValidRun(s, acts)
    ensures Abstract(Run(s, acts)) == FifoRun(Abstract(s), Labels(s, acts))
    decreases |acts|
  {
    if acts != [] {
      RefinesFifo(s, acts[0]);
      StepKeepsInv(s, acts[0]);
      ExecutorIsFifo(Apply(s, acts[0]), acts[1..]);
    }
  }
}
