/** The executor's own code: the submit critical section, the stop request and the worker loop. */
module SerialExecutor {
  import opened Words
  import System = ExecutorSystem

  class ProceduresSerialExecutor<T(==)> {
    var queue: seq<T>
    var queueSize: nat
    var executed: seq<T>  // the tasks invoked so far, in order
    ghost var submitted: seq<T>
    ghost var stopRequested: bool

    ghost predicate Valid()
      reads this
    {
      && executed + queue == submitted
      && queueSize == (|queue| + System.Bit(stopRequested)) % WORD
    }

    /** This object as a state of the small-step system, with the worker's place, local list and last look. */
    ghost function At(worker: System.WorkerPc, local: seq<T>, drained: nat): System.State<T>
      reads this
    {
      System.State(System.Free, map[], queue, queueSize, stopRequested, worker, local,
                   submitted, executed, executed, drained)
    }

    /** The worker being at the top of its loop, with nothing taken. */
    ghost function View(): System.State<T>
      reads this
    {
      At(System.LoopTop, [], 0)
    }

    constructor ()
      ensures Valid() && View() == System.Init()
    {
      queue, queueSize, executed := [], 0, [];
      submitted, stopRequested := [], false;
    }

    /** The critical section shared by the three submit functions, run without interruption. */
    method Submit(item: T)
      requires Valid()
      modifies this
      ensures Valid()
      ensures queue == old(queue) + [item] && submitted == old(submitted) + [item]
      ensures executed == old(executed) && stopRequested == old(stopRequested)
      ensures System.ValidRun(old(View()), System.SubmitActions(0, item))
      ensures View() == System.Run(old(View()), System.SubmitActions(0, item))
    {
      System.SubmitIsARun(View(), 0, item);
      CountOne(|queue| + System.Bit(stopRequested));
      assert executed + (queue + [item]) == (executed + queue) + [item];
      queue := queue + [item];
      queueSize := FetchAdd(queueSize, 1);
      submitted := submitted + [item];
    }

    /** What the destructor does before it joins the worker. */
    method RequestStop()
      requires Valid() && !stopRequested
      modifies this
      ensures Valid() && stopRequested
      ensures View() == System.Apply(old(View()), System.RequestStop)
    {
      CountOne(|queue|);
      queueSize := FetchAdd(queueSize, 1);
      stopRequested := true;
    }

    /**
      The worker loop, run to its exit after a stop: every accepted task is invoked, in order. It is a
      run of the interleaved system in which only the worker acts.
     */
    method Worker() returns (ghost acts: seq<System.Action<T>>)
      requires Valid() && stopRequested && |queue| + 1 < WORD
      modifies this
      ensures Valid() && stopRequested
      ensures executed == old(submitted) == submitted
      ensures queue == [] && queueSize == 1
      ensures System.WorkOnly(acts) && System.ValidRun(old(View()), acts)
      ensures System.Run(old(View()), acts) == At(System.Exited, [], |submitted|)
    {
      var local: seq<T> := [];
      ghost var start, s := View(), View();
      acts := [];
      while true
        invariant stopRequested && submitted == old(submitted)
        invariant executed + local + queue == submitted
        invariant queueSize == |queue| + 1 && |queue| + 1 < WORD
        invariant Reached(start, acts, s) && s == At(System.LoopTop, local, 0)
        decreases |local| + |queue|, if local == [] then 1 else 0
      {
        if local == [] {
          assert queueSize != 0;  // wait(0) returns at once
          assert executed + queue == submitted by { assert executed + local == executed; }
          acts, s := SpliceTurn(start, acts, s);
          local, queue := queue + local, [];
          queueSize := FetchSub(queueSize, |local|);
          if local == [] {
            break;
          }
        } else {
          acts, s := TakeTurn(start, acts, s);
        }
        acts, s := InvokeTurn(start, acts, s);
        assert executed + local == executed + [local[0]] + local[1..];
        executed := executed + [local[0]];
        local := local[1..];
      }
      assert executed + local + queue == executed;
    }
  }

  /** The worker alone leads from one state to the other. */
  predicate Reached<T(==)>(start: System.State<T>, acts: seq<System.Action<T>>, s: System.State<T>) {
    System.WorkOnly(acts) && System.ValidRun(start, acts) && System.Run(start, acts) == s
  }

  lemma Continue<T>(start: System.State<T>, acts: seq<System.Action<T>>, s: System.State<T>, n: nat)
      returns (more: seq<System.Action<T>>)
    requires Reached(start, acts, s) && System.ValidRun(s, System.WorkSteps(n))
    ensures Reached(start, more, System.Run(s, System.WorkSteps(n)))
  {
    more := acts + System.WorkSteps(n);
    System.WorkStepsAreWork<T>(n);
    System.RunAppend(start, acts, System.WorkSteps(n));
  }

  /** From an empty local list over the wait and the critical section to the first task, or to the exit. */
  lemma SpliceTurn<T>(start: System.State<T>, acts: seq<System.Action<T>>, s: System.State<T>)
      returns (more: seq<System.Action<T>>, t: System.State<T>)
    requires Reached(start, acts, s)
    requires s.worker.LoopTop? && s.local == [] && s.lock == System.Free && s.counter != 0
    ensures Reached(start, more, t)
    ensures t == s.(worker := if s.shared == [] then System.Exited else System.Invoking, local := s.shared,
                    shared := [], counter := FetchSub(s.counter, |s.shared|),
                    drained := if s.shared == [] then |s.submitted| else s.drained)
  {
    System.SpliceIsARun(s);
    more := Continue(start, acts, s, 7);
    t := System.Run(s, System.WorkSteps(7));
  }

  lemma TakeTurn<T>(start: System.State<T>, acts: seq<System.Action<T>>, s: System.State<T>)
      returns (more: seq<System.Action<T>>, t: System.State<T>)
    requires Reached(start, acts, s) && s.worker.LoopTop? && s.local != []
    ensures Reached(start, more, t) && t == s.(worker := System.Invoking)
  {
    System.RunCons(s, System.Work, System.WorkSteps(0));
    more := Continue(start, acts, s, 1);
    t := System.WorkStep(s);
  }

  lemma InvokeTurn<T>(start: System.State<T>, acts: seq<System.Action<T>>, s: System.State<T>)
      returns (more: seq<System.Action<T>>, t: System.State<T>)
    requires Reached(start, acts, s) && s.worker.Invoking? && s.local != []
    ensures Reached(start, more, t)
    ensures t == s.(worker := System.LoopTop, local := s.local[1..], started := s.started + [s.local[0]],
                    executed := s.executed + [s.local[0]])
  {
    System.InvokeIsARun(s);
    more := Continue(start, acts, s, 2);
    t := System.Run(s, System.WorkSteps(2));
  }
}
