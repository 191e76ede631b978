/** The reactor's own code: pushing, cancelling, completing a write, and the worker loop. */
module EventsStreamReactor {
  import opened Options
  import opened Words
  import System = EventStreamSystem

  /** The events a client receives when the i-th write succeeds iff ok(i): up to the first failure. */
  function Accepted<E>(events: seq<E>, ok: nat -> bool, from: nat): seq<E>
    decreases |events|
  {
    if events == [] || !ok(from) then [] else [events[0]] + Accepted(events[1..], ok, from + 1)
  }

  lemma PrefixFromSecond<E>(events: seq<E>, m: nat)
    requires m < |events|
    ensures [events[0]] + events[1..][..m] == events[..m + 1]
  {
    assert events[..m + 1][1..] == events[1..][..m];
  }

  /** It is the longest prefix all of whose writes succeed. */
  lemma {:induction false} AcceptedIsLongestPrefix<E>(events: seq<E>, ok: nat -> bool, from: nat)
    ensures var n := |Accepted(events, ok, from)|;
            && n <= |events| && Accepted(events, ok, from) == events[..n]
            && (forall i: nat :: from <= i < from + n ==> ok(i))
            && (n < |events| ==> !ok(from + n))
    decreases |events|
  {
    if events == [] || !ok(from) {
    } else {
      AcceptedIsLongestPrefix(events[1..], ok, from + 1);
      PrefixFromSecond(events, |Accepted(events[1..], ok, from + 1)|);
    }
  }

  class Reactor<E(==)> {
    var eventsQueue: seq<E>
    var queueSize: nat
    var writeStatus: System.WriteStatus
    var outstanding: Option<E>  // the event the stream is writing
    var completed: seq<E>       // what the stream wrote, in order
    var finished: bool
    ghost var pushed: seq<E>
    ghost var cancels: nat

    ghost predicate Valid()
      reads this
    {
      && completed + eventsQueue == pushed
      && queueSize == (|eventsQueue| + cancels) % WORD
      && writeStatus == System.Idle && outstanding.None?
    }

    /** This object as a state of the small-step system, with what only the worker knows. */
    ghost function At(worker: System.WorkerPc, local: seq<E>, popped: seq<E>, drained: nat, passed: nat)
        : System.State<E>
      reads this
    {
      System.State(System.Free, map[], eventsQueue, queueSize, cancels, worker, local, writeStatus,
                   outstanding, pushed, popped, completed, drained, passed, {})
    }

    /** This object is that state of the system. */
    ghost predicate Mirrors(s: System.State<E>)
      reads this
    {
      s == At(s.worker, s.local, s.popped, s.drained, s.passCancels)
    }

    /** The worker being at the top of its loop, with nothing taken. */
    ghost function View(): System.State<E>
      reads this
    {
      At(System.LoopTop, [], completed, 0, 0)
    }

    constructor ()
      ensures Valid() && !finished && View() == System.Init()
    {
      eventsQueue, queueSize, writeStatus, outstanding, completed, finished := [], 0, System.Idle, None, [], false;
      pushed, cancels := [], 0;
    }

    method PushEvent(event: E)
      requires Valid()
      modifies this
      ensures Valid() && finished == old(finished) && completed == old(completed) && cancels == old(cancels)
      ensures eventsQueue == old(eventsQueue) + [event] && pushed == old(pushed) + [event]
      ensures System.ValidRun(old(View()), PushActions(event))
      ensures View() == System.Run(old(View()), PushActions(event))
    {
      PushIsARun(View(), event);
      CountOne(|eventsQueue| + cancels);
      assert completed + (eventsQueue + [event]) == (completed + eventsQueue) + [event];
      eventsQueue := eventsQueue + [event];
      queueSize := FetchAdd(queueSize, 1);
      pushed := pushed + [event];
    }

    method OnCancel()
      requires Valid()
      modifies this
      ensures Valid() && View() == System.Apply(old(View()), System.Cancel) && finished == old(finished)
    {
      CountOne(|eventsQueue| + cancels);
      queueSize := FetchAdd(queueSize, 1);
      cancels := cancels + 1;
    }

    /**
      The stream has dealt with the event it was given, and only then is it free for the next: a written
      event is the next one the client has, after a failure the client has no more than before. Whatever
      state of the system the object is in, this is the system's step.
     */
    method OnWriteDone(ok: bool, ghost s: System.State<E>)
      requires outstanding.Some? && Mirrors(s)
      modifies this`writeStatus, this`outstanding, this`completed
      ensures outstanding.None?
      ensures completed == old(completed) + if ok then [old(outstanding).value] else []
      ensures writeStatus == (if completed == old(completed) then System.Failed else System.Idle)
      ensures Mirrors(System.Apply(s, System.WriteDone(ok)))
    {
      completed := completed + if ok then [outstanding.value] else [];
      outstanding := None;
      writeStatus := if ok then System.Idle else System.Failed;
    }

    /** The wait, which returns at once, and the splice; the subtraction follows outside the lock. */
    method TakeEvents(ghost start: System.State<E>, ghost before: seq<System.Action<E>>, ghost s: System.State<E>)
        returns (local: seq<E>, ghost acts: seq<System.Action<E>>, ghost t: System.State<E>)
      requires cancels > 0 && queueSize == |eventsQueue| + cancels < WORD
      requires Reached(start, before, s) && Mirrors(s) && s.worker.LoopTop? && s.local == [] && s.popped == completed
      modifies this`eventsQueue, this`queueSize
      ensures local == old(eventsQueue) && eventsQueue == [] && queueSize == cancels
      ensures Reached(start, acts, t) && Mirrors(t) && t.local == local && t.popped == completed
      ensures t.worker == if local == [] then System.Finishing else System.Storing
    {
      acts, t := SpliceTurn(start, before, s);
      local, eventsQueue := eventsQueue, [];
      queueSize := FetchSub(queueSize, |local|);
    }

    /** One write: the event at the head is started, and the worker waits for its outcome. */
    method WriteFront(local: seq<E>, ok: bool, ghost start: System.State<E>, ghost before: seq<System.Action<E>>,
                      ghost s: System.State<E>) returns (ghost acts: seq<System.Action<E>>, ghost t: System.State<E>)
      requires local != [] && outstanding.None?
      requires Reached(start, before, s) && Mirrors(s) && s.worker.Storing? && s.local == local && s.popped == completed
      modifies this`writeStatus, this`outstanding, this`completed
      ensures outstanding.None? && writeStatus == if ok then System.Idle else System.Failed
      ensures completed == old(completed) + if ok then [local[0]] else []
      ensures Reached(start, acts, t) && Mirrors(t)
      ensures if ok then t.worker.LoopTop? && t.local == local[1..] && t.popped == completed
              else t.worker.Finishing?
    {
      acts, t := StartTurn(start, before, s);
      writeStatus := System.InProgress;
      outstanding := Some(local[0]);
      OnWriteDone(ok, t);
      acts, t := DoneTurn(start, acts, t, ok);
      if ok {
        acts, t := PopTurn(start, acts, t);
      }
    }

    /**
      The worker loop after a cancellation, run to its end with nobody pushing: the client gets the
      queued events in order up to the first failed write, and the stream is finished. It is a run of
      the interleaved system in which only the worker and the stream act.
     */
    method Worker(ok: nat -> bool) returns (ghost acts: seq<System.Action<E>>)
      requires Valid() && cancels > 0 && |eventsQueue| + cancels < WORD
      modifies this
      ensures finished
      ensures completed == old(completed) + Accepted(old(eventsQueue), ok, 0)
      ensures writeStatus == System.Failed <==> |Accepted(old(eventsQueue), ok, 0)| < |old(eventsQueue)|
      ensures System.Closing(acts) && System.ValidRun(old(View()), acts)
      ensures var s := System.Run(old(View()), acts);
              s.worker.Finished? && Mirrors(s)
    {
      var local: seq<E> := [];
      var writes: nat := 0;
      ghost var before, all := completed, eventsQueue;
      ghost var start, s := View(), View();
      acts := [];
      while true
        invariant cancels == old(cancels) && writeStatus == System.Idle && outstanding.None?
        invariant queueSize == |eventsQueue| + cancels && |eventsQueue| + cancels < WORD
        invariant local != [] ==> eventsQueue == []
        invariant OnTrack(before, all, ok, completed, if local == [] then eventsQueue else local, writes)
        invariant Reached(start, acts, s)
        invariant Mirrors(s) && s.worker.LoopTop? && s.local == local && s.popped == completed
        decreases |local| + |eventsQueue|
      {
        if local == [] {
          local, acts, s := TakeEvents(start, acts, s);
          if local == [] {
            AllAccepted(before, all, ok, completed, writes);
            break;
          }
        } else {
          acts, s := TakeTurn(start, acts, s);
        }
        OneMoreOrNoMore(before, all, ok, completed, local, writes);
        acts, s := WriteFront(local, ok(writes), start, acts, s);
        if writeStatus == System.Failed {
          break;
        }
        local := local[1..];
        writes := writes + 1;
      }
      acts, s := FinishTurn(start, acts, s);
      finished := true;
    }
  }

  /** After so many writes all went well, and what is completed leads to what the client is to get. */
  ghost predicate OnTrack<E>(before: seq<E>, all: seq<E>, ok: nat -> bool,
                             completed: seq<E>, rest: seq<E>, writes: nat) {
    && completed + Accepted(rest, ok, writes) == before + Accepted(all, ok, 0)
    && writes + |rest| == |all| && |completed| == |before| + writes
  }

  lemma AllAccepted<E>(before: seq<E>, all: seq<E>, ok: nat -> bool, completed: seq<E>, writes: nat)
    requires OnTrack(before, all, ok, completed, [], writes)
    ensures completed == before + Accepted(all, ok, 0) && |Accepted(all, ok, 0)| == |all|
  {
    assert completed + [] == completed;
  }

  lemma OneMoreOrNoMore<E>(before: seq<E>, all: seq<E>, ok: nat -> bool, completed: seq<E>, rest: seq<E>, writes: nat)
    requires OnTrack(before, all, ok, completed, rest, writes) && rest != []
    ensures if ok(writes) then OnTrack(before, all, ok, completed + [rest[0]], rest[1..], writes + 1)
            else completed == before + Accepted(all, ok, 0) && |Accepted(all, ok, 0)| < |all|
  {
    if ok(writes) {
      assert completed + ([rest[0]] + Accepted(rest[1..], ok, writes + 1))
          == (completed + [rest[0]]) + Accepted(rest[1..], ok, writes + 1);
    } else {
      assert completed + [] == completed;
    }
  }

  // ---------------------------------------------------------------- the worker's turns as runs

  /** Worker and stream lead from one state to the other. */
  predicate Reached<E(==)>(start: System.State<E>, acts: seq<System.Action<E>>, s: System.State<E>) {
    System.Closing(acts) && System.ValidRun(start, acts) && System.Run(start, acts) == s
  }

  lemma Continue<E>(start: System.State<E>, acts: seq<System.Action<E>>, s: System.State<E>, n: nat)
      returns (more: seq<System.Action<E>>)
    requires Reached(start, acts, s) && System.ValidRun(s, System.WorkSteps(n))
    ensures Reached(start, more, System.Run(s, System.WorkSteps(n)))
  {
    more := acts + System.WorkSteps(n);
    WorkStepsClose<E>(n);
    System.RunAppend(start, acts, System.WorkSteps(n));
  }

  lemma {:induction false} WorkStepsClose<E>(n: nat)
    ensures System.Closing(System.WorkSteps<E>(n))
  {
    if n > 0 {
      WorkStepsClose<E>(n - 1);
    }
  }

  /** From an empty local list over the wait and the critical section to the first event, or to the end. */
  lemma SpliceTurn<E>(start: System.State<E>, acts: seq<System.Action<E>>, s: System.State<E>)
      returns (more: seq<System.Action<E>>, t: System.State<E>)
    requires Reached(start, acts, s) && s.worker.LoopTop? && s.local == []
    requires s.lock == System.Free && s.pushers == map[] && s.counter != 0
    ensures Reached(start, more, t)
    ensures t == s.(worker := if s.shared == [] then System.Finishing else System.Storing, local := s.shared,
                    shared := [], counter := FetchSub(s.counter, |s.shared|), passCancels := s.cancels,
                    passLate := {}, drained := if s.shared == [] then |s.pushed| else s.drained)
  {
    var w := System.WorkStep(s);
    System.TakeIsARun(w);
    System.RunCons(s, System.Work, System.WorkSteps(6));
    more := Continue(start, acts, s, 7);
    t := System.Run(w, System.WorkSteps(6));
    assert System.LateTaken(w) == {};
  }

  lemma TakeTurn<E>(start: System.State<E>, acts: seq<System.Action<E>>, s: System.State<E>)
      returns (more: seq<System.Action<E>>, t: System.State<E>)
    requires Reached(start, acts, s) && s.worker.LoopTop? && s.local != []
    ensures Reached(start, more, t) && t == s.(worker := System.Storing)
  {
    System.RunCons(s, System.Work, System.WorkSteps(0));
    more := Continue(start, acts, s, 1);
    t := System.WorkStep(s);
  }

  lemma StartTurn<E>(start: System.State<E>, acts: seq<System.Action<E>>, s: System.State<E>)
      returns (more: seq<System.Action<E>>, t: System.State<E>)
    requires Reached(start, acts, s) && s.worker.Storing? && s.local != []
    ensures Reached(start, more, t)
    ensures t == s.(worker := System.Awaiting, writeStatus := System.InProgress, outstanding := Some(s.local[0]))
  {
    var s1 := System.WorkStep(s);
    System.RunCons(s1, System.Work, System.WorkSteps(0));
    System.RunCons(s, System.Work, System.WorkSteps(1));
    more := Continue(start, acts, s, 2);
    t := System.WorkStep(s1);
  }

  /** The stream completes the write; after a failure the worker gives up. */
  lemma DoneTurn<E>(start: System.State<E>, acts: seq<System.Action<E>>, s: System.State<E>, ok: bool)
      returns (more: seq<System.Action<E>>, t: System.State<E>)
    requires Reached(start, acts, s) && s.worker.Awaiting? && s.outstanding.Some?
    ensures Reached(start, more, t)
    ensures t == System.Apply(s, System.WriteDone(ok)).(worker := if ok then System.Popping else System.Finishing)
  {
    var s1 := System.Apply(s, System.WriteDone(ok));
    var s2 := System.WorkStep(s1);
    System.RunCons(s2, System.Work, System.WorkSteps(0));
    System.RunCons(s1, System.Work, System.WorkSteps(1));
    System.RunCons(s, System.WriteDone(ok), []);
    var done := [System.WriteDone(ok)] + [];
    System.RunAppend(start, acts, done);
    more := Continue(start, acts + done, s1, 2);
    t := System.WorkStep(s2);
  }

  lemma PopTurn<E>(start: System.State<E>, acts: seq<System.Action<E>>, s: System.State<E>)
      returns (more: seq<System.Action<E>>, t: System.State<E>)
    requires Reached(start, acts, s) && s.worker.Popping? && s.local != []
    ensures Reached(start, more, t)
    ensures t == s.(worker := System.LoopTop, popped := s.popped + [s.local[0]], local := s.local[1..])
  {
    System.RunCons(s, System.Work, System.WorkSteps(0));
    more := Continue(start, acts, s, 1);
    t := System.WorkStep(s);
  }

  lemma FinishTurn<E>(start: System.State<E>, acts: seq<System.Action<E>>, s: System.State<E>)
      returns (more: seq<System.Action<E>>, t: System.State<E>)
    requires Reached(start, acts, s) && s.worker.Finishing?
    ensures Reached(start, more, t) && t == s.(worker := System.Finished)
  {
    System.RunCons(s, System.Work, System.WorkSteps(0));
    more := Continue(start, acts, s, 1);
    t := System.WorkStep(s);
  }

  function PushActions<E>(event: E): seq<System.Action<E>> {
    [System.Acquire(0, event)] + ([System.Push(0)] + ([System.Release(0)] + ([System.Count(0)] + [])))
  }

  lemma PushIsARun<E>(s: System.State<E>, event: E)
    requires s.lock == System.Free && s.pushers == map[]
    ensures System.ValidRun(s, PushActions(event))
    ensures System.Run(s, PushActions(event)) ==
            s.(shared := s.shared + [event], pushed := s.pushed + [event], counter := FetchAdd(s.counter, 1))
  {
    var s1 := System.Apply(s, System.Acquire(0, event));
    var s2 := System.Apply(s1, System.Push(0));
    var s3 := System.Apply(s2, System.Release(0));
    var s4 := System.Apply(s3, System.Count(0));
    assert s4.pushers == map[];
    System.RunCons(s3, System.Count(0), []);
    System.RunCons(s2, System.Release(0), [System.Count(0)] + []);
    System.RunCons(s1, System.Push(0), [System.Release(0)] + ([System.Count(0)] + []));
    System.RunCons(s, System.Acquire(0, event),
                   [System.Push(0)] + ([System.Release(0)] + ([System.Count(0)] + [])));
  }
}
