/** Every client is told apart by its `order`, and what it was sent is a matter of single pushes. */
module DispatcherClients {
  import opened Options
  import opened Lists
  import opened DispatcherSystem
  import opened DispatcherViews
  import opened DispatcherPower

  // ---------------------------------------------------------------- no two clients have the same order

  ghost predicate RisingOrders(sinks: seq<Sink>) {
    forall i, j :: 0 <= i < j < |sinks| ==> sinks[i].order < sinks[j].order
  }

  /** Orders rise along the list, no released client shares one with another client, and none exceeds the bound. */
  ghost predicate DistinctOrders(sinks: seq<Sink>, departed: seq<Departed>, bound: int) {
    && RisingOrders(sinks)
    && (forall i :: 0 <= i < |sinks| ==> sinks[i].order <= bound)
    && (forall i :: 0 <= i < |departed| ==> departed[i].sink.order <= bound)
    && (forall i, j :: 0 <= i < j < |departed| ==> departed[i].sink.order != departed[j].sink.order)
    && (forall i, j :: 0 <= i < |departed| && 0 <= j < |sinks| ==> departed[i].sink.order != sinks[j].order)
  }

  /** A client that is joining will have the number of executed tasks as its order. */
  function Bound(w: World): int {
    |w.executed| - if w.worker.Joining? then 1 else 0
  }

  ghost predicate OrdersInv(w: World) {
    DistinctOrders(w.sinks, w.departed, Bound(w))
  }

  lemma DeliveryKeepsOrders(w: World, a: Action)
    requires JoiningInv(w) && OrdersInv(w) && Enabled(w, a) && Delivers(w, a)
    ensures OrdersInv(Apply(w, a))
  {
    var v := Apply(w, a);
    DeliveryKeepsState(w, a);
    assert |v.sinks| == |w.sinks| && v.departed == w.departed;
    assert v.worker.Joining? <==> w.worker.Joining?;
    forall k | 0 <= k < |v.sinks|
      ensures v.sinks[k].order == w.sinks[k].order
    {
      DeliveryKeepsWhole(w, a, k);
      assert v.sinks[k].order == w.sinks[k].(log := []).order;
    }
  }

  lemma RemovedAreSinks(sinks: seq<Sink>, id: nat, left: nat) returns (at: seq<nat>)
    ensures Rising(at) && |at| == |RemovedSinks(sinks, id, left)|
    ensures forall k :: 0 <= k < |at| ==>
              at[k] < |sinks| && RemovedSinks(sinks, id, left)[k].sink == sinks[at[k]] && sinks[at[k]].id == id
  {
    at := FilterKeepsOrder(sinks, Leaves(id));
    forall k | 0 <= k < |at|
      ensures sinks[at[k]].id == id
    {
      assert Leaves(id)(sinks[at[k]]);
    }
  }

  lemma ReleaseKeepsOrders(sinks: seq<Sink>, departed: seq<Departed>, id: nat, left: nat, bound: int)
    requires DistinctOrders(sinks, departed, bound)
    ensures DistinctOrders(RemoveSink(sinks, id), departed + RemovedSinks(sinks, id, left), bound)
  {
    var stay := RemainingSinks(sinks, id);
    var gone := RemovedAreSinks(sinks, id, left);
    var kept, removed := RemoveSink(sinks, id), RemovedSinks(sinks, id, left);
    forall i, j | 0 <= i < |removed| && 0 <= j < |kept|
      ensures removed[i].sink.order != kept[j].order
    {
      assert stay[j] in stay;
      assert gone[i] != stay[j];
    }
  }

  lemma ExecuteKeepsOrders(w: World, temperature: int, ms: nat, writable: bool)
    requires OrdersInv(w) && w.worker.Started?
    ensures OrdersInv(ExecuteStep(w, temperature, ms, writable))
  {
    var v := ExecuteStep(w, temperature, ms, writable);
    ExecuteIsLogged(w, temperature, ms, writable);
    if w.worker.task.ReleaseSinkTask? {
      ReleaseKeepsOrders(w.sinks, w.departed, w.worker.task.id, |w.broadcasts|, Bound(w));
    } else {
      assert v.sinks == w.sinks && v.departed == w.departed;
    }
  }

  lemma StepKeepsOrders(w: World, a: Action)
    requires JoiningInv(w) && OrdersInv(w) && Enabled(w, a)
    ensures OrdersInv(Apply(w, a))
  {
    if Delivers(w, a) {
      DeliveryKeepsOrders(w, a);
    } else if a.Execute? {
      ExecuteKeepsOrders(w, a.temperature, a.ms, a.writable);
    }
  }

  // ---------------------------------------------------------------- pushes

  /** The event that a step pushes to the client with this order. */
  function PushedTo(w: World, a: Action, n: nat): Option<Event> {
    match a
    case PushInitial =>
      if w.worker.Joining? && |w.executed| == n then Some(InitialEvent(w, |w.worker.initial|)) else None
    case PushNext =>
      if w.worker.Broadcasting? && w.worker.next < |w.sinks| && w.sinks[w.worker.next].order == n
      then Some(w.worker.sent) else None
    case _ => None
  }

  /** This is what was pushed to it so far. */
  ghost predicate HasBeenPushed(w: World, n: nat, log: seq<Event>) {
    && (|w.executed| < n ==> log == [])
    && (w.worker.Joining? && |w.executed| == n ==> log == w.worker.initial)
    && (forall i :: 0 <= i < |w.sinks| && w.sinks[i].order == n ==> w.sinks[i].log == log)
    && (forall i :: 0 <= i < |w.departed| && w.departed[i].sink.order == n ==> w.departed[i].sink.log == log)
  }

  lemma ExecutePushesNothing(w: World, temperature: int, ms: nat, writable: bool, n: nat, log: seq<Event>)
    requires OrdersInv(w) && HasBeenPushed(w, n, log) && w.worker.Started?
    ensures HasBeenPushed(ExecuteStep(w, temperature, ms, writable), n, log)
  {
    var v := ExecuteStep(w, temperature, ms, writable);
    ExecuteIsLogged(w, temperature, ms, writable);
    if w.worker.task.ReleaseSinkTask? {
      var stay := RemainingSinks(w.sinks, w.worker.task.id);
      var gone := RemovedAreSinks(w.sinks, w.worker.task.id, |w.broadcasts|);
    } else {
      assert v.sinks == w.sinks && v.departed == w.departed;
      assert v.worker.Joining? ==> v.worker.initial == [];
    }
  }

  lemma PushesAdd(w: World, a: Action, n: nat, log: seq<Event>)
    requires OrdersInv(w) && HasBeenPushed(w, n, log) && Enabled(w, a) && (a.PushInitial? || a.PushNext?)
    ensures HasBeenPushed(Apply(w, a), n, log + EventSeq(PushedTo(w, a, n)))
  {
    assert log + [] == log;
  }

  /** Every step pushes at most one event to a client, and nothing else changes what it was sent. */
  lemma StepPushes(w: World, a: Action, n: nat, log: seq<Event>)
    requires OrdersInv(w) && HasBeenPushed(w, n, log) && Enabled(w, a)
    ensures HasBeenPushed(Apply(w, a), n, log + EventSeq(PushedTo(w, a, n)))
  {
    assert log + [] == log;
    if a.Execute? {
      ExecutePushesNothing(w, a.temperature, a.ms, a.writable, n, log);
    } else if a.PushInitial? || a.PushNext? {
      PushesAdd(w, a, n, log);
    }
  }
}
