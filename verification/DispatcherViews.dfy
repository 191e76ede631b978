/** What every client sees: one total order of broadcasts, and the true steam and heater state. */
module DispatcherViews {
  import opened Options
  import opened Lists
  import opened Hysteresis
  import opened Machines
  import opened DispatcherSystem
  import opened DispatcherMachine

  // ---------------------------------------------------------------- what a sink has and is about to get

  /** The event the worker is committed to push to sink k before it turns to another task. */
  function Carried(w: World, k: nat): seq<Event> {
    match w.worker
    case Publishing(notice, callback, event) => EventSeq(event)
    case Broadcasting(sent, next) => if k >= next then [sent] else []
    case _ => []
  }

  function Whole(w: World, k: nat): seq<Event>
    requires k < |w.sinks|
  {
    w.sinks[k].log + Carried(w, k)
  }

  predicate PlainTask(w: World) {
    w.worker.Started? && !w.worker.task.AddSinkTask? && !w.worker.task.ReleaseSinkTask?
  }

  /** Executing a task adds its event, if any, to what every sink has or is about to get. */
  lemma ExecuteExtendsWhole(w: World, temperature: int, ms: nat, writable: bool, k: nat)
    requires PlainTask(w) && k < |w.sinks|
    ensures var v := ExecuteStep(w, temperature, ms, writable);
            var event := TaskEffect(w, w.worker.task, temperature, ms, writable).event;
            && v.sinks == w.sinks && v.broadcasts == w.broadcasts + EventSeq(event)
            && Whole(v, k) == Whole(w, k) + EventSeq(event)
  {
  }

  /** The steps that neither execute a task nor change the list of sinks leave it as it is. */
  predicate Delivers(w: World, a: Action) {
    !a.Execute? && (a.PushInitial? && w.worker.Joining? ==> |w.worker.initial| < 5)
  }

  lemma DeliveryKeepsWhole(w: World, a: Action, k: nat)
    requires Enabled(w, a) && Delivers(w, a) && k < |w.sinks|
    ensures var v := Apply(w, a);
            |v.sinks| == |w.sinks| && v.broadcasts == w.broadcasts && Whole(v, k) == Whole(w, k)
            && v.sinks[k].(log := []) == w.sinks[k].(log := []) && v.departed == w.departed
  {
  }

  /** A release takes out the sinks with that id and no other; the rest stays in its order. */
  lemma RemainingSinks(sinks: seq<Sink>, id: nat) returns (at: seq<nat>)
    ensures Rising(at) && |at| == |RemoveSink(sinks, id)|
    ensures forall k :: 0 <= k < |at| ==> at[k] < |sinks| && RemoveSink(sinks, id)[k] == sinks[at[k]]
    ensures forall i: nat :: i < |sinks| ==> (i in at <==> sinks[i].id != id)
  {
    at := FilterKeepsOrder(sinks, Stays(id));
  }

  /** They go to the log of departed sinks, and none is lost. */
  lemma LeavingSinks(sinks: seq<Sink>, id: nat, left: nat)
    ensures forall d: Departed ::
              d in RemovedSinks(sinks, id, left) <==> d.sink in sinks && d.sink.id == id && d.left == left
    ensures |RemovedSinks(sinks, id, left)| + |RemoveSink(sinks, id)| == |sinks|
  {
    var gone, departed := Filter(sinks, Leaves(id)), RemovedSinks(sinks, id, left);
    FilterMembers(sinks, Leaves(id));
    FilterSplits(sinks, Stays(id), Leaves(id));
    forall d: Departed | d.sink in gone && d.left == left
      ensures d in departed
    {
      var i :| 0 <= i < |gone| && gone[i] == d.sink;
      assert departed[i] == d;
    }
    forall d: Departed | d in departed
      ensures d.sink in gone && d.left == left
    {
      var i :| 0 <= i < |departed| && departed[i] == d;
      assert d.sink == gone[i];
    }
  }

  // ---------------------------------------------------------------- total order

  ghost predicate SinkInOrder(broadcasts: seq<Event>, s: Sink, whole: seq<Event>) {
    |s.snapshot| == 6 && s.joined <= |broadcasts| && whole == s.snapshot + broadcasts[s.joined..]
  }

  ghost predicate DepartedInOrder(broadcasts: seq<Event>, d: Departed) {
    && |d.sink.snapshot| == 6 && d.sink.joined <= d.left <= |broadcasts|
    && d.sink.log == d.sink.snapshot + broadcasts[d.sink.joined..d.left]
  }

  ghost predicate OrderInv(w: World) {
    && (forall k :: 0 <= k < |w.sinks| ==> SinkInOrder(w.broadcasts, w.sinks[k], Whole(w, k)))
    && (forall d :: d in w.departed ==> DepartedInOrder(w.broadcasts, d))
    && (w.worker.Joining? ==> |w.worker.initial| < 6)
  }

  lemma ExecuteKeepsOrder(w: World, temperature: int, ms: nat, writable: bool)
    requires OrderInv(w) && PlainTask(w)
    ensures OrderInv(ExecuteStep(w, temperature, ms, writable))
  {
    var v := ExecuteStep(w, temperature, ms, writable);
    var event := TaskEffect(w, w.worker.task, temperature, ms, writable).event;
    assert v.broadcasts == w.broadcasts + EventSeq(event);
    forall k | 0 <= k < |v.sinks|
      ensures SinkInOrder(v.broadcasts, v.sinks[k], Whole(v, k))
    {
      ExecuteExtendsWhole(w, temperature, ms, writable, k);
      assert SinkInOrder(w.broadcasts, w.sinks[k], Whole(w, k));
      ExtendOrder(w.broadcasts, EventSeq(event), w.sinks[k], Whole(w, k));
    }
    forall d | d in v.departed
      ensures DepartedInOrder(v.broadcasts, d)
    {
      assert v.broadcasts[d.sink.joined..d.left] == w.broadcasts[d.sink.joined..d.left];
    }
  }

  lemma ExtendOrder(broadcasts: seq<Event>, more: seq<Event>, s: Sink, whole: seq<Event>)
    requires SinkInOrder(broadcasts, s, whole)
    ensures SinkInOrder(broadcasts + more, s, whole + more)
  {
    assert (broadcasts + more)[s.joined..] == broadcasts[s.joined..] + more;
    assert s.snapshot + (broadcasts[s.joined..] + more) == s.snapshot + broadcasts[s.joined..] + more;
  }

  lemma ReleaseKeepsRemaining(w: World, id: nat, v: World)
    requires OrderInv(w) && w.worker.Started? && v.worker.Idle?
    requires v.sinks == RemoveSink(w.sinks, id) && v.broadcasts == w.broadcasts
    ensures forall k :: 0 <= k < |v.sinks| ==> SinkInOrder(v.broadcasts, v.sinks[k], Whole(v, k))
  {
    var at := RemainingSinks(w.sinks, id);
    forall k | 0 <= k < |v.sinks|
      ensures SinkInOrder(v.broadcasts, v.sinks[k], Whole(v, k))
    {
      assert SinkInOrder(w.broadcasts, w.sinks[at[k]], Whole(w, at[k]));
    }
  }

  lemma LeavingInOrder(w: World, d: Departed)
    requires OrderInv(w) && w.worker.Started? && d.sink in w.sinks && d.left == |w.broadcasts|
    ensures DepartedInOrder(w.broadcasts, d)
  {
    var j :| 0 <= j < |w.sinks| && w.sinks[j] == d.sink;
    assert SinkInOrder(w.broadcasts, w.sinks[j], Whole(w, j));
    assert Whole(w, j) == d.sink.log;
    assert w.broadcasts[d.sink.joined..d.left] == w.broadcasts[d.sink.joined..];
  }

  lemma ReleaseKeepsOrder(w: World, temperature: int, ms: nat, writable: bool)
    requires OrderInv(w) && w.worker.Started? && w.worker.task.ReleaseSinkTask?
    ensures OrderInv(ExecuteStep(w, temperature, ms, writable))
  {
    var id := w.worker.task.id;
    var v := ExecuteStep(w, temperature, ms, writable);
    ReleaseKeepsRemaining(w, id, v);
    LeavingSinks(w.sinks, id, |w.broadcasts|);
    forall d | d in v.departed
      ensures DepartedInOrder(v.broadcasts, d)
    {
      if d !in w.departed {
        LeavingInOrder(w, d);
      }
    }
  }

  lemma JoinKeepsOrder(w: World)
    requires OrderInv(w) && w.worker.Joining? && |w.worker.initial| == 5
    ensures OrderInv(PushInitialStep(w))
  {
    var v := PushInitialStep(w);
    forall k | 0 <= k < |v.sinks|
      ensures SinkInOrder(v.broadcasts, v.sinks[k], Whole(v, k))
    {
      if k < |w.sinks| {
        assert SinkInOrder(w.broadcasts, w.sinks[k], Whole(w, k));
        assert Whole(v, k) == Whole(w, k);
      } else {
        assert v.broadcasts[v.sinks[k].joined..] == [];
      }
    }
  }

  lemma StepKeepsOrder(w: World, a: Action)
    requires OrderInv(w) && Enabled(w, a)
    ensures OrderInv(Apply(w, a))
  {
    if Delivers(w, a) {
      var v := Apply(w, a);
      forall k | 0 <= k < |w.sinks|
        ensures k < |v.sinks| && SinkInOrder(v.broadcasts, v.sinks[k], Whole(v, k))
      {
        DeliveryKeepsWhole(w, a, k);
        assert SinkInOrder(w.broadcasts, w.sinks[k], Whole(w, k));
      }
      assert |v.sinks| == |w.sinks| && v.departed == w.departed && v.broadcasts == w.broadcasts;
    } else if a.PushInitial? {
      JoinKeepsOrder(w);
    } else if PlainTask(w) {
      ExecuteKeepsOrder(w, a.temperature, a.ms, a.writable);
    } else if w.worker.task.ReleaseSinkTask? {
      ReleaseKeepsOrder(w, a.temperature, a.ms, a.writable);
    } else {
      var v := Apply(w, a);
      forall k | 0 <= k < |v.sinks|
        ensures SinkInOrder(v.broadcasts, v.sinks[k], Whole(v, k))
      {
        assert SinkInOrder(w.broadcasts, w.sinks[k], Whole(w, k));
        assert Whole(v, k) == Whole(w, k);
      }
    }
  }

  lemma {:induction false} RunKeepsOrder(w: World, acts: seq<Action>)
    requires OrderInv(w) && ValidRun(w, acts)
    ensures OrderInv(Run(w, acts))
    decreases |acts|
  {
    if acts != [] {
      StepKeepsOrder(w, acts[0]);
      RunKeepsOrder(Apply(w, acts[0]), acts[1..]);
    }
  }

  /**
    Total-order broadcast: in every run each sink's log is its six-event snapshot followed by the
    contiguous stretch of the broadcast log since it joined, but for the event it is about to get;
    for a released sink the stretch ends where it left.
   */
  lemma TotalOrderBroadcast(w: World, acts: seq<Action>)
    requires InitialWorld(w) && ValidRun(w, acts)
    ensures var v := Run(w, acts);
            && (forall k :: 0 <= k < |v.sinks| ==>
                  SinkInOrder(v.broadcasts, v.sinks[k], v.sinks[k].log + Carried(v, k)))
            && (forall d :: d in v.departed ==> DepartedInOrder(v.broadcasts, d))
  {
    RunKeepsOrder(w, acts);
    var v := Run(w, acts);
    forall k | 0 <= k < |v.sinks|
      ensures SinkInOrder(v.broadcasts, v.sinks[k], v.sinks[k].log + Carried(v, k))
    {
      assert SinkInOrder(v.broadcasts, v.sinks[k], Whole(v, k));
    }
  }

  /** A client that is connected, by its place in the list of sinks, or one that was released. */
  datatype Client = Live(k: nat) | Gone(i: nat)

  predicate Known(v: World, c: Client) {
    match c
    case Live(k) => k < |v.sinks|
    case Gone(i) => i < |v.departed|
  }

  function Joined(v: World, c: Client): nat
    requires Known(v, c)
  {
    match c
    case Live(k) => v.sinks[k].joined
    case Gone(i) => v.departed[i].sink.joined
  }

  /** Broadcasts from `Joined` up to here are the client's. */
  function Until(v: World, c: Client): nat
    requires Known(v, c)
  {
    match c
    case Live(k) => |v.broadcasts|
    case Gone(i) => v.departed[i].left
  }

  /** All that the client was sent, with the event the worker is about to push to it. */
  function Got(v: World, c: Client): seq<Event>
    requires Known(v, c)
  {
    match c
    case Live(k) => v.sinks[k].log + Carried(v, k)
    case Gone(i) => v.departed[i].sink.log
  }

  function SnapshotOf(v: World, c: Client): seq<Event>
    requires Known(v, c)
  {
    match c
    case Live(k) => v.sinks[k].snapshot
    case Gone(i) => v.departed[i].sink.snapshot
  }

  lemma ClientInOrder(w: World, acts: seq<Action>, c: Client)
    requires InitialWorld(w) && ValidRun(w, acts) && Known(Run(w, acts), c)
    ensures var v := Run(w, acts);
            && Joined(v, c) <= Until(v, c) <= |v.broadcasts| && |SnapshotOf(v, c)| == 6
            && Got(v, c) == SnapshotOf(v, c) + v.broadcasts[Joined(v, c)..Until(v, c)]
  {
    RunKeepsOrder(w, acts);
    var v := Run(w, acts);
    match c {
      case Live(k) =>
        assert SinkInOrder(v.broadcasts, v.sinks[k], Whole(v, k));
        assert v.broadcasts[Joined(v, c)..Until(v, c)] == v.broadcasts[Joined(v, c)..];
      case Gone(i) =>
        assert v.departed[i] in v.departed;
    }
  }

  /**
    Any two clients, connected or released, in any state of the worker: over the stretch of broadcasts
    during which both were connected they got the same events in the same order, and these are that
    stretch.
   */
  lemma OverlappingClientsAgree(w: World, acts: seq<Action>, a: Client, b: Client, from: nat, until: nat)
    requires InitialWorld(w) && ValidRun(w, acts) && Known(Run(w, acts), a) && Known(Run(w, acts), b)
    requires var v := Run(w, acts);
             Joined(v, a) <= from && Joined(v, b) <= from <= until && until <= Until(v, a) && until <= Until(v, b)
    ensures var v := Run(w, acts);
            var i, j := 6 - Joined(v, a), 6 - Joined(v, b);
            && i + until <= |Got(v, a)| && j + until <= |Got(v, b)| && until <= |v.broadcasts|
            && Got(v, a)[i + from..i + until] == Got(v, b)[j + from..j + until] == v.broadcasts[from..until]
  {
    ClientInOrder(w, acts, a);
    ClientInOrder(w, acts, b);
    var v := Run(w, acts);
    StretchOfSuffix(SnapshotOf(v, a), v.broadcasts, Joined(v, a), Until(v, a), from, until);
    StretchOfSuffix(SnapshotOf(v, b), v.broadcasts, Joined(v, b), Until(v, b), from, until);
  }

  lemma SliceOfSlice(s: seq<Event>, a: nat, b: nat, i: nat, j: nat)
    requires a <= b <= |s| && i <= j <= b - a
    ensures s[a..b][i..j] == s[a + i..a + j]
  {
    var part, whole := s[a..b][i..j], s[a + i..a + j];
    assert |part| == |whole|;
    forall k | 0 <= k < |part|
      ensures part[k] == whole[k]
    {
      assert part[k] == s[a..b][i + k];
    }
  }

  lemma StretchOfSuffix(snapshot: seq<Event>, all: seq<Event>, joined: nat, end: nat, from: nat, until: nat)
    requires |snapshot| == 6 && joined <= from <= until <= end <= |all|
    ensures (snapshot + all[joined..end])[6 - joined + from..6 - joined + until] == all[from..until]
  {
    var got, i, j := snapshot + all[joined..end], from - joined, until - joined;
    assert got[6..|got|] == all[joined..end];
    SliceOfSlice(got, 6, |got|, i, j);
    SliceOfSlice(all, joined, end, i, j);
  }

  // ---------------------------------------------------------------- the last event of a kind

  datatype Kind = PowerKind | BrewKind | SteamKind | HeaterKind | ProfileKind | SettingsKind | ProgressKind

  function KindOf(e: Event): Kind {
    match e
    case PowerEvent(_) => PowerKind
    case BrewEvent(_) => BrewKind
    case SteamEvent(_) => SteamKind
    case HeaterEvent(_) => HeaterKind
    case ProfileEvent(_) => ProfileKind
    case SettingsEvent(_) => SettingsKind
    case ProgressEvent(_) => ProgressKind
  }

  /** What a client that replays the events believes about one part of the state. */
  function LastOf(events: seq<Event>, kind: Kind): Option<Event> {
    if events == [] then None
    else if KindOf(events[|events| - 1]) == kind then Some(events[|events| - 1])
    else LastOf(events[..|events| - 1], kind)
  }

  lemma LastOfAppend(events: seq<Event>, event: Option<Event>, kind: Kind)
    ensures LastOf(events + EventSeq(event), kind) ==
            if event.Some? && KindOf(event.value) == kind then event else LastOf(events, kind)
  {
    if event.Some? {
      assert (events + [event.value])[..|events|] == events;
    } else {
      assert events + [] == events;
    }
  }

  // ---------------------------------------------------------------- steam view

  ghost predicate AllShow(w: World, kind: Kind, event: Event) {
    forall k :: 0 <= k < |w.sinks| ==> LastOf(Whole(w, k), kind) == Some(event)
  }

  /** A snapshot under way holds the values of this moment: only the worker could change them. */
  ghost predicate JoiningInv(w: World) {
    w.worker.Joining? ==>
      && |w.worker.initial| < 6
      && forall i :: 0 <= i < |w.worker.initial| ==>
           if i == 3 then w.worker.initial[i].HeaterEvent? else w.worker.initial[i] == InitialEvent(w, i)
  }

  ghost predicate ViewInv(w: World) {
    && JoiningInv(w)
    && AllShow(w, SteamKind, SteamEvent(w.machine.steam))
  }

  predicate PowerCommand(task: Task) {
    task.SetPowerTask? || task.TogglePowerTask?
  }

  /** A task that changes power or steam says so in its event; the destructor's task is the exception. */
  lemma EventsTellChanges(w: World, task: Task, temperature: int, ms: nat, writable: bool)
    requires Coherent(w.machine)
    ensures var e := TaskEffect(w, task, temperature, ms, writable);
            && (if e.event.Some? && e.event.value.SteamEvent? then e.event.value == SteamEvent(e.machine.steam)
                else e.machine.steam == w.machine.steam)
            && (if e.event.Some? && e.event.value.PowerEvent?
                then e.event.value == PowerEvent(e.machine.power)
                else e.machine.power == w.machine.power || (task.ShutDownTask? && w.machine.power))
            && (e.event.Some? && e.event.value.PowerEvent? <==> PowerCommand(task))
  {
  }

  lemma ExecuteKeepsShown(w: World, temperature: int, ms: nat, writable: bool, kind: Kind, before: Event, after: Event)
    requires PlainTask(w) && AllShow(w, kind, before)
    requires var event := TaskEffect(w, w.worker.task, temperature, ms, writable).event;
             if event.Some? && KindOf(event.value) == kind then event.value == after else before == after
    ensures AllShow(ExecuteStep(w, temperature, ms, writable), kind, after)
  {
    var v := ExecuteStep(w, temperature, ms, writable);
    var event := TaskEffect(w, w.worker.task, temperature, ms, writable).event;
    forall k | 0 <= k < |v.sinks|
      ensures LastOf(Whole(v, k), kind) == Some(after)
    {
      ExecuteExtendsWhole(w, temperature, ms, writable, k);
      LastOfAppend(Whole(w, k), event, kind);
    }
  }

  /** After an event of the kind every sink shows it, whatever it showed before. */
  lemma ExecuteShows(w: World, temperature: int, ms: nat, writable: bool, after: Event)
    requires PlainTask(w) && TaskEffect(w, w.worker.task, temperature, ms, writable).event == Some(after)
    ensures AllShow(ExecuteStep(w, temperature, ms, writable), KindOf(after), after)
  {
    var v := ExecuteStep(w, temperature, ms, writable);
    forall k | 0 <= k < |v.sinks|
      ensures LastOf(Whole(v, k), KindOf(after)) == Some(after)
    {
      ExecuteExtendsWhole(w, temperature, ms, writable, k);
      LastOfAppend(Whole(w, k), Some(after), KindOf(after));
    }
  }

  lemma DeliveryKeepsShown(w: World, a: Action, kind: Kind, event: Event)
    requires Enabled(w, a) && Delivers(w, a) && AllShow(w, kind, event)
    ensures AllShow(Apply(w, a), kind, event)
  {
    var v := Apply(w, a);
    assert |v.sinks| == |w.sinks|;
    forall k | 0 <= k < |v.sinks|
      ensures LastOf(Whole(v, k), kind) == Some(event)
    {
      DeliveryKeepsWhole(w, a, k);
    }
  }

  /** A sink still listed after a release, or as a join begins, was listed before with the same events. */
  lemma ListedBefore(w: World, temperature: int, ms: nat, writable: bool, k: nat) returns (j: nat)
    requires w.worker.Started? && !PlainTask(w) && k < |ExecuteStep(w, temperature, ms, writable).sinks|
    ensures var v := ExecuteStep(w, temperature, ms, writable);
            j < |w.sinks| && w.sinks[j] == v.sinks[k] && Whole(v, k) == Whole(w, j)
  {
    if w.worker.task.ReleaseSinkTask? {
      var at := RemainingSinks(w.sinks, w.worker.task.id);
      j := at[k];
    } else {
      j := k;
    }
  }

  lemma ReleaseKeepsShown(w: World, temperature: int, ms: nat, writable: bool, kind: Kind, event: Event)
    requires w.worker.Started? && !PlainTask(w) && AllShow(w, kind, event)
    ensures AllShow(ExecuteStep(w, temperature, ms, writable), kind, event)
  {
    var v := ExecuteStep(w, temperature, ms, writable);
    forall k | 0 <= k < |v.sinks|
      ensures LastOf(Whole(v, k), kind) == Some(event)
    {
      var j := ListedBefore(w, temperature, ms, writable, k);
    }
  }

  /** A new sink shows its snapshot's event of a kind. */
  lemma JoinShows(w: World, kind: Kind, event: Event)
    requires w.worker.Joining? && |w.worker.initial| == 5 && AllShow(w, kind, event)
    requires LastOf(w.worker.initial + [InitialEvent(w, 5)], kind) == Some(event)
    ensures AllShow(PushInitialStep(w), kind, event)
  {
    var v := PushInitialStep(w);
    forall k | 0 <= k < |v.sinks|
      ensures LastOf(Whole(v, k), kind) == Some(event)
    {
      if k < |w.sinks| {
        assert Whole(v, k) == Whole(w, k);
      } else {
        assert Whole(v, k) == w.worker.initial + [InitialEvent(w, 5)];
      }
    }
  }

  lemma SnapshotShows(w: World, snapshot: seq<Event>)
    requires |snapshot| == 6 && snapshot[3].HeaterEvent?
    requires forall i :: 0 <= i < 6 && i != 3 ==> snapshot[i] == InitialEvent(w, i)
    ensures LastOf(snapshot, PowerKind) == Some(PowerEvent(w.machine.power))
    ensures LastOf(snapshot, BrewKind) == Some(BrewEvent(w.machine.profiler.active))
    ensures LastOf(snapshot, SteamKind) == Some(SteamEvent(w.machine.steam))
    ensures LastOf(snapshot, HeaterKind) == Some(snapshot[3])
    ensures LastOf(snapshot, ProfileKind) == Some(ProfileEvent(w.profile))
    ensures LastOf(snapshot, SettingsKind) == Some(SettingsEvent(w.settings))
  {
    var s5, s4, s3, s2 := snapshot[..5], snapshot[..4], snapshot[..3], snapshot[..2];
    assert s5[..4] == s4 && s4[..3] == s3 && s3[..2] == s2 && s2[..1] == [snapshot[0]];
    assert KindOf(snapshot[5]) == SettingsKind && KindOf(snapshot[4]) == ProfileKind && s5[4] == snapshot[4];
    assert KindOf(snapshot[2]) == SteamKind && KindOf(snapshot[1]) == BrewKind && KindOf(snapshot[0]) == PowerKind;
    assert forall kind :: kind != SettingsKind && kind != ProfileKind ==> LastOf(snapshot, kind) == LastOf(s4, kind);
    assert s3[2] == snapshot[2] && s4[3] == snapshot[3];
    assert LastOf(s4, SteamKind) == LastOf(s3, SteamKind) == Some(s3[2]);
    assert s2[1] == snapshot[1] && LastOf(s4, BrewKind) == LastOf(s3, BrewKind) == LastOf(s2, BrewKind);
    assert LastOf(s4, PowerKind) == LastOf(s3, PowerKind) == LastOf(s2, PowerKind) == LastOf(s2[..1], PowerKind);
  }

  lemma ExecuteKeepsViews(w: World, temperature: int, ms: nat, writable: bool)
    requires SyncInv(w) && ViewInv(w) && PlainTask(w)
    ensures ViewInv(ExecuteStep(w, temperature, ms, writable))
  {
    var v := ExecuteStep(w, temperature, ms, writable);
    var task := w.worker.task;
    var e := TaskEffect(w, task, temperature, ms, writable);
    EventsTellChanges(w, task, temperature, ms, writable);
    assert v.machine.steam == e.machine.steam;
    ExecuteKeepsShown(w, temperature, ms, writable, SteamKind,
                      SteamEvent(w.machine.steam), SteamEvent(v.machine.steam));
  }

  lemma DeliveryKeepsState(w: World, a: Action)
    requires JoiningInv(w) && Enabled(w, a) && Delivers(w, a)
    ensures var v := Apply(w, a);
            && JoiningInv(v) && v.machine.power == w.machine.power && v.machine.steam == w.machine.steam
            && v.silenced == w.silenced && v.executed == w.executed
  {
  }

  lemma DeliveryKeepsViews(w: World, a: Action)
    requires ViewInv(w) && Enabled(w, a) && Delivers(w, a)
    ensures ViewInv(Apply(w, a))
  {
    DeliveryKeepsState(w, a);
    DeliveryKeepsShown(w, a, SteamKind, SteamEvent(w.machine.steam));
  }

  lemma JoinKeepsViews(w: World)
    requires ViewInv(w) && w.worker.Joining? && |w.worker.initial| == 5
    ensures ViewInv(PushInitialStep(w))
  {
    SnapshotShows(w, w.worker.initial + [InitialEvent(w, 5)]);
    JoinShows(w, SteamKind, SteamEvent(w.machine.steam));
  }

  lemma ListKeepsViews(w: World, temperature: int, ms: nat, writable: bool)
    requires ViewInv(w) && w.worker.Started? && !PlainTask(w)
    ensures ViewInv(ExecuteStep(w, temperature, ms, writable))
  {
    ReleaseKeepsShown(w, temperature, ms, writable, SteamKind, SteamEvent(w.machine.steam));
  }

  lemma StepKeepsViews(w: World, a: Action)
    requires SyncInv(w) && ViewInv(w) && Enabled(w, a)
    ensures ViewInv(Apply(w, a))
  {
    if Delivers(w, a) {
      DeliveryKeepsViews(w, a);
    } else if a.PushInitial? {
      JoinKeepsViews(w);
    } else if PlainTask(w) {
      ExecuteKeepsViews(w, a.temperature, a.ms, a.writable);
    } else {
      ListKeepsViews(w, a.temperature, a.ms, a.writable);
    }
  }

  lemma {:induction false} RunKeepsViews(w: World, acts: seq<Action>)
    requires SyncInv(w) && ViewInv(w) && ValidRun(w, acts)
    ensures ViewInv(Run(w, acts))
    decreases |acts|
  {
    if acts != [] {
      StepKeepsSync(w, acts[0]);
      StepKeepsViews(w, acts[0]);
      RunKeepsViews(Apply(w, acts[0]), acts[1..]);
    }
  }

  /** The snapshot a sink is added with is the state of that moment; only the heater may have moved since. */
  lemma SnapshotIsCurrent(w: World, acts: seq<Action>)
    requires InitialWorld(w) && ValidRun(w, acts)
    requires Run(w, acts).worker.Joining? && |Run(w, acts).worker.initial| == 5
    ensures var v := Run(w, acts);
            var joined := PushInitialStep(v);
            && joined.sinks == v.sinks + [joined.sinks[|v.sinks|]]
            && joined.sinks[|v.sinks|].log == joined.sinks[|v.sinks|].snapshot
            && joined.sinks[|v.sinks|].snapshot == [
                 PowerEvent(v.machine.power), BrewEvent(v.machine.profiler.active), SteamEvent(v.machine.steam),
                 joined.sinks[|v.sinks|].snapshot[3], ProfileEvent(v.profile), SettingsEvent(v.settings)]
            && joined.sinks[|v.sinks|].snapshot[3].HeaterEvent?
            && joined.sinks[|v.sinks|].joined == |v.broadcasts|
  {
    RunKeepsViews(w, acts);
    var v := Run(w, acts);
    var initial := v.worker.initial;
    assert initial[0] == InitialEvent(v, 0) && initial[1] == InitialEvent(v, 1) && initial[2] == InitialEvent(v, 2);
    assert initial[4] == InitialEvent(v, 4);
  }

  // ---------------------------------------------------------------- heater view

  function QueuedNotices(tasks: seq<Task>): seq<HeatingStatus> {
    if tasks == [] then []
    else (if tasks[0].NotifyHeaterTask? then [tasks[0].status] else []) + QueuedNotices(tasks[1..])
  }

  function StartedNotice(w: World): seq<HeatingStatus> {
    if w.worker.Started? && w.worker.task.NotifyHeaterTask? then [w.worker.task.status] else []
  }

  /** A status stored but whose notification is not queued yet. */
  function StoredNotice(w: World): seq<HeatingStatus> {
    (if w.sensor.Stored? then [w.sensor.status] else [])
    + (if w.worker.Publishing? && w.worker.notice.Some? then [w.worker.notice.value] else [])
  }

  /** The heater notifications still on their way, oldest first. */
  function Notices(w: World): seq<HeatingStatus> {
    StartedNotice(w) + QueuedNotices(w.queue) + StoredNotice(w)
  }

  lemma {:induction false} QueuedNoticesAppend(tasks: seq<Task>, task: Task)
    ensures QueuedNotices(tasks + [task]) ==
            QueuedNotices(tasks) + (if task.NotifyHeaterTask? then [task.status] else [])
  {
    if tasks == [] {
      assert tasks + [task] == [task];
    } else {
      var rest := tasks[1..];
      var head := if tasks[0].NotifyHeaterTask? then [tasks[0].status] else [];
      var added := if task.NotifyHeaterTask? then [task.status] else [];
      assert (tasks + [task])[1..] == rest + [task] && (tasks + [task])[0] == tasks[0];
      QueuedNoticesAppend(rest, task);
      assert QueuedNotices(tasks + [task]) == head + (QueuedNotices(rest) + added);
      assert head + (QueuedNotices(rest) + added) == (head + QueuedNotices(rest)) + added;
    }
  }

  /** The newest notification under way is the published status; with none, every sink has it already. */
  ghost predicate HeaterInv(w: World) {
    var published := w.machine.status.published;
    && (Notices(w) != [] ==> Notices(w)[|Notices(w)| - 1] == published)
    && (Notices(w) == [] ==> AllShow(w, HeaterKind, HeaterEvent(published)))
    && (Notices(w) == [] && w.worker.Joining? && |w.worker.initial| > 3 ==>
          w.worker.initial[3] == HeaterEvent(published))
    && (w.worker.Publishing? && w.worker.event.Some? ==> !w.worker.event.value.HeaterEvent?)
  }

  lemma QueuedKeepsHeater(w: World, task: Task)
    requires HeaterInv(w) && !task.NotifyHeaterTask?
    ensures HeaterInv(Queued(w, task))
  {
    var v := Queued(w, task);
    QueuedNoticesAppend(w.queue, task);
    assert QueuedNotices(w.queue) + [] == QueuedNotices(w.queue);
    assert Notices(v) == Notices(w);
    if Notices(w) == [] {
      DeliveryKeepsShown(w, Submit(task), HeaterKind, HeaterEvent(w.machine.status.published));
    }
  }

  /** Queueing a stored status only moves it along. */
  lemma EnqueueKeepsNotices(w: World, a: Action)
    requires SyncInv(w) && Enabled(w, a) && (a.Enqueue? || a.SensorEnqueue?)
    ensures Notices(Apply(w, a)) == Notices(w)
  {
    var v := Apply(w, a);
    var stored := StoredNotice(w);
    assert StoredNotice(v) == [] && StartedNotice(v) == [] + StartedNotice(w);
    if stored == [] {
      assert v.queue == w.queue;
    } else {
      var task := NotifyHeaterTask(stored[0]);
      assert v.queue == w.queue + [task];
      QueuedNoticesAppend(w.queue, task);
      MoveNotice(StartedNotice(w), QueuedNotices(w.queue), stored);
    }
  }

  lemma MoveNotice(started: seq<HeatingStatus>, queued: seq<HeatingStatus>, stored: seq<HeatingStatus>)
    requires |stored| == 1
    ensures started + (queued + [stored[0]]) + [] == started + queued + stored
  {
  }

  lemma EnqueueKeepsHeater(w: World, a: Action)
    requires SyncInv(w) && HeaterInv(w) && Enabled(w, a) && (a.Enqueue? || a.SensorEnqueue?)
    ensures HeaterInv(Apply(w, a))
  {
    EnqueueKeepsNotices(w, a);
    if Notices(w) == [] {
      DeliveryKeepsShown(w, a, HeaterKind, HeaterEvent(w.machine.status.published));
    }
  }

  lemma BeginKeepsNotices(w: World)
    requires Enabled(w, Begin)
    ensures Notices(Apply(w, Begin)) == Notices(w)
  {
    var v := Apply(w, Begin);
    assert StartedNotice(v) + QueuedNotices(v.queue) == QueuedNotices(w.queue);
    assert [] + QueuedNotices(w.queue) == QueuedNotices(w.queue);
    assert StoredNotice(v) == StoredNotice(w);
  }

  lemma BeginKeepsHeater(w: World)
    requires HeaterInv(w) && Enabled(w, Begin)
    ensures HeaterInv(Apply(w, Begin))
  {
    BeginKeepsNotices(w);
    if Notices(w) == [] {
      DeliveryKeepsShown(w, Begin, HeaterKind, HeaterEvent(w.machine.status.published));
    }
  }

  lemma ReadingNotices(w: World, temperature: int, now: int)
    requires w.sensor.Quiet? && !w.worker.Publishing? && w.machine.status.callback.Some?
    ensures var v := SensorStep(w, temperature, now);
            Notices(v) == Notices(w) + if v.sensor.Stored? then [v.sensor.status] else []
  {
    var v := SensorStep(w, temperature, now);
    assert StartedNotice(v) == StartedNotice(w) && v.queue == w.queue && StoredNotice(w) == [];
  }

  lemma SensorKeepsHeater(w: World, temperature: int, now: int)
    requires SyncInv(w) && HeaterInv(w) && Enabled(w, SensorReading(temperature, now))
    ensures HeaterInv(Apply(w, SensorReading(temperature, now)))
  {
    var a := SensorReading(temperature, now);
    StepKeepsSync(w, a);
    ReadingNotices(w, temperature, now);
    ReadingKeepsCoherence(w.machine, temperature, now);
    if Notices(w) == [] {
      DeliveryKeepsShown(w, a, HeaterKind, HeaterEvent(w.machine.status.published));
    }
  }

  lemma HeaterEventsComeFromNotices(w: World, task: Task, temperature: int, ms: nat, writable: bool)
    requires Coherent(w.machine)
    ensures var e := TaskEffect(w, task, temperature, ms, writable);
            && (e.event.Some? && e.event.value.HeaterEvent? <==> task.NotifyHeaterTask?)
            && (task.NotifyHeaterTask? ==> e.event == Some(HeaterEvent(task.status)) && e.machine == w.machine)
            && (!Touches(w.machine, task, writable) ==> e.machine.status == w.machine.status)
            && e.machine.status.cached == e.machine.status.published
  {
    EffectIsCoherent(w, task, temperature, ms, writable);
    if !Touches(w.machine, task, writable) {
      UntouchedStatus(w, task, temperature, ms, writable);
    }
  }

  lemma NotifyStartsBroadcast(w: World, temperature: int, ms: nat, writable: bool)
    requires w.worker.Started? && w.worker.task.NotifyHeaterTask?
    ensures var v := ExecuteStep(w, temperature, ms, writable);
            && v.machine == w.machine && v.queue == w.queue && v.sensor == w.sensor
            && v.worker == Broadcasting(HeaterEvent(w.worker.task.status), 0)
  {
  }

  lemma NotifyKeepsHeater(w: World, temperature: int, ms: nat, writable: bool)
    requires HeaterInv(w) && w.worker.Started? && w.worker.task.NotifyHeaterTask?
    ensures HeaterInv(ExecuteStep(w, temperature, ms, writable))
  {
    NotifyStartsBroadcast(w, temperature, ms, writable);
    ExecuteShows(w, temperature, ms, writable, HeaterEvent(w.worker.task.status));
    DeliveredNotice(w, ExecuteStep(w, temperature, ms, writable), w.worker.task.status);
  }

  /** The oldest notification has reached every sink: it was the newest too, or the newest is still to come. */
  lemma DeliveredNotice(w: World, v: World, status: HeatingStatus)
    requires HeaterInv(w) && w.worker == Started(NotifyHeaterTask(status)) && v.worker.Broadcasting?
    requires v.queue == w.queue && v.sensor == w.sensor && v.machine == w.machine
    requires AllShow(v, HeaterKind, HeaterEvent(status))
    ensures HeaterInv(v)
  {
    NoticesSplit(w, v, status);
    var ns, all := Notices(v), Notices(w);
    if ns == [] {
      assert all[|all| - 1] == status;
    } else {
      assert all[|all| - 1] == ns[|ns| - 1];
    }
  }

  lemma NoticesSplit(w: World, v: World, status: HeatingStatus)
    requires w.worker == Started(NotifyHeaterTask(status)) && v.worker.Broadcasting?
    requires v.queue == w.queue && v.sensor == w.sensor
    ensures Notices(w) == [status] + Notices(v)
  {
    assert Notices(w) == [status] + (QueuedNotices(w.queue) + StoredNotice(w));
    assert Notices(v) == QueuedNotices(w.queue) + StoredNotice(w);
  }

  lemma ExecuteKeepsHeater(w: World, temperature: int, ms: nat, writable: bool)
    requires SyncInv(w) && HeaterInv(w) && PlainTask(w) && !w.worker.task.NotifyHeaterTask?
    requires Enabled(w, Execute(temperature, ms, writable))
    ensures HeaterInv(ExecuteStep(w, temperature, ms, writable))
  {
    var v := ExecuteStep(w, temperature, ms, writable);
    var task := w.worker.task;
    var e := TaskEffect(w, task, temperature, ms, writable);
    HeaterEventsComeFromNotices(w, task, temperature, ms, writable);
    assert v == Install(w, task, e, Touches(w.machine, task, writable), temperature);
    InstallKeepsHeater(w, task, e, Touches(w.machine, task, writable), temperature);
    if Notices(v) == [] {
      var shown := HeaterEvent(w.machine.status.published);
      ExecuteKeepsShown(w, temperature, ms, writable, HeaterKind, shown, shown);
    }
  }

  /** Replacing the callback adds the changed status, if it changed, as the newest notification. */
  lemma ReplacementNotices(w: World, task: Task, e: Effect, temperature: int)
    requires w.worker == Started(task) && !task.NotifyHeaterTask? && w.sensor.Quiet?
    ensures var v := Install(w, task, e, true, temperature);
            Notices(v) == Notices(w) + if v.worker.notice.Some? then [v.worker.notice.value] else []
  {
    var v := Install(w, task, e, true, temperature);
    assert Notices(w) == QueuedNotices(w.queue);
    assert StoredNotice(v) == if v.worker.notice.Some? then [v.worker.notice.value] else [];
  }

  /** Any other command adds none. */
  lemma PlainNotices(w: World, task: Task, e: Effect, temperature: int)
    requires w.worker == Started(task) && !task.NotifyHeaterTask?
    ensures Notices(Install(w, task, e, false, temperature)) == Notices(w)
  {
    var v := Install(w, task, e, false, temperature);
    assert StartedNotice(v) == StartedNotice(w) && StoredNotice(v) == StoredNotice(w) && v.queue == w.queue;
  }

  lemma InstallKeepsHeater(w: World, task: Task, e: Effect, touches: bool, temperature: int)
    requires SyncInv(w) && HeaterInv(w) && w.worker == Started(task) && !task.NotifyHeaterTask?
    requires e.machine.status.cached == e.machine.status.published
    requires e.event.Some? ==> !e.event.value.HeaterEvent?
    requires if touches then w.sensor.Quiet? else e.machine.status == w.machine.status
    ensures var v := Install(w, task, e, touches, temperature);
            && (Notices(v) != [] ==> Notices(v)[|Notices(v)| - 1] == v.machine.status.published)
            && (Notices(v) == [] ==> Notices(w) == [] && v.machine.status.published == w.machine.status.published)
            && (v.worker.Publishing? && v.worker.event.Some? ==> !v.worker.event.value.HeaterEvent?)
            && !v.worker.Joining?
  {
    if touches {
      ReplacementNotices(w, task, e, temperature);
    } else {
      PlainNotices(w, task, e, temperature);
    }
  }

  lemma SnapshotGrowsKeepsHeater(w: World)
    requires HeaterInv(w) && w.worker.Joining? && |w.worker.initial| < 5
    ensures HeaterInv(PushInitialStep(w))
  {
    assert Notices(PushInitialStep(w)) == Notices(w);
    if Notices(w) == [] {
      DeliveryKeepsShown(w, PushInitial, HeaterKind, HeaterEvent(w.machine.status.published));
    }
  }

  lemma SnapshotDoneKeepsHeater(w: World)
    requires HeaterInv(w) && JoiningInv(w) && w.worker.Joining? && |w.worker.initial| == 5
    ensures HeaterInv(PushInitialStep(w))
  {
    assert Notices(PushInitialStep(w)) == Notices(w);
    if Notices(w) == [] {
      SnapshotShows(w, w.worker.initial + [InitialEvent(w, 5)]);
      JoinShows(w, HeaterKind, HeaterEvent(w.machine.status.published));
    }
  }

  lemma PushKeepsHeater(w: World)
    requires HeaterInv(w) && w.worker.Broadcasting?
    ensures HeaterInv(PushNextStep(w))
  {
    assert Notices(PushNextStep(w)) == Notices(w);
    if Notices(w) == [] {
      DeliveryKeepsShown(w, PushNext, HeaterKind, HeaterEvent(w.machine.status.published));
    }
  }

  lemma ListKeepsHeater(w: World, temperature: int, ms: nat, writable: bool)
    requires HeaterInv(w) && w.worker.Started? && !PlainTask(w)
    ensures HeaterInv(ExecuteStep(w, temperature, ms, writable))
  {
    var v := ExecuteStep(w, temperature, ms, writable);
    assert Notices(v) == Notices(w);
    if Notices(w) == [] {
      ReleaseKeepsShown(w, temperature, ms, writable, HeaterKind, HeaterEvent(w.machine.status.published));
    }
  }

  lemma StepKeepsHeater(w: World, a: Action)
    requires SyncInv(w) && JoiningInv(w) && HeaterInv(w) && Enabled(w, a)
    ensures HeaterInv(Apply(w, a))
  {
    match a
    case Submit(task) => QueuedKeepsHeater(w, task);
    case Begin => BeginKeepsHeater(w);
    case Enqueue => EnqueueKeepsHeater(w, a);
    case SensorEnqueue => EnqueueKeepsHeater(w, a);
    case PushInitial =>
      if |w.worker.initial| < 5 {
        SnapshotGrowsKeepsHeater(w);
      } else {
        SnapshotDoneKeepsHeater(w);
      }
    case PushNext => PushKeepsHeater(w);
    case SensorReading(temperature, now) => SensorKeepsHeater(w, temperature, now);
    case Execute(temperature, ms, writable) =>
      if !PlainTask(w) {
        ListKeepsHeater(w, temperature, ms, writable);
      } else if w.worker.task.NotifyHeaterTask? {
        NotifyKeepsHeater(w, temperature, ms, writable);
      } else {
        ExecuteKeepsHeater(w, temperature, ms, writable);
      }
  }

  lemma {:induction false} RunKeepsHeater(w: World, acts: seq<Action>)
    requires SyncInv(w) && ViewInv(w) && HeaterInv(w) && ValidRun(w, acts)
    ensures SyncInv(Run(w, acts)) && HeaterInv(Run(w, acts))
    decreases |acts|
  {
    if acts != [] {
      StepKeepsSync(w, acts[0]);
      StepKeepsViews(w, acts[0]);
      StepKeepsHeater(w, acts[0]);
      RunKeepsHeater(Apply(w, acts[0]), acts[1..]);
    }
  }

  function HeaterEvents(notices: seq<HeatingStatus>): seq<Event> {
    if notices == [] then [] else HeaterEvents(notices[..|notices| - 1]) + [HeaterEvent(notices[|notices| - 1])]
  }

  /**
    Heater view agreement: in every reachable state and for every sink, the last heater state among its
    log, what it is about to get and all notifications under way is the published one. So once they
    are delivered the log alone shows it, also to a sink that joined while older ones were pending.
   */
  lemma HeaterViewAgreement(w: World, acts: seq<Action>, k: nat)
    requires InitialWorld(w) && ValidRun(w, acts) && k < |Run(w, acts).sinks|
    ensures var v := Run(w, acts);
            var published := HeaterEvent(v.machine.status.published);
            && LastOf(v.sinks[k].log + Carried(v, k) + HeaterEvents(Notices(v)), HeaterKind) == Some(published)
            && (Notices(v) == [] && v.worker.Idle? ==> LastOf(v.sinks[k].log, HeaterKind) == Some(published))
  {
    assert QueuedNotices(w.queue) == [];
    RunKeepsHeater(w, acts);
    NoticesDecide(Run(w, acts), k);
  }

  lemma NoticesDecide(v: World, k: nat)
    requires HeaterInv(v) && k < |v.sinks|
    ensures var published := HeaterEvent(v.machine.status.published);
            && LastOf(v.sinks[k].log + Carried(v, k) + HeaterEvents(Notices(v)), HeaterKind) == Some(published)
            && (Notices(v) == [] && v.worker.Idle? ==> LastOf(v.sinks[k].log, HeaterKind) == Some(published))
  {
    var notices := Notices(v);
    var whole := v.sinks[k].log + Carried(v, k);
    assert whole == Whole(v, k);
    if notices == [] {
      assert whole + [] == whole;
      assert v.sinks[k].log + [] == v.sinks[k].log;
    } else {
      LastHeaterEvent(whole, notices);
    }
  }

  lemma LastHeaterEvent(events: seq<Event>, notices: seq<HeatingStatus>)
    requires notices != []
    ensures LastOf(events + HeaterEvents(notices), HeaterKind) == Some(HeaterEvent(notices[|notices| - 1]))
  {
    var newest := HeaterEvent(notices[|notices| - 1]);
    var older := HeaterEvents(notices[..|notices| - 1]);
    LastOfAppend(events + older, Some(newest), HeaterKind);
    assert events + (older + [newest]) == events + older + [newest];
  }
}
