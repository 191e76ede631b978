/** Profile and settings: what every client believes about them, in every run. */
module DispatcherSaved {
  import opened Options
  import opened BrewProfiles
  import opened Machines
  import opened DispatcherSystem
  import opened DispatcherMachine
  import opened DispatcherViews
  import opened DispatcherPower
  import opened DispatcherClients

  /** The profile is written and then applied in full. */
  predicate AppliesProfile(m: Machine, profile: BrewProfile, writable: bool) {
    && writable && !m.profiler.active
    && (forall i :: 0 <= i < |profile.steps| ==> Convertible(profile.steps[i]))
    && (profile.stop.Some? ==> profile.stop.value.kind != OtherStop)
  }

  /** The current profile is replaced before it is written and applied, but told only if both succeeded. */
  lemma SavedProfileView(w: World, temperature: int, ms: nat, writable: bool, k: nat)
    requires w.worker.Started? && w.worker.task.SetProfileTask? && k < |w.sinks|
    requires LastOf(Whole(w, k), ProfileKind) == Some(ProfileEvent(w.profile))
    ensures var v := ExecuteStep(w, temperature, ms, writable);
            var profile := w.worker.task.profile;
            && v.profile == profile && k < |v.sinks|
            && (LastOf(Whole(v, k), ProfileKind) == Some(ProfileEvent(v.profile)) <==>
                  profile == w.profile || AppliesProfile(w.machine, profile, writable))
  {
    var profile := w.worker.task.profile;
    ProfileApplied(w.machine, profile, temperature);
    ExecuteExtendsWhole(w, temperature, ms, writable, k);
    LastOfAppend(Whole(w, k), TaskEffect(w, w.worker.task, temperature, ms, writable).event, ProfileKind);
  }

  /** Likewise the settings: a client is wrong about them iff they changed and could not be written. */
  lemma SavedSettingsView(w: World, temperature: int, ms: nat, writable: bool, k: nat)
    requires w.worker.Started? && w.worker.task.SetSettingsTask? && k < |w.sinks|
    requires LastOf(Whole(w, k), SettingsKind) == Some(SettingsEvent(w.settings))
    ensures var v := ExecuteStep(w, temperature, ms, writable);
            && v.settings == w.worker.task.steamTemperature && k < |v.sinks|
            && (LastOf(Whole(v, k), SettingsKind) == Some(SettingsEvent(v.settings)) <==>
                  v.settings == w.settings || writable)
  {
    ExecuteExtendsWhole(w, temperature, ms, writable, k);
    LastOfAppend(Whole(w, k), TaskEffect(w, w.worker.task, temperature, ms, writable).event, SettingsKind);
  }

  // ---------------------------------------------------------------- over whole runs

  /** What a client was last told, and what was saved since then without telling, because it was refused. */
  datatype Belief<T> = Belief(told: T, refused: seq<T>)

  /** What is current, then. */
  function Current<T>(b: Belief<T>): T {
    if b.refused == [] then b.told else b.refused[|b.refused| - 1]
  }

  /** The step adds the client with order n to the list; its snapshot tells it the state of this moment. */
  predicate Joins(w: World, a: Action, n: nat) {
    a.PushInitial? && w.worker.Joining? && |w.worker.initial| == 5 && |w.executed| == n
  }

  function NextProfile(w: World, a: Action, n: nat, b: Belief<BrewProfile>): Belief<BrewProfile>
    requires Enabled(w, a)
  {
    if Joins(w, a, n) then Belief(w.profile, [])
    else if a.Execute? && w.worker.task.SetProfileTask? then
      if AppliesProfile(w.machine, w.worker.task.profile, a.writable) then Belief(w.worker.task.profile, [])
      else b.(refused := b.refused + [w.worker.task.profile])
    else b
  }

  function NextSettings(w: World, a: Action, n: nat, b: Belief<int>): Belief<int>
    requires Enabled(w, a)
  {
    if Joins(w, a, n) then Belief(w.settings, [])
    else if a.Execute? && w.worker.task.SetSettingsTask? then
      if a.writable then Belief(w.worker.task.steamTemperature, [])
      else b.(refused := b.refused + [w.worker.task.steamTemperature])
    else b
  }

  function ProfileBelief(w: World, acts: seq<Action>, n: nat, b: Belief<BrewProfile>): Belief<BrewProfile>
    requires ValidRun(w, acts)
    decreases |acts|
  {
    if acts == [] then b else ProfileBelief(Apply(w, acts[0]), acts[1..], n, NextProfile(w, acts[0], n, b))
  }

  function SettingsBelief(w: World, acts: seq<Action>, n: nat, b: Belief<int>): Belief<int>
    requires ValidRun(w, acts)
    decreases |acts|
  {
    if acts == [] then b else SettingsBelief(Apply(w, acts[0]), acts[1..], n, NextSettings(w, acts[0], n, b))
  }

  /** The client with order n, if there, shows this event of the kind. */
  ghost predicate Shows(w: World, n: nat, kind: Kind, event: Event) {
    forall k :: 0 <= k < |w.sinks| && w.sinks[k].order == n ==> LastOf(Whole(w, k), kind) == Some(event)
  }

  lemma DeliveryKeepsShows(w: World, a: Action, n: nat, kind: Kind, event: Event)
    requires Enabled(w, a) && Delivers(w, a) && Shows(w, n, kind, event)
    ensures Shows(Apply(w, a), n, kind, event)
  {
    var v := Apply(w, a);
    assert |v.sinks| == |w.sinks|;
    forall k | 0 <= k < |v.sinks| && v.sinks[k].order == n
      ensures LastOf(Whole(v, k), kind) == Some(event)
    {
      DeliveryKeepsWhole(w, a, k);
      assert v.sinks[k].order == w.sinks[k].(log := []).order;
    }
  }

  lemma ListKeepsShows(w: World, temperature: int, ms: nat, writable: bool, n: nat, kind: Kind, event: Event)
    requires w.worker.Started? && !PlainTask(w) && Shows(w, n, kind, event)
    ensures Shows(ExecuteStep(w, temperature, ms, writable), n, kind, event)
  {
    var v := ExecuteStep(w, temperature, ms, writable);
    forall k | 0 <= k < |v.sinks| && v.sinks[k].order == n
      ensures LastOf(Whole(v, k), kind) == Some(event)
    {
      var j := ListedBefore(w, temperature, ms, writable, k);
    }
  }

  lemma ExecuteMovesShows(w: World, temperature: int, ms: nat, writable: bool, n: nat, kind: Kind,
                          before: Event, after: Event)
    requires PlainTask(w) && Shows(w, n, kind, before)
    requires var event := TaskEffect(w, w.worker.task, temperature, ms, writable).event;
             after == if event.Some? && KindOf(event.value) == kind then event.value else before
    ensures Shows(ExecuteStep(w, temperature, ms, writable), n, kind, after)
  {
    var v := ExecuteStep(w, temperature, ms, writable);
    var event := TaskEffect(w, w.worker.task, temperature, ms, writable).event;
    assert v.sinks == w.sinks;
    forall k | 0 <= k < |v.sinks| && v.sinks[k].order == n
      ensures LastOf(Whole(v, k), kind) == Some(after)
    {
      ExecuteExtendsWhole(w, temperature, ms, writable, k);
      LastOfAppend(Whole(w, k), event, kind);
    }
  }

  /** A join shows the new client its snapshot, and the others what they saw before. */
  lemma JoinMovesShows(w: World, n: nat, kind: Kind, before: Event, after: Event)
    requires OrdersInv(w) && Shows(w, n, kind, before) && w.worker.Joining? && |w.worker.initial| == 5
    requires if |w.executed| == n then LastOf(w.worker.initial + [InitialEvent(w, 5)], kind) == Some(after)
             else before == after
    ensures Shows(PushInitialStep(w), n, kind, after)
  {
    var v := PushInitialStep(w);
    forall k | 0 <= k < |v.sinks| && v.sinks[k].order == n
      ensures LastOf(Whole(v, k), kind) == Some(after)
    {
      if k < |w.sinks| {
        assert Whole(v, k) == Whole(w, k);
      } else {
        assert Whole(v, k) == w.worker.initial + [InitialEvent(w, 5)];
      }
    }
  }

  ghost predicate SavedInv(w: World, n: nat, profile: Belief<BrewProfile>, settings: Belief<int>) {
    && Shows(w, n, ProfileKind, ProfileEvent(profile.told)) && Current(profile) == w.profile
    && Shows(w, n, SettingsKind, SettingsEvent(settings.told)) && Current(settings) == w.settings
  }

  /** The events and the stored values of a task, as the beliefs move. */
  lemma TasksTellSaved(w: World, task: Task, temperature: int, ms: nat, writable: bool)
    ensures var e := TaskEffect(w, task, temperature, ms, writable);
            && (e.event.Some? && e.event.value.ProfileEvent? <==>
                  task.SetProfileTask? && AppliesProfile(w.machine, task.profile, writable))
            && (e.event.Some? && e.event.value.ProfileEvent? ==> e.event.value == ProfileEvent(task.profile))
            && e.profile == (if task.SetProfileTask? then task.profile else w.profile)
            && (e.event.Some? && e.event.value.SettingsEvent? <==> task.SetSettingsTask? && writable)
            && (e.event.Some? && e.event.value.SettingsEvent? ==>
                  e.event.value == SettingsEvent(task.steamTemperature))
            && e.settings == (if task.SetSettingsTask? then task.steamTemperature else w.settings)
  {
    if task.SetProfileTask? {
      ProfileApplied(w.machine, task.profile, temperature);
    }
  }

  lemma ExecuteStoresSaved(w: World, temperature: int, ms: nat, writable: bool)
    requires w.worker.Started?
    ensures var v := ExecuteStep(w, temperature, ms, writable);
            var e := TaskEffect(w, w.worker.task, temperature, ms, writable);
            v.profile == e.profile && v.settings == e.settings
  {
  }

  lemma ExecuteKeepsSaved(w: World, a: Action, n: nat, profile: Belief<BrewProfile>, settings: Belief<int>)
    requires SavedInv(w, n, profile, settings) && Enabled(w, a) && a.Execute? && PlainTask(w)
    ensures SavedInv(Apply(w, a), n, NextProfile(w, a, n, profile), NextSettings(w, a, n, settings))
  {
    var e := TaskEffect(w, w.worker.task, a.temperature, a.ms, a.writable);
    TasksTellSaved(w, w.worker.task, a.temperature, a.ms, a.writable);
    ExecuteStoresSaved(w, a.temperature, a.ms, a.writable);
    ExecuteMovesShows(w, a.temperature, a.ms, a.writable, n, ProfileKind, ProfileEvent(profile.told),
                      ProfileEvent(NextProfile(w, a, n, profile).told));
    ExecuteMovesShows(w, a.temperature, a.ms, a.writable, n, SettingsKind, SettingsEvent(settings.told),
                      SettingsEvent(NextSettings(w, a, n, settings).told));
  }

  lemma JoinKeepsSaved(w: World, n: nat, profile: Belief<BrewProfile>, settings: Belief<int>)
    requires JoiningInv(w) && OrdersInv(w) && SavedInv(w, n, profile, settings)
    requires w.worker.Joining? && |w.worker.initial| == 5
    ensures SavedInv(PushInitialStep(w), n, NextProfile(w, PushInitial, n, profile),
                     NextSettings(w, PushInitial, n, settings))
  {
    SnapshotShows(w, w.worker.initial + [InitialEvent(w, 5)]);
    JoinMovesShows(w, n, ProfileKind, ProfileEvent(profile.told),
                   ProfileEvent(NextProfile(w, PushInitial, n, profile).told));
    JoinMovesShows(w, n, SettingsKind, SettingsEvent(settings.told),
                   SettingsEvent(NextSettings(w, PushInitial, n, settings).told));
  }

  lemma DeliveryKeepsSavedValues(w: World, a: Action)
    requires Enabled(w, a) && Delivers(w, a)
    ensures Apply(w, a).profile == w.profile && Apply(w, a).settings == w.settings
  {
  }

  lemma StepKeepsSaved(w: World, a: Action, n: nat, profile: Belief<BrewProfile>, settings: Belief<int>)
    requires JoiningInv(w) && OrdersInv(w) && SavedInv(w, n, profile, settings) && Enabled(w, a)
    ensures SavedInv(Apply(w, a), n, NextProfile(w, a, n, profile), NextSettings(w, a, n, settings))
  {
    if Delivers(w, a) {
      DeliveryKeepsSavedValues(w, a);
      DeliveryKeepsShows(w, a, n, ProfileKind, ProfileEvent(profile.told));
      DeliveryKeepsShows(w, a, n, SettingsKind, SettingsEvent(settings.told));
    } else if a.PushInitial? {
      JoinKeepsSaved(w, n, profile, settings);
    } else if PlainTask(w) {
      ExecuteKeepsSaved(w, a, n, profile, settings);
    } else {
      ExecuteStoresSaved(w, a.temperature, a.ms, a.writable);
      ListKeepsShows(w, a.temperature, a.ms, a.writable, n, ProfileKind, ProfileEvent(profile.told));
      ListKeepsShows(w, a.temperature, a.ms, a.writable, n, SettingsKind, SettingsEvent(settings.told));
    }
  }

  lemma {:induction false} RunKeepsSaved(w: World, acts: seq<Action>, n: nat, profile: Belief<BrewProfile>,
                                         settings: Belief<int>)
    requires SyncInv(w) && ViewInv(w) && OrdersInv(w) && SavedInv(w, n, profile, settings) && ValidRun(w, acts)
    ensures SavedInv(Run(w, acts), n, ProfileBelief(w, acts, n, profile), SettingsBelief(w, acts, n, settings))
    decreases |acts|
  {
    if acts != [] {
      var a := acts[0];
      StepKeepsSync(w, a);
      StepKeepsViews(w, a);
      StepKeepsOrders(w, a);
      StepKeepsSaved(w, a, n, profile, settings);
      RunKeepsSaved(Apply(w, a), acts[1..], n, NextProfile(w, a, n, profile), NextSettings(w, a, n, settings));
    }
  }

  /** Not current, given the belief. */
  predicate OutOfDate<T(==)>(b: Belief<T>) {
    b.refused != [] && b.refused[|b.refused| - 1] != b.told
  }

  /**
    In every run a client believes of profile and settings what its snapshot or the last update that was
    accepted since then told it, and it is wrong iff an update was refused after that and the last one
    refused differs.
   */
  lemma SavedViewsExactly(w: World, acts: seq<Action>, k: nat)
    requires InitialWorld(w) && ValidRun(w, acts) && k < |Run(w, acts).sinks|
    ensures var v := Run(w, acts);
            var n, events := v.sinks[k].order, v.sinks[k].log + Carried(v, k);
            var profile := ProfileBelief(w, acts, n, Belief(w.profile, []));
            var settings := SettingsBelief(w, acts, n, Belief(w.settings, []));
            && LastOf(events, ProfileKind) == Some(ProfileEvent(profile.told))
            && (LastOf(events, ProfileKind) != Some(ProfileEvent(v.profile)) <==> OutOfDate(profile))
            && LastOf(events, SettingsKind) == Some(SettingsEvent(settings.told))
            && (LastOf(events, SettingsKind) != Some(SettingsEvent(v.settings)) <==> OutOfDate(settings))
  {
    var v := Run(w, acts);
    RunKeepsSaved(w, acts, v.sinks[k].order, Belief(w.profile, []), Belief(w.settings, []));
    assert v.sinks[k].log + Carried(v, k) == Whole(v, k);
  }

  // ---------------------------------------------------------------- a client that is wrong

  /** A profile and settings that cannot be written reach a quiet dispatcher. */
  lemma RefusedRun(w: World, task: Task) returns (acts: seq<Action>)
    requires w.worker.Idle? && w.queue == [] && (task.SetProfileTask? || task.SetSettingsTask?)
    ensures ValidRun(w, acts)
    ensures var v := Run(w, acts);
            && v.worker.Idle? && v.queue == [] && v.sinks == w.sinks
            && v.profile == (if task.SetProfileTask? then task.profile else w.profile)
            && v.settings == (if task.SetSettingsTask? then task.steamTemperature else w.settings)
  {
    acts := StartRun(w, task);
    RunExtend(w, acts, Execute(0, 0, false));
    acts := acts + [Execute(0, 0, false)];
  }

  /** From every initial state a run leads to a client that is wrong about the profile and the settings. */
  lemma MisinformedClientExists(w: World) returns (acts: seq<Action>)
    requires InitialWorld(w)
    ensures ValidRun(w, acts)
    ensures var v := Run(w, acts);
            && v.worker.Idle? && |v.sinks| == 1
            && LastOf(v.sinks[0].log, ProfileKind) == Some(ProfileEvent(w.profile)) && v.profile != w.profile
            && LastOf(v.sinks[0].log, SettingsKind) == Some(SettingsEvent(w.settings)) && v.settings != w.settings
  {
    acts := JoinRun(w);
    var refuse := RefusedRun(Run(w, acts), SetProfileTask(w.profile.(temperature := w.profile.temperature + 1)));
    RunAppend(w, acts, refuse);
    acts := acts + refuse;
    refuse := RefusedRun(Run(w, acts), SetSettingsTask(w.settings + 1));
    RunAppend(w, acts, refuse);
    acts := acts + refuse;
    SnapshotShows(w, InitialEvents(w));
  }
}
