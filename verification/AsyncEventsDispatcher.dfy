/** The dispatcher's task bodies as the executor's worker runs them, one at a time. */
module AsyncEventsDispatcher {
  import opened Options
  import opened Lists
  import opened Hysteresis
  import opened BrewProfiles
  import opened Machines
  import opened StateManagers
  import opened BrewProfileManagers
  import System = DispatcherSystem
  import DispatcherMachine

  /** A client's reactor; `id` stands for its address. */
  class EventSink {
    const id: nat
    var pushed: seq<System.Event>

    constructor (id: nat)
      ensures this.id == id && pushed == []
    {
      this.id, pushed := id, [];
    }

    method NotifyChanged(event: System.Event)
      modifies this
      ensures pushed == old(pushed) + [event]
    {
      pushed := pushed + [event];
    }
  }

  function Others(reactor: EventSink): EventSink -> bool {
    (s: EventSink) => s != reactor
  }

  /** The list with every occurrence of one reactor taken out. */
  function Without(sinks: seq<EventSink>, reactor: EventSink): seq<EventSink> {
    Filter(sinks, Others(reactor))
  }

  /** Only that reactor is gone, and the rest keeps its multiplicity. */
  lemma {:induction false} WithoutRemovesOnly(sinks: seq<EventSink>, reactor: EventSink)
    ensures reactor !in Without(sinks, reactor)
    ensures forall s :: s in sinks && s != reactor ==> s in Without(sinks, reactor)
    ensures multiset(Without(sinks, reactor)) == multiset(sinks)[reactor := 0]
  {
    if sinks != [] {
      var front, last := sinks[..|sinks| - 1], sinks[|sinks| - 1];
      assert sinks == front + [last];
      WithoutRemovesOnly(front, reactor);
    }
  }

  /** No two reactors share an address. */
  ghost predicate Distinct(sinks: seq<EventSink>) {
    forall i, j :: 0 <= i < j < |sinks| ==> sinks[i].id != sinks[j].id
  }

  lemma WithoutStaysDistinct(sinks: seq<EventSink>, reactor: EventSink)
    requires Distinct(sinks)
    ensures Distinct(Without(sinks, reactor))
    ensures forall i :: 0 <= i < |Without(sinks, reactor)| ==> Without(sinks, reactor)[i] in sinks
  {
    var at := FilterKeepsOrder(sinks, Others(reactor));
    var kept := Without(sinks, reactor);
    forall i, j | 0 <= i < j < |kept|
      ensures kept[i].id != kept[j].id
    {
      assert kept[i] == sinks[at[i]] && kept[j] == sinks[at[j]];
    }
  }

  /** The reactors as the system of interleaved steps sees them. */
  function ListOf(sinks: seq<EventSink>): (list: seq<System.Sink>)
    reads sinks
    ensures |list| == |sinks|
  {
    seq(|sinks|, i requires 0 <= i < |sinks| reads sinks => System.Sink(sinks[i].id, sinks[i].pushed, [], 0, 0))
  }

  /** Taking a reactor out is what the release does to them. */
  lemma {:induction false} WithoutIsRemove(sinks: seq<EventSink>, reactor: EventSink)
    requires forall s :: s in sinks && s.id == reactor.id ==> s == reactor
    ensures ListOf(Without(sinks, reactor)) == System.RemoveSink(ListOf(sinks), reactor.id)
  {
    if sinks != [] {
      var front, last := sinks[..|sinks| - 1], sinks[|sinks| - 1];
      WithoutIsRemove(front, reactor);
      assert ListOf(sinks)[..|sinks| - 1] == ListOf(front);
      assert last in sinks;
    }
  }

  lemma SixAppended(log: seq<System.Event>, six: seq<System.Event>)
    requires |six| == 6
    ensures log + [six[0]] + [six[1]] + [six[2]] + [six[3]] + [six[4]] + [six[5]] == log + six
  {
  }

  class AsyncEventDispatcher {
    const manager: StateManager
    const profiles: BrewProfileManager
    var settings: int
    var sinks: seq<EventSink>

    ghost predicate Valid()
      reads this, manager.Repr
    {
      && manager.Valid()
      && Distinct(sinks)
      && (forall i :: 0 <= i < |sinks| ==> sinks[i] !in manager.Repr)
    }

    /** The managers' state as the system of interleaved steps sees it. */
    ghost function View(): System.World
      requires manager.statusManager.Valid()
      reads this, manager.Repr, profiles
    {
      System.Init(manager.View(), profiles.currentProfile, settings)
    }

    /** Every sink got exactly these events. */
    twostate predicate Sent(events: seq<System.Event>)
      reads this, sinks
    {
      sinks == old(sinks) && forall i :: 0 <= i < |sinks| ==> sinks[i].pushed == old(sinks[i].pushed) + events
    }

    /** The change callback was given the status that is now published if it changed, and nothing otherwise. */
    twostate predicate Told()
      reads this, manager.Repr
    {
      && old(manager.statusManager.Valid()) && manager.statusManager.Valid()
      && manager.statusManager.notified == old(manager.statusManager.notified)
           + (if manager.statusManager.published == old(manager.statusManager.published) then []
              else [manager.statusManager.published])
    }

    /** The task had its effect on the managers, and its event, if any, went to every sink. */
    twostate predicate Performed(task: System.Task, temperature: int, ms: nat, writable: bool)
      reads this, manager.Repr, profiles, sinks
    {
      && old(Valid()) && Valid()
      && var e := System.TaskEffect(old(View()), task, temperature, ms, writable);
         && manager.View() == e.machine && profiles.currentProfile == e.profile && settings == e.settings
         && Sent(System.EventSeq(e.event)) && Told()
    }

    /** What the change callback was given is what the system's step for the task has under way. */
    twostate lemma TaskNotifies(task: System.Task, temperature: int, ms: nat, writable: bool)
      requires Performed(task, temperature, ms, writable)
      ensures manager.statusManager.notified
           == old(manager.statusManager.notified) + System.TaskNotice(old(View()), task, temperature, ms, writable)
    {
      DispatcherMachine.TaskNoticeIsTheChange(old(View()), task, temperature, ms, writable);
    }

    /** So is what it is given on a reading. */
    twostate lemma ReadingNotifies(temperature: int, now: int)
      requires old(Valid()) && Valid() && Told() && old(View()).machine.status.callback.Some?
      requires View() == old(View()).(machine := System.SensorStep(old(View()), temperature, now).machine)
      ensures var sensor := System.SensorStep(old(View()), temperature, now).sensor;
              var stored := if sensor.Stored? then [sensor.status] else [];
              manager.statusManager.notified == old(manager.statusManager.notified) + stored
    {
      DispatcherMachine.ReadingNoticeIsTheChange(old(View()), temperature, now);
    }

    constructor (manager: StateManager, profiles: BrewProfileManager, settings: int)
      requires manager.Valid()
      ensures Valid() && sinks == [] && this.manager == manager && this.profiles == profiles
      ensures this.settings == settings
    {
      this.manager, this.profiles, this.settings, sinks := manager, profiles, settings, [];
    }

    method Broadcast(event: System.Event)
      requires Valid()
      modifies sinks
      ensures Valid() && View() == old(View()) && Sent([event])
      ensures manager.statusManager.notified == old(manager.statusManager.notified)
    {
      for i := 0 to |sinks|
        invariant forall k :: 0 <= k < i ==> sinks[k].pushed == old(sinks[k].pushed) + [event]
        invariant forall k :: i <= k < |sinks| ==> sinks[k].pushed == old(sinks[k].pushed)
        invariant Valid() && View() == old(View())
        invariant manager.statusManager.notified == old(manager.statusManager.notified)
      {
        sinks[i].NotifyChanged(event);
      }
    }

    method DoSetPowerState(state: bool, temperature: int)
      requires Valid()
      modifies manager.Repr, sinks
      ensures Performed(System.SetPowerTask(state), temperature, 0, false)
    {
      manager.SetPowerState(state, temperature);
      Broadcast(System.PowerEvent(state));
    }

    method TogglePowerState(temperature: int)
      requires Valid()
      modifies manager.Repr, sinks
      ensures Performed(System.TogglePowerTask, temperature, 0, false)
    {
      DoSetPowerState(!manager.power, temperature);
    }

    method DoStartBrew(ms: nat)
      requires Valid()
      modifies manager.Repr, sinks
      ensures Performed(System.StartBrewTask, 0, ms, false)
    {
      var ok := manager.StartBrewing(ms);
      if ok {
        Broadcast(System.BrewEvent(true));
      }
    }

    method DoStopBrew(ms: nat)
      requires Valid()
      modifies manager.Repr, sinks
      ensures Performed(System.StopBrewTask, 0, ms, false)
    {
      if !manager.profiler.active {
        return;
      }
      manager.StopBrewing(ms);
      Broadcast(System.BrewEvent(false));
    }

    method ToggleBrew(ms: nat)
      requires Valid()
      modifies manager.Repr, sinks
      ensures Performed(System.ToggleBrewTask, 0, ms, false)
    {
      if manager.profiler.active {
        DoStopBrew(ms);
      } else {
        DoStartBrew(ms);
      }
    }

    method DoSetSteamModeState(state: bool, temperature: int)
      requires Valid()
      modifies manager.Repr, sinks
      ensures Performed(System.SetSteamTask(state), temperature, 0, false)
    {
      ghost var before := View();
      var ok := manager.SetSteamModeState(state, temperature);
      assert System.TaskEffect(before, System.SetSteamTask(state), temperature, 0, false)
          == System.SteamEffect(before, state, temperature);
      if ok {
        Broadcast(System.SteamEvent(state));
      }
    }

    method ToggleSteamModeState(temperature: int)
      requires Valid()
      modifies manager.Repr, sinks
      ensures Performed(System.ToggleSteamTask, temperature, 0, false)
    {
      DoSetSteamModeState(!manager.steam, temperature);
    }

    /** startBrew with a callback: no event. */
    method StartBrewWithReply(ms: nat) returns (ok: bool)
      requires Valid()
      modifies manager.Repr
      ensures Performed(System.StartBrewReply, 0, ms, false)
      ensures ok <==> old(manager.profiler.active || (manager.power && !manager.steam))
    {
      ok := manager.StartBrewing(ms);
    }

    /** stopBrew with a callback: an empty progress, brewing or not. */
    method StopBrewWithReply(ms: nat)
      requires Valid()
      modifies manager.Repr, sinks
      ensures Performed(System.StopBrewReply, 0, ms, false)
    {
      manager.StopBrewing(ms);
      Broadcast(System.ProgressEvent(None));
    }

    method ResetWeightWithReply() returns (ok: bool)
      requires Valid()
      modifies manager.Repr
      ensures Performed(System.ResetWeightTask, 0, 0, false)
      ensures ok <==> !old(manager.profiler.active)
    {
      ok := manager.ResetWeight();
    }

    method ApplyCurrentProfile(temperature: int) returns (ok: bool)
      requires Valid()
      modifies manager.Repr, sinks
      ensures Valid()
      ensures Outcome(manager.View(), ok) == ApplyProfile(old(manager.View()), profiles.currentProfile, temperature)
      ensures Sent(if ok then [System.ProfileEvent(profiles.currentProfile)] else []) && Told()
    {
      ok := profiles.ApplyBrewProfile(manager, temperature);
      if ok {
        Broadcast(System.ProfileEvent(profiles.currentProfile));
      }
    }

    method SetBrewProfile(profile: BrewProfile, temperature: int, writable: bool) returns (ok: bool)
      requires Valid()
      modifies manager.Repr, profiles, sinks
      ensures Performed(System.SetProfileTask(profile), temperature, 0, writable)
      ensures ok <==> writable && ApplyProfile(old(manager.View()), profile, temperature).ok
    {
      ghost var before := View();
      assert System.TaskEffect(before, System.SetProfileTask(profile), temperature, 0, writable)
          == System.ProfileEffect(before, profile, temperature, writable);
      ok := profiles.SaveProfile(profile, writable);
      if ok {
        ok := ApplyCurrentProfile(temperature);
      }
    }

    method ApplySettings(target: int, temperature: int)
      requires Valid()
      modifies manager.Repr, sinks
      ensures Valid() && manager.View() == SetSteamTemperature(old(manager.View()), target, temperature)
      ensures Sent([System.SettingsEvent(target)]) && Told()
    {
      manager.SetSteamTarget(target, temperature);
      Broadcast(System.SettingsEvent(target));
    }

    method SetUserSettings(target: int, temperature: int, writable: bool) returns (ok: bool)
      requires Valid()
      modifies this`settings, manager.Repr, sinks
      ensures Performed(System.SetSettingsTask(target), temperature, 0, writable)
      ensures ok == writable
    {
      ghost var before := View();
      assert System.TaskEffect(before, System.SetSettingsTask(target), temperature, 0, writable)
          == System.SettingsEffect(before, target, temperature, writable);
      settings := target;
      if writable {
        ApplySettings(target, temperature);
      }
      return writable;
    }

    method NotifyHeatingStatusChange(status: HeatingStatus)
      requires Valid()
      modifies sinks
      ensures Performed(System.NotifyHeaterTask(status), 0, 0, false)
    {
      Broadcast(System.HeaterEvent(status));
    }

    method DoNotifyBrewStepChange(step: nat)
      requires Valid()
      modifies sinks
      ensures Performed(System.NotifyStepTask(step), 0, 0, false)
    {
      Broadcast(System.ProgressEvent(Some(step)));
    }

    /** The six events of the snapshot, in order. */
    method SendInitialState(sink: EventSink)
      requires Valid() && sink !in sinks && sink !in manager.Repr
      modifies sink
      ensures Valid() && View() == old(View())
      ensures sink.pushed == old(sink.pushed) + System.InitialEvents(old(View()))
    {
      ghost var pushed, events := sink.pushed, System.InitialEvents(View());
      sink.NotifyChanged(System.PowerEvent(manager.power));
      sink.NotifyChanged(System.BrewEvent(manager.profiler.active));
      sink.NotifyChanged(System.SteamEvent(manager.steam));
      sink.NotifyChanged(System.HeaterEvent(manager.statusManager.published));
      sink.NotifyChanged(System.ProfileEvent(profiles.currentProfile));
      sink.NotifyChanged(System.SettingsEvent(settings));
      SixAppended(pushed, events);
    }

    /** The system's run for this task; `sink` is a reactor nothing was pushed to yet, with an address of its own. */
    method AddEventsStreamReactor(sink: EventSink)
      requires Valid() && sink !in manager.Repr && sink.pushed == []
      requires forall s :: s in sinks ==> s.id != sink.id
      modifies this`sinks, sink
      ensures Valid() && View() == old(View()) && sinks == old(sinks) + [sink]
      ensures sink.pushed == System.InitialEvents(old(View()))
      ensures var w := System.Starting(old(View()), old(ListOf(sinks)), System.AddSinkTask(sink.id));
              System.ValidRun(w, System.AddActions()) &&
              ListOf(sinks) == System.Outline(System.Run(w, System.AddActions()).sinks)
    {
      System.AddSinkOutline(View(), ListOf(sinks), sink.id);
      SendAndList(sink);
    }

    method SendAndList(sink: EventSink)
      requires Valid() && sink !in manager.Repr && sink.pushed == []
      requires forall s :: s in sinks ==> s.id != sink.id
      modifies this`sinks, sink
      ensures Valid() && View() == old(View()) && sinks == old(sinks) + [sink]
      ensures sink.pushed == System.InitialEvents(old(View()))
      ensures ListOf(sinks) == old(ListOf(sinks)) + [System.Sink(sink.id, sink.pushed, [], 0, 0)]
    {
      SendInitialState(sink);
      sinks := sinks + [sink];
    }

    /** The loop of the removal. */
    method KeepOthers(reactor: EventSink) returns (kept: seq<EventSink>)
      ensures kept == Without(sinks, reactor)
    {
      kept := [];
      for i := 0 to |sinks|
        invariant kept == Without(sinks[..i], reactor)
      {
        assert sinks[..i + 1][..i] == sinks[..i];
        if sinks[i] != reactor {
          kept := kept + [sinks[i]];
        }
      }
      assert sinks[..|sinks|] == sinks;
    }

    /** The system's step for this task. */
    method ReleaseEventsStreamReactor(reactor: EventSink)
      requires Valid() && forall s :: s in sinks && s.id == reactor.id ==> s == reactor
      modifies this`sinks
      ensures Valid() && View() == old(View()) && sinks == Without(old(sinks), reactor)
      ensures var w := System.Starting(old(View()), old(ListOf(sinks)), System.ReleaseSinkTask(reactor.id));
              ListOf(sinks) == System.ExecuteStep(w, 0, 0, false).sinks
    {
      WithoutStaysDistinct(sinks, reactor);
      WithoutIsRemove(sinks, reactor);
      sinks := KeepOthers(reactor);
    }

    /** The destructor's task. */
    method ShutDown(temperature: int, ms: nat)
      requires Valid()
      modifies manager.Repr
      ensures Performed(System.ShutDownTask, temperature, ms, false)
    {
      StopAndPowerOff(temperature, ms);
    }

    method StopAndPowerOff(temperature: int, ms: nat)
      requires Valid()
      modifies manager.Repr
      ensures Valid() && manager.View() == Machines.ShutDown(old(manager.View()), ms, temperature) && Told()
    {
      if manager.profiler.active {
        manager.StopBrewing(ms);
      }
      if manager.power {
        manager.SetPowerState(false, temperature);
      }
    }
  }
}
