/** The current profile and its application to the machine. */
module BrewProfileManagers {
  import opened BrewProfiles
  import opened Machines
  import opened StateManagers

  class BrewProfileManager {
    var currentProfile: BrewProfile

    constructor (profile: BrewProfile)
      ensures currentProfile == profile
    {
      currentProfile := profile;
    }

    /** `writable` says whether the profile could be serialized and written to its file. */
    method SaveProfile(profile: BrewProfile, writable: bool) returns (ok: bool)
      modifies this
      ensures currentProfile == profile && ok == writable
    {
      currentProfile := profile;
      return writable;
    }

    method ApplyBrewProfile(manager: StateManager, temperature: int) returns (ok: bool)
      requires manager.Valid()
      modifies manager.Repr
      ensures manager.Valid() && currentProfile == old(currentProfile)
      ensures Outcome(manager.View(), ok) == ApplyProfile(old(manager.View()), currentProfile, temperature)
      ensures manager.statusManager.notified == old(manager.statusManager.notified)
                + Notice(old(manager.statusManager.cached), manager.statusManager.cached)
    {
      manager.SetBrewTarget(currentProfile.temperature, temperature);
      ok := manager.SetSteps(currentProfile.steps);
      if !ok {
        return false;
      }
      if currentProfile.stop.None? {
        ok := manager.SetStopCondition(Never);
        return ok;
      }
      match currentProfile.stop.value.kind {
        case TotalTimeStop => ok := manager.SetStopCondition(OnTotalTime(currentProfile.stop.value.value));
        case TotalWeightStop => ok := manager.SetStopCondition(OnWeight(currentProfile.stop.value.value));
        case OtherStop => ok := false;
      }
    }
  }
}
