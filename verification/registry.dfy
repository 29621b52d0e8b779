/** Derp/ActivityManager.cs: the process-wide registry of activities by name. The static
    dictionary becomes the field of one manager object. */
module Registry {
  import opened Runtime
  import opened Network
  import opened Derp

  class ActivityManager {
    /** The registered activities, by name. */
    var activities: map<string, Activity>

    constructor ()
      ensures activities == map[]
    {
      activities := map[];
    }

    /** CreateActivity(name, inputLength, outputLength, hidden): fails with an exception
        on a name already registered, leaving the registry and the caller's array as they
        were; otherwise builds a new activity, registers it under the name and returns
        that same instance. */
    method CreateActivity(host: Host, name: string, inputLength: nat, outputLength: nat, hidden: array<int>)
      returns (r: Result<Activity>)
      requires host.Valid() && outputLength >= 1
      requires forall k :: 0 <= k < hidden.Length ==> hidden[k] >= 0
      modifies this`activities, hidden
      ensures name in old(activities) ==>
        && r == Failure("Activity \"" + name + "\" already exists.")
        && activities == old(activities)
        && hidden[..] == old(hidden[..])
      ensures name !in old(activities) ==>
        && r.Success? && fresh(r.value) && r.value.Valid() && r.value.host == host
        && (forall k :: 0 <= k < hidden.Length ==> hidden[k] == old(hidden[k]) + 1)
        && r.value.Sizes() == [inputLength + 1] + hidden[..] + [outputLength]
        && r.value.W == ZeroTensor(r.value.Sizes())
        && activities == old(activities)[name := r.value]
    {
      if name in activities {
        return Failure("Activity \"" + name + "\" already exists.");
      }
      var activity := new Activity(host, inputLength, outputLength, hidden);
      activities := activities[name := activity];
      r := Success(activity);
    }
  }
}
