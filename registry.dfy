/**
 * `TailchatRegistry`: the map from robot id to platform instance that the
 * shared callback server consults.
 */
module Registry {
  import opened Wrappers

  class Registry<P> {
    var entries: map<string, P>

    constructor()
      ensures entries == map[]
    {
      entries := map[];
    }

    /** `register`: the id now maps to this platform, replacing any earlier one; every other id is untouched. */
    method Register(robotId: string, platform: P)
      modifies this
      ensures entries == old(entries)[robotId := platform]
      ensures Lookup(entries, robotId) == Some(platform)
      ensures forall k :: k != robotId ==> Lookup(entries, k) == Lookup(old(entries), k)
    {
      entries := entries[robotId := platform];
    }

    /** `get`: the registered platform, or None for an id never registered. */
    method Get(robotId: string) returns (r: Option<P>)
      ensures r == Lookup(entries, robotId)
      ensures r.None? <==> robotId !in entries
    {
      if robotId in entries {
        return Some(entries[robotId]);
      }
      return None;
    }
  }

  /** `dict.get` on the registry's map. */
  function Lookup<P>(entries: map<string, P>, robotId: string): Option<P> {
    if robotId in entries then Some(entries[robotId]) else None
  }

  /** The registry's content after a sequence of registrations: the latest platform for each id. */
  function Registered<P>(start: map<string, P>, regs: seq<(string, P)>): map<string, P>
    decreases |regs|
  {
    if regs == [] then start else Registered(start, regs[..|regs| - 1])[regs[|regs| - 1].0 := regs[|regs| - 1].1]
  }

  /** After any sequence of registrations, an id maps to the platform of its last registration. */
  lemma {:induction false} LastRegistrationWins<P>(start: map<string, P>, regs: seq<(string, P)>, i: nat)
    requires i < |regs| && forall j :: i < j < |regs| ==> regs[j].0 != regs[i].0
    ensures Lookup(Registered(start, regs), regs[i].0) == Some(regs[i].1)
    decreases |regs|
  {
    if i < |regs| - 1 {
      var init := regs[..|regs| - 1];
      assert init[i] == regs[i];
      LastRegistrationWins(start, init, i);
    }
  }

  /** An id never registered keeps what it had. */
  lemma {:induction false} UnregisteredUnchanged<P>(start: map<string, P>, regs: seq<(string, P)>, id: string)
    requires forall i :: 0 <= i < |regs| ==> regs[i].0 != id
    ensures Lookup(Registered(start, regs), id) == Lookup(start, id)
    decreases |regs|
  {
    if regs != [] {
      UnregisteredUnchanged(start, regs[..|regs| - 1], id);
    }
  }
}
