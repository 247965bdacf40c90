/** Switching a CNPG Cluster between the import and the runtime postgres profile
    (internal/controller/nominatimoperation_effects.go, internal/controller/cnpg_effects.go). */
module Profiles {
  import opened Operations

  type Parameters = map<string, string>

  datatype Profiles = Profiles(importing: Parameters, runtime: Parameters)

  datatype Which = Import | Runtime

  function Target(profiles: Option<Profiles>, which: Which): Parameters {
    match profiles
    case None => map[]
    case Some(p) => if which.Import? then p.importing else p.runtime
  }

  /** Every key either profile sets. */
  function ManagedKeys(profiles: Option<Profiles>): set<string> {
    match profiles
    case None => {}
    case Some(p) => p.importing.Keys + p.runtime.Keys
  }

  /** The parameters after applying one profile: managed keys are exactly the target's,
      all other keys are untouched. */
  function Applied(profiles: Option<Profiles>, params: Parameters, which: Which): Parameters {
    (params - ManagedKeys(profiles)) + Target(profiles, which)
  }

  /** The managed part of `params` is exactly profile `which`. */
  ghost predicate InForce(profiles: Option<Profiles>, params: Parameters, which: Which) {
    && (forall k :: k in ManagedKeys(profiles) ==>
         (k in params <==> k in Target(profiles, which)))
    && (forall k :: k in Target(profiles, which) ==> k in params && params[k] == Target(profiles, which)[k])
  }

  /** Every import setting is set, and no runtime-only setting is. */
  ghost predicate ImportSettings(profiles: Option<Profiles>, params: Parameters) {
    match profiles
    case None => true
    case Some(p) =>
      && (forall k :: k in p.importing ==> k in params && params[k] == p.importing[k])
      && (forall k :: k in p.runtime && k !in p.importing ==> k !in params)
  }

  /** Every runtime setting is set, and no import-only setting is. */
  ghost predicate RuntimeSettings(profiles: Option<Profiles>, params: Parameters) {
    match profiles
    case None => true
    case Some(p) =>
      && (forall k :: k in p.runtime ==> k in params && params[k] == p.runtime[k])
      && (forall k :: k in p.importing && k !in p.runtime ==> k !in params)
  }

  /** Which settings each profile stands for. */
  lemma InForceMeans(profiles: Option<Profiles>, params: Parameters)
    ensures InForce(profiles, params, Import) <==> ImportSettings(profiles, params)
    ensures InForce(profiles, params, Runtime) <==> RuntimeSettings(profiles, params)
  {
    if profiles.Some? {
      var p := profiles.value;
      assert Target(profiles, Import) == p.importing && Target(profiles, Runtime) == p.runtime;
      assert forall k :: k in ManagedKeys(profiles) <==> k in p.importing || k in p.runtime;
    }
  }

  ghost predicate SameOutside(profiles: Option<Profiles>, a: Parameters, b: Parameters) {
    forall k :: k !in ManagedKeys(profiles) ==> (k in a <==> k in b) && (k in a ==> a[k] == b[k])
  }

  /** `profileKeysToRemove`: walks the managed keys in whatever order the map yields them. */
  method ProfileKeysToRemove(profiles: Option<Profiles>, target: Parameters) returns (remove: seq<string>)
    ensures forall k :: k in remove <==> k in ManagedKeys(profiles) && k !in target
    ensures forall i, j :: 0 <= i < j < |remove| ==> remove[i] != remove[j]
  {
    remove := [];
    if profiles.None? {
      return;
    }
    var managed := profiles.value.importing.Keys + profiles.value.runtime.Keys;
    var rest := managed;
    while rest != {}
      invariant rest <= managed
      invariant forall k :: k in remove <==> k in managed - rest && k !in target
      invariant forall i, j :: 0 <= i < j < |remove| ==> remove[i] != remove[j]
      decreases rest
    {
      var k :| k in rest;
      rest := rest - {k};
      if k !in target {
        remove := remove + [k];
      }
    }
  }

  /** `ApplyParameters`: deletes the removed keys, then writes the target's entries, again
      in arbitrary map order. */
  method ApplyParameters(current: Parameters, params: Parameters, remove: seq<string>)
    returns (merged: Parameters)
    ensures forall k :: k in params ==> k in merged && merged[k] == params[k]
    ensures forall k :: k !in params ==>
              && (k in merged <==> k in current && k !in remove)
              && (k in merged ==> merged[k] == current[k])
  {
    merged := current;
    if |params| == 0 && |remove| == 0 {
      return;
    }
    for i := 0 to |remove|
      invariant forall k :: k in merged <==> k in current && k !in remove[..i]
      invariant forall k :: k in merged ==> merged[k] == current[k]
    {
      merged := merged - {remove[i]};
    }
    var rest := params.Keys;
    while rest != {}
      invariant rest <= params.Keys
      invariant forall k :: k in params.Keys - rest ==> k in merged && merged[k] == params[k]
      invariant forall k :: k !in params.Keys - rest ==>
                  && (k in merged <==> k in current && k !in remove)
                  && (k in merged ==> merged[k] == current[k])
      decreases rest
    {
      var k :| k in rest;
      rest := rest - {k};
      merged := merged[k := params[k]];
    }
  }

  /** `applyPostgresProfile` once a Cluster is attached. */
  method ApplyPostgresProfile(profiles: Option<Profiles>, current: Parameters, which: Which)
    returns (merged: Parameters)
    ensures merged == Applied(profiles, current, which)
    ensures InForce(profiles, merged, which) && SameOutside(profiles, merged, current)
    ensures if which.Import? then ImportSettings(profiles, merged) else RuntimeSettings(profiles, merged)
  {
    var target := Target(profiles, which);
    var remove := ProfileKeysToRemove(profiles, target);
    if |target| == 0 && |remove| == 0 {
      merged := current;
      assert target == map[];
    } else {
      merged := ApplyParameters(current, target, remove);
    }
    AppliedIsInForce(profiles, current, which);
    InForceDetermines(profiles, merged, Applied(profiles, current, which), which);
    InForceMeans(profiles, merged);
  }

  lemma AppliedIsInForce(profiles: Option<Profiles>, params: Parameters, which: Which)
    ensures InForce(profiles, Applied(profiles, params, which), which)
    ensures SameOutside(profiles, Applied(profiles, params, which), params)
  {
  }

  /** The profile in force and the keys outside it determine the whole parameter map. */
  lemma InForceDetermines(profiles: Option<Profiles>, a: Parameters, b: Parameters, which: Which)
    requires InForce(profiles, a, which) && InForce(profiles, b, which) && SameOutside(profiles, a, b)
    ensures a == b
  {
    forall k ensures (k in a <==> k in b) && (k in a ==> a[k] == b[k]) {
      assert k in ManagedKeys(profiles) || k !in ManagedKeys(profiles);
      assert k in Target(profiles, which) ==> k in ManagedKeys(profiles);
    }
    assert a.Keys == b.Keys;
  }

  function ApplyAll(profiles: Option<Profiles>, params: Parameters, switches: seq<Which>): Parameters {
    if switches == [] then params
    else Applied(profiles, ApplyAll(profiles, params, switches[..|switches| - 1]), switches[|switches| - 1])
  }

  /** After any sequence of switches over any starting parameters the managed keys are
      exactly the last profile and every other key is as it was at the start, so the
      whole history equals its last switch alone. */
  lemma {:induction false} LastSwitchWins(profiles: Option<Profiles>, params: Parameters, switches: seq<Which>)
    ensures SameOutside(profiles, ApplyAll(profiles, params, switches), params)
    ensures switches != [] ==>
              && InForce(profiles, ApplyAll(profiles, params, switches), switches[|switches| - 1])
              && ApplyAll(profiles, params, switches) == Applied(profiles, params, switches[|switches| - 1])
  {
    if switches != [] {
      var which := switches[|switches| - 1];
      var before := ApplyAll(profiles, params, switches[..|switches| - 1]);
      LastSwitchWins(profiles, params, switches[..|switches| - 1]);
      AppliedIsInForce(profiles, before, which);
      AppliedIsInForce(profiles, params, which);
      InForceDetermines(profiles, Applied(profiles, before, which), Applied(profiles, params, which), which);
    }
  }
}
