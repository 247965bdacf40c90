/** When a run is tame, read off its events alone. */
module Tameness {
  import opened Operations
  import opened WritePlane
  import opened Store
  import opened Lifecycle
  import opened Exclusion
  import Regions
  import References

  /** Every Bootstrap is kept, and no Rebuild of the instance names no regions. */
  ghost predicate SteadyEvent(spec: Spec, kept: set<string>, e: Event) {
    match e
    case CreateOperation(n, parent, opType, regions) =>
      parent == spec.name ==> (opType.Bootstrap? ==> n in kept) && (opType.Rebuild? ==> regions != [])
    case DeleteOperation(n) => n !in kept
    case _ => true
  }

  /** `kept` names the Operations the run never asks to delete. An instance without regions
      in its spec needs nothing: its gate only looks at the Operation. */
  ghost predicate Steady(spec: Spec, kept: set<string>, events: seq<Event>) {
    spec.regions == [] || forall i :: 0 <= i < |events| ==> SteadyEvent(spec, kept, events[i])
  }

  ghost predicate KeptChild(s: State, kept: set<string>, n: string)
    requires n in s.ops
  {
    && (s.ops[n].opType.Bootstrap? ==>
          && n in kept && !s.ops[n].deleting
          && (s.ops[n].phase.Succeeded? && n in s.jobs ==> s.jobs[n].succeeded > 0))
    && (s.ops[n].opType.Rebuild? ==> s.ops[n].regions != [])
  }

  ghost predicate Kept(s: State, kept: set<string>) {
    !s.deleting && s.spec.regions != [] ==> forall n :: IsChild(s, n) ==> KeptChild(s, kept, n)
  }

  /** No armed Operation would be stopped at the region gate. */
  ghost predicate GatesOpen(s: State) {
    !s.deleting ==> forall n :: n in s.ops && s.ops[n].jobRef.Some? ==> !GateCloses(s, s.ops[n])
  }

  /** Bootstrap once complete stays complete. */
  ghost predicate StaysComplete(s: State, t: State) {
    s.spec.regions != [] && BootstrapComplete(s) ==> BootstrapComplete(t)
  }

  lemma PassStaysComplete(s: State, kept: set<string>, n: string, obs: Observed)
    requires WellFormed(s) && Kept(s, kept) && n in s.ops && !s.deleting
    ensures StaysComplete(s, ReconcileOperation(s, n, obs))
  {
    hide ReconcileOperation, BootstrapComplete;
    var t := ReconcileOperation(s, n, obs);
    ReconcileOutcome(s, n, obs);
    PassKeepsWellFormed(s, n, obs);
    BootstrapByName(s);
    BootstrapByName(t);
    if s.spec.regions != [] && BootstrapComplete(s) && s.regions == [] {
      var m :| IsChild(s, m) && s.ops[m].opType.Bootstrap? && s.ops[m].phase.Succeeded?;
      assert KeptChild(s, kept, m);
      assert IsChild(t, m) && t.ops[m].phase.Succeeded?;
    }
  }

  lemma PassKeepsKept(s: State, kept: set<string>, n: string, obs: Observed)
    requires WellFormed(s) && Kept(s, kept) && n in s.ops
    ensures Kept(ReconcileOperation(s, n, obs), kept)
  {
    hide ReconcileOperation;
    var t := ReconcileOperation(s, n, obs);
    ReconcileOutcome(s, n, obs);
    if !t.deleting && t.spec.regions != [] {
      forall m | IsChild(t, m) ensures KeptChild(t, kept, m) {
        assert IsChild(s, m) && KeptChild(s, kept, m);
      }
    }
  }

  lemma PassKeepsGatesOpen(s: State, kept: set<string>, n: string, obs: Observed)
    requires WellFormed(s) && Kept(s, kept) && GatesOpen(s) && n in s.ops
    ensures GatesOpen(ReconcileOperation(s, n, obs))
  {
    hide ReconcileOperation, BootstrapComplete;
    var t := ReconcileOperation(s, n, obs);
    ReconcileOutcome(s, n, obs);
    if !t.deleting {
      PassStaysComplete(s, kept, n, obs);
    }
  }

  lemma ObservedRegionsStay(s: State, kept: set<string>, listing: seq<string>)
    requires Kept(s, kept) && !s.deleting && s.spec.regions != [] && s.regions != []
    requires Lists(s.spec.name, s.ops, listing)
    ensures ObservedRegions(s, listing) != []
  {
    hide Regions.Replay;
    var listed := ListedOps(s.ops, listing);
    forall i | 0 <= i < |listed| && Regions.IsSucceeded(listed[i], Rebuild) ensures listed[i].regions != [] {
      assert IsChild(s, listing[i]) && KeptChild(s, kept, listing[i]);
    }
    Regions.RegionsStay(ForReplay(s.spec, s.regions), listed);
  }

  lemma InstanceStaysComplete(s: State, kept: set<string>, found: bool, listing: seq<string>)
    requires Kept(s, kept) && !s.deleting
    ensures StaysComplete(s, ReconcileInstance(s, found, listing))
    ensures ReconcileInstance(s, found, listing).ops == s.ops
  {
    hide HasPendingReset, ShouldSuspendApi, ObservedRegions, Lists, Kept;
    assert Children(ReconcileInstance(s, found, listing)) == Children(s);
    if s.spec.regions != [] && s.regions != [] && Lists(s.spec.name, s.ops, listing) {
      ObservedRegionsStay(s, kept, listing);
    }
  }

  /** Bootstraps are neither removed nor marked by other events. */
  lemma BootstrapsStay(s: State, kept: set<string>, e: Event, m: string)
    requires Kept(s, kept) && !Apply(s, e).deleting && s.spec.regions != []
    requires !e.OperationPass? && !e.CreateOperation? && !e.InstancePass? && SteadyEvent(s.spec, kept, e)
    requires IsChild(s, m) && s.ops[m].opType.Bootstrap?
    ensures m in Apply(s, e).ops && Apply(s, e).ops[m] == s.ops[m]
  {
    assert KeptChild(s, kept, m);
  }

  /** Completeness read off the Bootstraps that two stores share. */
  lemma CompleteAlike(s: State, t: State)
    requires WellFormed(s) && WellFormed(t) && t.spec == s.spec && t.regions == s.regions
    requires forall m :: IsChild(s, m) && s.ops[m].opType.Bootstrap? ==> m in t.ops && t.ops[m] == s.ops[m]
    ensures StaysComplete(s, t)
  {
    hide BootstrapComplete;
    BootstrapByName(s);
    BootstrapByName(t);
    if BootstrapComplete(s) && s.regions == [] {
      var m :| IsChild(s, m) && s.ops[m].opType.Bootstrap? && s.ops[m].phase.Succeeded?;
      assert IsChild(t, m) && t.ops[m] == s.ops[m];
    }
  }

  lemma EnvironmentStaysComplete(s: State, kept: set<string>, e: Event)
    requires WellFormed(s) && Kept(s, kept) && !Apply(s, e).deleting
    requires !e.OperationPass? && !e.CreateOperation?
    requires s.spec.regions == [] || SteadyEvent(s.spec, kept, e)
    ensures StaysComplete(s, Apply(s, e))
    ensures s.spec.regions != [] ==> forall m :: IsChild(Apply(s, e), m) && s.ops[m].opType.Bootstrap? ==>
              Apply(s, e).ops[m] == s.ops[m]
  {
    hide Apply, BootstrapComplete, WellFormed, Kept;
    var t := Apply(s, e);
    EnvironmentShape(s, e);
    References.StepKeepsWellFormed(s, e);
    if e.InstancePass? {
      PassEvent(s, e);
      InstanceStaysComplete(s, kept, e.databaseFound, e.listing);
    } else if s.spec.regions != [] {
      RegionsUntouched(s, e);
      forall m | IsChild(s, m) && s.ops[m].opType.Bootstrap? ensures m in t.ops && t.ops[m] == s.ops[m] {
        BootstrapsStay(s, kept, e, m);
      }
      CompleteAlike(s, t);
    }
  }

  lemma PassEvent(s: State, e: Event)
    requires e.InstancePass?
    ensures Apply(s, e) == ReconcileInstance(s, e.databaseFound, e.listing)
    ensures Apply(s, e).deleting == s.deleting
  {
    hide ReconcileInstance;
    InstanceShape(s, e.databaseFound, e.listing);
  }

  lemma RegionsUntouched(s: State, e: Event)
    requires !e.OperationPass? && !e.CreateOperation? && !e.InstancePass?
    ensures Apply(s, e).regions == s.regions
  {
  }

  lemma EnvironmentKeepsSteady(s: State, kept: set<string>, e: Event)
    requires WellFormed(s) && Kept(s, kept) && GatesOpen(s) && !e.OperationPass? && !e.CreateOperation?
    requires s.spec.regions == [] || SteadyEvent(s.spec, kept, e)
    ensures Kept(Apply(s, e), kept) && GatesOpen(Apply(s, e))
  {
    hide Apply, BootstrapComplete;
    var t := Apply(s, e);
    EnvironmentShape(s, e);
    if !t.deleting {
      EnvironmentStaysComplete(s, kept, e);
      forall m | IsChild(t, m) && t.spec.regions != [] ensures KeptChild(t, kept, m) {
        assert IsChild(s, m) && KeptChild(s, kept, m);
      }
    }
  }

  lemma CreationKeepsSteady(s: State, kept: set<string>, n: string, parent: string, opType: OpType,
                            regions: seq<string>)
    requires WellFormed(s) && Kept(s, kept) && GatesOpen(s) && n != "" && n !in s.ops
    requires s.spec.regions == [] || SteadyEvent(s.spec, kept, CreateOperation(n, parent, opType, regions))
    ensures var t := Create(s, n, parent, opType, regions); Kept(t, kept) && GatesOpen(t)
  {
    hide BootstrapComplete;
    var t := Create(s, n, parent, opType, regions);
    forall m | m in t.ops ensures WellFormedOp(t, m) { assert m != n ==> WellFormedOp(s, m); }
    BootstrapByName(s);
    BootstrapByName(t);
    forall m | IsChild(s, m) ensures IsChild(t, m) && t.ops[m] == s.ops[m] {}
    forall m | IsChild(t, m) && m != n ensures IsChild(s, m) {}
    if BootstrapComplete(s) && s.regions == [] {
      var m :| IsChild(s, m) && s.ops[m].opType.Bootstrap? && s.ops[m].phase.Succeeded?;
      assert IsChild(t, m);
    }
    if !t.deleting && t.spec.regions != [] {
      forall m | IsChild(t, m) ensures KeptChild(t, kept, m) {
        if m != n { assert KeptChild(s, kept, m); }
      }
    }
  }

  lemma StepKeepsSteady(s: State, kept: set<string>, e: Event)
    requires WellFormed(s) && Kept(s, kept) && GatesOpen(s)
    requires s.spec.regions == [] || SteadyEvent(s.spec, kept, e)
    ensures Kept(Apply(s, e), kept) && GatesOpen(Apply(s, e))
  {
    hide ReconcileOperation, ReconcileInstance, Kept, GatesOpen;
    match e
    case CreateOperation(n, parent, opType, regions) =>
      if n != "" && n !in s.ops { CreationKeepsSteady(s, kept, n, parent, opType, regions); }
    case OperationPass(n, obs) =>
      if n in s.ops {
        PassKeepsKept(s, kept, n, obs);
        PassKeepsGatesOpen(s, kept, n, obs);
      } else {
        PassOverNothing(s, n, obs);
      }
    case _ =>
      EnvironmentKeepsSteady(s, kept, e);
  }

  lemma {:induction false} SteadyHolds(spec: Spec, params: map<string, string>, kept: set<string>, events: seq<Event>)
    requires Steady(spec, kept, events)
    ensures var s := Run(Fresh(spec, params), events); Kept(s, kept) && GatesOpen(s)
  {
    hide Apply;
    if events != [] {
      var before := events[..|events| - 1];
      SteadyHolds(spec, params, kept, before);
      References.RefsHold(spec, params, before);
      References.SpecIsFixed(spec, params, before);
      assert spec.regions == [] || SteadyEvent(spec, kept, events[|events| - 1]);
      StepKeepsSteady(Run(Fresh(spec, params), before), kept, events[|events| - 1]);
    }
  }

  /** A run that deletes no Bootstrap and rebuilds to no empty list of regions is tame,
      whatever else happens in it; with no regions in the spec every run is. */
  lemma {:induction false} SteadyIsTame(spec: Spec, params: map<string, string>, kept: set<string>, events: seq<Event>)
    requires Steady(spec, kept, events)
    ensures Tame(Fresh(spec, params), events)
  {
    if events != [] {
      var before := events[..|events| - 1];
      SteadyIsTame(spec, params, kept, before);
      SteadyHolds(spec, params, kept, before);
    }
  }
}
