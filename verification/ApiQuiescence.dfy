/** The API stays at zero replicas from the database drop of an in-place Rebuild until that
    Operation is terminal or gone (internal/controller/nominatim_workloads.go). */
module ApiQuiescence {
  import opened Operations
  import opened WritePlane
  import opened Store
  import opened Lifecycle
  import opened Exclusion
  import opened References
  import opened RebuildReset

  /** `n` has begun its reset and is still at work, or will be once a pass reads its Job. */
  ghost predicate Resetting(s: State, n: string) {
    && IsChild(s, n) && UsesReset(s, s.ops[n])
    && !s.ops[n].prevUid.NotRecorded?
    && (IsActive(s.ops[n].phase) || Engaged(s, n))
  }

  ghost predicate Quiet(s: State) {
    (exists n :: Resetting(s, n)) ==> ApiQuiesced(s)
  }

  lemma PassKeepsQuiet(s: State, n: string, obs: Observed)
    requires Inv(s) && Quiet(s) && n in s.ops
    ensures Quiet(ReconcileOperation(s, n, obs))
  {
    hide ReconcileOperation;
    var t := ReconcileOperation(s, n, obs);
    ReconcileOutcome(s, n, obs);
    if n in t.ops { PassResets(s, n, obs); } else { GoneLeavesDatabase(s, n, obs); }
    if m :| Resetting(t, m) {
      StillResetting(s, t, n, m);
    }
  }

  /** Whoever is resetting after the pass was already, or starts in this very pass with the
      API quiesced. */
  lemma StillResetting(s: State, t: State, n: string, m: string)
    requires WellFormed(s) && n in s.ops && PassOutcome(s, t, n)
    requires n in t.ops ==> ResetStep(s, t, s.ops[n], t.ops[n])
    requires Resetting(t, m)
    ensures Resetting(s, m) || (m == n && ApiQuiesced(s) && t.api == s.api)
  {
    assert WellFormedOp(s, n);
  }

  lemma InstanceKeepsQuiet(s: State, found: bool, listing: seq<string>)
    requires Inv(s) && RefsSound(s) && Claimed(s) && Quiet(s)
    ensures Quiet(ReconcileInstance(s, found, listing))
  {
    hide HasPendingReset, Drain, ReconcileInstance, ObservedRegions, Lists;
    var t := ReconcileInstance(s, found, listing);
    InstanceShape(s, found, listing);
    InstanceApi(s, found, listing);
    if n :| Resetting(t, n) {
      assert Resetting(s, n);
      if !s.deleting {
        assert s.ops[n].jobRef.Some? && Unfinished(s, n) ==> IsActive(s.ops[n].phase);
        assert HasStarted(s.ops[n]);
        assert n in s.refs && SuspendsApi(s.spec, s.ops[n]);
      }
    }
  }

  /** An instance pass leaves the Deployment alone, removes it, or sets its replicas by the
      suspend rule. */
  lemma InstanceApi(s: State, found: bool, listing: seq<string>)
    ensures var t := ReconcileInstance(s, found, listing);
            || t.api == s.api || t.api.None?
            || (&& !s.deleting
                && t.api == Some(Deployment(if ShouldSuspendApi(s) then 0 else s.spec.apiReplicas,
                                            if s.api.Some? then s.api.value.pods else 0)))
    ensures s.deleting ==> ReconcileInstance(s, found, listing).api == s.api
  {
    hide HasPendingReset, Drain, ObservedRegions, Lists;
    if s.deleting {
      DrainShape(s);
    } else if Lists(s.spec.name, s.ops, listing) {
      var s1 := ReconcileDatabase(s).(regions := ObservedRegions(s, listing));
      assert s1.refs == s.refs && s1.ops == s.ops && s1.spec == s.spec;
    }
  }

  /** No event outside the controllers starts a reset or brings pods back. */
  lemma EnvironmentKeepsQuiet(s: State, e: Event)
    requires Quiet(s) && !e.OperationPass? && !e.InstancePass?
    ensures Quiet(Apply(s, e))
  {
    hide ApiQuiesced, Resetting;
    var t := Apply(s, e);
    EnvironmentApi(s, e);
    forall m | Resetting(t, m) ensures Resetting(s, m) {
      ResettingIsOld(s, e, m);
    }
  }

  lemma EnvironmentApi(s: State, e: Event)
    requires !e.OperationPass? && !e.InstancePass?
    ensures ApiQuiesced(s) ==> ApiQuiesced(Apply(s, e))
  {
  }

  lemma ResettingIsOld(s: State, e: Event, m: string)
    requires !e.OperationPass? && !e.InstancePass? && Resetting(Apply(s, e), m)
    ensures Resetting(s, m)
  {
    if !e.CreateOperation? { EnvironmentShape(s, e); }
  }

  lemma StepKeepsQuiet(s: State, e: Event)
    requires Inv(s) && RefsSound(s) && Claimed(s) && Quiet(s)
    ensures Quiet(Apply(s, e))
  {
    hide ReconcileOperation, ReconcileInstance, Quiet;
    match e
    case OperationPass(n, obs) =>
      if n in s.ops { PassKeepsQuiet(s, n, obs); } else { PassOverNothing(s, n, obs); }
    case InstancePass(found, listing) =>
      InstanceKeepsQuiet(s, found, listing);
    case _ =>
      EnvironmentKeepsQuiet(s, e);
  }

  lemma {:induction false} QuietHolds(spec: Spec, params: map<string, string>, events: seq<Event>)
    requires Tame(Fresh(spec, params), events)
    ensures Quiet(Run(Fresh(spec, params), events))
  {
    if events != [] {
      var before := events[..|events| - 1];
      QuietHolds(spec, params, before);
      FreshInv(spec, params);
      InvThroughoutIffTame(Fresh(spec, params), before);
      RefsHold(spec, params, before);
      StepKeepsQuiet(Run(Fresh(spec, params), before), events[|events| - 1]);
    }
  }

  /** In every state of a tame run: while an in-place Rebuild that has begun its database
      reset is active, the API Deployment is absent or has no replicas and no pods, whatever
      passes and pod changes are interleaved. */
  lemma ApiStaysQuiesced(spec: Spec, params: map<string, string>, events: seq<Event>, n: string)
    requires Tame(Fresh(spec, params), events)
    requires var s := Run(Fresh(spec, params), events);
             && n in s.ops && s.ops[n].parent == spec.name && s.ops[n].opType.Rebuild?
             && !spec.blueGreen && spec.kind.Managed?
             && IsActive(s.ops[n].phase) && !s.ops[n].prevUid.NotRecorded?
    ensures var s := Run(Fresh(spec, params), events);
            s.api.None? || (s.api.value.replicas == 0 && s.api.value.pods == 0)
  {
    QuietHolds(spec, params, events);
    SpecIsFixed(spec, params, events);
    assert Resetting(Run(Fresh(spec, params), events), n);
  }
}
