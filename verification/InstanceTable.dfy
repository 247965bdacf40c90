/** What one instance pass does, in terms of the stored data alone. */
module InstanceTable {
  import opened Operations
  import opened Profiles
  import opened Store
  import opened Lifecycle
  import opened BackupPause
  import Regions
  import References
  import PassTable

  /** A referenced Operation that is stored asks for the API to be down. */
  ghost predicate ApiHeldDown(s: State) {
    exists r :: r in s.refs && r in s.ops && HoldsDown(s.spec, s.ops[r].opType)
  }

  /** In-place Rebuilds always do, other types by the policy. */
  ghost predicate HoldsDown(spec: Spec, t: OpType) {
    (t == Rebuild && !spec.blueGreen) || t in CoveredTypes(spec.suspendImpact)
  }

  /** The pass is not cut short: the instance stays, its children can be listed, and the
      referenced Cluster or Secret, if it has one, is found. */
  ghost predicate Completes(s: State, found: bool, listing: seq<string>) {
    !s.deleting && Lists(s.spec.name, s.ops, listing) && (s.spec.kind == Managed || found)
  }

  lemma HeldDownAlike(s: State)
    ensures ApiHeldDown(s) <==> ShouldSuspendApi(s)
  {
    forall r | r in s.refs && r in s.ops
      ensures SuspendsApi(s.spec, s.ops[r]) <==> HoldsDown(s.spec, s.ops[r].opType)
    {
      CoverageIs(s.spec.suspendImpact, s.ops[r].opType);
    }
  }

  /** The API after an instance pass: there is a Deployment exactly unless regions are wanted
      and none are observed; it has no replicas exactly when a stored reference holds it down
      or none are asked for, and the asked-for number otherwise; its pods are left to drain. */
  lemma ApiAfterPass(s: State, found: bool, listing: seq<string>)
    requires Completes(s, found, listing)
    ensures var t := ReconcileInstance(s, found, listing);
            && (t.api == None <==> s.spec.regions != [] && t.regions == [])
            && (t.api != None ==>
                  && (t.api.value.replicas == 0 <==> ApiHeldDown(s) || s.spec.apiReplicas == 0)
                  && (t.api.value.replicas != 0 ==> t.api.value.replicas == s.spec.apiReplicas)
                  && t.api.value.pods == if s.api == None then 0 else s.api.value.pods)
  {
    hide ShouldSuspendApi, ApiHeldDown, Lists, HasPendingReset, ObservedRegions;
    var s1 := ReconcileDatabase(s).(regions := ObservedRegions(s, listing));
    SuspensionIgnoresDatabase(s, s1);
    HeldDownAlike(s);
  }

  lemma SuspensionIgnoresDatabase(s: State, t: State)
    requires t.refs == s.refs && t.ops == s.ops && t.spec == s.spec
    ensures ShouldSuspendApi(t) <==> ShouldSuspendApi(s)
  {
  }

  /** Everything else an instance pass does: it attaches the instance, observes the replayed
      regions, and creates a Database under a fresh UID exactly when the instance owns its
      Cluster, there is none, and no Rebuild at work has its reset pending. */
  lemma InstancePassTable(s: State, found: bool, listing: seq<string>)
    requires WellFormed(s) && Completes(s, found, listing)
    ensures var t := ReconcileInstance(s, found, listing);
            var creates := s.spec.kind == Managed && s.db == None
              && !exists m :: m in s.ops && s.ops[m].parent == s.spec.name && s.ops[m].opType == Rebuild
                              && (s.ops[m].phase in {Unset, Pending, Running}) && s.ops[m].reset == ResetPending;
            && t.attached
            && t.regions == Regions.Replay(ForReplay(s.spec, s.regions), ListedOps(s.ops, listing)).regions
            && t.db == (if creates then Some(Database(s.nextUid, false, false)) else s.db)
            && t.nextUid == (if creates then s.nextUid + 1 else s.nextUid)
            && t == s.(attached := t.attached, regions := t.regions, db := t.db, nextUid := t.nextUid, api := t.api)
  {
    PendingResetByName(s);
    assert forall m :: IsChild(s, m) <==> m in s.ops && s.ops[m].parent == s.spec.name;
    hide HasPendingReset, ShouldSuspendApi, ReconcileApi, Lists, Regions.Replay;
    ApiOnly(ReconcileDatabase(s).(regions := ObservedRegions(s, listing)));
  }

  lemma ApiOnly(s: State)
    ensures ReconcileApi(s) == s.(api := ReconcileApi(s).api)
  {
  }

  /** A pass that is cut short does nothing; one over an instance that is being deleted asks
      for the deletion of every child: those without finalizer go, the others are marked. */
  lemma OtherInstancePasses(s: State, found: bool, listing: seq<string>)
    requires !Completes(s, found, listing)
    ensures var t := ReconcileInstance(s, found, listing);
            && t == s.(ops := t.ops)
            && (!s.deleting ==> t == s)
            && (s.deleting ==> forall m :: m in t.ops <==>
                  m in s.ops && (s.ops[m].parent != s.spec.name || s.ops[m].finalizer))
            && (s.deleting ==> forall m :: m in t.ops ==>
                  t.ops[m] == if s.ops[m].parent == s.spec.name then s.ops[m].(deleting := true) else s.ops[m])
  {
    hide HasPendingReset, ShouldSuspendApi, Lists, ObservedRegions;
  }

  /** In every run without BlueGreen: once no Operation of the instance is at work, an instance
      pass brings the API up with the replicas asked for, as soon as wanted regions are
      observed. */
  lemma ApiComesBack(spec: Spec, params: Parameters, events: seq<Event>, found: bool, listing: seq<string>)
    requires !spec.blueGreen
    requires var s := Run(Fresh(spec, params), events);
             && Completes(s, found, listing)
             && (spec.regions == [] || ReconcileInstance(s, found, listing).regions != [])
             && forall n :: n in s.ops && s.ops[n].parent == spec.name ==>
                  s.ops[n].phase == Succeeded || s.ops[n].phase == Failed
    ensures var t := ReconcileInstance(Run(Fresh(spec, params), events), found, listing);
            t.api != None && t.api.value.replicas == spec.apiReplicas
  {
    hide ReconcileInstance, Completes;
    var s := Run(Fresh(spec, params), events);
    References.SpecIsFixed(spec, params, events);
    References.RefsHold(spec, params, events);
    PassTable.ReferencesAreLive(spec, params, events);
    ApiAfterPass(s, found, listing);
    assert forall r :: r in s.refs ==> IsChild(s, r);
  }
}
