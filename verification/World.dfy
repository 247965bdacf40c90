/** The controllers as they run: passes that read and write the stored objects step by step.
    Every method is proved to do exactly what the function of the same name in `Store`
    says, for every order in which a list or map is walked. */
module World {
  import opened Operations
  import opened WritePlane
  import opened Profiles
  import opened Store
  import Regions

  /** Splicing out the first occurrence is `RemoveRef`. */
  lemma {:induction false} SpliceIsRemoveRef(refs: seq<string>, n: string, idx: nat)
    requires idx < |refs| && refs[idx] == n && forall j :: 0 <= j < idx ==> refs[j] != n
    ensures refs[..idx] + refs[idx + 1..] == RemoveRef(refs, n)
  {
    if idx > 0 {
      SpliceIsRemoveRef(refs[1..], n, idx - 1);
      assert refs[..idx] + refs[idx + 1..] == [refs[0]] + (refs[1..][..idx - 1] + refs[1..][idx..]);
    }
  }

  /** bootstrapComplete */
  method IsBootstrapComplete(regions: seq<string>, peers: seq<Operation>) returns (complete: bool)
    ensures complete <==> regions != [] || exists p :: p in peers && p.opType.Bootstrap? && p.phase.Succeeded?
  {
    if |regions| > 0 {
      return true;
    }
    for i := 0 to |peers|
      invariant forall j :: 0 <= j < i ==> !(peers[j].opType.Bootstrap? && peers[j].phase.Succeeded?)
    {
      if peers[i].opType.Bootstrap? && peers[i].phase.Succeeded? {
        return true;
      }
    }
    return false;
  }

  /** hasOtherActiveMatchingImpactOps */
  method OtherActiveMatches(impact: Impact, peers: seq<Operation>, excludeName: string) returns (found: bool)
    ensures found <==> exists p :: p in peers && p.name != excludeName
                         && IsActive(p.phase) && ImpactMatches(impact, p.opType)
  {
    for i := 0 to |peers|
      invariant forall j :: 0 <= j < i ==>
                  !(peers[j].name != excludeName && IsActive(peers[j].phase) && ImpactMatches(impact, peers[j].opType))
    {
      var peer := peers[i];
      if peer.name == excludeName || !IsActive(peer.phase) {
        continue;
      }
      if ImpactMatches(impact, peer.opType) {
        return true;
      }
    }
    return false;
  }

  /** hasPendingRebuildDatabaseReset */
  method AnyPendingReset(peers: seq<Operation>) returns (found: bool)
    ensures found <==> exists p :: p in peers && p.opType.Rebuild? && IsActive(p.phase) && p.reset.ResetPending?
  {
    for i := 0 to |peers|
      invariant forall j :: 0 <= j < i ==>
                  !(peers[j].opType.Rebuild? && IsActive(peers[j].phase) && peers[j].reset.ResetPending?)
    {
      var peer := peers[i];
      if !peer.opType.Rebuild? || !IsActive(peer.phase) {
        continue;
      }
      if peer.reset.ResetPending? {
        return true;
      }
    }
    return false;
  }

  class World {
    const spec: Spec
    var deleting: bool
    var attached: bool
    var regions: seq<string>
    var refs: seq<string>
    var ops: map<string, Operation>
    var jobs: map<string, Job>
    var cluster: Cluster
    var db: Option<Database>
    var nextUid: nat
    var nextOpUid: nat
    var api: Option<Deployment>

    /** The stored objects as one value. */
    ghost function View(): State
      reads this
    {
      State(spec, deleting, attached, regions, refs, ops, jobs, cluster, db, nextUid, nextOpUid, api)
    }

    constructor (spec: Spec, params: Parameters)
      ensures View() == Fresh(spec, params)
    {
      this.spec := spec;
      deleting, attached, regions, refs := false, false, [], [];
      ops, jobs, cluster := map[], map[], Cluster(false, params);
      db, nextUid, nextOpUid, api := None, 0, 0, None;
    }

    /** listPeersForNominatim and listOperationsForParent, in the store's own order. */
    method ListChildren() returns (peers: seq<Operation>)
      ensures (set p | p in peers) == Children(View())
    {
      peers := [];
      var rest := ops.Keys;
      while rest != {}
        invariant rest <= ops.Keys
        invariant forall p :: p in peers ==> p.parent == spec.name && p in ops.Values
        invariant forall n :: n in ops && n !in rest && ops[n].parent == spec.name ==> ops[n] in peers
        decreases rest
      {
        var n :| n in rest;
        rest := rest - {n};
        if ops[n].parent == spec.name {
          peers := peers + [ops[n]];
        }
      }
      forall p | p in Children(View()) ensures p in peers {
        var n :| n in ops && ops[n] == p;
      }
    }

    /** syncParentActiveOperationRef: searches the list, then appends or splices. */
    method SyncRef(n: string, active: bool)
      requires n in ops
      modifies this`refs
      ensures View() == Store.SyncRef(old(View()), n, active)
    {
      if ops[n].parent != spec.name {
        return;
      }
      var idx := -1;
      var i := 0;
      while i < |refs|
        invariant 0 <= i <= |refs|
        invariant idx == -1
        invariant forall j :: 0 <= j < i ==> refs[j] != n
      {
        if refs[i] == n {
          idx := i;
          break;
        }
        i := i + 1;
      }
      if active && idx == -1 {
        refs := refs + [n];
      } else if !active && idx != -1 {
        SpliceIsRemoveRef(refs, n, idx);
        refs := refs[..idx] + refs[idx + 1..];
      }
    }

    /** setBackupPaused followed by applyPostgresProfile. */
    method SetClusterEffects(paused: bool, which: Which)
      modifies this`cluster
      ensures WritesToCluster(old(View())) ==>
                cluster == Cluster(paused, Applied(spec.profiles, old(cluster.params), which))
      ensures !WritesToCluster(old(View())) ==> cluster == old(cluster)
    {
      if !attached || spec.kind.ConnectionSecret? {
        return;
      }
      cluster := cluster.(paused := paused);
      var params := ApplyPostgresProfile(spec.profiles, cluster.params, which);
      cluster := cluster.(params := params);
    }

    method ApplyPreJobEffects(n: string)
      requires n in ops
      modifies this`cluster
      ensures View() == PreJobEffects(old(View()), n)
    {
      if ImpactMatches(spec.pauseImpact, ops[n].opType) {
        SetClusterEffects(true, Import);
      }
    }

    method ApplyTerminalEffects(n: string)
      requires n in ops
      modifies this`cluster
      ensures View() == TerminalEffects(old(View()), n)
    {
      if !ImpactMatches(spec.pauseImpact, ops[n].opType) {
        return;
      }
      var peers := ListChildren();
      var stillPaused := OtherActiveMatches(spec.pauseImpact, peers, n);
      assert stillPaused <==> HasOtherActiveMatching(View(), n) by {
        assert forall p :: p in peers <==> p in Children(View());
      }
      if !stillPaused {
        SetClusterEffects(false, Runtime);
      }
    }

    method SyncSideEffects(n: string)
      requires n in ops
      modifies this`refs, this`cluster
      ensures View() == Store.SyncSideEffects(old(View()), n)
    {
      SyncRef(n, IsActive(ops[n].phase));
      if IsTerminal(ops[n].phase) && ops[n].parent == spec.name {
        ApplyTerminalEffects(n);
      }
    }

    method Fail(n: string)
      requires n in ops
      modifies this`ops, this`refs, this`cluster
      ensures View() == FailOperation(old(View()), n)
    {
      ops := ops[n := ops[n].(phase := Failed)];
      SyncSideEffects(n);
    }

    /** claimWritePlane: `stop` is set when the pass must end here. */
    method ClaimWritePlane(n: string) returns (stop: bool)
      requires n in ops && ops[n].parent == spec.name
      modifies this`ops, this`refs, this`cluster
      ensures var decision := Decide(old(ops[n]), Children(old(View())));
              && stop == !decision.Ok?
              && View() == match decision
                           case Hold => FailOperation(old(View()), n)
                           case RaceWait => old(View())
                           case Ok => Store.SyncRef(old(View()), n, true)
    {
      var peers := ListChildren();
      var ev := EvaluateWritePlane(ops[n], peers);
      match ev.decision
      case Hold =>
        Fail(n);
        stop := true;
      case RaceWait =>
        stop := true;
      case Ok =>
        SyncRef(n, true);
        stop := false;
    }

    /** enforceRegionGates */
    method EnforceRegionGates(n: string) returns (stop: bool)
      requires n in ops
      modifies this`ops, this`refs, this`cluster
      ensures stop == GateCloses(old(View()), old(ops[n]))
      ensures View() == if stop then FailOperation(old(View()), n) else old(View())
    {
      stop := false;
      var op := ops[n];
      if !RequiresRegionGate(op.opType) {
        return;
      }
      var effective := if |op.regions| > 0 then op.regions else spec.regions;
      if |effective| == 0 {
        Fail(n);
        return true;
      }
      if |spec.regions| > 0 {
        var peers := ListChildren();
        var complete := IsBootstrapComplete(regions, peers);
        assert complete <==> BootstrapComplete(View()) by {
          assert forall p :: p in peers <==> p in Children(View());
        }
        if !complete {
          Fail(n);
          return true;
        }
      }
    }

    /** apiQuiescedForRebuild */
    method QuiesceApi() returns (quiesced: bool)
      modifies this`api
      ensures quiesced == ApiQuiesced(old(View()))
      ensures View() == if quiesced then old(View()) else ScaleApiDown(old(View()))
    {
      if api.None? {
        return true;
      }
      if api.value.replicas != 0 {
        api := Some(api.value.(replicas := 0));
        return false;
      }
      assert api.value == api.value.(replicas := 0);
      return api.value.pods == 0;
    }

    method EnsureDatabase()
      modifies this`db, this`nextUid
      ensures View() == Store.EnsureDatabase(old(View()))
    {
      if db.None? {
        db := Some(Database(nextUid, false, false));
        nextUid := nextUid + 1;
      }
    }

    method PatchResetAnnotations(n: string, reset: ResetMark, prevUid: PrevUid)
      requires n in ops
      modifies this`ops
      ensures View() == RecordReset(old(View()), n, reset, prevUid)
    {
      ops := ops[n := ops[n].(reset := reset, prevUid := prevUid)];
    }

    /** ensureRebuildDatabaseReset */
    method ResetDatabase(n: string) returns (ready: bool)
      requires n in ops
      modifies this`ops, this`db, this`nextUid, this`api
      ensures n in ops
      ensures (View(), ready) == Store.ResetDatabase(old(View()), n)
    {
      var op := ops[n];
      if !op.opType.Rebuild? || spec.blueGreen || !spec.kind.Managed? {
        return true;
      }
      if op.reset.ResetDone? {
        return true;
      }
      var quiesced := QuiesceApi();
      if !quiesced {
        return false;
      }
      if op.prevUid.NotRecorded? {
        if db.None? {
          PatchResetAnnotations(n, ResetPending, NoneExisted);
          return false;
        }
        var uid := db.value.uid;
        db := Some(db.value.(terminating := true));
        ops := ops[n := ops[n].(drops := ops[n].drops + [uid])];
        PatchResetAnnotations(n, ResetPending, Dropped(uid));
        return false;
      }
      if db.None? {
        EnsureDatabase();
        return false;
      }
      if op.prevUid == Dropped(db.value.uid) {
        return false;
      }
      if !db.value.applied {
        return false;
      }
      PatchResetAnnotations(n, ResetDone, op.prevUid);
      return true;
    }

    /** waitForJobPrerequisites */
    method AwaitPrerequisites(n: string, obs: Observed) returns (ready: bool)
      requires n in ops
      modifies this`ops, this`db, this`nextUid, this`api
      ensures n in ops
      ensures (View(), ready) == Prerequisites(old(View()), n, obs)
    {
      if !attached {
        return false;
      }
      var blueGreenRebuild := ops[n].opType.Rebuild? && spec.blueGreen;
      if blueGreenRebuild && !obs.pendingReady {
        return false;
      }
      if !obs.secretExists {
        return false;
      }
      var reset := ResetDatabase(n);
      if !reset {
        return false;
      }
      if blueGreenRebuild {
        return true;
      }
      match spec.kind
      case ConnectionSecret => return true;
      case Attached => return obs.clusterReady;
      case Managed => return obs.clusterReady && db.Some? && db.value.applied;
    }

    method EnsureJob(n: string)
      requires n in ops
      modifies this`jobs
      ensures View() == Store.EnsureJob(old(View()), n)
    {
      if n !in jobs {
        jobs := jobs[n := NewJob(ops[n])];
      }
    }

    method SyncStatusFromJob(n: string)
      requires n in ops
      modifies this`ops
      ensures View() == Store.SyncStatusFromJob(old(View()), n)
    {
      if n !in jobs {
        return;
      }
      var op := ops[n];
      op := op.(phase := PhaseFromJob(jobs[n]));
      op := op.(jobRef := Some(n));
      ops := ops[n := op];
    }

    method FinishJob(n: string, obs: Observed)
      requires n in ops
      modifies this`ops, this`refs, this`cluster
      ensures View() == AfterJob(old(View()), n, obs)
    {
      if ops[n].opType.Rebuild? && spec.blueGreen && IsTerminal(ops[n].phase) {
        match obs.afterImport
        case Continue => ops := ops[n := ops[n].(phase := Running)];
        case Complete => ops := ops[n := ops[n].(phase := Succeeded)];
        case Abort => Fail(n);
      } else {
        SyncSideEffects(n);
      }
    }

    /** Reconcile of an Operation: the order of the steps is the order of the source. */
    method ReconcileOperation(n: string, obs: Observed)
      modifies this
      ensures View() == Store.ReconcileOperation(old(View()), n, obs)
    {
      if n !in ops {
        return;
      }
      if ops[n].deleting {
        ReconcileDelete(n);
        return;
      }
      ops := ops[n := ops[n].(finalizer := true)];
      if IsTerminal(ops[n].phase) {
        ReconcileTerminal(n);
      } else {
        ReconcileActive(n, obs);
      }
    }

    method ReconcileDelete(n: string)
      requires n in ops
      modifies this`ops, this`refs, this`cluster
      ensures View() == DeletePass(old(View()), n)
    {
      if !ops[n].finalizer {
        return;
      }
      SyncRef(n, false);
      if ops[n].parent == spec.name {
        ApplyTerminalEffects(n);
      }
      ops := ops - {n};
    }

    method ReconcileTerminal(n: string)
      requires n in ops
      modifies this`ops, this`refs, this`cluster
      ensures View() == TerminalPass(old(View()), n)
    {
      if ops[n].jobRef.Some? {
        SyncStatusFromJob(n);
      }
      SyncSideEffects(n);
    }

    method ReconcileActive(n: string, obs: Observed)
      requires n in ops
      modifies this`ops, this`refs, this`jobs, this`cluster, this`db, this`nextUid, this`api
      ensures View() == ActivePass(old(View()), n, obs)
    {
      hide Store.ResetDatabase, TerminalEffects, RemoveRef, Decide, Children;
      var op := ops[n];
      if !IsImplemented(op.opType) || op.parent != spec.name || deleting {
        Fail(n);
        return;
      }
      if op.opType.Rebuild? && spec.blueGreen && !spec.kind.Managed? {
        Fail(n);
        return;
      }
      var stop := ClaimWritePlane(n);
      if stop {
        return;
      }
      ReconcileClaimed(n, obs);
    }

    method ReconcileClaimed(n: string, obs: Observed)
      requires n in ops
      modifies this`ops, this`refs, this`jobs, this`cluster, this`db, this`nextUid, this`api
      ensures View() == ClaimedPass(old(View()), n, obs)
    {
      hide Store.ResetDatabase, TerminalEffects, RemoveRef, Children;
      var stop := EnforceRegionGates(n);
      if stop {
        return;
      }
      ApplyPreJobEffects(n);
      var ready := AwaitPrerequisites(n, obs);
      if !ready {
        return;
      }
      EnsureJob(n);
      SyncStatusFromJob(n);
      FinishJob(n, obs);
    }

    /** shouldSuspendAPI: looks up every referenced Operation, skipping missing ones. */
    method IsApiSuspended() returns (suspend: bool)
      ensures suspend == ShouldSuspendApi(View())
    {
      for i := 0 to |refs|
        invariant forall j :: 0 <= j < i ==> !(refs[j] in ops && SuspendsApi(spec, ops[refs[j]]))
      {
        var r := refs[i];
        if r !in ops {
          continue;
        }
        if ops[r].opType.Rebuild? && !spec.blueGreen {
          return true;
        }
        if spec.suspendImpact.Never? {
          continue;
        }
        if ImpactMatches(spec.suspendImpact, ops[r].opType) {
          return true;
        }
      }
      return false;
    }

    method ReconcileApi()
      modifies this`api
      ensures View() == Store.ReconcileApi(old(View()))
    {
      if |spec.regions| > 0 && |regions| == 0 {
        api := None;
        return;
      }
      var suspend := IsApiSuspended();
      var replicas := spec.apiReplicas;
      if suspend {
        replicas := 0;
      }
      if api.None? {
        api := Some(Deployment(replicas, 0));
      } else {
        api := Some(api.value.(replicas := replicas));
      }
    }

    method ReconcileDatabase()
      modifies this`db, this`nextUid, this`attached
      ensures View() == Store.ReconcileDatabase(old(View()))
    {
      if spec.kind.Managed? {
        var peers := ListChildren();
        var pending := AnyPendingReset(peers);
        assert pending <==> HasPendingReset(View()) by {
          assert forall p :: p in peers <==> p in Children(View());
        }
        if !pending {
          EnsureDatabase();
        }
      }
      attached := true;
    }

    /** drainChildOperations: a delete request for each child in turn. */
    method DrainChildOperations()
      modifies this`ops
      ensures View() == Drain(old(View()))
    {
      var rest := ops.Keys;
      while rest != {}
        invariant rest <= old(ops).Keys
        invariant forall n :: n in rest ==> n in ops && ops[n] == old(ops)[n]
        invariant forall n :: n in ops ==> n in old(ops)
        invariant forall n :: n in old(ops) && n !in rest ==>
                    (n in ops <==> old(ops)[n].parent != spec.name || old(ops)[n].finalizer)
        invariant forall n :: n in ops && n !in rest ==>
                    ops[n] == if old(ops)[n].parent == spec.name then old(ops)[n].(deleting := true) else old(ops)[n]
        decreases rest
      {
        var n :| n in rest;
        rest := rest - {n};
        if ops[n].parent == spec.name {
          DeleteOperation(n);
        }
      }
      assert ops.Keys == Drain(old(View())).ops.Keys;
    }

    method DeleteOperation(n: string)
      modifies this`ops
      ensures View() == old(View()).(ops := RequestDelete(old(ops), n))
    {
      if n !in ops {
        return;
      }
      if ops[n].finalizer {
        ops := ops[n := ops[n].(deleting := true)];
      } else {
        ops := ops - {n};
      }
    }

    /** observeRegionsFromSucceededOps */
    method ObserveRegions(listed: seq<Operation>)
      modifies this`regions
      ensures View() == old(View()).(regions := Regions.Replay(ForReplay(spec, old(regions)), listed).regions)
    {
      var status := new Regions.Status(ForReplay(spec, regions));
      status.ObserveRegions(listed);
      regions := status.regions;
    }

    /** Reconcile of the instance. */
    method ReconcileInstance(databaseFound: bool, listing: seq<string>)
      modifies this
      ensures View() == Store.ReconcileInstance(old(View()), databaseFound, listing)
    {
      hide Regions.Replay;
      if deleting {
        DrainChildOperations();
        return;
      }
      if !Lists(spec.name, ops, listing) || (!spec.kind.Managed? && !databaseFound) {
        return;
      }
      ReconcileDatabase();
      ObserveRegions(ListedOps(ops, listing));
      ReconcileApi();
    }

    /** One event of a run. */
    method Handle(e: Event)
      modifies this
      ensures View() == Apply(old(View()), e)
    {
      hide Store.ReconcileOperation, Store.ReconcileInstance;
      match e
      case CreateOperation(n, parent, opType, regions) =>
        if n != "" && n !in ops {
          ops := ops[n := NewOperation(n, parent, opType, regions).(uid := nextOpUid)];
          nextOpUid := nextOpUid + 1;
        }
      case DeleteOperation(n) => DeleteOperation(n);
      case OperationPass(n, obs) => ReconcileOperation(n, obs);
      case InstancePass(found, listing) => ReconcileInstance(found, listing);
      case DeleteInstance => deleting := true;
      case JobProgress(n, job) =>
        if n in jobs && JobMayBecome(jobs[n], job) {
          jobs := jobs[n := job];
        }
      case JobGone(n) => jobs := jobs - {n};
      case ApiPods(pods) =>
        if api.Some? && (api.value.replicas > 0 || pods <= api.value.pods) {
          api := Some(api.value.(pods := pods));
        }
      case DatabaseApplied =>
        if db.Some? && !db.value.terminating {
          db := Some(db.value.(applied := true));
        }
      case DatabaseGone =>
        if db.Some? && db.value.terminating {
          db := None;
        }
    }

    /** A whole run: whatever is proved of `Run` holds of the stored objects. */
    method HandleAll(events: seq<Event>)
      modifies this
      ensures View() == Run(old(View()), events)
    {
      hide Apply;
      for i := 0 to |events|
        invariant View() == Run(old(View()), events[..i])
      {
        Handle(events[i]);
        assert events[..i + 1][..i] == events[..i];
      }
      assert events[..|events|] == events;
    }
  }
}
