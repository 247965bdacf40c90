/** The stored objects of one namespace with one NominatimInstance, and what every
    controller pass and every environment step does to them.

    Each function here is the specification of the method of the same name in `World`;
    invariants are proved about these functions and about runs of `Apply`.

    A pass is atomic, and API calls inside it succeed. What a pass reads from objects that
    are not modelled (Secrets, Cluster conditions, the sibling Cluster of a BlueGreen
    rebuild) arrives as an arbitrary `Observed` value. Lists come in arbitrary order. */
module Store {
  import opened Operations
  import opened WritePlane
  import opened Profiles
  import Regions

  datatype DatabaseKind = Managed | Attached | ConnectionSecret

  /** The instance's spec, fixed during a run. */
  datatype Spec = Spec(
    name: string,
    regions: seq<string>,
    kind: DatabaseKind,
    blueGreen: bool,
    pauseImpact: Impact,
    suspendImpact: Impact,
    apiReplicas: nat,
    profiles: Option<Profiles>)

  /** The live CNPG Cluster: the backup-paused annotation and `spec.postgresql.parameters`. */
  datatype Cluster = Cluster(paused: bool, params: Parameters)

  /** The owned CNPG Database CR. */
  datatype Database = Database(uid: nat, applied: bool, terminating: bool)

  /** The API Deployment: requested replicas, and the largest of its status counters. */
  datatype Deployment = Deployment(replicas: nat, pods: nat)

  datatype State = State(
    spec: Spec,
    deleting: bool,
    // status.database has been written (mode and connectionSecretName are set together)
    attached: bool,
    regions: seq<string>,
    // names in status.activeOperationRefs; kind and namespace are the same in every entry
    refs: seq<string>,
    ops: map<string, Operation>,
    jobs: map<string, Job>,
    cluster: Cluster,
    db: Option<Database>,
    nextUid: nat,
    nextOpUid: nat,
    api: Option<Deployment>)

  /** How reconcileBlueGreenAfterImport leaves the Operation. */
  datatype AfterImport = Continue | Complete | Abort

  datatype Observed = Observed(
    pendingReady: bool, secretExists: bool, clusterReady: bool, afterImport: AfterImport)

  datatype Event =
    | CreateOperation(name: string, parent: string, opType: OpType, regions: seq<string>)
    | DeleteOperation(name: string)
    | OperationPass(name: string, obs: Observed)
    | InstancePass(databaseFound: bool, listing: seq<string>)
    | DeleteInstance
    | JobProgress(name: string, job: Job)
    | JobGone(name: string)
    | ApiPods(pods: nat)
    | DatabaseApplied
    | DatabaseGone

  // ---------------------------------------------------------------- reading the store

  function Children(s: State): set<Operation> {
    set p | p in s.ops.Values && p.parent == s.spec.name
  }

  predicate WritesToCluster(s: State) {
    s.attached && !s.spec.kind.ConnectionSecret?
  }

  predicate MatchesPausePolicy(s: State, op: Operation) {
    ImpactMatches(s.spec.pauseImpact, op.opType)
  }

  /** hasOtherActiveMatchingImpactOps */
  predicate HasOtherActiveMatching(s: State, n: string) {
    exists p :: p in Children(s) && p.name != n && IsActive(p.phase) && MatchesPausePolicy(s, p)
  }

  predicate BootstrapComplete(s: State) {
    || s.regions != []
    || exists p :: p in Children(s) && p.opType.Bootstrap? && p.phase.Succeeded?
  }

  /** enforceRegionGates: the Operation would be failed here. */
  predicate GateCloses(s: State, op: Operation) {
    && RequiresRegionGate(op.opType)
    && (|| (op.regions == [] && s.spec.regions == [])
        || (s.spec.regions != [] && !BootstrapComplete(s)))
  }

  predicate HasPendingReset(s: State) {
    exists p :: p in Children(s) && p.opType.Rebuild? && IsActive(p.phase) && p.reset.ResetPending?
  }

  predicate SuspendsApi(spec: Spec, op: Operation) {
    (op.opType.Rebuild? && !spec.blueGreen) || ImpactMatches(spec.suspendImpact, op.opType)
  }

  predicate ShouldSuspendApi(s: State) {
    exists r :: r in s.refs && r in s.ops && SuspendsApi(s.spec, s.ops[r])
  }

  predicate ServingAllowed(s: State) {
    s.spec.regions == [] || s.regions != []
  }

  predicate UsesReset(s: State, op: Operation) {
    op.opType.Rebuild? && !s.spec.blueGreen && s.spec.kind.Managed?
  }

  // ---------------------------------------------------------------- steps of a pass

  function WithOp(s: State, n: string, op: Operation): State {
    s.(ops := s.ops[n := op])
  }

  function RemoveRef(refs: seq<string>, n: string): seq<string> {
    if refs == [] then []
    else if refs[0] == n then refs[1..]
    else [refs[0]] + RemoveRef(refs[1..], n)
  }

  /** syncParentActiveOperationRef */
  function SyncRef(s: State, n: string, active: bool): State
    requires n in s.ops
  {
    if s.ops[n].parent != s.spec.name then s
    else if active && n !in s.refs then s.(refs := s.refs + [n])
    else if !active && n in s.refs then s.(refs := RemoveRef(s.refs, n))
    else s
  }

  function PauseAndImport(s: State): State {
    if WritesToCluster(s)
    then s.(cluster := Cluster(true, Applied(s.spec.profiles, s.cluster.params, Import)))
    else s
  }

  function ResumeAndRuntime(s: State): State {
    if WritesToCluster(s)
    then s.(cluster := Cluster(false, Applied(s.spec.profiles, s.cluster.params, Runtime)))
    else s
  }

  /** applyPreJobCNPGEffects */
  function PreJobEffects(s: State, n: string): State
    requires n in s.ops
  {
    if MatchesPausePolicy(s, s.ops[n]) then PauseAndImport(s) else s
  }

  /** applyTerminalCNPGEffects */
  function TerminalEffects(s: State, n: string): State
    requires n in s.ops
  {
    if MatchesPausePolicy(s, s.ops[n]) && !HasOtherActiveMatching(s, n) then ResumeAndRuntime(s) else s
  }

  /** syncParentSideEffects; the parent is found only when it is the modelled instance. */
  function SyncSideEffects(s: State, n: string): State
    requires n in s.ops
  {
    var s1 := SyncRef(s, n, IsActive(s.ops[n].phase));
    if IsTerminal(s.ops[n].phase) && s.ops[n].parent == s.spec.name then TerminalEffects(s1, n) else s1
  }

  /** failOperation */
  function FailOperation(s: State, n: string): State
    requires n in s.ops
  {
    SyncSideEffects(WithOp(s, n, s.ops[n].(phase := Failed)), n)
  }

  /** syncStatusFromJob */
  function SyncStatusFromJob(s: State, n: string): State
    requires n in s.ops
  {
    if n !in s.jobs then s
    else WithOp(s, n, s.ops[n].(phase := PhaseFromJob(s.jobs[n]), jobRef := Some(n)))
  }

  /** ensureJob: a Job left under the name by an earlier Operation is taken as it is. */
  function EnsureJob(s: State, n: string): State
    requires n in s.ops
  {
    if n in s.jobs then s else s.(jobs := s.jobs[n := NewJob(s.ops[n])])
  }

  /** reconcileTerminalOperation */
  function TerminalPass(s: State, n: string): State
    requires n in s.ops
  {
    SyncSideEffects(if s.ops[n].jobRef.Some? then SyncStatusFromJob(s, n) else s, n)
  }

  /** reconcileOperationDelete: the object disappears when its finalizer is removed. */
  function DeletePass(s: State, n: string): State
    requires n in s.ops
  {
    if !s.ops[n].finalizer then s
    else
      var s1 := SyncRef(s, n, false);
      var s2 := if s.ops[n].parent == s.spec.name then TerminalEffects(s1, n) else s1;
      s2.(ops := s2.ops - {n})
  }

  predicate ApiQuiesced(s: State) {
    s.api.None? || (s.api.value.replicas == 0 && s.api.value.pods == 0)
  }

  /** apiQuiescedForRebuild scales a Deployment that still asks for replicas. */
  function ScaleApiDown(s: State): State {
    if s.api.Some? then s.(api := Some(s.api.value.(replicas := 0))) else s
  }

  /** ensureOwnedCNPGDatabase: create when absent, otherwise an update that keeps the UID. */
  function EnsureDatabase(s: State): State {
    if s.db.None? then s.(db := Some(Database(s.nextUid, false, false)), nextUid := s.nextUid + 1) else s
  }

  function RecordReset(s: State, n: string, reset: ResetMark, prevUid: PrevUid): State
    requires n in s.ops
  {
    WithOp(s, n, s.ops[n].(reset := reset, prevUid := prevUid))
  }

  function DropDatabase(s: State, n: string): State
    requires n in s.ops && s.db.Some?
  {
    var uid := s.db.value.uid;
    var s1 := s.(db := Some(s.db.value.(terminating := true)));
    var s2 := WithOp(s1, n, s1.ops[n].(drops := s1.ops[n].drops + [uid]));
    RecordReset(s2, n, ResetPending, Dropped(uid))
  }

  /** ensureRebuildDatabaseReset */
  function ResetDatabase(s: State, n: string): (r: (State, bool))
    requires n in s.ops
  {
    var op := s.ops[n];
    if !UsesReset(s, op) || op.reset.ResetDone? then (s, true)
    else if !ApiQuiesced(s) then (ScaleApiDown(s), false)
    else if op.prevUid.NotRecorded? then
      (if s.db.None? then RecordReset(s, n, ResetPending, NoneExisted) else DropDatabase(s, n), false)
    else if s.db.None? then (EnsureDatabase(s), false)
    else if op.prevUid == Dropped(s.db.value.uid) || !s.db.value.applied then (s, false)
    else (RecordReset(s, n, ResetDone, op.prevUid), true)
  }

  /** cnpgClusterReadyForJobs, given that status.database is set. */
  predicate ReadyForJobs(s: State, obs: Observed) {
    match s.spec.kind
    case ConnectionSecret => true
    case Attached => obs.clusterReady
    case Managed => obs.clusterReady && s.db.Some? && s.db.value.applied
  }

  /** waitForJobPrerequisites: the second component says whether the Job may be created. */
  function Prerequisites(s: State, n: string, obs: Observed): (r: (State, bool))
    requires n in s.ops
  {
    var blueGreenRebuild := s.ops[n].opType.Rebuild? && s.spec.blueGreen;
    if !s.attached then (s, false)
    else if blueGreenRebuild && !obs.pendingReady then (s, false)
    else if !obs.secretExists then (s, false)
    else
      var (s1, ready) := ResetDatabase(s, n);
      (s1, ready && (blueGreenRebuild || ReadyForJobs(s1, obs)))
  }

  /** What follows syncStatusFromJob: BlueGreen takes over a finished import. */
  function AfterJob(s: State, n: string, obs: Observed): State
    requires n in s.ops
  {
    if s.ops[n].opType.Rebuild? && s.spec.blueGreen && IsTerminal(s.ops[n].phase) then
      match obs.afterImport
      case Continue => WithOp(s, n, s.ops[n].(phase := Running))
      case Complete => WithOp(s, n, s.ops[n].(phase := Succeeded))
      case Abort => FailOperation(s, n)
    else SyncSideEffects(s, n)
  }

  /** The Operation may never run against this instance. */
  predicate Refused(s: State, op: Operation) {
    || !IsImplemented(op.opType)
    || op.parent != s.spec.name
    || s.deleting
    || (op.opType.Rebuild? && s.spec.blueGreen && !s.spec.kind.Managed?)
  }

  /** Past the claim: region gates, pre-Job effects, prerequisites, Job, status. */
  function ClaimedPass(s: State, n: string, obs: Observed): State
    requires n in s.ops
  {
    if GateCloses(s, s.ops[n]) then FailOperation(s, n)
    else
      var (s1, ready) := Prerequisites(PreJobEffects(s, n), n, obs);
      if !ready then s1
      else AfterJob(SyncStatusFromJob(EnsureJob(s1, n), n), n, obs)
  }

  /** Reconcile of an Operation in an active phase. */
  function ActivePass(s: State, n: string, obs: Observed): State
    requires n in s.ops
  {
    if Refused(s, s.ops[n]) then FailOperation(s, n)
    else
      match Decide(s.ops[n], Children(s))
      case Hold => FailOperation(s, n)
      case RaceWait => s
      case Ok => ClaimedPass(SyncRef(s, n, true), n, obs)
  }

  function ReconcileOperation(s: State, n: string, obs: Observed): State {
    if n !in s.ops then s
    else if s.ops[n].deleting then DeletePass(s, n)
    else
      var s0 := WithOp(s, n, s.ops[n].(finalizer := true));
      if IsTerminal(s.ops[n].phase) then TerminalPass(s0, n) else ActivePass(s0, n, obs)
  }

  // ---------------------------------------------------------------- instance passes

  function RequestDelete(ops: map<string, Operation>, n: string): map<string, Operation> {
    if n !in ops then ops
    else if ops[n].finalizer then ops[n := ops[n].(deleting := true)]
    else ops - {n}
  }

  /** drainChildOperations: delete requests for every child. */
  function Drain(s: State): State {
    s.(ops := map n | n in s.ops && (s.ops[n].parent != s.spec.name || s.ops[n].finalizer)
                :: if s.ops[n].parent == s.spec.name then s.ops[n].(deleting := true) else s.ops[n])
  }

  /** reconcileAPI, reduced to the Deployment's existence and replica count. */
  function ReconcileApi(s: State): State {
    if !ServingAllowed(s) then s.(api := None)
    else
      var replicas := if ShouldSuspendApi(s) then 0 else s.spec.apiReplicas;
      s.(api := Some(Deployment(replicas, if s.api.Some? then s.api.value.pods else 0)))
  }

  /** reconcileDatabase: a failed lookup of a referenced Cluster or Secret ends the pass. */
  function ReconcileDatabase(s: State): State {
    var s1 := if s.spec.kind.Managed? && !HasPendingReset(s) then EnsureDatabase(s) else s;
    s1.(attached := true)
  }

  /** `listing` names the instance's children, each once, in the order they are listed in. */
  predicate Lists(parent: string, ops: map<string, Operation>, listing: seq<string>) {
    && (forall i :: 0 <= i < |listing| ==> listing[i] in ops && ops[listing[i]].parent == parent)
    && (forall i, j :: 0 <= i < j < |listing| ==> listing[i] != listing[j])
    && (forall n :: n in ops && ops[n].parent == parent ==> n in listing)
  }

  function ListedOps(ops: map<string, Operation>, listing: seq<string>): (listed: seq<Operation>)
    requires forall i :: 0 <= i < |listing| ==> listing[i] in ops
  {
    seq(|listing|, i requires 0 <= i < |listing| => ops[listing[i]])
  }

  /** What the replay of succeeded Operations reads; settings never influence regions. */
  function ForReplay(spec: Spec, regions: seq<string>): Regions.Instance {
    Regions.Instance(spec.name, 0, spec.regions, Regions.Settings("", ""), Regions.AddData, "", regions, None)
  }

  /** observeRegionsFromSucceededOps on the listed children. */
  function ObservedRegions(s: State, listing: seq<string>): seq<string>
    requires Lists(s.spec.name, s.ops, listing)
  {
    Regions.Replay(ForReplay(s.spec, s.regions), ListedOps(s.ops, listing)).regions
  }

  /** Reconcile of the instance; the Operations it creates are CreateOperation events of
      their own. A `listing` that is none stands for no pass. */
  function ReconcileInstance(s: State, databaseFound: bool, listing: seq<string>): State {
    if s.deleting then Drain(s)
    else if !Lists(s.spec.name, s.ops, listing) then s
    else if !s.spec.kind.Managed? && !databaseFound then s
    else ReconcileApi(ReconcileDatabase(s).(regions := ObservedRegions(s, listing)))
  }

  /** The API server accepts an Operation and gives it a UID. */
  function Create(s: State, n: string, parent: string, opType: OpType, regions: seq<string>): State {
    s.(ops := s.ops[n := NewOperation(n, parent, opType, regions).(uid := s.nextOpUid)],
       nextOpUid := s.nextOpUid + 1)
  }

  // ---------------------------------------------------------------- runs

  function Apply(s: State, e: Event): State {
    match e
    case CreateOperation(n, parent, opType, regions) =>
      if n == "" || n in s.ops then s else Create(s, n, parent, opType, regions)
    case DeleteOperation(n) => s.(ops := RequestDelete(s.ops, n))
    case OperationPass(n, obs) => ReconcileOperation(s, n, obs)
    case InstancePass(found, listing) => ReconcileInstance(s, found, listing)
    case DeleteInstance => s.(deleting := true)
    case JobProgress(n, job) =>
      if n in s.jobs && JobMayBecome(s.jobs[n], job) then s.(jobs := s.jobs[n := job]) else s
    case JobGone(n) => s.(jobs := s.jobs - {n})
    case ApiPods(pods) =>
      if s.api.Some? && (s.api.value.replicas > 0 || pods <= s.api.value.pods)
      then s.(api := Some(s.api.value.(pods := pods))) else s
    case DatabaseApplied =>
      if s.db.Some? && !s.db.value.terminating then s.(db := Some(s.db.value.(applied := true))) else s
    case DatabaseGone =>
      if s.db.Some? && s.db.value.terminating then s.(db := None) else s
  }

  function Run(s: State, events: seq<Event>): State {
    if events == [] then s
    else Apply(Run(s, events[..|events| - 1]), events[|events| - 1])
  }

  /** An instance nothing has reconciled yet. Its Cluster may carry any parameters. */
  function Fresh(spec: Spec, params: Parameters): State {
    State(spec, false, false, [], [], map[], map[], Cluster(false, params), None, 0, 0, None)
  }
}
