/** What one Operation pass does, case by case and in terms of the stored data alone: every
    condition is spelled out here on fields, types and phases. */
module PassTable {
  import opened Names
  import opened Operations
  import opened WritePlane
  import opened Store
  import opened Lifecycle
  import opened Passes
  import References
  import Exclusion

  const HEAVY: set<OpType> := {Bootstrap, AddRegions, Rebuild, Migrate, Freeze}
  const GATED: set<OpType> := {AddRegions, Update, CatchUp}
  const LIVE: set<Phase> := {Unset, Pending, Running}

  // ---------------------------------------------------------------- the conditions

  /** The Operation may run against this instance at all. */
  ghost predicate Accepted(s: State, op: Operation) {
    && op.opType != Reserved && op.parent == s.spec.name && !s.deleting
    && !(op.opType == Rebuild && s.spec.blueGreen && s.spec.kind != Managed)
  }

  /** Another Operation of the instance that may not run beside `op`. */
  ghost predicate Rivals(s: State, op: Operation, m: string) {
    && m in s.ops && m != op.name && s.ops[m].parent == op.parent && s.ops[m].phase in LIVE
    && (op.opType in HEAVY || s.ops[m].opType in HEAVY)
  }

  ghost predicate HasJobOrRuns(op: Operation) {
    op.phase == Running || (op.jobRef != None && op.jobRef != Some(""))
  }

  ghost predicate Blocked(s: State, op: Operation) {
    exists m :: Rivals(s, op, m) && HasJobOrRuns(s.ops[m])
  }

  ghost predicate Queued(s: State, op: Operation) {
    exists m :: Rivals(s, op, m) && !HasJobOrRuns(s.ops[m]) && Less(m, op.name)
  }

  ghost predicate Bootstrapped(s: State) {
    || s.regions != []
    || exists m :: m in s.ops && s.ops[m].parent == s.spec.name
                   && s.ops[m].opType == Bootstrap && s.ops[m].phase == Succeeded
  }

  ghost predicate GateOpen(s: State, op: Operation) {
    op.opType in GATED ==>
      && (op.regions != [] || s.spec.regions != [])
      && (s.spec.regions == [] || Bootstrapped(s))
  }

  predicate NoPods(s: State) {
    s.api == None || (s.api.value.replicas == 0 && s.api.value.pods == 0)
  }

  /** The Database in place is the replacement, or none was needed. */
  ghost predicate ResetOver(s: State, op: Operation) {
    op.opType == Rebuild && !s.spec.blueGreen && s.spec.kind == Managed ==>
      || op.reset == ResetDone
      || (&& NoPods(s) && op.prevUid != NotRecorded
          && s.db != None && s.db.value.applied && op.prevUid != Dropped(s.db.value.uid))
  }

  ghost predicate DatabaseReady(s: State, op: Operation, obs: Observed) {
    if op.opType == Rebuild && s.spec.blueGreen then obs.pendingReady
    else if s.spec.kind == Attached then obs.clusterReady
    else s.spec.kind == Managed ==> obs.clusterReady && s.db != None && s.db.value.applied
  }

  /** Everything a pass waits for once the claim has succeeded and the gate is open. */
  ghost predicate Provided(s: State, op: Operation, obs: Observed) {
    s.attached && obs.secretExists && ResetOver(s, op) && DatabaseReady(s, op, obs)
  }

  /** The pass gets as far as the Job. */
  ghost predicate Works(s: State, op: Operation, obs: Observed) {
    Accepted(s, op) && !Blocked(s, op) && !Queued(s, op) && GateOpen(s, op) && Provided(s, op, obs)
  }

  /** The pass fails the Operation before it looks at a Job. */
  ghost predicate Rejects(s: State, op: Operation) {
    || !Accepted(s, op) || Blocked(s, op)
    || (!Queued(s, op) && !GateOpen(s, op))
  }

  // ---------------------------------------------------------------- the conditions in the code

  lemma TypesAndPhases(t: OpType, phase: Phase)
    ensures t in HEAVY <==> IsWriteHeavy(t)
    ensures t in GATED <==> RequiresRegionGate(t)
    ensures phase in LIVE <==> IsActive(phase)
    ensures t != Reserved <==> IsImplemented(t)
  {
  }

  lemma RivalsAlike(s: State, n: string, m: string)
    requires WellFormed(s) && n in s.ops && s.ops[n].parent == s.spec.name && IsActive(s.ops[n].phase)
    ensures Rivals(s, s.ops[n], m) <==> IsChild(s, m) && Rival(s.ops[n], s.ops[m])
    ensures IsChild(s, m) && IsActive(s.ops[m].phase) ==> (HoldsWritePlane(s.ops[m]) <==> HasJobOrRuns(s.ops[m]))
  {
    assert WellFormedOp(s, n);
    if m in s.ops { assert WellFormedOp(s, m); }
  }

  lemma ClaimAlike(s: State, n: string)
    requires WellFormed(s) && n in s.ops && s.ops[n].parent == s.spec.name && IsActive(s.ops[n].phase)
    ensures Blocked(s, s.ops[n]) <==> MeetsHolder(s, s.ops[n])
    ensures Queued(s, s.ops[n]) <==> IsOutranked(s, s.ops[n])
  {
    var op := s.ops[n];
    forall m ensures Rivals(s, op, m) <==> IsChild(s, m) && Rival(op, s.ops[m]) {
      RivalsAlike(s, n, m);
    }
    forall m | IsChild(s, m) && Rival(op, s.ops[m])
      ensures (HoldsWritePlane(s.ops[m]) <==> HasJobOrRuns(s.ops[m])) && s.ops[m].name == m
    {
      RivalsAlike(s, n, m);
      assert WellFormedOp(s, m);
    }
    if m :| Rivals(s, op, m) && HasJobOrRuns(s.ops[m]) {
      assert IsChild(s, m) && Rival(op, s.ops[m]) && HoldsWritePlane(s.ops[m]);
    }
    if m :| Rivals(s, op, m) && !HasJobOrRuns(s.ops[m]) && Less(m, op.name) {
      assert IsChild(s, m) && Outranks(s.ops[m], op);
    }
  }

  lemma GateAlike(s: State, op: Operation)
    requires WellFormed(s)
    ensures GateOpen(s, op) <==> !GateCloses(s, op)
  {
    BootstrapByName(s);
    TypesAndPhases(op.opType, op.phase);
    assert Bootstrapped(s) <==> BootstrapComplete(s) by {
      assert forall m :: IsChild(s, m) <==> m in s.ops && s.ops[m].parent == s.spec.name;
    }
  }

  // ---------------------------------------------------------------- the cases of a pass

  /** Past claim and gate. */
  function Proceed(s: State, n: string, obs: Observed): State
    requires n in s.ops
  {
    var (s2, ready) := Prerequisites(PreJobEffects(s, n), n, obs);
    if ready then AfterJob(SyncStatusFromJob(EnsureJob(s2, n), n), n, obs) else s2
  }

  lemma PassCases(s: State, n: string, obs: Observed)
    requires WellFormed(s) && n in s.ops && IsActive(s.ops[n].phase) && !s.ops[n].deleting
    ensures var t := ReconcileOperation(s, n, obs);
            var op := s.ops[n];
            && (!Accepted(s, op) || Blocked(s, op) ==> t == FailOperation(WithFinalizer(s, n), n))
            && (Accepted(s, op) && !Blocked(s, op) && Queued(s, op) ==> t == WithFinalizer(s, n))
            && (Accepted(s, op) && !Blocked(s, op) && !Queued(s, op) && !GateOpen(s, op) ==>
                  t == FailOperation(Claimed(s, n), n))
            && (Accepted(s, op) && !Blocked(s, op) && !Queued(s, op) && GateOpen(s, op) ==>
                  t == Proceed(Claimed(s, n), n, obs))
  {
    var s0 := WithFinalizer(s, n);
    PassIs(s, n, obs);
    AcceptedAlike(s, n);
    ClaimsWriteRefs(s0, n);
    hide ActivePass, ClaimedPass, FailOperation, SyncRef, Proceed, Children, Decide, Accepted, Blocked, Queued,
         MeetsHolder, IsOutranked, GateOpen, GateCloses, Refused;
    ActivePassCases(s0, n, obs);
    OwnWritesDoNotMatter(s, n, s0);
    OwnWritesDoNotMatter(s, n, Claimed(s, n));
    ClaimByName(s, s.ops[n]);
    GateAlike(s, s.ops[n]);
    if Accepted(s, s.ops[n]) { ClaimAlike(s, n); }
    ClaimedIs(Claimed(s, n), n, obs);
    if !Accepted(s, s.ops[n]) {
    } else if Blocked(s, s.ops[n]) {
    } else if Queued(s, s.ops[n]) {
    } else {
    }
  }

  lemma PassIs(s: State, n: string, obs: Observed)
    requires n in s.ops && IsActive(s.ops[n].phase) && !s.ops[n].deleting
    ensures ReconcileOperation(s, n, obs) == ActivePass(WithFinalizer(s, n), n, obs)
  {
    hide ActivePass;
  }

  lemma AcceptedAlike(s: State, n: string)
    requires n in s.ops
    ensures Accepted(s, s.ops[n]) <==> !Refused(WithFinalizer(s, n), WithFinalizer(s, n).ops[n])
    ensures Accepted(s, s.ops[n]) ==> s.ops[n].parent == s.spec.name
  {
    TypesAndPhases(s.ops[n].opType, s.ops[n].phase);
  }

  lemma ClaimsWriteRefs(s: State, n: string)
    requires n in s.ops
    ensures SyncRef(s, n, true) == s.(refs := SyncRef(s, n, true).refs)
  {
  }

  lemma ClaimedShape(s: State, n: string)
    requires n in s.ops
    ensures Claimed(s, n) == WithFinalizer(s, n).(refs := Claimed(s, n).refs)
  {
    ClaimsWriteRefs(WithFinalizer(s, n), n);
  }

  lemma ClaimedIs(s: State, n: string, obs: Observed)
    requires n in s.ops
    ensures ClaimedPass(s, n, obs) == if GateCloses(s, s.ops[n]) then FailOperation(s, n) else Proceed(s, n, obs)
  {
    hide GateCloses, FailOperation, Prerequisites, AfterJob, PreJobEffects;
  }

  // ---------------------------------------------------------------- the table

  /** The phase that the counters of a Job stand for. */
  predicate Reads(phase: Phase, job: Job) {
    && (phase == Succeeded <==> job.succeeded > 0)
    && (phase == Failed <==> job.succeeded == 0 && job.failed > 0)
    && (phase == Running <==> job.succeeded == 0 && job.failed == 0 && job.active > 0)
    && (phase == Pending <==> job.succeeded == 0 && job.failed == 0 && job.active == 0)
  }

  /** The Job after a pass that worked: the one found, or a new one of the Operation. */
  function JobAfter(s: State, n: string): Job
    requires n in s.ops
  {
    if n in s.jobs then s.jobs[n] else Job(Owner(s.ops[n].uid, s.ops[n].opType, s.ops[n].parent), 0, 0, 0)
  }

  /** A finished import that the swap takes over. */
  ghost predicate TakenOver(s: State, n: string)
    requires n in s.ops
  {
    s.ops[n].opType == Rebuild && s.spec.blueGreen && (JobAfter(s, n).succeeded > 0 || JobAfter(s, n).failed > 0)
  }

  ghost predicate PhaseAfter(s: State, n: string, obs: Observed, phase: Phase)
    requires n in s.ops
  {
    if TakenOver(s, n) then
      && (obs.afterImport == Continue ==> phase == Running)
      && (obs.afterImport == Complete ==> phase == Succeeded)
      && (obs.afterImport == Abort ==> phase == Failed)
    else Reads(phase, JobAfter(s, n))
  }

  lemma ReadyAlike(s: State, n: string, obs: Observed)
    requires n in s.ops
    ensures Prerequisites(s, n, obs).1 <==> Provided(s, s.ops[n], obs)
  {
    hide DropDatabase, EnsureDatabase, ScaleApiDown;
    var op := s.ops[n];
    if UsesReset(s, op) && !op.reset.ResetDone? {
      if !ApiQuiesced(s) {
      } else if op.prevUid.NotRecorded? {
      } else if s.db.None? {
      } else if op.prevUid == Dropped(s.db.value.uid) || !s.db.value.applied {
      } else {
      }
    }
  }

  lemma ProvidedAlike(s: State, t: State, n: string, obs: Observed)
    requires n in s.ops
    requires t == s.(ops := s.ops[n := s.ops[n].(finalizer := true)], refs := t.refs, cluster := t.cluster)
    ensures Provided(t, t.ops[n], obs) <==> Provided(s, s.ops[n], obs)
  {
  }

  lemma PreJobWritesCluster(s: State, n: string)
    requires n in s.ops
    ensures PreJobEffects(s, n) == s.(cluster := PreJobEffects(s, n).cluster)
  {
  }

  /** What the second half of a pass does to Job, phase and Job reference. */
  lemma ProceedTable(s: State, n: string, obs: Observed)
    requires n in s.ops
    ensures var t := Proceed(Claimed(s, n), n, obs);
            && n in t.ops
            && (if Provided(s, s.ops[n], obs)
                then && t.jobs == s.jobs[n := JobAfter(s, n)] && t.ops[n].jobRef == Some(n)
                     && PhaseAfter(s, n, obs, t.ops[n].phase)
                else t.jobs == s.jobs && t.ops[n].jobRef == s.ops[n].jobRef && t.ops[n].phase == s.ops[n].phase)
  {
    hide Claimed, PreJobEffects, SyncRef, Prerequisites, AfterJob, FailOperation, SyncSideEffects, Provided,
         ResetDatabase;
    var s0 := Claimed(s, n);
    ClaimedShape(s, n);
    PreJobWritesCluster(s0, n);
    var s1 := PreJobEffects(s0, n);
    ReadyAlike(s1, n, obs);
    ProvidedAlike(s, s1, n, obs);
    PrerequisitesShape(s1, n, obs);
    var (s2, ready) := Prerequisites(s1, n, obs);
    if ready {
      var s3 := SyncStatusFromJob(EnsureJob(s2, n), n);
      assert s3.jobs == s.jobs[n := JobAfter(s, n)];
      AfterJobTable(s3, n, obs);
    }
  }

  lemma AfterJobTable(s: State, n: string, obs: Observed)
    requires n in s.ops
    ensures var t := AfterJob(s, n, obs);
            && n in t.ops && t.jobs == s.jobs && t.ops[n].jobRef == s.ops[n].jobRef
            && (if s.ops[n].opType.Rebuild? && s.spec.blueGreen && IsTerminal(s.ops[n].phase)
                then match obs.afterImport
                     case Continue => t.ops[n].phase.Running?
                     case Complete => t.ops[n].phase.Succeeded?
                     case Abort => t.ops[n].phase.Failed?
                else t.ops[n].phase == s.ops[n].phase)
  {
    hide SyncSideEffects, FailOperation;
    SideEffectsShape(s, n);
    FailShape(s, n);
  }

  /** The whole table of a pass over an active Operation: it is failed exactly when it is
      rejected; its Job is created or found, and its phase read off that Job, exactly when
      nothing is in the way; and otherwise it waits as it is. */
  lemma ActivePassTable(s: State, n: string, obs: Observed)
    requires WellFormed(s) && n in s.ops && s.ops[n].phase in LIVE && !s.ops[n].deleting
    ensures var t := ReconcileOperation(s, n, obs);
            && n in t.ops && t.ops[n].finalizer
            && (Rejects(s, s.ops[n]) ==>
                  t.ops[n].phase == Failed && t.ops[n].jobRef == s.ops[n].jobRef && t.jobs == s.jobs)
            && (Works(s, s.ops[n], obs) ==>
                  && t.jobs == s.jobs[n := JobAfter(s, n)] && t.ops[n].jobRef == Some(n)
                  && PhaseAfter(s, n, obs, t.ops[n].phase))
            && (!Rejects(s, s.ops[n]) && Queued(s, s.ops[n]) ==> t == WithFinalizer(s, n))
            && (!Rejects(s, s.ops[n]) && !Works(s, s.ops[n], obs) ==>
                  t.jobs == s.jobs && t.ops[n].jobRef == s.ops[n].jobRef && t.ops[n].phase == s.ops[n].phase)
  {
    hide ReconcileOperation, FailOperation, Proceed, Claimed, SyncRef, Provided, Accepted, Blocked, Queued, GateOpen,
         PhaseAfter, JobAfter;
    PassCases(s, n, obs);
    PassKeepsOperation(s, n, obs);
    ClaimedShape(s, n);
    FailShape(WithFinalizer(s, n), n);
    FailShape(Claimed(s, n), n);
    ProceedTable(s, n, obs);
  }

  lemma PassKeepsOperation(s: State, n: string, obs: Observed)
    requires WellFormed(s) && n in s.ops && !s.ops[n].deleting
    ensures n in ReconcileOperation(s, n, obs).ops && ReconcileOperation(s, n, obs).ops[n].finalizer
  {
    hide ReconcileOperation;
    ReconcileOutcome(s, n, obs);
  }

  /** A pass over a terminal Operation reads its Job again, if it ever had one that is left. */
  lemma TerminalPassTable(s: State, n: string, obs: Observed)
    requires WellFormed(s) && n in s.ops && s.ops[n].phase !in LIVE && !s.ops[n].deleting
    ensures var t := ReconcileOperation(s, n, obs);
            && n in t.ops && t.ops[n].finalizer && t.jobs == s.jobs && t.ops[n].jobRef == s.ops[n].jobRef
            && (if s.ops[n].jobRef != None && n in s.jobs then Reads(t.ops[n].phase, s.jobs[n])
                else t.ops[n].phase == s.ops[n].phase)
  {
    hide SyncSideEffects;
    assert WellFormedOp(s, n);
    var s0 := WithFinalizer(s, n);
    SideEffectsShape(if s0.ops[n].jobRef.Some? then SyncStatusFromJob(s0, n) else s0, n);
  }

  /** A pass over an Operation that is being deleted lets it go, and leaves every Job. */
  lemma DeletingPassTable(s: State, n: string, obs: Observed)
    requires n in s.ops && s.ops[n].deleting
    ensures var t := ReconcileOperation(s, n, obs);
            && t.jobs == s.jobs
            && (if s.ops[n].finalizer then t.ops == s.ops - {n} else t == s)
  {
    hide TerminalEffects, RemoveRef;
    TerminalShape(SyncRef(s, n, false), n);
  }

  // ---------------------------------------------------------------- the reset

  /** The pass is about to reset the database of an in-place Rebuild. */
  ghost predicate AtReset(s: State, op: Operation, obs: Observed) {
    && Accepted(s, op) && !Blocked(s, op) && !Queued(s, op) && GateOpen(s, op)
    && s.attached && obs.secretExists
    && op.opType == Rebuild && !s.spec.blueGreen && s.spec.kind == Managed && op.reset != ResetDone
  }

  /** The state and records that the reset works on. */
  datatype ResetView = ResetView(
    api: Option<Deployment>, db: Option<Database>, nextUid: nat, reset: ResetMark, prevUid: PrevUid, drops: seq<nat>)

  function ViewOf(s: State, n: string): ResetView
    requires n in s.ops
  {
    ResetView(s.api, s.db, s.nextUid, s.ops[n].reset, s.ops[n].prevUid, s.ops[n].drops)
  }

  /** One step of the reset: pods first, then the drop and its record, then the replacement,
      and `done` once the replacement is applied. */
  function NextView(v: ResetView): ResetView {
    if v.api != None && (v.api.value.replicas != 0 || v.api.value.pods != 0) then
      v.(api := Some(Deployment(0, v.api.value.pods)))
    else
      match (v.prevUid, v.db)
      case (NotRecorded, None) => v.(reset := ResetPending, prevUid := NoneExisted)
      case (NotRecorded, Some(d)) =>
        v.(reset := ResetPending, prevUid := Dropped(d.uid), drops := v.drops + [d.uid],
           db := Some(Database(d.uid, d.applied, true)))
      case (_, None) => v.(db := Some(Database(v.nextUid, false, false)), nextUid := v.nextUid + 1)
      case (prev, Some(d)) => if d.applied && prev != Dropped(d.uid) then v.(reset := ResetDone) else v
  }

  lemma ResetIsNextView(s: State, n: string)
    requires n in s.ops && UsesReset(s, s.ops[n]) && s.ops[n].reset != ResetDone
    ensures n in ResetDatabase(s, n).0.ops && ViewOf(ResetDatabase(s, n).0, n) == NextView(ViewOf(s, n))
  {
    var op := s.ops[n];
    if !ApiQuiesced(s) {
    } else if op.prevUid.NotRecorded? {
      if s.db.Some? {
        assert s.db.value.(terminating := true) == Database(s.db.value.uid, s.db.value.applied, true);
      }
    } else if s.db.None? {
    } else if op.prevUid == Dropped(s.db.value.uid) || !s.db.value.applied {
    } else {
    }
  }

  /** A pass at the reset takes exactly its next step; any other pass leaves the API, the
      Database and the Operation's records as they are. */
  lemma ResetTable(s: State, n: string, obs: Observed)
    requires WellFormed(s) && n in s.ops && s.ops[n].phase in LIVE && !s.ops[n].deleting
    ensures var t := ReconcileOperation(s, n, obs);
            && n in t.ops
            && ViewOf(t, n) == if AtReset(s, s.ops[n], obs) then NextView(ViewOf(s, n)) else ViewOf(s, n)
  {
    hide ReconcileOperation, FailOperation, Proceed, Claimed, SyncRef, Accepted, Blocked, Queued, GateOpen, NextView;
    PassCases(s, n, obs);
    PassKeepsOperation(s, n, obs);
    ClaimedShape(s, n);
    FailShape(WithFinalizer(s, n), n);
    FailShape(Claimed(s, n), n);
    ProceedResets(Claimed(s, n), n, obs);
  }

  lemma ProceedResets(s: State, n: string, obs: Observed)
    requires n in s.ops
    ensures var t := Proceed(s, n, obs);
            var op := s.ops[n];
            && n in t.ops
            && ViewOf(t, n) == if s.attached && obs.secretExists && UsesReset(s, op) && op.reset != ResetDone
                               then NextView(ViewOf(s, n)) else ViewOf(s, n)
  {
    hide PreJobEffects, Prerequisites, AfterJob, ResetDatabase, NextView, ReadyForJobs, SyncStatusFromJob, EnsureJob;
    PreJobWritesCluster(s, n);
    var s1 := PreJobEffects(s, n);
    PrerequisitesReset(s1, n, obs);
    var (s2, ready) := Prerequisites(s1, n, obs);
    if ready { JobKeepsView(s2, n, obs); }
  }

  lemma PrerequisitesReset(s: State, n: string, obs: Observed)
    requires n in s.ops
    ensures var t := Prerequisites(s, n, obs).0;
            var op := s.ops[n];
            && n in t.ops
            && ViewOf(t, n) == if s.attached && obs.secretExists && UsesReset(s, op) && op.reset != ResetDone
                               then NextView(ViewOf(s, n)) else ViewOf(s, n)
  {
    hide ResetDatabase, NextView, ReadyForJobs;
    if UsesReset(s, s.ops[n]) && s.ops[n].reset != ResetDone { ResetIsNextView(s, n); } else { NoReset(s, n); }
  }

  lemma JobKeepsView(s: State, n: string, obs: Observed)
    requires n in s.ops
    ensures var t := AfterJob(SyncStatusFromJob(EnsureJob(s, n), n), n, obs);
            n in t.ops && ViewOf(t, n) == ViewOf(s, n)
  {
    hide AfterJob;
    var s3 := SyncStatusFromJob(EnsureJob(s, n), n);
    AfterJobShape(s3, n, obs);
  }

  lemma NoReset(s: State, n: string)
    requires n in s.ops && !(UsesReset(s, s.ops[n]) && s.ops[n].reset != ResetDone)
    ensures ResetDatabase(s, n) == (s, true)
  {
  }

  // ---------------------------------------------------------------- references

  lemma SideEffectsSettle(s: State, n: string)
    requires n in s.ops && References.Distinct(s.refs) && s.ops[n].parent == s.spec.name
    ensures n in SyncSideEffects(s, n).refs <==> s.ops[n].phase in LIVE
  {
    hide TerminalEffects;
    References.RemoveRefDistinct(s.refs, n);
    if !IsActive(s.ops[n].phase) { TerminalShape(SyncRef(s, n, false), n); }
  }

  lemma FailReleases(s: State, n: string)
    requires n in s.ops && References.Distinct(s.refs) && s.ops[n].parent == s.spec.name
    ensures n !in FailOperation(s, n).refs
  {
    hide SyncSideEffects;
    SideEffectsSettle(WithOp(s, n, s.ops[n].(phase := Failed)), n);
  }

  lemma ProceedReferences(s: State, n: string, obs: Observed)
    requires n in s.ops && References.Distinct(s.refs) && n in s.refs && s.ops[n].parent == s.spec.name
    requires s.ops[n].phase in LIVE && !s.spec.blueGreen
    ensures var t := Proceed(s, n, obs);
            n in t.ops && (n in t.refs <==> t.ops[n].phase in LIVE)
  {
    PreJobWritesCluster(s, n);
    var s1 := PreJobEffects(s, n);
    hide PreJobEffects, Prerequisites, SyncSideEffects;
    PrerequisitesShape(s1, n, obs);
    var (s2, ready) := Prerequisites(s1, n, obs);
    if ready {
      var s3 := SyncStatusFromJob(EnsureJob(s2, n), n);
      SideEffectsSettle(s3, n);
      SideEffectsShape(s3, n);
    }
  }

  lemma ClaimedHasRef(s: State, n: string)
    requires n in s.ops && References.Distinct(s.refs) && s.ops[n].parent == s.spec.name
    ensures n in Claimed(s, n).refs && References.Distinct(Claimed(s, n).refs)
  {
    References.SyncRefStep(WithFinalizer(s, n), n, true);
  }

  /** The reference after a pass that does not let the Operation go. Without BlueGreen, or
      from a terminal phase, a finished Operation is not referenced, and an active one is,
      unless the pass only waited for its turn. */
  lemma ReferenceFollowsPhase(s: State, n: string, obs: Observed)
    requires WellFormed(s) && References.RefsSound(s) && n in s.ops && s.ops[n].parent == s.spec.name
    requires !s.ops[n].deleting && (s.spec.blueGreen ==> s.ops[n].phase !in LIVE)
    ensures var t := ReconcileOperation(s, n, obs);
            && n in t.ops
            && (t.ops[n].phase !in LIVE ==> n !in t.refs)
            && (t.ops[n].phase in LIVE ==>
                  n in t.refs || (s.ops[n].phase in LIVE && !Blocked(s, s.ops[n]) && Queued(s, s.ops[n])))
  {
    hide SyncSideEffects, FailOperation, Proceed, Accepted, Blocked, Queued, GateOpen;
    PassKeepsOperation(s, n, obs);
    if s.ops[n].phase in LIVE {
      ActiveReferences(s, n, obs);
    } else {
      var s0 := WithFinalizer(s, n);
      var s1 := if s0.ops[n].jobRef.Some? then SyncStatusFromJob(s0, n) else s0;
      SideEffectsSettle(s1, n);
      SideEffectsShape(s1, n);
    }
  }

  lemma ActiveReferences(s: State, n: string, obs: Observed)
    requires WellFormed(s) && References.RefsSound(s) && n in s.ops && s.ops[n].parent == s.spec.name
    requires !s.ops[n].deleting && s.ops[n].phase in LIVE && !s.spec.blueGreen
    ensures var t := ReconcileOperation(s, n, obs);
            && n in t.ops
            && (t.ops[n].phase !in LIVE ==> n !in t.refs)
            && (t.ops[n].phase in LIVE ==> n in t.refs || (!Blocked(s, s.ops[n]) && Queued(s, s.ops[n])))
  {
    hide ReconcileOperation, FailOperation, Proceed, Claimed, SyncRef, Accepted, Blocked, Queued, GateOpen;
    PassCases(s, n, obs);
    PassKeepsOperation(s, n, obs);
    ClaimedShape(s, n);
    ClaimedHasRef(s, n);
    FailReleases(WithFinalizer(s, n), n);
    FailReleases(Claimed(s, n), n);
    FailShape(WithFinalizer(s, n), n);
    FailShape(Claimed(s, n), n);
    ProceedReferences(Claimed(s, n), n, obs);
  }

  /** In every run: after a pass, an Operation of the instance that is finished is no longer
      referenced, so it keeps nothing suspended. With BlueGreen this is so from the next pass
      after the swap has finished it. */
  lemma FinishedIsReleased(spec: Spec, params: map<string, string>, events: seq<Event>, n: string, obs: Observed)
    requires var s := Run(Fresh(spec, params), events);
             && n in s.ops && s.ops[n].parent == spec.name
             && (spec.blueGreen ==> s.ops[n].phase == Succeeded || s.ops[n].phase == Failed)
    ensures var t := ReconcileOperation(Run(Fresh(spec, params), events), n, obs);
            n !in t.ops || t.ops[n].phase == Succeeded || t.ops[n].phase == Failed ==> n !in t.refs
  {
    hide ReconcileOperation;
    var s := Run(Fresh(spec, params), events);
    References.RefsHold(spec, params, events);
    References.SpecIsFixed(spec, params, events);
    if s.ops[n].deleting {
      References.PassRefStep(s, n, obs);
      UnfinalizedIsUnreferenced(s, n, obs);
    } else {
      ReferenceFollowsPhase(s, n, obs);
    }
  }

  lemma UnfinalizedIsUnreferenced(s: State, n: string, obs: Observed)
    requires References.RefsSound(s) && n in s.ops && s.ops[n].deleting
    ensures !s.ops[n].finalizer ==> n !in ReconcileOperation(s, n, obs).refs
    ensures s.ops[n].finalizer ==> n !in ReconcileOperation(s, n, obs).ops
  {
    DeletingPassTable(s, n, obs);
  }

  ghost predicate ReferencesLive(s: State) {
    forall r :: r in s.refs && r in s.ops ==> s.ops[r].phase in LIVE
  }

  lemma PassKeepsReferencesLive(s: State, n: string, obs: Observed)
    requires WellFormed(s) && References.RefsSound(s) && ReferencesLive(s) && n in s.ops && !s.spec.blueGreen
    ensures ReferencesLive(ReconcileOperation(s, n, obs))
  {
    hide ReconcileOperation;
    var t := ReconcileOperation(s, n, obs);
    ReconcileOutcome(s, n, obs);
    References.PassKeepsSound(s, n, obs);
    if s.ops[n].deleting {
      DeletingPassTable(s, n, obs);
      References.PassRefStep(s, n, obs);
    } else if s.ops[n].parent == s.spec.name {
      ReferenceFollowsPhase(s, n, obs);
    }
  }

  /** In every run without BlueGreen each reference names an Operation that is at work, so
      finished Operations hold nothing down. */
  lemma {:induction false} ReferencesAreLive(spec: Spec, params: map<string, string>, events: seq<Event>)
    requires !spec.blueGreen
    ensures ReferencesLive(Run(Fresh(spec, params), events))
  {
    hide Apply;
    if events != [] {
      var before, e := events[..|events| - 1], events[|events| - 1];
      ReferencesAreLive(spec, params, before);
      References.RefsHold(spec, params, before);
      References.SpecIsFixed(spec, params, before);
      StepKeepsReferencesLive(Run(Fresh(spec, params), before), e);
    }
  }

  lemma StepKeepsReferencesLive(s: State, e: Event)
    requires WellFormed(s) && References.RefsSound(s) && ReferencesLive(s) && !s.spec.blueGreen
    ensures ReferencesLive(Apply(s, e))
  {
    hide ReconcileOperation, ReconcileInstance;
    if e.OperationPass? {
      if e.name in s.ops {
        PassKeepsReferencesLive(s, e.name, e.obs);
      } else {
        Exclusion.PassOverNothing(s, e.name, e.obs);
      }
    } else if !e.CreateOperation? {
      EnvironmentShape(s, e);
    }
  }
}
