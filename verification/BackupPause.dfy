/** Pausing backups and switching the postgres profile around Operations, over whole runs
    (internal/controller/nominatimoperation_effects.go). */
module BackupPause {
  import opened Operations
  import opened WritePlane
  import opened Profiles
  import opened Store
  import opened Lifecycle
  import opened Exclusion
  import opened References
  import opened PassTable
  import Passes

  ghost predicate Matching(s: State, n: string) {
    IsChild(s, n) && MatchesPausePolicy(s, s.ops[n])
  }

  /** Backups are paused and the import profile is in force. */
  ghost predicate ImportMode(s: State) {
    s.cluster.paused && InForce(s.spec.profiles, s.cluster.params, Import)
  }

  ghost predicate RuntimeMode(s: State) {
    !s.cluster.paused && InForce(s.spec.profiles, s.cluster.params, Runtime)
  }

  ghost predicate Working(s: State, n: string) {
    Matching(s, n) && IsActive(s.ops[n].phase) && s.ops[n].jobRef.Some?
  }

  /** While the instance is not being deleted, every working Operation has its protection. */
  ghost predicate Protected(s: State) {
    !s.deleting && WritesToCluster(s) ==> forall n :: Working(s, n) ==> ImportMode(s)
  }

  /** Nobody's backups stay paused for nothing. */
  ghost predicate Accounted(s: State) {
    s.cluster.paused ==> exists n :: Matching(s, n) && IsActive(s.ops[n].phase)
  }

  /** No other Operation keeps backups paused. */
  ghost predicate NoOtherMatch(s: State, n: string) {
    forall m :: m != n && Matching(s, m) ==> !IsActive(s.ops[m].phase)
  }

  ghost predicate OnlyCluster(s: State, t: State) {
    t == s.(cluster := t.cluster)
  }

  lemma PauseStep(s: State, n: string)
    requires n in s.ops
    ensures OnlyCluster(s, PreJobEffects(s, n))
    ensures MatchesPausePolicy(s, s.ops[n]) && WritesToCluster(s) ==> ImportMode(PreJobEffects(s, n))
    ensures PreJobEffects(s, n).cluster == s.cluster
            || (MatchesPausePolicy(s, s.ops[n]) && WritesToCluster(s) && ImportMode(PreJobEffects(s, n)))
  {
    AppliedIsInForce(s.spec.profiles, s.cluster.params, Import);
  }

  /** Resuming happens only for a matching Operation without other active matches, and then
      it does happen. */
  ghost predicate ResumeStep(s: State, t: State, n: string)
    requires n in s.ops
  {
    if MatchesPausePolicy(s, s.ops[n]) && WritesToCluster(s) && NoOtherMatch(s, n)
    then RuntimeMode(t)
    else t.cluster == s.cluster
  }

  lemma TerminalStep(s: State, n: string)
    requires WellFormed(s) && n in s.ops
    ensures OnlyCluster(s, TerminalEffects(s, n)) && ResumeStep(s, TerminalEffects(s, n), n)
  {
    hide Children;
    OtherActiveByName(s, n);
    assert forall m :: Matching(s, m) <==> IsChild(s, m) && MatchesPausePolicy(s, s.ops[m]);
    AppliedIsInForce(s.spec.profiles, s.cluster.params, Runtime);
  }

  /** The Cluster after syncParentSideEffects. */
  lemma SideEffectsStep(s: State, n: string)
    requires WellFormed(s) && n in s.ops
    ensures var t := SyncSideEffects(s, n);
            && WritesParentOnly(s, t, n)
            && (if IsTerminal(s.ops[n].phase) && IsChild(s, n) then ResumeStep(s, t, n) else t.cluster == s.cluster)
  {
    hide TerminalEffects, RemoveRef;
    SideEffectsShape(s, n);
    var s1 := SyncRef(s, n, IsActive(s.ops[n].phase));
    assert s1 == s.(refs := s1.refs);
    assert forall m :: m in s1.ops ==> WellFormedOp(s, m) && WellFormedOp(s1, m);
    TerminalStep(s1, n);
    assert forall m :: Matching(s1, m) <==> Matching(s, m);
  }

  lemma FailStep(s: State, n: string)
    requires WellFormed(s) && n in s.ops
    ensures var t := FailOperation(s, n);
            && WritesParentOnly(WithOp(s, n, s.ops[n].(phase := Failed)), t, n)
            && (if IsChild(s, n) then ResumeStep(s, t, n) else t.cluster == s.cluster)
  {
    hide SyncSideEffects;
    FailShape(s, n);
    var s1 := WithOp(s, n, s.ops[n].(phase := Failed));
    forall m | m in s1.ops ensures WellFormedOp(s1, m) { assert WellFormedOp(s, m); }
    SideEffectsStep(s1, n);
    SameMatches(s, s1, n);
  }

  lemma SameMatches(s: State, t: State, n: string)
    requires n in s.ops && n in t.ops && t.spec == s.spec && t.attached == s.attached && t.cluster == s.cluster
    requires s.ops[n].opType == t.ops[n].opType
    requires forall m :: m != n ==> (m in t.ops <==> m in s.ops) && (m in s.ops ==> t.ops[m] == s.ops[m])
    ensures forall u :: ResumeStep(s, u, n) <==> ResumeStep(t, u, n)
  {
    assert forall m :: m != n ==> (Matching(s, m) <==> Matching(t, m));
  }

  /** How one pass over `n` leaves the Cluster. */
  ghost predicate PassCluster(s: State, t: State, n: string)
    requires n in s.ops
  {
    || t.cluster == s.cluster
    || (Matching(s, n) && WritesToCluster(s) && ImportMode(t) && n in t.ops)
    || (&& Matching(s, n) && WritesToCluster(s) && RuntimeMode(t)
        && NoOtherMatch(s, n) && (n in t.ops ==> IsTerminal(t.ops[n].phase)))
  }

  /** A pass that ends with `n` terminal (outside BlueGreen) leaves no pause that only `n`
      could account for, and one that ends with `n` armed has paused. */
  ghost predicate PassSettles(s: State, t: State, n: string)
    requires n in s.ops
  {
    && (n in t.ops && Working(t, n) && !IsTerminal(s.ops[n].phase) && WritesToCluster(s) ==>
          ImportMode(t) || (t.cluster == s.cluster && s.ops[n].jobRef.Some?))
    && (Matching(s, n) && WritesToCluster(s) && !s.spec.blueGreen && NoOtherMatch(s, n) ==>
          (n in t.ops && IsActive(t.ops[n].phase)) || RuntimeMode(t))
  }

  lemma AfterJobStep(s0: State, s: State, n: string, obs: Observed)
    requires WellFormed(s) && n in s.ops && n in s0.ops && IsChild(s, n)
    requires s.spec == s0.spec && s.attached == s0.attached && s.ops[n].opType == s0.ops[n].opType
    requires forall m :: m != n ==> (m in s.ops <==> m in s0.ops) && (m in s0.ops ==> s.ops[m] == s0.ops[m])
    requires IsChild(s0, n) && IsActive(s0.ops[n].phase)
    requires s.cluster == s0.cluster || (Matching(s0, n) && WritesToCluster(s0) && ImportMode(s))
    requires Matching(s0, n) && WritesToCluster(s0) ==> ImportMode(s)
    ensures PassCluster(s0, AfterJob(s, n, obs), n) && PassSettles(s0, AfterJob(s, n, obs), n)
  {
    hide SyncSideEffects, FailOperation;
    SideEffectsStep(s, n);
    FailStep(s, n);
    assert forall m :: m != n ==> (Matching(s, m) <==> Matching(s0, m));
  }

  lemma ClaimedPassStep(s: State, n: string, obs: Observed)
    requires WellFormed(s) && IsChild(s, n) && s.ops[n].finalizer && IsActive(s.ops[n].phase)
    requires !Refused(s, s.ops[n])
    ensures PassCluster(s, ClaimedPass(s, n, obs), n) && PassSettles(s, ClaimedPass(s, n, obs), n)
  {
    hide Prerequisites, AfterJob, FailOperation, GateCloses, PreJobEffects;
    FailStep(s, n);
    var s1 := PreJobEffects(s, n);
    PauseStep(s, n);
    PrerequisitesShape(s1, n, obs);
    var (s2, ready) := Prerequisites(s1, n, obs);
    if !GateCloses(s, s.ops[n]) && ready {
      var s3 := SyncStatusFromJob(EnsureJob(s2, n), n);
      JobShape(s2, n);
      forall m | m in s3.ops ensures WellFormedOp(s3, m) { assert WellFormedOp(s, m); }
      AfterJobStep(s, s3, n, obs);
    }
  }

  lemma TerminalPassStep(s: State, n: string)
    requires WellFormed(s) && n in s.ops && s.ops[n].finalizer && IsTerminal(s.ops[n].phase)
    ensures PassCluster(s, TerminalPass(s, n), n) && PassSettles(s, TerminalPass(s, n), n)
  {
    hide SyncSideEffects;
    var s1 := if s.ops[n].jobRef.Some? then SyncStatusFromJob(s, n) else s;
    forall m | m in s1.ops ensures WellFormedOp(s1, m) { assert WellFormedOp(s, m); }
    SideEffectsStep(s1, n);
    SameMatches(s, s1, n);
  }

  lemma DeletePassStep(s: State, n: string)
    requires WellFormed(s) && n in s.ops && s.ops[n].finalizer
    ensures PassCluster(s, DeletePass(s, n), n) && PassSettles(s, DeletePass(s, n), n)
  {
    hide TerminalEffects, RemoveRef;
    var s1 := SyncRef(s, n, false);
    assert s1 == s.(refs := s1.refs);
    assert forall m :: m in s1.ops ==> WellFormedOp(s, m) && WellFormedOp(s1, m);
    TerminalStep(s1, n);
    assert forall m :: Matching(s1, m) <==> Matching(s, m);
  }

  lemma ActivePassStep(s: State, n: string, obs: Observed)
    requires WellFormed(s) && n in s.ops && s.ops[n].finalizer && IsActive(s.ops[n].phase)
    ensures PassCluster(s, ActivePass(s, n, obs), n) && PassSettles(s, ActivePass(s, n, obs), n)
  {
    hide ActivePass, ClaimedPass, FailOperation, Children, Decide;
    ActivePassCases(s, n, obs);
    FailStep(s, n);
    FailShape(s, n);
    if !Refused(s, s.ops[n]) && Decide(s.ops[n], Children(s)).Ok? {
      var s1 := SyncRef(s, n, true);
      assert s1 == s.(refs := s1.refs);
      forall m | m in s1.ops ensures WellFormedOp(s1, m) { assert WellFormedOp(s, m); }
      ClaimedPassStep(s1, n, obs);
      assert forall m :: Matching(s1, m) <==> Matching(s, m);
    }
  }

  lemma PassStep(s: State, n: string, obs: Observed)
    requires WellFormed(s) && n in s.ops
    requires s.ops[n].deleting ==> s.ops[n].finalizer
    ensures var t := ReconcileOperation(s, n, obs); PassCluster(s, t, n) && PassSettles(s, t, n)
  {
    hide ActivePass, TerminalPass, DeletePass;
    if s.ops[n].deleting {
      DeletePassStep(s, n);
    } else {
      var s0 := WithOp(s, n, s.ops[n].(finalizer := true));
      forall m | m in s0.ops ensures WellFormedOp(s0, m) { assert WellFormedOp(s, m); }
      assert forall m :: Matching(s0, m) <==> Matching(s, m);
      if IsTerminal(s.ops[n].phase) {
        TerminalPassStep(s0, n);
      } else {
        ActivePassStep(s0, n, obs);
      }
    }
  }

  // ---------------------------------------------------------------- invariants

  /** An object is marked for deletion only while a finalizer keeps it. */
  ghost predicate DeletingHeld(s: State) {
    forall n :: n in s.ops && s.ops[n].deleting ==> s.ops[n].finalizer
  }

  ghost predicate Attachment(s: State) {
    DeletingHeld(s) && (s.cluster.paused ==> WritesToCluster(s))
  }

  lemma PassKeepsProtected(s: State, n: string, obs: Observed)
    requires Inv(s) && Attachment(s) && Protected(s) && n in s.ops
    ensures Protected(ReconcileOperation(s, n, obs))
  {
    hide ReconcileOperation;
    var t := ReconcileOperation(s, n, obs);
    ReconcileOutcome(s, n, obs);
    PassStep(s, n, obs);
    assert WellFormedOp(s, n);
    if !t.deleting && WritesToCluster(t) {
      if n in t.ops && IsTerminal(s.ops[n].phase) { TerminalIsAbsorbing(s, n, obs); }
      forall m | Working(t, m) ensures ImportMode(t) {
        if m != n || s.ops[m].jobRef.Some? { assert Working(s, m); }
      }
    }
  }

  lemma PassKeepsAccounted(s: State, n: string, obs: Observed)
    requires WellFormed(s) && Attachment(s) && Accounted(s) && !s.spec.blueGreen && n in s.ops
    ensures Accounted(ReconcileOperation(s, n, obs))
  {
    hide ReconcileOperation;
    var t := ReconcileOperation(s, n, obs);
    ReconcileOutcome(s, n, obs);
    PassStep(s, n, obs);
    if t.cluster.paused {
      if NoOtherMatch(s, n) {
        assert Matching(s, n) ==> n in t.ops && Matching(t, n);
      } else {
        var m :| m != n && Matching(s, m) && IsActive(s.ops[m].phase);
        assert Matching(t, m) && IsActive(t.ops[m].phase);
      }
    }
  }

  lemma PassKeepsAttachment(s: State, n: string, obs: Observed)
    requires WellFormed(s) && Attachment(s) && n in s.ops
    ensures Attachment(ReconcileOperation(s, n, obs))
  {
    hide ReconcileOperation;
    ReconcileOutcome(s, n, obs);
    PassStep(s, n, obs);
  }

  lemma StepKeepsAttachment(s: State, e: Event)
    requires WellFormed(s) && Attachment(s)
    ensures Attachment(Apply(s, e))
  {
    hide ReconcileOperation, ReconcileInstance;
    if e.OperationPass? {
      if e.name in s.ops { PassKeepsAttachment(s, e.name, e.obs); } else { PassOverNothing(s, e.name, e.obs); }
    } else if !e.CreateOperation? {
      EnvironmentShape(s, e);
      EnvironmentDeletes(s, e);
    }
  }

  /** Which Operations an event outside the Operation controller removes or marks. */
  ghost predicate Deletes(s: State, e: Event, t: State) {
    && (forall m :: m in s.ops && m !in t.ops ==>
          !s.ops[m].finalizer && (e == DeleteOperation(m) || (e.InstancePass? && s.deleting)))
    && (e.DeleteOperation? && e.name in s.ops && !s.ops[e.name].finalizer ==> e.name !in t.ops)
    && (e.InstancePass? && s.deleting ==> forall m :: IsChild(s, m) && !s.ops[m].finalizer ==> m !in t.ops)
    && (forall m :: m in t.ops && m in s.ops && t.ops[m].deleting ==> s.ops[m].deleting || s.ops[m].finalizer)
  }

  lemma EnvironmentDeletes(s: State, e: Event)
    requires !e.OperationPass? && !e.CreateOperation?
    ensures Deletes(s, e, Apply(s, e))
  {
    hide ReconcileInstance, Deletes;
    match e
    case InstancePass(found, listing) => InstanceDeletes(s, found, listing);
    case DeleteOperation(n) => RequestDeletes(s, n);
    case _ => NothingDeleted(s, e);
  }

  lemma RequestDeletes(s: State, n: string)
    ensures Deletes(s, DeleteOperation(n), s.(ops := RequestDelete(s.ops, n)))
  {
  }

  lemma NothingDeleted(s: State, e: Event)
    requires !e.OperationPass? && !e.CreateOperation? && !e.InstancePass? && !e.DeleteOperation?
    ensures Deletes(s, e, Apply(s, e))
  {
    assert Apply(s, e).ops == s.ops;
  }

  lemma InstanceDeletes(s: State, found: bool, listing: seq<string>)
    ensures Deletes(s, InstancePass(found, listing), ReconcileInstance(s, found, listing))
  {
    hide HasPendingReset, ShouldSuspendApi, ObservedRegions, Lists;
  }

  lemma StepKeepsProtected(s: State, e: Event)
    requires Inv(s) && Attachment(s) && Protected(s)
    ensures Protected(Apply(s, e))
  {
    hide ReconcileOperation, ReconcileInstance, Protected;
    match e
    case CreateOperation(n, parent, opType, regions) =>
      if n != "" && n !in s.ops { CreationKeepsProtected(s, n, parent, opType, regions); }
    case OperationPass(n, obs) =>
      if n in s.ops { PassKeepsProtected(s, n, obs); } else { PassOverNothing(s, n, obs); }
    case _ =>
      EnvironmentKeepsProtected(s, e);
  }

  lemma CreationKeepsProtected(s: State, n: string, parent: string, opType: OpType, regions: seq<string>)
    requires Protected(s) && n !in s.ops
    ensures Protected(Create(s, n, parent, opType, regions))
  {
    var t := Create(s, n, parent, opType, regions);
    forall m | Working(t, m) ensures Working(s, m) {}
  }

  lemma EnvironmentKeepsProtected(s: State, e: Event)
    requires Inv(s) && Protected(s) && !e.OperationPass? && !e.CreateOperation?
    ensures Protected(Apply(s, e))
  {
    hide Apply;
    var t := Apply(s, e);
    EnvironmentShape(s, e);
    forall m | Working(t, m) ensures Working(s, m) && s.attached {
      assert WellFormedOp(s, m);
    }
  }

  /** The events that leave a pause nobody will lift: an Operation that no pass has given a
      finalizer yet disappears on request, and it was the last one to account for the pause. */
  ghost predicate LeavesPauseBehind(s: State, e: Event) {
    && s.cluster.paused
    && (|| (&& e.DeleteOperation? && Matching(s, e.name) && IsActive(s.ops[e.name].phase)
            && !s.ops[e.name].finalizer && NoOtherMatch(s, e.name))
        || (&& e.InstancePass? && s.deleting
            && forall n :: Matching(s, n) && IsActive(s.ops[n].phase) ==> !s.ops[n].finalizer))
  }

  lemma StepKeepsAccountedIff(s: State, e: Event)
    requires WellFormed(s) && Attachment(s) && Accounted(s) && !s.spec.blueGreen
    ensures Accounted(Apply(s, e)) <==> !LeavesPauseBehind(s, e)
  {
    hide ReconcileOperation, ReconcileInstance, Accounted;
    match e
    case CreateOperation(n, parent, opType, regions) =>
      if n != "" && n !in s.ops { CreationKeepsAccounted(s, n, parent, opType, regions); }
    case OperationPass(n, obs) =>
      if n in s.ops { PassKeepsAccounted(s, n, obs); } else { PassOverNothing(s, n, obs); }
    case _ =>
      EnvironmentKeepsAccountedIff(s, e);
  }

  lemma CreationKeepsAccounted(s: State, n: string, parent: string, opType: OpType, regions: seq<string>)
    requires Accounted(s) && n !in s.ops
    ensures Accounted(Create(s, n, parent, opType, regions))
  {
    var t := Create(s, n, parent, opType, regions);
    if m :| Matching(s, m) && IsActive(s.ops[m].phase) {
      assert Matching(t, m) && IsActive(t.ops[m].phase);
    }
  }

  lemma EnvironmentKeepsAccountedIff(s: State, e: Event)
    requires Accounted(s) && !e.OperationPass? && !e.CreateOperation?
    ensures Accounted(Apply(s, e)) <==> !LeavesPauseBehind(s, e)
  {
    hide Apply;
    var t := Apply(s, e);
    EnvironmentShape(s, e);
    EnvironmentDeletes(s, e);
    assert forall m :: Matching(t, m) ==> Matching(s, m);
    assert forall m :: Matching(s, m) && m in t.ops ==> Matching(t, m);
    if s.cluster.paused && !LeavesPauseBehind(s, e) {
      var k :| Matching(s, k) && IsActive(s.ops[k].phase);
      SomeMatchSurvives(s, e, k);
    }
  }

  lemma SomeMatchSurvives(s: State, e: Event, k: string)
    requires !e.OperationPass? && !e.CreateOperation?
    requires s.cluster.paused && !LeavesPauseBehind(s, e) && Matching(s, k) && IsActive(s.ops[k].phase)
    ensures exists m :: Matching(s, m) && IsActive(s.ops[m].phase) && m in Apply(s, e).ops
  {
    hide Apply;
    EnvironmentDeletes(s, e);
    if k !in Apply(s, e).ops && e.DeleteOperation? {
      assert !NoOtherMatch(s, k);
    }
  }

  // ---------------------------------------------------------------- runs

  lemma FreshAttachment(spec: Spec, params: Parameters)
    ensures Attachment(Fresh(spec, params))
    ensures Protected(Fresh(spec, params)) && Accounted(Fresh(spec, params))
  {
  }

  lemma {:induction false} AttachmentHolds(spec: Spec, params: Parameters, events: seq<Event>)
    ensures Attachment(Run(Fresh(spec, params), events))
  {
    if events != [] {
      var before := events[..|events| - 1];
      AttachmentHolds(spec, params, before);
      RefsHold(spec, params, before);
      StepKeepsAttachment(Run(Fresh(spec, params), before), events[|events| - 1]);
    }
  }

  lemma {:induction false} ProtectedHolds(spec: Spec, params: Parameters, events: seq<Event>)
    requires Tame(Fresh(spec, params), events)
    ensures Protected(Run(Fresh(spec, params), events))
  {
    if events != [] {
      var before := events[..|events| - 1];
      ProtectedHolds(spec, params, before);
      FreshInv(spec, params);
      InvThroughoutIffTame(Fresh(spec, params), before);
      AttachmentHolds(spec, params, before);
      StepKeepsProtected(Run(Fresh(spec, params), before), events[|events| - 1]);
    }
  }

  /** In every state of a tame run, until the instance is deleted: while an Operation the
      policy covers is active with its Job armed, backups are paused and exactly the import
      profile is in force. No sibling that fails, finishes or is deleted can undo it. */
  lemma PausedWhileWorking(spec: Spec, params: Parameters, events: seq<Event>, n: string)
    requires Tame(Fresh(spec, params), events)
    requires var s := Run(Fresh(spec, params), events);
             && !s.deleting && !spec.kind.ConnectionSecret?
             && n in s.ops && s.ops[n].parent == spec.name && ImpactMatches(spec.pauseImpact, s.ops[n].opType)
             && IsActive(s.ops[n].phase) && s.ops[n].jobRef.Some?
    ensures var s := Run(Fresh(spec, params), events);
            && s.cluster.paused && InForce(spec.profiles, s.cluster.params, Import)
            && ImportSettings(spec.profiles, s.cluster.params)
  {
    var s := Run(Fresh(spec, params), events);
    SpecIsFixed(spec, params, events);
    RefsHold(spec, params, events);
    ProtectedHolds(spec, params, events);
    assert WellFormedOp(s, n);
    assert Working(s, n);
    InForceMeans(spec.profiles, s.cluster.params);
  }

  ghost predicate PausesAreLifted(s: State, events: seq<Event>) {
    events == [] ||
    (var before := events[..|events| - 1];
     PausesAreLifted(s, before) && !LeavesPauseBehind(Run(s, before), events[|events| - 1]))
  }

  ghost predicate AccountedThroughout(s: State, events: seq<Event>) {
    Accounted(Run(s, events)) && (events != [] ==> AccountedThroughout(s, events[..|events| - 1]))
  }

  /** Backups are paused only while some active Operation asks for it, all along a run,
      exactly when the run never deletes the last such Operation before its first pass. */
  lemma {:induction false} PausedOnlyForWork(spec: Spec, params: Parameters, events: seq<Event>)
    requires !spec.blueGreen
    ensures AccountedThroughout(Fresh(spec, params), events) <==> PausesAreLifted(Fresh(spec, params), events)
  {
    if events != [] {
      var before := events[..|events| - 1];
      PausedOnlyForWork(spec, params, before);
      RefsHold(spec, params, before);
      SpecIsFixed(spec, params, before);
      AttachmentHolds(spec, params, before);
      if PausesAreLifted(Fresh(spec, params), before) {
        StepKeepsAccountedIff(Run(Fresh(spec, params), before), events[|events| - 1]);
      }
    } else {
      FreshAttachment(spec, params);
    }
  }

  /** A pass that leaves a covered Operation terminal or gone, with no other active match,
      leaves backups running and exactly the runtime profile in force. */
  lemma CleanupRestores(spec: Spec, params: Parameters, events: seq<Event>, n: string, obs: Observed)
    requires !spec.blueGreen && !spec.kind.ConnectionSecret?
    requires var s := Run(Fresh(spec, params), events);
             var t := ReconcileOperation(s, n, obs);
             && s.attached && n in s.ops && s.ops[n].parent == spec.name
             && ImpactMatches(spec.pauseImpact, s.ops[n].opType)
             && (n in t.ops ==> IsTerminal(t.ops[n].phase))
             && (forall m :: m in s.ops && m != n && s.ops[m].parent == spec.name && IsActive(s.ops[m].phase) ==>
                   !ImpactMatches(spec.pauseImpact, s.ops[m].opType))
    ensures var t := ReconcileOperation(Run(Fresh(spec, params), events), n, obs);
            && !t.cluster.paused && InForce(spec.profiles, t.cluster.params, Runtime)
            && RuntimeSettings(spec.profiles, t.cluster.params)
  {
    hide ReconcileOperation;
    var s := Run(Fresh(spec, params), events);
    SpecIsFixed(spec, params, events);
    RefsHold(spec, params, events);
    AttachmentHolds(spec, params, events);
    ReconcileOutcome(s, n, obs);
    PassStep(s, n, obs);
    InForceMeans(spec.profiles, ReconcileOperation(s, n, obs).cluster.params);
  }

  /** The types a policy covers. */
  function CoveredTypes(impact: Impact): set<OpType> {
    match impact
    case Never => {}
    case BootstrapRebuild => {Bootstrap, Rebuild}
    case WriteHeavy => {Bootstrap, AddRegions, Rebuild, Migrate, Freeze}
    case All => {Bootstrap, AddRegions, Rebuild, Update, CatchUp, Refresh, Migrate, Freeze, Reserved}
  }

  lemma CoverageIs(impact: Impact, t: OpType)
    ensures ImpactMatches(impact, t) <==> t in CoveredTypes(impact)
  {
  }

  ghost predicate ImportModeIs(s: State) {
    s.cluster.paused && ImportSettings(s.spec.profiles, s.cluster.params)
  }

  ghost predicate RuntimeModeIs(s: State) {
    !s.cluster.paused && RuntimeSettings(s.spec.profiles, s.cluster.params)
  }

  lemma ModesAre(s: State)
    ensures ImportMode(s) <==> ImportModeIs(s)
    ensures RuntimeMode(s) <==> RuntimeModeIs(s)
  {
    InForceMeans(s.spec.profiles, s.cluster.params);
  }

  /** `n` is a child of a type the policy covers. */
  ghost predicate CoveredChild(s: State, n: string) {
    n in s.ops && s.ops[n].parent == s.spec.name && s.ops[n].opType in CoveredTypes(s.spec.pauseImpact)
  }

  lemma CoveredAlike(s: State, n: string)
    ensures CoveredChild(s, n) <==> Matching(s, n)
  {
    if n in s.ops { CoverageIs(s.spec.pauseImpact, s.ops[n].opType); }
  }

  lemma OthersAlike(s: State, n: string)
    requires NoOtherMatch(s, n)
    ensures forall m :: CoveredChild(s, m) && m != n ==> s.ops[m].phase == Succeeded || s.ops[m].phase == Failed
  {
    forall m | CoveredChild(s, m) && m != n ensures IsTerminal(s.ops[m].phase) {
      CoveredAlike(s, m);
    }
  }

  /** In every run a pass changes the Cluster only for a covered Operation of the instance and
      only when one is attached, and then to one of two modes: paused with the import
      settings, or running with the runtime settings, the latter only if no other covered
      Operation is at work. */
  lemma PassSetsOneOfTwoModes(spec: Spec, params: Parameters, events: seq<Event>, n: string, obs: Observed)
    requires n in Run(Fresh(spec, params), events).ops
    ensures var s := Run(Fresh(spec, params), events);
            var t := ReconcileOperation(s, n, obs);
            t.cluster != s.cluster ==>
              && CoveredChild(s, n) && s.attached && spec.kind != ConnectionSecret
              && (ImportModeIs(t) || RuntimeModeIs(t))
              && (RuntimeModeIs(t) && !ImportModeIs(t) ==>
                    forall m :: CoveredChild(s, m) && m != n ==>
                      s.ops[m].phase == Succeeded || s.ops[m].phase == Failed)
  {
    hide ReconcileOperation, ImportMode, RuntimeMode, ImportModeIs, RuntimeModeIs, Matching, CoveredChild, NoOtherMatch;
    var s := Run(Fresh(spec, params), events);
    var t := ReconcileOperation(s, n, obs);
    SpecIsFixed(spec, params, events);
    RefsHold(spec, params, events);
    AttachmentHolds(spec, params, events);
    PassStep(s, n, obs);
    ModesAre(t);
    CoveredAlike(s, n);
    if NoOtherMatch(s, n) { OthersAlike(s, n); }
  }

  /** A pass over a covered Operation that gets past the claim and the gate pauses backups and
      applies the import settings, whether or not it goes on to the Job. */
  lemma CoveredPassPauses(s: State, n: string, obs: Observed)
    requires WellFormed(s) && CoveredChild(s, n) && s.attached && s.spec.kind != ConnectionSecret
    requires IsActive(s.ops[n].phase) && !s.ops[n].deleting && Accepted(s, s.ops[n])
    requires !Blocked(s, s.ops[n]) && !Queued(s, s.ops[n]) && GateOpen(s, s.ops[n])
    ensures var t := ReconcileOperation(s, n, obs);
            n in t.ops && IsActive(t.ops[n].phase) ==> ImportModeIs(t)
  {
    hide ReconcileOperation, ImportMode, ImportModeIs, AfterJob, Prerequisites, PreJobEffects, Passes.Claimed, Accepted,
         Blocked, Queued, GateOpen;
    var s1 := Passes.Claimed(s, n);
    ClaimedShape(s, n);
    PassCases(s, n, obs);
    CoveredAlike(s1, n);
    PauseStep(s1, n);
    var s2 := PreJobEffects(s1, n);
    PrerequisitesShape(s2, n, obs);
    var (s3, ready) := Prerequisites(s2, n, obs);
    ModesAre(ReconcileOperation(s, n, obs));
    assert ImportMode(s3) by { ImportModeMoves(s2, s3); }
    if ready {
      var s4 := SyncStatusFromJob(EnsureJob(s3, n), n);
      ImportModeMoves(s3, s4);
      ActiveKeepsCluster(s4, n, obs);
      if IsActive(AfterJob(s4, n, obs).ops[n].phase) { ImportModeMoves(s4, AfterJob(s4, n, obs)); }
    }
  }

  lemma ImportModeMoves(s: State, t: State)
    requires t.cluster == s.cluster && t.spec == s.spec
    ensures ImportMode(s) <==> ImportMode(t)
  {
  }

  lemma ActiveKeepsCluster(s: State, n: string, obs: Observed)
    requires n in s.ops
    ensures var t := AfterJob(s, n, obs);
            n in t.ops && t.spec == s.spec && (IsActive(t.ops[n].phase) ==> t.cluster == s.cluster)
  {
    hide TerminalEffects, RemoveRef, FailOperation;
    SideEffectsShape(s, n);
    FailShape(s, n);
  }
}
