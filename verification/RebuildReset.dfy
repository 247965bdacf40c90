/** The drop-and-recreate handshake of an in-place Rebuild, under every interleaving
    (internal/controller/nominatimoperation_controller.go, nominatim_database.go). */
module RebuildReset {
  import opened Operations
  import opened WritePlane
  import opened Store
  import opened Lifecycle
  import Exclusion
  import References

  /** The records of one Operation against the current Database. */
  ghost predicate ResetSound(s: State, op: Operation) {
    && (op.reset.NoReset? <==> op.prevUid.NotRecorded?)
    && op.drops == (if op.prevUid.Dropped? then [op.prevUid.uid] else [])
    && (op.prevUid.Dropped? ==>
          && op.prevUid.uid < s.nextUid
          && (s.db.Some? && s.db.value.uid == op.prevUid.uid ==> s.db.value.terminating && !op.reset.ResetDone?))
  }

  ghost predicate ResetInv(s: State) {
    && (s.db.Some? ==> s.db.value.uid < s.nextUid)
    && (forall n :: n in s.ops ==> ResetSound(s, s.ops[n]))
  }

  ghost predicate SameReset(op: Operation, op': Operation) {
    op'.reset == op.reset && op'.prevUid == op.prevUid && op'.drops == op.drops
  }

  /** The pass reached the handshake: nobody holds against it, nobody outranks it, and it is
      an in-place Rebuild of an owned database. */
  ghost predicate InHandshake(s: State, op: Operation) {
    UsesReset(s, op) && IsActive(op.phase) && !Refused(s, op) && Decide(op, Children(s)).Ok?
  }

  /** The Database object is deleted and its UID recorded. */
  ghost predicate Drops(s: State, t: State, op: Operation, op': Operation) {
    && InHandshake(s, op) && op.prevUid.NotRecorded? && !op.reset.ResetDone?
    && ApiQuiesced(s) && t.api == s.api
    && s.db.Some? && t.db == Some(s.db.value.(terminating := true)) && t.nextUid == s.nextUid
    && op'.reset.ResetPending? && op'.prevUid == Dropped(s.db.value.uid)
    && op'.drops == op.drops + [s.db.value.uid]
  }

  /** There was nothing to drop, and that is recorded. */
  ghost predicate RecordsNone(s: State, t: State, op: Operation, op': Operation) {
    && InHandshake(s, op) && op.prevUid.NotRecorded? && !op.reset.ResetDone?
    && ApiQuiesced(s) && t.api == s.api
    && s.db.None? && t.db.None? && t.nextUid == s.nextUid
    && op'.reset.ResetPending? && op'.prevUid.NoneExisted? && op'.drops == op.drops
  }

  /** The replacement is created. */
  ghost predicate Recreates(s: State, t: State, op: Operation, op': Operation) {
    && InHandshake(s, op) && !op.prevUid.NotRecorded? && SameReset(op, op')
    && ApiQuiesced(s) && t.api == s.api
    && s.db.None? && t.db == Some(Database(s.nextUid, false, false)) && t.nextUid == s.nextUid + 1
  }

  /** The replacement is there, applied, and is not the object that was dropped. */
  ghost predicate Finishes(s: State, t: State, op: Operation, op': Operation) {
    && InHandshake(s, op) && !op.prevUid.NotRecorded?
    && ApiQuiesced(s) && t.api == s.api
    && s.db.Some? && s.db.value.applied && op.prevUid != Dropped(s.db.value.uid)
    && t.db == s.db && t.nextUid == s.nextUid
    && op' == op.(reset := ResetDone, finalizer := op'.finalizer, phase := op'.phase, jobRef := op'.jobRef)
  }

  ghost predicate LeavesAlone(s: State, t: State, op: Operation, op': Operation) {
    && SameReset(op, op') && t.db == s.db && t.nextUid == s.nextUid
    && (t.api == s.api || t.api == ScaleApiDown(s).api)
  }

  /** Everything a pass can do to the Database, the Deployment and the reset records. */
  ghost predicate ResetStep(s: State, t: State, op: Operation, op': Operation) {
    || LeavesAlone(s, t, op, op')
    || Drops(s, t, op, op') || RecordsNone(s, t, op, op')
    || Recreates(s, t, op, op') || Finishes(s, t, op, op')
  }

  lemma ResetDatabaseStep(s: State, n: string)
    requires n in s.ops && (UsesReset(s, s.ops[n]) ==> InHandshake(s, s.ops[n]))
    ensures n in ResetDatabase(s, n).0.ops
    ensures ResetStep(s, ResetDatabase(s, n).0, s.ops[n], ResetDatabase(s, n).0.ops[n])
  {
    hide Children, Decide, Refused;
    var op := s.ops[n];
    if !UsesReset(s, op) || op.reset.ResetDone? {
    } else if !ApiQuiesced(s) {
    } else if op.prevUid.NotRecorded? {
    } else if s.db.None? {
    } else if op.prevUid == Dropped(s.db.value.uid) || !s.db.value.applied {
    } else {
      var t := ResetDatabase(s, n).0;
      assert t.ops[n] == op.(reset := ResetDone, prevUid := op.prevUid);
      assert Finishes(s, t, op, t.ops[n]);
    }
  }

  /** A later part of the pass that only writes phase, Job reference and parent status. */
  lemma ResetStepExtends(s: State, t: State, u: State, op: Operation, op': Operation, op'': Operation)
    requires ResetStep(s, t, op, op')
    requires u.db == t.db && u.nextUid == t.nextUid && u.api == t.api
    requires op'' == op'.(phase := op''.phase, jobRef := op''.jobRef)
    ensures ResetStep(s, u, op, op'')
  {
  }

  lemma ClaimedPassResets(s: State, n: string, obs: Observed)
    requires n in s.ops && IsActive(s.ops[n].phase) && !Refused(s, s.ops[n])
    requires Decide(s.ops[n], Children(s)).Ok?
    ensures n in ClaimedPass(s, n, obs).ops
    ensures ResetStep(s, ClaimedPass(s, n, obs), s.ops[n], ClaimedPass(s, n, obs).ops[n])
  {
    hide ResetDatabase, AfterJob, FailOperation, GateCloses, PreJobEffects, Children, Decide, Refused, ReadyForJobs;
    FailShape(s, n);
    var s1 := PreJobEffects(s, n);
    References.PreJobShape(s, n);
    SameChildren(s, s1);
    ResetDatabaseStep(s1, n);
    ResetShape(s1, n);
    var (s2, ready) := ResetDatabase(s1, n);
    var (s3, go) := Prerequisites(s1, n, obs);
    if !GateCloses(s, s.ops[n]) {
      assert s3 == s1 || s3 == s2;
      assert ResetStep(s, s3, s.ops[n], s3.ops[n]);
      if go {
        JobShape(s3, n);
        var s4 := SyncStatusFromJob(EnsureJob(s3, n), n);
        AfterJobShape(s4, n, obs);
        ResetStepExtends(s, s3, AfterJob(s4, n, obs), s.ops[n], s3.ops[n], AfterJob(s4, n, obs).ops[n]);
      }
    }
  }

  lemma SameChildren(s: State, t: State)
    requires t == s.(cluster := t.cluster)
    ensures Children(t) == Children(s)
    ensures forall op :: Refused(t, op) <==> Refused(s, op)
  {
  }

  lemma PassResets(s: State, n: string, obs: Observed)
    requires WellFormed(s) && n in s.ops && n in ReconcileOperation(s, n, obs).ops
    ensures ResetStep(s, ReconcileOperation(s, n, obs), s.ops[n], ReconcileOperation(s, n, obs).ops[n])
  {
    hide ActivePass, TerminalPass, DeletePass;
    if s.ops[n].deleting {
      References.DeleteRefStep(s, n);
    } else if IsTerminal(s.ops[n].phase) {
      TerminalPassResets(WithOp(s, n, s.ops[n].(finalizer := true)), n);
    } else {
      ActivePassResets(s, n, obs);
    }
  }

  lemma TerminalPassResets(s: State, n: string)
    requires n in s.ops
    ensures n in TerminalPass(s, n).ops && LeavesAlone(s, TerminalPass(s, n), s.ops[n], TerminalPass(s, n).ops[n])
  {
    hide SyncSideEffects;
    var s1 := if s.ops[n].jobRef.Some? then SyncStatusFromJob(s, n) else s;
    SideEffectsShape(s1, n);
  }

  lemma ActivePassResets(s: State, n: string, obs: Observed)
    requires WellFormed(s) && n in s.ops && IsActive(s.ops[n].phase)
    ensures var t := ActivePass(WithOp(s, n, s.ops[n].(finalizer := true)), n, obs);
            n in t.ops && ResetStep(s, t, s.ops[n], t.ops[n])
  {
    hide ActivePass, ClaimedPass, FailOperation, Children, Decide;
    var s0 := WithOp(s, n, s.ops[n].(finalizer := true));
    var s1 := SyncRef(s0, n, true);
    OwnWritesDoNotMatter(s, n, s0);
    OwnWritesDoNotMatter(s, n, s1);
    ActivePassCases(s0, n, obs);
    FailShape(s0, n);
    if !Refused(s0, s0.ops[n]) && Decide(s0.ops[n], Children(s0)).Ok? {
      ClaimedPassResets(s1, n, obs);
    }
  }

  // ---------------------------------------------------------------- invariant

  lemma PassKeepsResetInv(s: State, n: string, obs: Observed)
    requires WellFormed(s) && ResetInv(s) && n in s.ops
    ensures ResetInv(ReconcileOperation(s, n, obs))
  {
    hide ReconcileOperation, InHandshake;
    var t := ReconcileOperation(s, n, obs);
    ReconcileOutcome(s, n, obs);
    if n in t.ops {
      PassResets(s, n, obs);
      assert ResetSound(s, s.ops[n]);
    } else {
      GoneLeavesDatabase(s, n, obs);
    }
    forall m | m in t.ops ensures ResetSound(t, t.ops[m]) {
      assert m in s.ops && ResetSound(s, s.ops[m]);
    }
  }

  lemma GoneLeavesDatabase(s: State, n: string, obs: Observed)
    requires WellFormed(s) && n in s.ops && n !in ReconcileOperation(s, n, obs).ops
    ensures var t := ReconcileOperation(s, n, obs);
            t.db == s.db && t.nextUid == s.nextUid && t.api == s.api
  {
    hide ActivePass, TerminalPass, TerminalEffects, RemoveRef;
    ReconcileOutcome(s, n, obs);
    TerminalShape(SyncRef(s, n, false), n);
  }

  lemma StepKeepsResetInv(s: State, e: Event)
    requires WellFormed(s) && ResetInv(s)
    ensures ResetInv(Apply(s, e))
  {
    hide ReconcileOperation, ReconcileInstance, ResetInv;
    match e
    case CreateOperation(n, parent, opType, regions) =>
      CreationKeepsResetInv(s, n, parent, opType, regions);
    case OperationPass(n, obs) =>
      if n in s.ops { PassKeepsResetInv(s, n, obs); } else { Exclusion.PassOverNothing(s, n, obs); }
    case _ =>
      EnvironmentShape(s, e);
      EnvironmentDatabase(s, e);
      RecordsSurvive(s, Apply(s, e));
  }

  lemma CreationKeepsResetInv(s: State, n: string, parent: string, opType: OpType, regions: seq<string>)
    requires ResetInv(s)
    ensures ResetInv(Create(s, n, parent, opType, regions))
  {
    var t := Create(s, n, parent, opType, regions);
    forall m | m in t.ops ensures ResetSound(t, t.ops[m]) {
      if m != n { assert ResetSound(s, s.ops[m]); }
    }
  }

  /** The Database is created afresh, keeps its UID, or goes away. */
  ghost predicate DatabaseSurvives(s: State, t: State) {
    || (s.db.None? && t.db == Some(Database(s.nextUid, false, false)) && t.nextUid == s.nextUid + 1)
    || (&& t.nextUid == s.nextUid
        && (t.db.Some? ==> s.db.Some? && t.db.value.uid == s.db.value.uid
                           && t.db.value.terminating == s.db.value.terminating))
  }

  lemma EnvironmentDatabase(s: State, e: Event)
    requires !e.OperationPass? && !e.CreateOperation?
    ensures DatabaseSurvives(s, Apply(s, e))
  {
    hide ReconcileInstance;
    if e.InstancePass? {
      InstanceDatabase(s, e.databaseFound, e.listing);
    }
  }

  /** An instance pass creates a Database only when none exists, under a fresh UID, and
      never while a reset is pending. */
  lemma InstanceDatabase(s: State, found: bool, listing: seq<string>)
    ensures var t := ReconcileInstance(s, found, listing);
            || (t.db == s.db && t.nextUid == s.nextUid)
            || (&& s.db.None? && t.db == Some(Database(s.nextUid, false, false)) && t.nextUid == s.nextUid + 1
                && !HasPendingReset(s) && !s.deleting)
  {
    hide Drain, HasPendingReset, ShouldSuspendApi, ObservedRegions, Lists;
    if s.deleting { DrainShape(s); }
  }

  /** Records stay sound while the Database keeps its UID, goes away or is created afresh. */
  lemma RecordsSurvive(s: State, t: State)
    requires ResetInv(s) && OpsOnlyDrained(s, t)
    requires DatabaseSurvives(s, t)
    ensures ResetInv(t)
  {
    forall m | m in t.ops ensures ResetSound(t, t.ops[m]) {
      assert m in s.ops && ResetSound(s, s.ops[m]);
    }
  }

  lemma {:induction false} ResetInvHolds(spec: Spec, params: map<string, string>, events: seq<Event>)
    ensures var s := Run(Fresh(spec, params), events); WellFormed(s) && ResetInv(s)
  {
    References.RefsHold(spec, params, events);
    if events != [] {
      ResetInvHolds(spec, params, events[..|events| - 1]);
      StepKeepsResetInv(Run(Fresh(spec, params), events[..|events| - 1]), events[|events| - 1]);
    }
  }

  // ---------------------------------------------------------------- what the handshake promises

  /** Over any run an Operation drops at most one incarnation of the Database, and from the
      moment it has recorded `done` the incarnation it dropped is never the stored one. */
  lemma DropsAtMostOnce(spec: Spec, params: map<string, string>, events: seq<Event>, n: string)
    requires n in Run(Fresh(spec, params), events).ops
    ensures var s := Run(Fresh(spec, params), events);
            var op := s.ops[n];
            && |op.drops| <= 1
            && (op.reset.ResetDone? && s.db.Some? ==> s.db.value.uid !in op.drops)
            && (s.db.Some? && s.db.value.uid in op.drops ==> s.db.value.terminating)
  {
    ResetInvHolds(spec, params, events);
    assert ResetSound(Run(Fresh(spec, params), events), Run(Fresh(spec, params), events).ops[n]);
  }

  /** The two decisive writes of the handshake, in any state of any run. A pass that deletes
      the Database does so for the first time, with the API scaled to zero and drained, and
      while no other Operation of the instance holds the write plane. A pass that records
      `done` sees an applied Database that is not the one dropped. A recorded `done` stays. */
  lemma HandshakeStep(spec: Spec, params: map<string, string>, events: seq<Event>, n: string, obs: Observed)
    requires n in Run(Fresh(spec, params), events).ops
    requires n in ReconcileOperation(Run(Fresh(spec, params), events), n, obs).ops
    ensures var s := Run(Fresh(spec, params), events);
            var t := ReconcileOperation(s, n, obs);
            var op, op' := s.ops[n], t.ops[n];
            && (op'.drops != op.drops ==>
                  && op.drops == [] && s.db.Some? && op'.drops == [s.db.value.uid]
                  && (s.api.None? || (s.api.value.replicas == 0 && s.api.value.pods == 0))
                  && forall m :: m in s.ops && m != n && s.ops[m].parent == spec.name ==> !HoldsWritePlane(s.ops[m]))
            && (op'.reset.ResetDone? && !op.reset.ResetDone? ==>
                  s.db.Some? && s.db.value.applied && s.db.value.uid !in op.drops)
            && (op.reset.ResetDone? ==> op'.reset.ResetDone? && op'.drops == op.drops)
  {
    hide ReconcileOperation;
    var s := Run(Fresh(spec, params), events);
    ResetInvHolds(spec, params, events);
    References.SpecIsFixed(spec, params, events);
    var t := ReconcileOperation(s, n, obs);
    PassResets(s, n, obs);
    assert ResetSound(s, s.ops[n]);
    if t.ops[n].drops != s.ops[n].drops {
      ClaimByName(s, s.ops[n]);
      forall m | m in s.ops && m != n && s.ops[m].parent == spec.name ensures !HoldsWritePlane(s.ops[m]) {
        assert WellFormedOp(s, m) && WellFormedOp(s, n);
        assert IsChild(s, m) && Conflict(s.ops[n], s.ops[m]);
      }
    }
  }

  /** The instance controller waits: in any run, while a Rebuild of the instance is active
      with its reset pending, an instance pass leaves the Database as it is. */
  lemma InstanceWaitsForReset(spec: Spec, params: map<string, string>, events: seq<Event>, n: string,
                              found: bool, listing: seq<string>)
    requires var s := Run(Fresh(spec, params), events);
             && n in s.ops && s.ops[n].parent == spec.name && s.ops[n].opType.Rebuild?
             && IsActive(s.ops[n].phase) && s.ops[n].reset.ResetPending?
    ensures var s := Run(Fresh(spec, params), events);
            ReconcileInstance(s, found, listing).db == s.db
  {
    var s := Run(Fresh(spec, params), events);
    References.RefsHold(spec, params, events);
    References.SpecIsFixed(spec, params, events);
    assert IsChild(s, n);
    PendingResetByName(s);
    InstanceDatabase(s, found, listing);
  }

  // ---------------------------------------------------------------- which Database is dying

  /** A pass appends the UID to the drops of its Operation. */
  ghost predicate DropsIn(s: State, e: Event, uid: nat) {
    && e.OperationPass? && e.name in s.ops && e.name in Apply(s, e).ops
    && Apply(s, e).ops[e.name].drops == s.ops[e.name].drops + [uid]
  }

  ghost predicate DroppedInRun(start: State, events: seq<Event>, uid: nat) {
    events != [] &&
    (var before := events[..|events| - 1];
     DroppedInRun(start, before, uid) || DropsIn(Run(start, before), events[|events| - 1], uid))
  }

  /** A Database is marked for deletion by the pass that records its drop, and by nothing else. */
  ghost predicate MarksOnlyDrops(s: State, e: Event, t: State) {
    && t.nextUid >= s.nextUid
    && (forall uid: nat :: DropsIn(s, e, uid) ==> s.db.Some? && uid == s.db.value.uid)
    && (t.db.Some? ==>
          || (&& s.db.Some? && t.db.value.uid == s.db.value.uid
              && (t.db.value.terminating <==> s.db.value.terminating || DropsIn(s, e, s.db.value.uid)))
          || (t.db.value.uid == s.nextUid < t.nextUid && !t.db.value.terminating))
  }

  lemma PassMarksOnlyDrops(s: State, n: string, obs: Observed)
    requires WellFormed(s) && n in s.ops
    ensures MarksOnlyDrops(s, OperationPass(n, obs), ReconcileOperation(s, n, obs))
  {
    hide ReconcileOperation, InHandshake;
    var t := ReconcileOperation(s, n, obs);
    assert Apply(s, OperationPass(n, obs)) == t;
    if n in t.ops {
      PassResets(s, n, obs);
      var before := s.ops[n].drops;
      assert forall uid :: before != before + [uid] by {
        assert forall uid :: |before + [uid]| == |before| + 1;
      }
      assert forall a, b :: before + [a] == before + [b] ==> a == b by {
        assert forall c :: (before + [c])[|before|] == c;
      }
    } else {
      GoneLeavesDatabase(s, n, obs);
    }
  }

  lemma StepMarksOnlyDrops(s: State, e: Event)
    requires WellFormed(s)
    ensures MarksOnlyDrops(s, e, Apply(s, e))
  {
    hide ReconcileOperation, ReconcileInstance;
    if e.OperationPass? {
      if e.name in s.ops { PassMarksOnlyDrops(s, e.name, e.obs); } else { Exclusion.PassOverNothing(s, e.name, e.obs); }
    } else if !e.CreateOperation? {
      EnvironmentDatabase(s, e);
    }
  }

  /** In every run a Database is being deleted exactly when some pass of the run dropped it. */
  lemma {:induction false} DyingIffDropped(spec: Spec, params: map<string, string>, events: seq<Event>)
    ensures var start := Fresh(spec, params);
            var s := Run(start, events);
            && (forall uid: nat :: DroppedInRun(start, events, uid) ==> uid < s.nextUid)
            && (s.db.Some? ==> (s.db.value.terminating <==> DroppedInRun(start, events, s.db.value.uid)))
  {
    hide Apply, DropsIn;
    if events != [] {
      var start, before := Fresh(spec, params), events[..|events| - 1];
      DyingIffDropped(spec, params, before);
      ResetInvHolds(spec, params, before);
      StepMarksOnlyDrops(Run(start, before), events[|events| - 1]);
      assert forall uid: nat :: DroppedInRun(start, events, uid) <==>
               DroppedInRun(start, before, uid) || DropsIn(Run(start, before), events[|events| - 1], uid);
    }
  }

  /** `done` is recorded without a look at the deletion timestamp. The Database it is recorded
      on is applied and was never dropped by this Operation, and it is itself being deleted
      exactly when another pass of the run has dropped it. */
  lemma DoneOnDyingIff(spec: Spec, params: map<string, string>, events: seq<Event>, r: string, obs: Observed)
    requires r in Run(Fresh(spec, params), events).ops
    requires var s := Run(Fresh(spec, params), events);
             var t := ReconcileOperation(s, r, obs);
             r in t.ops && t.ops[r].reset.ResetDone? && !s.ops[r].reset.ResetDone?
    ensures var t := ReconcileOperation(Run(Fresh(spec, params), events), r, obs);
            && t.db.Some? && t.db.value.applied && t.db.value.uid !in t.ops[r].drops
            && (t.db.value.terminating <==> DroppedInRun(Fresh(spec, params), events, t.db.value.uid))
  {
    hide ReconcileOperation, Decide, Children, DroppedInRun;
    var s := Run(Fresh(spec, params), events);
    ResetInvHolds(spec, params, events);
    DyingIffDropped(spec, params, events);
    PassResets(s, r, obs);
    assert ResetSound(s, s.ops[r]);
  }

  // ---------------------------------------------------------------- the replacement stays

  /** `r` is the only Rebuild of the instance, and once it has recorded a reset, a Database
      that is being deleted is the one it dropped. */
  ghost predicate OwnDrop(s: State, r: string) {
    && (forall m :: IsChild(s, m) && s.ops[m].opType.Rebuild? ==> m == r)
    && (IsChild(s, r) && !s.ops[r].prevUid.NotRecorded? && s.db.Some? && s.db.value.terminating ==>
          s.ops[r].prevUid == Dropped(s.db.value.uid))
  }

  lemma PassKeepsOwnDrop(s: State, r: string, n: string, obs: Observed)
    requires WellFormed(s) && OwnDrop(s, r) && n in s.ops
    ensures OwnDrop(ReconcileOperation(s, n, obs), r)
  {
    hide ReconcileOperation, Decide, Children;
    ReconcileOutcome(s, n, obs);
    if n in ReconcileOperation(s, n, obs).ops { PassResets(s, n, obs); } else { GoneLeavesDatabase(s, n, obs); }
    assert forall m :: IsChild(ReconcileOperation(s, n, obs), m) ==> IsChild(s, m);
  }

  lemma StepKeepsOwnDrop(s: State, r: string, e: Event)
    requires WellFormed(s) && OwnDrop(s, r)
    requires e.CreateOperation? && e.parent == s.spec.name && e.opType.Rebuild? ==> e.name == r
    ensures OwnDrop(Apply(s, e), r)
  {
    hide ReconcileOperation, ReconcileInstance, OwnDrop;
    match e
    case CreateOperation(n, parent, opType, regions) =>
      if n != "" && n !in s.ops { CreationKeepsOwnDrop(s, r, n, parent, opType, regions); }
    case OperationPass(n, obs) =>
      if n in s.ops { PassKeepsOwnDrop(s, r, n, obs); } else { Exclusion.PassOverNothing(s, n, obs); }
    case _ =>
      EnvironmentKeepsOwnDrop(s, r, e);
  }

  lemma CreationKeepsOwnDrop(s: State, r: string, n: string, parent: string, opType: OpType, regions: seq<string>)
    requires OwnDrop(s, r) && n !in s.ops && (parent == s.spec.name && opType.Rebuild? ==> n == r)
    ensures OwnDrop(Create(s, n, parent, opType, regions), r)
  {
    var t := Create(s, n, parent, opType, regions);
    assert t.db == s.db && t.spec == s.spec && t.ops[n].prevUid.NotRecorded?;
    assert forall m :: IsChild(t, m) && m != n ==> IsChild(s, m) && t.ops[m] == s.ops[m];
  }

  lemma EnvironmentKeepsOwnDrop(s: State, r: string, e: Event)
    requires OwnDrop(s, r) && !e.OperationPass? && !e.CreateOperation?
    ensures OwnDrop(Apply(s, e), r)
  {
    hide Apply;
    EnvironmentShape(s, e);
    EnvironmentDatabase(s, e);
    assert forall m :: IsChild(Apply(s, e), m) ==> IsChild(s, m);
  }

  /** Every Rebuild the run creates for the instance is named `r`. */
  ghost predicate OnlyRebuild(events: seq<Event>, parent: string, r: string) {
    forall i :: 0 <= i < |events| && events[i].CreateOperation? ==>
      events[i].parent == parent && events[i].opType.Rebuild? ==> events[i].name == r
  }

  lemma {:induction false} OwnDropHolds(spec: Spec, params: map<string, string>, events: seq<Event>, r: string)
    requires OnlyRebuild(events, spec.name, r)
    ensures OwnDrop(Run(Fresh(spec, params), events), r)
  {
    if events != [] {
      var before := events[..|events| - 1];
      OwnDropHolds(spec, params, before, r);
      References.RefsHold(spec, params, before);
      References.SpecIsFixed(spec, params, before);
      StepKeepsOwnDrop(Run(Fresh(spec, params), before), r, events[|events| - 1]);
    }
  }

  /** In a run with no other Rebuild nobody has dropped it, so the Database that `done` is
      recorded on is the lasting replacement. */
  lemma DoneIsOnLiveDatabase(spec: Spec, params: map<string, string>, events: seq<Event>, r: string, obs: Observed)
    requires OnlyRebuild(events, spec.name, r)
    requires r in Run(Fresh(spec, params), events).ops
    requires var s := Run(Fresh(spec, params), events);
             var t := ReconcileOperation(s, r, obs);
             r in t.ops && t.ops[r].reset.ResetDone? && !s.ops[r].reset.ResetDone?
    ensures var t := ReconcileOperation(Run(Fresh(spec, params), events), r, obs);
            && t.db.Some? && t.db.value.applied && !t.db.value.terminating
            && !DroppedInRun(Fresh(spec, params), events, t.db.value.uid)
  {
    hide ReconcileOperation, Decide, Children, DroppedInRun;
    var s := Run(Fresh(spec, params), events);
    References.RefsHold(spec, params, events);
    OwnDropHolds(spec, params, events, r);
    PassResets(s, r, obs);
    DoneOnDyingIff(spec, params, events, r, obs);
  }
}
