/** What one Operation pass can do to the store: the facts every invariant is proved from. */
module Lifecycle {
  import opened Operations
  import opened WritePlane
  import opened Profiles
  import opened Store

  /** Objects are stored under their own name, and an Operation with a Job reference got
      it by running against this instance. */
  ghost predicate WellFormed(s: State) {
    forall n :: n in s.ops ==> WellFormedOp(s, n)
  }

  ghost predicate WellFormedOp(s: State, n: string)
    requires n in s.ops
  {
    var op := s.ops[n];
    && n != "" && op.name == n
    && (op.phase.Running? ==> op.jobRef.Some?)
    && (op.jobRef.Some? ==>
          && op.jobRef.value == n
          && op.parent == s.spec.name
          && IsImplemented(op.opType)
          && !(op.opType.Rebuild? && s.spec.blueGreen && !s.spec.kind.Managed?)
          && s.attached
          && op.finalizer)
  }

  ghost predicate IsChild(s: State, m: string) {
    m in s.ops && s.ops[m].parent == s.spec.name
  }

  lemma ChildrenByName(s: State, p: Operation)
    requires WellFormed(s)
    ensures p in Children(s) <==> IsChild(s, p.name) && s.ops[p.name] == p
  {
    if p in Children(s) {
      var k :| k in s.ops && s.ops[k] == p;
      assert WellFormedOp(s, k);
    }
    if IsChild(s, p.name) && s.ops[p.name] == p {
      assert s.ops[p.name] in s.ops.Values;
    }
  }

  ghost predicate MeetsHolder(s: State, op: Operation) {
    exists m :: IsChild(s, m) && Rival(op, s.ops[m]) && HoldsWritePlane(s.ops[m])
  }

  ghost predicate IsOutranked(s: State, op: Operation) {
    exists m :: IsChild(s, m) && Outranks(s.ops[m], op)
  }

  /** The claim's answer, read off the store by name. */
  lemma ClaimByName(s: State, op: Operation)
    requires WellFormed(s)
    ensures Decide(op, Children(s)) ==
              if MeetsHolder(s, op) then Hold else if IsOutranked(s, op) then RaceWait else Ok
  {
    forall m | IsChild(s, m) ensures s.ops[m] in Children(s) {
      assert WellFormedOp(s, m);
      ChildrenByName(s, s.ops[m]);
    }
    if p :| p in Children(s) && Rival(op, p) && HoldsWritePlane(p) {
      ChildrenByName(s, p);
      assert IsChild(s, p.name);
    }
    if p :| p in Children(s) && Outranks(p, op) {
      ChildrenByName(s, p);
      assert IsChild(s, p.name);
    }
  }

  lemma OtherActiveByName(s: State, n: string)
    requires WellFormed(s)
    ensures HasOtherActiveMatching(s, n) <==>
              exists m :: IsChild(s, m) && m != n && IsActive(s.ops[m].phase) && MatchesPausePolicy(s, s.ops[m])
  {
    if HasOtherActiveMatching(s, n) {
      var p :| p in Children(s) && p.name != n && IsActive(p.phase) && MatchesPausePolicy(s, p);
      ChildrenByName(s, p);
      assert IsChild(s, p.name);
    }
    if m :| IsChild(s, m) && m != n && IsActive(s.ops[m].phase) && MatchesPausePolicy(s, s.ops[m]) {
      assert WellFormedOp(s, m);
      ChildrenByName(s, s.ops[m]);
    }
  }

  lemma BootstrapByName(s: State)
    requires WellFormed(s)
    ensures BootstrapComplete(s) <==>
              s.regions != [] || exists m :: IsChild(s, m) && s.ops[m].opType.Bootstrap? && s.ops[m].phase.Succeeded?
  {
    if p :| p in Children(s) && p.opType.Bootstrap? && p.phase.Succeeded? {
      ChildrenByName(s, p);
      assert IsChild(s, p.name);
    }
    if m :| IsChild(s, m) && s.ops[m].opType.Bootstrap? && s.ops[m].phase.Succeeded? {
      assert WellFormedOp(s, m);
      ChildrenByName(s, s.ops[m]);
    }
  }

  lemma PendingResetByName(s: State)
    requires WellFormed(s)
    ensures HasPendingReset(s) <==>
              exists m :: IsChild(s, m)
                          && s.ops[m].opType.Rebuild? && IsActive(s.ops[m].phase) && s.ops[m].reset.ResetPending?
  {
    if p :| p in Children(s) && p.opType.Rebuild? && IsActive(p.phase) && p.reset.ResetPending? {
      ChildrenByName(s, p);
      assert IsChild(s, p.name);
    }
    if m :| IsChild(s, m) && s.ops[m].opType.Rebuild? && IsActive(s.ops[m].phase) && s.ops[m].reset.ResetPending? {
      assert WellFormedOp(s, m);
      ChildrenByName(s, s.ops[m]);
    }
  }

  // ---------------------------------------------------------------- shape of one pass

  /** The two states agree on everything an Operation pass over `n` may not write. */
  ghost predicate SameElsewhere(s: State, t: State, n: string) {
    && t.spec == s.spec && t.deleting == s.deleting && t.attached == s.attached && t.regions == s.regions
    && t.nextOpUid == s.nextOpUid
    && (forall m :: m != n ==> (m in t.ops <==> m in s.ops) && (m in s.ops ==> t.ops[m] == s.ops[m]))
    && (forall m :: m != n ==> (m in t.jobs <==> m in s.jobs) && (m in s.jobs ==> t.jobs[m] == s.jobs[m]))
    && (n in s.jobs ==> n in t.jobs && t.jobs[n] == s.jobs[n])
    && (forall m :: m != n ==> (m in t.refs <==> m in s.refs))
  }

  /** What a pass keeps of the Operation it reconciles. */
  ghost predicate SameIdentity(a: Operation, b: Operation) {
    && b.name == a.name && b.uid == a.uid && b.parent == a.parent && b.opType == a.opType && b.regions == a.regions
    && b.deleting == a.deleting
  }

  lemma {:induction false} RemoveRefMembers(refs: seq<string>, n: string)
    ensures forall m :: m != n ==> (m in RemoveRef(refs, n) <==> m in refs)
    ensures forall m :: m in RemoveRef(refs, n) ==> m in refs
  {
    if refs != [] && refs[0] != n {
      RemoveRefMembers(refs[1..], n);
      assert refs == [refs[0]] + refs[1..];
    } else if refs != [] {
      assert refs == [refs[0]] + refs[1..];
    }
  }

  /** Only the parent's reference to `n` and the Cluster have been written. */
  ghost predicate WritesParentOnly(s: State, t: State, n: string) {
    && t == s.(refs := t.refs, cluster := t.cluster)
    && (forall m :: m != n ==> (m in t.refs <==> m in s.refs))
  }

  lemma SideEffectsShape(s: State, n: string)
    requires n in s.ops
    ensures WritesParentOnly(s, SyncSideEffects(s, n), n)
  {
    RemoveRefMembers(s.refs, n);
  }

  lemma FailShape(s: State, n: string)
    requires n in s.ops
    ensures WritesParentOnly(WithOp(s, n, s.ops[n].(phase := Failed)), FailOperation(s, n), n)
  {
    SideEffectsShape(WithOp(s, n, s.ops[n].(phase := Failed)), n);
  }

  /** The gate and the claim see the same store before and after the pass has added its
      finalizer and its own reference. */
  lemma OwnWritesDoNotMatter(s: State, n: string, t: State)
    requires WellFormed(s) && n in s.ops
    requires t.spec == s.spec && t.regions == s.regions && t.attached == s.attached
    requires t.ops == s.ops[n := s.ops[n].(finalizer := true)]
    ensures WellFormed(t)
    ensures MeetsHolder(t, t.ops[n]) <==> MeetsHolder(s, s.ops[n])
    ensures Decide(t.ops[n], Children(t)) == Decide(s.ops[n], Children(s))
    ensures GateCloses(t, t.ops[n]) <==> GateCloses(s, s.ops[n])
  {
    forall m | m in t.ops ensures WellFormedOp(t, m) {
      assert WellFormedOp(s, m);
    }
    assert WellFormedOp(s, n);
    ClaimByName(s, s.ops[n]);
    ClaimByName(t, t.ops[n]);
    BootstrapByName(s);
    BootstrapByName(t);
    forall m ensures IsChild(t, m) <==> IsChild(s, m) {}
    forall m | IsChild(s, m)
      ensures Rival(t.ops[n], t.ops[m]) <==> Rival(s.ops[n], s.ops[m])
      ensures Outranks(t.ops[m], t.ops[n]) <==> Outranks(s.ops[m], s.ops[n])
      ensures HoldsWritePlane(t.ops[m]) <==> HoldsWritePlane(s.ops[m])
      ensures s.ops[m].opType == t.ops[m].opType && s.ops[m].phase == t.ops[m].phase
    {}
    if BootstrapComplete(s) && s.regions == [] {
      var m :| IsChild(s, m) && s.ops[m].opType.Bootstrap? && s.ops[m].phase.Succeeded?;
      assert IsChild(t, m);
    }
    if BootstrapComplete(t) && t.regions == [] {
      var m :| IsChild(t, m) && t.ops[m].opType.Bootstrap? && t.ops[m].phase.Succeeded?;
      assert IsChild(s, m);
    }
  }

  /** The part of a pass that may wait writes only the reset annotations of `n`, the
      Database and the Deployment. */
  ghost predicate ResetWritesOnly(s: State, t: State, n: string) {
    && n in s.ops && n in t.ops
    && t == s.(ops := t.ops, db := t.db, nextUid := t.nextUid, api := t.api)
    && (forall m :: m != n ==> (m in t.ops <==> m in s.ops) && (m in s.ops ==> t.ops[m] == s.ops[m]))
    && t.ops[n] == s.ops[n].(reset := t.ops[n].reset, prevUid := t.ops[n].prevUid, drops := t.ops[n].drops)
  }

  lemma ResetShape(s: State, n: string)
    requires n in s.ops
    ensures ResetWritesOnly(s, ResetDatabase(s, n).0, n)
  {
    var op := s.ops[n];
    if !UsesReset(s, op) || op.reset.ResetDone? {
    } else if !ApiQuiesced(s) {
    } else if op.prevUid.NotRecorded? {
    } else if s.db.None? {
    } else if op.prevUid == Dropped(s.db.value.uid) || !s.db.value.applied {
    } else {
    }
  }

  lemma PrerequisitesShape(s: State, n: string, obs: Observed)
    requires n in s.ops
    ensures ResetWritesOnly(s, Prerequisites(s, n, obs).0, n)
    ensures Prerequisites(s, n, obs).1 ==> s.attached
  {
    ResetShape(s, n);
  }

  /** How a pass can leave the phase and the Job reference of its Operation. */
  ghost predicate Untouched(op: Operation, op': Operation) {
    op'.phase == op.phase && op'.jobRef == op.jobRef
  }

  ghost predicate FailedHere(s: State, op: Operation, op': Operation) {
    && IsActive(op.phase) && op'.phase.Failed? && op'.jobRef == op.jobRef
    && (|| Refused(s, op)
        || MeetsHolder(s, op)
        || (Decide(op, Children(s)).Ok? && GateCloses(s, op)))
  }

  /** The status was read off the Job; a finished BlueGreen import may be kept Running or
      be completed or failed by the swap. */
  ghost predicate SyncedFromJob(s: State, t: State, n: string, op': Operation) {
    && n in t.jobs && op'.jobRef == Some(n)
    && (|| op'.phase == PhaseFromJob(t.jobs[n])
        || (JobFinished(t.jobs[n]) && op'.opType.Rebuild? && s.spec.blueGreen))
  }

  /** A pass that arms: everything it had to get past. */
  ghost predicate MayArm(s: State, op: Operation) {
    && IsActive(op.phase)
    && !Refused(s, op)
    && s.attached
    && Decide(op, Children(s)).Ok?
    && !GateCloses(s, op)
  }

  ghost predicate PassOutcome(s: State, t: State, n: string)
    requires n in s.ops
  {
    && SameElsewhere(s, t, n)
    && (!s.ops[n].deleting ==> n in t.ops)
    && (n in t.jobs && n !in s.jobs ==> n in t.ops && t.jobs[n] == NewJob(s.ops[n]))
    && (n in t.ops ==>
         var op, op' := s.ops[n], t.ops[n];
         && SameIdentity(op, op') && (op.finalizer ==> op'.finalizer)
         && (op.deleting ==> t == s && !op.finalizer)
         && (!op.deleting ==> op'.finalizer)
         && (|| (Untouched(op, op') && t.jobs == s.jobs)
             || (FailedHere(s, op, op') && t.jobs == s.jobs)
             || (SyncedFromJob(s, t, n, op') && (if IsTerminal(op.phase)
                    then op.jobRef.Some? && t.jobs == s.jobs && op'.phase == PhaseFromJob(t.jobs[n])
                    else MayArm(s, op)))))
  }

  lemma ClaimedPassOutcome(s: State, n: string, obs: Observed)
    requires WellFormed(s) && n in s.ops && s.ops[n].finalizer && !s.ops[n].deleting
    requires IsActive(s.ops[n].phase) && !Refused(s, s.ops[n])
    requires Decide(s.ops[n], Children(s)).Ok?
    ensures PassOutcome(s, ClaimedPass(s, n, obs), n)
  {
    if GateCloses(s, s.ops[n]) {
      FailShape(s, n);
    } else {
      var s1 := PreJobEffects(s, n);
      assert s1 == s.(cluster := s1.cluster);
      PrerequisitesShape(s1, n, obs);
      var (s2, ready) := Prerequisites(s1, n, obs);
      if ready {
        ArmOutcome(s, s2, n, obs);
      }
    }
  }

  lemma AfterJobShape(s: State, n: string, obs: Observed)
    requires n in s.ops
    ensures n in AfterJob(s, n, obs).ops
    ensures var t := AfterJob(s, n, obs);
            && WritesParentOnly(WithOp(s, n, s.ops[n].(phase := t.ops[n].phase)), t, n)
            && (|| t.ops[n].phase == s.ops[n].phase
                || (s.ops[n].opType.Rebuild? && s.spec.blueGreen && IsTerminal(s.ops[n].phase)))
  {
    if s.ops[n].opType.Rebuild? && s.spec.blueGreen && IsTerminal(s.ops[n].phase) {
      if obs.afterImport.Abort? { FailShape(s, n); }
    } else {
      SideEffectsShape(s, n);
      assert s == WithOp(s, n, s.ops[n]);
    }
  }

  lemma JobShape(s: State, n: string)
    requires n in s.ops
    ensures var t := SyncStatusFromJob(EnsureJob(s, n), n);
            && SameElsewhere(s, t, n) && n in t.ops && n in t.jobs
            && (n !in s.jobs ==> t.jobs[n] == NewJob(s.ops[n]))
            && t.ops[n] == s.ops[n].(phase := PhaseFromJob(t.jobs[n]), jobRef := Some(n))
            && t == s.(ops := t.ops, jobs := t.jobs)
  {
  }

  /** Creating the Job and reading the status off it. */
  lemma ArmOutcome(s: State, s2: State, n: string, obs: Observed)
    requires n in s.ops && s.ops[n].finalizer && !s.ops[n].deleting
    requires MayArm(s, s.ops[n])
    requires ResetWritesOnly(s.(cluster := s2.cluster), s2, n)
    ensures PassOutcome(s, AfterJob(SyncStatusFromJob(EnsureJob(s2, n), n), n, obs), n)
  {
    hide AfterJob, Children, Decide, GateCloses;
    JobShape(s2, n);
    AfterJobShape(SyncStatusFromJob(EnsureJob(s2, n), n), n, obs);
  }

  lemma ReconcileOutcome(s: State, n: string, obs: Observed)
    requires WellFormed(s) && n in s.ops
    ensures PassOutcome(s, ReconcileOperation(s, n, obs), n)
  {
    hide ActivePass, TerminalPass, DeletePass, PassOutcome;
    if s.ops[n].deleting {
      DeleteOutcome(s, n);
    } else if IsTerminal(s.ops[n].phase) {
      TerminalOutcome(s, n);
    } else {
      ActiveOutcome(s, n, obs);
    }
  }

  lemma DeleteOutcome(s: State, n: string)
    requires WellFormed(s) && n in s.ops && s.ops[n].deleting
    ensures PassOutcome(s, DeletePass(s, n), n)
  {
    hide RemoveRef, TerminalEffects;
    RemoveRefMembers(s.refs, n);
    TerminalShape(SyncRef(s, n, false), n);
    assert WellFormedOp(s, n);
  }

  lemma TerminalShape(s: State, n: string)
    requires n in s.ops
    ensures TerminalEffects(s, n) == s.(cluster := TerminalEffects(s, n).cluster)
  {
  }

  lemma TerminalOutcome(s: State, n: string)
    requires WellFormed(s) && n in s.ops && !s.ops[n].deleting && IsTerminal(s.ops[n].phase)
    ensures PassOutcome(s, TerminalPass(WithOp(s, n, s.ops[n].(finalizer := true)), n), n)
  {
    hide SyncSideEffects;
    var s0 := WithOp(s, n, s.ops[n].(finalizer := true));
    SideEffectsShape(if s0.ops[n].jobRef.Some? then SyncStatusFromJob(s0, n) else s0, n);
    assert WellFormedOp(s, n);
  }

  /** The ways through the first half of an active pass. */
  lemma ActivePassCases(s: State, n: string, obs: Observed)
    requires n in s.ops
    ensures Refused(s, s.ops[n]) || Decide(s.ops[n], Children(s)).Hold? ==>
              ActivePass(s, n, obs) == FailOperation(s, n)
    ensures !Refused(s, s.ops[n]) && Decide(s.ops[n], Children(s)).RaceWait? ==> ActivePass(s, n, obs) == s
    ensures !Refused(s, s.ops[n]) && Decide(s.ops[n], Children(s)).Ok? ==>
              ActivePass(s, n, obs) == ClaimedPass(SyncRef(s, n, true), n, obs)
  {
  }

  lemma ActiveOutcome(s: State, n: string, obs: Observed)
    requires WellFormed(s) && n in s.ops && !s.ops[n].deleting && IsActive(s.ops[n].phase)
    ensures PassOutcome(s, ActivePass(WithOp(s, n, s.ops[n].(finalizer := true)), n, obs), n)
  {
    hide ActivePass, ClaimedPass, FailOperation, SyncRef, Children, Decide, MeetsHolder, IsOutranked, GateCloses;
    var s0 := WithOp(s, n, s.ops[n].(finalizer := true));
    OwnWritesDoNotMatter(s, n, s0);
    ActivePassCases(s0, n, obs);
    ClaimByName(s, s.ops[n]);
    if Refused(s0, s0.ops[n]) || Decide(s0.ops[n], Children(s0)).Hold? {
      FailedOutcome(s, n);
    } else if Decide(s0.ops[n], Children(s0)).Ok? {
      ClaimedOutcome(s, n, obs);
    }
  }

  lemma FailedOutcome(s: State, n: string)
    requires n in s.ops && !s.ops[n].deleting && IsActive(s.ops[n].phase)
    requires Refused(s, s.ops[n]) || MeetsHolder(s, s.ops[n])
    ensures PassOutcome(s, FailOperation(WithOp(s, n, s.ops[n].(finalizer := true)), n), n)
  {
    FailShape(WithOp(s, n, s.ops[n].(finalizer := true)), n);
  }

  lemma ClaimedOutcome(s: State, n: string, obs: Observed)
    requires WellFormed(s) && n in s.ops && !s.ops[n].deleting && IsActive(s.ops[n].phase)
    requires !Refused(s, s.ops[n]) && Decide(s.ops[n], Children(s)).Ok?
    ensures PassOutcome(s, ClaimedPass(SyncRef(WithOp(s, n, s.ops[n].(finalizer := true)), n, true), n, obs), n)
  {
    hide ClaimedPass;
    var s1 := SyncRef(WithOp(s, n, s.ops[n].(finalizer := true)), n, true);
    OwnWritesDoNotMatter(s, n, s1);
    ClaimedPassOutcome(s1, n, obs);
    LiftOutcome(s, s1, ClaimedPass(s1, n, obs), n);
  }

  /** The outcome relative to the state after the claim is the outcome relative to the
      state before the pass. */
  lemma LiftOutcome(s: State, s1: State, t: State, n: string)
    requires WellFormed(s) && n in s.ops && !s.ops[n].deleting && IsActive(s.ops[n].phase)
    requires SameElsewhere(s, s1, n) && s1.jobs == s.jobs
    requires s1.ops == s.ops[n := s.ops[n].(finalizer := true)]
    requires PassOutcome(s1, t, n)
    ensures PassOutcome(s, t, n)
  {
    hide Children, Decide, MeetsHolder, GateCloses;
    OwnWritesDoNotMatter(s, n, s1);
  }

  // ---------------------------------------------------------------- shape of other events

  /** No Operation has appeared or changed, except that some may be marked for deletion. */
  ghost predicate OpsOnlyDrained(s: State, t: State) {
    forall m :: m in t.ops ==> m in s.ops && t.ops[m] == s.ops[m].(deleting := t.ops[m].deleting)
  }

  ghost predicate JobsOnlyAdvance(s: State, t: State) {
    forall m :: m in t.jobs ==> m in s.jobs && JobMayBecome(s.jobs[m], t.jobs[m])
  }

  lemma DrainShape(s: State)
    ensures OpsOnlyDrained(s, Drain(s)) && Drain(s) == s.(ops := Drain(s).ops)
    ensures forall m :: m in s.ops && s.ops[m].finalizer ==> m in Drain(s).ops
  {
  }

  lemma InstanceShape(s: State, found: bool, listing: seq<string>)
    ensures var t := ReconcileInstance(s, found, listing);
            && OpsOnlyDrained(s, t)
            && t == s.(ops := t.ops, attached := t.attached, regions := t.regions,
                       db := t.db, nextUid := t.nextUid, api := t.api)
            && (s.attached ==> t.attached)
            && (forall m :: m in s.ops && s.ops[m].finalizer ==> m in t.ops)
  {
    hide Drain, HasPendingReset, ShouldSuspendApi, ObservedRegions, Lists;
    if s.deleting {
      DrainShape(s);
    }
  }

  lemma DeleteShape(ops: map<string, Operation>, n: string)
    ensures var t := RequestDelete(ops, n);
            && (forall m :: m in t ==> m in ops && t[m] == ops[m].(deleting := t[m].deleting))
            && (forall m :: m in ops && ops[m].finalizer ==> m in t)
  {
  }

  /** What every event but a creation and an Operation pass leaves alone. */
  ghost predicate Shaped(s: State, t: State) {
    && t.spec == s.spec && (s.deleting ==> t.deleting) && (s.attached ==> t.attached)
    && t.refs == s.refs && t.cluster == s.cluster && t.nextOpUid == s.nextOpUid
    && OpsOnlyDrained(s, t) && JobsOnlyAdvance(s, t)
    && (forall m :: m in s.ops && s.ops[m].finalizer ==> m in t.ops)
  }

  lemma EnvironmentShape(s: State, e: Event)
    requires !e.OperationPass? && !e.CreateOperation?
    ensures Shaped(s, Apply(s, e))
  {
    hide ReconcileInstance, ReconcileOperation, RequestDelete, Shaped;
    match e
    case InstancePass(found, listing) => InstanceShaped(s, found, listing);
    case DeleteOperation(n) => DeleteShaped(s, n);
    case _ => OthersShaped(s, e);
  }

  lemma InstanceShaped(s: State, found: bool, listing: seq<string>)
    ensures Shaped(s, ReconcileInstance(s, found, listing))
  {
    hide ReconcileInstance;
    InstanceShape(s, found, listing);
  }

  lemma DeleteShaped(s: State, n: string)
    ensures Shaped(s, s.(ops := RequestDelete(s.ops, n)))
  {
    hide RequestDelete;
    DeleteShape(s.ops, n);
  }

  lemma OthersShaped(s: State, e: Event)
    requires !e.OperationPass? && !e.CreateOperation? && !e.InstancePass? && !e.DeleteOperation?
    ensures Shaped(s, Apply(s, e))
  {
    hide ReconcileOperation, ReconcileInstance, RequestDelete, Create;
    match e
    case _ =>
  }
}
