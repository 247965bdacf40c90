/** status.activeOperationRefs over whole runs
    (internal/controller/nominatimoperation_parent.go, nominatim_delete.go). */
module References {
  import opened Operations
  import opened WritePlane
  import opened Store
  import opened Lifecycle
  import Exclusion

  ghost predicate Distinct(refs: seq<string>) {
    forall i, j :: 0 <= i < j < |refs| ==> refs[i] != refs[j]
  }

  /** No entry twice, and every entry names a stored child that carries the finalizer. */
  ghost predicate RefsSound(s: State) {
    && Distinct(s.refs)
    && (forall r :: r in s.refs ==> IsChild(s, r) && s.ops[r].finalizer)
  }

  /** An active Operation that has armed a Job or started a database reset is referenced. */
  ghost predicate Claimed(s: State) {
    forall n :: IsChild(s, n) && IsActive(s.ops[n].phase) && HasStarted(s.ops[n]) ==> n in s.refs
  }

  predicate HasStarted(op: Operation) {
    op.jobRef.Some? || !op.prevUid.NotRecorded?
  }

  lemma {:induction false} RemoveRefDistinct(refs: seq<string>, n: string)
    requires Distinct(refs)
    ensures Distinct(RemoveRef(refs, n)) && n !in RemoveRef(refs, n)
  {
    if refs != [] {
      assert refs == [refs[0]] + refs[1..];
      if refs[0] != n {
        RemoveRefDistinct(refs[1..], n);
        RemoveRefMembers(refs[1..], n);
        assert refs[0] !in refs[1..];
        assert RemoveRef(refs, n) == [refs[0]] + RemoveRef(refs[1..], n);
      }
    }
  }

  /** What the steps of a pass over `n` may do to the references. */
  ghost predicate RefStep(s: State, t: State, n: string)
    requires n in s.ops
  {
    && t.spec == s.spec
    && (Distinct(s.refs) ==> Distinct(t.refs))
    && (forall m :: m != n ==> (m in t.refs <==> m in s.refs))
    && (n in t.refs && n !in s.refs ==> s.ops[n].parent == s.spec.name)
  }

  lemma SyncRefStep(s: State, n: string, active: bool)
    requires n in s.ops
    ensures RefStep(s, SyncRef(s, n, active), n) && SyncRef(s, n, active).ops == s.ops
    ensures s.ops[n].parent == s.spec.name && active ==> n in SyncRef(s, n, active).refs
    ensures s.ops[n].parent == s.spec.name && !active && Distinct(s.refs) ==> n !in SyncRef(s, n, active).refs
  {
    RemoveRefMembers(s.refs, n);
    if Distinct(s.refs) { RemoveRefDistinct(s.refs, n); }
  }

  lemma SideEffectsRefStep(s: State, n: string)
    requires n in s.ops
    ensures RefStep(s, SyncSideEffects(s, n), n)
    ensures s.ops[n].parent == s.spec.name && IsActive(s.ops[n].phase) ==> n in SyncSideEffects(s, n).refs
  {
    hide SyncRef, RemoveRef;
    SyncRefStep(s, n, IsActive(s.ops[n].phase));
  }

  lemma FailRefStep(s: State, n: string)
    requires n in s.ops
    ensures RefStep(s, FailOperation(s, n), n) && n in FailOperation(s, n).ops
    ensures FailOperation(s, n).ops[n].phase.Failed?
  {
    hide SyncSideEffects;
    SideEffectsRefStep(WithOp(s, n, s.ops[n].(phase := Failed)), n);
    SideEffectsShape(WithOp(s, n, s.ops[n].(phase := Failed)), n);
  }

  lemma ClaimedPassRefStep(s: State, n: string, obs: Observed)
    requires n in s.ops && s.ops[n].parent == s.spec.name && n in s.refs
    ensures var t := ClaimedPass(s, n, obs);
            && RefStep(s, t, n) && n in t.ops
            && (IsActive(t.ops[n].phase) ==> n in t.refs)
  {
    hide Prerequisites, AfterJob, FailOperation, GateCloses, PreJobEffects;
    FailRefStep(s, n);
    var s1 := PreJobEffects(s, n);
    PreJobShape(s, n);
    PrerequisitesShape(s1, n, obs);
    var (s2, ready) := Prerequisites(s1, n, obs);
    if ready {
      var s3 := SyncStatusFromJob(EnsureJob(s2, n), n);
      AfterJobRefStep(s3, n, obs);
    }
  }

  lemma PreJobShape(s: State, n: string)
    requires n in s.ops
    ensures PreJobEffects(s, n) == s.(cluster := PreJobEffects(s, n).cluster)
  {
  }

  lemma AfterJobRefStep(s: State, n: string, obs: Observed)
    requires n in s.ops && s.ops[n].parent == s.spec.name && n in s.refs
    ensures var t := AfterJob(s, n, obs);
            && RefStep(s, t, n) && n in t.ops
            && (IsActive(t.ops[n].phase) ==> n in t.refs)
  {
    hide SyncSideEffects, FailOperation;
    SideEffectsRefStep(s, n);
    SideEffectsShape(s, n);
    FailRefStep(s, n);
  }

  /** The references after any pass over `n`. */
  lemma PassRefStep(s: State, n: string, obs: Observed)
    requires WellFormed(s) && n in s.ops
    ensures var t := ReconcileOperation(s, n, obs);
            && RefStep(s, t, n)
            && (n !in t.ops && s.ops[n].parent == s.spec.name && Distinct(s.refs) ==> n !in t.refs)
            && (n in t.ops && s.ops[n].parent == s.spec.name && IsActive(t.ops[n].phase) ==>
                  n in t.refs || t == s
                  || t == WithOp(s, n, s.ops[n].(finalizer := true)))
  {
    hide ActivePass, TerminalPass, DeletePass;
    var s0 := WithOp(s, n, s.ops[n].(finalizer := true));
    if s.ops[n].deleting {
      DeleteRefStep(s, n);
    } else if IsTerminal(s.ops[n].phase) {
      TerminalRefStep(s0, n);
    } else {
      ActiveRefStep(s0, n, obs);
    }
  }

  lemma DeleteRefStep(s: State, n: string)
    requires n in s.ops
    ensures RefStep(s, DeletePass(s, n), n)
    ensures n in DeletePass(s, n).ops ==> DeletePass(s, n) == s
    ensures n !in DeletePass(s, n).ops && s.ops[n].parent == s.spec.name && Distinct(s.refs) ==>
          n !in DeletePass(s, n).refs
  {
    hide SyncRef, RemoveRef;
    SyncRefStep(s, n, false);
  }

  lemma TerminalRefStep(s: State, n: string)
    requires n in s.ops
    ensures var t := TerminalPass(s, n);
            && RefStep(s, t, n) && n in t.ops
            && (IsActive(t.ops[n].phase) && s.ops[n].parent == s.spec.name ==> n in t.refs)
  {
    hide SyncSideEffects;
    var s1 := if s.ops[n].jobRef.Some? then SyncStatusFromJob(s, n) else s;
    SideEffectsRefStep(s1, n);
    SideEffectsShape(s1, n);
  }

  lemma ActiveRefStep(s: State, n: string, obs: Observed)
    requires n in s.ops
    ensures var t := ActivePass(s, n, obs);
            && RefStep(s, t, n) && n in t.ops
            && (IsActive(t.ops[n].phase) && s.ops[n].parent == s.spec.name ==> n in t.refs || t == s)
  {
    hide ClaimedPass, FailOperation, SyncRef, Decide, Children;
    FailRefStep(s, n);
    SyncRefStep(s, n, true);
    if !Refused(s, s.ops[n]) {
      ClaimedPassRefStep(SyncRef(s, n, true), n, obs);
    }
  }

  lemma StepKeepsRefs(s: State, e: Event)
    requires WellFormed(s) && RefsSound(s) && Claimed(s)
    ensures RefsSound(Apply(s, e)) && Claimed(Apply(s, e))
  {
    hide ReconcileOperation, ReconcileInstance, RefsSound, Claimed, WellFormed;
    match e
    case CreateOperation(n, parent, opType, regions) =>
      if n != "" && n !in s.ops { CreationKeepsRefs(s, n, parent, opType, regions); }
    case OperationPass(n, obs) =>
      if n in s.ops {
        PassKeepsRefs(s, n, obs);
      } else {
        Exclusion.PassOverNothing(s, n, obs);
      }
    case _ =>
      EnvironmentKeepsRefs(s, e);
  }

  lemma CreationKeepsRefs(s: State, n: string, parent: string, opType: OpType, regions: seq<string>)
    requires RefsSound(s) && Claimed(s) && n !in s.ops
    ensures var t := Create(s, n, parent, opType, regions); RefsSound(t) && Claimed(t)
  {
    var t := Create(s, n, parent, opType, regions);
    assert forall r :: IsChild(s, r) ==> IsChild(t, r) && t.ops[r] == s.ops[r];
    assert forall r :: IsChild(t, r) && r != n ==> IsChild(s, r);
  }

  lemma EnvironmentKeepsRefs(s: State, e: Event)
    requires RefsSound(s) && Claimed(s) && !e.OperationPass? && !e.CreateOperation?
    ensures RefsSound(Apply(s, e)) && Claimed(Apply(s, e))
  {
    hide Apply;
    EnvironmentShape(s, e);
    assert forall r :: IsChild(Apply(s, e), r) ==> IsChild(s, r);
  }

  lemma PassKeepsRefs(s: State, n: string, obs: Observed)
    requires WellFormed(s) && RefsSound(s) && Claimed(s) && n in s.ops
    ensures RefsSound(ReconcileOperation(s, n, obs)) && Claimed(ReconcileOperation(s, n, obs))
  {
    hide ReconcileOperation;
    var t := ReconcileOperation(s, n, obs);
    ReconcileOutcome(s, n, obs);
    PassRefStep(s, n, obs);
    forall r | r in t.refs ensures IsChild(t, r) && t.ops[r].finalizer {
      if r != n { assert r in s.refs; } else { assert n in s.refs ==> IsChild(s, n); }
    }
    forall m | IsChild(t, m) && IsActive(t.ops[m].phase) && HasStarted(t.ops[m]) ensures m in t.refs {
      if m != n { assert IsChild(s, m) && m in s.refs; }
    }
  }

  /** References of a pass name children, before and after. */
  lemma PassKeepsSound(s: State, n: string, obs: Observed)
    requires WellFormed(s) && RefsSound(s) && n in s.ops
    ensures forall r :: r in ReconcileOperation(s, n, obs).refs ==> r in s.ops && s.ops[r].parent == s.spec.name
  {
    hide ReconcileOperation;
    PassRefStep(s, n, obs);
    forall r | r in ReconcileOperation(s, n, obs).refs ensures r in s.ops && s.ops[r].parent == s.spec.name {
      if r != n { assert r in s.refs; } else if n in s.refs { assert IsChild(s, n); }
    }
  }

  lemma {:induction false} RefsHold(spec: Spec, params: map<string, string>, events: seq<Event>)
    ensures var s := Run(Fresh(spec, params), events);
            WellFormed(s) && RefsSound(s) && Claimed(s)
  {
    if events != [] {
      RefsHold(spec, params, events[..|events| - 1]);
      var s, e := Run(Fresh(spec, params), events[..|events| - 1]), events[|events| - 1];
      StepKeepsRefs(s, e);
      StepKeepsWellFormed(s, e);
    }
  }

  lemma StepKeepsWellFormed(s: State, e: Event)
    requires WellFormed(s)
    ensures WellFormed(Apply(s, e))
  {
    hide ReconcileOperation, ReconcileInstance;
    var t := Apply(s, e);
    if e.OperationPass? {
      if e.name in s.ops {
        Exclusion.PassKeepsWellFormed(s, e.name, e.obs);
      } else {
        Exclusion.PassOverNothing(s, e.name, e.obs);
      }
    } else {
      if !e.CreateOperation? { EnvironmentShape(s, e); }
      forall m | m in t.ops ensures WellFormedOp(t, m) {
        assert m in s.ops ==> WellFormedOp(s, m);
      }
    }
  }

  /** In every run, gates and deletions included, the references are duplicate-free and each
      names a stored Operation of this instance with its finalizer. Once the instance has
      no Operations left, which is what drainChildOperations waits for, none is left. */
  lemma ReferenceIntegrity(spec: Spec, params: map<string, string>, events: seq<Event>)
    ensures var s := Run(Fresh(spec, params), events);
            && Distinct(s.refs)
            && (forall r :: r in s.refs ==> r in s.ops && s.ops[r].parent == spec.name && s.ops[r].finalizer)
            && (Children(s) == {} ==> s.refs == [])
  {
    RefsHold(spec, params, events);
    SpecIsFixed(spec, params, events);
    var s := Run(Fresh(spec, params), events);
    if s.refs != [] {
      var r := s.refs[0];
      assert r in s.refs && IsChild(s, r) && WellFormedOp(s, r);
      ChildrenByName(s, s.ops[r]);
    }
  }

  lemma {:induction false} SpecIsFixed(spec: Spec, params: map<string, string>, events: seq<Event>)
    ensures Run(Fresh(spec, params), events).spec == spec
  {
    if events != [] {
      SpecIsFixed(spec, params, events[..|events| - 1]);
      RefsHold(spec, params, events[..|events| - 1]);
      var s, e := Run(Fresh(spec, params), events[..|events| - 1]), events[|events| - 1];
      StepKeepsSpec(s, e);
    }
  }

  lemma StepKeepsSpec(s: State, e: Event)
    requires WellFormed(s)
    ensures Apply(s, e).spec == s.spec
  {
    hide ReconcileOperation, ReconcileInstance;
    if e.OperationPass? {
      if e.name in s.ops {
        ReconcileOutcome(s, e.name, e.obs);
      } else {
        Exclusion.PassOverNothing(s, e.name, e.obs);
      }
    } else if !e.CreateOperation? {
      EnvironmentShape(s, e);
    }
  }
}
