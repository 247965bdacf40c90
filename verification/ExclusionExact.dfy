/** Exactly when mutual exclusion holds: every region gate failure of an armed Operation can
    be continued to two holders that exclude each other, and every instance that wants regions
    has such a failure in some run. */
module ExclusionExact {
  import opened Names
  import opened Operations
  import opened WritePlane
  import opened Store
  import opened Lifecycle
  import opened Passes
  import opened Exclusion
  import References
  import RebuildReset
  import Tameness

  /** No two Operations that exclude each other both hold the write plane. */
  ghost predicate HoldersExclude(s: State) {
    forall a, b :: a in s.ops && b in s.ops && HoldsWritePlane(s.ops[a]) && HoldsWritePlane(s.ops[b]) ==>
      !Conflict(s.ops[a], s.ops[b])
  }

  lemma {:induction false} RunConcat(s: State, a: seq<Event>, b: seq<Event>)
    ensures Run(s, a + b) == Run(Run(s, a), b)
  {
    hide Apply;
    if b == [] {
      assert a + b == a;
    } else {
      assert (a + b)[..|a + b| - 1] == a + b[..|b| - 1];
      RunConcat(s, a, b[..|b| - 1]);
    }
  }

  lemma RunPair(s: State, a: Event, b: Event)
    ensures Run(s, [a, b]) == Apply(Apply(s, a), b)
  {
    hide Apply;
    assert [a, b][..1] == [a] && [a][..0] == [];
    assert Run(s, [a]) == Apply(s, a);
  }

  lemma RunSingle(s: State, a: Event)
    ensures Run(s, [a]) == Apply(s, a)
  {
    hide Apply;
    assert [a][..0] == [];
  }

  // ---------------------------------------------------------------- passes under any policy

  function Pass(n: string): Event {
    OperationPass(n, READY)
  }

  ghost predicate MayPass(s: State, n: string) {
    && WellFormed(s) && n in s.ops && IsActive(s.ops[n].phase) && !s.ops[n].deleting
    && !Refused(s, s.ops[n]) && Unopposed(s, n) && !GateCloses(s, s.ops[n]) && s.attached
  }

  lemma PreJobWritesCluster(s: State, n: string)
    requires n in s.ops
    ensures PreJobEffects(s, n) == s.(cluster := PreJobEffects(s, n).cluster)
  {
  }

  /** The pass as far as the prerequisites. */
  lemma PassReaches(s: State, n: string)
    requires MayPass(s, n)
    ensures WellFormed(Apply(s, Pass(n)))
    ensures var s1 := PreJobEffects(Claimed(s, n), n);
            && s1 == WithFinalizer(s, n).(refs := s1.refs, cluster := s1.cluster)
            && var (s2, ready) := Prerequisites(s1, n, READY);
               Apply(s, Pass(n)) == if ready then AfterJob(SyncStatusFromJob(EnsureJob(s2, n), n), n, READY) else s2
  {
    hide Children, GateCloses, SyncRef, Apply, Unopposed, Claimed, PreJobEffects, Prerequisites, AfterJob,
         SyncStatusFromJob;
    References.StepKeepsWellFormed(s, Pass(n));
    ClaimSucceeds(s, n);
    PreJobWritesCluster(Claimed(s, n), n);
  }

  /** The Job has been created or found and the phase read off it. */
  ghost predicate ReadOff(s: State, t: State, n: string)
    requires n in s.ops
  {
    t == Synced(s, n).(refs := t.refs, cluster := t.cluster)
  }

  lemma ReadsOff(s: State, n: string)
    requires n in s.ops && s.ops[n].finalizer
    requires !s.ops[n].opType.Rebuild? || (n !in s.jobs)
    ensures ReadOff(s, AfterJob(SyncStatusFromJob(EnsureJob(s, n), n), n, READY), n)
  {
    hide TerminalEffects, RemoveRef;
    var s1 := SyncStatusFromJob(EnsureJob(s, n), n);
    assert s1.jobs == Synced(s, n).jobs && s1.ops == Synced(s, n).ops;
    SideEffectsShape(s1, n);
  }

  /** A pass over an Operation that waits for nothing. */
  lemma WorkPass(s: State, n: string)
    requires MayPass(s, n) && !s.ops[n].opType.Rebuild? && ReadyForJobs(s, READY)
    ensures WellFormed(Apply(s, Pass(n))) && ReadOff(s, Apply(s, Pass(n)), n)
  {
    hide Children, GateCloses, SyncRef, Apply, Unopposed, Claimed, PreJobEffects, AfterJob, SyncStatusFromJob,
         WellFormed, Refused;
    PassReaches(s, n);
    var s1 := PreJobEffects(Claimed(s, n), n);
    assert Prerequisites(s1, n, READY) == (s1, true);
    ReadsOff(s1, n);
    assert Synced(s1, n).ops == Synced(s, n).ops;
  }

  /** A pass over a Rebuild on a sibling Cluster. */
  lemma SiblingPass(s: State, n: string)
    requires MayPass(s, n) && s.ops[n].opType.Rebuild? && s.spec.blueGreen && n !in s.jobs
    ensures WellFormed(Apply(s, Pass(n))) && ReadOff(s, Apply(s, Pass(n)), n)
  {
    hide Children, GateCloses, SyncRef, Apply, Unopposed, Claimed, PreJobEffects, AfterJob, SyncStatusFromJob,
         WellFormed, Refused;
    PassReaches(s, n);
    var s1 := PreJobEffects(Claimed(s, n), n);
    assert Prerequisites(s1, n, READY) == (s1, true);
    ReadsOff(s1, n);
    assert Synced(s1, n).ops == Synced(s, n).ops;
  }

  /** A pass over a terminal Operation whose Job is there reads its phase again. */
  lemma RevivingPass(s: State, n: string)
    requires WellFormed(s) && n in s.ops && IsTerminal(s.ops[n].phase) && !s.ops[n].deleting
    requires s.ops[n].jobRef.Some? && n in s.jobs
    ensures ReadOff(s, Apply(s, Pass(n)), n)
  {
    hide TerminalEffects, RemoveRef;
    assert WellFormedOp(s, n);
    var s0 := SyncStatusFromJob(WithFinalizer(s, n), n);
    assert s0.ops == Synced(s, n).ops && s.jobs == Synced(s, n).jobs;
    SideEffectsShape(s0, n);
  }

  // ---------------------------------------------------------------- clearing the store

  /** A delete request and a pass remove any Operation. */
  lemma LetGo(s: State, m: string)
    requires WellFormed(s) && m in s.ops
    ensures var t := Apply(Apply(s, DeleteOperation(m)), Pass(m));
            WellFormed(t) && t == s.(ops := s.ops - {m}, refs := t.refs, cluster := t.cluster)
  {
    hide TerminalEffects, RemoveRef;
    var s1 := Apply(s, DeleteOperation(m));
    References.StepKeepsWellFormed(s, DeleteOperation(m));
    References.StepKeepsWellFormed(s1, Pass(m));
    if s.ops[m].finalizer {
      TerminalShape(SyncRef(s1, m, false), m);
      assert s1.ops - {m} == s.ops - {m};
    }
  }

  ghost predicate Only(s: State, t: State, n: string)
    requires n in s.ops
  {
    WellFormed(t) && t == s.(ops := map[n := s.ops[n]], refs := t.refs, cluster := t.cluster)
  }

  /** Every other Operation can be deleted. */
  lemma {:induction false} ClearOut(s: State, n: string) returns (events: seq<Event>)
    requires WellFormed(s) && n in s.ops
    ensures NoInstancePass(events)
    ensures Only(s, Run(s, events), n)
    decreases |s.ops|
  {
    hide Apply, WellFormed;
    if m :| m in s.ops && m != n {
      LetGo(s, m);
      var t := Apply(Apply(s, DeleteOperation(m)), Pass(m));
      assert t.ops.Keys == s.ops.Keys - {m};
      var rest := ClearOut(t, n);
      RunPair(s, DeleteOperation(m), Pass(m));
      events := [DeleteOperation(m), Pass(m)] + rest;
      RunConcat(s, [DeleteOperation(m), Pass(m)], rest);
    } else {
      events := [];
      assert s.ops == map[n := s.ops[n]];
    }
  }

  // ---------------------------------------------------------------- two holders

  /** `n` is terminal, its Job is not finished, and it is the only Operation. */
  ghost predicate Lone(s: State, n: string) {
    && WellFormed(s) && s.ops.Keys == {n} && !s.deleting
    && IsTerminal(s.ops[n].phase) && s.ops[n].jobRef.Some? && !s.ops[n].deleting && Unfinished(s, n)
  }

  ghost predicate TwoHolders(s: State, a: string, b: string) {
    && a in s.ops && b in s.ops && Conflict(s.ops[a], s.ops[b])
    && HoldsWritePlane(s.ops[a]) && HoldsWritePlane(s.ops[b])
  }

  /** Besides `n` there is only `f`, active and of a type that excludes everything. */
  ghost predicate Joined(s: State, n: string, f: string) {
    && WellFormed(s) && n != f && s.ops.Keys == {n, f} && !s.deleting
    && IsTerminal(s.ops[n].phase) && s.ops[n].jobRef.Some? && !s.ops[n].deleting && Unfinished(s, n)
    && IsActive(s.ops[f].phase) && !s.ops[f].deleting && s.ops[f].parent == s.spec.name
    && (s.ops[f].opType.Freeze? || (s.ops[f].opType.Rebuild? && s.spec.kind.Managed?))
  }

  lemma JoinedMayPass(s: State, n: string, f: string)
    requires Joined(s, n, f)
    ensures MayPass(s, f)
  {
    assert WellFormedOp(s, n);
    assert forall m :: IsChild(s, m) ==> m == n || m == f;
  }

  lemma Joins(s: State, n: string, f: string, t: OpType)
    requires Lone(s, n) && f != "" && f != n && f !in s.jobs
    requires t.Freeze? || (t.Rebuild? && s.spec.kind.Managed?)
    ensures var e := CreateOperation(f, s.spec.name, t, []);
            var u := Apply(s, e);
            && Joined(u, n, f) && u == Create(s, f, s.spec.name, t, [])
            && u.ops[f] == NewOperation(f, s.spec.name, t, []).(uid := s.nextOpUid)
  {
    References.StepKeepsWellFormed(s, CreateOperation(f, s.spec.name, t, []));
  }

  /** Once `f` has armed, the pass over `n` makes both hold. */
  lemma BothHold(s: State, n: string, f: string)
    requires WellFormed(s) && n != f && n in s.ops && f in s.ops && Conflict(s.ops[n], s.ops[f])
    requires IsTerminal(s.ops[n].phase) && s.ops[n].jobRef.Some? && !s.ops[n].deleting && Unfinished(s, n)
    requires HoldsWritePlane(s.ops[f])
    ensures TwoHolders(Apply(s, Pass(n)), n, f)
  {
    hide Apply;
    RevivingPass(s, n);
    assert WellFormedOp(s, n);
  }

  /** `f` arms in one pass. */
  lemma ArmedBothHold(s: State, n: string, f: string)
    requires Joined(s, n, f) && f !in s.jobs
    requires WellFormed(Apply(s, Pass(f))) && ReadOff(s, Apply(s, Pass(f)), f)
    ensures TwoHolders(Run(s, [Pass(f), Pass(n)]), n, f)
  {
    hide Apply;
    assert WellFormedOp(s, n) && WellFormedOp(s, f);
    BothHold(Apply(s, Pass(f)), n, f);
    RunPair(s, Pass(f), Pass(n));
  }

  lemma FreezeJoins(s: State, n: string, f: string) returns (events: seq<Event>)
    requires Lone(s, n) && f != "" && f != n && f !in s.jobs && ReadyForJobs(s, READY)
    ensures NoInstancePass(events)
    ensures TwoHolders(Run(s, events), n, f)
  {
    hide Apply, MayPass;
    var e := CreateOperation(f, s.spec.name, Freeze, []);
    Joins(s, n, f, Freeze);
    var s1 := Apply(s, e);
    JoinedMayPass(s1, n, f);
    WorkPass(s1, f);
    ArmedBothHold(s1, n, f);
    RunSingle(s, e);
    events := [e] + [Pass(f), Pass(n)];
    RunConcat(s, [e], [Pass(f), Pass(n)]);
  }

  lemma SiblingJoins(s: State, n: string, f: string) returns (events: seq<Event>)
    requires Lone(s, n) && f != "" && f != n && f !in s.jobs && s.spec.kind.Managed? && s.spec.blueGreen
    ensures NoInstancePass(events)
    ensures TwoHolders(Run(s, events), n, f)
  {
    hide Apply, MayPass;
    var e := CreateOperation(f, s.spec.name, Rebuild, []);
    Joins(s, n, f, Rebuild);
    var s1 := Apply(s, e);
    JoinedMayPass(s1, n, f);
    SiblingPass(s1, f);
    ArmedBothHold(s1, n, f);
    RunSingle(s, e);
    events := [e] + [Pass(f), Pass(n)];
    RunConcat(s, [e], [Pass(f), Pass(n)]);
  }

  // ---------------------------------------------------------------- joining by a database reset

  /** A Rebuild `f` at its reset, without a Job yet. */
  ghost predicate Resetting(s: State, n: string, f: string) {
    Joined(s, n, f) && f !in s.jobs && UsesReset(s, s.ops[f]) && !s.ops[f].reset.ResetDone?
  }

  /** A pass that does one step of the reset. */
  lemma ResetStepPass(s: State, n: string, f: string)
    requires Resetting(s, n, f)
    requires !ResetDatabase(WithFinalizer(s, f), f).1
    ensures var t := Apply(s, Pass(f));
            var r := ResetDatabase(WithFinalizer(s, f), f).0;
            WellFormed(t) && t == r.(refs := t.refs, cluster := t.cluster)
  {
    hide Children, GateCloses, SyncRef, Apply, Unopposed, Claimed, PreJobEffects, AfterJob, SyncStatusFromJob, MayPass;
    JoinedMayPass(s, n, f);
    PassReaches(s, f);
    assert WellFormedOp(s, n);
    ResetIgnoresParent(WithFinalizer(s, f), PreJobEffects(Claimed(s, f), f), f);
  }

  lemma ResetIgnoresParent(s: State, t: State, f: string)
    requires f in s.ops && t == s.(refs := t.refs, cluster := t.cluster)
    ensures ResetDatabase(t, f).1 == ResetDatabase(s, f).1
    ensures ResetDatabase(t, f).0 == ResetDatabase(s, f).0.(refs := t.refs, cluster := t.cluster)
  {
    hide EnsureDatabase, ScaleApiDown, DropDatabase;
    var op := s.ops[f];
    if !UsesReset(s, op) || op.reset.ResetDone? {
    } else if !ApiQuiesced(s) {
      ScalingIgnoresParent(s, t);
    } else if op.prevUid.NotRecorded? {
      if s.db.Some? { DropIgnoresParent(s, t, f); }
    } else if s.db.None? {
      EnsuringIgnoresParent(s, t);
    } else if op.prevUid == Dropped(s.db.value.uid) || !s.db.value.applied {
    } else {
    }
  }

  lemma ScalingIgnoresParent(s: State, t: State)
    requires t == s.(refs := t.refs, cluster := t.cluster)
    ensures ScaleApiDown(t) == ScaleApiDown(s).(refs := t.refs, cluster := t.cluster)
  {
  }

  lemma DropIgnoresParent(s: State, t: State, f: string)
    requires f in s.ops && s.db.Some? && t == s.(refs := t.refs, cluster := t.cluster)
    ensures DropDatabase(t, f) == DropDatabase(s, f).(refs := t.refs, cluster := t.cluster)
  {
  }

  lemma EnsuringIgnoresParent(s: State, t: State)
    requires t == s.(refs := t.refs, cluster := t.cluster)
    ensures EnsureDatabase(t) == EnsureDatabase(s).(refs := t.refs, cluster := t.cluster)
  {
  }

  /** The API is scaled down and drained. */
  lemma Quiesce(s: State, n: string, f: string) returns (events: seq<Event>)
    requires Resetting(s, n, f) && s.ops[f].prevUid.NotRecorded? && s.db.None?
    ensures NoInstancePass(events)
    ensures var t := Run(s, events);
            Resetting(t, n, f) && t.ops[f].prevUid.NotRecorded? && t.db.None? && ApiQuiesced(t)
  {
    if ApiQuiesced(s) {
      events := [];
    } else {
      hide Apply, Resetting, Joined;
      ScalesDown(s, n, f);
      Drains(Apply(s, Pass(f)), n, f);
      RunPair(s, Pass(f), ApiPods(0));
      events := [Pass(f), ApiPods(0)];
    }
  }

  lemma ScalesDown(s: State, n: string, f: string)
    requires Resetting(s, n, f) && s.ops[f].prevUid.NotRecorded? && s.db.None? && !ApiQuiesced(s)
    ensures var t := Apply(s, Pass(f));
            && Resetting(t, n, f) && t.ops[f].prevUid.NotRecorded? && t.db.None?
            && t.api.Some? && t.api.value.replicas == 0
  {
    hide Apply;
    ResetStepPass(s, n, f);
    assert Apply(s, Pass(f)).ops == WithFinalizer(s, f).ops;
  }

  lemma Drains(s: State, n: string, f: string)
    requires Resetting(s, n, f) && s.ops[f].prevUid.NotRecorded? && s.db.None?
    requires s.api.Some? && s.api.value.replicas == 0
    ensures var t := Apply(s, ApiPods(0));
            Resetting(t, n, f) && t.ops[f].prevUid.NotRecorded? && t.db.None? && ApiQuiesced(t)
  {
    References.StepKeepsWellFormed(s, ApiPods(0));
  }

  lemma RecordNothing(s: State, n: string, f: string)
    requires Resetting(s, n, f) && s.ops[f].prevUid.NotRecorded? && s.db.None? && ApiQuiesced(s)
    ensures var t := Apply(s, Pass(f));
            && Resetting(t, n, f) && t.ops[f].prevUid.NoneExisted? && t.db.None?
            && ApiQuiesced(t) && t.nextUid == s.nextUid
  {
    hide Apply;
    ResetStepPass(s, n, f);
    var t := Apply(s, Pass(f));
    assert t.ops[n] == s.ops[n] && t.ops.Keys == s.ops.Keys;
  }

  lemma CreateDatabase(s: State, n: string, f: string)
    requires Resetting(s, n, f) && s.ops[f].prevUid.NoneExisted? && s.db.None? && ApiQuiesced(s)
    ensures var t := Apply(s, Pass(f));
            && Resetting(t, n, f) && t.ops[f].prevUid.NoneExisted? && ApiQuiesced(t)
            && t.db == Some(Database(s.nextUid, false, false))
  {
    hide Apply;
    ResetStepPass(s, n, f);
    var t := Apply(s, Pass(f));
    assert t.ops[n] == s.ops[n] && t.ops.Keys == s.ops.Keys;
  }

  /** With nothing to drop, two passes record that and create a Database. */
  lemma Recreate(s: State, n: string, f: string) returns (events: seq<Event>)
    requires Resetting(s, n, f) && s.ops[f].prevUid.NotRecorded? && s.db.None? && ApiQuiesced(s)
    ensures NoInstancePass(events)
    ensures var t := Run(s, events);
            && Resetting(t, n, f) && t.ops[f].prevUid.NoneExisted? && ApiQuiesced(t)
            && t.db == Some(Database(s.nextUid, false, false))
  {
    hide Apply, Joined;
    RecordNothing(s, n, f);
    CreateDatabase(Apply(s, Pass(f)), n, f);
    RunPair(s, Pass(f), Pass(f));
    events := [Pass(f), Pass(f)];
  }

  /** The reset finishes on the applied Database, and the Job is created. */
  lemma FinishReset(s: State, n: string, f: string)
    requires Resetting(s, n, f) && s.ops[f].prevUid.NoneExisted? && ApiQuiesced(s)
    requires s.db.Some? && s.db.value.applied
    ensures var t := Apply(s, Pass(f));
            && WellFormed(t) && n in t.ops && t.ops[n] == s.ops[n] && Unfinished(t, n)
            && f in t.ops && t.ops[f].parent == s.ops[f].parent && t.ops[f].opType.Rebuild? && HoldsWritePlane(t.ops[f])
  {
    hide Children, GateCloses, SyncRef, Apply, Unopposed, Claimed, PreJobEffects, AfterJob, SyncStatusFromJob, MayPass,
         EnsureJob;
    JoinedMayPass(s, n, f);
    PassReaches(s, f);
    var s1 := PreJobEffects(Claimed(s, f), f);
    var s2 := RecordReset(s1, f, ResetDone, NoneExisted);
    assert WellFormedOp(s, n) && WellFormedOp(s, f);
    assert ResetDatabase(s1, f) == (s2, true);
    assert Prerequisites(s1, f, READY) == (s2, true);
    ReadsOff(s2, f);
  }

  lemma ResetJoins(s: State, n: string, f: string) returns (events: seq<Event>)
    requires Lone(s, n) && f != "" && f != n && f !in s.jobs
    requires s.spec.kind.Managed? && !s.spec.blueGreen && s.db.None?
    ensures NoInstancePass(events)
    ensures TwoHolders(Run(s, events), n, f)
  {
    hide Apply, MayPass, Joined;
    var e := CreateOperation(f, s.spec.name, Rebuild, []);
    Joins(s, n, f, Rebuild);
    RunSingle(s, e);
    var quiesce := Quiesce(Run(s, [e]), n, f);
    RunConcat(s, [e], quiesce);
    var recreate := Recreate(Run(s, [e] + quiesce), n, f);
    RunConcat(s, [e] + quiesce, recreate);
    var s1 := Run(s, [e] + quiesce + recreate);
    var rest := FinishAndRevive(s1, n, f);
    events := [e] + quiesce + recreate + rest;
    RunConcat(s, [e] + quiesce + recreate, rest);
  }

  lemma FinishAndRevive(s: State, n: string, f: string) returns (events: seq<Event>)
    requires Resetting(s, n, f) && s.ops[f].prevUid.NoneExisted? && ApiQuiesced(s)
    requires s.db.Some? && !s.db.value.terminating
    ensures NoInstancePass(events)
    ensures TwoHolders(Run(s, events), n, f)
  {
    References.StepKeepsWellFormed(s, DatabaseApplied);
    var s1 := Apply(s, DatabaseApplied);
    hide Apply;
    FinishReset(s1, n, f);
    var s2 := Apply(s1, Pass(f));
    assert WellFormedOp(s, n) && WellFormedOp(s2, n) && WellFormedOp(s2, f);
    BothHold(s2, n, f);
    RunSingle(s, DatabaseApplied);
    RunPair(s1, Pass(f), Pass(n));
    events := [DatabaseApplied] + [Pass(f), Pass(n)];
    RunConcat(s, [DatabaseApplied], [Pass(f), Pass(n)]);
  }

  // ---------------------------------------------------------------- from the failure on

  lemma DatabaseEvent(s: State, n: string, e: Event)
    requires Lone(s, n) && (e.DatabaseApplied? || e.DatabaseGone?)
    ensures Lone(Apply(s, e), n) && Apply(s, e) == s.(db := Apply(s, e).db)
  {
    References.StepKeepsWellFormed(s, e);
  }

  /** Whatever database the instance has, a second holder can join. */
  lemma SomebodyJoins(s: State, n: string, f: string) returns (events: seq<Event>)
    requires Lone(s, n) && f != "" && f != n && f !in s.jobs
    ensures NoInstancePass(events)
    ensures TwoHolders(Run(s, events), n, f)
  {
    hide Lone, TwoHolders;
    if ReadyForJobs(s, READY) {
      events := FreezeJoins(s, n, f);
    } else if s.spec.blueGreen {
      events := SiblingJoins(s, n, f);
    } else if s.db.None? {
      events := ResetJoins(s, n, f);
    } else {
      var e := if s.db.value.terminating then DatabaseGone else DatabaseApplied;
      DatabaseEvent(s, n, e);
      RunSingle(s, e);
      var rest;
      if s.db.value.terminating {
        rest := ResetJoins(Apply(s, e), n, f);
      } else {
        rest := FreezeJoins(Apply(s, e), n, f);
      }
      events := [e] + rest;
      RunConcat(s, [e], rest);
    }
  }

  /** From any state of the invariant, a region gate failure of an armed Operation can be
      continued to a state with two holders that exclude each other. */
  lemma GateFailureCanEndBadly(s: State, e: Event) returns (more: seq<Event>)
    requires Inv(s) && GateFailsArmed(s, e)
    ensures NoInstancePass(more)
    ensures !HoldersExclude(Run(Apply(s, e), more))
  {
    hide Apply, GateCloses, Lone;
    var n := e.name;
    FailureLeavesJob(s, e);
    var t := Apply(s, e);
    var clear := ClearOut(t, n);
    var k := FreshName(Run(t, clear).jobs.Keys + {n}, 0);
    var f := Decimal(k);
    OnlyIsLone(t, Run(t, clear), n);
    var join := SomebodyJoins(Run(t, clear), n, f);
    RunConcat(t, clear, join);
    more := clear + join;
  }

  lemma OnlyIsLone(s: State, t: State, n: string)
    requires n in s.ops && Only(s, t, n) && !s.deleting
    requires IsTerminal(s.ops[n].phase) && s.ops[n].jobRef.Some? && !s.ops[n].deleting && Unfinished(s, n)
    ensures Lone(t, n)
  {
  }

  lemma FailureLeavesJob(s: State, e: Event)
    requires Inv(s) && GateFailsArmed(s, e)
    ensures var t := Apply(s, e);
            && WellFormed(t) && !t.deleting && e.name in t.ops && t.ops[e.name].phase.Failed?
            && t.ops[e.name].jobRef.Some? && !t.ops[e.name].deleting && Unfinished(t, e.name)
  {
    hide ReconcileOperation;
    GateFailureHides(s, e.name, e.obs);
    ReconcileOutcome(s, e.name, e.obs);
    PassKeepsWellFormed(s, e.name, e.obs);
  }

  lemma InvExcludesHolders(s: State)
    requires Inv(s)
    ensures HoldersExclude(s)
  {
    forall a, b | a in s.ops && b in s.ops && HoldsWritePlane(s.ops[a]) && HoldsWritePlane(s.ops[b])
      ensures !Conflict(s.ops[a], s.ops[b])
    {
      HoldersAreEngaged(s, a);
      HoldersAreEngaged(s, b);
    }
  }

  ghost predicate AlwaysExclusive(s: State) {
    forall events :: HoldersExclude(Run(s, events))
  }

  ghost predicate AlwaysTame(s: State) {
    forall events :: Tame(s, events)
  }

  /** A run that is not tame has a prefix that can be continued to a violation, without
      further instance passes. */
  lemma {:induction false} UntameCanEndBadly(s: State, events: seq<Event>) returns (bad: seq<Event>)
    requires Inv(s) && !Tame(s, events)
    ensures !HoldersExclude(Run(s, bad))
    ensures NothingCreated(s, events) ==> NothingCreated(s, bad)
  {
    hide Apply, GateFailsArmed, Inv, HoldersExclude;
    var before, e := events[..|events| - 1], events[|events| - 1];
    if Tame(s, before) {
      InvThroughoutIffTame(s, before);
      var more := GateFailureCanEndBadly(Run(s, before), e);
      RunConcat(s, events, more);
      if NothingCreated(s, events) { NothingCreatedLater(s, events, more); }
      bad := events + more;
    } else {
      assert NothingCreated(s, events) ==> NothingCreated(s, before) by {
        assert forall k :: 0 <= k < |before| ==> before[..k + 1] == events[..k + 1] && before[k] == events[k];
      }
      bad := UntameCanEndBadly(s, before);
    }
  }

  lemma TameIsExclusive(s: State, events: seq<Event>)
    requires Inv(s) && Tame(s, events)
    ensures HoldersExclude(Run(s, events))
  {
    InvThroughoutIffTame(s, events);
    InvExcludesHolders(Run(s, events));
  }

  /** From any state of the invariant: the write plane stays exclusive in every run exactly
      when every run is tame. */
  lemma ExclusiveIffTame(s: State)
    requires Inv(s)
    ensures AlwaysExclusive(s) <==> AlwaysTame(s)
  {
    hide Inv, HoldersExclude, Tame;
    if AlwaysExclusive(s) {
      forall events ensures Tame(s, events) {
        if !Tame(s, events) {
          var bad := UntameCanEndBadly(s, events);
          assert !HoldersExclude(Run(s, bad));
        }
      }
    }
    if AlwaysTame(s) {
      forall events ensures HoldersExclude(Run(s, events)) {
        assert Tame(s, events);
        TameIsExclusive(s, events);
      }
    }
  }

  // ---------------------------------------------------------------- which instances

  /** A store over `spec`, attached, with its database ready and no regions observed. */
  ghost predicate Waiting(s: State, spec: Spec, ops: map<string, Operation>, jobs: map<string, Job>, uids: nat) {
    && WellFormed(s) && s.spec == spec && s.ops == ops && s.jobs == jobs && s.nextOpUid == uids
    && s.attached && !s.deleting && s.regions == [] && ReadyForJobs(s, READY)
  }

  function Sent(spec: Spec, n: string, uid: nat, t: OpType): Operation {
    NewOperation(n, spec.name, t, []).(uid := uid)
  }

  function At(spec: Spec, n: string, uid: nat, t: OpType, phase: Phase): Operation {
    Sent(spec, n, uid, t).(phase := phase, jobRef := Some(n), finalizer := true)
  }

  function Succeeding(spec: Spec): Job {
    NewJob(Sent(spec, "b", 0, Bootstrap)).(succeeded := 1)
  }

  /** The listed Bootstrap keeps the instance pass from creating one. */
  lemma ListedBootstrap(spec: Spec, params: map<string, string>) returns (s: State)
    requires spec.regions != []
    ensures s == Apply(Apply(Fresh(spec, params), CreateOperation("b", spec.name, Bootstrap, [])),
                       InstancePass(true, ["b"]))
    ensures WellFormed(s) && CreatesNothing(s)
    ensures s == Fresh(spec, params).(attached := true, db := s.db, nextUid := s.nextUid, nextOpUid := 1,
                                      ops := map["b" := Sent(spec, "b", 0, Bootstrap)])
    ensures spec.kind.Managed? ==> s.db.Some? && !s.db.value.terminating
  {
    var start := Fresh(spec, params);
    var create, pass := CreateOperation("b", spec.name, Bootstrap, []), InstancePass(true, ["b"]);
    var s1 := Apply(start, create);
    assert s1.ops == map["b" := Sent(spec, "b", 0, Bootstrap)];
    References.StepKeepsWellFormed(start, create);
    References.StepKeepsWellFormed(s1, pass);
    hide Apply;
    FirstPassOver(s1);
    s := Apply(s1, pass);
    assert IsChild(s, "b");
  }

  lemma Attaches(spec: Spec, params: map<string, string>) returns (events: seq<Event>)
    requires spec.regions != []
    ensures var start := Fresh(spec, params);
            && NothingCreated(start, events)
            && Waiting(Run(start, events), spec, map["b" := Sent(spec, "b", 0, Bootstrap)], map[], 1)
  {
    var start := Fresh(spec, params);
    var two := [CreateOperation("b", spec.name, Bootstrap, []), InstancePass(true, ["b"])];
    var s := ListedBootstrap(spec, params);
    References.StepKeepsWellFormed(s, DatabaseApplied);
    var applied := Apply(s, DatabaseApplied);
    hide Apply, CreatesNothing;
    RunPair(start, two[0], two[1]);
    assert two[..2] == two;
    OneInstancePass(start, two, 1);
    if spec.kind.Managed? {
      RunSingle(s, DatabaseApplied);
      RunConcat(start, two, [DatabaseApplied]);
      NothingCreatedLater(start, two, [DatabaseApplied]);
      events := two + [DatabaseApplied];
      assert Run(start, events) == applied;
    } else {
      events := two;
    }
  }

  lemma FirstPassOver(s: State)
    requires s.ops.Keys == {"b"} && s.ops["b"] == Sent(s.spec, "b", 0, Bootstrap)
    requires s.spec.regions != [] && s.regions == [] && s.db.None? && !s.deleting
    ensures var t := Apply(s, InstancePass(true, ["b"]));
            && t == s.(attached := true, api := None, db := t.db, nextUid := t.nextUid)
            && (s.spec.kind.Managed? ==> t.db.Some? && !t.db.value.terminating)
  {
    assert ListedOps(s.ops, ["b"]) == [s.ops["b"]];
    UnfinishedShowsNothing(ForReplay(s.spec, []), s.ops["b"]);
    assert Children(s) == {s.ops["b"]};
  }

  /** The Bootstrap runs and succeeds. */
  lemma BootstrapRuns(s: State, spec: Spec) returns (events: seq<Event>)
    requires Waiting(s, spec, map["b" := Sent(spec, "b", 0, Bootstrap)], map[], 1)
    ensures NoInstancePass(events)
    ensures Waiting(Run(s, events), spec,
                    map["b" := At(spec, "b", 0, Bootstrap, Succeeded)], map["b" := Succeeding(spec)], 1)
  {
    hide Apply;
    var progress := JobProgress("b", Succeeding(spec));
    assert forall m :: IsChild(s, m) ==> m == "b";
    WorkPass(s, "b");
    var s1 := Apply(s, Pass("b"));
    JobReports(s1, "b", Succeeding(spec));
    var s2 := Apply(s1, progress);
    assert forall m :: IsChild(s2, m) ==> m == "b";
    WorkPass(s2, "b");
    RunPair(s, Pass("b"), progress);
    RunSingle(s2, Pass("b"));
    events := [Pass("b"), progress] + [Pass("b")];
    RunConcat(s, [Pass("b"), progress], [Pass("b")]);
  }

  /** An Update is created behind it. */
  lemma UpdateIsCreated(s: State, spec: Spec)
    requires Waiting(s, spec, map["b" := At(spec, "b", 0, Bootstrap, Succeeded)], map["b" := Succeeding(spec)], 1)
    ensures var t := Apply(s, CreateOperation("u", spec.name, Update, []));
            && Waiting(t, spec,
                       map["b" := At(spec, "b", 0, Bootstrap, Succeeded), "u" := Sent(spec, "u", 1, Update)],
                       map["b" := Succeeding(spec)], 2)
            && BootstrapComplete(t)
  {
    var create := CreateOperation("u", spec.name, Update, []);
    References.StepKeepsWellFormed(s, create);
    var t := Apply(s, create);
    assert t.ops == map["b" := At(spec, "b", 0, Bootstrap, Succeeded), "u" := Sent(spec, "u", 1, Update)];
    assert t.ops["b"] in Children(t);
  }

  /** It arms. */
  lemma UpdateArms(s: State, spec: Spec) returns (events: seq<Event>)
    requires Waiting(s, spec, map["b" := At(spec, "b", 0, Bootstrap, Succeeded)], map["b" := Succeeding(spec)], 1)
    requires spec.regions != []
    ensures NoInstancePass(events)
    ensures Waiting(Run(s, events), spec,
                    map["b" := At(spec, "b", 0, Bootstrap, Succeeded), "u" := At(spec, "u", 1, Update, Pending)],
                    map["b" := Succeeding(spec), "u" := NewJob(Sent(spec, "u", 1, Update))], 2)
  {
    hide Apply, BootstrapComplete;
    var create := CreateOperation("u", spec.name, Update, []);
    UpdateIsCreated(s, spec);
    var s1 := Apply(s, create);
    assert forall m :: IsChild(s1, m) ==> m == "b" || m == "u";
    WorkPass(s1, "u");
    RunPair(s, create, Pass("u"));
    events := [create, Pass("u")];
    var t := Apply(s1, Pass("u"));
    assert t.ops == map["b" := At(spec, "b", 0, Bootstrap, Succeeded), "u" := At(spec, "u", 1, Update, Pending)];
    assert t.jobs == map["b" := Succeeding(spec), "u" := NewJob(Sent(spec, "u", 1, Update))];
  }

  /** With the Bootstrap gone the next pass over the Update is a gate failure. */
  lemma GateWouldFail(s: State, spec: Spec) returns (events: seq<Event>)
    requires spec.regions != []
    requires Waiting(s, spec,
                     map["b" := At(spec, "b", 0, Bootstrap, Succeeded), "u" := At(spec, "u", 1, Update, Pending)],
                     map["b" := Succeeding(spec), "u" := NewJob(Sent(spec, "u", 1, Update))], 2)
    ensures NoInstancePass(events) && GateFailsArmed(Run(s, events), Pass("u"))
  {
    hide Apply;
    LetGo(s, "b");
    RunPair(s, DeleteOperation("b"), Pass("b"));
    events := [DeleteOperation("b"), Pass("b")];
    var t := Run(s, events);
    assert t.ops.Keys == {"u"};
    assert forall m :: IsChild(t, m) ==> m == "u";
    ClaimByName(t, t.ops["u"]);
    BootstrapByName(t);
  }

  /** Every instance that wants regions has a run with two holders that exclude each other. */
  lemma RegionsBreakExclusion(spec: Spec, params: map<string, string>) returns (bad: seq<Event>)
    requires spec.regions != []
    ensures NothingCreated(Fresh(spec, params), bad)
    ensures !HoldersExclude(Run(Fresh(spec, params), bad))
  {
    hide Apply, GateFailsArmed, HoldersExclude, NothingCreated, Waiting, Tame, Inv;
    var start := Fresh(spec, params);
    var e1 := Attaches(spec, params);
    var e2 := BootstrapRuns(Run(start, e1), spec);
    RunConcat(start, e1, e2);
    NothingCreatedLater(start, e1, e2);
    var e3 := UpdateArms(Run(start, e1 + e2), spec);
    RunConcat(start, e1 + e2, e3);
    NothingCreatedLater(start, e1 + e2, e3);
    var e4 := GateWouldFail(Run(start, e1 + e2 + e3), spec);
    RunConcat(start, e1 + e2 + e3, e4);
    NothingCreatedLater(start, e1 + e2 + e3, e4);
    var events := e1 + e2 + e3 + e4;
    NothingCreatedLater(start, events, [Pass("u")]);
    FailureIsNotTame(start, events, Pass("u"));
    FreshInv(spec, params);
    bad := UntameCanEndBadly(start, events + [Pass("u")]);
  }

  lemma FailureIsNotTame(start: State, events: seq<Event>, e: Event)
    requires GateFailsArmed(Run(start, events), e)
    ensures !Tame(start, events + [e])
  {
    hide Run, GateFailsArmed;
    assert (events + [e])[..|events + [e]| - 1] == events;
  }

  /** The write plane of an instance stays exclusive in every run exactly when its spec names
      no regions. */
  lemma ExclusiveIffNoRegions(spec: Spec, params: map<string, string>)
    ensures AlwaysExclusive(Fresh(spec, params)) <==> spec.regions == []
  {
    hide HoldersExclude, Tame;
    FreshInv(spec, params);
    if spec.regions == [] {
      forall events ensures Tame(Fresh(spec, params), events) {
        Tameness.SteadyIsTame(spec, params, {}, events);
      }
      ExclusiveIffTame(Fresh(spec, params));
    } else {
      var bad := RegionsBreakExclusion(spec, params);
      assert !HoldersExclude(Run(Fresh(spec, params), bad));
    }
  }
}
