/** Building runs event by event: what single events do to stores whose policies do not
    interfere. */
module Passes {
  import opened Names
  import opened Operations
  import opened WritePlane
  import opened Store
  import opened Lifecycle
  import References
  import Exclusion
  import Regions

  const READY := Observed(true, true, true, Continue)

  lemma RunPrefix(start: State, events: seq<Event>, k: nat)
    requires k < |events|
    ensures Run(start, events[..k + 1]) == Apply(Run(start, events[..k]), events[k])
  {
    assert events[..k + 1][..k] == events[..k];
  }

  lemma RunTwo(start: State, events: seq<Event>, k: nat)
    requires k + 1 < |events|
    ensures Run(start, events[..k + 2]) == Apply(Apply(Run(start, events[..k]), events[k]), events[k + 1])
  {
    hide Apply;
    RunPrefix(start, events, k);
    RunPrefix(start, events, k + 1);
  }

  lemma RunThree(start: State, events: seq<Event>, k: nat)
    requires k + 2 < |events|
    ensures Run(start, events[..k + 3]) ==
            Apply(Apply(Apply(Run(start, events[..k]), events[k]), events[k + 1]), events[k + 2])
  {
    hide Apply;
    RunTwo(start, events, k);
    RunPrefix(start, events, k + 2);
  }

  lemma RunFour(start: State, events: seq<Event>, k: nat)
    requires k + 3 < |events|
    ensures Run(start, events[..k + 4]) ==
            Apply(Apply(Apply(Apply(Run(start, events[..k]), events[k]), events[k + 1]), events[k + 2]), events[k + 3])
  {
    hide Apply;
    RunTwo(start, events, k);
    RunTwo(start, events, k + 2);
  }

  lemma RunOne(start: State, events: seq<Event>)
    requires events != []
    ensures Run(start, events[..1]) == Apply(start, events[0])
  {
    hide Apply;
    RunPrefix(start, events, 0);
  }

  /** After an instance pass that creates no Operation of its own: a Bootstrap is listed or
      none is wanted, and without observed regions neither drift nor schedule asks for one. */
  ghost predicate CreatesNothing(s: State) {
    s.regions == [] && (s.spec.regions == [] || exists n :: IsChild(s, n) && s.ops[n].opType.Bootstrap?)
  }

  /** No instance pass of the run would create an Operation that the run leaves out. */
  ghost predicate NothingCreated(start: State, events: seq<Event>) {
    forall k :: 0 <= k < |events| && events[k].InstancePass? ==> CreatesNothing(Run(start, events[..k + 1]))
  }

  ghost predicate NoInstancePass(events: seq<Event>) {
    forall k :: 0 <= k < |events| ==> !events[k].InstancePass?
  }

  lemma NothingCreatedLater(start: State, a: seq<Event>, b: seq<Event>)
    requires NothingCreated(start, a) && NoInstancePass(b)
    ensures NothingCreated(start, a + b)
  {
    hide Run;
    forall k | 0 <= k < |a + b| && (a + b)[k].InstancePass? ensures CreatesNothing(Run(start, (a + b)[..k + 1])) {
      assert (a + b)[..k + 1] == a[..k + 1];
    }
  }

  /** A run whose only instance pass comes first or second. */
  lemma OneInstancePass(start: State, events: seq<Event>, k: nat)
    requires k < |events| && NoInstancePass(events[..k]) && NoInstancePass(events[k + 1..])
    requires CreatesNothing(Run(start, events[..k + 1]))
    ensures NothingCreated(start, events)
  {
    hide Run, CreatesNothing;
    assert forall j :: 0 <= j < k ==> events[..k][j] == events[j];
    assert forall j :: k < j < |events| ==> events[k + 1..][j - k - 1] == events[j];
  }

  /** A Bootstrap that has not succeeded yields no regions. */
  lemma UnfinishedShowsNothing(nom: Regions.Instance, op: Operation)
    requires nom.regions == [] && !op.phase.Succeeded?
    ensures Regions.Replay(nom, [op]).regions == []
  {
    assert [op][1..] == [] && [op][..0] == [];
    assert Regions.FirstBootstrap(nom, [op]) == Regions.FirstBootstrap(nom, []) == [];
    assert Regions.ObserveAll(nom, [op]) == Regions.Observe(Regions.ObserveAll(nom, []), op) == nom;
  }

  function Made(n: string, uid: nat, t: OpType): Operation {
    NewOperation(n, "city", t, []).(uid := uid)
  }

  function Armed(n: string, uid: nat, t: OpType): Operation {
    Made(n, uid, t).(phase := Pending, jobRef := Some(n), finalizer := true)
  }

  /** Backups are never paused, and the instance is attached and stays. */
  predicate Plain(s: State) {
    s.spec.name == "city" && s.spec.pauseImpact.Never? && s.attached && !s.deleting
  }

  function WithFinalizer(s: State, n: string): State
    requires n in s.ops
  {
    WithOp(s, n, s.ops[n].(finalizer := true))
  }

  ghost predicate Unopposed(s: State, n: string)
    requires n in s.ops
  {
    !MeetsHolder(s, s.ops[n]) && !IsOutranked(s, s.ops[n])
  }

  lemma UnopposedIsOk(s: State, n: string)
    requires WellFormed(s) && n in s.ops && Unopposed(s, n)
    ensures var s0 := WithFinalizer(s, n);
            Decide(s0.ops[n], Children(s0)).Ok? && WellFormed(s0)
  {
    ClaimByName(s, s.ops[n]);
    OwnWritesDoNotMatter(s, n, WithFinalizer(s, n));
  }

  lemma CreatePass(s: State, n: string, t: OpType)
    requires WellFormed(s) && n != "" && n !in s.ops
    ensures var u := Apply(s, CreateOperation(n, "city", t, []));
            && WellFormed(u)
            && u == s.(ops := s.ops[n := Made(n, s.nextOpUid, t)], nextOpUid := s.nextOpUid + 1)
  {
    References.StepKeepsWellFormed(s, CreateOperation(n, "city", t, []));
  }

  function Synced(s: State, n: string): State
    requires n in s.ops
  {
    var job := if n in s.jobs then s.jobs[n] else NewJob(s.ops[n]);
    s.(ops := s.ops[n := s.ops[n].(phase := PhaseFromJob(job), jobRef := Some(n), finalizer := true)],
       jobs := s.jobs[n := job])
  }

  lemma ClearClaimed(s: State, n: string)
    requires Plain(s) && n in s.ops && s.ops[n].finalizer && !s.ops[n].opType.Rebuild?
    requires !GateCloses(s, s.ops[n]) && ReadyForJobs(s, READY)
    ensures ClaimedPass(s, n, READY) == Synced(s, n).(refs := ClaimedPass(s, n, READY).refs)
  {
    hide Children, GateCloses;
    assert Prerequisites(PreJobEffects(s, n), n, READY) == (s, true);
    var s1 := SyncStatusFromJob(EnsureJob(s, n), n);
    assert AfterJob(s1, n, READY) == SyncSideEffects(s1, n);
    assert s1.jobs == Synced(s, n).jobs && s1.ops == Synced(s, n).ops;
  }

  lemma PassIsActivePass(s: State, n: string)
    requires n in s.ops && IsActive(s.ops[n].phase) && !s.ops[n].deleting
    ensures Apply(s, OperationPass(n, READY)) == ActivePass(WithFinalizer(s, n), n, READY)
  {
    hide ActivePass;
  }

  lemma ClaimWritesRefs(s: State, n: string)
    requires n in s.ops
    ensures SyncRef(s, n, true) == s.(refs := SyncRef(s, n, true).refs)
  {
  }

  function Claimed(s: State, n: string): (t: State)
    requires n in s.ops
    ensures n in t.ops
  {
    SyncRef(WithFinalizer(s, n), n, true)
  }

  /** A pass that nobody stands against goes on behind the claim. */
  lemma ClaimSucceeds(s: State, n: string)
    requires WellFormed(s) && n in s.ops && IsActive(s.ops[n].phase) && !s.ops[n].deleting
    requires !Refused(s, s.ops[n]) && Unopposed(s, n)
    ensures Apply(s, OperationPass(n, READY)) == ClaimedPass(Claimed(s, n), n, READY)
    ensures Claimed(s, n) == WithFinalizer(s, n).(refs := Claimed(s, n).refs)
    ensures GateCloses(Claimed(s, n), Claimed(s, n).ops[n]) <==> GateCloses(s, s.ops[n])
  {
    hide Children, Decide, GateCloses, ActivePass, ClaimedPass, SyncRef, Apply, IsOutranked, MeetsHolder;
    var s0 := WithFinalizer(s, n);
    PassIsActivePass(s, n);
    UnopposedIsOk(s, n);
    ActivePassCases(s0, n, READY);
    ClaimWritesRefs(s0, n);
    OwnWritesDoNotMatter(s, n, Claimed(s, n));
  }

  /** A pass that meets no obstacle: the Job exists afterwards and the phase is read off it. */
  lemma ClearPass(s: State, n: string)
    requires WellFormed(s) && Plain(s) && n in s.ops && IsActive(s.ops[n].phase) && !s.ops[n].deleting
    requires !Refused(s, s.ops[n]) && !s.ops[n].opType.Rebuild? && Unopposed(s, n)
    requires !GateCloses(s, s.ops[n]) && ReadyForJobs(s, READY)
    ensures var u := Apply(s, OperationPass(n, READY));
            WellFormed(u) && u == Synced(s, n).(refs := u.refs)
  {
    hide Children, GateCloses, ClaimedPass, SyncRef, Apply, Unopposed, Claimed, WellFormed;
    References.StepKeepsWellFormed(s, OperationPass(n, READY));
    ClaimSucceeds(s, n);
    ClearClaimed(Claimed(s, n), n);
    assert Synced(Claimed(s, n), n).ops == Synced(s, n).ops;
  }

  /** The region gate fails an Operation, armed or not. */
  lemma GatedPass(s: State, n: string)
    requires WellFormed(s) && Plain(s) && n in s.ops && IsActive(s.ops[n].phase) && !s.ops[n].deleting
    requires !Refused(s, s.ops[n]) && Unopposed(s, n) && GateCloses(s, s.ops[n])
    ensures var u := Apply(s, OperationPass(n, READY));
            && WellFormed(u)
            && u == s.(ops := s.ops[n := s.ops[n].(phase := Failed, finalizer := true)], refs := u.refs)
  {
    References.StepKeepsWellFormed(s, OperationPass(n, READY));
    hide Children, GateCloses, SyncRef, Apply, Unopposed, Claimed, TerminalEffects;
    ClaimSucceeds(s, n);
    var s1 := Claimed(s, n);
    FailShape(s1, n);
    assert FailOperation(s1, n).ops == s.ops[n := s.ops[n].(phase := Failed, finalizer := true)];
  }

  /** A holder fails an Operation that has not armed. */
  lemma ConflictPass(s: State, n: string)
    requires WellFormed(s) && Plain(s) && n in s.ops && IsActive(s.ops[n].phase) && !s.ops[n].deleting
    requires MeetsHolder(s, s.ops[n])
    ensures var u := Apply(s, OperationPass(n, READY));
            && WellFormed(u)
            && u == s.(ops := s.ops[n := s.ops[n].(phase := Failed, finalizer := true)], refs := u.refs)
  {
    References.StepKeepsWellFormed(s, OperationPass(n, READY));
    hide Children, Decide, ClaimedPass, ActivePass;
    var s0 := WithFinalizer(s, n);
    OwnWritesDoNotMatter(s, n, s0);
    ClaimByName(s, s.ops[n]);
    ActivePassCases(s0, n, READY);
    FailShape(s0, n);
    hide TerminalEffects, RemoveRef;
    assert FailOperation(s0, n).ops == s.ops[n := s.ops[n].(phase := Failed, finalizer := true)];
  }

  /** A pass over a terminal Operation reads its Job again. */
  lemma RereadPass(s: State, n: string)
    requires WellFormed(s) && Plain(s) && n in s.ops && IsTerminal(s.ops[n].phase) && !s.ops[n].deleting
    requires s.ops[n].jobRef == Some(n) && n in s.jobs
    ensures var u := Apply(s, OperationPass(n, READY));
            && WellFormed(u)
            && u == s.(ops := s.ops[n := s.ops[n].(phase := PhaseFromJob(s.jobs[n]), finalizer := true)],
                  refs := u.refs)
  {
    References.StepKeepsWellFormed(s, OperationPass(n, READY));
    assert WellFormedOp(s, n);
    assert SyncStatusFromJob(WithFinalizer(s, n), n).ops ==
           s.ops[n := s.ops[n].(phase := PhaseFromJob(s.jobs[n]), finalizer := true)];
  }

  /** A delete request and the pass that lets the Operation go; its Job stays. */
  lemma DeleteAndPass(s: State, n: string)
    requires WellFormed(s) && Plain(s) && n in s.ops && s.ops[n].finalizer
    ensures var u := Apply(Apply(s, DeleteOperation(n)), OperationPass(n, READY));
            && WellFormed(Apply(s, DeleteOperation(n))) && WellFormed(u)
            && u == s.(ops := s.ops - {n}, refs := u.refs)
  {
    var s1 := Apply(s, DeleteOperation(n));
    References.StepKeepsWellFormed(s, DeleteOperation(n));
    References.StepKeepsWellFormed(s1, OperationPass(n, READY));
    assert s1.ops - {n} == s.ops - {n};
  }

  lemma JobReports(s: State, n: string, job: Job)
    requires WellFormed(s) && n in s.jobs && JobMayBecome(s.jobs[n], job)
    ensures var u := Apply(s, JobProgress(n, job)); WellFormed(u) && u == s.(jobs := s.jobs[n := job])
  {
    References.StepKeepsWellFormed(s, JobProgress(n, job));
  }
}
