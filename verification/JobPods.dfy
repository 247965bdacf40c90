/** Jobs against the Operations they were created for: adoption of a Job left under a used
    name, and Job pods that run at the same time. */
module JobPods {
  import opened Operations
  import opened WritePlane
  import opened Store
  import opened Lifecycle
  import opened Exclusion
  import References

  /** The Operation that the Job `n` was created for is stored. */
  ghost predicate Owned(s: State, n: string) {
    n in s.jobs && n in s.ops && s.jobs[n].owner.uid == s.ops[n].uid
  }

  /** UIDs are given once, and an owned Job is referenced by its owner and built for it. */
  ghost predicate OwnersSound(s: State) {
    && (forall n :: n in s.ops ==> s.ops[n].uid < s.nextOpUid)
    && (forall n :: n in s.jobs ==> s.jobs[n].owner.uid < s.nextOpUid)
    && (forall n :: Owned(s, n) ==> s.ops[n].jobRef.Some? && s.jobs[n].owner == OwnerOf(s.ops[n]))
  }

  lemma StepKeepsOwners(s: State, e: Event)
    requires WellFormed(s) && OwnersSound(s)
    ensures OwnersSound(Apply(s, e))
  {
    hide ReconcileOperation, ReconcileInstance;
    if e.OperationPass? {
      if e.name in s.ops { PassKeepsOwners(s, e.name, e.obs); } else { PassOverNothing(s, e.name, e.obs); }
    } else if !e.CreateOperation? {
      EnvironmentKeepsOwners(s, e);
    }
  }

  lemma PassKeepsOwners(s: State, n: string, obs: Observed)
    requires WellFormed(s) && OwnersSound(s) && n in s.ops
    ensures OwnersSound(ReconcileOperation(s, n, obs))
  {
    hide ReconcileOperation;
    ReconcileOutcome(s, n, obs);
    var t := ReconcileOperation(s, n, obs);
    forall m | Owned(t, m) ensures t.ops[m].jobRef.Some? && t.jobs[m].owner == OwnerOf(t.ops[m]) {
      assert m in s.jobs ==> Owned(s, m);
    }
  }

  lemma EnvironmentKeepsOwners(s: State, e: Event)
    requires OwnersSound(s) && !e.OperationPass? && !e.CreateOperation?
    ensures OwnersSound(Apply(s, e))
  {
    hide Apply;
    EnvironmentShape(s, e);
    forall m | Owned(Apply(s, e), m) ensures Owned(s, m) {}
  }

  lemma {:induction false} OwnersHold(spec: Spec, params: map<string, string>, events: seq<Event>)
    ensures OwnersSound(Run(Fresh(spec, params), events))
  {
    hide Apply;
    if events != [] {
      OwnersHold(spec, params, events[..|events| - 1]);
      References.RefsHold(spec, params, events[..|events| - 1]);
      StepKeepsOwners(Run(Fresh(spec, params), events[..|events| - 1]), events[|events| - 1]);
    }
  }

  // ---------------------------------------------------------------- adoption

  ghost predicate OwnJobs(s: State) {
    forall n :: n in s.ops && n in s.jobs ==> Owned(s, n)
  }

  /** An Operation is created under a name whose Job is still there. */
  ghost predicate Adopts(s: State, e: Event) {
    e.CreateOperation? && e.name != "" && e.name !in s.ops && e.name in s.jobs
  }

  lemma PassKeepsOwnJobs(s: State, n: string, obs: Observed)
    requires WellFormed(s) && OwnJobs(s) && n in s.ops
    ensures OwnJobs(ReconcileOperation(s, n, obs))
  {
    hide ReconcileOperation;
    ReconcileOutcome(s, n, obs);
  }

  /** Every event leaves each Operation with its own Job or none, exactly when it does not
      create an Operation under the name of a Job that is still there. */
  lemma StepKeepsOwnJobsIff(s: State, e: Event)
    requires WellFormed(s) && OwnersSound(s) && OwnJobs(s)
    ensures OwnJobs(Apply(s, e)) <==> !Adopts(s, e)
  {
    hide ReconcileOperation, ReconcileInstance;
    if e.OperationPass? {
      if e.name in s.ops { PassKeepsOwnJobs(s, e.name, e.obs); } else { PassOverNothing(s, e.name, e.obs); }
    } else if e.CreateOperation? {
      if Adopts(s, e) { assert !Owned(Apply(s, e), e.name); }
    } else {
      EnvironmentShape(s, e);
    }
  }

  ghost predicate NeverAdopts(s: State, events: seq<Event>) {
    events == [] ||
    (var before := events[..|events| - 1];
     NeverAdopts(s, before) && !Adopts(Run(s, before), events[|events| - 1]))
  }

  ghost predicate OwnJobsThroughout(s: State, events: seq<Event>) {
    OwnJobs(Run(s, events)) && (events != [] ==> OwnJobsThroughout(s, events[..|events| - 1]))
  }

  lemma {:induction false} OwnJobsIffNeverAdopts(spec: Spec, params: map<string, string>, events: seq<Event>)
    ensures OwnJobsThroughout(Fresh(spec, params), events) <==> NeverAdopts(Fresh(spec, params), events)
  {
    hide Apply;
    if events != [] {
      var before := events[..|events| - 1];
      OwnJobsIffNeverAdopts(spec, params, before);
      References.RefsHold(spec, params, before);
      OwnersHold(spec, params, before);
      if NeverAdopts(Fresh(spec, params), before) {
        StepKeepsOwnJobsIff(Run(Fresh(spec, params), before), events[|events| - 1]);
      }
    }
  }

  /** A pass that makes an Operation Succeeded has read a success off a stored Job, or has
      ended a BlueGreen swap. In a run that never adopts, the Job is the Operation's own. */
  lemma SuccessIsItsOwn(spec: Spec, params: map<string, string>, events: seq<Event>, n: string, obs: Observed)
    requires NeverAdopts(Fresh(spec, params), events)
    requires var s := Run(Fresh(spec, params), events);
             var t := ReconcileOperation(s, n, obs);
             && n in s.ops && !s.ops[n].phase.Succeeded?
             && n in t.ops && t.ops[n].phase.Succeeded?
             && !(s.ops[n].opType.Rebuild? && spec.blueGreen)
    ensures var t := ReconcileOperation(Run(Fresh(spec, params), events), n, obs);
            n in t.jobs && t.jobs[n].succeeded > 0 && t.jobs[n].owner == OwnerOf(t.ops[n])
  {
    hide ReconcileOperation;
    var s := Run(Fresh(spec, params), events);
    References.RefsHold(spec, params, events);
    References.SpecIsFixed(spec, params, events);
    OwnersHold(spec, params, events);
    OwnJobsIffNeverAdopts(spec, params, events);
    ReconcileOutcome(s, n, obs);
    PassKeepsOwners(s, n, obs);
    PassKeepsOwnJobs(s, n, obs);
    assert Owned(ReconcileOperation(s, n, obs), n);
  }

  // ---------------------------------------------------------------- running pods

  ghost predicate PodsRun(s: State, n: string) {
    n in s.jobs && s.jobs[n].active > 0
  }

  /** The two Jobs were created for Operations that exclude each other. */
  ghost predicate JobsExclude(s: State, a: string, b: string) {
    && a != b && a in s.jobs && b in s.jobs
    && s.jobs[a].owner.parent == s.jobs[b].owner.parent
    && (IsWriteHeavy(s.jobs[a].owner.opType) || IsWriteHeavy(s.jobs[b].owner.opType))
  }

  /** The Job has outlived the Operation it was created for. */
  ghost predicate Orphaned(s: State, n: string) {
    n in s.jobs && !Owned(s, n)
  }

  /** The Job has reported a result and still has a running pod. */
  ghost predicate Retrying(s: State, n: string) {
    PodsRun(s, n) && JobFinished(s.jobs[n])
  }

  /** In a tame run pods of two Jobs that exclude each other run at the same time only if one
      of the Jobs is retrying after a result it has already reported, or was left behind by
      the deletion of its Operation. */
  lemma OverlapHasCause(spec: Spec, params: map<string, string>, events: seq<Event>, a: string, b: string)
    requires Tame(Fresh(spec, params), events)
    requires var s := Run(Fresh(spec, params), events);
             PodsRun(s, a) && PodsRun(s, b) && JobsExclude(s, a, b)
    ensures var s := Run(Fresh(spec, params), events);
            Retrying(s, a) || Retrying(s, b) || Orphaned(s, a) || Orphaned(s, b)
  {
    var s := Run(Fresh(spec, params), events);
    FreshInv(spec, params);
    InvThroughoutIffTame(Fresh(spec, params), events);
    OwnersHold(spec, params, events);
    if Owned(s, a) && Owned(s, b) && !JobFinished(s.jobs[a]) && !JobFinished(s.jobs[b]) {
      assert WellFormedOp(s, a) && WellFormedOp(s, b);
      assert Engaged(s, a) && Engaged(s, b) && Conflict(s.ops[a], s.ops[b]);
      assert false;
    }
  }

  /** A Job is left behind exactly by the pass that lets its Operation go: it removes the
      finalizer without a look at the Job, finished or not. */
  lemma OrphansIff(s: State, e: Event, n: string)
    requires WellFormed(s) && OwnersSound(s) && Owned(s, n)
    ensures Orphaned(Apply(s, e), n) <==> e.OperationPass? && e.name == n && s.ops[n].deleting
  {
    hide ReconcileOperation, ReconcileInstance;
    assert WellFormedOp(s, n);
    if e.OperationPass? {
      if e.name in s.ops {
        ReconcileOutcome(s, e.name, e.obs);
        if s.ops[n].deleting && e.name == n { LetsGo(s, n, e.obs); }
      } else {
        PassOverNothing(s, e.name, e.obs);
      }
    } else if !e.CreateOperation? {
      EnvironmentShape(s, e);
    }
  }

  lemma LetsGo(s: State, n: string, obs: Observed)
    requires n in s.ops && s.ops[n].deleting && s.ops[n].finalizer
    ensures n !in ReconcileOperation(s, n, obs).ops && ReconcileOperation(s, n, obs).jobs == s.jobs
  {
    hide TerminalEffects, RemoveRef;
    TerminalShape(SyncRef(s, n, false), n);
  }

  // ---------------------------------------------------------------- orderly runs

  /** Pods run only for Jobs without a result whose Operation is stored. */
  ghost predicate PodsOrderly(s: State) {
    forall n :: PodsRun(s, n) ==> Owned(s, n) && !JobFinished(s.jobs[n])
  }

  /** A Job with a result, or without its Operation, reports a running pod; or an Operation
      whose Job has a running pod is let go. */
  ghost predicate Disorders(s: State, e: Event) {
    || (&& e.JobProgress? && e.name in s.jobs && JobMayBecome(s.jobs[e.name], e.job)
        && e.job.active > 0 && (JobFinished(e.job) || !Owned(s, e.name)))
    || (e.OperationPass? && PodsRun(s, e.name) && e.name in s.ops && s.ops[e.name].deleting)
  }

  lemma StepKeepsPodsOrderlyIff(s: State, e: Event)
    requires WellFormed(s) && OwnersSound(s) && PodsOrderly(s)
    ensures PodsOrderly(Apply(s, e)) <==> !Disorders(s, e)
  {
    hide ReconcileOperation, ReconcileInstance;
    match e
    case OperationPass(n, obs) =>
      if n in s.ops { PassKeepsPodsOrderlyIff(s, n, obs); } else { PassOverNothing(s, n, obs); }
    case CreateOperation(n, parent, opType, regions) =>
      forall m | PodsRun(Apply(s, e), m) ensures Owned(Apply(s, e), m) { assert PodsRun(s, m); }
    case JobProgress(n, job) =>
      ProgressKeepsPodsOrderlyIff(s, n, job);
    case _ =>
      EnvironmentShape(s, e);
      StepKeepsOwners(s, e);
      OthersKeepPodsOrderly(s, e);
  }

  lemma PassKeepsPodsOrderlyIff(s: State, n: string, obs: Observed)
    requires WellFormed(s) && OwnersSound(s) && PodsOrderly(s) && n in s.ops
    ensures PodsOrderly(ReconcileOperation(s, n, obs)) <==> !Disorders(s, OperationPass(n, obs))
  {
    hide ReconcileOperation;
    ReconcileOutcome(s, n, obs);
    var t := ReconcileOperation(s, n, obs);
    assert WellFormedOp(s, n);
    if s.ops[n].deleting && PodsRun(s, n) {
      LetsGo(s, n, obs);
      assert PodsRun(t, n) && !Owned(t, n);
    }
    assert forall m :: PodsRun(t, m) ==> PodsRun(s, m);
  }

  lemma ProgressKeepsPodsOrderlyIff(s: State, n: string, job: Job)
    requires PodsOrderly(s)
    ensures PodsOrderly(Apply(s, JobProgress(n, job))) <==> !Disorders(s, JobProgress(n, job))
  {
    var t := Apply(s, JobProgress(n, job));
    assert forall m :: Owned(t, m) <==> Owned(s, m);
    assert forall m :: m != n ==> (PodsRun(t, m) <==> PodsRun(s, m));
    if Disorders(s, JobProgress(n, job)) { assert PodsRun(t, n); }
  }

  /** Operations with a Job carry their finalizer, so nothing else removes them. */
  lemma OthersKeepPodsOrderly(s: State, e: Event)
    requires WellFormed(s) && OwnersSound(s) && PodsOrderly(s)
    requires !e.OperationPass? && !e.CreateOperation? && !e.JobProgress?
    ensures PodsOrderly(Apply(s, e))
  {
    hide ReconcileInstance;
    EnvironmentShape(s, e);
    if e.InstancePass? { InstanceShape(s, e.databaseFound, e.listing); }
    var t := Apply(s, e);
    assert forall m :: m in t.jobs ==> m in s.jobs && t.jobs[m] == s.jobs[m];
    forall m | PodsRun(t, m) ensures Owned(t, m) {
      assert PodsRun(s, m) && WellFormedOp(s, m);
    }
  }

  ghost predicate NeverDisorders(s: State, events: seq<Event>) {
    events == [] ||
    (var before := events[..|events| - 1];
     NeverDisorders(s, before) && !Disorders(Run(s, before), events[|events| - 1]))
  }

  ghost predicate PodsOrderlyThroughout(s: State, events: seq<Event>) {
    PodsOrderly(Run(s, events)) && (events != [] ==> PodsOrderlyThroughout(s, events[..|events| - 1]))
  }

  lemma {:induction false} PodsOrderlyIff(spec: Spec, params: map<string, string>, events: seq<Event>)
    ensures PodsOrderlyThroughout(Fresh(spec, params), events) <==> NeverDisorders(Fresh(spec, params), events)
  {
    hide Apply;
    if events != [] {
      var before := events[..|events| - 1];
      PodsOrderlyIff(spec, params, before);
      References.RefsHold(spec, params, before);
      OwnersHold(spec, params, before);
      if NeverDisorders(Fresh(spec, params), before) {
        StepKeepsPodsOrderlyIff(Run(Fresh(spec, params), before), events[|events| - 1]);
      }
    }
  }

  /** In a tame run in which no Job runs a pod after its result or without its Operation,
      pods of Jobs that exclude each other never run at the same time. */
  lemma OrderlyPodsExclude(spec: Spec, params: map<string, string>, events: seq<Event>, a: string, b: string)
    requires Tame(Fresh(spec, params), events) && NeverDisorders(Fresh(spec, params), events)
    requires JobsExclude(Run(Fresh(spec, params), events), a, b)
    ensures var s := Run(Fresh(spec, params), events); !(PodsRun(s, a) && PodsRun(s, b))
  {
    var s := Run(Fresh(spec, params), events);
    PodsOrderlyIff(spec, params, events);
    assert PodsOrderly(s);
    if PodsRun(s, a) && PodsRun(s, b) {
      OverlapHasCause(spec, params, events, a, b);
      assert false;
    }
  }
}
