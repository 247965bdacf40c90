/** Mutual exclusion on the write plane, over whole runs. */
module Exclusion {
  import opened Operations
  import opened WritePlane
  import opened Store
  import opened Lifecycle

  ghost predicate Unfinished(s: State, n: string) {
    n in s.jobs && !JobFinished(s.jobs[n])
  }

  /** `n` holds the write plane, or would hold it again as soon as a pass reads its Job. */
  ghost predicate Engaged(s: State, n: string) {
    n in s.ops && s.ops[n].jobRef.Some? && (IsActive(s.ops[n].phase) || Unfinished(s, n))
  }

  ghost predicate Exclusive(s: State) {
    forall a, b :: Engaged(s, a) && Engaged(s, b) ==> !Conflict(s.ops[a], s.ops[b])
  }

  /** Until the instance is deleted, an Operation whose Job can still run looks active to
      its peers. */
  ghost predicate Visible(s: State) {
    !s.deleting ==> forall n :: n in s.ops && s.ops[n].jobRef.Some? && Unfinished(s, n) ==> IsActive(s.ops[n].phase)
  }

  ghost predicate Inv(s: State) {
    WellFormed(s) && Exclusive(s) && Visible(s)
  }

  /** The branch of a pass that breaks the protocol: the region gate fails an Operation
      whose Job is armed and unfinished. */
  ghost predicate GateFailsArmed(s: State, e: Event) {
    && e.OperationPass? && e.name in s.ops
    && var op := s.ops[e.name];
       && !s.deleting && !op.deleting && IsActive(op.phase)
       && op.jobRef.Some? && Unfinished(s, e.name)
       && Decide(op, Children(s)).Ok? && GateCloses(s, op)
  }

  lemma HoldersAreEngaged(s: State, n: string)
    requires WellFormed(s) && n in s.ops && HoldsWritePlane(s.ops[n])
    ensures Engaged(s, n)
  {
    assert WellFormedOp(s, n);
  }

  /** Under the invariant an engaged Operation is seen as a holder by its rivals. */
  lemma EngagedIsSeen(s: State, m: string, op: Operation)
    requires Inv(s) && !s.deleting && Engaged(s, m) && Conflict(op, s.ops[m])
    requires op.parent == s.spec.name
    ensures Decide(op, Children(s)).Hold?
  {
    assert WellFormedOp(s, m);
    assert IsChild(s, m) && Rival(op, s.ops[m]) && HoldsWritePlane(s.ops[m]);
    ClaimByName(s, op);
  }

  /** An engaged Operation never meets a holder, so it is never failed for a conflict. */
  lemma EngagedMeetsNoHolder(s: State, n: string)
    requires WellFormed(s) && Exclusive(s) && Engaged(s, n)
    ensures !MeetsHolder(s, s.ops[n])
  {
    forall k | IsChild(s, k) && HoldsWritePlane(s.ops[k]) ensures !Rival(s.ops[n], s.ops[k]) {
      HoldersAreEngaged(s, k);
    }
  }

  /** Nothing but a pass that arms makes an Operation engaged. */
  lemma PassEngages(s: State, n: string, obs: Observed, m: string)
    requires Inv(s) && n in s.ops && Engaged(ReconcileOperation(s, n, obs), m)
    ensures m in s.ops && SameIdentity(s.ops[m], ReconcileOperation(s, n, obs).ops[m])
    ensures Engaged(s, m) || (m == n && MayArm(s, s.ops[n]))
  {
    ReconcileOutcome(s, n, obs);
    assert WellFormedOp(s, n);
  }

  lemma PassKeepsExclusive(s: State, n: string, obs: Observed)
    requires Inv(s) && n in s.ops
    ensures Exclusive(ReconcileOperation(s, n, obs))
  {
    var t := ReconcileOperation(s, n, obs);
    forall a, b | Engaged(t, a) && Engaged(t, b) ensures !Conflict(t.ops[a], t.ops[b]) {
      PassEngages(s, n, obs, a);
      PassEngages(s, n, obs, b);
      assert WellFormedOp(s, a) && WellFormedOp(s, b);
      if Conflict(s.ops[a], s.ops[b]) && a == n && MayArm(s, s.ops[n]) && Engaged(s, b) {
        EngagedIsSeen(s, b, s.ops[n]);
      }
      if Conflict(s.ops[a], s.ops[b]) && b == n && MayArm(s, s.ops[n]) && Engaged(s, a) {
        EngagedIsSeen(s, a, s.ops[n]);
      }
    }
  }

  lemma PassKeepsWellFormed(s: State, n: string, obs: Observed)
    requires WellFormed(s) && n in s.ops
    ensures WellFormed(ReconcileOperation(s, n, obs))
  {
    var t := ReconcileOperation(s, n, obs);
    ReconcileOutcome(s, n, obs);
    forall m | m in t.ops ensures WellFormedOp(t, m) {
      assert WellFormedOp(s, m);
    }
  }

  /** A pass keeps unfinished Jobs visible exactly when it does not take the bad branch. */
  lemma PassKeepsVisibleIff(s: State, n: string, obs: Observed)
    requires Inv(s) && n in s.ops
    ensures Visible(ReconcileOperation(s, n, obs)) <==> !GateFailsArmed(s, OperationPass(n, obs))
  {
    hide ReconcileOperation, Children, Decide, GateCloses;
    var t := ReconcileOperation(s, n, obs);
    ReconcileOutcome(s, n, obs);
    assert WellFormedOp(s, n);
    if GateFailsArmed(s, OperationPass(n, obs)) {
      GateFailureHides(s, n, obs);
    } else {
      if Engaged(s, n) { EngagedMeetsNoHolder(s, n); }
      assert forall m :: m in t.ops && m != n ==> t.ops[m] == s.ops[m];
    }
  }

  /** A terminal phase is absorbing until the instance is deleted: a pass over a terminal
      Operation reads its Job again, but finds it finished. */
  lemma TerminalIsAbsorbing(s: State, n: string, obs: Observed)
    requires Inv(s) && !s.deleting && n in s.ops && IsTerminal(s.ops[n].phase)
    requires n in ReconcileOperation(s, n, obs).ops
    ensures IsTerminal(ReconcileOperation(s, n, obs).ops[n].phase)
  {
    hide ReconcileOperation;
    ReconcileOutcome(s, n, obs);
  }

  /** In the bad branch the Operation ends up Failed with its Job still able to run. */
  lemma GateFailureHides(s: State, n: string, obs: Observed)
    requires Inv(s) && GateFailsArmed(s, OperationPass(n, obs))
    ensures var t := ReconcileOperation(s, n, obs);
            n in t.ops && t.ops[n].phase.Failed? && t.ops[n].jobRef.Some? && Unfinished(t, n) && !t.deleting
  {
    assert WellFormedOp(s, n);
    var s0 := WithOp(s, n, s.ops[n].(finalizer := true));
    OwnWritesDoNotMatter(s, n, s0);
    ActivePassCases(s0, n, obs);
    var s1 := SyncRef(s0, n, true);
    OwnWritesDoNotMatter(s, n, s1);
    FailShape(s1, n);
  }

  // ---------------------------------------------------------------- other events

  /** Deleting Operations, and losing or advancing Jobs, engages nobody. */
  lemma Shrinks(s: State, t: State)
    requires Inv(s) && t.spec == s.spec && (s.deleting ==> t.deleting) && (s.attached ==> t.attached)
    requires OpsOnlyDrained(s, t) && JobsOnlyAdvance(s, t)
    ensures Inv(t)
  {
    forall m | m in t.ops ensures WellFormedOp(t, m) {
      assert WellFormedOp(s, m);
    }
    forall a, b | Engaged(t, a) && Engaged(t, b) ensures !Conflict(t.ops[a], t.ops[b]) {
      assert Engaged(s, a) && Engaged(s, b);
    }
  }

  lemma CreationKeepsInv(s: State, n: string, parent: string, opType: OpType, regions: seq<string>)
    requires Inv(s) && n != "" && n !in s.ops
    ensures Inv(Create(s, n, parent, opType, regions))
  {
    var t := Create(s, n, parent, opType, regions);
    forall m | m in t.ops ensures WellFormedOp(t, m) {
      assert m != n ==> WellFormedOp(s, m);
    }
    forall a, b | Engaged(t, a) && Engaged(t, b) ensures !Conflict(t.ops[a], t.ops[b]) {
      assert Engaged(s, a) && Engaged(s, b);
    }
  }

  lemma PassOverNothing(s: State, n: string, obs: Observed)
    requires n !in s.ops
    ensures ReconcileOperation(s, n, obs) == s
  {
  }

  /** Every event keeps the invariant exactly when it is not the bad branch. */
  lemma StepKeepsInvIff(s: State, e: Event)
    requires Inv(s)
    ensures Inv(Apply(s, e)) <==> !GateFailsArmed(s, e)
  {
    hide ReconcileOperation, ReconcileInstance;
    match e
    case CreateOperation(n, parent, opType, regions) =>
      if n != "" && n !in s.ops { CreationKeepsInv(s, n, parent, opType, regions); }
    case OperationPass(n, obs) =>
      if n in s.ops {
        PassKeepsWellFormed(s, n, obs);
        PassKeepsExclusive(s, n, obs);
        PassKeepsVisibleIff(s, n, obs);
      } else {
        PassOverNothing(s, n, obs);
      }
    case _ =>
      EnvironmentShape(s, e);
      Shrinks(s, Apply(s, e));
  }

  // ---------------------------------------------------------------- runs

  /** No pass of the run takes the bad branch. */
  ghost predicate Tame(s: State, events: seq<Event>) {
    events == [] ||
    (var before := Run(s, events[..|events| - 1]);
     Tame(s, events[..|events| - 1]) && !GateFailsArmed(before, events[|events| - 1]))
  }

  ghost predicate InvThroughout(s: State, events: seq<Event>) {
    Inv(Run(s, events)) && (events != [] ==> InvThroughout(s, events[..|events| - 1]))
  }

  /** The invariant holds all along a run exactly when the run is tame. */
  lemma {:induction false} InvThroughoutIffTame(s: State, events: seq<Event>)
    requires Inv(s)
    ensures InvThroughout(s, events) <==> Tame(s, events)
  {
    if events != [] {
      InvThroughoutIffTame(s, events[..|events| - 1]);
      if Tame(s, events[..|events| - 1]) {
        StepKeepsInvIff(Run(s, events[..|events| - 1]), events[|events| - 1]);
      }
    }
  }

  lemma FreshInv(spec: Spec, params: map<string, string>)
    ensures Inv(Fresh(spec, params))
  {
  }

  /** Mutual exclusion: in every state of a tame run, whatever Operations are created under
      whatever names and however passes, Jobs and deletions interleave, no two Operations
      that exclude each other both hold the write plane. */
  lemma MutualExclusion(spec: Spec, params: map<string, string>, events: seq<Event>, a: string, b: string)
    requires Tame(Fresh(spec, params), events)
    requires var s := Run(Fresh(spec, params), events);
             && a in s.ops && b in s.ops && Conflict(s.ops[a], s.ops[b])
    ensures var s := Run(Fresh(spec, params), events);
            !(HoldsWritePlane(s.ops[a]) && HoldsWritePlane(s.ops[b]))
  {
    var s := Run(Fresh(spec, params), events);
    FreshInv(spec, params);
    InvThroughoutIffTame(Fresh(spec, params), events);
    if HoldsWritePlane(s.ops[a]) && HoldsWritePlane(s.ops[b]) {
      HoldersAreEngaged(s, a);
      HoldersAreEngaged(s, b);
      assert false;
    }
  }
}
