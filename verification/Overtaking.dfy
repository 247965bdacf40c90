/** When a Rebuild that has begun keeps the instance to itself. A reset arms no Job, so the
    only protection it has against other claimants is the order of names. */
module Overtaking {
  import opened Names
  import opened Operations
  import opened WritePlane
  import opened Store
  import opened Lifecycle
  import opened Exclusion
  import opened References
  import opened RebuildReset

  /** A Rebuild that is active and has recorded a reset or armed its Job. */
  ghost predicate Begun(s: State, r: string) {
    IsChild(s, r) && s.ops[r].opType.Rebuild? && IsActive(s.ops[r].phase) && HasStarted(s.ops[r])
  }

  /** Whoever newly takes the write plane beside an active Rebuild has a smaller name. */
  lemma OnlySmallerNamesOvertake(s: State, r: string, m: string, obs: Observed)
    requires Inv(s) && !s.deleting
    requires IsChild(s, r) && s.ops[r].opType.Rebuild? && IsActive(s.ops[r].phase)
    requires IsChild(s, m) && m != r && !HoldsWritePlane(s.ops[m])
    requires var t := ReconcileOperation(s, m, obs); m in t.ops && HoldsWritePlane(t.ops[m])
    ensures Less(m, r) && !HoldsWritePlane(s.ops[r])
  {
    hide ReconcileOperation, Decide, Children;
    var t := ReconcileOperation(s, m, obs);
    PassKeepsWellFormed(s, m, obs);
    HoldersAreEngaged(t, m);
    PassEngages(s, m, obs, m);
    assert WellFormedOp(s, m) && WellFormedOp(s, r);
    ClaimByName(s, s.ops[m]);
    assert Rival(s.ops[m], s.ops[r]);
    assert !Outranks(s.ops[r], s.ops[m]);
    LessIsTotal(m, r);
  }

  /** While `r` is at work no other Operation of the instance is engaged. */
  ghost predicate Alone(s: State, r: string) {
    !s.deleting && Begun(s, r) ==> forall m :: IsChild(s, m) && m != r ==> !Engaged(s, m)
  }

  ghost predicate NamesAfter(s: State, r: string) {
    forall m :: IsChild(s, m) && m != r ==> Less(r, m)
  }

  lemma PassKeepsAlone(s: State, r: string, n: string, obs: Observed)
    requires Inv(s) && Alone(s, r) && NamesAfter(s, r) && n in s.ops
    ensures Alone(ReconcileOperation(s, n, obs), r)
  {
    hide ReconcileOperation, Decide, Children;
    var t := ReconcileOperation(s, n, obs);
    ReconcileOutcome(s, n, obs);
    if !t.deleting && Begun(t, r) {
      if n == r {
        BeginsAlone(s, r, obs);
      } else {
        assert Begun(s, r);
      }
      forall m | IsChild(t, m) && m != r ensures !Engaged(t, m) {
        assert IsChild(s, m);
        if n == m {
          WaitsBehind(s, r, m, obs);
        } else {
          assert Engaged(t, m) ==> Engaged(s, m);
        }
      }
    }
  }

  /** The pass that makes `r` begun was told Ok, so nobody else is engaged. */
  lemma BeginsAlone(s: State, r: string, obs: Observed)
    requires Inv(s) && Alone(s, r) && r in s.ops && !s.deleting && Begun(ReconcileOperation(s, r, obs), r)
    ensures forall m :: IsChild(s, m) && m != r ==> !Engaged(s, m)
  {
    hide ReconcileOperation, Decide, Children;
    ReconcileOutcome(s, r, obs);
    PassResets(s, r, obs);
    if IsTerminal(s.ops[r].phase) { TerminalIsAbsorbing(s, r, obs); }
    if !HasStarted(s.ops[r]) {
      assert Decide(s.ops[r], Children(s)).Ok?;
      forall m | IsChild(s, m) && m != r ensures !Engaged(s, m) {
        assert WellFormedOp(s, m) && WellFormedOp(s, r);
        if Engaged(s, m) { EngagedIsSeen(s, m, s.ops[r]); }
      }
    }
  }

  /** A pass over another Operation cannot arm it while `r` is at work. */
  lemma WaitsBehind(s: State, r: string, m: string, obs: Observed)
    requires Inv(s) && Alone(s, r) && NamesAfter(s, r) && !s.deleting
    requires Begun(s, r) && IsChild(s, m) && m != r
    ensures !Engaged(ReconcileOperation(s, m, obs), m)
  {
    hide ReconcileOperation, Decide, Children;
    ClaimByName(s, s.ops[m]);
    assert WellFormedOp(s, m) && WellFormedOp(s, r);
    assert Rival(s.ops[m], s.ops[r]);
    assert HoldsWritePlane(s.ops[r]) || Outranks(s.ops[r], s.ops[m]);
    if Engaged(ReconcileOperation(s, m, obs), m) {
      PassEngages(s, m, obs, m);
    }
  }

  /** Every Operation the run creates for this instance, other than `r`, sorts after it. */
  ghost predicate CreatesOnlyAfter(events: seq<Event>, parent: string, r: string) {
    forall i :: 0 <= i < |events| && events[i].CreateOperation? && events[i].parent == parent ==>
      events[i].name == r || Less(r, events[i].name)
  }

  lemma StepKeepsAlone(s: State, r: string, e: Event)
    requires Inv(s) && Alone(s, r) && NamesAfter(s, r)
    requires e.CreateOperation? && e.parent == s.spec.name ==> e.name == r || Less(r, e.name)
    ensures Alone(Apply(s, e), r) && NamesAfter(Apply(s, e), r)
  {
    hide ReconcileOperation, ReconcileInstance;
    match e
    case CreateOperation(n, parent, opType, regions) =>
      if n != "" && n !in s.ops { CreationKeepsAlone(s, r, n, parent, opType, regions); }
    case OperationPass(n, obs) =>
      if n in s.ops {
        PassKeepsAlone(s, r, n, obs);
        PassKeepsNames(s, r, n, obs);
      } else {
        PassOverNothing(s, n, obs);
      }
    case _ =>
      EnvironmentKeepsAlone(s, r, e);
  }

  lemma PassKeepsNames(s: State, r: string, n: string, obs: Observed)
    requires WellFormed(s) && NamesAfter(s, r) && n in s.ops
    ensures NamesAfter(ReconcileOperation(s, n, obs), r)
  {
    hide ReconcileOperation;
    ReconcileOutcome(s, n, obs);
    assert forall m :: IsChild(ReconcileOperation(s, n, obs), m) ==> IsChild(s, m);
  }

  lemma CreationKeepsAlone(s: State, r: string, n: string, parent: string, opType: OpType, regions: seq<string>)
    requires Alone(s, r) && NamesAfter(s, r) && n !in s.ops
    requires parent == s.spec.name ==> n == r || Less(r, n)
    ensures var t := Create(s, n, parent, opType, regions); Alone(t, r) && NamesAfter(t, r)
  {
    var t := Create(s, n, parent, opType, regions);
    assert Begun(t, r) ==> Begun(s, r);
    assert forall m :: Engaged(t, m) ==> Engaged(s, m);
    assert forall m :: IsChild(t, m) && m != n ==> IsChild(s, m);
  }

  lemma EnvironmentKeepsAlone(s: State, r: string, e: Event)
    requires Alone(s, r) && NamesAfter(s, r) && !e.OperationPass? && !e.CreateOperation?
    ensures Alone(Apply(s, e), r) && NamesAfter(Apply(s, e), r)
  {
    hide Apply;
    var t := Apply(s, e);
    EnvironmentShape(s, e);
    assert Begun(t, r) ==> Begun(s, r);
    assert forall m :: Engaged(t, m) ==> Engaged(s, m);
    assert forall m :: IsChild(t, m) ==> IsChild(s, m);
  }

  lemma {:induction false} AloneHolds(spec: Spec, params: map<string, string>, events: seq<Event>, r: string)
    requires Tame(Fresh(spec, params), events) && CreatesOnlyAfter(events, spec.name, r)
    ensures var s := Run(Fresh(spec, params), events); Alone(s, r) && NamesAfter(s, r)
  {
    if events != [] {
      var before := events[..|events| - 1];
      AloneHolds(spec, params, before, r);
      FreshInv(spec, params);
      InvThroughoutIffTame(Fresh(spec, params), before);
      SpecIsFixed(spec, params, before);
      StepKeepsAlone(Run(Fresh(spec, params), before), r, events[|events| - 1]);
    }
  }

  /** In every tame run whose other Operations all sort after `r`: once the Rebuild `r` has
      begun and until it is terminal or the instance is deleted, no other Operation of the
      instance holds the write plane, so `r` cannot be failed for a conflict. */
  lemma BegunRebuildIsNotOvertaken(spec: Spec, params: map<string, string>, events: seq<Event>, r: string, m: string)
    requires Tame(Fresh(spec, params), events) && CreatesOnlyAfter(events, spec.name, r)
    requires var s := Run(Fresh(spec, params), events);
             && !s.deleting
             && r in s.ops && s.ops[r].parent == spec.name && s.ops[r].opType.Rebuild?
             && IsActive(s.ops[r].phase) && (s.ops[r].jobRef.Some? || !s.ops[r].prevUid.NotRecorded?)
             && m in s.ops && m != r && s.ops[m].parent == spec.name
    ensures var s := Run(Fresh(spec, params), events);
            !HoldsWritePlane(s.ops[m]) && !Decide(s.ops[r], Children(s)).Hold?
  {
    hide Decide, Children;
    var s := Run(Fresh(spec, params), events);
    AloneHolds(spec, params, events, r);
    SpecIsFixed(spec, params, events);
    RefsHold(spec, params, events);
    assert Begun(s, r);
    forall k | IsChild(s, k) && HoldsWritePlane(s.ops[k]) ensures k == r {
      HoldersAreEngaged(s, k);
    }
    assert WellFormedOp(s, r);
    ClaimByName(s, s.ops[r]);
    assert IsChild(s, m);
  }
}
