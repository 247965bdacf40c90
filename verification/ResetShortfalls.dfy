/** Runs in which a database reset is overtaken, for all names and exactly those for which
    it can be, and runs in which it finishes on a Database that is being deleted. */
module ResetShortfalls {
  import opened Names
  import opened Operations
  import opened WritePlane
  import opened Store
  import opened Lifecycle
  import opened Passes
  import opened Exclusion
  import opened Overtaking
  import References
  import Tameness

  /** An instance with a Cluster of its own and no regions in its spec. */
  const OWNED := Spec("city", [], Managed, false, Never, Never, 1, None)

  ghost predicate OwnedIs(s: State, ops: map<string, Operation>, db: Option<Database>, nextUid: nat,
                          replicas: nat, uids: nat)
  {
    && WellFormed(s)
    && s == Fresh(OWNED, map[]).(attached := true, ops := ops, db := db, nextUid := nextUid,
                                 api := Some(Deployment(replicas, 0)), refs := s.refs, nextOpUid := uids)
  }

  function Claiming(r: string): Operation {
    Made(r, 0, Rebuild).(finalizer := true)
  }

  function AfterDrop(r: string): Operation {
    Claiming(r).(reset := ResetPending, prevUid := Dropped(0), drops := [0])
  }

  lemma FirstOwnedPass()
    ensures OwnedIs(Apply(Fresh(OWNED, map[]), InstancePass(true, [])), map[], Some(Database(0, false, false)), 1, 1, 0)
  {
    assert ListedOps(map[], []) == [];
    assert ObservedRegions(Fresh(OWNED, map[]), []) == [];
    assert Children(Fresh(OWNED, map[])) == {};
  }

  lemma DatabaseEvents(s: State)
    requires WellFormed(s)
    ensures WellFormed(Apply(s, DatabaseApplied)) && WellFormed(Apply(s, DatabaseGone))
  {
    References.StepKeepsWellFormed(s, DatabaseApplied);
    References.StepKeepsWellFormed(s, DatabaseGone);
  }

  /** A pass over an unopposed in-place Rebuild whose reset is not finished does one step of it. */
  lemma ResetPass(s: State, n: string)
    requires WellFormed(s) && Plain(s) && n in s.ops && IsActive(s.ops[n].phase) && !s.ops[n].deleting
    requires !Refused(s, s.ops[n]) && Unopposed(s, n) && UsesReset(s, s.ops[n])
    requires !ResetDatabase(Claimed(s, n), n).1
    ensures WellFormed(Apply(s, OperationPass(n, READY)))
    ensures Apply(s, OperationPass(n, READY)) == ResetDatabase(Claimed(s, n), n).0
  {
    References.StepKeepsWellFormed(s, OperationPass(n, READY));
    hide Children, SyncRef, Apply, Unopposed, ResetDatabase, BootstrapComplete;
    ClaimSucceeds(s, n);
    var s1 := Claimed(s, n);
    assert PreJobEffects(s1, n) == s1;
  }

  /** The Database is applied and a Rebuild is created. */
  lemma RebuildIsCreated(s: State, r: string) returns (t: State)
    requires OwnedIs(s, map[], Some(Database(0, false, false)), 1, 1, 0) && r != ""
    ensures t == Apply(Apply(s, DatabaseApplied), CreateOperation(r, "city", Rebuild, []))
    ensures OwnedIs(t, map[r := Made(r, 0, Rebuild)], Some(Database(0, true, false)), 1, 1, 1)
  {
    DatabaseEvents(s);
    var s1 := Apply(s, DatabaseApplied);
    CreatePass(s1, r, Rebuild);
    t := Apply(s1, CreateOperation(r, "city", Rebuild, []));
  }

  /** The first pass scales the API down, the second deletes the Database. */
  lemma RebuildDrops(s: State, r: string) returns (t: State)
    requires OwnedIs(s, map[r := Made(r, 0, Rebuild)], Some(Database(0, true, false)), 1, 1, 1) && r != ""
    ensures t == Apply(Apply(s, OperationPass(r, READY)), OperationPass(r, READY))
    ensures OwnedIs(t, map[r := AfterDrop(r)], Some(Database(0, true, true)), 1, 0, 1)
  {
    hide Apply;
    ResetPass(s, r);
    var s1 := Apply(s, OperationPass(r, READY));
    assert OwnedIs(s1, map[r := Claiming(r)], Some(Database(0, true, false)), 1, 0, 1);
    ResetPass(s1, r);
    t := Apply(s1, OperationPass(r, READY));
    assert [] + [0] == [0];
    assert t.ops[r] == AfterDrop(r);
  }

  /** After the drop has completed, the next pass recreates the Database. */
  lemma RebuildRecreates(s: State, r: string) returns (t: State)
    requires OwnedIs(s, map[r := AfterDrop(r)], Some(Database(0, true, true)), 1, 0, 1) && r != ""
    ensures t == Apply(Apply(Apply(s, DatabaseGone), OperationPass(r, READY)), DatabaseApplied)
    ensures OwnedIs(t, map[r := AfterDrop(r)], Some(Database(1, true, false)), 2, 0, 1)
  {
    DatabaseEvents(s);
    var s1 := Apply(s, DatabaseGone);
    hide ReconcileOperation;
    ResetPass(s1, r);
    var s2 := Apply(s1, OperationPass(r, READY));
    assert s2.ops == map[r := AfterDrop(r)];
    DatabaseEvents(s2);
    t := Apply(s2, DatabaseApplied);
  }

  /** The events up to the recreated Database. */
  function Reset(r: string): seq<Event> {
    [InstancePass(true, []), DatabaseApplied, CreateOperation(r, "city", Rebuild, []),
     OperationPass(r, READY), OperationPass(r, READY),
     DatabaseGone, OperationPass(r, READY), DatabaseApplied]
  }

  lemma ResetRuns(events: seq<Event>, r: string)
    requires r != "" && Reset(r) <= events
    ensures OwnedIs(Run(Fresh(OWNED, map[]), events[..8]),
                    map[r := AfterDrop(r)], Some(Database(1, true, false)), 2, 0, 1)
  {
    hide Apply;
    var start := Fresh(OWNED, map[]);
    RunOne(start, events);
    RunTwo(start, events, 1);
    RunTwo(start, events, 3);
    RunThree(start, events, 5);
    assert forall k :: 0 <= k < 8 ==> events[k] == Reset(r)[k];
    FirstOwnedPass();
    var s3 := RebuildIsCreated(Apply(start, events[0]), r);
    var s5 := RebuildDrops(s3, r);
    var s8 := RebuildRecreates(s5, r);
  }

  lemma ResetRunIsWhole(r: string, rest: seq<Event>)
    requires NoInstancePass(rest)
    ensures NothingCreated(Fresh(OWNED, map[]), Reset(r) + rest)
  {
    hide Apply;
    var start, events := Fresh(OWNED, map[]), Reset(r);
    RunOne(start, events);
    FirstOwnedPass();
    OneInstancePass(start, events, 0);
    NothingCreatedLater(start, events, rest);
  }

  // ---------------------------------------------------------------- overtaking

  ghost predicate OnlyCreates(events: seq<Event>, r: string, m: string) {
    forall i :: 0 <= i < |events| && events[i].CreateOperation? ==> events[i].name == r || events[i].name == m
  }

  /** At the end of a tame run that creates only `r` and `m`, the Rebuild `r` has begun and `m`
      holds the write plane, and the next pass over `r` fails it. */
  ghost predicate Overtaken(spec: Spec, params: map<string, string>, events: seq<Event>, obs: Observed,
                        r: string, m: string) {
    && Tame(Fresh(spec, params), events) && OnlyCreates(events, r, m)
    && var s := Run(Fresh(spec, params), events);
       var t := ReconcileOperation(s, r, obs);
       && !s.deleting && Begun(s, r) && IsChild(s, m) && HoldsWritePlane(s.ops[m])
       && r in t.ops && t.ops[r].phase.Failed? && m in t.ops && HoldsWritePlane(t.ops[m])
  }

  /** A smaller name arms during the reset, on the empty Database. */
  lemma SmallerNameArms(s: State, r: string, m: string) returns (t: State)
    requires OwnedIs(s, map[r := AfterDrop(r)], Some(Database(1, true, false)), 2, 0, 1)
    requires r != "" && m != "" && Less(m, r)
    ensures t == Apply(Apply(s, CreateOperation(m, "city", Refresh, [])), OperationPass(m, READY))
    ensures WellFormed(t) && Plain(t) && t.ops == map[r := AfterDrop(r), m := Armed(m, 1, Refresh)] && t.spec == OWNED
  {
    hide Apply;
    LessIsTotal(m, r);
    CreatePass(s, m, Refresh);
    var s1 := Apply(s, CreateOperation(m, "city", Refresh, []));
    ClearPass(s1, m);
    t := Apply(s1, OperationPass(m, READY));
  }

  /** A Rebuild that has already dropped the Database loses the write plane: it arms no Job
      during the reset, so an Operation created meanwhile under any smaller name wins the
      creation race and runs on the empty Database, and the Rebuild fails. */
  lemma ResetLosesTheRace(r: string, m: string) returns (events: seq<Event>)
    requires r != "" && m != "" && Less(m, r)
    ensures Overtaken(OWNED, map[], events, READY, r, m) && NothingCreated(Fresh(OWNED, map[]), events)
  {
    hide Apply, ReconcileOperation, Less, NothingCreated, Tame, OnlyCreates, OwnedIs;
    var start := Fresh(OWNED, map[]);
    var rest := [CreateOperation(m, "city", Refresh, []), OperationPass(m, READY)];
    events := Reset(r) + rest;
    LessIsTotal(m, r);
    ResetRunIsWhole(r, rest);
    CreatesTwo(r, m);
    Tameness.SteadyIsTame(OWNED, map[], {}, events);
    ResetRuns(events, r);
    RunTwo(start, events, 8);
    assert events[..10] == events;
    var s := SmallerNameArms(Run(start, events[..8]), r, m);
    assert IsChild(s, m) && Rival(s.ops[r], s.ops[m]);
    ConflictPass(s, r);
    PassIsReconcile(s, r);
  }

  lemma CreatesTwo(r: string, m: string)
    ensures OnlyCreates(Reset(r) + [CreateOperation(m, "city", Refresh, []), OperationPass(m, READY)], r, m)
  {
  }

  lemma PassIsReconcile(s: State, n: string)
    ensures Apply(s, OperationPass(n, READY)) == ReconcileOperation(s, n, READY)
  {
  }

  /** Exactly the smaller names can overtake: for any two names, a tame run over just these
      two in which the begun Rebuild `r` is failed while `m` holds exists iff `m` < `r`. */
  lemma OvertakenIff(r: string, m: string)
    requires r != "" && m != "" && r != m
    ensures (exists spec, params, events, obs :: Overtaken(spec, params, events, obs, r, m)) <==> Less(m, r)
  {
    LessIsTotal(m, r);
    if Less(m, r) {
      var events := ResetLosesTheRace(r, m);
    } else {
      forall spec, params, events, obs ensures !Overtaken(spec, params, events, obs, r, m) {
        LargerNameWaits(spec, params, events, obs, r, m);
      }
    }
  }

  lemma LargerNameWaits(spec: Spec, params: map<string, string>, events: seq<Event>, obs: Observed,
                        r: string, m: string)
    requires r != m && Less(r, m)
    ensures !Overtaken(spec, params, events, obs, r, m)
  {
    hide ReconcileOperation, Apply, Less, Tame;
    if Overtaken(spec, params, events, obs, r, m) {
      References.SpecIsFixed(spec, params, events);
      BegunRebuildIsNotOvertaken(spec, params, events, r, m);
      assert false;
    }
  }

  // ---------------------------------------------------------------- a dying Database

  function SecondDrop(m: string): Operation {
    Made(m, 1, Rebuild).(finalizer := true, reset := ResetPending, prevUid := Dropped(1), drops := [1])
  }

  lemma NobodyOutranks(s: State, r: string, m: string)
    requires s.ops == map[r := AfterDrop(r), m := Made(m, 1, Rebuild)] && Less(m, r)
    ensures Unopposed(s, m)
  {
    LessIsTotal(m, r);
  }

  lemma DropsReplacement(s: State, m: string)
    requires m in s.ops && s.ops[m] == Made(m, 1, Rebuild).(finalizer := true)
    requires s.spec == OWNED && s.api == Some(Deployment(0, 0)) && s.db == Some(Database(1, true, false))
    ensures ResetDatabase(s, m) ==
              (s.(ops := s.ops[m := SecondDrop(m)], db := Some(Database(1, true, true))), false)
  {
    assert [] + [1] == [1];
    assert s.ops[m := s.ops[m].(drops := [1])][m := SecondDrop(m)] == s.ops[m := SecondDrop(m)];
  }

  /** A second Rebuild under a smaller name drops the replacement. */
  lemma SecondRebuildDrops(s: State, r: string, m: string) returns (t: State)
    requires OwnedIs(s, map[r := AfterDrop(r)], Some(Database(1, true, false)), 2, 0, 1)
    requires r != "" && m != "" && Less(m, r)
    ensures t == Apply(Apply(s, CreateOperation(m, "city", Rebuild, [])), OperationPass(m, READY))
    ensures OwnedIs(t, map[r := AfterDrop(r), m := SecondDrop(m)], Some(Database(1, true, true)), 2, 0, 2)
  {
    hide Apply, ResetDatabase, Unopposed, Less, SyncRef;
    LessIsTotal(m, r);
    CreatePass(s, m, Rebuild);
    var s1 := Apply(s, CreateOperation(m, "city", Rebuild, []));
    NobodyOutranks(s1, r, m);
    ClaimSucceeds(s1, m);
    DropsReplacement(Claimed(s1, m), m);
    ResetPass(s1, m);
    t := Apply(s1, OperationPass(m, READY));
    assert t.ops == map[r := AfterDrop(r), m := SecondDrop(m)];
  }

  /** The second Rebuild is deleted. */
  lemma SecondRebuildLeaves(s: State, r: string, m: string) returns (t: State)
    requires OwnedIs(s, map[r := AfterDrop(r), m := SecondDrop(m)], Some(Database(1, true, true)), 2, 0, 2) && r != m
    ensures t == Apply(Apply(s, DeleteOperation(m)), OperationPass(m, READY))
    ensures OwnedIs(t, map[r := AfterDrop(r)], Some(Database(1, true, true)), 2, 0, 2)
  {
    hide Apply;
    DeleteAndPass(s, m);
    t := Apply(Apply(s, DeleteOperation(m)), OperationPass(m, READY));
    assert t.ops == map[r := AfterDrop(r)];
  }

  /** The first Rebuild sees an applied Database that is not the one it dropped. */
  lemma FinishesOnDying(s: State, r: string) returns (t: State)
    requires OwnedIs(s, map[r := AfterDrop(r)], Some(Database(1, true, true)), 2, 0, 2) && r != ""
    ensures t == Apply(s, OperationPass(r, READY))
    ensures r in t.ops && t.ops[r].reset.ResetDone? && HoldsWritePlane(t.ops[r])
    ensures t.db == Some(Database(1, true, true))
  {
    hide Apply, SyncRef;
    ClaimSucceeds(s, r);
    var s1 := Claimed(s, r);
    assert s1.ops[r] == AfterDrop(r);
    var s2 := RecordReset(s1, r, ResetDone, Dropped(0));
    assert Prerequisites(PreJobEffects(s1, r), r, READY) == (s2, true);
    var s3 := SyncStatusFromJob(EnsureJob(s2, r), r);
    assert AfterJob(s3, r, READY) == SyncSideEffects(s3, r);
    SideEffectsShape(s3, r);
    t := Apply(s, OperationPass(r, READY));
  }

  /** `done` is recorded, and the Job armed, on a Database that is being deleted: a second
      Rebuild under a smaller name drops the replacement and is deleted itself. */
  lemma DoneOnDyingDatabase(r: string, m: string) returns (events: seq<Event>)
    requires r != "" && m != "" && Less(m, r)
    ensures Tame(Fresh(OWNED, map[]), events) && NothingCreated(Fresh(OWNED, map[]), events)
    ensures var s := Run(Fresh(OWNED, map[]), events);
            && r in s.ops && s.ops[r].reset.ResetDone? && HoldsWritePlane(s.ops[r])
            && s.db.Some? && s.db.value.terminating
  {
    hide Apply, Less, NothingCreated;
    var start := Fresh(OWNED, map[]);
    LessIsTotal(m, r);
    var rest := [CreateOperation(m, "city", Rebuild, []), OperationPass(m, READY),
                 DeleteOperation(m), OperationPass(m, READY), OperationPass(r, READY)];
    events := Reset(r) + rest;
    ResetRunIsWhole(r, rest);
    Tameness.SteadyIsTame(OWNED, map[], {}, events);
    ResetRuns(events, r);
    RunTwo(start, events, 8);
    RunThree(start, events, 10);
    assert events[..13] == events;
    var s10 := SecondRebuildDrops(Run(start, events[..8]), r, m);
    var s12 := SecondRebuildLeaves(s10, r, m);
    var s13 := FinishesOnDying(s12, r);
  }
}
