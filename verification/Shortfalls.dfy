/** Runs in which the controllers do not keep what their comments promise, for any names.
    The exact conditions under which the promises are kept are in the modules Exclusion,
    JobPods and BackupPause. */
module Shortfalls {
  import opened Names
  import opened Operations
  import opened WritePlane
  import opened Store
  import opened Lifecycle
  import opened Passes
  import opened JobPods
  import Exclusion
  import References
  import Tameness

  /** One region is wanted, and nothing is paused or suspended for Operations. */
  const CITY := Spec("city", ["europe/monaco"], ConnectionSecret, false, Never, Never, 1, None)

  /** The same with no regions in the spec: the API serves from the start. */
  const OPEN := CITY.(regions := [])

  function Begin(spec: Spec): State {
    Fresh(spec, map[]).(attached := true)
  }

  lemma FirstInstancePass()
    ensures var s := Apply(Fresh(OPEN, map[]), InstancePass(true, []));
            WellFormed(s) && s == Begin(OPEN).(api := s.api)
  {
    assert ListedOps(map[], []) == [];
    assert ObservedRegions(Fresh(OPEN, map[]), []) == [];
  }

  // ---------------------------------------------------------------- the region gate

  ghost predicate Distinct3(a: string, b: string, c: string) {
    a != "" && b != "" && c != "" && a != b && b != c && a != c
  }

  /** What is left of a store over `CITY` once references are disregarded. */
  ghost predicate CityIs(s: State, ops: map<string, Operation>, jobs: map<string, Job>, uids: nat) {
    && WellFormed(s)
    && s == Begin(CITY).(ops := ops, jobs := jobs, refs := s.refs, nextOpUid := uids)
  }

  function Done(op: Operation): Job {
    NewJob(op).(succeeded := 1)
  }

  /** A Bootstrap is created before the first instance pass, which therefore creates none. */
  lemma BootstrapIsListed(b: string) returns (t: State)
    requires b != ""
    ensures t == Apply(Apply(Fresh(CITY, map[]), CreateOperation(b, "city", Bootstrap, [])), InstancePass(true, [b]))
    ensures CityIs(t, map[b := Made(b, 0, Bootstrap)], map[], 1) && CreatesNothing(t)
  {
    var start := Fresh(CITY, map[]);
    CreatePass(start, b, Bootstrap);
    var s := Apply(start, CreateOperation(b, "city", Bootstrap, []));
    assert ListedOps(s.ops, [b]) == [s.ops[b]];
    UnfinishedShowsNothing(ForReplay(CITY, []), s.ops[b]);
    References.StepKeepsWellFormed(s, InstancePass(true, [b]));
    t := Apply(s, InstancePass(true, [b]));
    assert IsChild(t, b);
  }

  /** It runs and succeeds. */
  lemma BootstrapSucceeds(s: State, b: string) returns (t: State)
    requires CityIs(s, map[b := Made(b, 0, Bootstrap)], map[], 1) && b != ""
    ensures var op := Made(b, 0, Bootstrap);
            && t == Apply(Apply(Apply(s, OperationPass(b, READY)), JobProgress(b, Done(op))), OperationPass(b, READY))
            && CityIs(t, map[b := Armed(b, 0, Bootstrap).(phase := Succeeded)], map[b := Done(op)], 1)
  {
    hide Apply;
    ClearPass(s, b);
    var s2 := Apply(s, OperationPass(b, READY));
    JobReports(s2, b, Done(Made(b, 0, Bootstrap)));
    var s3 := Apply(s2, JobProgress(b, Done(Made(b, 0, Bootstrap))));
    ClearPass(s3, b);
    t := Apply(s3, OperationPass(b, READY));
  }

  /** The Update passes the gate through the Bootstrap that has succeeded. */
  lemma UpdateArms(s: State, b: string, u: string) returns (t: State)
    requires CityIs(s, map[b := Armed(b, 0, Bootstrap).(phase := Succeeded)], map[b := Done(Made(b, 0, Bootstrap))], 1)
    requires b != "" && u != "" && b != u
    ensures t == Apply(Apply(s, CreateOperation(u, "city", Update, [])), OperationPass(u, READY))
    ensures CityIs(t, map[b := Armed(b, 0, Bootstrap).(phase := Succeeded), u := Armed(u, 1, Update)],
                   map[b := Done(Made(b, 0, Bootstrap)), u := NewJob(Made(u, 1, Update))], 2)
  {
    hide Apply;
    CreatePass(s, u, Update);
    var s1 := Apply(s, CreateOperation(u, "city", Update, []));
    assert s1.ops[b] in Children(s1);
    ClearPass(s1, u);
    t := Apply(s1, OperationPass(u, READY));
    assert t.ops == map[b := Armed(b, 0, Bootstrap).(phase := Succeeded), u := Armed(u, 1, Update)];
    assert t.jobs == map[b := Done(Made(b, 0, Bootstrap)), u := NewJob(Made(u, 1, Update))];
  }

  /** The Bootstrap is deleted before an instance pass has observed its regions, and the gate
      fails the armed Update. */
  lemma UpdateFails(s: State, b: string, u: string) returns (t: State)
    requires CityIs(s, map[b := Armed(b, 0, Bootstrap).(phase := Succeeded), u := Armed(u, 1, Update)],
                    map[b := Done(Made(b, 0, Bootstrap)), u := NewJob(Made(u, 1, Update))], 2)
    requires b != "" && u != "" && b != u
    ensures t == Apply(Apply(Apply(s, DeleteOperation(b)), OperationPass(b, READY)), OperationPass(u, READY))
    ensures CityIs(t, map[u := Armed(u, 1, Update).(phase := Failed)], s.jobs, 2)
  {
    hide Apply;
    DeleteAndPass(s, b);
    var s1 := Apply(Apply(s, DeleteOperation(b)), OperationPass(b, READY));
    assert s1.ops == map[u := Armed(u, 1, Update)];
    forall p | p in Children(s1) ensures p == s1.ops[u] {
      var k :| k in s1.ops && s1.ops[k] == p;
    }
    GatedPass(s1, u);
    t := Apply(s1, OperationPass(u, READY));
  }

  /** A Freeze is created while the Update looks terminal. */
  lemma FreezeIsCreated(s: State, u: string, f: string)
    requires CityIs(s, map[u := Armed(u, 1, Update).(phase := Failed)], s.jobs, 2) && f != "" && u != f
    ensures var t := Apply(s, CreateOperation(f, "city", Freeze, []));
            CityIs(t, map[u := Armed(u, 1, Update).(phase := Failed), f := Made(f, 2, Freeze)], s.jobs, 3)
  {
    CreatePass(s, f, Freeze);
    assert Apply(s, CreateOperation(f, "city", Freeze, [])).ops ==
           map[u := Armed(u, 1, Update).(phase := Failed), f := Made(f, 2, Freeze)];
  }

  /** It arms. */
  lemma FreezeArms(s: State, u: string, f: string) returns (t: State)
    requires CityIs(s, map[u := Armed(u, 1, Update).(phase := Failed), f := Made(f, 2, Freeze)], s.jobs, 3)
    requires u != "" && f != "" && u != f && f !in s.jobs
    ensures t == Apply(s, OperationPass(f, READY))
    ensures CityIs(t, map[u := Armed(u, 1, Update).(phase := Failed), f := Armed(f, 2, Freeze)],
                   s.jobs[f := NewJob(Made(f, 2, Freeze))], 3)
  {
    hide Apply, BootstrapComplete, Children;
    ClearPass(s, f);
    t := Apply(s, OperationPass(f, READY));
    assert t.ops == map[u := Armed(u, 1, Update).(phase := Failed), f := Armed(f, 2, Freeze)];
  }

  /** The next pass over the Update reads its unfinished Job and makes it Pending again. */
  lemma FreezeArmsAndUpdateRevives(s: State, u: string, f: string) returns (t: State)
    requires CityIs(s, map[u := Armed(u, 1, Update).(phase := Failed)], s.jobs, 2)
    requires u in s.jobs && s.jobs[u] == NewJob(Made(u, 1, Update)) && f !in s.jobs
    requires u != "" && f != "" && u != f
    ensures t == Apply(Apply(Apply(s, CreateOperation(f, "city", Freeze, [])), OperationPass(f, READY)),
                       OperationPass(u, READY))
    ensures t.ops == map[u := Armed(u, 1, Update), f := Armed(f, 2, Freeze)]
  {
    hide Apply;
    FreezeIsCreated(s, u, f);
    var s2 := FreezeArms(Apply(s, CreateOperation(f, "city", Freeze, [])), u, f);
    RereadPass(s2, u);
    t := Apply(s2, OperationPass(u, READY));
  }

  function GateRun(b: string, u: string, f: string): seq<Event> {
    var passB, passU := OperationPass(b, READY), OperationPass(u, READY);
    [CreateOperation(b, "city", Bootstrap, []), InstancePass(true, [b]),
     passB, JobProgress(b, Done(Made(b, 0, Bootstrap))), passB,
     CreateOperation(u, "city", Update, []), passU,
     DeleteOperation(b), passB, passU,
     CreateOperation(f, "city", Freeze, []), OperationPass(f, READY), passU]
  }

  lemma GateRunIsWhole(b: string, u: string, f: string)
    requires b != ""
    ensures NothingCreated(Fresh(CITY, map[]), GateRun(b, u, f))
  {
    hide Apply;
    var start, events := Fresh(CITY, map[]), GateRun(b, u, f);
    RunTwo(start, events, 0);
    assert events[..0] == [];
    var s2 := BootstrapIsListed(b);
    OneInstancePass(start, events, 1);
  }

  lemma GateRunArms(b: string, u: string, f: string)
    requires Distinct3(b, u, f)
    ensures CityIs(Run(Fresh(CITY, map[]), GateRun(b, u, f)[..7]),
                   map[b := Armed(b, 0, Bootstrap).(phase := Succeeded), u := Armed(u, 1, Update)],
                   map[b := Done(Made(b, 0, Bootstrap)), u := NewJob(Made(u, 1, Update))], 2)
  {
    hide Apply, CreatesNothing;
    var start, events := Fresh(CITY, map[]), GateRun(b, u, f);
    RunTwo(start, events, 0);
    RunThree(start, events, 2);
    RunTwo(start, events, 5);
    assert events[..0] == [];
    var s2 := BootstrapIsListed(b);
    var s5 := BootstrapSucceeds(s2, b);
    var s7 := UpdateArms(s5, b, u);
  }

  /** Two Operations that exclude each other both hold the write plane: a Bootstrap succeeds,
      an Update arms behind it, the Bootstrap is deleted before its regions are observed, the
      gate fails the Update, a Freeze arms, and a pass over the Update revives it. */
  lemma GateFailureBreaksExclusion(b: string, u: string, f: string) returns (events: seq<Event>)
    requires Distinct3(b, u, f)
    ensures NothingCreated(Fresh(CITY, map[]), events)
    ensures var s := Run(Fresh(CITY, map[]), events);
            && u in s.ops && f in s.ops && Conflict(s.ops[u], s.ops[f])
            && HoldsWritePlane(s.ops[u]) && HoldsWritePlane(s.ops[f])
  {
    hide Apply, NothingCreated;
    var start := Fresh(CITY, map[]);
    events := GateRun(b, u, f);
    GateRunIsWhole(b, u, f);
    GateRunArms(b, u, f);
    RunThree(start, events, 7);
    RunThree(start, events, 10);
    assert events[..13] == events;
    var s10 := UpdateFails(Run(start, events[..7]), b, u);
    var s13 := FreezeArmsAndUpdateRevives(s10, u, f);
  }

  // ---------------------------------------------------------------- overlapping pods

  ghost predicate OpenIs(s: State, ops: map<string, Operation>, jobs: map<string, Job>, uids: nat) {
    && WellFormed(s)
    && s == Begin(OPEN).(ops := ops, jobs := jobs, refs := s.refs, api := s.api, nextOpUid := uids)
  }

  /** A Refresh arms and its Job reports. */
  lemma RefreshReports(s: State, a: string, job: Job) returns (t: State)
    requires OpenIs(s, map[], map[], 0) && a != "" && job.owner == OwnerOf(Made(a, 0, Refresh))
    ensures t == Apply(Apply(Apply(s, CreateOperation(a, "city", Refresh, [])), OperationPass(a, READY)),
          JobProgress(a, job))
    ensures OpenIs(t, map[a := Armed(a, 0, Refresh)], map[a := job], 1)
  {
    hide Apply;
    CreatePass(s, a, Refresh);
    var s1 := Apply(s, CreateOperation(a, "city", Refresh, []));
    ClearPass(s1, a);
    var s2 := Apply(s1, OperationPass(a, READY));
    JobReports(s2, a, job);
    t := Apply(s2, JobProgress(a, job));
  }

  function Running(op: Operation): Job {
    NewJob(op).(active := 1)
  }

  /** A Freeze arms in a store where every other Operation is terminal, and its pod starts. */
  lemma FreezeRuns(s: State, ops: map<string, Operation>, jobs: map<string, Job>, uids: nat, b: string)
    returns (t: State)
    requires OpenIs(s, ops, jobs, uids) && b != "" && b !in ops && b !in jobs
    requires forall n :: n in ops ==> IsTerminal(ops[n].phase)
    ensures var job := Running(Made(b, uids, Freeze));
            && t == Apply(Apply(Apply(s, CreateOperation(b, "city", Freeze, [])), OperationPass(b, READY)),
                  JobProgress(b, job))
            && OpenIs(t, ops[b := Armed(b, uids, Freeze)], jobs[b := job], uids + 1)
  {
    hide Apply;
    CreatePass(s, b, Freeze);
    var s1 := Apply(s, CreateOperation(b, "city", Freeze, []));
    ClearPass(s1, b);
    var s2 := Apply(s1, OperationPass(b, READY));
    JobReports(s2, b, Running(Made(b, uids, Freeze)));
    t := Apply(s2, JobProgress(b, Running(Made(b, uids, Freeze))));
  }

  function RetryRun(a: string, b: string): seq<Event> {
    var failing := Running(Made(a, 0, Refresh)).(failed := 1);
    var passA := OperationPass(a, READY);
    [InstancePass(true, []),
     CreateOperation(a, "city", Refresh, []), passA, JobProgress(a, failing),
     passA,
     CreateOperation(b, "city", Freeze, []), OperationPass(b, READY),
     JobProgress(b, Running(Made(b, 1, Freeze)))]
  }

  lemma RetryRunIsWhole(a: string, b: string)
    ensures NothingCreated(Fresh(OPEN, map[]), RetryRun(a, b))
  {
    hide Apply;
    var start, events := Fresh(OPEN, map[]), RetryRun(a, b);
    RunOne(start, events);
    FirstInstancePass();
    OneInstancePass(start, events, 0);
  }

  /** The first cause: the Refresh's Job reports a failed pod and retries, its Operation is
      Failed, and a Freeze starts beside the retry. */
  lemma RetryingJobOverlaps(a: string, b: string) returns (events: seq<Event>)
    requires a != "" && b != "" && a != b
    ensures Exclusion.Tame(Fresh(OPEN, map[]), events) && NothingCreated(Fresh(OPEN, map[]), events)
    ensures var s := Run(Fresh(OPEN, map[]), events);
            && PodsRun(s, a) && PodsRun(s, b) && JobsExclude(s, a, b)
            && Retrying(s, a) && !Retrying(s, b) && !Orphaned(s, a) && !Orphaned(s, b)
  {
    hide Apply, NothingCreated, Exclusion.Tame, BootstrapComplete, Children;
    var start := Fresh(OPEN, map[]);
    var failing := Running(Made(a, 0, Refresh)).(failed := 1);
    events := RetryRun(a, b);
    RetryRunIsWhole(a, b);
    Tameness.SteadyIsTame(OPEN, map[], {}, events);
    RunOne(start, events);
    RunThree(start, events, 1);
    RunPrefix(start, events, 4);
    RunThree(start, events, 5);
    assert events[..8] == events;
    FirstInstancePass();
    var s4 := RefreshReports(Apply(start, events[0]), a, failing);
    ClearPass(s4, a);
    var s5 := Apply(s4, OperationPass(a, READY));
    var s8 := FreezeRuns(s5, map[a := Armed(a, 0, Refresh).(phase := Failed)], map[a := failing], 1, b);
  }

  function OrphanRun(a: string, b: string): seq<Event> {
    var running := Running(Made(a, 0, Refresh));
    var passA := OperationPass(a, READY);
    [InstancePass(true, []),
     CreateOperation(a, "city", Refresh, []), passA, JobProgress(a, running),
     DeleteOperation(a), passA,
     CreateOperation(b, "city", Freeze, []), OperationPass(b, READY),
     JobProgress(b, Running(Made(b, 1, Freeze)))]
  }

  lemma OrphanRunIsWhole(a: string, b: string)
    ensures NothingCreated(Fresh(OPEN, map[]), OrphanRun(a, b))
  {
    hide Apply;
    var start, events := Fresh(OPEN, map[]), OrphanRun(a, b);
    RunOne(start, events);
    FirstInstancePass();
    OneInstancePass(start, events, 0);
  }

  /** The second cause: the Refresh is deleted while its pod runs, and a Freeze starts beside
      the Job that is left behind. Neither Job has reported anything. */
  lemma OrphanedJobOverlaps(a: string, b: string) returns (events: seq<Event>)
    requires a != "" && b != "" && a != b
    ensures Exclusion.Tame(Fresh(OPEN, map[]), events) && NothingCreated(Fresh(OPEN, map[]), events)
    ensures var s := Run(Fresh(OPEN, map[]), events);
            && PodsRun(s, a) && PodsRun(s, b) && JobsExclude(s, a, b)
            && Orphaned(s, a) && !Orphaned(s, b) && !Retrying(s, a) && !Retrying(s, b)
  {
    hide Apply, NothingCreated;
    var start := Fresh(OPEN, map[]);
    var running := Running(Made(a, 0, Refresh));
    var passA := OperationPass(a, READY);
    events := OrphanRun(a, b);
    OrphanRunIsWhole(a, b);
    Tameness.SteadyIsTame(OPEN, map[], {}, events);
    RunOne(start, events);
    RunThree(start, events, 1);
    RunTwo(start, events, 4);
    RunThree(start, events, 6);
    assert events[..9] == events;
    FirstInstancePass();
    var s4 := RefreshReports(Apply(start, events[0]), a, running);
    DeleteAndPass(s4, a);
    var s6 := Apply(Apply(s4, DeleteOperation(a)), passA);
    assert s6.ops == map[];
    var s9 := FreezeRuns(s6, map[], map[a := running], 1, b);
  }

  function AdoptRun(a: string): seq<Event> {
    var done := Done(Made(a, 0, Refresh));
    var create, passA := CreateOperation(a, "city", Refresh, []), OperationPass(a, READY);
    [InstancePass(true, []), create, passA, JobProgress(a, done), DeleteOperation(a), passA, create, passA]
  }

  lemma AdoptRunIsWhole(a: string)
    ensures NothingCreated(Fresh(OPEN, map[]), AdoptRun(a))
  {
    hide Apply;
    var start, events := Fresh(OPEN, map[]), AdoptRun(a);
    RunOne(start, events);
    FirstInstancePass();
    OneInstancePass(start, events, 0);
  }

  /** An Operation created under a used name is Succeeded by its first pass: it takes the Job
      of the deleted Operation for its own, and never runs. */
  lemma AdoptsOldSuccess(a: string) returns (events: seq<Event>)
    requires a != ""
    ensures NothingCreated(Fresh(OPEN, map[]), events)
    ensures var s := Run(Fresh(OPEN, map[]), events);
            && a in s.ops && s.ops[a].phase.Succeeded? && s.ops[a].jobRef == Some(a)
            && a in s.jobs && !Owned(s, a)
  {
    hide Apply, NothingCreated;
    var start := Fresh(OPEN, map[]);
    var done := Done(Made(a, 0, Refresh));
    var create, passA := CreateOperation(a, "city", Refresh, []), OperationPass(a, READY);
    events := AdoptRun(a);
    AdoptRunIsWhole(a);
    RunOne(start, events);
    RunThree(start, events, 1);
    RunTwo(start, events, 4);
    RunTwo(start, events, 6);
    assert events[..8] == events;
    FirstInstancePass();
    var s4 := RefreshReports(Apply(start, events[0]), a, done);
    DeleteAndPass(s4, a);
    var s6 := Apply(Apply(s4, DeleteOperation(a)), passA);
    assert s6.ops == map[];
    CreatePass(s6, a, Refresh);
    ClearPass(Apply(s6, create), a);
  }

  // ---------------------------------------------------------------- a pause left behind

  const COVERED := Spec("city", [], Attached, false, All, Never, 1, None)

  /** The connection Secret is missing. */
  const NOT_YET := Observed(true, false, true, Continue)

  ghost predicate CoveredIs(s: State, ops: map<string, Operation>, uids: nat) {
    && WellFormed(s)
    && s == Begin(COVERED).(ops := ops, refs := s.refs, api := s.api, cluster := s.cluster, nextOpUid := uids)
  }

  lemma FirstCoveredPass()
    ensures CoveredIs(Apply(Fresh(COVERED, map[]), InstancePass(true, [])), map[], 0)
  {
    assert ListedOps(map[], []) == [];
    assert ObservedRegions(Fresh(COVERED, map[]), []) == [];
  }

  /** An Operation pauses backups and then waits for its Secret. */
  lemma PausesAndWaits(s: State, n: string)
    requires n != "" && CoveredIs(s, map[n := Made(n, 0, Refresh)], 1)
    ensures var t := Apply(s, OperationPass(n, NOT_YET));
            CoveredIs(t, map[n := Made(n, 0, Refresh).(finalizer := true)], 1) && t.cluster.paused
  {
    hide Children, Decide;
    References.StepKeepsWellFormed(s, OperationPass(n, NOT_YET));
    UnopposedIsOk(s, n);
  }

  function PauseRun(n: string, m: string): seq<Event> {
    [InstancePass(true, []),
     CreateOperation(n, "city", Refresh, []), OperationPass(n, NOT_YET),
     CreateOperation(m, "city", Refresh, []), DeleteOperation(n), OperationPass(n, NOT_YET),
     DeleteOperation(m)]
  }

  lemma PauseRunIsWhole(n: string, m: string)
    ensures NothingCreated(Fresh(COVERED, map[]), PauseRun(n, m))
  {
    hide Apply;
    var start, events := Fresh(COVERED, map[]), PauseRun(n, m);
    RunOne(start, events);
    FirstCoveredPass();
    OneInstancePass(start, events, 0);
  }

  /** Backups stay paused with no Operation left in the store: `n` pauses them, `m` is
      created, `n` is deleted and leaves the pause to `m`, and `m` is deleted before any pass
      has given it a finalizer. */
  lemma PauseLeftBehind(n: string, m: string) returns (events: seq<Event>)
    requires n != "" && m != "" && n != m
    ensures NothingCreated(Fresh(COVERED, map[]), events)
    ensures var s := Run(Fresh(COVERED, map[]), events); s.ops == map[] && s.cluster.paused
  {
    hide Apply, NothingCreated;
    var start := Fresh(COVERED, map[]);
    events := PauseRun(n, m);
    PauseRunIsWhole(n, m);
    RunOne(start, events);
    RunTwo(start, events, 1);
    RunFour(start, events, 3);
    assert events[..7] == events;
    FirstCoveredPass();
    var s1 := Apply(start, events[0]);
    CreatePass(s1, n, Refresh);
    PausesAndWaits(Apply(s1, events[1]), n);
    HandsOverAndLeaves(Run(start, events[..3]), n, m);
  }

  lemma HandsOverAndLeaves(s: State, n: string, m: string)
    requires n != "" && m != "" && n != m
    requires CoveredIs(s, map[n := Made(n, 0, Refresh).(finalizer := true)], 1) && s.cluster.paused
    ensures var t := Apply(Apply(Apply(Apply(s, CreateOperation(m, "city", Refresh, [])), DeleteOperation(n)),
                                 OperationPass(n, NOT_YET)), DeleteOperation(m));
            t.ops == map[] && t.cluster.paused
  {
    var s1 := Apply(s, CreateOperation(m, "city", Refresh, []));
    var s2 := Apply(s1, DeleteOperation(n));
    var cleared := SyncRef(s2, n, false);
    assert cleared.ops[m] in Children(cleared);
    assert HasOtherActiveMatching(cleared, n);
    var t := Apply(Apply(s2, OperationPass(n, NOT_YET)), DeleteOperation(m));
    assert t.ops.Keys == {};
  }
}
