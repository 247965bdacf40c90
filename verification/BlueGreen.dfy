/** The BlueGreen swap: the phase machine and the passes that drive it
    (internal/controller/rebuild_bluegreen.go, rebuild_bluegreen_reconcile.go). */
module BlueGreen {
  import opened Operations

  /** Nanoseconds, as Go keeps them in memory. */
  type Instant = int

  const SECOND: int := 1_000_000_000
  const WINDOW: int := 3600 * SECOND

  /** metav1.Time is written to the API in whole seconds, so a stored instant is truncated. */
  function Stored(t: Instant): Instant {
    t - t % SECOND
  }

  datatype RebuildPhase =
    | NoPhase | Provisioning | Importing | ReadyToCutover | Cutover
    | RollbackWindow | GarbageCollect | Done | Broken

  // ---------------------------------------------------------------- the phase machine

  datatype Input = Input(
    phase: RebuildPhase, pendingReady: bool, importSucceeded: bool, apiCutoverReady: bool,
    blueGone: bool, failed: bool, rollbackUntil: Option<Instant>, now: Instant, window: int)

  datatype Actions = Actions(
    ensurePending: bool, ensureImportJob: bool, cutoverApi: bool, collectBlue: bool, collectGreen: bool)

  const NOTHING := Actions(false, false, false, false, false)

  datatype Output = Output(phase: RebuildPhase, rollbackUntil: Option<Instant>)

  predicate PastCutover(phase: RebuildPhase) {
    phase.Cutover? || phase.RollbackWindow? || phase.GarbageCollect? || phase.Done?
  }

  /** advanceBlueGreen */
  function Advance(x: Input): (Output, Actions) {
    var window := if x.window <= 0 then WINDOW else x.window;
    var stay := Output(x.phase, x.rollbackUntil);
    if x.failed && !PastCutover(x.phase) then
      (stay.(phase := Broken), NOTHING.(collectGreen := true))
    else
      match x.phase
      case NoPhase | Provisioning =>
        if x.pendingReady then (stay.(phase := Importing), NOTHING.(ensureImportJob := true))
        else (stay.(phase := Provisioning), NOTHING.(ensurePending := true))
      case Importing =>
        if x.importSucceeded then (stay.(phase := ReadyToCutover), NOTHING)
        else (stay, NOTHING.(ensureImportJob := true))
      case ReadyToCutover =>
        (stay.(phase := Cutover), NOTHING.(cutoverApi := true))
      case Cutover =>
        if x.apiCutoverReady then
          (Output(RollbackWindow, if x.rollbackUntil.None? then Some(x.now + window) else x.rollbackUntil), NOTHING)
        else (stay, NOTHING.(cutoverApi := true))
      case RollbackWindow =>
        if x.rollbackUntil.Some? && x.now >= x.rollbackUntil.value
        then (stay.(phase := GarbageCollect), NOTHING.(collectBlue := true))
        else (stay, NOTHING)
      case GarbageCollect =>
        if x.blueGone then (stay.(phase := Done), NOTHING) else (stay, NOTHING.(collectBlue := true))
      case Done | Broken => (stay, NOTHING)
  }

  function Rank(phase: RebuildPhase): nat {
    match phase
    case NoPhase => 0
    case Provisioning => 0
    case Importing => 1
    case ReadyToCutover => 2
    case Cutover => 3
    case RollbackWindow => 4
    case GarbageCollect => 5
    case Done => 6
    case Broken => 6
  }

  /** What the next phase waits for. */
  predicate Blocked(x: Input) {
    match x.phase
    case NoPhase | Provisioning => !x.pendingReady && !x.failed
    case Importing => !x.importSucceeded && !x.failed
    case ReadyToCutover => false
    case Cutover => !x.apiCutoverReady
    case RollbackWindow => !(x.rollbackUntil.Some? && x.now >= x.rollbackUntil.value)
    case GarbageCollect => !x.blueGone
    case Done | Broken => true
  }

  /** For every input: the machine moves exactly when it is not blocked, by one rank unless
      it fails; terminal phases absorb; the rollback deadline is set once; a cluster is
      collected only as blue after the deadline or as green in failure, never both. */
  lemma AdvanceIsMonotone(x: Input)
    ensures var (out, act) := Advance(x);
            && (Rank(out.phase) > Rank(x.phase) <==> !Blocked(x))
            && (Blocked(x) ==> Rank(out.phase) == Rank(x.phase))
            && (!Blocked(x) && !out.phase.Broken? ==> Rank(out.phase) == Rank(x.phase) + 1)
            && (x.phase.Done? || x.phase.Broken? ==> out.phase == x.phase)
            && (x.rollbackUntil.Some? ==> out.rollbackUntil == x.rollbackUntil)
            && (out.phase.Broken? && !x.phase.Broken? ==> x.failed && !PastCutover(x.phase))
            && (act.collectGreen ==> out.phase.Broken? && !act.collectBlue && !act.cutoverApi)
            && (act.collectBlue ==>
                  && PastCutover(x.phase) && !act.cutoverApi
                  && (x.phase.GarbageCollect? || (x.rollbackUntil.Some? && x.now >= x.rollbackUntil.value)))
            && (act.cutoverApi ==> out.phase.Cutover?)
  {
  }

  /** Which actions each step asks for: the pending Cluster while provisioning, the import
      while importing, the cutover while cutting over, blue's deletion while collecting, and
      green's exactly when an import fails before cutover. */
  lemma AdvanceActs(x: Input)
    ensures var (out, act) := Advance(x);
            var fails := x.failed && !(x.phase in {Cutover, RollbackWindow, GarbageCollect, Done});
            && (act.collectGreen <==> fails)
            && (fails ==> out.phase == Broken)
            && (act.ensurePending <==> out.phase == Provisioning)
            && (act.ensureImportJob <==> out.phase == Importing)
            && (act.cutoverApi <==> out.phase == Cutover)
            && (act.collectBlue <==> out.phase == GarbageCollect)
  {
  }

  // ---------------------------------------------------------------- names

  function OwnedClusterName(instance: string): string {
    instance + "-pg"
  }

  function GreenClusterName(instance: string): string {
    OwnedClusterName(instance) + "-bg"
  }

  function AppSecretName(cluster: string): string {
    cluster + "-app"
  }

  lemma NamesDiffer(instance: string)
    ensures OwnedClusterName(instance) != GreenClusterName(instance)
    ensures OwnedClusterName(instance) != "" && GreenClusterName(instance) != ""
  {
    assert |GreenClusterName(instance)| == |OwnedClusterName(instance)| + 3;
  }

  // ---------------------------------------------------------------- stored objects

  datatype RebuildStatus = RebuildStatus(
    phase: RebuildPhase, operation: string,
    activeCluster: string, pendingCluster: string,
    activeSecret: string, pendingSecret: string,
    rollbackUntil: Option<Instant>)

  /** The instance's attachment, the Clusters that exist and those among them whose deletion
      has been requested, the clock, and (as history) when cutover was confirmed. */
  datatype Swap = Swap(
    instance: string,
    live: string,
    secret: string,
    rebuild: Option<RebuildStatus>,
    clusters: set<string>,
    terminating: set<string>,
    now: Instant,
    confirmedAt: Option<Instant>)

  function LiveClusterName(s: Swap): string {
    if s.live != "" then s.live else OwnedClusterName(s.instance)
  }

  /** seedBlueGreenRebuildStatus */
  function Seed(s: Swap, operation: string): RebuildStatus {
    var active := LiveClusterName(s);
    var pending := if active == GreenClusterName(s.instance) then OwnedClusterName(s.instance)
                   else GreenClusterName(s.instance);
    RebuildStatus(Provisioning, operation, active, pending, AppSecretName(active), AppSecretName(pending), None)
  }

  lemma SeedIgnoresHistory(s: Swap, operation: string)
    ensures Seed(s.(confirmedAt := None), operation) == Seed(s, operation)
  {
  }

  /** blueGreenRetiredClusterName */
  function RetiredClusterName(s: Swap): string {
    if s.live == GreenClusterName(s.instance) then OwnedClusterName(s.instance)
    else if s.live == OwnedClusterName(s.instance) then GreenClusterName(s.instance)
    else OwnedClusterName(s.instance)
  }

  /** applyBlueGreenCutover */
  function CutOver(s: Swap): Swap {
    match s.rebuild
    case None => s
    case Some(rb) =>
      s.(live := rb.pendingCluster, secret := rb.pendingSecret,
         rebuild := Some(rb.(activeCluster := rb.pendingCluster, activeSecret := rb.pendingSecret)))
  }

  /** deleteOwnedClusterBundle */
  function DeleteCluster(s: Swap, cluster: string): Swap {
    if cluster in s.clusters then s.(terminating := s.terminating + {cluster}) else s
  }

  /** The input depends on the attachment, the Clusters and the clock alone. */
  lemma InputIgnoresHistory(s: Swap, t: Swap, rb: RebuildStatus, opFailed: bool, blueGone: bool)
    requires t == s.(confirmedAt := t.confirmedAt, rebuild := t.rebuild)
    ensures InputFrom(t, rb, opFailed, blueGone) == InputFrom(s, rb, opFailed, blueGone)
    ensures RetiredClusterName(t) == RetiredClusterName(s)
  {
  }

  /** blueGreenInputFrom, with the phase the pass starts from. */
  function InputFrom(s: Swap, rb: RebuildStatus, opFailed: bool, blueGone: bool): Input {
    var phase := if rb.phase.NoPhase? || rb.phase.Provisioning? then Importing else rb.phase;
    Input(phase, false, !opFailed,
          s.secret == rb.pendingSecret && s.live == rb.pendingCluster,
          (phase.GarbageCollect? || phase.RollbackWindow?) && blueGone,
          opFailed && Rank(rb.phase) <= 2,
          rb.rollbackUntil, s.now, 0)
  }

  /** applyBlueGreenActions */
  function Act(s: Swap, act: Actions, retired: string): Swap
    requires s.rebuild.Some?
  {
    var s1 := if act.cutoverApi then CutOver(s) else s;
    var s2 := if act.collectBlue then DeleteCluster(s1, retired) else s1;
    if act.collectGreen then
      var green := s2.rebuild.value.pendingCluster;
      DeleteCluster(s2, if green == "" then GreenClusterName(s.instance) else green)
    else s2
  }

  /** reconcileBlueGreenAfterImport, and the phase it leaves the Operation in. */
  function AfterImport(s: Swap, operation: string, opFailed: bool): (Swap, Phase) {
    var s0 := if s.rebuild.None? then s.(rebuild := Some(Seed(s, operation))) else s;
    var rb := s0.rebuild.value;
    var retired := RetiredClusterName(s0);
    var (out, act) := Advance(InputFrom(s0, rb, opFailed, retired !in s0.clusters));
    var confirmed := if rb.phase.Cutover? && out.phase.RollbackWindow? then Some(s0.now) else s0.confirmedAt;
    var s1 := s0.(rebuild := Some(rb.(phase := out.phase, rollbackUntil := StoredDeadline(out.rollbackUntil))),
                  confirmedAt := confirmed);
    (Act(s1, act, retired),
     if out.phase.Done? then Phase.Succeeded else if out.phase.Broken? then Phase.Failed else Phase.Running)
  }

  function StoredDeadline(deadline: Option<Instant>): Option<Instant> {
    match deadline
    case None => None
    case Some(t) => Some(Stored(t))
  }

  /** ensureBlueGreenPending, reduced to the Cluster. */
  function EnsurePending(s: Swap, operation: string): Swap {
    var s0 := if s.rebuild.None? then s.(rebuild := Some(Seed(s, operation))) else s;
    var rb := s0.rebuild.value;
    var green := GreenClusterName(s.instance);
    var rb' := if rb.pendingCluster == ""
               then rb.(pendingCluster := green, pendingSecret := AppSecretName(green)) else rb;
    s0.(rebuild := Some(rb'), clusters := s0.clusters + {rb'.pendingCluster})
  }

  /** reconcileDatabaseClusterCreate */
  function ReconcileDatabase(s: Swap): Swap {
    var name := LiveClusterName(s);
    s.(clusters := s.clusters + {name}, live := name, secret := AppSecretName(name))
  }

  datatype Event =
    | AfterImportPass(opFailed: bool)
    | InstancePass
    | ClusterGone(cluster: string)
    | Tick(nanoseconds: nat)

  function Apply(s: Swap, e: Event): Swap {
    match e
    case AfterImportPass(opFailed) => AfterImport(s, "", opFailed).0
    case InstancePass => ReconcileDatabase(s)
    case ClusterGone(c) =>
      if c in s.terminating then s.(clusters := s.clusters - {c}, terminating := s.terminating - {c}) else s
    case Tick(d) => s.(now := s.now + d)
  }

  function Run(s: Swap, events: seq<Event>): Swap {
    if events == [] then s
    else Apply(Run(s, events[..|events| - 1]), events[|events| - 1])
  }

  /** A fresh swap: a new seed and its pending Cluster. */
  function Start(s: Swap, operation: string): Swap {
    EnsurePending(s.(rebuild := Some(Seed(s, operation)), confirmedAt := None), operation)
  }

  // ---------------------------------------------------------------- the passes as they run

  /** Status and Clusters as the two controllers update them. */
  class Controller {
    const instance: string
    var live: string
    var secret: string
    var rebuild: Option<RebuildStatus>
    var clusters: set<string>
    var terminating: set<string>
    var now: Instant
    ghost var confirmedAt: Option<Instant>

    ghost function View(): Swap
      reads this
    {
      Swap(instance, live, secret, rebuild, clusters, terminating, now, confirmedAt)
    }

    constructor (instance: string, now: Instant)
      ensures View() == Swap(instance, "", "", None, {}, {}, now, None)
    {
      this.instance := instance;
      live, secret, rebuild := "", "", None;
      clusters, terminating := {}, {};
      this.now, confirmedAt := now, None;
    }

    method ApplyCutover()
      modifies this`live, this`secret, this`rebuild
      ensures View() == CutOver(old(View()))
    {
      if rebuild.None? {
        return;
      }
      live := rebuild.value.pendingCluster;
      secret := rebuild.value.pendingSecret;
      rebuild := Some(rebuild.value.(activeCluster := rebuild.value.pendingCluster));
      rebuild := Some(rebuild.value.(activeSecret := rebuild.value.pendingSecret));
    }

    method DeleteBundle(cluster: string)
      modifies this`terminating
      ensures View() == DeleteCluster(old(View()), cluster)
    {
      if cluster in clusters {
        terminating := terminating + {cluster};
      }
    }

    method ApplyActions(act: Actions, retired: string)
      requires rebuild.Some?
      modifies this`live, this`secret, this`rebuild, this`terminating
      ensures View() == Act(old(View()), act, retired)
    {
      if act.cutoverApi {
        ApplyCutover();
      }
      if act.collectBlue {
        DeleteBundle(retired);
      }
      if act.collectGreen {
        var green := rebuild.value.pendingCluster;
        if green == "" {
          green := GreenClusterName(instance);
        }
        DeleteBundle(green);
      }
    }

    method CurrentStatus() returns (s: Swap)
      ensures s == View().(confirmedAt := None)
    {
      s := Swap(instance, live, secret, rebuild, clusters, terminating, now, None);
    }

    method ReconcileAfterImport(operation: string, opFailed: bool) returns (phase: Phase)
      modifies this
      ensures (View(), phase) == AfterImport(old(View()), operation, opFailed)
    {
      hide Act, Advance, Seed, InputFrom, RetiredClusterName;
      var snapshot := CurrentStatus();
      if rebuild.None? {
        rebuild := Some(Seed(snapshot, operation));
      }
      assert Seed(snapshot, operation) == Seed(old(View()), operation) by {
        SeedIgnoresHistory(old(View()), operation);
      }
      var rb := rebuild.value;
      var retired := RetiredClusterName(snapshot);
      InputIgnoresHistory(snapshot, old(View()).(rebuild := rebuild), rb, opFailed, retired !in clusters);
      var (out, act) := Advance(InputFrom(snapshot, rb, opFailed, retired !in clusters));
      if rb.phase.Cutover? && out.phase.RollbackWindow? {
        confirmedAt := Some(now);
      }
      rb := rb.(phase := out.phase);
      rb := rb.(rollbackUntil := StoredDeadline(out.rollbackUntil));
      rebuild := Some(rb);
      ApplyActions(act, retired);
      match out.phase
      case Done => phase := Phase.Succeeded;
      case Broken => phase := Phase.Failed;
      case _ => phase := Phase.Running;
    }

    method EnsurePendingCluster(operation: string)
      modifies this`rebuild, this`clusters
      ensures View() == EnsurePending(old(View()), operation)
    {
      if rebuild.None? {
        var snapshot := CurrentStatus();
        rebuild := Some(Seed(snapshot, operation));
      }
      var pending := rebuild.value.pendingCluster;
      if pending == "" {
        pending := GreenClusterName(instance);
        rebuild := Some(rebuild.value.(pendingCluster := pending, pendingSecret := AppSecretName(pending)));
      }
      clusters := clusters + {pending};
    }

    method ReconcileClusterCreate()
      modifies this`clusters, this`live, this`secret
      ensures View() == ReconcileDatabase(old(View()))
    {
      var clusterName := if live != "" then live else OwnedClusterName(instance);
      clusters := clusters + {clusterName};
      live := clusterName;
      secret := AppSecretName(clusterName);
    }

    method Handle(e: Event)
      modifies this
      ensures View() == Apply(old(View()), e)
    {
      match e
      case AfterImportPass(opFailed) =>
        var _ := ReconcileAfterImport("", opFailed);
      case InstancePass => ReconcileClusterCreate();
      case ClusterGone(c) =>
        if c in terminating {
          clusters, terminating := clusters - {c}, terminating - {c};
        }
      case Tick(d) => now := now + d;
    }

    method HandleAll(events: seq<Event>)
      modifies this
      ensures View() == Run(old(View()), events)
    {
      hide Apply;
      for i := 0 to |events|
        invariant View() == Run(old(View()), events[..i])
      {
        Handle(events[i]);
        assert events[..i + 1][..i] == events[..i];
      }
      assert events[..|events|] == events;
    }
  }
}
