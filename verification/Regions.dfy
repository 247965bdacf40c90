/** status.regions and the sealed import settings, replayed from succeeded Operations
    (internal/controller/nominatim_region_observe.go, nominatim_config.go). */
module Regions {
  import opened Operations

  /** Import-time settings: import style and tokenizer. */
  datatype Settings = Settings(importStyle: string, tokenizer: string)

  /** spec.regionChangePolicy; an empty policy means AddData. */
  datatype Policy = AddData | RebuildAll

  /** What the replay reads and writes of the instance; region timestamps are left out. */
  datatype Instance = Instance(
    name: string,
    generation: nat,
    specRegions: seq<string>,
    specSettings: Settings,
    policy: Policy,
    connectionSecret: string,
    regions: seq<string>,
    sealed: Option<Settings>)

  // ---------------------------------------------------------------- single Operations

  /** mergeRegionsIntoStatus: appends what is not there yet, each region once. */
  function Merge(have: seq<string>, regions: seq<string>): seq<string>
    decreases |regions|
  {
    if regions == [] then have
    else Merge(if regions[0] in have then have else have + [regions[0]], regions[1..])
  }

  method MergeRegions(have: seq<string>, regions: seq<string>) returns (merged: seq<string>)
    ensures merged == Merge(have, regions)
  {
    merged := have;
    var known := set r | r in have;
    for i := 0 to |regions|
      invariant known == set r | r in merged
      invariant Merge(merged, regions[i..]) == Merge(have, regions)
    {
      var region := regions[i];
      assert regions[i..][1..] == regions[i + 1..];
      if region !in known {
        merged := merged + [region];
        known := known + {region};
      }
    }
  }

  /** The result has the old list as a prefix and contains exactly the old and new regions;
      merging the same regions again changes nothing. */
  lemma {:induction false} MergeExtends(have: seq<string>, regions: seq<string>)
    ensures have <= Merge(have, regions)
    ensures forall r :: r in Merge(have, regions) <==> r in have || r in regions
    ensures (forall r :: r in regions ==> r in have) ==> Merge(have, regions) == have
    decreases |regions|
  {
    if regions != [] {
      assert regions == [regions[0]] + regions[1..];
      MergeExtends(if regions[0] in have then have else have + [regions[0]], regions[1..]);
    }
  }

  /** New regions come after the old ones in the order they are named in, each once. */
  lemma {:induction false} MergeAppendsInOrder(have: seq<string>, regions: seq<string>)
    requires forall i, j :: 0 <= i < j < |regions| ==> regions[i] != regions[j]
    requires forall i :: 0 <= i < |regions| ==> regions[i] !in have
    ensures Merge(have, regions) == have + regions
    decreases |regions|
  {
    if regions != [] {
      var more := have + [regions[0]];
      assert regions == [regions[0]] + regions[1..];
      MergeAppendsInOrder(more, regions[1..]);
      assert more + regions[1..] == have + regions;
    }
  }

  /** No region is listed twice. */
  lemma {:induction false} MergeStaysDistinct(have: seq<string>, regions: seq<string>)
    requires forall i, j :: 0 <= i < j < |have| ==> have[i] != have[j]
    ensures forall i, j :: 0 <= i < j < |Merge(have, regions)| ==> Merge(have, regions)[i] != Merge(have, regions)[j]
    decreases |regions|
  {
    if regions != [] {
      MergeStaysDistinct(if regions[0] in have then have else have + [regions[0]], regions[1..]);
    }
  }

  predicate IsSucceeded(op: Operation, t: OpType) {
    op.opType == t && op.phase.Succeeded?
  }

  /** One turn of syncRegionsFromDriftOps. A Rebuild seals the current settings again. */
  function Observe(nom: Instance, op: Operation): Instance {
    if IsSucceeded(op, AddRegions) then nom.(regions := Merge(nom.regions, op.regions))
    else if IsSucceeded(op, Rebuild) then nom.(regions := op.regions, sealed := Some(nom.specSettings))
    else nom
  }

  function ObserveAll(nom: Instance, ops: seq<Operation>): Instance {
    if ops == [] then nom
    else Observe(ObserveAll(nom, ops[..|ops| - 1]), ops[|ops| - 1])
  }

  // ---------------------------------------------------------------- bootstrap

  function BootstrapRegions(nom: Instance, op: Operation): seq<string> {
    if !IsSucceeded(op, Bootstrap) then []
    else if op.regions != [] then op.regions else nom.specRegions
  }

  /** The regions of the first succeeded Bootstrap that names any. */
  function FirstBootstrap(nom: Instance, ops: seq<Operation>): seq<string> {
    if ops == [] then []
    else if BootstrapRegions(nom, ops[0]) != [] then BootstrapRegions(nom, ops[0])
    else FirstBootstrap(nom, ops[1..])
  }

  /** syncRegionsFromBootstrap: fills an empty list, and seals unless already sealed. */
  function FromBootstrap(nom: Instance, ops: seq<Operation>): Instance {
    var found := FirstBootstrap(nom, ops);
    if nom.regions != [] || found == [] then nom
    else nom.(regions := found, sealed := if nom.sealed.Some? then nom.sealed else Some(nom.specSettings))
  }

  /** observeRegionsFromSucceededOps */
  function Replay(nom: Instance, ops: seq<Operation>): Instance {
    ObserveAll(FromBootstrap(nom, ops), ops)
  }

  /** The instance status as the replay loops update it. */
  class Status {
    const name: string
    const generation: nat
    const specRegions: seq<string>
    const specSettings: Settings
    const policy: Policy
    const connectionSecret: string
    var regions: seq<string>
    var sealed: Option<Settings>

    ghost function View(): Instance
      reads this
    {
      Instance(name, generation, specRegions, specSettings, policy, connectionSecret, regions, sealed)
    }

    constructor (nom: Instance)
      ensures View() == nom
    {
      name, generation, specRegions := nom.name, nom.generation, nom.specRegions;
      specSettings, policy, connectionSecret := nom.specSettings, nom.policy, nom.connectionSecret;
      regions, sealed := nom.regions, nom.sealed;
    }

    /** sealObservedNominatimConfigForce */
    method Seal(force: bool)
      modifies this`sealed
      ensures sealed == if !force && old(sealed).Some? then old(sealed) else Some(specSettings)
    {
      if !force && sealed.Some? {
        return;
      }
      sealed := Some(specSettings);
    }

    method SyncRegionsFromBootstrap(ops: seq<Operation>)
      modifies this`regions, this`sealed
      ensures View() == FromBootstrap(old(View()), ops)
    {
      if |regions| > 0 {
        return;
      }
      ghost var nom := View();
      for i := 0 to |ops|
        invariant View() == nom
        invariant FirstBootstrap(nom, ops[i..]) == FirstBootstrap(nom, ops)
      {
        var op := ops[i];
        assert ops[i..][1..] == ops[i + 1..];
        if !op.opType.Bootstrap? || !op.phase.Succeeded? {
          continue;
        }
        var found := op.regions;
        if |found| == 0 {
          found := specRegions;
        }
        if |found| == 0 {
          continue;
        }
        regions := found;
        Seal(false);
        return;
      }
    }

    method SyncRegionsFromDriftOps(ops: seq<Operation>)
      modifies this`regions, this`sealed
      ensures View() == ObserveAll(old(View()), ops)
    {
      for i := 0 to |ops|
        invariant View() == ObserveAll(old(View()), ops[..i])
      {
        var op := ops[i];
        assert ops[..i + 1][..i] == ops[..i];
        if !op.phase.Succeeded? {
          continue;
        }
        if op.opType.AddRegions? {
          var merged := MergeRegions(regions, op.regions);
          regions := merged;
        } else if op.opType.Rebuild? {
          regions := op.regions;
          Seal(true);
        }
      }
      assert ops[..|ops|] == ops;
    }

    method ObserveRegions(ops: seq<Operation>)
      modifies this`regions, this`sealed
      ensures View() == Replay(old(View()), ops)
    {
      SyncRegionsFromBootstrap(ops);
      SyncRegionsFromDriftOps(ops);
    }
  }

  // ---------------------------------------------------------------- what fills an empty list

  /** A Bootstrap that yields regions: it has succeeded, and it or the spec names some. */
  ghost predicate Yields(nom: Instance, op: Operation) {
    op.opType == Bootstrap && op.phase == Succeeded && (op.regions != [] || nom.specRegions != [])
  }

  /** An empty list is filled by the first listed Bootstrap that yields regions, with its own
      if it names any and the spec's otherwise, and the current settings are sealed unless a
      seal is there; a filled list, or no such Bootstrap, leaves everything as it is. */
  lemma {:induction false} BootstrapFills(nom: Instance, ops: seq<Operation>, i: nat)
    requires i <= |ops| && forall j :: 0 <= j < i ==> !Yields(nom, ops[j])
    requires i < |ops| ==> Yields(nom, ops[i])
    ensures FirstBootstrap(nom, ops) ==
              if i == |ops| then [] else if ops[i].regions != [] then ops[i].regions else nom.specRegions
    ensures var t := FromBootstrap(nom, ops);
            if nom.regions != [] || i == |ops| then t == nom
            else && t.regions == (if ops[i].regions != [] then ops[i].regions else nom.specRegions)
                 && t.sealed == (if nom.sealed == None then Some(nom.specSettings) else nom.sealed)
                 && t == nom.(regions := t.regions, sealed := t.sealed)
  {
    if 0 < i {
      assert !Yields(nom, ops[0]);
      BootstrapFills(nom, ops[1..], i - 1);
    } else if ops != [] {
      assert Yields(nom, ops[0]);
    }
  }

  /** Until something is sealed or observed the settings in effect are the spec's. */
  lemma SpecIsInEffect(nom: Instance)
    requires nom.regions == [] || nom.sealed == None
    ensures EffectiveSettings(nom) == nom.specSettings
  {
  }

  // ---------------------------------------------------------------- replay laws

  ghost predicate HasRebuild(ops: seq<Operation>) {
    exists i :: 0 <= i < |ops| && IsSucceeded(ops[i], Rebuild)
  }

  lemma {:induction false} ObserveKeepsSpec(nom: Instance, ops: seq<Operation>)
    ensures var t := ObserveAll(nom, ops);
            t == nom.(regions := t.regions, sealed := t.sealed)
  {
    if ops != [] { ObserveKeepsSpec(nom, ops[..|ops| - 1]); }
  }

  lemma {:induction false} ObserveConcat(nom: Instance, a: seq<Operation>, b: seq<Operation>)
    ensures ObserveAll(nom, a + b) == ObserveAll(ObserveAll(nom, a), b)
  {
    if b == [] {
      assert a + b == a;
    } else {
      assert (a + b)[..|a + b| - 1] == a + b[..|b| - 1];
      ObserveConcat(nom, a, b[..|b| - 1]);
    }
  }

  /** From the last succeeded Rebuild on, nothing earlier matters: neither the status the
      replay started from nor anything before that Rebuild in list order. */
  lemma LastRebuildDecides(a: Instance, b: Instance, before: seq<Operation>, before': seq<Operation>,
                           rebuild: Operation, after: seq<Operation>)
    requires b == a.(regions := b.regions, sealed := b.sealed)
    requires IsSucceeded(rebuild, Rebuild)
    ensures Replay(a, before + [rebuild] + after) == Replay(b, before' + [rebuild] + after)
    ensures Replay(a, before + [rebuild] + after) ==
              ObserveAll(a.(regions := rebuild.regions, sealed := Some(a.specSettings)), after)
  {
    ReplayFromRebuild(a, before, rebuild, after);
    ReplayFromRebuild(b, before', rebuild, after);
  }

  lemma ReplayFromRebuild(nom: Instance, before: seq<Operation>, rebuild: Operation, after: seq<Operation>)
    requires IsSucceeded(rebuild, Rebuild)
    ensures Replay(nom, before + [rebuild] + after) ==
              ObserveAll(nom.(regions := rebuild.regions, sealed := Some(nom.specSettings)), after)
  {
    var start := FromBootstrap(nom, before + [rebuild] + after);
    ObserveConcat(start, before + [rebuild], after);
    assert (before + [rebuild])[..|before + [rebuild]| - 1] == before;
    ObserveKeepsSpec(start, before);
  }

  lemma {:induction false} SplitAtLastRebuild(ops: seq<Operation>)
    returns (before: seq<Operation>, rebuild: Operation, after: seq<Operation>)
    requires HasRebuild(ops)
    ensures ops == before + [rebuild] + after && IsSucceeded(rebuild, Rebuild) && !HasRebuild(after)
  {
    var last := ops[|ops| - 1];
    if IsSucceeded(last, Rebuild) {
      before, rebuild, after := ops[..|ops| - 1], last, [];
    } else {
      var init := ops[..|ops| - 1];
      var i :| 0 <= i < |ops| && IsSucceeded(ops[i], Rebuild);
      assert IsSucceeded(init[i], Rebuild);
      before, rebuild, after := SplitAtLastRebuild(init);
      assert forall j :: 0 <= j < |after + [last]| ==> !IsSucceeded((after + [last])[j], Rebuild);
      after := after + [last];
    }
  }

  /** Without a Rebuild the observed regions are only ever extended, by exactly the regions
      of the succeeded AddRegions. */
  lemma {:induction false} OnlyExtends(nom: Instance, ops: seq<Operation>)
    requires !HasRebuild(ops)
    ensures var t := ObserveAll(nom, ops);
            && nom.regions <= t.regions && t.sealed == nom.sealed
            && (forall r :: r in t.regions <==>
                  || r in nom.regions
                  || exists i :: 0 <= i < |ops| && IsSucceeded(ops[i], AddRegions) && r in ops[i].regions)
  {
    if ops != [] {
      var init, last := ops[..|ops| - 1], ops[|ops| - 1];
      assert !HasRebuild(init) by {
        assert forall j :: 0 <= j < |init| ==> init[j] == ops[j];
      }
      OnlyExtends(nom, init);
      MergeExtends(ObserveAll(nom, init).regions, last.regions);
      assert forall r, i :: 0 <= i < |init| && IsSucceeded(init[i], AddRegions) && r in init[i].regions ==>
               IsSucceeded(ops[i], AddRegions) && r in ops[i].regions;
      assert forall r, i :: 0 <= i < |ops| && IsSucceeded(ops[i], AddRegions) && r in ops[i].regions ==>
               (i < |init| && IsSucceeded(init[i], AddRegions) && r in init[i].regions) || i == |init|;
    }
  }

  /** Replaying when everything is already merged changes nothing. */
  lemma {:induction false} NothingNew(nom: Instance, ops: seq<Operation>)
    requires !HasRebuild(ops)
    requires forall i, r :: 0 <= i < |ops| && IsSucceeded(ops[i], AddRegions) && r in ops[i].regions ==>
          r in nom.regions
    ensures ObserveAll(nom, ops) == nom
  {
    if ops != [] {
      var init, last := ops[..|ops| - 1], ops[|ops| - 1];
      assert forall j :: 0 <= j < |init| ==> init[j] == ops[j];
      assert !HasRebuild(init);
      NothingNew(nom, init);
      MergeExtends(nom.regions, last.regions);
    }
  }

  /** Replaying the same list again changes nothing. */
  lemma ReplayIsIdempotent(nom: Instance, ops: seq<Operation>)
    ensures Replay(Replay(nom, ops), ops) == Replay(nom, ops)
  {
    var once := Replay(nom, ops);
    ObserveKeepsSpec(FromBootstrap(nom, ops), ops);
    if HasRebuild(ops) {
      var before, rebuild, after := SplitAtLastRebuild(ops);
      LastRebuildDecides(nom, once, before, before, rebuild, after);
    } else {
      var start := FromBootstrap(nom, ops);
      OnlyExtends(start, ops);
      BootstrapIsSpent(nom, once, ops);
      forall i, r | 0 <= i < |ops| && IsSucceeded(ops[i], AddRegions) && r in ops[i].regions
        ensures r in once.regions {}
      NothingNew(once, ops);
    }
  }

  lemma {:induction false} FirstBootstrapBySpec(a: Instance, b: Instance, ops: seq<Operation>)
    requires a.specRegions == b.specRegions
    ensures FirstBootstrap(a, ops) == FirstBootstrap(b, ops)
  {
    if ops != [] { FirstBootstrapBySpec(a, b, ops[1..]); }
  }

  /** A second look for a Bootstrap finds the list filled, or nothing to fill it with. */
  lemma BootstrapIsSpent(nom: Instance, once: Instance, ops: seq<Operation>)
    requires once == nom.(regions := once.regions, sealed := once.sealed)
    requires FromBootstrap(nom, ops).regions <= once.regions
    ensures FromBootstrap(once, ops) == once
  {
    FirstBootstrapBySpec(nom, once, ops);
  }

  /** Import-time settings have no influence on the regions. */
  lemma {:induction false} SettingsDoNotMatter(a: Instance, b: Instance, ops: seq<Operation>)
    requires a.specRegions == b.specRegions && a.regions == b.regions
    ensures ObserveAll(a, ops).regions == ObserveAll(b, ops).regions
    ensures Replay(a, ops).regions == Replay(b, ops).regions
  {
    ObservedAlike(a, b, ops);
    FirstBootstrapBySpec(a, b, ops);
    ObservedAlike(FromBootstrap(a, ops), FromBootstrap(b, ops), ops);
  }

  lemma {:induction false} ObservedAlike(a: Instance, b: Instance, ops: seq<Operation>)
    requires a.regions == b.regions
    ensures ObserveAll(a, ops).regions == ObserveAll(b, ops).regions
  {
    if ops != [] { ObservedAlike(a, b, ops[..|ops| - 1]); }
  }

  /** Once regions are observed they never vanish, unless a Rebuild that names none succeeds. */
  lemma {:induction false} RegionsStay(nom: Instance, ops: seq<Operation>)
    requires nom.regions != []
    requires forall i :: 0 <= i < |ops| && IsSucceeded(ops[i], Rebuild) ==> ops[i].regions != []
    ensures ObserveAll(nom, ops).regions != [] && Replay(nom, ops).regions != []
  {
    assert FromBootstrap(nom, ops) == nom;
    if ops != [] {
      var init := ops[..|ops| - 1];
      assert forall i :: 0 <= i < |init| ==> init[i] == ops[i];
      RegionsStay(nom, init);
      MergeExtends(ObserveAll(nom, init).regions, ops[|ops| - 1].regions);
    }
  }

  // ---------------------------------------------------------------- the seal

  /** effectiveImportTimeSettings */
  function EffectiveSettings(nom: Instance): Settings {
    if nom.regions != [] && nom.sealed.Some? then nom.sealed.value else nom.specSettings
  }

  /** The user edits the spec, then an instance pass replays the Operations listed then. */
  datatype Turn = Turn(settings: Settings, ops: seq<Operation>)

  function Play(nom: Instance, turns: seq<Turn>): Instance {
    if turns == [] then nom
    else
      var last := turns[|turns| - 1];
      Replay(Play(nom, turns[..|turns| - 1]).(specSettings := last.settings), last.ops)
  }

  /** One replay keeps a seal exactly when no succeeded Rebuild is listed, or the spec says
      the same as the seal. While one stays listed, every pass seals the current spec. */
  lemma ReplayKeepsSealIff(nom: Instance, ops: seq<Operation>)
    requires nom.sealed.Some?
    ensures Replay(nom, ops).sealed == nom.sealed <==>
              !HasRebuild(ops) || nom.specSettings == nom.sealed.value
  {
    if HasRebuild(ops) {
      var before, rebuild, after := SplitAtLastRebuild(ops);
      ReplayFromRebuild(nom, before, rebuild, after);
      OnlyExtends(nom.(regions := rebuild.regions, sealed := Some(nom.specSettings)), after);
    } else {
      OnlyExtends(FromBootstrap(nom, ops), ops);
    }
  }

  /** In every run without a succeeded Rebuild the seal is written at most once, and from
      then on the effective import-time settings are the sealed ones under any later edits
      of the spec, while regions are only ever added. */
  lemma {:induction false} SealIsFinal(nom: Instance, turns: seq<Turn>)
    requires nom.sealed.Some? && nom.regions != []
    requires forall i :: 0 <= i < |turns| ==> !HasRebuild(turns[i].ops)
    ensures var t := Play(nom, turns);
            && t.sealed == nom.sealed && nom.regions <= t.regions
            && EffectiveSettings(t) == nom.sealed.value
  {
    if turns != [] {
      SealIsFinal(nom, turns[..|turns| - 1]);
      var last := turns[|turns| - 1];
      var before := Play(nom, turns[..|turns| - 1]).(specSettings := last.settings);
      OnlyExtends(FromBootstrap(before, last.ops), last.ops);
    }
  }

  /** A replay writes a first seal only when it takes the regions of a Bootstrap or of a
      Rebuild, and it seals the spec of that moment. */
  lemma FirstSeal(nom: Instance, ops: seq<Operation>)
    requires nom.sealed.None? && !HasRebuild(ops)
    ensures var t := Replay(nom, ops);
            && (t.sealed.Some? <==> nom.regions == [] && FirstBootstrap(nom, ops) != [])
            && (t.sealed.Some? ==> t.sealed.value == nom.specSettings && FirstBootstrap(nom, ops) <= t.regions)
  {
    OnlyExtends(FromBootstrap(nom, ops), ops);
  }
}
