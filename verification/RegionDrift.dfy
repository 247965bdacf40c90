/** The drift path that asks for missing regions
    (internal/controller/nominatim_region_drift.go). */
module RegionDrift {
  import opened Names
  import opened Operations
  import opened Regions

  /** difference(a, b): the elements of a that b lacks, in order, repetitions included. */
  function Difference(a: seq<string>, b: seq<string>): seq<string> {
    if a == [] then []
    else (if a[0] in b then [] else [a[0]]) + Difference(a[1..], b)
  }

  method ComputeDifference(a: seq<string>, b: seq<string>) returns (missing: seq<string>)
    ensures missing == Difference(a, b)
  {
    var known := set x | x in b;
    missing := [];
    for i := 0 to |a|
      invariant missing + Difference(a[i..], b) == Difference(a, b)
    {
      assert a[i..][1..] == a[i + 1..];
      if a[i] !in known {
        missing := missing + [a[i]];
      }
    }
  }

  lemma {:induction false} DifferenceMembers(a: seq<string>, b: seq<string>)
    ensures forall x :: x in Difference(a, b) <==> x in a && x !in b
  {
    if a != [] {
      DifferenceMembers(a[1..], b);
      assert a == [a[0]] + a[1..];
    }
  }

  lemma {:induction false} DifferenceShrinks(a: seq<string>, b: seq<string>, c: seq<string>)
    requires forall x :: x in b ==> x in c
    ensures |Difference(a, c)| <= |Difference(a, b)|
    ensures (exists x :: x in a && x !in b && x in c) ==> |Difference(a, c)| < |Difference(a, b)|
  {
    if a != [] {
      DifferenceShrinks(a[1..], b, c);
      assert a == [a[0]] + a[1..];
    }
  }

  predicate BlocksDrift(op: Operation) {
    IsWriteHeavy(op.opType) && IsActive(op.phase)
  }

  function DriftType(nom: Instance): OpType {
    if nom.policy.RebuildAll? then Rebuild else AddRegions
  }

  function StableName(nom: Instance): string {
    nom.name + if nom.policy.RebuildAll? then "-rebuild" else "-addregions"
  }

  function RetryName(nom: Instance): string {
    StableName(nom) + "-" + Decimal(nom.generation)
  }

  ghost predicate Listed(ops: seq<Operation>, name: string) {
    exists i :: 0 <= i < |ops| && ops[i].name == name
  }

  /** What a drift pass does: nothing, fail for want of a connection secret, or ask the API
      server to create an Operation. */
  datatype Drift = Nothing | MissingSecret | Request(op: Operation)

  ghost function DriftRequest(nom: Instance, ops: seq<Operation>): Drift {
    var missing := Difference(nom.specRegions, nom.regions);
    if nom.regions == [] || missing == [] then Nothing
    else if exists i :: 0 <= i < |ops| && BlocksDrift(ops[i]) then Nothing
    else if nom.connectionSecret == "" then MissingSecret
    else if nom.policy.AddData?
            && exists i :: 0 <= i < |ops| && ops[i].name == StableName(nom) && !IsTerminal(ops[i].phase) then Nothing
    else Request(NewOperation(if Listed(ops, StableName(nom)) then RetryName(nom) else StableName(nom),
                              nom.name, DriftType(nom),
                              if nom.policy.AddData? then [missing[0]] else nom.specRegions))
  }

  method ReconcileDrift(nom: Instance, ops: seq<Operation>) returns (drift: Drift)
    ensures drift == DriftRequest(nom, ops)
  {
    if |nom.regions| == 0 {
      return Nothing;
    }
    var missing := ComputeDifference(nom.specRegions, nom.regions);
    if |missing| == 0 {
      return Nothing;
    }
    for i := 0 to |ops|
      invariant forall j :: 0 <= j < i ==> !BlocksDrift(ops[j])
    {
      if (ops[i].opType == DriftType(nom) && IsActive(ops[i].phase)) || BlocksDrift(ops[i]) {
        assert BlocksDrift(ops[i]);
        return Nothing;
      }
    }
    if nom.connectionSecret == "" {
      return MissingSecret;
    }
    var name := StableName(nom);
    if nom.policy.AddData? {
      for i := 0 to |ops|
        invariant forall j :: 0 <= j < i ==> !(ops[j].name == name && !IsTerminal(ops[j].phase))
      {
        if ops[i].name == name && !IsTerminal(ops[i].phase) {
          return Nothing;
        }
      }
    }
    var opName := name;
    for i := 0 to |ops|
      invariant opName == name
      invariant forall j :: 0 <= j < i ==> ops[j].name != name
    {
      if ops[i].name == opName {
        opName := RetryName(nom);
        break;
      }
    }
    drift := Request(NewOperation(opName, nom.name, DriftType(nom),
                                  if nom.policy.AddData? then [missing[0]] else nom.specRegions));
  }

  /** The drift path asks for nothing while write-heavy work is active, and otherwise for
      exactly one missing region or, by a Rebuild, for the whole spec. */
  lemma DriftWaits(nom: Instance, ops: seq<Operation>)
    ensures (exists i :: 0 <= i < |ops| && IsWriteHeavy(ops[i].opType) && IsActive(ops[i].phase)) ==>
              !DriftRequest(nom, ops).Request?
    ensures DriftRequest(nom, ops).Request? ==>
              var asked := DriftRequest(nom, ops).op.regions;
              if nom.policy.AddData? then |asked| == 1 && asked[0] in nom.specRegions && asked[0] !in nom.regions
              else (forall r :: r in asked <==> r in nom.specRegions) && exists r :: r in asked && r !in nom.regions
  {
    var missing := Difference(nom.specRegions, nom.regions);
    if DriftRequest(nom, ops).Request? {
      DifferenceMembers(nom.specRegions, nom.regions);
      assert missing[0] in missing;
    }
    if i :| 0 <= i < |ops| && IsWriteHeavy(ops[i].opType) && IsActive(ops[i].phase) {
      assert BlocksDrift(ops[i]);
    }
  }

  /** A wanted region that is not observed. */
  ghost predicate Missing(nom: Instance, i: int) {
    0 <= i < |nom.specRegions| && nom.specRegions[i] !in nom.regions
  }

  ghost predicate HeavyWork(ops: seq<Operation>) {
    exists i :: 0 <= i < |ops| && ops[i].opType in {Bootstrap, AddRegions, Rebuild, Migrate, Freeze}
                && (ops[i].phase in {Unset, Pending, Running})
  }

  /** An Operation that has not finished goes by the name AddRegions would take. */
  ghost predicate NameAtWork(nom: Instance, ops: seq<Operation>) {
    exists i :: 0 <= i < |ops| && ops[i].name == nom.name + "-addregions"
                && ops[i].phase != Succeeded && ops[i].phase != Failed
  }

  lemma {:induction false} FirstMissing(a: seq<string>, b: seq<string>)
    ensures Difference(a, b) != [] <==> exists i :: 0 <= i < |a| && a[i] !in b
    ensures Difference(a, b) != [] ==>
              exists i :: 0 <= i < |a| && a[i] == Difference(a, b)[0] && a[i] !in b
                          && forall j :: 0 <= j < i ==> a[j] in b
  {
    if a != [] {
      FirstMissing(a[1..], b);
      if a[0] !in b {
        assert a[0] == Difference(a, b)[0];
      } else if Difference(a, b) != [] {
        var i :| 0 <= i < |a[1..]| && a[1..][i] == Difference(a[1..], b)[0] && a[1..][i] !in b
                 && forall j :: 0 <= j < i ==> a[1..][j] in b;
        assert a[i + 1] == Difference(a, b)[0];
        forall j | 0 <= j < i + 1 ensures a[j] in b {
          if j > 0 { assert a[1..][j - 1] in b; }
        }
      }
      if k :| 0 <= k < |a| && a[k] !in b {
        if k > 0 { assert a[1..][k - 1] !in b; }
      }
    }
  }

  /** Exactly when a creation is asked for, and for what: regions are observed but some wanted
      one is missing, no write-heavy Operation is at work, the instance has a connection Secret,
      and under AddData no unfinished Operation has the stable name. AddData asks for the first
      missing region, a Rebuild for all wanted ones, under the stable name if it is free to
      look at and under the generation's otherwise. */
  lemma RequestsIff(nom: Instance, ops: seq<Operation>)
    ensures var r := DriftRequest(nom, ops);
            var drifts := nom.regions != [] && (exists i :: Missing(nom, i)) && !HeavyWork(ops);
            && (r.Request? <==>
                  drifts && nom.connectionSecret != "" && (nom.policy == AddData ==> !NameAtWork(nom, ops)))
            && (r.MissingSecret? <==> drifts && nom.connectionSecret == "")
            && (r.Request? ==>
                  var stable := nom.name + (if nom.policy == AddData then "-addregions" else "-rebuild");
                  && r.op.name == (if Listed(ops, stable) then stable + "-" + Decimal(nom.generation) else stable)
                  && r.op.parent == nom.name && r.op.phase == Unset
                  && r.op.opType == (if nom.policy == AddData then AddRegions else Rebuild)
                  && (nom.policy == RebuildAll ==> r.op.regions == nom.specRegions)
                  && (nom.policy == AddData ==>
                        |r.op.regions| == 1 && exists i :: Missing(nom, i) && r.op.regions[0] == nom.specRegions[i]
                                                           && forall j :: 0 <= j < i ==> !Missing(nom, j)))
  {
    MissingAlike(nom);
    HeavyAlike(ops);
    hide Difference, HeavyWork, BlocksDrift;
  }

  lemma HeavyAlike(ops: seq<Operation>)
    ensures HeavyWork(ops) <==> exists i :: 0 <= i < |ops| && BlocksDrift(ops[i])
  {
    if i :| 0 <= i < |ops| && BlocksDrift(ops[i]) {
      assert ops[i].opType in {Bootstrap, AddRegions, Rebuild, Migrate, Freeze};
    }
    if i :| 0 <= i < |ops| && ops[i].opType in {Bootstrap, AddRegions, Rebuild, Migrate, Freeze}
            && (ops[i].phase in {Unset, Pending, Running}) {
      assert BlocksDrift(ops[i]);
    }
  }

  lemma MissingAlike(nom: Instance)
    ensures var missing := Difference(nom.specRegions, nom.regions);
            && (missing != [] <==> exists i :: Missing(nom, i))
            && (missing != [] ==>
                  exists i :: Missing(nom, i) && missing[0] == nom.specRegions[i]
                              && forall j :: 0 <= j < i ==> !Missing(nom, j))
  {
    FirstMissing(nom.specRegions, nom.regions);
    var missing := Difference(nom.specRegions, nom.regions);
    if missing != [] {
      var i :| 0 <= i < |nom.specRegions| && nom.specRegions[i] == missing[0]
               && nom.specRegions[i] !in nom.regions && forall j :: 0 <= j < i ==> nom.specRegions[j] in nom.regions;
      assert Missing(nom, i);
    }
  }

  /** Every round in which the requested AddRegions succeeds and no Rebuild is listed strictly
      shrinks what is missing and loses no observed region. */
  lemma DriftMakesProgress(nom: Instance, ops: seq<Operation>, later: seq<Operation>, i: nat)
    requires nom.policy.AddData? && DriftRequest(nom, ops).Request? && !HasRebuild(later)
    requires i < |later| && IsSucceeded(later[i], AddRegions)
    requires later[i].regions == DriftRequest(nom, ops).op.regions
    ensures var t := Replay(nom, later);
            && nom.regions <= t.regions
            && |Difference(nom.specRegions, t.regions)| < |Difference(nom.specRegions, nom.regions)|
  {
    DriftWaits(nom, ops);
    var region := later[i].regions[0];
    OnlyExtends(FromBootstrap(nom, later), later);
    assert region in later[i].regions;
    var t := Replay(nom, later);
    assert nom.regions <= t.regions;
    forall x | x in nom.regions ensures x in t.regions {}
    DifferenceShrinks(nom.specRegions, nom.regions, t.regions);
  }

  ghost predicate AddedBy(ops: seq<Operation>, region: string) {
    exists i :: 0 <= i < |ops| && IsSucceeded(ops[i], AddRegions) && region in ops[i].regions
  }

  /** Once a Rebuild has succeeded, the drift is closed exactly when the Rebuild listed last
      and the AddRegions listed after it cover the spec; older Rebuilds and whatever the
      status said before contribute nothing. */
  lemma DriftClosedIff(nom: Instance, before: seq<Operation>, rebuild: Operation, after: seq<Operation>)
    requires IsSucceeded(rebuild, Rebuild) && !HasRebuild(after)
    ensures Difference(nom.specRegions, Replay(nom, before + [rebuild] + after).regions) == [] <==>
              forall r :: r in nom.specRegions ==> r in rebuild.regions || AddedBy(after, r)
  {
    var t := Replay(nom, before + [rebuild] + after);
    ReplayFromRebuild(nom, before, rebuild, after);
    OnlyExtends(nom.(regions := rebuild.regions, sealed := Some(nom.specSettings)), after);
    assert forall r :: r in t.regions <==> r in rebuild.regions || AddedBy(after, r);
    var missing := Difference(nom.specRegions, t.regions);
    DifferenceMembers(nom.specRegions, t.regions);
    assert missing != [] ==> missing[0] in missing;
  }

  /** The requested name is free exactly when the stable and the generation-suffixed name are
      not both listed, so under one generation at most two creations go through. */
  lemma NameIsFreeIff(nom: Instance, ops: seq<Operation>)
    requires DriftRequest(nom, ops).Request?
    ensures Listed(ops, DriftRequest(nom, ops).op.name) <==>
              Listed(ops, StableName(nom)) && Listed(ops, RetryName(nom))
  {
  }

  lemma {:induction false} LessAfterPrefix(prefix: string, a: string, b: string)
    ensures Less(prefix + a, prefix + b) == Less(a, b)
  {
    if prefix == [] {
      assert prefix + a == a && prefix + b == b;
    } else {
      LessAfterPrefix(prefix[1..], a, b);
      assert (prefix + a)[1..] == prefix[1..] + a && (prefix + b)[1..] == prefix[1..] + b;
    }
  }

  /** Three succeeded Rebuilds: the one under the stable name and the retries of two
      generations, the newer being the current one. */
  ghost predicate Retried(nom: Instance, first: Operation, older: Operation, g: nat, newer: Operation) {
    && nom.policy.RebuildAll? && g < nom.generation
    && first.name == StableName(nom)
    && older.name == RetryName(nom.(generation := g)) && newer.name == RetryName(nom)
    && IsSucceeded(first, Rebuild) && IsSucceeded(older, Rebuild) && IsSucceeded(newer, Rebuild)
  }

  function ByName(first: Operation, a: Operation, b: Operation): seq<Operation> {
    if Less(a.name, b.name) then [first, a, b] else [first, b, a]
  }

  lemma RetriesSort(nom: Instance, first: Operation, older: Operation, g: nat, newer: Operation)
    requires Retried(nom, first, older, g, newer)
    ensures Less(first.name, older.name) && Less(first.name, newer.name)
    ensures Less(older.name, newer.name) <==> Less(Decimal(g), Decimal(nom.generation))
  {
    var stable := StableName(nom);
    LessAfterPrefix(stable + "-", Decimal(g), Decimal(nom.generation));
    assert stable + "-" + Decimal(g) == stable + ("-" + Decimal(g));
    assert stable + "-" + Decimal(nom.generation) == stable + ("-" + Decimal(nom.generation));
    assert stable + "" == stable;
    LessAfterPrefix(stable, "", "-" + Decimal(g));
    LessAfterPrefix(stable, "", "-" + Decimal(nom.generation));
  }

  /** Name order is not creation order. In a list by name the regions of the newer Rebuild are
      the observed ones exactly when its generation also sorts later as text. */
  lemma NewerRebuildCountsIff(nom: Instance, first: Operation, older: Operation, g: nat, newer: Operation)
    requires Retried(nom, first, older, g, newer) && older.regions != newer.regions
    ensures Replay(nom, ByName(first, older, newer)).regions == newer.regions <==>
              Less(Decimal(g), Decimal(nom.generation))
  {
    RetriesSort(nom, first, older, g, newer);
    assert [first, older] + [newer] + [] == [first, older, newer];
    assert [first, newer] + [older] + [] == [first, newer, older];
    ReplayFromRebuild(nom, [first, older], newer, []);
    ReplayFromRebuild(nom, [first, newer], older, []);
  }

  /** Generations with equally many digits sort right; 9 and 10 do not. */
  lemma DigitsDecide(g: nat, h: nat)
    ensures |Decimal(g)| == |Decimal(h)| && g < h ==> Less(Decimal(g), Decimal(h))
    ensures !Less(Decimal(9), Decimal(10))
  {
    if |Digits(g)| == |Digits(h)| { SameLengthSortsByValue(g, h); }
    assert Digits(10) == "10" && Digits(9) == "9";
  }

  /** Otherwise the older regions replace the newer ones on every pass, and the drift they
      leave asks for a name that is already taken. */
  lemma NewerRebuildIsHidden(nom: Instance, first: Operation, older: Operation, g: nat, newer: Operation)
    requires Retried(nom, first, older, g, newer) && nom.connectionSecret != ""
    requires !Less(Decimal(g), Decimal(nom.generation))
    requires older.regions != [] && exists r :: r in nom.specRegions && r !in older.regions
    ensures var ops := ByName(first, older, newer);
            var t := Replay(nom, ops);
            t.regions == older.regions
            && DriftRequest(t, ops).Request? && DriftRequest(t, ops).op.name == newer.name
  {
    var ops := ByName(first, older, newer);
    RetriesSort(nom, first, older, g, newer);
    assert [first, newer] + [older] + [] == ops;
    ReplayFromRebuild(nom, [first, newer], older, []);
    DifferenceMembers(nom.specRegions, older.regions);
    assert ops[0].name == StableName(nom);
  }
}
