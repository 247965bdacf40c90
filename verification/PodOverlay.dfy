/** Merging a user's podSpec overlay into the operator's pod and sealing the operator's own
    wiring afterwards (internal/controller/pod_overlay.go). The strategic merge of two
    containers is an arbitrary function here; it keeps the name they share. */
module PodOverlay {
  import opened Operations
  import opened NamedLists
  import opened EnvOverlay
  import opened VolumeOverlay

  datatype Security = Security(privileged: Option<bool>, escalation: Option<bool>, added: seq<string>, rest: string)

  /** `other` is every container field the operator leaves to the overlay. */
  datatype Body = Body(
    image: string,
    pullPolicy: string,
    ports: seq<string>,
    command: seq<string>,
    args: seq<string>,
    envFrom: seq<string>,
    security: Option<Security>,
    env: seq<EnvVar>,
    mounts: seq<Mount>,
    other: string)
  type Container = Named<Body>

  /** Host namespaces and the service account. */
  datatype Access = Access(
    hostNetwork: bool,
    hostPID: bool,
    hostIPC: bool,
    shareProcessNamespace: Option<bool>,
    serviceAccount: string,
    automountToken: Option<bool>)

  /** `other` is every pod field that the strategic merge alone decides. */
  datatype Pod = Pod(
    containers: seq<Container>,
    initContainers: seq<Container>,
    volumes: seq<Volume>,
    access: Access,
    security: Option<string>,
    other: string)

  type Patch = (Container, Container) -> Container

  /** The strategic merges of containers and of pods. */
  datatype Patches = Patches(container: Patch, pod: (Pod, Pod) -> Pod)

  // ---------------------------------------------------------------- merging containers

  ghost function MergeOne(patch: Patch, base: Container, overlay: Container, managed: bool): Container {
    var body := patch(base, overlay).body;
    Named(base.name,
          if managed then
            body.(env := MergeEnv(base.body.env, overlay.body.env),
                  mounts := UnionMounts(base.body.mounts, overlay.body.mounts))
          else body)
  }

  ghost function MergeByName(patch: Patch, c: Container, overlay: seq<Container>, managed: string): Container {
    match LastNamed(overlay, c.name)
    case Some(o) => MergeOne(patch, c, o, c.name == managed)
    case None => c
  }

  ghost function Unnamed(base: seq<Container>): Container -> bool {
    (c: Container) => !HasName(base, c.name)
  }

  /** The base's containers, each merged with the overlay's of its name, then the overlay's
      other containers. */
  ghost function MergeContainers(patch: Patch, base: seq<Container>, overlay: seq<Container>,
                                 managed: string): seq<Container> {
    seq(|base|, i requires 0 <= i < |base| => MergeByName(patch, base[i], overlay, managed))
    + Keep(overlay, Unnamed(base))
  }

  method IndexContainers(containers: seq<Container>) returns (byName: map<string, Container>)
    ensures HoldsLast(byName, containers)
  {
    byName := map[];
    for i := 0 to |containers|
      invariant HoldsLast(byName, containers[..i])
    {
      HoldsLastSnoc(byName, containers[..i], containers[i]);
      assert containers[..i] + [containers[i]] == containers[..i + 1];
      byName := byName[containers[i].name := containers[i]];
    }
    assert containers[..|containers|] == containers;
  }

  method MergeOneContainer(patch: Patch, base: Container, overlay: Container, managed: bool) returns (merged: Container)
    ensures merged == MergeOne(patch, base, overlay, managed)
  {
    merged := patch(base, overlay).(name := base.name);
    if managed {
      var env := MergeEnvReservedWin(base.body.env, overlay.body.env);
      var mounts := UnionVolumeMounts(base.body.mounts, overlay.body.mounts);
      merged := merged.(body := merged.body.(env := env, mounts := mounts));
    }
  }

  lemma MergeIndexed(patch: Patch, c: Container, overlay: seq<Container>, byName: map<string, Container>,
                     managed: string)
    requires HoldsLast(byName, overlay)
    ensures MergeByName(patch, c, overlay, managed) ==
              if c.name in byName then MergeOne(patch, c, byName[c.name], c.name == managed) else c
  {
    LastNamedFinds(overlay, c.name);
  }

  /** The source ends with a fallback for a managed container that went missing; it never
      applies, because a container of either list is in the result by name. */
  method MergeWorkloadContainers(patch: Patch, base: seq<Container>, overlay: seq<Container>, managed: string)
    returns (out: seq<Container>)
    ensures out == MergeContainers(patch, base, overlay, managed)
    ensures HasName(out, managed) <==> HasName(base, managed) || HasName(overlay, managed)
  {
    hide LastNamed, Keep, MergeOne, MergeByName;
    var byName := IndexContainers(overlay);
    out := [];
    var seen: set<string> := {};
    for i := 0 to |base|
      invariant |out| == i
      invariant forall j :: 0 <= j < i ==> out[j] == MergeByName(patch, base[j], overlay, managed)
      invariant seen == set j | 0 <= j < i :: base[j].name
    {
      var c := base[i];
      seen := seen + {c.name};
      MergeIndexed(patch, c, overlay, byName, managed);
      if c.name in byName {
        c := MergeOneContainer(patch, c, byName[c.name], c.name == managed);
      }
      out := out + [c];
    }
    ghost var first := out;
    assert forall n :: n in seen <==> HasName(base, n);
    KeepNone(overlay[..0], Unnamed(base));
    for i := 0 to |overlay|
      invariant out == first + Keep(overlay[..i], Unnamed(base))
    {
      KeepPrefix(overlay, i, Unnamed(base));
      if overlay[i].name in seen {
        continue;
      }
      out := out + [overlay[i]];
    }
    assert overlay[..|overlay|] == overlay;
    assert out == MergeContainers(patch, base, overlay, managed);
    MergedNames(patch, base, overlay, managed);
  }

  lemma MergedNames(patch: Patch, base: seq<Container>, overlay: seq<Container>, managed: string)
    ensures var out := MergeContainers(patch, base, overlay, managed);
            forall n :: HasName(out, n) <==> HasName(base, n) || HasName(overlay, n)
  {
    var out := MergeContainers(patch, base, overlay, managed);
    var added := Keep(overlay, Unnamed(base));
    KeepMembers(overlay, Unnamed(base));
    forall n ensures HasName(out, n) <==> HasName(base, n) || HasName(overlay, n) {
      HasNameConcat(out[..|base|], added);
      assert out == out[..|base|] + added;
      HasNameIsIn(added, n);
      HasNameIsIn(overlay, n);
      if HasName(base, n) {
        var i :| 0 <= i < |base| && base[i].name == n;
        assert out[..|base|][i].name == n;
      } else if HasName(overlay, n) {
        var x :| x in overlay && x.name == n;
        assert x in added;
      }
    }
  }

  // ---------------------------------------------------------------- sealing

  /** What the operator insists on for its own container. */
  datatype Managed = Managed(name: string, image: string, pullPolicy: string)

  ghost function SealOne(c: Container, own: Managed, base: Option<Container>): Container {
    var body := c.body.(image := own.image, pullPolicy := own.pullPolicy);
    match base
    case None => c.(body := body)
    case Some(b) =>
      c.(body := body.(ports := b.body.ports, command := b.body.command, args := b.body.args,
                       envFrom := [], security := b.body.security,
                       env := MergeEnv(b.body.env, c.body.env),
                       mounts := UnionMounts(b.body.mounts, c.body.mounts)))
  }

  /** sealManagedContainer: only the first container of the managed name is sealed. */
  ghost function Seal(containers: seq<Container>, own: Managed, base: seq<Container>): seq<Container> {
    if containers == [] then []
    else if containers[0].name == own.name then
      [SealOne(containers[0], own, LastNamed(base, own.name))] + containers[1..]
    else [containers[0]] + Seal(containers[1..], own, base)
  }

  lemma {:induction false} SealsTheFirst(containers: seq<Container>, k: nat, own: Managed, base: seq<Container>)
    requires k <= |containers| && forall j :: 0 <= j < k ==> containers[j].name != own.name
    requires k < |containers| ==> containers[k].name == own.name
    ensures Seal(containers, own, base) ==
              if k == |containers| then containers
              else containers[k := SealOne(containers[k], own, LastNamed(base, own.name))]
  {
    if 0 < k {
      SealsTheFirst(containers[1..], k - 1, own, base);
    }
  }

  method SealManagedContainer(containers: seq<Container>, own: Managed, base: seq<Container>)
    returns (out: seq<Container>)
    ensures out == Seal(containers, own, base)
  {
    var byName := IndexContainers(base);
    out := containers;
    for i := 0 to |containers|
      invariant out == containers
      invariant forall j :: 0 <= j < i ==> containers[j].name != own.name
    {
      if out[i].name != own.name {
        continue;
      }
      SealsTheFirst(containers, i, own, base);
      LastNamedFinds(base, own.name);
      var body := out[i].body.(image := own.image, pullPolicy := own.pullPolicy);
      if own.name in byName {
        var b := byName[own.name].body;
        body := body.(ports := b.ports, command := b.command, args := b.args, envFrom := [], security := b.security);
        var env := MergeEnvReservedWin(b.env, body.env);
        var mounts := UnionVolumeMounts(b.mounts, body.mounts);
        body := body.(env := env, mounts := mounts);
      }
      out := out[i := out[i].(body := body)];
      return;
    }
    SealsTheFirst(containers, |containers|, own, base);
  }

  // ---------------------------------------------------------------- hardening

  function Strip(security: Option<Security>): Option<Security> {
    match security
    case None => None
    case Some(s) =>
      Some(s.(privileged := if s.privileged == Some(true) then Some(false) else s.privileged,
              escalation := if s.escalation == Some(true) then Some(false) else s.escalation,
              added := []))
  }

  function Hardened(c: Container): Container {
    c.(body := c.body.(security := Strip(c.body.security)))
  }

  function HardenAll(containers: seq<Container>): seq<Container> {
    seq(|containers|, i requires 0 <= i < |containers| => Hardened(containers[i]))
  }

  method HardenContainers(containers: seq<Container>) returns (out: seq<Container>)
    ensures out == HardenAll(containers)
  {
    out := containers;
    for i := 0 to |containers|
      invariant |out| == |containers|
      invariant forall j :: 0 <= j < |containers| ==> out[j] == if j < i then Hardened(containers[j]) else containers[j]
    {
      out := out[i := Hardened(out[i])];
    }
  }

  method PurgeVolumes(base: seq<Volume>, volumes: seq<Volume>) returns (cleaned: seq<Volume>)
    ensures cleaned == Purge(base, volumes)
  {
    var names := set i | 0 <= i < |base| :: base[i].name;
    assert forall n :: n in names <==> HasName(base, n);
    cleaned := [];
    for i := 0 to |volumes|
      invariant cleaned == Purge(base, volumes[..i])
    {
      assert volumes[..i + 1][..i] == volumes[..i];
      if volumes[i].name in names {
        cleaned := cleaned + [volumes[i]];
        continue;
      }
      if volumes[i].body.hostPath {
        continue;
      }
      cleaned := cleaned + [volumes[i]];
    }
    assert volumes[..|volumes|] == volumes;
  }

  // ---------------------------------------------------------------- the whole overlay

  /** hardenPodSpec on the fields of the pod itself. */
  function HardenedPod(merged: Pod, base: Pod): Pod {
    merged.(access := base.access, security := if base.security.Some? then base.security else merged.security)
  }

  ghost function MergePod(patches: Patches, base: Pod, overlay: Pod, own: Managed): Pod {
    var merged := HardenedPod(patches.pod(base, overlay), base);
    var containers := MergeContainers(patches.container, base.containers, overlay.containers, own.name);
    var inits := MergeContainers(patches.container, base.initContainers, overlay.initContainers, "");
    merged.(containers := HardenAll(Seal(containers, own, base.containers)),
            initContainers := HardenAll(inits),
            volumes := Purge(base.volumes, UnionVolumes(base.volumes, overlay.volumes)))
  }

  /** mergePodSpecOverlay on a decoded overlay; without one the base stays as it is. */
  method MergePodSpecOverlay(patches: Patches, base: Pod, overlay: Option<Pod>, own: Managed) returns (out: Pod)
    ensures out == if overlay.None? then base else MergePod(patches, base, overlay.value, own)
  {
    if overlay.None? {
      return base;
    }
    var o := overlay.value;
    out := patches.pod(base, o);
    var patch := patches.container;
    var inits := base.initContainers;
    if |o.initContainers| > 0 {
      inits := MergeWorkloadContainers(patch, base.initContainers, o.initContainers, "");
    } else {
      assert MergeContainers(patch, inits, [], "") == inits;
    }
    var containers := MergeWorkloadContainers(patch, base.containers, o.containers, own.name);
    var volumes := UnionVolumeLists(base.volumes, o.volumes);
    containers := SealManagedContainer(containers, own, base.containers);
    out := out.(access := base.access);
    if base.security.Some? {
      out := out.(security := base.security);
    }
    containers := HardenContainers(containers);
    inits := HardenContainers(inits);
    volumes := PurgeVolumes(base.volumes, volumes);
    out := out.(containers := containers, initContainers := inits, volumes := volumes);
  }

  ghost predicate SoleContainer(containers: seq<Container>, k: nat, managed: string) {
    k < |containers| && forall j :: 0 <= j < |containers| ==> (containers[j].name == managed <==> j == k)
  }

  /** What the overlay contributes to the managed container's env and mounts. */
  function Contribution(overlay: Pod, managed: string, own: Container): Container {
    match LastNamed(overlay.containers, managed)
    case Some(o) => o
    case None => own
  }

  /** The env and mounts of the managed container, merged once when the overlay names the
      container and once more by the seal. */
  ghost predicate Wired(c: Body, base: Body, given: Body, named: bool) {
    && c.env == MergeEnv(base.env, if named then MergeEnv(base.env, given.env) else given.env)
    && c.mounts == UnionMounts(base.mounts, if named then UnionMounts(base.mounts, given.mounts) else given.mounts)
  }

  /** The managed container keeps its place and stays the only one of its name. Whatever the
      strategic merges produced, its image, entrypoint, envFrom and security context are the
      operator's, and its env and mounts depend on the two inputs alone. */
  lemma ManagedIsSealed(patches: Patches, base: Pod, overlay: Pod, own: Managed, k: nat)
    requires SoleContainer(base.containers, k, own.name)
    ensures var out := MergePod(patches, base, overlay, own).containers;
            var b := base.containers[k];
            && SoleContainer(out, k, own.name)
            && var c := out[k].body;
               && c.image == own.image && c.pullPolicy == own.pullPolicy
               && c.ports == b.body.ports && c.command == b.body.command && c.args == b.body.args
               && c.envFrom == [] && c.security == Strip(b.body.security)
               && c.other == (if HasName(overlay.containers, own.name)
                              then patches.container(b, Contribution(overlay, own.name, b)).body.other
                              else b.body.other)
               && Wired(c, b.body, Contribution(overlay, own.name, b).body, HasName(overlay.containers, own.name))
  {
    var merged := MergeContainers(patches.container, base.containers, overlay.containers, own.name);
    MergedKeepsPlace(patches.container, base.containers, overlay.containers, own.name, k);
    SealsTheFirst(merged, k, own, base.containers);
    LastNamedUnique(base.containers, k);
    LastNamedFinds(overlay.containers, own.name);
  }

  lemma MergedKeepsPlace(patch: Patch, base: seq<Container>, overlay: seq<Container>, managed: string, k: nat)
    requires SoleContainer(base, k, managed)
    ensures var merged := MergeContainers(patch, base, overlay, managed);
            SoleContainer(merged, k, managed) && merged[k] == MergeByName(patch, base[k], overlay, managed)
  {
    var merged := MergeContainers(patch, base, overlay, managed);
    KeepMembers(overlay, Unnamed(base));
    forall j | |base| <= j < |merged| ensures merged[j].name != managed {
      assert merged[j] in Keep(overlay, Unnamed(base));
      assert HasName(base, base[k].name);
    }
  }

  /** In terms of names: reserved env is the operator's entry for entry, every other name is
      the overlay's where it has one, and the operator's mounts all come first, unshadowed. */
  lemma ManagedWiring(patches: Patches, base: Pod, overlay: Pod, own: Managed, k: nat, name: string)
    requires SoleContainer(base.containers, k, own.name)
    requires Consistent(base.containers[k].body.mounts)
    ensures var out := MergePod(patches, base, overlay, own).containers;
            var b := base.containers[k].body;
            var given := Contribution(overlay, own.name, base.containers[k]).body;
            && k < |out|
            && Keep(out[k].body.env, OperatorOwned) == Keep(b.env, OperatorOwned)
            && (name !in RESERVED_NAMES ==>
                  OfName(out[k].body.env, name) ==
                    if HasName(given.env, name) then OfName(given.env, name) else OfName(b.env, name))
            && out[k].body.mounts == UnionMounts(b.mounts, given.mounts)
            && b.mounts <= out[k].body.mounts
  {
    ManagedIsSealed(patches, base, overlay, own, k);
    var b := base.containers[k].body;
    var given := Contribution(overlay, own.name, base.containers[k]).body;
    hide MergePod, Keep;
    ReservedEnvIsTheBases(b.env, given.env);
    ReservedEnvIsTheBases(b.env, MergeEnv(b.env, given.env));
    SealingTwice(b.env, given.env, name);
    if name !in RESERVED_NAMES { FreeEnvIsTheOverlays(b.env, given.env, name); }
    MountsSealedTwice(b.mounts, given.mounts);
    MountsKeepBaseIff(b.mounts, given.mounts);
  }

  /** Nothing is asked for; an unset escalation flag is left to Kubernetes' default. */
  predicate Unprivileged(c: Container) {
    match c.body.security
    case None => true
    case Some(s) => s.privileged != Some(true) && s.escalation != Some(true) && s.added == []
  }

  /** Whatever the strategic merges produced: no container or init container of a merged pod,
      the user's or the operator's, asks to be privileged, asks for privilege escalation or adds
      capabilities, host paths come from the operator alone, and host namespaces, service
      account and a pod security context of the operator's stay. What is unset stays unset. */
  lemma NothingPrivileged(patches: Patches, base: Pod, overlay: Pod, own: Managed)
    ensures var out := MergePod(patches, base, overlay, own);
            && (forall c :: c in out.containers || c in out.initContainers ==> Unprivileged(c))
            && (forall v :: v in out.volumes && v.body.hostPath ==> v in base.volumes)
            && out.volumes == UnionVolumes(base.volumes, overlay.volumes)
            && out.access == base.access
            && (base.security.Some? ==> out.security == base.security)
  {
    VolumesAreSafe(base.volumes, overlay.volumes);
  }

  // ---------------------------------------------------------------- the other containers

  /** Only requests for privilege are taken out of a security context. */
  lemma StripKeepsTheRest(security: Option<Security>)
    ensures Strip(security) == None <==> security == None
    ensures security != None ==>
              var a, b := security.value, Strip(security).value;
              && b.rest == a.rest && b.added == []
              && b.privileged == (if a.privileged == Some(true) then Some(false) else a.privileged)
              && b.escalation == (if a.escalation == Some(true) then Some(false) else a.escalation)
  {
  }

  lemma {:induction false} SealKeepsOthers(containers: seq<Container>, own: Managed, base: seq<Container>)
    ensures |Seal(containers, own, base)| == |containers|
    ensures forall i :: 0 <= i < |containers| ==>
              Seal(containers, own, base)[i].name == containers[i].name
              && (containers[i].name != own.name ==> Seal(containers, own, base)[i] == containers[i])
  {
    if containers != [] && containers[0].name != own.name {
      SealKeepsOthers(containers[1..], own, base);
    }
  }

  /** Every container besides the managed one, init containers included: the base's keep their
      places, as they are or merged with the overlay's last one of their name; behind them
      come the overlay's own, in order and as they are; each with its security context
      stripped. */
  lemma OthersSurvive(patches: Patches, base: Pod, overlay: Pod, own: Managed)
    ensures var out := MergePod(patches, base, overlay, own);
            && Extends(patches.container, out.containers, base.containers, overlay.containers, own.name)
            && Extends(patches.container, out.initContainers, base.initContainers, overlay.initContainers, "")
            && out.other == patches.pod(base, overlay).other
            && (base.security == None ==> out.security == patches.pod(base, overlay).security)
  {
    var merged := MergeContainers(patches.container, base.containers, overlay.containers, own.name);
    SealKeepsOthers(merged, own, base.containers);
    MergedExtends(patches.container, base.containers, overlay.containers, own.name);
    MergedExtends(patches.container, base.initContainers, overlay.initContainers, "");
  }

  ghost predicate Extends(patch: Patch, out: seq<Container>, base: seq<Container>, overlay: seq<Container>,
                          managed: string)
  {
    var added := Keep(overlay, Unnamed(base));
    && |out| == |base| + |added|
    && (forall i :: 0 <= i < |base| && base[i].name != managed ==>
          && out[i].name == base[i].name
          && match LastNamed(overlay, base[i].name)
             case None => out[i] == Hardened(base[i])
             case Some(o) => out[i].body == Hardened(patch(base[i], o)).body)
    && (forall k :: 0 <= k < |added| && added[k].name != managed ==> out[|base| + k] == Hardened(added[k]))
  }

  lemma MergedExtends(patch: Patch, base: seq<Container>, overlay: seq<Container>, managed: string)
    ensures Extends(patch, HardenAll(MergeContainers(patch, base, overlay, managed)), base, overlay, managed)
  {
  }
}
