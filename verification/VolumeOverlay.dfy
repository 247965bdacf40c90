/** Uniting a user's volumes and mounts with the operator's, which win every conflict
    (internal/controller/pod_overlay.go). */
module VolumeOverlay {
  import opened Operations
  import opened NamedLists

  datatype MountPoint = MountPoint(path: string, options: string)
  type Mount = Named<MountPoint>
  datatype Source = Source(hostPath: bool, details: string)
  type Volume = Named<Source>

  /** Each entry replaced by the last one of its name: what `byName[name]` holds. */
  function Resolve<T>(base: seq<Named<T>>): seq<Named<T>> {
    seq(|base|, i requires 0 <= i < |base| => Current(base, base[i]))
  }

  function Current<T>(s: seq<Named<T>>, x: Named<T>): Named<T> {
    match LastNamed(s, x.name)
    case Some(y) => y
    case None => x
  }

  /** Whether an entry is turned away in view of the list it would join. */
  type Test<!T> = (seq<Named<T>>, Named<T>) -> bool

  /** The overlay's entries that get in, in order, when `bad` turns one away in view of the
      base and of those already in. */
  ghost function Admit<T>(base: seq<Named<T>>, overlay: seq<Named<T>>, bad: Test<T>): seq<Named<T>> {
    if overlay == [] then []
    else
      var last := overlay[|overlay| - 1];
      var inside := Admit(base, overlay[..|overlay| - 1], bad);
      if bad(base + inside, last) then inside else inside + [last]
  }

  ghost predicate HasPath(s: seq<Mount>, path: string) {
    exists i :: 0 <= i < |s| && s[i].body.path == path
  }

  ghost predicate Shadowed(s: seq<Mount>, m: Mount) {
    HasName(s, m.name) || HasPath(s, m.body.path)
  }

  ghost predicate Refused(s: seq<Volume>, v: Volume) {
    HasName(s, v.name) || v.body.hostPath
  }

  ghost function UnionMounts(base: seq<Mount>, overlay: seq<Mount>): seq<Mount> {
    Resolve(base) + Admit(base, overlay, Shadowed)
  }

  ghost function UnionVolumes(base: seq<Volume>, overlay: seq<Volume>): seq<Volume> {
    Resolve(base) + Admit(base, overlay, Refused)
  }

  ghost predicate HoldsLast<T>(byName: map<string, Named<T>>, s: seq<Named<T>>) {
    forall n :: (n in byName <==> HasName(s, n)) && (n in byName ==> LastNamed(s, n) == Some(byName[n]))
  }

  lemma HoldsLastSnoc<T>(byName: map<string, Named<T>>, s: seq<Named<T>>, x: Named<T>)
    requires HoldsLast(byName, s)
    ensures HoldsLast(byName[x.name := x], s + [x])
  {
    HasNameSnoc(s, x);
    assert (s + [x])[..|s|] == s;
  }

  /** Entries of a name that is nowhere else resolve to themselves. */
  lemma ResolveAdmitted<T>(base: seq<Named<T>>, inside: seq<Named<T>>)
    requires FreshNames(base, inside)
    ensures Resolve(base + inside) == Resolve(base) + inside
  {
    forall i | 0 <= i < |base| + |inside|
      ensures Resolve(base + inside)[i] == (Resolve(base) + inside)[i]
    {
      if i < |base| {
        LastNamedSkips(base, inside, base[i].name);
      } else {
        assert (base + inside)[i] == inside[i - |base|];
        LastNamedUnique(base + inside, i);
      }
    }
  }

  ghost predicate FreshNames<T>(base: seq<Named<T>>, inside: seq<Named<T>>) {
    DistinctNames(inside) && forall k :: 0 <= k < |inside| ==> !HasName(base, inside[k].name)
  }

  lemma {:induction false} LastNamedSkips<T>(a: seq<Named<T>>, b: seq<Named<T>>, name: string)
    requires !HasName(b, name)
    ensures LastNamed(a + b, name) == LastNamed(a, name)
  {
    if b == [] {
      assert a + b == a;
    } else {
      assert (a + b)[..|a + b| - 1] == a + b[..|b| - 1];
      assert b[|b| - 1].name != name;
      assert !HasName(b[..|b| - 1], name) by {
        assert forall i :: 0 <= i < |b| - 1 ==> b[..|b| - 1][i] == b[i];
      }
      LastNamedSkips(a, b[..|b| - 1], name);
    }
  }

  lemma HasNameConcat<T>(a: seq<Named<T>>, b: seq<Named<T>>)
    ensures forall n :: HasName(a + b, n) <==> HasName(a, n) || HasName(b, n)
  {
    forall n ensures HasName(a + b, n) <==> HasName(a, n) || HasName(b, n) {
      HasNameIsIn(a + b, n);
      HasNameIsIn(a, n);
      HasNameIsIn(b, n);
    }
  }

  /** Every admitted entry was acceptable when it came, and every entry of the overlay was
      either admitted or not acceptable. */
  lemma {:induction false} Admitted<T>(base: seq<Named<T>>, overlay: seq<Named<T>>, bad: Test<T>)
    ensures var inside := Admit(base, overlay, bad);
            && (forall k :: 0 <= k < |inside| ==> inside[k] in overlay && !bad(base + inside[..k], inside[k]))
            && (forall m :: m in overlay ==>
                  m in inside || exists k :: 0 <= k <= |inside| && bad(base + inside[..k], m))
  {
    if overlay != [] {
      var init, last := overlay[..|overlay| - 1], overlay[|overlay| - 1];
      Admitted(base, init, bad);
      var before := Admit(base, init, bad);
      var inside := Admit(base, overlay, bad);
      assert overlay == init + [last];
      assert before[..|before|] == before;
      assert forall k :: 0 <= k <= |before| ==> inside[..k] == before[..k];
      forall k | 0 <= k < |inside| ensures inside[k] in overlay && !bad(base + inside[..k], inside[k]) {
        if k < |before| { assert before[k] in init && !bad(base + before[..k], before[k]); }
      }
    }
  }

  lemma AdmittedAt<T>(base: seq<Named<T>>, overlay: seq<Named<T>>, bad: (seq<Named<T>>, Named<T>) -> bool, k: nat)
    requires k < |Admit(base, overlay, bad)|
    ensures !bad(base + Admit(base, overlay, bad)[..k], Admit(base, overlay, bad)[k])
  {
    Admitted(base, overlay, bad);
  }

  lemma AdmittedAreFresh<T>(base: seq<Named<T>>, overlay: seq<Named<T>>, bad: Test<T>)
    requires forall s: seq<Named<T>>, x: Named<T> :: HasName(s, x.name) ==> bad(s, x)
    ensures FreshNames(base, Admit(base, overlay, bad))
  {
    Admitted(base, overlay, bad);
    var inside := Admit(base, overlay, bad);
    forall k | 0 <= k < |inside| ensures !HasName(base, inside[k].name) {
      HasNameConcat(base, inside[..k]);
    }
    forall j, k | 0 <= j < k < |inside| ensures inside[j].name != inside[k].name {
      AdmittedAt(base, overlay, bad, k);
      HasNameConcat(base, inside[..k]);
      assert inside[..k][j] == inside[j];
      assert HasName(inside[..k], inside[j].name);
    }
  }

  method UnionVolumeMounts(base: seq<Mount>, overlay: seq<Mount>) returns (out: seq<Mount>)
    ensures out == UnionMounts(base, overlay)
  {
    var byName: map<string, Mount> := map[];
    var paths: set<string> := {};
    var order: seq<string> := [];
    ghost var all: seq<Mount> := [];
    for i := 0 to |base|
      invariant all == base[..i] && Ordered(byName, order, all) && HoldsPaths(paths, all)
    {
      Extend(byName, order, all, base[i]);
      ExtendPaths(paths, all, base[i]);
      byName, order := byName[base[i].name := base[i]], order + [base[i].name];
      paths := paths + {base[i].body.path};
      all := all + [base[i]];
    }
    assert base + [] == base;
    for i := 0 to |overlay|
      invariant all == base + Admit(base, overlay[..i], Shadowed)
      invariant Ordered(byName, order, all) && HoldsPaths(paths, all)
    {
      assert overlay[..i + 1][..i] == overlay[..i];
      if overlay[i].name in byName || overlay[i].body.path in paths {
        continue;
      }
      Extend(byName, order, all, overlay[i]);
      ExtendPaths(paths, all, overlay[i]);
      byName, order := byName[overlay[i].name := overlay[i]], order + [overlay[i].name];
      paths := paths + {overlay[i].body.path};
      all := all + [overlay[i]];
    }
    assert overlay[..|overlay|] == overlay;
    AdmittedAreFresh(base, overlay, Shadowed);
    ResolveAdmitted(base, Admit(base, overlay, Shadowed));
    out := Collect(byName, order, all);
  }

  method UnionVolumeLists(base: seq<Volume>, overlay: seq<Volume>) returns (out: seq<Volume>)
    ensures out == UnionVolumes(base, overlay)
  {
    var byName: map<string, Volume> := map[];
    var order: seq<string> := [];
    ghost var all: seq<Volume> := [];
    for i := 0 to |base|
      invariant all == base[..i] && Ordered(byName, order, all)
    {
      Extend(byName, order, all, base[i]);
      byName, order := byName[base[i].name := base[i]], order + [base[i].name];
      all := all + [base[i]];
    }
    assert base + [] == base;
    for i := 0 to |overlay|
      invariant all == base + Admit(base, overlay[..i], Refused)
      invariant Ordered(byName, order, all)
    {
      assert overlay[..i + 1][..i] == overlay[..i];
      if overlay[i].name in byName || overlay[i].body.hostPath {
        continue;
      }
      Extend(byName, order, all, overlay[i]);
      byName, order := byName[overlay[i].name := overlay[i]], order + [overlay[i].name];
      all := all + [overlay[i]];
    }
    assert overlay[..|overlay|] == overlay;
    AdmittedAreFresh(base, overlay, Refused);
    ResolveAdmitted(base, Admit(base, overlay, Refused));
    out := Collect(byName, order, all);
  }

  /** The map and the order list that both unions fill hold exactly what came so far. */
  ghost predicate Ordered<T>(byName: map<string, Named<T>>, order: seq<string>, all: seq<Named<T>>) {
    HoldsLast(byName, all) && |order| == |all| && forall i :: 0 <= i < |all| ==> order[i] == all[i].name
  }

  ghost predicate HoldsPaths(paths: set<string>, all: seq<Mount>) {
    forall p :: p in paths <==> HasPath(all, p)
  }

  lemma Extend<T>(byName: map<string, Named<T>>, order: seq<string>, all: seq<Named<T>>, x: Named<T>)
    requires Ordered(byName, order, all)
    ensures Ordered(byName[x.name := x], order + [x.name], all + [x])
  {
    HoldsLastSnoc(byName, all, x);
  }

  lemma ExtendPaths(paths: set<string>, all: seq<Mount>, m: Mount)
    requires HoldsPaths(paths, all)
    ensures HoldsPaths(paths + {m.body.path}, all + [m])
  {
    HasPathConcat(all, [m]);
    assert [m][0].body.path == m.body.path;
  }

  lemma HasPathConcat(a: seq<Mount>, b: seq<Mount>)
    ensures forall p :: HasPath(a + b, p) <==> HasPath(a, p) || HasPath(b, p)
  {
    forall p ensures HasPath(a + b, p) <==> HasPath(a, p) || HasPath(b, p) {
      if i :| 0 <= i < |a| && a[i].body.path == p {
        assert (a + b)[i].body.path == p;
      }
      if i :| 0 <= i < |b| && b[i].body.path == p {
        assert (a + b)[|a| + i].body.path == p;
      }
    }
  }

  method Collect<T>(byName: map<string, Named<T>>, order: seq<string>, ghost all: seq<Named<T>>)
    returns (out: seq<Named<T>>)
    requires Ordered(byName, order, all)
    ensures out == Resolve(all)
  {
    out := [];
    for i := 0 to |order|
      invariant out == Resolve(all)[..i]
    {
      assert order[i] == all[i].name;
      assert HasName(all, order[i]);
      out := out + [byName[order[i]]];
    }
  }

  // ---------------------------------------------------------------- laws of the unions

  /** No two entries of one name differ. */
  ghost predicate Consistent<T>(s: seq<Named<T>>) {
    forall i, j :: 0 <= i < j < |s| && s[i].name == s[j].name ==> s[i] == s[j]
  }

  ghost predicate DistinctPaths(s: seq<Mount>) {
    forall i, j :: 0 <= i < j < |s| ==> s[i].body.path != s[j].body.path
  }

  lemma ResolveIsIdentityIff<T>(base: seq<Named<T>>)
    ensures Resolve(base) == base <==> Consistent(base)
  {
    if Consistent(base) {
      forall i | 0 <= i < |base| ensures Resolve(base)[i] == base[i] {
        LastNamedUnique(base, i);
      }
    }
    if Resolve(base) == base {
      forall i, j | 0 <= i < j < |base| && base[i].name == base[j].name ensures base[i] == base[j] {
        assert Resolve(base)[i] == base[i] && Resolve(base)[j] == base[j];
        LastNamedFinds(base, base[i].name);
        LastNamedFinds(base, base[j].name);
      }
    }
  }

  /** The base's mounts come first and unchanged exactly when no two of one name differ: of
      two mounts of one volume at different paths only the last survives, twice. */
  lemma MountsKeepBaseIff(base: seq<Mount>, overlay: seq<Mount>)
    ensures base <= UnionMounts(base, overlay) <==> Consistent(base)
  {
    ResolveIsIdentityIff(base);
    assert UnionMounts(base, overlay)[..|base|] == Resolve(base);
  }

  lemma ResolveNames<T>(base: seq<Named<T>>)
    ensures |Resolve(base)| == |base| && forall i :: 0 <= i < |base| ==> Resolve(base)[i].name == base[i].name
  {
    forall i | 0 <= i < |base| ensures Resolve(base)[i].name == base[i].name {
      LastNamedFinds(base, base[i].name);
    }
  }

  lemma {:induction false} AdmittedPaths(base: seq<Mount>, overlay: seq<Mount>)
    ensures var inside := Admit(base, overlay, Shadowed);
            DistinctPaths(inside) && forall k :: 0 <= k < |inside| ==> !HasPath(base, inside[k].body.path)
  {
    Admitted(base, overlay, Shadowed);
    var inside := Admit(base, overlay, Shadowed);
    forall k | 0 <= k < |inside| ensures !HasPath(base, inside[k].body.path) {
      HasPathConcat(base, inside[..k]);
    }
    forall j, k | 0 <= j < k < |inside| ensures inside[j].body.path != inside[k].body.path {
      AdmittedAt(base, overlay, Shadowed, k);
      HasPathConcat(base, inside[..k]);
      assert inside[..k][j] == inside[j];
      assert HasPath(inside[..k], inside[j].body.path);
    }
  }

  /** Names stay distinct exactly when the base's are; then paths do exactly when the base's
      are. An overlay never repeats a name or shadows a path of the base. */
  lemma MountsAreDistinctIff(base: seq<Mount>, overlay: seq<Mount>)
    ensures DistinctNames(UnionMounts(base, overlay)) <==> DistinctNames(base)
    ensures DistinctNames(base) ==> (DistinctPaths(UnionMounts(base, overlay)) <==> DistinctPaths(base))
  {
    var out, inside := UnionMounts(base, overlay), Admit(base, overlay, Shadowed);
    AdmittedAreFresh(base, overlay, Shadowed);
    DistinctWithFresh(base, inside);
    assert forall k :: 0 <= k < |inside| ==> out[|base| + k] == inside[k];
    if DistinctNames(base) {
      ResolveIsIdentityIff(base);
      AdmittedPaths(base, overlay);
      forall i, k | 0 <= i < |base| && 0 <= k < |inside| ensures base[i].body.path != inside[k].body.path {}
      assert forall i :: 0 <= i < |base| ==> out[i] == base[i];
    }
  }

  lemma {:induction false} AdmitNothing<T>(base: seq<Named<T>>, overlay: seq<Named<T>>, bad: Test<T>)
    requires forall m :: m in overlay ==> bad(base, m)
    ensures Admit(base, overlay, bad) == []
  {
    if overlay != [] {
      AdmitNothing(base, overlay[..|overlay| - 1], bad);
      assert base + [] == base;
    }
  }

  /** Each mount of the overlay is in the result, or its name or its path is. */
  lemma OnlyShadowedAreMissing(base: seq<Mount>, overlay: seq<Mount>, m: Mount)
    requires m in overlay
    ensures Shadowed(base + Admit(base, overlay, Shadowed), m)
  {
    var inside := Admit(base, overlay, Shadowed);
    Admitted(base, overlay, Shadowed);
    HasNameConcat(base, inside);
    HasPathConcat(base, inside);
    if m in inside {
      HasNameIsIn(inside, m.name);
    } else {
      var k :| 0 <= k <= |inside| && Shadowed(base + inside[..k], m);
      assert base + inside == base + inside[..k] + inside[k..];
      HasNameConcat(base + inside[..k], inside[k..]);
      HasPathConcat(base + inside[..k], inside[k..]);
    }
  }

  /** The mounts are merged twice too, with the overlay and again to seal: over a base whose
      same-named mounts agree the second time changes nothing. */
  lemma MountsSealedTwice(base: seq<Mount>, overlay: seq<Mount>)
    requires Consistent(base)
    ensures var once := UnionMounts(base, overlay);
            UnionMounts(base, once) == once && UnionMounts(once, overlay) == once
  {
    var inside := Admit(base, overlay, Shadowed);
    var once := UnionMounts(base, overlay);
    ResolveIsIdentityIff(base);
    AdmittedAreFresh(base, overlay, Shadowed);
    ResolveAdmitted(base, inside);
    forall m | m in overlay ensures Shadowed(once, m) {
      OnlyShadowedAreMissing(base, overlay, m);
    }
    AdmitNothing(once, overlay, Shadowed);
    AdmittedPaths(base, overlay);
    AdmitAgain(base, inside);
  }

  lemma AdmitOneMore<T>(base: seq<Named<T>>, overlay: seq<Named<T>>, x: Named<T>, bad: Test<T>)
    requires !bad(base + Admit(base, overlay, bad), x)
    ensures Admit(base, overlay + [x], bad) == Admit(base, overlay, bad) + [x]
  {
    assert (overlay + [x])[..|overlay + [x]| - 1] == overlay;
  }

  lemma {:induction false} AdmitAgain(base: seq<Mount>, inside: seq<Mount>)
    requires FreshNames(base, inside)
    requires DistinctPaths(inside) && forall k :: 0 <= k < |inside| ==> !HasPath(base, inside[k].body.path)
    ensures Admit(base, base + inside, Shadowed) == inside
  {
    hide Admit;
    if inside == [] {
      assert base + inside == base;
      forall m | m in base ensures Shadowed(base, m) { HasNameIsIn(base, m.name); }
      AdmitNothing(base, base, Shadowed);
    } else {
      var init, last := inside[..|inside| - 1], inside[|inside| - 1];
      AdmitAgain(base, init);
      assert base + init + [last] == base + inside;
      assert !Shadowed(base + init, last) by {
        HasNameConcat(base, init);
        HasPathConcat(base, init);
      }
      AdmitOneMore(base, base + init, last, Shadowed);
    }
  }

  lemma ResolveLast<T>(base: seq<Named<T>>, name: string)
    ensures LastNamed(Resolve(base), name) == LastNamed(base, name)
    ensures forall x :: x in Resolve(base) ==> x in base
  {
    ResolveNames(base);
    LastNamedFinds(base, name);
    LastNamedFinds(Resolve(base), name);
    if HasName(base, name) {
      var i :| 0 <= i < |base| && base[i].name == name;
      assert Resolve(base)[i].name == name;
    }
    forall x | x in Resolve(base) ensures x in base {
      LastNamedFinds(base, x.name);
    }
  }

  lemma VolumeIsNamed(base: seq<Volume>, overlay: seq<Volume>, v: Volume)
    requires v in overlay && !v.body.hostPath
    ensures HasName(UnionVolumes(base, overlay), v.name)
  {
    var inside := Admit(base, overlay, Refused);
    Admitted(base, overlay, Refused);
    ResolveNames(base);
    HasNameConcat(Resolve(base), inside);
    if v in inside {
      HasNameIsIn(inside, v.name);
    } else {
      var k :| 0 <= k <= |inside| && Refused(base + inside[..k], v);
      HasNameConcat(base, inside[..k]);
      if HasName(base, v.name) {
        ResolveLast(base, v.name);
        LastNamedFinds(base, v.name);
        LastNamedFinds(Resolve(base), v.name);
      } else {
        assert inside == inside[..k] + inside[k..];
        HasNameConcat(inside[..k], inside[k..]);
      }
    }
  }

  /** hardenPodSpec's second look at the volumes. */
  ghost function Purge(base: seq<Volume>, volumes: seq<Volume>): seq<Volume> {
    Keep(volumes, Spared(base))
  }

  ghost function Spared(base: seq<Volume>): Volume -> bool {
    (v: Volume) => HasName(base, v.name) || !v.body.hostPath
  }

  /** A volume of the result mounts a host path only if it is the base's, so a later purge of
      host-path volumes finds nothing to drop. */
  lemma VolumesAreSafe(base: seq<Volume>, overlay: seq<Volume>)
    ensures var out := UnionVolumes(base, overlay);
            && (forall v :: v in out && v.body.hostPath ==> v in base)
            && Purge(base, out) == out
  {
    var inside, out := Admit(base, overlay, Refused), UnionVolumes(base, overlay);
    forall v | v in out ensures v in base || !v.body.hostPath {
      if v in Resolve(base) {
        ResolveLast(base, v.name);
      } else {
        assert v in inside;
        var k :| 0 <= k < |inside| && inside[k] == v;
        AdmittedAt(base, overlay, Refused, k);
      }
    }
    forall v | v in out ensures Spared(base)(v) {
      HasNameIsIn(base, v.name);
    }
    KeepAll(out, Spared(base));
  }

  /** The base's volumes are never replaced, every other volume of the overlay gets in, by name
      at least, and names stay distinct exactly when the base's are. */
  lemma VolumesKeepBase(base: seq<Volume>, overlay: seq<Volume>)
    ensures var out := UnionVolumes(base, overlay);
            && (forall n :: HasName(base, n) ==> LastNamed(out, n) == LastNamed(base, n))
            && (forall v :: v in overlay && !v.body.hostPath ==> HasName(out, v.name))
            && (DistinctNames(out) <==> DistinctNames(base))
  {
    var inside, out := Admit(base, overlay, Refused), UnionVolumes(base, overlay);
    AdmittedAreFresh(base, overlay, Refused);
    hide Admit, LastNamed, Resolve;
    forall n | HasName(base, n) ensures LastNamed(out, n) == LastNamed(base, n) {
      ResolveLast(base, n);
      LastNamedSkips(Resolve(base), inside, n);
    }
    forall v | v in overlay && !v.body.hostPath ensures HasName(out, v.name) {
      VolumeIsNamed(base, overlay, v);
    }
    DistinctWithFresh(base, inside);
  }

  lemma DistinctWithFresh<T>(base: seq<Named<T>>, inside: seq<Named<T>>)
    requires FreshNames(base, inside)
    ensures DistinctNames(Resolve(base) + inside) <==> DistinctNames(base)
  {
    var out := Resolve(base) + inside;
    ResolveNames(base);
    assert forall i :: 0 <= i < |base| ==> out[i].name == base[i].name;
    assert forall k :: 0 <= k < |inside| ==> out[|base| + k] == inside[k];
    forall i, k | 0 <= i < |base| && 0 <= k < |inside| ensures base[i].name != inside[k].name {}
  }
}
