/** Merging a user's env entries over the operator's, whose reserved entries always win
    (internal/controller/pod_overlay.go). */
module EnvOverlay {
  import opened NamedLists

  type EnvVar = Named<string>

  const RESERVED_NAMES: set<string> := {
    "OPERATION_TYPE", "PROJECT_DIR", "IMPORT_STAGING", "PBF_URL", "NOMINATIM_DATABASE_DSN",
    "NOMINATIM_FLATNODE_FILE", "NOMINATIM_REBUILD_CONFIRM", "NOMINATIM_REGIONS",
    "PGHOST", "PGPORT", "PGDATABASE", "PGUSER", "PGPASSWORD" }

  predicate OperatorOwned(e: EnvVar) { e.name in RESERVED_NAMES }
  predicate Free(e: EnvVar) { e.name !in RESERVED_NAMES }

  ghost predicate Overridden(overlay: seq<EnvVar>, e: EnvVar) {
    HasName(Keep(overlay, Free), e.name)
  }

  ghost function Untouched(overlay: seq<EnvVar>): EnvVar -> bool {
    (e: EnvVar) => Free(e) && !Overridden(overlay, e)
  }

  /** mergeEnvReservedWin: the overlay's free entries, then the base's reserved ones, then the
      base's free ones that the overlay does not name. */
  ghost function MergeEnv(base: seq<EnvVar>, overlay: seq<EnvVar>): seq<EnvVar> {
    Keep(overlay, Free) + Keep(base, OperatorOwned) + Keep(base, Untouched(overlay))
  }

  method MergeEnvReservedWin(base: seq<EnvVar>, overlay: seq<EnvVar>) returns (out: seq<EnvVar>)
    ensures out == MergeEnv(base, overlay)
  {
    hide Keep, HasName;
    out := [];
    var seen: set<string> := {};
    NothingKept(overlay, Free);
    NothingKept(base, OperatorOwned);
    NothingKept(base, Untouched(overlay));
    NoNames<string>();
    for i := 0 to |overlay|
      invariant out == Keep(overlay[..i], Free)
      invariant forall n :: n in seen <==> HasName(out, n)
    {
      KeepPrefix(overlay, i, Free);
      if overlay[i].name in RESERVED_NAMES {
        continue;
      }
      HasNameSnoc(out, overlay[i]);
      out := out + [overlay[i]];
      seen := seen + {overlay[i].name};
    }
    assert overlay[..|overlay|] == overlay;
    ghost var free := out;
    for i := 0 to |base|
      invariant out == free + Keep(base[..i], OperatorOwned)
      invariant forall n :: n !in RESERVED_NAMES ==> (n in seen <==> HasName(free, n))
    {
      KeepPrefix(base, i, OperatorOwned);
      if base[i].name !in RESERVED_NAMES {
        continue;
      }
      out := out + [base[i]];
      seen := seen + {base[i].name};
    }
    assert base[..|base|] == base;
    for i := 0 to |base|
      invariant out == free + Keep(base, OperatorOwned) + Keep(base[..i], Untouched(overlay))
    {
      KeepPrefix(base, i, Untouched(overlay));
      if base[i].name in RESERVED_NAMES || base[i].name in seen {
        continue;
      }
      out := out + [base[i]];
    }
  }

  /** The operator's connection and job wiring is reserved, by exact name; typed Nominatim
      settings and other Postgres variables are not. */
  lemma WiringIsReserved(name: string)
    ensures name in RESERVED_NAMES <==>
              name in {"PGHOST", "PGPORT", "PGDATABASE", "PGUSER", "PGPASSWORD", "NOMINATIM_DATABASE_DSN",
                       "OPERATION_TYPE", "PROJECT_DIR", "IMPORT_STAGING", "PBF_URL", "NOMINATIM_FLATNODE_FILE",
                       "NOMINATIM_REBUILD_CONFIRM", "NOMINATIM_REGIONS"}
    ensures !("NOMINATIM_IMPORT_STYLE" in RESERVED_NAMES) && !("PGSSLMODE" in RESERVED_NAMES)
  {
  }

  /** The three parts of a merge: free, reserved, and free but untouched by the overlay. */
  lemma MergeParts(base: seq<EnvVar>, overlay: seq<EnvVar>)
    ensures var a, b, c := Keep(overlay, Free), Keep(base, OperatorOwned), Keep(base, Untouched(overlay));
            && Keep(a, Free) == a && Keep(b, Free) == [] && Keep(c, Free) == c
            && Keep(a, OperatorOwned) == [] && Keep(b, OperatorOwned) == b && Keep(c, OperatorOwned) == []
  {
    KeepMembers(overlay, Free);
    KeepMembers(base, OperatorOwned);
    KeepMembers(base, Untouched(overlay));
    var a, b, c := Keep(overlay, Free), Keep(base, OperatorOwned), Keep(base, Untouched(overlay));
    hide Keep;
    KeepAll(a, Free);
    KeepNone(b, Free);
    KeepAll(c, Free);
    KeepNone(a, OperatorOwned);
    KeepAll(b, OperatorOwned);
    KeepNone(c, OperatorOwned);
  }

  /** Whatever list is merged in, the reserved entries of the result are exactly the base's,
      in the base's order. */
  lemma ReservedEnvIsTheBases(base: seq<EnvVar>, overlay: seq<EnvVar>)
    ensures Keep(MergeEnv(base, overlay), OperatorOwned) == Keep(base, OperatorOwned)
  {
    hide Keep;
    MergeParts(base, overlay);
    KeepThree(Keep(overlay, Free), Keep(base, OperatorOwned), Keep(base, Untouched(overlay)), OperatorOwned);
  }

  /** Under every other name the overlay wins: its entries if it has any, the base's if not. */
  lemma FreeEnvIsTheOverlays(base: seq<EnvVar>, overlay: seq<EnvVar>, name: string)
    requires name !in RESERVED_NAMES
    ensures OfName(MergeEnv(base, overlay), name) ==
              if HasName(overlay, name) then OfName(overlay, name) else OfName(base, name)
  {
    var p := (x: EnvVar) => x.name == name;
    var a, b, c := Keep(overlay, Free), Keep(base, OperatorOwned), Keep(base, Untouched(overlay));
    KeepConcat(a + b, c, p);
    KeepConcat(a, b, p);
    KeepTwice(overlay, Free, p, p);
    KeepMembers(base, OperatorOwned);
    KeepNone(b, p);
    KeepMembers(overlay, Free);
    HasNameIsIn(overlay, name);
    HasNameIsIn(a, name);
    if HasName(overlay, name) {
      KeepMembers(base, Untouched(overlay));
      KeepNone(c, p);
    } else {
      KeepNone(overlay, p);
      forall x | x in base && x.name == name ensures Untouched(overlay)(x) {}
      KeepTwice(base, Untouched(overlay), p, p);
    }
  }

  /** After one merge the overlay's free part holds every free name of the base. */
  lemma NothingUntouchedTwice(base: seq<EnvVar>, overlay: seq<EnvVar>)
    ensures var once := MergeEnv(base, overlay);
            && Keep(once, Free) == Keep(overlay, Free) + Keep(base, Untouched(overlay))
            && Keep(base, Untouched(once)) == []
  {
    hide Keep;
    var once := MergeEnv(base, overlay);
    var a, c := Keep(overlay, Free), Keep(base, Untouched(overlay));
    MergeParts(base, overlay);
    KeepThree(a, Keep(base, OperatorOwned), c, Free);
    assert Keep(once, Free) == a + c;
    KeepMembers(base, Untouched(overlay));
    forall e | e in base ensures !Untouched(once)(e) {
      HasNameIsIn(a, e.name);
      HasNameIsIn(a + c, e.name);
      if Untouched(overlay)(e) { assert e in c; }
    }
    KeepNone(base, Untouched(once));
  }

  /** The merge runs twice on the managed container, once with the overlay and once to seal.
      The second run keeps the entries of every name, and a third would change nothing. The
      second changes the order exactly when there are reserved and untouched entries to swap. */
  lemma SealingTwice(base: seq<EnvVar>, overlay: seq<EnvVar>, name: string)
    ensures var once := MergeEnv(base, overlay);
            var twice := MergeEnv(base, once);
            && OfName(twice, name) == OfName(once, name)
            && MergeEnv(base, twice) == twice
            && (twice == once <==> Keep(base, OperatorOwned) == [] || Keep(base, Untouched(overlay)) == [])
  {
    var once := MergeEnv(base, overlay);
    var twice := MergeEnv(base, once);
    var a, b, c := Keep(overlay, Free), Keep(base, OperatorOwned), Keep(base, Untouched(overlay));
    var p := (x: EnvVar) => x.name == name;
    KeepMembers(base, OperatorOwned);
    KeepMembers(base, Untouched(overlay));
    hide Keep;
    NothingUntouchedTwice(base, overlay);
    NothingUntouchedTwice(base, once);
    assert twice == a + c + b && once == a + b + c;
    KeepThree(a, b, c, p);
    KeepThree(a, c, b, p);
    if name in RESERVED_NAMES { KeepNone(c, p); } else { KeepNone(b, p); }
    if b != [] && c != [] {
      assert b[0] in b && c[0] in c;
      assert once[|a|] == b[0] && twice[|a|] == c[0];
    }
  }
}
