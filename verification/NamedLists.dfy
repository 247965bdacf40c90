/** Lists of named things, as pod specs hold them (env entries, mounts, volumes, containers),
    and the filters that their merges are described with. */
module NamedLists {
  import opened Operations

  datatype Named<T> = Named(name: string, body: T)

  function Keep<T>(s: seq<T>, p: T -> bool): seq<T> {
    if s == [] then []
    else Keep(s[..|s| - 1], p) + if p(s[|s| - 1]) then [s[|s| - 1]] else []
  }

  ghost predicate HasName<T>(s: seq<Named<T>>, name: string) {
    exists i :: 0 <= i < |s| && s[i].name == name
  }

  /** What a Go map filled from the list in order holds under the name. */
  function LastNamed<T>(s: seq<Named<T>>, name: string): Option<Named<T>> {
    if s == [] then None
    else if s[|s| - 1].name == name then Some(s[|s| - 1])
    else LastNamed(s[..|s| - 1], name)
  }

  lemma KeepPrefix<T>(s: seq<T>, i: nat, p: T -> bool)
    requires i < |s|
    ensures Keep(s[..i + 1], p) == Keep(s[..i], p) + if p(s[i]) then [s[i]] else []
  {
    assert s[..i + 1][..i] == s[..i];
  }

  lemma NothingKept<T>(s: seq<T>, p: T -> bool)
    ensures Keep(s[..0], p) == []
  {
  }

  function OfName<T>(s: seq<Named<T>>, name: string): seq<Named<T>> {
    Keep(s, (x: Named<T>) => x.name == name)
  }

  ghost predicate DistinctNames<T>(s: seq<Named<T>>) {
    forall i, j :: 0 <= i < j < |s| ==> s[i].name != s[j].name
  }

  lemma {:induction false} KeepConcat<T>(a: seq<T>, b: seq<T>, p: T -> bool)
    ensures Keep(a + b, p) == Keep(a, p) + Keep(b, p)
  {
    if b == [] {
      assert a + b == a;
    } else {
      assert (a + b)[..|a + b| - 1] == a + b[..|b| - 1];
      KeepConcat(a, b[..|b| - 1], p);
    }
  }

  lemma KeepThree<T>(a: seq<T>, b: seq<T>, c: seq<T>, p: T -> bool)
    ensures Keep(a + b + c, p) == Keep(a, p) + Keep(b, p) + Keep(c, p)
  {
    KeepConcat(a + b, c, p);
    KeepConcat(a, b, p);
  }

  lemma {:induction false} KeepTwice<T>(s: seq<T>, p: T -> bool, q: T -> bool, both: T -> bool)
    requires forall x :: x in s ==> both(x) == (p(x) && q(x))
    ensures Keep(Keep(s, p), q) == Keep(s, both)
  {
    if s != [] {
      var init, last := s[..|s| - 1], s[|s| - 1];
      KeepTwice(init, p, q, both);
      KeepConcat(Keep(init, p), if p(last) then [last] else [], q);
      assert [last][..0] == [];
      assert p(last) ==> Keep([last], q) == if q(last) then [last] else [];
    }
  }

  lemma {:induction false} KeepAll<T>(s: seq<T>, p: T -> bool)
    requires forall x :: x in s ==> p(x)
    ensures Keep(s, p) == s
  {
    if s != [] {
      KeepAll(s[..|s| - 1], p);
      assert s == s[..|s| - 1] + [s[|s| - 1]];
    }
  }

  lemma {:induction false} KeepNone<T>(s: seq<T>, p: T -> bool)
    requires forall x :: x in s ==> !p(x)
    ensures Keep(s, p) == []
  {
    if s != [] { KeepNone(s[..|s| - 1], p); }
  }

  lemma {:induction false} KeepSame<T>(s: seq<T>, p: T -> bool, q: T -> bool)
    requires forall x :: x in s ==> p(x) == q(x)
    ensures Keep(s, p) == Keep(s, q)
  {
    if s != [] { KeepSame(s[..|s| - 1], p, q); }
  }

  lemma {:induction false} KeepMembers<T>(s: seq<T>, p: T -> bool)
    ensures forall x :: x in Keep(s, p) <==> x in s && p(x)
  {
    if s != [] {
      KeepMembers(s[..|s| - 1], p);
      assert s == s[..|s| - 1] + [s[|s| - 1]];
    }
  }

  lemma HasNameIsIn<T>(s: seq<Named<T>>, name: string)
    ensures HasName(s, name) <==> exists x :: x in s && x.name == name
  {
    if HasName(s, name) {
      var i :| 0 <= i < |s| && s[i].name == name;
      assert s[i] in s;
    }
  }

  lemma {:induction false} LastNamedFinds<T>(s: seq<Named<T>>, name: string)
    ensures LastNamed(s, name).Some? <==> HasName(s, name)
    ensures LastNamed(s, name).Some? ==>
              LastNamed(s, name).value in s && LastNamed(s, name).value.name == name
  {
    if s != [] {
      var init := s[..|s| - 1];
      LastNamedFinds(init, name);
      if HasName(init, name) {
        var i :| 0 <= i < |init| && init[i].name == name;
        assert s[i].name == name;
      }
      if HasName(s, name) && s[|s| - 1].name != name {
        var i :| 0 <= i < |s| && s[i].name == name;
        assert init[i].name == name;
      }
    }
  }

  /** The last entry of a name equals the k-th if the k-th is the only one of its name, or if
      all of that name are equal. */
  lemma {:induction false} LastNamedUnique<T>(s: seq<Named<T>>, k: nat)
    requires k < |s| && forall j :: k < j < |s| && s[j].name == s[k].name ==> s[j] == s[k]
    ensures LastNamed(s, s[k].name) == Some(s[k])
  {
    if k < |s| - 1 && s[|s| - 1].name != s[k].name {
      LastNamedUnique(s[..|s| - 1], k);
    }
  }

  lemma HasNameSnoc<T>(s: seq<Named<T>>, x: Named<T>)
    ensures forall n :: HasName(s + [x], n) <==> HasName(s, n) || n == x.name
  {
    forall n | HasName(s, n) || n == x.name ensures HasName(s + [x], n) {
      if n == x.name {
        assert (s + [x])[|s|].name == n;
      } else {
        var i :| 0 <= i < |s| && s[i].name == n;
        assert (s + [x])[i].name == n;
      }
    }
  }

  lemma NoNames<T>()
    ensures forall n :: !HasName<T>([], n)
  {
  }
}
