/** Kubernetes object names: the order Go's `<` gives them, and the decimal
    rendering that `fmt.Sprintf("%d", ...)` appends to generated names.

    Names are DNS labels (ASCII), so comparing characters and comparing bytes agree. */
module Names {

  /** Go's `a < b` on strings. Dafny's own `<` on sequences means "proper prefix". */
  predicate Less(a: string, b: string) {
    if |b| == 0 then false
    else if |a| == 0 then true
    else if a[0] != b[0] then a[0] < b[0]
    else Less(a[1..], b[1..])
  }

  /** The order is strict and total: exactly one of the three cases holds. */
  lemma {:induction false} LessIsTotal(a: string, b: string)
    ensures a != b ==> (Less(a, b) <==> !Less(b, a))
    ensures a == b ==> !Less(a, b)
  {
    if |a| > 0 && |b| > 0 && a[0] == b[0] {
      LessIsTotal(a[1..], b[1..]);
      assert a == [a[0]] + a[1..] && b == [b[0]] + b[1..];
    }
  }

  lemma {:induction false} LessIsTransitive(a: string, b: string, c: string)
    requires Less(a, b) && Less(b, c)
    ensures Less(a, c)
  {
    if |a| > 0 && a[0] == b[0] && b[0] == c[0] {
      LessIsTransitive(a[1..], b[1..], c[1..]);
    }
  }

  /** Every non-empty finite set of names has a least element. */
  lemma {:induction false} LeastName(names: set<string>) returns (least: string)
    requires names != {}
    ensures least in names
    ensures forall other :: other in names && other != least ==> Less(least, other)
    decreases |names|
  {
    least :| least in names;
    var rest := names - {least};
    if rest != {} {
      var candidate := LeastName(rest);
      LessIsTotal(least, candidate);
      if Less(candidate, least) {
        least := candidate;
      } else {
        forall other | other in names && other != least ensures Less(least, other) {
          if other != candidate { LessIsTransitive(least, candidate, other); }
        }
      }
    }
  }

  const DIGITS: string := "0123456789"

  /** `%d` of a non-negative number. */
  function Digits(n: nat): (text: string)
    ensures |text| > 0
    ensures text[0] != '-'
  {
    if n < 10 then [DIGITS[n]] else Digits(n / 10) + [DIGITS[n % 10]]
  }

  /** `%d` of any integer. */
  function Decimal(n: int): (text: string) {
    if n < 0 then "-" + Digits(-n) else Digits(n)
  }

  lemma {:induction false} DigitsInjective(a: nat, b: nat)
    requires Digits(a) == Digits(b)
    ensures a == b
  {
    var x, y := Digits(a), Digits(b);
    assert x[|x| - 1] == DIGITS[a % 10] && y[|y| - 1] == DIGITS[b % 10];
    if a >= 10 && b >= 10 {
      assert x[..|x| - 1] == Digits(a / 10) && y[..|y| - 1] == Digits(b / 10);
      DigitsInjective(a / 10, b / 10);
    }
  }

  /** Two different numbers are never rendered alike, so names built from them differ. */
  lemma DecimalInjective(a: int, b: int)
    requires Decimal(a) == Decimal(b)
    ensures a == b
  {
    if a < 0 && b < 0 {
      assert Decimal(a)[1..] == Digits(-a) && Decimal(b)[1..] == Digits(-b);
      DigitsInjective(-a, -b);
    } else if a >= 0 && b >= 0 {
      DigitsInjective(a, b);
    }
  }

  /** No finite set holds every number's rendering. */
  lemma {:induction false} FreshName(names: set<string>, least: nat) returns (k: nat)
    ensures k >= least && Decimal(k) !in names && Decimal(k) != ""
    decreases |names|
  {
    if Decimal(least) !in names {
      k := least;
    } else {
      k := FreshName(names - {Decimal(least)}, least + 1);
      if Decimal(k) == Decimal(least) {
        DecimalInjective(k, least);
        assert false;
      }
    }
  }

  lemma {:induction false} LessByLast(a: string, b: string, c: char, d: char)
    requires |a| == |b|
    ensures Less(a + [c], b + [d]) <==> Less(a, b) || (a == b && c < d)
  {
    if a == [] {
      assert a + [c] == [c] && b + [d] == [d];
      assert !Less([c][1..], [d][1..]);
    } else {
      assert (a + [c])[1..] == a[1..] + [c] && (b + [d])[1..] == b[1..] + [d];
      assert a == [a[0]] + a[1..] && b == [b[0]] + b[1..];
      LessByLast(a[1..], b[1..], c, d);
    }
  }

  lemma DigitOrder(i: nat, j: nat)
    requires i < 10 && j < 10
    ensures DIGITS[i] < DIGITS[j] <==> i < j
  {
    DigitValue(i);
    DigitValue(j);
  }

  lemma DigitValue(i: nat)
    requires i < 10
    ensures DIGITS[i] as int == '0' as int + i
  {
    assert DIGITS[0] == '0' && DIGITS[1] == '1' && DIGITS[2] == '2' && DIGITS[3] == '3' && DIGITS[4] == '4';
    assert DIGITS[5] == '5' && DIGITS[6] == '6' && DIGITS[7] == '7' && DIGITS[8] == '8' && DIGITS[9] == '9';
  }

  /** All digits but the last, and the last. */
  lemma DigitsSplit(n: nat) returns (init: string, last: nat)
    ensures last == n % 10 && Digits(n) == init + [DIGITS[last]]
    ensures init == if n < 10 then "" else Digits(n / 10)
  {
    init, last := if n < 10 then "" else Digits(n / 10), n % 10;
    assert [] + [DIGITS[last]] == [DIGITS[last]];
  }

  /** Renderings of the same length sort like the numbers. */
  lemma {:induction false} SameLengthSortsByValue(a: nat, b: nat)
    requires |Digits(a)| == |Digits(b)|
    ensures Less(Digits(a), Digits(b)) <==> a < b
  {
    var x, c := DigitsSplit(a);
    var y, d := DigitsSplit(b);
    hide Digits, Less;
    LessByLast(x, y, DIGITS[c], DIGITS[d]);
    DigitOrder(c, d);
    LessIsTotal(x, y);
    assert a == 10 * (a / 10) + c && b == 10 * (b / 10) + d;
    if a >= 10 && b >= 10 {
      SameLengthSortsByValue(a / 10, b / 10);
      if x == y { DigitsInjective(a / 10, b / 10); }
    } else {
      assert a < 10 <==> b < 10;
      assert x == y;
    }
  }
}
