/** Decimal numerals, and taking names with separators apart again. */
module Text {
  function Digit(d: nat): char
    requires d < 10
  {
    "0123456789"[d]
  }

  function Natural(n: nat): string {
    if n < 10 then [Digit(n)] else Natural(n / 10) + [Digit(n % 10)]
  }

  /** The `%d` verb. */
  function Decimal(n: int): string {
    if n < 0 then "-" + Natural(-n) else Natural(n)
  }

  predicate HasPrefix(s: string, prefix: string) { prefix <= s }

  predicate HasSuffix(s: string, suffix: string) {
    |suffix| <= |s| && s[|s| - |suffix|..] == suffix
  }

  lemma {:induction false} NaturalInjective(m: nat, n: nat)
    requires Natural(m) == Natural(n)
    ensures m == n
    decreases m
  {
    NaturalShape(m);
    NaturalShape(n);
    if m >= 10 && n >= 10 {
      assert Natural(m)[..|Natural(m)| - 1] == Natural(m / 10);
      assert Natural(n)[..|Natural(n)| - 1] == Natural(n / 10);
      NaturalInjective(m / 10, n / 10);
    }
  }

  lemma {:induction false} NaturalShape(n: nat)
    ensures |Natural(n)| >= 1 && (|Natural(n)| == 1 <==> n < 10)
    ensures forall c | c in Natural(n) :: '0' <= c <= '9'
    ensures Natural(n)[|Natural(n)| - 1] == Digit(n % 10)
  {
    if n >= 10 {
      NaturalShape(n / 10);
    }
  }

  lemma DecimalInjective(m: int, n: int)
    requires Decimal(m) == Decimal(n)
    ensures m == n
  {
    NaturalShape(if m < 0 then -m else m);
    NaturalShape(if n < 0 then -n else n);
    assert Decimal(m)[0] in Decimal(m) && Decimal(n)[0] in Decimal(n);
    if m < 0 && n < 0 {
      assert Decimal(m)[1..] == Natural(-m) && Decimal(n)[1..] == Natural(-n);
      NaturalInjective(-m, -n);
    } else if m >= 0 && n >= 0 {
      NaturalInjective(m, n);
    }
  }

  lemma DecimalHasNoUnderscore(n: int)
    ensures '_' !in Decimal(n)
  {
    NaturalShape(if n < 0 then -n else n);
  }

  /** The part before the first separator is unique. */
  lemma FirstSeparator(a: string, x: string, b: string, y: string)
    requires a + "_" + x == b + "_" + y
    requires '_' !in a && '_' !in b
    ensures a == b && x == y
  {
    var s := a + "_" + x;
    assert s[|a|] == '_' && s[|b|] == '_';
    assert s[..|a|] == a && s[..|b|] == b;
    assert s[|a| + 1..] == x && s[|b| + 1..] == y;
  }

  /** The part after the last separator is unique. */
  lemma LastSeparator(x: string, a: string, y: string, b: string)
    requires x + "_" + a == y + "_" + b
    requires '_' !in a && '_' !in b
    ensures x == y && a == b
  {
    var s := x + "_" + a;
    assert s[|x|] == '_' && s[|y|] == '_';
    assert s[..|x|] == x && s[..|y|] == y;
    assert s[|x| + 1..] == a && s[|y| + 1..] == b;
  }
}
