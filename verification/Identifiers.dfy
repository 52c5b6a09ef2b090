/**
 Identifiers the reducer generates: `format!("fact-{}-{}", version, position)` and its siblings for
 memories and actions. The module proves that the format loses nothing.
 */
module Identifiers {

  function DigitOf(d: nat): char
    requires d < 10
  {
    ['0', '1', '2', '3', '4', '5', '6', '7', '8', '9'][d]
  }

  predicate IsDigit(c: char) {
    '0' <= c <= '9'
  }

  /** Display of an unsigned integer. */
  function Decimal(n: nat): (s: string)
    ensures |s| > 0
    ensures forall c | c in s :: IsDigit(c)
  {
    if n < 10 then [DigitOf(n)] else Decimal(n / 10) + [DigitOf(n % 10)]
  }

  function GeneratedId(kind: string, version: nat, position: nat): string {
    kind + Decimal(version) + "-" + Decimal(position)
  }

  function FactId(version: nat, position: nat): string {
    GeneratedId("fact-", version, position)
  }

  function MemoryId(version: nat, position: nat): string {
    GeneratedId("memory-", version, position)
  }

  function ActionId(version: nat, position: nat): string {
    GeneratedId("action-", version, position)
  }

  /** Reading digits from the left. */
  function ValueOf(digits: string): int {
    if |digits| == 0 then 0
    else 10 * ValueOf(digits[..|digits| - 1]) + (digits[|digits| - 1] as int - '0' as int)
  }

  /** The displayed digits denote the number, and the first one is zero for zero alone. */
  lemma {:induction false} DecimalReads(n: nat)
    ensures ValueOf(Decimal(n)) == n
    ensures Decimal(n)[0] == '0' <==> n == 0
  {
    if n < 10 {
      assert Decimal(n)[..0] == "";
    } else {
      DecimalReads(n / 10);
      assert Decimal(n)[..|Decimal(n)| - 1] == Decimal(n / 10);
    }
  }

  lemma DigitInjective(a: nat, b: nat)
    requires a < 10 && b < 10 && DigitOf(a) == DigitOf(b)
    ensures a == b
  {
  }

  lemma DecimalLength(n: nat)
    ensures |Decimal(n)| == 1 <==> n < 10
  {
  }

  lemma {:induction false} DecimalInjective(m: nat, n: nat)
    requires Decimal(m) == Decimal(n)
    ensures m == n
  {
    var s := Decimal(m);
    DecimalLength(m);
    DecimalLength(n);
    if m < 10 && n < 10 {
      assert s[0] == DigitOf(m) == DigitOf(n);
      DigitInjective(m, n);
    } else if m >= 10 && n >= 10 {
      assert s[|s| - 1] == DigitOf(m % 10) == DigitOf(n % 10);
      DigitInjective(m % 10, n % 10);
      assert s[..|s| - 1] == Decimal(m / 10) == Decimal(n / 10);
      DecimalInjective(m / 10, n / 10);
    }
  }

  lemma NoDashWithin(a: string, b: string, s: string)
    requires forall x | x in a :: IsDigit(x)
    requires s == a + "-" + b
    ensures forall i | 0 <= i < |a| :: s[i] != '-'
  {
    forall i | 0 <= i < |a|
      ensures s[i] != '-'
    {
      assert s[i] == a[i] && a[i] in a;
    }
  }

  /** Two digit strings separated by a dash are determined by their concatenation. */
  lemma DashSplits(a: string, b: string, c: string, d: string)
    requires forall x | x in a || x in c :: IsDigit(x)
    requires a + "-" + b == c + "-" + d
    ensures a == c && b == d
  {
    var s := a + "-" + b;
    assert s[|a|] == '-' && s[|c|] == '-';
    NoDashWithin(a, b, s);
    NoDashWithin(c, d, s);
    assert a == s[..|a|] && c == s[..|c|];
    assert b == s[|a| + 1..] && d == s[|c| + 1..];
  }

  /** The generated-id format is injective in version and position. */
  lemma GeneratedIdInjective(kind: string, v1: nat, p1: nat, v2: nat, p2: nat)
    requires GeneratedId(kind, v1, p1) == GeneratedId(kind, v2, p2)
    ensures v1 == v2 && p1 == p2
  {
    var a, b, c, d := Decimal(v1), Decimal(p1), Decimal(v2), Decimal(p2);
    var s := GeneratedId(kind, v1, p1);
    assert a + "-" + b == s[|kind|..];
    assert c + "-" + d == s[|kind|..];
    DashSplits(a, b, c, d);
    DecimalInjective(v1, v2);
    DecimalInjective(p1, p2);
  }
}
