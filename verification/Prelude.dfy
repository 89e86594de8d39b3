/**
 Shared vocabulary: optional values, decimal rendering, and the template
 strings (`<left><separator><right>`) the program builds its keys with.
 */
module Prelude {

  datatype Option<+T> = None | Some(value: T)

  function Front<T>(s: seq<T>): seq<T>
    requires s != []
  {
    s[..|s| - 1]
  }

  function Last<T>(s: seq<T>): T
    requires s != []
  {
    s[|s| - 1]
  }

  predicate IsDigit(c: char) {
    '0' <= c <= '9'
  }

  function Digit(d: nat): (c: char)
    requires d < 10
    ensures IsDigit(c)
  {
    "0123456789"[d]
  }

  function DigitValue(c: char): (d: nat)
    ensures forall k: nat :: k < 10 && c == Digit(k) ==> d == k
  {
    if IsDigit(c) then (c as int - '0' as int) else 0
  }

  /** `String(n)` for a non-negative integer. */
  function Decimal(n: nat): (s: string)
    ensures |s| > 0
    ensures forall i :: 0 <= i < |s| ==> IsDigit(s[i])
  {
    if n < 10 then [Digit(n)] else Decimal(n / 10) + [Digit(n % 10)]
  }

  /** Reads a digit string back; the inverse of Decimal. */
  function Numeral(s: string): nat {
    if s == [] then 0 else 10 * Numeral(s[..|s| - 1]) + DigitValue(s[|s| - 1])
  }

  lemma {:induction false} NumeralOfDecimal(n: nat)
    ensures Numeral(Decimal(n)) == n
  {
    if n < 10 {
      assert Decimal(n)[..0] == [];
    } else {
      NumeralOfDecimal(n / 10);
      assert Decimal(n)[..|Decimal(n)| - 1] == Decimal(n / 10);
    }
  }

  lemma DecimalInjective(m: nat, n: nat)
    requires Decimal(m) == Decimal(n)
    ensures m == n
  {
    NumeralOfDecimal(m);
    NumeralOfDecimal(n);
  }

  /**
   A separator that does not occur to its right splits a joined string in
   exactly one place.
   */
  lemma SplitUnique(a: string, x: string, b: string, y: string, sep: char)
    requires a + [sep] + x == b + [sep] + y
    requires sep !in x && sep !in y
    ensures a == b && x == y
  {
    var s := a + [sep] + x;
    assert s[|a|] == sep && s[|b|] == sep;
    assert |a| >= |b| && |b| >= |a|;
    assert a == s[..|a|] == b;
    assert x == s[|a| + 1..] == y;
  }

  /** `<name>#<tag><n>`: the shape of attempt identities, epoch keys and tool keys. */
  function Tagged(name: string, tag: string, n: nat): string {
    name + "#" + tag + Decimal(n)
  }

  /** A tagged key determines both of its parts, whatever the name contains. */
  lemma TaggedInjective(name: string, n: nat, name': string, n': nat, tag: string)
    requires '#' !in tag
    requires Tagged(name, tag, n) == Tagged(name', tag, n')
    ensures name == name' && n == n'
  {
    var x, y := tag + Decimal(n), tag + Decimal(n');
    assert Tagged(name, tag, n) == name + ['#'] + x;
    assert Tagged(name', tag, n') == name' + ['#'] + y;
    SplitUnique(name, x, name', y, '#');
    assert x[|tag|..] == Decimal(n) && y[|tag|..] == Decimal(n');
    DecimalInjective(n, n');
  }
}
