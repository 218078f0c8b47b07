/**
  Canonical decimal spelling of natural numbers, the form JavaScript uses for
  the property keys of array and string indices ("0", "1", ..., "10", ...).
  `Show` writes a number, `Parse` reads one back; the round trip makes `Show`
  injective, which is what an index-keyed object needs.
 */
module Decimal {

  predicate IsDigit(c: char) {
    '0' <= c <= '9'
  }

  function DigitChar(d: nat): (c: char)
    requires d < 10
    ensures IsDigit(c)
  {
    "0123456789"[d]
  }

  function DigitValue(c: char): nat {
    if IsDigit(c) then c as int - '0' as int else 0
  }

  lemma DigitRoundTrip(d: nat)
    requires d < 10
    ensures DigitValue(DigitChar(d)) == d
  {
  }

  /** The canonical decimal spelling of `n`: digits only, no leading zero. */
  function Show(n: nat): (s: string)
    ensures |s| >= 1
    ensures forall i :: 0 <= i < |s| ==> IsDigit(s[i])
    ensures s[0] == '0' ==> n == 0
    decreases n
  {
    if n < 10 then [DigitChar(n)] else Show(n / 10) + [DigitChar(n % 10)]
  }

  /** Reads a string of decimal digits, most significant first. */
  function Parse(s: string): nat
    decreases |s|
  {
    if |s| == 0 then 0 else Parse(s[..|s| - 1]) * 10 + DigitValue(s[|s| - 1])
  }

  lemma {:induction false} ParseShow(n: nat)
    ensures Parse(Show(n)) == n
    decreases n
  {
    if n < 10 {
      DigitRoundTrip(n);
      assert [DigitChar(n)][..0] == [];
    } else {
      var q, d := n / 10, n % 10;
      var prefix := Show(q);
      var s := prefix + [DigitChar(d)];
      assert Show(n) == s;
      assert s[..|s| - 1] == prefix;
      assert s[|s| - 1] == DigitChar(d);
      ParseShow(q);
      DigitRoundTrip(d);
      assert Parse(s) == Parse(prefix) * 10 + DigitValue(DigitChar(d));
      assert n == q * 10 + d;
    }
  }

  /** Distinct numbers have distinct spellings. */
  lemma ShowInjective(m: nat, n: nat)
    ensures Show(m) == Show(n) ==> m == n
  {
    ParseShow(m);
    ParseShow(n);
  }
}
