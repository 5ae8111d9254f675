/**
 * The string operations the party list depends on: `lowercased()`,
 * `contains(_:)` and the decimal rendering of an `Int` inside a string
 * interpolation. Characters stand for Swift's `Character`; lower-casing is
 * ASCII-only.
 */
module Text {

  predicate IsUpper(c: char) {
    'A' <= c <= 'Z'
  }

  /** ASCII lower-casing of one character; every other character is kept. */
  function LowerChar(c: char): (r: char)
    ensures !IsUpper(r)
  {
    if IsUpper(c) then (c as int + 32) as char else c
  }

  /** `s.lowercased()`, restricted to ASCII letters. */
  function Lowercased(s: string): (r: string)
    ensures |r| == |s|
    ensures forall i :: 0 <= i < |r| ==> !IsUpper(r[i])
    ensures forall i :: 0 <= i < |r| ==> LowerChar(r[i]) == LowerChar(s[i])
    ensures forall i :: 0 <= i < |r| && !IsUpper(s[i]) ==> r[i] == s[i]
  {
    seq(|s|, i requires 0 <= i < |s| => LowerChar(s[i]))
  }

  lemma LowercasedIdempotent(s: string)
    ensures Lowercased(Lowercased(s)) == Lowercased(s)
  {
  }

  predicate StartsWith(s: string, prefix: string) {
    |prefix| <= |s| && s[..|prefix|] == prefix
  }

  /** `needle` occurs in `s` at position `i`. */
  ghost predicate OccursAt(s: string, needle: string, i: int) {
    0 <= i && i + |needle| <= |s| && s[i..i + |needle|] == needle
  }

  /** `s.contains(needle)`: some suffix of `s` starts with `needle`. */
  function Contains(s: string, needle: string): (b: bool)
    ensures b ==> |needle| <= |s|
    ensures StartsWith(s, needle) ==> b
    decreases |s|
  {
    StartsWith(s, needle) || (|s| > 0 && Contains(s[1..], needle))
  }

  lemma {:induction false} ContainsIffOccurs(s: string, needle: string)
    ensures Contains(s, needle) <==> exists i :: OccursAt(s, needle, i)
    decreases |s|
  {
    if StartsWith(s, needle) {
      assert OccursAt(s, needle, 0);
    } else if |s| == 0 {
      assert forall i :: !OccursAt(s, needle, i);
    } else {
      var t := s[1..];
      ContainsIffOccurs(t, needle);
      assert !OccursAt(s, needle, 0);
      if Contains(t, needle) {
        var j :| OccursAt(t, needle, j);
        assert t[j..j + |needle|] == s[j + 1..j + 1 + |needle|];
        assert OccursAt(s, needle, j + 1);
      } else {
        forall i | OccursAt(s, needle, i)
          ensures false
        {
          assert i >= 1;
          assert t[i - 1..i - 1 + |needle|] == s[i..i + |needle|];
          assert OccursAt(t, needle, i - 1);
        }
      }
    }
  }

  /** Every string contains itself. */
  lemma ContainsSelf(s: string)
    ensures Contains(s, s)
  {
  }

  function Digit(d: nat): (c: char)
    requires d < 10
    ensures '0' <= c <= '9'
  {
    (48 + d) as char
  }

  /** The decimal digits of `n`, as Swift's `"\(n)"` renders a non-negative `Int`. */
  function Decimal(n: nat): (r: string)
    ensures |r| >= 1
    ensures forall i :: 0 <= i < |r| ==> '0' <= r[i] <= '9'
    ensures n >= 10 ==> |r| >= 2
    ensures r[0] == '0' ==> n == 0
    decreases n
  {
    if n < 10 then [Digit(n)] else Decimal(n / 10) + [Digit(n % 10)]
  }

  /** The value of a string of decimal digits, most significant first. */
  function DecimalValue(s: string): nat
    requires forall i :: 0 <= i < |s| ==> '0' <= s[i] <= '9'
    decreases |s|
  {
    if s == [] then 0
    else DecimalValue(s[..|s| - 1]) * 10 + (s[|s| - 1] as int - 48)
  }

  lemma {:induction false} DecimalRoundTrip(n: nat)
    ensures DecimalValue(Decimal(n)) == n
    decreases n
  {
    var s := Decimal(n);
    if n < 10 {
      assert s[..|s| - 1] == [];
    } else {
      DecimalRoundTrip(n / 10);
      assert s[..|s| - 1] == Decimal(n / 10);
    }
  }

  lemma DecimalInjective(a: nat, b: nat)
    requires Decimal(a) == Decimal(b)
    ensures a == b
  {
    DecimalRoundTrip(a);
    DecimalRoundTrip(b);
  }
}
