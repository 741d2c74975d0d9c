/** Text helpers shared by the components: `String.prototype.startsWith`,
    `String.prototype.includes`, and the decimal rendering of a non-negative
    integer in a template literal (`${n}`). */
module Strings {

  /** `s.startsWith(p)`. */
  predicate StartsWith(s: string, p: string) {
    p <= s
  }

  /** `sub` occurs in `s` at position `i`. */
  ghost predicate OccursAt(s: string, sub: string, i: int) {
    0 <= i && i + |sub| <= |s| && s[i..i + |sub|] == sub
  }

  /** The reference meaning of a substring test: some position holds `sub`. */
  ghost predicate Occurs(s: string, sub: string) {
    exists i :: OccursAt(s, sub, i)
  }

  /** `s.includes(sub)`, written as a left-to-right scan. */
  function Includes(s: string, sub: string): bool
    decreases |s|
  {
    if sub <= s then true
    else if |s| == 0 then false
    else Includes(s[1..], sub)
  }

  /** The scan agrees with the reference meaning, in both directions. */
  lemma {:induction false} IncludesIsOccurs(s: string, sub: string)
    ensures Includes(s, sub) <==> Occurs(s, sub)
    decreases |s|
  {
    if sub <= s {
      assert OccursAt(s, sub, 0);
    } else if |s| == 0 {
    } else {
      IncludesIsOccurs(s[1..], sub);
      if Includes(s[1..], sub) {
        var i :| OccursAt(s[1..], sub, i);
        TailSlice(s, i, |sub|);
        assert OccursAt(s, sub, i + 1);
      }
      if Occurs(s, sub) {
        var i :| OccursAt(s, sub, i);
        if i != 0 {
          TailSlice(s, i - 1, |sub|);
          assert OccursAt(s[1..], sub, i - 1);
        }
      }
    }
  }

  /** A slice of the tail is the slice one position further on. */
  lemma TailSlice(s: string, i: nat, n: nat)
    requires 1 + i + n <= |s|
    ensures s[1..][i..i + n] == s[i + 1..i + 1 + n]
  {
    var a, b := s[1..][i..i + n], s[i + 1..i + 1 + n];
    forall k | 0 <= k < n
      ensures a[k] == b[k]
    {
      assert a[k] == s[1..][i + k] == s[i + 1 + k];
    }
    assert a == b;
  }

  /** The character of a decimal digit. */
  function DigitChar(d: nat): (c: char)
    requires d < 10
    ensures '0' <= c <= '9' && (c as int) - ('0' as int) == d
  {
    (('0' as int) + d) as char
  }

  predicate IsDigit(c: char) {
    '0' <= c <= '9'
  }

  predicate AllDigits(s: string) {
    forall i :: 0 <= i < |s| ==> IsDigit(s[i])
  }

  /** `${n}` for a non-negative integer below 10^21: its decimal digits, with
      no leading zero unless `n` is 0. */
  function NatToString(n: nat): (s: string)
    ensures |s| >= 1 && AllDigits(s)
    ensures s[0] == '0' ==> n == 0
    decreases n
  {
    if n < 10 then [DigitChar(n)]
    else NatToString(n / 10) + [DigitChar(n % 10)]
  }

  /** The value a string of decimal digits denotes. */
  function ParseDigits(s: string): nat
    requires AllDigits(s)
  {
    if s == [] then 0
    else ParseDigits(s[..|s| - 1]) * 10 + ((s[|s| - 1] as int) - ('0' as int))
  }

  /** Reading the rendering back gives the number. */
  lemma {:induction false} ParseNatToString(n: nat)
    ensures ParseDigits(NatToString(n)) == n
    decreases n
  {
    var s := NatToString(n);
    if n >= 10 {
      ParseNatToString(n / 10);
      assert s[..|s| - 1] == NatToString(n / 10);
    }
  }

  /** Distinct numbers render to distinct strings. */
  lemma NatToStringInjective(a: nat, b: nat)
    requires NatToString(a) == NatToString(b)
    ensures a == b
  {
    ParseNatToString(a);
    ParseNatToString(b);
  }

  /** `${a}/${b}`, the "count/capacity" text the page shows. */
  function RatioText(a: nat, b: nat): (s: string)
    ensures |s| >= 3 && '/' in s
  {
    NatToString(a) + "/" + NatToString(b)
  }

  /** The text tells both numbers: equal texts mean equal pairs. */
  lemma RatioTextInjective(a1: nat, b1: nat, a2: nat, b2: nat)
    requires RatioText(a1, b1) == RatioText(a2, b2)
    ensures a1 == a2 && b1 == b2
  {
    DigitsAvoid(NatToString(a1), '/');
    DigitsAvoid(NatToString(a2), '/');
    SplitAtSeparator(NatToString(a1), NatToString(b1), NatToString(a2), NatToString(b2), '/');
    NatToStringInjective(a1, a2);
    NatToStringInjective(b1, b2);
  }

  /** A string glued to a separator and a tail can be split back apart when
      the head does not contain the separator. */
  lemma {:induction false} SplitAtSeparator(a1: string, a2: string, b1: string, b2: string, sep: char)
    requires forall i :: 0 <= i < |a1| ==> a1[i] != sep
    requires forall i :: 0 <= i < |b1| ==> b1[i] != sep
    requires a1 + [sep] + a2 == b1 + [sep] + b2
    ensures a1 == b1 && a2 == b2
  {
    var x := a1 + [sep] + a2;
    if |a1| < |b1| {
      SeparatorAt(a1, a2, sep);
      assert false;
    } else if |b1| < |a1| {
      SeparatorAt(b1, b2, sep);
      assert false;
    } else {
      assert a1 == x[..|a1|] == b1;
      assert a2 == x[|a1| + 1..] == b2;
    }
  }

  lemma SeparatorAt(a1: string, a2: string, sep: char)
    ensures |a1 + [sep] + a2| > |a1| && (a1 + [sep] + a2)[|a1|] == sep
  {
  }

  /** Decimal digits never contain a given non-digit separator. */
  lemma DigitsAvoid(s: string, sep: char)
    requires AllDigits(s) && !IsDigit(sep)
    ensures forall i :: 0 <= i < |s| ==> s[i] != sep
  {
  }
}
