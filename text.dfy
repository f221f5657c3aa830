/**
 * String helpers: JavaScript's `toLowerCase` restricted to ASCII, `includes`
 * on strings, `join`, and the decimal rendering of a non-negative number
 * (`n.toString()`, a template literal `${n}`).
 */
module Text {

  /** `toLowerCase` on one character: only 'A'..'Z' are changed. */
  function LowerChar(c: char): char {
    if 'A' <= c <= 'Z' then (c as int + 32) as char else c
  }

  /** `s.toLowerCase()` for ASCII text. */
  function Lower(s: string): (r: string)
    ensures |r| == |s|
    ensures forall k :: 0 <= k < |s| ==> r[k] == LowerChar(s[k])
  {
    seq(|s|, k requires 0 <= k < |s| => LowerChar(s[k]))
  }

  /** `sub` occurs in `s` starting at position `i`. */
  ghost predicate OccursAt(s: string, sub: string, i: int) {
    0 <= i && i + |sub| <= |s| && s[i..i + |sub|] == sub
  }

  /** `s.startsWith(p)`. */
  predicate IsPrefix(p: string, s: string) {
    |p| <= |s| && s[..|p|] == p
  }

  /** `s.includes(sub)`: `sub` occurs somewhere in `s` (the empty string occurs everywhere). */
  predicate Contains(s: string, sub: string)
    decreases |s|
  {
    IsPrefix(sub, s) || (s != [] && Contains(s[1..], sub))
  }

  /** `Contains` is exactly the existence of an occurrence. */
  lemma {:induction false} ContainsIffOccurs(s: string, sub: string)
    ensures Contains(s, sub) <==> exists i :: OccursAt(s, sub, i)
    decreases |s|
  {
    if IsPrefix(sub, s) {
      assert OccursAt(s, sub, 0);
    } else {
      if s != [] {
        ContainsIffOccurs(s[1..], sub);
      }
      if s != [] && Contains(s[1..], sub) {
        var i :| OccursAt(s[1..], sub, i);
        assert s[i + 1..i + 1 + |sub|] == s[1..][i..i + |sub|];
        assert OccursAt(s, sub, i + 1);
      } else {
        forall i ensures !OccursAt(s, sub, i) {
          if i == 0 {
            if |sub| <= |s| {
              assert s[0..|sub|] == s[..|sub|];
            }
          } else if i > 0 && i + |sub| <= |s| {
            assert s[1..][i - 1..i - 1 + |sub|] == s[i..i + |sub|];
            assert !OccursAt(s[1..], sub, i - 1);
          }
        }
      }
    }
  }

  /** The empty query is contained in every string. */
  lemma EmptyContained(s: string)
    ensures Contains(s, "")
  {
    assert IsPrefix("", s);
  }

  /** `text.toLowerCase().includes(query.toLowerCase())`. */
  predicate MatchesIgnoringCase(text: string, query: string) {
    Contains(Lower(text), Lower(query))
  }

  /** `xs.join(sep)` with a one-character separator. */
  function Join(xs: seq<string>, sep: char): string
    decreases |xs|
  {
    if xs == [] then "" else if |xs| == 1 then xs[0] else xs[0] + [sep] + Join(xs[1..], sep)
  }

  /** The number of occurrences of `c` in `s`. */
  function CountChar(s: string, c: char): nat
    decreases |s|
  {
    if s == [] then 0 else (if s[0] == c then 1 else 0) + CountChar(s[1..], c)
  }

  lemma {:induction false} CountCharAppend(s: string, t: string, c: char)
    ensures CountChar(s + t, c) == CountChar(s, c) + CountChar(t, c)
    decreases |s|
  {
    if s == [] {
      assert s + t == t;
    } else {
      assert (s + t)[1..] == s[1..] + t;
      CountCharAppend(s[1..], t, c);
    }
  }

  /** The occurrences of `c` in all of `xs`. */
  function CountCharAll(xs: seq<string>, c: char): nat
    decreases |xs|
  {
    if xs == [] then 0 else CountChar(xs[0], c) + CountCharAll(xs[1..], c)
  }

  /**
   * Joining `n >= 1` strings adds `n - 1` separators and nothing else: the
   * separator count of the result is `n - 1` plus those inside the parts.
   */
  lemma {:induction false} JoinCount(xs: seq<string>, sep: char, c: char)
    requires |xs| >= 1
    ensures CountChar(Join(xs, sep), c) == (if c == sep then |xs| - 1 else 0) + CountCharAll(xs, c)
    decreases |xs|
  {
    if |xs| == 1 {
      assert CountCharAll(xs, c) == CountChar(xs[0], c) + CountCharAll(xs[1..], c);
    } else {
      JoinCount(xs[1..], sep, c);
      CountCharAppend(xs[0] + [sep], Join(xs[1..], sep), c);
      CountCharAppend(xs[0], [sep], c);
    }
  }

  /** The decimal digit character for `d`. */
  function DigitChar(d: nat): char
    requires d < 10
  {
    ('0' as int + d) as char
  }

  predicate IsDigit(c: char) {
    '0' <= c <= '9'
  }

  /** `n.toString()` for a non-negative integer: its decimal digits, no leading zeros. */
  function NatToString(n: nat): (r: string)
    ensures |r| >= 1
    ensures forall k :: 0 <= k < |r| ==> IsDigit(r[k])
    ensures |r| > 1 ==> r[0] != '0'
    decreases n
  {
    if n < 10 then [DigitChar(n)] else NatToString(n / 10) + [DigitChar(n % 10)]
  }

  /** The value of a string of decimal digits (the inverse of `NatToString`). */
  function DigitsValue(s: string): nat
    requires forall k :: 0 <= k < |s| ==> IsDigit(s[k])
    decreases |s|
  {
    if s == [] then 0
    else
      assert IsDigit(s[|s| - 1]);
      10 * DigitsValue(s[..|s| - 1]) + (s[|s| - 1] as int - '0' as int)
  }

  /** Reading back the digits of `n` gives `n`. */
  lemma {:induction false} NatToStringRoundTrip(n: nat)
    ensures DigitsValue(NatToString(n)) == n
    decreases n
  {
    if n >= 10 {
      NatToStringRoundTrip(n / 10);
      var r := NatToString(n);
      assert r[..|r| - 1] == NatToString(n / 10);
    }
  }

  /** Distinct numbers have distinct decimal renderings. */
  lemma NatToStringInjective(m: nat, n: nat)
    requires NatToString(m) == NatToString(n)
    ensures m == n
  {
    NatToStringRoundTrip(m);
    NatToStringRoundTrip(n);
  }
}
