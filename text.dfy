/**
 * The JavaScript string operations the client relies on: `trim`,
 * `includes`, `split(sep)[0]`, the UTF-16 `length`, and the decimal text
 * of an integer.
 *
 * Dafny strings are sequences of Unicode scalar values, JavaScript strings
 * are sequences of UTF-16 code units. `trim` and `includes` give the same
 * answers on both views (every character `trim` removes lies in the Basic
 * Multilingual Plane); `length` is modelled exactly by `Utf16Length`.
 */
module Text {

  /** The code points JavaScript's `trim` removes: ECMAScript's WhiteSpace
      (tab, vertical tab, form feed, space, no-break space, zero width
      no-break space and every character of the Unicode category Zs) and
      its LineTerminator (line feed, carriage return, U+2028, U+2029). */
  predicate IsSpace(c: char) {
    || c == '\t' || c == '\n' || c == '\U{000B}' || c == '\U{000C}' || c == '\r'
    || c == ' ' || c == '\U{00A0}' || c == '\U{1680}'
    || ('\U{2000}' <= c <= '\U{200A}')
    || c == '\U{2028}' || c == '\U{2029}' || c == '\U{202F}' || c == '\U{205F}'
    || c == '\U{3000}' || c == '\U{FEFF}'
  }

  /** Every character of `s` is white space (vacuously true of ""). */
  predicate AllSpace(s: string) {
    forall i :: 0 <= i < |s| ==> IsSpace(s[i])
  }

  /** The first index at or after `i` that does not hold white space
      (`|s|` when there is none). */
  function SkipSpaces(s: string, i: nat): (n: nat)
    requires i <= |s|
    ensures i <= n <= |s|
    ensures forall k :: i <= k < n ==> IsSpace(s[k])
    ensures n < |s| ==> !IsSpace(s[n])
    decreases |s| - i
  {
    if i < |s| && IsSpace(s[i]) then SkipSpaces(s, i + 1) else i
  }

  /** The end of `s[lo..j]` once its trailing white space is dropped. */
  function DropTrailingSpaces(s: string, lo: nat, j: nat): (m: nat)
    requires lo <= j <= |s|
    ensures lo <= m <= j
    ensures forall k :: m <= k < j ==> IsSpace(s[k])
    ensures m > lo ==> !IsSpace(s[m - 1])
    decreases j
  {
    if j > lo && IsSpace(s[j - 1]) then DropTrailingSpaces(s, lo, j - 1) else j
  }

  /** `s.trim()`: `s` without its leading and trailing white space. It is
      empty exactly when `s` is all white space, and otherwise a slice of
      `s` that neither starts nor ends with white space and is preceded and
      followed in `s` by white space only. */
  function Trim(s: string): (r: string)
    ensures r == [] <==> AllSpace(s)
    ensures r != [] ==> !IsSpace(r[0]) && !IsSpace(r[|r| - 1])
    ensures exists k: nat :: OccursAt(s, r, k) && AllSpace(s[..k]) && AllSpace(s[k + |r|..])
  {
    var n := SkipSpaces(s, 0);
    var m := DropTrailingSpaces(s, n, |s|);
    assert OccursAt(s, s[n..m], n) && AllSpace(s[..n]) && AllSpace(s[n + |s[n..m]|..]);
    assert m > n ==> s[n..m][0] == s[n] && !AllSpace(s);
    s[n..m]
  }

  /** `sub` occurs in `s` starting at index `i`. */
  predicate OccursAt(s: string, sub: string, i: nat) {
    i + |sub| <= |s| && s[i..i + |sub|] == sub
  }

  /** `s.includes(sub)`: `sub` occurs somewhere in `s` (the empty string
      occurs everywhere). */
  function Includes(s: string, sub: string): (r: bool)
    ensures r <==> exists i: nat :: OccursAt(s, sub, i)
    decreases |s|
  {
    if OccursAt(s, sub, 0) then true
    else if |s| <= |sub| then
      assert forall i: nat :: !OccursAt(s, sub, i);
      false
    else
      var r := Includes(s[1..], sub);
      assert forall i: nat :: OccursAt(s[1..], sub, i) <==> OccursAt(s, sub, i + 1) by {
        forall i: nat ensures OccursAt(s[1..], sub, i) <==> OccursAt(s, sub, i + 1) {
          if i + |sub| <= |s| - 1 {
            assert s[1..][i..i + |sub|] == s[i + 1..i + 1 + |sub|];
          }
        }
      }
      assert r ==> exists i: nat :: OccursAt(s, sub, i) by {
        if r {
          var i: nat :| OccursAt(s[1..], sub, i);
          assert OccursAt(s, sub, i + 1);
        }
      }
      assert (exists i: nat :: OccursAt(s, sub, i)) ==> r by {
        if exists i: nat :: OccursAt(s, sub, i) {
          var i: nat :| OccursAt(s, sub, i);
          assert i > 0;
          assert OccursAt(s[1..], sub, i - 1);
        }
      }
      r
  }

  /** `s.split(sep)[0]` for a one-character separator: the text of `s`
      before the first `sep`, or all of `s` when there is none. */
  function BeforeFirst(s: string, sep: char): (r: string)
    ensures |r| <= |s| && r == s[..|r|]
    ensures sep !in r
    ensures |r| < |s| ==> s[|r|] == sep
  {
    if |s| == 0 || s[0] == sep then [] else [s[0]] + BeforeFirst(s[1..], sep)
  }

  /** The UTF-16 code units one character takes: one inside the Basic
      Multilingual Plane, a surrogate pair outside it. */
  function Units(c: char): (u: nat)
    ensures u == 1 <==> c < '\U{10000}'
    ensures u == 2 <==> c >= '\U{10000}'
  {
    if c < '\U{10000}' then 1 else 2
  }

  /** The number of UTF-16 code units of `s`, which is JavaScript's
      `s.length`: characters outside the Basic Multilingual Plane take two. */
  function Utf16Length(s: string): (n: nat)
    ensures |s| <= n <= 2 * |s|
    ensures (forall i :: 0 <= i < |s| ==> s[i] < '\U{10000}') ==> n == |s|
    ensures |s| == 1 ==> n == Units(s[0])
  {
    if s == [] then 0
    else Units(s[0]) + Utf16Length(s[1..])
  }

  /** The length of a concatenation is the sum of the lengths, so the
      length of any text is the sum of its characters' units. */
  lemma {:induction false} Utf16LengthAppend(a: string, b: string)
    ensures Utf16Length(a + b) == Utf16Length(a) + Utf16Length(b)
    decreases |a|
  {
    if a != [] {
      assert (a + b)[0] == a[0] && (a + b)[1..] == a[1..] + b;
      Utf16LengthAppend(a[1..], b);
    } else {
      assert a + b == b;
    }
  }

  /** The decimal digit for `d`. */
  function Digit(d: nat): (c: char)
    requires d < 10
    ensures '0' <= c <= '9' && c as int - '0' as int == d
  {
    "0123456789"[d]
  }

  /** The number a text of decimal digits stands for. */
  function DigitsValue(r: string): nat
    requires forall i :: 0 <= i < |r| ==> '0' <= r[i] <= '9'
  {
    if r == [] then 0 else DigitsValue(r[..|r| - 1]) * 10 + (r[|r| - 1] as int - '0' as int)
  }

  /** `String(n)` for a natural number up to 2^53 (beyond it JavaScript
      rounds `n` to a double first): decimal digits that stand for `n`,
      with no leading zero. */
  function NatToText(n: nat): (r: string)
    ensures |r| > 0
    ensures forall i :: 0 <= i < |r| ==> '0' <= r[i] <= '9'
    ensures DigitsValue(r) == n
    ensures r[0] == '0' ==> r == "0"
  {
    if n < 10 then [Digit(n)]
    else
      var r := NatToText(n / 10) + [Digit(n % 10)];
      assert r[..|r| - 1] == NatToText(n / 10);
      r
  }

  /** `String(n)` for an integer of magnitude up to 2^53: a minus sign
      before the digits of |n| when negative. */
  function IntToText(n: int): (r: string)
    ensures n >= 0 ==> r == NatToText(n)
    ensures n < 0 ==> r == "-" + NatToText(-n)
  {
    if n >= 0 then NatToText(n) else "-" + NatToText(-n)
  }

  /** JavaScript's `s || fallback` for a string `s`: `s` unless it is empty. */
  function Or(s: string, fallback: string): (r: string)
    ensures r == s || r == fallback
    ensures s != "" ==> r == s
    ensures s == "" ==> r == fallback
  {
    if s != "" then s else fallback
  }
}
