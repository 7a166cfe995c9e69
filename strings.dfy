/** Python string operations the action strings rely on: `startswith`,
    `strip()`, ASCII `lower()`, `split(sep)`, `split(sep, 1)` and `int()`. */
module Strings {

  /** Characters for which Python's `str.isspace()` holds (what `strip()` removes). */
  predicate IsSpace(c: char) {
    var n := c as int;
    (9 <= n <= 13) || (28 <= n <= 32) || n == 0x85 || n == 0xA0 || n == 0x1680
    || (0x2000 <= n <= 0x200A) || n == 0x2028 || n == 0x2029 || n == 0x202F
    || n == 0x205F || n == 0x3000
  }

  predicate StartsWith(s: string, prefix: string) {
    |prefix| <= |s| && s[..|prefix|] == prefix
  }

  /** One differing position is enough to rule a prefix out. */
  lemma DiffersAt(s: string, prefix: string, k: nat)
    requires k < |prefix| && k < |s| && s[k] != prefix[k]
    ensures !StartsWith(s, prefix)
  {
  }

  /** No leading and no trailing whitespace. */
  predicate Trimmed(s: string) {
    |s| > 0 ==> !IsSpace(s[0]) && !IsSpace(s[|s| - 1])
  }

  function StripLeft(s: string): (r: string)
    ensures |r| <= |s| && r == s[|s| - |r|..]
    ensures |r| > 0 ==> !IsSpace(r[0])
    ensures forall i :: 0 <= i < |s| - |r| ==> IsSpace(s[i])
  {
    if |s| > 0 && IsSpace(s[0]) then StripLeft(s[1..]) else s
  }

  function StripRight(s: string): (r: string)
    ensures |r| <= |s| && r == s[..|r|]
    ensures |r| > 0 ==> !IsSpace(r[|r| - 1])
    ensures forall i :: |r| <= i < |s| ==> IsSpace(s[i])
  {
    if |s| > 0 && IsSpace(s[|s| - 1]) then StripRight(s[..|s| - 1]) else s
  }

  /** Python's `s.strip()`: the infix left after removing whitespace at both ends. */
  function Strip(s: string): (r: string)
    ensures Trimmed(r)
    ensures exists i, j :: 0 <= i <= j <= |s| && r == s[i..j]
                           && (forall k :: 0 <= k < i ==> IsSpace(s[k]))
                           && (forall k :: j <= k < |s| ==> IsSpace(s[k]))
  {
    var l := StripLeft(s);
    var r := StripRight(l);
    assert r == s[|s| - |l|..|s| - |l| + |r|];
    r
  }

  /** Stripping text that already has no whitespace at either end changes nothing. */
  lemma {:induction false} StripTrimmed(s: string)
    requires Trimmed(s)
    ensures Strip(s) == s
  {
  }

  function LowerChar(c: char): (r: char)
    ensures !('A' <= r <= 'Z')
    ensures ('A' <= c <= 'Z') || r == c
  {
    if 'A' <= c <= 'Z' then (c as int - 'A' as int + 'a' as int) as char else c
  }

  /** `s.lower()` restricted to ASCII letters. */
  function Lower(s: string): (r: string)
    ensures |r| == |s|
    ensures forall i :: 0 <= i < |s| ==> r[i] == LowerChar(s[i])
  {
    if s == [] then [] else [LowerChar(s[0])] + Lower(s[1..])
  }

  /** Text without capital letters is its own lower case. */
  lemma LowerOfLowerCase(s: string)
    requires forall k :: 0 <= k < |s| ==> !('A' <= s[k] <= 'Z')
    ensures Lower(s) == s
  {
  }

  /** Index of the first occurrence of `c`, or `|s|` when there is none. */
  function FirstIndex(s: string, c: char): (k: nat)
    ensures k <= |s|
    ensures forall i :: 0 <= i < k ==> s[i] != c
    ensures k < |s| ==> s[k] == c
    ensures (k == |s|) == (c !in s)
  {
    if s == [] then 0 else if s[0] == c then 0 else 1 + FirstIndex(s[1..], c)
  }

  /** `s.split(c, 1)` when `c` occurs in `s`: the text before and after its first occurrence. */
  function SplitFirst(s: string, c: char): (r: (string, string))
    requires c in s
    ensures r.0 + [c] + r.1 == s
    ensures c !in r.0
  {
    var k := FirstIndex(s, c);
    assert s == s[..k] + [c] + s[k + 1..];
    (s[..k], s[k + 1..])
  }

  /** Splitting `p + [c] + v` at the first `c` gives back `p` and `v` whenever `p` has no `c`,
      however many `c` the value `v` holds. */
  lemma {:induction false} SplitFirstOfJoined(p: string, c: char, v: string)
    requires c !in p
    ensures c in p + [c] + v
    ensures SplitFirst(p + [c] + v, c) == (p, v)
  {
    var s := p + [c] + v;
    assert s[|p|] == c;
    assert forall i :: 0 <= i < |p| ==> s[i] == p[i];
    assert FirstIndex(s, c) == |p|;
    assert s[..|p|] == p;
    assert s[|p| + 1..] == v;
  }

  /** `s.split(":", 1)[1]`: everything after the first colon. */
  function AfterColon(s: string): string
    requires ':' in s
  {
    SplitFirst(s, ':').1
  }

  /** A string that starts with `tag:` (where `tag` has no colon) contains a colon, and
      everything after the first colon is the rest of the string, further colons included. */
  lemma {:induction false} AfterTag(s: string, tag: string)
    requires ':' !in tag && StartsWith(s, tag + ":")
    ensures ':' in s
    ensures AfterColon(s) == s[|tag| + 1..]
  {
    assert s == tag + [':'] + s[|tag| + 1..];
    SplitFirstOfJoined(tag, ':', s[|tag| + 1..]);
  }

  /** `s.split(c)`: the pieces between the occurrences of `c`, always at least one. */
  function SplitOn(s: string, c: char): (parts: seq<string>)
    ensures |parts| >= 1
    ensures forall i :: 0 <= i < |parts| ==> c !in parts[i]
    ensures (c in s) == (|parts| >= 2)
    ensures Join(parts, c) == s
    ensures forall i, ch :: 0 <= i < |parts| && ch in parts[i] ==> ch in s
    decreases |s|
  {
    if c !in s then [s]
    else
      var (head, tail) := SplitFirst(s, c);
      assert forall ch :: ch in head ==> ch in s;
      assert forall ch :: ch in tail ==> ch in s;
      [head] + SplitOn(tail, c)
  }

  /** `c.join(parts)`. */
  function Join(parts: seq<string>, c: char): string
  {
    if |parts| == 0 then "" else if |parts| == 1 then parts[0] else parts[0] + [c] + Join(parts[1..], c)
  }

  predicate IsDigit(c: char) {
    '0' <= c <= '9'
  }

  function DigitsValue(s: string): (n: nat)
    requires forall i :: 0 <= i < |s| ==> IsDigit(s[i])
  {
    if s == [] then 0
    else
      assert IsDigit(s[|s| - 1]);
      DigitsValue(s[..|s| - 1]) * 10 + (s[|s| - 1] as int - '0' as int)
  }

  /** Python's `int(text)` on a decimal literal: surrounding whitespace, an optional sign,
      then at least one ASCII digit; `None` where Python raises `ValueError`. */
  function ParseInt(text: string): (r: Option<int>)
    ensures r.Some? ==> exists k :: 0 <= k < |Strip(text)| && IsDigit(Strip(text)[k])
    ensures r.Some? && r.value < 0 ==> Strip(text)[0] == '-'
  {
    var t := Strip(text);
    var negative := |t| > 0 && t[0] == '-';
    var digits := if |t| > 0 && (t[0] == '-' || t[0] == '+') then t[1..] else t;
    if |digits| > 0 && forall i :: 0 <= i < |digits| ==> IsDigit(digits[i]) then
      assert IsDigit(t[|t| - 1]);
      var v: int := DigitsValue(digits);
      var value: int := if negative then -v else v;
      Some(value)
    else None
  }

  /** Decimal digits of a natural number, most significant first. */
  function DecimalString(n: nat): (s: string)
    ensures |s| > 0 && forall i :: 0 <= i < |s| ==> IsDigit(s[i])
    ensures Trimmed(s) && s[0] != '-' && s[0] != '+'
  {
    if n < 10 then [('0' as int + n) as char]
    else DecimalString(n / 10) + [('0' as int + n % 10) as char]
  }

  lemma {:induction false} DigitsValueOfDecimal(n: nat)
    ensures DigitsValue(DecimalString(n)) == n
  {
    var s := DecimalString(n);
    if n >= 10 {
      DigitsValueOfDecimal(n / 10);
      assert s[..|s| - 1] == DecimalString(n / 10);
    }
  }

  /** `int(str(n))` gives `n` back. */
  lemma {:induction false} ParseIntOfDecimal(n: nat)
    ensures ParseInt(DecimalString(n)) == Some(n)
  {
    ParseIntOfDigits(DecimalString(n));
    DigitsValueOfDecimal(n);
  }

  /** `int()` of a minus sign followed by a number's decimal digits is the negated number. */
  lemma {:induction false} ParseIntOfNegative(n: nat)
    ensures ParseInt("-" + DecimalString(n)) == Some(-(n as int))
  {
    var d := DecimalString(n);
    var t := "-" + d;
    assert t[1..] == d;
    assert t[|t| - 1] == d[|d| - 1];
    StripTrimmed(t);
    DigitsValueOfDecimal(n);
  }

  /** `int()` of a non-empty run of digits is their decimal value. */
  lemma ParseIntOfDigits(d: string)
    requires |d| > 0 && forall i :: 0 <= i < |d| ==> IsDigit(d[i])
    ensures ParseInt(d) == Some(DigitsValue(d))
  {
    assert IsDigit(d[0]) && IsDigit(d[|d| - 1]);
    StripTrimmed(d);
  }

  datatype Option<+T> = None | Some(value: T)
}
