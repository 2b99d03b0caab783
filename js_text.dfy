/**
 * The JavaScript string primitives the admin pages and the skills store rely on:
 * `String.prototype.trim`, `String.prototype.startsWith`, `parseInt` without a radix,
 * and `Number.prototype.toString` on a non-negative integer (how `Date.now()` is stored).
 */
module JsText {
  import opened Wrappers

  /** WhiteSpace and LineTerminator code points of ECMA-262 (sections 12.2 and 12.3),
      the set that `trim` strips and `parseInt` skips. */
  predicate IsWhiteSpace(c: char) {
    || c == '\t' || c == '\n' || c == '\U{B}' || c == '\U{C}' || c == '\r' || c == ' '
    || c == '\U{A0}' || c == '\U{1680}' || ('\U{2000}' <= c <= '\U{200A}')
    || c == '\U{2028}' || c == '\U{2029}' || c == '\U{202F}' || c == '\U{205F}'
    || c == '\U{3000}' || c == '\U{FEFF}'
  }

  /** How many white-space characters open `s`. */
  function LeadingSpace(s: string): (k: nat)
    ensures k <= |s|
    ensures forall i :: 0 <= i < k ==> IsWhiteSpace(s[i])
    ensures k < |s| ==> !IsWhiteSpace(s[k])
  {
    if s != [] && IsWhiteSpace(s[0]) then 1 + LeadingSpace(s[1..]) else 0
  }

  /** Where the trailing white space of `s` begins. */
  function ContentEnd(s: string): (k: nat)
    ensures k <= |s|
    ensures forall i :: k <= i < |s| ==> IsWhiteSpace(s[i])
    ensures 0 < k ==> !IsWhiteSpace(s[k - 1])
  {
    if s != [] && IsWhiteSpace(s[|s| - 1]) then ContentEnd(s[..|s| - 1]) else |s|
  }

  /** `s.trimStart()`. */
  function TrimStart(s: string): string {
    s[LeadingSpace(s)..]
  }

  /** `s.trim()`. */
  function Trim(s: string): string {
    var t := TrimStart(s);
    t[..ContentEnd(t)]
  }

  /** Trimmed text has no white space at either end, and is the middle of the input
      with only white space cut away on both sides. */
  lemma TrimSpec(s: string)
    ensures var r := Trim(s);
      && (r == [] || (!IsWhiteSpace(r[0]) && !IsWhiteSpace(r[|r| - 1])))
      && exists a, b :: 0 <= a <= b <= |s| && r == s[a..b]
           && (forall i :: 0 <= i < a ==> IsWhiteSpace(s[i]))
           && (forall i :: b <= i < |s| ==> IsWhiteSpace(s[i]))
  {
    var a := LeadingSpace(s);
    var t := s[a..];
    var k := ContentEnd(t);
    var r := t[..k];
    assert r == s[a..a + k];
    forall i | a + k <= i < |s| ensures IsWhiteSpace(s[i]) {
      assert s[i] == t[i - a];
    }
    if r != [] {
      assert r[0] == t[0];
      assert r[|r| - 1] == t[k - 1];
    }
  }

  /** Trimming twice is trimming once. */
  lemma TrimIdempotent(s: string)
    ensures Trim(Trim(s)) == Trim(s)
  {
    TrimSpec(s);
    var r := Trim(s);
    assert LeadingSpace(r) == 0;
    assert ContentEnd(r) == |r|;
  }

  /** `s.startsWith(p)`. */
  predicate StartsWith(s: string, p: string) {
    |p| <= |s| && s[..|p|] == p
  }

  /** The value of a digit character in radices up to 36, or 36 for any other character. */
  function DigitValue(c: char): (v: nat)
    ensures v <= 36
  {
    if '0' <= c <= '9' then (c - '0') as nat
    else if 'a' <= c <= 'z' then (c - 'a') as nat + 10
    else if 'A' <= c <= 'Z' then (c - 'A') as nat + 10
    else 36
  }

  /** The longest prefix of `s` made of digits of the given radix. */
  function DigitPrefix(s: string, radix: nat): (d: string)
    ensures |d| <= |s| && d == s[..|d|]
    ensures forall i :: 0 <= i < |d| ==> DigitValue(d[i]) < radix
    ensures |d| < |s| ==> DigitValue(s[|d|]) >= radix
  {
    if s != [] && DigitValue(s[0]) < radix then [s[0]] + DigitPrefix(s[1..], radix) else []
  }

  /** The number a string of digits denotes in the given radix (most significant first). */
  function DigitsValue(d: string, radix: nat): nat {
    if d == [] then 0 else DigitsValue(d[..|d| - 1], radix) * radix + DigitValue(d[|d| - 1])
  }

  /** The sign `parseInt` reads after the white space: -1 after a `-`, otherwise 1. */
  function SignOf(t: string): int {
    if t != [] && t[0] == '-' then -1 else 1
  }

  /** The text after an optional leading `+` or `-`. */
  function Unsigned(t: string): string {
    if t != [] && (t[0] == '-' || t[0] == '+') then t[1..] else t
  }

  /** The digits after the sign: a `0x`/`0X` prefix selects radix 16, otherwise radix 10.
      `None` when not a single digit follows. */
  function ParseMagnitude(u: string): Option<nat> {
    if |u| >= 2 && u[0] == '0' && (u[1] == 'x' || u[1] == 'X') then
      var d := DigitPrefix(u[2..], 16);
      if d == [] then None else Some(DigitsValue(d, 16))
    else
      var d := DigitPrefix(u, 10);
      if d == [] then None else Some(DigitsValue(d, 10))
  }

  /** `parseInt(s)` with no radix argument; `None` stands for NaN. */
  function ParseInt(s: string): Option<int> {
    var t := TrimStart(s);
    match ParseMagnitude(Unsigned(t))
    case None => None
    case Some(v) => Some(SignOf(t) * v)
  }

  function DigitChar(n: nat): (c: char)
    requires n < 10
    ensures DigitValue(c) == n
  {
    ('0' as int + n) as char
  }

  /** `n.toString()` for a non-negative integer: its decimal digits, no leading zero. */
  function NatToString(n: nat): (s: string)
    ensures s != [] && forall i :: 0 <= i < |s| ==> DigitValue(s[i]) < 10
    ensures |s| > 1 ==> s[0] != '0'
  {
    if n < 10 then [DigitChar(n)] else NatToString(n / 10) + [DigitChar(n % 10)]
  }

  lemma {:induction false} DigitsOfNatToString(n: nat)
    ensures DigitsValue(NatToString(n), 10) == n
  {
    var s := NatToString(n);
    if n >= 10 {
      DigitsOfNatToString(n / 10);
      assert s[..|s| - 1] == NatToString(n / 10);
    }
  }

  /** What `Date.now().toString()` writes, `parseInt` reads back. */
  lemma ParseIntNatToString(n: nat)
    ensures ParseInt(NatToString(n)) == Some(n)
  {
    var s := NatToString(n);
    assert LeadingSpace(s) == 0;
    assert TrimStart(s) == s;
    assert Unsigned(s) == s && SignOf(s) == 1;
    DigitPrefixOfDigits(s, 10);
    DigitsOfNatToString(n);
    assert ParseMagnitude(s) == Some(n);
  }

  lemma {:induction false} DigitPrefixOfDigits(s: string, radix: nat)
    requires forall i :: 0 <= i < |s| ==> DigitValue(s[i]) < radix
    ensures DigitPrefix(s, radix) == s
  {
    if s != [] {
      DigitPrefixOfDigits(s[1..], radix);
    }
  }
}
