/**
 Text as the server validates it: Unicode trimming, the control and white-space classes, and
 the UTF-8 bytes that lengths and digests are taken over.
 */
module Text {
  import opened Numbers

  /** Unicode `White_Space`, the class behind Rust's `char::is_whitespace`. */
  predicate IsWhitespace(c: char) {
    var n := c as int;
    || 0x09 <= n <= 0x0D || n == 0x20 || n == 0x85 || n == 0xA0 || n == 0x1680
    || 0x2000 <= n <= 0x200A || n == 0x2028 || n == 0x2029 || n == 0x202F || n == 0x205F || n == 0x3000
  }

  /** Unicode `Cc`, the class behind Rust's `char::is_control`. */
  predicate IsControl(c: char) {
    var n := c as int;
    n < 0x20 || 0x7F <= n <= 0x9F
  }

  function TrimStart(s: string): string {
    if s != [] && IsWhitespace(s[0]) then TrimStart(s[1..]) else s
  }

  function TrimEnd(s: string): string {
    if s != [] && IsWhitespace(s[|s| - 1]) then TrimEnd(s[..|s| - 1]) else s
  }

  function Trim(s: string): string {
    TrimStart(TrimEnd(s))
  }

  lemma {:induction false} TrimStartKeepsEnd(s: string)
    requires s == [] || !IsWhitespace(s[|s| - 1])
    ensures var t := TrimStart(s); t == [] || (!IsWhitespace(t[0]) && !IsWhitespace(t[|t| - 1]))
  {
    if s != [] && IsWhitespace(s[0]) {
      TrimStartKeepsEnd(s[1..]);
    }
  }

  lemma {:induction false} TrimEndStops(s: string)
    ensures var t := TrimEnd(s); t == [] || !IsWhitespace(t[|t| - 1])
  {
    if s != [] && IsWhitespace(s[|s| - 1]) {
      TrimEndStops(s[..|s| - 1]);
    }
  }

  /** Trimming twice is trimming once, so stored text passes the check that its source passed. */
  lemma TrimIdempotent(s: string)
    ensures Trim(Trim(s)) == Trim(s)
  {
    TrimEndStops(s);
    TrimStartKeepsEnd(TrimEnd(s));
  }

  function Utf8Char(c: char): (r: seq<Byte>)
    ensures 1 <= |r| <= 4
  {
    var n := c as int;
    if n < 0x80 then
      [n]
    else if n < 0x800 then
      [0xC0 + n / 64, 0x80 + n % 64]
    else if n < 0x1_0000 then
      [0xE0 + n / 4096, 0x80 + n / 64 % 64, 0x80 + n % 64]
    else
      [0xF0 + n / 26_2144, 0x80 + n / 4096 % 64, 0x80 + n / 64 % 64, 0x80 + n % 64]
  }

  function Utf8(s: string): seq<Byte> {
    if s == [] then [] else Utf8Char(s[0]) + Utf8(s[1..])
  }

  /** The first byte fixes how many bytes the character takes. */
  function Utf8Length(first: Byte): nat {
    if first < 0x80 then 1 else if first < 0xE0 then 2 else if first < 0xF0 then 3 else 4
  }

  lemma Utf8LengthIsRight(c: char)
    ensures Utf8Length(Utf8Char(c)[0]) == |Utf8Char(c)|
  {
    var n := c as int;
    if 0x80 <= n < 0x800 {
      assert n / 64 < 0x20;
    } else if 0x800 <= n < 0x1_0000 {
      assert n / 4096 < 0x10;
    }
  }

  /** The code point, read back from its bytes. */
  function Utf8Value(p: seq<int>): int
    requires 1 <= |p| <= 4
  {
    if |p| == 1 then p[0]
    else if |p| == 2 then (p[0] - 0xC0) * 64 + (p[1] - 0x80)
    else if |p| == 3 then (p[0] - 0xE0) * 4096 + (p[1] - 0x80) * 64 + (p[2] - 0x80)
    else (p[0] - 0xF0) * 26_2144 + (p[1] - 0x80) * 4096 + (p[2] - 0x80) * 64 + (p[3] - 0x80)
  }

  lemma Utf8ValueIsRight(c: char)
    ensures Utf8Value(Utf8Char(c)) == c as int
  {
    var n := c as int;
    assert n / 64 / 64 == n / 4096 && n / 4096 / 64 == n / 26_2144;
  }

  lemma Utf8CharPrefixFree(c: char, d: char, x: seq<Byte>, y: seq<Byte>)
    requires Utf8Char(c) + x == Utf8Char(d) + y
    ensures c == d && x == y
  {
    var p, q := Utf8Char(c), Utf8Char(d);
    Utf8LengthIsRight(c);
    Utf8LengthIsRight(d);
    assert p[0] == (p + x)[0] == (q + y)[0] == q[0];
    assert p == (p + x)[..|p|] == (q + y)[..|q|] == q;
    assert x == (p + x)[|p|..] == (q + y)[|q|..] == y;
    Utf8ValueIsRight(c);
    Utf8ValueIsRight(d);
  }

  lemma {:induction false} Utf8Injective(s: string, t: string)
    requires Utf8(s) == Utf8(t)
    ensures s == t
  {
    if s != [] && t != [] {
      Utf8CharPrefixFree(s[0], t[0], Utf8(s[1..]), Utf8(t[1..]));
      Utf8Injective(s[1..], t[1..]);
    }
  }

  predicate NoControl(s: string) {
    forall i | 0 <= i < |s| :: !IsControl(s[i])
  }

  predicate NoWhitespace(s: string) {
    forall i | 0 <= i < |s| :: !IsWhitespace(s[i])
  }

  /** `validate_identifier` of the revocation modules: the check is made on the trimmed text. */
  predicate IsIdentifier(s: string) {
    var t := Trim(s);
    t != [] && |Utf8(t)| <= 256 && NoControl(t) && NoWhitespace(t)
  }

  /** `validate_audit_text`: the check is made on the trimmed text. */
  predicate IsAuditText(s: string, maximum: nat) {
    var t := Trim(s);
    t != [] && |Utf8(t)| <= maximum && NoControl(t)
  }

  predicate IsLowerHexChar(c: char) {
    '0' <= c <= '9' || 'a' <= c <= 'f'
  }

  predicate IsLowerHex(s: string, length: nat) {
    |s| == length && forall i | 0 <= i < |s| :: IsLowerHexChar(s[i])
  }

  function Digit(d: nat): char
    requires d < 10
  {
    '0' + d as char
  }

  /** Decimal rendering, as Rust's `u64::to_string`. */
  function Decimal(n: nat): (s: string)
    ensures |s| > 0
  {
    if n < 10 then [Digit(n)] else Decimal(n / 10) + [Digit(n % 10)]
  }

  lemma {:induction false} DecimalInjective(n: nat, m: nat)
    ensures Decimal(n) == Decimal(m) <==> n == m
  {
    var s, t := Decimal(n), Decimal(m);
    if s == t && n >= 10 && m >= 10 {
      assert Decimal(n / 10) == s[..|s| - 1] && Decimal(m / 10) == t[..|t| - 1];
      assert Digit(n % 10) == s[|s| - 1] && Digit(m % 10) == t[|t| - 1];
      DecimalInjective(n / 10, m / 10);
    }
  }
}
