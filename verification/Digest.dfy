/**
 The digest every identity in the server goes through: SHA-256 over length-prefixed parts,
 printed in lower-case hexadecimal.  SHA-256 itself is a parameter; collision-freedom is
 assumed only of the preimages that a theorem names.
 */
module Digest {
  import opened Numbers
  import opened Text

  type Digest32 = d: seq<Byte> | |d| == 32 witness seq(32, _ => 0)
  type Sha256 = seq<Byte> -> Digest32

  /** No two different preimages in `inputs` share a digest. */
  ghost predicate CollisionFree(sha: Sha256, inputs: set<seq<Byte>>) {
    forall x, y | x in inputs && y in inputs :: sha(x) == sha(y) ==> x == y
  }

  function Pow256(width: nat): nat {
    if width == 0 then 1 else 256 * Pow256(width - 1)
  }

  /** The low `width` bytes of `n`, most significant first. */
  function BigEndian(n: nat, width: nat): (r: seq<Byte>)
    ensures |r| == width
  {
    if width == 0 then [] else BigEndian(n / 256, width - 1) + [n % 256]
  }

  lemma {:induction false} BigEndianInjective(n: nat, m: nat, width: nat)
    requires n < Pow256(width) && m < Pow256(width)
    requires BigEndian(n, width) == BigEndian(m, width)
    ensures n == m
  {
    if width > 0 {
      var p, q := BigEndian(n / 256, width - 1), BigEndian(m / 256, width - 1);
      assert p == (p + [n % 256])[..width - 1] == (q + [m % 256])[..width - 1] == q;
      assert n % 256 == (p + [n % 256])[width - 1] == m % 256;
      BigEndianInjective(n / 256, m / 256, width - 1);
    }
  }

  lemma Pow256Of8()
    ensures Pow256(8) == U64_MAX + 1
  {
    assert Pow256(4) == 0x1_0000_0000;
    assert Pow256(6) == 0x1_0000_0000_0000;
  }

  /** `part.len() as u64` in big-endian, then the part, for each part in turn. */
  function Frame(parts: seq<seq<Byte>>): seq<Byte> {
    if parts == [] then [] else BigEndian(|parts[0]|, 8) + parts[0] + Frame(parts[1..])
  }

  /** Every slice of a real process is shorter than 2^64 bytes. */
  ghost predicate Addressable(parts: seq<seq<Byte>>) {
    forall i | 0 <= i < |parts| :: |parts[i]| <= U64_MAX
  }

  lemma {:induction false} FrameInjective(ps: seq<seq<Byte>>, qs: seq<seq<Byte>>)
    requires Addressable(ps) && Addressable(qs)
    requires Frame(ps) == Frame(qs)
    ensures ps == qs
  {
    if ps == [] || qs == [] {
      assert ps == qs;
    } else {
      var f, g := Frame(ps), Frame(qs);
      var lp, lq := BigEndian(|ps[0]|, 8), BigEndian(|qs[0]|, 8);
      assert lp == f[..8] && lq == g[..8];
      Pow256Of8();
      BigEndianInjective(|ps[0]|, |qs[0]|, 8);
      var n := |ps[0]|;
      assert ps[0] == f[8..8 + n] && qs[0] == g[8..8 + n];
      assert Frame(ps[1..]) == f[8 + n..] && Frame(qs[1..]) == g[8 + n..];
      FrameInjective(ps[1..], qs[1..]);
      assert ps == [ps[0]] + ps[1..] && qs == [qs[0]] + qs[1..];
    }
  }

  function HexDigit(d: nat): (c: char)
    requires d < 16
    ensures IsLowerHexChar(c)
  {
    if d < 10 then '0' + d as char else 'a' + (d - 10) as char
  }

  function Hex(bytes: seq<Byte>): (s: string)
    ensures IsLowerHex(s, 2 * |bytes|)
  {
    if bytes == [] then ""
    else [HexDigit(bytes[0] / 16), HexDigit(bytes[0] % 16)] + Hex(bytes[1..])
  }

  lemma {:induction false} HexInjective(a: seq<Byte>, b: seq<Byte>)
    requires Hex(a) == Hex(b)
    ensures a == b
  {
    if a != [] && b != [] {
      var x, y := Hex(a), Hex(b);
      assert x[0] == HexDigit(a[0] / 16) && y[0] == HexDigit(b[0] / 16);
      assert x[1] == HexDigit(a[0] % 16) && y[1] == HexDigit(b[0] % 16);
      assert a[0] == b[0];
      assert Hex(a[1..]) == x[2..] && Hex(b[1..]) == y[2..];
      HexInjective(a[1..], b[1..]);
      assert a == [a[0]] + a[1..] && b == [b[0]] + b[1..];
    }
  }

  function DigestParts(sha: Sha256, parts: seq<seq<Byte>>): (s: string)
    ensures IsLowerHex(s, 64)
  {
    Hex(sha(Frame(parts)))
  }

  /** Equal digests of collision-free preimages come from the same parts. */
  lemma DigestPartsInjective(sha: Sha256, ps: seq<seq<Byte>>, qs: seq<seq<Byte>>)
    requires Addressable(ps) && Addressable(qs)
    requires CollisionFree(sha, {Frame(ps), Frame(qs)})
    requires DigestParts(sha, ps) == DigestParts(sha, qs)
    ensures ps == qs
  {
    HexInjective(sha(Frame(ps)), sha(Frame(qs)));
    FrameInjective(ps, qs);
  }

  function TextParts(parts: seq<string>): (r: seq<seq<Byte>>)
    ensures |r| == |parts|
    ensures forall i | 0 <= i < |parts| :: r[i] == Utf8(parts[i])
  {
    seq(|parts|, i requires 0 <= i < |parts| => Utf8(parts[i]))
  }

  function DigestText(sha: Sha256, parts: seq<string>): (s: string)
    ensures IsLowerHex(s, 64)
  {
    DigestParts(sha, TextParts(parts))
  }

  lemma DigestTextInjective(sha: Sha256, ps: seq<string>, qs: seq<string>)
    requires Addressable(TextParts(ps)) && Addressable(TextParts(qs))
    requires CollisionFree(sha, {Frame(TextParts(ps)), Frame(TextParts(qs))})
    requires DigestText(sha, ps) == DigestText(sha, qs)
    ensures ps == qs
  {
    DigestPartsInjective(sha, TextParts(ps), TextParts(qs));
    assert |ps| == |TextParts(ps)| == |qs|;
    forall i | 0 <= i < |ps| ensures ps[i] == qs[i] {
      assert Utf8(ps[i]) == TextParts(ps)[i] == TextParts(qs)[i] == Utf8(qs[i]);
      Utf8Injective(ps[i], qs[i]);
    }
  }

  lemma FrameStep(parts: seq<seq<Byte>>, i: nat, fed: seq<Byte>)
    requires i < |parts|
    ensures fed + Frame(parts[i..]) == fed + BigEndian(|parts[i]|, 8) + parts[i] + Frame(parts[i + 1..])
  {
    assert parts[i..][1..] == parts[i + 1..];
  }

  /** The hasher loop: what has been fed when it ends is the frame of all parts. */
  method DigestBytes(sha: Sha256, parts: seq<seq<Byte>>) returns (digest: string)
    ensures digest == DigestParts(sha, parts)
  {
    var fed: seq<Byte> := [];
    for i := 0 to |parts|
      invariant fed + Frame(parts[i..]) == Frame(parts)
    {
      FrameStep(parts, i, fed);
      fed := fed + BigEndian(|parts[i]|, 8) + parts[i];
    }
    assert fed == fed + Frame(parts[|parts|..]);
    digest := Hex(sha(fed));
  }
}
