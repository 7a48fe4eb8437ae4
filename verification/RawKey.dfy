/** The wire shape of an API key, `fdc_<env>_<key id>.<secret>`: its printer, its parser, and the
    comparison of secrets. */
module RawKey {
  import opened Numbers
  import opened Text

  const PREFIX := "fdc_"

  datatype Parts = Parts(env: string, keyId: string, secret: string)

  function Format(p: Parts): string {
    PREFIX + p.env + "_" + p.keyId + "." + p.secret
  }

  predicate IsKeyEnv(env: string) {
    env == "live" || env == "test"
  }

  predicate WellFormed(p: Parts) {
    IsKeyEnv(p.env) && IsLowerHex(p.keyId, 16) && IsLowerHex(p.secret, 64)
  }

  /** `str::split_once`: around the first occurrence. */
  function SplitOnce(s: string, separator: char): Option<(string, string)> {
    if s == "" then None
    else if s[0] == separator then Some(("", s[1..]))
    else
      match SplitOnce(s[1..], separator)
      case None => None
      case Some((left, right)) => Some(([s[0]] + left, right))
  }

  function ParseRawKey(raw: string): Option<Parts> {
    match SplitOnce(raw, '.')
    case None => None
    case Some((left, secret)) =>
      if !IsLowerHex(secret, 64) || !(PREFIX <= left) then None
      else
        match SplitOnce(left[|PREFIX|..], '_')
        case None => None
        case Some((env, keyId)) =>
          if !IsKeyEnv(env) || !IsLowerHex(keyId, 16) then None else Some(Parts(env, keyId, secret))
  }

  lemma {:induction false} SplitFindsFirst(left: string, separator: char, right: string)
    requires separator !in left
    ensures SplitOnce(left + [separator] + right, separator) == Some((left, right))
  {
    var s := left + [separator] + right;
    if left == "" {
      assert s[1..] == right;
    } else {
      assert s[1..] == left[1..] + [separator] + right;
      SplitFindsFirst(left[1..], separator, right);
      assert [s[0]] + left[1..] == left;
    }
  }

  lemma {:induction false} SplitRejoins(s: string, separator: char)
    requires SplitOnce(s, separator).Some?
    ensures var (left, right) := SplitOnce(s, separator).value; s == left + [separator] + right
  {
    if s[0] != separator {
      SplitRejoins(s[1..], separator);
    }
  }

  lemma HexHasNoSeparator(s: string, length: nat)
    requires IsLowerHex(s, length)
    ensures '.' !in s && '_' !in s
  {
  }

  /** Printer and parser undo each other: a string parses to `p` exactly when it is the printing of
      well-formed parts `p`. */
  lemma ParseInvertsFormat(raw: string, p: Parts)
    ensures ParseRawKey(raw) == Some(p) <==> WellFormed(p) && raw == Format(p)
  {
    if WellFormed(p) && raw == Format(p) {
      HexHasNoSeparator(p.keyId, 16);
      var left := PREFIX + p.env + "_" + p.keyId;
      assert raw == left + ['.'] + p.secret;
      SplitFindsFirst(left, '.', p.secret);
      assert left[|PREFIX|..] == p.env + ['_'] + p.keyId;
      SplitFindsFirst(p.env, '_', p.keyId);
    }
    if ParseRawKey(raw) == Some(p) {
      SplitRejoins(raw, '.');
      var left := SplitOnce(raw, '.').value.0;
      SplitRejoins(left[|PREFIX|..], '_');
      assert left == PREFIX + left[|PREFIX|..];
    }
  }

  /** The accumulating comparison: no early exit, and still equality. */
  method ConstantTimeEq(a: seq<bv8>, b: seq<bv8>) returns (equal: bool)
    ensures equal <==> a == b
  {
    if |a| != |b| {
      return false;
    }
    var diff: bv8 := 0;
    for i := 0 to |a|
      invariant diff == 0 <==> a[..i] == b[..i]
    {
      AccumulatesDifference(diff, a[i], b[i]);
      assert a[..i + 1] == a[..i] + [a[i]] && b[..i + 1] == b[..i] + [b[i]];
      diff := diff | (a[i] ^ b[i]);
    }
    assert a[..|a|] == a && b[..|b|] == b;
    return diff == 0;
  }

  lemma AccumulatesDifference(diff: bv8, x: bv8, y: bv8)
    ensures diff | (x ^ y) == 0 <==> diff == 0 && x == y
  {
  }
}
