/** What an API key opens: introspection, listing, and which secret is accepted in every reachable state. */
module KeyCredentials {
  import opened Numbers
  import opened Text
  import opened Digest
  import opened VersionedStore
  import opened RawKey
  import opened KeyLifecycle

  datatype Introspection = Introspection(valid: bool, orgId: Option<string>, keyId: Option<string>, scopes: seq<string>,
                                         requireIdempotency: bool)

  const INVALID := Introspection(false, None, None, [], false)

  predicate IsAdminScope(scope: string) {
    scope == "admin" || "admin:" <= scope
  }

  /** An API key never surfaces operator authority, and loses nothing else. */
  function CustomerScopes(scopes: seq<string>): (r: seq<string>)
    ensures forall s :: s in r <==> s in scopes && !IsAdminScope(s)
  {
    if scopes == [] then []
    else
      var rest := CustomerScopes(scopes[1..]);
      assert scopes == [scopes[0]] + scopes[1..];
      if IsAdminScope(scopes[0]) then rest else [scopes[0]] + rest
  }

  /** Scope by scope, in order, with repetitions: a list of scopes gives what its parts give one after the
      other, and one scope gives itself or nothing. */
  lemma {:induction false} CustomerScopesInOrder(before: seq<string>, scope: string, after: seq<string>)
    ensures CustomerScopes(before + [scope] + after) ==
      CustomerScopes(before) + (if IsAdminScope(scope) then [] else [scope]) + CustomerScopes(after)
  {
    hide IsAdminScope, CustomerScopes;
    var all := before + [scope] + after;
    CustomerScopesStep(all);
    CustomerScopesStep(before);
    if before == [] {
      assert all[1..] == after;
    } else {
      assert all[1..] == before[1..] + [scope] + after;
      CustomerScopesInOrder(before[1..], scope, after);
    }
  }

  lemma CustomerScopesStep(scopes: seq<string>)
    ensures CustomerScopes(scopes) ==
      if scopes == [] then [] else (if IsAdminScope(scopes[0]) then [] else [scopes[0]]) + CustomerScopes(scopes[1..])
  {
  }

  function Verify(ring: Keyring, r: ApiKeyRecord, env: string, secret: string): Introspection {
    if !r.revoked && r.env == env && VerifySecretHash(ring, r.secretHash, secret) then
      Introspection(true, Some(r.orgId), Some(r.keyId), CustomerScopes(r.scopes), r.requireIdempotency)
    else INVALID
  }

  /** Introspection whose record was read at position `a` of the log and whose index was read at `b`. */
  function IntrospectAt(ring: Keyring, log: KeyLog, a: nat, b: nat, raw: string): Result<Introspection, KeyError>
    requires a <= |log| && b <= |log|
  {
    match ParseRawKey(raw)
    case None => Ok(INVALID)
    case Some(p) =>
      var found :- Load(Current(log[..a], KeyPath(p.keyId)), p.keyId);
      match found
      case None => Ok(INVALID)
      case Some(r) =>
        var ids :- IndexIds(Current(log[..b], OrgIndexPath(r.orgId)));
        Ok(if p.keyId in ids then Verify(ring, r, p.env, p.secret) else INVALID)
  }

  // ---------------------------------------------------------------- listing

  /** The listing's loop over index entries, from the value each of its reads saw. */
  function Listed(orgId: string, ids: seq<string>, views: seq<Option<Value>>): Result<seq<ApiKeyMeta>, KeyError>
    requires |ids| == |views|
  {
    if ids == [] then Ok([])
    else
      var n := |ids| - 1;
      var earlier :- Listed(orgId, ids[..n], views[..n]);
      var found :- Load(views[n], ids[n]);
      Ok(if found.Some? && found.value.orgId == orgId then earlier + [Meta(found.value)] else earlier)
  }

  /** Each view was read at or after position `from`. */
  ghost predicate ViewsSince(log: KeyLog, from: nat, ids: seq<string>, views: seq<Option<Value>>) {
    |ids| == |views| && forall i | 0 <= i < |ids| :: ViewSince(log, from, ids[i], views[i])
  }

  ghost predicate ViewSince(log: KeyLog, from: nat, keyId: string, view: Option<Value>) {
    exists at: nat | from <= at <= |log| :: view == Current(log[..at], KeyPath(keyId))
  }

  lemma ViewsSinceLater(log: KeyLog, later: KeyLog, from: nat, ids: seq<string>, views: seq<Option<Value>>)
    requires log <= later && ViewsSince(log, from, ids, views)
    ensures ViewsSince(later, from, ids, views)
  {
    forall i | 0 <= i < |ids| ensures ViewSince(later, from, ids[i], views[i]) {
      assert ViewSince(log, from, ids[i], views[i]);
      var at: nat :| from <= at <= |log| && views[i] == Current(log[..at], KeyPath(ids[i]));
      assert later[..at] == log[..at];
    }
  }

  lemma LateViewBelongs(ring: Keyring, log: KeyLog, from: nat, keyId: string, orgId: string, view: Option<Value>)
    requires LegalLog(KeyRule(ring), log) && from <= |log|
    requires BelongsTo(log[..from], keyId, orgId) && ViewSince(log, from, keyId, view)
    ensures var found := Load(view, keyId);
      found.Ok? && found.value.Some? && found.value.value.orgId == orgId && found.value.value.keyId == keyId
      && view == Some(KeyValue(found.value.value))
  {
    hide LegalLog, Allows, Current;
    var at: nat :| from <= at <= |log| && view == Current(log[..at], KeyPath(keyId));
    LegalPrefix(KeyRule(ring), log, at);
    assert log[..at][..from] == log[..from];
    LifecycleIsMonotone(ring, log[..at], from, keyId);
    KeyPathHoldsItsRecord(ring, log[..at], keyId);
  }

  predicate IsEntry(m: ApiKeyMeta, keyId: string, orgId: string, view: Option<Value>) {
    m.keyId == keyId && m.orgId == orgId && view.Some? && view.value.KeyValue? && m == Meta(view.value.record)
  }

  /** Whatever is committed while the listing runs, it does not fail, and it gives one entry per index
      entry, in index order. */
  lemma {:induction false} ListFollowsIndex(ring: Keyring, log: KeyLog, from: nat, orgId: string, ids: seq<string>, views: seq<Option<Value>>)
    requires LegalLog(KeyRule(ring), log) && from <= |log| && ViewsSince(log, from, ids, views)
    requires forall i | 0 <= i < |ids| :: BelongsTo(log[..from], ids[i], orgId)
    ensures var r := Listed(orgId, ids, views);
      r.Ok? && |r.value| == |ids| && forall i | 0 <= i < |ids| :: IsEntry(r.value[i], ids[i], orgId, views[i])
  {
    hide LegalLog, Allows, Current, BelongsTo, ViewSince;
    if ids != [] {
      var n := |ids| - 1;
      ListFollowsIndex(ring, log, from, orgId, ids[..n], views[..n]);
      assert ViewSince(log, from, ids[n], views[n]);
      LateViewBelongs(ring, log, from, ids[n], orgId, views[n]);
    }
  }

  predicate ListedOnce(metas: seq<ApiKeyMeta>, keyId: string) {
    exists i | 0 <= i < |metas| :: metas[i].keyId == keyId && forall j | 0 <= j < |metas| && j != i :: metas[j].keyId != keyId
  }

  lemma IndexIsListed(ring: Keyring, log: KeyLog, from: nat, orgId: string, keyId: string, views: seq<Option<Value>>)
    requires LegalLog(KeyRule(ring), log) && from <= |log| && keyId in Index(log[..from], orgId)
    requires ViewsSince(log, from, Index(log[..from], orgId), views)
    ensures var r := Listed(orgId, Index(log[..from], orgId), views); r.Ok? && ListedOnce(r.value, keyId)
  {
    hide LegalLog, Allows, Current, Index, BelongsTo, ViewsSince, Listed;
    LegalPrefix(KeyRule(ring), log, from);
    IndexIsSound(ring, log[..from], orgId);
    var ids := Index(log[..from], orgId);
    assert |ids| == |views| by { ViewsMatch(log, from, ids, views); }
    ListFollowsIndex(ring, log, from, orgId, ids, views);
    var i :| 0 <= i < |ids| && ids[i] == keyId;
    var metas := Listed(orgId, ids, views).value;
    assert metas[i].keyId == keyId;
    forall j | 0 <= j < |metas| && j != i ensures metas[j].keyId != keyId {
      assert metas[j].keyId == ids[j];
    }
  }

  lemma ViewsMatch(log: KeyLog, from: nat, ids: seq<string>, views: seq<Option<Value>>)
    requires ViewsSince(log, from, ids, views)
    ensures |ids| == |views|
  {
  }

  lemma ValidMeansIndexed(ring: Keyring, log: KeyLog, a: nat, b: nat, raw: string)
    requires LegalLog(KeyRule(ring), log) && a <= b <= |log|
    requires IntrospectAt(ring, log, a, b, raw).Ok? && IntrospectAt(ring, log, a, b, raw).value.valid
    ensures var who := IntrospectAt(ring, log, a, b, raw).value;
      && who.keyId.Some? && who.orgId.Some?
      && BelongsTo(log[..a], who.keyId.value, who.orgId.value)
      && who.keyId.value in Index(log[..b], who.orgId.value)
  {
    hide LegalLog, Allows, Current, VerifySecretHash, ParseRawKey;
    var p := ParseRawKey(raw).value;
    LegalPrefix(KeyRule(ring), log, a);
    KeyPathHoldsItsRecord(ring, log[..a], p.keyId);
  }

  /** Create is crash-consistent: wherever creators crashed, a key that introspection accepts is in its
      organisation's index, and every later listing shows it exactly once. */
  lemma ValidKeyIsListed(ring: Keyring, log: KeyLog, a: nat, b: nat, raw: string, from: nat, views: seq<Option<Value>>)
    requires LegalLog(KeyRule(ring), log) && a <= b <= from <= |log|
    requires IntrospectAt(ring, log, a, b, raw).Ok? && IntrospectAt(ring, log, a, b, raw).value.valid
    requires var who := IntrospectAt(ring, log, a, b, raw).value;
      who.orgId.Some? ==> ViewsSince(log, from, Index(log[..from], who.orgId.value), views)
    ensures var who := IntrospectAt(ring, log, a, b, raw).value;
      && who.keyId.Some? && who.orgId.Some?
      && |Index(log[..from], who.orgId.value)| == |views|
      && var r := Listed(who.orgId.value, Index(log[..from], who.orgId.value), views);
      r.Ok? && ListedOnce(r.value, who.keyId.value)
  {
    hide LegalLog, Allows, Current, Index, IntrospectAt, ViewsSince, Listed, ListedOnce;
    ValidMeansIndexed(ring, log, a, b, raw);
    var who := IntrospectAt(ring, log, a, b, raw).value;
    LegalPrefix(KeyRule(ring), log, from);
    assert log[..from][..b] == log[..b];
    IndexOnlyGrows(ring, log[..from], b, who.orgId.value);
    IndexIsListed(ring, log, from, who.orgId.value, who.keyId.value, views);
    ViewsMatch(log, from, Index(log[..from], who.orgId.value), views);
  }

  // ---------------------------------------------------------------- the one accepted secret

  function MintedBy(ring: Keyring, c: KeyCommit): (s: Option<string>)
    ensures s.Some? ==> |s.value| == 64
  {
    match c.cause
    case CreatedBy(q, _) => Some(CreateSecret(ring, q))
    case RotatedBy(q) => Some(RotateSecret(ring, q))
    case _ => None
  }

  /** The secret of the last committed create or rotate of a key. */
  function LastSecret(ring: Keyring, log: KeyLog, keyId: string): (s: Option<string>)
    ensures s.Some? ==> |s.value| == 64
  {
    if log == [] then None
    else
      var n := |log| - 1;
      if log[n].key == KeyPath(keyId) && MintedBy(ring, log[n]).Some? then MintedBy(ring, log[n])
      else LastSecret(ring, log[..n], keyId)
  }

  lemma CommitSetsHash(ring: Keyring, log: KeyLog, n: nat)
    requires LegalLog(KeyRule(ring), log) && n < |log| && log[n].key.KeyPath?
    ensures var c := log[n]; var minted := MintedBy(ring, c);
      && c.after.KeyValue?
      && (minted.Some? ==> c.after.record.secretHash == HashSecret(ring, minted.value))
      && (minted.None? ==> c.before.Some? && c.before.value.KeyValue?)
      && (minted.None? ==> c.after.record.secretHash == c.before.value.record.secretHash)
      && (minted.None? ==> c.after.record.lastRotation == c.before.value.record.lastRotation)
  {
    hide LegalLog, Current, Derive, HashSecret, Format, BelongsTo;
    LegalAt(KeyRule(ring), log, n);
  }

  /** What is stored is the hash of exactly the last minted secret. */
  lemma {:induction false} StoredHashIsLastSecrets(ring: Keyring, log: KeyLog, keyId: string)
    requires LegalLog(KeyRule(ring), log)
    ensures Stored(log, keyId).Some? <==> LastSecret(ring, log, keyId).Some?
    ensures Stored(log, keyId).Some? ==> Stored(log, keyId).value.secretHash == HashSecret(ring, LastSecret(ring, log, keyId).value)
  {
    hide LegalLog, Allows, HashSecret, CreateSecret, RotateSecret;
    if log != [] {
      var n := |log| - 1;
      LegalPrefix(KeyRule(ring), log, n);
      LegalAt(KeyRule(ring), log, n);
      StoredHashIsLastSecrets(ring, log[..n], keyId);
      if log[n].key == KeyPath(keyId) {
        CommitSetsHash(ring, log, n);
      }
    }
  }

  ghost predicate PepperApart(ring: Keyring, s: string, t: string) {
    CollisionFree(x => ring.hmac(ring.pepper, x), {Utf8(s), Utf8(t)})
  }

  lemma EqualHashEqualSecret(ring: Keyring, s: string, t: string)
    requires PepperApart(ring, s, t)
    ensures HashSecret(ring, s) == HashSecret(ring, t) <==> s == t
  {
    var f: Sha256 := x => ring.hmac(ring.pepper, x);
    var x, y := Utf8(s), Utf8(t);
    if HashSecret(ring, s) == HashSecret(ring, t) {
      assert Hex(f(x)) == HashSecret(ring, s)[|HMAC_TAG|..] && Hex(f(y)) == HashSecret(ring, t)[|HMAC_TAG|..];
      HexInjective(f(x), f(y));
      assert x in {x, y} && y in {x, y};
      Utf8Injective(s, t);
    }
  }

  /** The raw key a stored key answers to. */
  function AcceptedRaw(ring: Keyring, log: KeyLog, keyId: string): Option<string> {
    if Stored(log, keyId).Some? && LastSecret(ring, log, keyId).Some?
    then Some(Format(Parts(Stored(log, keyId).value.env, keyId, LastSecret(ring, log, keyId).value)))
    else None
  }

  predicate Usable(log: KeyLog, a: nat, b: nat, keyId: string)
    requires a <= |log| && b <= |log|
  {
    && Stored(log[..a], keyId).Some?
    && !Stored(log[..a], keyId).value.revoked
    && keyId in Index(log[..b], Stored(log[..a], keyId).value.orgId)
  }

  lemma VerifyIsEquality(ring: Keyring, r: ApiKeyRecord, last: string, p: Parts)
    requires r.secretHash == HashSecret(ring, last) && PepperApart(ring, p.secret, last) && |p.secret| == |last|
    ensures Verify(ring, r, p.env, p.secret).valid <==> !r.revoked && Format(p) == Format(Parts(r.env, p.keyId, last))
  {
    EqualHashEqualSecret(ring, p.secret, last);
    assert HMAC_TAG <= HashSecret(ring, last);
    var q := Parts(r.env, p.keyId, last);
    if Format(p) == Format(q) {
      SameRawSameParts(p, q);
    }
  }

  lemma SameRawSameParts(p: Parts, q: Parts)
    requires p.keyId == q.keyId && |p.secret| == |q.secret| && Format(p) == Format(q)
    ensures p == q
  {
    var x, y := p.env + "_" + p.keyId + "." + p.secret, q.env + "_" + q.keyId + "." + q.secret;
    assert x == Format(p)[|PREFIX|..] && y == Format(q)[|PREFIX|..];
    assert |x| == |y|;
    assert p.env == x[..|p.env|] && q.env == y[..|p.env|];
    assert p.secret == x[|x| - |p.secret|..] && q.secret == y[|y| - |p.secret|..];
  }

  /** In every reachable state, introspection does not fail, and it accepts a string exactly when that is
      the raw key of the last committed create or rotate of an unrevoked, indexed key. */
  lemma OneAcceptedSecret(ring: Keyring, log: KeyLog, a: nat, b: nat, raw: string)
    requires LegalLog(KeyRule(ring), log) && a <= b <= |log|
    requires ParseRawKey(raw).Some? && LastSecret(ring, log[..a], ParseRawKey(raw).value.keyId).Some? ==>
      PepperApart(ring, ParseRawKey(raw).value.secret, LastSecret(ring, log[..a], ParseRawKey(raw).value.keyId).value)
    ensures IntrospectAt(ring, log, a, b, raw).Ok?
    ensures IntrospectAt(ring, log, a, b, raw).value.valid <==>
      && ParseRawKey(raw).Some?
      && var keyId := ParseRawKey(raw).value.keyId;
      Usable(log, a, b, keyId) && AcceptedRaw(ring, log[..a], keyId) == Some(raw)
  {
    hide LegalLog, Allows, Current, LastSecret, ParseRawKey, Format, PepperApart, Verify;
    if ParseRawKey(raw).Some? {
      var p := ParseRawKey(raw).value;
      ParseInvertsFormat(raw, p);
      LegalPrefix(KeyRule(ring), log, a);
      LegalPrefix(KeyRule(ring), log, b);
      KeyPathHoldsItsRecord(ring, log[..a], p.keyId);
      StoredHashIsLastSecrets(ring, log[..a], p.keyId);
      if Stored(log[..a], p.keyId).Some? {
        var r := Stored(log[..a], p.keyId).value;
        IndexIsSound(ring, log[..b], r.orgId);
        VerifyIsEquality(ring, r, LastSecret(ring, log[..a], p.keyId).value, p);
      }
    }
  }

  /** Conversely, without any assumption on the hash: the raw key that a create or rotate answered with
      opens exactly that key for as long as its hash is the stored one. */
  lemma StoredSecretOpens(ring: Keyring, log: KeyLog, keyId: string, secret: string)
    requires LegalLog(KeyRule(ring), log) && Usable(log, |log|, |log|, keyId)
    requires var r := Stored(log[..|log|], keyId).value; r.secretHash == HashSecret(ring, secret) && WellFormed(Parts(r.env, keyId, secret))
    ensures var r := Stored(log[..|log|], keyId).value;
      IntrospectAt(ring, log, |log|, |log|, Format(Parts(r.env, keyId, secret)))
        == Ok(Introspection(true, Some(r.orgId), Some(keyId), CustomerScopes(r.scopes), r.requireIdempotency))
  {
    hide LegalLog, Allows, Current, ParseRawKey, Format, Hex;
    assert log[..|log|] == log;
    var r := Stored(log, keyId).value;
    KeyPathHoldsItsRecord(ring, log, keyId);
    IndexIsSound(ring, log, r.orgId);
    ParseInvertsFormat(Format(Parts(r.env, keyId, secret)), Parts(r.env, keyId, secret));
  }

  // ---------------------------------------------------------------- retries

  /** No rotation of `keyId` was committed at or after position `from`. */
  predicate NotRotatedSince(log: KeyLog, from: nat, keyId: string) {
    forall m | from <= m < |log| && log[m].key == KeyPath(keyId) :: !log[m].cause.RotatedBy?
  }

  lemma {:induction false} SecretStays(ring: Keyring, log: KeyLog, from: nat, keyId: string)
    requires LegalLog(KeyRule(ring), log) && from <= |log| && Stored(log[..from], keyId).Some? && NotRotatedSince(log, from, keyId)
    ensures Stored(log, keyId).Some?
    ensures Stored(log, keyId).value.secretHash == Stored(log[..from], keyId).value.secretHash
    ensures Stored(log, keyId).value.lastRotation == Stored(log[..from], keyId).value.lastRotation
  {
    hide LegalLog, Allows, HashSecret, CreateSecret, RotateSecret;
    if from == |log| {
      assert log[..from] == log;
    } else {
      var n := |log| - 1;
      LegalPrefix(KeyRule(ring), log, n);
      LegalAt(KeyRule(ring), log, n);
      assert log[..n][..from] == log[..from];
      SecretStays(ring, log[..n], from, keyId);
      if log[n].key == KeyPath(keyId) {
        CommitSetsHash(ring, log, n);
        CommitAdvances(ring, log, n);
      }
    }
  }

  lemma StoredAfterCommit(ring: Keyring, log: KeyLog, n: nat)
    requires LegalLog(KeyRule(ring), log) && n < |log| && log[n].key.KeyPath?
    ensures log[n].after.KeyValue? && Stored(log[..n + 1], log[n].key.keyId) == Some(log[n].after.record)
    ensures Stored(log, log[n].key.keyId).Some? && SameKey(log[n].after.record, Stored(log, log[n].key.keyId).value)
  {
    hide LegalLog, Allows, SameKey;
    CommitAdvances(ring, log, n);
    LifecycleIsMonotone(ring, log, n + 1, log[n].key.keyId);
  }

  /** Replaying the latest rotation answers with the same raw key and writes nothing, even once the key
      has been revoked. */
  lemma LatestRotationIsReplayed(ring: Keyring, log: KeyLog, n: nat)
    requires LegalLog(KeyRule(ring), log) && n < |log| && log[n].cause.RotatedBy?
    requires NotRotatedSince(log, n + 1, log[n].cause.rotation.keyId)
    ensures var q := log[n].cause.rotation;
      && log[n].after.KeyValue? && Stored(log, q.keyId).Some?
      && RotatePass(ring, q, log[n].before).Write?
      && var first := RotatePass(ring, q, log[n].before).reply;
      && first.Some?
      && RotatePass(ring, q, Current(log, KeyPath(q.keyId))) == Reply(Some((first.value.0, Meta(Stored(log, q.keyId).value))))
  {
    hide LegalLog, Current, HashSecret, Derive, RotateSecret, RotateMarker, Format;
    var q := log[n].cause.rotation;
    LegalAt(KeyRule(ring), log, n);
    StoredAfterCommit(ring, log, n);
    SecretStays(ring, log, n + 1, q.keyId);
    KeyPathHoldsItsRecord(ring, log, q.keyId);
  }

  /** A retried create matches the stored record exactly as long as its own secret is still the accepted
      one: it replays before any rotation, and conflicts after. */
  lemma RetriedCreateMatches(ring: Keyring, log: KeyLog, n: nat, later: U64)
    requires LegalLog(KeyRule(ring), log) && n < |log| && log[n].cause.CreatedBy?
    ensures var q := log[n].cause.request; var keyId := KeyIdOf(ring, q);
      && log[n].key == KeyPath(keyId)
      && Stored(log, keyId).Some? && LastSecret(ring, log, keyId).Some?
      && (PepperApart(ring, CreateSecret(ring, q), LastSecret(ring, log, keyId).value) ==>
            (SameCreateRequest(Stored(log, keyId).value, NewRecord(ring, q, later)) <==> LastSecret(ring, log, keyId) == Some(CreateSecret(ring, q))))
      && (NotRotatedSince(log, n + 1, keyId) ==> SameCreateRequest(Stored(log, keyId).value, NewRecord(ring, q, later)))
  {
    hide LegalLog, Current, HashSecret, Derive, CreateSecret, KeyIdOf, LastSecret, PepperApart;
    var q := log[n].cause.request;
    var keyId := KeyIdOf(ring, q);
    LegalAt(KeyRule(ring), log, n);
    StoredAfterCommit(ring, log, n);
    StoredHashIsLastSecrets(ring, log, keyId);
    if PepperApart(ring, CreateSecret(ring, q), LastSecret(ring, log, keyId).value) {
      EqualHashEqualSecret(ring, CreateSecret(ring, q), LastSecret(ring, log, keyId).value);
    }
    if NotRotatedSince(log, n + 1, keyId) {
      SecretStays(ring, log, n + 1, keyId);
    }
  }

  /** Another request under the same identity never passes for the one that was committed. */
  lemma ChangedCreateConflicts(ring: Keyring, log: KeyLog, n: nat, q: CreateRequest, later: U64)
    requires LegalLog(KeyRule(ring), log) && n < |log| && log[n].cause.CreatedBy? && log[n].key == KeyPath(KeyIdOf(ring, q))
    requires Stored(log, KeyIdOf(ring, q)).Some? && SameCreateRequest(Stored(log, KeyIdOf(ring, q)).value, NewRecord(ring, q, later))
    ensures var first := log[n].cause.request;
      && q.orgId == first.orgId && q.name == first.name && q.scopes == first.scopes
      && q.env == first.env && q.requireIdempotency == first.requireIdempotency
  {
    hide LegalLog, Current, HashSecret, Derive, CreateSecret, KeyIdOf;
    LegalAt(KeyRule(ring), log, n);
    StoredAfterCommit(ring, log, n);
  }
}
