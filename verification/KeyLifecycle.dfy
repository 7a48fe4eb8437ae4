/**
 API keys: create as a two-key commit (record, then organisation index), rotate and revoke as retry
 loops, and introspection that trusts nothing but the store.
 */
module KeyLifecycle {
  import opened Numbers
  import opened Text
  import opened Digest
  import opened VersionedStore
  import opened RawKey

  datatype Path = KeyPath(keyId: string) | OrgIndexPath(orgId: string)

  function Render(p: Path): string {
    match p
    case KeyPath(keyId) => "__auth/keys/" + keyId
    case OrgIndexPath(orgId) => "__auth/orgs/" + orgId + "/keys"
  }

  /** Different paths are different store keys. */
  lemma RenderInjective(p: Path, q: Path)
    ensures Render(p) == Render(q) <==> p == q
  {
    var r, s := Render(p), Render(q);
    assert "__auth/keys/"[7] != "__auth/orgs/"[7];
    if r == s {
      assert r[7] == s[7];
      if p.KeyPath? {
        assert p.keyId == r[12..] && q.keyId == s[12..];
      } else {
        assert p.orgId == r[12..|r| - 5] && q.orgId == s[12..|s| - 5];
      }
    }
  }

  datatype ApiKeyRecord = ApiKeyRecord(keyId: string, orgId: string, name: string, secretHash: string, createHash: string,
                                       lastRotation: Option<string>, scopes: seq<string>, createdMs: U64, lastUsedMs: Option<U64>,
                                       revoked: bool, version: U64, env: string, requireIdempotency: bool)

  datatype ApiKeyMeta = ApiKeyMeta(keyId: string, orgId: string, name: string, scopes: seq<string>, createdMs: U64,
                                   lastUsedMs: Option<U64>, revoked: bool, version: U64, env: string, requireIdempotency: bool)

  datatype Value = KeyValue(record: ApiKeyRecord) | IndexValue(ids: seq<string>)

  datatype KeyError = InvalidValue | VersionOverflow | KeyIdCollision | IdempotencyConflict | StoreFailed | CasRetriesExhausted

  function Meta(r: ApiKeyRecord): ApiKeyMeta {
    ApiKeyMeta(r.keyId, r.orgId, r.name, r.scopes, r.createdMs, r.lastUsedMs, r.revoked, r.version, r.env, r.requireIdempotency)
  }

  /** The server's two secrets and the functions they key. */
  datatype Keyring = Keyring(hmac: (seq<Byte>, seq<Byte>) -> Digest32, sha: Sha256, idempotencySecret: seq<Byte>,
                             pepper: seq<Byte>, allowLegacy: bool)

  function NulFrame(parts: seq<string>): seq<Byte> {
    if parts == [] then [] else [0] + Utf8(parts[0]) + NulFrame(parts[1..])
  }

  function Derive(ring: Keyring, purpose: string, parts: seq<string>): (s: string)
    ensures IsLowerHex(s, 64)
  {
    Hex(ring.hmac(ring.idempotencySecret, Utf8(purpose) + NulFrame(parts)))
  }

  const HMAC_TAG := "hmac-sha256:"
  const LEGACY_TAG := "sha256:"

  function HashSecret(ring: Keyring, secret: string): string {
    HMAC_TAG + Hex(ring.hmac(ring.pepper, Utf8(secret)))
  }

  function VerifySecretHash(ring: Keyring, stored: string, secret: string): bool {
    if HMAC_TAG <= stored then stored == HashSecret(ring, secret)
    else if ring.allowLegacy && LEGACY_TAG <= stored then stored == LEGACY_TAG + Hex(ring.sha(Utf8(secret)))
    else false
  }

  datatype CreateRequest = CreateRequest(actorId: string, idempotencyKey: string, orgId: string, name: string,
                                         scopes: seq<string>, env: string, requireIdempotency: bool)

  datatype RotateRequest = RotateRequest(actorId: string, idempotencyKey: string, orgId: string, keyId: string)

  function KeyIdOf(ring: Keyring, q: CreateRequest): (id: string)
    ensures IsLowerHex(id, 16)
  {
    Derive(ring, "create-key-id", [q.actorId, q.orgId, q.idempotencyKey])[..16]
  }

  function CreateSecret(ring: Keyring, q: CreateRequest): (s: string)
    ensures IsLowerHex(s, 64)
  {
    Derive(ring, "create-secret", [q.actorId, q.orgId, q.idempotencyKey])
  }

  function RotateMarker(ring: Keyring, q: RotateRequest): string {
    Derive(ring, "rotate-marker", [q.actorId, q.orgId, q.keyId, q.idempotencyKey])
  }

  function RotateSecret(ring: Keyring, q: RotateRequest): (s: string)
    ensures IsLowerHex(s, 64)
  {
    Derive(ring, "rotate-secret", [q.actorId, q.orgId, q.keyId, q.idempotencyKey])
  }

  function CreatedRaw(ring: Keyring, q: CreateRequest): string {
    Format(Parts(q.env, KeyIdOf(ring, q), CreateSecret(ring, q)))
  }

  function NewRecord(ring: Keyring, q: CreateRequest, nowMs: U64): ApiKeyRecord {
    ApiKeyRecord(KeyIdOf(ring, q), q.orgId, q.name, HashSecret(ring, CreateSecret(ring, q)),
                 Derive(ring, "create-marker", [q.actorId, q.orgId, q.idempotencyKey]),
                 None, q.scopes, nowMs, None, false, 1, q.env, q.requireIdempotency)
  }

  predicate SameCreateRequest(existing: ApiKeyRecord, requested: ApiKeyRecord) {
    && existing.createHash == requested.createHash
    && existing.keyId == requested.keyId
    && existing.orgId == requested.orgId
    && existing.name == requested.name
    && existing.scopes == requested.scopes
    && existing.env == requested.env
    && existing.requireIdempotency == requested.requireIdempotency
    && existing.secretHash == requested.secretHash
  }

  // ---------------------------------------------------------------- one pass of each loop

  /** `load`: the value must decode as a record of this id. */
  function Load(stored: Option<Value>, keyId: string): Result<Option<ApiKeyRecord>, KeyError> {
    match stored
    case None => Ok(None)
    case Some(KeyValue(r)) => if r.keyId != keyId then Err(InvalidValue) else Ok(Some(r))
    case Some(IndexValue(_)) => Err(InvalidValue)
  }

  function IndexIds(stored: Option<Value>): Result<seq<string>, KeyError> {
    match stored
    case None => Ok([])
    case Some(IndexValue(ids)) => Ok(ids)
    case Some(KeyValue(_)) => Err(InvalidValue)
  }

  type RotateReply = Option<(string, ApiKeyMeta)>

  function Rotated(ring: Keyring, q: RotateRequest, r: ApiKeyRecord): ApiKeyRecord
    requires r.version < U64_MAX
  {
    r.(secretHash := HashSecret(ring, RotateSecret(ring, q)), lastRotation := Some(RotateMarker(ring, q)), version := r.version + 1)
  }

  function RotatedRaw(ring: Keyring, q: RotateRequest, r: ApiKeyRecord): string {
    Format(Parts(r.env, r.keyId, RotateSecret(ring, q)))
  }

  function RotatePass(ring: Keyring, q: RotateRequest, stored: Option<Value>): Decision<Value, RotateReply, KeyError> {
    match Load(stored, q.keyId)
    case Err(e) => Fail(e)
    case Ok(None) => Reply(None)
    case Ok(Some(r)) =>
      if r.orgId != q.orgId then Reply(None)
      else if r.lastRotation == Some(RotateMarker(ring, q)) then
        if r.secretHash != HashSecret(ring, RotateSecret(ring, q)) then Fail(InvalidValue)
        else Reply(Some((RotatedRaw(ring, q, r), Meta(r))))
      else if r.revoked then Reply(None)
      else if r.version == U64_MAX then Fail(VersionOverflow)
      else Write(KeyValue(Rotated(ring, q, r)), Some((RotatedRaw(ring, q, r), Meta(Rotated(ring, q, r)))))
  }

  function RevokePass(orgId: string, keyId: string, stored: Option<Value>): Decision<Value, bool, KeyError> {
    match Load(stored, keyId)
    case Err(e) => Fail(e)
    case Ok(None) => Reply(false)
    case Ok(Some(r)) =>
      if r.orgId != orgId then Reply(false)
      else if r.revoked then Reply(true)
      else if r.version == U64_MAX then Fail(VersionOverflow)
      else Write(KeyValue(r.(revoked := true, version := r.version + 1)), true)
  }

  function IndexPass(keyId: string, stored: Option<Value>): Decision<Value, (), KeyError> {
    match IndexIds(stored)
    case Err(e) => Fail(e)
    case Ok(ids) => if keyId in ids then Reply(()) else Write(IndexValue(ids + [keyId]), ())
  }

  datatype Cause =
    | CreatedBy(request: CreateRequest, nowMs: U64)
    | RotatedBy(rotation: RotateRequest)
    | RevokedBy(orgId: string, keyId: string)
    | IndexedBy(indexOrg: string, indexKey: string)

  type KeyCommit = Commit<Path, Value, Cause>
  type KeyLog = seq<KeyCommit>

  function Stored(log: KeyLog, keyId: string): Option<ApiKeyRecord> {
    match Current<Path, Value, Cause>(log, KeyPath(keyId))
    case Some(KeyValue(r)) => Some(r)
    case _ => None
  }

  function Index(log: KeyLog, orgId: string): seq<string> {
    match Current<Path, Value, Cause>(log, OrgIndexPath(orgId))
    case Some(IndexValue(ids)) => ids
    case _ => []
  }

  predicate BelongsTo(log: KeyLog, keyId: string, orgId: string) {
    Stored(log, keyId).Some? && Stored(log, keyId).value.orgId == orgId
  }

  /** Which commits the operations make.  The index grows only by keys whose record is already there. */
  predicate Allows(ring: Keyring, prefix: KeyLog, c: KeyCommit) {
    match c.cause
    case CreatedBy(q, nowMs) => c.key == KeyPath(KeyIdOf(ring, q)) && c.before.None? && c.after == KeyValue(NewRecord(ring, q, nowMs))
    case RotatedBy(q) => c.key == KeyPath(q.keyId) && Writes(RotatePass(ring, q, c.before), c.after)
    case RevokedBy(orgId, keyId) => c.key == KeyPath(keyId) && Writes(RevokePass(orgId, keyId, c.before), c.after)
    case IndexedBy(orgId, keyId) =>
      c.key == OrgIndexPath(orgId) && BelongsTo(prefix, keyId, orgId) && Writes(IndexPass(keyId, c.before), c.after)
  }

  function KeyRule(ring: Keyring): Rule<Path, Value, Cause> {
    (prefix, c) => Allows(ring, prefix, c)
  }

  // ---------------------------------------------------------------- lifecycle

  predicate SameKey(a: ApiKeyRecord, b: ApiKeyRecord) {
    && a.keyId == b.keyId && a.orgId == b.orgId && a.name == b.name && a.scopes == b.scopes && a.env == b.env
    && a.createHash == b.createHash && a.createdMs == b.createdMs && a.requireIdempotency == b.requireIdempotency
  }

  /** One committed rotate or first revoke. */
  predicate Advances(a: ApiKeyRecord, b: ApiKeyRecord) {
    SameKey(a, b) && !a.revoked && b.version == a.version + 1
  }

  lemma CommitAdvances(ring: Keyring, log: KeyLog, n: nat)
    requires LegalLog(KeyRule(ring), log) && n < |log| && log[n].key.KeyPath?
    ensures var c := log[n];
      && c.after.KeyValue?
      && c.after.record.keyId == c.key.keyId
      && (c.before.None? ==> c.cause.CreatedBy? && c.after.record.version == 1 && !c.after.record.revoked)
      && (c.before.Some? ==> !c.cause.CreatedBy? && c.before.value.KeyValue? && Advances(c.before.value.record, c.after.record))
      && (c.cause.RevokedBy? <==> c.after.record.revoked)
  {
    hide LegalLog, Current, Derive, HashSecret, Format, BelongsTo;
    LegalAt(KeyRule(ring), log, n);
  }

  /** What one more commit does to one record. */
  predicate Follows(log: KeyLog, keyId: string)
    requires log != []
  {
    var n := |log| - 1;
    var a, b := Stored(log[..n], keyId), Stored(log, keyId);
    if log[n].key == KeyPath(keyId) then
      b.Some? && (if a.Some? then Advances(a.value, b.value) else b.value.version == 1)
    else b == a
  }

  lemma StepFollows(ring: Keyring, log: KeyLog, keyId: string)
    requires LegalLog(KeyRule(ring), log) && log != []
    ensures Follows(log, keyId)
  {
    hide LegalLog, SameKey, Allows;
    var n := |log| - 1;
    LegalAt(KeyRule(ring), log, n);
    if log[n].key == KeyPath(keyId) {
      CommitAdvances(ring, log, n);
    }
  }

  lemma {:induction false} KeyPathHoldsItsRecord(ring: Keyring, log: KeyLog, keyId: string)
    requires LegalLog(KeyRule(ring), log)
    ensures var v := Current(log, KeyPath(keyId)); v.Some? ==> v.value.KeyValue? && v.value.record.keyId == keyId
  {
    if log != [] {
      var n := |log| - 1;
      LegalPrefix(KeyRule(ring), log, n);
      if log[n].key == KeyPath(keyId) {
        CommitAdvances(ring, log, n);
      } else {
        KeyPathHoldsItsRecord(ring, log[..n], keyId);
      }
    }
  }

  /** Over every interleaving of create, rotate and revoke on any number of replicas: a stored key never
      disappears, its identity never changes, its version never falls, and a revoked one is final. */
  lemma {:induction false} LifecycleIsMonotone(ring: Keyring, log: KeyLog, n: nat, keyId: string)
    requires LegalLog(KeyRule(ring), log) && n <= |log| && Stored(log[..n], keyId).Some?
    ensures Stored(log, keyId).Some?
    ensures var a, b := Stored(log[..n], keyId).value, Stored(log, keyId).value;
      && SameKey(a, b)
      && a.version <= b.version
      && (a.revoked ==> b == a)
      && (a.version == b.version ==> b == a)
  {
    hide LegalLog, Stored, Allows;
    if n == |log| {
      assert log[..n] == log;
    } else {
      var last := |log| - 1;
      LegalPrefix(KeyRule(ring), log, last);
      assert log[..last][..n] == log[..n];
      LifecycleIsMonotone(ring, log[..last], n, keyId);
      StepFollows(ring, log, keyId);
    }
  }

  /** The version counts the commits: one for the create, one for each rotate, one for the first revoke. */
  lemma {:induction false} VersionCountsCommits(ring: Keyring, log: KeyLog, keyId: string)
    requires LegalLog(KeyRule(ring), log)
    ensures CommitCount(log, KeyPath(keyId)) == if Stored(log, keyId).Some? then Stored(log, keyId).value.version else 0
  {
    hide LegalLog;
    if log != [] {
      var n := |log| - 1;
      LegalPrefix(KeyRule(ring), log, n);
      VersionCountsCommits(ring, log[..n], keyId);
      StepFollows(ring, log, keyId);
    }
  }

  // ---------------------------------------------------------------- the organisation index

  predicate NoDuplicates(ids: seq<string>) {
    forall i, j | 0 <= i < j < |ids| :: ids[i] != ids[j]
  }

  lemma IndexCommitAppends(ring: Keyring, log: KeyLog, n: nat)
    requires LegalLog(KeyRule(ring), log) && n < |log| && log[n].key.OrgIndexPath?
    ensures var c := log[n]; var ids := Index(log[..n], c.key.orgId);
      && c.cause.IndexedBy?
      && c.after == IndexValue(ids + [c.cause.indexKey])
      && c.cause.indexKey !in ids
      && BelongsTo(log[..n], c.cause.indexKey, c.key.orgId)
  {
    assert KeyRule(ring)(log[..n], log[n]);
  }

  /** What one more commit does to one index. */
  lemma LastCommitOnIndex(ring: Keyring, log: KeyLog, orgId: string)
    requires LegalLog(KeyRule(ring), log) && log != []
    ensures log[|log| - 1].key == OrgIndexPath(orgId) ==> log[|log| - 1].cause.IndexedBy?
    ensures var n := |log| - 1; var ids := Index(log[..n], orgId);
      if log[n].key == OrgIndexPath(orgId)
      then Index(log, orgId) == ids + [log[n].cause.indexKey] && log[n].cause.indexKey !in ids && BelongsTo(log[..n], log[n].cause.indexKey, orgId)
      else Index(log, orgId) == ids
  {
    hide LegalLog, Allows, BelongsTo;
    if log[|log| - 1].key == OrgIndexPath(orgId) {
      IndexCommitAppends(ring, log, |log| - 1);
    }
  }

  /** Additions, however concurrent, are never lost: the index only ever grows at its end. */
  lemma {:induction false} IndexOnlyGrows(ring: Keyring, log: KeyLog, n: nat, orgId: string)
    requires LegalLog(KeyRule(ring), log) && n <= |log|
    ensures Index(log[..n], orgId) <= Index(log, orgId)
  {
    hide LegalLog, Allows, BelongsTo, Index;
    if n == |log| {
      assert log[..n] == log;
    } else {
      var last := |log| - 1;
      LegalPrefix(KeyRule(ring), log, last);
      assert log[..last][..n] == log[..n];
      IndexOnlyGrows(ring, log[..last], n, orgId);
      LastCommitOnIndex(ring, log, orgId);
    }
  }

  lemma {:induction false} IndexDecodes(ring: Keyring, log: KeyLog, orgId: string)
    requires LegalLog(KeyRule(ring), log)
    ensures IndexIds(Current(log, OrgIndexPath(orgId))) == Ok(Index(log, orgId))
  {
    hide LegalLog, Allows, BelongsTo;
    if log != [] {
      var n := |log| - 1;
      LegalPrefix(KeyRule(ring), log, n);
      IndexDecodes(ring, log[..n], orgId);
      if log[n].key == OrgIndexPath(orgId) {
        IndexCommitAppends(ring, log, n);
      }
    }
  }

  lemma BelongsLater(ring: Keyring, log: KeyLog, keyId: string, orgId: string)
    requires LegalLog(KeyRule(ring), log) && log != [] && BelongsTo(log[..|log| - 1], keyId, orgId)
    ensures BelongsTo(log, keyId, orgId)
  {
    hide LegalLog, Allows, Stored;
    LifecycleIsMonotone(ring, log, |log| - 1, keyId);
  }

  /** The index decodes, lists no key twice, and lists only keys whose record belongs to the organisation. */
  lemma {:induction false} IndexIsSound(ring: Keyring, log: KeyLog, orgId: string)
    requires LegalLog(KeyRule(ring), log)
    ensures IndexIds(Current(log, OrgIndexPath(orgId))) == Ok(Index(log, orgId))
    ensures NoDuplicates(Index(log, orgId))
    ensures forall i | 0 <= i < |Index(log, orgId)| :: BelongsTo(log, Index(log, orgId)[i], orgId)
  {
    IndexDecodes(ring, log, orgId);
    if log != [] {
      hide LegalLog, Allows, BelongsTo, Index, Current;
      var earlier := log[..|log| - 1];
      LegalPrefix(KeyRule(ring), log, |log| - 1);
      IndexIsSound(ring, earlier, orgId);
      LastCommitOnIndex(ring, log, orgId);
      forall i | 0 <= i < |Index(log, orgId)| ensures BelongsTo(log, Index(log, orgId)[i], orgId) {
        BelongsLater(ring, log, Index(log, orgId)[i], orgId);
      }
    }
  }
}
