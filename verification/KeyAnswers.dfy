/** What the key operations answer, against the history: when they write, which raw key they hand out, and
    what a listing shows. */
module KeyAnswers {
  import opened Numbers
  import opened Text
  import opened Digest
  import opened VersionedStore
  import opened RawKey
  import opened KeyLifecycle
  import opened KeyCredentials

  // ---------------------------------------------------------------- when revoke and rotate write

  lemma LegalLoad(ring: Keyring, log: KeyLog, keyId: string)
    requires LegalLog(KeyRule(ring), log)
    ensures Load(Current(log, KeyPath(keyId)), keyId) == Ok(Stored(log, keyId))
  {
    hide LegalLog, Allows, Current;
    KeyPathHoldsItsRecord(ring, log, keyId);
  }

  /** On any history, a revoke writes exactly for an unrevoked key of the organisation whose version can
      still rise, and leaves it revoked, one version up, otherwise untouched.  It answers true without a
      write exactly for a revoked one, and false exactly when the key is not the organisation's. */
  lemma RevokeDecides(ring: Keyring, log: KeyLog, orgId: string, keyId: string)
    requires LegalLog(KeyRule(ring), log)
    ensures var d := RevokePass(orgId, keyId, Current(log, KeyPath(keyId))); var r := Stored(log, keyId);
      && (d.Write? <==> BelongsTo(log, keyId, orgId) && !r.value.revoked && r.value.version < U64_MAX)
      && (d.Write? ==> d.reply && d.next == KeyValue(r.value.(revoked := true, version := r.value.version + 1)))
      && (d == Reply(true) <==> BelongsTo(log, keyId, orgId) && r.value.revoked)
      && (d == Reply(false) <==> !BelongsTo(log, keyId, orgId))
      && (d.Fail? ==> d == Fail(VersionOverflow))
  {
    hide LegalLog, Allows, Current;
    LegalLoad(ring, log, keyId);
  }

  /** On any history, a rotate writes exactly for an unrevoked key of the organisation whose last rotation
      was another and whose version can still rise.  It answers nothing exactly when the key is not the
      organisation's, or is revoked and this was not its last rotation. */
  lemma RotateDecides(ring: Keyring, log: KeyLog, q: RotateRequest)
    requires LegalLog(KeyRule(ring), log)
    ensures var d := RotatePass(ring, q, Current(log, KeyPath(q.keyId))); var r := Stored(log, q.keyId);
      && var own := BelongsTo(log, q.keyId, q.orgId); var again := own && r.value.lastRotation == Some(RotateMarker(ring, q));
      && (d.Write? <==> own && !again && !r.value.revoked && r.value.version < U64_MAX)
      && (d.Write? ==>
            && d.next.KeyValue? && SameKey(r.value, d.next.record) && !d.next.record.revoked
            && d.next.record.version == r.value.version + 1
            && d.next.record.secretHash == HashSecret(ring, RotateSecret(ring, q))
            && d.next.record.lastRotation == Some(RotateMarker(ring, q)))
      && (d.Reply? && d.reply.Some? <==> again && r.value.secretHash == HashSecret(ring, RotateSecret(ring, q)))
      && (d == Reply(None) <==> !own || (!again && r.value.revoked))
  {
    hide LegalLog, Allows, Current, HashSecret, RotateSecret, RotateMarker, Format;
    LegalLoad(ring, log, q.keyId);
  }

  // ---------------------------------------------------------------- the raw key that is handed out

  lemma MintingSetsSecret(ring: Keyring, log: KeyLog, at: nat)
    requires LegalLog(KeyRule(ring), log) && at < |log| && log[at].key.KeyPath? && MintedBy(ring, log[at]).Some?
    ensures LastSecret(ring, log[..at + 1], log[at].key.keyId) == MintedBy(ring, log[at])
    ensures log[at].after.KeyValue? && Stored(log[..at + 1], log[at].key.keyId) == Some(log[at].after.record)
  {
    hide LegalLog, Allows;
    assert log[..at + 1][|log[..at + 1]| - 1] == log[at];
    StoredAfterCommit(ring, log, at);
  }

  /** A rotate that commits answers with the very raw key that introspection accepts from then on, and with
      the record then stored. */
  lemma RotationHandsOutAcceptedKey(ring: Keyring, log: KeyLog, at: nat)
    requires LegalLog(KeyRule(ring), log) && at < |log| && log[at].cause.RotatedBy?
    ensures var q := log[at].cause.rotation; var d := RotatePass(ring, q, log[at].before);
      && d.Write? && d.reply.Some?
      && AcceptedRaw(ring, log[..at + 1], q.keyId) == Some(d.reply.value.0)
      && Stored(log[..at + 1], q.keyId).Some?
      && d.reply.value.1 == Meta(Stored(log[..at + 1], q.keyId).value)
  {
    hide LegalLog, Current, HashSecret, RotateSecret, RotateMarker, Format, Meta, Stored, LastSecret;
    LegalAt(KeyRule(ring), log, at);
    CommitAdvances(ring, log, at);
    MintingSetsSecret(ring, log, at);
  }

  /** A replayed rotate answers with the accepted raw key too, and with the record now stored. */
  lemma ReplayHandsOutAcceptedKey(ring: Keyring, log: KeyLog, q: RotateRequest)
    requires LegalLog(KeyRule(ring), log)
    requires var d := RotatePass(ring, q, Current(log, KeyPath(q.keyId))); d.Reply? && d.reply.Some?
    requires LastSecret(ring, log, q.keyId).Some? ==> PepperApart(ring, RotateSecret(ring, q), LastSecret(ring, log, q.keyId).value)
    ensures var d := RotatePass(ring, q, Current(log, KeyPath(q.keyId)));
      && Stored(log, q.keyId).Some?
      && AcceptedRaw(ring, log, q.keyId) == Some(d.reply.value.0)
      && d.reply.value.1 == Meta(Stored(log, q.keyId).value)
  {
    hide LegalLog, Current, HashSecret, RotateSecret, RotateMarker, Format, Meta, Stored, LastSecret, PepperApart;
    LegalLoad(ring, log, q.keyId);
    KeyPathHoldsItsRecord(ring, log, q.keyId);
    StoredHashIsLastSecrets(ring, log, q.keyId);
    StoredHasItsId(ring, log, q.keyId);
    EqualHashEqualSecret(ring, RotateSecret(ring, q), LastSecret(ring, log, q.keyId).value);
  }

  lemma StoredHasItsId(ring: Keyring, log: KeyLog, keyId: string)
    requires LegalLog(KeyRule(ring), log)
    ensures Stored(log, keyId).Some? ==> Stored(log, keyId).value.keyId == keyId
  {
    hide LegalLog, Allows, Current;
    KeyPathHoldsItsRecord(ring, log, keyId);
  }

  /** A create answers with the raw key that introspection accepts, whenever the record it finds or leaves
      passes for its own. */
  lemma CreateHandsOutAcceptedKey(ring: Keyring, log: KeyLog, q: CreateRequest, nowMs: U64)
    requires LegalLog(KeyRule(ring), log) && Stored(log, KeyIdOf(ring, q)).Some?
    requires SameCreateRequest(Stored(log, KeyIdOf(ring, q)).value, NewRecord(ring, q, nowMs))
    requires LastSecret(ring, log, KeyIdOf(ring, q)).Some? ==>
      PepperApart(ring, CreateSecret(ring, q), LastSecret(ring, log, KeyIdOf(ring, q)).value)
    ensures AcceptedRaw(ring, log, KeyIdOf(ring, q)) == Some(CreatedRaw(ring, q))
  {
    hide LegalLog, Current, HashSecret, CreateSecret, KeyIdOf, Derive, Format, Stored, LastSecret, PepperApart;
    StoredHashIsLastSecrets(ring, log, KeyIdOf(ring, q));
    EqualHashEqualSecret(ring, CreateSecret(ring, q), LastSecret(ring, log, KeyIdOf(ring, q)).value);
  }

  /** Right after its own commit that takes no assumption on the hash. */
  lemma CreationHandsOutAcceptedKey(ring: Keyring, log: KeyLog, at: nat)
    requires LegalLog(KeyRule(ring), log) && at < |log| && log[at].cause.CreatedBy?
    ensures AcceptedRaw(ring, log[..at + 1], KeyIdOf(ring, log[at].cause.request)) == Some(CreatedRaw(ring, log[at].cause.request))
  {
    hide LegalLog, Current, HashSecret, CreateSecret, KeyIdOf, Derive, Format, Stored, LastSecret;
    LegalAt(KeyRule(ring), log, at);
    MintingSetsSecret(ring, log, at);
  }

  // ---------------------------------------------------------------- what a listing shows

  predicate IsRevoke(c: KeyCommit, keyId: string) {
    c.key == KeyPath(keyId) && c.cause.RevokedBy?
  }

  /** The one create of a stored key. */
  ghost predicate Creates(ring: Keyring, log: KeyLog, n: nat, keyId: string) {
    n < |log| && log[n].key == KeyPath(keyId) && log[n].cause.CreatedBy?
  }

  /** What is shown of a key is its history: the request and the time of its create, as many versions as
      commits, revoked exactly if a revoke was committed, and never a last use. */
  ghost predicate ShowsHistory(ring: Keyring, log: KeyLog, keyId: string, m: ApiKeyMeta) {
    exists n: nat | Creates(ring, log, n, keyId) ::
      && var q := log[n].cause.request;
      && m.keyId == keyId && m.keyId == KeyIdOf(ring, q) && m.orgId == q.orgId && m.name == q.name && m.scopes == q.scopes
      && m.env == q.env && m.requireIdempotency == q.requireIdempotency
      && m.createdMs == log[n].cause.nowMs && m.lastUsedMs.None?
      && m.version as nat == CommitCount(log, KeyPath(keyId))
      && (m.revoked <==> exists k | 0 <= k < |log| :: IsRevoke(log[k], keyId))
  }

  lemma {:induction false} RevokedExactlyIfCommitted(ring: Keyring, log: KeyLog, keyId: string)
    requires LegalLog(KeyRule(ring), log)
    ensures (Stored(log, keyId).Some? && Stored(log, keyId).value.revoked) <==> exists k | 0 <= k < |log| :: IsRevoke(log[k], keyId)
  {
    hide LegalLog, Allows;
    if log != [] {
      var n := |log| - 1;
      LegalPrefix(KeyRule(ring), log, n);
      LegalAt(KeyRule(ring), log, n);
      RevokedExactlyIfCommitted(ring, log[..n], keyId);
      if log[n].key == KeyPath(keyId) {
        CommitAdvances(ring, log, n);
        RevokedBefore(ring, log, keyId);
      } else if exists k | 0 <= k < |log| :: IsRevoke(log[k], keyId) {
        var k :| 0 <= k < |log| && IsRevoke(log[k], keyId);
        assert IsRevoke(log[..n][k], keyId);
      }
    }
  }

  lemma RevokedBefore(ring: Keyring, log: KeyLog, keyId: string)
    requires LegalLog(KeyRule(ring), log) && log != [] && log[|log| - 1].key == KeyPath(keyId)
    ensures !(Stored(log[..|log| - 1], keyId).Some? && Stored(log[..|log| - 1], keyId).value.revoked)
  {
    hide LegalLog, Allows;
    LegalAt(KeyRule(ring), log, |log| - 1);
    CommitAdvances(ring, log, |log| - 1);
  }

  lemma {:induction false} StoredWasCreated(ring: Keyring, log: KeyLog, keyId: string) returns (n: nat)
    requires LegalLog(KeyRule(ring), log) && Stored(log, keyId).Some?
    ensures Creates(ring, log, n, keyId)
    ensures log[n].after.KeyValue? && SameKey(log[n].after.record, Stored(log, keyId).value)
    ensures Stored(log, keyId).value.lastUsedMs == log[n].after.record.lastUsedMs
  {
    hide LegalLog, Allows;
    var m := |log| - 1;
    LegalPrefix(KeyRule(ring), log, m);
    LegalAt(KeyRule(ring), log, m);
    if log[m].key == KeyPath(keyId) {
      CommitAdvances(ring, log, m);
      LastUseIsKept(ring, log, m);
      if log[m].before.None? {
        n := m;
      } else {
        n := StoredWasCreated(ring, log[..m], keyId);
      }
    } else {
      n := StoredWasCreated(ring, log[..m], keyId);
    }
  }

  lemma LastUseIsKept(ring: Keyring, log: KeyLog, n: nat)
    requires LegalLog(KeyRule(ring), log) && n < |log| && log[n].key.KeyPath?
    ensures log[n].after.KeyValue?
    ensures log[n].before.Some? && log[n].before.value.KeyValue? ==> log[n].after.record.lastUsedMs == log[n].before.value.record.lastUsedMs
    ensures log[n].before.None? ==> log[n].after.record.lastUsedMs.None?
  {
    hide LegalLog, Current, Derive, HashSecret, Format, BelongsTo;
    LegalAt(KeyRule(ring), log, n);
  }

  lemma CreateSetsRecord(ring: Keyring, log: KeyLog, n: nat, keyId: string)
    requires LegalLog(KeyRule(ring), log) && Creates(ring, log, n, keyId)
    ensures var q := log[n].cause.request;
      keyId == KeyIdOf(ring, q) && log[n].after == KeyValue(NewRecord(ring, q, log[n].cause.nowMs))
  {
    hide LegalLog, Current, Derive, HashSecret, Format, BelongsTo;
    LegalAt(KeyRule(ring), log, n);
  }

  lemma MetaShowsHistory(ring: Keyring, log: KeyLog, keyId: string)
    requires LegalLog(KeyRule(ring), log) && Stored(log, keyId).Some?
    ensures ShowsHistory(ring, log, keyId, Meta(Stored(log, keyId).value))
  {
    hide LegalLog, Allows, Current, Stored, Derive, HashSecret, CreateSecret;
    var n := StoredWasCreated(ring, log, keyId);
    CreateSetsRecord(ring, log, n, keyId);
    RevokedExactlyIfCommitted(ring, log, keyId);
    VersionCountsCommits(ring, log, keyId);
  }

  /** Every entry of every listing shows the history of its key as of some instant after the index was read. */
  lemma ListShowsHistory(ring: Keyring, log: KeyLog, from: nat, orgId: string, views: seq<Option<Value>>, i: nat)
    requires LegalLog(KeyRule(ring), log) && from <= |log| && i < |Index(log[..from], orgId)|
    requires ViewsSince(log, from, Index(log[..from], orgId), views)
    ensures |Index(log[..from], orgId)| == |views|
    ensures var r := Listed(orgId, Index(log[..from], orgId), views);
      && r.Ok? && i < |r.value|
      && exists at: nat | from <= at <= |log| :: ShowsHistory(ring, log[..at], Index(log[..from], orgId)[i], r.value[i])
  {
    hide LegalLog, Allows, Current, Index, BelongsTo, Listed, ShowsHistory, Meta;
    var ids := Index(log[..from], orgId);
    LegalPrefix(KeyRule(ring), log, from);
    IndexIsSound(ring, log[..from], orgId);
    ListFollowsIndex(ring, log, from, orgId, ids, views);
    assert ViewSince(log, from, ids[i], views[i]);
    var at: nat :| from <= at <= |log| && views[i] == Current(log[..at], KeyPath(ids[i]));
    LegalPrefix(KeyRule(ring), log, at);
    LegalLoad(ring, log[..at], ids[i]);
    ViewIsStored(log[..at], ids[i], views[i]);
    MetaShowsHistory(ring, log[..at], ids[i]);
  }

  lemma ViewIsStored(log: KeyLog, keyId: string, view: Option<Value>)
    requires view == Current(log, KeyPath(keyId)) && view.Some? && view.value.KeyValue?
    ensures Stored(log, keyId) == Some(view.value.record)
  {
  }

  // ---------------------------------------------------------------- what the keyed functions tell apart

  predicate NulFree(s: string) {
    '\0' !in s
  }

  lemma {:induction false} NoZeroByte(s: string)
    requires NulFree(s)
    ensures 0 !in Utf8(s)
  {
    if s != "" {
      NoZeroByte(s[1..]);
    }
  }

  lemma {:induction false} FirstZeroSplits(p: seq<Byte>, x: seq<Byte>, q: seq<Byte>, y: seq<Byte>)
    requires 0 !in p && 0 !in q && p + x == q + y && (x == [] || x[0] == 0) && (y == [] || y[0] == 0)
    ensures p == q && x == y
  {
    assert p == [] ==> p + x == x;
    assert q == [] ==> q + y == y;
    assert p != [] ==> (p + x)[0] == p[0];
    assert q != [] ==> (q + y)[0] == q[0];
    if p != [] && q != [] {
      assert (p + x)[1..] == p[1..] + x && (q + y)[1..] == q[1..] + y;
      FirstZeroSplits(p[1..], x, q[1..], y);
      assert p == [p[0]] + p[1..] && q == [q[0]] + q[1..];
    }
  }

  lemma NulFrameHead(parts: seq<string>)
    ensures NulFrame(parts) == [] <==> parts == []
    ensures parts != [] ==> NulFrame(parts)[0] == 0 && NulFrame(parts)[1..] == Utf8(parts[0]) + NulFrame(parts[1..])
  {
    if parts != [] {
      assert NulFrame(parts) == [0] + (Utf8(parts[0]) + NulFrame(parts[1..]));
    }
  }

  lemma {:induction false} NulFrameInjective(ps: seq<string>, qs: seq<string>)
    requires (forall i | 0 <= i < |ps| :: NulFree(ps[i])) && (forall i | 0 <= i < |qs| :: NulFree(qs[i]))
    requires NulFrame(ps) == NulFrame(qs)
    ensures ps == qs
  {
    hide Utf8, NulFrame, NulFree;
    NulFrameHead(ps);
    NulFrameHead(qs);
    if ps != [] && qs != [] {
      NoZeroByte(ps[0]);
      NoZeroByte(qs[0]);
      NulFrameHead(ps[1..]);
      NulFrameHead(qs[1..]);
      FirstZeroSplits(Utf8(ps[0]), NulFrame(ps[1..]), Utf8(qs[0]), NulFrame(qs[1..]));
      Utf8Injective(ps[0], qs[0]);
      NulFrameInjective(ps[1..], qs[1..]);
      assert ps == [ps[0]] + ps[1..] && qs == [qs[0]] + qs[1..];
    }
  }

  /** Text free of NUL, under a keyed digest that does not collide on the two messages: a derived value
      determines its purpose and all of its parts, so ids, secrets and markers of different requests, and
      of different purposes of one request, are different. */
  lemma DerivedValuesTellApart(ring: Keyring, a: string, ps: seq<string>, b: string, qs: seq<string>)
    requires NulFree(a) && NulFree(b)
    requires (forall i | 0 <= i < |ps| :: NulFree(ps[i])) && (forall i | 0 <= i < |qs| :: NulFree(qs[i]))
    requires CollisionFree(x => ring.hmac(ring.idempotencySecret, x), {Utf8(a) + NulFrame(ps), Utf8(b) + NulFrame(qs)})
    ensures Derive(ring, a, ps) == Derive(ring, b, qs) <==> a == b && ps == qs
  {
    if Derive(ring, a, ps) == Derive(ring, b, qs) {
      var f: Sha256 := x => ring.hmac(ring.idempotencySecret, x);
      var x, y := Utf8(a) + NulFrame(ps), Utf8(b) + NulFrame(qs);
      HexInjective(f(x), f(y));
      assert x in {x, y} && y in {x, y};
      NoZeroByte(a);
      NoZeroByte(b);
      FirstZeroSplits(Utf8(a), NulFrame(ps), Utf8(b), NulFrame(qs));
      Utf8Injective(a, b);
      NulFrameInjective(ps, qs);
    }
  }

  /** A record with a plain hash opens for its own secret exactly while the rotation window is open. */
  lemma LegacyHashOpensExactlyWhen(ring: Keyring, secret: string, presented: string)
    requires CollisionFree(ring.sha, {Utf8(secret), Utf8(presented)})
    ensures VerifySecretHash(ring, LEGACY_TAG + Hex(ring.sha(Utf8(secret))), presented) <==> ring.allowLegacy && presented == secret
  {
    var x, y := Utf8(secret), Utf8(presented);
    var s, t := LEGACY_TAG + Hex(ring.sha(x)), LEGACY_TAG + Hex(ring.sha(y));
    assert s[0] == 's' && HMAC_TAG[0] == 'h';
    if s == t {
      assert Hex(ring.sha(x)) == s[|LEGACY_TAG|..] && Hex(ring.sha(y)) == t[|LEGACY_TAG|..];
      HexInjective(ring.sha(x), ring.sha(y));
      assert x in {x, y} && y in {x, y};
      Utf8Injective(secret, presented);
    }
  }

  predicate PlainRequest(q: RotateRequest) {
    NulFree(q.actorId) && NulFree(q.orgId) && NulFree(q.keyId) && NulFree(q.idempotencyKey)
  }

  function RotateParts(q: RotateRequest): seq<string> {
    [q.actorId, q.orgId, q.keyId, q.idempotencyKey]
  }

  /** Every rotation request has its own secret, which is not its marker. */
  lemma RotationsHaveTheirOwnSecrets(ring: Keyring, q: RotateRequest, q': RotateRequest)
    requires PlainRequest(q) && PlainRequest(q')
    requires CollisionFree(x => ring.hmac(ring.idempotencySecret, x),
                           {Utf8("rotate-secret") + NulFrame(RotateParts(q)), Utf8("rotate-secret") + NulFrame(RotateParts(q'))})
    requires CollisionFree(x => ring.hmac(ring.idempotencySecret, x),
                           {Utf8("rotate-secret") + NulFrame(RotateParts(q)), Utf8("rotate-marker") + NulFrame(RotateParts(q))})
    ensures RotateSecret(ring, q) == RotateSecret(ring, q') <==> q == q'
    ensures RotateSecret(ring, q) != RotateMarker(ring, q)
  {
    hide Derive, Utf8, NulFrame, CollisionFree;
    DerivedValuesTellApart(ring, "rotate-secret", RotateParts(q), "rotate-secret", RotateParts(q'));
    DerivedValuesTellApart(ring, "rotate-secret", RotateParts(q), "rotate-marker", RotateParts(q));
    assert "rotate-secret"[7] != "rotate-marker"[7];
    var p, r := RotateParts(q), RotateParts(q');
    assert p == r ==> p[0] == r[0] && p[1] == r[1] && p[2] == r[2] && p[3] == r[3];
  }

  // ---------------------------------------------------------------- a key's first day

  /** The history that an undisturbed create leaves. */
  function FirstDay(ring: Keyring, q: CreateRequest, nowMs: U64): KeyLog {
    var id := KeyIdOf(ring, q);
    [Commit(KeyPath(id), None, KeyValue(NewRecord(ring, q, nowMs)), CreatedBy(q, nowMs)),
     Commit(OrgIndexPath(q.orgId), None, IndexValue([id]), IndexedBy(q.orgId, id))]
  }

  lemma FirstDayIsLegal(ring: Keyring, q: CreateRequest, nowMs: U64)
    ensures LegalLog(KeyRule(ring), FirstDay(ring, q, nowMs))
    ensures Stored(FirstDay(ring, q, nowMs), KeyIdOf(ring, q)) == Some(NewRecord(ring, q, nowMs))
    ensures Index(FirstDay(ring, q, nowMs), q.orgId) == [KeyIdOf(ring, q)]
  {
    hide NewRecord, KeyIdOf, Allows, LegalLog, Current, Stored, Index;
    var log := FirstDay(ring, q, nowMs);
    FirstDayIsAllowed(ring, q, nowMs);
    TwoViews(log[0], log[1]);
    assert log == [] + [log[0]] + [log[1]];
    EmptyIsLegal(ring);
    LegalAppend(KeyRule(ring), [], log[0]);
    assert [] + [log[0]] == [log[0]];
    LegalAppend(KeyRule(ring), [log[0]], log[1]);
    FirstDayViews(ring, q, nowMs);
  }

  lemma EmptyIsLegal(ring: Keyring)
    ensures LegalLog(KeyRule(ring), [])
  {
  }

  lemma TwoViews(a: KeyCommit, b: KeyCommit)
    requires a.key != b.key
    ensures Current<Path, Value, Cause>([], a.key) == None && Current<Path, Value, Cause>([a], b.key) == None
    ensures Current<Path, Value, Cause>([a], a.key) == Some(a.after)
    ensures Current<Path, Value, Cause>([a, b], a.key) == Some(a.after) && Current<Path, Value, Cause>([a, b], b.key) == Some(b.after)
  {
    assert [a][..0] == [] && [a, b][..1] == [a];
  }

  lemma FirstDayViews(ring: Keyring, q: CreateRequest, nowMs: U64)
    ensures Stored([FirstDay(ring, q, nowMs)[0]], KeyIdOf(ring, q)) == Some(NewRecord(ring, q, nowMs))
    ensures Stored(FirstDay(ring, q, nowMs), KeyIdOf(ring, q)) == Some(NewRecord(ring, q, nowMs))
    ensures Index(FirstDay(ring, q, nowMs), q.orgId) == [KeyIdOf(ring, q)]
  {
    hide NewRecord, KeyIdOf, Current;
    var log := FirstDay(ring, q, nowMs);
    TwoViews(log[0], log[1]);
    assert log == [log[0], log[1]];
  }

  lemma FirstDayIsAllowed(ring: Keyring, q: CreateRequest, nowMs: U64)
    ensures var log := FirstDay(ring, q, nowMs); Allows(ring, [], log[0]) && Allows(ring, [log[0]], log[1])
  {
    hide Allows, NewRecord, KeyIdOf, Stored;
    FirstCommitIsAllowed(ring, [], q, nowMs);
    NewRecordBelongs(ring, q, nowMs);
    FirstDayViews(ring, q, nowMs);
    FirstIndexingIsAllowed(ring, [FirstDay(ring, q, nowMs)[0]], q.orgId, KeyIdOf(ring, q));
  }

  lemma FirstCommitIsAllowed(ring: Keyring, prefix: KeyLog, q: CreateRequest, nowMs: U64)
    ensures Allows(ring, prefix, Commit(KeyPath(KeyIdOf(ring, q)), None, KeyValue(NewRecord(ring, q, nowMs)), CreatedBy(q, nowMs)))
  {
    hide NewRecord, KeyIdOf;
  }

  lemma FirstIndexingIsAllowed(ring: Keyring, prefix: KeyLog, orgId: string, keyId: string)
    requires BelongsTo(prefix, keyId, orgId)
    ensures Allows(ring, prefix, Commit(OrgIndexPath(orgId), None, IndexValue([keyId]), IndexedBy(orgId, keyId)))
  {
    hide BelongsTo;
    FirstIndexing(keyId);
  }

  lemma FirstIndexing(keyId: string)
    ensures Writes(IndexPass(keyId, None), IndexValue([keyId]))
  {
    assert [] + [keyId] == [keyId];
  }

  lemma NewRecordBelongs(ring: Keyring, q: CreateRequest, nowMs: U64)
    ensures var r := NewRecord(ring, q, nowMs);
      && r.orgId == q.orgId && r.env == q.env && !r.revoked && r.scopes == q.scopes && r.requireIdempotency == q.requireIdempotency
      && r.secretHash == HashSecret(ring, CreateSecret(ring, q))
  {
  }

  /** After an undisturbed create, the raw key that was handed out opens the key, with the requested
      organisation, customer scopes and idempotency flag. */
  lemma CreatedKeyOpens(ring: Keyring, q: CreateRequest, nowMs: U64)
    requires IsKeyEnv(q.env)
    ensures LegalLog(KeyRule(ring), FirstDay(ring, q, nowMs))
    ensures IntrospectAt(ring, FirstDay(ring, q, nowMs), 2, 2, CreatedRaw(ring, q))
      == Ok(Introspection(true, Some(q.orgId), Some(KeyIdOf(ring, q)), CustomerScopes(q.scopes), q.requireIdempotency))
  {
    hide NewRecord, KeyIdOf, CreateSecret, LegalLog, Stored, Index, IntrospectAt, CustomerScopes, HashSecret;
    var log := FirstDay(ring, q, nowMs);
    assert log[..|log|] == log;
    FirstDayIsLegal(ring, q, nowMs);
    NewRecordBelongs(ring, q, nowMs);
    StoredSecretOpens(ring, log, KeyIdOf(ring, q), CreateSecret(ring, q));
  }
}
