/** Retries, in the caller's terms: when a retry can still be made, and what counts as the same request. */
module RevocationReplay {
  import opened Numbers
  import opened Text
  import opened Digest
  import opened VersionedStore
  import opened RevocationRecord
  import opened RevocationLedger
  import opened LedgerProperties
  import opened RevocationAuthority

  // ---------------------------------------------------------------- when a retry is still possible

  function RequestExpiry(request: RevokeRequest): U64 {
    if request.TokenRequest? then request.claims.exp else request.expiresAt
  }

  /** The earliest instant at which the request makes a record: a token's issue, or a day before a
      subject's expiry. */
  function RequestOpens(request: RevokeRequest): nat {
    if request.TokenRequest? then request.claims.iat
    else if request.expiresAt <= MAX_INTERNAL_REVOCATION_TTL_SECS then 0
    else request.expiresAt - MAX_INTERNAL_REVOCATION_TTL_SECS
  }

  /** A request that made a record once makes one exactly between its opening and its expiry, the same
      but for its time; outside, the window is what is wrong. */
  lemma RecordCanBeMadeExactlyWhen(request: RevokeRequest, actor: string, now: U64, later: U64)
    requires RequestRecord(request, actor, now).Ok?
    ensures RequestRecord(request, actor, later).Ok? <==> RequestOpens(request) <= later < RequestExpiry(request)
    ensures RequestRecord(request, actor, later).Ok? ==>
      RequestRecord(request, actor, later).value == RequestRecord(request, actor, now).value.(createdAt := later)
    ensures RequestExpiry(request) <= later ==> RequestRecord(request, actor, later) == Err(Contract(InvalidWindow))
    ensures later < RequestOpens(request) ==>
      RequestRecord(request, actor, later) == Err(Contract(if request.TokenRequest? then InvalidWindow else WindowTooLong))
    ensures RequestRecord(request, actor, now).value.expiresAt == RequestExpiry(request)
    ensures RequestRecord(request, actor, now).value.createdAt == now
  {
    hide IsIdentifier, IsAuditText, Trim;
  }

  /** A retried revoke keeps its key, identity and request hash, whatever its time.  So after its commit it
      is answered with the original snapshot exactly between the request's opening and its expiry; from
      the expiry on it fails, although the commit stands. */
  lemma RetriedRevokeIsReplayed(codec: Codec, log: LedgerLog, n: nat, request: RevokeRequest,
                                mutation: MutationIdentity, now: U64, later: U64)
    requires LegalLog(AuthorityRule(codec), log) && n < |log|
    requires PrepareRevoke(codec, request, mutation, now).Ok?
    requires (log[n].key, log[n].cause) == PrepareRevoke(codec, request, mutation, now).value
    ensures log[n].cause.RevokedBy? && log[n].cause.record.expiresAt == RequestExpiry(request)
    ensures var retry := PrepareRevoke(codec, request, mutation, later);
      && (retry.Ok? <==> RequestOpens(request) <= later < RequestExpiry(request))
      && (now <= later ==> (retry.Ok? <==> later < RequestExpiry(request)))
      && (RequestExpiry(request) <= later ==> retry == Err(Contract(InvalidWindow)))
      && (retry.Ok? ==> retry.value.0 == log[n].key)
      && (retry.Ok? ==> Pass(codec, log[n].key, retry.value.1, Current(log, log[n].key)) == Reply(SnapshotAt(log[n].after, now)))
  {
    hide ValidateMutation, SelectorKey, RequestRecord, RequestOpens, RequestExpiry, MutationHash, RevokeHash, TargetKey, LegalLog, Pass, SnapshotAt, Current;
    RecordCanBeMadeExactlyWhen(request, mutation.actor, now, now);
    RecordCanBeMadeExactlyWhen(request, mutation.actor, now, later);
    var retry := PrepareRevoke(codec, request, mutation, later);
    if retry.Ok? {
      CommittedOnce(codec, log, n, retry.value.1);
    }
  }

  // ---------------------------------------------------------------- what the request hash tells apart

  /** The same request, up to space around the reason and to the scopes of the claims. */
  predicate SameRevoke(a: RevokeRequest, b: RevokeRequest) {
    && Trim(a.reason) == Trim(b.reason)
    && match (a, b)
       case (TokenRequest(c, _), TokenRequest(d, _)) => SameIdentity(c, d) && c.iat == d.iat && c.exp == d.exp
       case (SubjectRequest(tenant, subject, expiresAt, _), SubjectRequest(tenant', subject', expiresAt', _)) =>
         tenant == tenant' && subject == subject' && expiresAt == expiresAt'
       case _ => false
  }

  predicate SameLift(a: LiftRequest, b: LiftRequest) {
    a.tenantId == b.tenantId && a.target == b.target && Trim(a.reason) == Trim(b.reason)
  }

  /** The preimages of two digests do not collide, and fit in memory. */
  ghost predicate PartsApart(sha: Sha256, ps: seq<string>, qs: seq<string>) {
    && Addressable(TextParts(ps)) && Addressable(TextParts(qs))
    && CollisionFree(sha, {Frame(TextParts(ps)), Frame(TextParts(qs))})
  }

  lemma RevokePartsInjective(a: RevokeRequest, b: RevokeRequest)
    ensures RevokeParts(a) == RevokeParts(b) <==> SameRevoke(a, b)
  {
    hide Trim, Decimal;
    var p, q := RevokeParts(a), RevokeParts(b);
    match (a, b)
    case (TokenRequest(c, _), TokenRequest(d, _)) =>
      DecimalInjective(c.iat, d.iat);
      DecimalInjective(c.exp, d.exp);
      if p == q {
        assert p[2] == q[2] && p[3] == q[3] && p[4] == q[4] && p[5] == q[5] && p[6] == q[6];
        assert p[7] == q[7] && p[8] == q[8] && p[9] == q[9];
      }
    case (SubjectRequest(_, _, expiresAt, _), SubjectRequest(_, _, expiresAt', _)) =>
      DecimalInjective(expiresAt, expiresAt');
      if p == q {
        assert p[2] == q[2] && p[3] == q[3] && p[4] == q[4] && p[5] == q[5];
      }
    case _ =>
      assert |p| != |q|;
  }

  /** Two revoke requests have one hash exactly when they are the same request. */
  lemma RevokeHashTellsApart(sha: Sha256, a: RevokeRequest, b: RevokeRequest)
    requires PartsApart(sha, RevokeParts(a), RevokeParts(b))
    ensures RevokeHash(sha, a) == RevokeHash(sha, b) <==> SameRevoke(a, b)
  {
    hide RevokeParts, SameRevoke, DigestText;
    RevokePartsInjective(a, b);
    if RevokeHash(sha, a) == RevokeHash(sha, b) {
      DigestTextInjective(sha, RevokeParts(a), RevokeParts(b));
    }
  }

  lemma LiftHashTellsApart(sha: Sha256, a: LiftRequest, b: LiftRequest)
    requires PartsApart(sha, LiftParts(a), LiftParts(b))
    ensures LiftHash(sha, a) == LiftHash(sha, b) <==> SameLift(a, b)
  {
    hide Trim, DigestText;
    var p, q := LiftParts(a), LiftParts(b);
    if LiftHash(sha, a) == LiftHash(sha, b) {
      DigestTextInjective(sha, p, q);
    }
    if p == q {
      assert p[1] == q[1] && p[2] == q[2] && p[3] == q[3] && p[4] == q[4];
      assert "token_id"[0] != "subject"[0];
    }
  }

  /** After a revoke's commit, a request under the same identity is answered with the original snapshot
      exactly when it is the same request, and conflicts otherwise. */
  lemma SameIdentityDecidesByRequest(codec: Codec, log: LedgerLog, n: nat, request: RevokeRequest, other: RevokeRequest,
                                     mutation: MutationIdentity, now: U64, later: U64)
    requires LegalLog(AuthorityRule(codec), log) && n < |log|
    requires PrepareRevoke(codec, request, mutation, now).Ok? && PrepareRevoke(codec, other, mutation, later).Ok?
    requires (log[n].key, log[n].cause) == PrepareRevoke(codec, request, mutation, now).value
    requires PrepareRevoke(codec, other, mutation, later).value.0 == log[n].key
    requires PartsApart(codec.sha, RevokeParts(request), RevokeParts(other))
    ensures Pass(codec, log[n].key, PrepareRevoke(codec, other, mutation, later).value.1, Current(log, log[n].key)) ==
      if SameRevoke(request, other) then Reply(SnapshotAt(log[n].after, now)) else Fail(IdempotencyConflict)
  {
    hide ValidateMutation, SelectorKey, RequestRecord, MutationHash, RevokeHash, LegalLog, Pass, SnapshotAt, PartsApart, RevokeParts, SameRevoke, Current, StorageKey;
    RevokeHashTellsApart(codec.sha, request, other);
    CommittedOnce(codec, log, n, PrepareRevoke(codec, other, mutation, later).value.1);
    RecordCanBeMadeExactlyWhen(request, mutation.actor, now, now);
  }

  lemma SameIdentityDecidesByLift(codec: Codec, log: LedgerLog, n: nat, request: LiftRequest, other: LiftRequest,
                                  mutation: MutationIdentity, now: U64, later: U64)
    requires LegalLog(AuthorityRule(codec), log) && n < |log|
    requires PrepareLift(codec, request, mutation, now).Ok? && PrepareLift(codec, other, mutation, later).Ok?
    requires (log[n].key, log[n].cause) == PrepareLift(codec, request, mutation, now).value
    requires PrepareLift(codec, other, mutation, later).value.0 == log[n].key
    requires PartsApart(codec.sha, LiftParts(request), LiftParts(other))
    ensures Pass(codec, log[n].key, PrepareLift(codec, other, mutation, later).value.1, Current(log, log[n].key)) ==
      if SameLift(request, other) then Reply(SnapshotAt(log[n].after, now)) else Fail(IdempotencyConflict)
  {
    hide ValidateMutation, SelectorKey, MutationHash, LiftHash, LegalLog, Pass, SnapshotAt, PartsApart, LiftParts, SameLift, Current;
    LiftHashTellsApart(codec.sha, request, other);
    CommittedOnce(codec, log, n, PrepareLift(codec, other, mutation, later).value.1);
  }

  function TargetParts(issuer: string, audience: string, tenantId: string, target: Target): seq<string> {
    [issuer, audience, tenantId, TargetKind(target), TargetValue(target)]
  }

  /** Two targets share a ledger exactly when issuer, audience, tenant, kind and value agree. */
  lemma TargetKeysTellApart(sha: Sha256, issuer: string, audience: string, tenantId: string, target: Target,
                            issuer': string, audience': string, tenantId': string, target': Target)
    requires PartsApart(sha, TargetParts(issuer, audience, tenantId, target), TargetParts(issuer', audience', tenantId', target'))
    ensures TargetKey(sha, issuer, audience, tenantId, target) == TargetKey(sha, issuer', audience', tenantId', target') <==>
      issuer == issuer' && audience == audience' && tenantId == tenantId' && target == target'
  {
    hide DigestText;
    var p, q := TargetParts(issuer, audience, tenantId, target), TargetParts(issuer', audience', tenantId', target');
    var k, l := TargetKey(sha, issuer, audience, tenantId, target), TargetKey(sha, issuer', audience', tenantId', target');
    if k == l {
      assert DigestText(sha, p) == k[|KEY_PREFIX|..] && DigestText(sha, q) == l[|KEY_PREFIX|..];
      DigestTextInjective(sha, p, q);
      assert p[0] == q[0] && p[1] == q[1] && p[2] == q[2] && p[3] == q[3] && p[4] == q[4];
      assert "token_id"[0] != "subject"[0];
    }
  }

  /** Two mutations have one identity exactly when action, target, actor and idempotency key agree, the last
      two trimmed. */
  lemma MutationHashTellsApart(sha: Sha256, action: string, key: string, m: MutationIdentity,
                               action': string, key': string, m': MutationIdentity)
    requires PartsApart(sha, [action, key, Trim(m.actor), Trim(m.idempotencyKey)], [action', key', Trim(m'.actor), Trim(m'.idempotencyKey)])
    ensures MutationHash(sha, action, key, m) == MutationHash(sha, action', key', m') <==>
      && action == action' && key == key'
      && Trim(m.actor) == Trim(m'.actor) && Trim(m.idempotencyKey) == Trim(m'.idempotencyKey)
  {
    hide Trim, DigestText;
    var p, q := [action, key, Trim(m.actor), Trim(m.idempotencyKey)], [action', key', Trim(m'.actor), Trim(m'.idempotencyKey)];
    if MutationHash(sha, action, key, m) == MutationHash(sha, action', key', m') {
      DigestTextInjective(sha, p, q);
      assert p[0] == q[0] && p[1] == q[1] && p[2] == q[2] && p[3] == q[3];
    }
  }

  // ---------------------------------------------------------------- what a new request comes to

  /** No commit to the target carries this identity. */
  predicate IsNew(log: LedgerLog, key: string, idempotencyHash: string) {
    forall n | 0 <= n < |log| && log[n].key == key :: log[n].cause.idempotencyHash != idempotencyHash
  }

  lemma PositionAfterPush(events: seq<RevocationLedger.Event>, e: RevocationLedger.Event, idempotencyHash: string)
    ensures Position(events + [e], idempotencyHash).None? <==>
      Position(events, idempotencyHash).None? && e.idempotencyHash != idempotencyHash
  {
    assert (events + [e])[|events|] == e;
    assert forall i | 0 <= i < |events| :: (events + [e])[i] == events[i];
  }

  lemma {:induction false} NewIsUnstored(codec: Codec, log: LedgerLog, key: string, idempotencyHash: string)
    requires LegalLog(AuthorityRule(codec), log)
    ensures IsNew(log, key, idempotencyHash) <==>
      (Current(log, key).Some? ==> Position(Current(log, key).value.events, idempotencyHash).None?)
  {
    hide LegalLog, Allows, Position, ValidLedger;
    if log != [] {
      var n := |log| - 1;
      LegalPrefix(AuthorityRule(codec), log, n);
      NewIsUnstored(codec, log[..n], key, idempotencyHash);
      assert IsNew(log, key, idempotencyHash) <==>
        IsNew(log[..n], key, idempotencyHash) && (log[n].key == key ==> log[n].cause.idempotencyHash != idempotencyHash);
      if log[n].key == key {
        HistoryIsAppendOnly(codec, log, n);
        var earlier := if log[n].before.Some? then log[n].before.value.events else [];
        assert log[n].after.events == earlier + [log[n].after.events[|earlier|]];
        PositionAfterPush(earlier, log[n].after.events[|earlier|], idempotencyHash);
        NothingInNothing(idempotencyHash);
      }
    }
  }

  lemma NothingInNothing(idempotencyHash: string)
    ensures Position([], idempotencyHash).None?
  {
  }

  /** Against any history, a revoke under a new identity commits exactly when the target has had fewer than
      32 commits and none later than the record's time. */
  lemma RevokeDecidesByHistory(codec: Codec, log: LedgerLog, key: string, record: Record, idempotencyHash: string, requestHash: string)
    requires LegalLog(AuthorityRule(codec), log) && Validate(record).Ok? && StorageKey(codec.sha, record) == key
    requires IsLowerHex(idempotencyHash, 64) && IsLowerHex(requestHash, 64) && IsNew(log, key, idempotencyHash)
    ensures var d := Pass(codec, key, RevokedBy(record, idempotencyHash, requestHash), Current(log, key));
      && (d.Write? <==> CommitCount(log, key) < MAX_TRANSITIONS_PER_TARGET && LastTime(Current(log, key)) <= record.createdAt)
      && (CommitCount(log, key) >= MAX_TRANSITIONS_PER_TARGET ==> d == Fail(TransitionLimit))
  {
    hide LegalLog, Allows, Position, ValidLedger, CommitCount, Validate, StorageKey, IsLowerHex, WithRevoke, Current;
    StoredIsLoadable(codec, log, key);
    NewIsUnstored(codec, log, key, idempotencyHash);
    GenerationCountsCommits(codec, log, key);
    if Current(log, key).Some? {
      var l := Current(log, key).value;
      ValidFacts(codec, l);
      RevokeAppendsExactlyWhen(codec, l, record, idempotencyHash, requestHash);
      if |l.events| >= MAX_TRANSITIONS_PER_TARGET {
        FullFails(codec, l, record, idempotencyHash, requestHash);
      }
      NewReplaysNothing(l, idempotencyHash, requestHash);
      ValidIsNonempty(codec, l);
    } else {
      FirstRevoke(codec, key, record, idempotencyHash, requestHash);
    }
  }

  /** The time of a ledger's last event; 0 when there is none. */
  function LastTime(stored: Option<Ledger>): U64 {
    if stored.Some? && stored.value.events != [] then At(stored.value.events[|stored.value.events| - 1].action) else 0
  }

  lemma ValidIsNonempty(codec: Codec, l: Ledger)
    requires ValidLedger(codec, l)
    ensures l.events != []
  {
  }

  lemma FullFails(codec: Codec, l: Ledger, record: Record, idempotencyHash: string, requestHash: string)
    requires Generation(l) < U64_MAX && |l.events| >= MAX_TRANSITIONS_PER_TARGET
    ensures WithRevoke(codec, l, record, idempotencyHash, requestHash) == Err(TransitionLimit)
  {
  }

  lemma NewReplaysNothing(l: Ledger, idempotencyHash: string, requestHash: string)
    requires Position(l.events, idempotencyHash).None?
    ensures Replay(l, idempotencyHash, requestHash) == Ok(None)
  {
  }

  /** A lift under a new identity commits exactly when the target's last commit was a revoke still active at
      its time and there is room; otherwise it says which of these failed. */
  lemma LiftDecidesByHistory(codec: Codec, log: LedgerLog, key: string, actor: string, reason: string, at: U64,
                             idempotencyHash: string, requestHash: string)
    requires LegalLog(AuthorityRule(codec), log) && IsAuditText(actor, 128) && IsAuditText(reason, 256)
    requires IsLowerHex(idempotencyHash, 64) && IsLowerHex(requestHash, 64) && IsNew(log, key, idempotencyHash)
    ensures var d := Pass(codec, key, LiftedBy(actor, reason, at, idempotencyHash, requestHash), Current(log, key));
      var stored := Current(log, key); var count := CommitCount(log, key);
      && (d == Fail(NotFound) <==> count == 0)
      && (d == Fail(TransitionLimit) <==> count >= MAX_TRANSITIONS_PER_TARGET)
      && (d == Fail(NotActive) <==> 0 < count < MAX_TRANSITIONS_PER_TARGET && !ActiveAt(stored, at))
      && (d.Write? <==> 0 < count < MAX_TRANSITIONS_PER_TARGET && ActiveAt(stored, at))
  {
    hide LegalLog, Allows, Position, ValidLedger, CommitCount, IsAuditText, IsLowerHex, Current, IsActiveAt;
    StoredIsLoadable(codec, log, key);
    NewIsUnstored(codec, log, key, idempotencyHash);
    GenerationCountsCommits(codec, log, key);
    if Current(log, key).Some? {
      var l := Current(log, key).value;
      ValidFacts(codec, l);
      ValidIsNonempty(codec, l);
      LiftAppendsExactlyWhen(codec, l, actor, reason, at, idempotencyHash, requestHash);
      NewReplaysNothing(l, idempotencyHash, requestHash);
    }
  }

  predicate ActiveAt(stored: Option<Ledger>, at: U64) {
    stored.Some? && CurrentRecord(stored.value.events).Some? && IsActiveAt(CurrentRecord(stored.value.events).value, at)
  }
}
