/**
 The revocation authority: revoke and lift as retry loops over the store, and the two-key check.
 Its rule says which commits these loops may make; what holds of every log under the rule holds
 over every interleaving of revokers and lifters.
 */
module RevocationAuthority {
  import opened Numbers
  import opened Text
  import opened Digest
  import opened VersionedStore
  import opened RevocationRecord
  import opened RevocationLedger
  import opened LedgerProperties

  datatype RevokeRequest =
    | TokenRequest(claims: Claims, reason: string)
    | SubjectRequest(tenantId: string, subject: string, expiresAt: U64, reason: string)

  datatype LiftRequest = LiftRequest(tenantId: string, target: Target, reason: string)

  datatype MutationIdentity = MutationIdentity(actor: string, idempotencyKey: string)

  function RequestTenant(request: RevokeRequest): string {
    if request.TokenRequest? then request.claims.orgId else request.tenantId
  }

  function RequestTarget(request: RevokeRequest): Target {
    if request.TokenRequest? then TokenId(request.claims.jti) else Subject(request.subject)
  }

  /** The selector's storage key, from the identities as given: they are checked trimmed, but not trimmed. */
  function SelectorKey(sha: Sha256, tenantId: string, target: Target): Result<string, RevocationError> {
    if !IsIdentifier(tenantId) then Err(InvalidMutation("tenant_id"))
    else if !IsIdentifier(TargetValue(target)) then Err(InvalidMutation(TargetKind(target)))
    else Ok(TargetKey(sha, ISSUER, AUDIENCE, tenantId, target))
  }

  function ValidateInternalClaims(claims: Claims): Result<(), RevocationError> {
    if claims.iss != ISSUER || claims.aud != AUDIENCE then Err(InvalidClaims)
    else if !IsIdentifier(claims.orgId) then Err(InvalidMutation("tenant_id"))
    else if !IsIdentifier(claims.sub) then Err(InvalidMutation("subject"))
    else if !IsIdentifier(claims.jti) then Err(InvalidMutation("jti"))
    else if claims.exp <= claims.iat || claims.exp - claims.iat > MAX_ACCESS_TOKEN_TTL_SECS then Err(InvalidClaims)
    else Ok(())
  }

  function MapContract(r: Result<Record, RecordError>): Result<Record, RevocationError> {
    match r
    case Ok(record) => Ok(record)
    case Err(e) => Err(Contract(e))
  }

  function RequestRecord(request: RevokeRequest, actor: string, now: U64): Result<Record, RevocationError> {
    match request
    case TokenRequest(claims, reason) =>
      var _ :- ValidateInternalClaims(claims);
      MapContract(ForToken(claims, reason, actor, now))
    case SubjectRequest(tenantId, subject, expiresAt, reason) =>
      MapContract(ForSubject(tenantId, subject, reason, actor, now, expiresAt))
  }

  /** What a revoke's request hash covers: all of the request but the claims' scopes, the reason trimmed. */
  function RevokeParts(request: RevokeRequest): seq<string> {
    match request
    case TokenRequest(c, reason) =>
      ["revoke", "token_id", c.iss, c.aud, c.orgId, c.sub, c.jti, Decimal(c.iat), Decimal(c.exp), Trim(reason)]
    case SubjectRequest(tenantId, subject, expiresAt, reason) =>
      ["revoke", "subject", tenantId, subject, Decimal(expiresAt), Trim(reason)]
  }

  function RevokeHash(sha: Sha256, request: RevokeRequest): (h: string)
    ensures IsLowerHex(h, 64)
  {
    DigestText(sha, RevokeParts(request))
  }

  function LiftParts(request: LiftRequest): seq<string> {
    ["lift", TargetKind(request.target), request.tenantId, TargetValue(request.target), Trim(request.reason)]
  }

  function LiftHash(sha: Sha256, request: LiftRequest): (h: string)
    ensures IsLowerHex(h, 64)
  {
    DigestText(sha, LiftParts(request))
  }

  function ValidateMutation(m: MutationIdentity): Result<(), RevocationError> {
    var key := Trim(m.idempotencyKey);
    if !IsAuditText(m.actor, 128) then Err(InvalidMutation("actor"))
    else if key == "" || |Utf8(key)| > 128 || !NoControl(key) || !NoWhitespace(key) then Err(InvalidMutation("idempotency_key"))
    else Ok(())
  }

  function MutationHash(sha: Sha256, action: string, key: string, m: MutationIdentity): (h: string)
    ensures IsLowerHex(h, 64)
  {
    DigestText(sha, [action, key, Trim(m.actor), Trim(m.idempotencyKey)])
  }

  // ---------------------------------------------------------------- one pass of each loop

  /** `load_ledger`: what is stored must validate and sit at its own key. */
  predicate Loadable(codec: Codec, l: Ledger, key: string) {
    ValidLedger(codec, l) && l.storageKey == key
  }

  type LedgerDecision = Decision<Ledger, Snapshot, RevocationError>

  function OrReplay(l: Ledger, idempotencyHash: string, requestHash: string, appended: Result<Ledger, RevocationError>, now: U64)
    : LedgerDecision
  {
    match Replay(l, idempotencyHash, requestHash)
    case Err(e) => Fail(e)
    case Ok(Some(snapshot)) => Reply(snapshot)
    case Ok(None) => if appended.Err? then Fail(appended.error) else Write(appended.value, SnapshotAt(appended.value, now))
  }

  function RevokePass(codec: Codec, key: string, record: Record, idempotencyHash: string, requestHash: string, stored: Option<Ledger>)
    : LedgerDecision
  {
    match stored
    case None =>
      var created := NewLedger(codec, key, record, idempotencyHash, requestHash);
      if created.Err? then Fail(created.error) else Write(created.value, SnapshotAt(created.value, record.createdAt))
    case Some(l) =>
      if !Loadable(codec, l, key) then Fail(InvalidLedger)
      else
        ValidFacts(codec, l);
        OrReplay(l, idempotencyHash, requestHash, WithRevoke(codec, l, record, idempotencyHash, requestHash), record.createdAt)
  }

  function LiftPass(codec: Codec, key: string, actor: string, reason: string, at: U64, idempotencyHash: string, requestHash: string,
                    stored: Option<Ledger>): LedgerDecision
  {
    match stored
    case None => Fail(NotFound)
    case Some(l) =>
      if !Loadable(codec, l, key) then Fail(InvalidLedger)
      else
        ValidFacts(codec, l);
        OrReplay(l, idempotencyHash, requestHash, WithLift(codec, l, actor, reason, at, idempotencyHash, requestHash), at)
  }

  /** Which request made a commit. */
  datatype Cause =
    | RevokedBy(record: Record, idempotencyHash: string, requestHash: string)
    | LiftedBy(actor: string, reason: string, at: U64, idempotencyHash: string, requestHash: string)

  type LedgerCommit = Commit<string, Ledger, Cause>
  type LedgerLog = seq<LedgerCommit>

  /** The pass that a cause stands for. */
  function Pass(codec: Codec, key: string, cause: Cause, stored: Option<Ledger>): LedgerDecision {
    match cause
    case RevokedBy(record, idempotencyHash, requestHash) => RevokePass(codec, key, record, idempotencyHash, requestHash, stored)
    case LiftedBy(actor, reason, at, idempotencyHash, requestHash) =>
      LiftPass(codec, key, actor, reason, at, idempotencyHash, requestHash, stored)
  }

  function CauseTime(cause: Cause): U64 {
    if cause.RevokedBy? then cause.record.createdAt else cause.at
  }

  predicate Allows(codec: Codec, prefix: LedgerLog, c: LedgerCommit) {
    var d := Pass(codec, c.key, c.cause, c.before);
    d.Write? && d.next == c.after
  }

  function AuthorityRule(codec: Codec): Rule<string, Ledger, Cause> {
    (prefix, c) => Allows(codec, prefix, c)
  }

  // ---------------------------------------------------------------- every interleaving

  /** The event that a request is owed: the very record, or the lift with its texts trimmed. */
  function ActionOf(cause: Cause): Action {
    match cause
    case RevokedBy(record, _, _) => Revoke(record)
    case LiftedBy(actor, reason, at, _, _) => Lift(Trim(actor), Trim(reason), at)
  }

  ghost predicate Extends(codec: Codec, before: Option<Ledger>, after: Ledger, cause: Cause) {
    && ValidLedger(codec, after)
    && var earlier := if before.Some? then before.value.events else [];
    && |after.events| == |earlier| + 1
    && earlier == after.events[..|earlier|]
    && var e := after.events[|earlier|];
    && e.idempotencyHash == cause.idempotencyHash
    && e.requestHash == cause.requestHash
    && e.action == ActionOf(cause)
    && (before.Some? ==> ValidLedger(codec, before.value) && before.value.storageKey == after.storageKey)
  }

  lemma WriteExtends(codec: Codec, key: string, cause: Cause, stored: Option<Ledger>)
    requires Pass(codec, key, cause, stored).Write?
    ensures var d := Pass(codec, key, cause, stored);
      && Extends(codec, stored, d.next, cause)
      && d.next.storageKey == key
      && d.reply == SnapshotAt(d.next, CauseTime(cause))
  {
    hide ValidLedger, Replay, SnapshotAt, IsAuditText, IsActiveAt, EventHash, StorageKey;
    var next := Pass(codec, key, cause, stored).next;
    match stored
    case None =>
      assert next.events[..0] == [];
    case Some(l) =>
      assert next.events[..|l.events|] == l.events;
  }

  /** Every commit of every interleaving extends the ledger it was made on by exactly one event, and
      the result validates: at most 32 events, numbered from 1, generation one higher. */
  lemma HistoryIsAppendOnly(codec: Codec, log: LedgerLog, n: nat)
    requires LegalLog(AuthorityRule(codec), log) && n < |log|
    ensures var c := log[n];
      && c.before == Current(log[..n], c.key)
      && Extends(codec, c.before, c.after, c.cause)
      && c.after.storageKey == c.key
      && |c.after.events| <= MAX_TRANSITIONS_PER_TARGET
      && Generation(c.after) == (if c.before.Some? then Generation(c.before.value) else 0) + 1
  {
    var c := log[n];
    assert AuthorityRule(codec)(log[..n], c);
    WriteExtends(codec, c.key, c.cause, c.before);
    ValidFacts(codec, c.after);
    if c.before.Some? {
      ValidFacts(codec, c.before.value);
    }
  }

  /** What one commit leaves: the record of its revoke, in force, and answered with that record's own
      expiry; or, after a lift, no record. */
  lemma CommitTakesEffect(codec: Codec, log: LedgerLog, n: nat)
    requires LegalLog(AuthorityRule(codec), log) && n < |log|
    ensures var c := log[n]; var d := Pass(codec, c.key, c.cause, c.before);
      && d.Write? && d.next == c.after
      && |c.after.events| > 0 && c.after.events[|c.after.events| - 1].action == ActionOf(c.cause)
      && d.reply.storageKey == c.key && d.reply.generation == Generation(c.after)
      && (c.cause.RevokedBy? ==>
            && CurrentRecord(c.after.events) == Some(c.cause.record)
            && d.reply.status == Active && d.reply.expiresAt == Some(c.cause.record.expiresAt))
      && (c.cause.LiftedBy? ==>
            && CurrentRecord(c.after.events).None? && d.reply.status == Lifted
            && c.before.Some? && CurrentRecord(c.before.value.events).Some?
            && d.reply.expiresAt == Some(CurrentRecord(c.before.value.events).value.expiresAt))
  {
    hide LegalLog, ValidLedger, Pass, Trim;
    HistoryIsAppendOnly(codec, log, n);
    LegalAt(AuthorityRule(codec), log, n);
    WriteExtends(codec, log[n].key, log[n].cause, log[n].before);
    SnapshotAfterCommit(codec, log[n].after);
    if log[n].cause.LiftedBy? {
      LiftedRecord(codec, log[n].key, log[n].cause, log[n].before);
      LatestBeforeLift(log[n].before.value.events, log[n].after.events);
    }
  }

  lemma LiftedRecord(codec: Codec, key: string, cause: Cause, stored: Option<Ledger>)
    requires cause.LiftedBy? && Pass(codec, key, cause, stored).Write?
    ensures stored.Some? && stored.value.events != [] && CurrentRecord(stored.value.events).Some?
  {
    hide ValidLedger, Replay, IsAuditText, IsActiveAt, EventHash, Trim;
  }

  lemma LatestBeforeLift(before: seq<RevocationLedger.Event>, after: seq<RevocationLedger.Event>)
    requires before != [] && |after| == |before| + 1 && before == after[..|before|]
    requires after[|before|].action.Lift? && CurrentRecord(before).Some?
    ensures LatestExpiry(after) == Some(CurrentRecord(before).value.expiresAt)
  {
  }

  lemma {:induction false} StoredIsLoadable(codec: Codec, log: LedgerLog, key: string)
    requires LegalLog(AuthorityRule(codec), log)
    ensures Current(log, key).Some? ==> Loadable(codec, Current(log, key).value, key)
  {
    if log != [] {
      var n := |log| - 1;
      HistoryIsAppendOnly(codec, log, n);
      LegalPrefix(AuthorityRule(codec), log, n);
      StoredIsLoadable(codec, log[..n], key);
    }
  }

  lemma LastCommitGrows(codec: Codec, log: LedgerLog, key: string)
    requires LegalLog(AuthorityRule(codec), log) && log != [] && Current(log[..|log| - 1], key).Some?
    ensures Current(log, key).Some? && Current(log[..|log| - 1], key).value.events <= Current(log, key).value.events
  {
    hide ValidLedger, LegalLog;
    HistoryIsAppendOnly(codec, log, |log| - 1);
  }

  /** What was once stored for a target stays, as the front of whatever is stored later. */
  lemma {:induction false} StoredOnlyGrows(codec: Codec, log: LedgerLog, n: nat, key: string)
    requires LegalLog(AuthorityRule(codec), log) && n <= |log| && Current(log[..n], key).Some?
    ensures Current(log, key).Some?
    ensures Current(log[..n], key).value.events <= Current(log, key).value.events
  {
    hide ValidLedger, LegalLog, Current;
    if n == |log| {
      assert log[..n] == log;
    } else {
      var last := |log| - 1;
      LegalPrefix(AuthorityRule(codec), log, last);
      assert log[..last][..n] == log[..n];
      StoredOnlyGrows(codec, log[..last], n, key);
      LastCommitGrows(codec, log, key);
    }
  }

  /** A target's generation is the number of commits ever made to it, so it rises by one per commit. */
  lemma {:induction false} GenerationCountsCommits(codec: Codec, log: LedgerLog, key: string)
    requires LegalLog(AuthorityRule(codec), log)
    ensures CommitCount(log, key) == match Current(log, key) case None => 0 case Some(l) => Generation(l)
  {
    if log != [] {
      var n := |log| - 1;
      LegalPrefix(AuthorityRule(codec), log, n);
      GenerationCountsCommits(codec, log[..n], key);
      HistoryIsAppendOnly(codec, log, n);
    }
  }

  lemma PassReplays(codec: Codec, l: Ledger, key: string, cause: Cause)
    requires Loadable(codec, l, key)
    ensures Replay(l, cause.idempotencyHash, cause.requestHash).Err? ==>
      Pass(codec, key, cause, Some(l)) == Fail(Replay(l, cause.idempotencyHash, cause.requestHash).error)
    ensures var r := Replay(l, cause.idempotencyHash, cause.requestHash);
      r.Ok? && r.value.Some? ==> Pass(codec, key, cause, Some(l)) == Reply(r.value.value)
  {
  }

  /** Exactly once, over every interleaving: after a commit, any pass under the same identity and the
      same request, made whenever and at whatever time, writes nothing and gives the commit's own
      answer; under the same identity and another request it conflicts. */
  lemma CommittedOnce(codec: Codec, log: LedgerLog, n: nat, retry: Cause)
    requires LegalLog(AuthorityRule(codec), log) && n < |log|
    requires retry.idempotencyHash == log[n].cause.idempotencyHash
    ensures var c := log[n];
      Pass(codec, c.key, retry, Current(log, c.key)) ==
        if retry.requestHash == c.cause.requestHash then Reply(SnapshotAt(c.after, CauseTime(c.cause))) else Fail(IdempotencyConflict)
  {
    hide ValidLedger, Replay, Pass, SnapshotAt, LegalLog;
    var c := log[n];
    HistoryIsAppendOnly(codec, log, n);
    assert Current(log[..n + 1], c.key) == Some(c.after);
    StoredOnlyGrows(codec, log, n + 1, c.key);
    StoredIsLoadable(codec, log, c.key);
    var later := Current(log, c.key).value;
    ReplayIsExact(codec, c.after, later, retry.requestHash);
    PassReplays(codec, later, c.key, retry);
  }

  /** No two commits to one target ever carry the same identity. */
  lemma IdentitiesNeverRepeat(codec: Codec, log: LedgerLog, n: nat, m: nat)
    requires LegalLog(AuthorityRule(codec), log) && n < m < |log| && log[n].key == log[m].key
    ensures log[n].cause.idempotencyHash != log[m].cause.idempotencyHash
  {
    assert AuthorityRule(codec)(log[..m], log[m]);
    LegalPrefix(AuthorityRule(codec), log, m);
    if log[n].cause.idempotencyHash == log[m].cause.idempotencyHash {
      CommittedOnce(codec, log[..m], n, log[m].cause);
    }
  }

  // ---------------------------------------------------------------- check

  datatype MatchedTarget = MatchedTokenId | MatchedSubject

  datatype CheckDecision = CheckDecision(revoked: bool, matched: Option<MatchedTarget>, generation: Option<nat>, expiresAt: Option<U64>)

  const NOT_REVOKED := CheckDecision(false, None, None, None)

  datatype Probe = Corrupt | Hit(decision: CheckDecision) | Clear

  /** One of the two reads of a check. */
  function ProbeTarget(codec: Codec, stored: Option<Ledger>, key: string, target: MatchedTarget, claims: Claims, now: nat): Probe {
    match stored
    case None => Clear
    case Some(l) =>
      if !Loadable(codec, l, key) then Corrupt
      else
        match CurrentRecord(l.events)
        case Some(record) =>
          if Matches(record, claims, now) then Hit(CheckDecision(true, Some(target), Some(Generation(l)), Some(record.expiresAt)))
          else Clear
        case None => Clear
  }

  function TokenKey(codec: Codec, claims: Claims): string {
    TargetKey(codec.sha, ISSUER, AUDIENCE, claims.orgId, TokenId(claims.jti))
  }

  function SubjectKey(codec: Codec, claims: Claims): string {
    TargetKey(codec.sha, ISSUER, AUDIENCE, claims.orgId, Subject(claims.sub))
  }

  /** The check, from the value each of its reads saw. */
  function Check(codec: Codec, tokenView: Option<Ledger>, subjectView: Option<Ledger>, claims: Claims, now: nat)
    : Result<CheckDecision, RevocationError>
  {
    var _ :- ValidateInternalClaims(claims);
    match ProbeTarget(codec, tokenView, TokenKey(codec, claims), MatchedTokenId, claims, now)
    case Corrupt => Err(InvalidLedger)
    case Hit(d) => Ok(d)
    case Clear =>
      match ProbeTarget(codec, subjectView, SubjectKey(codec, claims), MatchedSubject, claims, now)
      case Corrupt => Err(InvalidLedger)
      case Hit(d) => Ok(d)
      case Clear => Ok(NOT_REVOKED)
  }

  function View(stored: map<string, Ledger>, key: string): Option<Ledger> {
    if key in stored then Some(stored[key]) else None
  }

  /** The scan the index stands for: some ledger anywhere has a current record matching the claims. */
  ghost predicate ScanFinds(stored: map<string, Ledger>, claims: Claims, now: nat) {
    exists key | key in stored :: CurrentRecord(stored[key].events).Some? && Matches(CurrentRecord(stored[key].events).value, claims, now)
  }

  /** A record that matches the claims can only sit at one of the two keys the check reads. */
  lemma MatchingRecordIsIndexed(codec: Codec, l: Ledger, key: string, claims: Claims, now: nat)
    requires Loadable(codec, l, key) && CurrentRecord(l.events).Some? && Matches(CurrentRecord(l.events).value, claims, now)
    ensures key == if CurrentRecord(l.events).value.target.TokenId? then TokenKey(codec, claims) else SubjectKey(codec, claims)
  {
    hide ValidLedger, IsActiveAt, TargetKey;
    ValidFacts(codec, l);
  }

  /** In a store of valid ledgers the two-key check never errs on valid claims, and reports revoked
      exactly when the scan of the whole store would. */
  lemma IndexRefinesScan(codec: Codec, stored: map<string, Ledger>, claims: Claims, now: nat)
    requires forall key | key in stored :: Loadable(codec, stored[key], key)
    requires ValidateInternalClaims(claims).Ok?
    ensures var r := Check(codec, View(stored, TokenKey(codec, claims)), View(stored, SubjectKey(codec, claims)), claims, now);
      && r.Ok?
      && (r.value.revoked <==> ScanFinds(stored, claims, now))
  {
    hide ValidateInternalClaims, ValidLedger, IsActiveAt, Covers, TokenKey, SubjectKey;
    if ScanFinds(stored, claims, now) {
      var key :| key in stored && CurrentRecord(stored[key].events).Some? && Matches(CurrentRecord(stored[key].events).value, claims, now);
      MatchingRecordIsIndexed(codec, stored[key], key, claims, now);
    }
  }

  // ---------------------------------------------------------------- the store's operations

  type LedgerKv = KvClient<string, Ledger, Cause>

  datatype Failure = Rejected(error: RevocationError) | StoreFailed | CasRetriesExhausted

  class RevocationStore {
    const codec: Codec
    const kv: LedgerKv

    ghost predicate Valid()
      reads this, kv
    {
      kv.Valid() && kv.rule == AuthorityRule(codec)
    }

    constructor (codec: Codec, kv: LedgerKv)
      requires kv.Valid() && kv.rule == AuthorityRule(codec)
      ensures Valid() && this.codec == codec && this.kv == kv
    {
      this.codec := codec;
      this.kv := kv;
    }

    lemma PassIsJustified(key: string, cause: Cause, decide: Option<Ledger> -> LedgerDecision)
      requires Valid()
      requires forall v :: decide(v) == Pass(codec, key, cause, v)
      ensures Justified(kv.rule, kv.store.log, key, decide, cause)
    {
      forall v | decide(v).Write? ensures Allowed(kv.rule, kv.store.log, key, v, decide(v).next, cause) {
        forall log ensures kv.rule(log, Commit(key, v, decide(v).next, cause)) {
          assert Allows(codec, log, Commit(key, v, decide(v).next, cause));
        }
      }
    }

    /** What a mutation's answer means: the pass on the ledger current at `at`; a write is the commit there. */
    ghost predicate Answers(log: LedgerLog, key: string, cause: Cause, r: Result<Snapshot, Failure>, at: nat)
      reads this
    {
      && at <= |log|
      && var d := Pass(codec, key, cause, Current(log[..at], key));
      && (r.Ok? ==> d == Reply(r.value) || Committed(log, key, d, r.value, cause, at))
      && (r.Err? && r.error.Rejected? ==> d == Fail(r.error.error))
    }

    method Mutate(key: string, cause: Cause) returns (r: Result<Snapshot, Failure>, ghost at: nat)
      requires Valid()
      modifies kv
      ensures Valid() && old(kv.store.log) <= kv.store.log
      ensures |old(kv.store.log)| <= at && Answers(kv.store.log, key, cause, r, at)
      ensures kv.Served(key, r == Err(StoreFailed), r == Err(CasRetriesExhausted), at)
    {
      var decide := stored => Pass(codec, key, cause, stored);
      PassIsJustified(key, cause, decide);
      var out;
      out, at := CasLoop(kv, key, decide, cause);
      match out
      case Failed(e) => r := Err(Rejected(e));
      case Replied(s) => r := Ok(s);
      case Wrote(s) => r := Ok(s);
      case Exhausted => r := Err(CasRetriesExhausted);
      case Unavailable => r := Err(StoreFailed);
    }

    /** Validation first, in the source's order; then the loop.  The record is rebuilt at the retry's own
        time before any replay, so a retry after expiry fails here. */
    method Revoke(request: RevokeRequest, mutation: MutationIdentity, now: U64)
      returns (r: Result<Snapshot, Failure>, ghost at: nat)
      requires Valid()
      modifies kv
      ensures Valid() && old(kv.store.log) <= kv.store.log
      ensures var prepared := PrepareRevoke(codec, request, mutation, now);
        && (prepared.Err? ==> r == Err(Rejected(prepared.error)) && kv.store == old(kv.store) && kv.script == old(kv.script))
        && (prepared.Ok? ==> |old(kv.store.log)| <= at && Answers(kv.store.log, prepared.value.0, prepared.value.1, r, at))
        && (prepared.Ok? ==> kv.Served(prepared.value.0, r == Err(StoreFailed), r == Err(CasRetriesExhausted), at))
    {
      at := |kv.store.log|;
      var prepared := PrepareRevoke(codec, request, mutation, now);
      if prepared.Err? {
        return Err(Rejected(prepared.error)), at;
      }
      r, at := Mutate(prepared.value.0, prepared.value.1);
    }

    method Lift(request: LiftRequest, mutation: MutationIdentity, now: U64)
      returns (r: Result<Snapshot, Failure>, ghost at: nat)
      requires Valid()
      modifies kv
      ensures Valid() && old(kv.store.log) <= kv.store.log
      ensures var prepared := PrepareLift(codec, request, mutation, now);
        && (prepared.Err? ==> r == Err(Rejected(prepared.error)) && kv.store == old(kv.store) && kv.script == old(kv.script))
        && (prepared.Ok? ==> |old(kv.store.log)| <= at && Answers(kv.store.log, prepared.value.0, prepared.value.1, r, at))
        && (prepared.Ok? ==> kv.Served(prepared.value.0, r == Err(StoreFailed), r == Err(CasRetriesExhausted), at))
    {
      at := |kv.store.log|;
      var prepared := PrepareLift(codec, request, mutation, now);
      if prepared.Err? {
        return Err(Rejected(prepared.error)), at;
      }
      r, at := Mutate(prepared.value.0, prepared.value.1);
    }

    /** Two reads, other replicas' commits in between. */
    method CheckClaims(claims: Claims, now: nat) returns (r: Result<CheckDecision, Failure>, ghost first: nat, ghost second: nat)
      requires Valid()
      modifies kv
      ensures Valid() && old(kv.store.log) <= kv.store.log
      ensures |old(kv.store.log)| <= first <= second <= |kv.store.log|
      ensures var c := Check(codec, Current(kv.store.log[..first], TokenKey(codec, claims)),
                             Current(kv.store.log[..second], SubjectKey(codec, claims)), claims, now);
        && (r.Ok? ==> c == Ok(r.value))
        && (r.Err? && r.error.Rejected? ==> c == Err(r.error.error))
      ensures Used(old(kv.script), kv.script, r == Err(StoreFailed)) && r != Err(CasRetriesExhausted)
      ensures old(kv.script) == [] ==> first == second == |old(kv.store.log)|
    {
      hide ValidateInternalClaims, ProbeTarget, TokenKey, SubjectKey, LegalLog, Observed, AfterOthers;
      NothingIsUsed(kv.script);
      hide Used;
      first, second := |kv.store.log|, |kv.store.log|;
      if ValidateInternalClaims(claims).Err? {
        return Err(Rejected(ValidateInternalClaims(claims).error)), first, second;
      }
      var token := kv.GetVersioned(TokenKey(codec, claims));
      first, second := |kv.store.log|, |kv.store.log|;
      if token.Err? {
        return Err(StoreFailed), first, second;
      }
      ghost var atFirst := kv.store.log;
      assert atFirst[..first] == atFirst;
      var tokenView := if token.value.Some? then Some(token.value.value.value) else None;
      var tokenProbe := ProbeTarget(codec, tokenView, TokenKey(codec, claims), MatchedTokenId, claims, now);
      if tokenProbe != Clear {
        return (if tokenProbe == Corrupt then Err(Rejected(InvalidLedger)) else Ok(tokenProbe.decision)), first, second;
      }
      ghost var left := kv.script;
      var subject := kv.GetVersioned(SubjectKey(codec, claims));
      UsedOn(old(kv.script), left, kv.script, subject.Err?);
      second := |kv.store.log|;
      if subject.Err? {
        return Err(StoreFailed), first, second;
      }
      assert kv.store.log[..first] == atFirst && kv.store.log[..second] == kv.store.log;
      var subjectView := if subject.value.Some? then Some(subject.value.value.value) else None;
      var subjectProbe := ProbeTarget(codec, subjectView, SubjectKey(codec, claims), MatchedSubject, claims, now);
      r := match subjectProbe
        case Corrupt => Err(Rejected(InvalidLedger))
        case Hit(d) => Ok(d)
        case Clear => Ok(NOT_REVOKED);
    }
  }

  /** Everything `revoke` does before its loop: the key, and the cause it will commit. */
  function PrepareRevoke(codec: Codec, request: RevokeRequest, mutation: MutationIdentity, now: U64)
    : Result<(string, Cause), RevocationError>
  {
    var _ :- ValidateMutation(mutation);
    var key :- SelectorKey(codec.sha, RequestTenant(request), RequestTarget(request));
    var record :- RequestRecord(request, mutation.actor, now);
    if StorageKey(codec.sha, record) != key then Err(InvalidMutation("target"))
    else Ok((key, RevokedBy(record, MutationHash(codec.sha, "revoke", key, mutation), RevokeHash(codec.sha, request))))
  }

  function PrepareLift(codec: Codec, request: LiftRequest, mutation: MutationIdentity, now: U64)
    : Result<(string, Cause), RevocationError>
  {
    var _ :- ValidateMutation(mutation);
    if !IsAuditText(request.reason, 256) then Err(InvalidMutation("reason"))
    else
      var key :- SelectorKey(codec.sha, request.tenantId, request.target);
      Ok((key, LiftedBy(mutation.actor, request.reason, now, MutationHash(codec.sha, "lift", key, mutation), LiftHash(codec.sha, request))))
  }
}
