/**
 Governance approval ceremonies: begin, a fenced claim that a newer token may take over, and one
 verified completion.  Whatever is stored is re-validated in full on every read.
 */
module Ceremony {
  import opened Numbers
  import opened Text
  import opened Digest
  import opened VersionedStore

  const CONTRACT_VERSION := "1.0"
  const OBJECT_KIND := "governance_webauthn_ceremony"
  const RESULT_KIND := "verified_governance_webauthn_assertion"
  const CHALLENGE_DOMAIN := "fiducia-governance-ceremony-v1\0"
  const MIN_TTL_MS := 60_000
  const MAX_TTL_MS := 900_000

  datatype ApprovalBinding = ApprovalBinding(
    tenantId: string, participantId: string, proposalId: string, canonicalProposalHash: string,
    policyId: string, policyVersion: U64, policyHash: string, continuityState: string, continuityGeneration: U64,
    rpId: string, origin: string, credentialGeneration: U64, activationCredentialId: Option<string>,
    createdAtMs: U64, expiresAtMs: U64)

  datatype Status = Pending | Claimed | Completed | Rejected | Expired

  datatype TerminalVerification = TerminalVerification(
    outcome: Status, reason: string, assertionReceiptHash: Option<string>, credentialId: Option<string>,
    credentialGeneration: Option<U64>, completedAtMs: U64, resultHash: string)

  datatype CeremonyRecord = CeremonyRecord(
    contractVersion: string, objectKind: string, ceremonyId: string, binding: ApprovalBinding, bindingHash: string,
    challengeHash: string, status: Status, claimId: Option<string>, fencingToken: U64, claimedAtMs: Option<U64>,
    terminal: Option<TerminalVerification>)

  /** The fields of the JSON object that a completion's result hash covers. */
  datatype Evidence = Evidence(
    contractVersion: string, objectKind: string, ceremonyId: string, tenantId: string, participantId: string,
    proposalId: string, canonicalProposalHash: string, policyId: string, policyVersion: U64, policyHash: string,
    continuityGeneration: U64, credentialId: string, credentialGeneration: U64, assertionReceiptHash: string,
    userVerified: bool, completedAtMs: U64)

  datatype CeremonyError =
    | Disabled | InvalidRequest | ProtectedState | NotFound | Conflict | Expired | StaleFencing | AlreadyClaimed
    | NotClaimed | ClaimMismatch | Unauthorized | CasRetriesExhausted | StoreFailed

  datatype Config = Config(enabled: bool, rpId: Option<string>, origin: Option<string>, allowedTenants: set<string>,
                           ttlMs: U64, ceremonySecret: Option<seq<Byte>>)

  /** The configuration all replicas share, and the primitives they call. */
  datatype Governance = Governance(config: Config, sha: Sha256, hmac: (seq<Byte>, seq<Byte>) -> Digest32,
                                   base64: Digest32 -> string, bindingJson: ApprovalBinding -> seq<Byte>,
                                   evidenceJson: Evidence -> seq<Byte>)

  // ---------------------------------------------------------------- identifiers and hashes

  predicate IsCeremonyIdentifier(s: string) {
    s != "" && |Utf8(s)| <= 160 && NoControl(s) && NoWhitespace(s)
  }

  predicate IsIdempotencyKey(s: string) {
    16 <= |Utf8(s)| <= 128 && NoControl(s) && NoWhitespace(s)
  }

  predicate IsCeremonyId(s: string) {
    "gcer_" <= s && IsLowerHex(s[5..], 64)
  }

  predicate IsHexChar(c: char) {
    IsLowerHexChar(c) || 'A' <= c <= 'F'
  }

  predicate IsSha256Urn(s: string) {
    "sha256:" <= s && |s| == 71 && forall i | 7 <= i < 71 :: IsHexChar(s[i])
  }

  predicate IsCanonicalUrn(s: string) {
    "sha256:" <= s && IsLowerHex(s[7..], 64)
  }

  function Sha256Urn(g: Governance, bytes: seq<Byte>): (s: string)
    ensures IsCanonicalUrn(s)
  {
    var s := "sha256:" + Hex(g.sha(bytes));
    assert s[7..] == Hex(g.sha(bytes));
    s
  }

  function CeremonyIdOf(g: Governance, q: BeginCall): (s: string)
    ensures IsCeremonyId(s)
  {
    var digest := DigestText(g.sha, [q.tenantId, q.participantId, q.proposalId, q.idempotencyKey]);
    var s := "gcer_" + digest;
    assert s[5..] == digest;
    s
  }

  function BindingHash(g: Governance, b: ApprovalBinding): (s: string)
    ensures IsCanonicalUrn(s)
  {
    Sha256Urn(g, g.bindingJson(b))
  }

  function DeriveChallenge(g: Governance, secret: seq<Byte>, ceremonyId: string, bindingHash: string): string {
    g.base64(g.hmac(secret, Utf8(CHALLENGE_DOMAIN) + Frame([Utf8(ceremonyId), Utf8(bindingHash)])))
  }

  function ChallengeHash(g: Governance, secret: seq<Byte>, ceremonyId: string, bindingHash: string): (s: string)
    ensures IsCanonicalUrn(s)
  {
    Sha256Urn(g, Utf8(DeriveChallenge(g, secret, ceremonyId, bindingHash)))
  }

  function EvidenceOf(r: CeremonyRecord, credentialId: string, generation: U64, receiptHash: string, completedAtMs: U64): Evidence {
    var b := r.binding;
    Evidence(CONTRACT_VERSION, RESULT_KIND, r.ceremonyId, b.tenantId, b.participantId, b.proposalId, b.canonicalProposalHash,
             b.policyId, b.policyVersion, b.policyHash, b.continuityGeneration, credentialId, generation, receiptHash, true, completedAtMs)
  }

  function ResultHash(g: Governance, e: Evidence): (s: string)
    ensures IsCanonicalUrn(s)
  {
    Sha256Urn(g, g.evidenceJson(e))
  }

  // ---------------------------------------------------------------- integrity of a stored record

  predicate BindingValid(b: ApprovalBinding) {
    && IsCeremonyIdentifier(b.tenantId) && IsCeremonyIdentifier(b.participantId) && IsCeremonyIdentifier(b.proposalId)
    && IsCeremonyIdentifier(b.policyId) && IsCeremonyIdentifier(b.continuityState)
    && IsCeremonyIdentifier(b.rpId) && IsCeremonyIdentifier(b.origin)
    && IsSha256Urn(b.canonicalProposalHash) && IsSha256Urn(b.policyHash)
    && b.policyVersion != 0 && b.credentialGeneration != 0
    && b.createdAtMs < b.expiresAtMs
    && (b.activationCredentialId.Some? ==> IsCeremonyIdentifier(b.activationCredentialId.value))
  }

  predicate ClaimMetadataHolds(r: CeremonyRecord) {
    && r.claimId.Some? && IsCeremonyIdentifier(r.claimId.value)
    && r.fencingToken != 0
    && r.claimedAtMs.Some? && r.binding.createdAtMs <= r.claimedAtMs.value < r.binding.expiresAtMs
  }

  predicate TerminalHolds(g: Governance, r: CeremonyRecord, t: TerminalVerification) {
    && t.outcome == Completed && t.reason == "verified"
    && t.assertionReceiptHash.Some? && t.credentialId.Some? && t.credentialGeneration.Some?
    && IsCeremonyIdentifier(t.credentialId.value)
    && IsCanonicalUrn(t.assertionReceiptHash.value) && IsCanonicalUrn(t.resultHash)
    && r.binding.activationCredentialId != t.credentialId
    && t.credentialGeneration.value == r.binding.credentialGeneration
    && r.claimedAtMs.Some? && r.claimedAtMs.value <= t.completedAtMs < r.binding.expiresAtMs
    && t.resultHash == ResultHash(g, EvidenceOf(r, t.credentialId.value, t.credentialGeneration.value,
                                                t.assertionReceiptHash.value, t.completedAtMs))
  }

  predicate StatusHolds(g: Governance, r: CeremonyRecord) {
    match r.status
    case Pending => r.claimId.None? && r.fencingToken == 0 && r.claimedAtMs.None? && r.terminal.None?
    case Claimed => ClaimMetadataHolds(r) && r.terminal.None?
    case Completed => ClaimMetadataHolds(r) && r.terminal.Some? && TerminalHolds(g, r, r.terminal.value)
    case _ => false
  }

  /** What no transition touches: identity, binding, hashes, configuration. */
  predicate FrameHolds(g: Governance, r: CeremonyRecord, expectedId: string) {
    && IsCeremonyId(expectedId) && r.ceremonyId == expectedId
    && r.contractVersion == CONTRACT_VERSION && r.objectKind == OBJECT_KIND
    && BindingValid(r.binding)
    && IsCanonicalUrn(r.binding.canonicalProposalHash) && IsCanonicalUrn(r.binding.policyHash)
    && IsCanonicalUrn(r.bindingHash) && IsCanonicalUrn(r.challengeHash)
    && r.binding.createdAtMs != 0
    && MIN_TTL_MS <= r.binding.expiresAtMs - r.binding.createdAtMs <= MAX_TTL_MS
    && r.bindingHash == BindingHash(g, r.binding)
    && g.config.enabled && r.binding.tenantId in g.config.allowedTenants
    && g.config.rpId == Some(r.binding.rpId) && g.config.origin == Some(r.binding.origin)
    && g.config.ceremonySecret.Some?
    && r.challengeHash == ChallengeHash(g, g.config.ceremonySecret.value, expectedId, r.bindingHash)
  }

  predicate Sound(g: Governance, r: CeremonyRecord, expectedId: string) {
    FrameHolds(g, r, expectedId) && StatusHolds(g, r)
  }

  predicate IsParty(r: CeremonyRecord, tenantId: string, participantId: string) {
    r.binding.tenantId == tenantId && r.binding.participantId == participantId
  }

  // ---------------------------------------------------------------- begin

  datatype BeginRequest = BeginRequest(
    orgId: string, participantId: string, canonicalProposalHash: string, policyId: string, policyVersion: U64,
    policyHash: string, continuityState: string, continuityGeneration: U64, credentialGeneration: U64,
    activationCredentialId: Option<string>)

  datatype BeginCall = BeginCall(proposalId: string, participantId: string, tenantId: string, idempotencyKey: string,
                                 request: BeginRequest)

  datatype BeginResponse = BeginResponse(ceremonyId: string, bindingHash: string, challenge: string, challengeHash: string,
                                         rpId: string, origin: string, expiresAtMs: U64, replayed: bool)

  function BeginChecks(g: Governance, q: BeginCall): Result<(), CeremonyError> {
    if !g.config.enabled then Err(Disabled)
    else if !IsCeremonyIdentifier(q.proposalId) || !IsCeremonyIdentifier(q.participantId) || !IsCeremonyIdentifier(q.tenantId)
         || !IsIdempotencyKey(q.idempotencyKey) || !IsCanonicalUrn(q.request.canonicalProposalHash)
         || !IsCanonicalUrn(q.request.policyHash) then Err(InvalidRequest)
    else if q.request.orgId != q.tenantId || q.request.participantId != q.participantId then Err(Unauthorized)
    else if q.tenantId !in g.config.allowedTenants then Err(Unauthorized)
    else Ok(())
  }

  function BindingOf(q: BeginCall, rpId: string, origin: string, now: U64, expires: U64): ApprovalBinding {
    var r := q.request;
    ApprovalBinding(q.tenantId, q.participantId, q.proposalId, r.canonicalProposalHash, r.policyId, r.policyVersion, r.policyHash,
                    r.continuityState, r.continuityGeneration, rpId, origin, r.credentialGeneration, r.activationCredentialId,
                    now, expires)
  }

  /** Everything `begin` does before its put: the record it wants to store. */
  function PrepareBegin(g: Governance, q: BeginCall, now: U64): Result<CeremonyRecord, CeremonyError> {
    var _ :- BeginChecks(g, q);
    if now + g.config.ttlMs > U64_MAX then Err(InvalidRequest)
    else if g.config.rpId.None? || g.config.origin.None? then Err(Disabled)
    else
      var binding := BindingOf(q, g.config.rpId.value, g.config.origin.value, now, now + g.config.ttlMs);
      if !BindingValid(binding) then Err(InvalidRequest)
      else if g.config.ceremonySecret.None? then Err(Disabled)
      else
        var id, bindingHash := CeremonyIdOf(g, q), BindingHash(g, binding);
        var record := CeremonyRecord(CONTRACT_VERSION, OBJECT_KIND, id, binding, bindingHash,
                                     ChallengeHash(g, g.config.ceremonySecret.value, id, bindingHash),
                                     Pending, None, 0, None, None);
        if Sound(g, record, id) then Ok(record) else Err(ProtectedState)
  }

  function BeginReply(g: Governance, record: CeremonyRecord, existing: CeremonyRecord, replayed: bool): BeginResponse
    requires g.config.ceremonySecret.Some?
  {
    BeginResponse(record.ceremonyId, record.bindingHash,
                  DeriveChallenge(g, g.config.ceremonySecret.value, record.ceremonyId, record.bindingHash),
                  record.challengeHash, existing.binding.rpId, existing.binding.origin, existing.binding.expiresAtMs, replayed)
  }

  /** `begin` when its put found something: replay, or say why not. */
  function ReplayBegin(g: Governance, record: CeremonyRecord, now: U64, stored: Option<CeremonyRecord>): Result<BeginResponse, CeremonyError>
    requires g.config.ceremonySecret.Some?
  {
    match stored
    case None => Err(NotFound)
    case Some(existing) =>
      if !Sound(g, existing, record.ceremonyId) then Err(ProtectedState)
      else if existing.bindingHash != record.bindingHash || existing.challengeHash != record.challengeHash
           || !IsParty(existing, record.binding.tenantId, record.binding.participantId) then Err(Conflict)
      else if existing.binding.expiresAtMs <= now then Err(CeremonyError.Expired)
      else if existing.status.Completed? || existing.status.Rejected? || existing.status.Expired? then Err(Conflict)
      else Ok(BeginReply(g, record, existing, true))
  }

  // ---------------------------------------------------------------- claim

  datatype ClaimRequest = ClaimRequest(tenantId: string, participantId: string, claimId: string, fencingToken: U64)

  datatype ClaimResponse = ClaimResponse(ceremonyId: string, status: Status, fencingToken: U64, replayed: bool, takenOver: bool)

  function ClaimChecks(id: string, q: ClaimRequest): Result<(), CeremonyError> {
    if IsCeremonyId(id) && IsCeremonyIdentifier(q.claimId) && q.fencingToken != 0 then Ok(()) else Err(InvalidRequest)
  }

  /** `claim_record`: the next record, whether it is a replay, and whether another worker loses the claim. */
  function ClaimRecord(r: CeremonyRecord, claimId: string, token: U64, now: U64): Result<(CeremonyRecord, bool, bool), CeremonyError> {
    match r.status
    case Pending =>
      Ok((r.(status := Claimed, claimId := Some(claimId), fencingToken := token, claimedAtMs := Some(now)), false, false))
    case Claimed =>
      if token < r.fencingToken then Err(StaleFencing)
      else if token == r.fencingToken then
        if r.claimId == Some(claimId) then Ok((r, true, false)) else Err(AlreadyClaimed)
      else Ok((r.(claimId := Some(claimId), fencingToken := token, claimedAtMs := Some(now)), false, true))
    case _ => Err(Conflict)
  }

  type ClaimDecision = Decision<CeremonyRecord, ClaimResponse, CeremonyError>

  function ClaimPass(g: Governance, id: string, q: ClaimRequest, now: U64, stored: Option<CeremonyRecord>): ClaimDecision {
    match stored
    case None => Fail(NotFound)
    case Some(r) =>
      if !Sound(g, r, id) then Fail(ProtectedState)
      else if !IsParty(r, q.tenantId, q.participantId) then Fail(Unauthorized)
      else if r.binding.expiresAtMs <= now then Fail(CeremonyError.Expired)
      else if r.terminal.Some? then Reply(ClaimResponse(id, r.terminal.value.outcome, r.fencingToken, true, false))
      else
        match ClaimRecord(r, q.claimId, q.fencingToken, now)
        case Err(e) => Fail(e)
        case Ok((candidate, replayed, takenOver)) =>
          var reply := ClaimResponse(id, candidate.status, candidate.fencingToken, replayed, takenOver);
          if !Sound(g, candidate, id) then Fail(ProtectedState)
          else if replayed then Reply(reply)
          else Write(candidate, reply)
  }

  // ---------------------------------------------------------------- complete

  datatype CompleteRequest = CompleteRequest(
    tenantId: string, participantId: string, claimId: string, fencingToken: U64, bindingHash: string, challengeHash: string,
    credentialId: string, credentialGeneration: U64, assertionReceiptHash: string, userVerified: bool)

  datatype CompleteResponse = CompleteResponse(ceremonyId: string, status: Status, terminal: TerminalVerification, replayed: bool)

  function CompleteChecks(id: string, q: CompleteRequest): Result<(), CeremonyError> {
    if !IsCeremonyId(id) || !IsCeremonyIdentifier(q.claimId) || !IsCeremonyIdentifier(q.credentialId) || !IsCanonicalUrn(q.bindingHash)
       || !IsCanonicalUrn(q.challengeHash) || !IsCanonicalUrn(q.assertionReceiptHash) then Err(InvalidRequest)
    else if !q.userVerified then Err(Unauthorized)
    else Ok(())
  }

  /** `complete_record`. */
  function CompleteRecord(g: Governance, r: CeremonyRecord, q: CompleteRequest, now: U64): Result<CeremonyRecord, CeremonyError> {
    if r.status != Claimed then Err(NotClaimed)
    else if q.fencingToken < r.fencingToken then Err(StaleFencing)
    else if q.fencingToken != r.fencingToken || r.claimId != Some(q.claimId) then Err(ClaimMismatch)
    else if r.bindingHash != q.bindingHash || r.challengeHash != q.challengeHash
         || r.binding.credentialGeneration != q.credentialGeneration then Err(Conflict)
    else if r.binding.activationCredentialId == Some(q.credentialId) then Err(Unauthorized)
    else
      var resultHash := ResultHash(g, EvidenceOf(r, q.credentialId, q.credentialGeneration, q.assertionReceiptHash, now));
      Ok(r.(status := Completed,
            terminal := Some(TerminalVerification(Completed, "verified", Some(q.assertionReceiptHash), Some(q.credentialId),
                                                  Some(q.credentialGeneration), now, resultHash))))
  }

  type CompleteDecision = Decision<CeremonyRecord, CompleteResponse, CeremonyError>

  function CompletePass(g: Governance, id: string, q: CompleteRequest, now: U64, stored: Option<CeremonyRecord>): CompleteDecision {
    match stored
    case None => Fail(NotFound)
    case Some(r) =>
      if !Sound(g, r, id) then Fail(ProtectedState)
      else if !IsParty(r, q.tenantId, q.participantId) then Fail(Unauthorized)
      else if r.terminal.Some? then
        if r.terminal.value.outcome == Completed && r.terminal.value.assertionReceiptHash == Some(q.assertionReceiptHash) then
          Reply(CompleteResponse(id, Completed, r.terminal.value, true))
        else Fail(Conflict)
      else if r.binding.expiresAtMs <= now then Fail(CeremonyError.Expired)
      else
        match CompleteRecord(g, r, q, now)
        case Err(e) => Fail(e)
        case Ok(candidate) =>
          if !Sound(g, candidate, id) then Fail(ProtectedState)
          else if candidate.terminal.None? then Fail(InvalidRequest)
          else Write(candidate, CompleteResponse(id, Completed, candidate.terminal.value, false))
  }

  // ---------------------------------------------------------------- which passes write

  /** The re-validation of the candidate adds only what the request may get wrong. */
  lemma ClaimedStaysSound(g: Governance, r: CeremonyRecord, id: string, claimId: string, token: U64, now: U64)
    requires Sound(g, r, id) && !r.status.Completed?
    ensures Sound(g, r.(status := Claimed, claimId := Some(claimId), fencingToken := token, claimedAtMs := Some(now)), id) <==>
      IsCeremonyIdentifier(claimId) && token != 0 && r.binding.createdAtMs <= now < r.binding.expiresAtMs
  {
    hide IsCeremonyIdentifier, BindingValid, IsCanonicalUrn, BindingHash, ChallengeHash, IsCeremonyId;
  }

  /** A claim takes a ceremony, or takes it over, exactly when its party asks within the lifetime of an
      unfinished ceremony with a token above every earlier one. */
  lemma ClaimWritesExactlyWhen(g: Governance, id: string, q: ClaimRequest, now: U64, r: CeremonyRecord)
    requires Sound(g, r, id) && ClaimChecks(id, q).Ok?
    ensures ClaimPass(g, id, q, now, Some(r)).Write? <==>
      && IsParty(r, q.tenantId, q.participantId)
      && r.terminal.None?
      && r.binding.createdAtMs <= now < r.binding.expiresAtMs
      && r.fencingToken < q.fencingToken
    ensures ClaimPass(g, id, q, now, Some(r)).Write? ==>
      ClaimPass(g, id, q, now, Some(r)).reply == ClaimResponse(id, Claimed, q.fencingToken, false, r.claimId.Some?)
  {
    hide FrameHolds, IsCeremonyIdentifier, TerminalHolds, Sound;
    SoundStatus(g, r, id);
    if !r.status.Completed? {
      ClaimedStaysSound(g, r, id, q.claimId, q.fencingToken, now);
    }
  }

  /** The answers that write nothing: an open claim is replayed to its own holder and token alone, a lower
      token is stale, the same token under another id is taken, and a completed ceremony says so. */
  lemma ClaimAnswersExactlyWhen(g: Governance, id: string, q: ClaimRequest, now: U64, r: CeremonyRecord)
    requires Sound(g, r, id) && ClaimChecks(id, q).Ok?
    ensures var d := ClaimPass(g, id, q, now, Some(r));
      && var party := IsParty(r, q.tenantId, q.participantId); var open := party && now < r.binding.expiresAtMs;
      && (d == Reply(ClaimResponse(id, Claimed, q.fencingToken, true, false)) <==>
            open && r.status == Claimed && r.fencingToken == q.fencingToken && r.claimId == Some(q.claimId))
      && (d == Reply(ClaimResponse(id, Completed, r.fencingToken, true, false)) <==> open && r.status == Completed)
      && (d == Fail(StaleFencing) <==> open && r.status == Claimed && q.fencingToken < r.fencingToken)
      && (d == Fail(AlreadyClaimed) <==>
            open && r.status == Claimed && q.fencingToken == r.fencingToken && r.claimId != Some(q.claimId))
      && (d == Fail(CeremonyError.Expired) <==> party && r.binding.expiresAtMs <= now)
      && (d == Fail(Unauthorized) <==> !party)
  {
    hide FrameHolds, IsCeremonyIdentifier, TerminalHolds, Sound;
    SoundStatus(g, r, id);
    SoundOutcomes(g, r, id);
    if !r.status.Completed? {
      ClaimedStaysSound(g, r, id, q.claimId, q.fencingToken, now);
    }
  }

  lemma SoundOutcomes(g: Governance, r: CeremonyRecord, id: string)
    requires Sound(g, r, id)
    ensures r.terminal.Some? <==> r.status == Completed
    ensures r.terminal.Some? ==> r.terminal.value.outcome == Completed
    ensures !r.status.Rejected? && !r.status.Expired?
  {
    hide FrameHolds, ResultHash, EvidenceOf;
  }

  lemma SoundStatus(g: Governance, r: CeremonyRecord, id: string)
    requires Sound(g, r, id)
    ensures StatusHolds(g, r) && FrameHolds(g, r, id)
  {
  }

  lemma CompletedStaysSound(g: Governance, r: CeremonyRecord, id: string, q: CompleteRequest, now: U64)
    requires Sound(g, r, id) && CompleteRecord(g, r, q, now).Ok?
    ensures Sound(g, CompleteRecord(g, r, q, now).value, id) <==>
      && IsCeremonyIdentifier(q.credentialId) && IsCanonicalUrn(q.assertionReceiptHash)
      && r.claimedAtMs.Some? && r.claimedAtMs.value <= now < r.binding.expiresAtMs
  {
    hide IsCeremonyIdentifier, BindingValid, IsCanonicalUrn, BindingHash, ChallengeHash, IsCeremonyId;
    var c := CompleteRecord(g, r, q, now).value;
    assert EvidenceOf(c, q.credentialId, q.credentialGeneration, q.assertionReceiptHash, now)
        == EvidenceOf(r, q.credentialId, q.credentialGeneration, q.assertionReceiptHash, now);
  }

  /** A completion commits exactly when it comes from the current claim's holder, for this binding and
      challenge, with a credential other than the one being activated, after the claim and before expiry. */
  lemma CompleteWritesExactlyWhen(g: Governance, id: string, q: CompleteRequest, now: U64, r: CeremonyRecord)
    requires Sound(g, r, id) && CompleteChecks(id, q).Ok?
    ensures CompletePass(g, id, q, now, Some(r)).Write? <==>
      && IsParty(r, q.tenantId, q.participantId)
      && r.status == Claimed && r.claimId == Some(q.claimId) && r.fencingToken == q.fencingToken
      && r.bindingHash == q.bindingHash && r.challengeHash == q.challengeHash
      && r.binding.credentialGeneration == q.credentialGeneration
      && r.binding.activationCredentialId != Some(q.credentialId)
      && r.claimedAtMs.value <= now < r.binding.expiresAtMs
  {
    hide FrameHolds, IsCeremonyIdentifier, IsCanonicalUrn, TerminalHolds, Sound, ResultHash, EvidenceOf;
    SoundStatus(g, r, id);
    if CompleteRecord(g, r, q, now).Ok? {
      CompletedStaysSound(g, r, id, q, now);
    }
  }

  /** Why a completion is turned away, and what one that commits is answered. */
  lemma CompleteAnswersExactlyWhen(g: Governance, id: string, q: CompleteRequest, now: U64, r: CeremonyRecord)
    requires Sound(g, r, id) && CompleteChecks(id, q).Ok?
    ensures var d := CompletePass(g, id, q, now, Some(r));
      && var party := IsParty(r, q.tenantId, q.participantId);
      && var open := party && r.status != Completed && now < r.binding.expiresAtMs;
      && (d == Fail(NotClaimed) <==> open && r.status == Pending)
      && (d == Fail(StaleFencing) <==> open && r.status == Claimed && q.fencingToken < r.fencingToken)
      && (d == Fail(ClaimMismatch) <==>
            open && r.status == Claimed
            && (q.fencingToken > r.fencingToken || (q.fencingToken == r.fencingToken && r.claimId != Some(q.claimId))))
      && (d == Fail(CeremonyError.Expired) <==> party && r.status != Completed && r.binding.expiresAtMs <= now)
      && (d.Reply? <==> party && r.status == Completed && r.terminal.value.assertionReceiptHash == Some(q.assertionReceiptHash))
      && (d.Write? ==> d.next.terminal.Some? && d.reply == CompleteResponse(id, Completed, d.next.terminal.value, false))
  {
    hide FrameHolds, IsCeremonyIdentifier, IsCanonicalUrn, TerminalHolds, Sound, ResultHash, EvidenceOf;
    SoundStatus(g, r, id);
    SoundOutcomes(g, r, id);
  }

  /** A request's own validation and the integrity of what it would store agree: within a ceremony's lifetime
      a claim passes its checks exactly when the record it leads to is sound. */
  lemma ClaimChecksMatchIntegrity(g: Governance, id: string, q: ClaimRequest, now: U64, r: CeremonyRecord)
    requires Sound(g, r, id) && !r.status.Completed? && r.binding.createdAtMs <= now < r.binding.expiresAtMs
    ensures ClaimChecks(id, q).Ok? <==>
      Sound(g, r.(status := Claimed, claimId := Some(q.claimId), fencingToken := q.fencingToken, claimedAtMs := Some(now)), id)
  {
    hide Sound, StatusHolds, BindingValid, IsCeremonyIdentifier, BindingHash, ChallengeHash;
    SoundStatus(g, r, id);
    ClaimedStaysSound(g, r, id, q.claimId, q.fencingToken, now);
  }

  /** And a completion by the claim's holder in time exactly when, besides, the user was verified. */
  lemma CompleteChecksMatchIntegrity(g: Governance, id: string, q: CompleteRequest, now: U64, r: CeremonyRecord)
    requires Sound(g, r, id) && CompleteRecord(g, r, q, now).Ok?
    requires r.claimedAtMs.Some? && r.claimedAtMs.value <= now < r.binding.expiresAtMs
    ensures CompleteChecks(id, q).Ok? <==> q.userVerified && Sound(g, CompleteRecord(g, r, q, now).value, id)
  {
    hide Sound, BindingValid, IsCeremonyIdentifier, IsCanonicalUrn, BindingHash, ChallengeHash, ResultHash, EvidenceOf, TerminalHolds;
    SoundStatus(g, r, id);
    CompletedStaysSound(g, r, id, q, now);
  }

  /** A fresh ceremony is stored exactly on valid input within the safety bounds of its lifetime. */
  lemma BeginPreparesExactlyWhen(g: Governance, q: BeginCall, now: U64)
    ensures PrepareBegin(g, q, now).Ok? <==>
      && BeginChecks(g, q).Ok?
      && g.config.rpId.Some? && g.config.origin.Some? && g.config.ceremonySecret.Some?
      && now != 0 && now + g.config.ttlMs <= U64_MAX
      && MIN_TTL_MS <= g.config.ttlMs <= MAX_TTL_MS
      && BindingValid(BindingOf(q, g.config.rpId.value, g.config.origin.value, now, now + g.config.ttlMs))
  {
    hide IsCeremonyIdentifier, BindingValid, IsIdempotencyKey, IsCeremonyId, IsCanonicalUrn, BindingHash, ChallengeHash, CeremonyIdOf;
  }
}
