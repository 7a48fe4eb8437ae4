/** Token claims and the versioned revocation record scoped to them. */
module RevocationRecord {
  import opened Numbers
  import opened Text
  import opened Digest

  const ISSUER := "fiducia-auth"
  const AUDIENCE := "fiducia-api"
  const MAX_ACCESS_TOKEN_TTL_SECS := 15 * 60
  const MAX_INTERNAL_REVOCATION_TTL_SECS := 24 * 60 * 60
  const RECORD_VERSION := 1

  datatype Claims = Claims(sub: string, orgId: string, scopes: seq<string>, iss: string, aud: string,
                           iat: U64, exp: U64, jti: string)

  datatype Target = TokenId(jti: string) | Subject(subject: string)

  datatype Record = Record(version: nat, issuer: string, audience: string, tenantId: string, target: Target,
                           reason: string, actor: string, createdAt: U64, expiresAt: U64)

  datatype RecordError =
    | UnsupportedVersion
    | WrongIssuer
    | WrongAudience
    | InvalidField(field: string)
    | InvalidWindow
    | WindowTooLong

  function Validate(r: Record): Result<(), RecordError> {
    if r.version != RECORD_VERSION then Err(UnsupportedVersion)
    else if r.issuer != ISSUER then Err(WrongIssuer)
    else if r.audience != AUDIENCE then Err(WrongAudience)
    else if !IsIdentifier(r.tenantId) then Err(InvalidField("tenant_id"))
    else if !IsAuditText(r.reason, 256) then Err(InvalidField("reason"))
    else if !IsAuditText(r.actor, 128) then Err(InvalidField("actor"))
    else if r.target.TokenId? && !IsIdentifier(r.target.jti) then Err(InvalidField("jti"))
    else if r.target.Subject? && !IsIdentifier(r.target.subject) then Err(InvalidField("subject"))
    else if r.expiresAt <= r.createdAt then Err(InvalidWindow)
    else if r.expiresAt - r.createdAt > MAX_INTERNAL_REVOCATION_TTL_SECS then Err(WindowTooLong)
    else Ok(())
  }

  /** Revoke one exact token until its signed expiry. */
  function ForToken(claims: Claims, reason: string, actor: string, createdAt: U64): Result<Record, RecordError> {
    if createdAt < claims.iat || createdAt >= claims.exp then
      Err(InvalidWindow)
    else
      var r := Record(RECORD_VERSION, claims.iss, claims.aud, claims.orgId, TokenId(claims.jti),
                      Trim(reason), Trim(actor), createdAt, claims.exp);
      var _ :- Validate(r);
      Ok(r)
  }

  /** Revoke every internal token of one subject of one tenant for a bounded interval. */
  function ForSubject(tenantId: string, subject: string, reason: string, actor: string, createdAt: U64, expiresAt: U64)
    : Result<Record, RecordError>
  {
    var r := Record(RECORD_VERSION, ISSUER, AUDIENCE, Trim(tenantId), Subject(Trim(subject)),
                    Trim(reason), Trim(actor), createdAt, expiresAt);
    var _ :- Validate(r);
    Ok(r)
  }

  function TargetKind(t: Target): string {
    if t.TokenId? then "token_id" else "subject"
  }

  function TargetValue(t: Target): string {
    match t
    case TokenId(jti) => jti
    case Subject(subject) => subject
  }

  const KEY_PREFIX := "auth/revocations/v1/"

  /** The opaque path of one target: a digest of the scope and the target, never the raw identity. */
  function TargetKey(sha: Sha256, issuer: string, audience: string, tenantId: string, target: Target): string {
    KEY_PREFIX + DigestText(sha, [issuer, audience, tenantId, TargetKind(target), TargetValue(target)])
  }

  function StorageKey(sha: Sha256, r: Record): string {
    TargetKey(sha, r.issuer, r.audience, r.tenantId, r.target)
  }

  predicate IsActiveAt(r: Record, now: nat) {
    Validate(r).Ok? && r.createdAt <= now < r.expiresAt
  }

  /** The record is about this token: same class, same tenant, and the token or its subject. */
  predicate Covers(r: Record, claims: Claims) {
    && r.issuer == claims.iss
    && r.audience == claims.aud
    && r.tenantId == claims.orgId
    && match r.target
       case TokenId(jti) => jti == claims.jti
       case Subject(subject) => subject == claims.sub
  }

  predicate Matches(r: Record, claims: Claims, now: nat) {
    IsActiveAt(r, now) && Covers(r, claims)
  }

  /** What tells two tokens apart for revocation; scopes and times do not. */
  predicate SameIdentity(a: Claims, b: Claims) {
    a.iss == b.iss && a.aud == b.aud && a.orgId == b.orgId && a.sub == b.sub && a.jti == b.jti
  }
}
