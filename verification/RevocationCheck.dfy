/**
 The two-key check over a store that changes between its reads: when its answer is the scan's at some
 instant of the gap, when it is wrong at every one, and a history in which it is.
 */
module RevocationCheck {
  import opened Numbers
  import opened Text
  import opened Digest
  import opened VersionedStore
  import opened RevocationRecord
  import opened RevocationLedger
  import opened LedgerProperties
  import opened RevocationAuthority

  predicate ViewMatches(stored: Option<Ledger>, claims: Claims, now: nat) {
    stored.Some? && CurrentRecord(stored.value.events).Some? && Matches(CurrentRecord(stored.value.events).value, claims, now)
  }

  /** What the scan of the whole store finds at one instant of a history. */
  ghost predicate ScanAt(log: LedgerLog, at: nat, claims: Claims, now: nat)
    requires at <= |log|
  {
    exists key :: ViewMatches(Current(log[..at], key), claims, now)
  }

  predicate TokenMatchesAt(codec: Codec, log: LedgerLog, at: nat, claims: Claims, now: nat)
    requires at <= |log|
  {
    ViewMatches(Current(log[..at], TokenKey(codec, claims)), claims, now)
  }

  predicate SubjectMatchesAt(codec: Codec, log: LedgerLog, at: nat, claims: Claims, now: nat)
    requires at <= |log|
  {
    ViewMatches(Current(log[..at], SubjectKey(codec, claims)), claims, now)
  }

  lemma ScanIsTwoKeys(codec: Codec, log: LedgerLog, at: nat, claims: Claims, now: nat)
    requires LegalLog(AuthorityRule(codec), log) && at <= |log|
    ensures ScanAt(log, at, claims, now) <==>
      TokenMatchesAt(codec, log, at, claims, now) || SubjectMatchesAt(codec, log, at, claims, now)
  {
    hide LegalLog, Allows, Current, TokenKey, SubjectKey, Matches, ValidLedger;
    LegalPrefix(AuthorityRule(codec), log, at);
    if ScanAt(log, at, claims, now) {
      var key :| ViewMatches(Current(log[..at], key), claims, now);
      StoredIsLoadable(codec, log[..at], key);
      MatchingRecordIsIndexed(codec, Current(log[..at], key).value, key, claims, now);
    }
  }

  /** The check whose reads were served at positions `first` and `second`. */
  function CheckAt(codec: Codec, log: LedgerLog, first: nat, second: nat, claims: Claims, now: nat): Result<CheckDecision, RevocationError>
    requires first <= |log| && second <= |log|
  {
    Check(codec, Current(log[..first], TokenKey(codec, claims)), Current(log[..second], SubjectKey(codec, claims)), claims, now)
  }

  /** It never errs on valid claims, and reports revoked exactly when one of its two reads saw a match. */
  lemma CheckSeesItsReads(codec: Codec, log: LedgerLog, first: nat, second: nat, claims: Claims, now: nat)
    requires LegalLog(AuthorityRule(codec), log) && first <= |log| && second <= |log| && ValidateInternalClaims(claims).Ok?
    ensures var r := CheckAt(codec, log, first, second, claims, now);
      && r.Ok?
      && (r.value.revoked <==> TokenMatchesAt(codec, log, first, claims, now) || SubjectMatchesAt(codec, log, second, claims, now))
      && (!r.value.revoked ==> r.value == NOT_REVOKED)
  {
    hide LegalLog, Allows, Current, TokenKey, SubjectKey, Matches, ValidLedger, ValidateInternalClaims;
    LegalPrefix(AuthorityRule(codec), log, first);
    LegalPrefix(AuthorityRule(codec), log, second);
    StoredIsLoadable(codec, log[..first], TokenKey(codec, claims));
    StoredIsLoadable(codec, log[..second], SubjectKey(codec, claims));
  }

  /** A revoked answer names the target that matched, token first, and gives that target's number of commits
      as the generation and its current record's expiry. */
  lemma RevokedAnswerDescribesMatch(codec: Codec, log: LedgerLog, first: nat, second: nat, claims: Claims, now: nat)
    requires LegalLog(AuthorityRule(codec), log) && first <= |log| && second <= |log| && ValidateInternalClaims(claims).Ok?
    ensures TokenMatchesAt(codec, log, first, claims, now) ==>
      CheckAt(codec, log, first, second, claims, now) == Ok(Described(log[..first], TokenKey(codec, claims), MatchedTokenId))
    ensures !TokenMatchesAt(codec, log, first, claims, now) && SubjectMatchesAt(codec, log, second, claims, now) ==>
      CheckAt(codec, log, first, second, claims, now) == Ok(Described(log[..second], SubjectKey(codec, claims), MatchedSubject))
  {
    hide LegalLog, Allows, Current, TokenKey, SubjectKey, Matches, ValidLedger, ValidateInternalClaims, CommitCount;
    LegalPrefix(AuthorityRule(codec), log, first);
    LegalPrefix(AuthorityRule(codec), log, second);
    StoredIsLoadable(codec, log[..first], TokenKey(codec, claims));
    StoredIsLoadable(codec, log[..second], SubjectKey(codec, claims));
    GenerationCountsCommits(codec, log[..first], TokenKey(codec, claims));
    GenerationCountsCommits(codec, log[..second], SubjectKey(codec, claims));
  }

  function Described(log: LedgerLog, key: string, matched: MatchedTarget): CheckDecision {
    CheckDecision(true, Some(matched), Some(CommitCount(log, key)),
                  match Current<string, Ledger, Cause>(log, key)
                  case Some(l) => if CurrentRecord(l.events).Some? then Some(CurrentRecord(l.events).value.expiresAt) else None
                  case None => None)
  }

  lemma OtherKeyKeepsView(log: LedgerLog, at: nat, key: string)
    requires at < |log| && log[at].key != key
    ensures Current(log[..at + 1], key) == Current(log[..at], key)
  {
    assert log[..at + 1][..at] == log[..at];
  }

  /** Somewhere in between, a fact that is false at `lo` and true at `hi` first becomes true. */
  lemma FirstFlip(f: nat -> bool, lo: nat, hi: nat) returns (n: nat)
    requires lo <= hi && !f(lo) && f(hi)
    ensures lo <= n < hi && !f(n) && f(n + 1)
    ensures forall p | lo <= p <= n :: !f(p)
  {
    n := lo;
    while !f(n + 1)
      invariant lo <= n < hi && !f(n)
      invariant forall p | lo <= p <= n :: !f(p)
      decreases hi - n
    {
      n := n + 1;
    }
  }

  /** In the gap, a commit makes the token key match and a later one ends the subject key's match. */
  ghost predicate HandedOver(codec: Codec, log: LedgerLog, first: nat, second: nat, claims: Claims, now: nat)
    requires first <= second <= |log|
  {
    exists n: nat, m: nat | first <= n < m < second ::
      && log[n].key == TokenKey(codec, claims) && !TokenMatchesAt(codec, log, n, claims, now) && TokenMatchesAt(codec, log, n + 1, claims, now)
      && log[m].key == SubjectKey(codec, claims) && SubjectMatchesAt(codec, log, m, claims, now) && !SubjectMatchesAt(codec, log, m + 1, claims, now)
  }

  /** Every history, every gap: a revoked answer is the scan's at one of the two reads.  A clear answer is
      the scan's at some instant from the first read to the second, unless a match was handed over in the
      gap, first onto the token key and later off the subject key. */
  lemma CheckIsRightUnlessHandedOver(codec: Codec, log: LedgerLog, first: nat, second: nat, claims: Claims, now: nat)
    requires LegalLog(AuthorityRule(codec), log) && first <= second <= |log| && ValidateInternalClaims(claims).Ok?
    ensures var r := CheckAt(codec, log, first, second, claims, now);
      && r.Ok?
      && (r.value.revoked ==> ScanAt(log, first, claims, now) || ScanAt(log, second, claims, now))
      && (!r.value.revoked ==>
            || (exists p | first <= p <= second :: !ScanAt(log, p, claims, now))
            || HandedOver(codec, log, first, second, claims, now))
  {
    hide LegalLog, Allows, ViewMatches, CheckAt, ScanAt, TokenMatchesAt, SubjectMatchesAt, ValidateInternalClaims, HandedOver;
    CheckSeesItsReads(codec, log, first, second, claims, now);
    ScanIsTwoKeys(codec, log, first, claims, now);
    ScanIsTwoKeys(codec, log, second, claims, now);
    if !CheckAt(codec, log, first, second, claims, now).value.revoked && forall p | first <= p <= second :: ScanAt(log, p, claims, now) {
      WrongThroughoutIsHandedOver(codec, log, first, second, claims, now);
    }
  }

  lemma MatchChangesByCommit(codec: Codec, log: LedgerLog, at: nat, claims: Claims, now: nat)
    requires at < |log|
    ensures TokenMatchesAt(codec, log, at, claims, now) != TokenMatchesAt(codec, log, at + 1, claims, now) ==> log[at].key == TokenKey(codec, claims)
    ensures SubjectMatchesAt(codec, log, at, claims, now) != SubjectMatchesAt(codec, log, at + 1, claims, now) ==> log[at].key == SubjectKey(codec, claims)
  {
    hide TokenKey, SubjectKey, ViewMatches;
    if log[at].key != TokenKey(codec, claims) {
      OtherKeyKeepsView(log, at, TokenKey(codec, claims));
    }
    if log[at].key != SubjectKey(codec, claims) {
      OtherKeyKeepsView(log, at, SubjectKey(codec, claims));
    }
  }

  lemma WrongThroughoutIsHandedOver(codec: Codec, log: LedgerLog, first: nat, second: nat, claims: Claims, now: nat)
    requires LegalLog(AuthorityRule(codec), log) && first <= second <= |log|
    requires !TokenMatchesAt(codec, log, first, claims, now) && !SubjectMatchesAt(codec, log, second, claims, now)
    requires forall p | first <= p <= second :: ScanAt(log, p, claims, now)
    ensures HandedOver(codec, log, first, second, claims, now)
  {
    hide LegalLog, Allows, ViewMatches, ScanAt, TokenMatchesAt, SubjectMatchesAt, TokenKey, SubjectKey;
    forall p | first <= p <= second
      ensures TokenMatchesAt(codec, log, p, claims, now) || SubjectMatchesAt(codec, log, p, claims, now)
    {
      ScanIsTwoKeys(codec, log, p, claims, now);
    }
    var token := (p: nat) => p <= |log| && TokenMatchesAt(codec, log, p, claims, now);
    var n := FirstFlip(token, first, second);
    MatchChangesByCommit(codec, log, n, claims, now);
    assert SubjectMatchesAt(codec, log, n, claims, now);
    var ended := (p: nat) => p > |log| || !SubjectMatchesAt(codec, log, p, claims, now);
    var m := FirstFlip(ended, n, second);
    MatchChangesByCommit(codec, log, m, claims, now);
    if m == n {
      // One commit would have touched both keys: then they are one key, and it cannot both start and stop matching.
      SameKeySameMatch(codec, log, n, claims, now);
    }
  }

  lemma SameKeySameMatch(codec: Codec, log: LedgerLog, at: nat, claims: Claims, now: nat)
    requires at <= |log| && TokenKey(codec, claims) == SubjectKey(codec, claims)
    ensures TokenMatchesAt(codec, log, at, claims, now) == SubjectMatchesAt(codec, log, at, claims, now)
  {
  }

  /** If one of the two keys has no commit in the gap, the check is the one-instant check at one of its reads. */
  lemma QuietKeyIsOneInstant(codec: Codec, log: LedgerLog, first: nat, second: nat, claims: Claims, now: nat)
    requires first <= second <= |log|
    ensures (forall m | first <= m < second :: log[m].key != TokenKey(codec, claims)) ==>
      CheckAt(codec, log, first, second, claims, now) == CheckAt(codec, log, second, second, claims, now)
    ensures (forall m | first <= m < second :: log[m].key != SubjectKey(codec, claims)) ==>
      CheckAt(codec, log, first, second, claims, now) == CheckAt(codec, log, first, first, claims, now)
  {
    hide Check, TokenKey, SubjectKey;
    if forall m | first <= m < second :: log[m].key != TokenKey(codec, claims) {
      QuietView(log, first, second, TokenKey(codec, claims));
    }
    if forall m | first <= m < second :: log[m].key != SubjectKey(codec, claims) {
      QuietView(log, first, second, SubjectKey(codec, claims));
    }
  }

  lemma QuietView(log: LedgerLog, first: nat, second: nat, key: string)
    requires first <= second <= |log| && forall m | first <= m < second :: log[m].key != key
    ensures Current(log[..first], key) == Current(log[..second], key)
  {
    for p := first to second
      invariant Current(log[..first], key) == Current(log[..p], key)
    {
      OtherKeyKeepsView(log, p, key);
    }
  }

  /** A commit to one of the two keys after which something still matches. */
  predicate KeepsAMatch(codec: Codec, log: LedgerLog, at: nat, claims: Claims, now: nat)
    requires at < |log|
  {
    log[at].key == TokenKey(codec, claims) || log[at].key == SubjectKey(codec, claims) ==>
      TokenMatchesAt(codec, log, at + 1, claims, now) || SubjectMatchesAt(codec, log, at + 1, claims, now)
  }

  /** The answer is clear, and wrong at every instant from the first read to the second, exactly when the
      subject matched and the token did not at the first read, and no commit in the gap left both keys
      without a match, and at the second read the subject no longer matches. */
  lemma ClearIsWrongThroughoutExactlyWhen(codec: Codec, log: LedgerLog, first: nat, second: nat, claims: Claims, now: nat)
    requires LegalLog(AuthorityRule(codec), log) && first <= second <= |log| && ValidateInternalClaims(claims).Ok?
    ensures CheckAt(codec, log, first, second, claims, now).Ok?
    ensures (!CheckAt(codec, log, first, second, claims, now).value.revoked && forall p | first <= p <= second :: ScanAt(log, p, claims, now)) <==>
      && SubjectMatchesAt(codec, log, first, claims, now) && !TokenMatchesAt(codec, log, first, claims, now)
      && !SubjectMatchesAt(codec, log, second, claims, now)
      && forall m | first <= m < second :: KeepsAMatch(codec, log, m, claims, now)
  {
    hide LegalLog, Allows, ViewMatches, CheckAt, ScanAt, TokenMatchesAt, SubjectMatchesAt, TokenKey, SubjectKey, ValidateInternalClaims;
    CheckSeesItsReads(codec, log, first, second, claims, now);
    forall p | first <= p <= second
      ensures ScanAt(log, p, claims, now) <==> TokenMatchesAt(codec, log, p, claims, now) || SubjectMatchesAt(codec, log, p, claims, now)
    {
      ScanIsTwoKeys(codec, log, p, claims, now);
    }
    if ScanAt(log, first, claims, now) && forall m | first <= m < second :: KeepsAMatch(codec, log, m, claims, now) {
      for p := first to second
        invariant forall q | first <= q <= p :: ScanAt(log, q, claims, now)
      {
        assert KeepsAMatch(codec, log, p, claims, now);
        MatchChangesByCommit(codec, log, p, claims, now);
      }
    }
  }

  // ---------------------------------------------------------------- a history in which it is wrong

  const CLAIMS := Claims("u", "t", [], ISSUER, AUDIENCE, 1000, 1600, "j")
  const NOW: U64 := 1000
  const MUTATION := MutationIdentity("a", "k")
  const REVOKE_SUBJECT := SubjectRequest("t", "u", 1600, "r")
  const REVOKE_TOKEN := TokenRequest(CLAIMS, "r")
  const LIFT_SUBJECT := LiftRequest("t", Subject("u"), "r")

  lemma LetterIsText(s: string)
    requires |s| == 1 && 'a' <= s[0] <= 'z'
    ensures Trim(s) == s && IsIdentifier(s) && IsAuditText(s, 128) && IsAuditText(s, 256)
    ensures |Utf8(s)| == 1 && NoControl(s) && NoWhitespace(s)
  {
    assert s == [s[0]];
    assert s[1..] == "" && s[..0] == "";
    assert Utf8(s) == Utf8Char(s[0]) + Utf8("");
  }

  lemma LettersAreText()
    ensures forall s | s in {"u", "t", "j", "a", "k", "r"} ::
      Trim(s) == s && IsIdentifier(s) && IsAuditText(s, 128) && IsAuditText(s, 256) && |Utf8(s)| == 1 && NoControl(s) && NoWhitespace(s)
  {
    forall s | s in {"u", "t", "j", "a", "k", "r"}
      ensures Trim(s) == s && IsIdentifier(s) && IsAuditText(s, 128) && IsAuditText(s, 256) && |Utf8(s)| == 1 && NoControl(s) && NoWhitespace(s)
    {
      LetterIsText(s);
    }
  }

  /** The two targets have two keys, and the subject's revoke and lift two identities. */
  predicate KeysAndIdentitiesApart(codec: Codec) {
    && TokenKey(codec, CLAIMS) != SubjectKey(codec, CLAIMS)
    && MutationHash(codec.sha, "revoke", SubjectKey(codec, CLAIMS), MUTATION) != MutationHash(codec.sha, "lift", SubjectKey(codec, CLAIMS), MUTATION)
  }

  function RevokeCause(codec: Codec, key: string, record: Record, request: RevokeRequest): Cause {
    RevokedBy(record, MutationHash(codec.sha, "revoke", key, MUTATION), RevokeHash(codec.sha, request))
  }

  function SubjectRecord(): Record {
    Record(RECORD_VERSION, ISSUER, AUDIENCE, "t", Subject("u"), "r", "a", NOW, 1600)
  }

  function TokenRecord(): Record {
    Record(RECORD_VERSION, ISSUER, AUDIENCE, "t", TokenId("j"), "r", "a", NOW, 1600)
  }

  lemma RequestsArePrepared(codec: Codec)
    ensures ValidateInternalClaims(CLAIMS).Ok? && Validate(SubjectRecord()).Ok? && Validate(TokenRecord()).Ok?
    ensures var key := SubjectKey(codec, CLAIMS);
      PrepareRevoke(codec, REVOKE_SUBJECT, MUTATION, NOW) == Ok((key, RevokeCause(codec, key, SubjectRecord(), REVOKE_SUBJECT)))
    ensures var key := TokenKey(codec, CLAIMS);
      PrepareRevoke(codec, REVOKE_TOKEN, MUTATION, NOW) == Ok((key, RevokeCause(codec, key, TokenRecord(), REVOKE_TOKEN)))
    ensures var key := SubjectKey(codec, CLAIMS);
      PrepareLift(codec, LIFT_SUBJECT, MUTATION, NOW)
        == Ok((key, LiftedBy("a", "r", NOW, MutationHash(codec.sha, "lift", key, MUTATION), LiftHash(codec.sha, LIFT_SUBJECT))))
    ensures StorageKey(codec.sha, SubjectRecord()) == SubjectKey(codec, CLAIMS) && StorageKey(codec.sha, TokenRecord()) == TokenKey(codec, CLAIMS)
    ensures Matches(SubjectRecord(), CLAIMS, NOW) && Matches(TokenRecord(), CLAIMS, NOW)
  {
    hide Trim, IsIdentifier, IsAuditText, Utf8, NoControl, NoWhitespace, MutationHash, RevokeHash, LiftHash, DigestText;
    LettersAreText();
    assert "u" in {"u", "t", "j", "a", "k", "r"} && "t" in {"u", "t", "j", "a", "k", "r"} && "j" in {"u", "t", "j", "a", "k", "r"};
    assert "a" in {"u", "t", "j", "a", "k", "r"} && "k" in {"u", "t", "j", "a", "k", "r"} && "r" in {"u", "t", "j", "a", "k", "r"};
  }

  /** A first revoke of a target, as a pass commits it. */
  lemma FirstRevokeCommits(codec: Codec, key: string, record: Record, request: RevokeRequest) returns (l: Ledger)
    requires Validate(record).Ok? && StorageKey(codec.sha, record) == key
    ensures var cause := RevokeCause(codec, key, record, request);
      && Pass(codec, key, cause, None).Write? && Pass(codec, key, cause, None).next == l
      && ValidLedger(codec, l) && l.storageKey == key && |l.events| == 1
      && l.events[0].action == Revoke(record) && l.events[0].idempotencyHash == cause.idempotencyHash
      && CurrentRecord(l.events) == Some(record)
  {
    hide Validate, StorageKey, ValidLedger, MutationHash, RevokeHash, IsLowerHex, EventHash;
    var cause := RevokeCause(codec, key, record, request);
    FirstRevoke(codec, key, record, cause.idempotencyHash, cause.requestHash);
    l := NewLedger(codec, key, record, cause.idempotencyHash, cause.requestHash).value;
  }

  lemma TextIsFit()
    ensures IsAuditText("a", 128) && IsAuditText("r", 256) && IsActiveAt(SubjectRecord(), NOW)
  {
    hide Trim, IsIdentifier, IsAuditText;
    LetterIsText("a");
    LetterIsText("r");
    LetterIsText("t");
    LetterIsText("u");
    assert IsAuditText("a", 128) && IsAuditText("r", 256) && IsIdentifier("t") && IsIdentifier("u");
  }

  lemma IdentityIsNew(l: Ledger, idempotencyHash: string, requestHash: string)
    requires |l.events| == 1 && l.events[0].idempotencyHash != idempotencyHash
    ensures Position(l.events, idempotencyHash).None? && Replay(l, idempotencyHash, requestHash) == Ok(None)
  {
  }

  /** The lift of that revoke under another identity. */
  lemma LiftCommits(codec: Codec, key: string, l: Ledger, idempotencyHash: string, requestHash: string) returns (lifted: Ledger)
    requires Loadable(codec, l, key) && |l.events| == 1 && l.events[0].action == Revoke(SubjectRecord())
    requires l.events[0].idempotencyHash != idempotencyHash && IsLowerHex(idempotencyHash, 64) && IsLowerHex(requestHash, 64)
    ensures var d := Pass(codec, key, LiftedBy("a", "r", NOW, idempotencyHash, requestHash), Some(l));
      d.Write? && d.next == lifted && CurrentRecord(lifted.events).None?
  {
    hide ValidLedger, IsLowerHex, IsAuditText, EventHash, Trim, NewEvent, WithLift, CurrentRecord, IsActiveAt, SubjectRecord, SnapshotAt;
    TextIsFit();
    ValidFacts(codec, l);
    IdentityIsNew(l, idempotencyHash, requestHash);
    LiftAppendsExactlyWhen(codec, l, "a", "r", NOW, idempotencyHash, requestHash);
    lifted := WithLift(codec, l, "a", "r", NOW, idempotencyHash, requestHash).value;
    LiftedIsClear(codec, l, lifted, idempotencyHash, requestHash);
  }

  lemma LiftedIsClear(codec: Codec, l: Ledger, lifted: Ledger, idempotencyHash: string, requestHash: string)
    requires Generation(l) < U64_MAX && WithLift(codec, l, "a", "r", NOW, idempotencyHash, requestHash) == Ok(lifted)
    ensures CurrentRecord(lifted.events).None?
  {
    hide ValidLedger, IsAuditText, EventHash, Trim;
  }

  /** A history of three requests, subject revoke, token revoke, subject lift, in which a check whose reads
      fall after the first and after the last clears claims that are revoked at every instant. */
  lemma CheckIsNotASnapshot(codec: Codec) returns (log: LedgerLog)
    requires KeysAndIdentitiesApart(codec)
    ensures LegalLog(AuthorityRule(codec), log) && |log| == 3
    ensures Ok((log[0].key, log[0].cause)) == PrepareRevoke(codec, REVOKE_SUBJECT, MUTATION, NOW)
    ensures Ok((log[1].key, log[1].cause)) == PrepareRevoke(codec, REVOKE_TOKEN, MUTATION, NOW)
    ensures Ok((log[2].key, log[2].cause)) == PrepareLift(codec, LIFT_SUBJECT, MUTATION, NOW)
    ensures ValidateInternalClaims(CLAIMS).Ok? && CheckAt(codec, log, 1, 3, CLAIMS, NOW) == Ok(NOT_REVOKED)
    ensures forall p | 1 <= p <= 3 :: ScanAt(log, p, CLAIMS, NOW)
  {
    hide Pass, PrepareRevoke, PrepareLift, MutationHash, RevokeHash, LiftHash, TokenKey, SubjectKey, ValidLedger, Validate, Matches, ValidateInternalClaims, StorageKey, LegalLog;
    var t, s := TokenKey(codec, CLAIMS), SubjectKey(codec, CLAIMS);
    RequestsArePrepared(codec);
    var active := FirstRevokeCommits(codec, s, SubjectRecord(), REVOKE_SUBJECT);
    var token := FirstRevokeCommits(codec, t, TokenRecord(), REVOKE_TOKEN);
    var lift := LiftedBy("a", "r", NOW, MutationHash(codec.sha, "lift", s, MUTATION), LiftHash(codec.sha, LIFT_SUBJECT));
    var lifted := LiftCommits(codec, s, active, lift.idempotencyHash, lift.requestHash);
    var a := Commit(s, None, active, RevokeCause(codec, s, SubjectRecord(), REVOKE_SUBJECT));
    var b := Commit(t, None, token, RevokeCause(codec, t, TokenRecord(), REVOKE_TOKEN));
    var c := Commit(s, Some(active), lifted, lift);
    log := [a, b, c];
    ThreeAreLegal(codec, a, b, c);
    ThreeViews(a, b, c);
    CheckSeesItsReads(codec, log, 1, 3, CLAIMS, NOW);
    assert ScanAt(log, 1, CLAIMS, NOW) && ScanAt(log, 2, CLAIMS, NOW) && ScanAt(log, 3, CLAIMS, NOW);
  }

  lemma ThreeViews(a: LedgerCommit, b: LedgerCommit, c: LedgerCommit)
    requires a.key == c.key != b.key
    ensures var log := [a, b, c];
      && Current(log[..1], a.key) == Some(a.after) && Current(log[..1], b.key) == None
      && Current(log[..2], a.key) == Some(a.after) && Current(log[..2], b.key) == Some(b.after)
      && Current(log[..3], c.key) == Some(c.after) && Current(log[..3], b.key) == Some(b.after)
  {
    var log := [a, b, c];
    assert log[..1] == [a] && log[..2] == [a, b] && log[..3] == log;
    assert [a][..0] == [] && [a, b][..1] == [a] && log[..2] == [a, b];
  }

  lemma ThreeAreLegal(codec: Codec, a: LedgerCommit, b: LedgerCommit, c: LedgerCommit)
    requires a.key == c.key != b.key && a.before.None? && b.before.None? && c.before == Some(a.after)
    requires Allows(codec, [], a) && Allows(codec, [a], b) && Allows(codec, [a, b], c)
    ensures LegalLog(AuthorityRule(codec), [a, b, c])
  {
    hide Allows;
    ThreeViews(a, b, c);
    var log := [a, b, c];
    assert log[..0] == [] && log[..1] == [a] && log[..2] == [a, b];
  }

  // ---------------------------------------------------------------- digests under which the history exists

  function ScopeParts(target: Target): seq<string> {
    [ISSUER, AUDIENCE, "t", TargetKind(target), TargetValue(target)]
  }

  function IdentityParts(action: string, key: string): seq<string> {
    [action, key, Trim("a"), Trim("k")]
  }

  lemma ShortPartsAddressable(parts: seq<string>)
    requires forall i | 0 <= i < |parts| :: |parts[i]| <= 1000
    ensures Addressable(TextParts(parts))
  {
    forall i | 0 <= i < |parts| ensures |TextParts(parts)[i]| <= U64_MAX {
      Utf8Short(parts[i]);
    }
  }

  lemma PartsAreShort(key: string)
    requires |key| <= 1000
    ensures Addressable(TextParts(ScopeParts(TokenId("j")))) && Addressable(TextParts(ScopeParts(Subject("u"))))
    ensures Addressable(TextParts(IdentityParts("revoke", key))) && Addressable(TextParts(IdentityParts("lift", key)))
  {
    hide TextParts, Addressable, Trim;
    LetterIsText("a");
    LetterIsText("k");
    ShortPartsAddressable(ScopeParts(TokenId("j")));
    ShortPartsAddressable(ScopeParts(Subject("u")));
    ShortPartsAddressable(IdentityParts("revoke", key));
    ShortPartsAddressable(IdentityParts("lift", key));
  }

  lemma SubjectKeyIsShort(codec: Codec)
    ensures |SubjectKey(codec, CLAIMS)| <= 1000
  {
    hide DigestText;
  }

  /** Under any digest that does not collide on the preimages of the two keys and of the two identities. */
  lemma CollisionFreeKeepsApart(codec: Codec)
    requires CollisionFree(codec.sha, {Frame(TextParts(ScopeParts(TokenId("j")))), Frame(TextParts(ScopeParts(Subject("u"))))})
    requires var key := SubjectKey(codec, CLAIMS);
      CollisionFree(codec.sha, {Frame(TextParts(IdentityParts("revoke", key))), Frame(TextParts(IdentityParts("lift", key)))})
    ensures KeysAndIdentitiesApart(codec)
  {
    hide TextParts, Addressable, Trim, DigestText, Frame, CollisionFree;
    var key := SubjectKey(codec, CLAIMS);
    SubjectKeyIsShort(codec);
    PartsAreShort(key);
    var p, q := ScopeParts(TokenId("j")), ScopeParts(Subject("u"));
    assert p != q by { assert p[3][0] == 't' && q[3][0] == 's'; }
    if TokenKey(codec, CLAIMS) == key {
      assert DigestText(codec.sha, p) == TokenKey(codec, CLAIMS)[|KEY_PREFIX|..];
      assert DigestText(codec.sha, q) == key[|KEY_PREFIX|..];
      DigestTextInjective(codec.sha, p, q);
    }
    var v, w := IdentityParts("revoke", key), IdentityParts("lift", key);
    assert v != w by { assert v[0][0] == 'r' && w[0][0] == 'l'; }
    if DigestText(codec.sha, v) == DigestText(codec.sha, w) {
      DigestTextInjective(codec.sha, v, w);
    }
  }

  function Constant(b: Byte): Digest32 {
    seq(32, _ => b)
  }

  /** The key that a digest of ones gives. */
  function OnesKey(): string {
    KEY_PREFIX + Hex(Constant(1))
  }

  /** A digest that singles out two preimages. */
  function Singling(x: seq<Byte>, y: seq<Byte>): Codec {
    Codec(z => if z == x || z == y then Constant(0) else Constant(1), _ => [])
  }

  lemma FramesDiffer(ps: seq<string>, qs: seq<string>)
    requires Addressable(TextParts(ps)) && Addressable(TextParts(qs)) && ps != qs
    ensures Frame(TextParts(ps)) != Frame(TextParts(qs))
  {
    if Frame(TextParts(ps)) == Frame(TextParts(qs)) {
      FrameInjective(TextParts(ps), TextParts(qs));
      assert |ps| == |TextParts(ps)| == |qs|;
      forall i | 0 <= i < |ps| ensures ps[i] == qs[i] {
        assert Utf8(ps[i]) == TextParts(ps)[i] == TextParts(qs)[i] == Utf8(qs[i]);
        Utf8Injective(ps[i], qs[i]);
      }
    }
  }

  lemma FourFramesDiffer()
    ensures var token, subject := Frame(TextParts(ScopeParts(TokenId("j")))), Frame(TextParts(ScopeParts(Subject("u"))));
      var revoke, lift := Frame(TextParts(IdentityParts("revoke", OnesKey()))), Frame(TextParts(IdentityParts("lift", OnesKey())));
      subject != token && subject != lift && revoke != token && revoke != lift
  {
    hide TextParts, Addressable, Trim, Frame, Hex;
    PartsAreShort(OnesKey());
    var token, subject := ScopeParts(TokenId("j")), ScopeParts(Subject("u"));
    var revoke, lift := IdentityParts("revoke", OnesKey()), IdentityParts("lift", OnesKey());
    assert token[3][0] == 't' && subject[3][0] == 's' && revoke[0][0] == 'r' && lift[0][0] == 'l';
    FramesDiffer(subject, token);
    FramesDiffer(subject, lift);
    FramesDiffer(revoke, token);
    FramesDiffer(revoke, lift);
  }

  lemma ZeroIsNotOne()
    ensures Hex(Constant(0)) != Hex(Constant(1))
  {
    assert Constant(0)[0] != Constant(1)[0];
    if Hex(Constant(0)) == Hex(Constant(1)) {
      HexInjective(Constant(0), Constant(1));
    }
  }

  lemma PrefixKeepsApart(s: string, t: string)
    requires s != t
    ensures KEY_PREFIX + s != KEY_PREFIX + t
  {
    assert (KEY_PREFIX + s)[|KEY_PREFIX|..] == s && (KEY_PREFIX + t)[|KEY_PREFIX|..] == t;
  }

  /** So the premise can be met, with no assumption on any digest. */
  lemma SomeCodecKeepsApart() returns (codec: Codec)
    ensures KeysAndIdentitiesApart(codec)
  {
    hide TextParts, Trim, Frame, Hex, Constant;
    FourFramesDiffer();
    ZeroIsNotOne();
    codec := Singling(Frame(TextParts(ScopeParts(TokenId("j")))), Frame(TextParts(IdentityParts("lift", OnesKey()))));
    PrefixKeepsApart(Hex(Constant(0)), Hex(Constant(1)));
    assert DigestText(codec.sha, ScopeParts(Subject("u"))) == Hex(Constant(1));
    assert DigestText(codec.sha, ScopeParts(TokenId("j"))) == Hex(Constant(0));
    assert DigestText(codec.sha, IdentityParts("revoke", OnesKey())) == Hex(Constant(1));
    assert DigestText(codec.sha, IdentityParts("lift", OnesKey())) == Hex(Constant(0));
  }
}
