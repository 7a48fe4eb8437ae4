/** What holds of a ceremony over every interleaving of beginners, claimers and completers. */
module CeremonyHistory {
  import opened Numbers
  import opened Text
  import opened Digest
  import opened VersionedStore
  import opened Ceremony

  datatype Cause = BegunBy(call: BeginCall, begunAt: U64) | ClaimedBy(claim: ClaimRequest, claimedAt: U64)
                 | CompletedBy(completion: CompleteRequest, completedAt: U64)

  type CeremonyCommit = Commit<string, CeremonyRecord, Cause>
  type CeremonyLog = seq<CeremonyCommit>

  /** Which commits the operations make.  A store key is the ceremony id under a fixed prefix. */
  predicate Allows(g: Governance, c: CeremonyCommit) {
    match c.cause
    case BegunBy(q, now) => c.before.None? && PrepareBegin(g, q, now) == Ok(c.after) && c.key == c.after.ceremonyId
    case ClaimedBy(q, now) => Writes(ClaimPass(g, c.key, q, now, c.before), c.after)
    case CompletedBy(q, now) => Writes(CompletePass(g, c.key, q, now, c.before), c.after)
  }

  function CeremonyRule(g: Governance): Rule<string, CeremonyRecord, Cause> {
    (_, c) => Allows(g, c)
  }

  // ---------------------------------------------------------------- one commit

  predicate SameCeremony(a: CeremonyRecord, b: CeremonyRecord) {
    && a.ceremonyId == b.ceremonyId && a.contractVersion == b.contractVersion && a.objectKind == b.objectKind
    && a.binding == b.binding && a.bindingHash == b.bindingHash && a.challengeHash == b.challengeHash
  }

  /** How a record may change: a higher token takes the claim, or its holder completes it. */
  predicate Moves(a: CeremonyRecord, b: CeremonyRecord, cause: Cause) {
    && SameCeremony(a, b)
    && a.terminal.None?
    && match cause
       case BegunBy(_, _) => false
       case ClaimedBy(q, now) =>
         && a.fencingToken < b.fencingToken == q.fencingToken
         && b.claimId == Some(q.claimId) && b.claimedAtMs == Some(now) && b.terminal.None?
       case CompletedBy(q, now) =>
         && a.fencingToken == b.fencingToken == q.fencingToken
         && a.claimId == b.claimId == Some(q.claimId) && a.claimedAtMs == b.claimedAtMs
         && b.terminal.Some? && b.terminal.value.completedAtMs == now
         && b.terminal.value.assertionReceiptHash == Some(q.assertionReceiptHash)
         && b.terminal.value.credentialId == Some(q.credentialId)
  }

  lemma ClaimMoves(g: Governance, id: string, q: ClaimRequest, now: U64, a: CeremonyRecord)
    requires ClaimPass(g, id, q, now, Some(a)).Write?
    ensures var b := ClaimPass(g, id, q, now, Some(a)).next; Moves(a, b, ClaimedBy(q, now)) && Sound(g, b, id)
  {
    hide FrameHolds, TerminalHolds;
  }

  lemma CompleteMoves(g: Governance, id: string, q: CompleteRequest, now: U64, a: CeremonyRecord)
    requires CompletePass(g, id, q, now, Some(a)).Write?
    ensures var b := CompletePass(g, id, q, now, Some(a)).next; Moves(a, b, CompletedBy(q, now)) && Sound(g, b, id)
  {
    hide FrameHolds, TerminalHolds, Sound, ResultHash, EvidenceOf;
  }

  lemma BeginStores(g: Governance, q: BeginCall, now: U64)
    requires PrepareBegin(g, q, now).Ok?
    ensures var r := PrepareBegin(g, q, now).value;
      Sound(g, r, r.ceremonyId) && r.status == Pending && r.fencingToken == 0 && r.terminal.None? && r.claimId.None?
  {
    hide FrameHolds, BindingValid, BeginChecks, BindingHash, ChallengeHash;
  }

  /** Everything about one commit. */
  predicate GoodCommit(g: Governance, c: CeremonyCommit) {
    && Sound(g, c.after, c.key)
    && (c.before.None? ==> c.cause.BegunBy? && c.after.fencingToken == 0 && c.after.terminal.None? && c.after.claimId.None?)
    && (c.before.Some? ==> Moves(c.before.value, c.after, c.cause))
  }

  lemma CommitIsGood(g: Governance, log: CeremonyLog, n: nat)
    requires LegalLog(CeremonyRule(g), log) && n < |log|
    ensures GoodCommit(g, log[n])
  {
    hide LegalLog, Current, Sound, PrepareBegin, ClaimPass, CompletePass, Moves;
    LegalAt(CeremonyRule(g), log, n);
    var c := log[n];
    match c.cause
    case BegunBy(q, now) => BeginStores(g, q, now);
    case ClaimedBy(q, now) => ClaimNeedsRecord(g, c.key, q, now, c.before); ClaimMoves(g, c.key, q, now, c.before.value);
    case CompletedBy(q, now) => CompleteNeedsRecord(g, c.key, q, now, c.before); CompleteMoves(g, c.key, q, now, c.before.value);
  }

  lemma ClaimNeedsRecord(g: Governance, id: string, q: ClaimRequest, now: U64, stored: Option<CeremonyRecord>)
    ensures ClaimPass(g, id, q, now, stored).Write? ==> stored.Some?
  {
    hide Sound, ClaimRecord;
  }

  lemma CompleteNeedsRecord(g: Governance, id: string, q: CompleteRequest, now: U64, stored: Option<CeremonyRecord>)
    ensures CompletePass(g, id, q, now, stored).Write? ==> stored.Some?
  {
    hide Sound, CompleteRecord;
  }

  // ---------------------------------------------------------------- every stored record

  lemma {:induction false} StoredIsSound(g: Governance, log: CeremonyLog, id: string)
    requires LegalLog(CeremonyRule(g), log)
    ensures Current(log, id).Some? ==> Sound(g, Current(log, id).value, id)
  {
    hide LegalLog, Sound, Moves, Allows;
    if log != [] {
      var n := |log| - 1;
      LegalPrefix(CeremonyRule(g), log, n);
      StoredIsSound(g, log[..n], id);
      CommitIsGood(g, log, n);
    }
  }

  /** What soundness means for a reader: the times are in order, the claim is held, and nobody approved
      a credential with itself. */
  lemma StoredTimesAreOrdered(g: Governance, log: CeremonyLog, id: string)
    requires LegalLog(CeremonyRule(g), log) && Current(log, id).Some?
    ensures var r := Current(log, id).value;
      && r.ceremonyId == id
      && 0 < r.binding.createdAtMs < r.binding.expiresAtMs <= r.binding.createdAtMs + MAX_TTL_MS
      && (r.status == Pending <==> r.claimId.None?)
      && (r.status == Completed <==> r.terminal.Some?)
      && (r.claimId.Some? ==>
            r.fencingToken > 0 && r.claimedAtMs.Some? && r.binding.createdAtMs <= r.claimedAtMs.value < r.binding.expiresAtMs)
      && (r.terminal.Some? ==>
            && r.claimId.Some? && r.terminal.value.outcome == Completed && r.terminal.value.credentialId.Some?
            && r.claimedAtMs.value <= r.terminal.value.completedAtMs < r.binding.expiresAtMs
            && r.terminal.value.credentialId != r.binding.activationCredentialId)
  {
    hide LegalLog, Current, BindingHash, ChallengeHash, ResultHash, EvidenceOf, IsCeremonyIdentifier, IsCanonicalUrn;
    StoredIsSound(g, log, id);
  }

  /** Later record of the same ceremony. */
  predicate Follows(a: CeremonyRecord, b: CeremonyRecord) {
    && SameCeremony(a, b)
    && a.fencingToken <= b.fencingToken
    && (a.fencingToken == b.fencingToken ==> a.claimId == b.claimId && a.claimedAtMs == b.claimedAtMs)
    && (a.terminal.Some? ==> b == a)
  }

  lemma LastCommitFollows(g: Governance, log: CeremonyLog, id: string)
    requires LegalLog(CeremonyRule(g), log) && log != [] && Current(log[..|log| - 1], id).Some?
    ensures Current(log, id).Some? && Follows(Current(log[..|log| - 1], id).value, Current(log, id).value)
  {
    hide LegalLog, Sound, Allows;
    LegalAt(CeremonyRule(g), log, |log| - 1);
    CommitIsGood(g, log, |log| - 1);
  }

  /** Binding and hashes never change after begin, the token never falls, a token's claim is one claim,
      and a terminal result is final. */
  lemma {:induction false} HistoryFollows(g: Governance, log: CeremonyLog, n: nat, id: string)
    requires LegalLog(CeremonyRule(g), log) && n <= |log| && Current(log[..n], id).Some?
    ensures Current(log, id).Some? && Follows(Current(log[..n], id).value, Current(log, id).value)
  {
    hide LegalLog, Allows, Current;
    if n == |log| {
      assert log[..n] == log;
    } else {
      var last := |log| - 1;
      LegalPrefix(CeremonyRule(g), log, last);
      assert log[..last][..n] == log[..n];
      HistoryFollows(g, log[..last], n, id);
      LastCommitFollows(g, log, id);
    }
  }

  /** The record a commit leaves is followed by whatever is current at any later position. */
  lemma CommitIsFollowed(g: Governance, log: CeremonyLog, n: nat, m: nat)
    requires LegalLog(CeremonyRule(g), log) && n < m <= |log|
    ensures Current(log[..m], log[n].key).Some? && Follows(log[n].after, Current(log[..m], log[n].key).value)
  {
    hide LegalLog, Allows, Follows;
    LegalPrefix(CeremonyRule(g), log, m);
    assert log[..m][..n + 1] == log[..n + 1];
    assert Current(log[..n + 1], log[n].key) == Some(log[n].after);
    HistoryFollows(g, log[..m], n + 1, log[n].key);
  }

  // ---------------------------------------------------------------- fencing

  /** Over every interleaving, the tokens committed by claims of one ceremony strictly increase. */
  lemma ClaimTokensIncrease(g: Governance, log: CeremonyLog, n: nat, m: nat)
    requires LegalLog(CeremonyRule(g), log) && n < m < |log| && log[n].key == log[m].key
    requires log[n].cause.ClaimedBy? && log[m].cause.ClaimedBy?
    ensures log[n].cause.claim.fencingToken < log[m].cause.claim.fencingToken
  {
    hide LegalLog, Current, Allows, Sound;
    LegalAt(CeremonyRule(g), log, n);
    LegalAt(CeremonyRule(g), log, m);
    CommitIsGood(g, log, n);
    CommitIsGood(g, log, m);
    CommitIsFollowed(g, log, n, m);
    ClaimHasBefore(g, log, n);
  }

  lemma ClaimHasBefore(g: Governance, log: CeremonyLog, n: nat)
    requires LegalLog(CeremonyRule(g), log) && n < |log| && !log[n].cause.BegunBy?
    ensures log[n].before.Some?
  {
    hide LegalLog, Current, Allows, Sound;
    CommitIsGood(g, log, n);
  }

  /** The position after the last committed claim of a ceremony; 0 when there is none. */
  function LastClaim(log: CeremonyLog, id: string): (n: nat)
    ensures n <= |log|
    ensures n > 0 ==> log[n - 1].key == id && log[n - 1].cause.ClaimedBy?
    ensures forall m | n <= m < |log| && log[m].key == id :: !log[m].cause.ClaimedBy?
  {
    if log == [] then 0
    else
      var n := |log| - 1;
      if log[n].key == id && log[n].cause.ClaimedBy? then |log| else LastClaim(log[..n], id)
  }

  /** The stored claim is the last committed one. */
  predicate HoldsLastClaim(log: CeremonyLog, id: string, r: CeremonyRecord) {
    var n := LastClaim(log, id);
    if n == 0 then r.claimId.None? && r.fencingToken == 0
    else
      var c := log[n - 1].cause;
      && c.ClaimedBy?
      && r.claimId == Some(c.claim.claimId)
      && r.fencingToken == c.claim.fencingToken
      && r.claimedAtMs == Some(c.claimedAt)
  }

  lemma {:induction false} StoredClaimIsLast(g: Governance, log: CeremonyLog, id: string)
    requires LegalLog(CeremonyRule(g), log)
    ensures Current(log, id).Some? ==> HoldsLastClaim(log, id, Current(log, id).value)
    ensures Current(log, id).None? ==> LastClaim(log, id) == 0
  {
    hide LegalLog, Allows, Sound;
    if log != [] {
      var n := |log| - 1;
      LegalPrefix(CeremonyRule(g), log, n);
      LegalAt(CeremonyRule(g), log, n);
      StoredClaimIsLast(g, log[..n], id);
      CommitIsGood(g, log, n);
    }
  }

  /** A completion commits only for the claim id and token of the last committed claim before it, and
      not before that claim's time. */
  lemma CompletionIsFenced(g: Governance, log: CeremonyLog, n: nat)
    requires LegalLog(CeremonyRule(g), log) && n < |log| && log[n].cause.CompletedBy?
    ensures var last := LastClaim(log[..n], log[n].key);
      && last > 0 && log[last - 1].cause.ClaimedBy? && log[last - 1].key == log[n].key
      && log[n].cause.completion.claimId == log[last - 1].cause.claim.claimId
      && log[n].cause.completion.fencingToken == log[last - 1].cause.claim.fencingToken
      && log[last - 1].cause.claimedAt <= log[n].cause.completedAt
  {
    hide LegalLog, Current, Allows, LastClaim, Sound;
    LegalAt(CeremonyRule(g), log, n);
    LegalPrefix(CeremonyRule(g), log, n);
    StoredClaimIsLast(g, log[..n], log[n].key);
    var last := LastClaim(log[..n], log[n].key);
    assert last > 0 ==> log[..n][last - 1] == log[last - 1];
    CommitIsGood(g, log, n);
    ClaimHasBefore(g, log, n);
    CompletedAfterClaim(g, log[n]);
  }

  lemma CompletedAfterClaim(g: Governance, c: CeremonyCommit)
    requires GoodCommit(g, c) && c.cause.CompletedBy? && c.before.Some?
    ensures c.after.claimedAtMs.Some? && c.after.claimedAtMs.value <= c.cause.completedAt
  {
    hide FrameHolds, ResultHash, EvidenceOf;
  }

  /** Once a claim has committed, no completion under a lower token, or under another claim id, ever does. */
  lemma OvertakenNeverCompletes(g: Governance, log: CeremonyLog, n: nat, m: nat)
    requires LegalLog(CeremonyRule(g), log) && n < m < |log| && log[n].key == log[m].key
    requires log[n].cause.ClaimedBy? && log[m].cause.CompletedBy?
    ensures log[n].cause.claim.fencingToken <= log[m].cause.completion.fencingToken
    ensures log[n].cause.claim.fencingToken == log[m].cause.completion.fencingToken ==>
      log[n].cause.claim.claimId == log[m].cause.completion.claimId
  {
    hide LegalLog, Current, Allows, Sound;
    LegalAt(CeremonyRule(g), log, m);
    CommitIsGood(g, log, n);
    CommitIsGood(g, log, m);
    CommitIsFollowed(g, log, n, m);
    ClaimHasBefore(g, log, n);
    ClaimHasBefore(g, log, m);
  }

  /** A claim answered while the ceremony is open, by a commit or by a replay of the same claim, at `at`. */
  predicate Granted(g: Governance, log: CeremonyLog, at: nat, id: string, q: ClaimRequest, now: U64, r: ClaimResponse)
    requires at <= |log|
  {
    var d := ClaimPass(g, id, q, now, Current(log[..at], id));
    && r.status == Claimed
    && (d == Reply(r) || Committed(log, id, d, r, ClaimedBy(q, now), at))
  }

  lemma GrantReplyIsStored(g: Governance, id: string, q: ClaimRequest, now: U64, stored: CeremonyRecord, r: ClaimResponse)
    requires r.status == Claimed
    ensures ClaimPass(g, id, q, now, Some(stored)) == Reply(r) ==>
      stored.claimId == Some(q.claimId) && stored.fencingToken == q.fencingToken == r.fencingToken
  {
    hide FrameHolds, ResultHash, EvidenceOf;
  }

  lemma GrantWriteIsStored(g: Governance, id: string, q: ClaimRequest, now: U64, stored: CeremonyRecord)
    requires ClaimPass(g, id, q, now, Some(stored)).Write?
    ensures var d := ClaimPass(g, id, q, now, Some(stored));
      d.next.claimId == Some(q.claimId) && d.next.fencingToken == q.fencingToken == d.reply.fencingToken
  {
    hide FrameHolds, TerminalHolds;
  }

  /** A granted claim is stored when it is answered. */
  lemma GrantIsStored(g: Governance, log: CeremonyLog, at: nat, id: string, q: ClaimRequest, now: U64, r: ClaimResponse) returns (upto: nat)
    requires LegalLog(CeremonyRule(g), log) && at <= |log| && Granted(g, log, at, id, q, now, r)
    ensures upto <= |log| && Current(log[..upto], id).Some?
    ensures var s := Current(log[..upto], id).value; s.claimId == Some(q.claimId) && s.fencingToken == q.fencingToken == r.fencingToken
  {
    hide LegalLog, ClaimPass, Allows;
    var seen := Current(log[..at], id);
    var d := ClaimPass(g, id, q, now, seen);
    ClaimAnswerNeedsRecord(g, id, q, now, seen);
    if d == Reply(r) {
      GrantReplyIsStored(g, id, q, now, seen.value, r);
      upto := at;
    } else {
      GrantWriteIsStored(g, id, q, now, seen.value);
      upto := at + 1;
      assert log[..at + 1][|log[..at + 1]| - 1] == log[at];
    }
  }

  lemma ClaimAnswerNeedsRecord(g: Governance, id: string, q: ClaimRequest, now: U64, stored: Option<CeremonyRecord>)
    ensures !ClaimPass(g, id, q, now, stored).Fail? ==> stored.Some?
  {
    hide Sound, ClaimRecord;
  }

  /** One holder per token: two claims ever granted under one token carry one claim id. */
  lemma TokenHasOneHolder(g: Governance, log: CeremonyLog, id: string,
                          at: nat, q: ClaimRequest, now: U64, r: ClaimResponse,
                          at': nat, q': ClaimRequest, now': U64, r': ClaimResponse)
    requires LegalLog(CeremonyRule(g), log) && at <= |log| && at' <= |log|
    requires Granted(g, log, at, id, q, now, r) && Granted(g, log, at', id, q', now', r')
    requires q.fencingToken == q'.fencingToken
    ensures q.claimId == q'.claimId
  {
    hide LegalLog, Current, Granted;
    var n := GrantIsStored(g, log, at, id, q, now, r);
    var m := GrantIsStored(g, log, at', id, q', now', r');
    HistoryFollowsBetween(g, log, n, m, id);
  }

  lemma HistoryFollowsBetween(g: Governance, log: CeremonyLog, n: nat, m: nat, id: string)
    requires LegalLog(CeremonyRule(g), log) && n <= |log| && m <= |log|
    requires Current(log[..n], id).Some? && Current(log[..m], id).Some?
    ensures var a, b := Current(log[..n], id).value, Current(log[..m], id).value;
      if n <= m then Follows(a, b) else Follows(b, a)
  {
    hide LegalLog, Current, Follows;
    var lo, hi := if n <= m then n else m, if n <= m then m else n;
    LegalPrefix(CeremonyRule(g), log, hi);
    assert log[..hi][..lo] == log[..lo];
    HistoryFollows(g, log[..hi], lo, id);
  }

  /** The latest claim, asked for again by its party before expiry, is replayed until it is overtaken or
      completed. */
  lemma LatestClaimIsReplayed(g: Governance, log: CeremonyLog, n: nat, retry: ClaimRequest, now: U64)
    requires LegalLog(CeremonyRule(g), log) && n < |log| && log[n].cause.ClaimedBy? && LastClaim(log, log[n].key) == n + 1
    requires retry == log[n].cause.claim && ClaimChecks(log[n].key, retry).Ok?
    ensures Current(log, log[n].key).Some?
    ensures var r := Current(log, log[n].key).value;
      now < r.binding.expiresAtMs && r.terminal.None? ==>
        ClaimPass(g, log[n].key, retry, now, Some(r)) == Reply(ClaimResponse(log[n].key, Claimed, retry.fencingToken, true, false))
  {
    hide LegalLog, Current, Allows, Sound, LastClaim, ClaimPass, ClaimChecks;
    CommitIsFollowed(g, log, n, |log|);
    assert log[..|log|] == log;
    StoredIsSound(g, log, log[n].key);
    StoredClaimIsLast(g, log, log[n].key);
    ClaimedByParty(g, log, n);
    var r := Current(log, log[n].key).value;
    SoundOutcomes(g, r, log[n].key);
    SoundClaim(g, r, log[n].key);
    ClaimAnswersExactlyWhen(g, log[n].key, retry, now, r);
  }

  lemma SoundClaim(g: Governance, r: CeremonyRecord, id: string)
    requires Sound(g, r, id) && r.claimId.Some?
    ensures r.status != Pending
  {
    hide FrameHolds, TerminalHolds;
  }

  lemma ClaimedByParty(g: Governance, log: CeremonyLog, n: nat)
    requires LegalLog(CeremonyRule(g), log) && n < |log| && log[n].cause.ClaimedBy?
    ensures IsParty(log[n].after, log[n].cause.claim.tenantId, log[n].cause.claim.participantId)
  {
    hide LegalLog, Current, Sound;
    LegalAt(CeremonyRule(g), log, n);
  }

  // ---------------------------------------------------------------- the terminal result

  /** A ceremony commits at most one terminal result, and nothing after it. */
  lemma NothingFollowsCompletion(g: Governance, log: CeremonyLog, n: nat, m: nat)
    requires LegalLog(CeremonyRule(g), log) && n < m < |log| && log[n].cause.CompletedBy?
    ensures log[m].key != log[n].key
  {
    hide LegalLog, Current, Allows, Sound;
    LegalAt(CeremonyRule(g), log, m);
    CommitIsGood(g, log, n);
    CommitIsGood(g, log, m);
    CommitIsFollowed(g, log, n, m);
    ClaimHasBefore(g, log, n);
  }

  /** A completion answered with success, by its own commit or by a replay, at `at`. */
  predicate Confirmed(g: Governance, log: CeremonyLog, at: nat, id: string, q: CompleteRequest, now: U64, r: CompleteResponse)
    requires at <= |log|
  {
    var d := CompletePass(g, id, q, now, Current(log[..at], id));
    d == Reply(r) || Committed(log, id, d, r, CompletedBy(q, now), at)
  }

  lemma CompleteAnswerIsTerminal(g: Governance, id: string, q: CompleteRequest, now: U64, stored: Option<CeremonyRecord>)
    ensures var d := CompletePass(g, id, q, now, stored);
      && (d.Reply? ==> stored.Some? && stored.value.terminal == Some(d.reply.terminal))
      && (d.Write? ==> stored.Some? && d.next.terminal == Some(d.reply.terminal))
      && (!d.Fail? ==> d.reply.status == Completed && d.reply.terminal.assertionReceiptHash == Some(q.assertionReceiptHash))
  {
    hide Sound, ResultHash, EvidenceOf;
  }

  /** Every successful completion response ever returned carries the one terminal result. */
  lemma ConfirmationsAgree(g: Governance, log: CeremonyLog, at: nat, id: string, q: CompleteRequest, now: U64, r: CompleteResponse)
    requires LegalLog(CeremonyRule(g), log) && at <= |log| && Confirmed(g, log, at, id, q, now, r)
    ensures Current(log, id).Some? && Current(log, id).value.terminal == Some(r.terminal)
    ensures r.terminal.assertionReceiptHash == Some(q.assertionReceiptHash)
  {
    hide LegalLog, CompletePass, Allows;
    CompleteAnswerIsTerminal(g, id, q, now, Current(log[..at], id));
    if CompletePass(g, id, q, now, Current(log[..at], id)) == Reply(r) {
      HistoryFollows(g, log, at, id);
    } else {
      assert log[..at + 1][|log[..at + 1]| - 1] == log[at];
      HistoryFollows(g, log, at + 1, id);
    }
  }

  /** An exact retry after its commit is answered with the committed result, at whatever time. */
  lemma CompletionIsReplayed(g: Governance, log: CeremonyLog, n: nat, retry: CompleteRequest, now: U64)
    requires LegalLog(CeremonyRule(g), log) && n < |log| && log[n].cause.CompletedBy?
    requires retry.tenantId == log[n].cause.completion.tenantId && retry.participantId == log[n].cause.completion.participantId
    ensures log[n].after.terminal.Some?
    ensures CompletePass(g, log[n].key, retry, now, Current(log, log[n].key)) ==
      if retry.assertionReceiptHash == log[n].cause.completion.assertionReceiptHash
      then Reply(CompleteResponse(log[n].key, Completed, log[n].after.terminal.value, true))
      else Fail(Conflict)
  {
    hide LegalLog, Current, Allows, Sound, ResultHash, EvidenceOf;
    LegalAt(CeremonyRule(g), log, n);
    CommitIsGood(g, log, n);
    ClaimHasBefore(g, log, n);
    CommitIsFollowed(g, log, n, |log|);
    assert log[..|log|] == log;
    StoredIsSound(g, log, log[n].key);
    CompletedByParty(g, log, n);
    SoundOutcome(g, log[n].after, log[n].key);
  }

  lemma CompletedByParty(g: Governance, log: CeremonyLog, n: nat)
    requires LegalLog(CeremonyRule(g), log) && n < |log| && log[n].cause.CompletedBy?
    ensures IsParty(log[n].after, log[n].cause.completion.tenantId, log[n].cause.completion.participantId)
  {
    hide LegalLog, Current, Sound, ResultHash, EvidenceOf;
    LegalAt(CeremonyRule(g), log, n);
  }

  lemma SoundOutcome(g: Governance, r: CeremonyRecord, id: string)
    requires Sound(g, r, id) && r.terminal.Some?
    ensures r.terminal.value.outcome == Completed
  {
    hide FrameHolds, ResultHash, EvidenceOf;
  }

  // ---------------------------------------------------------------- what the hashes pin

  /** The JSON texts of these bindings tell them apart, and so do their digests. */
  ghost predicate BindingsApart(g: Governance, a: ApprovalBinding, b: ApprovalBinding) {
    && CollisionFree(g.sha, {g.bindingJson(a), g.bindingJson(b)})
    && (g.bindingJson(a) == g.bindingJson(b) ==> a == b)
  }

  ghost predicate EvidenceApart(g: Governance, a: Evidence, b: Evidence) {
    && CollisionFree(g.sha, {g.evidenceJson(a), g.evidenceJson(b)})
    && (g.evidenceJson(a) == g.evidenceJson(b) ==> a == b)
  }

  lemma UrnInjective(g: Governance, x: seq<Byte>, y: seq<Byte>)
    requires CollisionFree(g.sha, {x, y})
    ensures Sha256Urn(g, x) == Sha256Urn(g, y) <==> x == y
  {
    if Sha256Urn(g, x) == Sha256Urn(g, y) {
      assert Hex(g.sha(x)) == Sha256Urn(g, x)[7..] && Hex(g.sha(y)) == Sha256Urn(g, y)[7..];
      HexInjective(g.sha(x), g.sha(y));
      assert x in {x, y} && y in {x, y};
    }
  }

  lemma SameHashSameBinding(g: Governance, a: ApprovalBinding, b: ApprovalBinding)
    requires BindingsApart(g, a, b)
    ensures BindingHash(g, a) == BindingHash(g, b) <==> a == b
  {
    UrnInjective(g, g.bindingJson(a), g.bindingJson(b));
  }

  /** A retried begin is answered from the stored ceremony exactly when it carries the very timestamp of
      the first, and the ceremony is not yet completed: the binding includes the time. */
  lemma BeginReplaysExactlyWhen(g: Governance, log: CeremonyLog, n: nat, later: U64)
    requires LegalLog(CeremonyRule(g), log) && n < |log| && log[n].cause.BegunBy?
    requires PrepareBegin(g, log[n].cause.call, later).Ok?
    requires BindingsApart(g, log[n].after.binding, PrepareBegin(g, log[n].cause.call, later).value.binding)
    ensures var retry := PrepareBegin(g, log[n].cause.call, later).value;
      && g.config.ceremonySecret.Some?
      && Current(log, log[n].key).Some?
      && (ReplayBegin(g, retry, later, Current(log, log[n].key)).Ok? <==>
            later == log[n].cause.begunAt && Current(log, log[n].key).value.terminal.None?)
      && (later != log[n].cause.begunAt ==> ReplayBegin(g, retry, later, Current(log, log[n].key)) == Err(Conflict))
  {
    hide LegalLog, Current, Sound, BindingHash, ChallengeHash, BindingsApart, CeremonyIdOf, BeginChecks, BindingValid;
    var q, now := log[n].cause.call, log[n].cause.begunAt;
    LegalAt(CeremonyRule(g), log, n);
    CommitIsFollowed(g, log, n, |log|);
    assert log[..|log|] == log;
    StoredIsSound(g, log, log[n].key);
    SoundTerminal(g, Current(log, log[n].key).value, log[n].key);
    SameHashSameBinding(g, log[n].after.binding, PrepareBegin(g, q, later).value.binding);
    PreparedShape(g, q, now);
    PreparedShape(g, q, later);
  }

  lemma SoundTerminal(g: Governance, r: CeremonyRecord, id: string)
    requires Sound(g, r, id)
    ensures g.config.ceremonySecret.Some?
    ensures r.status.Completed? <==> r.terminal.Some?
    ensures !r.status.Rejected? && !r.status.Expired?
    ensures r.binding.createdAtMs < r.binding.expiresAtMs
  {
    hide ResultHash, EvidenceOf, BindingHash, ChallengeHash, IsCeremonyIdentifier, IsCanonicalUrn;
  }

  lemma PreparedShape(g: Governance, q: BeginCall, now: U64)
    requires PrepareBegin(g, q, now).Ok?
    ensures g.config.ceremonySecret.Some?
    ensures var r := PrepareBegin(g, q, now).value;
      && r.ceremonyId == CeremonyIdOf(g, q) && r.binding.createdAtMs == now
      && g.config.rpId.Some? && g.config.origin.Some? && now + g.config.ttlMs <= U64_MAX
      && r.binding == BindingOf(q, g.config.rpId.value, g.config.origin.value, now, now + g.config.ttlMs)
      && r.bindingHash == BindingHash(g, r.binding)
      && r.challengeHash == ChallengeHash(g, g.config.ceremonySecret.value, r.ceremonyId, r.bindingHash)
  {
    hide Sound, BindingHash, ChallengeHash, CeremonyIdOf, BeginChecks, BindingValid;
  }

  /** A challenge belongs to one ceremony and one binding, as far as the keyed digest and its encoding keep
      the two messages apart. */
  lemma ChallengesTellApart(g: Governance, secret: seq<Byte>, id: string, hash: string, id': string, hash': string)
    requires Addressable([Utf8(id), Utf8(hash)]) && Addressable([Utf8(id'), Utf8(hash')])
    requires CollisionFree(x => g.hmac(secret, x), {ChallengeMessage(id, hash), ChallengeMessage(id', hash')})
    requires var d, d' := g.hmac(secret, ChallengeMessage(id, hash)), g.hmac(secret, ChallengeMessage(id', hash')); g.base64(d) == g.base64(d') ==> d == d'
    ensures DeriveChallenge(g, secret, id, hash) == DeriveChallenge(g, secret, id', hash') <==> id == id' && hash == hash'
  {
    hide Utf8, Frame;
    var x, y := ChallengeMessage(id, hash), ChallengeMessage(id', hash');
    if DeriveChallenge(g, secret, id, hash) == DeriveChallenge(g, secret, id', hash') {
      assert x in {x, y} && y in {x, y};
      assert (z => g.hmac(secret, z))(x) == (z => g.hmac(secret, z))(y);
      ChallengeMessageInjective(id, hash, id', hash');
    }
  }

  lemma ChallengeMessageInjective(id: string, hash: string, id': string, hash': string)
    requires Addressable([Utf8(id), Utf8(hash)]) && Addressable([Utf8(id'), Utf8(hash')])
    requires ChallengeMessage(id, hash) == ChallengeMessage(id', hash')
    ensures id == id' && hash == hash'
  {
    hide Utf8, Frame;
    var x, y := ChallengeMessage(id, hash), ChallengeMessage(id', hash');
    var n := |Utf8(CHALLENGE_DOMAIN)|;
    var p, q := [Utf8(id), Utf8(hash)], [Utf8(id'), Utf8(hash')];
    assert Frame(p) == x[n..] && Frame(q) == y[n..];
    FrameInjective(p, q);
    assert p[0] == q[0] && p[1] == q[1];
    Utf8Injective(id, id');
    Utf8Injective(hash, hash');
  }

  function ChallengeMessage(id: string, hash: string): seq<Byte> {
    Utf8(CHALLENGE_DOMAIN) + Frame([Utf8(id), Utf8(hash)])
  }

  function CallParts(q: BeginCall): seq<string> {
    [q.tenantId, q.participantId, q.proposalId, q.idempotencyKey]
  }

  /** Two begins name one ceremony exactly when tenant, participant, proposal and idempotency key agree. */
  lemma CeremonyIdsTellApart(g: Governance, q: BeginCall, q': BeginCall)
    requires Addressable(TextParts(CallParts(q))) && Addressable(TextParts(CallParts(q')))
    requires CollisionFree(g.sha, {Frame(TextParts(CallParts(q))), Frame(TextParts(CallParts(q')))})
    ensures CeremonyIdOf(g, q) == CeremonyIdOf(g, q') <==>
      q.tenantId == q'.tenantId && q.participantId == q'.participantId && q.proposalId == q'.proposalId && q.idempotencyKey == q'.idempotencyKey
  {
    hide DigestText;
    var a, b := CallParts(q), CallParts(q');
    if CeremonyIdOf(g, q) == CeremonyIdOf(g, q') {
      assert DigestText(g.sha, a) == CeremonyIdOf(g, q)[5..] && DigestText(g.sha, b) == CeremonyIdOf(g, q')[5..];
      DigestTextInjective(g.sha, a, b);
      assert a[0] == b[0] && a[1] == b[1] && a[2] == b[2] && a[3] == b[3];
    }
  }

  /** Tamper evidence: two sound completed records of one ceremony with equal result hashes agree on the
      whole terminal result and on everything the evidence covers. */
  lemma ResultHashPinsTerminal(g: Governance, a: CeremonyRecord, b: CeremonyRecord, id: string)
    requires Sound(g, a, id) && Sound(g, b, id) && a.status == Completed && b.status == Completed
    requires a.terminal.Some? && b.terminal.Some? && a.terminal.value.resultHash == b.terminal.value.resultHash
    requires EvidenceShape(a.terminal.value) && EvidenceShape(b.terminal.value)
    requires EvidenceApart(g, TerminalEvidence(a), TerminalEvidence(b))
    ensures a.terminal == b.terminal
    ensures a.binding.tenantId == b.binding.tenantId && a.binding.participantId == b.binding.participantId
    ensures a.binding.proposalId == b.binding.proposalId && a.binding.canonicalProposalHash == b.binding.canonicalProposalHash
    ensures a.binding.policyHash == b.binding.policyHash && a.binding.credentialGeneration == b.binding.credentialGeneration
    ensures a.binding.policyId == b.binding.policyId && a.binding.policyVersion == b.binding.policyVersion
    ensures a.binding.continuityGeneration == b.binding.continuityGeneration && a.ceremonyId == b.ceremonyId
  {
    hide FrameHolds, IsCanonicalUrn, IsCeremonyIdentifier, Sha256Urn;
    UrnInjective(g, g.evidenceJson(TerminalEvidence(a)), g.evidenceJson(TerminalEvidence(b)));
  }

  predicate EvidenceShape(t: TerminalVerification) {
    t.assertionReceiptHash.Some? && t.credentialId.Some? && t.credentialGeneration.Some?
  }

  function TerminalEvidence(r: CeremonyRecord): Evidence
    requires r.terminal.Some? && EvidenceShape(r.terminal.value)
  {
    var t := r.terminal.value;
    EvidenceOf(r, t.credentialId.value, t.credentialGeneration.value, t.assertionReceiptHash.value, t.completedAtMs)
  }
}
