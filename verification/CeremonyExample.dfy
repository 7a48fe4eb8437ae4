/** One ceremony from begin to completion, on plain input: what the other laws speak of does happen. */
module CeremonyExample {
  import opened Numbers
  import opened Text
  import opened Digest
  import opened VersionedStore
  import opened Ceremony
  import opened CeremonyHistory

  const CONFIG := Config(true, Some("r"), Some("o"), {"t"}, 60_000, Some([]))

  function Key(): string {
    seq(16, _ => 'k')
  }

  function BeginRequestOf(g: Governance): BeginRequest {
    BeginRequest("t", "u", Sha256Urn(g, []), "p", 1, Sha256Urn(g, []), "s", 1, 1, None)
  }

  function BeginCallOf(g: Governance): BeginCall {
    BeginCall("n", "u", "t", Key(), BeginRequestOf(g))
  }

  const CLAIM := ClaimRequest("t", "u", "c", 1)

  function Completion(g: Governance, r: CeremonyRecord): CompleteRequest {
    CompleteRequest("t", "u", "c", 1, r.bindingHash, r.challengeHash, "d", 1, Sha256Urn(g, []), true)
  }

  predicate Plain(s: string) {
    forall i | 0 <= i < |s| :: 'a' <= s[i] <= 'z'
  }

  lemma {:induction false} PlainIsText(s: string)
    requires Plain(s)
    ensures |Utf8(s)| == |s| && NoControl(s) && NoWhitespace(s)
  {
    if s != "" {
      PlainIsText(s[1..]);
      assert s == [s[0]] + s[1..];
    }
  }

  lemma CanonicalIsUrn(s: string)
    requires IsCanonicalUrn(s)
    ensures IsSha256Urn(s)
  {
    forall i | 7 <= i < 71 ensures IsHexChar(s[i]) {
      assert s[i] == s[7..][i - 7];
    }
  }

  lemma LettersAreIdentifiers()
    ensures IsCeremonyIdentifier("t") && IsCeremonyIdentifier("u") && IsCeremonyIdentifier("n") && IsCeremonyIdentifier("p")
    ensures IsCeremonyIdentifier("s") && IsCeremonyIdentifier("r") && IsCeremonyIdentifier("o") && IsCeremonyIdentifier("c")
    ensures IsCeremonyIdentifier("d") && IsIdempotencyKey(Key())
  {
    hide Utf8, NoControl, NoWhitespace;
    PlainIsText("t");
    PlainIsText("u");
    PlainIsText("n");
    PlainIsText("p");
    PlainIsText("s");
    PlainIsText("r");
    PlainIsText("o");
    PlainIsText("c");
    PlainIsText("d");
    PlainIsText(Key());
  }

  lemma BeginIsPrepared(g: Governance) returns (r: CeremonyRecord)
    requires g.config == CONFIG
    ensures PrepareBegin(g, BeginCallOf(g), 1) == Ok(r)
    ensures Sound(g, r, r.ceremonyId) && r.status == Pending && r.fencingToken == 0 && r.terminal.None?
    ensures IsParty(r, "t", "u") && r.binding.createdAtMs == 1 && r.binding.expiresAtMs == 60_001
    ensures r.binding.credentialGeneration == 1 && r.binding.activationCredentialId == None
  {
    hide PrepareBegin, Sound, IsCeremonyIdentifier, IsIdempotencyKey, IsCanonicalUrn, IsSha256Urn, Sha256Urn;
    LettersAreIdentifiers();
    CanonicalIsUrn(Sha256Urn(g, []));
    BeginPreparesExactlyWhen(g, BeginCallOf(g), 1);
    r := PrepareBegin(g, BeginCallOf(g), 1).value;
    BeginStores(g, BeginCallOf(g), 1);
    PreparedShape(g, BeginCallOf(g), 1);
  }

  lemma ClaimIsGranted(g: Governance, r: CeremonyRecord) returns (claimed: CeremonyRecord)
    requires Sound(g, r, r.ceremonyId) && r.status == Pending && r.fencingToken == 0 && r.terminal.None?
    requires IsParty(r, "t", "u") && r.binding.createdAtMs == 1 && r.binding.expiresAtMs == 60_001
    ensures ClaimPass(g, r.ceremonyId, CLAIM, 2, Some(r)).Write? && claimed == ClaimPass(g, r.ceremonyId, CLAIM, 2, Some(r)).next
    ensures Sound(g, claimed, r.ceremonyId) && SameCeremony(r, claimed) && claimed.status == Claimed
    ensures claimed.claimId == Some("c") && claimed.fencingToken == 1 && claimed.claimedAtMs == Some(2) && claimed.terminal.None?
  {
    hide Sound, IsCeremonyIdentifier, IsCeremonyId, ClaimPass;
    LettersAreIdentifiers();
    SoundHasId(g, r, r.ceremonyId);
    ClaimWritesExactlyWhen(g, r.ceremonyId, CLAIM, 2, r);
    ClaimMoves(g, r.ceremonyId, CLAIM, 2, r);
    claimed := ClaimPass(g, r.ceremonyId, CLAIM, 2, Some(r)).next;
    SoundClaim(g, claimed, r.ceremonyId);
    SoundOutcomes(g, claimed, r.ceremonyId);
  }

  lemma SoundHasId(g: Governance, r: CeremonyRecord, id: string)
    requires Sound(g, r, id)
    ensures IsCeremonyId(id) && IsCanonicalUrn(r.bindingHash) && IsCanonicalUrn(r.challengeHash)
  {
    hide BindingValid, StatusHolds, BindingHash, ChallengeHash, IsCanonicalUrn, IsCeremonyId;
  }

  lemma CompletionCommits(g: Governance, r: CeremonyRecord) returns (done: CeremonyRecord)
    requires Sound(g, r, r.ceremonyId) && r.status == Claimed && r.claimId == Some("c") && r.fencingToken == 1
    requires r.claimedAtMs == Some(2) && IsParty(r, "t", "u") && r.binding.expiresAtMs == 60_001
    requires r.binding.credentialGeneration == 1 && r.binding.activationCredentialId == None
    ensures var d := CompletePass(g, r.ceremonyId, Completion(g, r), 3, Some(r));
      d.Write? && done == d.next && done.terminal.Some? && d.reply == CompleteResponse(r.ceremonyId, Completed, done.terminal.value, false)
  {
    hide Sound, IsCeremonyIdentifier, IsCeremonyId, CompletePass, IsCanonicalUrn, Sha256Urn;
    LettersAreIdentifiers();
    SoundHasId(g, r, r.ceremonyId);
    CompleteWritesExactlyWhen(g, r.ceremonyId, Completion(g, r), 3, r);
    CompleteAnswersExactlyWhen(g, r.ceremonyId, Completion(g, r), 3, r);
    done := CompletePass(g, r.ceremonyId, Completion(g, r), 3, Some(r)).next;
  }

  /** Begin, claim and complete, one after the other, in a legal history that ends with a terminal result. */
  lemma CeremonyRunsThrough(g: Governance) returns (log: CeremonyLog)
    requires g.config == CONFIG
    ensures LegalLog(CeremonyRule(g), log) && |log| == 3 && log[0].key == log[1].key == log[2].key
    ensures log[0].cause == BegunBy(BeginCallOf(g), 1) && log[1].cause == ClaimedBy(CLAIM, 2) && log[2].cause.CompletedBy?
    ensures Current(log, log[0].key).Some? && Current(log, log[0].key).value.terminal.Some?
  {
    hide Sound, PrepareBegin, ClaimPass, CompletePass, Current, LegalLog, SameCeremony;
    var r := BeginIsPrepared(g);
    var claimed := ClaimIsGranted(g, r);
    SameFields(r, claimed);
    var done := CompletionCommits(g, claimed);
    var a := Commit(r.ceremonyId, None, r, BegunBy(BeginCallOf(g), 1));
    var b := Commit(r.ceremonyId, Some(r), claimed, ClaimedBy(CLAIM, 2));
    var c := Commit(r.ceremonyId, Some(claimed), done, CompletedBy(Completion(g, claimed), 3));
    log := [a, b, c];
    ChainIsLegal(g, a, b, c);
  }

  lemma SameFields(a: CeremonyRecord, b: CeremonyRecord)
    requires SameCeremony(a, b)
    ensures a.ceremonyId == b.ceremonyId && a.binding == b.binding
  {
  }

  lemma ChainIsLegal(g: Governance, a: CeremonyCommit, b: CeremonyCommit, c: CeremonyCommit)
    requires a.key == b.key == c.key && a.before.None? && b.before == Some(a.after) && c.before == Some(b.after)
    requires Allows(g, a) && Allows(g, b) && Allows(g, c)
    ensures LegalLog(CeremonyRule(g), [a, b, c]) && Current([a, b, c], a.key) == Some(c.after)
  {
    hide Allows;
    var log := [a, b, c];
    assert log[..0] == [] && log[..1] == [a] && log[..2] == [a, b] && [a, b][..1] == [a];
  }
}
