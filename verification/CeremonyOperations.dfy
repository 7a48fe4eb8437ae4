/** The ceremony operations as a replica runs them, over a store that other replicas change in between. */
module CeremonyOperations {
  import opened Numbers
  import opened Text
  import opened VersionedStore
  import opened Ceremony
  import opened CeremonyHistory

  type CeremonyKv = KvClient<string, CeremonyRecord, Cause>

  /** An error of a loop is its pass's error, or the store's. */
  predicate Explains<R(!new)>(d: Decision<CeremonyRecord, R, CeremonyError>, e: CeremonyError) {
    FromPass(e) ==> d == Fail(e)
  }

  lemma ClaimIsJustified(g: Governance, from: CeremonyLog, id: string, q: ClaimRequest, now: U64,
                         decide: Option<CeremonyRecord> -> ClaimDecision)
    requires forall v :: decide(v) == ClaimPass(g, id, q, now, v)
    ensures Justified(CeremonyRule(g), from, id, decide, ClaimedBy(q, now))
  {
    hide ClaimPass;
    forall v | decide(v).Write? ensures Allowed(CeremonyRule(g), from, id, v, decide(v).next, ClaimedBy(q, now)) {
      assert Allows(g, Commit(id, v, decide(v).next, ClaimedBy(q, now)));
    }
  }

  lemma CompleteIsJustified(g: Governance, from: CeremonyLog, id: string, q: CompleteRequest, now: U64,
                            decide: Option<CeremonyRecord> -> CompleteDecision)
    requires forall v :: decide(v) == CompletePass(g, id, q, now, v)
    ensures Justified(CeremonyRule(g), from, id, decide, CompletedBy(q, now))
  {
    hide CompletePass;
    forall v | decide(v).Write? ensures Allowed(CeremonyRule(g), from, id, v, decide(v).next, CompletedBy(q, now)) {
      assert Allows(g, Commit(id, v, decide(v).next, CompletedBy(q, now)));
    }
  }

  /** What a begin's answer says of the ceremony it names: the challenge is the one the stored record will
      be checked against, for that record's binding, relying party, origin and expiry. */
  predicate IsBound(g: Governance, response: BeginResponse, stored: Option<CeremonyRecord>) {
    && stored.Some?
    && var r := stored.value;
    && r.ceremonyId == response.ceremonyId
    && r.bindingHash == response.bindingHash && r.bindingHash == BindingHash(g, r.binding)
    && r.challengeHash == response.challengeHash == Sha256Urn(g, Utf8(response.challenge))
    && r.binding.rpId == response.rpId && g.config.rpId == Some(response.rpId)
    && r.binding.origin == response.origin && g.config.origin == Some(response.origin)
    && r.binding.expiresAtMs == response.expiresAtMs
  }

  lemma FirstAnswerIsBound(g: Governance, log: CeremonyLog, record: CeremonyRecord)
    requires log != [] && log[|log| - 1].key == record.ceremonyId && log[|log| - 1].after == record
    requires Sound(g, record, record.ceremonyId) && g.config.ceremonySecret.Some?
    ensures IsBound(g, BeginReply(g, record, record, false), Current(log, record.ceremonyId))
  {
    hide BindingHash, DeriveChallenge, Sha256Urn, StatusHolds, BindingValid;
  }

  lemma ReplayIsBound(g: Governance, record: CeremonyRecord, now: U64, stored: Option<CeremonyRecord>)
    requires Sound(g, record, record.ceremonyId) && g.config.ceremonySecret.Some?
    ensures ReplayBegin(g, record, now, stored).Ok? ==> IsBound(g, ReplayBegin(g, record, now, stored).value, stored)
  {
    hide BindingHash, DeriveChallenge, Sha256Urn, StatusHolds, BindingValid;
  }

  lemma StaysStored(g: Governance, before: CeremonyLog, log: CeremonyLog, id: string)
    requires LegalLog(CeremonyRule(g), log) && before <= log && Current(before, id).Some?
    ensures Current(log, id).Some?
  {
    hide LegalLog, Allows, Current;
    assert log[..|before|] == before;
    HistoryFollows(g, log, |before|, id);
  }

  lemma BeginIsAllowed(g: Governance, from: CeremonyLog, q: BeginCall, now: U64)
    requires PrepareBegin(g, q, now).Ok?
    ensures var record := PrepareBegin(g, q, now).value;
      Allowed(CeremonyRule(g), from, record.ceremonyId, None, record, BegunBy(q, now))
  {
    hide PrepareBegin;
    var record := PrepareBegin(g, q, now).value;
    assert Allows(g, Commit(record.ceremonyId, None, record, BegunBy(q, now)));
  }

  /** No pass blames the store or contention. */
  predicate FromPass(e: CeremonyError) {
    e != CasRetriesExhausted && e != CeremonyError.StoreFailed
  }

  lemma ClaimErrors(g: Governance, id: string, q: ClaimRequest, now: U64, stored: Option<CeremonyRecord>)
    ensures var d := ClaimPass(g, id, q, now, stored); d.Fail? ==> FromPass(d.error)
  {
    hide Sound;
  }

  lemma CompleteErrors(g: Governance, id: string, q: CompleteRequest, now: U64, stored: Option<CeremonyRecord>)
    ensures var d := CompletePass(g, id, q, now, stored); d.Fail? ==> FromPass(d.error)
  {
    hide Sound, ResultHash, EvidenceOf;
  }

  class CeremonyStore {
    const g: Governance
    const kv: CeremonyKv

    ghost predicate Valid()
      reads this, kv
    {
      kv.Valid() && kv.rule == CeremonyRule(g)
    }

    constructor (g: Governance, kv: CeremonyKv)
      requires kv.Valid() && kv.rule == CeremonyRule(g)
      ensures Valid() && this.g == g && this.kv == kv
    {
      this.g := g;
      this.kv := kv;
    }

    /** What a begin's answer means: its record was committed at `at`, or the one current at `at` replays. */
    ghost predicate BeginAnswers(log: CeremonyLog, q: BeginCall, now: U64, record: CeremonyRecord,
                                 r: Result<BeginResponse, CeremonyError>, at: nat)
      reads this
      requires g.config.ceremonySecret.Some?
    {
      && at <= |log|
      && var answer := ReplayBegin(g, record, now, Current(log[..at], record.ceremonyId));
      match r
      case Ok(response) =>
        if response.replayed then answer == Ok(response)
        else at < |log| && log[at] == Commit(record.ceremonyId, None, record, BegunBy(q, now)) && response == BeginReply(g, record, record, false)
      case Err(e) => e == CeremonyError.StoreFailed || (Current(log[..at], record.ceremonyId).Some? && answer == Err(e))
    }

    method Begin(q: BeginCall, now: U64) returns (r: Result<BeginResponse, CeremonyError>, ghost at: nat)
      requires Valid()
      modifies kv
      ensures Valid() && old(kv.store.log) <= kv.store.log
      ensures var prepared := PrepareBegin(g, q, now);
        && (prepared.Err? ==> r == Err(prepared.error) && kv.store == old(kv.store) && kv.script == old(kv.script))
        && (prepared.Ok? ==> Used(old(kv.script), kv.script, r == Err(CeremonyError.StoreFailed)))
        && (prepared.Ok? && old(kv.script) == [] ==> at == |old(kv.store.log)|)
        && (r.Ok? ==> IsBound(g, r.value, Current(kv.store.log, r.value.ceremonyId)))
        && (prepared.Ok? ==>
              g.config.ceremonySecret.Some? && |old(kv.store.log)| <= at && BeginAnswers(kv.store.log, q, now, prepared.value, r, at))
    {
      hide PrepareBegin, ReplayBegin, DeriveChallenge, LegalLog, Current, ChallengeHash, BindingHash, BindingOf, CeremonyIdOf, Allowed, Allows, Used, AfterOthers, Sound, IsBound;
      at := |kv.store.log|;
      var prepared := PrepareBegin(g, q, now);
      if prepared.Err? {
        return Err(prepared.error), at;
      }
      PreparedShape(g, q, now);
      BeginStores(g, q, now);
      var record := prepared.value;
      BeginIsAllowed(g, kv.store.log, q, now);
      var put := kv.PutIfRevision(record.ceremonyId, record, 0, BegunBy(q, now), None);
      at := |kv.store.log|;
      if put.Err? {
        return Err(CeremonyError.StoreFailed), at;
      }
      if put.value == Applied {
        at := at - 1;
        FirstAnswerIsBound(g, kv.store.log, record);
        return Ok(BeginReply(g, record, record, false)), at;
      }
      ghost var left, before := kv.script, kv.store.log;
      var got := kv.GetVersioned(record.ceremonyId);
      UsedOn(old(kv.script), left, kv.script, got.Err?);
      QuietStaysQuiet(old(kv.script), left, false);
      at := |kv.store.log|;
      assert kv.store.log[..at] == kv.store.log;
      if got.Err? {
        return Err(CeremonyError.StoreFailed), at;
      }
      r := ReplayBegin(g, record, now, if got.value.Some? then Some(got.value.value.value) else None);
      StaysStored(g, before, kv.store.log, record.ceremonyId);
      ReplayIsBound(g, record, now, Current(kv.store.log, record.ceremonyId));
      ReplaysAreMarked(g, record, now, if got.value.Some? then Some(got.value.value.value) else None);
    }

    /** A claim is its pass on the record current at `at`; one that is granted anew is the commit there. */
    method Claim(id: string, q: ClaimRequest, now: U64) returns (r: Result<ClaimResponse, CeremonyError>, ghost at: nat)
      requires Valid()
      modifies kv
      ensures Valid() && old(kv.store.log) <= kv.store.log
      ensures var checks := ClaimChecks(id, q);
        && (checks.Err? ==> r == Err(checks.error) && kv.store == old(kv.store) && kv.script == old(kv.script))
        && (checks.Ok? ==> |old(kv.store.log)| <= at <= |kv.store.log| && ClaimAnswers(kv.store.log, id, q, now, r, at))
        && (checks.Ok? ==> kv.Served(id, r == Err(CeremonyError.StoreFailed), r == Err(CasRetriesExhausted), at))
    {
      hide ClaimPass, LegalLog, Current, ClaimChecks, Used, CommitCount;
      at := |kv.store.log|;
      var checks := ClaimChecks(id, q);
      if checks.Err? {
        return Err(checks.error), at;
      }
      var decide := stored => ClaimPass(g, id, q, now, stored);
      ClaimIsJustified(g, kv.store.log, id, q, now, decide);
      var out;
      out, at := CasLoop(kv, id, decide, ClaimedBy(q, now));
      ClaimErrors(g, id, q, now, Current(kv.store.log[..at], id));
      r := ToResult(out, CasRetriesExhausted, CeremonyError.StoreFailed);
    }

    ghost predicate ClaimAnswers(log: CeremonyLog, id: string, q: ClaimRequest, now: U64, r: Result<ClaimResponse, CeremonyError>, at: nat)
      reads this
      requires at <= |log|
    {
      var d := ClaimPass(g, id, q, now, Current(log[..at], id));
      match r
      case Ok(response) => d == Reply(response) || Committed(log, id, d, response, ClaimedBy(q, now), at)
      case Err(e) => Explains(d, e)
    }

    /** Every success is confirmed: so all of them, on every replica, carry the one terminal result. */
    method CompleteVerified(id: string, q: CompleteRequest, now: U64) returns (r: Result<CompleteResponse, CeremonyError>, ghost at: nat)
      requires Valid()
      modifies kv
      ensures Valid() && old(kv.store.log) <= kv.store.log
      ensures var checks := CompleteChecks(id, q);
        && (checks.Err? ==> r == Err(checks.error) && kv.store == old(kv.store) && kv.script == old(kv.script))
        && (checks.Ok? ==> |old(kv.store.log)| <= at <= |kv.store.log| && CompleteAnswers(kv.store.log, id, q, now, r, at))
        && (checks.Ok? ==> kv.Served(id, r == Err(CeremonyError.StoreFailed), r == Err(CasRetriesExhausted), at))
      ensures r.Ok? ==> Current(kv.store.log, id).Some? && Current(kv.store.log, id).value.terminal == Some(r.value.terminal)
    {
      hide CompletePass, LegalLog, Current, CompleteChecks, Used, CommitCount;
      at := |kv.store.log|;
      var checks := CompleteChecks(id, q);
      if checks.Err? {
        return Err(checks.error), at;
      }
      var decide := stored => CompletePass(g, id, q, now, stored);
      CompleteIsJustified(g, kv.store.log, id, q, now, decide);
      var out;
      out, at := CasLoop(kv, id, decide, CompletedBy(q, now));
      CompleteErrors(g, id, q, now, Current(kv.store.log[..at], id));
      r := ToResult(out, CasRetriesExhausted, CeremonyError.StoreFailed);
      if r.Ok? {
        ConfirmationsAgree(g, kv.store.log, at, id, q, now, r.value);
      }
    }

    ghost predicate CompleteAnswers(log: CeremonyLog, id: string, q: CompleteRequest, now: U64, r: Result<CompleteResponse, CeremonyError>, at: nat)
      reads this
      requires at <= |log|
    {
      match r
      case Ok(response) => Confirmed(g, log, at, id, q, now, response)
      case Err(e) => Explains(CompletePass(g, id, q, now, Current(log[..at], id)), e)
    }
  }

  lemma ReplaysAreMarked(g: Governance, record: CeremonyRecord, now: U64, stored: Option<CeremonyRecord>)
    requires g.config.ceremonySecret.Some?
    ensures ReplayBegin(g, record, now, stored).Ok? ==>
      ReplayBegin(g, record, now, stored).value.replayed && ReplayBegin(g, record, now, stored).value.ceremonyId == record.ceremonyId
    ensures ReplayBegin(g, record, now, stored).Err? ==> FromPass(ReplayBegin(g, record, now, stored).error)
  {
    hide Sound, DeriveChallenge, IsParty;
  }
}
