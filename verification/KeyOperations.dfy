/** The key operations as a replica runs them, over a store that other replicas change in between. */
module KeyOperations {
  import opened Numbers
  import opened VersionedStore
  import opened RawKey
  import opened KeyLifecycle
  import opened KeyCredentials
  import opened KeyAnswers

  type KeyKv = KvClient<Path, Value, Cause>

  function ViewOf(got: Option<Versioned<Value>>): Option<Value> {
    if got.Some? then Some(got.value.value) else None
  }

  lemma IndexPassIsJustified(ring: Keyring, from: KeyLog, orgId: string, keyId: string, decide: Option<Value> -> Decision<Value, (), KeyError>)
    requires LegalLog(KeyRule(ring), from) && BelongsTo(from, keyId, orgId)
    requires forall v :: decide(v) == IndexPass(keyId, v)
    ensures Justified(KeyRule(ring), from, OrgIndexPath(orgId), decide, IndexedBy(orgId, keyId))
  {
    hide LegalLog, Current;
    var key, cause := OrgIndexPath(orgId), IndexedBy(orgId, keyId);
    forall v | decide(v).Write? ensures Allowed(KeyRule(ring), from, key, v, decide(v).next, cause) {
      forall log | from <= log && LegalLog(KeyRule(ring), log) ensures KeyRule(ring)(log, Commit(key, v, decide(v).next, cause)) {
        assert log[..|from|] == from;
        LifecycleIsMonotone(ring, log, |from|, keyId);
        assert Allows(ring, log, Commit(key, v, decide(v).next, cause));
      }
    }
  }

  lemma RotateErrors(ring: Keyring, q: RotateRequest, stored: Option<Value>)
    ensures var d := RotatePass(ring, q, stored); d.Fail? ==> d.error == InvalidValue || d.error == VersionOverflow
  {
    hide HashSecret, RotateSecret, RotateMarker, Format;
  }

  lemma RotatePassIsJustified(ring: Keyring, from: KeyLog, q: RotateRequest, decide: Option<Value> -> Decision<Value, RotateReply, KeyError>)
    requires forall v :: decide(v) == RotatePass(ring, q, v)
    ensures Justified(KeyRule(ring), from, KeyPath(q.keyId), decide, RotatedBy(q))
  {
    forall v | decide(v).Write? ensures Allowed(KeyRule(ring), from, KeyPath(q.keyId), v, decide(v).next, RotatedBy(q)) {
      forall log ensures KeyRule(ring)(log, Commit(KeyPath(q.keyId), v, decide(v).next, RotatedBy(q))) {
        assert Allows(ring, log, Commit(KeyPath(q.keyId), v, decide(v).next, RotatedBy(q)));
      }
    }
  }

  lemma RevokePassIsJustified(ring: Keyring, from: KeyLog, orgId: string, keyId: string, decide: Option<Value> -> Decision<Value, bool, KeyError>)
    requires forall v :: decide(v) == RevokePass(orgId, keyId, v)
    ensures Justified(KeyRule(ring), from, KeyPath(keyId), decide, RevokedBy(orgId, keyId))
  {
    forall v | decide(v).Write? ensures Allowed(KeyRule(ring), from, KeyPath(keyId), v, decide(v).next, RevokedBy(orgId, keyId)) {
      forall log ensures KeyRule(ring)(log, Commit(KeyPath(keyId), v, decide(v).next, RevokedBy(orgId, keyId))) {
        assert Allows(ring, log, Commit(KeyPath(keyId), v, decide(v).next, RevokedBy(orgId, keyId)));
      }
    }
  }

  lemma CreateIsAllowed(ring: Keyring, from: KeyLog, q: CreateRequest, nowMs: U64)
    ensures Allowed(KeyRule(ring), from, KeyPath(KeyIdOf(ring, q)), None, KeyValue(NewRecord(ring, q, nowMs)), CreatedBy(q, nowMs))
  {
    hide NewRecord, KeyIdOf;
    forall log: KeyLog
      ensures KeyRule(ring)(log, Commit(KeyPath(KeyIdOf(ring, q)), None, KeyValue(NewRecord(ring, q, nowMs)), CreatedBy(q, nowMs)))
    {
      assert Allows(ring, log, Commit(KeyPath(KeyIdOf(ring, q)), None, KeyValue(NewRecord(ring, q, nowMs)), CreatedBy(q, nowMs)));
    }
  }

  /** An index pass that replied or wrote leaves the key in the index from then on. */
  lemma PassIndexes(ring: Keyring, log: KeyLog, at: nat, orgId: string, keyId: string,
                    decide: Option<Value> -> Decision<Value, (), KeyError>, out: Outcome<(), KeyError>)
    requires LegalLog(KeyRule(ring), log) && (forall v :: decide(v) == IndexPass(keyId, v))
    requires Decided(log, OrgIndexPath(orgId), decide, IndexedBy(orgId, keyId), out, at)
    ensures out.Replied? || out.Wrote? ==> keyId in Index(log, orgId)
    ensures !out.Failed?
  {
    hide LegalLog, Allows;
    LegalPrefix(KeyRule(ring), log, at);
    IndexIsSound(ring, log[..at], orgId);
    if out.Replied? {
      IndexOnlyGrows(ring, log, at, orgId);
    } else if out.Wrote? {
      IndexCommitAppends(ring, log, at);
      assert keyId in Index(log[..at + 1], orgId);
      IndexOnlyGrows(ring, log, at + 1, orgId);
    }
  }

  class KeyStore {
    const ring: Keyring
    const kv: KeyKv

    ghost predicate Valid()
      reads this, kv
    {
      kv.Valid() && kv.rule == KeyRule(ring)
    }

    constructor (ring: Keyring, kv: KeyKv)
      requires kv.Valid() && kv.rule == KeyRule(ring)
      ensures Valid() && this.ring == ring && this.kv == kv
    {
      this.ring := ring;
      this.kv := kv;
    }

    method IndexAdd(orgId: string, keyId: string) returns (r: Result<(), KeyError>)
      requires Valid() && BelongsTo(kv.store.log, keyId, orgId)
      modifies kv
      ensures Valid() && old(kv.store.log) <= kv.store.log
      ensures r.Ok? ==> keyId in Index(kv.store.log, orgId)
      ensures r.Err? ==> r.error == CasRetriesExhausted || r.error == KeyError.StoreFailed
      ensures Used(old(kv.script), kv.script, r == Err(KeyError.StoreFailed))
      ensures r == Err(CasRetriesExhausted) ==> old(kv.script) != [] && Contended(old(kv.store.log), kv.store.log, OrgIndexPath(orgId), MAX_CAS_RETRIES)
    {
      hide LegalLog, BelongsTo, Index, IndexPass;
      var decide := stored => IndexPass(keyId, stored);
      IndexPassIsJustified(ring, kv.store.log, orgId, keyId, decide);
      var out;
      ghost var at;
      out, at := CasLoop(kv, OrgIndexPath(orgId), decide, IndexedBy(orgId, keyId));
      PassIndexes(ring, kv.store.log, at, orgId, keyId, decide, out);
      r := ToResult(out, CasRetriesExhausted, KeyError.StoreFailed);
    }

    /** The record at position `at`, as a create that succeeds leaves or finds it. */
    ghost predicate CreateAnswers(log: KeyLog, q: CreateRequest, nowMs: U64, r: Result<(string, ApiKeyMeta), KeyError>, at: nat)
      reads this
    {
      && at <= |log|
      && var keyId := KeyIdOf(ring, q);
      && var seen := Stored(log[..at], keyId);
      match r
      case Ok((raw, meta)) =>
        && seen.Some?
        && meta == Meta(seen.value)
        && raw == CreatedRaw(ring, q)
        && SameCreateRequest(seen.value, NewRecord(ring, q, nowMs))
        && keyId in Index(log, q.orgId)
      case Err(IdempotencyConflict) => seen.Some? && !SameCreateRequest(seen.value, NewRecord(ring, q, nowMs))
      case Err(e) => e == CasRetriesExhausted || e == KeyError.StoreFailed
    }

    lemma NowStored(keyId: string)
      requires Valid() && Current(kv.store.log, KeyPath(keyId)).Some?
      ensures Stored(kv.store.log, keyId).Some?
      ensures Load(Current(kv.store.log, KeyPath(keyId)), keyId) == Ok(Some(Stored(kv.store.log, keyId).value))
    {
      KeyPathHoldsItsRecord(ring, kv.store.log, keyId);
    }

    /** The conditional write of a new record, and the read that follows when one is already there.  On
        success the record is stored and is this request's. */
    method WriteOrFind(q: CreateRequest, nowMs: U64) returns (r: Result<ApiKeyRecord, KeyError>, ghost at: nat)
      requires Valid()
      modifies kv
      ensures Valid() && old(kv.store.log) <= kv.store.log && at == |kv.store.log|
      ensures var seen := Stored(kv.store.log, KeyIdOf(ring, q)); var record := NewRecord(ring, q, nowMs);
        match r
        case Ok(existing) => seen == Some(existing) && SameCreateRequest(existing, record)
        case Err(e) => e == KeyError.StoreFailed || (e == IdempotencyConflict && seen.Some? && !SameCreateRequest(seen.value, record))
      ensures Used(old(kv.script), kv.script, r == Err(KeyError.StoreFailed))
    {
      hide LegalLog, NewRecord, KeyIdOf, CreatedRaw, Index, Allows, SameCreateRequest, Used, AfterOthers;
      var keyId, record := KeyIdOf(ring, q), NewRecord(ring, q, nowMs);
      CreateIsAllowed(ring, kv.store.log, q, nowMs);
      var put := kv.PutIfRevision(KeyPath(keyId), KeyValue(record), 0, CreatedBy(q, nowMs), None);
      at := |kv.store.log|;
      if put.Err? {
        return Err(KeyError.StoreFailed), at;
      }
      if put.value == Applied {
        SameAsItself(record);
        return Ok(record), at;
      }
      NowStored(keyId);
      ghost var before, left := kv.store.log, kv.script;
      var got := kv.GetVersioned(KeyPath(keyId));
      UsedOn(old(kv.script), left, kv.script, got.Err?);
      at := |kv.store.log|;
      if got.Err? {
        return Err(KeyError.StoreFailed), at;
      }
      assert kv.store.log[..|before|] == before;
      LifecycleIsMonotone(ring, kv.store.log, |before|, keyId);
      NowStored(keyId);
      r := Reconcile(Load(ViewOf(got.value), keyId), record);
    }

    lemma SameOrganisation(existing: ApiKeyRecord, q: CreateRequest, nowMs: U64)
      requires SameCreateRequest(existing, NewRecord(ring, q, nowMs))
      ensures existing.orgId == q.orgId
    {
    }

    /** Record first, at revision 0; then the index.  A create that finds a record repairs the index and
        replays only if the record is this request's; a record, once there, is never found missing. */
    method Create(q: CreateRequest, nowMs: U64) returns (r: Result<(string, ApiKeyMeta), KeyError>, ghost at: nat)
      requires Valid()
      modifies kv
      ensures Valid() && old(kv.store.log) <= kv.store.log
      ensures |old(kv.store.log)| <= at && CreateAnswers(kv.store.log, q, nowMs, r, at)
      ensures Used(old(kv.script), kv.script, r == Err(KeyError.StoreFailed))
      ensures r == Err(CasRetriesExhausted) ==> old(kv.script) != [] && Contended(old(kv.store.log), kv.store.log, OrgIndexPath(q.orgId), MAX_CAS_RETRIES)
    {
      hide LegalLog, KeyIdOf, CreatedRaw, Index, Allows, NewRecord, SameCreateRequest, Stored, Used, CommitCount;
      var existing;
      existing, at := WriteOrFind(q, nowMs);
      ghost var read, left := kv.store.log, kv.script;
      assert read[..at] == read;
      if existing.Err? {
        return Err(existing.error), at;
      }
      SameOrganisation(existing.value, q, nowMs);
      QuietStaysQuiet(old(kv.script), left, false);
      CommitsAddUp(old(kv.store.log), read, OrgIndexPath(q.orgId));
      var indexed := IndexAdd(q.orgId, KeyIdOf(ring, q));
      UsedOn(old(kv.script), left, kv.script, indexed == Err(KeyError.StoreFailed));
      assert kv.store.log[..at] == read;
      if indexed.Err? {
        return Err(indexed.error), at;
      }
      r := Ok((CreatedRaw(ring, q), Meta(existing.value)));
    }

    /** One read of the index, then one read per entry. */
    method List(orgId: string) returns (r: Result<seq<ApiKeyMeta>, KeyError>, ghost from: nat, ghost views: seq<Option<Value>>)
      requires Valid()
      modifies kv
      ensures Valid() && old(kv.store.log) <= kv.store.log
      ensures |old(kv.store.log)| <= from <= |kv.store.log|
      ensures r.Err? ==> r.error == KeyError.StoreFailed
      ensures Used(old(kv.script), kv.script, r.Err?)
      ensures r.Ok? ==>
        && ViewsSince(kv.store.log, from, Index(kv.store.log[..from], orgId), views)
        && |Index(kv.store.log[..from], orgId)| == |views|
        && Listed(orgId, Index(kv.store.log[..from], orgId), views) == r
    {
      hide LegalLog, Allows, Current, Index, AfterOthers, Observed;
      hide Used;
      views, from := [], |kv.store.log|;
      var got := kv.GetVersioned(OrgIndexPath(orgId));
      from := |kv.store.log|;
      ghost var read := kv.store.log;
      if got.Err? {
        return Err(KeyError.StoreFailed), from, views;
      }
      assert read[..from] == read;
      IndexIsSound(ring, read, orgId);
      var ids := IndexIds(ViewOf(got.value)).value;
      var out := [];
      for i := 0 to |ids|
        invariant Valid() && read <= kv.store.log
        invariant ViewsSince(kv.store.log, from, ids[..i], views)
        invariant Listed(orgId, ids[..i], views) == Ok(out)
        invariant Used(old(kv.script), kv.script, false)
      {
        ghost var before, left := kv.store.log, kv.script;
        var view := kv.GetVersioned(KeyPath(ids[i]));
        UsedOn(old(kv.script), left, kv.script, view.Err?);
        if view.Err? {
          return Err(KeyError.StoreFailed), from, views;
        }
        ViewsSinceLater(before, kv.store.log, from, ids[..i], views);
        AnotherView(read, from, orgId, ids, i, views, ViewOf(view.value));
        views := views + [ViewOf(view.value)];
        var found := Load(ViewOf(view.value), ids[i]).value;
        if found.Some? && found.value.orgId == orgId {
          out := out + [Meta(found.value)];
        }
      }
      assert ids[..|ids|] == ids && kv.store.log[..from] == read;
      r := Ok(out);
    }

    lemma AnotherView(read: KeyLog, from: nat, orgId: string, ids: seq<string>, i: nat, views: seq<Option<Value>>, view: Option<Value>)
      requires Valid() && read <= kv.store.log && from == |read| && ids == Index(read, orgId) && i < |ids|
      requires ViewsSince(kv.store.log, from, ids[..i], views) && view == Current(kv.store.log, KeyPath(ids[i]))
      ensures ViewsSince(kv.store.log, from, ids[..i + 1], views + [view])
      ensures Load(view, ids[i]).Ok?
      ensures Listed(orgId, ids[..i + 1], views + [view]) ==
        var earlier :- Listed(orgId, ids[..i], views);
        var found := Load(view, ids[i]).value;
        Ok(if found.Some? && found.value.orgId == orgId then earlier + [Meta(found.value)] else earlier)
    {
      hide LegalLog, Allows, Current, Index;
      var log := kv.store.log;
      assert log[..|log|] == log;
      KeyPathHoldsItsRecord(ring, log, ids[i]);
      assert ids[..i + 1][..i] == ids[..i] && (views + [view])[..i] == views;
      assert ViewSince(log, from, ids[i], view);
      forall k | 0 <= k < i + 1 ensures ViewSince(log, from, ids[..i + 1][k], (views + [view])[k]) {
        if k < i {
          assert ViewSince(log, from, ids[..i][k], views[k]);
        }
      }
    }

    /** A rotate is its pass on the record current at `at`; a replacement is the commit there. */
    method Rotate(q: RotateRequest) returns (r: Result<RotateReply, KeyError>, ghost at: nat)
      requires Valid()
      modifies kv
      ensures Valid() && old(kv.store.log) <= kv.store.log
      ensures |old(kv.store.log)| <= at <= |kv.store.log|
      ensures var d := RotatePass(ring, q, Current(kv.store.log[..at], KeyPath(q.keyId)));
        && (r.Ok? ==> d == Reply(r.value) || Committed(kv.store.log, KeyPath(q.keyId), d, r.value, RotatedBy(q), at))
        && (r.Err? && r.error != CasRetriesExhausted && r.error != KeyError.StoreFailed ==> d == Fail(r.error))
      ensures kv.Served(KeyPath(q.keyId), r == Err(KeyError.StoreFailed), r == Err(CasRetriesExhausted), at)
    {
      hide LegalLog, Allows, RotatePass, Used, CommitCount;
      var decide := stored => RotatePass(ring, q, stored);
      RotatePassIsJustified(ring, kv.store.log, q, decide);
      var out;
      out, at := CasLoop(kv, KeyPath(q.keyId), decide, RotatedBy(q));
      RotateErrors(ring, q, Current(kv.store.log[..at], KeyPath(q.keyId)));
      r := ToResult(out, CasRetriesExhausted, KeyError.StoreFailed);
    }

    method Revoke(orgId: string, keyId: string) returns (r: Result<bool, KeyError>, ghost at: nat)
      requires Valid()
      modifies kv
      ensures Valid() && old(kv.store.log) <= kv.store.log
      ensures |old(kv.store.log)| <= at <= |kv.store.log|
      ensures var d := RevokePass(orgId, keyId, Current(kv.store.log[..at], KeyPath(keyId)));
        && (r.Ok? ==> d == Reply(r.value) || Committed(kv.store.log, KeyPath(keyId), d, r.value, RevokedBy(orgId, keyId), at))
        && (r.Err? && r.error != CasRetriesExhausted && r.error != KeyError.StoreFailed ==> d == Fail(r.error))
      ensures kv.Served(KeyPath(keyId), r == Err(KeyError.StoreFailed), r == Err(CasRetriesExhausted), at)
      ensures r == Ok(true) ==> Stored(kv.store.log, keyId).Some? && Stored(kv.store.log, keyId).value.revoked
      ensures r == Ok(false) ==> !BelongsTo(kv.store.log[..at], keyId, orgId)
    {
      hide LegalLog, Allows;
      var decide := stored => RevokePass(orgId, keyId, stored);
      RevokePassIsJustified(ring, kv.store.log, orgId, keyId, decide);
      var out;
      out, at := CasLoop(kv, KeyPath(keyId), decide, RevokedBy(orgId, keyId));
      r := ToResult(out, CasRetriesExhausted, KeyError.StoreFailed);
      if r == Ok(true) {
        RevokedStays(at, orgId, keyId, decide, out);
      } else if r == Ok(false) {
        LegalPrefix(KeyRule(ring), kv.store.log, at);
        RevokeDecides(ring, kv.store.log[..at], orgId, keyId);
      }
    }

    lemma RevokedStays(at: nat, orgId: string, keyId: string, decide: Option<Value> -> Decision<Value, bool, KeyError>, out: Outcome<bool, KeyError>)
      requires Valid() && (forall v :: decide(v) == RevokePass(orgId, keyId, v))
      requires Decided(kv.store.log, KeyPath(keyId), decide, RevokedBy(orgId, keyId), out, at) && ToResult(out, CasRetriesExhausted, KeyError.StoreFailed) == Ok(true)
      ensures Stored(kv.store.log, keyId).Some? && Stored(kv.store.log, keyId).value.revoked
    {
      hide LegalLog, Allows;
      var log := kv.store.log;
      if out.Wrote? {
        assert Current(log[..at + 1], KeyPath(keyId)) == Some(log[at].after);
        LifecycleIsMonotone(ring, log, at + 1, keyId);
      } else {
        LifecycleIsMonotone(ring, log, at, keyId);
      }
    }

    /** Two reads, other replicas' commits in between. */
    method Introspect(raw: string) returns (r: Result<Introspection, KeyError>, ghost a: nat, ghost b: nat)
      requires Valid()
      modifies kv
      ensures Valid() && old(kv.store.log) <= kv.store.log
      ensures |old(kv.store.log)| <= a <= b <= |kv.store.log|
      ensures r.Ok? ==> r == IntrospectAt(ring, kv.store.log, a, b, raw)
      ensures r.Err? ==> r.error == KeyError.StoreFailed
      ensures Used(old(kv.script), kv.script, r.Err?)
    {
      hide LegalLog, Allows, Current, ParseRawKey, Verify, AfterOthers, Observed;
      NothingIsUsed(kv.script);
      hide Used;
      a, b := |kv.store.log|, |kv.store.log|;
      var parsed := ParseRawKey(raw);
      if parsed.None? {
        return Ok(INVALID), a, b;
      }
      var p := parsed.value;
      var got := kv.GetVersioned(KeyPath(p.keyId));
      a, b := |kv.store.log|, |kv.store.log|;
      ghost var read := kv.store.log;
      assert read[..a] == read;
      if got.Err? {
        return Err(KeyError.StoreFailed), a, b;
      }
      KeyPathHoldsItsRecord(ring, kv.store.log, p.keyId);
      var found := Load(ViewOf(got.value), p.keyId).value;
      if found.None? {
        return Ok(INVALID), a, b;
      }
      ghost var left := kv.script;
      var index := kv.GetVersioned(OrgIndexPath(found.value.orgId));
      UsedOn(old(kv.script), left, kv.script, index.Err?);
      b := |kv.store.log|;
      if index.Err? {
        return Err(KeyError.StoreFailed), a, b;
      }
      assert kv.store.log[..a] == read && kv.store.log[..b] == kv.store.log;
      IndexIsSound(ring, kv.store.log, found.value.orgId);
      var indexed := p.keyId in IndexIds(ViewOf(index.value)).value;
      r := Ok(if indexed then Verify(ring, found.value, p.env, p.secret) else INVALID);
    }
  }

  function Reconcile(loaded: Result<Option<ApiKeyRecord>, KeyError>, record: ApiKeyRecord): Result<ApiKeyRecord, KeyError> {
    match loaded
    case Err(e) => Err(e)
    case Ok(None) => Err(KeyIdCollision)
    case Ok(Some(existing)) => if !SameCreateRequest(existing, record) then Err(IdempotencyConflict) else Ok(existing)
  }

  lemma SameAsItself(record: ApiKeyRecord)
    ensures SameCreateRequest(record, record)
  {
  }
}
