/** What the ledger is for: appends agree with the validator, replay is exact, the chain is evidence. */
module LedgerProperties {
  import opened Numbers
  import opened Text
  import opened Digest
  import opened RevocationRecord
  import opened RevocationLedger

  // ---------------------------------------------------------------- append agrees with validation

  lemma GoodEventIsLocal(codec: Codec, key: string, events: seq<Event>, longer: seq<Event>, i: nat)
    requires i < |events| && events <= longer
    ensures GoodEvent(codec, key, events, i) <==> GoodEvent(codec, key, longer, i)
  {
  }

  lemma GoodUpToIsLocal(codec: Codec, key: string, events: seq<Event>, longer: seq<Event>)
    requires events <= longer
    ensures GoodUpTo(codec, key, events, |events|) <==> GoodUpTo(codec, key, longer, |events|)
  {
    forall i | 0 <= i < |events| ensures GoodEvent(codec, key, events, i) <==> GoodEvent(codec, key, longer, i) {
      GoodEventIsLocal(codec, key, events, longer, i);
    }
  }

  lemma DistinctAfterPush(events: seq<Event>, e: Event)
    requires DistinctIdentities(events) && Position(events, e.idempotencyHash).None?
    ensures DistinctIdentities(events + [e])
  {
  }

  /** Pushing an event with a new identity keeps a ledger valid exactly when there is room and the event
      itself is good in its place. */
  lemma ValidAfterPush(codec: Codec, l: Ledger, e: Event)
    requires ValidLedger(codec, l) && Position(l.events, e.idempotencyHash).None?
    ensures var next := l.(events := l.events + [e]);
      ValidLedger(codec, next) <==>
        |l.events| < MAX_TRANSITIONS_PER_TARGET && GoodEvent(codec, l.storageKey, next.events, |l.events|)
  {
    hide GoodEvent, DistinctIdentities, Position;
    var n := |l.events|;
    var longer := l.events + [e];
    DistinctAfterPush(l.events, e);
    GoodUpToIsLocal(codec, l.storageKey, l.events, longer);
    if GoodEvent(codec, l.storageKey, longer, n) {
      forall i | 0 <= i < n + 1 ensures GoodEvent(codec, l.storageKey, longer, i) {
      }
    }
  }

  lemma ValidFacts(codec: Codec, l: Ledger)
    requires ValidLedger(codec, l)
    ensures Generation(l) == |l.events|
    ensures IsLowerHex(LastHash(l.events), 64)
    ensures CurrentRecord(l.events).Some? ==>
      var r := CurrentRecord(l.events).value;
      Validate(r).Ok? && StorageKey(codec.sha, r) == l.storageKey && r.createdAt == At(l.events[|l.events| - 1].action)
  {
    assert GoodEvent(codec, l.storageKey, l.events, |l.events| - 1);
  }

  lemma ValidHashesAreHex(codec: Codec, l: Ledger, i: nat)
    requires ValidLedger(codec, l) && i < |l.events|
    ensures HashIsValid(codec, l.events[i])
    ensures l.events[i].sequence == i + 1
    ensures l.events[i].previousHash == if i == 0 then "" else l.events[i - 1].eventHash
    ensures l.events[i].action.Revoke? ==> StorageKey(codec.sha, l.events[i].action.record) == l.storageKey
    ensures i == 0 ==> l.events[i].action.Revoke?
  {
    assert GoodEvent(codec, l.storageKey, l.events, i);
  }

  lemma NewEventHash(codec: Codec, sequence: U64, action: Action, idempotencyHash: string, requestHash: string, previousHash: string)
    requires IsLowerHex(idempotencyHash, 64) && IsLowerHex(requestHash, 64)
    requires previousHash == "" || IsLowerHex(previousHash, 64)
    ensures HashIsValid(codec, NewEvent(codec, sequence, action, idempotencyHash, requestHash, previousHash))
  {
    var e := NewEvent(codec, sequence, action, idempotencyHash, requestHash, previousHash);
    assert EventParts(codec, e) == EventParts(codec, e.(eventHash := ""));
  }

  lemma RevokeIsGood(codec: Codec, key: string, events: seq<Event>, i: nat)
    requires i < |events| && events[i].action.Revoke? && events[i].sequence == i + 1 && HashIsValid(codec, events[i])
    requires events[i].previousHash == LastHash(events[..i])
    requires Validate(events[i].action.record).Ok?
    ensures GoodEvent(codec, key, events, i) <==>
      && (i > 0 ==> At(events[i - 1].action) <= At(events[i].action))
      && StorageKey(codec.sha, events[i].action.record) == key
  {
    hide HashIsValid, IsAuditText, Validate, StorageKey;
  }

  lemma LiftIsGood(codec: Codec, key: string, events: seq<Event>, i: nat)
    requires 0 < i < |events| && events[i].action.Lift? && events[i].sequence == i + 1 && HashIsValid(codec, events[i])
    requires events[i].previousHash == LastHash(events[..i])
    requires IsAuditText(events[i].action.actor, 128) && IsAuditText(events[i].action.reason, 256)
    requires events[i - 1].action.Revoke? && IsActiveAt(events[i - 1].action.record, events[i].action.at)
    ensures GoodEvent(codec, key, events, i)
  {
    hide HashIsValid, IsAuditText, Validate, StorageKey;
  }

  lemma OneEventLedger(codec: Codec, key: string, e: Event)
    ensures ValidLedger(codec, Ledger(LEDGER_VERSION, key, [e])) <==> GoodEvent(codec, key, [e], 0)
  {
    assert GoodUpTo(codec, key, [e], 1) <==> GoodEvent(codec, key, [e], 0);
  }

  lemma FirstRevoke(codec: Codec, key: string, record: Record, idempotencyHash: string, requestHash: string)
    requires Validate(record).Ok? && IsLowerHex(idempotencyHash, 64) && IsLowerHex(requestHash, 64)
    ensures NewLedger(codec, key, record, idempotencyHash, requestHash).Ok? <==> StorageKey(codec.sha, record) == key
  {
    var e := NewEvent(codec, 1, Revoke(record), idempotencyHash, requestHash, "");
    NewEventHash(codec, 1, Revoke(record), idempotencyHash, requestHash, "");
    OneEventLedger(codec, key, e);
    RevokeIsGood(codec, key, [e], 0);
  }

  /** A pushed event has the number and the predecessor its place asks for. */
  lemma PushedFits(codec: Codec, l: Ledger, action: Action, idempotencyHash: string, requestHash: string)
    requires ValidLedger(codec, l)
    requires IsLowerHex(idempotencyHash, 64) && IsLowerHex(requestHash, 64)
    ensures 0 < Generation(l) == |l.events| < U64_MAX
    ensures var n := |l.events|; var events := Pushed(codec, l, action, idempotencyHash, requestHash).events;
      && |events| == n + 1 && events[..n] == l.events && events[n - 1] == l.events[n - 1]
      && events[n].action == action && events[n].idempotencyHash == idempotencyHash
      && events[n].sequence == n + 1 && HashIsValid(codec, events[n]) && events[n].previousHash == LastHash(l.events)
  {
    ValidFacts(codec, l);
    NewEventHash(codec, Generation(l) + 1, action, idempotencyHash, requestHash, LastHash(l.events));
  }

  /** On a valid ledger, appending a valid record for the same target under a new identity succeeds
      exactly when there is room and its time is not before the last event's. */
  lemma RevokeAppendsExactlyWhen(codec: Codec, l: Ledger, record: Record, idempotencyHash: string, requestHash: string)
    requires ValidLedger(codec, l) && Position(l.events, idempotencyHash).None?
    requires Validate(record).Ok? && StorageKey(codec.sha, record) == l.storageKey
    requires IsLowerHex(idempotencyHash, 64) && IsLowerHex(requestHash, 64)
    ensures Generation(l) < U64_MAX
    ensures WithRevoke(codec, l, record, idempotencyHash, requestHash).Ok? <==>
      |l.events| < MAX_TRANSITIONS_PER_TARGET && At(l.events[|l.events| - 1].action) <= record.createdAt
  {
    hide ValidLedger, GoodEvent, HashIsValid, Validate, Position, NewEvent, LastHash, StorageKey;
    PushedFits(codec, l, Revoke(record), idempotencyHash, requestHash);
    var next := Pushed(codec, l, Revoke(record), idempotencyHash, requestHash);
    ValidAfterPush(codec, l, next.events[|l.events|]);
    RevokeIsGood(codec, l.storageKey, next.events, |l.events|);
  }

  lemma TrimmedIsAuditText(s: string, maximum: nat)
    requires IsAuditText(s, maximum)
    ensures IsAuditText(Trim(s), maximum)
  {
    hide Trim;
    TrimIdempotent(s);
  }

  /** A lift pushed while the last event is an active revoke passes re-validation exactly when there is room. */
  lemma LiftPushIsValid(codec: Codec, l: Ledger, lift: Action, idempotencyHash: string, requestHash: string)
    requires ValidLedger(codec, l) && Position(l.events, idempotencyHash).None?
    requires IsLowerHex(idempotencyHash, 64) && IsLowerHex(requestHash, 64)
    requires lift.Lift? && IsAuditText(lift.actor, 128) && IsAuditText(lift.reason, 256)
    requires var last := l.events[|l.events| - 1].action; last.Revoke? && IsActiveAt(last.record, lift.at)
    ensures Generation(l) < U64_MAX
    ensures ValidLedger(codec, Pushed(codec, l, lift, idempotencyHash, requestHash)) <==> |l.events| < MAX_TRANSITIONS_PER_TARGET
  {
    hide ValidLedger, GoodEvent, HashIsValid, Position, NewEvent, LastHash, IsAuditText;
    PushedFits(codec, l, lift, idempotencyHash, requestHash);
    var next := Pushed(codec, l, lift, idempotencyHash, requestHash);
    ValidAfterPush(codec, l, next.events[|l.events|]);
    LiftIsGood(codec, l.storageKey, next.events, |l.events|);
  }

  /** On a valid ledger, appending a lift with valid text under a new identity succeeds exactly when
      there is room and the last event is a revoke active at that time; it never fails re-validation. */
  lemma LiftAppendsExactlyWhen(codec: Codec, l: Ledger, actor: string, reason: string, at: U64, idempotencyHash: string, requestHash: string)
    requires ValidLedger(codec, l) && Position(l.events, idempotencyHash).None?
    requires IsAuditText(actor, 128) && IsAuditText(reason, 256)
    requires IsLowerHex(idempotencyHash, 64) && IsLowerHex(requestHash, 64)
    ensures Generation(l) < U64_MAX
    ensures WithLift(codec, l, actor, reason, at, idempotencyHash, requestHash).Ok? <==>
      && |l.events| < MAX_TRANSITIONS_PER_TARGET
      && l.events[|l.events| - 1].action.Revoke?
      && IsActiveAt(l.events[|l.events| - 1].action.record, at)
    ensures WithLift(codec, l, actor, reason, at, idempotencyHash, requestHash) != Err(InvalidLedger)
  {
    hide ValidLedger, Position, Pushed, IsAuditText, IsActiveAt, IsLowerHex, Trim;
    var lift := Lift(Trim(actor), Trim(reason), at);
    PushedFits(codec, l, lift, idempotencyHash, requestHash);
    TrimmedIsAuditText(actor, 128);
    TrimmedIsAuditText(reason, 256);
    var last := l.events[|l.events| - 1].action;
    if last.Revoke? && IsActiveAt(last.record, at) {
      LiftPushIsValid(codec, l, lift, idempotencyHash, requestHash);
    }
  }

  /** A contiguous piece of a valid ledger validates exactly when it is a nonempty prefix: losing the
      front is detected, losing the tail is not. */
  lemma SliceIsValidExactlyWhenPrefix(codec: Codec, l: Ledger, from: nat, to: nat)
    requires ValidLedger(codec, l) && from <= to <= |l.events|
    ensures ValidLedger(codec, l.(events := l.events[from..to])) <==> from == 0 < to
  {
    var piece := l.events[from..to];
    if from == 0 < to {
      assert piece == l.events[..to];
      GoodUpToIsLocal(codec, l.storageKey, piece, l.events);
      GoodUpToShorter(codec, l.storageKey, l.events, to, |l.events|);
    } else if from < to {
      ValidHashesAreHex(codec, l, from);
      assert piece[0].sequence == from + 1;
      assert !GoodEvent(codec, l.storageKey, piece, 0);
    }
  }

  // ---------------------------------------------------------------- replay

  lemma {:induction false} PositionIsUnique(events: seq<Event>, i: nat)
    requires i < |events| && DistinctIdentities(events)
    ensures Position(events, events[i].idempotencyHash) == Some(i)
  {
    assert Position(events, events[i].idempotencyHash).Some?;
  }

  lemma ActiveAtCreation(r: Record)
    requires Validate(r).Ok?
    ensures StatusAt(Some(r), r.createdAt) == Active
  {
  }

  /** How a ledger answers right after a request has committed to it, at that request's time. */
  lemma SnapshotAfterCommit(codec: Codec, l: Ledger)
    requires ValidLedger(codec, l)
    ensures var e := l.events[|l.events| - 1];
      SnapshotAt(l, At(e.action)) ==
        Snapshot(l.storageKey, e.sequence, if e.action.Revoke? then Active else Lifted, LatestExpiry(l.events))
  {
    ValidFacts(codec, l);
    if CurrentRecord(l.events).Some? {
      ActiveAtCreation(CurrentRecord(l.events).value);
    }
  }

  lemma ReplayAt(l: Ledger, i: nat, requestHash: string)
    requires i < |l.events| && DistinctIdentities(l.events)
    ensures var e := l.events[i];
      Replay(l, e.idempotencyHash, requestHash) ==
        if requestHash == e.requestHash
        then Ok(Some(Snapshot(l.storageKey, e.sequence, if e.action.Revoke? then Active else Lifted, LatestExpiry(l.events[..i + 1]))))
        else Err(IdempotencyConflict)
  {
    PositionIsUnique(l.events, i);
  }

  /** A retry of the request that made `first` gets the answer `first` was answered with, whatever has
      been appended since; the same identity with another request conflicts. */
  lemma ReplayIsExact(codec: Codec, first: Ledger, later: Ledger, requestHash: string)
    requires ValidLedger(codec, first) && ValidLedger(codec, later)
    requires first.storageKey == later.storageKey && first.events <= later.events
    ensures var e := first.events[|first.events| - 1];
      Replay(later, e.idempotencyHash, requestHash) ==
        if requestHash == e.requestHash then Ok(Some(SnapshotAt(first, At(e.action)))) else Err(IdempotencyConflict)
  {
    ReplayAt(later, |first.events| - 1, requestHash);
    assert later.events[..|first.events|] == first.events;
    SnapshotAfterCommit(codec, first);
  }

  // ---------------------------------------------------------------- tamper evidence

  ghost function Preimages(codec: Codec, l: Ledger): set<seq<Byte>> {
    set i | 0 <= i < |l.events| :: Frame(EventParts(codec, l.events[i]))
  }

  /** The printed actions of both ledgers are told apart by their JSON and fit in memory. */
  ghost predicate JsonTellsApart(codec: Codec, l: Ledger, m: Ledger) {
    && (forall i | 0 <= i < |l.events| :: |codec.json(l.events[i].action)| <= U64_MAX)
    && (forall i | 0 <= i < |m.events| :: |codec.json(m.events[i].action)| <= U64_MAX)
    && (forall i, j | 0 <= i < |l.events| && 0 <= j < |m.events| ::
          codec.json(l.events[i].action) == codec.json(m.events[j].action) ==> l.events[i].action == m.events[j].action)
  }

  lemma {:induction false} Utf8Short(s: string)
    ensures |Utf8(s)| <= 4 * |s|
  {
    if s != [] {
      Utf8Short(s[1..]);
    }
  }

  lemma PartsAddressable(codec: Codec, e: Event)
    requires HashIsValid(codec, e) && |codec.json(e.action)| <= U64_MAX
    ensures Addressable(EventParts(codec, e))
  {
    Utf8Short(e.idempotencyHash);
    Utf8Short(e.requestHash);
    Utf8Short(e.previousHash);
  }

  lemma EventPartsInjective(codec: Codec, d: Event, e: Event)
    requires EventParts(codec, d) == EventParts(codec, e)
    ensures d.sequence == e.sequence && codec.json(d.action) == codec.json(e.action)
    ensures d.idempotencyHash == e.idempotencyHash && d.requestHash == e.requestHash && d.previousHash == e.previousHash
  {
    var p, q := EventParts(codec, d), EventParts(codec, e);
    assert p[0] == q[0] && p[1] == q[1] && p[2] == q[2] && p[3] == q[3] && p[4] == q[4];
    Pow256Of8();
    BigEndianInjective(d.sequence, e.sequence, 8);
    Utf8Injective(d.idempotencyHash, e.idempotencyHash);
    Utf8Injective(d.requestHash, e.requestHash);
    Utf8Injective(d.previousHash, e.previousHash);
  }

  /** One link: equal event hashes mean equal events. */
  lemma EqualHashEqualEvent(codec: Codec, l: Ledger, m: Ledger, i: nat, j: nat)
    requires ValidLedger(codec, l) && ValidLedger(codec, m) && i < |l.events| && j < |m.events|
    requires CollisionFree(codec.sha, Preimages(codec, l) + Preimages(codec, m)) && JsonTellsApart(codec, l, m)
    requires l.events[i].eventHash == m.events[j].eventHash
    ensures i == j && l.events[i] == m.events[j]
  {
    var d, e := l.events[i], m.events[j];
    ValidHashesAreHex(codec, l, i);
    ValidHashesAreHex(codec, m, j);
    PartsAddressable(codec, d);
    PartsAddressable(codec, e);
    var x, y := EventParts(codec, d), EventParts(codec, e);
    assert Frame(x) in Preimages(codec, l) && Frame(y) in Preimages(codec, m);
    DigestPartsInjective(codec.sha, x, y);
    EventPartsInjective(codec, d, e);
  }

  lemma {:induction false} ChainBackwards(codec: Codec, l: Ledger, m: Ledger, i: nat)
    requires ValidLedger(codec, l) && ValidLedger(codec, m) && i < |l.events| && i < |m.events|
    requires CollisionFree(codec.sha, Preimages(codec, l) + Preimages(codec, m)) && JsonTellsApart(codec, l, m)
    requires l.events[i].eventHash == m.events[i].eventHash
    ensures forall k | 0 <= k <= i :: l.events[k] == m.events[k]
  {
    hide ValidLedger, CollisionFree, Preimages, JsonTellsApart, HashIsValid;
    EqualHashEqualEvent(codec, l, m, i, i);
    if i > 0 {
      ValidHashesAreHex(codec, l, i);
      ValidHashesAreHex(codec, m, i);
      ChainBackwards(codec, l, m, i - 1);
    }
  }

  /** The last hash pins the whole ledger: length, order, every field of every event, and the target. */
  lemma FinalHashPinsLedger(codec: Codec, l: Ledger, m: Ledger)
    requires ValidLedger(codec, l) && ValidLedger(codec, m)
    requires CollisionFree(codec.sha, Preimages(codec, l) + Preimages(codec, m)) && JsonTellsApart(codec, l, m)
    ensures LastHash(l.events) == LastHash(m.events) <==> l == m
  {
    if LastHash(l.events) == LastHash(m.events) {
      EqualHashEqualEvent(codec, l, m, |l.events| - 1, |m.events| - 1);
      ChainBackwards(codec, l, m, |l.events| - 1);
      assert l.events == m.events;
      ValidHashesAreHex(codec, l, 0);
      ValidHashesAreHex(codec, m, 0);
    }
  }
}
