/**
 One target's ledger: a bounded, hash-chained, append-only log of revokes and lifts, the state
 folded over it, exact replay of an idempotent request, and the validator that every read runs.
 */
module RevocationLedger {
  import opened Numbers
  import opened Text
  import opened Digest
  import opened RevocationRecord

  const LEDGER_VERSION := 1
  const MAX_TRANSITIONS_PER_TARGET := 32

  datatype Action = Revoke(record: Record) | Lift(actor: string, reason: string, at: U64)

  datatype Event = Event(sequence: U64, action: Action, idempotencyHash: string, requestHash: string,
                         previousHash: string, eventHash: string)

  datatype Ledger = Ledger(version: nat, storageKey: string, events: seq<Event>)

  datatype Status = Pending | Active | Lifted | Expired

  datatype Snapshot = Snapshot(storageKey: string, generation: nat, status: Status, expiresAt: Option<U64>)

  datatype RevocationError =
    | Contract(record: RecordError)
    | InvalidMutation(field: string)
    | InvalidClaims
    | InvalidLedger
    | IdempotencyConflict
    | NotFound
    | NotActive
    | TransitionLimit

  /** SHA-256, and the JSON printing of an action, which the chain hash covers. */
  datatype Codec = Codec(sha: Sha256, json: Action -> seq<Byte>)

  function At(a: Action): U64 {
    match a
    case Revoke(record) => record.createdAt
    case Lift(_, _, at) => at
  }

  function EventParts(codec: Codec, e: Event): seq<seq<Byte>> {
    [BigEndian(e.sequence, 8), codec.json(e.action), Utf8(e.idempotencyHash), Utf8(e.requestHash), Utf8(e.previousHash)]
  }

  function EventHash(codec: Codec, e: Event): string {
    DigestParts(codec.sha, EventParts(codec, e))
  }

  function NewEvent(codec: Codec, sequence: U64, action: Action, idempotencyHash: string, requestHash: string,
                    previousHash: string): Event {
    var e := Event(sequence, action, idempotencyHash, requestHash, previousHash, "");
    e.(eventHash := EventHash(codec, e))
  }

  predicate HashIsValid(codec: Codec, e: Event) {
    && IsLowerHex(e.idempotencyHash, 64)
    && IsLowerHex(e.requestHash, 64)
    && (e.previousHash == "" || IsLowerHex(e.previousHash, 64))
    && IsLowerHex(e.eventHash, 64)
    && e.eventHash == EventHash(codec, e)
  }

  /** Event `i` is acceptable in its place; this looks at nothing after it. */
  predicate GoodEvent(codec: Codec, key: string, events: seq<Event>, i: nat)
    requires i < |events|
  {
    var e := events[i];
    && e.sequence == i + 1
    && e.previousHash == (if i == 0 then "" else events[i - 1].eventHash)
    && (i > 0 ==> At(events[i - 1].action) <= At(e.action))
    && HashIsValid(codec, e)
    && match e.action
       case Revoke(record) => Validate(record).Ok? && StorageKey(codec.sha, record) == key
       case Lift(actor, reason, at) =>
         && IsAuditText(actor, 128)
         && IsAuditText(reason, 256)
         && i > 0
         && events[i - 1].action.Revoke?
         && events[i - 1].action.record.createdAt <= at < events[i - 1].action.record.expiresAt
  }

  predicate GoodUpTo(codec: Codec, key: string, events: seq<Event>, n: nat)
    requires n <= |events|
  {
    forall i | 0 <= i < n :: GoodEvent(codec, key, events, i)
  }

  predicate DistinctIdentities(events: seq<Event>) {
    forall i, j | 0 <= i < j < |events| :: events[i].idempotencyHash != events[j].idempotencyHash
  }

  predicate ValidLedger(codec: Codec, l: Ledger) {
    && l.version == LEDGER_VERSION
    && 0 < |l.events| <= MAX_TRANSITIONS_PER_TARGET
    && GoodUpTo(codec, l.storageKey, l.events, |l.events|)
    && DistinctIdentities(l.events)
  }

  /** What the validator checks of one event, from the three values it carries along. */
  predicate FollowsState(codec: Codec, key: string, event: Event, index: nat, expectedPrevious: string, lastAt: nat,
                         current: Option<Record>) {
    && event.sequence == index + 1
    && event.previousHash == expectedPrevious
    && At(event.action) >= lastAt
    && HashIsValid(codec, event)
    && match event.action
       case Revoke(record) => Validate(record).Ok? && StorageKey(codec.sha, record) == key
       case Lift(actor, reason, at) =>
         && IsAuditText(actor, 128)
         && IsAuditText(reason, 256)
         && current.Some?
         && current.value.createdAt <= at < current.value.expiresAt
  }

  function Identities(events: seq<Event>, n: nat): set<string>
    requires n <= |events|
  {
    set i | 0 <= i < n :: events[i].idempotencyHash
  }

  /** Taking one more event keeps identities distinct exactly when its identity is new. */
  lemma DistinctExtend(events: seq<Event>, i: nat)
    requires i < |events| && DistinctIdentities(events[..i])
    ensures DistinctIdentities(events[..i + 1]) <==> events[i].idempotencyHash !in Identities(events, i)
    ensures Identities(events, i + 1) == Identities(events, i) + {events[i].idempotencyHash}
  {
    var longer := events[..i + 1];
    if events[i].idempotencyHash !in Identities(events, i) {
      forall a, b | 0 <= a < b < |longer| ensures longer[a].idempotencyHash != longer[b].idempotencyHash {
        assert events[a].idempotencyHash in Identities(events, b);
        if b < i {
          assert events[..i][a] == longer[a] && events[..i][b] == longer[b];
        }
      }
    } else {
      var j :| 0 <= j < i && events[j].idempotencyHash == events[i].idempotencyHash;
      assert longer[j].idempotencyHash == longer[i].idempotencyHash;
    }
  }

  lemma FollowsIsGoodEvent(codec: Codec, key: string, events: seq<Event>, i: nat, expectedPrevious: string, lastAt: nat,
                           current: Option<Record>)
    requires i < |events|
    requires expectedPrevious == if i == 0 then "" else events[i - 1].eventHash
    requires lastAt == if i == 0 then 0 else At(events[i - 1].action)
    requires current == CurrentRecord(events[..i])
    ensures FollowsState(codec, key, events[i], i, expectedPrevious, lastAt, current) <==> GoodEvent(codec, key, events, i)
  {
  }

  lemma FollowsIsGood(codec: Codec, key: string, events: seq<Event>, i: nat, expectedPrevious: string, lastAt: nat,
                      current: Option<Record>)
    requires i < |events| && GoodUpTo(codec, key, events, i)
    requires expectedPrevious == if i == 0 then "" else events[i - 1].eventHash
    requires lastAt == if i == 0 then 0 else At(events[i - 1].action)
    requires current == CurrentRecord(events[..i])
    ensures FollowsState(codec, key, events[i], i, expectedPrevious, lastAt, current) <==> GoodUpTo(codec, key, events, i + 1)
  {
    FollowsIsGoodEvent(codec, key, events, i, expectedPrevious, lastAt, current);
    forall j | 0 <= j < i ensures GoodEvent(codec, key, events, j) {
    }
  }

  lemma GoodUpToShorter(codec: Codec, key: string, events: seq<Event>, i: nat, n: nat)
    requires i <= n <= |events|
    ensures GoodUpTo(codec, key, events, n) ==> GoodUpTo(codec, key, events, i)
  {
  }

  lemma DistinctPrefix(events: seq<Event>, i: nat)
    requires i <= |events|
    ensures DistinctIdentities(events) ==> DistinctIdentities(events[..i])
  {
  }

  /** The checks of one turn of the loop, made on the carried values only. */
  method CheckEvent(codec: Codec, l: Ledger, i: nat, expectedPrevious: string, lastAt: nat, current: Option<Record>)
    returns (ok: bool)
    requires i < |l.events| && GoodUpTo(codec, l.storageKey, l.events, i)
    requires expectedPrevious == if i == 0 then "" else l.events[i - 1].eventHash
    requires lastAt == if i == 0 then 0 else At(l.events[i - 1].action)
    requires current == CurrentRecord(l.events[..i])
    ensures ok <==> GoodUpTo(codec, l.storageKey, l.events, i + 1)
  {
    FollowsIsGood(codec, l.storageKey, l.events, i, expectedPrevious, lastAt, current);
    ok := FollowsState(codec, l.storageKey, l.events[i], i, expectedPrevious, lastAt, current);
  }

  /** The validator: one pass that carries the expected predecessor hash, the last time, the record in
      force and the identities seen. */
  method ValidateLedger(codec: Codec, l: Ledger) returns (ok: bool)
    ensures ok <==> ValidLedger(codec, l)
  {
    if l.version != LEDGER_VERSION || |l.events| == 0 || |l.events| > MAX_TRANSITIONS_PER_TARGET {
      return false;
    }
    var expectedPrevious := "";
    var lastAt := 0;
    var current: Option<Record> := None;
    var identities: set<string> := {};
    for i := 0 to |l.events|
      invariant expectedPrevious == if i == 0 then "" else l.events[i - 1].eventHash
      invariant lastAt == if i == 0 then 0 else At(l.events[i - 1].action)
      invariant current == CurrentRecord(l.events[..i])
      invariant identities == Identities(l.events, i)
      invariant GoodUpTo(codec, l.storageKey, l.events, i)
      invariant DistinctIdentities(l.events[..i])
    {
      var event := l.events[i];
      DistinctExtend(l.events, i);
      var good := CheckEvent(codec, l, i, expectedPrevious, lastAt, current);
      if event.idempotencyHash in identities {
        DistinctPrefix(l.events, i + 1);
        return false;
      }
      if !good {
        GoodUpToShorter(codec, l.storageKey, l.events, i + 1, |l.events|);
        return false;
      }
      identities := identities + {event.idempotencyHash};
      current := if event.action.Revoke? then Some(event.action.record) else None;
      expectedPrevious := event.eventHash;
      lastAt := At(event.action);
    }
    assert l.events[..|l.events|] == l.events;
    return true;
  }

  // ---------------------------------------------------------------- state folded over the log

  function Generation(l: Ledger): nat {
    if l.events == [] then 0 else l.events[|l.events| - 1].sequence
  }

  function CurrentRecord(events: seq<Event>): Option<Record> {
    if events == [] then None
    else
      match events[|events| - 1].action
      case Revoke(record) => Some(record)
      case Lift(_, _, _) => None
  }

  function LatestExpiry(events: seq<Event>): Option<U64> {
    if events == [] then None
    else
      match events[|events| - 1].action
      case Revoke(record) => Some(record.expiresAt)
      case Lift(_, _, _) => LatestExpiry(events[..|events| - 1])
  }

  function StatusAt(current: Option<Record>, now: nat): Status {
    match current
    case None => Lifted
    case Some(r) => if now < r.createdAt then Pending else if IsActiveAt(r, now) then Active else Expired
  }

  function SnapshotAt(l: Ledger, now: nat): Snapshot {
    Snapshot(l.storageKey, Generation(l), StatusAt(CurrentRecord(l.events), now), LatestExpiry(l.events))
  }

  /** The loop behind `current_record`: walk the whole history, keep the last verdict. */
  method FindCurrentRecord(l: Ledger) returns (current: Option<Record>)
    ensures current == CurrentRecord(l.events)
  {
    current := None;
    for i := 0 to |l.events|
      invariant current == CurrentRecord(l.events[..i])
    {
      assert l.events[..i + 1][..i] == l.events[..i];
      match l.events[i].action
      case Revoke(record) => current := Some(record);
      case Lift(_, _, _) => current := None;
    }
    assert l.events[..|l.events|] == l.events;
  }

  // ---------------------------------------------------------------- exact replay

  /** Where an identity was used, if it was. */
  function Position(events: seq<Event>, idempotencyHash: string): (p: Option<nat>)
    ensures p.Some? ==> p.value < |events| && events[p.value].idempotencyHash == idempotencyHash
    ensures p.Some? ==> forall j | 0 <= j < p.value :: events[j].idempotencyHash != idempotencyHash
    ensures p.None? ==> forall j | 0 <= j < |events| :: events[j].idempotencyHash != idempotencyHash
  {
    if events == [] then None
    else
      var earlier := Position(events[..|events| - 1], idempotencyHash);
      if earlier.Some? then earlier
      else if events[|events| - 1].idempotencyHash == idempotencyHash then Some(|events| - 1)
      else None
  }

  function Replay(l: Ledger, idempotencyHash: string, requestHash: string): Result<Option<Snapshot>, RevocationError> {
    var p := Position(l.events, idempotencyHash);
    if p.None? then Ok(None)
    else
      var e := l.events[p.value];
      if e.requestHash != requestHash then Err(IdempotencyConflict)
      else Ok(Some(Snapshot(l.storageKey, e.sequence, if e.action.Revoke? then Active else Lifted,
                            LatestExpiry(l.events[..p.value + 1]))))
  }

  /** The scan behind `replay_snapshot`, with its running expiry. */
  method ReplayScan(l: Ledger, idempotencyHash: string, requestHash: string)
    returns (r: Result<Option<Snapshot>, RevocationError>)
    ensures r == Replay(l, idempotencyHash, requestHash)
  {
    var latestExpiry: Option<U64> := None;
    for i := 0 to |l.events|
      invariant latestExpiry == LatestExpiry(l.events[..i])
      invariant forall j | 0 <= j < i :: l.events[j].idempotencyHash != idempotencyHash
    {
      var event := l.events[i];
      assert l.events[..i + 1][..i] == l.events[..i];
      if event.action.Revoke? {
        latestExpiry := Some(event.action.record.expiresAt);
      }
      if event.idempotencyHash == idempotencyHash {
        if event.requestHash != requestHash {
          return Err(IdempotencyConflict);
        }
        return Ok(Some(Snapshot(l.storageKey, event.sequence, if event.action.Revoke? then Active else Lifted, latestExpiry)));
      }
    }
    return Ok(None);
  }

  // ---------------------------------------------------------------- appending

  function LastHash(events: seq<Event>): string {
    if events == [] then "" else events[|events| - 1].eventHash
  }

  /** Push, then validate the whole ledger, as the source does. */
  function Pushed(codec: Codec, l: Ledger, action: Action, idempotencyHash: string, requestHash: string): Ledger
    requires Generation(l) < U64_MAX
  {
    l.(events := l.events + [NewEvent(codec, Generation(l) + 1, action, idempotencyHash, requestHash, LastHash(l.events))])
  }

  function Checked(codec: Codec, l: Ledger): Result<Ledger, RevocationError> {
    if ValidLedger(codec, l) then Ok(l) else Err(InvalidLedger)
  }

  function NewLedger(codec: Codec, key: string, record: Record, idempotencyHash: string, requestHash: string)
    : Result<Ledger, RevocationError>
  {
    Checked(codec, Ledger(LEDGER_VERSION, key, [NewEvent(codec, 1, Revoke(record), idempotencyHash, requestHash, "")]))
  }

  function WithRevoke(codec: Codec, l: Ledger, record: Record, idempotencyHash: string, requestHash: string)
    : Result<Ledger, RevocationError>
    requires Generation(l) < U64_MAX
  {
    if |l.events| >= MAX_TRANSITIONS_PER_TARGET then Err(TransitionLimit)
    else Checked(codec, Pushed(codec, l, Revoke(record), idempotencyHash, requestHash))
  }

  function WithLift(codec: Codec, l: Ledger, actor: string, reason: string, at: U64, idempotencyHash: string, requestHash: string)
    : Result<Ledger, RevocationError>
    requires Generation(l) < U64_MAX
  {
    if |l.events| >= MAX_TRANSITIONS_PER_TARGET then Err(TransitionLimit)
    else if CurrentRecord(l.events).None? || !IsActiveAt(CurrentRecord(l.events).value, at) then Err(NotActive)
    else if !IsAuditText(actor, 128) then Err(InvalidMutation("actor"))
    else if !IsAuditText(reason, 256) then Err(InvalidMutation("reason"))
    else Checked(codec, Pushed(codec, l, Lift(Trim(actor), Trim(reason), at), idempotencyHash, requestHash))
  }

  /** The ledger value a request works on.  Its appends push first and validate afterwards, so after
      an error the event stays pushed here; nothing of that is written back. */
  class LedgerBuffer {
    const codec: Codec
    const version: nat
    const storageKey: string
    var events: seq<Event>

    function Value(): Ledger
      reads this
    {
      Ledger(version, storageKey, events)
    }

    constructor (codec: Codec, l: Ledger)
      ensures Value() == l && this.codec == codec
    {
      this.codec := codec;
      version := l.version;
      storageKey := l.storageKey;
      events := l.events;
    }

    method AppendRevoke(record: Record, idempotencyHash: string, requestHash: string) returns (r: Result<(), RevocationError>)
      requires Generation(Value()) < U64_MAX
      modifies this
      ensures var appended := WithRevoke(codec, old(Value()), record, idempotencyHash, requestHash);
        && (r.Ok? <==> appended.Ok?)
        && (r.Ok? ==> Value() == appended.value)
        && (r.Err? ==> r.error == appended.error)
      ensures r == Err(TransitionLimit) ==> Value() == old(Value())
    {
      if |events| >= MAX_TRANSITIONS_PER_TARGET {
        return Err(TransitionLimit);
      }
      ghost var before := Value();
      var event := NewEvent(codec, Generation(Value()) + 1, Revoke(record), idempotencyHash, requestHash, LastHash(events));
      events := events + [event];
      assert Value() == Pushed(codec, before, Revoke(record), idempotencyHash, requestHash);
      var valid := ValidateLedger(codec, Value());
      r := if valid then Ok(()) else Err(InvalidLedger);
    }

    method AppendLift(actor: string, reason: string, at: U64, idempotencyHash: string, requestHash: string)
      returns (r: Result<(), RevocationError>)
      requires Generation(Value()) < U64_MAX
      modifies this
      ensures var appended := WithLift(codec, old(Value()), actor, reason, at, idempotencyHash, requestHash);
        && (r.Ok? <==> appended.Ok?)
        && (r.Ok? ==> Value() == appended.value)
        && (r.Err? ==> r.error == appended.error)
      ensures r.Err? && r.error != InvalidLedger ==> Value() == old(Value())
    {
      if |events| >= MAX_TRANSITIONS_PER_TARGET {
        return Err(TransitionLimit);
      }
      var active := FindCurrentRecord(Value());
      if active.None? || !IsActiveAt(active.value, at) {
        return Err(NotActive);
      }
      if !IsAuditText(actor, 128) {
        return Err(InvalidMutation("actor"));
      }
      if !IsAuditText(reason, 256) {
        return Err(InvalidMutation("reason"));
      }
      ghost var before := Value();
      var event := NewEvent(codec, Generation(Value()) + 1, Lift(Trim(actor), Trim(reason), at), idempotencyHash, requestHash,
                            LastHash(events));
      events := events + [event];
      assert Value() == Pushed(codec, before, Lift(Trim(actor), Trim(reason), at), idempotencyHash, requestHash);
      var valid := ValidateLedger(codec, Value());
      r := if valid then Ok(()) else Err(InvalidLedger);
    }
  }
}
