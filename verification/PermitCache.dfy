/**
 The permit cache: a refresh is begun with a permit and applied with it, newer permits supersede older
 ones, and authority generations may not go back.
 */
module PermitCache {
  import opened Numbers

  datatype AuthorityState = NotRevoked | Revoked(expiresAt: Option<U64>)
  datatype AuthorityDecision = AuthorityDecision(generation: U64, state: AuthorityState)
  datatype RefreshPermit = RefreshPermit(key: string, sequence: U64)
  datatype DenyReason = Cold | Stale | IsRevoked | RevocationExpiredNeedsRefresh
  datatype CacheDecision = Allow | Deny(reason: DenyReason)
  datatype CacheEntry = CacheEntry(decision: AuthorityDecision, freshUntil: U64)

  datatype CacheError =
    | InvalidFreshness
    | ClockRegression(observed: U64, highWater: U64)
    | UnknownRefresh
    | SupersededRefresh
    | GenerationRegression(observed: U64, cached: U64)

  datatype PermitState = PermitState(freshness: U64, highWater: Option<U64>, nextSequence: U64,
                                     latest: map<string, U64>, entries: map<string, CacheEntry>)

  predicate Regresses(s: PermitState, now: U64) {
    s.highWater.Some? && now < s.highWater.value
  }

  function Observed(s: PermitState, now: U64): PermitState {
    s.(highWater := Some(now))
  }

  function Decide(s: PermitState, key: string, now: U64): CacheDecision {
    if key !in s.entries then Deny(Cold)
    else
      match s.entries[key].decision.state
      case Revoked(Some(expiresAt)) => if now >= expiresAt then Deny(RevocationExpiredNeedsRefresh) else Deny(IsRevoked)
      case Revoked(None) => Deny(IsRevoked)
      case NotRevoked => if now < s.entries[key].freshUntil then Allow else Deny(Stale)
  }

  /** Why an application is turned away, once the clock has been accepted. */
  function Refusal(s: PermitState, permit: RefreshPermit, decision: AuthorityDecision): Option<CacheError> {
    if permit.key !in s.latest then Some(UnknownRefresh)
    else if permit.sequence != s.latest[permit.key] then Some(SupersededRefresh)
    else if permit.key in s.entries && decision.generation < s.entries[permit.key].decision.generation then
      Some(GenerationRegression(decision.generation, s.entries[permit.key].decision.generation))
    else None
  }

  datatype Operation =
    | Lookup(key: string, now: U64)
    | Begin(key: string, now: U64)
    | Apply(permit: RefreshPermit, decision: AuthorityDecision, now: U64)
    | Invalidate(key: string, now: U64)

  /** The state after an operation.  A regressed clock changes nothing; a refused application changes
      only the clock mark. */
  function After(s: PermitState, op: Operation): PermitState {
    if Regresses(s, op.now) then s
    else
      var o := Observed(s, op.now);
      match op
      case Lookup(_, _) => o
      case Begin(key, _) => o.(nextSequence := SaturatingAdd(s.nextSequence, 1), latest := s.latest[key := s.nextSequence])
      case Apply(permit, decision, now) =>
        if Refusal(s, permit, decision).Some? then o
        else
          o.(entries := s.entries[permit.key := CacheEntry(decision, SaturatingAdd(now, s.freshness))],
             latest := s.latest - {permit.key})
      case Invalidate(key, _) => o.(entries := s.entries - {key}, latest := s.latest - {key})
  }

  predicate Accepted(s: PermitState, op: Operation) {
    op.Apply? && !Regresses(s, op.now) && Refusal(s, op.permit, op.decision).None?
  }

  function Fresh(freshness: U64): PermitState {
    PermitState(freshness, None, 1, map[], map[])
  }

  class RevocationCache {
    const freshnessSecs: U64
    var highWater: Option<U64>
    var nextRefreshSequence: U64
    var latestRefresh: map<string, U64>
    var entries: map<string, CacheEntry>

    function State(): PermitState
      reads this
    {
      PermitState(freshnessSecs, highWater, nextRefreshSequence, latestRefresh, entries)
    }

    /** A new cache is cold; a zero freshness is refused. */
    static method New(freshnessSecs: U64) returns (r: Result<RevocationCache, CacheError>)
      ensures freshnessSecs == 0 ==> r == Err(InvalidFreshness)
      ensures freshnessSecs != 0 ==> r.Ok? && fresh(r.value) && r.value.State() == Fresh(freshnessSecs)
    {
      if freshnessSecs == 0 {
        return Err(InvalidFreshness);
      }
      var cache := new RevocationCache(freshnessSecs);
      r := Ok(cache);
    }

    constructor (freshnessSecs: U64)
      ensures State() == Fresh(freshnessSecs)
    {
      this.freshnessSecs := freshnessSecs;
      highWater := None;
      nextRefreshSequence := 1;
      latestRefresh := map[];
      entries := map[];
    }

    method ObserveTime(now: U64) returns (r: Result<(), CacheError>)
      modifies this`highWater
      ensures if Regresses(old(State()), now)
              then r == Err(ClockRegression(now, old(highWater).value)) && State() == old(State())
              else r == Ok(()) && State() == Observed(old(State()), now)
    {
      if highWater.Some? && now < highWater.value {
        return Err(ClockRegression(now, highWater.value));
      }
      highWater := Some(now);
      r := Ok(());
    }

    method LookupKey(key: string, now: U64) returns (r: Result<CacheDecision, CacheError>)
      modifies this`highWater
      ensures State() == After(old(State()), Lookup(key, now))
      ensures r == if Regresses(old(State()), now) then Err(ClockRegression(now, old(highWater).value))
                   else Ok(Decide(old(State()), key, now))
    {
      var seen := ObserveTime(now);
      if seen.Err? {
        return Err(seen.error);
      }
      if key !in entries {
        return Ok(Deny(Cold));
      }
      var entry := entries[key];
      match entry.decision.state
      case Revoked(expiresAt) =>
        r := Ok(Deny(if expiresAt.Some? && now >= expiresAt.value then RevocationExpiredNeedsRefresh else IsRevoked));
      case NotRevoked =>
        r := Ok(if now < entry.freshUntil then Allow else Deny(Stale));
    }

    method BeginRefresh(key: string, now: U64) returns (r: Result<RefreshPermit, CacheError>)
      modifies this
      ensures State() == After(old(State()), Begin(key, now))
      ensures r == if Regresses(old(State()), now) then Err(ClockRegression(now, old(highWater).value))
                   else Ok(RefreshPermit(key, old(nextRefreshSequence)))
    {
      var seen := ObserveTime(now);
      if seen.Err? {
        return Err(seen.error);
      }
      var sequence := nextRefreshSequence;
      nextRefreshSequence := SaturatingAdd(nextRefreshSequence, 1);
      latestRefresh := latestRefresh[key := sequence];
      r := Ok(RefreshPermit(key, sequence));
    }

    method ApplyAuthoritative(permit: RefreshPermit, decision: AuthorityDecision, now: U64) returns (r: Result<(), CacheError>)
      modifies this
      ensures State() == After(old(State()), Apply(permit, decision, now))
      ensures r.Ok? <==> Accepted(old(State()), Apply(permit, decision, now))
      ensures r.Err? ==>
        Some(r.error) == if Regresses(old(State()), now) then Some(ClockRegression(now, old(highWater).value))
                         else Refusal(old(State()), permit, decision)
    {
      var seen := ObserveTime(now);
      if seen.Err? {
        return Err(seen.error);
      }
      if permit.key !in latestRefresh {
        return Err(UnknownRefresh);
      }
      if permit.sequence != latestRefresh[permit.key] {
        return Err(SupersededRefresh);
      }
      if permit.key in entries {
        var current := entries[permit.key];
        if decision.generation < current.decision.generation {
          return Err(GenerationRegression(decision.generation, current.decision.generation));
        }
      }
      entries := entries[permit.key := CacheEntry(decision, SaturatingAdd(now, freshnessSecs))];
      latestRefresh := latestRefresh - {permit.key};
      r := Ok(());
    }

    method InvalidateKey(key: string, now: U64) returns (r: Result<(), CacheError>)
      modifies this
      ensures State() == After(old(State()), Invalidate(key, now))
      ensures r.Ok? <==> !Regresses(old(State()), now)
    {
      var seen := ObserveTime(now);
      if seen.Err? {
        return Err(seen.error);
      }
      entries := entries - {key};
      latestRefresh := latestRefresh - {key};
      r := Ok(());
    }
  }

  // ---------------------------------------------------------------- every run

  ghost predicate Run(states: seq<PermitState>, ops: seq<Operation>) {
    && |states| == |ops| + 1
    && (exists freshness | freshness != 0 :: states[0] == Fresh(freshness))
    && forall i | 0 <= i < |ops| :: states[i + 1] == After(states[i], ops[i])
  }

  /** The sequence counter has never reached the top of its width. */
  predicate Unsaturated(s: PermitState) {
    s.nextSequence < U64_MAX
  }

  /** Which accepted application a key's entry is from. */
  ghost predicate AppliedAt(states: seq<PermitState>, ops: seq<Operation>, i: nat, key: string)
    requires |states| == |ops| + 1
  {
    i < |ops| && Accepted(states[i], ops[i]) && ops[i].permit.key == key
  }

  ghost predicate InvalidatedAt(states: seq<PermitState>, ops: seq<Operation>, i: nat, key: string)
    requires |states| == |ops| + 1
  {
    i < |ops| && ops[i].Invalidate? && ops[i].key == key && !Regresses(states[i], ops[i].now)
  }

  /** `a` is the last application for `key` before state `n`, and no invalidation came after it. */
  ghost predicate LastApplied(states: seq<PermitState>, ops: seq<Operation>, n: nat, key: string, a: nat)
    requires |states| == |ops| + 1 && n < |states|
  {
    && a < n
    && AppliedAt(states, ops, a, key)
    && forall j | a < j < n :: !AppliedAt(states, ops, j, key) && !InvalidatedAt(states, ops, j, key)
  }

  /** An entry is always what the last application since the last invalidation installed. */
  lemma {:induction false} EntryIsLastApplied(states: seq<PermitState>, ops: seq<Operation>, n: nat, key: string) returns (a: nat)
    requires Run(states, ops) && n < |states| && key in states[n].entries
    ensures LastApplied(states, ops, n, key, a)
    ensures states[n].entries[key] == CacheEntry(ops[a].decision, SaturatingAdd(ops[a].now, states[n].freshness))
    ensures states[n].freshness == states[a].freshness
    ensures states[n].highWater.Some? && ops[a].now <= states[n].highWater.value
  {
    var m := n - 1;
    assert states[m + 1] == After(states[m], ops[m]);
    if AppliedAt(states, ops, m, key) {
      a := m;
    } else {
      a := EntryIsLastApplied(states, ops, m, key);
    }
  }

  /** Allow at `now` means that the last answer applied for the key since its last invalidation was
      "not revoked", at some time at most `now` and less than one freshness before it. */
  lemma AllowIsFresh(states: seq<PermitState>, ops: seq<Operation>, n: nat, key: string, now: U64)
    requires Run(states, ops) && n < |states| && !Regresses(states[n], now) && Decide(states[n], key, now) == Allow
    ensures exists a: nat | LastApplied(states, ops, n, key, a) ::
              ops[a].decision.state == NotRevoked && ops[a].now <= now < ops[a].now + states[n].freshness
  {
    var a := EntryIsLastApplied(states, ops, n, key);
  }

  /** And conversely: what the last application installed is the entry until the next one or an invalidation. */
  lemma LastAppliedIsEntry(states: seq<PermitState>, ops: seq<Operation>, n: nat, key: string, a: nat)
    requires Run(states, ops) && n < |states| && LastApplied(states, ops, n, key, a)
    ensures key in states[n].entries
    ensures states[n].entries[key] == CacheEntry(ops[a].decision, SaturatingAdd(ops[a].now, states[n].freshness))
  {
    assert states[a + 1] == After(states[a], ops[a]);
    for m := a + 1 to n
      invariant key in states[m].entries && states[m].freshness == states[a].freshness
      invariant states[m].entries[key] == CacheEntry(ops[a].decision, SaturatingAdd(ops[a].now, states[m].freshness))
    {
      assert states[m + 1] == After(states[m], ops[m]) && !AppliedAt(states, ops, m, key) && !InvalidatedAt(states, ops, m, key);
    }
  }

  ghost predicate LastSaid(states: seq<PermitState>, ops: seq<Operation>, n: nat, key: string,
                           says: (AuthorityState, U64) -> bool)
    requires |states| == |ops| + 1 && n < |states|
  {
    exists a: nat | LastApplied(states, ops, n, key, a) :: says(ops[a].decision.state, SaturatingAdd(ops[a].now, states[n].freshness))
  }

  /** In every state of every run the decision is that of the last answer applied since the last
      invalidation: allow a fresh "not revoked", exactly; otherwise deny, with the reason. */
  lemma DecisionIsOfLastApplied(states: seq<PermitState>, ops: seq<Operation>, n: nat, key: string, now: U64)
    requires Run(states, ops) && n < |states|
    ensures Decide(states[n], key, now) == Allow <==>
      LastSaid(states, ops, n, key, (said: AuthorityState, freshUntil: U64) => said == NotRevoked && now < freshUntil)
    ensures Decide(states[n], key, now) == Deny(Stale) <==>
      LastSaid(states, ops, n, key, (said: AuthorityState, freshUntil: U64) => said == NotRevoked && freshUntil <= now)
    ensures Decide(states[n], key, now) == Deny(IsRevoked) <==>
      LastSaid(states, ops, n, key, (said: AuthorityState, freshUntil: U64) => said.Revoked? && (said.expiresAt.Some? ==> now < said.expiresAt.value))
    ensures Decide(states[n], key, now) == Deny(RevocationExpiredNeedsRefresh) <==>
      LastSaid(states, ops, n, key, (said: AuthorityState, freshUntil: U64) => said.Revoked? && said.expiresAt.Some? && said.expiresAt.value <= now)
    ensures Decide(states[n], key, now) == Deny(Cold) <==> !LastSaid(states, ops, n, key, (said: AuthorityState, freshUntil: U64) => true)
  {
    hide After;
    forall a: nat | LastApplied(states, ops, n, key, a)
      ensures key in states[n].entries
      ensures states[n].entries[key] == CacheEntry(ops[a].decision, SaturatingAdd(ops[a].now, states[n].freshness))
    {
      LastAppliedIsEntry(states, ops, n, key, a);
    }
    if key in states[n].entries {
      var a := EntryIsLastApplied(states, ops, n, key);
    }
  }

  /** Without an invalidation in between, applied generations for a key never fall. */
  lemma GenerationsNeverFall(states: seq<PermitState>, ops: seq<Operation>, i: nat, j: nat, key: string)
    requires Run(states, ops) && i < j && AppliedAt(states, ops, i, key) && AppliedAt(states, ops, j, key)
    requires forall m | i < m < j :: !InvalidatedAt(states, ops, m, key)
    ensures ops[i].decision.generation <= ops[j].decision.generation
  {
    for m := i + 1 to j
      invariant key in states[m].entries && ops[i].decision.generation <= states[m].entries[key].decision.generation
    {
      assert states[m + 1] == After(states[m], ops[m]) && !InvalidatedAt(states, ops, m, key);
    }
  }

  /** Outstanding permits are older than the counter. */
  ghost predicate PermitsBelow(s: PermitState) {
    forall k | k in s.latest :: s.latest[k] < s.nextSequence
  }

  lemma PermitsStayBelow(states: seq<PermitState>, ops: seq<Operation>, n: nat)
    requires Run(states, ops) && n < |states| && Unsaturated(states[n])
    ensures forall m | 0 <= m <= n :: PermitsBelow(states[m]) && states[m].nextSequence <= states[n].nextSequence
  {
    CounterGrows(states, ops, n);
    for m := 0 to n
      invariant forall l | 0 <= l <= m :: PermitsBelow(states[l])
    {
      assert states[m + 1] == After(states[m], ops[m]);
    }
  }

  lemma {:induction false} CounterGrows(states: seq<PermitState>, ops: seq<Operation>, n: nat)
    requires Run(states, ops) && n < |states|
    ensures forall m | 0 <= m <= n :: states[m].nextSequence <= states[n].nextSequence
  {
    if n > 0 {
      CounterGrows(states, ops, n - 1);
      assert states[n] == After(states[n - 1], ops[n - 1]);
    }
  }

  /** Once a permit is spent, a key's outstanding permit is always a later one. */
  ghost predicate Beyond(s: PermitState, key: string, sequence: U64) {
    sequence < s.nextSequence && (key in s.latest ==> sequence < s.latest[key])
  }

  /** Until the counter saturates, the permits applied for a key strictly increase; so none is applied
      twice, and none after a newer one. */
  lemma AppliedPermitsIncrease(states: seq<PermitState>, ops: seq<Operation>, i: nat, j: nat, key: string)
    requires Run(states, ops) && i < j && AppliedAt(states, ops, i, key) && AppliedAt(states, ops, j, key)
    requires Unsaturated(states[j])
    ensures ops[i].permit.sequence < ops[j].permit.sequence
  {
    var sequence := ops[i].permit.sequence;
    PermitsStayBelow(states, ops, j);
    assert states[i + 1] == After(states[i], ops[i]);
    for m := i + 1 to j
      invariant Beyond(states[m], key, sequence)
    {
      assert states[m + 1] == After(states[m], ops[m]);
    }
  }

  // ---------------------------------------------------------------- superseded permits

  ghost predicate BegunAt(states: seq<PermitState>, ops: seq<Operation>, i: nat, key: string)
    requires |states| == |ops| + 1
  {
    i < |ops| && ops[i].Begin? && ops[i].key == key && !Regresses(states[i], ops[i].now)
  }

  /** `b` begins a refresh of `key` that nothing has spent or dropped before state `n`. */
  ghost predicate OpenSince(states: seq<PermitState>, ops: seq<Operation>, b: nat, n: nat, key: string)
    requires |states| == |ops| + 1 && n < |states|
  {
    && b < n
    && BegunAt(states, ops, b, key)
    && forall m | b < m < n :: !AppliedAt(states, ops, m, key) && !InvalidatedAt(states, ops, m, key)
  }

  /** What is outstanding for a key is a refresh begun earlier in the run and still open. */
  lemma {:induction false} OutstandingIsOpen(states: seq<PermitState>, ops: seq<Operation>, n: nat, key: string)
    requires Run(states, ops) && n < |states|
    ensures key in states[n].latest <==> exists b: nat :: OpenSince(states, ops, b, n, key)
  {
    if n > 0 {
      var m := n - 1;
      assert states[m + 1] == After(states[m], ops[m]);
      OutstandingIsOpen(states, ops, m, key);
      if BegunAt(states, ops, m, key) {
        assert OpenSince(states, ops, m, n, key);
      } else if key in states[n].latest {
        var b: nat :| OpenSince(states, ops, b, m, key);
        assert OpenSince(states, ops, b, n, key);
      } else if key in states[m].latest {
        assert AppliedAt(states, ops, m, key) || InvalidatedAt(states, ops, m, key);
      } else {
        forall b: nat | OpenSince(states, ops, b, n, key) ensures false {
          assert OpenSince(states, ops, b, m, key);
        }
      }
    }
  }

  /** From the newer begin on, the older permit's number is not outstanding for the key, unless the
      counter was already at its maximum: then it is the only number that can be. */
  ghost predicate Superseded(s: PermitState, key: string, sequence: U64) {
    if sequence < U64_MAX then Beyond(s, key, sequence)
    else s.nextSequence == U64_MAX && (key in s.latest ==> s.latest[key] == U64_MAX)
  }

  lemma SupersededStays(states: seq<PermitState>, ops: seq<Operation>, i: nat, j: nat, n: nat, key: string)
    requires Run(states, ops) && i < j < n < |states| && BegunAt(states, ops, i, key) && BegunAt(states, ops, j, key)
    ensures Superseded(states[n], key, states[i].nextSequence)
  {
    var sequence := states[i].nextSequence;
    assert states[i + 1] == After(states[i], ops[i]);
    for m := i + 1 to j
      invariant states[m].nextSequence == U64_MAX || sequence < states[m].nextSequence
    {
      assert states[m + 1] == After(states[m], ops[m]);
    }
    assert states[j + 1] == After(states[j], ops[j]);
    for m := j + 1 to n
      invariant Superseded(states[m], key, sequence)
    {
      assert states[m + 1] == After(states[m], ops[m]);
    }
  }

  /** In every run, whatever happens in between: once a newer refresh of a key has begun, the older
      permit is never applied, unless the counter had reached its maximum when the older one was handed
      out.  Then all its successors are the same number, and the older permit is applied exactly when
      some refresh of the key is open and the clock and the generation allow it. */
  lemma OlderPermitAppliedExactlyWhen(states: seq<PermitState>, ops: seq<Operation>, i: nat, j: nat, k: nat, key: string)
    requires Run(states, ops) && i < j < k < |ops| && BegunAt(states, ops, i, key) && BegunAt(states, ops, j, key)
    requires ops[k].Apply? && ops[k].permit == RefreshPermit(key, states[i].nextSequence)
    ensures Accepted(states[k], ops[k]) <==>
      && states[i].nextSequence == U64_MAX
      && (exists b: nat :: OpenSince(states, ops, b, k, key))
      && !Regresses(states[k], ops[k].now)
      && (key in states[k].entries ==> states[k].entries[key].decision.generation <= ops[k].decision.generation)
  {
    SupersededStays(states, ops, i, j, k, key);
    OutstandingIsOpen(states, ops, k, key);
  }

  lemma OneMore(states: seq<PermitState>, ops: seq<Operation>, op: Operation)
    requires Run(states, ops)
    ensures Run(states + [After(states[|ops|], op)], ops + [op])
  {
    var states', ops' := states + [After(states[|ops|], op)], ops + [op];
    assert states'[0] == states[0];
    forall i | 0 <= i < |ops'| ensures states'[i + 1] == After(states'[i], ops'[i]) {
      if i < |ops| {
        assert states[i + 1] == After(states[i], ops[i]);
      }
    }
  }

  /** A run in which the counter has reached its maximum. */
  lemma SaturatingRun(key: string) returns (states: seq<PermitState>, ops: seq<Operation>)
    ensures Run(states, ops) && states[|ops|].nextSequence == U64_MAX && states[|ops|].entries == map[]
    ensures !Regresses(states[|ops|], 0)
  {
    states, ops := [Fresh(1)], [];
    while states[|ops|].nextSequence < U64_MAX
      invariant Run(states, ops) && states[|ops|].entries == map[] && !Regresses(states[|ops|], 0)
      decreases U64_MAX - states[|ops|].nextSequence
    {
      OneMore(states, ops, Begin(key, 0));
      states, ops := states + [After(states[|ops|], Begin(key, 0))], ops + [Begin(key, 0)];
    }
  }

  /** The saturated case is no empty one: in this run the older of two refreshes of a key is applied after
      the newer has begun. */
  lemma SaturatedCounterAppliesOlderPermit(key: string, decision: AuthorityDecision)
    returns (states: seq<PermitState>, ops: seq<Operation>, i: nat)
    ensures Run(states, ops) && |ops| == i + 3 && BegunAt(states, ops, i, key) && BegunAt(states, ops, i + 1, key)
    ensures ops[i + 2] == Apply(RefreshPermit(key, states[i].nextSequence), decision, 0) && Accepted(states[i + 2], ops[i + 2])
  {
    states, ops := SaturatingRun(key);
    i := |ops|;
    for step := 0 to 3
      invariant Run(states, ops) && |ops| == i + step && states[i].nextSequence == U64_MAX
      invariant states[i + step].entries == map[] || step == 3
      invariant forall m | i <= m <= i + step :: !Regresses(states[m], 0)
      invariant forall m | i <= m < i + step && m < i + 2 :: ops[m] == Begin(key, 0)
      invariant step == 3 ==> ops[i + 2] == Apply(RefreshPermit(key, U64_MAX), decision, 0) && states[i + 2].entries == map[]
    {
      var op := if step < 2 then Begin(key, 0) else Apply(RefreshPermit(key, U64_MAX), decision, 0);
      OneMore(states, ops, op);
      states, ops := states + [After(states[|ops|], op)], ops + [op];
    }
    assert OpenSince(states, ops, i + 1, i + 2, key);
    OlderPermitAppliedExactlyWhen(states, ops, i, i + 1, i + 2, key);
  }
}
