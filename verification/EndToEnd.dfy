/**
 The whole system: any number of verifiers' gates, the authority's history with its revokers and
 lifters, and one shared clock that never goes back and is sampled on entry of every request.
 */
module EndToEnd {
  import opened Numbers
  import opened Text
  import opened Digest
  import opened RevocationRecord
  import opened RevocationLedger
  import opened RevocationAuthority
  import opened RevocationGate
  import VersionedStore
  import LedgerProperties
  import VerifierCache
  import GateRuns

  datatype World = World(clock: nat, log: LedgerLog, gates: seq<Gate>)

  datatype Move = Tick(to: nat) | Commit(commit: LedgerCommit) | AtGate(gate: nat, step: Step)

  function Now(log: LedgerLog, key: string): Option<Ledger> {
    VersionedStore.Current(log, key)
  }

  /** A commit is made on the current value with a time sampled no later than now; a call samples the
      clock when it enters; a read of the authority sees the value current at that step. */
  predicate CanMove(codec: Codec, w: World, m: Move) {
    match m
    case Tick(to) => w.clock <= to
    case Commit(c) => c.before == Now(w.log, c.key) && Allows(codec, w.log, c) && CauseTime(c.cause) <= w.clock
    case AtGate(i, s) =>
      && i < |w.gates|
      && Enabled(codec, w.gates[i], s)
      && SeesWorld(codec, w, w.gates[i], s)
  }

  predicate SeesWorld(codec: Codec, w: World, g: Gate, s: Step) {
    match s
    case Enter(_, _, now) => now == w.clock
    case ReadTokenKey(t, view) => t in g.tasks && view == Now(w.log, TokenKey(codec, g.tasks[t].claims))
    case ReadSubjectKey(t, view) => t in g.tasks && view == Now(w.log, SubjectKey(codec, g.tasks[t].claims))
    case _ => true
  }

  function AfterMove(codec: Codec, w: World, m: Move): World
    requires CanMove(codec, w, m)
  {
    match m
    case Tick(to) => w.(clock := to)
    case Commit(c) => w.(log := w.log + [c])
    case AtGate(i, s) => w.(gates := w.gates[i := After(codec, w.gates[i], s)])
  }

  ghost predicate WorldRun(codec: Codec, run: seq<World>, moves: seq<Move>) {
    && |run| == |moves| + 1
    && WorldSound(codec, run[0])
    && forall i | 0 <= i < |moves| :: CanMove(codec, run[i], moves[i]) && run[i + 1] == AfterMove(codec, run[i], moves[i])
  }

  ghost predicate GateInTime(g: Gate, clock: nat) {
    g.cache.highWater <= clock && forall t | t in g.tasks :: g.tasks[t].now <= clock
  }

  ghost predicate GateSound(codec: Codec, g: Gate, clock: nat) {
    GateRuns.GateInvariant(codec, g) && GateInTime(g, clock)
  }

  /** What holds of a fresh system, and of every state after it. */
  ghost predicate WorldSound(codec: Codec, w: World) {
    && VersionedStore.LegalLog(AuthorityRule(codec), w.log)
    && forall i | 0 <= i < |w.gates| :: GateSound(codec, w.gates[i], w.clock)
  }

  lemma FreshWorldIsSound(codec: Codec, clock: nat, gates: seq<Gate>)
    requires forall i | 0 <= i < |gates| ::
               exists budget, capacity | 1 <= budget && 1 <= capacity :: gates[i] == NewGate(budget, capacity)
    ensures WorldSound(codec, World(clock, [], gates))
  {
    forall i | 0 <= i < |gates| ensures GateSound(codec, gates[i], clock) {
      var budget, capacity :| 1 <= budget && 1 <= capacity && gates[i] == NewGate(budget, capacity);
      GateRuns.NewGateIsSound(codec, budget, capacity);
    }
  }

  lemma StepStaysInTime(codec: Codec, g: Gate, s: Step, clock: nat)
    requires GateInTime(g, clock) && Enabled(codec, g, s) && (s.Enter? ==> s.now == clock)
    ensures GateInTime(After(codec, g, s), clock)
  {
    hide CacheKey, ProbeTarget, ValidateInternalClaims, TokenKey, SubjectKey, VerifierCache.Seen, VerifierCache.MakesRoom, StrongCount;
  }

  lemma MoveKeepsSound(codec: Codec, w: World, m: Move)
    requires WorldSound(codec, w) && CanMove(codec, w, m)
    ensures WorldSound(codec, AfterMove(codec, w, m)) && w.clock <= AfterMove(codec, w, m).clock
  {
    hide GateRuns.GateInvariant, VersionedStore.LegalLog, Enabled, After, Allows;
    match m
    case Tick(to) =>
    case Commit(c) =>
      assert AuthorityRule(codec)(w.log, c);
      VersionedStore.LegalAppend(AuthorityRule(codec), w.log, c);
    case AtGate(i, s) =>
      GateRuns.StepKeepsInvariant(codec, w.gates[i], s);
      StepStaysInTime(codec, w.gates[i], s, w.clock);
  }

  // ---------------------------------------------------------------- the revocation bound

  /** `record` is what is stored, now, for its target. */
  ghost predicate InForce(codec: Codec, log: LedgerLog, record: Record) {
    var stored := Now(log, StorageKey(codec.sha, record));
    stored.Some? && CurrentRecord(stored.value.events) == Some(record)
  }

  /** The identities among which cache keys are told apart. */
  ghost predicate KeysTellApart(codec: Codec, presented: set<Claims>) {
    forall a, b | a in presented && b in presented && CacheKey(codec.sha, a) == CacheKey(codec.sha, b) :: SameIdentity(a, b)
  }

  /** A call checked after instant `c` for claims the record covers has not been cleared. */
  predicate CallSealed(task: Task, record: Record, c: nat, budget: nat) {
    Covers(record, task.claims) && c < task.now < record.expiresAt ==>
      && !(task.phase.Answered? && task.phase.decision == VerifierCache.Allow)
      && !(task.phase.ReadingSubject? && record.target.TokenId?)
      && (OutcomeOf(task.phase) == Some(Allowed) ==> task.now <= c + budget)
  }

  /** No allow observed after instant `c` is cached for claims the record covers. */
  ghost predicate CacheSealed(codec: Codec, cache: VerifierCache.CacheState, presented: set<Claims>, record: Record, c: nat) {
    forall claims | claims in presented && Covers(record, claims) && CacheKey(codec.sha, claims) in cache.entries ::
      var e := cache.entries[CacheKey(codec.sha, claims)];
      c < e.observedAt < record.expiresAt ==> e.decision == VerifierCache.Deny
  }

  ghost predicate GateSealed(codec: Codec, g: Gate, presented: set<Claims>, record: Record, c: nat) {
    && (forall t | t in g.tasks :: CallSealed(g.tasks[t], record, c, g.cache.budget))
    && CacheSealed(codec, g.cache, presented, record, c)
  }

  /** Everything observed by the instant of the commit is no later than the commit. */
  lemma SealedAtCommit(codec: Codec, g: Gate, presented: set<Claims>, record: Record, c: nat)
    requires GateSound(codec, g, c)
    ensures GateSealed(codec, g, presented, record, c)
  {
    hide LocksAreShared, CacheKey, TaskEvidenced;
  }

  /** A read made while the record is in force, for claims it covers at a time inside its window, finds it. */
  lemma ReadFindsRecord(codec: Codec, log: LedgerLog, record: Record, claims: Claims, now: nat, target: MatchedTarget)
    requires VersionedStore.LegalLog(AuthorityRule(codec), log) && InForce(codec, log, record)
    requires Covers(record, claims) && record.createdAt <= now < record.expiresAt
    ensures var key := if record.target.TokenId? then TokenKey(codec, claims) else SubjectKey(codec, claims);
      ProbeTarget(codec, Now(log, key), key, target, claims, now).Hit?
  {
    hide VersionedStore.LegalLog, ValidLedger, VersionedStore.Current, Validate, Covers, TokenKey, SubjectKey, StorageKey;
    var key := StorageKey(codec.sha, record);
    StoredIsLoadable(codec, log, key);
    var l := Now(log, key).value;
    LedgerProperties.ValidFacts(codec, l);
    assert Matches(record, claims, now);
    RecordKeyIsClaimsKey(codec, record, claims);
  }

  lemma RecordKeyIsClaimsKey(codec: Codec, record: Record, claims: Claims)
    requires Validate(record).Ok? && Covers(record, claims)
    ensures StorageKey(codec.sha, record) == if record.target.TokenId? then TokenKey(codec, claims) else SubjectKey(codec, claims)
  {
    hide TargetKey, IsIdentifier, IsAuditText;
  }

  /** One call's phase after a step, as far as sealing is concerned. */
  lemma LookStaysSealed(codec: Codec, g: Gate, s: Step, presented: set<Claims>, record: Record, c: nat)
    requires GateRuns.GateInvariant(codec, g) && Enabled(codec, g, s) && (s.Look? || s.Recheck?)
    requires GateSealed(codec, g, presented, record, c)
    requires forall t | t in g.tasks :: g.tasks[t].claims in presented
    ensures GateSealed(codec, After(codec, g, s), presented, record, c)
  {
    hide CacheKey, LocksAreShared, TaskEvidenced, Covers;
    var task := g.tasks[s.t];
    assert CallSealed(task, record, c, g.cache.budget);
  }

  lemma ReadStaysSealed(codec: Codec, w: World, g: Gate, s: Step, presented: set<Claims>, record: Record, c: nat)
    requires VersionedStore.LegalLog(AuthorityRule(codec), w.log) && InForce(codec, w.log, record)
    requires Enabled(codec, g, s) && SeesWorld(codec, w, g, s) && (s.ReadTokenKey? || s.ReadSubjectKey?)
    requires GateSealed(codec, g, presented, record, c) && record.createdAt <= c
    ensures GateSealed(codec, After(codec, g, s), presented, record, c)
  {
    hide CacheKey, Covers, VersionedStore.LegalLog, InForce, ProbeTarget, ValidateInternalClaims, TokenKey, SubjectKey;
    var task := g.tasks[s.t];
    assert CallSealed(task, record, c, g.cache.budget);
    if Covers(record, task.claims) && c < task.now < record.expiresAt {
      ReadFindsRecord(codec, w.log, record, task.claims, task.now, if s.ReadTokenKey? then MatchedTokenId else MatchedSubject);
    }
  }

  lemma ApplyStaysSealed(codec: Codec, g: Gate, s: Step, presented: set<Claims>, record: Record, c: nat)
    requires GateRuns.GateInvariant(codec, g) && Enabled(codec, g, s) && s.Apply?
    requires GateSealed(codec, g, presented, record, c) && KeysTellApart(codec, presented)
    requires forall t | t in g.tasks :: g.tasks[t].claims in presented
    ensures GateSealed(codec, After(codec, g, s), presented, record, c)
  {
    hide CacheKey, LocksAreShared, TaskEvidenced, VerifierCache.MakesRoom, After, Enabled;
    ApplyShape(codec, g, s);
    var h, task := After(codec, g, s), g.tasks[s.t];
    var key := KeyOf(codec, task);
    assert CallSealed(task, record, c, g.cache.budget);
    if g.cache.highWater <= task.now {
      VerifierCache.StoringStaysBounded(g.cache, key, task.phase.decision, task.now, s.victim);
      forall claims | claims in presented && Covers(record, claims) && CacheKey(codec.sha, claims) in h.cache.entries
        ensures var e := h.cache.entries[CacheKey(codec.sha, claims)];
          c < e.observedAt < record.expiresAt ==> e.decision == VerifierCache.Deny
      {
        if CacheKey(codec.sha, claims) == key {
          assert SameIdentity(claims, task.claims);
        }
      }
    }
  }

  lemma OtherStepsStaySealed(codec: Codec, g: Gate, s: Step, presented: set<Claims>, record: Record, c: nat, clock: nat)
    requires Enabled(codec, g, s) && (s.Enter? ==> s.now == clock)
    requires !s.Look? && !s.Recheck? && !s.ReadTokenKey? && !s.ReadSubjectKey? && !s.Apply?
    requires GateSealed(codec, g, presented, record, c)
    ensures GateSealed(codec, After(codec, g, s), presented, record, c)
  {
    hide CacheKey, Covers, StrongCount, VerifierCache.MakesRoom;
    if !s.Enter? {
      assert CallSealed(g.tasks[s.t], record, c, g.cache.budget);
    }
  }

  lemma StepStaysSealed(codec: Codec, w: World, g: Gate, s: Step, presented: set<Claims>, record: Record, c: nat)
    requires VersionedStore.LegalLog(AuthorityRule(codec), w.log) && InForce(codec, w.log, record)
    requires GateSound(codec, g, w.clock) && Enabled(codec, g, s) && SeesWorld(codec, w, g, s)
    requires GateSealed(codec, g, presented, record, c) && KeysTellApart(codec, presented) && record.createdAt <= c
    requires forall t | t in g.tasks :: g.tasks[t].claims in presented
    ensures GateSealed(codec, After(codec, g, s), presented, record, c)
  {
    hide After, Enabled, GateSealed, KeysTellApart, InForce, VersionedStore.LegalLog, GateRuns.GateInvariant;
    if s.Look? || s.Recheck? {
      LookStaysSealed(codec, g, s, presented, record, c);
    } else if s.ReadTokenKey? || s.ReadSubjectKey? {
      ReadStaysSealed(codec, w, g, s, presented, record, c);
    } else if s.Apply? {
      ApplyStaysSealed(codec, g, s, presented, record, c);
    } else {
      OtherStepsStaySealed(codec, g, s, presented, record, c, w.clock);
    }
  }

  ghost predicate WorldSealed(codec: Codec, w: World, presented: set<Claims>, record: Record, c: nat) {
    forall i | 0 <= i < |w.gates| :: GateSealed(codec, w.gates[i], presented, record, c)
  }

  ghost predicate OnlyPresented(w: World, presented: set<Claims>) {
    forall i, t | 0 <= i < |w.gates| && t in w.gates[i].tasks :: w.gates[i].tasks[t].claims in presented
  }

  lemma MoveStaysSealed(codec: Codec, w: World, m: Move, presented: set<Claims>, record: Record, c: nat)
    requires WorldSound(codec, w) && CanMove(codec, w, m) && InForce(codec, w.log, record) && OnlyPresented(w, presented)
    requires WorldSealed(codec, w, presented, record, c) && KeysTellApart(codec, presented) && record.createdAt <= c
    ensures WorldSealed(codec, AfterMove(codec, w, m), presented, record, c)
  {
    hide After, Enabled, GateSealed, KeysTellApart, InForce, VersionedStore.LegalLog, GateRuns.GateInvariant, GateInTime, Allows;
    if m.AtGate? {
      StepStaysSealed(codec, w, w.gates[m.gate], m.step, presented, record, c);
    }
  }

  /** The end-to-end bound.  If a revoke commits at instant `c` and its record stays current for its
      target, then from `c + budget` until the record expires no gate, in any interleaving of calls,
      refreshes, timeouts, failures, abandonments, evictions, cache hits and other commits, answers a
      call entered in that time with Allowed for a token the record covers. */
  lemma RevocationReachesEveryGate(codec: Codec, run: seq<World>, moves: seq<Move>, presented: set<Claims>,
                                   i: nat, n: nat, record: Record, gate: nat, t: nat)
    requires WorldRun(codec, run, moves) && i < n < |run|
    requires moves[i].Commit? && moves[i].commit.cause.RevokedBy? && moves[i].commit.cause.record == record
    requires forall j | i < j < n :: InForce(codec, run[j].log, record)
    requires forall j | i < j <= n :: OnlyPresented(run[j], presented)
    requires KeysTellApart(codec, presented)
    requires gate < |run[n].gates| && t in run[n].gates[gate].tasks
    requires Covers(record, run[n].gates[gate].tasks[t].claims)
    requires OutcomeOf(run[n].gates[gate].tasks[t].phase) == Some(Allowed)
    ensures var now, budget := run[n].gates[gate].tasks[t].now, run[n].gates[gate].cache.budget;
      !(run[i].clock + budget < now < record.expiresAt)
  {
    hide CanMove, AfterMove, InForce, KeysTellApart, WorldSound, GateSealed, Covers, OnlyPresented;
    var c := run[i].clock;
    SoundThroughout(codec, run, moves);
    CommitSeals(codec, run[i], moves[i], presented);
    for j := i + 1 to n
      invariant WorldSealed(codec, run[j], presented, record, c)
    {
      hide WorldSealed;
      MoveStaysSealed(codec, run[j], moves[j], presented, record, c);
    }
    SealedMeansNotAllowed(codec, run[n].gates[gate], presented, record, c, t);
  }

  /** A committed revoke puts its own record in force for its target. */
  lemma CommitPutsInForce(codec: Codec, log: LedgerLog)
    requires VersionedStore.LegalLog(AuthorityRule(codec), log) && log != [] && log[|log| - 1].cause.RevokedBy?
    ensures log[|log| - 1].key == StorageKey(codec.sha, log[|log| - 1].cause.record)
    ensures InForce(codec, log, log[|log| - 1].cause.record)
  {
    hide VersionedStore.LegalLog, ValidLedger, StorageKey, Pass;
    var n := |log| - 1;
    CommitTakesEffect(codec, log, n);
    HistoryIsAppendOnly(codec, log, n);
    LedgerProperties.ValidFacts(codec, log[n].after);
  }

  /** It stays in force until the next commit to that target. */
  lemma StaysInForce(codec: Codec, w: World, m: Move, record: Record)
    requires CanMove(codec, w, m) && InForce(codec, w.log, record)
    requires m.Commit? ==> m.commit.key != StorageKey(codec.sha, record)
    ensures InForce(codec, AfterMove(codec, w, m).log, record)
  {
    hide After, Enabled, Allows, StorageKey;
    if m.Commit? {
      assert (w.log + [m.commit])[..|w.log|] == w.log;
    }
  }

  /** The bound again, in terms of what happens alone: a revoke commits at instant `c`, and nothing more is
      committed to its target. */
  lemma RevocationHoldsUntilNextCommit(codec: Codec, run: seq<World>, moves: seq<Move>, presented: set<Claims>,
                                       i: nat, n: nat, gate: nat, t: nat)
    requires WorldRun(codec, run, moves) && i < n < |run|
    requires moves[i].Commit? && moves[i].commit.cause.RevokedBy?
    requires forall j | i < j < n :: moves[j].Commit? ==> moves[j].commit.key != moves[i].commit.key
    requires forall j | i < j <= n :: OnlyPresented(run[j], presented)
    requires KeysTellApart(codec, presented)
    requires gate < |run[n].gates| && t in run[n].gates[gate].tasks
    requires Covers(moves[i].commit.cause.record, run[n].gates[gate].tasks[t].claims)
    requires OutcomeOf(run[n].gates[gate].tasks[t].phase) == Some(Allowed)
    ensures var now, budget := run[n].gates[gate].tasks[t].now, run[n].gates[gate].cache.budget;
      !(run[i].clock + budget < now < moves[i].commit.cause.record.expiresAt)
  {
    hide CanMove, InForce, KeysTellApart, WorldSound, Covers, OnlyPresented, StorageKey;
    var record := moves[i].commit.cause.record;
    SoundThroughout(codec, run, moves);
    CommitMovePutsInForce(codec, run[i], moves[i]);
    for j := i + 1 to n
      invariant forall k | i < k <= j :: InForce(codec, run[k].log, record)
    {
      assert CanMove(codec, run[j], moves[j]) && run[j + 1] == AfterMove(codec, run[j], moves[j]);
      hide AfterMove;
      StaysInForce(codec, run[j], moves[j], record);
    }
    RevocationReachesEveryGate(codec, run, moves, presented, i, n, record, gate, t);
  }

  lemma CommitMovePutsInForce(codec: Codec, w: World, m: Move)
    requires WorldSound(codec, w) && CanMove(codec, w, m) && m.Commit? && m.commit.cause.RevokedBy?
    ensures m.commit.key == StorageKey(codec.sha, m.commit.cause.record)
    ensures InForce(codec, AfterMove(codec, w, m).log, m.commit.cause.record)
  {
    hide GateSound, InForce, StorageKey;
    MoveKeepsSound(codec, w, m);
    CommitPutsInForce(codec, AfterMove(codec, w, m).log);
  }

  lemma SoundThroughout(codec: Codec, run: seq<World>, moves: seq<Move>)
    requires WorldRun(codec, run, moves)
    ensures forall j | 0 <= j < |run| :: WorldSound(codec, run[j])
  {
    hide CanMove, AfterMove, WorldSound;
    for n := 0 to |moves|
      invariant forall j | 0 <= j <= n :: WorldSound(codec, run[j])
    {
      MoveKeepsSound(codec, run[n], moves[n]);
    }
  }

  lemma CommitSeals(codec: Codec, w: World, m: Move, presented: set<Claims>)
    requires WorldSound(codec, w) && CanMove(codec, w, m) && m.Commit? && m.commit.cause.RevokedBy?
    ensures m.commit.cause.record.createdAt <= w.clock
    ensures WorldSealed(codec, AfterMove(codec, w, m), presented, m.commit.cause.record, w.clock)
  {
    hide GateSound, GateSealed, Allows, VersionedStore.LegalLog;
    forall i | 0 <= i < |w.gates| ensures GateSealed(codec, w.gates[i], presented, m.commit.cause.record, w.clock) {
      SealedAtCommit(codec, w.gates[i], presented, m.commit.cause.record, w.clock);
    }
  }

  lemma SealedMeansNotAllowed(codec: Codec, g: Gate, presented: set<Claims>, record: Record, c: nat, t: nat)
    requires GateSealed(codec, g, presented, record, c) && t in g.tasks && Covers(record, g.tasks[t].claims)
    ensures OutcomeOf(g.tasks[t].phase) == Some(Allowed) ==> !(c + g.cache.budget < g.tasks[t].now < record.expiresAt)
  {
    hide CacheSealed, Covers;
    assert CallSealed(g.tasks[t], record, c, g.cache.budget);
  }

  // ---------------------------------------------------------------- the cache key

  function IdentityParts(claims: Claims): seq<seq<Byte>> {
    TextParts([claims.iss, claims.aud, claims.orgId, claims.sub, claims.jti])
  }

  /** Cache keys tell apart any identities whose digest preimages do not collide. */
  lemma CollisionFreeKeysTellApart(codec: Codec, presented: set<Claims>)
    requires forall claims | claims in presented :: Addressable(IdentityParts(claims))
    requires CollisionFree(codec.sha, set claims | claims in presented :: Frame(IdentityParts(claims)))
    ensures KeysTellApart(codec, presented)
  {
    forall a, b | a in presented && b in presented && CacheKey(codec.sha, a) == CacheKey(codec.sha, b) ensures SameIdentity(a, b) {
      var p, q := [a.iss, a.aud, a.orgId, a.sub, a.jti], [b.iss, b.aud, b.orgId, b.sub, b.jti];
      DigestTextInjective(codec.sha, p, q);
      assert p[0] == q[0] && p[1] == q[1] && p[2] == q[2] && p[3] == q[3] && p[4] == q[4];
    }
  }
}
