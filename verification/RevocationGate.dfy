/**
 The verifier's gate as an interleaved step system.  Every `authorize` call is a task whose phase is
 its program counter; each step is one critical section (the cache mutex, the key-lock map mutex),
 one read of the authority, or one drop.  Calls may time out, fail, or be abandoned at any await.
 */
module RevocationGate {
  import opened Numbers
  import opened Digest
  import opened RevocationRecord
  import opened RevocationLedger
  import opened VerifierCache
  import Authority = RevocationAuthority

  datatype Cause = ClockRegressed | RefreshFailed | RefreshTimedOut
  datatype Authorization = Allowed | Denied | Unavailable(cause: Cause)

  /** Opaque cache and single-flight key of a token identity. */
  function CacheKey(sha: Sha256, claims: Claims): string {
    DigestText(sha, [claims.iss, claims.aud, claims.orgId, claims.sub, claims.jti])
  }

  /** Where a call stands.  `lock` is the per-key lock it holds a reference to; `outcome` is `None` once
      the call has been abandoned. */
  datatype Phase =
    | Entered
    | Missed
    | Waiting(lock: nat)
    | Guarded(lock: nat)
    | Starting(lock: nat)
    | ReadingToken(lock: nat)
    | ReadingSubject(lock: nat)
    | Answered(lock: nat, decision: Decision)
    | Unguarding(lock: nat, outcome: Option<Authorization>)
    | Releasing(lock: nat, outcome: Option<Authorization>)
    | Dropping(lock: nat, outcome: Option<Authorization>)
    | Finished(outcome: Option<Authorization>)

  datatype Task = Task(claims: Claims, now: nat, phase: Phase)

  /** One authoritative answer: history, consulted by no step. */
  datatype Answer = Answer(key: string, at: nat, decision: Decision)

  datatype Gate = Gate(cache: CacheState, keyLocks: map<string, nat>, held: set<nat>, nextLock: nat,
                       tasks: map<nat, Task>, answers: set<Answer>)

  predicate HoldsReference(p: Phase) {
    !p.Entered? && !p.Missed? && !p.Finished?
  }

  /** Between `acquire_key` and the map section of `release_key`. */
  predicate UsesKey(p: Phase) {
    HoldsReference(p) && !p.Dropping?
  }

  predicate HoldsGuard(p: Phase) {
    p.Guarded? || p.Starting? || p.ReadingToken? || p.ReadingSubject? || p.Answered? || p.Unguarding?
  }

  /** An authority call is in flight. */
  predicate Calling(p: Phase) {
    p.ReadingToken? || p.ReadingSubject?
  }

  predicate Refreshing(p: Phase) {
    p.Starting? || Calling(p) || p.Answered?
  }

  function OutcomeOf(p: Phase): Option<Authorization> {
    if p.Unguarding? || p.Releasing? || p.Dropping? || p.Finished? then p.outcome else None
  }

  function KeyOf(codec: Codec, task: Task): string {
    CacheKey(codec.sha, task.claims)
  }

  function DecisionToAuth(d: Decision): Authorization {
    if d == Allow then Allowed else Denied
  }

  /** `Arc::strong_count`: the map's references and the calls'. */
  function StrongCount(g: Gate, lock: nat): nat {
    |MapReferences(g, lock)| + |TaskReferences(g, lock)|
  }

  function MapReferences(g: Gate, lock: nat): set<string> {
    set k | k in g.keyLocks && g.keyLocks[k] == lock
  }

  function TaskReferences(g: Gate, lock: nat): set<nat> {
    set t | t in g.tasks && HoldsReference(g.tasks[t].phase) && g.tasks[t].phase.lock == lock
  }

  /** The map section of `release_key`. */
  function Released(keyLocks: map<string, nat>, key: string, strongCount: nat): map<string, nat> {
    if strongCount <= 2 then keyLocks - {key} else keyLocks
  }

  datatype Step =
    | Enter(t: nat, claims: Claims, now: nat)
    | Look(t: nat)
    | AcquireKey(t: nat)
    | TakeGuard(t: nat)
    | Recheck(t: nat)
    | StartRefresh(t: nat)
    | ReadTokenKey(t: nat, view: Option<Ledger>)
    | ReadSubjectKey(t: nat, view: Option<Ledger>)
    | FailCall(t: nat)
    | TimeOut(t: nat)
    | Apply(t: nat, victim: Option<string>)
    | DropGuard(t: nat)
    | ReleaseKey(t: nat)
    | DropReference(t: nat)
    | Abandon(t: nat)

  /** Where in a call each step is taken. */
  predicate InPhase(s: Step, p: Phase) {
    match s
    case Enter(_, _, _) => false
    case Look(_) => p.Entered?
    case AcquireKey(_) => p.Missed?
    case TakeGuard(_) => p.Waiting?
    case Recheck(_) => p.Guarded?
    case StartRefresh(_) => p.Starting?
    case ReadTokenKey(_, _) => p.ReadingToken?
    case ReadSubjectKey(_, _) => p.ReadingSubject?
    case FailCall(_) => Calling(p)
    case TimeOut(_) => Calling(p)
    case Apply(_, _) => p.Answered?
    case DropGuard(_) => p.Unguarding?
    case ReleaseKey(_) => p.Releasing?
    case DropReference(_) => p.Dropping?
    case Abandon(_) => p.Waiting? || Calling(p)
  }

  predicate Enabled(codec: Codec, g: Gate, s: Step) {
    if s.Enter? then s.t !in g.tasks
    else
      && s.t in g.tasks
      && InPhase(s, g.tasks[s.t].phase)
      && (s.TakeGuard? ==> g.tasks[s.t].phase.lock !in g.held)
      && (s.Apply? && g.cache.highWater <= g.tasks[s.t].now ==> MakesRoom(g.cache, KeyOf(codec, g.tasks[s.t]), s.victim))
  }

  function Moved(g: Gate, t: nat, p: Phase): Gate
    requires t in g.tasks
  {
    g.(tasks := g.tasks[t := g.tasks[t].(phase := p)])
  }

  /** Both looks at the cache: advance the clock mark, then read. */
  function LookedUp(codec: Codec, g: Gate, t: nat, hit: Option<Authorization> -> Phase, missed: Phase): Gate
    requires t in g.tasks
  {
    var task := g.tasks[t];
    if task.now < g.cache.highWater then Moved(g, t, hit(Some(Unavailable(ClockRegressed))))
    else
      var seen := Seen(g.cache, KeyOf(codec, task), task.now);
      Moved(g, t, if seen.Fresh? then hit(Some(DecisionToAuth(seen.decision))) else missed)
        .(cache := g.cache.(highWater := task.now))
  }

  function KeyAcquired(codec: Codec, g: Gate, t: nat): Gate
    requires t in g.tasks
  {
    var key := KeyOf(codec, g.tasks[t]);
    if key in g.keyLocks then Moved(g, t, Waiting(g.keyLocks[key]))
    else Moved(g, t, Waiting(g.nextLock)).(keyLocks := g.keyLocks[key := g.nextLock], nextLock := g.nextLock + 1)
  }

  function Answering(codec: Codec, g: Gate, t: nat, lock: nat, d: Decision): Gate
    requires t in g.tasks
  {
    Moved(g, t, Answered(lock, d)).(answers := g.answers + {Answer(KeyOf(codec, g.tasks[t]), g.tasks[t].now, d)})
  }

  function Failing(g: Gate, t: nat, lock: nat, why: Cause): Gate
    requires t in g.tasks
  {
    Moved(g, t, Unguarding(lock, Some(Unavailable(why))))
  }

  function TokenKeyRead(codec: Codec, g: Gate, t: nat, view: Option<Ledger>): Gate
    requires t in g.tasks && g.tasks[t].phase.ReadingToken?
  {
    var task := g.tasks[t];
    if Authority.ValidateInternalClaims(task.claims).Err? then Failing(g, t, task.phase.lock, RefreshFailed)
    else
      match Authority.ProbeTarget(codec, view, Authority.TokenKey(codec, task.claims), Authority.MatchedTokenId, task.claims, task.now)
      case Corrupt => Failing(g, t, task.phase.lock, RefreshFailed)
      case Hit(_) => Answering(codec, g, t, task.phase.lock, Deny)
      case Clear => Moved(g, t, ReadingSubject(task.phase.lock))
  }

  function SubjectKeyRead(codec: Codec, g: Gate, t: nat, view: Option<Ledger>): Gate
    requires t in g.tasks && g.tasks[t].phase.ReadingSubject?
  {
    var task := g.tasks[t];
    match Authority.ProbeTarget(codec, view, Authority.SubjectKey(codec, task.claims), Authority.MatchedSubject, task.claims, task.now)
    case Corrupt => Failing(g, t, task.phase.lock, RefreshFailed)
    case Hit(_) => Answering(codec, g, t, task.phase.lock, Deny)
    case Clear => Answering(codec, g, t, task.phase.lock, Allow)
  }

  function Applied(codec: Codec, g: Gate, t: nat, victim: Option<string>): Gate
    requires t in g.tasks && g.tasks[t].phase.Answered?
  {
    var task := g.tasks[t];
    if task.now < g.cache.highWater then Failing(g, t, task.phase.lock, ClockRegressed)
    else
      Moved(g, t, Unguarding(task.phase.lock, Some(DecisionToAuth(task.phase.decision))))
        .(cache := Stored(g.cache, KeyOf(codec, task), task.phase.decision, task.now, victim))
  }

  function Unguarded(g: Gate, t: nat, p: Phase): Gate
    requires t in g.tasks && HoldsReference(g.tasks[t].phase)
  {
    Moved(g, t, p).(held := g.held - {g.tasks[t].phase.lock})
  }

  function After(codec: Codec, g: Gate, s: Step): Gate
    requires Enabled(codec, g, s)
  {
    if s.Enter? then g.(tasks := g.tasks[s.t := Task(s.claims, s.now, Entered)])
    else
      var task := g.tasks[s.t];
      match s
      case Enter(_, _, _) => g
      case Look(t) => LookedUp(codec, g, t, outcome => Finished(outcome), Missed)
      case AcquireKey(t) => KeyAcquired(codec, g, t)
      case TakeGuard(t) => Moved(g, t, Guarded(task.phase.lock)).(held := g.held + {task.phase.lock})
      case Recheck(t) => LookedUp(codec, g, t, outcome => Unguarding(task.phase.lock, outcome), Starting(task.phase.lock))
      case StartRefresh(t) =>
        if task.now < g.cache.highWater then Failing(g, t, task.phase.lock, ClockRegressed)
        else Moved(g, t, ReadingToken(task.phase.lock)).(cache := g.cache.(highWater := task.now))
      case ReadTokenKey(t, view) => TokenKeyRead(codec, g, t, view)
      case ReadSubjectKey(t, view) => SubjectKeyRead(codec, g, t, view)
      case FailCall(t) => Failing(g, t, task.phase.lock, RefreshFailed)
      case TimeOut(t) => Failing(g, t, task.phase.lock, RefreshTimedOut)
      case Apply(t, victim) => Applied(codec, g, t, victim)
      case DropGuard(t) => Unguarded(g, t, Releasing(task.phase.lock, task.phase.outcome))
      case ReleaseKey(t) =>
        Moved(g, t, Dropping(task.phase.lock, task.phase.outcome))
          .(keyLocks := Released(g.keyLocks, KeyOf(codec, task), StrongCount(g, task.phase.lock)))
      case DropReference(t) => Moved(g, t, Finished(task.phase.outcome))
      case Abandon(t) =>
        // The guard, if taken, goes with the future; `release_key` is never reached.
        if task.phase.Waiting? then Moved(g, t, Dropping(task.phase.lock, None))
        else Unguarded(g, t, Dropping(task.phase.lock, None))
  }

  function NewGate(budget: nat, capacity: nat): Gate
    requires 1 <= budget && 1 <= capacity
  {
    Gate(CacheState(map[], 0, budget, capacity), map[], {}, 0, map[], {})
  }

  // ---------------------------------------------------------------- single flight

  /** Everyone using a key shares the lock in the map, and a guard has one holder. */
  ghost predicate LocksAreShared(codec: Codec, g: Gate) {
    && (forall t | t in g.tasks && UsesKey(g.tasks[t].phase) ::
          KeyOf(codec, g.tasks[t]) in g.keyLocks && g.keyLocks[KeyOf(codec, g.tasks[t])] == g.tasks[t].phase.lock)
    && (forall t | t in g.tasks && HoldsGuard(g.tasks[t].phase) :: g.tasks[t].phase.lock in g.held)
    && (forall t, u | t in g.tasks && u in g.tasks && HoldsGuard(g.tasks[t].phase) && HoldsGuard(g.tasks[u].phase)
          && g.tasks[t].phase.lock == g.tasks[u].phase.lock :: t == u)
    && (forall k | k in g.keyLocks :: g.keyLocks[k] < g.nextLock)
    && (forall k, l | k in g.keyLocks && l in g.keyLocks && g.keyLocks[k] == g.keyLocks[l] :: k == l)
  }

  lemma SingletonSet<T>(s: set<T>, x: T, y: T)
    requires x in s && y in s && |s| <= 1
    ensures x == y
  {
    assert |s - {x}| == |s| - 1;
  }

  /** The reference-count test removes the lock exactly when the releasing call is the last to hold a
      reference, so never while another call uses it. */
  lemma ReleaseRemovesExactlyWhenLast(codec: Codec, g: Gate, t: nat)
    requires LocksAreShared(codec, g) && Enabled(codec, g, ReleaseKey(t))
    ensures var key := KeyOf(codec, g.tasks[t]); var lock := g.tasks[t].phase.lock;
      key !in After(codec, g, ReleaseKey(t)).keyLocks <==>
        forall u | u in g.tasks && HoldsReference(g.tasks[u].phase) && g.tasks[u].phase.lock == lock :: u == t
  {
    hide CacheKey;
    var key, lock := KeyOf(codec, g.tasks[t]), g.tasks[t].phase.lock;
    assert MapReferences(g, lock) == {key};
    assert t in TaskReferences(g, lock);
    if StrongCount(g, lock) <= 2 {
      forall u | u in g.tasks && HoldsReference(g.tasks[u].phase) && g.tasks[u].phase.lock == lock ensures u == t {
        assert u in TaskReferences(g, lock);
        SingletonSet(TaskReferences(g, lock), u, t);
      }
    } else {
      assert TaskReferences(g, lock) != {t};
    }
  }

  /** One call moves without gaining a key or a guard; others and the maps stay. */
  ghost predicate OnlyMoves(g: Gate, h: Gate, t: nat) {
    && t in g.tasks && h.tasks.Keys == g.tasks.Keys
    && h.tasks[t].claims == g.tasks[t].claims
    && (forall u | u in g.tasks && u != t :: h.tasks[u] == g.tasks[u])
    && (UsesKey(h.tasks[t].phase) ==> UsesKey(g.tasks[t].phase) && h.tasks[t].phase.lock == g.tasks[t].phase.lock)
    && (HoldsGuard(h.tasks[t].phase) ==> HoldsGuard(g.tasks[t].phase))
  }

  lemma MovingKeepsLocks(codec: Codec, g: Gate, h: Gate, t: nat)
    requires LocksAreShared(codec, g) && OnlyMoves(g, h, t)
    requires h.keyLocks == g.keyLocks && h.held == g.held && h.nextLock == g.nextLock
    ensures LocksAreShared(codec, h)
  {
    hide CacheKey;
  }

  lemma UnguardingKeepsLocks(codec: Codec, g: Gate, h: Gate, t: nat)
    requires LocksAreShared(codec, g) && OnlyMoves(g, h, t)
    requires HoldsGuard(g.tasks[t].phase) && !HoldsGuard(h.tasks[t].phase)
    requires h.keyLocks == g.keyLocks && h.held == g.held - {g.tasks[t].phase.lock} && h.nextLock == g.nextLock
    ensures LocksAreShared(codec, h)
  {
    hide CacheKey;
  }

  lemma ReleasingKeepsLocks(codec: Codec, g: Gate, t: nat)
    requires LocksAreShared(codec, g) && Enabled(codec, g, ReleaseKey(t))
    ensures LocksAreShared(codec, After(codec, g, ReleaseKey(t)))
  {
    hide CacheKey, StrongCount, LookedUp, KeyAcquired, Answering, Failing, TokenKeyRead, SubjectKeyRead, Applied, Unguarded, MakesRoom, DecisionToAuth;
    ReleaseRemovesExactlyWhenLast(codec, g, t);
  }

  /** The steps that touch the key-lock map or a guard. */
  predicate TouchesLocks(g: Gate, s: Step) {
    s.Enter? || s.AcquireKey? || s.TakeGuard? || s.DropGuard? || s.ReleaseKey?
    || (s.Abandon? && s.t in g.tasks && Calling(g.tasks[s.t].phase))
  }

  ghost predicate Quiet(g: Gate, h: Gate, t: nat) {
    OnlyMoves(g, h, t) && h.keyLocks == g.keyLocks && h.held == g.held && h.nextLock == g.nextLock
  }

  lemma LooksAreQuiet(codec: Codec, g: Gate, s: Step)
    requires Enabled(codec, g, s) && (s.Look? || s.Recheck? || s.StartRefresh?)
    ensures Quiet(g, After(codec, g, s), s.t)
  {
    hide CacheKey, Seen, KeyAcquired, Answering, TokenKeyRead, SubjectKeyRead, Applied, Unguarded, Released, MakesRoom, DecisionToAuth;
  }

  lemma ReadsAreQuiet(codec: Codec, g: Gate, s: Step)
    requires Enabled(codec, g, s) && (s.ReadTokenKey? || s.ReadSubjectKey?)
    ensures Quiet(g, After(codec, g, s), s.t)
  {
    hide CacheKey, Authority.ProbeTarget, Authority.ValidateInternalClaims, Authority.TokenKey, Authority.SubjectKey, LookedUp, KeyAcquired, Applied, Unguarded, Released, MakesRoom, DecisionToAuth;
  }

  lemma EndingsAreQuiet(codec: Codec, g: Gate, s: Step)
    requires Enabled(codec, g, s)
    requires s.FailCall? || s.TimeOut? || s.DropReference? || (s.Abandon? && !TouchesLocks(g, s))
    ensures Quiet(g, After(codec, g, s), s.t)
  {
    hide CacheKey, MakesRoom, LookedUp, KeyAcquired, Answering, TokenKeyRead, SubjectKeyRead, Applied, Released, DecisionToAuth;
  }

  lemma ApplyingIsQuiet(codec: Codec, g: Gate, s: Step)
    requires Enabled(codec, g, s) && s.Apply?
    ensures Quiet(g, After(codec, g, s), s.t)
  {
    hide CacheKey, Stored, MakesRoom, LookedUp, KeyAcquired, Answering, TokenKeyRead, SubjectKeyRead, Unguarded, Released, DecisionToAuth;
  }

  lemma AcquiringKeepsLocks(codec: Codec, g: Gate, s: Step)
    requires LocksAreShared(codec, g) && Enabled(codec, g, s) && (s.Enter? || s.AcquireKey? || s.TakeGuard?)
    ensures LocksAreShared(codec, After(codec, g, s))
  {
    hide CacheKey, LookedUp, Answering, Failing, TokenKeyRead, SubjectKeyRead, Applied, Unguarded, Released, MakesRoom, DecisionToAuth;
  }

  /** Every step, of any call, keeps the locks shared. */
  lemma LocksStayShared(codec: Codec, g: Gate, s: Step)
    requires LocksAreShared(codec, g) && Enabled(codec, g, s)
    ensures LocksAreShared(codec, After(codec, g, s))
  {
    hide CacheKey, LocksAreShared, StrongCount, LookedUp, KeyAcquired, TokenKeyRead, SubjectKeyRead, Applied;
    if s.ReleaseKey? {
      ReleasingKeepsLocks(codec, g, s.t);
    } else if s.DropGuard? || (s.Abandon? && Calling(g.tasks[s.t].phase)) {
      UnguardingKeepsLocks(codec, g, After(codec, g, s), s.t);
    } else if s.Enter? || s.AcquireKey? || s.TakeGuard? {
      AcquiringKeepsLocks(codec, g, s);
    } else {
      if s.Look? || s.Recheck? || s.StartRefresh? {
        LooksAreQuiet(codec, g, s);
      } else if s.ReadTokenKey? || s.ReadSubjectKey? {
        ReadsAreQuiet(codec, g, s);
      } else if s.Apply? {
        ApplyingIsQuiet(codec, g, s);
      } else {
        EndingsAreQuiet(codec, g, s);
      }
      MovingKeepsLocks(codec, g, After(codec, g, s), s.t);
    }
  }

  /** At most one authority call per key is in flight. */
  lemma SingleFlight(codec: Codec, g: Gate, t: nat, u: nat)
    requires LocksAreShared(codec, g) && t in g.tasks && u in g.tasks
    requires Calling(g.tasks[t].phase) && Calling(g.tasks[u].phase)
    requires KeyOf(codec, g.tasks[t]) == KeyOf(codec, g.tasks[u])
    ensures t == u
  {
  }

  // ---------------------------------------------------------------- bounded staleness and coalescing

  /** Some authority answer `d` for this key was obtained at a check time at most a budget before `now`. */
  ghost predicate Backed(answers: set<Answer>, budget: nat, key: string, now: nat, d: Decision) {
    exists at: nat | at <= now <= at + budget :: Answer(key, at, d) in answers
  }

  /** The cache has nothing that could still have served this key at `now`. */
  predicate Overdue(cache: CacheState, key: string, now: nat) {
    key in cache.entries ==> cache.entries[key].observedAt + cache.budget < now
  }

  ghost predicate OutcomeBacked(g: Gate, key: string, now: nat, outcome: Option<Authorization>) {
    && (outcome == Some(Allowed) ==> Backed(g.answers, g.cache.budget, key, now, Allow))
    && (outcome == Some(Denied) ==> Backed(g.answers, g.cache.budget, key, now, Deny))
  }

  ghost predicate TaskEvidenced(codec: Codec, g: Gate, task: Task) {
    && (task.phase.Answered? ==> Answer(KeyOf(codec, task), task.now, task.phase.decision) in g.answers)
    && OutcomeBacked(g, KeyOf(codec, task), task.now, OutcomeOf(task.phase))
    && (Refreshing(task.phase) ==> Overdue(g.cache, KeyOf(codec, task), task.now))
  }

  ghost predicate CacheEvidenced(g: Gate) {
    && WellFormed(g.cache)
    && forall k | k in g.cache.entries :: Answer(k, g.cache.entries[k].observedAt, g.cache.entries[k].decision) in g.answers
  }

  ghost predicate Evidenced(codec: Codec, g: Gate) {
    && CacheEvidenced(g)
    && forall t | t in g.tasks :: TaskEvidenced(codec, g, g.tasks[t])
  }

  lemma EvidenceKeeps(codec: Codec, g: Gate, h: Gate, task: Task)
    requires TaskEvidenced(codec, g, task)
    requires g.answers <= h.answers && h.cache.budget == g.cache.budget
    requires Refreshing(task.phase) ==> Overdue(h.cache, KeyOf(codec, task), task.now)
    ensures TaskEvidenced(codec, h, task)
  {
    hide CacheKey;
    forall d | Backed(g.answers, g.cache.budget, KeyOf(codec, task), task.now, d)
      ensures Backed(h.answers, h.cache.budget, KeyOf(codec, task), task.now, d)
    {
      var at: nat :| at <= task.now <= at + g.cache.budget && Answer(KeyOf(codec, task), at, d) in g.answers;
    }
  }

  /** Evidence, when one call has moved and nothing became fresh for another call's refresh. */
  lemma OthersKeepEvidence(codec: Codec, g: Gate, h: Gate, t: nat)
    requires Evidenced(codec, g) && CacheEvidenced(h)
    requires h.tasks.Keys == g.tasks.Keys + {t} && (forall u | u in g.tasks && u != t :: h.tasks[u] == g.tasks[u])
    requires g.answers <= h.answers && h.cache.budget == g.cache.budget
    requires forall u | u in g.tasks && u != t && Refreshing(g.tasks[u].phase) ::
               Overdue(h.cache, KeyOf(codec, g.tasks[u]), g.tasks[u].now)
    requires TaskEvidenced(codec, h, h.tasks[t])
    ensures Evidenced(codec, h)
  {
    hide CacheKey, Overdue, TaskEvidenced;
    forall u | u in h.tasks ensures TaskEvidenced(codec, h, h.tasks[u]) {
      if u != t {
        EvidenceKeeps(codec, g, h, g.tasks[u]);
      }
    }
  }

  /** A fresh entry backs the decision it serves. */
  lemma FreshIsBacked(g: Gate, key: string, now: nat)
    requires CacheEvidenced(g) && g.cache.highWater <= now
    ensures Seen(g.cache, key, now).Fresh? ==> Backed(g.answers, g.cache.budget, key, now, Seen(g.cache, key, now).decision)
    ensures !Seen(g.cache, key, now).Fresh? ==> Overdue(g.cache, key, now)
  {
    if Seen(g.cache, key, now).Fresh? {
      var e := g.cache.entries[key];
      assert Answer(key, e.observedAt, e.decision) in g.answers;
    }
  }

  lemma LookingIsEvidenced(codec: Codec, g: Gate, s: Step)
    requires Evidenced(codec, g) && Enabled(codec, g, s) && s.Look?
    ensures Evidenced(codec, After(codec, g, s))
  {
    hide CacheKey, Seen, Backed, KeyAcquired, Answering, Failing, TokenKeyRead, SubjectKeyRead, Applied, Unguarded, Released, MakesRoom;
    var h, task := After(codec, g, s), g.tasks[s.t];
    if g.cache.highWater <= task.now {
      FreshIsBacked(g, KeyOf(codec, task), task.now);
    }
    OthersKeepEvidence(codec, g, h, s.t);
  }

  lemma RecheckingIsEvidenced(codec: Codec, g: Gate, s: Step)
    requires Evidenced(codec, g) && Enabled(codec, g, s) && s.Recheck?
    ensures Evidenced(codec, After(codec, g, s))
  {
    hide CacheKey, Seen, Backed, KeyAcquired, Answering, Failing, TokenKeyRead, SubjectKeyRead, Applied, Unguarded, Released, MakesRoom;
    var h, task := After(codec, g, s), g.tasks[s.t];
    if g.cache.highWater <= task.now {
      FreshIsBacked(g, KeyOf(codec, task), task.now);
    }
    OthersKeepEvidence(codec, g, h, s.t);
  }

  lemma StartingIsEvidenced(codec: Codec, g: Gate, s: Step)
    requires Evidenced(codec, g) && Enabled(codec, g, s) && s.StartRefresh?
    ensures Evidenced(codec, After(codec, g, s))
  {
    hide CacheKey, Backed, LookedUp, KeyAcquired, Answering, TokenKeyRead, SubjectKeyRead, Applied, Unguarded, Released, MakesRoom, DecisionToAuth;
    OthersKeepEvidence(codec, g, After(codec, g, s), s.t);
  }

  lemma MoreAnswersKeepCache(g: Gate, h: Gate)
    requires CacheEvidenced(g) && h.cache == g.cache && g.answers <= h.answers
    ensures CacheEvidenced(h)
  {
  }

  lemma TokenReadIsEvidenced(codec: Codec, g: Gate, s: Step)
    requires Evidenced(codec, g) && Enabled(codec, g, s) && s.ReadTokenKey?
    ensures Evidenced(codec, After(codec, g, s))
  {
    hide CacheKey, CacheEvidenced, StrongCount, Authority.ProbeTarget, Authority.ValidateInternalClaims, Authority.TokenKey, Authority.SubjectKey, LookedUp, KeyAcquired, SubjectKeyRead, Applied, Unguarded, Released, MakesRoom, DecisionToAuth;
    var h := After(codec, g, s);
    assert h.cache == g.cache && g.answers <= h.answers;
    MoreAnswersKeepCache(g, h);
    OthersKeepEvidence(codec, g, h, s.t);
  }

  lemma SubjectReadIsEvidenced(codec: Codec, g: Gate, s: Step)
    requires Evidenced(codec, g) && Enabled(codec, g, s) && s.ReadSubjectKey?
    ensures Evidenced(codec, After(codec, g, s))
  {
    hide CacheKey, CacheEvidenced, StrongCount, Authority.ProbeTarget, Authority.ValidateInternalClaims, Authority.TokenKey, Authority.SubjectKey, LookedUp, KeyAcquired, TokenKeyRead, Applied, Unguarded, Released, MakesRoom, DecisionToAuth;
    var h := After(codec, g, s);
    assert h.cache == g.cache && g.answers <= h.answers;
    MoreAnswersKeepCache(g, h);
    OthersKeepEvidence(codec, g, h, s.t);
  }

  lemma ApplyShape(codec: Codec, g: Gate, s: Step)
    requires Enabled(codec, g, s) && s.Apply?
    ensures s.t in g.tasks && g.tasks[s.t].phase.Answered?
    ensures var h, task := After(codec, g, s), g.tasks[s.t];
      if task.now < g.cache.highWater then Harmless(g, h, s.t)
      else
        && MakesRoom(g.cache, KeyOf(codec, task), s.victim)
        && h.cache == Stored(g.cache, KeyOf(codec, task), task.phase.decision, task.now, s.victim)
        && h.answers == g.answers
        && h.tasks == g.tasks[s.t := task.(phase := Unguarding(task.phase.lock, Some(DecisionToAuth(task.phase.decision))))]
  {
    hide CacheKey, Stored, StrongCount, LookedUp, KeyAcquired, Answering, TokenKeyRead, SubjectKeyRead, Unguarded, Released, MakesRoom, DecisionToAuth;
  }

  /** Applying an answer makes the key fresh; single flight says no other call is refreshing that key. */
  lemma ApplyingIsEvidenced(codec: Codec, g: Gate, s: Step)
    requires Evidenced(codec, g) && LocksAreShared(codec, g) && Enabled(codec, g, s) && s.Apply?
    ensures Evidenced(codec, After(codec, g, s))
  {
    hide CacheKey, Stored, After, Enabled, MakesRoom, Harmless;
    ApplyShape(codec, g, s);
    var h, task := After(codec, g, s), g.tasks[s.t];
    var key := KeyOf(codec, task);
    if task.now < g.cache.highWater {
      HarmlessKeepsEvidence(codec, g, h, s.t);
    } else {
      StoringStaysBounded(g.cache, key, task.phase.decision, task.now, s.victim);
      StoredFrame(g.cache, key, task.phase.decision, task.now, s.victim);
      assert Backed(h.answers, h.cache.budget, key, task.now, task.phase.decision) by {
        assert Answer(key, task.now, task.phase.decision) in h.answers;
      }
      forall u | u in g.tasks && u != s.t && Refreshing(g.tasks[u].phase)
        ensures Overdue(h.cache, KeyOf(codec, g.tasks[u]), g.tasks[u].now)
      {
        assert KeyOf(codec, g.tasks[u]) != key;
      }
      OthersKeepEvidence(codec, g, h, s.t);
    }
  }

  lemma StoredFrame(s: CacheState, key: string, decision: Decision, now: nat, victim: Option<string>)
    ensures var t := Stored(s, key, decision, now, victim); t.budget == s.budget && t.capacity == s.capacity && t.highWater == now
  {
  }

  /** Nothing is answered or cached, and the call that moves neither refreshes nor gains a decision. */
  ghost predicate Harmless(g: Gate, h: Gate, t: nat) {
    && h.cache == g.cache && h.answers == g.answers
    && h.tasks.Keys == g.tasks.Keys + {t} && (forall u | u in g.tasks && u != t :: h.tasks[u] == g.tasks[u])
    && !Refreshing(h.tasks[t].phase)
    && var outcome := OutcomeOf(h.tasks[t].phase);
    || outcome.None?
    || outcome.value.Unavailable?
    || (t in g.tasks && outcome == OutcomeOf(g.tasks[t].phase) && h.tasks[t].claims == g.tasks[t].claims && h.tasks[t].now == g.tasks[t].now)
  }

  lemma HarmlessKeepsEvidence(codec: Codec, g: Gate, h: Gate, t: nat)
    requires Evidenced(codec, g) && Harmless(g, h, t)
    ensures Evidenced(codec, h)
  {
    hide CacheKey, Backed, CacheEvidenced;
    MoreAnswersKeepCache(g, h);
    assert TaskEvidenced(codec, h, h.tasks[t]);
    OthersKeepEvidence(codec, g, h, t);
  }

  lemma LockingIsHarmless(codec: Codec, g: Gate, s: Step)
    requires Enabled(codec, g, s) && (s.Enter? || s.AcquireKey? || s.TakeGuard? || s.DropGuard? || s.ReleaseKey?)
    ensures Harmless(g, After(codec, g, s), s.t)
  {
    hide CacheKey, StrongCount, LookedUp, Answering, Failing, TokenKeyRead, SubjectKeyRead, Applied, Released, MakesRoom, DecisionToAuth;
  }

  lemma EndingIsHarmless(codec: Codec, g: Gate, s: Step)
    requires Enabled(codec, g, s) && (s.FailCall? || s.TimeOut? || s.DropReference? || s.Abandon?)
    ensures Harmless(g, After(codec, g, s), s.t)
  {
    hide CacheKey, StrongCount, LookedUp, KeyAcquired, Answering, TokenKeyRead, SubjectKeyRead, Applied, Released, MakesRoom, DecisionToAuth;
  }

  lemma EvidenceStays(codec: Codec, g: Gate, s: Step)
    requires Evidenced(codec, g) && LocksAreShared(codec, g) && Enabled(codec, g, s)
    ensures Evidenced(codec, After(codec, g, s))
  {
    hide Evidenced, Harmless, LocksAreShared, Enabled, After, CacheKey;
    if s.Look? {
      LookingIsEvidenced(codec, g, s);
    } else if s.Recheck? {
      RecheckingIsEvidenced(codec, g, s);
    } else if s.StartRefresh? {
      StartingIsEvidenced(codec, g, s);
    } else if s.ReadTokenKey? {
      TokenReadIsEvidenced(codec, g, s);
    } else if s.ReadSubjectKey? {
      SubjectReadIsEvidenced(codec, g, s);
    } else if s.Apply? {
      ApplyingIsEvidenced(codec, g, s);
    } else {
      if s.FailCall? || s.TimeOut? || s.DropReference? || s.Abandon? {
        EndingIsHarmless(codec, g, s);
      } else {
        LockingIsHarmless(codec, g, s);
      }
      HarmlessKeepsEvidence(codec, g, After(codec, g, s), s.t);
    }
  }
}
