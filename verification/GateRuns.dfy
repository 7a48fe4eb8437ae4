/** Whole runs of one gate: single flight, where answers come from, how stale an allow may be, and how
    often the authority is asked. */
module GateRuns {
  import opened Numbers
  import opened RevocationLedger
  import opened VerifierCache
  import opened RevocationGate
  import Authority = RevocationAuthority

  ghost predicate GateRun(codec: Codec, run: seq<Gate>, steps: seq<Step>) {
    && |run| == |steps| + 1
    && (exists budget, capacity | 1 <= budget && 1 <= capacity :: run[0] == NewGate(budget, capacity))
    && forall i | 0 <= i < |steps| :: Enabled(codec, run[i], steps[i]) && run[i + 1] == After(codec, run[i], steps[i])
  }

  ghost predicate GateInvariant(codec: Codec, g: Gate) {
    LocksAreShared(codec, g) && Evidenced(codec, g)
  }

  lemma StepKeepsInvariant(codec: Codec, g: Gate, s: Step)
    requires GateInvariant(codec, g) && Enabled(codec, g, s)
    ensures GateInvariant(codec, After(codec, g, s))
  {
    hide LocksAreShared, Evidenced, Enabled, After;
    LocksStayShared(codec, g, s);
    EvidenceStays(codec, g, s);
  }

  lemma {:induction false} EveryStateIsSound(codec: Codec, run: seq<Gate>, steps: seq<Step>)
    requires GateRun(codec, run, steps)
    ensures forall i | 0 <= i < |run| :: GateInvariant(codec, run[i])
  {
    hide Enabled, After, LocksAreShared;
    assert GateInvariant(codec, run[0]) by {
      var budget, capacity :| 1 <= budget && 1 <= capacity && run[0] == NewGate(budget, capacity);
      NewGateIsSound(codec, budget, capacity);
    }
    for n := 0 to |steps|
      invariant forall i | 0 <= i <= n :: GateInvariant(codec, run[i])
    {
      hide GateInvariant;
      StepKeepsInvariant(codec, run[n], steps[n]);
    }
  }

  lemma NewGateIsSound(codec: Codec, budget: nat, capacity: nat)
    requires 1 <= budget && 1 <= capacity
    ensures GateInvariant(codec, NewGate(budget, capacity))
  {
  }

  /** The record of a gate's life so far ends in `g`. */
  ghost predicate Recorded(codec: Codec, run: seq<Gate>, steps: seq<Step>, g: Gate) {
    GateRun(codec, run, steps) && run[|steps|] == g
  }

  lemma RecordStep(codec: Codec, run: seq<Gate>, steps: seq<Step>, g: Gate, s: Step)
    requires Recorded(codec, run, steps, g) && Enabled(codec, g, s)
    ensures Recorded(codec, run + [After(codec, g, s)], steps + [s], After(codec, g, s))
  {
    hide Enabled, After, NewGate;
    var run', steps' := run + [After(codec, g, s)], steps + [s];
    assert run'[0] == run[0];
    forall i | 0 <= i < |steps'| ensures Enabled(codec, run'[i], steps'[i]) && run'[i + 1] == After(codec, run'[i], steps'[i]) {
      if i < |steps| {
        assert run'[i] == run[i] && run'[i + 1] == run[i + 1] && steps'[i] == steps[i];
      }
    }
  }

  lemma RecordedIsSound(codec: Codec, run: seq<Gate>, steps: seq<Step>, g: Gate)
    requires Recorded(codec, run, steps, g)
    ensures GateInvariant(codec, g) && WellFormed(g.cache)
  {
    hide Enabled, After, NewGate, LocksAreShared, WellFormed;
    EveryStateIsSound(codec, run, steps);
  }

  /** A guard that is held is of a lock that was once handed out. */
  ghost predicate HeldBelow(g: Gate) {
    forall l | l in g.held :: l < g.nextLock
  }

  lemma LockStepKeepsHeld(codec: Codec, g: Gate, s: Step)
    requires LocksAreShared(codec, g) && HeldBelow(g) && Enabled(codec, g, s) && TouchesLocks(g, s)
    ensures HeldBelow(After(codec, g, s))
  {
    hide CacheKey, StrongCount, LookedUp, Answering, Failing, TokenKeyRead, SubjectKeyRead, Applied, Released, MakesRoom, DecisionToAuth;
  }

  lemma StepKeepsHeld(codec: Codec, g: Gate, s: Step)
    requires LocksAreShared(codec, g) && HeldBelow(g) && Enabled(codec, g, s)
    ensures HeldBelow(After(codec, g, s))
  {
    hide Enabled, After, LocksAreShared;
    if TouchesLocks(g, s) {
      LockStepKeepsHeld(codec, g, s);
    } else if s.Look? || s.Recheck? || s.StartRefresh? {
      LooksAreQuiet(codec, g, s);
    } else if s.ReadTokenKey? || s.ReadSubjectKey? {
      ReadsAreQuiet(codec, g, s);
    } else if s.Apply? {
      ApplyingIsQuiet(codec, g, s);
    } else {
      EndingsAreQuiet(codec, g, s);
    }
  }

  /** So a lock about to be made is free. */
  lemma NextLockIsFree(codec: Codec, run: seq<Gate>, steps: seq<Step>, g: Gate)
    requires Recorded(codec, run, steps, g)
    ensures g.nextLock !in g.held
  {
    hide Enabled, After, LocksAreShared, Evidenced;
    EveryStateIsSound(codec, run, steps);
    for n := 0 to |steps|
      invariant HeldBelow(run[n])
    {
      hide HeldBelow;
      StepKeepsHeld(codec, run[n], steps[n]);
    }
  }

  /** In every state of every interleaving there is at most one authority call in flight per key. */
  lemma SingleFlightInEveryRun(codec: Codec, run: seq<Gate>, steps: seq<Step>, i: nat, t: nat, u: nat)
    requires GateRun(codec, run, steps) && i < |run|
    requires t in run[i].tasks && u in run[i].tasks && KeyOf(codec, run[i].tasks[t]) == KeyOf(codec, run[i].tasks[u])
    requires Calling(run[i].tasks[t].phase) && Calling(run[i].tasks[u].phase)
    ensures t == u
  {
    hide Enabled, After;
    EveryStateIsSound(codec, run, steps);
    SingleFlight(codec, run[i], t, u);
  }

  // ---------------------------------------------------------------- where answers come from

  /** The step is the read that ends a check for `a.key` at time `a.at` with `a.decision`: the second read
      finding nothing, or either read finding a matching record. */
  ghost predicate Concludes(codec: Codec, g: Gate, s: Step, a: Answer) {
    && s.t in g.tasks
    && KeyOf(codec, g.tasks[s.t]) == a.key
    && g.tasks[s.t].now == a.at
    && var claims := g.tasks[s.t].claims;
    match s
    case ReadTokenKey(_, view) =>
      a.decision == Deny && Authority.ProbeTarget(codec, view, Authority.TokenKey(codec, claims), Authority.MatchedTokenId, claims, a.at).Hit?
    case ReadSubjectKey(_, view) =>
      var probe := Authority.ProbeTarget(codec, view, Authority.SubjectKey(codec, claims), Authority.MatchedSubject, claims, a.at);
      if a.decision == Deny then probe.Hit? else probe.Clear?
    case _ => false
  }

  lemma NewAnswerIsConcluded(codec: Codec, g: Gate, s: Step, a: Answer)
    requires Enabled(codec, g, s) && a in After(codec, g, s).answers && a !in g.answers
    ensures Concludes(codec, g, s, a)
  {
    hide CacheKey, Authority.ProbeTarget, Authority.ValidateInternalClaims, Authority.TokenKey, Authority.SubjectKey,
         Seen, Stored, MakesRoom, StrongCount;
  }

  lemma {:induction false} AnswersAreConcluded(codec: Codec, run: seq<Gate>, steps: seq<Step>, i: nat, a: Answer)
    requires GateRun(codec, run, steps) && i < |run| && a in run[i].answers
    ensures exists j | 0 <= j < i :: Concludes(codec, run[j], steps[j], a)
  {
    hide Enabled, After, Concludes;
    if i > 0 {
      if a in run[i - 1].answers {
        AnswersAreConcluded(codec, run, steps, i - 1, a);
      } else {
        NewAnswerIsConcluded(codec, run[i - 1], steps[i - 1], a);
      }
    }
  }

  /** The first read of a check, on the way to its second. */
  ghost predicate FirstReadClear(codec: Codec, g: Gate, s: Step, task: Task) {
    && s.ReadTokenKey?
    && s.t in g.tasks
    && g.tasks[s.t].claims == task.claims
    && g.tasks[s.t].now == task.now
    && Authority.ValidateInternalClaims(task.claims).Ok?
    && Authority.ProbeTarget(codec, s.view, Authority.TokenKey(codec, task.claims), Authority.MatchedTokenId, task.claims, task.now).Clear?
  }

  lemma OnlyClearReadGoesOn(codec: Codec, g: Gate, s: Step, t: nat)
    requires Enabled(codec, g, s)
    requires t in After(codec, g, s).tasks && After(codec, g, s).tasks[t].phase.ReadingSubject?
    ensures (t in g.tasks && g.tasks[t] == After(codec, g, s).tasks[t]) || FirstReadClear(codec, g, s, After(codec, g, s).tasks[t])
  {
    hide CacheKey, Authority.ProbeTarget, Authority.ValidateInternalClaims, Authority.TokenKey, Authority.SubjectKey,
         Seen, Stored, MakesRoom, StrongCount;
  }

  lemma {:induction false} FirstReadWasClear(codec: Codec, run: seq<Gate>, steps: seq<Step>, j: nat, t: nat)
    requires GateRun(codec, run, steps) && j < |run| && t in run[j].tasks && run[j].tasks[t].phase.ReadingSubject?
    ensures exists k | 0 <= k < j :: FirstReadClear(codec, run[k], steps[k], run[j].tasks[t])
  {
    hide Enabled, After, FirstReadClear;
    if j > 0 {
      OnlyClearReadGoesOn(codec, run[j - 1], steps[j - 1], t);
      if !FirstReadClear(codec, run[j - 1], steps[j - 1], run[j].tasks[t]) {
        FirstReadWasClear(codec, run, steps, j - 1, t);
      }
    }
  }

  /** Steps `k` and `j` are the two reads of one check of `key` at time `at`, and what they read makes the
      check answer "not revoked". */
  ghost predicate ChecksClear(codec: Codec, run: seq<Gate>, steps: seq<Step>, k: nat, j: nat, key: string, at: nat)
    requires |run| == |steps| + 1
  {
    && k < j < |steps|
    && steps[k].ReadTokenKey? && steps[j].ReadSubjectKey?
    && steps[j].t in run[j].tasks
    && KeyOf(codec, run[j].tasks[steps[j].t]) == key
    && run[j].tasks[steps[j].t].now == at
    && Authority.Check(codec, steps[k].view, steps[j].view, run[j].tasks[steps[j].t].claims, at) == Numbers.Ok(Authority.NOT_REVOKED)
  }

  lemma ConcludedAllowIsACheck(codec: Codec, run: seq<Gate>, steps: seq<Step>, j: nat, a: Answer)
    requires GateRun(codec, run, steps) && j < |steps| && a.decision == Allow && Concludes(codec, run[j], steps[j], a)
    ensures exists k: nat :: ChecksClear(codec, run, steps, k, j, a.key, a.at)
  {
    hide CacheKey, Authority.ProbeTarget, Authority.ValidateInternalClaims, Authority.TokenKey, Authority.SubjectKey, After, MakesRoom;
    assert Enabled(codec, run[j], steps[j]);
    FirstReadWasClear(codec, run, steps, j, steps[j].t);
    var k :| 0 <= k < j && FirstReadClear(codec, run[k], steps[k], run[j].tasks[steps[j].t]);
    assert ChecksClear(codec, run, steps, k, j, a.key, a.at);
  }

  /** Every allow is backed: at `now` it rests on an authority check of the same key, earlier in the run,
      that answered "not revoked" at a check time at most one budget before `now` and never after it. */
  lemma AllowIsBoundedlyStale(codec: Codec, run: seq<Gate>, steps: seq<Step>, i: nat, t: nat)
    requires GateRun(codec, run, steps) && i < |run| && t in run[i].tasks
    requires OutcomeOf(run[i].tasks[t].phase) == Some(Allowed)
    ensures exists k: nat, j: nat, at: nat | j < i && at <= run[i].tasks[t].now <= at + run[i].cache.budget ::
              ChecksClear(codec, run, steps, k, j, KeyOf(codec, run[i].tasks[t]), at)
  {
    hide Enabled, After, Concludes, CacheKey, ChecksClear;
    EveryStateIsSound(codec, run, steps);
    var task := run[i].tasks[t];
    assert TaskEvidenced(codec, run[i], task);
    var at: nat :| at <= task.now <= at + run[i].cache.budget && Answer(KeyOf(codec, task), at, Allow) in run[i].answers;
    var a := Answer(KeyOf(codec, task), at, Allow);
    AnswersAreConcluded(codec, run, steps, i, a);
    var j :| 0 <= j < i && Concludes(codec, run[j], steps[j], a);
    ConcludedAllowIsACheck(codec, run, steps, j, a);
  }

  // ---------------------------------------------------------------- coalescing

  /** No call of this key is waiting for the authority or holding its unapplied answer. */
  ghost predicate Settled(codec: Codec, g: Gate, key: string) {
    forall t | t in g.tasks && KeyOf(codec, g.tasks[t]) == key :: !Calling(g.tasks[t].phase) && !g.tasks[t].phase.Answered?
  }

  /** An entry changes only by its own key's answer being applied, or by eviction. */
  lemma EntryChangesOnlyByApply(codec: Codec, g: Gate, s: Step, key: string)
    requires GateInvariant(codec, g) && Enabled(codec, g, s)
    requires s.Apply? ==> KeyOf(codec, g.tasks[s.t]) != key
    ensures var h := After(codec, g, s);
      key in h.cache.entries ==> key in g.cache.entries && h.cache.entries[key] == g.cache.entries[key]
  {
    hide CacheKey, Authority.ProbeTarget, Authority.ValidateInternalClaims, Authority.TokenKey, Authority.SubjectKey,
         Seen, MakesRoom, StrongCount, LocksAreShared, Evidenced;
  }

  /** A settled key becomes unsettled only through an authority call. */
  lemma OnlyCallsUnsettle(codec: Codec, g: Gate, s: Step, key: string)
    requires Enabled(codec, g, s) && Settled(codec, g, key)
    requires NoCalls(codec, After(codec, g, s), key)
    ensures Settled(codec, After(codec, g, s), key)
  {
    hide CacheKey, Authority.ProbeTarget, Authority.ValidateInternalClaims, Authority.TokenKey, Authority.SubjectKey,
         Seen, Stored, MakesRoom, StrongCount;
  }

  lemma ApplySettles(codec: Codec, g: Gate, s: Step)
    requires GateInvariant(codec, g) && Enabled(codec, g, s) && s.Apply? && g.cache.highWater <= g.tasks[s.t].now
    ensures var key, h := KeyOf(codec, g.tasks[s.t]), After(codec, g, s);
      Settled(codec, h, key) && key in h.cache.entries && h.cache.entries[key].observedAt == g.tasks[s.t].now
  {
    hide CacheKey, MakesRoom, Evidenced;
  }

  ghost predicate NoCalls(codec: Codec, g: Gate, key: string) {
    forall t | t in g.tasks && KeyOf(codec, g.tasks[t]) == key :: !Calling(g.tasks[t].phase)
  }

  predicate EntryIsFrom(g: Gate, key: string, t1: nat) {
    key in g.cache.entries ==> g.cache.entries[key].observedAt == t1
  }

  lemma SettledStep(codec: Codec, g: Gate, s: Step, key: string, t1: nat)
    requires GateInvariant(codec, g) && Enabled(codec, g, s) && Settled(codec, g, key) && EntryIsFrom(g, key, t1)
    ensures EntryIsFrom(After(codec, g, s), key, t1)
    ensures NoCalls(codec, After(codec, g, s), key) ==> Settled(codec, After(codec, g, s), key)
  {
    hide After, Enabled, GateInvariant, CacheKey;
    ApplyIsFromAnswered(codec, g, s);
    EntryChangesOnlyByApply(codec, g, s, key);
    if NoCalls(codec, After(codec, g, s), key) {
      OnlyCallsUnsettle(codec, g, s, key);
    }
  }

  /** After an answer for a key has been applied with time `t1`, the next authority call for that key is
      made at a time past `t1 + budget`, unless its entry has been evicted meanwhile. */
  lemma RefreshesAreSpaced(codec: Codec, run: seq<Gate>, steps: seq<Step>, i: nat, n: nat, key: string, t1: nat, u: nat)
    requires GateRun(codec, run, steps) && i < n < |run| && steps[i].Apply? && steps[i].t in run[i].tasks
    requires KeyOf(codec, run[i].tasks[steps[i].t]) == key && run[i].cache.highWater <= run[i].tasks[steps[i].t].now == t1
    requires u in run[n].tasks && Calling(run[n].tasks[u].phase) && KeyOf(codec, run[n].tasks[u]) == key
    requires forall j | i < j < n :: NoCalls(codec, run[j], key)
    ensures key in run[n].cache.entries ==> t1 + run[n].cache.budget < run[n].tasks[u].now
  {
    hide Enabled, After, CacheKey, Settled, NoCalls, LocksAreShared, Evidenced;
    EveryStateIsSound(codec, run, steps);
    ApplySettles(codec, run[i], steps[i]);
    for j := i + 1 to n
      invariant j < n || j == i + 1 ==> Settled(codec, run[j], key)
      invariant EntryIsFrom(run[j], key, t1)
    {
      hide EntryIsFrom, GateInvariant;
      SettledStep(codec, run[j], steps[j], key, t1);
    }
    CallIsOverdue(codec, run[n], u);
  }

  lemma CallIsOverdue(codec: Codec, g: Gate, u: nat)
    requires GateInvariant(codec, g) && u in g.tasks && Calling(g.tasks[u].phase)
    ensures Overdue(g.cache, KeyOf(codec, g.tasks[u]), g.tasks[u].now)
  {
    hide CacheKey, LocksAreShared, CacheEvidenced;
    assert TaskEvidenced(codec, g, g.tasks[u]);
  }

  lemma ApplyIsFromAnswered(codec: Codec, g: Gate, s: Step)
    requires Enabled(codec, g, s)
    ensures s.Apply? ==> s.t in g.tasks && g.tasks[s.t].phase.Answered?
  {
    hide CacheKey, MakesRoom;
  }

  /** The cache never outgrows its capacity, and what leaves it leaves for an applied answer, from a full
      cache, as an entry of the least observation time. */
  lemma EvictionIsOldest(codec: Codec, g: Gate, s: Step, key: string)
    requires GateInvariant(codec, g) && Enabled(codec, g, s)
    requires key in g.cache.entries && key !in After(codec, g, s).cache.entries
    ensures s.Apply? && |g.cache.entries| == g.cache.capacity && IsOldest(g.cache.entries, key)
  {
    hide CacheKey, Authority.ProbeTarget, Authority.ValidateInternalClaims, Authority.TokenKey, Authority.SubjectKey,
         Seen, StrongCount, LocksAreShared, TaskEvidenced;
  }
}
