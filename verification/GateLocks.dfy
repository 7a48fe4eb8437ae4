/** The gate's lock map over whole runs: which entries outlive the calls that made them. */
module GateLocks {
  import opened Numbers
  import opened RevocationRecord
  import opened RevocationLedger
  import opened VerifierCache
  import opened RevocationGate
  import opened GateRuns
  import Authority = RevocationAuthority

  /** No call is between acquiring and releasing this key. */
  ghost predicate Unused(codec: Codec, g: Gate, key: string) {
    forall t | t in g.tasks && KeyOf(codec, g.tasks[t]) == key :: !UsesKey(g.tasks[t].phase)
  }

  /** A call of this key starts or ends using it. */
  predicate Touches(codec: Codec, g: Gate, s: Step, key: string) {
    && (s.AcquireKey? || s.ReleaseKey? || s.Abandon?)
    && s.t in g.tasks
    && KeyOf(codec, g.tasks[s.t]) == key
  }

  /** The ends that do not remove the entry: giving up, or releasing while another call still holds a
      reference, be it only to drop it. */
  ghost predicate LeavesEntry(g: Gate, s: Step) {
    || s.Abandon?
    || (s.ReleaseKey? && s.t in g.tasks && HoldsReference(g.tasks[s.t].phase)
        && exists u | u in g.tasks && u != s.t && HoldsReference(g.tasks[u].phase) :: g.tasks[u].phase.lock == g.tasks[s.t].phase.lock)
  }

  lemma AcquireUses(codec: Codec, g: Gate, s: Step, key: string)
    requires Enabled(codec, g, s) && Touches(codec, g, s, key) && s.AcquireKey?
    ensures !Unused(codec, After(codec, g, s), key)
  {
    hide CacheKey;
    assert s.t in After(codec, g, s).tasks;
  }

  lemma ReleaseLeaves(codec: Codec, g: Gate, s: Step, key: string)
    requires LocksAreShared(codec, g) && Enabled(codec, g, s) && Touches(codec, g, s, key) && s.ReleaseKey?
    ensures key in After(codec, g, s).keyLocks <==> LeavesEntry(g, s)
  {
    hide CacheKey, After, LocksAreShared;
    ReleaseRemovesExactlyWhenLast(codec, g, s.t);
  }

  lemma AbandonLeaves(codec: Codec, g: Gate, s: Step, key: string)
    requires LocksAreShared(codec, g) && Enabled(codec, g, s) && Touches(codec, g, s, key) && s.Abandon?
    ensures key in After(codec, g, s).keyLocks
  {
    hide CacheKey;
  }

  lemma LockStepsElsewhere(codec: Codec, g: Gate, s: Step, key: string)
    requires Enabled(codec, g, s) && TouchesLocks(g, s) && !Touches(codec, g, s, key)
    ensures key in After(codec, g, s).keyLocks <==> key in g.keyLocks
    ensures Unused(codec, After(codec, g, s), key) ==> Unused(codec, g, key)
  {
    hide CacheKey, StrongCount, LookedUp, Answering, Failing, TokenKeyRead, SubjectKeyRead, Applied, MakesRoom, DecisionToAuth;
    var h := After(codec, g, s);
    forall u | u in g.tasks && KeyOf(codec, g.tasks[u]) == key && UsesKey(g.tasks[u].phase) ensures !Unused(codec, h, key) {
      assert u in h.tasks && KeyOf(codec, h.tasks[u]) == key && UsesKey(h.tasks[u].phase);
    }
  }

  /** A use ends only by a release or by giving up. */
  lemma UseGoesOn(codec: Codec, g: Gate, s: Step)
    requires Enabled(codec, g, s) && !TouchesLocks(g, s) && !s.Abandon?
    ensures s.t in g.tasks && s.t in After(codec, g, s).tasks
    ensures UsesKey(g.tasks[s.t].phase) ==> UsesKey(After(codec, g, s).tasks[s.t].phase)
  {
    hide CacheKey, Seen, Stored, MakesRoom, DecisionToAuth, KeyAcquired, Unguarded, Released, Authority.ProbeTarget, Authority.ValidateInternalClaims, Authority.TokenKey, Authority.SubjectKey;
  }

  lemma QuietKeepsUse(codec: Codec, g: Gate, h: Gate, t: nat, key: string)
    requires Quiet(g, h, t) && (UsesKey(g.tasks[t].phase) ==> UsesKey(h.tasks[t].phase))
    ensures key in h.keyLocks <==> key in g.keyLocks
    ensures Unused(codec, h, key) ==> Unused(codec, g, key)
  {
    hide CacheKey;
    forall u | u in g.tasks && KeyOf(codec, g.tasks[u]) == key && UsesKey(g.tasks[u].phase) ensures !Unused(codec, h, key) {
      assert u in h.tasks && KeyOf(codec, h.tasks[u]) == key;
    }
  }

  lemma OtherAbandon(codec: Codec, g: Gate, s: Step, key: string)
    requires Enabled(codec, g, s) && s.Abandon? && !Touches(codec, g, s, key)
    ensures key in After(codec, g, s).keyLocks <==> key in g.keyLocks
    ensures Unused(codec, After(codec, g, s), key) ==> Unused(codec, g, key)
  {
    hide CacheKey, LookedUp, Answering, Failing, TokenKeyRead, SubjectKeyRead, Applied, KeyAcquired, MakesRoom, DecisionToAuth, StrongCount, Released;
    var h := After(codec, g, s);
    assert forall t | t in g.tasks && t != s.t :: t in h.tasks && h.tasks[t] == g.tasks[t];
  }

  /** Steps that neither start nor end a use of this key leave its entry and its use as they were. */
  lemma StepsElsewhere(codec: Codec, g: Gate, s: Step, key: string)
    requires Enabled(codec, g, s) && !Touches(codec, g, s, key)
    ensures key in After(codec, g, s).keyLocks <==> key in g.keyLocks
    ensures Unused(codec, After(codec, g, s), key) ==> Unused(codec, g, key)
  {
    hide CacheKey, After, Enabled, Unused;
    if s.Abandon? {
      OtherAbandon(codec, g, s, key);
    } else if TouchesLocks(g, s) {
      LockStepsElsewhere(codec, g, s, key);
    } else {
      if s.Look? || s.Recheck? || s.StartRefresh? {
        LooksAreQuiet(codec, g, s);
      } else if s.ReadTokenKey? || s.ReadSubjectKey? {
        ReadsAreQuiet(codec, g, s);
      } else if s.Apply? {
        ApplyingIsQuiet(codec, g, s);
      } else {
        EndingsAreQuiet(codec, g, s);
      }
      UseGoesOn(codec, g, s);
      QuietKeepsUse(codec, g, After(codec, g, s), s.t, key);
    }
  }

  // ---------------------------------------------------------------- when an entry outlives its calls

  /** The last start or end of a use of this key before state `n`. */
  ghost predicate LastTouch(codec: Codec, run: seq<Gate>, steps: seq<Step>, j: nat, n: nat, key: string)
    requires |run| == |steps| + 1 && n < |run|
  {
    && j < n
    && Touches(codec, run[j], steps[j], key)
    && forall m | j < m < n :: !Touches(codec, run[m], steps[m], key)
  }

  /** In every state of every interleaving: a key no call is using has an entry exactly when its last use
      ended without removing it, in a call that was given up, or in a release that ran while another call
      still held a reference to the lock. */
  lemma {:induction false} EntryOutlivesItsCallsExactlyWhen(codec: Codec, run: seq<Gate>, steps: seq<Step>, n: nat, key: string)
    requires GateRun(codec, run, steps) && n < |run| && Unused(codec, run[n], key)
    ensures key in run[n].keyLocks <==> exists j: nat :: LastTouch(codec, run, steps, j, n, key) && LeavesEntry(run[j], steps[j])
  {
    hide CacheKey, After, Enabled, Unused, LeavesEntry, Touches, GateInvariant;
    if n == 0 {
      assert run[0].keyLocks == map[] by { RunStartsEmpty(codec, run, steps); }
    } else {
      var m := n - 1;
      assert Enabled(codec, run[m], steps[m]) && run[m + 1] == After(codec, run[m], steps[m]);
      EveryStateIsSound(codec, run, steps);
      if Touches(codec, run[m], steps[m], key) {
        assert LastTouch(codec, run, steps, m, n, key);
        TouchDecides(codec, run[m], steps[m], key);
        assert forall j: nat :: LastTouch(codec, run, steps, j, n, key) ==> j == m;
      } else {
        StepsElsewhere(codec, run[m], steps[m], key);
        EntryOutlivesItsCallsExactlyWhen(codec, run, steps, m, key);
        assert forall j: nat :: LastTouch(codec, run, steps, j, n, key) <==> j < m && LastTouch(codec, run, steps, j, m, key);
      }
    }
  }

  lemma RunStartsEmpty(codec: Codec, run: seq<Gate>, steps: seq<Step>)
    requires GateRun(codec, run, steps)
    ensures run[0].keyLocks == map[]
  {
  }

  lemma TouchDecides(codec: Codec, g: Gate, s: Step, key: string)
    requires GateInvariant(codec, g) && Enabled(codec, g, s) && Touches(codec, g, s, key)
    requires Unused(codec, After(codec, g, s), key)
    ensures key in After(codec, g, s).keyLocks <==> LeavesEntry(g, s)
  {
    hide CacheKey, After, Enabled, Unused, LocksAreShared, Evidenced;
    if s.AcquireKey? {
      AcquireUses(codec, g, s, key);
    } else if s.ReleaseKey? {
      ReleaseLeaves(codec, g, s, key);
    } else {
      AbandonLeaves(codec, g, s, key);
    }
  }

  // ---------------------------------------------------------------- both ways it happens

  predicate NobodyHolds(g: Gate) {
    forall t | t in g.tasks :: !HoldsReference(g.tasks[t].phase)
  }

  /** One step more on a recorded life. */
  lemma Extend(codec: Codec, run: seq<Gate>, steps: seq<Step>, g: Gate, s: Step, h: Gate) returns (run': seq<Gate>, steps': seq<Step>)
    requires Recorded(codec, run, steps, g) && Enabled(codec, g, s) && h == After(codec, g, s)
    ensures Recorded(codec, run', steps', h) && steps' == steps + [s]
  {
    hide Enabled, After, Recorded;
    RecordStep(codec, run, steps, g, s);
    run', steps' := run + [h], steps + [s];
  }

  /** A gate with an empty cache and these locks and calls. */
  function Plain(highWater: nat, keyLocks: map<string, nat>, held: set<nat>, tasks: map<nat, Task>): Gate {
    Gate(CacheState(map[], highWater, 1, 1), keyLocks, held, |keyLocks|, tasks, {})
  }

  lemma Born(codec: Codec) returns (run: seq<Gate>, steps: seq<Step>)
    ensures Recorded(codec, run, steps, Plain(0, map[], {}, map[])) && steps == []
  {
    run, steps := [NewGate(1, 1)], [];
  }

  lemma GivingUp(codec: Codec, g: Gate, key: string) returns (a: Gate, b: Gate, h: Gate)
    requires 0 in g.tasks && KeyOf(codec, g.tasks[0]) == key && g.tasks[0].phase == Missed && key !in g.keyLocks
    ensures Enabled(codec, g, AcquireKey(0)) && a == After(codec, g, AcquireKey(0))
    ensures Enabled(codec, a, Abandon(0)) && b == After(codec, a, Abandon(0))
    ensures Enabled(codec, b, DropReference(0)) && h == After(codec, b, DropReference(0))
    ensures key in h.keyLocks && h.tasks == g.tasks[0 := g.tasks[0].(phase := Finished(None))]
  {
    hide CacheKey, LookedUp, TokenKeyRead, SubjectKeyRead, Applied, Answering, Failing, StrongCount, Released, MakesRoom;
    a := After(codec, g, AcquireKey(0));
    b := After(codec, a, Abandon(0));
    h := After(codec, b, DropReference(0));
  }

  lemma EntersAndMisses(codec: Codec, claims: Claims) returns (run: seq<Gate>, steps: seq<Step>, missed: Gate)
    ensures Recorded(codec, run, steps, missed) && steps == [Enter(0, claims, 0), Look(0)]
    ensures missed.keyLocks == map[] && missed.tasks == map[0 := Task(claims, 0, Missed)]
  {
    hide CacheKey, GateRun, Recorded, KeyAcquired, TokenKeyRead, SubjectKeyRead, Applied, Answering, Failing, StrongCount, Released, MakesRoom, Unguarded;
    var entered := Plain(0, map[], {}, map[0 := Task(claims, 0, Entered)]);
    missed := Plain(0, map[], {}, map[0 := Task(claims, 0, Missed)]);
    run, steps := Born(codec);
    run, steps := Extend(codec, run, steps, Plain(0, map[], {}, map[]), Enter(0, claims, 0), entered);
    run, steps := Extend(codec, run, steps, entered, Look(0), missed);
  }

  /** A call given up while it waits for its lock: the entry stays, with nobody left to remove it. */
  lemma AbandonedCallLeavesEntry(codec: Codec, claims: Claims) returns (run: seq<Gate>, steps: seq<Step>)
    ensures GateRun(codec, run, steps) && steps == [Enter(0, claims, 0), Look(0), AcquireKey(0), Abandon(0), DropReference(0)]
    ensures NobodyHolds(run[|steps|]) && CacheKey(codec.sha, claims) in run[|steps|].keyLocks
  {
    hide CacheKey, GateRun, After, Enabled;
    var missed;
    run, steps, missed := EntersAndMisses(codec, claims);
    var a, b, h := GivingUp(codec, missed, CacheKey(codec.sha, claims));
    run, steps := Extend(codec, run, steps, missed, AcquireKey(0), a);
    run, steps := Extend(codec, run, steps, a, Abandon(0), b);
    run, steps := Extend(codec, run, steps, b, DropReference(0), h);
  }

  predicate OnlyTheseHold(g: Gate, lock: nat, calls: set<nat>) {
    forall v | v in g.tasks && HoldsReference(g.tasks[v].phase) && g.tasks[v].phase.lock == lock :: v in calls
  }

  lemma ReleaseBesideAnother(codec: Codec, g: Gate, t: nat, u: nat)
    requires LocksAreShared(codec, g) && Enabled(codec, g, ReleaseKey(t)) && u in g.tasks && u != t
    requires HoldsReference(g.tasks[u].phase) && g.tasks[u].phase.lock == g.tasks[t].phase.lock
    ensures var h := After(codec, g, ReleaseKey(t));
      && LocksAreShared(codec, h)
      && KeyOf(codec, g.tasks[t]) in h.keyLocks
      && h.tasks == g.tasks[t := g.tasks[t].(phase := Dropping(g.tasks[t].phase.lock, g.tasks[t].phase.outcome))]
  {
    hide CacheKey, StrongCount, LocksAreShared, MapReferences, TaskReferences;
    ReleaseRemovesExactlyWhenLast(codec, g, t);
    ReleasingKeepsLocks(codec, g, t);
  }

  lemma BothRelease(codec: Codec, g: Gate, t: nat, u: nat) returns (a: Gate, b: Gate)
    requires LocksAreShared(codec, g) && Enabled(codec, g, ReleaseKey(t)) && Enabled(codec, g, ReleaseKey(u)) && t != u
    requires g.tasks[t].phase.lock == g.tasks[u].phase.lock
    ensures a == After(codec, g, ReleaseKey(t))
    ensures Enabled(codec, a, ReleaseKey(u)) && b == After(codec, a, ReleaseKey(u))
    ensures KeyOf(codec, g.tasks[u]) in b.keyLocks
    ensures b.tasks == g.tasks[t := g.tasks[t].(phase := Dropping(g.tasks[t].phase.lock, g.tasks[t].phase.outcome))]
                              [u := g.tasks[u].(phase := Dropping(g.tasks[u].phase.lock, g.tasks[u].phase.outcome))]
  {
    hide CacheKey, After, LocksAreShared, MakesRoom;
    a := After(codec, g, ReleaseKey(t));
    ReleaseBesideAnother(codec, g, t, u);
    b := After(codec, a, ReleaseKey(u));
    ReleaseBesideAnother(codec, a, u, t);
  }

  lemma BothDrop(codec: Codec, b: Gate, t: nat, u: nat) returns (c: Gate, d: Gate)
    requires Enabled(codec, b, DropReference(t)) && Enabled(codec, b, DropReference(u)) && t != u
    ensures c == After(codec, b, DropReference(t))
    ensures Enabled(codec, c, DropReference(u)) && d == After(codec, c, DropReference(u))
    ensures d.keyLocks == b.keyLocks
    ensures d.tasks == b.tasks[t := b.tasks[t].(phase := Finished(b.tasks[t].phase.outcome))]
                              [u := b.tasks[u].(phase := Finished(b.tasks[u].phase.outcome))]
  {
    hide CacheKey, LookedUp, KeyAcquired, Answering, Failing, TokenKeyRead, SubjectKeyRead, Applied, Unguarded, Released, StrongCount, MakesRoom;
    c := After(codec, b, DropReference(t));
    d := After(codec, c, DropReference(u));
  }

  /** Two calls that release one key, each while the other still holds its reference, and then both drop:
      the entry stays, and nobody holds the lock. */
  lemma TwoReleasersLeaveEntry(codec: Codec, g: Gate, t: nat, u: nat) returns (a: Gate, b: Gate, c: Gate, d: Gate)
    requires LocksAreShared(codec, g) && t in g.tasks && u in g.tasks && t != u && KeyOf(codec, g.tasks[t]) == KeyOf(codec, g.tasks[u])
    requires g.tasks[t].phase.Releasing? && g.tasks[u].phase.Releasing? && OnlyTheseHold(g, g.tasks[t].phase.lock, {t, u})
    ensures Enabled(codec, g, ReleaseKey(t)) && a == After(codec, g, ReleaseKey(t))
    ensures Enabled(codec, a, ReleaseKey(u)) && b == After(codec, a, ReleaseKey(u))
    ensures Enabled(codec, b, DropReference(t)) && c == After(codec, b, DropReference(t))
    ensures Enabled(codec, c, DropReference(u)) && d == After(codec, c, DropReference(u))
    ensures KeyOf(codec, g.tasks[t]) in d.keyLocks && OnlyTheseHold(d, g.tasks[t].phase.lock, {})
  {
    hide CacheKey, After, MakesRoom;
    assert g.tasks[t].phase.lock == g.tasks[u].phase.lock;
    hide LocksAreShared;
    a, b := BothRelease(codec, g, t, u);
    c, d := BothDrop(codec, b, t, u);
  }
}
