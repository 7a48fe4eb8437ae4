/**
 The gate as the object it is: a cache and a key-lock map that `authorize` changes in place, one
 critical section at a time, while other calls take steps in between.  Every state the object passes
 through is recorded, and what is proved of each section is that the record stays a run of the step
 system; so every theorem about runs is a theorem about the object.
 */
module GateObject {
  import opened Numbers
  import opened RevocationRecord
  import opened RevocationLedger
  import opened VerifierCache
  import opened RevocationGate
  import opened GateRuns
  import Authority = RevocationAuthority

  /** What becomes of one authority call: the two ledgers its reads see, an error, or a timeout. */
  datatype Reply = Views(token: Option<Ledger>, subject: Option<Ledger>) | CallFails | CallTimesOut

  lemma LockStepsLeaveOthers(codec: Codec, g: Gate, s: Step, t: nat)
    requires Enabled(codec, g, s) && TouchesLocks(g, s) && s.t != t && t in g.tasks
    ensures var h := After(codec, g, s); t in h.tasks && h.tasks[t] == g.tasks[t] && h.cache == g.cache
  {
    hide CacheKey, StrongCount, LookedUp, Answering, Failing, TokenKeyRead, SubjectKeyRead, Applied, Released, MakesRoom, DecisionToAuth;
  }

  /** A step of one call leaves the other calls where they are. */
  lemma OthersStay(codec: Codec, g: Gate, s: Step, t: nat)
    requires Enabled(codec, g, s) && s.t != t && t in g.tasks
    ensures var h := After(codec, g, s); t in h.tasks && h.tasks[t] == g.tasks[t]
  {
    hide Enabled, After;
    if TouchesLocks(g, s) {
      LockStepsLeaveOthers(codec, g, s, t);
    } else if s.Look? || s.Recheck? || s.StartRefresh? {
      LooksAreQuiet(codec, g, s);
    } else if s.ReadTokenKey? || s.ReadSubjectKey? {
      ReadsAreQuiet(codec, g, s);
    } else if s.Apply? {
      ApplyingIsQuiet(codec, g, s);
    } else {
      EndingsAreQuiet(codec, g, s);
    }
  }

  lemma CacheKeepsShape(codec: Codec, g: Gate, s: Step)
    requires Enabled(codec, g, s)
    ensures var h := After(codec, g, s);
      h.cache.budget == g.cache.budget && h.cache.capacity == g.cache.capacity && g.cache.highWater <= h.cache.highWater
  {
    hide CacheKey, Seen, StrongCount, Released, TokenKeyRead, SubjectKeyRead, MakesRoom, DecisionToAuth;
    if s.ReadTokenKey? {
      TokenReadKeepsCache(codec, g, s.t, s.view);
    } else if s.ReadSubjectKey? {
      SubjectReadKeepsCache(codec, g, s.t, s.view);
    }
  }

  lemma TokenReadKeepsCache(codec: Codec, g: Gate, t: nat, view: Option<Ledger>)
    requires t in g.tasks && g.tasks[t].phase.ReadingToken?
    ensures TokenKeyRead(codec, g, t, view).cache == g.cache
  {
    hide CacheKey, Authority.ProbeTarget, Authority.ValidateInternalClaims, Authority.TokenKey;
  }

  lemma SubjectReadKeepsCache(codec: Codec, g: Gate, t: nat, view: Option<Ledger>)
    requires t in g.tasks && g.tasks[t].phase.ReadingSubject?
    ensures SubjectKeyRead(codec, g, t, view).cache == g.cache
  {
    hide CacheKey, Authority.ProbeTarget, Authority.SubjectKey;
  }

  /** What an authority call that goes as `reply` says comes to for the token. */
  function AuthoritySays(codec: Codec, reply: Reply, claims: Claims, now: nat): Authorization {
    match reply
    case CallFails => Unavailable(RefreshFailed)
    case CallTimesOut => Unavailable(RefreshTimedOut)
    case Views(token, subject) =>
      match Authority.Check(codec, token, subject, claims, now)
      case Err(_) => Unavailable(RefreshFailed)
      case Ok(d) => if d.revoked then Denied else Allowed
  }

  predicate OnAuthorityCall(s: Step) {
    s.FailCall? || s.TimeOut? || s.ReadTokenKey? || s.ReadSubjectKey?
  }

  /** Where a step on the authority call leaves its call. */
  function PhaseAfter(codec: Codec, task: Task, s: Step): Phase
    requires Calling(task.phase) && OnAuthorityCall(s)
  {
    var lock, claims, now := task.phase.lock, task.claims, task.now;
    match s
    case FailCall(_) => Unguarding(lock, Some(Unavailable(RefreshFailed)))
    case TimeOut(_) => Unguarding(lock, Some(Unavailable(RefreshTimedOut)))
    case ReadTokenKey(_, view) =>
      var probe := Authority.ProbeTarget(codec, view, Authority.TokenKey(codec, claims), Authority.MatchedTokenId, claims, now);
      if Authority.ValidateInternalClaims(claims).Err? || probe.Corrupt? then Unguarding(lock, Some(Unavailable(RefreshFailed)))
      else if probe.Hit? then Answered(lock, Deny)
      else ReadingSubject(lock)
    case ReadSubjectKey(_, view) =>
      var probe := Authority.ProbeTarget(codec, view, Authority.SubjectKey(codec, claims), Authority.MatchedSubject, claims, now);
      if probe.Corrupt? then Unguarding(lock, Some(Unavailable(RefreshFailed)))
      else Answered(lock, if probe.Hit? then Deny else Allow)
    case _ => task.phase
  }

  lemma AuthorityStepLeads(codec: Codec, g: Gate, s: Step)
    requires Enabled(codec, g, s) && OnAuthorityCall(s)
    ensures s.t in g.tasks && s.t in After(codec, g, s).tasks && Calling(g.tasks[s.t].phase)
    ensures After(codec, g, s).tasks[s.t] == g.tasks[s.t].(phase := PhaseAfter(codec, g.tasks[s.t], s))
    ensures After(codec, g, s).cache == g.cache
  {
    hide CacheKey, StrongCount, LookedUp, KeyAcquired, Applied, Unguarded, Released, MakesRoom, Authority.ProbeTarget, Authority.ValidateInternalClaims, Authority.TokenKey, Authority.SubjectKey;
  }

  /** The two reads of a call, one after the other, are the authority's check. */
  lemma ReadsAreTheCheck(codec: Codec, claims: Claims, now: nat, token: Option<Ledger>, subject: Option<Ledger>)
    ensures var first := Authority.ProbeTarget(codec, token, Authority.TokenKey(codec, claims), Authority.MatchedTokenId, claims, now);
      var second := Authority.ProbeTarget(codec, subject, Authority.SubjectKey(codec, claims), Authority.MatchedSubject, claims, now);
      AuthoritySays(codec, Views(token, subject), claims, now) ==
        if Authority.ValidateInternalClaims(claims).Err? || first.Corrupt? then Unavailable(RefreshFailed)
        else if first.Hit? then Denied
        else if second.Corrupt? then Unavailable(RefreshFailed)
        else if second.Hit? then Denied
        else Allowed
  {
    hide Authority.ValidateInternalClaims, Authority.TokenKey, Authority.SubjectKey, RevocationRecord.Matches, RevocationLedger.CurrentRecord, Authority.Loadable;
  }

  /** With nothing stored for either of its keys, valid claims are allowed. */
  lemma NothingStoredAllows(codec: Codec, claims: Claims, now: nat)
    ensures AuthoritySays(codec, Views(None, None), claims, now) ==
      if Authority.ValidateInternalClaims(claims).Ok? then Allowed else Unavailable(RefreshFailed)
  {
    hide Authority.ValidateInternalClaims, Authority.TokenKey, Authority.SubjectKey;
  }

  /** What a call comes to when nobody interferes: a fresh decision of the cache, or the authority's word. */
  function Expected(codec: Codec, cache: CacheState, task: Task, reply: Reply): Authorization {
    var seen := Seen(cache, KeyOf(codec, task), task.now);
    if seen.Fresh? then DecisionToAuth(seen.decision) else AuthoritySays(codec, reply, task.claims, task.now)
  }

  class SharedGate {
    const codec: Codec
    const cache: RevocationCache
    var keyLocks: map<string, nat>
    var held: set<nat>
    var nextLock: nat
    var tasks: map<nat, Task>
    var answers: set<Answer>
    var script: seq<seq<Step>>
    ghost var run: seq<Gate>
    ghost var steps: seq<Step>

    function State(): Gate
      reads this, cache
    {
      Gate(cache.State(), keyLocks, held, nextLock, tasks, answers)
    }

    ghost predicate Valid()
      reads this, cache
    {
      cache.Valid() && Recorded(codec, run, steps, State())
    }

    constructor (codec: Codec, freshnessBudgetSecs: nat, capacity: nat, script: seq<seq<Step>>)
      ensures Valid() && fresh(cache) && tasks == map[] && run == [State()] && steps == []
      ensures cache.budget == (if freshnessBudgetSecs < 1 then 1 else freshnessBudgetSecs)
      ensures cache.capacity == if capacity < 1 then 1 else capacity
    {
      this.codec := codec;
      this.script := script;
      cache := new RevocationCache(freshnessBudgetSecs, capacity);
      keyLocks, held, nextLock, tasks, answers := map[], {}, 0, map[], {};
      steps := [];
      new;
      run := [State()];
      assert run[0] == NewGate(cache.budget, cache.capacity);
    }

    /** The call `t` stands at `p`, and the record has only been added to. */
    twostate predicate Proceeds(t: nat, p: Phase)
      reads this, cache
    {
      && Valid()
      && old(run) <= run && old(steps) <= steps
      && t in old(tasks) && t in tasks
      && tasks[t] == old(tasks[t]).(phase := p)
      && (old(script) == [] ==> script == [])
      && old(cache.highWater) <= cache.highWater
    }

    /** Other calls' steps, whichever and however many, between two critical sections of `t`. */
    method Interfere(t: nat)
      requires Valid() && t in tasks
      modifies this, cache
      ensures Proceeds(t, old(tasks[t]).phase)
      ensures old(script) == [] ==> cache.State() == old(cache.State()) && keyLocks == old(keyLocks) && held == old(held) && nextLock == old(nextLock)
    {
      if script == [] {
        return;
      }
      var turn := script[0];
      script := script[1..];
      for i := 0 to |turn|
        invariant Proceeds(t, old(tasks[t]).phase)
      {
        if turn[i].t != t && Enabled(codec, State(), turn[i]) {
          OthersStay(codec, State(), turn[i], t);
          Perform(turn[i]);
        }
      }
    }

    method Perform(s: Step)
      requires Valid() && Enabled(codec, State(), s)
      modifies this, cache
      ensures Valid() && State() == After(codec, old(State()), s)
      ensures run == old(run) + [State()] && steps == old(steps) + [s]
      ensures script == old(script) && old(cache.highWater) <= cache.highWater
    {
      hide Enabled, After, Recorded, WellFormed;
      CacheKeepsShape(codec, State(), s);
      RecordStep(codec, run, steps, State(), s);
      var h := After(codec, State(), s);
      cache.entries := h.cache.entries;
      cache.highWater := h.cache.highWater;
      keyLocks, held, nextLock, tasks, answers := h.keyLocks, h.held, h.nextLock, h.tasks, h.answers;
      run, steps := run + [h], steps + [s];
      RecordedIsSound(codec, run, steps, h);
    }

    /** A step that has been carried out on the fields goes on the record. */
    ghost method Note(g: Gate, s: Step)
      requires Recorded(codec, run, steps, g) && Enabled(codec, g, s) && State() == After(codec, g, s)
      modifies this`run, this`steps
      ensures Valid() && run == old(run) + [State()] && steps == old(steps) + [s]
    {
      hide Enabled, After, Recorded, WellFormed;
      RecordStep(codec, run, steps, g, s);
      run, steps := run + [State()], steps + [s];
      RecordedIsSound(codec, run, steps, State());
    }

    // -------------------------------------------------------------- the critical sections of one call

    /** One look at the cache under its mutex: `None` when the call has to go on to the authority. */
    method CacheLookup(key: string, now: nat) returns (outcome: Option<Authorization>)
      requires cache.Valid()
      modifies cache
      ensures cache.Valid()
      ensures now < old(cache.highWater) ==> outcome == Some(Unavailable(ClockRegressed)) && cache.State() == old(cache.State())
      ensures old(cache.highWater) <= now ==>
        && cache.State() == old(cache.State()).(highWater := now)
        && var seen := Seen(old(cache.State()), key, now);
        outcome == if seen.Fresh? then Some(DecisionToAuth(seen.decision)) else None
    {
      var got := cache.LookupKey(key, now);
      outcome := match got
        case Err(_) => Some(Unavailable(ClockRegressed))
        case Ok(Fresh(d)) => Some(DecisionToAuth(d))
        case Ok(_) => None;
    }

    /** What one look makes of the cache as it was: clock first, then freshness. */
    predicate LookedAs(task: Task, was: CacheState, outcome: Option<Authorization>)
      reads this, cache
    {
      if task.now < was.highWater then outcome == Some(Unavailable(ClockRegressed)) && cache.State() == was
      else
        && cache.State() == was.(highWater := task.now)
        && var seen := Seen(was, KeyOf(codec, task), task.now);
        outcome == if seen.Fresh? then Some(DecisionToAuth(seen.decision)) else None
    }

    method FastPath(t: nat) returns (outcome: Option<Authorization>)
      requires Valid() && t in tasks && tasks[t].phase == Entered
      modifies this, cache
      ensures Proceeds(t, if outcome.Some? then Finished(outcome) else Missed) && steps == old(steps) + [Look(t)]
      ensures script == old(script) && keyLocks == old(keyLocks) && held == old(held)
      ensures LookedAs(old(tasks[t]), old(cache.State()), outcome)
    {
      hide GateRun, WellFormed, CacheKey, Seen, DecisionToAuth;
      ghost var g := State();
      outcome := CacheLookup(KeyOf(codec, tasks[t]), tasks[t].now);
      tasks := tasks[t := tasks[t].(phase := if outcome.Some? then Finished(outcome) else Missed)];
      Note(g, Look(t));
    }

    method AcquireKey(t: nat)
      requires Valid() && t in tasks && tasks[t].phase == Missed
      modifies this, cache
      ensures t in tasks && tasks[t].phase.Waiting? && Proceeds(t, tasks[t].phase)
      ensures steps == old(steps) + [Step.AcquireKey(t)]
      ensures KeyOf(codec, tasks[t]) in keyLocks && keyLocks[KeyOf(codec, tasks[t])] == tasks[t].phase.lock
      ensures var key := KeyOf(codec, old(tasks[t]));
        tasks[t].phase.lock == if key in old(keyLocks) then old(keyLocks)[key] else old(nextLock)
      ensures script == old(script) && held == old(held) && cache.State() == old(cache.State())
    {
      hide GateRun, WellFormed, CacheKey;
      ghost var g := State();
      var key := KeyOf(codec, tasks[t]);
      if key !in keyLocks {
        keyLocks, nextLock := keyLocks[key := nextLock], nextLock + 1;
      }
      tasks := tasks[t := tasks[t].(phase := Waiting(keyLocks[key]))];
      Note(g, Step.AcquireKey(t));
    }

    /** The lock is free, or this call is given up while it waits. */
    method TakeGuard(t: nat) returns (taken: bool)
      requires Valid() && t in tasks && tasks[t].phase.Waiting?
      modifies this, cache
      ensures Proceeds(t, if taken then Guarded(old(tasks[t].phase.lock)) else Dropping(old(tasks[t].phase.lock), None))
      ensures steps == old(steps) + [if taken then Step.TakeGuard(t) else Abandon(t)]
      ensures taken <==> old(tasks[t].phase.lock) !in old(held)
      ensures script == old(script) && cache.State() == old(cache.State())
    {
      hide GateRun, WellFormed, CacheKey;
      ghost var g := State();
      var lock := tasks[t].phase.lock;
      taken := lock !in held;
      if taken {
        held := held + {lock};
        tasks := tasks[t := tasks[t].(phase := Guarded(lock))];
        Note(g, Step.TakeGuard(t));
      } else {
        tasks := tasks[t := tasks[t].(phase := Dropping(lock, None))];
        Note(g, Abandon(t));
      }
    }

    method Recheck(t: nat) returns (outcome: Option<Authorization>)
      requires Valid() && t in tasks && tasks[t].phase.Guarded?
      modifies this, cache
      ensures Proceeds(t, if outcome.Some? then Unguarding(old(tasks[t].phase.lock), outcome) else Starting(old(tasks[t].phase.lock)))
      ensures steps == old(steps) + [Step.Recheck(t)]
      ensures script == old(script) && keyLocks == old(keyLocks) && held == old(held)
      ensures LookedAs(old(tasks[t]), old(cache.State()), outcome)
    {
      hide GateRun, WellFormed, CacheKey, Seen, DecisionToAuth;
      ghost var g := State();
      var lock := tasks[t].phase.lock;
      outcome := CacheLookup(KeyOf(codec, tasks[t]), tasks[t].now);
      tasks := tasks[t := tasks[t].(phase := if outcome.Some? then Unguarding(lock, outcome) else Starting(lock))];
      Note(g, Step.Recheck(t));
    }

    method RecordRefreshStart(t: nat) returns (started: bool)
      requires Valid() && t in tasks && tasks[t].phase.Starting?
      modifies this, cache
      ensures Proceeds(t, var lock := old(tasks[t].phase.lock);
                          if started then ReadingToken(lock) else Unguarding(lock, Some(Unavailable(ClockRegressed))))
      ensures steps == old(steps) + [StartRefresh(t)]
      ensures started <==> old(cache.highWater) <= old(tasks[t]).now
      ensures script == old(script)
      ensures cache.State() == if started then old(cache.State()).(highWater := old(tasks[t]).now) else old(cache.State())
    {
      hide GateRun, WellFormed, CacheKey;
      ghost var g := State();
      var lock := tasks[t].phase.lock;
      var advanced := cache.RecordRefreshStart(tasks[t].now);
      started := advanced.Ok?;
      tasks := tasks[t := tasks[t].(phase := if started then ReadingToken(lock) else Unguarding(lock, Some(Unavailable(ClockRegressed))))];
      Note(g, StartRefresh(t));
    }

    method ApplyAnswer(t: nat) returns (outcome: Authorization)
      requires Valid() && t in tasks && tasks[t].phase.Answered?
      modifies this, cache
      ensures Proceeds(t, Unguarding(old(tasks[t].phase.lock), Some(outcome)))
      ensures outcome == if old(tasks[t].now) < cache.highWater then Unavailable(ClockRegressed) else DecisionToAuth(old(tasks[t].phase.decision))
      ensures |steps| == |old(steps)| + 1 && steps[|old(steps)|].Apply? && steps[|old(steps)|].t == t
      ensures old(cache.highWater) <= old(tasks[t]).now ==> cache.highWater == old(tasks[t]).now
    {
      hide GateRun, WellFormed, CacheKey, MakesRoom, Stored, DecisionToAuth;
      ghost var g := State();
      var task := tasks[t];
      ghost var victim;
      var applied;
      applied, victim := cache.ApplyAuthoritative(KeyOf(codec, task), task.phase.decision, task.now);
      outcome := if applied.Ok? then DecisionToAuth(task.phase.decision) else Unavailable(ClockRegressed);
      StoredFrame(g.cache, KeyOf(codec, task), task.phase.decision, task.now, victim);
      tasks := tasks[t := task.(phase := Unguarding(task.phase.lock, Some(outcome)))];
      Note(g, Apply(t, victim));
    }

    method DropGuard(t: nat)
      requires Valid() && t in tasks && tasks[t].phase.Unguarding?
      modifies this, cache
      ensures Proceeds(t, Releasing(old(tasks[t].phase.lock), old(tasks[t].phase.outcome)))
      ensures steps == old(steps) + [Step.DropGuard(t)]
    {
      hide GateRun, WellFormed, CacheKey;
      ghost var g := State();
      held := held - {tasks[t].phase.lock};
      tasks := tasks[t := tasks[t].(phase := Releasing(tasks[t].phase.lock, tasks[t].phase.outcome))];
      Note(g, Step.DropGuard(t));
    }

    /** The map section of `release_key`; the caller's reference is dropped after it. */
    method ReleaseKey(t: nat)
      requires Valid() && t in tasks && tasks[t].phase.Releasing?
      modifies this, cache
      ensures Proceeds(t, Dropping(old(tasks[t].phase.lock), old(tasks[t].phase.outcome)))
      ensures steps == old(steps) + [Step.ReleaseKey(t)]
    {
      hide GateRun, WellFormed, CacheKey, StrongCount;
      ghost var g := State();
      var lock := tasks[t].phase.lock;
      if StrongCount(State(), lock) <= 2 {
        keyLocks := keyLocks - {KeyOf(codec, tasks[t])};
      }
      tasks := tasks[t := tasks[t].(phase := Dropping(lock, tasks[t].phase.outcome))];
      Note(g, Step.ReleaseKey(t));
    }

    method DropReference(t: nat)
      requires Valid() && t in tasks && tasks[t].phase.Dropping?
      modifies this, cache
      ensures Proceeds(t, Finished(old(tasks[t].phase.outcome)))
      ensures steps == old(steps) + [Step.DropReference(t)]
    {
      hide GateRun, WellFormed, CacheKey;
      ghost var g := State();
      tasks := tasks[t := tasks[t].(phase := Finished(tasks[t].phase.outcome))];
      Note(g, Step.DropReference(t));
    }

    // -------------------------------------------------------------- a whole call

    method Enter(t: nat, claims: Claims, now: nat)
      requires Valid() && t !in tasks
      modifies this, cache
      ensures Valid() && tasks == old(tasks)[t := Task(claims, now, Entered)]
      ensures run == old(run) + [State()] && steps == old(steps) + [Step.Enter(t, claims, now)]
      ensures script == old(script) && cache.State() == old(cache.State()) && keyLocks == old(keyLocks) && held == old(held)
    {
      hide GateRun, WellFormed;
      ghost var g := State();
      tasks := tasks[t := Task(claims, now, Entered)];
      Note(g, Step.Enter(t, claims, now));
    }

    method AuthorityStep(t: nat, s: Step)
      requires Valid() && t in tasks && s.t == t && InPhase(s, tasks[t].phase) && OnAuthorityCall(s)
      modifies this, cache
      ensures Proceeds(t, PhaseAfter(codec, old(tasks[t]), s))
      ensures script == old(script) && cache.State() == old(cache.State())
    {
      hide GateRun, WellFormed, After, PhaseAfter;
      AuthorityStepLeads(codec, State(), s);
      Perform(s);
    }

    /** `outcome` is what the reply comes to, or a clock that has meanwhile passed this call. */
    predicate Settles(task: Task, reply: Reply, outcome: Option<Authorization>)
      reads this, cache
    {
      var says := AuthoritySays(codec, reply, task.claims, task.now);
      || outcome == Some(says)
      || (!says.Unavailable? && task.now < cache.highWater && outcome == Some(Unavailable(ClockRegressed)))
    }

    /** The two reads, as far as they go. */
    method ReadBoth(t: nat, token: Option<Ledger>, subject: Option<Ledger>)
      requires Valid() && t in tasks && tasks[t].phase.ReadingToken?
      modifies this, cache
      ensures t in tasks && Proceeds(t, tasks[t].phase)
      ensures var says := AuthoritySays(codec, Views(token, subject), old(tasks[t]).claims, old(tasks[t]).now);
        var p := tasks[t].phase;
        if says.Unavailable? then p.Unguarding? && p.outcome == Some(says) else p.Answered? && DecisionToAuth(p.decision) == says
      ensures old(script) == [] ==> cache.highWater == old(cache.highWater)
    {
      hide GateRun, WellFormed, State, Recorded, AuthoritySays, Authority.ProbeTarget, Authority.ValidateInternalClaims, Authority.TokenKey, Authority.SubjectKey;
      ReadsAreTheCheck(codec, tasks[t].claims, tasks[t].now, token, subject);
      AuthorityStep(t, ReadTokenKey(t, token));
      Interfere(t);
      if tasks[t].phase.ReadingSubject? {
        AuthorityStep(t, ReadSubjectKey(t, subject));
        Interfere(t);
      }
    }

    /** The timed authority call and what is made of its answer. */
    method AskAuthority(t: nat, reply: Reply)
      requires Valid() && t in tasks && tasks[t].phase.ReadingToken?
      modifies this, cache
      ensures t in tasks && tasks[t].phase.Unguarding? && tasks[t].phase.outcome.Some? && Proceeds(t, tasks[t].phase)
      ensures Settles(old(tasks[t]), reply, tasks[t].phase.outcome)
      ensures old(script) == [] && old(cache.highWater) <= old(tasks[t]).now ==>
        tasks[t].phase.outcome == Some(AuthoritySays(codec, reply, old(tasks[t]).claims, old(tasks[t]).now))
    {
      hide GateRun, WellFormed, State, Recorded, AuthoritySays, DecisionToAuth;
      match reply
      case CallFails => AuthorityStep(t, FailCall(t)); SimpleReplies(tasks[t]);
      case CallTimesOut => AuthorityStep(t, TimeOut(t)); SimpleReplies(tasks[t]);
      case Views(token, subject) =>
        ReadBoth(t, token, subject);
        if tasks[t].phase.Answered? {
          var outcome := ApplyAnswer(t);
        }
    }

    lemma SimpleReplies(task: Task)
      ensures AuthoritySays(codec, CallFails, task.claims, task.now) == Unavailable(RefreshFailed)
      ensures AuthoritySays(codec, CallTimesOut, task.claims, task.now) == Unavailable(RefreshTimedOut)
    {
    }

    /** An unavailable answer is the authority's own, or a clock that has meanwhile passed this call. */
    predicate Honest(task: Task, reply: Reply, outcome: Option<Authorization>)
      reads this, cache
    {
      outcome.Some? && outcome.value.Unavailable? ==>
        || outcome == Some(AuthoritySays(codec, reply, task.claims, task.now))
        || (outcome == Some(Unavailable(ClockRegressed)) && task.now < cache.highWater)
    }

    /** From the guard to the outcome: look again, and refresh only if that did not settle it. */
    method UnderGuard(t: nat, reply: Reply)
      requires Valid() && t in tasks && tasks[t].phase.Guarded?
      modifies this, cache
      ensures t in tasks && tasks[t].phase.Unguarding? && tasks[t].phase.outcome.Some? && Proceeds(t, tasks[t].phase)
      ensures Honest(old(tasks[t]), reply, tasks[t].phase.outcome)
      ensures old(script) == [] && old(cache.highWater) <= old(tasks[t]).now ==>
        tasks[t].phase.outcome == Some(Expected(codec, old(cache.State()), old(tasks[t]), reply))
    {
      hide GateRun, WellFormed, Recorded, AuthoritySays, CacheKey, State;
      var outcome := Recheck(t);
      if outcome.None? {
        Interfere(t);
        var started := RecordRefreshStart(t);
        if started {
          Interfere(t);
          AskAuthority(t, reply);
        }
      }
    }

    method Leave(t: nat)
      requires Valid() && t in tasks && tasks[t].phase.Unguarding?
      modifies this, cache
      ensures Proceeds(t, Finished(old(tasks[t].phase.outcome)))
    {
      hide GateRun, WellFormed, State;
      Interfere(t);
      DropGuard(t);
      Interfere(t);
      ReleaseKey(t);
      Interfere(t);
      DropReference(t);
    }

    /** A whole `authorize`, other calls' steps in every gap.  `None` when it is given up while it waits
        for the lock.  The object's life stays a recorded run, and the call stands in it, finished; a
        decision is backed, and an unavailable answer is the authority's own or a regressed clock.  When
        nobody interferes, the answer is the cache's fresh decision or else the authority's word. */
    method Authorize(t: nat, claims: Claims, now: nat, reply: Reply) returns (r: Option<Authorization>)
      requires Valid() && t !in tasks
      modifies this, cache
      ensures Valid() && old(run) <= run && old(steps) <= steps
      ensures t in tasks && tasks[t] == Task(claims, now, Finished(r))
      ensures r == Some(Allowed) ==> Backed(answers, cache.budget, CacheKey(codec.sha, claims), now, Allow)
      ensures r == Some(Denied) ==> Backed(answers, cache.budget, CacheKey(codec.sha, claims), now, Deny)
      ensures r.Some? && r.value.Unavailable? ==>
        || r == Some(AuthoritySays(codec, reply, claims, now))
        || (r == Some(Unavailable(ClockRegressed)) && now < cache.highWater)
      ensures var key := CacheKey(codec.sha, claims);
        old(script) == [] && old(cache.highWater) <= now && (key in old(keyLocks) ==> old(keyLocks)[key] !in old(held)) ==>
          var seen := Seen(old(cache.State()), key, now);
          r == Some(if seen.Fresh? then DecisionToAuth(seen.decision) else AuthoritySays(codec, reply, claims, now))
    {
      hide GateRun, WellFormed, Recorded, CacheKey, Backed, AuthoritySays, State;
      Enter(t, claims, now);
      r := Run(t, reply);
      FinishedIsBacked(t);
    }

    lemma FinishedIsBacked(t: nat)
      requires Valid() && t in tasks
      ensures OutcomeOf(tasks[t].phase) == Some(Allowed) ==>
        Backed(answers, cache.budget, CacheKey(codec.sha, tasks[t].claims), tasks[t].now, Allow)
      ensures OutcomeOf(tasks[t].phase) == Some(Denied) ==>
        Backed(answers, cache.budget, CacheKey(codec.sha, tasks[t].claims), tasks[t].now, Deny)
    {
      hide GateRun, WellFormed, CacheKey, Backed, LocksAreShared;
      RecordedIsSound(codec, run, steps, State());
      assert TaskEvidenced(codec, State(), State().tasks[t]);
    }

    /** The lock this call would take is free. */
    predicate LockIsFree(key: string)
      reads this
    {
      key in keyLocks ==> keyLocks[key] !in held
    }

    method Run(t: nat, reply: Reply) returns (r: Option<Authorization>)
      requires Valid() && t in tasks && tasks[t].phase == Entered
      modifies this, cache
      ensures Proceeds(t, Finished(r)) && Honest(old(tasks[t]), reply, r)
      ensures old(script) == [] && old(cache.highWater) <= old(tasks[t]).now && old(LockIsFree(KeyOf(codec, tasks[t]))) ==>
        r == Some(Expected(codec, old(cache.State()), old(tasks[t]), reply))
    {
      hide GateRun, WellFormed, Recorded, AuthoritySays, CacheKey, State;
      Interfere(t);
      r := FastPath(t);
      if r.None? {
        Interfere(t);
        r := Wait(t, reply);
      }
    }

    lemma FreeNext()
      requires Valid()
      ensures nextLock !in held
    {
      hide GateRun, WellFormed, Recorded;
      NextLockIsFree(codec, run, steps, State());
    }

    method Wait(t: nat, reply: Reply) returns (r: Option<Authorization>)
      requires Valid() && t in tasks && tasks[t].phase == Missed
      modifies this, cache
      ensures Proceeds(t, Finished(r)) && Honest(old(tasks[t]), reply, r)
      ensures old(script) == [] && old(cache.highWater) <= old(tasks[t]).now && old(LockIsFree(KeyOf(codec, tasks[t]))) ==>
        r == Some(Expected(codec, old(cache.State()), old(tasks[t]), reply))
    {
      hide GateRun, WellFormed, Recorded, AuthoritySays, CacheKey, State;
      FreeNext();
      AcquireKey(t);
      Interfere(t);
      r := SlowPath(t, reply);
    }

    method SlowPath(t: nat, reply: Reply) returns (r: Option<Authorization>)
      requires Valid() && t in tasks && tasks[t].phase.Waiting?
      modifies this, cache
      ensures Proceeds(t, Finished(r)) && Honest(old(tasks[t]), reply, r)
      ensures old(script) == [] && old(cache.highWater) <= old(tasks[t]).now && old(tasks[t].phase.lock) !in old(held) ==>
        r == Some(Expected(codec, old(cache.State()), old(tasks[t]), reply))
    {
      hide GateRun, WellFormed, Recorded, AuthoritySays, CacheKey, State;
      var taken := TakeGuard(t);
      Interfere(t);
      if taken {
        UnderGuard(t, reply);
        r := tasks[t].phase.outcome;
        Leave(t);
      } else {
        DropReference(t);
        r := None;
      }
    }
  }
}
