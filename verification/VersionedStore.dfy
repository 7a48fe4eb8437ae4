/**
 The replicated key-value store, reduced to what its callers rely on: every write gets a fresh
 revision, a put names the revision it expects, and expected revision 0 means "absent".  The
 store also carries the log of its commits, so that a statement about every interleaving is a
 statement about every log that keeps the protocol's rule.
 */
module VersionedStore {
  import opened Numbers

  const MAX_CAS_RETRIES := 8

  datatype Versioned<+V> = Versioned(value: V, revision: nat)
  datatype CasOutcome = Applied | Mismatch

  /** One applied write: what the key held, what it holds now, and which request did it. */
  datatype Commit<K, V, L> = Commit(key: K, before: Option<V>, after: V, cause: L)

  /** Which commits a protocol may append to a log. */
  type Rule<!K(==), !V(==), !L(==)> = (seq<Commit<K, V, L>>, Commit<K, V, L>) -> bool

  datatype Store<K(==), V, L> = Store(data: map<K, Versioned<V>>, revision: nat, log: seq<Commit<K, V, L>>)

  function Lookup<K(==), V, L>(s: Store<K, V, L>, key: K): Option<V> {
    if key in s.data then Some(s.data[key].value) else None
  }

  function Revision<K(==), V, L>(s: Store<K, V, L>, key: K): nat {
    if key in s.data then s.data[key].revision else 0
  }

  /** The value the last commit for `key` left, if there is one. */
  function Current<K(==), V, L>(log: seq<Commit<K, V, L>>, key: K): Option<V> {
    if log == [] then None
    else if log[|log| - 1].key == key then Some(log[|log| - 1].after)
    else Current(log[..|log| - 1], key)
  }

  /** Each commit was made on the then-current value of its key, and the rule allowed it. */
  predicate LegalLog<K(==), V(==), L(==)>(rule: Rule<K, V, L>, log: seq<Commit<K, V, L>>) {
    forall n | 0 <= n < |log| :: log[n].before == Current(log[..n], log[n].key) && rule(log[..n], log[n])
  }

  lemma LegalAt<K, V, L>(rule: Rule<K, V, L>, log: seq<Commit<K, V, L>>, n: nat)
    requires LegalLog(rule, log) && n < |log|
    ensures log[n].before == Current(log[..n], log[n].key) && rule(log[..n], log[n])
  {
  }

  lemma LegalPrefix<K, V, L>(rule: Rule<K, V, L>, log: seq<Commit<K, V, L>>, n: nat)
    requires LegalLog(rule, log) && n <= |log|
    ensures LegalLog(rule, log[..n])
  {
    forall m | 0 <= m < n
      ensures log[..n][m].before == Current(log[..n][..m], log[..n][m].key) && rule(log[..n][..m], log[..n][m])
    {
      assert log[..n][..m] == log[..m];
    }
  }

  lemma LegalAppend<K, V, L>(rule: Rule<K, V, L>, log: seq<Commit<K, V, L>>, c: Commit<K, V, L>)
    requires LegalLog(rule, log) && c.before == Current(log, c.key) && rule(log, c)
    ensures LegalLog(rule, log + [c])
  {
    var next := log + [c];
    forall m | 0 <= m < |next|
      ensures next[m].before == Current(next[..m], next[m].key) && rule(next[..m], next[m])
    {
      assert next[..m] == log[..m];
      assert log[..|log|] == log;
    }
  }

  function CommitCount<K(==), V, L>(log: seq<Commit<K, V, L>>, key: K): nat {
    if log == [] then 0
    else CommitCount(log[..|log| - 1], key) + if log[|log| - 1].key == key then 1 else 0
  }

  ghost predicate Consistent<K(!new), V, L>(rule: Rule<K, V, L>, s: Store<K, V, L>) {
    && LegalLog(rule, s.log)
    && (forall k :: Lookup(s, k) == Current(s.log, k))
    && (forall k | k in s.data :: 0 < s.data[k].revision <= s.revision)
  }

  function Put<K(==), V, L>(s: Store<K, V, L>, key: K, value: V, expected: nat, cause: L): (Store<K, V, L>, CasOutcome) {
    if Revision(s, key) == expected then
      (Store(s.data[key := Versioned(value, s.revision + 1)], s.revision + 1,
             s.log + [Commit(key, Lookup(s, key), value, cause)]), Applied)
    else
      (s, Mismatch)
  }

  /** `value` was read together with `revision` at some earlier point: as long as that revision
      is still the key's revision, that value is still its value. */
  predicate Observed<K(==), V(==), L>(s: Store<K, V, L>, key: K, value: Option<V>, revision: nat) {
    revision <= s.revision && (Revision(s, key) == revision ==> Lookup(s, key) == value)
  }

  /** No write, by anybody, invalidates what a replica has read. */
  lemma PutKeepsObserved<K, V, L>(s: Store<K, V, L>, key: K, value: V, expected: nat, cause: L,
                                  k: K, v: Option<V>, revision: nat)
    requires Observed(s, k, v, revision)
    ensures Observed(Put(s, key, value, expected, cause).0, k, v, revision)
  {
  }

  /** A put at an observed revision that is applied was made on the observed value. */
  lemma PutIsOnObserved<K(!new), V, L>(rule: Rule<K, V, L>, s: Store<K, V, L>, key: K, value: V, expected: nat,
                                       cause: L, observed: Option<V>)
    requires Consistent(rule, s) && Observed(s, key, observed, expected)
    requires Revision(s, key) == expected ==> rule(s.log, Commit(key, observed, value, cause))
    ensures var (t, outcome) := Put(s, key, value, expected, cause);
            && Consistent(rule, t)
            && (outcome == Applied ==> t.log == s.log + [Commit(key, observed, value, cause)])
            && (outcome == Mismatch ==> t == s)
  {
    var (t, outcome) := Put(s, key, value, expected, cause);
    if outcome == Applied {
      var c := Commit(key, observed, value, cause);
      LegalAppend(rule, s.log, c);
      assert t.log[..|t.log| - 1] == s.log;
      forall k ensures Lookup(t, k) == Current(t.log, k) {
        assert Lookup(s, k) == Current(s.log, k);
      }
    }
  }

  // ---------------------------------------------------------------- any number of replicas

  /** What a replica holds between its read and its put. */
  datatype Reading<K, V> = Reading(key: K, value: Option<V>, revision: nat)

  datatype System<K(==), V, L> = System(store: Store<K, V, L>, held: map<nat, Reading<K, V>>)

  /** `Attempt` is a put whose reply may arrive, be lost, or find the replica gone; in each case
      the replica may put again later, so its reading is kept.  A crash drops it. */
  datatype Event<K, V, L> =
    | Read(replica: nat, key: K)
    | Attempt(replica: nat, next: V, cause: L)
    | Crash(replica: nat)

  predicate Enabled<K(==), V(==), L(==)>(rule: Rule<K, V, L>, y: System<K, V, L>, e: Event<K, V, L>) {
    match e
    case Read(_, _) => true
    case Attempt(r, next, cause) =>
      r in y.held && rule(y.store.log, Commit(y.held[r].key, y.held[r].value, next, cause))
    case Crash(_) => true
  }

  function After<K(==), V, L>(y: System<K, V, L>, e: Event<K, V, L>): System<K, V, L> {
    match e
    case Read(r, key) => y.(held := y.held[r := Reading(key, Lookup(y.store, key), Revision(y.store, key))])
    case Attempt(r, next, cause) =>
      if r in y.held then
        y.(store := Put(y.store, y.held[r].key, next, y.held[r].revision, cause).0)
      else y
    case Crash(r) => y.(held := y.held - {r})
  }

  ghost predicate SystemValid<K(!new), V, L>(rule: Rule<K, V, L>, y: System<K, V, L>) {
    && Consistent(rule, y.store)
    && forall r | r in y.held :: Observed(y.store, y.held[r].key, y.held[r].value, y.held[r].revision)
  }

  /** However replicas' reads, stale puts, lost replies and crashes interleave, the store's history
      stays a sequence of whole read-modify-write transitions, each made on the current value. */
  lemma InterleavedReplicasStayLegal<K(!new), V, L>(rule: Rule<K, V, L>, run: seq<System<K, V, L>>, events: seq<Event<K, V, L>>)
    requires |run| == |events| + 1 && SystemValid(rule, run[0])
    requires forall i | 0 <= i < |events| :: Enabled(rule, run[i], events[i]) && run[i + 1] == After(run[i], events[i])
    ensures forall i | 0 <= i < |run| :: SystemValid(rule, run[i]) && run[0].store.log <= run[i].store.log
  {
    for n := 0 to |events|
      invariant forall i | 0 <= i <= n :: SystemValid(rule, run[i]) && run[0].store.log <= run[i].store.log
    {
      ReplicaStep(rule, run[n], events[n]);
      assert run[n + 1] == After(run[n], events[n]);
    }
  }

  lemma ReplicaStep<K(!new), V, L>(rule: Rule<K, V, L>, y: System<K, V, L>, e: Event<K, V, L>)
    requires SystemValid(rule, y) && Enabled(rule, y, e)
    ensures SystemValid(rule, After(y, e)) && y.store.log <= After(y, e).store.log
  {
    match e
    case Read(r, key) =>
      assert key in y.store.data ==> y.store.data[key].revision <= y.store.revision;
    case Attempt(r, next, cause) =>
      var h := y.held[r];
      PutIsOnObserved(rule, y.store, h.key, next, h.revision, cause, h.value);
    case Crash(r) =>
  }

  // ---------------------------------------------------------------- one replica's view

  datatype Fault = Healthy | Refused | ReplyLost

  /** What the rest of the world does before one of our requests is served: commits by other
      replicas, and possibly a failure of the request itself. */
  datatype Turn<K, V, L> = Turn(others: seq<Commit<K, V, L>>, fault: Fault)

  datatype Transport = Transport

  /** However the log grows past `from`, the rule lets `value` replace `observed`. */
  ghost predicate Allowed<K(!new), V(!new), L(!new)>(rule: Rule<K, V, L>, from: seq<Commit<K, V, L>>, key: K,
                                                     observed: Option<V>, value: V, cause: L) {
    forall log | from <= log && LegalLog(rule, log) && Current(log, key) == observed
      :: rule(log, Commit(key, observed, value, cause))
  }

  /** What the others' requests leave: each takes effect where its protocol allows it. */
  function AfterOthers<K(==), V(==), L(==)>(rule: Rule<K, V, L>, s: Store<K, V, L>, others: seq<Commit<K, V, L>>): Store<K, V, L> {
    if others == [] then s
    else
      var t := AfterOthers(rule, s, others[..|others| - 1]);
      var c := others[|others| - 1];
      if c.before == Lookup(t, c.key) && rule(t.log, c) then Put(t, c.key, c.after, Revision(t, c.key), c.cause).0 else t
  }

  /** A script that has run out is a quiet world. */
  function NextTurn<K, V, L>(script: seq<Turn<K, V, L>>): Turn<K, V, L> {
    if script == [] then Turn([], Healthy) else script[0]
  }

  lemma AllowedNow<K(!new), V(!new), L(!new)>(rule: Rule<K, V, L>, from: seq<Commit<K, V, L>>, s: Store<K, V, L>, key: K,
                                              observed: Option<V>, value: V, cause: L)
    requires Allowed(rule, from, key, observed, value, cause) && Consistent(rule, s) && from <= s.log
    ensures Current(s.log, key) == observed ==> rule(s.log, Commit(key, observed, value, cause))
  {
  }

  // ---------------------------------------------------------------- what a client has lived through

  /** `to` is what is left of `from`, and `failed` says whether any request served in between went wrong. */
  ghost predicate Used<K, V, L>(from: seq<Turn<K, V, L>>, to: seq<Turn<K, V, L>>, failed: bool) {
    && |to| <= |from|
    && to == from[|from| - |to|..]
    && (failed <==> exists i | 0 <= i < |from| - |to| :: from[i].fault != Healthy)
  }

  lemma TurnIsUsed<K, V, L>(script: seq<Turn<K, V, L>>)
    ensures Used(script, if script == [] then [] else script[1..], NextTurn(script).fault != Healthy)
  {
  }

  lemma NothingIsUsed<K, V, L>(script: seq<Turn<K, V, L>>)
    ensures Used(script, script, false)
  {
  }

  lemma QuietStaysQuiet<K, V, L>(from: seq<Turn<K, V, L>>, to: seq<Turn<K, V, L>>, failed: bool)
    requires Used(from, to, failed)
    ensures from == [] ==> to == [] && !failed
  {
  }

  lemma UsedOn<K, V, L>(a: seq<Turn<K, V, L>>, b: seq<Turn<K, V, L>>, c: seq<Turn<K, V, L>>, failed: bool)
    requires Used(a, b, false) && Used(b, c, failed)
    ensures Used(a, c, failed)
  {
    if failed {
      var i :| 0 <= i < |b| - |c| && b[i].fault != Healthy;
      assert a[|a| - |b| + i].fault != Healthy;
    }
    forall i | 0 <= i < |a| - |c| && a[i].fault != Healthy ensures failed {
      assert a[i] == b[i - (|a| - |b|)];
    }
  }

  /** At least so many commits to the key, by whomever. */
  ghost predicate Contended<K(!new), V, L>(from: seq<Commit<K, V, L>>, to: seq<Commit<K, V, L>>, key: K, times: nat) {
    CommitCount(from, key) + times <= CommitCount(to, key)
  }

  lemma {:induction false} CommitsAddUp<K, V, L>(from: seq<Commit<K, V, L>>, to: seq<Commit<K, V, L>>, key: K)
    requires from <= to
    ensures CommitCount(from, key) <= CommitCount(to, key)
  {
    if from == to {
    } else {
      CommitsAddUp(from, to[..|to| - 1], key);
    }
  }

  lemma PutCounts<K, V, L>(s: Store<K, V, L>, key: K, value: V, expected: nat, cause: L, k: K)
    ensures var t := Put(s, key, value, expected, cause).0;
      && s.log <= t.log
      && CommitCount(s.log, k) <= CommitCount(t.log, k)
      && (Revision(t, k) != Revision(s, k) ==> CommitCount(s.log, k) < CommitCount(t.log, k))
  {
    var t := Put(s, key, value, expected, cause).0;
    if t != s {
      assert t.log[..|t.log| - 1] == s.log;
    }
  }

  lemma AfterNobody<K, V, L>(rule: Rule<K, V, L>, s: Store<K, V, L>)
    ensures AfterOthers(rule, s, NextTurn<K, V, L>([]).others) == s
  {
  }

  /** The others cannot move a key's revision without a commit to it. */
  lemma {:induction false} RevisionMovesByCommit<K, V, L>(rule: Rule<K, V, L>, s: Store<K, V, L>, others: seq<Commit<K, V, L>>, key: K)
    ensures var t := AfterOthers(rule, s, others);
      && s.log <= t.log
      && CommitCount(s.log, key) <= CommitCount(t.log, key)
      && (Revision(t, key) != Revision(s, key) ==> CommitCount(s.log, key) < CommitCount(t.log, key))
  {
    if others != [] {
      var t := AfterOthers(rule, s, others[..|others| - 1]);
      var c := others[|others| - 1];
      RevisionMovesByCommit(rule, s, others[..|others| - 1], key);
      PutCounts(t, c.key, c.after, Revision(t, c.key), c.cause, key);
    }
  }

  /** A put at the revision that was read can only miss because somebody else committed to the key. */
  lemma MissIsContention<K(!new), V, L>(rule: Rule<K, V, L>, s: Store<K, V, L>, others: seq<Commit<K, V, L>>, key: K, value: V,
                                        expected: nat, cause: L)
    requires Revision(s, key) == expected
    ensures var served := AfterOthers(rule, s, others);
      Put(served, key, value, expected, cause).1 == Mismatch ==>
        Contended(s.log, Put(served, key, value, expected, cause).0.log, key, 1)
  {
    RevisionMovesByCommit(rule, s, others, key);
  }

  /** The store as one replica reaches it.  `script` is what the others will do; nothing is known
      about it, so what is proved of a caller holds whatever they do. */
  class KvClient<!K(==, !new), !V(==, !new), !L(==, !new)> {
    const rule: Rule<K, V, L>
    var store: Store<K, V, L>
    var script: seq<Turn<K, V, L>>

    ghost predicate Valid()
      reads this
    {
      Consistent(rule, store)
    }

    /** How an operation's failures come about: the store failed exactly if a request of ours did, retries
        ran out only under as many commits to the key, and in a quiet world the answer is about the log as
        it was. */
    twostate predicate Served(key: K, failed: bool, exhausted: bool, at: nat)
      reads this
    {
      && Used(old(script), script, failed)
      && (exhausted ==> Contended(old(store.log), store.log, key, MAX_CAS_RETRIES))
      && (old(script) == [] ==> !exhausted && at == |old(store.log)|)
    }

    constructor (rule: Rule<K, V, L>, script: seq<Turn<K, V, L>>)
      ensures Valid() && store.log == [] && this.rule == rule && this.script == script
    {
      this.rule := rule;
      this.script := script;
      store := Store(map[], 0, []);
    }

    method Interfere() returns (fault: Fault)
      requires Valid()
      modifies this
      ensures Valid() && old(store.log) <= store.log
      ensures store == AfterOthers(rule, old(store), NextTurn(old(script)).others) && fault == NextTurn(old(script)).fault
      ensures Used(old(script), script, fault != Healthy)
      ensures forall k, v, r | Observed(old(store), k, v, r) :: Observed(store, k, v, r)
    {
      TurnIsUsed(script);
      hide Used;
      if script == [] {
        return Healthy;
      }
      var turn := script[0];
      script := script[1..];
      for i := 0 to |turn.others|
        invariant Valid() && old(store.log) <= store.log
        invariant store == AfterOthers(rule, old(store), turn.others[..i]) && script == old(script)[1..]
        invariant forall k, v, r | Observed(old(store), k, v, r) :: Observed(store, k, v, r)
      {
        assert turn.others[..i + 1][..i] == turn.others[..i];
        Serve(turn.others[i]);
      }
      assert turn.others[..|turn.others|] == turn.others;
      fault := turn.fault;
    }

    /** One request of another replica. */
    method Serve(c: Commit<K, V, L>)
      requires Valid()
      modifies this`store
      ensures Valid() && old(store.log) <= store.log
      ensures store == if c.before == Lookup(old(store), c.key) && rule(old(store.log), c)
                       then Put(old(store), c.key, c.after, Revision(old(store), c.key), c.cause).0 else old(store)
      ensures forall k, v, r | Observed(old(store), k, v, r) :: Observed(store, k, v, r)
    {
      if c.before == Lookup(store, c.key) && rule(store.log, c) {
        var expected := Revision(store, c.key);
        PutIsOnObserved(rule, store, c.key, c.after, expected, c.cause, c.before);
        forall k, v, r | Observed(store, k, v, r) ensures Observed(Put(store, c.key, c.after, expected, c.cause).0, k, v, r) {
          PutKeepsObserved(store, c.key, c.after, expected, c.cause, k, v, r);
        }
        store := Put(store, c.key, c.after, expected, c.cause).0;
      }
    }

    method GetVersioned(key: K) returns (r: Result<Option<Versioned<V>>, Transport>)
      requires Valid()
      modifies this
      ensures Valid() && old(store.log) <= store.log
      ensures r.Ok? ==>
        && (r.value.Some? ==> Observed(store, key, Some(r.value.value.value), r.value.value.revision))
        && (r.value.None? ==> Observed(store, key, None, 0))
        && Current(store.log, key) == (if r.value.Some? then Some(r.value.value.value) else None)
      ensures store == AfterOthers(rule, old(store), NextTurn(old(script)).others)
      ensures Used(old(script), script, r.Err?)
      ensures old(script) == [] ==> store == old(store) && script == []
      ensures r.Ok? ==> Revision(store, key) == if r.value.Some? then r.value.value.revision else 0
    {
      var fault := Interfere();
      assert Lookup(store, key) == Current(store.log, key);
      if fault != Healthy {
        r := Err(Transport);
      } else if key in store.data {
        r := Ok(Some(store.data[key]));
      } else {
        r := Ok(None);
      }
    }

    method PutIfRevision(key: K, value: V, expected: nat, cause: L, ghost observed: Option<V>)
      returns (r: Result<CasOutcome, Transport>)
      requires Valid() && Observed(store, key, observed, expected)
      requires Allowed(rule, store.log, key, observed, value, cause)
      modifies this
      ensures Valid() && old(store.log) <= store.log
      ensures r == Ok(Applied) ==>
        && |old(store.log)| < |store.log|
        && store.log[|store.log| - 1] == Commit(key, observed, value, cause)
        && Current(store.log[..|store.log| - 1], key) == observed
      ensures r == Ok(Mismatch) && expected == 0 ==> Current(store.log, key).Some?
      ensures var turn := NextTurn(old(script)); var served := AfterOthers(rule, old(store), turn.others);
        if turn.fault == Refused then r == Err(Transport) && store == served
        else
          && store == Put(served, key, value, expected, cause).0
          && r == if turn.fault == ReplyLost then Err(Transport) else Ok(Put(served, key, value, expected, cause).1)
      ensures Used(old(script), script, r.Err?)
      ensures old(script) == [] ==>
        && script == []
        && store == Put(old(store), key, value, expected, cause).0
        && r == Ok(Put(old(store), key, value, expected, cause).1)
    {
      AfterNobody(rule, store);
      hide Used, AfterOthers, Allowed, Consistent, LegalLog, Current, Observed;
      var fault := Interfere();
      QuietStaysQuiet(old(script), script, fault != Healthy);
      if fault == Refused {
        return Err(Transport);
      }
      AllowedNow(rule, old(store.log), store, key, observed, value, cause);
      var outcome := Attempt(key, value, expected, cause, observed);
      r := if fault == ReplyLost then Err(Transport) else Ok(outcome);
    }

    /** Our own request, when it is its turn. */
    method Attempt(key: K, value: V, expected: nat, cause: L, ghost observed: Option<V>) returns (outcome: CasOutcome)
      requires Valid() && Observed(store, key, observed, expected)
      requires Current(store.log, key) == observed ==> rule(store.log, Commit(key, observed, value, cause))
      modifies this`store
      ensures Valid() && old(store.log) <= store.log
      ensures store == Put(old(store), key, value, expected, cause).0 && outcome == Put(old(store), key, value, expected, cause).1
      ensures outcome == Applied ==>
        && store.log == old(store.log) + [Commit(key, observed, value, cause)]
        && store.log[..|store.log| - 1] == old(store.log)
        && Current(old(store.log), key) == observed
      ensures outcome == Mismatch && expected == 0 ==> Current(store.log, key).Some?
    {
      hide LegalLog;
      assert Lookup(store, key) == Current(store.log, key);
      PutIsOnObserved(rule, store, key, value, expected, cause, observed);
      var (next, result) := Put(store, key, value, expected, cause);
      store, outcome := next, result;
    }
  }

  // ---------------------------------------------------------------- the retry loop

  /** What one pass of a retry loop makes of the value it has read. */
  datatype Decision<+V, +R, +E> = Fail(error: E) | Reply(reply: R) | Write(next: V, reply: R)

  datatype Outcome<+R, +E> = Failed(error: E) | Replied(reply: R) | Wrote(reply: R) | Exhausted | Unavailable

  predicate Writes<V(==), R, E>(d: Decision<V, R, E>, after: V) {
    d.Write? && d.next == after
  }

  /** What a caller makes of an outcome, given its errors for contention and for the store. */
  function ToResult<R, E>(out: Outcome<R, E>, exhausted: E, unavailable: E): Result<R, E> {
    match out
    case Failed(e) => Err(e)
    case Replied(r) => Ok(r)
    case Wrote(r) => Ok(r)
    case Exhausted => Err(exhausted)
    case Unavailable => Err(unavailable)
  }

  /** Whatever value the loop finds, the rule allows the write it decides on. */
  ghost predicate Justified<K(!new), V(!new), L(!new), R, E>(rule: Rule<K, V, L>, from: seq<Commit<K, V, L>>, key: K,
                                                             decide: Option<V> -> Decision<V, R, E>, cause: L) {
    forall v | decide(v).Write? :: Allowed(rule, from, key, v, decide(v).next, cause)
  }

  lemma JustifiedLater<K(!new), V(!new), L(!new), R, E>(rule: Rule<K, V, L>, from: seq<Commit<K, V, L>>, to: seq<Commit<K, V, L>>,
                                                        key: K, decide: Option<V> -> Decision<V, R, E>, cause: L)
    requires Justified(rule, from, key, decide, cause) && from <= to
    ensures Justified(rule, to, key, decide, cause)
  {
    forall v | decide(v).Write? ensures Allowed(rule, to, key, v, decide(v).next, cause) {
      assert Allowed(rule, from, key, v, decide(v).next, cause);
    }
  }

  /** `out` is the decision on the value that was current at position `at` of the log; a write is
      the commit at that position. */
  ghost predicate Decided<K(!new), V(!new), L(!new), R, E>(log: seq<Commit<K, V, L>>, key: K, decide: Option<V> -> Decision<V, R, E>,
                                                           cause: L, out: Outcome<R, E>, at: nat) {
    && at <= |log|
    && var seen := Current(log[..at], key);
    match out
    case Failed(e) => decide(seen) == Fail(e)
    case Replied(r) => decide(seen) == Reply(r)
    case Wrote(r) =>
      && at < |log|
      && decide(seen).Write?
      && decide(seen).reply == r
      && log[at] == Commit(key, seen, decide(seen).next, cause)
    case _ => true
  }

  /** A decision to write, carried out by the commit at `at`. */
  predicate Committed<K(==), V(==), L(==), R(==), E>(log: seq<Commit<K, V, L>>, key: K, d: Decision<V, R, E>, reply: R, cause: L, at: nat)
    requires at <= |log|
  {
    d.Write? && d.reply == reply && at < |log| && log[at] == Commit(key, Current(log[..at], key), d.next, cause)
  }

  lemma AppliedWriteIsDecided<K(!new), V(!new), L(!new), R, E>(log: seq<Commit<K, V, L>>, key: K,
                                                                decide: Option<V> -> Decision<V, R, E>, seen: Option<V>, cause: L)
    requires log != [] && decide(seen).Write? && Current(log[..|log| - 1], key) == seen
    requires log[|log| - 1] == Commit(key, seen, decide(seen).next, cause)
    ensures Decided(log, key, decide, cause, Wrote(decide(seen).reply), |log| - 1)
  {
  }

  lemma GivingUpIsDecided<K(!new), V(!new), L(!new), R, E>(log: seq<Commit<K, V, L>>, key: K,
                                                             decide: Option<V> -> Decision<V, R, E>, cause: L)
    ensures Decided(log, key, decide, cause, Exhausted, |log|) && Decided(log, key, decide, cause, Unavailable, |log|)
  {
  }

  /** The write half of a pass, at the revision that was read: `None` when another write got in between. */
  method CasWrite<K(!new), V(!new), L(!new), R, E>(kv: KvClient<K, V, L>, key: K, decide: Option<V> -> Decision<V, R, E>,
                                                   seen: Option<V>, revision: nat, cause: L)
    returns (out: Option<Outcome<R, E>>, ghost at: nat)
    requires kv.Valid() && Justified(kv.rule, kv.store.log, key, decide, cause)
    requires decide(seen).Write? && Observed(kv.store, key, seen, revision) && Revision(kv.store, key) == revision
    modifies kv
    ensures kv.Valid() && old(kv.store.log) <= kv.store.log
    ensures out.Some? ==> |old(kv.store.log)| <= at && Decided(kv.store.log, key, decide, cause, out.value, at)
    ensures Used(old(kv.script), kv.script, out == Some(Unavailable)) && out != Some(Exhausted)
    ensures out.None? ==> Contended(old(kv.store.log), kv.store.log, key, 1)
    ensures old(kv.script) == [] ==> out.Some? && at == |old(kv.store.log)|
  {
    hide LegalLog, Current, Used, Observed, Consistent, AfterOthers, Contended, Decided, NextTurn;
    MissIsContention(kv.rule, kv.store, NextTurn(kv.script).others, key, decide(seen).next, revision, cause);
    var put := kv.PutIfRevision(key, decide(seen).next, revision, cause, seen);
    at := |kv.store.log|;
    if put.Err? {
      GivingUpIsDecided(kv.store.log, key, decide, cause);
      out := Some(Unavailable);
    } else if put.value == Applied {
      at := at - 1;
      AppliedWriteIsDecided(kv.store.log, key, decide, seen, cause);
      out := Some(Wrote(decide(seen).reply));
    } else {
      out := None;
    }
  }

  /** One pass of a retry loop. */
  method CasPass<K(!new), V(!new), L(!new), R, E>(kv: KvClient<K, V, L>, key: K, decide: Option<V> -> Decision<V, R, E>, cause: L)
    returns (out: Option<Outcome<R, E>>, ghost at: nat)
    requires kv.Valid() && Justified(kv.rule, kv.store.log, key, decide, cause)
    modifies kv
    ensures kv.Valid() && old(kv.store.log) <= kv.store.log
    ensures out.Some? ==> |old(kv.store.log)| <= at && Decided(kv.store.log, key, decide, cause, out.value, at)
    ensures Used(old(kv.script), kv.script, out == Some(Unavailable)) && out != Some(Exhausted)
    ensures out.None? ==> Contended(old(kv.store.log), kv.store.log, key, 1)
    ensures old(kv.script) == [] ==> out.Some? && at == |old(kv.store.log)|
  {
    var got := kv.GetVersioned(key);
    at := |kv.store.log|;
    assert kv.store.log[..at] == kv.store.log;
    if got.Err? {
      return Some(Unavailable), at;
    }
    var (seen, revision) := if got.value.None? then (None, 0) else (Some(got.value.value.value), got.value.value.revision);
    if decide(seen).Write? {
      JustifiedLater(kv.rule, old(kv.store.log), kv.store.log, key, decide, cause);
      CommitsAddUp(old(kv.store.log), kv.store.log, key);
      ghost var left := kv.script;
      out, at := CasWrite(kv, key, decide, seen, revision, cause);
      UsedOn(old(kv.script), left, kv.script, out == Some(Unavailable));
    } else if decide(seen).Reply? {
      out := Some(Replied(decide(seen).reply));
    } else {
      out := Some(Failed(decide(seen).error));
    }
  }

  /** The read / decide / `put_if_revision` loop that every mutation of the server runs, at most
      `MAX_CAS_RETRIES` times. */
  method CasLoop<K(!new), V(!new), L(!new), R, E>(kv: KvClient<K, V, L>, key: K, decide: Option<V> -> Decision<V, R, E>, cause: L)
    returns (out: Outcome<R, E>, ghost at: nat)
    requires kv.Valid() && Justified(kv.rule, kv.store.log, key, decide, cause)
    modifies kv
    ensures kv.Valid() && old(kv.store.log) <= kv.store.log
    ensures |old(kv.store.log)| <= at && Decided(kv.store.log, key, decide, cause, out, at)
    ensures kv.Served(key, out.Unavailable?, out.Exhausted?, at)
  {
    hide LegalLog, Current, Decided, Justified, Consistent, AfterOthers, CommitCount;
    NothingIsUsed(kv.script);
    hide Used;
    for attempt := 0 to MAX_CAS_RETRIES
      invariant kv.Valid() && old(kv.store.log) <= kv.store.log
      invariant Used(old(kv.script), kv.script, false)
      invariant Contended(old(kv.store.log), kv.store.log, key, attempt)
      invariant old(kv.script) == [] ==> attempt == 0
      invariant attempt == 0 ==> kv.store == old(kv.store) && kv.script == old(kv.script)
    {
      ghost var left := kv.script;
      JustifiedLater(kv.rule, old(kv.store.log), kv.store.log, key, decide, cause);
      var pass;
      pass, at := CasPass(kv, key, decide, cause);
      UsedOn(old(kv.script), left, kv.script, pass == Some(Unavailable));
      if pass.Some? {
        return pass.value, at;
      }
    }
    at := |kv.store.log|;
    GivingUpIsDecided(kv.store.log, key, decide, cause);
    return Exhausted, at;
  }
}
