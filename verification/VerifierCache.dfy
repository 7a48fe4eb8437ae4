/** The verifier's bounded decision cache: a monotone clock mark, a freshness budget, and eviction of
    the oldest entry. */
module VerifierCache {
  import opened Numbers

  datatype Decision = Allow | Deny
  datatype Lookup = Fresh(decision: Decision) | Stale | Miss
  datatype ClockRegression = ClockRegression(regressedBySecs: nat)
  datatype Entry = Entry(decision: Decision, observedAt: nat)

  /** The fields of a cache as one value, which the class below and the gate's steps share. */
  datatype CacheState = CacheState(entries: map<string, Entry>, highWater: nat, budget: nat, capacity: nat)

  predicate WellFormed(s: CacheState) {
    && 1 <= s.budget
    && 1 <= s.capacity
    && |s.entries| <= s.capacity
    && forall k | k in s.entries :: s.entries[k].observedAt <= s.highWater
  }

  /** What a lookup at `now` sees; a regressed clock is turned away before this. */
  function Seen(s: CacheState, key: string, now: nat): Lookup {
    if key !in s.entries then Miss
    else if SaturatingSub(now, s.entries[key].observedAt) <= s.budget then Fresh(s.entries[key].decision)
    else Stale
  }

  predicate IsOldest(entries: map<string, Entry>, victim: string) {
    victim in entries && forall k | k in entries :: entries[victim].observedAt <= entries[k].observedAt
  }

  /** Which entry makes room for `key`: none while the key is known or there is room, else one of the
      least observation time. */
  predicate MakesRoom(s: CacheState, key: string, victim: Option<string>) {
    if key in s.entries || |s.entries| < s.capacity then victim.None?
    else victim.Some? && IsOldest(s.entries, victim.value)
  }

  function Stored(s: CacheState, key: string, decision: Decision, now: nat, victim: Option<string>): CacheState {
    var kept := if victim.Some? then s.entries - {victim.value} else s.entries;
    s.(entries := kept[key := Entry(decision, now)], highWater := now)
  }

  /** Storing keeps the bound, and loses nothing but the victim. */
  lemma StoringStaysBounded(s: CacheState, key: string, decision: Decision, now: nat, victim: Option<string>)
    requires WellFormed(s) && s.highWater <= now && MakesRoom(s, key, victim)
    ensures var t := Stored(s, key, decision, now, victim);
      && WellFormed(t)
      && t.entries[key] == Entry(decision, now)
      && (forall k | k in s.entries && k != key && Some(k) != victim :: k in t.entries && t.entries[k] == s.entries[k])
      && (forall k | k in t.entries && k != key :: k in s.entries && Some(k) != victim)
  {
    var t := Stored(s, key, decision, now, victim);
    if victim.Some? {
      var kept := s.entries - {victim.value};
      assert kept.Keys == s.entries.Keys - {victim.value};
      assert t.entries.Keys == kept.Keys + {key};
    } else if key in s.entries {
      assert t.entries.Keys == s.entries.Keys;
    } else {
      assert t.entries.Keys == s.entries.Keys + {key};
    }
  }

  class RevocationCache {
    var entries: map<string, Entry>
    var highWater: nat
    const budget: nat
    const capacity: nat

    function State(): CacheState
      reads this
    {
      CacheState(entries, highWater, budget, capacity)
    }

    ghost predicate Valid()
      reads this
    {
      WellFormed(State())
    }

    constructor (freshnessBudgetSecs: nat, capacity: nat)
      ensures Valid() && entries == map[] && highWater == 0
      ensures budget == (if freshnessBudgetSecs < 1 then 1 else freshnessBudgetSecs)
      ensures this.capacity == if capacity < 1 then 1 else capacity
    {
      entries := map[];
      highWater := 0;
      budget := if freshnessBudgetSecs < 1 then 1 else freshnessBudgetSecs;
      this.capacity := if capacity < 1 then 1 else capacity;
    }

    /** The choke point of every operation: below the mark nothing happens and nothing is decided. */
    method Advance(now: nat) returns (r: Result<(), ClockRegression>)
      requires Valid()
      modifies this`highWater
      ensures Valid()
      ensures now < old(highWater) ==> r == Err(ClockRegression(old(highWater) - now)) && highWater == old(highWater)
      ensures old(highWater) <= now ==> r == Ok(()) && highWater == now
    {
      if now < highWater {
        return Err(ClockRegression(highWater - now));
      }
      highWater := now;
      r := Ok(());
    }

    method LookupKey(key: string, now: nat) returns (r: Result<Lookup, ClockRegression>)
      requires Valid()
      modifies this`highWater
      ensures Valid()
      ensures now < old(highWater) ==> r == Err(ClockRegression(old(highWater) - now)) && State() == old(State())
      ensures old(highWater) <= now ==> r == Ok(Seen(State(), key, now)) && State() == old(State()).(highWater := now)
    {
      var advanced := Advance(now);
      if advanced.Err? {
        return Err(advanced.error);
      }
      if key !in entries {
        r := Ok(Miss);
      } else if SaturatingSub(now, entries[key].observedAt) <= budget {
        r := Ok(Fresh(entries[key].decision));
      } else {
        r := Ok(Stale);
      }
    }

    method RecordRefreshStart(now: nat) returns (r: Result<(), ClockRegression>)
      requires Valid()
      modifies this`highWater
      ensures Valid()
      ensures now < old(highWater) ==> r.Err? && State() == old(State())
      ensures old(highWater) <= now ==> r.Ok? && State() == old(State()).(highWater := now)
    {
      r := Advance(now);
    }

    /** Search for the least observation time, in whatever order the map is walked. */
    method FindOldest() returns (oldest: Option<string>)
      ensures oldest.None? <==> entries == map[]
      ensures oldest.Some? ==> IsOldest(entries, oldest.value)
    {
      oldest := None;
      var rest := entries.Keys;
      while rest != {}
        invariant rest <= entries.Keys
        invariant oldest.None? <==> rest == entries.Keys
        invariant oldest.Some? ==> oldest.value in entries
        invariant oldest.Some? ==> forall k | k in entries && k !in rest :: entries[oldest.value].observedAt <= entries[k].observedAt
        decreases rest
      {
        var k :| k in rest;
        rest := rest - {k};
        if oldest.None? || entries[k].observedAt < entries[oldest.value].observedAt {
          oldest := Some(k);
        }
      }
    }

    method ApplyAuthoritative(key: string, decision: Decision, now: nat)
      returns (r: Result<(), ClockRegression>, ghost victim: Option<string>)
      requires Valid()
      modifies this
      ensures Valid()
      ensures now < old(highWater) ==> r.Err? && State() == old(State())
      ensures old(highWater) <= now ==>
        && r.Ok?
        && MakesRoom(old(State()), key, victim)
        && State() == Stored(old(State()), key, decision, now, victim)
    {
      var advanced := Advance(now);
      victim := None;
      if advanced.Err? {
        return Err(advanced.error), victim;
      }
      ghost var before := old(State());
      if key !in entries && |entries| >= capacity {
        var oldest := FindOldest();
        if oldest.Some? {
          entries := entries - {oldest.value};
        }
        victim := oldest;
      }
      entries := entries[key := Entry(decision, now)];
      StoringStaysBounded(before, key, decision, now, victim);
      r := Ok(());
    }
  }
}
