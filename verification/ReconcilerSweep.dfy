/**
 What a sweep deletes.
 */
module ReconcilerSweep {
  import opened Text
  import opened Ordering
  import opened Agents
  import opened MappingSpec
  import opened Telegram
  import opened ReconcilerSpec
  import opened ReconcilerConvergence

  /** The answers that end a sweep. */
  ghost predicate Stops(r: Reply)
  {
    r.Forbidden? || r.Cancelled?
  }

  /** The i-th deletion was reached, and its topic is deleted or already gone. */
  ghost predicate Deletes(o: Oracle, from: nat, i: nat)
    decreases i
  {
    var r := o(from).reply;
    !Stops(r) && if i == 0 then r.Accepted? || r.Gone? else Deletes(o, from + 1, i - 1)
  }

  /** The state after the first key was tried. */
  ghost function Tried(s: State, e: Env, k: string): State
    requires k in s.topics
  {
    var c := DeleteTopic(s.world, e.oracle, s.topics[k].thread);
    var s1 := s.(world := c.world);
    if c.reply.Accepted? || c.reply.Gone? then Drop(s1, k) else s1
  }

  lemma TriedEffect(s: State, e: Env, k: string)
    requires k in s.topics
    ensures var r, s1 := e.oracle(s.world.calls).reply, Tried(s, e, k);
      && s1.world.calls == s.world.calls + 1
      && (if r.Accepted? || r.Gone? then s1.topics == s.topics - {k} else s1.topics == s.topics)
  {
  }

  lemma SweepAllStep(s: State, e: Env, keys: seq<string>)
    requires keys != [] && keys[0] in s.topics
    ensures var r := e.oracle(s.world.calls).reply;
      var rest := SweepAll(Tried(s, e, keys[0]), e, keys[1..]);
      SweepAll(s, e, keys) ==
        if r.Accepted? || r.Gone? then rest.(deleted := rest.deleted + 1)
        else if Stops(r) then Swept(Tried(s, e, keys[0]), 0)
        else rest
  {
  }

  /**
   A key of the batch loses its entry exactly when its deletion was reached and answered that the
   topic is deleted or already gone; every other entry stays as it is.
   */
  lemma {:induction false} SweepAllOutcome(s: State, e: Env, keys: seq<string>)
    requires Distinct(keys) && forall k :: k in keys ==> k in s.topics
    ensures var out := SweepAll(s, e, keys);
      && out.state.topics.Keys <= s.topics.Keys
      && (forall k :: k in out.state.topics ==> out.state.topics[k] == s.topics[k])
      && (forall k :: k in s.topics && k !in keys ==> k in out.state.topics)
      && (forall i :: 0 <= i < |keys| ==> (keys[i] !in out.state.topics <==> Deletes(e.oracle, s.world.calls, i)))
      && out.deleted <= |keys|
      && |out.state.topics| == |s.topics| - out.deleted
    decreases keys
  {
    hide DeleteTopic, Drop;
    if keys != [] {
      var k, r := keys[0], e.oracle(s.world.calls).reply;
      var s1 := Tried(s, e, k);
      TriedEffect(s, e, k);
      SweepAllStep(s, e, keys);
      hide SweepAll, Tried;
      forall j | j in keys[1..]
        ensures j != k && j in keys
      {
      }
      if Stops(r) {
      } else {
        SweepAllOutcome(s1, e, keys[1..]);
        var out := SweepAll(s, e, keys);
        forall i | 0 <= i < |keys|
          ensures keys[i] !in out.state.topics <==> Deletes(e.oracle, s.world.calls, i)
        {
          if i > 0 {
            assert keys[i] == keys[1..][i - 1];
          } else {
            assert k !in keys[1..];
          }
        }
      }
    }
  }

  /**
   A sweep deletes at most SWEEP_BATCH topics, only of exited agents, closed and over age, oldest
   first; it forgets an entry exactly when the topic was deleted or already gone.
   */
  lemma SweepDeletesOldestStale(s: State, e: Env, maxAge: int)
    requires maxAge > 0 && !e.blocked
    ensures var out := Sweep(s, e, maxAge, true);
      var batch := Batch(s.topics, e.now, maxAge);
      && out.deleted <= |batch| <= SWEEP_BATCH
      && |out.state.topics| == |s.topics| - out.deleted
      && (forall k :: k in out.state.topics ==> k in s.topics && out.state.topics[k] == s.topics[k])
      && (forall k :: k in s.topics && k !in out.state.topics ==>
            k in batch && IsStale(s.topics, k, e.now, maxAge))
      && (forall i :: 0 <= i < |batch| ==>
            (batch[i] !in out.state.topics <==> Deletes(e.oracle, s.world.calls, i)))
      && (forall g, k :: g in s.topics && g !in out.state.topics && k !in batch && IsStale(s.topics, k, e.now, maxAge)
            ==> k in s.topics && s.topics[g].at <= s.topics[k].at)
  {
    hide SweepAll, Deletes, Stale, IsStale;
    var all, batch := Stale(s.topics, e.now, maxAge), Batch(s.topics, e.now, maxAge);
    StaleElements(s.topics, e.now, maxAge);
    assert forall k :: k in batch ==> k in all;
    StaleAreEntries(s.topics, e.now, maxAge);
    SweepAllOutcome(s, e, batch);
    var out := Sweep(s, e, maxAge, true);
    forall g, k | g in s.topics && g !in out.state.topics && k !in batch && IsStale(s.topics, k, e.now, maxAge)
      ensures k in s.topics && s.topics[g].at <= s.topics[k].at
    {
      var i :| 0 <= i < |batch| && batch[i] == g;
      var j :| 0 <= j < |all| && all[j] == k;
      assert all[i] == g;
    }
  }

  lemma StaleAreEntries(t: Topics, now: int, maxAge: int)
    ensures forall k :: IsStale(t, k, now, maxAge) ==> k in t
  {
  }
}
