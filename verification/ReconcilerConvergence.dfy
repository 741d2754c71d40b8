/**
 What a pass without failing calls achieves.
 */
module ReconcilerConvergence {
  import opened Text
  import opened Ordering
  import opened Agents
  import opened MappingSpec
  import opened Telegram
  import opened ReconcilerSpec
  import opened ReconcilerTruth
  import Format

  /** Every call made was accepted. */
  ghost predicate Clean(before: State, after: Out)
  {
    after.state.world.failures == before.world.failures
  }

  ghost predicate AtDesired(x: Entry, a: Agent)
  {
    x.name == DesiredName(a) && x.status == a.status
  }

  /** Telegram keeps the name as it is: trimmed, not empty, within its limit. */
  ghost predicate NameFits(a: Agent)
  {
    Fits(DesiredName(a))
  }

  /** The name of a new entry: the one Telegram says it kept, when the answer to that call says so. */
  function NewName(e: Env, call: nat, a: Agent): string
  {
    if e.oracle(call).echo then Format.TopicName(DesiredName(a)) else DesiredName(a)
  }

  /** The name and status of a live agent are settled; a muted topic is left alone. */
  ghost predicate LiveSettled(t: Topics, k: string, a: Agent)
  {
    k in t && t[k].status.Live() && (t[k].muted || AtDesired(t[k], a))
  }

  ghost predicate DeadSettled(t: Topics, live: set<string>)
  {
    forall k :: k in t && Parses(k) && k !in live && !t[k].muted ==> t[k].status.Exited? && t[k].closed
  }

  /** What a pass aims at. */
  ghost predicate Settled(t: Topics, live: map<string, Agent>)
  {
    && ThreadsUnique(t)
    && (forall k :: k in live ==> LiveSettled(t, k, live[k]))
    && DeadSettled(t, live.Keys)
    && Prune(t, MAPPING_MAX_ENTRIES) == t
  }

  // ---- Calls only ever fail more ----

  lemma FailuresOfExit(s: State, e: Env, k: string)
    ensures Exit(s, e, k).state.world.failures >= s.world.failures
    ensures Close(s, e, k).state.world.failures >= s.world.failures
  {
  }

  lemma FailuresOfSettle(s: State, e: Env, k: string)
    requires k in s.agents
    ensures Settle(s, e, k).state.world.failures >= s.world.failures
    ensures Settle(s, e, k).state.world.calls >= s.world.calls
  {
    FailuresOfCreate(s, e, s.agents[k]);
    hide Create;
    if k in s.topics && s.topics[k].status.Live() {
      FailuresOfEdit(s.(pending := s.pending - {k}), e, k);
    }
  }

  lemma FailuresOfSend(s: State, e: Env, k: string, patch: Patch)
    requires k in s.topics
    ensures Send(s, e, k, patch).state.world.failures >= s.world.failures
    ensures Send(s, e, k, patch).state.world.calls > s.world.calls
  {
  }

  lemma FailuresOfCreateNew(s: State, e: Env, a: Agent)
    ensures CreateNew(s, e, a).state.world.failures >= s.world.failures
    ensures CreateNew(s, e, a).state.world.calls > s.world.calls
  {
  }

  lemma FailuresOfRefresh(s: State, e: Env, a: Agent)
    requires a.Id() in s.topics
    ensures Refresh(s, e, a).state.world.failures >= s.world.failures
    ensures Refresh(s, e, a).state.world.calls > s.world.calls
  {
    hide Send;
    FailuresOfSend(Reopened(s, a.Id(), e.now), e, a.Id(), RevivalPatch(s.topics[a.Id()], a));
  }

  lemma FailuresOfCreate(s: State, e: Env, a: Agent)
    ensures Create(s, e, a).state.world.failures >= s.world.failures
    ensures Create(s, e, a).state.world.calls >= s.world.calls
  {
    hide Refresh, CreateNew;
    var k := a.Id();
    FailuresOfCreateNew(s, e, a);
    if k in s.topics {
      var s1 := s.(world := SetClosed(s.world, e.oracle, s.topics[k].thread, false).world);
      FailuresOfRefresh(s, e, a);
      FailuresOfRefresh(s1, e, a);
      FailuresOfCreateNew(Drop(s1, k), e, a);
    }
  }

  lemma FailuresOfEdit(s: State, e: Env, k: string)
    ensures Edit(s, e, k).state.world.failures >= s.world.failures && Edit(s, e, k).state.world.calls >= s.world.calls
  {
    hide Create;
    if k in s.agents {
      FailuresOfCreate(s, e, s.agents[k]);
    }
  }

  lemma {:induction false} FailuresOfExitAll(s: State, e: Env, keys: seq<string>)
    ensures ExitAll(s, e, keys).state.world.failures >= s.world.failures
    decreases keys
  {
    hide Exit;
    if keys != [] {
      var s1 := s.(pending := s.pending - {keys[0]});
      FailuresOfExit(s1, e, keys[0]);
      if Exit(s1, e, keys[0]).ok {
        FailuresOfExitAll(Exit(s1, e, keys[0]).state, e, keys[1..]);
      }
    }
  }

  lemma {:induction false} FailuresOfCloseAll(s: State, e: Env, keys: seq<string>)
    ensures CloseAll(s, e, keys).state.world.failures >= s.world.failures
    decreases keys
  {
    hide Close;
    if keys != [] {
      FailuresOfExit(s, e, keys[0]);
      if Close(s, e, keys[0]).ok {
        FailuresOfCloseAll(Close(s, e, keys[0]).state, e, keys[1..]);
      }
    }
  }

  lemma {:induction false} FailuresOfSettleAll(s: State, e: Env, keys: seq<string>)
    requires forall k :: k in keys ==> k in s.agents
    ensures SettleAll(s, e, keys).state.world.failures >= s.world.failures
    ensures SettleAll(s, e, keys).state.world.calls >= s.world.calls
    decreases keys
  {
    if keys != [] {
      FailuresOfSettle(s, e, keys[0]);
      SettleKeepsAgents(s, e, keys[0]);
      hide Settle;
      if Settle(s, e, keys[0]).ok {
        FailuresOfSettleAll(Settle(s, e, keys[0]).state, e, keys[1..]);
      }
    }
  }

  // ---- The steps of a clean pass ----

  /** The thread ids of the table stay distinct and known. */
  ghost predicate Tidy(s: State)
  {
    IdsKnown(s) && ThreadsUnique(s.topics)
  }

  lemma CleanExit(s: State, e: Env, k: string)
    requires !e.blocked && Clean(s, Exit(s, e, k)) && k in s.topics && !s.topics[k].muted && s.topics[k].status.Live()
    ensures var out := Exit(s, e, k);
      && out.ok
      && out.state.topics == s.topics[k := s.topics[k].(status := Exited, closed := true, at := e.now)]
      && (IdsKnown(s) ==> IdsKnown(out.state))
  {
  }

  lemma CleanClose(s: State, e: Env, k: string)
    requires !e.blocked && Clean(s, Close(s, e, k)) && OpenAfterExit(s.topics, k)
    ensures var out := Close(s, e, k);
      && out.ok
      && out.state.topics == s.topics[k := s.topics[k].(closed := true, at := e.now)]
      && (IdsKnown(s) ==> IdsKnown(out.state))
  {
  }

  /** The table changed in status and closed flags only, and only from live to finished. */
  ghost predicate Finished(t: Topics, t': Topics, keys: set<string>)
  {
    && t'.Keys == t.Keys
    && (forall k :: k in t && k !in keys ==> t'[k] == t[k])
    && (forall k :: k in t && k in keys ==>
          t'[k].thread == t[k].thread && t'[k].muted == t[k].muted && t'[k].status.Exited? && t'[k].closed)
  }

  ghost function Elements(keys: seq<string>): set<string>
  {
    set k | k in keys
  }

  ghost predicate Distinct(keys: seq<string>)
  {
    forall i, j :: 0 <= i < j < |keys| ==> keys[i] != keys[j]
  }

  lemma {:induction false} CleanExitAll(s: State, e: Env, keys: seq<string>)
    requires !e.blocked && Clean(s, ExitAll(s, e, keys)) && IdsKnown(s) && Distinct(keys)
    requires forall k :: k in keys ==> k in s.topics && !s.topics[k].muted && s.topics[k].status.Live()
    ensures var out := ExitAll(s, e, keys);
      out.ok && Finished(s.topics, out.state.topics, Elements(keys)) && IdsKnown(out.state)
    decreases keys
  {
    hide Exit;
    if keys != [] {
      var k := keys[0];
      var s1 := s.(pending := s.pending - {k});
      var first := Exit(s1, e, k);
      FailuresOfExit(s1, e, k);
      if first.ok {
        FailuresOfExitAll(first.state, e, keys[1..]);
      }
      CleanExit(s1, e, k);
      forall j | j in keys[1..]
        ensures j != k && j in keys
      {
      }
      CleanExitAll(first.state, e, keys[1..]);
      assert Elements(keys) == Elements(keys[1..]) + {k} by {
        assert keys == [k] + keys[1..];
      }
    }
  }

  lemma {:induction false} CleanCloseAll(s: State, e: Env, keys: seq<string>)
    requires !e.blocked && Clean(s, CloseAll(s, e, keys)) && IdsKnown(s) && Distinct(keys)
    requires forall k :: k in keys ==> OpenAfterExit(s.topics, k)
    ensures var out := CloseAll(s, e, keys);
      out.ok && Finished(s.topics, out.state.topics, Elements(keys)) && IdsKnown(out.state)
    decreases keys
  {
    hide Close;
    if keys != [] {
      var k := keys[0];
      var first := Close(s, e, k);
      FailuresOfExit(s, e, k);
      if first.ok {
        FailuresOfCloseAll(first.state, e, keys[1..]);
      }
      CleanClose(s, e, k);
      forall j | j in keys[1..]
        ensures j != k && j in keys
      {
      }
      CleanCloseAll(first.state, e, keys[1..]);
      assert Elements(keys) == Elements(keys[1..]) + {k} by {
        assert keys == [k] + keys[1..];
      }
    }
  }

  /** The entry a clean pass leaves for a live agent that had an entry, or gets one with this name. */
  ghost predicate SettledEntry(had: bool, name: string, x: Entry, a: Agent)
  {
    && x.status.Live()
    && (x.muted ==> had)
    && (!x.muted ==> x.status == a.status && x.name == if had then DesiredName(a) else name)
  }

  ghost predicate OthersKept(t: Topics, t': Topics, k: string)
  {
    forall j :: j != k ==> (j in t <==> j in t') && (j in t ==> t'[j] == t[j])
  }

  lemma CleanCreateNew(s: State, e: Env, a: Agent)
    requires Clean(s, CreateNew(s, e, a)) && a.Id() !in s.topics && Tidy(s) && a.status.Live()
    ensures var out := CreateNew(s, e, a);
      && out.ok && a.Id() in out.state.topics && Tidy(out.state)
      && SettledEntry(false, NewName(e, s.world.calls, a), out.state.topics[a.Id()], a)
      && OthersKept(s.topics, out.state.topics, a.Id())
  {
    Format.TopicNameNotEmpty(DesiredName(a));
    hide Format.TopicName;
  }

  lemma CleanSend(s: State, e: Env, k: string, patch: Patch)
    requires k in s.topics && Clean(s, Send(s, e, k, patch)) && Tidy(s)
    ensures var out := Send(s, e, k, patch);
      && out.ok && Tidy(out.state)
      && out.state.topics == s.topics[k := Patched(s.topics[k], patch, e.now)]
  {
  }

  lemma CleanRefresh(s: State, e: Env, a: Agent)
    requires a.Id() in s.topics && Clean(s, Refresh(s, e, a)) && Tidy(s) && a.status.Live()
    ensures var out := Refresh(s, e, a);
      && out.ok && a.Id() in out.state.topics && Tidy(out.state)
      && SettledEntry(true, "", out.state.topics[a.Id()], a)
      && OthersKept(s.topics, out.state.topics, a.Id())
  {
    hide Send;
    var k := a.Id();
    CleanSend(Reopened(s, k, e.now), e, k, RevivalPatch(s.topics[k], a));
  }

  lemma CleanRevive(s: State, e: Env, a: Agent)
    requires a.Id() in s.topics && Clean(s, Revive(s, e, a)) && Tidy(s) && a.status.Live()
    ensures var out := Revive(s, e, a);
      && out.ok && a.Id() in out.state.topics && Tidy(out.state)
      && SettledEntry(true, "", out.state.topics[a.Id()], a)
      && OthersKept(s.topics, out.state.topics, a.Id())
  {
    hide Refresh, CreateNew, Fail, SettledEntry, OthersKept;
    var k := a.Id();
    if s.topics[k].closed {
      var c := SetClosed(s.world, e.oracle, s.topics[k].thread, false);
      var s1 := s.(world := c.world);
      ReviveFailures(s, e, a);
      assert c.reply.Accepted?;
      CleanRefresh(s1, e, a);
    } else {
      CleanRefresh(s, e, a);
    }
  }

  /** A failed reopen shows in the failures of the whole revival. */
  lemma ReviveFailures(s: State, e: Env, a: Agent)
    requires a.Id() in s.topics && s.topics[a.Id()].closed
    ensures var c := SetClosed(s.world, e.oracle, s.topics[a.Id()].thread, false);
      !c.reply.Accepted? ==> Revive(s, e, a).state.world.failures > s.world.failures
  {
    var c := SetClosed(s.world, e.oracle, s.topics[a.Id()].thread, false);
    FailuresOfCreateNew(Drop(s.(world := c.world), a.Id()), e, a);
  }

  lemma CleanEdit(s: State, e: Env, k: string)
    requires !e.blocked && Clean(s, Edit(s, e, k)) && Tidy(s)
    requires k in s.agents && s.agents[k].status.Live() && k in s.topics && s.topics[k].status.Live()
    ensures var out := Edit(s, e, k);
      && out.ok && k in out.state.topics && Tidy(out.state)
      && SettledEntry(true, "", out.state.topics[k], s.agents[k])
      && OthersKept(s.topics, out.state.topics, k)
  {
    hide Send, IdsKnown, ThreadsUnique;
    var a := s.agents[k];
    var patch := if e.force && s.topics[k].status.Live() then Patch(Some(DesiredName(a)), Some(a.status))
                 else Diff(s.topics, k, a);
    if (!s.topics[k].muted || e.force) && !patch.Empty() {
      CleanSend(s, e, k, patch);
    }
  }

  lemma CleanSettle(s: State, e: Env, k: string)
    requires !e.blocked && Tidy(s)
    requires k in s.agents && s.agents[k].Id() == k && s.agents[k].status.Live()
    requires Clean(s, Settle(s, e, k))
    ensures var out := Settle(s, e, k);
      && out.ok && k in out.state.topics && Tidy(out.state)
      && SettledEntry(k in s.topics, NewName(e, s.world.calls, s.agents[k]), out.state.topics[k], s.agents[k])
      && OthersKept(s.topics, out.state.topics, k)
  {
    hide Edit, Revive, CreateNew, OthersKept, NewName;
    if k in s.topics && s.topics[k].status.Live() {
      CleanEdit(s.(pending := s.pending - {k}), e, k);
    } else if k in s.topics {
      CleanRevive(s, e, s.agents[k]);
    } else {
      CleanCreateNew(s, e, s.agents[k]);
    }
  }

  ghost predicate OutsideKept(t: Topics, t': Topics, keys: set<string>)
  {
    forall j :: j !in keys ==> (j in t <==> j in t') && (j in t ==> t'[j] == t[j])
  }

  /** The number of calls made before the turn of k comes. */
  ghost function Asked(s: State, e: Env, keys: seq<string>, k: string): nat
    requires forall j :: j in keys ==> j in s.agents
    decreases keys
  {
    if keys == [] || keys[0] == k || !Settle(s, e, keys[0]).ok then s.world.calls
    else
      SettleKeepsAgents(s, e, keys[0]);
      Asked(Settle(s, e, keys[0]).state, e, keys[1..], k)
  }

  /** After the keys were settled in turn, each by its own entry. */
  ghost predicate AllSettled(s: State, e: Env, keys: seq<string>, t: Topics)
    requires forall j :: j in keys ==> j in s.agents
  {
    forall k :: k in keys ==>
      k in t && SettledEntry(k in s.topics, NewName(e, Asked(s, e, keys, k), s.agents[k]), t[k], s.agents[k])
  }

  lemma {:induction false} CleanSettleAll(s: State, e: Env, keys: seq<string>)
    requires !e.blocked && Tidy(s) && LiveSet(s.agents) && Distinct(keys)
    requires forall k :: k in keys ==> k in s.agents
    requires Clean(s, SettleAll(s, e, keys))
    ensures var out := SettleAll(s, e, keys);
      && out.ok && Tidy(out.state)
      && OutsideKept(s.topics, out.state.topics, Elements(keys))
      && AllSettled(s, e, keys, out.state.topics)
    decreases keys
  {
    hide Settle, SettledEntry, IdsKnown, ThreadsUnique, NewName;
    if keys != [] {
      var k := keys[0];
      var first := Settle(s, e, k);
      FailuresOfSettle(s, e, k);
      SettleKeepsAgents(s, e, k);
      if first.ok {
        FailuresOfSettleAll(first.state, e, keys[1..]);
      }
      CleanSettle(s, e, k);
      forall j | j in keys[1..]
        ensures j != k && j in keys
      {
      }
      CleanSettleAll(first.state, e, keys[1..]);
      assert keys == [k] + keys[1..];
      assert Elements(keys) == Elements(keys[1..]) + {k};
      forall j | j in keys
        ensures var t := SettleAll(s, e, keys).state.topics;
          j in t && SettledEntry(j in s.topics, NewName(e, Asked(s, e, keys, j), s.agents[j]), t[j], s.agents[j])
      {
        assert j != k ==> j in keys[1..];
      }
    }
  }

  // ---- The whole pass ----

  lemma FilterDistinct(q: seq<string>, keep: string -> bool)
    requires Distinct(q)
    ensures Distinct(Filter(q, keep))
  {
    if q != [] {
      var init := q[..|q| - 1];
      FilterDistinct(init, keep);
      FilterElements(init, keep);
    }
  }

  lemma PassKeysDistinct(t: Topics, live: set<string>)
    ensures Distinct(Orphans(t, live)) && Distinct(Unclosed(t)) && Distinct(SortedStrings(live))
  {
    SortedStringsElements(t.Keys);
    SortedStringsElements(live);
    FilterDistinct(SortedStrings(t.Keys), Parses);
    FilterDistinct(Keys(t), IsOrphan(t, live));
    FilterDistinct(Keys(t), IsOpen(t));
  }

  lemma FinishedKeepsUnique(t: Topics, t': Topics, keys: set<string>)
    requires Finished(t, t', keys) && ThreadsUnique(t)
    ensures ThreadsUnique(t')
  {
    forall j, k | j in t' && k in t' && j != k
      ensures t'[j].thread != t'[k].thread
    {
      assert t'[j].thread == t[j].thread && t'[k].thread == t[k].thread;
    }
  }

  /** After the orphans and the unclosed topics, nothing is left open for an agent that is gone. */
  lemma DeadAreSettled(t1: Topics, t2: Topics, t3: Topics, live: set<string>)
    requires Finished(t1, t2, Elements(Orphans(t1, live))) && Finished(t2, t3, Elements(Unclosed(t2)))
    ensures DeadSettled(t3, live)
  {
    hide Orphans, Unclosed, Parses;
    OrphansElements(t1, live);
    UnclosedElements(t2);
    forall k | k in t3 && Parses(k) && k !in live && !t3[k].muted
      ensures t3[k].status.Exited? && t3[k].closed
    {
      if t1[k].status.Live() {
        assert k in Elements(Orphans(t1, live));
      }
      if !t2[k].closed {
        assert k in Elements(Unclosed(t2));
      }
    }
  }

  /** The call that created the topic of k, were it created, in the pass over the live agents. */
  ghost function Turn(s: State, e: Env, live: map<string, Agent>, k: string): nat
    requires AfterClosing(s, e, live).state.agents == live
  {
    SortedStringsElements(live.Keys);
    Asked(AfterClosing(s, e, live).state, e, SortedStrings(live.Keys), k)
  }

  /** The live agents are settled; a new entry carries the name its creation gave it. */
  ghost predicate LiveSettledOrNew(t: Topics, s: State, e: Env, live: map<string, Agent>)
  {
    && AfterClosing(s, e, live).state.agents == live
    && forall k :: k in live ==>
         k in t && SettledEntry(k in Deduped(s.topics), NewName(e, Turn(s, e, live, k), live[k]), t[k], live[k])
  }

  ghost predicate LiveEntries(t: Topics, live: map<string, Agent>)
  {
    forall k :: k in live ==> k in t && t[k].status.Live()
  }

  lemma PruneKeepsSettled(t: Topics, live: map<string, Agent>)
    requires ThreadsUnique(t) && LiveEntries(t, live) && DeadSettled(t, live.Keys)
    ensures var p := Prune(t, MAPPING_MAX_ENTRIES);
      ThreadsUnique(p) && DeadSettled(p, live.Keys) && Prune(p, MAPPING_MAX_ENTRIES) == p
      && forall k :: k in live ==> k in p && p[k] == t[k]
  {
    hide PrunedKeys;
    PrunedKeysShape(t, MAPPING_MAX_ENTRIES);
    PruneIdempotent(t, MAPPING_MAX_ENTRIES);
  }

  /** The table before the live agents are settled: orphans finished, topics closed. */
  ghost function AfterClosing(s: State, e: Env, live: map<string, Agent>): Out
  {
    var s0 := Start(s, live);
    var s1 := ExitAll(s0, e, Orphans(s0.topics, live.Keys));
    if s1.ok then CloseAll(s1.state, e, Unclosed(s1.state.topics)) else s1
  }

  lemma CleanClosing(s: State, e: Env, live: map<string, Agent>)
    requires !e.blocked && IdsKnown(s) && Clean(s, AfterClosing(s, e, live))
    ensures var out := AfterClosing(s, e, live);
      && out.ok && Tidy(out.state) && DeadSettled(out.state.topics, live.Keys)
      && out.state.topics.Keys == Deduped(s.topics).Keys && out.state.agents == live
  {
    hide ExitAll, CloseAll, Orphans, Unclosed, Deduped, DeadSettled;
    var s0 := Start(s, live);
    StartTidy(s, live);
    var orphans := Orphans(s0.topics, live.Keys);
    var s1 := ExitAll(s0, e, orphans);
    FailuresOfExitAll(s0, e, orphans);
    if s1.ok {
      FailuresOfCloseAll(s1.state, e, Unclosed(s1.state.topics));
    }
    OrphansElements(s0.topics, live.Keys);
    PassKeysDistinct(s0.topics, live.Keys);
    CleanExitAll(s0, e, orphans);
    UnclosedElements(s1.state.topics);
    PassKeysDistinct(s1.state.topics, live.Keys);
    CleanCloseAll(s1.state, e, Unclosed(s1.state.topics));
    AgentsKept(s0, s1.state, e, orphans, Unclosed(s1.state.topics));
    var s2 := CloseAll(s1.state, e, Unclosed(s1.state.topics));
    FinishedKeepsUnique(s0.topics, s1.state.topics, Elements(orphans));
    FinishedKeepsUnique(s1.state.topics, s2.state.topics, Elements(Unclosed(s1.state.topics)));
    DeadAreSettled(s0.topics, s1.state.topics, s2.state.topics, live.Keys);
  }

  lemma StartTidy(s: State, live: map<string, Agent>)
    requires IdsKnown(s)
    ensures Tidy(Start(s, live)) && Start(s, live).topics == Deduped(s.topics) && Start(s, live).agents == live
    ensures Start(s, live).world == s.world
  {
    DedupeKeepsOnePerThread(s.topics);
  }

  lemma ReconcileIs(s: State, e: Env, live: map<string, Agent>)
    requires !e.blocked && AfterClosing(s, e, live).ok
    ensures AfterClosing(s, e, live).state.agents == live
    ensures forall k :: k in SortedStrings(live.Keys) ==> k in live
    ensures var settled := SettleAll(AfterClosing(s, e, live).state, e, SortedStrings(live.Keys));
      Reconcile(s, e, live) == if settled.ok then Out(PruneState(settled.state), true) else settled
  {
    hide ExitAll, CloseAll, SettleAll, Orphans, Unclosed, PruneState;
    var s0 := Start(s, live);
    var s1 := ExitAll(s0, e, Orphans(s0.topics, live.Keys));
    AgentsKept(s0, s1.state, e, Orphans(s0.topics, live.Keys), Unclosed(s1.state.topics));
    SortedStringsElements(live.Keys);
  }

  lemma ReconcileStops(s: State, e: Env, live: map<string, Agent>)
    requires !e.blocked && !AfterClosing(s, e, live).ok
    ensures Reconcile(s, e, live) == AfterClosing(s, e, live)
  {
    hide ExitAll, CloseAll, SettleAll, Orphans, Unclosed, PruneState;
  }

  /** What one clean pass leaves, whatever it started from. */
  lemma CleanPass(s: State, e: Env, live: map<string, Agent>)
    requires !e.blocked && IdsKnown(s) && LiveSet(live) && Clean(s, Reconcile(s, e, live))
    ensures var out := Reconcile(s, e, live);
      var t := out.state.topics;
      && out.ok && IdsKnown(out.state) && out.state.agents == live
      && ThreadsUnique(t) && DeadSettled(t, live.Keys) && Prune(t, MAPPING_MAX_ENTRIES) == t
      && LiveSettledOrNew(t, s, e, live)
  {
    hide Reconcile, SettleAll, AfterClosing, Prune, PrunedKeys, Deduped, DeadSettled, NewName, Asked, IdsKnown,
      ThreadsUnique;
    var mid := AfterClosing(s, e, live);
    var keys := SortedStrings(live.Keys);
    if !mid.ok {
      ReconcileStops(s, e, live);
      CleanClosing(s, e, live);
    } else {
      ReconcileIs(s, e, live);
      var settled := SettleAll(mid.state, e, keys);
      FailuresOfSettleAll(mid.state, e, keys);
      ClosingFailures(s, e, live);
      CleanClosing(s, e, live);
      SortedStringsElements(live.Keys);
      PassKeysDistinct(map[], live.Keys);
      CleanSettleAll(mid.state, e, keys);
      SettleAllKeepsAgents(mid.state, e, keys);
      assert Elements(keys) == live.Keys;
      SettledOutside(mid.state.topics, settled.state.topics, live.Keys);
      PruneKeepsSettled(settled.state.topics, live);
      PruneKeepsIds(settled.state);
    }
  }

  lemma PruneKeepsIds(s: State)
    requires IdsKnown(s)
    ensures IdsKnown(PruneState(s)) && PruneState(s).topics == Prune(s.topics, MAPPING_MAX_ENTRIES)
    ensures PruneState(s).agents == s.agents && PruneState(s).world == s.world
  {
    hide PrunedKeys;
  }

  lemma SettledOutside(t: Topics, t': Topics, live: set<string>)
    requires DeadSettled(t, live) && OutsideKept(t, t', live)
    ensures DeadSettled(t', live)
  {
    hide Parses;
  }

  lemma ClosingFailures(s: State, e: Env, live: map<string, Agent>)
    ensures AfterClosing(s, e, live).state.world.failures >= s.world.failures
  {
    hide ExitAll, CloseAll, Orphans, Unclosed;
    var s0 := Start(s, live);
    FailuresOfExitAll(s0, e, Orphans(s0.topics, live.Keys));
    var s1 := ExitAll(s0, e, Orphans(s0.topics, live.Keys));
    FailuresOfCloseAll(s1.state, e, Unclosed(s1.state.topics));
  }

  lemma {:induction false} SettleAllKeepsAgents(s: State, e: Env, keys: seq<string>)
    requires forall k :: k in keys ==> k in s.agents
    ensures SettleAll(s, e, keys).state.agents == s.agents
    decreases keys
  {
    if keys != [] {
      SettleKeepsAgents(s, e, keys[0]);
      hide Settle;
      if Settle(s, e, keys[0]).ok {
        SettleAllKeepsAgents(Settle(s, e, keys[0]).state, e, keys[1..]);
      }
    }
  }

  lemma NewNameFitsIff(e: Env, call: nat, a: Agent)
    ensures NewName(e, call, a) == DesiredName(a) <==> NameFits(a) || !e.oracle(call).echo
  {
  }

  /**
   From any mapping, one unblocked pass without a failing call reaches the desired state if and only
   if every live agent had an entry, or a name Telegram keeps as it is, or got no name echoed when
   its topic was created.
   */
  lemma CleanPassSettlesIff(s: State, e: Env, live: map<string, Agent>)
    requires !e.blocked && IdsKnown(s) && LiveSet(live) && Clean(s, Reconcile(s, e, live))
    ensures var out := Reconcile(s, e, live);
      && out.ok && out.state.agents == live && AfterClosing(s, e, live).state.agents == live
      && (Settled(out.state.topics, live) <==>
            forall k :: k in live ==>
              k in Deduped(s.topics) || NameFits(live[k]) || !e.oracle(Turn(s, e, live, k)).echo)
  {
    hide Reconcile, Deduped, Prune, Clean, IdsKnown, AfterClosing, Turn, NewName, Fits;
    CleanPass(s, e, live);
    forall k | k in live
      ensures LiveSettled(Reconcile(s, e, live).state.topics, k, live[k]) <==>
                k in Deduped(s.topics) || NameFits(live[k]) || !e.oracle(Turn(s, e, live, k)).echo
    {
      NewNameFitsIff(e, Turn(s, e, live, k), live[k]);
    }
  }

  /** When Telegram echoes every name: if and only if every new agent has a name Telegram keeps. */
  lemma EchoedPassSettlesIff(s: State, e: Env, live: map<string, Agent>)
    requires !e.blocked && IdsKnown(s) && LiveSet(live) && Clean(s, Reconcile(s, e, live))
    requires forall i: nat :: e.oracle(i).echo
    ensures Settled(Reconcile(s, e, live).state.topics, live) <==>
              forall k :: k in live ==> NameFits(live[k]) || k in Deduped(s.topics)
  {
    hide Reconcile, Deduped, Clean, IdsKnown, AfterClosing, Turn, Settled, NameFits;
    CleanPassSettlesIff(s, e, live);
  }

  /** One pass is enough when every agent without an entry has a name Telegram keeps as it is. */
  lemma CleanPassSettles(s: State, e: Env, live: map<string, Agent>)
    requires !e.blocked && IdsKnown(s) && LiveSet(live) && Clean(s, Reconcile(s, e, live))
    requires forall k :: k in live ==> NameFits(live[k]) || k in Deduped(s.topics)
    ensures Reconcile(s, e, live).ok && Settled(Reconcile(s, e, live).state.topics, live)
    ensures Reconcile(s, e, live).state.agents == live
  {
    hide Reconcile, Deduped, Clean, IdsKnown, AfterClosing, Turn, Settled, NameFits;
    CleanPassSettlesIff(s, e, live);
  }

  /** Whatever the names, two clean passes reach it. */
  lemma TwoCleanPassesSettle(s: State, e1: Env, e2: Env, live: map<string, Agent>)
    requires !e1.blocked && !e2.blocked && IdsKnown(s) && LiveSet(live)
    requires Clean(s, Reconcile(s, e1, live))
    requires var s1 := Reconcile(s, e1, live).state; Clean(s1, Reconcile(s1, e2, live))
    ensures var s1 := Reconcile(s, e1, live).state;
      Settled(Reconcile(s1, e2, live).state.topics, live)
  {
    hide Reconcile, Prune, Clean, IdsKnown, Settled, AfterClosing, Turn, NewName;
    CleanPass(s, e1, live);
    var s1 := Reconcile(s, e1, live).state;
    DedupeOfUnique(s1.topics);
    CleanPassSettles(s1, e2, live);
  }
}
