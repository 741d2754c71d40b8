/**
 What a pass after a clean one does, and what Telegram shows then.
 */
module ReconcilerSilence {
  import opened Text
  import opened Ordering
  import opened Agents
  import opened MappingSpec
  import opened Telegram
  import opened ReconcilerSpec
  import opened ReconcilerTruth
  import opened ReconcilerConvergence
  import Format

  lemma FilterNone(q: seq<string>, keep: string -> bool)
    requires forall k :: k in q ==> !keep(k)
    ensures Filter(q, keep) == []
  {
    FilterElements(q, keep);
    if Filter(q, keep) != [] {
      assert Filter(q, keep)[0] in Filter(q, keep);
    }
  }

  lemma NothingToFinish(t: Topics, live: map<string, Agent>)
    requires LiveEntries(t, live) && DeadSettled(t, live.Keys)
    ensures Orphans(t, live.Keys) == [] && Unclosed(t) == []
  {
    hide Parses, Prune;
    KeysElements(t);
    FilterNone(Keys(t), IsOrphan(t, live.Keys));
    FilterNone(Keys(t), IsOpen(t));
  }

  lemma SettledAgentIsSilent(s: State, e: Env, k: string)
    requires !e.force && k in s.agents && LiveSettled(s.topics, k, s.agents[k])
    ensures Settle(s, e, k) == Out(s.(pending := s.pending - {k}), true)
  {
  }

  lemma {:induction false} SettledAgentsAreSilent(s: State, e: Env, keys: seq<string>)
    requires !e.force && forall k :: k in keys ==> k in s.agents && LiveSettled(s.topics, k, s.agents[k])
    ensures var out := SettleAll(s, e, keys);
      && out.ok && out.state == s.(pending := out.state.pending)
    decreases keys
  {
    hide Settle, LiveSettled;
    if keys != [] {
      SettledAgentIsSilent(s, e, keys[0]);
      SettledAgentsAreSilent(s.(pending := s.pending - {keys[0]}), e, keys[1..]);
    }
  }

  lemma PruneStateNothing(s: State)
    requires Prune(s.topics, MAPPING_MAX_ENTRIES) == s.topics
    ensures PruneState(s) == s
  {
    hide PrunedKeys;
    assert PrunedKeys(s.topics, MAPPING_MAX_ENTRIES) !! s.topics.Keys by {
      assert Prune(s.topics, MAPPING_MAX_ENTRIES).Keys == s.topics.Keys - PrunedKeys(s.topics, MAPPING_MAX_ENTRIES);
    }
  }

  lemma BlockedPass(s: State, e: Env, live: map<string, Agent>)
    requires e.blocked
    ensures Reconcile(s, e, live) == Out(s, true)
  {
  }

  /** Without duplicates, orphans and open topics of the gone, a pass only settles the live agents. */
  lemma OnlySettling(s: State, e: Env, live: map<string, Agent>)
    requires !e.blocked && ThreadsUnique(s.topics) && LiveEntries(s.topics, live) && DeadSettled(s.topics, live.Keys)
    ensures forall k :: k in SortedStrings(live.Keys) <==> k in live
    ensures var settled := SettleAll(s.(agents := live), e, SortedStrings(live.Keys));
      Reconcile(s, e, live) == if settled.ok then Out(PruneState(settled.state), true) else settled
  {
    hide PruneState, Parses, Prune, SettleAll, Reconcile;
    assert Deduped(s.topics) == s.topics by { DedupeOfUnique(s.topics); }
    hide Deduped;
    NothingToFinish(s.topics, live);
    hide Orphans, Unclosed, DeadSettled;
    assert AfterClosing(s, e, live) == Out(s.(agents := live), true);
    ReconcileIs(s, e, live);
    SortedStringsElements(live.Keys);
  }

  /**
   In the desired state a pass makes no Telegram call, whatever Telegram would answer and whether
   or not writes are blocked, and changes no entry.
   */
  lemma SettledPassIsSilent(s: State, e: Env, live: map<string, Agent>)
    requires Settled(s.topics, live) && LiveSet(live) && !e.force
    ensures var out := Reconcile(s, e, live);
      && out.ok
      && out.state.world == s.world
      && out.state.topics == s.topics
      && out.state.released == s.released
  {
    hide Prune, PruneState, Reconcile, SettleAll, DeadSettled, ThreadsUnique;
    if e.blocked {
      BlockedPass(s, e, live);
    } else {
      var s0 := s.(agents := live);
      OnlySettling(s, e, live);
      SettledAgentsAreSilent(s0, e, SortedStrings(live.Keys));
      PruneStateNothing(SettleAll(s0, e, SortedStrings(live.Keys)).state);
    }
  }

  /** A live agent whose entry is off in name or status costs a call. */
  lemma UnsettledAgentCalls(s: State, e: Env, k: string)
    requires !e.blocked && !e.force && k in s.agents && k in s.topics && s.topics[k].status.Live()
    requires !LiveSettled(s.topics, k, s.agents[k])
    ensures Settle(s, e, k).state.world.calls > s.world.calls
  {
    hide Send;
    FailuresOfSend(s.(pending := s.pending - {k}), e, k, Diff(s.topics, k, s.agents[k]));
  }

  lemma {:induction false} UnsettledAgentsCall(s: State, e: Env, keys: seq<string>, k: string)
    requires !e.blocked && !e.force && k in keys
    requires forall j :: j in keys ==> j in s.agents && j in s.topics && s.topics[j].status.Live()
    requires !LiveSettled(s.topics, k, s.agents[k])
    ensures SettleAll(s, e, keys).state.world.calls > s.world.calls
    decreases keys
  {
    hide Settle, LiveSettled;
    var j := keys[0];
    SettleKeepsAgents(s, e, j);
    if LiveSettled(s.topics, j, s.agents[j]) {
      SettledAgentIsSilent(s, e, j);
      UnsettledAgentsCall(s.(pending := s.pending - {j}), e, keys[1..], k);
    } else {
      UnsettledAgentCalls(s, e, j);
      if Settle(s, e, j).ok {
        FailuresOfSettleAll(Settle(s, e, j).state, e, keys[1..]);
      }
    }
  }

  lemma PruneKeepsWorld(s: State)
    ensures PruneState(s).world == s.world
  {
  }

  /** After a clean pass the table is in the desired state but for names and statuses. */
  lemma CleanPassLeaves(s: State, e: Env, live: map<string, Agent>)
    requires !e.blocked && IdsKnown(s) && LiveSet(live) && Clean(s, Reconcile(s, e, live))
    ensures var t := Reconcile(s, e, live).state.topics;
      ThreadsUnique(t) && LiveEntries(t, live) && DeadSettled(t, live.Keys) && Prune(t, MAPPING_MAX_ENTRIES) == t
  {
    hide Reconcile, Prune, Clean, IdsKnown, AfterClosing, Turn, NewName, Deduped;
    CleanPass(s, e, live);
  }

  /**
   Reconcile is idempotent: after a clean pass, a pass over the same agents makes no call and changes
   no entry if and only if the first one reached the desired state; otherwise it makes a call.
   */
  lemma SecondPassSilentIffSettled(s: State, e1: Env, e2: Env, live: map<string, Agent>)
    requires !e1.blocked && !e2.blocked && !e2.force && IdsKnown(s) && LiveSet(live) && Clean(s, Reconcile(s, e1, live))
    ensures var s1 := Reconcile(s, e1, live).state;
      var out := Reconcile(s1, e2, live);
      if Settled(s1.topics, live) then out.ok && out.state.world == s1.world && out.state.topics == s1.topics
      else out.state.world.calls > s1.world.calls
  {
    hide Reconcile, SettleAll, PruneState, Prune, Clean, IdsKnown, LiveSettled, ThreadsUnique, DeadSettled;
    CleanPassLeaves(s, e1, live);
    var s1 := Reconcile(s, e1, live).state;
    if Settled(s1.topics, live) {
      SettledPassIsSilent(s1, e2, live);
    } else {
      var k :| k in live && !LiveSettled(s1.topics, k, live[k]);
      OnlySettling(s1, e2, live);
      UnsettledAgentsCall(s1.(agents := live), e2, SortedStrings(live.Keys), k);
      PruneKeepsWorld(SettleAll(s1.(agents := live), e2, SortedStrings(live.Keys)).state);
    }
  }

  /** In terms of the names: the second pass is silent if and only if every new one was kept or not echoed. */
  lemma SecondPassIsSilentIff(s: State, e1: Env, e2: Env, live: map<string, Agent>)
    requires !e1.blocked && !e2.blocked && !e2.force && IdsKnown(s) && LiveSet(live) && Clean(s, Reconcile(s, e1, live))
    ensures AfterClosing(s, e1, live).state.agents == live
    ensures var s1 := Reconcile(s, e1, live).state;
      var out := Reconcile(s1, e2, live);
      (out.ok && out.state.world == s1.world && out.state.topics == s1.topics) <==>
      forall k :: k in live ==>
        k in Deduped(s.topics) || NameFits(live[k]) || !e1.oracle(Turn(s, e1, live, k)).echo
  {
    hide Reconcile, Settled, Deduped, Clean, IdsKnown, AfterClosing, Turn, NameFits;
    CleanPassSettlesIff(s, e1, live);
    SecondPassSilentIffSettled(s, e1, e2, live);
  }

  /** When every new name is kept, the second pass does nothing, blocked or not. */
  lemma SecondPassIsSilent(s: State, e1: Env, e2: Env, live: map<string, Agent>)
    requires !e1.blocked && !e2.force && IdsKnown(s) && LiveSet(live) && Clean(s, Reconcile(s, e1, live))
    requires forall k :: k in live ==> NameFits(live[k]) || k in Deduped(s.topics)
    ensures var s1 := Reconcile(s, e1, live).state;
      var out := Reconcile(s1, e2, live);
      out.ok && out.state.world == s1.world && out.state.topics == s1.topics
  {
    hide Reconcile, Settled, Deduped, Clean, IdsKnown, NameFits;
    CleanPassSettles(s, e1, live);
    SettledPassIsSilent(Reconcile(s, e1, live).state, e2, live);
  }

  // ---- What Telegram shows ----

  /** The topic of a live agent after a clean pass. */
  ghost predicate ShowsLive(t: Thread, a: Agent)
  {
    t.status == a.status && !t.closed && (NameFits(a) ==> t.name == DesiredName(a))
  }

  /**
   After a clean pass from a sound mapping the entries of live agents are open, unless muted, and
   every unmuted topic that still exists shows what it should: a live agent's its status, open, under
   its name when Telegram keeps it; the others' closed and, but for an exit not told, exited.
   */
  lemma TelegramShowsDesired(s: State, e: Env, live: map<string, Agent>, hushed: iset<string>)
    requires !e.blocked && LiveSet(live) && Sound(s, false, hushed) && Clean(s, Reconcile(s, e, live))
    ensures var s' := Reconcile(s, e, live).state;
      && LiveEntries(s'.topics, live)
      && (forall k :: k in live && !s'.topics[k].muted ==> !s'.topics[k].closed)
      && forall k :: k in s'.topics && s'.topics[k].thread in s'.world.threads && !s'.topics[k].muted ==>
           var t := s'.world.threads[s'.topics[k].thread];
           if k in live then ShowsLive(t, live[k])
           else Parses(k) ==> t.closed && (k !in hushed ==> t.status.Exited?)
  {
    hide Reconcile, Prune, Clean, IdsKnown, AfterClosing, Turn, Deduped, NothingLost, Parses, Format.TopicName,
      ThreadsUnique;
    CleanPass(s, e, live);
    ReconcileSound(s, e, live, false, hushed);
  }
}
