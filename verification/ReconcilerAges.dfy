/**
 The age of an entry, which decides between duplicates, what is pruned and what is swept: it is the time
 of the last handler that changed the entry.
 */
module ReconcilerAges {
  import opened Text
  import opened Ordering
  import opened Agents
  import opened MappingSpec
  import opened Telegram
  import opened ReconcilerSpec
  import opened ReconcilerTruth
  import opened ReconcilerConvergence

  /** Every entry is as it was or was changed now. */
  ghost predicate Stamped(t: Topics, t': Topics, now: int)
  {
    forall k :: k in t' ==> (k in t && t'[k] == t[k]) || t'[k].at == now
  }

  lemma StampedOn(t: Topics, u: Topics, v: Topics, now: int)
    requires Stamped(t, u, now) && Stamped(u, v, now)
    ensures Stamped(t, v, now)
  {
  }

  lemma StampedSame(t: Topics, now: int)
    ensures Stamped(t, t, now)
  {
  }

  lemma SendStamps(s: State, e: Env, k: string, patch: Patch)
    requires k in s.topics
    ensures Stamped(s.topics, Send(s, e, k, patch).state.topics, e.now)
  {
    hide EditTopic;
  }

  lemma CreateNewStamps(s: State, e: Env, a: Agent)
    ensures Stamped(s.topics, CreateNew(s, e, a).state.topics, e.now)
  {
    hide CreateTopic, DesiredName;
  }

  lemma CloseStamps(s: State, e: Env, k: string)
    ensures Stamped(s.topics, Close(s, e, k).state.topics, e.now)
  {
    hide SetClosed;
  }

  lemma FinishStamps(s: State, e: Env, k: string)
    ensures Stamped(s.topics, Finish(s, e, k).state.topics, e.now)
  {
    hide EditTopic, Close;
    if k in s.topics {
      var c := EditTopic(s.world, e.oracle, s.topics[k].thread, Patch(None, Some(Exited)));
      CloseStamps(s.(world := c.world, topics := MarkExited(s.topics, k, e.now)), e, k);
    }
  }

  lemma ExitStamps(s: State, e: Env, k: string)
    ensures Stamped(s.topics, Exit(s, e, k).state.topics, e.now)
  {
    hide EditTopic, Close;
    CloseStamps(s, e, k);
    FinishStamps(s, e, k);
  }

  lemma ReopenedStamps(s: State, k: string, now: int)
    ensures Stamped(s.topics, Reopened(s, k, now).topics, now)
  {
  }

  lemma RefreshStamps(s: State, e: Env, a: Agent)
    requires a.Id() in s.topics
    ensures Stamped(s.topics, Refresh(s, e, a).state.topics, e.now)
  {
    hide Send, Stamped;
    var r := Reopened(s, a.Id(), e.now);
    ReopenedStamps(s, a.Id(), e.now);
    SendStamps(r, e, a.Id(), RevivalPatch(s.topics[a.Id()], a));
    StampedOn(s.topics, r.topics, Refresh(s, e, a).state.topics, e.now);
  }

  lemma CreateStamps(s: State, e: Env, a: Agent)
    ensures Stamped(s.topics, Create(s, e, a).state.topics, e.now)
  {
    hide Refresh, CreateNew, SetClosed;
    var k := a.Id();
    CreateNewStamps(s, e, a);
    if k in s.topics {
      var s1 := s.(world := SetClosed(s.world, e.oracle, s.topics[k].thread, false).world);
      RefreshStamps(s, e, a);
      RefreshStamps(s1, e, a);
      CreateNewStamps(Drop(s1, k), e, a);
    }
  }

  lemma EditStamps(s: State, e: Env, k: string)
    ensures Stamped(s.topics, Edit(s, e, k).state.topics, e.now)
  {
    hide Create, Send;
    if k in s.agents && k !in s.topics {
      CreateStamps(s, e, s.agents[k]);
    } else if k in s.agents {
      var a := s.agents[k];
      SendStamps(s, e, k, if e.force && s.topics[k].status.Live() then Patch(Some(DesiredName(a)), Some(a.status))
                          else Diff(s.topics, k, a));
    }
  }

  lemma {:induction false} EditAllStamps(s: State, e: Env, keys: seq<string>)
    ensures Stamped(s.topics, EditAll(s, e, keys).state.topics, e.now)
    decreases keys
  {
    hide Edit, Stamped;
    StampedSame(s.topics, e.now);
    if keys != [] {
      EditStamps(s, e, keys[0]);
      var first := Edit(s, e, keys[0]);
      if first.ok {
        EditAllStamps(first.state, e, keys[1..]);
        StampedOn(s.topics, first.state.topics, EditAll(s, e, keys).state.topics, e.now);
      }
    }
  }

  lemma {:induction false} ExitAllStamps(s: State, e: Env, keys: seq<string>)
    ensures Stamped(s.topics, ExitAll(s, e, keys).state.topics, e.now)
    decreases keys
  {
    hide Exit, Stamped;
    StampedSame(s.topics, e.now);
    if keys != [] {
      var s1 := s.(pending := s.pending - {keys[0]});
      ExitStamps(s1, e, keys[0]);
      var first := Exit(s1, e, keys[0]);
      if first.ok {
        ExitAllStamps(first.state, e, keys[1..]);
        StampedOn(s.topics, first.state.topics, ExitAll(s, e, keys).state.topics, e.now);
      }
    }
  }

  lemma {:induction false} CloseAllStamps(s: State, e: Env, keys: seq<string>)
    ensures Stamped(s.topics, CloseAll(s, e, keys).state.topics, e.now)
    decreases keys
  {
    hide Close, Stamped;
    StampedSame(s.topics, e.now);
    if keys != [] {
      CloseStamps(s, e, keys[0]);
      var first := Close(s, e, keys[0]);
      if first.ok {
        CloseAllStamps(first.state, e, keys[1..]);
        StampedOn(s.topics, first.state.topics, CloseAll(s, e, keys).state.topics, e.now);
      }
    }
  }

  lemma SettleStamps(s: State, e: Env, k: string)
    requires k in s.agents
    ensures Stamped(s.topics, Settle(s, e, k).state.topics, e.now)
  {
    hide Create, Edit, Stamped;
    CreateStamps(s, e, s.agents[k]);
    EditStamps(s.(pending := s.pending - {k}), e, k);
  }

  lemma {:induction false} SettleAllStamps(s: State, e: Env, keys: seq<string>)
    requires forall k :: k in keys ==> k in s.agents
    ensures Stamped(s.topics, SettleAll(s, e, keys).state.topics, e.now)
    decreases keys
  {
    hide Settle, Stamped;
    StampedSame(s.topics, e.now);
    if keys != [] {
      SettleStamps(s, e, keys[0]);
      SettleKeepsAgents(s, e, keys[0]);
      var first := Settle(s, e, keys[0]);
      if first.ok {
        SettleAllStamps(first.state, e, keys[1..]);
        StampedOn(s.topics, first.state.topics, SettleAll(s, e, keys).state.topics, e.now);
      }
    }
  }

  lemma StartStamps(s: State, live: map<string, Agent>, now: int)
    ensures Stamped(s.topics, Start(s, live).topics, now)
  {
    hide Beats;
  }

  lemma PruneStamps(s: State, now: int)
    ensures Stamped(s.topics, PruneState(s).topics, now)
  {
    hide PrunedKeys;
  }

  lemma ReconcileStamps(s: State, e: Env, live: map<string, Agent>)
    ensures Stamped(s.topics, Reconcile(s, e, live).state.topics, e.now)
  {
    hide Stamped, ExitAll, CloseAll, SettleAll, PruneState, Orphans, Unclosed, SortedStrings;
    StampedSame(s.topics, e.now);
    if !e.blocked {
      var s0 := Start(s, live);
      StartStamps(s, live, e.now);
      hide Start;
      var s1 := ExitAll(s0, e, Orphans(s0.topics, s0.agents.Keys));
      ExitAllStamps(s0, e, Orphans(s0.topics, s0.agents.Keys));
      StampedOn(s.topics, s0.topics, s1.state.topics, e.now);
      if s1.ok {
        var s2 := CloseAll(s1.state, e, Unclosed(s1.state.topics));
        CloseAllStamps(s1.state, e, Unclosed(s1.state.topics));
        StampedOn(s.topics, s1.state.topics, s2.state.topics, e.now);
        if s2.ok {
          AgentsKept(s0, s1.state, e, Orphans(s0.topics, s0.agents.Keys), Unclosed(s1.state.topics));
          SortedStringsElements(s0.agents.Keys);
          var s3 := SettleAll(s2.state, e, SortedStrings(s0.agents.Keys));
          SettleAllStamps(s2.state, e, SortedStrings(s0.agents.Keys));
          StampedOn(s.topics, s2.state.topics, s3.state.topics, e.now);
          PruneStamps(s3.state, e.now);
          StampedOn(s.topics, s3.state.topics, PruneState(s3.state).topics, e.now);
        }
      }
    }
  }

  lemma HandleStamps(s: State, e: Env, kind: EventKind, a: Agent)
    ensures Stamped(s.topics, Handle(s, e, kind, a).state.topics, e.now)
  {
    hide Create, Edit, Exit, Stamped;
    var k := a.Id();
    StampedSame(s.topics, e.now);
    ExitStamps(s.(pending := s.pending - {k}, agents := s.agents - {k}), e, k);
    CreateStamps(s.(agents := s.agents[k := a]), e, a);
    EditStamps(s.(agents := s.agents[k := a]), e, k);
  }

  lemma {:induction false} SweepStamps(s: State, e: Env, keys: seq<string>)
    ensures Stamped(s.topics, SweepAll(s, e, keys).state.topics, e.now)
    decreases keys
  {
    hide DeleteTopic;
    if keys != [] {
      if keys[0] !in s.topics {
        SweepStamps(s, e, keys[1..]);
      } else {
        var s1 := s.(world := DeleteTopic(s.world, e.oracle, s.topics[keys[0]].thread).world);
        SweepStamps(s1, e, keys[1..]);
        SweepStamps(Drop(s1, keys[0]), e, keys[1..]);
      }
    }
  }

  lemma ByHandStamps(s: State, e: Env, thread: int)
    ensures Stamped(s.topics, Step(s, e, ClosedByHand(thread)).topics, e.now)
    ensures Stamped(s.topics, Step(s, e, ReopenedByHand(thread)).topics, e.now)
  {
    hide KeyOf, Edit, Finish;
    var key := KeyOf(s.topics, thread);
    if key.Some? {
      var k := key.value;
      var r := Reopened(ByHand(s, thread, false), k, e.now);
      ReopenedStamps(ByHand(s, thread, false), k, e.now);
      EditStamps(r.(pending := r.pending - {k}), e.(force := true), k);
      FinishStamps(r, e, k);
    }
  }

  /** Whatever happens, an entry that is not as it was carries the time of the handler that changed it. */
  lemma ChangedIsStamped(s: State, e: Env, ev: Event)
    ensures Stamped(s.topics, Step(s, e, ev).topics, e.now)
  {
    hide Stamped, Handle, Edit, EditAll, Reconcile, SweepAll, OnClosed, OnReopened, ByHand, KeyOf;
    StampedSame(s.topics, e.now);
    match ev
    case Registry(kind, a) => HandleStamps(s, e, kind, a);
    case Fire(k) => EditStamps(s, e, k);
    case FlushAll => EditAllStamps(s.(pending := {}), e, SortedStrings(s.pending));
    case Pass(live) => ReconcileStamps(s, e, live);
    case SweepPass(maxAge, canDelete) => SweepStamps(s, e, Batch(s.topics, e.now, maxAge));
    case Deleted(_) =>
    case ClosedByHand(thread) => ByHandStamps(s, e, thread);
    case ReopenedByHand(thread) => ByHandStamps(s, e, thread);
  }
}
