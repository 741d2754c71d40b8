/**
 When the reconciler calls nobody: while writes are blocked, and after an answer that is fatal.
 */
module ReconcilerStops {
  import opened Text
  import opened Ordering
  import opened Agents
  import opened MappingSpec
  import opened Telegram
  import opened ReconcilerSpec
  import opened ReconcilerTruth
  import opened ReconcilerConvergence

  // ---- Fatal answers ----

  /** No right to write, a bad token, another poller, a migrated chat, an ended context. */
  ghost predicate Fatal(r: Reply)
  {
    r.Forbidden? || r.Unauthorized? || r.Cancelled?
  }

  /** No call was made after one that was answered fatally, and the handler failed exactly when one was. */
  ghost predicate StopsAtFatal(s: State, e: Env, out: Out)
  {
    && out.state.world.calls >= s.world.calls
    && (forall i :: s.world.calls <= i < out.state.world.calls - 1 ==> !Fatal(e.oracle(i).reply))
    && (out.ok <==>
          (out.state.world.calls > s.world.calls ==> !Fatal(e.oracle(out.state.world.calls - 1).reply)))
  }

  lemma GoesOn(s: State, e: Env, first: Out, out: Out)
    requires StopsAtFatal(s, e, first)
    requires if first.ok then StopsAtFatal(first.state, e, out) else out == first
    ensures StopsAtFatal(s, e, out)
  {
    hide Fatal;
  }

  lemma SameCalls(s: State, s1: State, e: Env, out: Out)
    requires s1.world.calls == s.world.calls && StopsAtFatal(s1, e, out)
    ensures StopsAtFatal(s, e, out)
  {
    hide Fatal;
  }

  lemma SendStops(s: State, e: Env, k: string, patch: Patch)
    requires k in s.topics
    ensures StopsAtFatal(s, e, Send(s, e, k, patch))
  {
  }

  lemma CreateNewStops(s: State, e: Env, a: Agent)
    ensures StopsAtFatal(s, e, CreateNew(s, e, a))
  {
    hide LinkedEntry, DesiredName;
  }

  lemma CloseStops(s: State, e: Env, k: string)
    ensures StopsAtFatal(s, e, Close(s, e, k))
  {
  }

  /** The edit that shows the exited icon; ok is false when its answer was fatal. */
  ghost function ExitIcon(s: State, e: Env, k: string): Out
    requires k in s.topics
  {
    var c := EditTopic(s.world, e.oracle, s.topics[k].thread, Patch(None, Some(Exited)));
    var s1 := s.(world := c.world);
    if c.reply.Accepted? then Out(s1.(topics := MarkExited(s.topics, k, e.now)), true) else Fail(s1, k, c.reply)
  }

  lemma ExitIconStops(s: State, e: Env, k: string)
    requires k in s.topics
    ensures StopsAtFatal(s, e, ExitIcon(s, e, k))
  {
  }

  lemma FinishStops(s: State, e: Env, k: string)
    ensures StopsAtFatal(s, e, Finish(s, e, k))
  {
    hide EditTopic, Close, Fail, StopsAtFatal;
    if k !in s.topics || e.blocked {
      NothingStops(s, s, e);
    } else {
      ExitIconStops(s, e, k);
      var first := ExitIcon(s, e, k);
      var c := EditTopic(s.world, e.oracle, s.topics[k].thread, Patch(None, Some(Exited)));
      if c.reply.Accepted? {
        CloseStops(first.state, e, k);
        GoesOn(s, e, first, Close(first.state, e, k));
      }
    }
  }

  lemma NothingStops(s: State, s1: State, e: Env)
    requires s1.world.calls == s.world.calls
    ensures StopsAtFatal(s, e, Out(s1, true))
  {
  }

  lemma ExitStops(s: State, e: Env, k: string)
    ensures StopsAtFatal(s, e, Exit(s, e, k))
  {
    hide EditTopic, Close, Fail, StopsAtFatal;
    FinishStops(s, e, k);
    CloseStops(s, e, k);
    if k !in s.topics || e.blocked || s.topics[k].muted {
      NothingStops(s, Exit(s, e, k).state, e);
    }
  }

  lemma RefreshStops(s: State, e: Env, a: Agent)
    requires a.Id() in s.topics
    ensures StopsAtFatal(s, e, Refresh(s, e, a))
  {
    hide Send, StopsAtFatal;
    var r := Reopened(s, a.Id(), e.now);
    SendStops(r, e, a.Id(), RevivalPatch(s.topics[a.Id()], a));
    SameCalls(s, r, e, Refresh(s, e, a));
  }

  lemma ReviveStops(s: State, e: Env, a: Agent)
    requires a.Id() in s.topics
    ensures StopsAtFatal(s, e, Revive(s, e, a))
  {
    hide Refresh, CreateNew;
    var k := a.Id();
    if !s.topics[k].closed {
      RefreshStops(s, e, a);
    } else {
      var c := SetClosed(s.world, e.oracle, s.topics[k].thread, false);
      var s1 := s.(world := c.world);
      assert !c.reply.Accepted? && !c.reply.Gone? ==> StopsAtFatal(s, e, Fail(s1, k, c.reply));
      assert c.reply.Accepted? || c.reply.Gone? ==> StopsAtFatal(s, e, Out(s1, true));
      hide SetClosed, StopsAtFatal, Fail;
      RefreshStops(s1, e, a);
      CreateNewStops(Drop(s1, k), e, a);
      SameCalls(s1, Drop(s1, k), e, CreateNew(Drop(s1, k), e, a));
      if c.reply.Accepted? {
        GoesOn(s, e, Out(s1, true), Refresh(s1, e, a));
      } else if c.reply.Gone? {
        GoesOn(s, e, Out(s1, true), CreateNew(Drop(s1, k), e, a));
      }
    }
  }

  lemma CreateStops(s: State, e: Env, a: Agent)
    ensures StopsAtFatal(s, e, Create(s, e, a))
  {
    hide Revive, CreateNew, StopsAtFatal;
    NothingStops(s, s, e);
    CreateNewStops(s, e, a);
    if a.Id() in s.topics {
      ReviveStops(s, e, a);
    }
  }

  lemma EditStops(s: State, e: Env, k: string)
    ensures StopsAtFatal(s, e, Edit(s, e, k))
  {
    hide Create, Send, StopsAtFatal;
    NothingStops(s, s, e);
    if k in s.agents && k !in s.topics {
      CreateStops(s, e, s.agents[k]);
    } else if k in s.agents {
      var a := s.agents[k];
      SendStops(s, e, k, if e.force && s.topics[k].status.Live() then Patch(Some(DesiredName(a)), Some(a.status))
                         else Diff(s.topics, k, a));
    }
  }

  lemma SettleStops(s: State, e: Env, k: string)
    requires k in s.agents
    ensures StopsAtFatal(s, e, Settle(s, e, k))
  {
    hide Create, Edit, StopsAtFatal;
    CreateStops(s, e, s.agents[k]);
    var s1 := s.(pending := s.pending - {k});
    EditStops(s1, e, k);
    SameCalls(s, s1, e, Edit(s1, e, k));
  }

  lemma {:induction false} ExitAllStops(s: State, e: Env, keys: seq<string>)
    ensures StopsAtFatal(s, e, ExitAll(s, e, keys))
    decreases keys
  {
    hide Exit, StopsAtFatal;
    if keys == [] {
      NothingStops(s, s, e);
    } else {
      var s1 := s.(pending := s.pending - {keys[0]});
      var first := Exit(s1, e, keys[0]);
      ExitStops(s1, e, keys[0]);
      SameCalls(s, s1, e, first);
      if first.ok {
        ExitAllStops(first.state, e, keys[1..]);
      }
      GoesOn(s, e, first, ExitAll(s, e, keys));
    }
  }

  lemma {:induction false} CloseAllStops(s: State, e: Env, keys: seq<string>)
    ensures StopsAtFatal(s, e, CloseAll(s, e, keys))
    decreases keys
  {
    hide Close, StopsAtFatal;
    if keys == [] {
      NothingStops(s, s, e);
    } else {
      var first := Close(s, e, keys[0]);
      CloseStops(s, e, keys[0]);
      if first.ok {
        CloseAllStops(first.state, e, keys[1..]);
      }
      GoesOn(s, e, first, CloseAll(s, e, keys));
    }
  }

  lemma {:induction false} SettleAllStops(s: State, e: Env, keys: seq<string>)
    requires forall k :: k in keys ==> k in s.agents
    ensures StopsAtFatal(s, e, SettleAll(s, e, keys))
    decreases keys
  {
    hide Settle, StopsAtFatal;
    if keys == [] {
      NothingStops(s, s, e);
    } else {
      var first := Settle(s, e, keys[0]);
      SettleStops(s, e, keys[0]);
      SettleKeepsAgents(s, e, keys[0]);
      if first.ok {
        SettleAllStops(first.state, e, keys[1..]);
      }
      GoesOn(s, e, first, SettleAll(s, e, keys));
    }
  }

  lemma {:induction false} EditAllStops(s: State, e: Env, keys: seq<string>)
    ensures StopsAtFatal(s, e, EditAll(s, e, keys))
    decreases keys
  {
    hide Edit, StopsAtFatal;
    if keys == [] {
      NothingStops(s, s, e);
    } else {
      var first := Edit(s, e, keys[0]);
      EditStops(s, e, keys[0]);
      if first.ok {
        EditAllStops(first.state, e, keys[1..]);
      }
      GoesOn(s, e, first, EditAll(s, e, keys));
    }
  }

  lemma PrunedStops(s: State, e: Env, settled: Out)
    requires StopsAtFatal(s, e, settled)
    ensures settled.ok ==> StopsAtFatal(s, e, Out(PruneState(settled.state), true))
  {
    hide Prune, PrunedKeys;
  }

  lemma ClosingStops(s: State, e: Env, live: map<string, Agent>)
    ensures StopsAtFatal(s, e, AfterClosing(s, e, live))
  {
    hide ExitAll, CloseAll, Orphans, Unclosed, StopsAtFatal, Deduped;
    var s0 := Start(s, live);
    var s1 := ExitAll(s0, e, Orphans(s0.topics, live.Keys));
    ExitAllStops(s0, e, Orphans(s0.topics, live.Keys));
    SameCalls(s, s0, e, s1);
    CloseAllStops(s1.state, e, Unclosed(s1.state.topics));
    GoesOn(s, e, s1, AfterClosing(s, e, live));
  }

  /** A pass ends with the first fatal answer: it makes no call after it, and fails exactly then. */
  lemma FatalEndsPass(s: State, e: Env, live: map<string, Agent>)
    ensures StopsAtFatal(s, e, Reconcile(s, e, live))
  {
    hide StopsAtFatal, AfterClosing, SettleAll, PruneState, Passes, Start;
    if e.blocked {
      NothingStops(s, s, e);
    } else {
      var mid := AfterClosing(s, e, live);
      ClosingStops(s, e, live);
      if mid.ok {
        ReconcileIs(s, e, live);
        var settled := SettleAll(mid.state, e, SortedStrings(live.Keys));
        SettleAllStops(mid.state, e, SortedStrings(live.Keys));
        GoesOn(s, e, mid, settled);
        PrunedStops(s, e, settled);
      } else {
        ReconcileStops(s, e, live);
      }
    }
  }

  /** So does every other handler. */
  lemma FatalEndsHandler(s: State, e: Env, kind: EventKind, a: Agent)
    ensures StopsAtFatal(s, e, Handle(s, e, kind, a)) && StopsAtFatal(s, e, Flush(s, e))
  {
    hide StopsAtFatal, Create, Edit, Exit, EditAll;
    var k := a.Id();
    var gone, known := s.(pending := s.pending - {k}, agents := s.agents - {k}), s.(agents := s.agents[k := a]);
    ExitStops(gone, e, k);
    SameCalls(s, gone, e, Exit(gone, e, k));
    CreateStops(known, e, a);
    SameCalls(s, known, e, Create(known, e, a));
    EditStops(known, e, k);
    SameCalls(s, known, e, Edit(known, e, k));
    NothingStops(s, known.(pending := known.pending + {k}), e);
    var s0 := s.(pending := {});
    EditAllStops(s0, e, SortedStrings(s.pending));
    SameCalls(s, s0, e, EditAll(s0, e, SortedStrings(s.pending)));
  }

  /** The entry of a topic that Telegram answers is gone is forgotten, and no other. */
  lemma GoneIsForgotten(s: State, e: Env, k: string, patch: Patch)
    requires k in s.topics && (s.topics[k].thread !in s.world.threads || e.oracle(s.world.calls).reply.Gone?)
    requires e.oracle(s.world.calls).reply.Accepted? || e.oracle(s.world.calls).reply.Gone?
    ensures Send(s, e, k, patch).ok && Send(s, e, k, patch).state.topics == s.topics - {k}
    ensures !e.blocked && !s.topics[k].closed ==>
              Close(s, e, k).ok && Close(s, e, k).state.topics == s.topics - {k}
  {
  }

  // ---- Blocked writes ----

  lemma BlockedEdit(s: State, e: Env, k: string)
    requires e.blocked
    ensures Edit(s, e, k) == Out(s, true)
  {
  }

  lemma {:induction false} BlockedEdits(s: State, e: Env, keys: seq<string>)
    requires e.blocked
    ensures EditAll(s, e, keys) == Out(s, true)
    decreases keys
  {
    hide Edit;
    if keys != [] {
      BlockedEdit(s, e, keys[0]);
      BlockedEdits(s, e, keys[1..]);
    }
  }

  /** While writes are blocked no event makes a call, or changes a name, a status or a closed flag. */
  lemma BlockedIsSilent(s: State, e: Env, ev: Event)
    requires e.blocked && !ev.ClosedByHand? && !ev.ReopenedByHand?
    ensures var s' := Step(s, e, ev); s'.world.calls == s.world.calls && s'.topics == s.topics
  {
    hide Edit, EditAll;
    match ev
    case Registry(kind, a) => BlockedEdit(s.(agents := s.agents[a.Id() := a]), e, a.Id());
    case Fire(k) => BlockedEdit(s, e, k);
    case FlushAll => BlockedEdits(s.(pending := {}), e, SortedStrings(s.pending));
    case _ =>
  }

  /** Nor does one by hand make a call. */
  lemma BlockedByHandIsSilent(s: State, e: Env, thread: int)
    requires e.blocked
    ensures Step(s, e, ClosedByHand(thread)).world.calls == s.world.calls
    ensures Step(s, e, ReopenedByHand(thread)).world.calls == s.world.calls
  {
    hide Edit, KeyOf;
    var key := KeyOf(s.topics, thread);
    if key.Some? {
      var r := Reopened(ByHand(s, thread, false), key.value, e.now);
      BlockedEdit(r.(pending := r.pending - {key.value}), e.(force := true), key.value);
    }
  }
}
