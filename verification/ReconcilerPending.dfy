/**
 No status change is forgotten: while calls are accepted, what a topic's entry says is the agent's
 latest report, or an edit of it is still to come.
 */
module ReconcilerPending {
  import opened Text
  import opened Ordering
  import opened Agents
  import opened MappingSpec
  import opened Telegram
  import opened ReconcilerSpec
  import opened ReconcilerTruth
  import opened ReconcilerConvergence
  import opened ReconcilerSilence
  import Format

  /** The entry says what the agent reported last; Telegram may have clamped the name. */
  ghost predicate UpToDate(x: Entry, a: Agent)
  {
    x.status == a.status && (x.name == DesiredName(a) || x.name == Format.TopicName(DesiredName(a)))
  }

  /** Every live unmuted entry of a known agent is up to date, but for the keys owed an edit. */
  ghost predicate Abreast(s: State, owed: set<string>)
  {
    forall k :: k in s.agents && k in s.topics && s.topics[k].status.Live() && !s.topics[k].muted && k !in owed
      ==> UpToDate(s.topics[k], s.agents[k])
  }

  predicate HasLiveEntry(s: State, k: string)
  {
    k in s.topics && s.topics[k].status.Live()
  }

  // ---- One agent ----

  /** Only k's entry changed, and it is up to date if it is a live, unmuted one of a known agent. */
  ghost predicate Caught(s: State, s': State, k: string)
  {
    && s'.agents == s.agents
    && OthersKept(s.topics, s'.topics, k)
    && (k in s.agents && k in s'.topics && s'.topics[k].status.Live() && !s'.topics[k].muted ==>
          UpToDate(s'.topics[k], s.agents[k]))
  }

  lemma CaughtKeeps(s: State, s': State, k: string, owed: set<string>)
    requires Abreast(s, owed) && Caught(s, s', k)
    ensures Abreast(s', owed - {k})
  {
    hide UpToDate;
  }

  lemma SettledIsUpToDate(e: Env, call: nat, had: bool, x: Entry, a: Agent)
    requires SettledEntry(had, NewName(e, call, a), x, a) || SettledEntry(true, "", x, a)
    ensures x.status.Live() && (!x.muted ==> UpToDate(x, a))
  {
    hide Format.TopicName;
  }

  lemma EditKeepsAgents(s: State, e: Env, k: string)
    ensures Edit(s, e, k).state.agents == s.agents
  {
    hide CreateTopic, SetClosed, EditTopic, RevivalPatch, LinkedEntry, Create;
    if k in s.agents {
      CreateKeepsAgents(s, e, s.agents[k]);
    }
  }

  /** A creation, or a revival, without a failing call. */
  lemma CreateCatchesUp(s: State, e: Env, a: Agent)
    requires !e.blocked && Tidy(s) && a.status.Live() && Clean(s, Create(s, e, a))
    requires a.Id() in s.agents && s.agents[a.Id()] == a
    requires a.Id() !in s.topics || !s.topics[a.Id()].status.Live()
    ensures Caught(s, Create(s, e, a).state, a.Id()) && Create(s, e, a).ok
    ensures HasLiveEntry(Create(s, e, a).state, a.Id())
  {
    hide Revive, CreateNew, Tidy, OthersKept, UpToDate, NewName, SettledEntry;
    CreateKeepsAgents(s, e, a);
    var k := a.Id();
    if k in s.topics {
      CleanRevive(s, e, a);
      SettledIsUpToDate(e, 0, true, Revive(s, e, a).state.topics[k], a);
    } else {
      CleanCreateNew(s, e, a);
      SettledIsUpToDate(e, s.world.calls, false, CreateNew(s, e, a).state.topics[k], a);
    }
  }

  /** An edit without a failing call, of any agent. */
  lemma EditCatchesUp(s: State, e: Env, k: string)
    requires !e.blocked && Tidy(s) && AgentsKnown(s, false) && Clean(s, Edit(s, e, k))
    ensures Caught(s, Edit(s, e, k).state, k) && Edit(s, e, k).ok
    ensures HasLiveEntry(s, k) ==> HasLiveEntry(Edit(s, e, k).state, k)
  {
    hide Create, Send, Tidy, UpToDate, NewName, SettledEntry;
    EditKeepsAgents(s, e, k);
    if k in s.agents {
      var a := s.agents[k];
      if k !in s.topics {
        CreateCatchesUp(s, e, a);
      } else if s.topics[k].status.Live() {
        CleanEdit(s, e, k);
        SettledIsUpToDate(e, 0, true, Edit(s, e, k).state.topics[k], a);
      }
    }
  }

  // ---- Moves ----

  /** The reconciler with the keys whose timer has fired and whose edit has not begun. */
  datatype Desk = Desk(state: State, due: set<string>)

  /** A timer fires, or an event is handled. */
  datatype Move = Ring(key: string) | Handled(env: Env, event: Event)

  ghost function Moved(d: Desk, m: Move): Desk
  {
    match m
    case Ring(k) =>
      if k in d.state.pending then Desk(d.state.(pending := d.state.pending - {k}), d.due + {k}) else d
    case Handled(e, ev) =>
      Desk(Step(d.state, e, ev), if ev.Fire? then d.due - {ev.key} else d.due)
  }

  /** The event creates, revives or edits topics at once. */
  ghost predicate Edits(s: State, ev: Event)
  {
    match ev
    case Registry(kind, a) => kind.Appeared? || (kind.Changed? && !HasLiveEntry(s, a.Id()))
    case Fire(_) => true
    case FlushAll => true
    case Pass(_) => true
    case ReopenedByHand(_) => true
    case _ => false
  }

  /** Agents are reported as they must be, and whatever edits topics is allowed to and meets no failure. */
  ghost predicate Undisturbed(d: Desk, m: Move)
  {
    m.Handled? ==>
      && Legal(d.state, m.event, false)
      && (Edits(d.state, m.event) ==>
            !m.env.blocked && Step(d.state, m.env, m.event).world.failures == d.state.world.failures)
  }

  ghost function AllMoved(d: Desk, ms: seq<Move>): Desk
  {
    if ms == [] then d else Moved(AllMoved(d, ms[..|ms| - 1]), ms[|ms| - 1])
  }

  ghost predicate AllUndisturbed(d: Desk, ms: seq<Move>)
  {
    ms == []
    || (AllUndisturbed(d, ms[..|ms| - 1]) && Undisturbed(AllMoved(d, ms[..|ms| - 1]), ms[|ms| - 1]))
  }

  /** What is up to date on the desk, but for the edits armed and due. */
  ghost predicate NoneForgotten(d: Desk)
  {
    Abreast(d.state, d.state.pending + d.due)
  }

  lemma SoundIsTidy(s: State, hushed: iset<string>)
    requires Sound(s, false, hushed)
    ensures Tidy(s) && AgentsKnown(s, false)
  {
  }

  // ---- Registry events ----

  lemma FailuresOfHandled(s: State, e: Env, kind: EventKind, a: Agent)
    requires Handle(s, e, kind, a).state.world.failures == s.world.failures && !kind.GoneAgent?
    ensures var s1, k := s.(agents := s.agents[a.Id() := a]), a.Id();
      if k !in s.topics || !s.topics[k].status.Live() then Clean(s1, Create(s1, e, a))
      else kind.Appeared? ==> Clean(s1, Edit(s1, e, k))
  {
    hide Create, Edit, Exit;
  }

  lemma HandleKeeps(s: State, e: Env, kind: EventKind, a: Agent, owed: set<string>)
    requires Tidy(s) && AgentsKnown(s, false) && Abreast(s, s.pending + owed)
    requires kind.GoneAgent? || GoodAgent(a, false)
    requires Edits(s, Registry(kind, a)) ==>
      !e.blocked && Handle(s, e, kind, a).state.world.failures == s.world.failures
    ensures var s' := Handle(s, e, kind, a).state; Abreast(s', s'.pending + owed)
  {
    hide Create, Edit, Exit, UpToDate, Tidy;
    var k := a.Id();
    if kind.GoneAgent? {
      GoneKeeps(s, e, a, owed);
    } else {
      var s1 := s.(agents := s.agents[k := a]);
      assert Tidy(s1) by { TidyAgents(s, s1.agents); }
      assert Abreast(s1, s.pending + owed + {k});
      if k !in s.topics || !s.topics[k].status.Live() {
        FailuresOfHandled(s, e, kind, a);
        CreateCatchesUp(s1, e, a);
        CaughtKeeps(s1, Create(s1, e, a).state, k, s.pending + owed + {k});
        CreateKeepsPending(s1, e, a);
      } else if kind.Appeared? {
        FailuresOfHandled(s, e, kind, a);
        EditCatchesUp(s1, e, k);
        CaughtKeeps(s1, Edit(s1, e, k).state, k, s.pending + owed + {k});
        EditKeepsPending(s1, e, k);
      }
    }
  }

  lemma TidyAgents(s: State, agents: map<string, Agent>)
    requires Tidy(s)
    ensures Tidy(s.(agents := agents))
  {
  }

  lemma CreateKeepsPending(s: State, e: Env, a: Agent)
    ensures Create(s, e, a).state.pending == s.pending
  {
    hide CreateTopic, SetClosed, EditTopic, RevivalPatch, LinkedEntry;
  }

  lemma EditKeepsPending(s: State, e: Env, k: string)
    ensures Edit(s, e, k).state.pending == s.pending
  {
    hide Create, EditTopic;
    if k in s.agents {
      CreateKeepsPending(s, e, s.agents[k]);
    }
  }

  ghost predicate RestKept(s: State, s': State, k: string)
  {
    s'.agents == s.agents && s'.pending == s.pending && OthersKept(s.topics, s'.topics, k)
  }

  lemma CloseKeepsRest(s: State, e: Env, k: string)
    ensures RestKept(s, Close(s, e, k).state, k)
  {
    hide SetClosed;
  }

  lemma FinishKeepsRest(s: State, e: Env, k: string)
    ensures RestKept(s, Finish(s, e, k).state, k)
  {
    hide EditTopic, Close;
    if k in s.topics {
      var c := EditTopic(s.world, e.oracle, s.topics[k].thread, Patch(None, Some(Exited)));
      CloseKeepsRest(s.(world := c.world, topics := MarkExited(s.topics, k, e.now)), e, k);
    }
  }

  lemma ExitKeepsRest(s: State, e: Env, k: string)
    ensures RestKept(s, Exit(s, e, k).state, k)
  {
    hide Finish, Close;
    CloseKeepsRest(s, e, k);
    FinishKeepsRest(s, e, k);
    if k in s.topics {
      LiveExitIsFinish(s, e, k);
    }
  }

  lemma LiveExitIsFinish(s: State, e: Env, k: string)
    requires k in s.topics
    ensures s.topics[k].status.Live() && !s.topics[k].muted ==> Exit(s, e, k) == Finish(s, e, k)
  {
    hide EditTopic, Close;
  }

  lemma GoneKeeps(s: State, e: Env, a: Agent, owed: set<string>)
    requires Abreast(s, s.pending + owed)
    ensures var s' := Handle(s, e, GoneAgent, a).state; Abreast(s', s'.pending + owed)
  {
    hide Exit, UpToDate;
    var k := a.Id();
    ExitKeepsRest(s.(pending := s.pending - {k}, agents := s.agents - {k}), e, k);
  }

  /** An agent reported as live has a live entry from then on, up to date, muted or owed an edit. */
  lemma ReportedHasTopic(s: State, e: Env, kind: EventKind, a: Agent)
    requires Tidy(s) && AgentsKnown(s, false) && GoodAgent(a, false) && !kind.GoneAgent?
    requires Edits(s, Registry(kind, a)) ==>
      !e.blocked && Handle(s, e, kind, a).state.world.failures == s.world.failures
    ensures var s', k := Handle(s, e, kind, a).state, a.Id();
      && HasLiveEntry(s', k) && k in s'.agents && s'.agents[k] == a
      && (s'.topics[k].muted || k in s'.pending || UpToDate(s'.topics[k], a))
  {
    hide Create, Edit, Exit, UpToDate, Tidy;
    var k, s1 := a.Id(), s.(agents := s.agents[a.Id() := a]);
    assert Tidy(s1) by { TidyAgents(s, s1.agents); }
    if !HasLiveEntry(s, k) {
      FailuresOfHandled(s, e, kind, a);
      CreateCatchesUp(s1, e, a);
    } else if kind.Appeared? {
      FailuresOfHandled(s, e, kind, a);
      EditCatchesUp(s1, e, k);
    }
  }

  /** The entry of an agent that is gone says exited and closed, when no call fails. */
  lemma GoneIsFinished(s: State, e: Env, a: Agent)
    requires !e.blocked && Handle(s, e, GoneAgent, a).state.world.failures == s.world.failures
    ensures var s', k := Handle(s, e, GoneAgent, a).state, a.Id();
      && k !in s'.agents && k !in s'.pending
      && (k in s.topics ==> k in s'.topics && s'.topics[k].status.Exited? && s'.topics[k].closed)
  {
    hide Close, SetClosed;
    var k := a.Id();
    var s1 := s.(pending := s.pending - {k}, agents := s.agents - {k});
    ExitKeepsRest(s1, e, k);
    if k in s.topics && !s.topics[k].muted {
      if s.topics[k].status.Live() {
        CleanExit(s1, e, k);
      } else if !s.topics[k].closed {
        CleanClose(s1, e, k);
      } else {
        ClosedAlready(s1, e, k);
      }
    }
  }

  lemma ClosedAlready(s: State, e: Env, k: string)
    requires k in s.topics && s.topics[k].closed
    ensures Close(s, e, k).state == s
  {
  }

  // ---- Edits in a row ----

  lemma {:induction false} FailuresOfEdits(s: State, e: Env, keys: seq<string>)
    ensures EditAll(s, e, keys).state.world.failures >= s.world.failures
    decreases keys
  {
    hide Edit;
    if keys != [] {
      FailuresOfEdit(s, e, keys[0]);
      if Edit(s, e, keys[0]).ok {
        FailuresOfEdits(Edit(s, e, keys[0]).state, e, keys[1..]);
      }
    }
  }

  lemma {:induction false} EditAllCatchesUp(s: State, e: Env, keys: seq<string>, owed: set<string>,
                                            hushed: iset<string>)
    requires !e.blocked && Sound(s, false, hushed) && Abreast(s, owed) && Clean(s, EditAll(s, e, keys))
    ensures Abreast(EditAll(s, e, keys).state, owed - Elements(keys))
    ensures EditAll(s, e, keys).state.pending == s.pending
    decreases keys
  {
    hide Sound, Edit, Abreast, Tidy, Caught;
    if keys == [] {
      assert owed - Elements(keys) == owed;
    } else {
      var k := keys[0];
      var first := Edit(s, e, k);
      FailuresOfEdit(s, e, k);
      if first.ok {
        FailuresOfEdits(first.state, e, keys[1..]);
      }
      SoundIsTidy(s, hushed);
      EditCatchesUp(s, e, k);
      CaughtKeeps(s, first.state, k, owed);
      EditKeepsPending(s, e, k);
      EditSound(s, e, k, false, hushed);
      EditAllCatchesUp(first.state, e, keys[1..], owed - {k}, hushed);
      assert Elements(keys) == Elements(keys[1..]) + {k} by {
        assert keys == [k] + keys[1..];
      }
      assert owed - {k} - Elements(keys[1..]) == owed - Elements(keys);
    }
  }

  /** After a flush nothing armed is owed any more. */
  lemma FlushCatchesUp(s: State, e: Env, owed: set<string>, hushed: iset<string>)
    requires !e.blocked && Sound(s, false, hushed) && Abreast(s, s.pending + owed) && Clean(s, Flush(s, e))
    ensures Abreast(Flush(s, e).state, owed) && Flush(s, e).state.pending == {}
  {
    hide EditAll, Sound, UpToDate, SortedStrings;
    SortedStringsElements(s.pending);
    PendingIrrelevant(s, {}, false, hushed);
    EditAllCatchesUp(s.(pending := {}), e, SortedStrings(s.pending), s.pending + owed, hushed);
    assert Elements(SortedStrings(s.pending)) == s.pending;
  }

  // ---- A whole pass ----

  /** After a pass nothing at all is owed, whatever was owed or had failed before. */
  lemma PassCatchesUp(s: State, e: Env, live: map<string, Agent>)
    requires !e.blocked && IdsKnown(s) && LiveSet(live) && Clean(s, Reconcile(s, e, live))
    ensures Abreast(Reconcile(s, e, live).state, {})
  {
    hide Reconcile, Deduped, Prune, IdsKnown, AfterClosing, Turn, NewName, UpToDate, SettledEntry, Clean;
    CleanPass(s, e, live);
    var t := Reconcile(s, e, live).state.topics;
    forall k | k in live && k in t && t[k].status.Live() && !t[k].muted
      ensures UpToDate(t[k], live[k])
    {
      SettledIsUpToDate(e, Turn(s, e, live, k), k in Deduped(s.topics), t[k], live[k]);
    }
  }

  lemma OwedMore(s: State, owed: set<string>, more: set<string>)
    requires Abreast(s, owed) && owed <= more
    ensures Abreast(s, more)
  {
    hide UpToDate;
  }

  // ---- Sweeps and operators ----

  /** Entries may go, and threads; what stays is as it was. */
  ghost predicate OnlyFewer(s: State, s': State)
  {
    && s'.agents == s.agents && s'.pending == s.pending
    && forall k :: k in s'.topics ==> k in s.topics && s'.topics[k] == s.topics[k]
  }

  lemma FewerKeeps(s: State, s': State, owed: set<string>)
    requires Abreast(s, owed) && OnlyFewer(s, s')
    ensures Abreast(s', owed)
  {
    hide UpToDate;
  }

  lemma {:induction false} SweepOnlyFewer(s: State, e: Env, keys: seq<string>)
    ensures OnlyFewer(s, SweepAll(s, e, keys).state)
    decreases keys
  {
    hide DeleteTopic;
    if keys != [] {
      if keys[0] !in s.topics {
        SweepOnlyFewer(s, e, keys[1..]);
      } else {
        var s1 := s.(world := DeleteTopic(s.world, e.oracle, s.topics[keys[0]].thread).world);
        SweepOnlyFewer(s1, e, keys[1..]);
        SweepOnlyFewer(Drop(s1, keys[0]), e, keys[1..]);
      }
    }
  }

  lemma ClosedKeeps(s: State, e: Env, thread: int, owed: set<string>)
    requires Abreast(s, s.pending + owed)
    ensures var s' := Step(s, e, ClosedByHand(thread)); Abreast(s', s'.pending + owed)
  {
    hide UpToDate, KeyOf;
  }

  lemma ReopenedKeeps(s: State, e: Env, thread: int, owed: set<string>, hushed: iset<string>)
    requires !e.blocked && Sound(s, false, hushed) && Abreast(s, s.pending + owed)
    requires Step(s, e, ReopenedByHand(thread)).world.failures == s.world.failures
    ensures var s' := Step(s, e, ReopenedByHand(thread)); Abreast(s', s'.pending + owed)
  {
    hide UpToDate, KeyOf, Edit, Finish, Truthful, NothingLost;
    var key := KeyOf(s.topics, thread);
    if thread in s.world.threads && key.Some? {
      var k := key.value;
      var r := Reopened(ByHand(s, thread, false), k, e.now);
      assert Abreast(r, s.pending + owed + {k});
      if k in s.agents {
        var r1 := r.(pending := r.pending - {k});
        EditCatchesUp(r1, e.(force := true), k);
        CaughtKeeps(r1, Edit(r1, e.(force := true), k).state, k, s.pending + owed + {k});
        EditKeepsPending(r1, e.(force := true), k);
      } else {
        FinishKeepsRest(r, e, k);
      }
    }
  }

  /** A topic reopened by hand is served again: a live agent's is up to date, another one finished. */
  lemma ReopenedIsServed(s: State, e: Env, thread: int, k: string, hushed: iset<string>)
    requires !e.blocked && Sound(s, false, hushed) && thread in s.world.threads
    requires Answers(s.topics, thread, k) && Parses(k)
    requires Step(s, e, ReopenedByHand(thread)).world.failures == s.world.failures
    ensures var s' := Step(s, e, ReopenedByHand(thread));
      && k in s'.topics && !s'.topics[k].muted
      && (if k in s.agents then
            && !s'.topics[k].closed
            && (HasLiveEntry(s, k) ==> HasLiveEntry(s', k) && UpToDate(s'.topics[k], s.agents[k]))
          else s'.topics[k].status.Exited? && s'.topics[k].closed)
  {
    hide UpToDate, KeyOf, Edit, Finish, Truthful, NothingLost, Parses, Holds;
    KeyOfIs(s.topics, thread, k);
    var r := Reopened(ByHand(s, thread, false), k, e.now);
    if k in s.agents {
      var r1 := r.(pending := r.pending - {k});
      EditCatchesUp(r1, e.(force := true), k);
      EditKeepsFlags(r1, e.(force := true), k);
    } else {
      CleanFinish(r, e, k);
    }
  }

  lemma KeyOfIs(t: Topics, thread: int, k: string)
    requires Answers(t, thread, k) && Parses(k)
    ensures KeyOf(t, thread) == Some(k)
  {
    hide Parses, Answers;
    if KeyOf(t, thread).Some? {
      AnswerUnique(t, thread, k, KeyOf(t, thread).value);
    }
  }

  /** An edit without a failing call changes neither the mute nor the closed flag. */
  lemma EditKeepsFlags(s: State, e: Env, k: string)
    requires !e.blocked && k in s.topics && Clean(s, Edit(s, e, k))
    ensures var s' := Edit(s, e, k).state;
      k in s'.topics && s'.topics[k].muted == s.topics[k].muted && s'.topics[k].closed == s.topics[k].closed
  {
    hide Create, Format.TopicName;
  }

  lemma CleanFinish(s: State, e: Env, k: string)
    requires !e.blocked && k in s.topics && !s.topics[k].closed && Clean(s, Finish(s, e, k))
    ensures var t := Finish(s, e, k).state.topics;
      k in t && t[k].status.Exited? && t[k].closed && t[k].muted == s.topics[k].muted
  {
    hide Format.TopicName;
  }

  /** A forced edit is sent even when the entry looks right; then the topic shows it whatever was there. */
  lemma ForcedEditRewrites(s: State, e: Env, k: string)
    requires e.force && !e.blocked && k in s.agents && HasLiveEntry(s, k)
    ensures var out, thread := Edit(s, e, k), s.topics[k].thread;
      && out.state.world.calls == s.world.calls + 1
      && (e.oracle(s.world.calls).reply.Accepted? && thread in s.world.threads ==>
            && thread in out.state.world.threads
            && out.state.world.threads[thread].name == Format.TopicName(DesiredName(s.agents[k]))
            && out.state.world.threads[thread].status == s.agents[k].status)
  {
    hide Create, Format.TopicName;
  }

  // ---- Runs ----

  /** A timer that fires leaves the edit due; the edit, and only it, pays what is due. */
  lemma FireKeeps(s: State, e: Env, k: string, due: set<string>, hushed: iset<string>)
    requires !e.blocked && Sound(s, false, hushed) && Abreast(s, s.pending + due) && Clean(s, Edit(s, e, k))
    ensures var s' := Edit(s, e, k).state;
      && s'.pending == s.pending && Abreast(s', (s.pending + due) - {k}) && Abreast(s', s'.pending + (due - {k}))
  {
    hide UpToDate, Edit, Sound, Abreast, Tidy;
    SoundIsTidy(s, hushed);
    EditCatchesUp(s, e, k);
    CaughtKeeps(s, Edit(s, e, k).state, k, s.pending + due);
    EditKeepsPending(s, e, k);
    OwedMore(Edit(s, e, k).state, (s.pending + due) - {k}, s.pending + (due - {k}));
  }

  lemma MoveKeeps(d: Desk, m: Move, hushed: iset<string>)
    requires Sound(d.state, false, hushed) && NoneForgotten(d) && Undisturbed(d, m)
    ensures NoneForgotten(Moved(d, m))
  {
    hide Sound, Abreast, Handle, Edit, Flush, Reconcile, SweepAll, OnClosed, OnReopened, ByHand, KeyOf, Legal, Tidy;
    match m
    case Ring(k) =>
      RingKeeps(d, k);
    case Handled(e, ev) =>
      var s := d.state;
      SoundIsTidy(s, hushed);
      match ev {
        case Registry(kind, a) => {
          LegalRegistry(s, kind, a);
          HandleKeeps(s, e, kind, a, d.due);
        }
        case Fire(k) => {
          FireKeeps(s, e, k, d.due, hushed);
        }
        case FlushAll => {
          FlushCatchesUp(s, e, d.due, hushed);
          assert {} + d.due == d.due;
        }
        case Pass(live) => {
          LegalPass(s, live);
          TidyIds(s);
          PassCatchesUp(s, e, live);
          OwedMore(Reconcile(s, e, live).state, {}, Reconcile(s, e, live).state.pending + d.due);
        }
        case SweepPass(maxAge, canDelete) => {
          SweepOnlyFewer(s, e, Batch(s.topics, e.now, maxAge));
          FewerKeeps(s, Step(s, e, ev), s.pending + d.due);
        }
        case Deleted(thread) => {
          FewerKeeps(s, Step(s, e, ev), s.pending + d.due);
        }
        case ClosedByHand(thread) => {
          ClosedKeeps(s, e, thread, d.due);
        }
        case ReopenedByHand(thread) => {
          ReopenedKeeps(s, e, thread, d.due, hushed);
        }
      }
  }

  lemma RingKeeps(d: Desk, k: string)
    requires NoneForgotten(d)
    ensures NoneForgotten(Moved(d, Ring(k)))
  {
    hide UpToDate;
  }

  lemma LegalRegistry(s: State, kind: EventKind, a: Agent)
    requires Legal(s, Registry(kind, a), false)
    ensures kind.GoneAgent? || GoodAgent(a, false)
  {
  }

  lemma LegalPass(s: State, live: map<string, Agent>)
    requires Legal(s, Pass(live), false)
    ensures LiveSet(live)
  {
  }

  lemma TidyIds(s: State)
    requires Tidy(s)
    ensures IdsKnown(s)
  {
  }

  lemma MoveSound(d: Desk, m: Move, hushed: iset<string>)
    requires Sound(d.state, false, hushed) && Undisturbed(d, m)
    ensures Sound(Moved(d, m).state, false, Liars(Moved(d, m).state))
  {
    hide Sound, Step, Legal, ExitUntold;
    match m
    case Ring(k) =>
      PendingIrrelevant(d.state, d.state.pending - {k}, false, hushed);
      OnlyLiars(Moved(d, m).state, false, hushed);
    case Handled(e, ev) =>
      HushUntold(d.state, e, ev, false, hushed);
      OnlyLiars(Moved(d, m).state, false, hushed + UntoldExits(d.state, e, ev));
  }

  /**
   Over any run in which whatever edits topics is allowed to and meets no failure, every live, unmuted
   entry of a known agent has the status and the name reported last, or its edit is armed or due.
   */
  lemma {:induction false} NothingForgotten(d: Desk, ms: seq<Move>, hushed: iset<string>)
    requires Sound(d.state, false, hushed) && NoneForgotten(d) && AllUndisturbed(d, ms)
    ensures NoneForgotten(AllMoved(d, ms)) && Sound(AllMoved(d, ms).state, false, Liars(AllMoved(d, ms).state))
  {
    hide Sound, NoneForgotten, Moved, Undisturbed;
    if ms == [] {
      OnlyLiars(d.state, false, hushed);
    } else {
      var n := |ms| - 1;
      var before := AllMoved(d, ms[..n]);
      NothingForgotten(d, ms[..n], hushed);
      MoveKeeps(before, ms[n], Liars(before.state));
      MoveSound(before, ms[n], Liars(before.state));
    }
  }
}
