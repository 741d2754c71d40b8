/**
 The mapping tells the truth: what every handler keeps, whatever Telegram answers.
 */
module ReconcilerTruth {
  import opened Text
  import opened Ordering
  import opened Agents
  import opened MappingSpec
  import opened Telegram
  import opened ReconcilerSpec
  import Format

  /** Telegram keeps the name as it is. */
  predicate Fits(name: string)
  {
    Format.TopicName(name) == name
  }

  /**
   The entry says what its topic shows. Telegram may have clamped the name, and the topic of a muted
   live agent may have been closed by hand.
   */
  ghost predicate Shows(e: Entry, t: Thread)
  {
    && (t.name == e.name || t.name == Format.TopicName(e.name))
    && t.status == e.status
    && (t.closed == e.closed || (e.muted && e.status.Live() && t.closed))
  }

  /** The entry says something of its topic that the topic does not show. */
  ghost predicate Lies(s: State, k: string)
  {
    && k in s.topics && s.topics[k].thread in s.world.threads
    && !Shows(s.topics[k], s.world.threads[s.topics[k].thread])
  }

  /**
   An entry whose exit was not told may say exited and, while it is muted, closed of a topic that is
   not; its name is right all the same.
   */
  ghost predicate Tells(e: Entry, t: Thread, untold: bool)
  {
    if untold && !e.status.Live() then
      && (t.name == e.name || t.name == Format.TopicName(e.name))
      && (t.closed == e.closed || (e.muted && e.closed))
    else Shows(e, t)
  }

  /** Every entry whose topic still exists says what the topic shows, but for the exits not told. */
  ghost predicate Truthful(s: State, hushed: iset<string>)
  {
    forall k :: k in s.topics && s.topics[k].thread in s.world.threads ==>
      Tells(s.topics[k], s.world.threads[s.topics[k].thread], k in hushed)
  }

  /** Every topic ever created still has an entry, or its entry was given up knowingly. */
  ghost predicate NothingLost(s: State)
  {
    forall id :: id in s.world.created && id !in s.released ==>
      exists k :: k in s.topics && s.topics[k].thread == id
  }

  ghost predicate IdsKnown(s: State)
  {
    Ids(s.world) && forall k :: k in s.topics ==> s.topics[k].thread < s.world.nextId
  }

  /** A live agent; with exact, one whose name Telegram keeps as it is. */
  ghost predicate GoodAgent(a: Agent, exact: bool)
  {
    a.status.Live() && (exact ==> Fits(DesiredName(a)))
  }

  ghost predicate AgentsKnown(s: State, exact: bool)
  {
    forall k :: k in s.agents ==> s.agents[k].Id() == k && GoodAgent(s.agents[k], exact)
  }

  /** The topic of a live agent is not recorded as closed unless it is muted. */
  ghost predicate OpenWhileLive(x: Entry)
  {
    x.status.Live() && !x.muted ==> !x.closed
  }

  ghost predicate GoodEntry(x: Entry, exact: bool)
  {
    OpenWhileLive(x) && (exact ==> Fits(x.name))
  }

  /**
   Of all names, or, with exact, of names Telegram keeps only; the exits of the hushed keys may not
   have been told to Telegram.
   */
  ghost predicate Sound(s: State, exact: bool, hushed: iset<string>)
  {
    && Truthful(s, hushed) && NothingLost(s) && IdsKnown(s)
    && AgentsKnown(s, exact) && ThreadsUnique(s.topics)
    && forall k :: k in s.topics ==> GoodEntry(s.topics[k], exact)
  }

  // ---- Changes that keep soundness ----

  lemma SameTable(s: State, s': State, exact: bool, hushed: iset<string>)
    requires Sound(s, exact, hushed) && s'.topics == s.topics && AgentsKnown(s', exact) && s'.released == s.released
    requires s'.world.threads == s.world.threads && s'.world.created == s.world.created
    requires s'.world.nextId == s.world.nextId
    ensures Sound(s', exact, hushed)
  {
  }

  lemma DropSound(s: State, k: string, exact: bool, hushed: iset<string>)
    requires Sound(s, exact, hushed)
    ensures Sound(Drop(s, k), exact, hushed)
  {
    var s' := Drop(s, k);
    forall id | id in s'.world.created && id !in s'.released
      ensures exists j :: j in s'.topics && s'.topics[j].thread == id
    {
      var j :| j in s.topics && s.topics[j].thread == id;
      assert j != k;
      assert j in s'.topics;
    }
  }

  /** An entry and its topic changed alike. */
  lemma BothChanged(s: State, s': State, k: string, x: Entry, exact: bool, hushed: iset<string>)
    requires Sound(s, exact, hushed) && k in s.topics && s'.topics == s.topics[k := x]
    requires x.thread == s.topics[k].thread && GoodEntry(x, exact)
    requires s'.agents == s.agents && s'.released == s.released
    requires s'.world.created == s.world.created && s'.world.nextId == s.world.nextId
    requires s'.world.threads.Keys == s.world.threads.Keys
    requires forall id :: id in s.world.threads && id != x.thread ==> s'.world.threads[id] == s.world.threads[id]
    requires x.thread in s.world.threads ==> Tells(x, s'.world.threads[x.thread], k in hushed)
    ensures Sound(s', exact, hushed)
  {
    forall id | id in s'.world.created && id !in s'.released
      ensures exists j :: j in s'.topics && s'.topics[j].thread == id
    {
      var j :| j in s.topics && s.topics[j].thread == id;
      assert j in s'.topics && s'.topics[j].thread == id;
    }
  }

  lemma FailSound(s: State, k: string, reply: Reply, exact: bool, hushed: iset<string>)
    requires Sound(s, exact, hushed)
    ensures Sound(Fail(s, k, reply).state, exact, hushed)
  {
    DropSound(s, k, exact, hushed);
  }

  // ---- Single topics ----

  lemma CreateNewSound(s: State, e: Env, a: Agent, exact: bool, hushed: iset<string>)
    requires Sound(s, exact, hushed) && a.Id() !in s.topics && GoodAgent(a, exact)
    ensures Sound(CreateNew(s, e, a).state, exact, hushed)
  {
    hide Format.TopicName;
    var c := CreateTopic(s.world, e.oracle, DesiredName(a), a.status);
    var s1 := s.(world := c.world);
    if c.reply.Accepted? {
      var s' := CreateNew(s, e, a).state;
      var k := a.Id();
      forall id | id in s'.world.created && id !in s'.released
        ensures exists j :: j in s'.topics && s'.topics[j].thread == id
      {
        if id == c.thread {
          assert k in s'.topics && s'.topics[k].thread == id;
        } else {
          var j :| j in s.topics && s.topics[j].thread == id;
          assert j in s'.topics && s'.topics[j].thread == id;
        }
      }
    } else {
      SameTable(s, s1, exact, hushed);
      FailSound(s1, a.Id(), c.reply, exact, hushed);
    }
  }

  /** What keeps an entry good; a muted one stays live. */
  ghost predicate PatchFits(x: Entry, p: Patch, exact: bool)
  {
    && (exact && p.name.Some? ==> Fits(p.name.value))
    && (x.closed ==> x.muted)
    && (x.muted && p.status.Some? ==> p.status.value.Live())
    && (x.muted ==> x.status.Live())
  }

  lemma SendSound(s: State, e: Env, k: string, patch: Patch, exact: bool, hushed: iset<string>)
    requires Sound(s, exact, hushed) && k in s.topics && PatchFits(s.topics[k], patch, exact)
    ensures Sound(Send(s, e, k, patch).state, exact, hushed)
  {
    var c := EditTopic(s.world, e.oracle, s.topics[k].thread, patch);
    var s1 := s.(world := c.world);
    if c.reply.Accepted? {
      BothChanged(s, Send(s, e, k, patch).state, k, Patched(s.topics[k], patch, e.now), exact, hushed);
    } else {
      SameTable(s, s1, exact, hushed);
      FailSound(s1, k, c.reply, exact, hushed);
    }
  }

  lemma ClosedSound(s: State, e: Env, k: string, closed: bool, exact: bool, hushed: iset<string>)
    requires Sound(s, exact, hushed) && k in s.topics && !s.topics[k].status.Live()
    ensures var c := SetClosed(s.world, e.oracle, s.topics[k].thread, closed);
      var s' := if c.reply.Accepted? then MarkClosed(s.topics, k, closed, e.now) else s.topics;
      Sound(s.(world := c.world, topics := s'), exact, hushed)
  {
    var c := SetClosed(s.world, e.oracle, s.topics[k].thread, closed);
    if c.reply.Accepted? {
      BothChanged(s, s.(world := c.world, topics := MarkClosed(s.topics, k, closed, e.now)), k,
                  s.topics[k].(closed := closed, at := e.now), exact, hushed);
    } else {
      SameTable(s, s.(world := c.world), exact, hushed);
    }
  }

  lemma RefreshSound(s: State, e: Env, a: Agent, exact: bool, hushed: iset<string>)
    requires Sound(s, exact, hushed) && GoodAgent(a, exact)
    requires a.Id() in s.topics && !s.topics[a.Id()].closed && !s.topics[a.Id()].status.Live()
    ensures Sound(Refresh(s, e, a).state, exact, hushed)
  {
    var k := a.Id();
    BothChanged(s, Reopened(s, k, e.now), k, s.topics[k].(muted := false, closed := false, at := e.now), exact, hushed);
    SendSound(Reopened(s, k, e.now), e, k, RevivalPatch(s.topics[k], a), exact, hushed);
  }

  lemma ReviveSound(s: State, e: Env, a: Agent, exact: bool, hushed: iset<string>)
    requires Sound(s, exact, hushed) && a.Id() in s.topics && !s.topics[a.Id()].status.Live() && GoodAgent(a, exact)
    ensures Sound(Revive(s, e, a).state, exact, hushed)
  {
    hide Sound, Send, CreateNew, SetClosed, Refresh;
    var k := a.Id();
    if !s.topics[k].closed {
      RefreshSound(s, e, a, exact, hushed);
    } else {
      var c := SetClosed(s.world, e.oracle, s.topics[k].thread, false);
      var s1 := s.(world := c.world);
      if c.reply.Accepted? {
        ReopenedSound(s, e, k, exact, hushed);
        SendSound(Reopened(s1, k, e.now), e, k, RevivalPatch(s.topics[k], a), exact, hushed);
        assert Refresh(s1, e, a) == Send(Reopened(s1, k, e.now), e, k, RevivalPatch(s.topics[k], a)) by {
          RefreshIs(s1, e, a);
        }
      } else {
        ClosedSound(s, e, k, false, exact, hushed);
        if c.reply.Gone? {
          DropSound(s1, k, exact, hushed);
          CreateNewSound(Drop(s1, k), e, a, exact, hushed);
        } else {
          FailSound(s1, k, c.reply, exact, hushed);
        }
      }
    }
  }

  lemma RefreshIs(s: State, e: Env, a: Agent)
    requires a.Id() in s.topics
    ensures Refresh(s, e, a) == Send(Reopened(s, a.Id(), e.now), e, a.Id(), RevivalPatch(s.topics[a.Id()], a))
  {
  }

  lemma ReopenedSound(s: State, e: Env, k: string, exact: bool, hushed: iset<string>)
    requires Sound(s, exact, hushed) && k in s.topics && !s.topics[k].status.Live()
    requires SetClosed(s.world, e.oracle, s.topics[k].thread, false).reply.Accepted?
    ensures var s1 := s.(world := SetClosed(s.world, e.oracle, s.topics[k].thread, false).world);
      Sound(Reopened(s1, k, e.now), exact, hushed)
  {
    var c := SetClosed(s.world, e.oracle, s.topics[k].thread, false);
    BothChanged(s, Reopened(s.(world := c.world), k, e.now), k,
                s.topics[k].(muted := false, closed := false, at := e.now), exact, hushed);
  }

  lemma CreateSound(s: State, e: Env, a: Agent, exact: bool, hushed: iset<string>)
    requires Sound(s, exact, hushed) && (a.Id() !in s.topics || !s.topics[a.Id()].status.Live()) && GoodAgent(a, exact)
    ensures Sound(Create(s, e, a).state, exact, hushed)
  {
    hide Sound, Revive, CreateNew;
    if !e.blocked {
      if a.Id() in s.topics {
        ReviveSound(s, e, a, exact, hushed);
      } else {
        CreateNewSound(s, e, a, exact, hushed);
      }
    }
  }

  lemma EditSound(s: State, e: Env, k: string, exact: bool, hushed: iset<string>)
    requires Sound(s, exact, hushed)
    ensures Sound(Edit(s, e, k).state, exact, hushed)
  {
    hide Truthful, NothingLost, ThreadsUnique, IdsKnown, Create, Send, Fits;
    if k in s.agents {
      if k !in s.topics {
        CreateSound(s, e, s.agents[k], exact, hushed);
      } else if Edit(s, e, k).state != s {
        var a := s.agents[k];
        var patch := if e.force && s.topics[k].status.Live() then Patch(Some(DesiredName(a)), Some(a.status))
                     else Diff(s.topics, k, a);
        SendSound(s, e, k, patch, exact, hushed);
      }
    }
  }

  lemma CloseSound(s: State, e: Env, k: string, exact: bool, hushed: iset<string>)
    requires Sound(s, exact, hushed) && (k in s.topics ==> !s.topics[k].status.Live())
    ensures Sound(Close(s, e, k).state, exact, hushed)
  {
    hide Sound, SetClosed;
    if k in s.topics && !s.topics[k].closed && !e.blocked {
      ClosedSound(s, e, k, true, exact, hushed);
      var c := SetClosed(s.world, e.oracle, s.topics[k].thread, true);
      if !c.reply.Accepted? {
        FailSound(s.(world := c.world), k, c.reply, exact, hushed);
      }
    }
  }

  lemma ExitedSound(s: State, e: Env, k: string, exact: bool, hushed: iset<string>)
    requires Sound(s, exact, hushed) && k in s.topics && !s.topics[k].muted
    ensures var c := EditTopic(s.world, e.oracle, s.topics[k].thread, Patch(None, Some(Exited)));
      if c.reply.Accepted? then Sound(s.(world := c.world, topics := MarkExited(s.topics, k, e.now)), exact, hushed)
      else Sound(s.(world := c.world), exact, hushed)
  {
    var c := EditTopic(s.world, e.oracle, s.topics[k].thread, Patch(None, Some(Exited)));
    if c.reply.Accepted? {
      BothChanged(s, s.(world := c.world, topics := MarkExited(s.topics, k, e.now)), k,
                  s.topics[k].(status := Exited, at := e.now), exact, hushed);
    } else {
      SameTable(s, s.(world := c.world), exact, hushed);
    }
  }

  /** The exited icon, then the topic closed, for an agent whose topic is not muted. */
  lemma FinishSound(s: State, e: Env, k: string, exact: bool, hushed: iset<string>)
    requires Sound(s, exact, hushed) && (k in s.topics ==> !s.topics[k].muted)
    ensures Sound(Finish(s, e, k).state, exact, hushed)
  {
    hide Sound, EditTopic, Close;
    if k in s.topics && !e.blocked {
      ExitedSound(s, e, k, exact, hushed);
      var c := EditTopic(s.world, e.oracle, s.topics[k].thread, Patch(None, Some(Exited)));
      if c.reply.Accepted? {
        CloseSound(s.(world := c.world, topics := MarkExited(s.topics, k, e.now)), e, k, exact, hushed);
      } else {
        FailSound(s.(world := c.world), k, c.reply, exact, hushed);
      }
    }
  }

  /** The exit of an agent whose muted topic exists, which is recorded without a call. */
  ghost predicate Untold(s: State, e: Env, k: string)
  {
    && !e.blocked && k in s.topics && s.topics[k].muted && s.topics[k].thread in s.world.threads
    && !(s.topics[k].status.Exited? && s.topics[k].closed)
  }

  lemma ExitSound(s: State, e: Env, k: string, exact: bool, hushed: iset<string>)
    requires Sound(s, exact, hushed) && (Untold(s, e, k) ==> k in hushed)
    ensures Sound(Exit(s, e, k).state, exact, hushed)
  {
    if k in s.topics && !e.blocked {
      if s.topics[k].muted {
        BothChanged(s, Exit(s, e, k).state, k,
                    s.topics[k].(status := Exited, closed := true, at := e.now), exact, hushed);
      } else {
        hide Sound, EditTopic, Close;
        FinishSound(s, e, k, exact, hushed);
        CloseSoundIfExited(s, e, k, exact, hushed);
      }
    }
  }

  lemma CloseSoundIfExited(s: State, e: Env, k: string, exact: bool, hushed: iset<string>)
    requires Sound(s, exact, hushed)
    ensures (k in s.topics ==> !s.topics[k].status.Live()) ==> Sound(Close(s, e, k).state, exact, hushed)
  {
    hide Sound, Close;
    if k in s.topics ==> !s.topics[k].status.Live() {
      CloseSound(s, e, k, exact, hushed);
    }
  }

  /** It is exactly the exit of a muted agent that makes its entry lie. */
  lemma ExitTellsUnlessMuted(s: State, e: Env, k: string, exact: bool, hushed: iset<string>)
    requires Sound(s, exact, hushed) && k !in hushed
    ensures Lies(Exit(s, e, k).state, k) <==> Untold(s, e, k)
    ensures Sound(Exit(s, e, k).state, exact, hushed) <==> !Untold(s, e, k)
  {
    if !Untold(s, e, k) {
      ExitSound(s, e, k, exact, hushed);
    }
  }

  // ---- Operators ----

  lemma KeyOfUnique(t: Topics, thread: int)
    requires ThreadsUnique(t)
    ensures KeyOf(t, thread).Some? ==> KeyOf(t, thread).value in t && t[KeyOf(t, thread).value].thread == thread
    ensures KeyOf(t, thread).None? ==> forall k :: k in t && t[k].thread == thread ==> !Parses(k)
  {
    hide Parses, Beats;
    if KeyOf(t, thread).None? {
      forall k | k in t && t[k].thread == thread
        ensures !Parses(k)
      {
        assert Holds(t, k);
        assert Answers(t, thread, k);
      }
    }
  }

  /** The thread after an operator closed or reopened it. */
  function ByHand(s: State, thread: int, closed: bool): State
  {
    if thread in s.world.threads then
      s.(world := s.world.(threads := s.world.threads[thread := s.world.threads[thread].(closed := closed)]))
    else s
  }

  /** Every entry of the thread has a key that parses, as stored keys do. */
  ghost predicate Parseable(t: Topics, thread: int)
  {
    forall k :: k in t && t[k].thread == thread ==> Parses(k)
  }

  lemma UnmappedByHand(s: State, thread: int, closed: bool, exact: bool, hushed: iset<string>)
    requires Sound(s, exact, hushed) && forall k :: k in s.topics ==> s.topics[k].thread != thread
    ensures Sound(ByHand(s, thread, closed), exact, hushed)
  {
  }

  lemma ClosedByHandSound(s: State, e: Env, thread: int, exact: bool, hushed: iset<string>)
    requires Sound(s, exact, hushed) && Parseable(s.topics, thread) && thread in s.world.threads
    ensures Sound(OnClosed(ByHand(s, thread, true), e, KeyOf(s.topics, thread)).state, exact, hushed)
  {
    hide Parses, Holds, KeyOf;
    var key, s1 := KeyOf(s.topics, thread), ByHand(s, thread, true);
    KeyOfUnique(s.topics, thread);
    if key.None? {
      UnmappedByHand(s, thread, true, exact, hushed);
    } else {
      var k := key.value;
      var x := if s.topics[k].status.Live() then s.topics[k].(muted := true, at := e.now)
               else s.topics[k].(closed := true, at := e.now);
      BothChanged(s, OnClosed(s1, e, key).state, k, x, exact, hushed);
    }
  }

  lemma ReopenedByHandSound(s: State, e: Env, thread: int, exact: bool, hushed: iset<string>)
    requires Sound(s, exact, hushed) && Parseable(s.topics, thread) && thread in s.world.threads
    ensures Sound(OnReopened(ByHand(s, thread, false), e, KeyOf(s.topics, thread)).state, exact, hushed)
  {
    hide Parses, Holds, KeyOf, Edit, Finish;
    var key, s1 := KeyOf(s.topics, thread), ByHand(s, thread, false);
    KeyOfUnique(s.topics, thread);
    if key.None? {
      UnmappedByHand(s, thread, false, exact, hushed);
    } else {
      var k := key.value;
      var r := Reopened(s1, k, e.now);
      BothChanged(s, r, k, s.topics[k].(muted := false, closed := false, at := e.now), exact, hushed);
      PendingIrrelevant(r, r.pending - {k}, exact, hushed);
      EditSound(r.(pending := r.pending - {k}), e.(force := true), k, exact, hushed);
      FinishSound(r, e, k, exact, hushed);
    }
  }

  // ---- Handlers ----

  lemma HandleSound(s: State, e: Env, kind: EventKind, a: Agent, exact: bool, hushed: iset<string>)
    requires Sound(s, exact, hushed)
    requires if kind.GoneAgent? then Untold(s, e, a.Id()) ==> a.Id() in hushed else GoodAgent(a, exact)
    ensures Sound(Handle(s, e, kind, a).state, exact, hushed)
  {
    hide Create, Edit, Exit;
    var k := a.Id();
    if kind.GoneAgent? {
      var s1 := s.(pending := s.pending - {k}, agents := s.agents - {k});
      SameTable(s, s1, exact, hushed);
      ExitSound(s1, e, k, exact, hushed);
    } else {
      var s1 := s.(agents := s.agents[k := a]);
      SameTable(s, s1, exact, hushed);
      SameTable(s, s1.(pending := s1.pending + {k}), exact, hushed);
      if k !in s.topics || !s.topics[k].status.Live() {
        CreateSound(s1, e, a, exact, hushed);
      } else {
        EditSound(s1, e, k, exact, hushed);
      }
    }
  }

  lemma {:induction false} EditAllSound(s: State, e: Env, keys: seq<string>, exact: bool, hushed: iset<string>)
    requires Sound(s, exact, hushed)
    ensures Sound(EditAll(s, e, keys).state, exact, hushed)
    decreases keys
  {
    hide Sound, Edit;
    if keys != [] {
      EditSound(s, e, keys[0], exact, hushed);
      if Edit(s, e, keys[0]).ok {
        EditAllSound(Edit(s, e, keys[0]).state, e, keys[1..], exact, hushed);
      }
    }
  }

  lemma PendingIrrelevant(s: State, pending: set<string>, exact: bool, hushed: iset<string>)
    requires Sound(s, exact, hushed)
    ensures Sound(s.(pending := pending), exact, hushed)
  {
    SameTable(s, s.(pending := pending), exact, hushed);
  }

  ghost predicate MutesKept(t: Topics, t': Topics)
  {
    forall j :: j in t' ==> j in t && t'[j].muted == t[j].muted
  }

  lemma CloseKeepsMutes(s: State, e: Env, k: string)
    ensures MutesKept(s.topics, Close(s, e, k).state.topics)
  {
    hide SetClosed;
  }

  lemma ExitKeepsMutes(s: State, e: Env, k: string)
    ensures MutesKept(s.topics, Exit(s, e, k).state.topics)
  {
    hide Close, EditTopic;
    CloseKeepsMutes(s, e, k);
    if k in s.topics {
      var c := EditTopic(s.world, e.oracle, s.topics[k].thread, Patch(None, Some(Exited)));
      CloseKeepsMutes(s.(world := c.world, topics := MarkExited(s.topics, k, e.now)), e, k);
    }
  }

  lemma {:induction false} ExitAllSound(s: State, e: Env, keys: seq<string>, exact: bool, hushed: iset<string>)
    requires Sound(s, exact, hushed) && forall k :: k in keys && k in s.topics ==> !s.topics[k].muted
    ensures Sound(ExitAll(s, e, keys).state, exact, hushed)
    decreases keys
  {
    hide Sound, Exit;
    if keys != [] {
      var k, s1 := keys[0], s.(pending := s.pending - {keys[0]});
      assert k in keys;
      PendingIrrelevant(s, s1.pending, exact, hushed);
      ExitSound(s1, e, k, exact, hushed);
      ExitKeepsMutes(s1, e, k);
      if Exit(s1, e, k).ok {
        assert forall j :: j in keys[1..] ==> j in keys;
        ExitAllSound(Exit(s1, e, k).state, e, keys[1..], exact, hushed);
      }
    }
  }

  lemma CloseKeepsStatus(s: State, e: Env, k: string)
    ensures forall j :: j in Close(s, e, k).state.topics ==>
                          j in s.topics && Close(s, e, k).state.topics[j].status == s.topics[j].status
  {
  }

  lemma {:induction false} CloseAllSound(s: State, e: Env, keys: seq<string>, exact: bool, hushed: iset<string>)
    requires Sound(s, exact, hushed) && forall k :: k in keys && k in s.topics ==> !s.topics[k].status.Live()
    ensures Sound(CloseAll(s, e, keys).state, exact, hushed)
    decreases keys
  {
    hide Sound, Close;
    if keys != [] {
      assert keys[0] in keys;
      CloseSound(s, e, keys[0], exact, hushed);
      CloseKeepsStatus(s, e, keys[0]);
      if Close(s, e, keys[0]).ok {
        assert forall j :: j in keys[1..] ==> j in keys;
        CloseAllSound(Close(s, e, keys[0]).state, e, keys[1..], exact, hushed);
      }
    }
  }

  lemma SettleSound(s: State, e: Env, k: string, exact: bool, hushed: iset<string>)
    requires Sound(s, exact, hushed) && k in s.agents
    ensures Sound(Settle(s, e, k).state, exact, hushed)
  {
    assert s.agents[k].Id() == k && GoodAgent(s.agents[k], exact);
    hide Sound, Create, Edit;
    if k !in s.topics || !s.topics[k].status.Live() {
      CreateSound(s, e, s.agents[k], exact, hushed);
    } else {
      PendingIrrelevant(s, s.pending - {k}, exact, hushed);
      EditSound(s.(pending := s.pending - {k}), e, k, exact, hushed);
    }
  }

  lemma {:induction false} SettleAllSound(s: State, e: Env, keys: seq<string>, exact: bool, hushed: iset<string>)
    requires Sound(s, exact, hushed) && forall k :: k in keys ==> k in s.agents
    ensures Sound(SettleAll(s, e, keys).state, exact, hushed)
    decreases keys
  {
    hide Sound;
    if keys != [] {
      SettleSound(s, e, keys[0], exact, hushed);
      SettleKeepsAgents(s, e, keys[0]);
      hide Settle;
      if Settle(s, e, keys[0]).ok {
        SettleAllSound(Settle(s, e, keys[0]).state, e, keys[1..], exact, hushed);
      }
    }
  }

  lemma CreateKeepsAgents(s: State, e: Env, a: Agent)
    ensures Create(s, e, a).state.agents == s.agents
  {
    hide CreateTopic, SetClosed, EditTopic, RevivalPatch, LinkedEntry;
  }

  lemma SettleKeepsAgents(s: State, e: Env, k: string)
    requires k in s.agents
    ensures Settle(s, e, k).state.agents == s.agents
  {
    hide Create, EditTopic;
    CreateKeepsAgents(s, e, s.agents[k]);
  }

  /** The live agents of a pass. */
  ghost predicate GoodLive(live: map<string, Agent>, exact: bool)
  {
    LiveSet(live) && (exact ==> forall k :: k in live ==> Fits(DesiredName(live[k])))
  }

  lemma StartSound(s: State, live: map<string, Agent>, exact: bool, hushed: iset<string>)
    requires Sound(s, exact, hushed) && GoodLive(live, exact)
    ensures Sound(Start(s, live), exact, hushed)
  {
    DedupeOfUnique(s.topics);
    SameTable(s, Start(s, live), exact, hushed);
  }

  lemma PruneSound(s: State, exact: bool, hushed: iset<string>)
    requires Sound(s, exact, hushed)
    ensures Sound(PruneState(s), exact, hushed)
  {
    hide PrunedKeys;
    var s' := PruneState(s);
    forall id | id in s'.world.created && id !in s'.released
      ensures exists j :: j in s'.topics && s'.topics[j].thread == id
    {
      var j :| j in s.topics && s.topics[j].thread == id;
      assert j in s'.topics && s'.topics[j].thread == id;
    }
  }

  lemma ReconcileSound(s: State, e: Env, live: map<string, Agent>, exact: bool, hushed: iset<string>)
    requires Sound(s, exact, hushed) && GoodLive(live, exact)
    ensures Sound(Reconcile(s, e, live).state, exact, hushed)
  {
    hide Sound, ExitAll, CloseAll, SettleAll, Start, PruneState, Orphans, Unclosed, SortedStrings;
    if !e.blocked {
      var s0 := Start(s, live);
      StartSound(s, live, exact, hushed);
      StartAgents(s, live);
      var orphans := Orphans(s0.topics, live.Keys);
      OrphansElements(s0.topics, live.Keys);
      ExitAllSound(s0, e, orphans, exact, hushed);
      var s1 := ExitAll(s0, e, orphans);
      if s1.ok {
        UnclosedElements(s1.state.topics);
        CloseAllSound(s1.state, e, Unclosed(s1.state.topics), exact, hushed);
        var s2 := CloseAll(s1.state, e, Unclosed(s1.state.topics));
        if s2.ok {
          AgentsKept(s0, s1.state, e, orphans, Unclosed(s1.state.topics));
          SortedStringsElements(live.Keys);
          SettleAllSound(s2.state, e, SortedStrings(live.Keys), exact, hushed);
          PruneSound(SettleAll(s2.state, e, SortedStrings(live.Keys)).state, exact, hushed);
        }
      }
    }
  }

  lemma StartAgents(s: State, live: map<string, Agent>)
    ensures Start(s, live).agents == live
  {
  }

  lemma {:induction false} SweepAllSound(s: State, e: Env, keys: seq<string>, exact: bool, hushed: iset<string>)
    requires Sound(s, exact, hushed)
    ensures Sound(SweepAll(s, e, keys).state, exact, hushed)
    decreases keys
  {
    if keys != [] {
      if keys[0] !in s.topics {
        SweepAllSound(s, e, keys[1..], exact, hushed);
      } else {
        DeleteSound(s, e, keys[0], exact, hushed);
        hide Sound, DeleteTopic, Drop;
        var c := DeleteTopic(s.world, e.oracle, s.topics[keys[0]].thread);
        var s1 := s.(world := c.world);
        if c.reply.Accepted? || c.reply.Gone? {
          SweepAllSound(Drop(s1, keys[0]), e, keys[1..], exact, hushed);
        } else if !c.reply.Forbidden? && !c.reply.Cancelled? {
          SweepAllSound(s1, e, keys[1..], exact, hushed);
        }
      }
    }
  }

  lemma DeleteSound(s: State, e: Env, k: string, exact: bool, hushed: iset<string>)
    requires Sound(s, exact, hushed) && k in s.topics
    ensures var c := DeleteTopic(s.world, e.oracle, s.topics[k].thread);
      if c.reply.Accepted? || c.reply.Gone? then Sound(Drop(s.(world := c.world), k), exact, hushed)
      else Sound(s.(world := c.world), exact, hushed)
  {
    var c := DeleteTopic(s.world, e.oracle, s.topics[k].thread);
    if c.reply.Accepted? {
      DropSound(s, k, exact, hushed);
      ThreadsRemoved(Drop(s, k), {s.topics[k].thread}, Drop(s.(world := c.world), k), exact, hushed);
    } else {
      SameTable(s, s.(world := c.world), exact, hushed);
      DropSound(s.(world := c.world), k, exact, hushed);
    }
  }

  /** Topics that disappear from Telegram leave nothing to lie about. */
  lemma ThreadsRemoved(s: State, ids: set<int>, s': State, exact: bool, hushed: iset<string>)
    requires Sound(s, exact, hushed) && s'.topics == s.topics && s'.agents == s.agents && s'.released == s.released
    requires s'.world.threads == s.world.threads - ids
    requires s'.world.created == s.world.created && s'.world.nextId == s.world.nextId
    ensures Sound(s', exact, hushed)
  {
  }

  // ---- Whole runs ----

  /** What can happen: the handlers, in any order, and what operators do but renames. */
  datatype Event =
    | Registry(kind: EventKind, agent: Agent)
    | Fire(key: string)
    | FlushAll
    | Pass(live: map<string, Agent>)
    | SweepPass(maxAge: int, canDelete: bool)
    | Deleted(thread: int)
    | ClosedByHand(thread: int)
    | ReopenedByHand(thread: int)

  /** Agents are reported live until they are gone, and stored keys parse. */
  ghost predicate Legal(s: State, ev: Event, exact: bool)
  {
    match ev
    case Registry(kind, a) => kind.GoneAgent? || GoodAgent(a, exact)
    case Pass(live) => GoodLive(live, exact)
    case ClosedByHand(thread) => Parseable(s.topics, thread)
    case ReopenedByHand(thread) => Parseable(s.topics, thread)
    case _ => true
  }

  /** The event is the exit of k, and Telegram is not told. */
  ghost predicate ExitUntold(s: State, e: Env, ev: Event, k: string)
  {
    ev.Registry? && ev.kind.GoneAgent? && ev.agent.Id() == k && Untold(s, e, k)
  }

  ghost function Step(s: State, e: Env, ev: Event): State
  {
    match ev
    case Registry(kind, a) => Handle(s, e, kind, a).state
    case Fire(k) => Edit(s, e, k).state
    case FlushAll => Flush(s, e).state
    case Pass(live) => Reconcile(s, e, live).state
    case SweepPass(maxAge, canDelete) => Sweep(s, e, maxAge, canDelete).state
    case Deleted(thread) => s.(world := s.world.(threads := s.world.threads - {thread}))
    case ClosedByHand(thread) =>
      if thread in s.world.threads then OnClosed(ByHand(s, thread, true), e, KeyOf(s.topics, thread)).state else s
    case ReopenedByHand(thread) =>
      if thread in s.world.threads then OnReopened(ByHand(s, thread, false), e, KeyOf(s.topics, thread)).state else s
  }

  /** Each event comes with its own answers, time, blocking and resync flag. */
  ghost function Run(s: State, evs: seq<(Env, Event)>): State
  {
    if evs == [] then s
    else
      var n := |evs| - 1;
      Step(Run(s, evs[..n]), evs[n].0, evs[n].1)
  }

  ghost predicate LegalRun(s: State, evs: seq<(Env, Event)>, exact: bool)
  {
    evs == [] ||
    var n := |evs| - 1;
    LegalRun(s, evs[..n], exact) && Legal(Run(s, evs[..n]), evs[n].1, exact)
  }

  lemma StepSound(s: State, e: Env, ev: Event, exact: bool, hushed: iset<string>)
    requires Sound(s, exact, hushed) && Legal(s, ev, exact)
    requires forall k :: ExitUntold(s, e, ev, k) ==> k in hushed
    ensures Sound(Step(s, e, ev), exact, hushed)
  {
    hide Sound, Handle, Edit, EditAll, Reconcile, SweepAll, Untold, OnClosed, OnReopened, ByHand, KeyOf;
    match ev
    case Registry(kind, a) => HandleSound(s, e, kind, a, exact, hushed);
    case Fire(k) => EditSound(s, e, k, exact, hushed);
    case FlushAll =>
      PendingIrrelevant(s, {}, exact, hushed);
      EditAllSound(s.(pending := {}), e, SortedStrings(s.pending), exact, hushed);
    case Pass(live) => ReconcileSound(s, e, live, exact, hushed);
    case SweepPass(maxAge, canDelete) => SweepAllSound(s, e, Batch(s.topics, e.now, maxAge), exact, hushed);
    case Deleted(thread) => ThreadsRemoved(s, {thread}, Step(s, e, ev), exact, hushed);
    case ClosedByHand(thread) =>
      if thread in s.world.threads {
        ClosedByHandSound(s, e, thread, exact, hushed);
      }
    case ReopenedByHand(thread) =>
      if thread in s.world.threads {
        ReopenedByHandSound(s, e, thread, exact, hushed);
      }
  }

  lemma HushMore(s: State, exact: bool, hushed: iset<string>, more: iset<string>)
    requires Sound(s, exact, hushed) && hushed <= more
    ensures Sound(s, exact, more)
  {
  }

  ghost function Liars(s: State): iset<string>
  {
    iset k | Lies(s, k)
  }

  /** What is said of a live agent is true. */
  ghost predicate OnlyExitedLie(s: State)
  {
    forall k :: Lies(s, k) ==> s.topics[k].status.Exited?
  }

  lemma OnlyLiars(s: State, exact: bool, hushed: iset<string>)
    requires Sound(s, exact, hushed)
    ensures Sound(s, exact, Liars(s)) && OnlyExitedLie(s)
  {
  }

  /** An accepted status edit of an unmuted entry makes it true again. */
  lemma StatusEditTells(s: State, e: Env, k: string, patch: Patch, exact: bool, hushed: iset<string>)
    requires Sound(s, exact, hushed) && k in s.topics && !s.topics[k].muted && patch.status.Some?
    requires EditTopic(s.world, e.oracle, s.topics[k].thread, patch).reply.Accepted?
    ensures !Lies(Send(s, e, k, patch).state, k)
  {
  }

  /**
   Every handler keeps the mapping sound, whatever error it meets, but for the exit of a muted agent;
   and that makes the entry of no other key lie.
   */
  lemma StepSoundIff(s: State, e: Env, ev: Event, exact: bool, hushed: iset<string>)
    requires Sound(s, exact, hushed) && Legal(s, ev, exact)
    ensures Sound(Step(s, e, ev), exact, hushed) <==> forall k :: ExitUntold(s, e, ev, k) ==> k in hushed
    ensures forall k :: !Lies(s, k) ==> (Lies(Step(s, e, ev), k) <==> ExitUntold(s, e, ev, k))
  {
    hide Sound, Step, Legal, Lies, Untold;
    if forall k :: ExitUntold(s, e, ev, k) ==> k in hushed {
      StepSound(s, e, ev, exact, hushed);
    } else {
      var k :| ExitUntold(s, e, ev, k) && k !in hushed;
      UntoldExitLies(s, e, ev, exact, hushed, k);
    }
    forall k | !Lies(s, k)
      ensures Lies(Step(s, e, ev), k) <==> ExitUntold(s, e, ev, k)
    {
      StepTellsIff(s, e, ev, exact, hushed, k);
    }
  }

  lemma UntoldExitLies(s: State, e: Env, ev: Event, exact: bool, hushed: iset<string>, k: string)
    requires ExitUntold(s, e, ev, k) && k !in hushed && Sound(s, exact, hushed)
    ensures Lies(Step(s, e, ev), k) && !Sound(Step(s, e, ev), exact, hushed)
  {
    hide Sound, Lies;
    var s1 := s.(pending := s.pending - {k}, agents := s.agents - {k});
    GoneSound(s, k, exact, hushed);
    ExitTellsUnlessMuted(s1, e, k, exact, hushed);
  }

  lemma GoneSound(s: State, k: string, exact: bool, hushed: iset<string>)
    requires Sound(s, exact, hushed)
    ensures Sound(s.(pending := s.pending - {k}, agents := s.agents - {k}), exact, hushed)
  {
  }

  ghost function UntoldExits(s: State, e: Env, ev: Event): iset<string>
  {
    iset k | ExitUntold(s, e, ev, k)
  }

  /** All keys but k may be hushed: then only k's own exit matters. */
  lemma StepTellsIff(s: State, e: Env, ev: Event, exact: bool, hushed: iset<string>, k: string)
    requires Sound(s, exact, hushed) && Legal(s, ev, exact) && !Lies(s, k)
    ensures Lies(Step(s, e, ev), k) <==> ExitUntold(s, e, ev, k)
  {
    hide Step, Legal, Untold, NothingLost, IdsKnown, ThreadsUnique, AgentsKnown;
    var others := Liars(s) + UntoldExits(s, e, ev) - iset{k};
    OnlyLiars(s, exact, hushed);
    HushMore(s, exact, Liars(s), others);
    if ExitUntold(s, e, ev, k) {
      UntoldExitLies(s, e, ev, exact, others, k);
    } else {
      StepSound(s, e, ev, exact, others);
    }
  }

  /** The state after the first j events. */
  ghost function After(s: State, evs: seq<(Env, Event)>, j: nat): State
    requires j <= |evs|
  {
    Run(s, evs[..j])
  }

  /** The entry of k has lied since an exit of its own that was not told. */
  ghost predicate LiesSinceExit(s: State, evs: seq<(Env, Event)>, k: string)
  {
    exists i :: 0 <= i < |evs| && LiesSince(s, evs, k, i)
  }

  ghost predicate LiesSince(s: State, evs: seq<(Env, Event)>, k: string, i: nat)
    requires i < |evs|
  {
    && ExitUntold(After(s, evs, i), evs[i].0, evs[i].1, k)
    && forall j :: i < j <= |evs| ==> Lies(After(s, evs, j), k)
  }

  ghost predicate LiedThroughout(s: State, evs: seq<(Env, Event)>, k: string)
  {
    forall j :: 0 <= j <= |evs| ==> Lies(After(s, evs, j), k)
  }

  /**
   Over any run, with every call free to fail and writes blocked and released at will, topics closed,
   reopened and deleted by hand, and muted entries among the others: each entry says what its topic
   shows, unless it says exited and has lied from the start or since an exit of its own that was not
   told; one entry per topic, and no created topic loses its entry except to a reported deletion or to the pruning of
   exited entries.
   */
  lemma {:induction false} MappingTellsTheTruth(s: State, evs: seq<(Env, Event)>, exact: bool, hushed: iset<string>)
    requires Sound(s, exact, hushed) && LegalRun(s, evs, exact)
    ensures Sound(Run(s, evs), exact, Liars(Run(s, evs))) && OnlyExitedLie(Run(s, evs))
    ensures forall k :: Lies(Run(s, evs), k) ==> LiesSinceExit(s, evs, k) || LiedThroughout(s, evs, k)
  {
    hide Sound, Step, Legal, Lies, ExitUntold, LiesSinceExit, LiedThroughout, OnlyExitedLie;
    if evs == [] {
      OnlyLiars(s, exact, hushed);
      forall k | Lies(s, k)
        ensures LiedThroughout(s, evs, k)
      {
        LiedSoFar(s, evs, k);
      }
    } else {
      var n := |evs| - 1;
      var s1 := Run(s, evs[..n]);
      MappingTellsTheTruth(s, evs[..n], exact, hushed);
      HushUntold(s1, evs[n].0, evs[n].1, exact, Liars(s1));
      OnlyLiars(Run(s, evs), exact, Liars(s1) + UntoldExits(s1, evs[n].0, evs[n].1));
      forall k | Lies(Run(s, evs), k)
        ensures LiesSinceExit(s, evs, k) || LiedThroughout(s, evs, k)
      {
        if !Lies(s1, k) {
          StepTellsIff(s1, evs[n].0, evs[n].1, exact, Liars(s1), k);
        }
        LiesOn(s, evs, k);
      }
    }
  }

  lemma HushUntold(s: State, e: Env, ev: Event, exact: bool, hushed: iset<string>)
    requires Sound(s, exact, hushed) && Legal(s, ev, exact)
    ensures Sound(Step(s, e, ev), exact, hushed + UntoldExits(s, e, ev))
  {
    hide Sound, Step, Legal, ExitUntold;
    var more := hushed + UntoldExits(s, e, ev);
    HushMore(s, exact, hushed, more);
    StepSound(s, e, ev, exact, more);
  }

  lemma LiedSoFar(s: State, evs: seq<(Env, Event)>, k: string)
    requires evs == [] && Lies(s, k)
    ensures LiedThroughout(s, evs, k)
  {
    hide Lies;
    assert evs[..0] == [];
  }

  /** A lie at the end goes on from before the last event, or was made by it. */
  lemma LiesOn(s: State, evs: seq<(Env, Event)>, k: string)
    requires evs != [] && Lies(Run(s, evs), k)
    requires var n := |evs| - 1;
      || LiesSinceExit(s, evs[..n], k) || LiedThroughout(s, evs[..n], k)
      || ExitUntold(Run(s, evs[..n]), evs[n].0, evs[n].1, k)
    ensures LiesSinceExit(s, evs, k) || LiedThroughout(s, evs, k)
  {
    hide Lies, ExitUntold, Run, After;
    var n := |evs| - 1;
    AfterPrefix(s, evs);
    if i :| 0 <= i < n && LiesSince(s, evs[..n], k, i) {
      assert LiesSince(s, evs, k, i);
    } else if !LiedThroughout(s, evs[..n], k) {
      assert LiesSince(s, evs, k, n);
    }
  }

  lemma AfterPrefix(s: State, evs: seq<(Env, Event)>)
    requires evs != []
    ensures After(s, evs, |evs|) == Run(s, evs)
    ensures After(s, evs, |evs| - 1) == Run(s, evs[..|evs| - 1])
    ensures forall j :: 0 <= j < |evs| ==> After(s, evs[..|evs| - 1], j) == After(s, evs, j)
  {
    hide Run;
    assert evs[..|evs|] == evs;
    assert forall j :: 0 <= j < |evs| ==> evs[..|evs| - 1][..j] == evs[..j];
  }

  // ---- Names ----

  /** After an accepted rename, entry and topic have the same name exactly when Telegram keeps it. */
  lemma SentNameAgreesIff(s: State, e: Env, k: string, patch: Patch)
    requires k in s.topics && s.topics[k].thread in s.world.threads && patch.name.Some?
    requires EditTopic(s.world, e.oracle, s.topics[k].thread, patch).reply.Accepted?
    ensures var s' := Send(s, e, k, patch).state;
      && k in s'.topics && s'.topics[k].thread in s'.world.threads
      && (s'.world.threads[s'.topics[k].thread].name == s'.topics[k].name <==> Fits(patch.name.value))
  {
    hide Format.TopicName;
  }

  /** After an accepted creation, exactly when Telegram keeps the name or echoes the one it kept. */
  lemma CreatedNameAgreesIff(s: State, e: Env, a: Agent)
    requires e.oracle(s.world.calls).reply.Accepted?
    ensures var s', k := CreateNew(s, e, a).state, a.Id();
      && k in s'.topics && s'.topics[k].thread in s'.world.threads
      && (s'.world.threads[s'.topics[k].thread].name == s'.topics[k].name <==>
            e.oracle(s.world.calls).echo || Fits(DesiredName(a)))
  {
    Format.TopicNameNotEmpty(DesiredName(a));
    hide Format.TopicName;
  }

  /** Over a run of agents whose names Telegram keeps, entry and topic have the same name. */
  lemma NamesAgree(s: State, evs: seq<(Env, Event)>, k: string, hushed: iset<string>)
    requires Sound(s, true, hushed) && LegalRun(s, evs, true)
    ensures var s' := Run(s, evs);
      k in s'.topics && s'.topics[k].thread in s'.world.threads ==>
        s'.world.threads[s'.topics[k].thread].name == s'.topics[k].name
  {
    hide Run, LegalRun;
    MappingTellsTheTruth(s, evs, true, hushed);
  }
}
