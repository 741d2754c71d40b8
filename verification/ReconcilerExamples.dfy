/**
 Concrete agents and runs for what does not hold of the reconciler as one might expect.
 */
module ReconcilerExamples {
  import opened Text
  import opened Ordering
  import opened Agents
  import opened MappingSpec
  import opened Telegram
  import opened ReconcilerSpec
  import opened ReconcilerTruth
  import opened ReconcilerConvergence
  import opened ReconcilerSilence
  import Format

  /** 65 runes outside the basic plane. */
  function Wide(): string
  {
    Repeat('\U{1F600}', 65)
  }

  /** An agent of that name, which is within the limit of runes. */
  function Long(): Agent
  {
    Agent(Key("p", "t"), "w", "", "", "", "claude", Wide(), "", Idle, "")
  }

  /** Nothing mapped, no topic made yet. */
  const START: State := State(map[], map[], {}, World(map[], 0, {}, 0, 0), {})

  /** Telegram accepts every call, and echoes the names of new topics or does not. */
  function Accepting(echo: bool): Env
  {
    Env(_ => Choice(Accepted, 0, echo), 0, false, false)
  }

  // ---- A name that takes two passes ----

  lemma {:induction false} WideUnits(s: string)
    requires forall i :: 0 <= i < |s| ==> s[i] as int >= 0x10000
    ensures Format.Units(s) == 2 * |s|
  {
    if s != "" {
      WideUnits(s[..|s| - 1]);
    }
  }

  /** 69 runes, but 134 UTF-16 units. */
  lemma LongNameDoesNotFit()
    ensures DesiredName(Long()) == "w · " + Wide() && !NameFits(Long())
  {
    hide Format.TopicName, Format.Units;
    WideUnits(Wide());
    Format.UnitsConcat("w · ", Wide());
    Format.UnitsBounds("w · ");
    Format.NameKeptIff("w · " + Wide());
  }

  /** The agent with the long name and an empty mapping: a clean pass is not enough. */
  lemma LongNameTakesTwoPasses()
    ensures var e, live := Accepting(true), map[Long().Id() := Long()];
      Clean(START, Reconcile(START, e, live)) && !Settled(Reconcile(START, e, live).state.topics, live)
  {
    hide Format.TopicName, Reconcile, Settled, Clean, DesiredName, IdsKnown;
    var e, live := Accepting(true), map[Long().Id() := Long()];
    LongNameDoesNotFit();
    FirstPassCreates(e, live);
    EchoedPassSettlesIff(START, e, live);
    assert Long().Id() in live && Deduped(START.topics) == map[];
  }

  lemma NothingToClose(s: State, e: Env, live: map<string, Agent>)
    requires s.topics == map[] && !e.blocked
    ensures Deduped(s.topics) == map[] && AfterClosing(s, e, live) == Out(s.(agents := live), true)
  {
    assert Deduped(s.topics) == map[];
    KeysElements(s.topics);
    FilterNone(Keys(s.topics), IsOrphan(s.topics, live.Keys));
    FilterNone(Keys(s.topics), IsOpen(s.topics));
  }

  lemma OneKey(k: string)
    ensures SortedStrings({k}) == [k]
  {
    SortedStringsElements({k});
    assert SortedStrings({k})[0] in SortedStrings({k});
  }

  lemma FirstPassCreates(e: Env, live: map<string, Agent>)
    requires live == map[Long().Id() := Long()] && !e.blocked
    requires forall i: nat :: e.oracle(i).reply.Accepted?
    ensures Clean(START, Reconcile(START, e, live)) && IdsKnown(START) && LiveSet(live)
  {
    hide Format.TopicName, PruneState, AfterClosing, Reconcile, DesiredName, SettleAll;
    var k, s0 := Long().Id(), START.(agents := live);
    NothingToClose(START, e, live);
    OneKey(k);
    assert live.Keys == {k};
    ReconcileIs(START, e, live);
    SettledOne(s0, e, k);
    assert Settle(s0, e, k).state.world.failures == 0;
    PruneKeepsWorld(SettleAll(s0, e, [k]).state);
  }

  lemma SettledOne(s: State, e: Env, k: string)
    requires k in s.agents
    ensures SettleAll(s, e, [k]) == Settle(s, e, k)
  {
    SettleKeepsAgents(s, e, k);
    hide Settle;
    assert [k][1..] == [];
  }

  // ---- Names that differ ----

  /** The name of the entry is not the one its topic shows. */
  ghost predicate NamesDiffer(s: State, k: string)
  {
    && k in s.topics && s.topics[k].thread in s.world.threads
    && s.world.threads[s.topics[k].thread].name != s.topics[k].name
  }

  /** The agent with the long name appears; Telegram does not echo the name it clamped. */
  lemma UnechoedNameDiffers()
    ensures NamesDiffer(Handle(START, Accepting(false), Appeared, Long()).state, Long().Id())
  {
    hide Format.TopicName, CreateNew, DesiredName;
    LongNameDoesNotFit();
    CreatedNameAgreesIff(START.(agents := map[Long().Id() := Long()]), Accepting(false), Long());
  }

  /** Telegram does echo it: then the edit that follows writes the long name to the entry. */
  lemma RenamedToLongDiffers()
    ensures var e, k := Accepting(true), Long().Id();
      var s := Handle(START, e, Appeared, Long()).state;
      !NamesDiffer(s, k) && NamesDiffer(Edit(s, e, k).state, k)
  {
    hide Format.TopicName, DesiredName, Send;
    var e, k := Accepting(true), Long().Id();
    var s := Handle(START, e, Appeared, Long()).state;
    LongNameDoesNotFit();
    Format.TopicNameNotEmpty(DesiredName(Long()));
    SentNameAgreesIff(s, e, k, Patch(Some(DesiredName(Long())), Some(Idle)));
  }

  // ---- An exit that is not told ----

  /** An agent appears, its topic is closed by hand, the agent exits. */
  function HushedRun(): seq<(Env, Event)>
  {
    var e := Accepting(true);
    [(e, Registry(Appeared, Long())), (e, ClosedByHand(0)), (e, Registry(GoneAgent, Long()))]
  }

  /** The one entry of the table, for topic 0. */
  ghost predicate OnlyEntry(s: State, muted: bool)
  {
    && s.topics.Keys == {Long().Id()} && 0 in s.world.threads
    && var x := s.topics[Long().Id()];
       x.thread == 0 && x.status == Idle && x.muted == muted
  }

  lemma AppearedOnly()
    ensures OnlyEntry(Handle(START, Accepting(true), Appeared, Long()).state, false)
  {
    hide Format.TopicName, DesiredName;
  }

  lemma ClosedMutes(s: State, e: Env)
    requires OnlyEntry(s, false)
    ensures Parseable(s.topics, 0) && OnlyEntry(Step(s, e, ClosedByHand(0)), true)
  {
    hide Parses;
    assert Parses(Long().Id()) by {
      KeyRoundTrip(Long().key);
      ParsesIs(Long().Id());
    }
    hide Key.Id, Agent.Id;
    KeyOfUnique(s.topics, 0);
    assert Long().Id() in s.topics;
  }

  lemma ParsesIs(k: string)
    ensures Parses(k) <==> ParseKey(k).Some?
  {
  }

  lemma MutedIsUntold(s: State, e: Env)
    requires OnlyEntry(s, true) && !e.blocked
    ensures Untold(s, e, Long().Id())
  {
  }

  lemma EmptyIsSound()
    ensures Sound(START, false, iset{})
  {
  }

  /** From nothing, with every call accepted: the mapping says exited of a topic that shows idle. */
  lemma MutedExitLies()
    ensures Sound(START, false, iset{}) && LegalRun(START, HushedRun(), false)
    ensures ExitUntold(Run(START, HushedRun()[..2]), Accepting(true), Registry(GoneAgent, Long()), Long().Id())
    ensures Lies(Run(START, HushedRun()), Long().Id())
  {
    hide Handle, OnClosed, ByHand, KeyOf, Parseable, Untold;
    var e := Accepting(true);
    var s1 := Step(START, e, Registry(Appeared, Long()));
    var s2 := Step(s1, e, ClosedByHand(0));
    AppearedOnly();
    ClosedMutes(s1, e);
    MutedIsUntold(s2, e);
    EmptyIsSound();
    var evs := HushedRun();
    assert evs[..2] == [evs[0], evs[1]] && evs[..2][..1] == [evs[0]] && evs[..1][..0] == [];
    assert Run(START, []) == START;
    assert Run(START, [evs[0]]) == s1;
    assert Run(START, evs[..2]) == s2;
    assert LegalRun(START, [evs[0]], false);
    assert LegalRun(START, evs[..2], false);
    StepSound(START, e, evs[0].1, false, iset{});
    StepSound(s1, e, evs[1].1, false, iset{});
    UntoldExitLies(s2, e, evs[2].1, false, iset{}, Long().Id());
  }
}
