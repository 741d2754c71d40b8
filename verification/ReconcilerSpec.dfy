/**
 What every handler of the reconciler does to the mapping, its own memory and Telegram.
 */
module ReconcilerSpec {
  import opened Text
  import opened Ordering
  import opened Agents
  import opened MappingSpec
  import opened Telegram

  const MAPPING_MAX_ENTRIES: int := 500
  const SWEEP_BATCH: nat := 50

  /**
   The reconciler's state with Telegram's. `pending` are the agents with an armed edit timer;
   `released` are the threads whose entry was dropped because Telegram reported them gone, or was
   pruned as exited.
   */
  datatype State = State(
    topics: Topics,
    agents: map<string, Agent>,
    pending: set<string>,
    world: World,
    released: set<int>)

  /** What stays fixed during one handler: the answers, the time, blocked writes, the resync flag. */
  datatype Env = Env(oracle: Oracle, now: int, blocked: bool, force: bool)

  /** The state after a handler; ok is false when it returned a fatal error. */
  datatype Out = Out(state: State, ok: bool)

  datatype EventKind = Appeared | Changed | GoneAgent

  // ---- The error policy ----

  /** Forgets the entry of a topic Telegram reported gone. */
  function Drop(s: State, k: string): State
  {
    s.(topics := Forget(s.topics, k),
       released := if k in s.topics then s.released + {s.topics[k].thread} else s.released)
  }

  function Fail(s: State, k: string, reply: Reply): Out
  {
    match reply
    case Gone => Out(Drop(s, k), true)
    case Forbidden => Out(s, false)
    case Unauthorized => Out(s, false)
    case Cancelled => Out(s, false)
    case _ => Out(s, true)
  }

  // ---- Single topics ----

  function Create(s: State, e: Env, a: Agent): Out
  {
    if e.blocked then Out(s, true)
    else if a.Id() in s.topics && !s.topics[a.Id()].status.Live() then Revive(s, e, a)
    else CreateNew(s, e, a)
  }

  function CreateNew(s: State, e: Env, a: Agent): Out
  {
    var c := CreateTopic(s.world, e.oracle, DesiredName(a), a.status);
    var s' := s.(world := c.world);
    if c.reply.Accepted? then
      Out(s'.(topics := s.topics[a.Id() := LinkedEntry(a, c.thread, c.echoed, e.now)]), true)
    else Fail(s', a.Id(), c.reply)
  }

  function Revive(s: State, e: Env, a: Agent): Out
    requires a.Id() in s.topics
  {
    var k := a.Id();
    if !s.topics[k].closed then Refresh(s, e, a)
    else
      var c := SetClosed(s.world, e.oracle, s.topics[k].thread, false);
      var s' := s.(world := c.world);
      match c.reply
      case Accepted => Refresh(s', e, a)
      case Gone => CreateNew(Drop(s', k), e, a)
      case _ => Fail(s', k, c.reply)
  }

  /** The reopened topic loses its mute and gets the live icon and name. */
  function Refresh(s: State, e: Env, a: Agent): Out
    requires a.Id() in s.topics
  {
    var k := a.Id();
    Send(Reopened(s, k, e.now), e, k, RevivalPatch(s.topics[k], a))
  }

  function Reopened(s: State, k: string, now: int): State
  {
    s.(topics := MarkClosed(SetMuted(s.topics, k, false, now), k, false, now))
  }

  function RevivalPatch(entry: Entry, a: Agent): Patch
  {
    Patch(if DesiredName(a) != entry.name then Some(DesiredName(a)) else None, Some(a.status))
  }

  /** editForumTopic, and the accepted patch recorded. */
  function Send(s: State, e: Env, k: string, patch: Patch): Out
    requires k in s.topics
  {
    var c := EditTopic(s.world, e.oracle, s.topics[k].thread, patch);
    var s' := s.(world := c.world);
    if c.reply.Accepted? then Out(s'.(topics := Apply(s.topics, k, patch, e.now)), true)
    else Fail(s', k, c.reply)
  }

  function Edit(s: State, e: Env, k: string): Out
  {
    if k !in s.agents then Out(s, true)
    else if k !in s.topics then Create(s, e, s.agents[k])
    else if s.topics[k].muted && !e.force then Out(s, true)
    else
      var a := s.agents[k];
      var patch := if e.force && s.topics[k].status.Live() then Patch(Some(DesiredName(a)), Some(a.status))
                   else Diff(s.topics, k, a);
      if patch.Empty() || e.blocked then Out(s, true) else Send(s, e, k, patch)
  }

  function Exit(s: State, e: Env, k: string): Out
  {
    if k !in s.topics || e.blocked then Out(s, true)
    else if s.topics[k].muted then
      Out(s.(topics := MarkClosed(MarkExited(s.topics, k, e.now), k, true, e.now)), true)
    else if s.topics[k].status.Live() then
      var c := EditTopic(s.world, e.oracle, s.topics[k].thread, Patch(None, Some(Exited)));
      var s' := s.(world := c.world);
      if c.reply.Accepted? then Close(s'.(topics := MarkExited(s.topics, k, e.now)), e, k)
      else Fail(s', k, c.reply)
    else Close(s, e, k)
  }

  function Close(s: State, e: Env, k: string): Out
  {
    if k !in s.topics || s.topics[k].closed || e.blocked then Out(s, true)
    else
      var c := SetClosed(s.world, e.oracle, s.topics[k].thread, true);
      var s' := s.(world := c.world);
      if c.reply.Accepted? then Out(s'.(topics := MarkClosed(s.topics, k, true, e.now)), true)
      else Fail(s', k, c.reply)
  }

  /** The exited icon whatever the entry says, then the topic closed. */
  function Finish(s: State, e: Env, k: string): Out
  {
    if k !in s.topics || e.blocked then Out(s, true)
    else
      var c := EditTopic(s.world, e.oracle, s.topics[k].thread, Patch(None, Some(Exited)));
      var s' := s.(world := c.world);
      if c.reply.Accepted? then Close(s'.(topics := MarkExited(s.topics, k, e.now)), e, k)
      else Fail(s', k, c.reply)
  }

  // ---- What operators do by hand ----

  /** The agent behind a thread, as KeyForThread answers. */
  ghost function KeyOf(t: Topics, thread: int): Option<string>
  {
    if k :| Answers(t, thread, k) && Parses(k) then Some(k) else None
  }

  /** The topic was closed by hand: a live agent's is muted, an exited one's recorded as closed. */
  function OnClosed(s: State, e: Env, key: Option<string>): Out
  {
    if key.None? || key.value !in s.topics then Out(s, true)
    else if !s.topics[key.value].status.Live() then
      Out(s.(topics := MarkClosed(s.topics, key.value, true, e.now)), true)
    else Out(s.(topics := SetMuted(s.topics, key.value, true, e.now)), true)
  }

  /** The topic was reopened by hand: a live agent's is rewritten, an exited one's finished again. */
  function OnReopened(s: State, e: Env, key: Option<string>): Out
  {
    if key.None? then Out(s, true)
    else
      var r := Reopened(s, key.value, e.now);
      if key.value in s.agents then Edit(r.(pending := r.pending - {key.value}), e.(force := true), key.value)
      else Finish(r, e, key.value)
  }

  // ---- Handlers ----

  function Handle(s: State, e: Env, kind: EventKind, a: Agent): Out
  {
    var k := a.Id();
    if kind.GoneAgent? then Exit(s.(pending := s.pending - {k}, agents := s.agents - {k}), e, k)
    else
      var s' := s.(agents := s.agents[k := a]);
      if k !in s.topics || !s.topics[k].status.Live() then Create(s', e, a)
      else if kind.Appeared? then Edit(s', e, k)
      else Out(s'.(pending := s.pending + {k}), true)
  }

  function EditAll(s: State, e: Env, keys: seq<string>): Out
    decreases keys
  {
    if keys == [] then Out(s, true)
    else
      var first := Edit(s, e, keys[0]);
      if first.ok then EditAll(first.state, e, keys[1..]) else first
  }

  /** Every pending edit now: the drained keys, in order. */
  function Flush(s: State, e: Env): Out
  {
    EditAll(s.(pending := {}), e, SortedStrings(s.pending))
  }

  function ExitAll(s: State, e: Env, keys: seq<string>): Out
    decreases keys
  {
    if keys == [] then Out(s, true)
    else
      var first := Exit(s.(pending := s.pending - {keys[0]}), e, keys[0]);
      if first.ok then ExitAll(first.state, e, keys[1..]) else first
  }

  function CloseAll(s: State, e: Env, keys: seq<string>): Out
    decreases keys
  {
    if keys == [] then Out(s, true)
    else
      var first := Close(s, e, keys[0]);
      if first.ok then CloseAll(first.state, e, keys[1..]) else first
  }

  /** One live agent of a pass. */
  function Settle(s: State, e: Env, k: string): Out
    requires k in s.agents
  {
    if k !in s.topics || !s.topics[k].status.Live() then Create(s, e, s.agents[k])
    else Edit(s.(pending := s.pending - {k}), e, k)
  }

  function SettleAll(s: State, e: Env, keys: seq<string>): Out
    requires forall k :: k in keys ==> k in s.agents
    decreases keys
  {
    if keys == [] then Out(s, true)
    else
      var first := Settle(s, e, keys[0]);
      if !first.ok then first
      else
        assert first.state.agents == s.agents;
        SettleAll(first.state, e, keys[1..])
  }

  function PruneState(s: State): State
  {
    var gone := PrunedKeys(s.topics, MAPPING_MAX_ENTRIES);
    s.(topics := Prune(s.topics, MAPPING_MAX_ENTRIES),
       released := s.released + set k | k in gone && k in s.topics :: s.topics[k].thread)
  }

  /** The live agents of a pass, by key. */
  ghost predicate LiveSet(live: map<string, Agent>)
  {
    forall k :: k in live ==> live[k].Id() == k && live[k].status.Live()
  }

  function Start(s: State, live: map<string, Agent>): State
  {
    s.(topics := Deduped(s.topics), agents := live)
  }

  /** What a pass does about the orphans, the topics left open, the live agents and old entries. */
  function Passes(s: State, e: Env): Out
  {
    var s1 := ExitAll(s, e, Orphans(s.topics, s.agents.Keys));
    if !s1.ok then s1
    else
      var s2 := CloseAll(s1.state, e, Unclosed(s1.state.topics));
      if !s2.ok then s2
      else
        AgentsKept(s, s1.state, e, Orphans(s.topics, s.agents.Keys), Unclosed(s1.state.topics));
        SortedStringsElements(s.agents.Keys);
        var s3 := SettleAll(s2.state, e, SortedStrings(s.agents.Keys));
        if s3.ok then Out(PruneState(s3.state), true) else s3
  }

  function Reconcile(s: State, e: Env, live: map<string, Agent>): Out
  {
    if e.blocked then Out(s, true) else Passes(Start(s, live), e)
  }

  lemma {:induction false} ExitAllKeepsAgents(s: State, e: Env, keys: seq<string>)
    ensures ExitAll(s, e, keys).state.agents == s.agents
    decreases keys
  {
    if keys != [] {
      var first := Exit(s.(pending := s.pending - {keys[0]}), e, keys[0]);
      if first.ok {
        ExitAllKeepsAgents(first.state, e, keys[1..]);
      }
    }
  }

  lemma {:induction false} CloseAllKeepsAgents(s: State, e: Env, keys: seq<string>)
    ensures CloseAll(s, e, keys).state.agents == s.agents
    decreases keys
  {
    if keys != [] && Close(s, e, keys[0]).ok {
      CloseAllKeepsAgents(Close(s, e, keys[0]).state, e, keys[1..]);
    }
  }

  lemma AgentsKept(s: State, s1: State, e: Env, orphans: seq<string>, unclosed: seq<string>)
    requires s1 == ExitAll(s, e, orphans).state
    ensures CloseAll(s1, e, unclosed).state.agents == s.agents
  {
    ExitAllKeepsAgents(s, e, orphans);
    CloseAllKeepsAgents(s1, e, unclosed);
  }

  // ---- The sweep ----

  /** The state after a sweep, and the number of topics deleted. */
  datatype Swept = Swept(state: State, deleted: nat)

  function SweepAll(s: State, e: Env, keys: seq<string>): Swept
    decreases keys
  {
    if keys == [] then Swept(s, 0)
    else if keys[0] !in s.topics then SweepAll(s, e, keys[1..])
    else
      var c := DeleteTopic(s.world, e.oracle, s.topics[keys[0]].thread);
      var s' := s.(world := c.world);
      if c.reply.Accepted? || c.reply.Gone? then
        var rest := SweepAll(Drop(s', keys[0]), e, keys[1..]);
        rest.(deleted := rest.deleted + 1)
      else if c.reply.Forbidden? || c.reply.Cancelled? then Swept(s', 0)
      else SweepAll(s', e, keys[1..])
  }

  function Batch(t: Topics, now: int, maxAge: int): seq<string>
  {
    var all := Stale(t, now, maxAge);
    if |all| > SWEEP_BATCH then all[..SWEEP_BATCH] else all
  }

  function Sweep(s: State, e: Env, maxAge: int, canDelete: bool): Swept
  {
    if maxAge <= 0 || e.blocked || !canDelete then Swept(s, 0)
    else SweepAll(s, e, Batch(s.topics, e.now, maxAge))
  }
}
