/**
 The reconciler: the single writer of topics, over the mapping, the debouncer and Telegram.
 */
module Reconciler {
  import opened Text
  import opened Ordering
  import opened Agents
  import M = MappingSpec
  import T = Telegram
  import R = ReconcilerSpec
  import opened Mapping
  import opened Debounce

  /** Telegram as the reconciler calls it; how it will answer is not known to the callers. */
  class Gateway {
    var world: T.World
    const oracle: T.Oracle

    constructor (world: T.World, oracle: T.Oracle)
      ensures this.world == world && this.oracle == oracle
    {
      this.world := world;
      this.oracle := oracle;
    }

    method EditTopic(thread: int, p: M.Patch) returns (r: T.Reply)
      modifies this
      ensures T.Called(world, r) == T.EditTopic(old(world), oracle, thread, p)
    {
      var c := T.EditTopic(world, oracle, thread, p);
      world := c.world;
      r := c.reply;
    }

    method SetClosed(thread: int, closed: bool) returns (r: T.Reply)
      modifies this
      ensures T.Called(world, r) == T.SetClosed(old(world), oracle, thread, closed)
    {
      var c := T.SetClosed(world, oracle, thread, closed);
      world := c.world;
      r := c.reply;
    }

    method DeleteTopic(thread: int) returns (r: T.Reply)
      modifies this
      ensures T.Called(world, r) == T.DeleteTopic(old(world), oracle, thread)
    {
      var c := T.DeleteTopic(world, oracle, thread);
      world := c.world;
      r := c.reply;
    }

    method CreateTopic(name: string, status: Status) returns (r: T.Reply, thread: int, echoed: string)
      modifies this
      ensures T.Creation(world, r, thread, echoed) == T.CreateTopic(old(world), oracle, name, status)
    {
      var c := T.CreateTopic(world, oracle, name, status);
      world := c.world;
      r, thread, echoed := c.reply, c.thread, c.echoed;
    }
  }

  class Reconciler {
    const tg: Gateway
    const mapping: Mapping
    const deb: Debouncer
    const view: TopicView
    var agents: map<string, Agent>
    var rightsLost: bool
    var paused: bool
    var quiet: bool
    var force: bool
    var now: int
    ghost var released: set<int>
    /** Entries forgotten since the view was published. */
    ghost var unpublished: map<string, M.Entry>

    constructor (tg: Gateway, mapping: Mapping)
      ensures this.tg == tg && this.mapping == mapping && fresh(deb) && fresh(view)
      ensures Value() == R.State(mapping.topics, map[], {}, tg.world, {}) && !Blocked() && !force
      ensures Seen() && unpublished == map[]
    {
      this.tg, this.mapping := tg, mapping;
      deb := new Debouncer();
      view := new TopicView();
      agents, rightsLost, paused, quiet, force, now, released := map[], false, false, false, false, 0, {};
      unpublished := map[];
      new;
      Save();
    }

    /** Readers see the mapping as it is, and what was forgotten since the last publication. */
    ghost predicate Seen()
      reads this`unpublished, mapping, view
    {
      view.Mirrors(unpublished + mapping.topics) && unpublished.Keys !! mapping.topics.Keys
    }

    /** The keys of the live agents, whose revival may lose an entry. */
    ghost function Ids(): set<string>
      reads this`agents
    {
      set k | k in agents :: agents[k].Id()
    }

    /** The old topic of a returning agent was gone and no new one could be created. */
    ghost predicate LostInRevival(k: string)
      reads this, mapping
    {
      unpublished.Keys == {k} && k !in mapping.topics
    }

    ghost function Value(): R.State
      reads this, tg, mapping, deb
    {
      R.State(mapping.topics, agents, deb.pending.Keys, tg.world, released)
    }

    /** What is fixed during a handler. */
    ghost function Env(): R.Env
      reads this
    {
      R.Env(tg.oracle, now, rightsLost || paused || quiet, force)
    }

    predicate Blocked()
      reads this
    {
      rightsLost || paused || quiet
    }

    method Save()
      modifies view, this`unpublished
      ensures unpublished == map[] && Seen()
    {
      hide TopicView.Mirrors;
      view.Publish(mapping);
      unpublished := map[];
      assert unpublished + mapping.topics == mapping.topics;
    }

    method SetReadOnly(ro: bool)
      modifies this`rightsLost
      ensures rightsLost == ro && Blocked() == (ro || paused || quiet)
    {
      rightsLost := ro;
    }

    // ---- The error policy ----

    method Forget(k: string)
      modifies this`released, this`unpublished, mapping
      ensures Value() == R.Drop(old(Value()), k) && mapping.topics == old(mapping.topics) - {k}
      ensures old(Seen()) ==> Seen()
      ensures k in old(mapping.topics) ==> unpublished == old(unpublished)[k := old(mapping.topics)[k]]
      ensures k !in old(mapping.topics) ==> unpublished == old(unpublished)
    {
      ghost var seen := unpublished + mapping.topics;
      if k in mapping.topics {
        released := released + {mapping.topics[k].thread};
        unpublished := unpublished[k := mapping.topics[k]];
      }
      mapping.Forget(k);
      assert unpublished + mapping.topics == seen;
    }

    method Fail(k: string, reply: T.Reply) returns (ok: bool)
      modifies this`released, this`unpublished, mapping, view
      ensures old(Seen()) ==> Seen()
      ensures unpublished == map[] || (unpublished == old(unpublished) && mapping.topics == old(mapping.topics))
      ensures R.Out(Value(), ok) == R.Fail(old(Value()), k, reply)
    {
      match reply
      case Gone =>
        Forget(k);
        Save();
        return true;
      case Forbidden => return false;
      case Unauthorized => return false;
      case Cancelled => return false;
      case Accepted => return true;
      case Refused => return true;
      case Transient => return true;
    }

    // ---- Single topics ----

    method Create(a: Agent) returns (ok: bool)
      modifies this`released, this`unpublished, mapping, view, tg
      ensures old(Seen()) ==> Seen()
      ensures unpublished.Keys <= old(unpublished).Keys + {a.Id()}
      ensures old(unpublished) == map[] ==> unpublished == map[] || LostInRevival(a.Id())
      ensures R.Out(Value(), ok) == R.Create(old(Value()), Env(), a)
    {
      hide R.Revive, R.CreateNew;
      if Blocked() {
        return true;
      }
      if a.Id() in mapping.topics && !mapping.topics[a.Id()].status.Live() {
        ok := Revive(a);
        return;
      }
      ok := CreateTopic(a);
    }

    method CreateTopic(a: Agent) returns (ok: bool)
      modifies this`released, this`unpublished, mapping, view, tg
      ensures old(Seen()) ==> Seen()
      ensures unpublished == map[] || (unpublished == old(unpublished) && mapping.topics == old(mapping.topics))
      ensures R.Out(Value(), ok) == R.CreateNew(old(Value()), Env(), a)
    {
      hide T.CreateTopic, M.LinkedEntry, R.Fail;
      var reply, thread, echoed := tg.CreateTopic(DesiredName(a), a.status);
      if !reply.Accepted? {
        ok := Fail(a.Id(), reply);
        return;
      }
      mapping.Link(a, thread, echoed, now);
      Save();
      return true;
    }

    method Revive(a: Agent) returns (ok: bool)
      requires a.Id() in mapping.topics
      modifies this`released, this`unpublished, mapping, view, tg
      ensures old(Seen()) ==> Seen()
      ensures unpublished.Keys <= old(unpublished).Keys + {a.Id()}
      ensures old(unpublished) == map[] ==> unpublished == map[] || LostInRevival(a.Id())
      ensures R.Out(Value(), ok) == R.Revive(old(Value()), Env(), a)
    {
      hide T.SetClosed, R.Fail, R.CreateNew, R.Refresh, R.Drop;
      var k := a.Id();
      var entry := mapping.topics[k];
      if entry.closed {
        var reply := tg.SetClosed(entry.thread, false);
        if reply.Gone? {
          Forget(k);
          ok := CreateTopic(a);
          return;
        }
        if !reply.Accepted? {
          ok := Fail(k, reply);
          return;
        }
      }
      ok := Refresh(a);
    }

    /** The second half of a revival: unmuted, open, with the live icon and name. */
    method Refresh(a: Agent) returns (ok: bool)
      requires a.Id() in mapping.topics
      modifies this`released, this`unpublished, mapping, view, tg
      ensures old(Seen()) ==> Seen()
      ensures unpublished == map[] || unpublished == old(unpublished)
      ensures R.Out(Value(), ok) == R.Refresh(old(Value()), Env(), a)
    {
      hide R.Send;
      var k := a.Id();
      var entry := mapping.topics[k];
      mapping.SetMuted(k, false, now);
      mapping.MarkClosed(k, false, now);
      Save();
      var patch := M.Patch(None, Some(a.status));
      if DesiredName(a) != entry.name {
        patch := patch.(name := Some(DesiredName(a)));
      }
      ok := Send(k, patch);
    }

    method Send(k: string, patch: M.Patch) returns (ok: bool)
      requires k in mapping.topics
      modifies this`released, this`unpublished, mapping, view, tg
      ensures old(Seen()) ==> Seen()
      ensures unpublished == map[] || unpublished == old(unpublished)
      ensures R.Out(Value(), ok) == R.Send(old(Value()), Env(), k, patch)
    {
      hide T.EditTopic, R.Fail, M.Apply;
      var reply := tg.EditTopic(mapping.topics[k].thread, patch);
      if !reply.Accepted? {
        ok := Fail(k, reply);
        return;
      }
      mapping.Apply(k, patch, now);
      Save();
      return true;
    }

    method Edit(k: string) returns (ok: bool)
      modifies this`released, this`unpublished, mapping, view, tg
      ensures old(Seen()) ==> Seen()
      ensures unpublished.Keys <= old(unpublished).Keys + Ids()
      ensures k in old(mapping.topics) ==> unpublished == map[] || unpublished == old(unpublished)
      ensures R.Out(Value(), ok) == R.Edit(old(Value()), Env(), k)
    {
      hide R.Create, R.Send, M.Diff;
      if k !in agents {
        return true;
      }
      var a := agents[k];
      if k !in mapping.topics {
        ok := Create(a);
        return;
      }
      var entry := mapping.topics[k];
      if entry.muted && !force {
        return true;
      }
      var patch := mapping.Diff(k, a);
      if force && entry.status.Live() {
        patch := M.Patch(Some(DesiredName(a)), Some(a.status));
      }
      if patch.Empty() {
        return true;
      }
      if Blocked() {
        return true;
      }
      ok := Send(k, patch);
    }

    method Exit(k: string) returns (ok: bool)
      modifies this`released, this`unpublished, mapping, view, tg
      ensures old(Seen()) ==> Seen()
      ensures unpublished == map[] || unpublished == old(unpublished)
      ensures R.Out(Value(), ok) == R.Exit(old(Value()), Env(), k)
    {
      hide T.EditTopic, R.Fail, R.Close;
      if k !in mapping.topics || Blocked() {
        return true;
      }
      var entry := mapping.topics[k];
      if entry.muted {
        mapping.MarkExited(k, now);
        mapping.MarkClosed(k, true, now);
        Save();
        return true;
      }
      if entry.status.Live() {
        var reply := tg.EditTopic(entry.thread, M.Patch(None, Some(Exited)));
        if !reply.Accepted? {
          ok := Fail(k, reply);
          return;
        }
        mapping.MarkExited(k, now);
        Save();
      }
      ok := Close(k);
    }

    method Close(k: string) returns (ok: bool)
      modifies this`released, this`unpublished, mapping, view, tg
      ensures old(Seen()) ==> Seen()
      ensures unpublished == map[] || unpublished == old(unpublished)
      ensures R.Out(Value(), ok) == R.Close(old(Value()), Env(), k)
    {
      hide T.SetClosed, R.Fail;
      if k !in mapping.topics || mapping.topics[k].closed || Blocked() {
        return true;
      }
      var reply := tg.SetClosed(mapping.topics[k].thread, true);
      if !reply.Accepted? {
        ok := Fail(k, reply);
        return;
      }
      mapping.MarkClosed(k, true, now);
      Save();
      return true;
    }

    /** The exited icon whatever the mapping believes, then the topic closed. */
    method Finish(k: string) returns (ok: bool)
      modifies this`released, this`unpublished, mapping, view, tg
      ensures old(Seen()) ==> Seen()
      ensures unpublished == map[] || unpublished == old(unpublished)
      ensures R.Out(Value(), ok) == R.Finish(old(Value()), Env(), k)
    {
      hide T.EditTopic, R.Fail, R.Close;
      if k !in mapping.topics || Blocked() {
        return true;
      }
      var reply := tg.EditTopic(mapping.topics[k].thread, M.Patch(None, Some(Exited)));
      if !reply.Accepted? {
        ok := Fail(k, reply);
        return;
      }
      mapping.MarkExited(k, now);
      Save();
      ok := Close(k);
    }

    // ---- What operators do by hand ----

    method KeyBehind(thread: int) returns (key: Option<string>)
      ensures key == R.KeyOf(mapping.topics, thread)
      ensures key.Some? ==> key.value in mapping.topics
    {
      hide M.Holds;
      key := mapping.KeyForThread(thread);
      if key.Some? && R.KeyOf(mapping.topics, thread).Some? {
        M.AnswerUnique(mapping.topics, thread, key.value, R.KeyOf(mapping.topics, thread).value);
      }
    }

    method OnTopicClosed(thread: int) returns (ok: bool)
      modifies this`released, this`unpublished, mapping, view, tg
      ensures old(Seen()) ==> Seen()
      ensures unpublished == map[] || unpublished == old(unpublished)
      ensures R.Out(Value(), ok) == R.OnClosed(old(Value()), Env(), R.KeyOf(old(mapping.topics), thread))
    {
      hide R.KeyOf, Seen;
      var key := KeyBehind(thread);
      if key.None? || key.value !in mapping.topics {
        return true;
      }
      if !mapping.topics[key.value].status.Live() {
        mapping.MarkClosed(key.value, true, now);
      } else {
        mapping.SetMuted(key.value, true, now);
      }
      Save();
      return true;
    }

    method OnTopicReopened(thread: int) returns (ok: bool)
      modifies this`released, this`unpublished, this`force, mapping, view, tg, deb
      ensures old(Seen()) ==> Seen()
      ensures unpublished == map[] || unpublished == old(unpublished)
      ensures R.Out(Value(), ok) == R.OnReopened(old(Value()), old(Env()), R.KeyOf(old(mapping.topics), thread))
      ensures force == old(force)
    {
      hide R.KeyOf, R.Edit, R.Finish, Seen, Ids;
      var key := KeyBehind(thread);
      if key.None? {
        return true;
      }
      var k := key.value;
      mapping.SetMuted(k, false, now);
      mapping.MarkClosed(k, false, now);
      Save();
      if k in agents {
        var was := deb.Cancel(k);
        var forced := force;
        force := true;
        ok := Edit(k);
        force := forced;
        return;
      }
      ok := Finish(k);
    }

    // ---- Handlers ----

    /** Applies one registry event. */
    method Handle(kind: R.EventKind, a: Agent) returns (ok: bool)
      modifies this`released, this`unpublished, this`agents, mapping, view, tg, deb
      ensures old(Seen()) ==> Seen()
      ensures unpublished.Keys <= old(unpublished).Keys + {a.Id()}
      ensures old(unpublished) == map[] ==> unpublished == map[] || LostInRevival(a.Id())
      ensures R.Out(Value(), ok) == R.Handle(old(Value()), Env(), kind, a)
    {
      hide R.Create, R.Edit, R.Exit;
      var k := a.Id();
      if kind.GoneAgent? {
        var was := deb.Cancel(k);
        agents := agents - {k};
        ok := Exit(k);
        return;
      }
      agents := agents[k := a];
      if k !in mapping.topics || !mapping.topics[k].status.Live() {
        ok := Create(a);
        return;
      }
      if kind.Appeared? {
        ok := Edit(k);
        return;
      }
      deb.Schedule(k);
      return true;
    }

    /** What an armed timer does when it fires. */
    method Fire(k: string) returns (ok: bool)
      modifies this`released, this`unpublished, mapping, view, tg
      ensures old(Seen()) ==> Seen()
      ensures unpublished.Keys <= old(unpublished).Keys + Ids()
      ensures R.Out(Value(), ok) == R.Edit(old(Value()), Env(), k)
    {
      ok := Edit(k);
    }

    /** Fires every pending edit now. */
    method Flush() returns (ok: bool)
      modifies this`released, this`unpublished, mapping, view, tg, deb
      ensures old(Seen()) ==> Seen()
      ensures unpublished.Keys <= old(unpublished).Keys + Ids()
      ensures R.Out(Value(), ok) == R.Flush(old(Value()), Env())
    {
      hide R.Edit, SortedStrings, Seen, Ids;
      var keys := deb.Drain();
      ghost var s0 := Value();
      assert deb.pending.Keys == {};
      assert s0 == old(Value()).(pending := {});
      var i := 0;
      assert keys[0..] == keys;
      while i < |keys|
        invariant 0 <= i <= |keys| && (old(Seen()) ==> Seen())
        invariant unpublished.Keys <= old(unpublished).Keys + Ids()
        invariant R.EditAll(Value(), Env(), keys[i..]) == R.Flush(old(Value()), Env())
      {
        assert keys[i..][0] == keys[i] && keys[i..][1..] == keys[i + 1..];
        ok := Edit(keys[i]);
        if !ok {
          return;
        }
        i := i + 1;
      }
      return true;
    }

    /** One pass, for a list of agents without repeated keys. */
    method Reconcile(live: seq<Agent>) returns (ok: bool)
      requires forall i, j :: 0 <= i < j < |live| ==> live[i].Id() != live[j].Id()
      modifies this`released, this`unpublished, this`agents, mapping, view, tg, deb
      ensures old(Seen()) ==> Seen()
      ensures unpublished.Keys <= old(unpublished).Keys + Ids()
      ensures R.Out(Value(), ok) == R.Reconcile(old(Value()), Env(), AgentMap(live))
    {
      hide R.Passes, M.Deduped, TopicView.Mirrors, Ids;
      if Blocked() {
        return true;
      }
      ghost var before := Value();
      ghost var t := mapping.topics;
      var n := mapping.DedupeThreads();
      if n > 0 {
        Save();
      } else {
        NoneDropped(t);
      }
      agents := Collect(live);
      assert Value() == R.Start(before, AgentMap(live));
      ok := Passes();
    }

    method Passes() returns (ok: bool)
      modifies this`released, this`unpublished, mapping, view, tg, deb
      ensures old(Seen()) ==> Seen()
      ensures unpublished.Keys <= old(unpublished).Keys + Ids()
      ensures R.Out(Value(), ok) == R.Passes(old(Value()), Env())
    {
      hide R.Passes, FinishedDead, R.SettleAll, R.PruneState, SortedStrings, Seen, Ids;
      PassesIs(Value(), Env());
      ok := FinishDead();
      if !ok {
        return;
      }
      ok := SettleLive(SortedStrings(agents.Keys));
      if !ok {
        return;
      }
      PruneOld();
    }

    /** The orphans, then the topics left open. */
    method FinishDead() returns (ok: bool)
      modifies this`released, this`unpublished, mapping, view, tg, deb
      ensures old(Seen()) ==> Seen()
      ensures unpublished == map[] || unpublished == old(unpublished)
      ensures R.Out(Value(), ok) == FinishedDead(old(Value()), Env())
    {
      hide R.ExitAll, R.CloseAll, M.Orphans, M.Unclosed, Seen;
      var orphans := mapping.Orphans(agents.Keys);
      ok := ExitOrphans(orphans);
      if ok {
        var unclosed := mapping.Unclosed();
        ok := CloseUnclosed(unclosed);
      }
    }

    method PruneOld()
      modifies this`released, this`unpublished, mapping, view
      ensures old(Seen()) ==> Seen()
      ensures unpublished == map[] || unpublished == old(unpublished)
      ensures Value() == R.PruneState(old(Value()))
    {
      hide M.PrunedKeys, M.Prune, TopicView.Mirrors;
      ghost var gone := M.PrunedKeys(mapping.topics, R.MAPPING_MAX_ENTRIES);
      released := released + set k | k in gone && k in mapping.topics :: mapping.topics[k].thread;
      ghost var t := mapping.topics;
      var n := mapping.Prune(R.MAPPING_MAX_ENTRIES);
      if n > 0 {
        Save();
      } else {
        NonePruned(t, R.MAPPING_MAX_ENTRIES);
      }
    }

    method ExitOrphans(keys: seq<string>) returns (ok: bool)
      modifies this`released, this`unpublished, mapping, view, tg, deb
      ensures old(Seen()) ==> Seen()
      ensures unpublished == map[] || unpublished == old(unpublished)
      ensures R.Out(Value(), ok) == R.ExitAll(old(Value()), Env(), keys)
    {
      hide R.Exit, Seen;
      var i := 0;
      assert keys[0..] == keys;
      while i < |keys|
        invariant 0 <= i <= |keys| && (old(Seen()) ==> Seen())
        invariant unpublished == map[] || unpublished == old(unpublished)
        invariant R.ExitAll(Value(), Env(), keys[i..]) == R.ExitAll(old(Value()), Env(), keys)
      {
        assert keys[i..][0] == keys[i] && keys[i..][1..] == keys[i + 1..];
        var was := deb.Cancel(keys[i]);
        ok := Exit(keys[i]);
        if !ok {
          return;
        }
        i := i + 1;
      }
      return true;
    }

    method CloseUnclosed(keys: seq<string>) returns (ok: bool)
      modifies this`released, this`unpublished, mapping, view, tg
      ensures old(Seen()) ==> Seen()
      ensures unpublished == map[] || unpublished == old(unpublished)
      ensures R.Out(Value(), ok) == R.CloseAll(old(Value()), Env(), keys)
    {
      hide R.Close, Seen;
      var i := 0;
      assert keys[0..] == keys;
      while i < |keys|
        invariant 0 <= i <= |keys| && (old(Seen()) ==> Seen())
        invariant unpublished == map[] || unpublished == old(unpublished)
        invariant R.CloseAll(Value(), Env(), keys[i..]) == R.CloseAll(old(Value()), Env(), keys)
      {
        assert keys[i..][0] == keys[i] && keys[i..][1..] == keys[i + 1..];
        ok := Close(keys[i]);
        if !ok {
          return;
        }
        i := i + 1;
      }
      return true;
    }

    method SettleLive(keys: seq<string>) returns (ok: bool)
      requires forall k :: k in keys ==> k in agents
      modifies this`released, this`unpublished, mapping, view, tg, deb
      ensures old(Seen()) ==> Seen()
      ensures unpublished.Keys <= old(unpublished).Keys + Ids()
      ensures R.Out(Value(), ok) == R.SettleAll(old(Value()), Env(), keys)
    {
      hide R.Settle, Seen, Ids;
      var i := 0;
      assert keys[0..] == keys;
      while i < |keys|
        invariant 0 <= i <= |keys| && (old(Seen()) ==> Seen())
        invariant unpublished.Keys <= old(unpublished).Keys + Ids()
        invariant agents == old(agents)
        invariant R.SettleAll(Value(), Env(), keys[i..]) == R.SettleAll(old(Value()), Env(), keys)
      {
        assert keys[i..][0] == keys[i] && keys[i..][1..] == keys[i + 1..];
        ok := Settle(keys[i]);
        if !ok {
          return;
        }
        i := i + 1;
      }
      return true;
    }

    method Settle(k: string) returns (ok: bool)
      requires k in agents
      modifies this`released, this`unpublished, mapping, view, tg, deb
      ensures old(Seen()) ==> Seen()
      ensures unpublished.Keys <= old(unpublished).Keys + Ids()
      ensures R.Out(Value(), ok) == R.Settle(old(Value()), Env(), k)
      ensures agents == old(agents)
    {
      hide R.Create, R.Edit;
      if k !in mapping.topics || !mapping.topics[k].status.Live() {
        ok := Create(agents[k]);
      } else {
        var was := deb.Cancel(k);
        ok := Edit(k);
      }
    }

    /** A forced pass: live topics are edited even when they look right. */
    method Resync(live: seq<Agent>) returns (ok: bool)
      requires forall i, j :: 0 <= i < j < |live| ==> live[i].Id() != live[j].Id()
      modifies this`released, this`unpublished, this`agents, this`force, mapping, view, tg, deb
      ensures old(Seen()) ==> Seen()
      ensures unpublished.Keys <= old(unpublished).Keys + Ids()
      ensures R.Out(Value(), ok) == R.Reconcile(old(Value()), old(Env()).(force := true), AgentMap(live))
      ensures !force
    {
      hide R.Reconcile;
      force := true;
      ok := Reconcile(live);
      force := false;
    }

    /** Deletes the stale topics of exited agents; returns how many. */
    method Sweep(maxAge: int, canDelete: bool) returns (deleted: nat)
      modifies this`released, this`unpublished, mapping, view, tg
      ensures old(Seen()) ==> Seen()
      ensures unpublished == map[] || unpublished == old(unpublished)
      ensures R.Swept(Value(), deleted) == R.Sweep(old(Value()), Env(), maxAge, canDelete)
    {
      hide T.DeleteTopic, M.Stale, R.Drop, TopicView.Mirrors;
      if maxAge <= 0 || Blocked() || !canDelete {
        return 0;
      }
      var keys := mapping.Stale(now, maxAge);
      if |keys| > R.SWEEP_BATCH {
        keys := keys[..R.SWEEP_BATCH];
      }
      deleted := 0;
      var i := 0;
      assert keys[0..] == keys;
      while i < |keys|
        invariant 0 <= i <= |keys| && (old(Seen()) ==> Seen())
        invariant unpublished == map[] || unpublished == old(unpublished)
        invariant var rest := R.SweepAll(Value(), Env(), keys[i..]);
          rest.(deleted := deleted + rest.deleted) == R.SweepAll(old(Value()), Env(), keys)
      {
        assert keys[i..][0] == keys[i] && keys[i..][1..] == keys[i + 1..];
        if keys[i] in mapping.topics {
          var reply := tg.DeleteTopic(mapping.topics[keys[i]].thread);
          if reply.Accepted? || reply.Gone? {
            Forget(keys[i]);
            Save();
            deleted := deleted + 1;
          } else if reply.Forbidden? || reply.Cancelled? {
            return;
          }
        }
        i := i + 1;
      }
    }
  }

  /** The state before the live agents are settled. */
  function FinishedDead(s: R.State, e: R.Env): R.Out
  {
    var exited := R.ExitAll(s, e, M.Orphans(s.topics, s.agents.Keys));
    if exited.ok then R.CloseAll(exited.state, e, M.Unclosed(exited.state.topics)) else exited
  }

  lemma PassesIs(s: R.State, e: R.Env)
    ensures FinishedDead(s, e).ok ==> FinishedDead(s, e).state.agents == s.agents
    ensures forall k :: k in SortedStrings(s.agents.Keys) ==> k in s.agents
    ensures R.Passes(s, e) ==
      if !FinishedDead(s, e).ok then FinishedDead(s, e)
      else
        var settled := R.SettleAll(FinishedDead(s, e).state, e, SortedStrings(s.agents.Keys));
        if settled.ok then R.Out(R.PruneState(settled.state), true) else settled
  {
    hide R.ExitAll, R.CloseAll, R.SettleAll, R.PruneState, M.Orphans, M.Unclosed, SortedStrings;
    var s1 := R.ExitAll(s, e, M.Orphans(s.topics, s.agents.Keys)).state;
    R.AgentsKept(s, s1, e, M.Orphans(s.topics, s.agents.Keys), M.Unclosed(s1.topics));
    SortedStringsElements(s.agents.Keys);
  }

  lemma NoneDropped(t: M.Topics)
    requires |M.Deduped(t)| == |t|
    ensures M.Deduped(t) == t
  {
    hide M.Deduped, M.Holds, M.ThreadsUnique;
    M.DedupeKeepsOnePerThread(t);
    M.SubsetSize(M.Deduped(t).Keys, t.Keys);
  }

  lemma NonePruned(t: M.Topics, limit: int)
    requires |M.Prune(t, limit)| == |t|
    ensures M.Prune(t, limit) == t
  {
    hide M.PrunedKeys;
    M.SubsetSize(M.Prune(t, limit).Keys, t.Keys);
  }

  /** The agents of a list by key. */
  function AgentMap(live: seq<Agent>): map<string, Agent>
  {
    if live == [] then map[] else AgentMap(live[..|live| - 1])[live[|live| - 1].Id() := live[|live| - 1]]
  }

  method Collect(live: seq<Agent>) returns (agents: map<string, Agent>)
    ensures agents == AgentMap(live)
  {
    agents := map[];
    for i := 0 to |live|
      invariant agents == AgentMap(live[..i])
    {
      assert live[..i + 1][..i] == live[..i];
      agents := agents[live[i].Id() := live[i]];
    }
    assert live[..|live|] == live;
  }
}
