/**
 The registry of live agents, updated in place.
 */
module Registry {
  import opened Text
  import opened Ordering
  import opened Agents
  import S = RegistrySpec

  class Registry {
    var agents: map<Key, Agent>
    var byPane: map<string, Key>

    ghost function Value(): S.State
      reads this
    {
      S.State(agents, byPane)
    }

    constructor ()
      ensures Value() == S.EMPTY
    {
      agents, byPane := map[], map[];
    }

    /** Replaces the table by the listed agents and returns what changed, and the live panes. */
    method ApplySnapshot(list: seq<Agent>) returns (events: seq<S.Event>, panes: set<string>)
      modifies this
      ensures S.Snapshot(old(Value()), list, Value(), events)
      ensures panes == set k | k in agents :: k.pane
    {
      hide S.Differs, S.EventsOf, S.SortedKeys;
      var next := Index(list);
      var gone := Collect(S.Gone, agents, S.GoneKeys(agents, next));
      var appeared := Collect(S.Appeared, next, S.NewKeys(agents, next));
      var changed := Collect(S.Changed, next, S.ChangedKeys(agents, next));
      events := gone + appeared + changed;
      agents := next;
      byPane, panes := IndexPanes(next);
    }

    /** A status event: the pane's agent changes at once. */
    method ApplyStatus(pane: string, report: Option<Agent>) returns (events: seq<S.Event>, structural: bool)
      requires S.Inv(Value())
      modifies this`agents
      ensures S.Applied(Value(), events, structural) == S.ApplyStatus(old(Value()), pane, report)
    {
      hide S.Differs;
      if pane !in byPane || report.None? {
        return [], true;
      }
      var key := byPane[pane];
      var before := agents[key];
      var a := before.(status := report.value.status);
      if report.value.title != "" {
        a := a.(title := report.value.title);
      }
      agents := agents[key := a];
      if !S.Differs(before, a) {
        return [], false;
      }
      return [S.Event(S.Changed, a)], false;
    }

    /** A pane update: the agent changes at once, keeping what only snapshots know. */
    method ApplyUpdate(report: Option<Agent>) returns (events: seq<S.Event>, structural: bool)
      modifies this`agents
      ensures S.Applied(Value(), events, structural) == S.ApplyUpdate(old(Value()), report)
    {
      hide S.Differs;
      if report.None? || report.value.kind == "" {
        return [], false;
      }
      var a := report.value;
      if a.key !in agents {
        return [], true;
      }
      var before := agents[a.key];
      if a.workspaceLabel == "" {
        a := a.(workspaceLabel := before.workspaceLabel);
      }
      if a.tabLabel == "" {
        a := a.(tabLabel := before.tabLabel);
      }
      a := a.(name := before.name);
      if a.cwd == "" {
        a := a.(cwd := before.cwd);
      }
      agents := agents[a.key := a];
      if !S.Differs(before, a) {
        return [], false;
      }
      return [S.Event(S.Changed, a)], false;
    }
  }

  method Index(list: seq<Agent>) returns (next: map<Key, Agent>)
    ensures next == S.Listed(list)
  {
    next := map[];
    for i := 0 to |list|
      invariant next == S.Listed(list[..i])
    {
      assert list[..i + 1][..i] == list[..i];
      if list[i].kind != "" {
        next := next[list[i].key := list[i]];
      }
    }
    assert list[..|list|] == list;
  }

  /** One event per key, in key order. */
  method Collect(kind: S.EventKind, t: map<Key, Agent>, keys: set<Key>) returns (events: seq<S.Event>)
    requires forall k :: k in keys ==> k in t
    ensures forall k :: k in S.SortedKeys(keys) ==> k in t
    ensures events == S.EventsOf(kind, t, S.SortedKeys(keys))
  {
    hide S.SortedKeys;
    S.SortedKeysElements(keys);
    var q := S.SortedKeys(keys);
    events := [];
    for i := 0 to |q|
      invariant events == S.EventsOf(kind, t, q[..i])
    {
      assert q[..i + 1][..i] == q[..i];
      var a := t[q[i]];
      if kind.Gone? {
        a := a.(status := Exited);
      }
      events := events + [S.Event(kind, a)];
    }
    assert q[..|q|] == q;
  }

  /** One key per pane, in whatever order the keys come. */
  method IndexPanes(t: map<Key, Agent>) returns (byPane: map<string, Key>, panes: set<string>)
    ensures S.PanesIndexed(S.State(t, byPane))
    ensures panes == set k | k in t :: k.pane
  {
    byPane, panes := map[], {};
    var left := t.Keys;
    while left != {}
      invariant left <= t.Keys
      invariant forall p :: p in byPane ==> byPane[p] in t && byPane[p].pane == p
      invariant forall k :: k in t && k !in left ==> k.pane in byPane && k.pane in panes
      invariant forall p :: p in panes ==> exists k :: k in t && k.pane == p
      decreases |left|
    {
      var k :| k in left;
      byPane := byPane[k.pane := k];
      panes := panes + {k.pane};
      left := left - {k};
    }
  }
}
