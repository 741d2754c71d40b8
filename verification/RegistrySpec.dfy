/**
 The agent registry: snapshots and socket events folded into a table, and the event log.
 */
module RegistrySpec {
  import opened Text
  import opened Ordering
  import opened Agents

  datatype EventKind = Appeared | Changed | Gone

  datatype Event = Event(kind: EventKind, agent: Agent)

  type Table = map<Key, Agent>

  /** The live agents and, per pane, one key of the pane. */
  datatype State = State(agents: Table, byPane: map<string, Key>)

  const EMPTY: State := State(map[], map[])

  function Differs(a: Agent, b: Agent): bool
  {
    a.Label() != b.Label() || a.status != b.status
  }

  // ---- Snapshots ----

  /** The listed agents by key; panes without an agent kind are skipped, the last of a key wins. */
  function Listed(list: seq<Agent>): Table
  {
    if list == [] then map[]
    else
      var rest := Listed(list[..|list| - 1]);
      var a := list[|list| - 1];
      if a.kind == "" then rest else rest[a.key := a]
  }

  /** The last agent of the list with this key and a kind. */
  ghost predicate LastListed(list: seq<Agent>, k: Key, a: Agent)
  {
    exists i :: 0 <= i < |list| && list[i] == a && a.key == k && a.kind != ""
                && forall j :: i < j < |list| ==> list[j].key != k || list[j].kind == ""
  }

  /** The table after a snapshot: exactly the listed agents with a kind, each as listed last. */
  lemma {:induction false} ListedMeans(list: seq<Agent>)
    ensures forall k :: k in Listed(list) ==> LastListed(list, k, Listed(list)[k])
    ensures forall i :: 0 <= i < |list| && list[i].kind != "" ==> list[i].key in Listed(list)
  {
    if list != [] {
      var init, last := list[..|list| - 1], list[|list| - 1];
      ListedMeans(init);
      forall k | k in Listed(list)
        ensures LastListed(list, k, Listed(list)[k])
      {
        if last.kind == "" || last.key != k {
          LastListedGrows(list, k, Listed(init)[k]);
        } else {
          assert list[|list| - 1] == last;
        }
      }
    }
  }

  lemma LastListedGrows(list: seq<Agent>, k: Key, a: Agent)
    requires list != [] && LastListed(list[..|list| - 1], k, a)
    requires list[|list| - 1].key != k || list[|list| - 1].kind == ""
    ensures LastListed(list, k, a)
  {
    var init := list[..|list| - 1];
    var i :| 0 <= i < |init| && init[i] == a && a.key == k && a.kind != ""
             && forall j :: i < j < |init| ==> init[j].key != k || init[j].kind == "";
    assert list[i] == a && forall j :: i < j < |init| ==> init[j] == list[j];
  }

  /** sort.Slice by Key.String; equal texts keep some order. */
  predicate KeyBefore(a: Key, b: Key)
  {
    Before(a.Id(), b.Id()) || (a.Id() == b.Id() && Before(a.pane, b.pane))
  }

  lemma KeyBeforeIsStrictTotal()
    ensures StrictTotal(KeyBefore)
  {
    BeforeIsStrictTotal();
    forall a: Key, b: Key
      ensures KeyBefore(a, b) || KeyBefore(b, a) || a == b
    {
      if a.Id() == b.Id() && a.pane == b.pane {
        assert a.Id()[|a.pane| + 1..] == a.terminal;
        assert b.Id()[|b.pane| + 1..] == b.terminal;
      }
    }
  }

  function SortedKeys(s: set<Key>): seq<Key>
  {
    KeyBeforeIsStrictTotal();
    Sorted(s, KeyBefore)
  }

  lemma SortedKeysElements(s: set<Key>)
    ensures forall k :: k in SortedKeys(s) <==> k in s
    ensures var q := SortedKeys(s); forall i, j :: 0 <= i < j < |q| ==> q[i] != q[j]
  {
    KeyBeforeIsStrictTotal();
    SortedElements(s, KeyBefore);
    SortedAscends(s, KeyBefore);
  }

  function EventsOf(kind: EventKind, t: Table, keys: seq<Key>): seq<Event>
    requires forall k :: k in keys ==> k in t
  {
    if keys == [] then []
    else
      EventsOf(kind, t, keys[..|keys| - 1])
      + [Event(kind, if kind.Gone? then t[keys[|keys| - 1]].(status := Exited) else t[keys[|keys| - 1]])]
  }

  function GoneKeys(before: Table, next: Table): set<Key>
  {
    set k | k in before && k !in next
  }

  function NewKeys(before: Table, next: Table): set<Key>
  {
    set k | k in next && k !in before
  }

  function ChangedKeys(before: Table, next: Table): set<Key>
  {
    set k | k in next && k in before && Differs(before[k], next[k])
  }

  /** Gone, then appeared, then changed, each in key order. */
  function SnapshotEvents(before: Table, next: Table): seq<Event>
  {
    SortedKeysElements(GoneKeys(before, next));
    SortedKeysElements(NewKeys(before, next));
    SortedKeysElements(ChangedKeys(before, next));
    EventsOf(Gone, before, SortedKeys(GoneKeys(before, next)))
    + EventsOf(Appeared, next, SortedKeys(NewKeys(before, next)))
    + EventsOf(Changed, next, SortedKeys(ChangedKeys(before, next)))
  }

  /** byPane names one of the pane's live keys, for every pane that has one. */
  ghost predicate PanesIndexed(s: State)
  {
    && (forall p :: p in s.byPane ==> s.byPane[p] in s.agents && s.byPane[p].pane == p)
    && (forall k :: k in s.agents ==> k.pane in s.byPane)
  }

  ghost predicate KeysMatch(t: Table)
  {
    forall k :: k in t ==> t[k].key == k
  }

  /** A snapshot replaces the table; which key of a shared pane is indexed is left open. */
  ghost predicate Snapshot(s: State, list: seq<Agent>, s': State, events: seq<Event>)
  {
    && s'.agents == Listed(list)
    && PanesIndexed(s')
    && events == SnapshotEvents(s.agents, Listed(list))
  }

  // ---- Socket events ----

  /** A status event of a pane: the pane's agent with the new status, and its title if given. */
  function StatusAgent(before: Agent, status: Status, title: string): Agent
  {
    before.(status := status, title := if title != "" then title else before.title)
  }

  /** A pane update carries no labels and no name; the last snapshot's stay. */
  function UpdatedAgent(before: Agent, a: Agent): Agent
  {
    a.(workspaceLabel := if a.workspaceLabel == "" then before.workspaceLabel else a.workspaceLabel,
       tabLabel := if a.tabLabel == "" then before.tabLabel else a.tabLabel,
       name := before.name,
       cwd := if a.cwd == "" then before.cwd else a.cwd)
  }

  /** What Apply returns beside the new state: events, and whether a snapshot is wanted. */
  datatype Applied = Applied(state: State, events: seq<Event>, structural: bool)

  function Replace(s: State, before: Agent, a: Agent): Applied
  {
    Applied(s.(agents := s.agents[a.key := a]),
            if Differs(before, a) then [Event(Changed, a)] else [],
            false)
  }

  function ApplyStatus(s: State, pane: string, report: Option<Agent>): Applied
  {
    if pane !in s.byPane || report.None? || s.byPane[pane] !in s.agents then Applied(s, [], true)
    else
      var before := s.agents[s.byPane[pane]];
      Replace(s, before, StatusAgent(before, report.value.status, report.value.title))
  }

  function ApplyUpdate(s: State, report: Option<Agent>): Applied
  {
    if report.None? || report.value.kind == "" then Applied(s, [], false)
    else if report.value.key !in s.agents then Applied(s, [], true)
    else
      var before := s.agents[report.value.key];
      Replace(s, before, UpdatedAgent(before, report.value))
  }

  /** Only the entry of this key changed. */
  ghost predicate OnlyChanged(before: Table, after: Table, k: Key)
  {
    after.Keys == before.Keys && forall j :: j in before && j != k ==> after[j] == before[j]
  }

  /**
   A status report reaches an agent of its pane, which has the reported status and title from then on
   and is otherwise as it was; a pane without an agent, or a report without one, asks for a snapshot.
   */
  lemma StatusIsTaken(s: State, pane: string, report: Option<Agent>)
    requires PanesIndexed(s) && KeysMatch(s.agents)
    ensures var r := ApplyStatus(s, pane, report);
      if report.None? || forall k :: k in s.agents ==> k.pane != pane then r == Applied(s, [], true)
      else
        exists k :: k in s.agents && k.pane == pane && OnlyChanged(s.agents, r.state.agents, k)
          && r.state.agents[k].status == report.value.status
          && r.state.agents[k].title == (if report.value.title != "" then report.value.title else s.agents[k].title)
          && r.state.agents[k] == s.agents[k].(status := r.state.agents[k].status, title := r.state.agents[k].title)
  {
    if pane in s.byPane {
      var k := s.byPane[pane];
      assert k in s.agents && k.pane == pane;
    }
  }

  /** An update changes its agent to what it says, but for the name and what it leaves blank. */
  lemma UpdateIsTaken(s: State, a: Agent)
    requires KeysMatch(s.agents) && a.key in s.agents && a.kind != ""
    ensures var r := ApplyUpdate(s, Some(a));
      var was, now := s.agents[a.key], r.state.agents[a.key];
      && !r.structural && OnlyChanged(s.agents, r.state.agents, a.key)
      && now.status == a.status && now.title == a.title && now.kind == a.kind
      && now.workspaceId == a.workspaceId && now.tabId == a.tabId
      && now.name == was.name
      && now.workspaceLabel == (if a.workspaceLabel != "" then a.workspaceLabel else was.workspaceLabel)
      && now.tabLabel == (if a.tabLabel != "" then a.tabLabel else was.tabLabel)
      && now.cwd == (if a.cwd != "" then a.cwd else was.cwd)
  {
  }

  // ---- Replaying the log ----

  /** What a reader of the log knows of an agent. */
  datatype Face = Face(title: string, status: Status)

  type View = map<Key, Face>

  function FaceOf(a: Agent): Face
  {
    Face(a.Label(), a.status)
  }

  /**
   One event on the reader's view; None when it does not follow the grammar: appeared for a key
   not there, changed and gone for one that is.
   */
  function ReplayOne(v: Option<View>, e: Event): Option<View>
  {
    if v.None? then None
    else
      var k := e.agent.key;
      match e.kind
      case Appeared => if k in v.value then None else Some(v.value[k := FaceOf(e.agent)])
      case Changed => if k in v.value then Some(v.value[k := FaceOf(e.agent)]) else None
      case Gone => if k in v.value then Some(v.value - {k}) else None
  }

  function Replay(v: Option<View>, log: seq<Event>): Option<View>
  {
    if log == [] then v else ReplayOne(Replay(v, log[..|log| - 1]), log[|log| - 1])
  }

  function Faces(t: Table): View
  {
    map k | k in t :: FaceOf(t[k])
  }

  lemma {:induction false} ReplayConcat(v: Option<View>, a: seq<Event>, b: seq<Event>)
    ensures Replay(v, a + b) == Replay(Replay(v, a), b)
  {
    if b == [] {
      assert a + b == a;
    } else {
      assert (a + b)[..|a + b| - 1] == a + b[..|b| - 1];
      ReplayConcat(v, a, b[..|b| - 1]);
    }
  }

  function KeySet(keys: seq<Key>): set<Key>
  {
    set k | k in keys
  }

  lemma KeySetNext(keys: seq<Key>)
    requires keys != []
    ensures KeySet(keys) == KeySet(keys[..|keys| - 1]) + {keys[|keys| - 1]}
  {
    assert keys == keys[..|keys| - 1] + [keys[|keys| - 1]];
  }

  lemma {:induction false} ReplayGone(t: Table, v: View, keys: seq<Key>)
    requires KeysMatch(t) && (forall k :: k in keys ==> k in t && k in v)
    requires forall i, j :: 0 <= i < j < |keys| ==> keys[i] != keys[j]
    ensures Replay(Some(v), EventsOf(Gone, t, keys)) == Some(v - KeySet(keys))
  {
    hide FaceOf;
    if keys != [] {
      var init, last := keys[..|keys| - 1], keys[|keys| - 1];
      ReplayGone(t, v, init);
      assert last !in KeySet(init);
      KeySetNext(keys);
      hide KeySet;
      assert v - KeySet(init) - {last} == v - KeySet(keys);
    } else {
      assert v - KeySet(keys) == v;
    }
  }

  /** The view after the faces of the keys were put in. */
  function WithFaces(v: View, t: Table, keys: set<Key>): View
    requires forall k :: k in keys ==> k in t
  {
    map k | k in v.Keys + keys :: if k in keys then FaceOf(t[k]) else v[k]
  }

  lemma WithOneMoreFace(v: View, t: Table, keys: set<Key>, last: Key)
    requires last in t && forall k :: k in keys ==> k in t
    ensures WithFaces(v, t, keys + {last}) == WithFaces(v, t, keys)[last := FaceOf(t[last])]
    ensures last in WithFaces(v, t, keys) <==> last in v || last in keys
  {
    hide FaceOf;
  }

  lemma {:induction false} ReplayPut(kind: EventKind, t: Table, v: View, keys: seq<Key>)
    requires !kind.Gone? && KeysMatch(t) && (forall k :: k in keys ==> k in t && (k in v <==> kind.Changed?))
    requires forall i, j :: 0 <= i < j < |keys| ==> keys[i] != keys[j]
    ensures Replay(Some(v), EventsOf(kind, t, keys)) == Some(WithFaces(v, t, KeySet(keys)))
  {
    hide FaceOf;
    if keys != [] {
      var init, last := keys[..|keys| - 1], keys[|keys| - 1];
      ReplayPut(kind, t, v, init);
      assert last !in KeySet(init);
      KeySetNext(keys);
      WithOneMoreFace(v, t, KeySet(init), last);
      hide KeySet, WithFaces;
    } else {
      assert WithFaces(v, t, KeySet(keys)) == v;
    }
  }

  lemma ReplayGoneSet(t: Table, v: View, s: set<Key>)
    requires KeysMatch(t) && forall k :: k in s ==> k in t && k in v
    ensures forall k :: k in SortedKeys(s) ==> k in t
    ensures Replay(Some(v), EventsOf(Gone, t, SortedKeys(s))) == Some(v - s)
  {
    SortedKeysElements(s);
    assert KeySet(SortedKeys(s)) == s;
    hide EventsOf, SortedKeys, KeySet, Replay;
    ReplayGone(t, v, SortedKeys(s));
  }

  lemma ReplayPutSet(kind: EventKind, t: Table, v: View, s: set<Key>)
    requires !kind.Gone? && KeysMatch(t) && forall k :: k in s ==> k in t && (k in v <==> kind.Changed?)
    ensures forall k :: k in SortedKeys(s) ==> k in t
    ensures Replay(Some(v), EventsOf(kind, t, SortedKeys(s))) == Some(WithFaces(v, t, s))
  {
    SortedKeysElements(s);
    assert KeySet(SortedKeys(s)) == s;
    hide EventsOf, SortedKeys, KeySet, Replay;
    ReplayPut(kind, t, v, SortedKeys(s));
  }

  /** The events of a snapshot turn the view of the old table into the view of the new one. */
  lemma SnapshotReplays(before: Table, next: Table)
    requires KeysMatch(before) && KeysMatch(next)
    ensures Replay(Some(Faces(before)), SnapshotEvents(before, next)) == Some(Faces(next))
  {
    hide Differs, EventsOf, SortedKeys, FaceOf, Replay, KeysMatch;
    var gone, appeared, changed := GoneKeys(before, next), NewKeys(before, next), ChangedKeys(before, next);
    var v1 := Faces(before) - gone;
    var v2 := WithFaces(v1, next, appeared);
    var v3 := WithFaces(v2, next, changed);
    ReplayGoneSet(before, Faces(before), gone);
    ReplayPutSet(Appeared, next, v1, appeared);
    ReplayPutSet(Changed, next, v2, changed);
    SnapshotViews(before, next, v3);
    hide WithFaces, Faces, GoneKeys, NewKeys, ChangedKeys;
    ReplayThree(Faces(before), v1, v2, v3, EventsOf(Gone, before, SortedKeys(gone)),
                EventsOf(Appeared, next, SortedKeys(appeared)), EventsOf(Changed, next, SortedKeys(changed)));
  }

  lemma SnapshotViews(before: Table, next: Table, v: View)
    requires v == WithFaces(WithFaces(Faces(before) - GoneKeys(before, next), next, NewKeys(before, next)),
                            next, ChangedKeys(before, next))
    ensures v == Faces(next)
  {
    forall k | k in next && k in before && !Differs(before[k], next[k])
      ensures FaceOf(before[k]) == FaceOf(next[k])
    {
    }
    hide FaceOf, Differs;
    assert v.Keys == next.Keys;
  }

  lemma ReplayThree(v0: View, v1: View, v2: View, v3: View, g: seq<Event>, a: seq<Event>, c: seq<Event>)
    requires Replay(Some(v0), g) == Some(v1) && Replay(Some(v1), a) == Some(v2) && Replay(Some(v2), c) == Some(v3)
    ensures Replay(Some(v0), g + a + c) == Some(v3)
  {
    hide Replay;
    ReplayConcat(Some(v0), g + a, c);
    ReplayConcat(Some(v0), g, a);
  }

  // ---- Runs ----

  datatype Input =
    | List(agents: seq<Agent>)
    | StatusReport(pane: string, report: Option<Agent>)
    | UpdateReport(report: Option<Agent>)
    | Other

  ghost predicate Step(s: State, input: Input, s': State, events: seq<Event>)
  {
    match input
    case List(agents) => Snapshot(s, agents, s', events)
    case StatusReport(pane, report) =>
      var r := ApplyStatus(s, pane, report); s' == r.state && events == r.events
    case UpdateReport(report) =>
      var r := ApplyUpdate(s, report); s' == r.state && events == r.events
    case Other => s' == s && events == []
  }

  ghost predicate Inv(s: State)
  {
    KeysMatch(s.agents) && PanesIndexed(s)
  }

  lemma {:induction false} ListedMatches(list: seq<Agent>)
    ensures KeysMatch(Listed(list))
  {
    if list != [] {
      ListedMatches(list[..|list| - 1]);
    }
  }

  lemma ReplaceReplays(s: State, before: Agent, a: Agent)
    requires Inv(s) && a.key in s.agents && s.agents[a.key] == before
    ensures var r := Replace(s, before, a);
      Inv(r.state) && Replay(Some(Faces(s.agents)), r.events) == Some(Faces(r.state.agents))
  {
    var r := Replace(s, before, a);
    if Differs(before, a) {
      assert r.events[..|r.events| - 1] == [];
      assert Faces(s.agents)[a.key := FaceOf(a)] == Faces(r.state.agents);
    } else {
      assert FaceOf(before) == FaceOf(a);
      assert Faces(s.agents) == Faces(r.state.agents);
    }
  }

  lemma StepReplays(s: State, input: Input, s': State, events: seq<Event>)
    requires Inv(s) && Step(s, input, s', events)
    ensures Inv(s') && Replay(Some(Faces(s.agents)), events) == Some(Faces(s'.agents))
  {
    match input
    case List(agents) =>
      ListedMatches(agents);
      SnapshotReplays(s.agents, Listed(agents));
    case StatusReport(pane, report) =>
      if pane in s.byPane && report.Some? {
        var before := s.agents[s.byPane[pane]];
        ReplaceReplays(s, before, StatusAgent(before, report.value.status, report.value.title));
      }
    case UpdateReport(report) =>
      if report.Some? && report.value.kind != "" && report.value.key in s.agents {
        ReplaceReplays(s, s.agents[report.value.key], UpdatedAgent(s.agents[report.value.key], report.value));
      }
    case Other =>
  }

  /** A run: the states passed through, and the events of each step. */
  ghost predicate Run(states: seq<State>, inputs: seq<Input>, events: seq<seq<Event>>)
  {
    && |states| == |inputs| + 1 && |events| == |inputs|
    && forall i :: 0 <= i < |inputs| ==> Step(states[i], inputs[i], states[i + 1], events[i])
  }

  function Flatten(logs: seq<seq<Event>>): seq<Event>
  {
    if logs == [] then [] else Flatten(logs[..|logs| - 1]) + logs[|logs| - 1]
  }

  /**
   After any mix of snapshots and socket events the whole log, replayed from nothing, follows the
   grammar of every key and gives the labels and statuses of exactly the live agents; byPane
   points each live pane to a live key of it.
   */
  lemma {:induction false} LogReplaysToState(states: seq<State>, inputs: seq<Input>, events: seq<seq<Event>>)
    requires Run(states, inputs, events) && states[0] == EMPTY
    ensures Inv(states[|inputs|])
    ensures Replay(Some(map[]), Flatten(events)) == Some(Faces(states[|inputs|].agents))
    decreases |inputs|
  {
    hide Step, Faces;
    var n := |inputs|;
    if n == 0 {
      assert Faces(EMPTY.agents) == map[] by { NoFaces(); }
    } else {
      assert Run(states[..n], inputs[..n - 1], events[..n - 1]);
      LogReplaysToState(states[..n], inputs[..n - 1], events[..n - 1]);
      StepReplays(states[n - 1], inputs[n - 1], states[n], events[n - 1]);
      ReplayConcat(Some(map[]), Flatten(events[..n - 1]), events[n - 1]);
    }
  }

  lemma NoFaces()
    ensures Faces(map[]) == map[]
  {
  }
}
