/**
 Arrangements of nodes on a canvas: when one is valid, and which preset each terminal gets.
 */
module ArrangementSpec {
  import opened Text

  datatype Node = Node(
    id: string,
    kind: string,
    name: string,
    presetId: string,
    agentType: string,
    prompt: string,
    text: string,
    url: string,
    manager: bool,
    x: real,
    y: real,
    width: real,
    height: real)

  datatype Connection = Connection(from: string, to: string)

  datatype Arrangement = Arrangement(
    id: string,
    name: string,
    description: string,
    nodes: seq<Node>,
    connections: seq<Connection>)

  datatype Preset = Preset(id: string, agentType: string, command: string, isDefault: bool)

  const NAME_LIMIT: nat := 200
  const NODE_LIMIT: nat := 80
  const CONNECTION_LIMIT: nat := 400
  const TEXT_LIMIT: nat := 100000
  const PROMPT_LIMIT: nat := 50000
  const EXTENT: real := 100000.0
  const SMALLEST: real := 40.0

  // ---- Validity ----

  predicate IdRune(c: char)
  {
    'A' <= c <= 'Z' || 'a' <= c <= 'z' || '0' <= c <= '9' || c == '_' || c == '-'
  }

  predicate ValidRelayID(id: string)
  {
    1 <= |id| <= 100 && forall i :: 0 <= i < |id| ==> IdRune(id[i])
  }

  predicate Within(v: real)
  {
    -EXTENT <= v <= EXTENT
  }

  predicate ValidIdentity(n: Node)
  {
    ValidRelayID(n.id) && n.name != "" && ByteLen(n.name) <= NAME_LIMIT
  }

  predicate ValidSize(n: Node)
  {
    && Within(n.x) && Within(n.y) && Within(n.width) && Within(n.height)
    && SMALLEST <= n.width && SMALLEST <= n.height
    && ByteLen(n.text) <= TEXT_LIMIT && ByteLen(n.prompt) <= PROMPT_LIMIT
  }

  /** validUrl says which URLs are HTTP(S) with a host and without credentials. */
  predicate ValidKind(n: Node, validUrl: string -> bool)
  {
    match n.kind
    case "terminal" => TrimSpace(n.prompt) != ""
    case "note" => true
    case "portal" => validUrl(n.url)
    case _ => false
  }

  predicate ValidNode(n: Node, validUrl: string -> bool)
  {
    ValidIdentity(n) && ValidSize(n) && ValidKind(n, validUrl)
  }

  predicate ValidShape(a: Arrangement)
  {
    && TrimSpace(a.name) != "" && ByteLen(a.name) <= NAME_LIMIT
    && 1 <= |a.nodes| <= NODE_LIMIT && |a.connections| <= CONNECTION_LIMIT
  }

  ghost predicate ValidNodes(nodes: seq<Node>, validUrl: string -> bool)
  {
    && (forall i :: 0 <= i < |nodes| ==> ValidNode(nodes[i], validUrl))
    && (forall i, j :: 0 <= i < j < |nodes| ==> nodes[i].id != nodes[j].id)
  }

  function Ids(nodes: seq<Node>): set<string>
  {
    set n | n in nodes :: n.id
  }

  function IdsOf(nodes: seq<Node>, kind: string): set<string>
  {
    set n | n in nodes && n.kind == kind :: n.id
  }

  /** The same two nodes, in either direction. */
  predicate SameEdge(c: Connection, d: Connection)
  {
    (c.from == d.from && c.to == d.to) || (c.from == d.to && c.to == d.from)
  }

  predicate ValidEdge(c: Connection, ids: set<string>)
  {
    c.from in ids && c.to in ids && c.from != c.to
  }

  ghost predicate ValidEdges(connections: seq<Connection>, ids: set<string>)
  {
    && (forall i :: 0 <= i < |connections| ==> ValidEdge(connections[i], ids))
    && NoRepeatedEdge(connections)
  }

  ghost predicate NoRepeatedEdge(connections: seq<Connection>)
  {
    forall i, j :: 0 <= i < j < |connections| ==> !SameEdge(connections[i], connections[j])
  }

  ghost predicate Valid(a: Arrangement, validUrl: string -> bool)
  {
    ValidShape(a) && ValidNodes(a.nodes, validUrl) && ValidEdges(a.connections, Ids(a.nodes))
  }

  /** The text by which Validate remembers an edge. */
  function EdgeKey(c: Connection): string
  {
    c.from + "/" + c.to
  }

  /** Between valid ids the remembered text is the same only for the same edge. */
  lemma EdgeKeyInjective(c: Connection, d: Connection)
    requires ValidRelayID(c.from) && ValidRelayID(d.from)
    ensures EdgeKey(c) == EdgeKey(d) <==> c == d
  {
    if EdgeKey(c) == EdgeKey(d) {
      var k := EdgeKey(c);
      assert k[|c.from|] == '/' && k[|d.from|] == '/';
      assert forall i :: 0 <= i < |c.from| ==> k[i] == c.from[i];
      assert forall i :: 0 <= i < |d.from| ==> k[i] == d.from[i];
      assert !IdRune('/');
      assert |c.from| == |d.from|;
      assert k[..|c.from|] == c.from && k[..|d.from|] == d.from;
      assert k[|c.from| + 1..] == c.to && k[|d.from| + 1..] == d.to;
    }
  }

  lemma DistinctIdsDistinctKinds(nodes: seq<Node>, validUrl: string -> bool, id: string, k: string, l: string)
    requires ValidNodes(nodes, validUrl) && id in IdsOf(nodes, k) && id in IdsOf(nodes, l)
    ensures k == l
  {
    var n :| n in nodes && n.kind == k && n.id == id;
    var m :| m in nodes && m.kind == l && m.id == id;
    var i :| 0 <= i < |nodes| && nodes[i] == n;
    var j :| 0 <= j < |nodes| && nodes[j] == m;
  }

  // ---- Presets ----

  predicate Matches(n: Node, p: Preset)
  {
    if n.presetId != "" then p.id == n.presetId
    else p.agentType == n.agentType || (n.agentType == "" && p.isDefault)
  }

  function Candidates(n: Node, presets: seq<Preset>): seq<Preset>
  {
    if presets == [] then []
    else
      var p := presets[|presets| - 1];
      Candidates(n, presets[..|presets| - 1]) + if Matches(n, p) then [p] else []
  }

  predicate Selectable(n: Node, presets: seq<Preset>)
  {
    n.kind == "terminal" ==> |Candidates(n, presets)| == 1
  }

  function Chosen(n: Node, p: Preset): Node
  {
    n.(presetId := p.id, agentType := p.agentType)
  }

  function Selected(n: Node, presets: seq<Preset>): Node
    requires Selectable(n, presets)
  {
    if n.kind != "terminal" then n else Chosen(n, Candidates(n, presets)[0])
  }

  predicate Resolvable(nodes: seq<Node>, presets: seq<Preset>)
  {
    forall i :: 0 <= i < |nodes| ==> Selectable(nodes[i], presets)
  }

  /** The nodes with their presets, up to the first one that has no single candidate. */
  function Resolve(nodes: seq<Node>, presets: seq<Preset>): (r: seq<Node>)
    ensures |r| == |nodes|
  {
    if nodes == [] then []
    else if !Selectable(nodes[0], presets) then nodes
    else [Selected(nodes[0], presets)] + Resolve(nodes[1..], presets)
  }

  lemma {:induction false} ResolvedAt(nodes: seq<Node>, presets: seq<Preset>, i: nat)
    requires Resolvable(nodes, presets) && i < |nodes|
    ensures Resolve(nodes, presets)[i] == Selected(nodes[i], presets)
  {
    if i > 0 {
      ResolvedAt(nodes[1..], presets, i - 1);
    }
  }

  /** A single candidate is the only preset, and the only position, that matches. */
  lemma {:induction false} OnlyMatch(n: Node, presets: seq<Preset>, i: nat)
    requires i < |presets| && Matches(n, presets[i])
    ensures |Candidates(n, presets)| >= 1
    ensures |Candidates(n, presets)| == 1 <==> forall j :: 0 <= j < |presets| && Matches(n, presets[j]) ==> j == i
    ensures |Candidates(n, presets)| == 1 ==> Candidates(n, presets)[0] == presets[i]
  {
    hide Matches;
    var last := |presets| - 1;
    var init := presets[..last];
    if i < last {
      OnlyMatch(n, init, i);
    } else {
      NoMatch(n, init);
    }
    assert forall j :: 0 <= j < last ==> init[j] == presets[j];
  }

  lemma {:induction false} NoMatch(n: Node, presets: seq<Preset>)
    ensures Candidates(n, presets) == [] <==> forall j :: 0 <= j < |presets| ==> !Matches(n, presets[j])
  {
    hide Matches;
    if presets != [] {
      NoMatch(n, presets[..|presets| - 1]);
      assert forall j :: 0 <= j < |presets| - 1 ==> presets[..|presets| - 1][j] == presets[j];
    }
  }

  /** The preset a terminal asks for: by its id, else by its agent type, else a default or typeless one. */
  ghost predicate Wanted(n: Node, p: Preset)
  {
    && (n.presetId != "" ==> p.id == n.presetId)
    && (n.presetId == "" && n.agentType != "" ==> p.agentType == n.agentType)
    && (n.presetId == "" && n.agentType == "" ==> p.isDefault || p.agentType == "")
  }

  /** Exactly position j of the list holds a preset the terminal asks for. */
  ghost predicate OnlyWanted(n: Node, presets: seq<Preset>, j: int)
  {
    && 0 <= j < |presets| && Wanted(n, presets[j])
    && forall k :: 0 <= k < |presets| && Wanted(n, presets[k]) ==> k == j
  }

  /** r is the node with the id and the agent type of the one preset it asks for, and nothing else changed. */
  ghost predicate Granted(n: Node, presets: seq<Preset>, r: Node)
  {
    exists j :: OnlyWanted(n, presets, j)
                && r == n.(presetId := presets[j].id, agentType := presets[j].agentType)
  }

  lemma SelectedIsWanted(n: Node, presets: seq<Preset>)
    requires n.kind == "terminal"
    ensures Selectable(n, presets) <==> exists j :: OnlyWanted(n, presets, j)
    ensures Selectable(n, presets) ==> Granted(n, presets, Selected(n, presets))
  {
    hide Candidates;
    assert forall p :: Matches(n, p) <==> Wanted(n, p);
    hide Matches, Wanted;
    NoMatch(n, presets);
    forall j: nat | j < |presets| && Matches(n, presets[j])
      ensures |Candidates(n, presets)| == 1 <==> OnlyWanted(n, presets, j)
      ensures |Candidates(n, presets)| == 1 ==> Candidates(n, presets)[0] == presets[j]
    {
      OnlyMatch(n, presets, j);
    }
    if Selectable(n, presets) {
      var j: nat :| j < |presets| && Matches(n, presets[j]);
      assert OnlyWanted(n, presets, j);
    }
  }

  /**
   Presets resolve if and only if every terminal finds exactly one it asks for; each then has the id and
   the agent type of that one, and nothing else changes.
   */
  lemma PresetsAsAsked(nodes: seq<Node>, presets: seq<Preset>)
    ensures Resolvable(nodes, presets) <==>
              forall i :: 0 <= i < |nodes| && nodes[i].kind == "terminal" ==>
                exists j :: OnlyWanted(nodes[i], presets, j)
    ensures Resolvable(nodes, presets) ==> forall i :: 0 <= i < |nodes| ==>
              var r := Resolve(nodes, presets)[i];
              if nodes[i].kind == "terminal" then Granted(nodes[i], presets, r) else r == nodes[i]
  {
    hide Resolve, OnlyWanted, Candidates, Granted, Chosen;
    forall i | 0 <= i < |nodes|
      ensures nodes[i].kind == "terminal" ==>
                (Selectable(nodes[i], presets) <==> exists j :: OnlyWanted(nodes[i], presets, j))
      ensures Resolvable(nodes, presets) ==>
                var r := Resolve(nodes, presets)[i];
                if nodes[i].kind == "terminal" then Granted(nodes[i], presets, r) else r == nodes[i]
    {
      if nodes[i].kind == "terminal" {
        SelectedIsWanted(nodes[i], presets);
      }
      if Resolvable(nodes, presets) {
        ResolvedAt(nodes, presets, i);
      }
    }
  }
}
