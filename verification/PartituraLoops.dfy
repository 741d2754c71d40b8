/** What one turn of each loop over an arrangement adds. */
module PartituraLoops {
  import opened Text
  import opened ArrangementSpec
  import opened PartituraSpec
  import PartituraRoundTrip

  function Keys(connections: seq<Connection>): set<string>
  {
    set c | c in connections :: EdgeKey(c)
  }

  /** One node more is valid, or the whole list is not. */
  lemma NodesGrow(nodes: seq<Node>, i: nat, validUrl: string -> bool)
    requires i < |nodes| && ValidNodes(nodes[..i], validUrl)
    ensures Ids(nodes[..i + 1]) == Ids(nodes[..i]) + {nodes[i].id}
    ensures ValidNodes(nodes[..i + 1], validUrl) <==> ValidNode(nodes[i], validUrl) && nodes[i].id !in Ids(nodes[..i])
    ensures !ValidNodes(nodes[..i + 1], validUrl) ==> !ValidNodes(nodes, validUrl)
  {
    hide ValidNode;
    var before, after := nodes[..i], nodes[..i + 1];
    assert after == before + [nodes[i]];
    if ValidNodes(after, validUrl) {
      forall n | n in before
        ensures n.id != nodes[i].id
      {
        var j :| 0 <= j < i && before[j] == n;
        assert after[j].id != after[i].id;
      }
    }
    if ValidNodes(nodes, validUrl) {
      assert forall j :: 0 <= j <= i ==> after[j] == nodes[j];
    }
    if nodes[i].id !in Ids(before) {
      forall j | 0 <= j < i
        ensures before[j].id != nodes[i].id
      {
        assert before[j] in before;
      }
    }
  }

  /** An edge is remembered exactly when one of the same ends was met. */
  lemma KeyMet(connections: seq<Connection>, ids: set<string>, c: Connection)
    requires (forall x :: x in ids ==> ValidRelayID(x)) && ValidEdges(connections, ids) && c.from in ids
    ensures EdgeKey(c) in Keys(connections) <==> c in connections
  {
    hide ValidRelayID, EdgeKey;
    if EdgeKey(c) in Keys(connections) {
      var d :| d in connections && EdgeKey(d) == EdgeKey(c);
      var j :| 0 <= j < |connections| && connections[j] == d;
      assert ValidEdge(connections[j], ids);
      EdgeKeyInjective(c, d);
    }
  }

  lemma EdgesGrow(connections: seq<Connection>, k: nat, nodes: seq<Node>, validUrl: string -> bool)
    requires k < |connections| && ValidNodes(nodes, validUrl) && ValidEdges(connections[..k], Ids(nodes))
    ensures var c := connections[k];
      && Keys(connections[..k + 1]) == Keys(connections[..k]) + {EdgeKey(c)}
      && (ValidEdges(connections[..k + 1], Ids(nodes)) <==>
            ValidEdge(c, Ids(nodes)) && EdgeKey(c) !in Keys(connections[..k])
            && EdgeKey(Connection(c.to, c.from)) !in Keys(connections[..k]))
      && (!ValidEdges(connections[..k + 1], Ids(nodes)) ==> !ValidEdges(connections, Ids(nodes)))
  {
    hide ValidRelayID, EdgeKey, ValidKind, ValidSize;
    var before, after, c := connections[..k], connections[..k + 1], connections[k];
    assert after == before + [c];
    forall x | x in Ids(nodes)
      ensures ValidRelayID(x)
    {
      var n :| n in nodes && n.id == x;
      var i :| 0 <= i < |nodes| && nodes[i] == n;
      assert ValidNode(nodes[i], validUrl);
    }
    hide ValidNodes, Ids;
    if ValidEdge(c, Ids(nodes)) {
      KeyMet(before, Ids(nodes), c);
      KeyMet(before, Ids(nodes), Connection(c.to, c.from));
      RepeatsIff(before, c);
    }
    if ValidEdges(connections, Ids(nodes)) {
      assert forall j :: 0 <= j <= k ==> after[j] == connections[j];
    }
    assert ValidEdges(after, Ids(nodes)) ==> ValidEdge(after[k], Ids(nodes));
  }

  lemma RepeatsIff(before: seq<Connection>, c: Connection)
    requires NoRepeatedEdge(before)
    ensures NoRepeatedEdge(before + [c]) <==> c !in before && Connection(c.to, c.from) !in before
  {
    var after := before + [c];
    if NoRepeatedEdge(after) {
      forall j | 0 <= j < |before|
        ensures before[j] != c && before[j] != Connection(c.to, c.from)
      {
        assert !SameEdge(after[j], after[|before|]);
      }
    }
    if c !in before && Connection(c.to, c.from) !in before {
      forall i, j | 0 <= i < j < |after|
        ensures !SameEdge(after[i], after[j])
      {
        assert before[i] in before;
        assert j < |before| ==> after[j] == before[j];
      }
    }
  }

  lemma NothingYet(ids: set<string>, validUrl: string -> bool)
    ensures ValidNodes([], validUrl) && Ids([]) == {}
    ensures ValidEdges([], ids) && Keys([]) == {}
  {
  }

  // ---- Exporting ----

  /** What the map of commands answers for a terminal's preset. */
  lemma {:induction false} CommandKnown(presets: seq<Preset>, nodes: seq<Node>, id: string)
    requires Uses(nodes, id)
    ensures At(Commands(presets, nodes), id) == CommandOf(presets, id)
  {
    hide Uses;
    if presets != [] {
      CommandKnown(presets[..|presets| - 1], nodes, id);
    }
  }

  lemma UsesGrows(nodes: seq<Node>, j: nat, id: string)
    requires j < |nodes|
    ensures Uses(nodes[..j + 1], id) <==>
              Uses(nodes[..j], id) || (nodes[j].kind == "terminal" && nodes[j].presetId == id)
  {
    var before, after := nodes[..j], nodes[..j + 1];
    if Uses(before, id) {
      var i :| 0 <= i < |before| && before[i].kind == "terminal" && before[i].presetId == id;
      assert after[i] == before[i];
    }
    if Uses(after, id) {
      var i :| 0 <= i < |after| && after[i].kind == "terminal" && after[i].presetId == id;
      assert i < j ==> before[i] == after[i];
    }
    assert after[j] == nodes[j];
  }

  /** The maps from a node's id to its ids in the document and to itself. */
  ghost predicate Indexed(nodes: seq<Node>, g: Namer, ids: map<string, string>, terms: map<string, string>,
                          byId: map<string, Node>)
  {
    && (forall n :: n in nodes ==> At(ids, n.id) == g.Node(n.id) && At(terms, n.id) == g.Terminal(n.id))
    && (forall n :: n in nodes ==> n.id in byId && byId[n.id] == n)
  }

  lemma IndexedGrows(nodes: seq<Node>, i: nat, g: Namer, ids: map<string, string>, terms: map<string, string>,
                     byId: map<string, Node>)
    requires i < |nodes| && PartituraRoundTrip.DistinctIds(nodes) && Indexed(nodes[..i], g, ids, terms, byId)
    ensures var n := nodes[i];
      Indexed(nodes[..i + 1], g, ids[n.id := g.Node(n.id)], terms[n.id := g.Terminal(n.id)], byId[n.id := n])
  {
    hide Namer.Node, Namer.Terminal;
    forall m | m in nodes[..i]
      ensures m.id != nodes[i].id
    {
      var j :| 0 <= j < i && nodes[j] == m;
    }
    assert nodes[..i + 1] == nodes[..i] + [nodes[i]];
  }

  lemma KindOf(nodes: seq<Node>, byId: map<string, Node>, x: string, kind: string)
    requires (forall n :: n in nodes ==> n.id in byId && byId[n.id] == n) && x in Ids(nodes)
    ensures x in byId && byId[x].id == x && byId[x] in nodes
    ensures byId[x].kind == kind <==> x in IdsOf(nodes, kind)
  {
    var n :| n in nodes && n.id == x;
  }

  /** The nodes after the first i have their presets. */
  function Partly(nodes: seq<Node>, i: nat, presets: seq<Preset>): (r: seq<Node>)
    requires i <= |nodes|
    ensures |r| == |nodes|
  {
    Resolve(nodes[..i], presets) + nodes[i..]
  }

  lemma NoneResolved(nodes: seq<Node>, presets: seq<Preset>)
    ensures Resolvable(nodes[..0], presets) && Partly(nodes, 0, presets) == nodes
  {
    assert nodes[..0] == [] && nodes[0..] == nodes;
  }

  lemma AllResolved(nodes: seq<Node>, presets: seq<Preset>)
    ensures nodes[..|nodes|] == nodes && Partly(nodes, |nodes|, presets) == Resolve(nodes, presets)
  {
    assert nodes[..|nodes|] == nodes;
  }

  lemma {:induction false} ResolveSplits(nodes: seq<Node>, i: nat, presets: seq<Preset>)
    requires i <= |nodes| && Resolvable(nodes[..i], presets)
    ensures Resolve(nodes, presets) == Resolve(nodes[..i], presets) + Resolve(nodes[i..], presets)
  {
    hide Selected, Selectable;
    if i == 0 {
      assert nodes[..0] == [] && nodes[0..] == nodes;
    } else {
      assert nodes[..i][0] == nodes[0] && nodes[..i][1..] == nodes[1..][..i - 1] && nodes[i..] == nodes[1..][i - 1..];
      ResolveSplits(nodes[1..], i - 1, presets);
    }
  }

  lemma SelectableIff(n: Node, presets: seq<Preset>)
    ensures Selectable(n, presets) <==> n.kind != "terminal" || |Candidates(n, presets)| == 1
    ensures Selectable(n, presets) ==>
              Selected(n, presets) == if n.kind == "terminal" then Chosen(n, Candidates(n, presets)[0]) else n
  {
  }

  lemma ResolvableGrows(nodes: seq<Node>, i: nat, presets: seq<Preset>)
    requires i < |nodes| && Resolvable(nodes[..i], presets)
    ensures Selectable(nodes[i], presets) ==> Resolvable(nodes[..i + 1], presets)
    ensures !Selectable(nodes[i], presets) ==> !Resolvable(nodes, presets)
    ensures Partly(nodes, i, presets)[i] == nodes[i]
  {
    hide Selectable, Resolve;
    assert nodes[..i + 1] == nodes[..i] + [nodes[i]];
  }

  lemma ResolveGoesOn(nodes: seq<Node>, i: nat, presets: seq<Preset>)
    requires i < |nodes| && Resolvable(nodes[..i], presets) && Selectable(nodes[i], presets)
    ensures Partly(nodes, i + 1, presets) == Partly(nodes, i, presets)[i := Selected(nodes[i], presets)]
  {
    hide Selectable, Selected, Resolvable;
    var n, next := nodes[i], nodes[..i + 1];
    assert next[..i] == nodes[..i] && next[i..] == [n];
    ResolveSplits(next, i, presets) by { ResolvableGrows(nodes, i, presets); }
    OneResolved(n, presets);
    hide Resolve;
    assert nodes[i..] == [n] + nodes[i + 1..];
  }

  lemma OneResolved(n: Node, presets: seq<Preset>)
    requires Selectable(n, presets)
    ensures Resolve([n], presets) == [Selected(n, presets)]
  {
    hide Selectable, Selected;
  }

  lemma ResolveStops(nodes: seq<Node>, i: nat, presets: seq<Preset>)
    requires i < |nodes| && Resolvable(nodes[..i], presets) && !Selectable(nodes[i], presets)
    ensures Partly(nodes, i, presets) == Resolve(nodes, presets)
  {
    hide Selectable, Selected, Resolvable;
    ResolveSplits(nodes, i, presets);
    assert nodes[i..][0] == nodes[i];
  }

  lemma NotUsed(id: string)
    ensures !Uses([], id)
  {
  }

  lemma CommandedGrows(nodes: seq<Node>, i: nat, presets: seq<Preset>)
    requires i < |nodes| && Commanded(nodes[..i], presets)
    ensures Commanded(nodes[..i + 1], presets) <==> HasCommand(nodes[i], presets)
    ensures !HasCommand(nodes[i], presets) ==> !Commanded(nodes, presets)
  {
    hide HasCommand;
    assert nodes[..i + 1] == nodes[..i] + [nodes[i]];
    assert nodes[..i + 1][i] == nodes[i];
  }

  lemma CommandUsed(nodes: seq<Node>, i: nat, presets: seq<Preset>)
    requires i < |nodes| && nodes[i].kind == "terminal"
    ensures At(Commands(presets, nodes), nodes[i].presetId) == CommandOf(presets, nodes[i].presetId)
  {
    CommandKnown(presets, nodes, nodes[i].presetId);
  }

  lemma DrawableGrows(connections: seq<Connection>, k: nat, nodes: seq<Node>)
    requires k < |connections| && Drawable(connections[..k], nodes)
    ensures var from := Oriented(connections[k], nodes).from;
      && (Drawable(connections[..k + 1], nodes) <==> from in IdsOf(nodes, "terminal"))
      && (from !in IdsOf(nodes, "terminal") ==> !Drawable(connections, nodes))
  {
    hide Oriented, IdsOf;
    assert connections[..k + 1] == connections[..k] + [connections[k]];
    assert connections[..k + 1][k] == connections[k];
  }

  /** The nodes found for the ends of a connection, the terminal first, are those of Oriented. */
  lemma EndsKnown(c: Connection, nodes: seq<Node>, g: Namer, ids: map<string, string>, terms: map<string, string>,
                  byId: map<string, Node>)
    requires Indexed(nodes, g, ids, terms, byId) && c.from in Ids(nodes) && c.to in Ids(nodes)
    requires forall n :: n in nodes ==> n.kind in ["terminal", "note", "portal"]
    ensures c.from in byId && c.to in byId && byId[c.from].id == c.from && byId[c.to].id == c.to
    ensures var f, t, o := byId[c.from], byId[c.to], Oriented(c, nodes);
      && (f.kind != "terminal" && t.kind == "terminal" ==> o == Connection(t.id, f.id))
      && (!(f.kind != "terminal" && t.kind == "terminal") ==> o == Connection(f.id, t.id))
      && (o.from in IdsOf(nodes, "terminal") <==> f.kind == "terminal" || t.kind == "terminal")
  {
    hide IdsOf, Ids;
    KindOf(nodes, byId, c.from, "terminal");
    KindOf(nodes, byId, c.to, "terminal");
  }

  lemma LinkForEnds(c: Connection, from: Node, to: Node, nodes: seq<Node>, g: Namer, ids: map<string, string>,
                    terms: map<string, string>, byId: map<string, Node>)
    requires Indexed(nodes, g, ids, terms, byId) && Oriented(c, nodes) == Connection(from.id, to.id)
    requires from.id in Ids(nodes) && to.id in Ids(nodes)
    requires from.id in byId && byId[from.id] == from && to.id in byId && byId[to.id] == to
    ensures forall k :: to.id in IdsOf(nodes, k) <==> to.kind == k
    ensures LinkFor(c, nodes, "terminal", g) ==
              map["id" := g.Edge(c), "terminalIdA" := At(terms, from.id), "terminalIdB" := At(terms, to.id)]
    ensures LinkFor(c, nodes, "note", g) ==
              map["id" := g.Edge(c), "terminalId" := At(terms, from.id), "noteNodeId" := At(ids, to.id)]
    ensures LinkFor(c, nodes, "portal", g) ==
              map["id" := g.Edge(c), "terminalId" := At(terms, from.id), "portalNodeId" := At(ids, to.id)]
  {
    hide IdsOf, Ids, Oriented;
    KindOf(nodes, byId, from.id, "terminal");
    KindOf(nodes, byId, to.id, "terminal");
    forall k
      ensures to.id in IdsOf(nodes, k) <==> to.kind == k
    {
      KindOf(nodes, byId, to.id, k);
    }
  }

  lemma NothingIndexed(g: Namer)
    ensures Indexed([], g, map[], map[], map[])
  {
  }

  lemma IndexKnown(nodes: seq<Node>, g: Namer, ids: map<string, string>, terms: map<string, string>,
                   byId: map<string, Node>)
    requires Indexed(nodes, g, ids, terms, byId)
    ensures forall n :: n in nodes ==> At(ids, n.id) == g.Node(n.id) && At(terms, n.id) == g.Terminal(n.id)
  {
  }

  /** Once the presets are chosen, the nodes are still told apart and of known kinds, the ends still there. */
  lemma ReadyToDraw(a: Arrangement, presets: seq<Preset>, validUrl: string -> bool)
    requires Valid(a, validUrl) && Resolvable(a.nodes, presets)
    ensures var nodes := Resolve(a.nodes, presets);
      && PartituraRoundTrip.DistinctIds(nodes)
      && (forall n :: n in nodes ==> n.kind in ["terminal", "note", "portal"])
      && forall c :: c in a.connections ==> c.from in Ids(nodes) && c.to in Ids(nodes)
  {
    hide Resolve, Resolvable, ValidShape, ValidIdentity, ValidSize, TrimSpace, Ids;
    var nodes := Resolve(a.nodes, presets);
    PartituraRoundTrip.ResolvedKeeps(a.nodes, presets, validUrl);
    forall n | n in nodes
      ensures n.kind in ["terminal", "note", "portal"]
    {
      var i :| 0 <= i < |nodes| && nodes[i] == n;
      assert ValidKind(nodes[i], validUrl);
    }
    forall c | c in a.connections
      ensures c.from in Ids(nodes) && c.to in Ids(nodes)
    {
      var k :| 0 <= k < |a.connections| && a.connections[k] == c;
    }
  }

  lemma OnlyKey<T>(m: map<string, T>, key: string)
    requires |m| == 1 && key in m
    ensures forall k :: k in m ==> k == key
  {
    assert m.Keys == {key} + (m.Keys - {key});
  }
}
