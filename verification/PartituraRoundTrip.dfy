/**
 Reading back an exported document gives the arrangement again, under new ids.
 */
module PartituraRoundTrip {
  import opened Text
  import opened ArrangementSpec
  import opened PartituraSpec

  /** What a node keeps: what its kind uses, at the place it had. */
  function Renamed(n: Node, g: Namer): Node
  {
    var t, p := n.kind == "terminal", n.kind == "portal";
    Node(g.Node(n.id), n.kind, n.name, "", if t then n.agentType else "", if t then n.prompt else "",
         if n.kind == "note" then n.text else "", if p then n.url else "", t && n.manager, n.x, n.y, n.width, n.height)
  }

  ghost predicate DistinctIds(nodes: seq<Node>)
  {
    forall i, j :: 0 <= i < j < |nodes| ==> nodes[i].id != nodes[j].id
  }

  lemma NamedApart(g: Namer, ids: set<string>, x: string, y: string)
    requires g.TellsApart(ids) && x in ids && y in ids
    ensures ValidRelayID(g.Node(x))
    ensures g.Node(x) == g.Node(y) <==> x == y
    ensures g.Terminal(x) == g.Terminal(y) <==> x == y
    ensures g.Role(x) == g.Role(y) <==> x == y
  {
    hide ValidRelayID;
    assert g.doc + "/node/" + x in g.Seeds(ids) && g.doc + "/node/" + y in g.Seeds(ids);
    assert g.doc + "/terminal/" + x in g.Seeds(ids) && g.doc + "/terminal/" + y in g.Seeds(ids);
    assert g.doc + "/role/" + x in g.Seeds(ids) && g.doc + "/role/" + y in g.Seeds(ids);
    SameTail(g.doc + "/node/", x, y);
    SameTail(g.doc + "/terminal/", x, y);
    SameTail(g.doc + "/role/", x, y);
  }

  lemma SameTail(p: string, x: string, y: string)
    ensures p + x == p + y <==> x == y
  {
    assert (p + x)[|p|..] == x && (p + y)[|p|..] == y;
  }

  // ---- Nodes ----

  lemma IdsOfInit(nodes: seq<Node>, ids: set<string>)
    requires nodes != [] && Ids(nodes) <= ids && DistinctIds(nodes)
    ensures Ids(nodes[..|nodes| - 1]) <= ids && DistinctIds(nodes[..|nodes| - 1])
    ensures nodes[|nodes| - 1].id in ids
  {
    assert nodes[|nodes| - 1] in nodes;
    assert forall n :: n in nodes[..|nodes| - 1] ==> n in nodes;
  }

  lemma IdAt(nodes: seq<Node>, i: nat)
    requires i < |nodes|
    ensures nodes[i].id in Ids(nodes) && nodes[i].id in IdsOf(nodes, nodes[i].kind)
  {
    assert nodes[i] in nodes;
  }

  /** The prompts by role, as the nodes are walked. */
  function PromptsFor(nodes: seq<Node>, g: Namer): map<string, string>
  {
    Prompts(RolesFor(nodes, g))
  }

  lemma PromptsGrow(nodes: seq<Node>, g: Namer)
    requires nodes != []
    ensures var before, n := PromptsFor(nodes[..|nodes| - 1], g), nodes[|nodes| - 1];
      PromptsFor(nodes, g) == if n.kind == "terminal" then before[g.Role(n.id) := n.prompt] else before
  {
    var init, n := nodes[..|nodes| - 1], nodes[|nodes| - 1];
    if n.kind == "terminal" {
      var roles, role := RolesFor(init, g), Role(g.Role(n.id), n.name, n.prompt);
      assert RolesFor(nodes, g) == roles + [role];
      assert (roles + [role])[..|roles|] == roles;
    } else {
      assert RolesFor(nodes, g) == RolesFor(init, g);
    }
  }

  lemma {:induction false} PromptKept(nodes: seq<Node>, g: Namer, ids: set<string>, i: nat)
    requires g.TellsApart(ids) && Ids(nodes) <= ids && DistinctIds(nodes)
    requires i < |nodes| && nodes[i].kind == "terminal"
    ensures At(PromptsFor(nodes, g), g.Role(nodes[i].id)) == nodes[i].prompt
  {
    hide PromptsFor, Namer.TellsApart, Namer.Role;
    var last := |nodes| - 1;
    IdAt(nodes, i);
    IdsOfInit(nodes, ids);
    NamedApart(g, ids, nodes[i].id, nodes[last].id);
    PromptsGrow(nodes, g);
    if i < last {
      assert nodes[i].id != nodes[last].id;
      PromptKept(nodes[..last], g, ids, i);
    }
  }

  lemma {:induction false} TextKept(nodes: seq<Node>, g: Namer, ids: set<string>, i: nat)
    requires g.TellsApart(ids) && Ids(nodes) <= ids && DistinctIds(nodes)
    requires i < |nodes| && nodes[i].kind == "note"
    ensures At(NoteTextsFor(nodes, g), g.Node(nodes[i].id)) == nodes[i].text
  {
    var last := |nodes| - 1;
    IdAt(nodes, i);
    IdsOfInit(nodes, ids);
    NamedApart(g, ids, nodes[i].id, nodes[last].id);
    if i < last {
      assert nodes[i].id != nodes[last].id;
      TextKept(nodes[..last], g, ids, i);
    }
  }

  function OwnersFor(nodes: seq<Node>, presets: seq<Preset>, g: Namer): map<string, string>
  {
    Owners(DrawnAll(nodes, presets, g))
  }

  lemma OwnersGrow(nodes: seq<Node>, presets: seq<Preset>, g: Namer)
    requires nodes != []
    ensures var before, n := OwnersFor(nodes[..|nodes| - 1], presets, g), nodes[|nodes| - 1];
      OwnersFor(nodes, presets, g) ==
      if n.kind == "terminal" then before[g.Terminal(n.id) := g.Node(n.id)] else before
  {
    hide Namer.Node, Namer.Terminal, Namer.Role, Namer.Portal, CommandOf;
    var init, n := nodes[..|nodes| - 1], nodes[|nodes| - 1];
    var drawn, d := DrawnAll(init, presets, g), Drawn(n, presets, g);
    assert (drawn + [d])[..|drawn|] == drawn;
  }

  lemma {:induction false} OwnerKept(nodes: seq<Node>, presets: seq<Preset>, g: Namer, ids: set<string>, x: string)
    requires g.TellsApart(ids) && Ids(nodes) <= ids && DistinctIds(nodes)
    requires x in IdsOf(nodes, "terminal")
    ensures At(OwnersFor(nodes, presets, g), g.Terminal(x)) == g.Node(x)
  {
    hide OwnersFor, Namer.TellsApart, Namer.Node, Namer.Terminal, Namer.Role;
    var last := |nodes| - 1;
    var init, n := nodes[..last], nodes[last];
    var m :| m in nodes && m.kind == "terminal" && m.id == x;
    assert x in Ids(nodes);
    IdsOfInit(nodes, ids);
    NamedApart(g, ids, x, n.id);
    OwnersGrow(nodes, presets, g);
    if m != n {
      assert m in init;
      assert x in IdsOf(init, "terminal");
      DistinctFromLast(nodes, m);
      OwnerKept(init, presets, g, ids, x);
    }
  }

  lemma DistinctFromLast(nodes: seq<Node>, m: Node)
    requires nodes != [] && DistinctIds(nodes) && m in nodes[..|nodes| - 1]
    ensures m.id != nodes[|nodes| - 1].id
  {
    var i :| 0 <= i < |nodes| - 1 && nodes[..|nodes| - 1][i] == m;
  }

  lemma ReadDrawn(n: Node, presets: seq<Preset>, g: Namer, validUrl: string -> bool, prompts: map<string, string>,
                  texts: map<string, string>)
    requires ValidKind(n, validUrl)
    requires n.kind == "terminal" ==> At(prompts, g.Role(n.id)) == n.prompt
    requires n.kind == "note" ==> At(texts, g.Node(n.id)) == n.text
    ensures Known(Drawn(n, presets, g))
    ensures Read(Drawn(n, presets, g), prompts, texts) == Renamed(n, g)
  {
    hide At;
  }

  lemma {:induction false} DrawnAt(nodes: seq<Node>, presets: seq<Preset>, g: Namer, i: nat)
    requires i < |nodes|
    ensures DrawnAll(nodes, presets, g)[i] == Drawn(nodes[i], presets, g)
  {
    hide Drawn;
    if i < |nodes| - 1 {
      DrawnAt(nodes[..|nodes| - 1], presets, g, i);
    }
  }

  lemma {:induction false} ReadAt(nodes: seq<CanvasNode>, prompts: map<string, string>,
                                  texts: map<string, string>, i: nat)
    requires (forall i :: 0 <= i < |nodes| ==> Known(nodes[i])) && i < |nodes|
    ensures ReadAll(nodes, prompts, texts)[i] == Read(nodes[i], prompts, texts)
  {
    hide Read, Known;
    if i < |nodes| - 1 {
      ReadAt(nodes[..|nodes| - 1], prompts, texts, i);
    }
  }

  /** Every drawn node is read back as itself, renamed, at its own position. */
  lemma NodesKept(nodes: seq<Node>, presets: seq<Preset>, g: Namer, validUrl: string -> bool)
    requires ValidNodes(nodes, validUrl) && g.TellsApart(Ids(nodes))
    ensures var drawn := DrawnAll(nodes, presets, g);
      (forall i :: 0 <= i < |drawn| ==> Known(drawn[i])) &&
      var read := ReadAll(drawn, PromptsFor(nodes, g), NoteTextsFor(nodes, g));
      forall i :: 0 <= i < |nodes| ==> read[i] == Renamed(nodes[i], g)
  {
    hide Known, Read, Drawn, Renamed, ValidKind, ValidIdentity, ValidSize, PromptsFor, NoteTextsFor, At;
    var drawn := DrawnAll(nodes, presets, g);
    var prompts, texts := PromptsFor(nodes, g), NoteTextsFor(nodes, g);
    forall i | 0 <= i < |drawn|
      ensures Known(drawn[i])
      ensures Read(drawn[i], prompts, texts) == Renamed(nodes[i], g)
    {
      DrawnAt(nodes, presets, g, i);
      if nodes[i].kind == "terminal" {
        PromptKept(nodes, g, Ids(nodes), i);
      }
      if nodes[i].kind == "note" {
        TextKept(nodes, g, Ids(nodes), i);
      }
      ReadDrawn(nodes[i], presets, g, validUrl, prompts, texts);
    }
    forall i | 0 <= i < |nodes|
      ensures ReadAll(drawn, prompts, texts)[i] == Renamed(nodes[i], g)
    {
      ReadAt(drawn, prompts, texts, i);
    }
  }

  // ---- Edges ----

  /** The connections to nodes of one kind, terminal end first. */
  function Pick(cs: seq<Connection>, nodes: seq<Node>, kind: string): seq<Connection>
  {
    if cs == [] then []
    else
      var o := Oriented(cs[|cs| - 1], nodes);
      Pick(cs[..|cs| - 1], nodes, kind) + if o.to in IdsOf(nodes, kind) then [o] else []
  }

  /** All of them, in the order the parser lists them. */
  function Regrouped(cs: seq<Connection>, nodes: seq<Node>): seq<Connection>
  {
    Pick(cs, nodes, "terminal") + Pick(cs, nodes, "note") + Pick(cs, nodes, "portal")
  }

  lemma KindsCover(nodes: seq<Node>, validUrl: string -> bool, x: string)
    requires ValidNodes(nodes, validUrl) && x in Ids(nodes)
    ensures x in IdsOf(nodes, "terminal") || x in IdsOf(nodes, "note") || x in IdsOf(nodes, "portal")
    ensures !(x in IdsOf(nodes, "terminal") && x in IdsOf(nodes, "note"))
    ensures !(x in IdsOf(nodes, "terminal") && x in IdsOf(nodes, "portal"))
    ensures !(x in IdsOf(nodes, "note") && x in IdsOf(nodes, "portal"))
  {
    hide ValidIdentity, ValidSize;
    var n :| n in nodes && n.id == x;
    var i :| 0 <= i < |nodes| && nodes[i] == n;
    assert ValidKind(nodes[i], validUrl);
    IdAt(nodes, i);
    hide ValidNodes;
    forall k, l | x in IdsOf(nodes, k) && x in IdsOf(nodes, l)
      ensures k == l
    {
      DistinctIdsDistinctKinds(nodes, validUrl, x, k, l);
    }
  }

  /** One connection more lengthens one of the three groups, by that connection. */
  lemma RegroupedGrows(cs: seq<Connection>, nodes: seq<Node>, validUrl: string -> bool)
    returns (q: seq<Connection>, r: seq<Connection>)
    requires cs != [] && ValidNodes(nodes, validUrl) && ValidEdge(cs[|cs| - 1], Ids(nodes))
    ensures Regrouped(cs[..|cs| - 1], nodes) == q + r
    ensures Regrouped(cs, nodes) == q + [Oriented(cs[|cs| - 1], nodes)] + r
  {
    hide IdsOf, ValidNodes;
    var init, o := cs[..|cs| - 1], Oriented(cs[|cs| - 1], nodes);
    KindsCover(nodes, validUrl, o.to);
    var t, n, p := Pick(init, nodes, "terminal"), Pick(init, nodes, "note"), Pick(init, nodes, "portal");
    if o.to in IdsOf(nodes, "terminal") {
      q, r := t, n + p;
    } else if o.to in IdsOf(nodes, "note") {
      q, r := t + n, p;
    } else {
      q, r := t + n + p, [];
    }
  }

  lemma InsertKeepsDistinct(q: seq<Connection>, r: seq<Connection>, o: Connection)
    requires NoRepeatedEdge(q + r) && forall d :: d in q + r ==> !SameEdge(d, o)
    ensures NoRepeatedEdge(q + [o] + r)
  {
    hide SameEdge;
    var before, after := q + r, q + [o] + r;
    forall i, j | 0 <= i < j < |after|
      ensures !SameEdge(after[i], after[j])
    {
      var i', j' := if i < |q| then i else i - 1, if j < |q| then j else j - 1;
      if i == |q| {
        assert after[j] == before[j'] && before[j'] in before;
        SameEdgeSymmetric(o, after[j]);
      } else if j == |q| {
        assert after[i] == before[i'] && before[i'] in before;
      } else {
        assert after[i] == before[i'] && after[j] == before[j'];
      }
    }
  }

  lemma SameEdgeSymmetric(c: Connection, d: Connection)
    ensures SameEdge(c, d) <==> SameEdge(d, c)
  {
  }

  ghost predicate Comes(d: Connection, cs: seq<Connection>, nodes: seq<Node>)
  {
    exists i :: 0 <= i < |cs| && Oriented(cs[i], nodes) == d
  }

  lemma ComesGrows(d: Connection, cs: seq<Connection>, nodes: seq<Node>)
    requires cs != []
    ensures Comes(d, cs, nodes) <==> d == Oriented(cs[|cs| - 1], nodes) || Comes(d, cs[..|cs| - 1], nodes)
  {
    hide Oriented;
    var init := cs[..|cs| - 1];
    if Comes(d, init, nodes) {
      var i :| 0 <= i < |init| && Oriented(init[i], nodes) == d;
      assert Oriented(cs[i], nodes) == d;
    }
    if Comes(d, cs, nodes) {
      var i :| 0 <= i < |cs| && Oriented(cs[i], nodes) == d;
      assert i < |init| ==> Oriented(init[i], nodes) == d;
    }
  }

  lemma ComesApart(d: Connection, cs: seq<Connection>, nodes: seq<Node>)
    requires cs != [] && NoRepeatedEdge(cs) && Comes(d, cs[..|cs| - 1], nodes)
    ensures !SameEdge(d, Oriented(cs[|cs| - 1], nodes))
  {
    var init := cs[..|cs| - 1];
    var i :| 0 <= i < |init| && Oriented(init[i], nodes) == d;
    OrientedSame(cs[i], cs[|cs| - 1], nodes);
    hide SameEdge, Oriented;
  }

  /** Regrouping loses no edge, adds none and repeats none. */
  lemma {:induction false} RegroupedKeepsEdges(cs: seq<Connection>, nodes: seq<Node>, validUrl: string -> bool)
    requires ValidNodes(nodes, validUrl) && ValidEdges(cs, Ids(nodes))
    ensures |Regrouped(cs, nodes)| == |cs| && NoRepeatedEdge(Regrouped(cs, nodes))
    ensures forall d :: d in Regrouped(cs, nodes) <==> Comes(d, cs, nodes)
  {
    hide ValidNodes, Regrouped, Oriented, Comes, Ids;
    if cs == [] {
      EmptyRegrouped(nodes);
    } else {
      var last := |cs| - 1;
      var init, o := cs[..last], Oriented(cs[last], nodes);
      assert NoRepeatedEdge(init) && NoRepeatedEdge(cs);
      RegroupedKeepsEdges(init, nodes, validUrl);
      var q, r := RegroupedGrows(cs, nodes, validUrl);
      hide NoRepeatedEdge, ValidEdges;
      forall d | d in q + r
        ensures !SameEdge(d, o)
      {
        ComesApart(d, cs, nodes);
      }
      InsertKeepsDistinct(q, r, o);
      forall d
        ensures d in Regrouped(cs, nodes) <==> Comes(d, cs, nodes)
      {
        ComesGrows(d, cs, nodes);
        assert d in q + [o] + r <==> d == o || d in q + r;
      }
    }
  }

  lemma EmptyRegrouped(nodes: seq<Node>)
    ensures Regrouped([], nodes) == [] && NoRepeatedEdge([]) && forall d :: !Comes(d, [], nodes)
  {
  }

  lemma OrientedSame(c: Connection, d: Connection, nodes: seq<Node>)
    ensures SameEdge(Oriented(c, nodes), Oriented(d, nodes)) <==> SameEdge(c, d)
    ensures SameEdge(Oriented(c, nodes), c)
  {
  }

  function RenamedEdge(o: Connection, g: Namer): Connection
  {
    Connection(g.Node(o.from), g.Node(o.to))
  }

  function RenamedEdges(cs: seq<Connection>, g: Namer): (r: seq<Connection>)
    ensures |r| == |cs|
    ensures forall i :: 0 <= i < |cs| ==> r[i] == RenamedEdge(cs[i], g)
  {
    seq(|cs|, i requires 0 <= i < |cs| => RenamedEdge(cs[i], g))
  }

  ghost predicate OwnersKnown(nodes: seq<Node>, owners: map<string, string>, g: Namer)
  {
    forall x :: x in IdsOf(nodes, "terminal") ==> At(owners, g.Terminal(x)) == g.Node(x)
  }

  lemma LinkRead(c: Connection, nodes: seq<Node>, kind: string, g: Namer, owners: map<string, string>)
    requires OwnersKnown(nodes, owners, g) && kind in ["terminal", "note", "portal"]
    requires Oriented(c, nodes).from in IdsOf(nodes, "terminal") && Oriented(c, nodes).to in IdsOf(nodes, kind)
    ensures ReadLink(LinkFor(c, nodes, kind, g), kind, owners) == RenamedEdge(Oriented(c, nodes), g)
  {
    hide Oriented, IdsOf, Namer.Terminal, Namer.Node, Namer.Edge;
  }

  lemma {:induction false} LinksRead(cs: seq<Connection>, nodes: seq<Node>, kind: string, g: Namer,
                                     owners: map<string, string>)
    requires OwnersKnown(nodes, owners, g) && kind in ["terminal", "note", "portal"] && Drawable(cs, nodes)
    ensures ReadLinks(LinksFor(cs, nodes, kind, g), kind, owners) == RenamedEdges(Pick(cs, nodes, kind), g)
  {
    hide Oriented, IdsOf, OwnersKnown, ReadLink, LinkFor, RenamedEdge;
    if cs != [] {
      var init, c := cs[..|cs| - 1], cs[|cs| - 1];
      LinksRead(init, nodes, kind, g, owners);
      var links, link := LinksFor(init, nodes, kind, g), LinkFor(c, nodes, kind, g);
      if Oriented(c, nodes).to in IdsOf(nodes, kind) {
        LinkRead(c, nodes, kind, g, owners);
        assert (links + [link])[..|links|] == links;
      }
    }
  }

  lemma ConnectionsRead(a: Arrangement, nodes: seq<Node>, presets: seq<Preset>, g: Namer, validUrl: string -> bool)
    requires ValidNodes(nodes, validUrl) && g.TellsApart(Ids(nodes)) && Drawable(a.connections, nodes)
    ensures ReadConnections(Document(a, nodes, presets, g)) == RenamedEdges(Regrouped(a.connections, nodes), g)
  {
    hide ReadLinks, LinksFor, Pick, Drawable, ValidIdentity, ValidSize, ValidKind, Namer.TellsApart, At;
    var owners := Owners(DrawnAll(nodes, presets, g));
    forall x | x in IdsOf(nodes, "terminal")
      ensures At(owners, g.Terminal(x)) == g.Node(x)
    {
      OwnerKept(nodes, presets, g, Ids(nodes), x);
    }
    hide Owners, DrawnAll, IdsOf;
    LinksRead(a.connections, nodes, "terminal", g, owners);
    LinksRead(a.connections, nodes, "note", g, owners);
    LinksRead(a.connections, nodes, "portal", g, owners);
    RenamedConcat(Pick(a.connections, nodes, "terminal"), Pick(a.connections, nodes, "note"),
                  Pick(a.connections, nodes, "portal"), g);
  }

  lemma RenamedConcat(t: seq<Connection>, n: seq<Connection>, p: seq<Connection>, g: Namer)
    ensures RenamedEdges(t, g) + RenamedEdges(n, g) + RenamedEdges(p, g) == RenamedEdges(t + n + p, g)
  {
    hide RenamedEdge;
  }

  // ---- The arrangement read back ----

  ghost predicate RenamedNodes(nodes: seq<Node>, read: seq<Node>, g: Namer)
  {
    |read| == |nodes| && forall i :: 0 <= i < |nodes| ==> read[i] == Renamed(nodes[i], g)
  }

  lemma RenamedIsValid(n: Node, g: Namer, validUrl: string -> bool)
    requires ValidNode(n, validUrl) && ValidRelayID(g.Node(n.id))
    ensures ValidNode(Renamed(n, g), validUrl)
  {
    hide ValidRelayID, TrimSpace, Namer.Node;
  }

  lemma RenamedAreValid(nodes: seq<Node>, read: seq<Node>, g: Namer, validUrl: string -> bool)
    requires ValidNodes(nodes, validUrl) && g.TellsApart(Ids(nodes)) && RenamedNodes(nodes, read, g)
    ensures ValidNodes(read, validUrl)
  {
    hide ValidNode, Namer.TellsApart, Namer.Node, ValidRelayID;
    forall i | 0 <= i < |read|
      ensures ValidNode(read[i], validUrl)
    {
      IdAt(nodes, i);
      NamedApart(g, Ids(nodes), nodes[i].id, nodes[i].id);
      RenamedIsValid(nodes[i], g, validUrl);
    }
    forall i, j | 0 <= i < j < |read|
      ensures read[i].id != read[j].id
    {
      IdAt(nodes, i);
      IdAt(nodes, j);
      NamedApart(g, Ids(nodes), nodes[i].id, nodes[j].id);
    }
  }

  lemma RenamedId(nodes: seq<Node>, read: seq<Node>, g: Namer, x: string)
    requires RenamedNodes(nodes, read, g) && x in Ids(nodes)
    ensures g.Node(x) in Ids(read)
  {
    hide Namer.Node;
    var n :| n in nodes && n.id == x;
    var i :| 0 <= i < |nodes| && nodes[i] == n;
    IdAt(read, i);
  }

  lemma RenamedSameEdge(c: Connection, d: Connection, g: Namer, ids: set<string>)
    requires g.TellsApart(ids) && ValidEdge(c, ids) && ValidEdge(d, ids)
    ensures SameEdge(RenamedEdge(c, g), RenamedEdge(d, g)) <==> SameEdge(c, d)
    ensures RenamedEdge(c, g).from != RenamedEdge(c, g).to
  {
    hide Namer.TellsApart, Namer.Node, ValidRelayID, Namer.Terminal, Namer.Role;
    NamedApart(g, ids, c.from, d.from);
    NamedApart(g, ids, c.from, d.to);
    NamedApart(g, ids, c.to, d.from);
    NamedApart(g, ids, c.to, d.to);
    NamedApart(g, ids, c.from, c.to);
  }

  lemma RenamedEdgesValid(cs: seq<Connection>, nodes: seq<Node>, read: seq<Node>, g: Namer)
    requires ValidEdges(cs, Ids(nodes)) && g.TellsApart(Ids(nodes)) && RenamedNodes(nodes, read, g)
    ensures ValidEdges(RenamedEdges(cs, g), Ids(read))
  {
    hide Namer.TellsApart, SameEdge, RenamedNodes, Ids;
    forall i | 0 <= i < |cs|
      ensures ValidEdge(RenamedEdge(cs[i], g), Ids(read))
    {
      RenamedSameEdge(cs[i], cs[i], g, Ids(nodes));
      RenamedId(nodes, read, g, cs[i].from);
      RenamedId(nodes, read, g, cs[i].to);
    }
    hide RenamedEdge;
    forall i, j | 0 <= i < j < |cs|
      ensures !SameEdge(RenamedEdge(cs[i], g), RenamedEdge(cs[j], g))
    {
      RenamedSameEdge(cs[i], cs[j], g, Ids(nodes));
    }
  }

  lemma RegroupedValid(cs: seq<Connection>, nodes: seq<Node>, validUrl: string -> bool)
    requires ValidNodes(nodes, validUrl) && ValidEdges(cs, Ids(nodes))
    ensures ValidEdges(Regrouped(cs, nodes), Ids(nodes)) && |Regrouped(cs, nodes)| == |cs|
  {
    hide Regrouped, ValidNodes, Ids, NoRepeatedEdge;
    RegroupedKeepsEdges(cs, nodes, validUrl);
    var r := Regrouped(cs, nodes);
    forall k | 0 <= k < |r|
      ensures ValidEdge(r[k], Ids(nodes))
    {
      assert Comes(r[k], cs, nodes);
      var i :| 0 <= i < |cs| && Oriented(cs[i], nodes) == r[k];
    }
  }

  // ---- The round trip ----

  /** An edge between x and y, in either direction. */
  ghost predicate Linked(cs: seq<Connection>, x: string, y: string)
  {
    exists i :: 0 <= i < |cs| && SameEdge(cs[i], Connection(x, y))
  }

  lemma LinkedKept(cs: seq<Connection>, nodes: seq<Node>, g: Namer, validUrl: string -> bool, x: string, y: string)
    requires ValidNodes(nodes, validUrl) && ValidEdges(cs, Ids(nodes)) && g.TellsApart(Ids(nodes))
    requires x in Ids(nodes) && y in Ids(nodes) && x != y
    ensures Linked(RenamedEdges(Regrouped(cs, nodes), g), g.Node(x), g.Node(y)) <==> Linked(cs, x, y)
  {
    hide Namer.TellsApart, Ids, ValidNodes, Regrouped, Oriented, NoRepeatedEdge, RenamedEdge, SameEdge;
    var e, r := Connection(x, y), Regrouped(cs, nodes);
    RenamedEnds(e, g);
    RegroupedKeepsEdges(cs, nodes, validUrl);
    RegroupedValid(cs, nodes, validUrl);
    if Linked(cs, x, y) {
      var i :| 0 <= i < |cs| && SameEdge(cs[i], e);
      assert Comes(Oriented(cs[i], nodes), cs, nodes);
      var k :| 0 <= k < |r| && r[k] == Oriented(cs[i], nodes);
      SameEdgeChain(r[k], cs[i], e) by { OrientedSame(cs[i], cs[i], nodes); }
      RenamedSameEdge(r[k], e, g, Ids(nodes));
    }
    if Linked(RenamedEdges(r, g), g.Node(x), g.Node(y)) {
      var k :| 0 <= k < |r| && SameEdge(RenamedEdges(r, g)[k], RenamedEdge(e, g));
      RenamedSameEdge(r[k], e, g, Ids(nodes));
      assert Comes(r[k], cs, nodes);
      var i :| 0 <= i < |cs| && Oriented(cs[i], nodes) == r[k];
      OrientedSame(cs[i], cs[i], nodes);
      SameEdgeSymmetric(r[k], cs[i]);
      SameEdgeChain(cs[i], r[k], e);
    }
  }

  lemma RenamedEnds(e: Connection, g: Namer)
    ensures RenamedEdge(e, g) == Connection(g.Node(e.from), g.Node(e.to))
  {
  }

  lemma SameEdgeChain(c: Connection, d: Connection, e: Connection)
    requires SameEdge(c, d) && SameEdge(d, e)
    ensures SameEdge(c, e)
  {
  }

  /** Choosing presets touches no more than the preset and the agent type. */
  lemma ResolvedKeeps(nodes: seq<Node>, presets: seq<Preset>, validUrl: string -> bool)
    requires ValidNodes(nodes, validUrl) && Resolvable(nodes, presets)
    ensures ValidNodes(Resolve(nodes, presets), validUrl)
    ensures Ids(Resolve(nodes, presets)) == Ids(nodes)
  {
    hide Resolve, ValidNode, Resolvable;
    var r := Resolve(nodes, presets);
    forall i | 0 <= i < |nodes|
      ensures r[i].id == nodes[i].id && ValidNode(r[i], validUrl)
    {
      ResolvedAt(nodes, presets, i);
      SelectedKeeps(nodes[i], presets, validUrl) by { SelectableAt(nodes, presets, i); }
    }
    SameIds(nodes, r);
  }

  lemma SelectableAt(nodes: seq<Node>, presets: seq<Preset>, i: nat)
    requires Resolvable(nodes, presets) && i < |nodes|
    ensures Selectable(nodes[i], presets)
  {
  }

  lemma SelectedKeeps(n: Node, presets: seq<Preset>, validUrl: string -> bool)
    requires ValidNode(n, validUrl) && Selectable(n, presets)
    ensures ValidNode(Selected(n, presets), validUrl) && Selected(n, presets).id == n.id
  {
    hide ValidRelayID, TrimSpace;
  }

  lemma SameIds(nodes: seq<Node>, r: seq<Node>)
    requires |r| == |nodes| && forall i :: 0 <= i < |nodes| ==> r[i].id == nodes[i].id
    ensures Ids(r) == Ids(nodes)
  {
    forall i | 0 <= i < |nodes|
      ensures nodes[i].id in Ids(r) && r[i].id in Ids(nodes)
    {
      IdAt(nodes, i);
      IdAt(r, i);
    }
    forall x
      ensures x in Ids(r) <==> x in Ids(nodes)
    {
      if x in Ids(r) {
        var n :| n in r && n.id == x;
        var i :| 0 <= i < |r| && r[i] == n;
      }
      if x in Ids(nodes) {
        var n :| n in nodes && n.id == x;
        var i :| 0 <= i < |nodes| && nodes[i] == n;
      }
    }
  }

  lemma PrefixedName(name: string)
    requires TrimSpace(name) != ""
    ensures ByteLen(PREFIX + name) == 9 + ByteLen(name) && TrimSpace(PREFIX + name) != ""
  {
    ByteLenConcat(PREFIX, name);
    assert PREFIX[1..] == "elay · " && PREFIX[1..][1..] == "lay · " && PREFIX[2..][1..] == "ay · ";
    assert ByteLen("· ") == 2 + 1;
    assert ByteLen("y · ") == 5;
    assert ByteLen("lay · ") == 7;
    assert ByteLen(PREFIX) == 9;
    BlankIsTrimmedAway(PREFIX + name);
    assert (PREFIX + name)[0] == 'R' && !IsSpace('R');
  }

  /** The same nodes in the same order, renamed, and the same undirected edges, each once. */
  ghost predicate Mirrors(b: Arrangement, a: Arrangement, nodes: seq<Node>, g: Namer)
  {
    && b.name == PREFIX + a.name && b.description == a.description
    && RenamedNodes(nodes, b.nodes, g)
    && |b.connections| == |a.connections|
    && forall x, y :: x in Ids(a.nodes) && y in Ids(a.nodes) && x != y ==>
                        (Linked(b.connections, g.Node(x), g.Node(y)) <==> Linked(a.connections, x, y))
  }

  lemma DocumentMirrors(a: Arrangement, presets: seq<Preset>, validUrl: string -> bool, g: Namer)
    requires Exportable(a, presets, validUrl) && g.TellsApart(Ids(a.nodes))
    ensures var nodes := Resolve(a.nodes, presets);
      var p := Document(a, nodes, presets, g);
      && Supported(p) && (forall i :: 0 <= i < |p.nodes| ==> Known(p.nodes[i]))
      && Mirrors(Arranged(p), a, nodes, g)
      && ValidNodes(Arranged(p).nodes, validUrl)
      && ValidEdges(Arranged(p).connections, Ids(Arranged(p).nodes))
  {
    hide Namer.TellsApart, ValidNodes, ValidEdges, Resolve, Resolvable, Commanded, Drawable, DrawnAll, Ids, ReadAll,
      Known, RolesFor, NoteTextsFor, LinksFor, ReadConnections, Linked, RenamedEdges, Regrouped, TrimSpace, ByteLen,
      PREFIX;
    var nodes := Resolve(a.nodes, presets);
    var p := Document(a, nodes, presets, g);
    ResolvedKeeps(a.nodes, presets, validUrl);
    NodesKept(nodes, presets, g, validUrl);
    assert p.nodes == DrawnAll(nodes, presets, g);
    assert forall i :: 0 <= i < |p.nodes| ==> Known(p.nodes[i]);
    ConnectionsRead(a, nodes, presets, g, validUrl);
    var read := Arranged(p).nodes;
    assert RenamedNodes(nodes, read, g);
    RenamedAreValid(nodes, read, g, validUrl);
    RegroupedValid(a.connections, nodes, validUrl);
    RenamedEdgesValid(Regrouped(a.connections, nodes), nodes, read, g);
    forall x, y | x in Ids(a.nodes) && y in Ids(a.nodes) && x != y
      ensures Linked(Arranged(p).connections, g.Node(x), g.Node(y)) <==> Linked(a.connections, x, y)
    {
      LinkedKept(a.connections, nodes, g, validUrl, x, y);
    }
  }

  /**
   An exported arrangement is read back exactly when its name leaves room for the prefix, and then
   it mirrors the one exported, whose terminals have their presets chosen.
   */
  lemma ExportReadsBack(a: Arrangement, presets: seq<Preset>, validUrl: string -> bool, g: Namer)
    requires Export(a, presets, validUrl, g).Some? && g.TellsApart(Ids(a.nodes))
    ensures var back := Parse(Export(a, presets, validUrl, g).value, validUrl);
      && (back.Some? <==> ByteLen(a.name) + 9 <= NAME_LIMIT)
      && (back.Some? ==> Mirrors(back.value, a, Resolve(a.nodes, presets), g))
  {
    hide ByteLen, TrimSpace, PREFIX, Document, ValidNodes, ValidEdges, Namer.TellsApart, Known, Resolve;
    assert Exportable(a, presets, validUrl);
    DocumentMirrors(a, presets, validUrl, g);
    PrefixedName(a.name);
  }

  // ---- What a terminal is started with ----

  /** The last preset in the list with this id. */
  ghost predicate LastWith(presets: seq<Preset>, id: string, l: int)
  {
    0 <= l < |presets| && presets[l].id == id && forall k :: l < k < |presets| ==> presets[k].id != id
  }

  ghost predicate LastCommand(presets: seq<Preset>, id: string, command: string)
  {
    exists l :: LastWith(presets, id, l) && presets[l].command == command
  }

  lemma {:induction false} CommandIsLast(presets: seq<Preset>, id: string, j: nat)
    requires j < |presets| && presets[j].id == id
    ensures LastCommand(presets, id, CommandOf(presets, id))
  {
    var last := |presets| - 1;
    if presets[last].id == id {
      assert LastWith(presets, id, last);
    } else {
      var init := presets[..last];
      assert forall k :: 0 <= k < last ==> init[k] == presets[k];
      CommandIsLast(init, id, j);
      var l :| LastWith(init, id, l) && init[l].command == CommandOf(init, id);
      assert LastWith(presets, id, l);
    }
  }

  /**
   An exported terminal carries the agent type of the one preset it asked for and the command of the
   last preset with the id of that one, which is not blank.
   */
  ghost predicate StartsAs(n: Node, presets: seq<Preset>, body: Body)
  {
    exists j :: OnlyWanted(n, presets, j) && body.agentType == presets[j].agentType
                && LastCommand(presets, presets[j].id, body.command)
                && TrimSpace(body.command) != "" && body.name == n.name && body.manager == n.manager
  }

  lemma DrawnStartsAs(n: Node, r: Node, presets: seq<Preset>, g: Namer)
    requires n.kind == "terminal" && Granted(n, presets, r) && HasCommand(r, presets)
    ensures var content := Drawn(r, presets, g).content;
      content.Keys == {"terminal"} && StartsAs(n, presets, content["terminal"])
  {
    hide TrimSpace, LastCommand;
    var j :| OnlyWanted(n, presets, j) && r == n.(presetId := presets[j].id, agentType := presets[j].agentType);
    CommandIsLast(presets, presets[j].id, j);
  }

  lemma ExportedTerminal(a: Arrangement, presets: seq<Preset>, validUrl: string -> bool, g: Namer, i: nat)
    requires Export(a, presets, validUrl, g).Some? && i < |a.nodes| && a.nodes[i].kind == "terminal"
    ensures var drawn := Export(a, presets, validUrl, g).value.nodes;
      && |drawn| == |a.nodes|
      && drawn[i].content.Keys == {"terminal"}
      && StartsAs(a.nodes[i], presets, drawn[i].content["terminal"])
  {
    hide Valid, Resolvable, Drawable, Drawn, StartsAs, HasCommand, Granted, RolesFor, NoteTextsFor, LinksFor;
    PresetsAsAsked(a.nodes, presets);
    var r := Resolve(a.nodes, presets);
    DrawnAt(r, presets, g, i);
    assert HasCommand(r[i], presets);
    DrawnStartsAs(a.nodes[i], r[i], presets, g);
  }

  // ---- A document that cannot be read ----

  function Repeated(n: nat): (s: string)
    ensures |s| == n
  {
    if n == 0 then "" else ['a'] + Repeated(n - 1)
  }

  lemma {:induction false} RepeatedBytes(n: nat)
    ensures ByteLen(Repeated(n)) == n
  {
    if n > 0 {
      RepeatedBytes(n - 1);
    }
  }

  /** A single note under a name of 192 bytes. */
  function LongNamed(): Arrangement
  {
    Arrangement("id", Repeated(192), "",
                [Node("n", "note", "note", "", "", "", "", "", false, 0.0, 0.0, 40.0, 40.0)], [])
  }

  lemma LongNamedIsValid(validUrl: string -> bool)
    ensures Valid(LongNamed(), validUrl) && ByteLen(LongNamed().name) == 192
  {
    hide ValidSize, ValidIdentity, TrimSpace, ByteLen;
    var a := LongNamed();
    var n := a.nodes[0];
    RepeatedBytes(192);
    BlankIsTrimmedAway(a.name);
    assert a.name[0] == 'a' && !IsSpace('a');
    NoteIsValid(n);
  }

  lemma NoteIsValid(n: Node)
    requires n == LongNamed().nodes[0]
    ensures ValidIdentity(n) && ValidSize(n)
  {
    hide Repeated;
    assert ByteLen("note") == 4 && ByteLen("") == 0;
  }

  /** It is valid and exported, and the document is not read back. */
  lemma LongNameIsNotReadBack(validUrl: string -> bool, g: Namer)
    ensures Export(LongNamed(), [], validUrl, g).Some?
    ensures Parse(Export(LongNamed(), [], validUrl, g).value, validUrl).None?
  {
    hide TrimSpace, Document, DrawnAll, ValidNodes, ValidEdges, ByteLen, PREFIX, Repeated, IdsOf;
    var a := LongNamed();
    LongNamedIsValid(validUrl);
    assert Resolve(a.nodes, []) == a.nodes;
    PrefixedName(a.name);
    NameInDocument(a, a.nodes, [], g);
  }

  lemma NameInDocument(a: Arrangement, nodes: seq<Node>, presets: seq<Preset>, g: Namer)
    ensures Document(a, nodes, presets, g).name == PREFIX + a.name
  {
  }
}
