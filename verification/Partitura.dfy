/** Validating, exporting and reading arrangements, step by step. */
module Partitura {
  import opened Text
  import opened ArrangementSpec
  import opened PartituraSpec
  import opened PartituraLoops
  import PartituraRoundTrip

  method Validate(a: Arrangement, validUrl: string -> bool) returns (ok: bool)
    ensures ok == Valid(a, validUrl)
  {
    hide TrimSpace, ByteLen, ValidNode, ValidNodes, ValidEdges, ValidEdge, Ids;
    if !ValidShape(a) {
      return false;
    }
    NothingYet(Ids(a.nodes), validUrl);
    var nodes: map<string, Node> := map[];
    var i := 0;
    assert a.nodes[..0] == [];
    while i < |a.nodes|
      invariant 0 <= i <= |a.nodes|
      invariant ValidNodes(a.nodes[..i], validUrl)
      invariant nodes.Keys == Ids(a.nodes[..i])
    {
      var n := a.nodes[i];
      NodesGrow(a.nodes, i, validUrl);
      if !ValidNode(n, validUrl) || n.id in nodes {
        return false;
      }
      nodes := nodes[n.id := n];
      i := i + 1;
    }
    assert a.nodes[..i] == a.nodes;
    var edges: set<string> := {};
    var k := 0;
    assert a.connections[..0] == [];
    while k < |a.connections|
      invariant 0 <= k <= |a.connections|
      invariant ValidEdges(a.connections[..k], Ids(a.nodes))
      invariant edges == Keys(a.connections[..k])
    {
      var c := a.connections[k];
      EdgesGrow(a.connections, k, a.nodes, validUrl);
      if !ValidEdge(c, nodes.Keys) || EdgeKey(c) in edges || EdgeKey(Connection(c.to, c.from)) in edges {
        return false;
      }
      edges := edges + {EdgeKey(c)};
      k := k + 1;
    }
    assert a.connections[..k] == a.connections;
    return true;
  }

  /** The presets a node can have, in their order. */
  method FindCandidates(n: Node, presets: seq<Preset>) returns (candidates: seq<Preset>)
    ensures candidates == Candidates(n, presets)
  {
    candidates := [];
    var i := 0;
    while i < |presets|
      invariant 0 <= i <= |presets|
      invariant candidates == Candidates(n, presets[..i])
    {
      var p := presets[i];
      assert presets[..i + 1][..i] == presets[..i];
      if n.presetId != "" {
        if p.id == n.presetId {
          candidates := candidates + [p];
        }
      } else if p.agentType == n.agentType || (n.agentType == "" && p.isDefault) {
        candidates := candidates + [p];
      }
      i := i + 1;
    }
    assert presets[..i] == presets;
  }

  /** An arrangement whose nodes sit in an array, as a Go slice does, that copies of it share. */
  class Sheet {
    const id: string
    const name: string
    const description: string
    const connections: seq<Connection>
    var nodes: array<Node>

    constructor (id: string, name: string, description: string, connections: seq<Connection>, nodes: array<Node>)
      ensures this.id == id && this.name == name && this.description == description
      ensures this.connections == connections && this.nodes == nodes
    {
      this.id, this.name, this.description, this.connections, this.nodes := id, name, description, connections, nodes;
    }

    function Value(): Arrangement
      reads this, nodes
    {
      Arrangement(id, name, description, nodes[..], connections)
    }

    /** Gives every terminal its one preset, in a fresh array: the nodes the caller passed stay as they are. */
    method ResolvePresets(presets: seq<Preset>) returns (ok: bool)
      modifies this`nodes
      ensures fresh(nodes) && old(nodes)[..] == old(nodes[..])
      ensures ok == Resolvable(old(nodes[..]), presets)
      ensures nodes[..] == Resolve(old(nodes[..]), presets)
    {
      hide Selectable, Selected, Candidates, Resolve, Resolvable, Partly;
      ghost var given := nodes[..];
      var from := nodes;
      nodes := new Node[from.Length](i requires 0 <= i < from.Length reads from => from[i]);
      assert nodes[..] == given;
      NoneResolved(given, presets);
      var i := 0;
      while i < nodes.Length
        invariant 0 <= i <= nodes.Length == |given| && fresh(nodes) && from[..] == given
        invariant Resolvable(given[..i], presets)
        invariant nodes[..] == Partly(given, i, presets)
      {
        ResolvableGrows(given, i, presets);
        var n := nodes[i];
        assert n == nodes[..][i] == given[i];
        if n.kind == "terminal" {
          var candidates := FindCandidates(n, presets);
          SelectableIff(n, presets);
          if |candidates| != 1 {
            ResolveStops(given, i, presets);
            return false;
          }
          ghost var before := nodes[..];
          nodes[i] := nodes[i].(presetId := candidates[0].id);
          nodes[i] := nodes[i].(agentType := candidates[0].agentType);
          assert nodes[..] == before[i := Chosen(n, candidates[0])];
        } else {
          SelectableIff(n, presets);
        }
        ResolveGoesOn(given, i, presets);
        i := i + 1;
      }
      AllResolved(given, presets);
      return true;
    }
  }

  /** The commands of the presets that terminals use. */
  method CollectCommands(presets: seq<Preset>, nodes: seq<Node>) returns (commands: map<string, string>)
    ensures commands == Commands(presets, nodes)
  {
    hide Uses;
    commands := map[];
    var i := 0;
    while i < |presets|
      invariant 0 <= i <= |presets|
      invariant commands == Commands(presets[..i], nodes)
    {
      var p := presets[i];
      ghost var before := commands;
      assert presets[..i + 1][..i] == presets[..i];
      NotUsed(p.id);
      assert nodes[..0] == [];
      var j := 0;
      while j < |nodes|
        invariant 0 <= j <= |nodes|
        invariant commands == if Uses(nodes[..j], p.id) then before[p.id := p.command] else before
      {
        UsesGrows(nodes, j, p.id);
        if nodes[j].kind == "terminal" && nodes[j].presetId == p.id {
          commands := commands[p.id := p.command];
        }
        j := j + 1;
      }
      assert nodes[..j] == nodes;
      i := i + 1;
    }
    assert presets[..i] == presets;
  }

  /** The nodes of the document, the roles and the note texts; none when a terminal has no command. */
  method DrawNodes(nodes: seq<Node>, presets: seq<Preset>, commands: map<string, string>, g: Namer,
                   ids: map<string, string>, terms: map<string, string>)
    returns (ok: bool, drawn: seq<CanvasNode>, roles: seq<Role>, texts: map<string, string>)
    requires commands == Commands(presets, nodes)
    requires forall n :: n in nodes ==> At(ids, n.id) == g.Node(n.id) && At(terms, n.id) == g.Terminal(n.id)
    ensures ok == Commanded(nodes, presets)
    ensures ok ==> drawn == DrawnAll(nodes, presets, g) && roles == RolesFor(nodes, g)
    ensures ok ==> texts == NoteTextsFor(nodes, g)
  {
    hide At, TrimSpace, Commands, CommandOf, Namer.Node, Namer.Terminal, Namer.Role, Namer.Portal, Uses;
    drawn, roles, texts := [], [], map[];
    var i := 0;
    while i < |nodes|
      invariant 0 <= i <= |nodes|
      invariant Commanded(nodes[..i], presets)
      invariant drawn == DrawnAll(nodes[..i], presets, g)
      invariant roles == RolesFor(nodes[..i], g)
      invariant texts == NoteTextsFor(nodes[..i], g)
    {
      var n := nodes[i];
      assert n in nodes;
      assert nodes[..i + 1][..i] == nodes[..i];
      CommandedGrows(nodes, i, presets);
      var content: map<string, Body> := map[];
      if n.kind == "terminal" {
        var command := At(commands, n.presetId);
        CommandUsed(nodes, i, presets);
        if TrimSpace(command) == "" {
          return false, [], [], map[];
        }
        var role := g.Role(n.id);
        roles := roles + [Role(role, n.name, n.prompt)];
        content := map["terminal" := Body(At(terms, n.id), n.name, n.agentType, command, role, n.manager, "", "")];
      } else if n.kind == "note" {
        content := map["stickyNote" := Body("", "", "", "", "", false, n.name, "")];
        texts := texts[At(ids, n.id) := n.text];
      } else if n.kind == "portal" {
        content := map["portal" := Body(g.Portal(n.id), n.name, "", "", "", false, "", n.url)];
      }
      assert content == Content(n, presets, g);
      drawn := drawn + [CanvasNode(At(ids, n.id), [[n.x, n.y], [n.width, n.height]], content)];
      i := i + 1;
    }
    assert nodes[..i] == nodes;
    return true, drawn, roles, texts;
  }

  /** The three lists of connections; none when one has no terminal end. */
  method DrawConnections(connections: seq<Connection>, nodes: seq<Node>, g: Namer, ids: map<string, string>,
                         terms: map<string, string>, byId: map<string, Node>)
    returns (ok: bool, toTerminals: seq<Link>, toNotes: seq<Link>, toPortals: seq<Link>)
    requires Indexed(nodes, g, ids, terms, byId)
    requires forall c :: c in connections ==> c.from in Ids(nodes) && c.to in Ids(nodes)
    requires forall n :: n in nodes ==> n.kind in ["terminal", "note", "portal"]
    ensures ok == Drawable(connections, nodes)
    ensures ok ==> toTerminals == LinksFor(connections, nodes, "terminal", g)
    ensures ok ==> toNotes == LinksFor(connections, nodes, "note", g)
    ensures ok ==> toPortals == LinksFor(connections, nodes, "portal", g)
  {
    hide IdsOf, Ids, Indexed, Oriented, LinkFor;
    toTerminals, toNotes, toPortals := [], [], [];
    var k := 0;
    while k < |connections|
      invariant 0 <= k <= |connections|
      invariant Drawable(connections[..k], nodes)
      invariant toTerminals == LinksFor(connections[..k], nodes, "terminal", g)
      invariant toNotes == LinksFor(connections[..k], nodes, "note", g)
      invariant toPortals == LinksFor(connections[..k], nodes, "portal", g)
    {
      var c := connections[k];
      assert c in connections;
      assert connections[..k + 1][..k] == connections[..k];
      DrawableGrows(connections, k, nodes);
      EndsKnown(c, nodes, g, ids, terms, byId);
      var from, to := byId[c.from], byId[c.to];
      if from.kind != "terminal" && to.kind == "terminal" {
        from, to := to, from;
      }
      if from.kind != "terminal" {
        return false, [], [], [];
      }
      LinkForEnds(c, from, to, nodes, g, ids, terms, byId);
      if to.kind == "terminal" {
        toTerminals := toTerminals +
          [map["id" := g.Edge(c), "terminalIdA" := At(terms, from.id), "terminalIdB" := At(terms, to.id)]];
      } else if to.kind == "note" {
        toNotes := toNotes +
          [map["id" := g.Edge(c), "terminalId" := At(terms, from.id), "noteNodeId" := At(ids, to.id)]];
      } else if to.kind == "portal" {
        toPortals := toPortals +
          [map["id" := g.Edge(c), "terminalId" := At(terms, from.id), "portalNodeId" := At(ids, to.id)]];
      }
      k := k + 1;
    }
    assert connections[..k] == connections;
    return true, toTerminals, toNotes, toPortals;
  }

  /** The three maps the export looks nodes up in. */
  method IndexNodes(nodes: seq<Node>, g: Namer)
    returns (ids: map<string, string>, terms: map<string, string>, byId: map<string, Node>)
    requires PartituraRoundTrip.DistinctIds(nodes)
    ensures Indexed(nodes, g, ids, terms, byId)
  {
    hide Indexed, Namer.Node, Namer.Terminal;
    ids, terms, byId := map[], map[], map[];
    NothingIndexed(g);
    assert nodes[..0] == [];
    var i := 0;
    while i < |nodes|
      invariant 0 <= i <= |nodes|
      invariant Indexed(nodes[..i], g, ids, terms, byId)
    {
      var n := nodes[i];
      IndexedGrows(nodes, i, g, ids, terms, byId);
      ids := ids[n.id := g.Node(n.id)];
      terms := terms[n.id := g.Terminal(n.id)];
      byId := byId[n.id := n];
      i := i + 1;
    }
    assert nodes[..i] == nodes;
  }

  /** The export works on a copy of the arrangement, which shares the node array with the caller's. */
  method NativePartitura(a: Sheet, presets: seq<Preset>, validUrl: string -> bool, sid: string -> string,
                         seal: (Arrangement, map<string, string>) -> string)
    returns (out: Option<PartituraSpec.Partitura>)
    ensures out == Export(a.Value(), presets, validUrl, Named(a.Value(), presets, sid, seal))
    ensures a.nodes == old(a.nodes) && a.nodes[..] == old(a.nodes[..])
  {
    hide Valid, Resolvable, Resolve, Commanded, Drawable, Commands, DrawnAll, LinksFor, RolesFor, NoteTextsFor, Indexed;
    var valid := Validate(a.Value(), validUrl);
    if !valid {
      return None;
    }
    var local := new Sheet(a.id, a.name, a.description, a.connections, a.nodes);
    var resolved := local.ResolvePresets(presets);
    if !resolved {
      return None;
    }
    var nodes := local.nodes[..];
    var commands := CollectCommands(presets, nodes);
    var g := Namer(sid, sid(seal(local.Value(), commands)));
    ReadyToDraw(a.Value(), presets, validUrl);
    var ids, terms, byId := IndexNodes(nodes, g);
    IndexKnown(nodes, g, ids, terms, byId);
    var commanded, drawn, roles, texts := DrawNodes(nodes, presets, commands, g, ids, terms);
    if !commanded {
      return None;
    }
    var drawable, toTerminals, toNotes, toPortals := DrawConnections(a.connections, nodes, g, ids, terms, byId);
    if !drawable {
      return None;
    }
    return Some(PartituraSpec.Partitura(1, g.doc, PREFIX + a.name, a.description, roles, drawn, texts,
                                        toTerminals, toNotes, toPortals, 0, 0, 0));
  }

  method ReadNode(n: CanvasNode, prompts: map<string, string>, texts: map<string, string>, owners: map<string, string>)
    returns (d: Option<Node>, known: map<string, string>)
    ensures d == if Known(n) then Some(Read(n, prompts, texts)) else None
    ensures d.Some? ==>
              known == if "terminal" in n.content then owners[n.content["terminal"].id := n.id] else owners
  {
    known := owners;
    if |n.content| != 1 || |n.frame| != 2 || |n.frame[0]| != 2 || |n.frame[1]| != 2 {
      return None, known;
    }
    var node := Node(n.id, "", "", "", "", "", "", "", false,
                     n.frame[0][0], n.frame[0][1], n.frame[1][0], n.frame[1][1]);
    var kind :| kind in n.content;
    var v := n.content[kind];
    OnlyKey(n.content, kind);
    match kind {
      case "terminal" =>
        node := node.(kind := "terminal", name := v.name, agentType := v.agentType, manager := v.manager);
        node := node.(prompt := At(prompts, v.roleId));
        known := known[v.id := n.id];
      case "stickyNote" =>
        node := node.(kind := "note", name := v.fileName, text := At(texts, n.id));
      case "portal" =>
        node := node.(kind := "portal", name := v.name, url := v.currentUrl);
      case _ =>
        return None, known;
    }
    return Some(node), known;
  }

  method CollectPrompts(roles: seq<Role>) returns (prompts: map<string, string>)
    ensures prompts == Prompts(roles)
  {
    prompts := map[];
    var r := 0;
    while r < |roles|
      invariant 0 <= r <= |roles|
      invariant prompts == Prompts(roles[..r])
    {
      assert roles[..r + 1][..r] == roles[..r];
      prompts := prompts[roles[r].id := roles[r].prompt];
      r := r + 1;
    }
    assert roles[..r] == roles;
  }

  method ParsePartitura(raw: PartituraSpec.Partitura, validUrl: string -> bool) returns (a: Option<Arrangement>)
    ensures a == Parse(raw, validUrl)
  {
    hide Known, Read, Prompts, ReadLinks, Valid;
    if raw.formatVersion != 1 || raw.drawings > 0 || raw.noteToNote > 0 || raw.portalToPortal > 0 {
      return None;
    }
    var prompts := CollectPrompts(raw.roles);
    var nodes: seq<Node> := [];
    var owners: map<string, string> := map[];
    var i := 0;
    while i < |raw.nodes|
      invariant 0 <= i <= |raw.nodes|
      invariant forall j :: 0 <= j < i ==> Known(raw.nodes[..i][j])
      invariant nodes == ReadAll(raw.nodes[..i], prompts, raw.noteTexts)
      invariant owners == Owners(raw.nodes[..i])
    {
      assert raw.nodes[..i + 1][..i] == raw.nodes[..i];
      var d, known := ReadNode(raw.nodes[i], prompts, raw.noteTexts, owners);
      if d.None? {
        return None;
      }
      nodes, owners := nodes + [d.value], known;
      i := i + 1;
    }
    assert raw.nodes[..i] == raw.nodes;
    var toTerminals := ReadConnectionList(raw.connections, "terminal", owners);
    var toNotes := ReadConnectionList(raw.noteConnections, "note", owners);
    var toPortals := ReadConnectionList(raw.portalConnections, "portal", owners);
    var arrangement := Arrangement(raw.id, raw.name, raw.description, nodes, toTerminals + toNotes + toPortals);
    var valid := Validate(arrangement, validUrl);
    return if valid then Some(arrangement) else None;
  }

  method ReadConnectionList(links: seq<Link>, kind: string, owners: map<string, string>) returns (r: seq<Connection>)
    ensures r == ReadLinks(links, kind, owners)
  {
    hide ReadLink;
    r := [];
    var k := 0;
    while k < |links|
      invariant 0 <= k <= |links|
      invariant r == ReadLinks(links[..k], kind, owners)
    {
      assert links[..k + 1][..k] == links[..k];
      r := r + [ReadLink(links[k], kind, owners)];
      k := k + 1;
    }
    assert links[..k] == links;
  }
}
