/**
 The native canvas document: exporting an arrangement to it and reading one back. JSON objects are
 records and maps; stableID is a function sid, told apart only where one document needs it.
 */
module PartituraSpec {
  import opened Text
  import opened ArrangementSpec

  /** What the parser reads of a node's body; an absent member is empty. */
  datatype Body = Body(
    id: string,
    name: string,
    agentType: string,
    command: string,
    roleId: string,
    manager: bool,
    fileName: string,
    currentUrl: string)

  datatype Role = Role(id: string, name: string, prompt: string)

  datatype CanvasNode = CanvasNode(id: string, frame: seq<seq<real>>, content: map<string, Body>)

  /** The text members of one connection. */
  type Link = map<string, string>

  datatype Partitura = Partitura(
    formatVersion: int,
    id: string,
    name: string,
    description: string,
    roles: seq<Role>,
    nodes: seq<CanvasNode>,
    noteTexts: map<string, string>,
    connections: seq<Link>,
    noteConnections: seq<Link>,
    portalConnections: seq<Link>,
    noteToNote: nat,
    portalToPortal: nat,
    drawings: nat)

  const PREFIX: string := "Relay · "
  const NO_BODY: Body := Body("", "", "", "", "", false, "", "")

  // ---- Identifiers ----

  /** sid and the document's own id. */
  datatype Namer = Namer(sid: string -> string, doc: string)
  {
    function Node(x: string): string {
      sid(doc + "/node/" + x)
    }

    function Terminal(x: string): string {
      sid(doc + "/terminal/" + x)
    }

    function Role(x: string): string {
      sid(doc + "/role/" + x)
    }

    function Portal(x: string): string {
      sid(doc + "/portal/" + x)
    }

    function Edge(c: Connection): string {
      sid(doc + "/edge/" + c.from + "/" + c.to)
    }

    /** The texts hashed for these node ids. */
    function Seeds(ids: set<string>): set<string> {
      (set x | x in ids :: doc + "/node/" + x)
      + (set x | x in ids :: doc + "/terminal/" + x)
      + (set x | x in ids :: doc + "/role/" + x)
    }

    /** No two of the texts hashed for these node ids collide, and all give valid ids. */
    ghost predicate TellsApart(ids: set<string>) {
      && (forall s, t :: s in Seeds(ids) && t in Seeds(ids) && sid(s) == sid(t) ==> s == t)
      && (forall s :: s in Seeds(ids) ==> ValidRelayID(sid(s)))
    }
  }

  // ---- Exporting ----

  /** The command of the last preset with this id. */
  function CommandOf(presets: seq<Preset>, id: string): string
  {
    if presets == [] then ""
    else if presets[|presets| - 1].id == id then presets[|presets| - 1].command
    else CommandOf(presets[..|presets| - 1], id)
  }

  predicate Uses(nodes: seq<Node>, id: string)
  {
    exists i :: 0 <= i < |nodes| && nodes[i].kind == "terminal" && nodes[i].presetId == id
  }

  /** The commands of the presets the terminals use. */
  function Commands(presets: seq<Preset>, nodes: seq<Node>): map<string, string>
  {
    if presets == [] then map[]
    else
      var p := presets[|presets| - 1];
      var commands := Commands(presets[..|presets| - 1], nodes);
      if Uses(nodes, p.id) then commands[p.id := p.command] else commands
  }

  function Content(n: Node, presets: seq<Preset>, g: Namer): map<string, Body>
  {
    match n.kind
    case "terminal" =>
      map["terminal" := NO_BODY.(id := g.Terminal(n.id), name := n.name, agentType := n.agentType,
        command := CommandOf(presets, n.presetId), roleId := g.Role(n.id), manager := n.manager)]
    case "note" => map["stickyNote" := NO_BODY.(fileName := n.name)]
    case "portal" => map["portal" := NO_BODY.(id := g.Portal(n.id), name := n.name, currentUrl := n.url)]
    case _ => map[]
  }

  function Drawn(n: Node, presets: seq<Preset>, g: Namer): CanvasNode
  {
    CanvasNode(g.Node(n.id), [[n.x, n.y], [n.width, n.height]], Content(n, presets, g))
  }

  function DrawnAll(nodes: seq<Node>, presets: seq<Preset>, g: Namer): (r: seq<CanvasNode>)
    ensures |r| == |nodes|
  {
    if nodes == [] then []
    else DrawnAll(nodes[..|nodes| - 1], presets, g) + [Drawn(nodes[|nodes| - 1], presets, g)]
  }

  function RolesFor(nodes: seq<Node>, g: Namer): seq<Role>
  {
    if nodes == [] then []
    else
      var n := nodes[|nodes| - 1];
      RolesFor(nodes[..|nodes| - 1], g) + if n.kind == "terminal" then [Role(g.Role(n.id), n.name, n.prompt)] else []
  }

  function NoteTextsFor(nodes: seq<Node>, g: Namer): map<string, string>
  {
    if nodes == [] then map[]
    else
      var n := nodes[|nodes| - 1];
      var texts := NoteTextsFor(nodes[..|nodes| - 1], g);
      if n.kind == "note" then texts[g.Node(n.id) := n.text] else texts
  }

  /** The terminal end first, when only one end is a terminal. */
  function Oriented(c: Connection, nodes: seq<Node>): Connection
  {
    var terminals := IdsOf(nodes, "terminal");
    if c.from !in terminals && c.to in terminals then Connection(c.to, c.from) else c
  }

  function LinkFor(c: Connection, nodes: seq<Node>, kind: string, g: Namer): Link
  {
    var o := Oriented(c, nodes);
    match kind
    case "terminal" =>
      map["id" := g.Edge(c), "terminalIdA" := g.Terminal(o.from), "terminalIdB" := g.Terminal(o.to)]
    case "note" => map["id" := g.Edge(c), "terminalId" := g.Terminal(o.from), "noteNodeId" := g.Node(o.to)]
    case _ => map["id" := g.Edge(c), "terminalId" := g.Terminal(o.from), "portalNodeId" := g.Node(o.to)]
  }

  /** The links to nodes of one kind. */
  function LinksFor(connections: seq<Connection>, nodes: seq<Node>, kind: string, g: Namer): seq<Link>
  {
    if connections == [] then []
    else
      var c := connections[|connections| - 1];
      var links := LinksFor(connections[..|connections| - 1], nodes, kind, g);
      if Oriented(c, nodes).to in IdsOf(nodes, kind) then links + [LinkFor(c, nodes, kind, g)] else links
  }

  predicate HasCommand(n: Node, presets: seq<Preset>)
  {
    n.kind == "terminal" ==> TrimSpace(CommandOf(presets, n.presetId)) != ""
  }

  predicate Commanded(nodes: seq<Node>, presets: seq<Preset>)
  {
    forall i :: 0 <= i < |nodes| ==> HasCommand(nodes[i], presets)
  }

  predicate Drawable(connections: seq<Connection>, nodes: seq<Node>)
  {
    forall i :: 0 <= i < |connections| ==> Oriented(connections[i], nodes).from in IdsOf(nodes, "terminal")
  }

  function Document(a: Arrangement, nodes: seq<Node>, presets: seq<Preset>, g: Namer): Partitura
  {
    Partitura(1, g.doc, PREFIX + a.name, a.description, RolesFor(nodes, g), DrawnAll(nodes, presets, g),
              NoteTextsFor(nodes, g), LinksFor(a.connections, nodes, "terminal", g),
              LinksFor(a.connections, nodes, "note", g), LinksFor(a.connections, nodes, "portal", g), 0, 0, 0)
  }

  /** When the export goes through. */
  ghost predicate Exportable(a: Arrangement, presets: seq<Preset>, validUrl: string -> bool)
  {
    var nodes := Resolve(a.nodes, presets);
    && Valid(a, validUrl)
    && Resolvable(a.nodes, presets)
    && Commanded(nodes, presets)
    && Drawable(a.connections, nodes)
  }

  /** The document's own id, hashed from the arrangement with its presets and their commands. */
  function Named(a: Arrangement, presets: seq<Preset>, sid: string -> string,
                 seal: (Arrangement, map<string, string>) -> string): Namer
  {
    var nodes := Resolve(a.nodes, presets);
    Namer(sid, sid(seal(a.(nodes := nodes), Commands(presets, nodes))))
  }

  ghost function Export(a: Arrangement, presets: seq<Preset>, validUrl: string -> bool, g: Namer): Option<Partitura>
  {
    if Exportable(a, presets, validUrl) then Some(Document(a, Resolve(a.nodes, presets), presets, g)) else None
  }

  // ---- Reading ----

  function At(m: map<string, string>, key: string): string
  {
    if key in m then m[key] else ""
  }

  function Prompts(roles: seq<Role>): map<string, string>
  {
    if roles == [] then map[]
    else Prompts(roles[..|roles| - 1])[roles[|roles| - 1].id := roles[|roles| - 1].prompt]
  }

  predicate WellShaped(n: CanvasNode)
  {
    |n.content| == 1 && |n.frame| == 2 && |n.frame[0]| == 2 && |n.frame[1]| == 2
  }

  predicate Known(n: CanvasNode)
  {
    WellShaped(n) && ("terminal" in n.content || "stickyNote" in n.content || "portal" in n.content)
  }

  function Read(n: CanvasNode, prompts: map<string, string>, texts: map<string, string>): Node
    requires Known(n)
  {
    var d := Node(n.id, "", "", "", "", "", "", "", false,
                  n.frame[0][0], n.frame[0][1], n.frame[1][0], n.frame[1][1]);
    if "terminal" in n.content then
      var v := n.content["terminal"];
      d.(kind := "terminal", name := v.name, agentType := v.agentType, manager := v.manager,
         prompt := At(prompts, v.roleId))
    else if "stickyNote" in n.content then
      d.(kind := "note", name := n.content["stickyNote"].fileName, text := At(texts, n.id))
    else
      var v := n.content["portal"];
      d.(kind := "portal", name := v.name, url := v.currentUrl)
  }

  function ReadAll(nodes: seq<CanvasNode>, prompts: map<string, string>, texts: map<string, string>): (r: seq<Node>)
    requires forall i :: 0 <= i < |nodes| ==> Known(nodes[i])
    ensures |r| == |nodes|
  {
    if nodes == [] then []
    else ReadAll(nodes[..|nodes| - 1], prompts, texts) + [Read(nodes[|nodes| - 1], prompts, texts)]
  }

  /** The node each terminal id belongs to. */
  function Owners(nodes: seq<CanvasNode>): map<string, string>
  {
    if nodes == [] then map[]
    else
      var n := nodes[|nodes| - 1];
      var owners := Owners(nodes[..|nodes| - 1]);
      if "terminal" in n.content then owners[n.content["terminal"].id := n.id] else owners
  }

  function ReadLink(c: Link, kind: string, owners: map<string, string>): Connection
  {
    match kind
    case "terminal" => Connection(At(owners, At(c, "terminalIdA")), At(owners, At(c, "terminalIdB")))
    case "note" => Connection(At(owners, At(c, "terminalId")), At(c, "noteNodeId"))
    case _ => Connection(At(owners, At(c, "terminalId")), At(c, "portalNodeId"))
  }

  function ReadLinks(links: seq<Link>, kind: string, owners: map<string, string>): (r: seq<Connection>)
    ensures |r| == |links|
  {
    if links == [] then []
    else ReadLinks(links[..|links| - 1], kind, owners) + [ReadLink(links[|links| - 1], kind, owners)]
  }

  predicate Supported(p: Partitura)
  {
    p.formatVersion == 1 && p.drawings == 0 && p.noteToNote == 0 && p.portalToPortal == 0
  }

  function ReadConnections(p: Partitura): seq<Connection>
  {
    var owners := Owners(p.nodes);
    ReadLinks(p.connections, "terminal", owners)
    + ReadLinks(p.noteConnections, "note", owners)
    + ReadLinks(p.portalConnections, "portal", owners)
  }

  /** The arrangement in the document, before it is validated. */
  function Arranged(p: Partitura): Arrangement
    requires forall i :: 0 <= i < |p.nodes| ==> Known(p.nodes[i])
  {
    Arrangement(p.id, p.name, p.description, ReadAll(p.nodes, Prompts(p.roles), p.noteTexts), ReadConnections(p))
  }

  ghost function Parse(p: Partitura, validUrl: string -> bool): Option<Arrangement>
  {
    if !Supported(p) || exists i :: 0 <= i < |p.nodes| && !Known(p.nodes[i]) then None
    else
      var a := Arranged(p);
      if Valid(a, validUrl) then Some(a) else None
  }
}
