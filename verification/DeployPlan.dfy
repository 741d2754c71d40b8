/**
 A deployment plan and the one sequence of Wire steps it determines.
 */
module DeployPlan {
  import opened Text

  datatype Kind = Terminal | Note | Portal

  datatype PlanNode = PlanNode(id: string, kind: Kind)

  datatype Plan = Plan(workspaceId: string, floorName: string, nodes: seq<PlanNode>, connections: nat)

  /** One Wire call of a deployment. */
  datatype Step =
    | Workspace
    | Floor
    | Partitura
    | Role(id: string)
    | Node(id: string)
    | Frame(id: string)
    | Edge(index: nat)

  const NATIVE_BEFORE: string := "native-before"

  /** strconv.Itoa for a natural number. */
  function Decimal(n: nat): string
  {
    if n < 10 then ["0123456789"[n]] else Decimal(n / 10) + ["0123456789"[n % 10]]
  }

  /** The name under which the result of the step is kept. */
  function Name(s: Step): string
  {
    match s
    case Workspace => "workspace"
    case Floor => "floor"
    case Partitura => "partitura"
    case Role(id) => "role-" + id
    case Node(id) => "node-" + id
    case Frame(id) => "frame-" + id
    case Edge(i) => "edge-" + Decimal(i)
  }

  function HasPortal(nodes: seq<PlanNode>): bool
  {
    exists i :: 0 <= i < |nodes| && nodes[i].kind.Portal?
  }

  function NodeSteps(n: PlanNode): seq<Step>
  {
    (if n.kind.Terminal? then [Role(n.id)] else []) + [Node(n.id), Frame(n.id)]
  }

  function AllNodeSteps(nodes: seq<PlanNode>): seq<Step>
  {
    if nodes == [] then [] else AllNodeSteps(nodes[..|nodes| - 1]) + NodeSteps(nodes[|nodes| - 1])
  }

  function EdgeSteps(n: nat): seq<Step>
  {
    if n == 0 then [] else EdgeSteps(n - 1) + [Edge(n - 1)]
  }

  function PlaceSteps(p: Plan): seq<Step>
  {
    (if p.workspaceId == "" then [Workspace] else []) + (if p.floorName != "" then [Floor] else [])
  }

  function WorkSteps(p: Plan): seq<Step>
  {
    if HasPortal(p.nodes) then [Partitura] else AllNodeSteps(p.nodes) + EdgeSteps(p.connections)
  }

  /** The steps of the plan in the order they are called. */
  function Canonical(p: Plan): seq<Step>
  {
    PlaceSteps(p) + WorkSteps(p)
  }

  function Names(steps: seq<Step>): seq<string>
  {
    if steps == [] then [] else Names(steps[..|steps| - 1]) + [Name(steps[|steps| - 1])]
  }

  function StepNames(p: Plan): seq<string>
  {
    Names(Canonical(p))
  }

  /** Node ids are distinct, as Validate demands. */
  ghost predicate ValidPlan(p: Plan)
  {
    forall i, j :: 0 <= i < j < |p.nodes| ==> p.nodes[i].id != p.nodes[j].id
  }

  // ---- Distinct names ----

  lemma {:induction false} DecimalInjective(a: nat, b: nat)
    requires Decimal(a) == Decimal(b)
    ensures a == b
  {
    DecimalLength(a);
    DecimalLength(b);
    var da, db := Decimal(a), Decimal(b);
    assert da[|da| - 1] == "0123456789"[a % 10];
    assert db[|db| - 1] == "0123456789"[b % 10];
    if a >= 10 {
      assert da[..|da| - 1] == Decimal(a / 10);
      assert db[..|db| - 1] == Decimal(b / 10);
      DecimalInjective(a / 10, b / 10);
    }
  }

  lemma {:induction false} DecimalLength(a: nat)
    ensures |Decimal(a)| >= 1 && (|Decimal(a)| == 1 <==> a < 10)
  {
    if a >= 10 {
      DecimalLength(a / 10);
    }
  }

  lemma SamePrefix(p: string, a: string, b: string)
    requires p + a == p + b
    ensures a == b
  {
    assert (p + a)[|p|..] == a;
    assert (p + b)[|p|..] == b;
  }

  /** Two steps never share a name. */
  lemma NameInjective(s: Step, t: Step)
    requires Name(s) == Name(t)
    ensures s == t
  {
    hide Decimal;
    var n, m := Name(s), Name(t);
    assert n[0] == m[0] && n[1] == m[1];
    match s
    case Role(id) => SamePrefix("role-", id, t.id);
    case Node(id) => SamePrefix("node-", id, t.id);
    case Frame(id) => SamePrefix("frame-", id, t.id);
    case Edge(i) =>
      SamePrefix("edge-", Decimal(i), Decimal(t.index));
      DecimalInjective(i, t.index);
    case _ =>
  }

  lemma NeverNativeBefore(s: Step)
    ensures Name(s) != NATIVE_BEFORE && Name(s) != ""
  {
    hide Decimal;
    var n := Name(s);
    assert n[0] == NATIVE_BEFORE[0] && n[1] == NATIVE_BEFORE[1] ==> false;
  }

  ghost predicate NoRepeat<T(!new)>(q: seq<T>)
  {
    forall i, j :: 0 <= i < j < |q| ==> q[i] != q[j]
  }

  lemma {:induction false} NamesAt(steps: seq<Step>)
    ensures |Names(steps)| == |steps|
    ensures forall i :: 0 <= i < |steps| ==> Names(steps)[i] == Name(steps[i])
  {
    if steps != [] {
      NamesAt(steps[..|steps| - 1]);
    }
  }

  lemma NoRepeatConcat<T(!new)>(a: seq<T>, b: seq<T>)
    requires NoRepeat(a) && NoRepeat(b) && forall x :: !(x in a && x in b)
    ensures NoRepeat(a + b)
  {
    forall i, j | 0 <= i < j < |a + b|
      ensures (a + b)[i] != (a + b)[j]
    {
      if i < |a| <= j {
        assert (a + b)[i] in a && (a + b)[j] in b;
      }
    }
  }

  ghost predicate Has(nodes: seq<PlanNode>, id: string)
  {
    exists i :: 0 <= i < |nodes| && nodes[i].id == id
  }

  predicate OfNode(s: Step)
  {
    s.Role? || s.Node? || s.Frame?
  }

  lemma {:induction false} NodeStepsOf(nodes: seq<PlanNode>)
    ensures forall s :: s in AllNodeSteps(nodes) ==> OfNode(s) && Has(nodes, s.id)
  {
    if nodes != [] {
      var init, last := nodes[..|nodes| - 1], nodes[|nodes| - 1];
      NodeStepsOf(init);
      forall s | s in AllNodeSteps(nodes)
        ensures OfNode(s) && Has(nodes, s.id)
      {
        if s in AllNodeSteps(init) {
          var i :| 0 <= i < |init| && init[i].id == s.id;
          assert nodes[i].id == s.id;
        } else {
          assert s in NodeSteps(last);
          assert nodes[|nodes| - 1].id == s.id;
        }
      }
    }
  }

  lemma {:induction false} NodeStepsDistinct(nodes: seq<PlanNode>)
    requires forall i, j :: 0 <= i < j < |nodes| ==> nodes[i].id != nodes[j].id
    ensures NoRepeat(AllNodeSteps(nodes))
  {
    if nodes != [] {
      var init, last := nodes[..|nodes| - 1], nodes[|nodes| - 1];
      NodeStepsDistinct(init);
      NodeStepsOf(init);
      forall s | s in AllNodeSteps(init)
        ensures s !in NodeSteps(last)
      {
        var i :| 0 <= i < |init| && init[i].id == s.id;
        assert init[i] == nodes[i];
      }
      NoRepeatConcat(AllNodeSteps(init), NodeSteps(last));
    }
  }

  lemma {:induction false} EdgeStepsDistinct(n: nat)
    ensures NoRepeat(EdgeSteps(n))
    ensures forall s :: s in EdgeSteps(n) ==> s.Edge? && s.index < n
  {
    if n > 0 {
      EdgeStepsDistinct(n - 1);
    }
  }

  lemma WorkStepsDistinct(p: Plan)
    requires ValidPlan(p)
    ensures NoRepeat(WorkSteps(p)) && forall s :: s in WorkSteps(p) ==> !s.Workspace? && !s.Floor?
  {
    hide AllNodeSteps, EdgeSteps;
    NodeStepsDistinct(p.nodes);
    NodeStepsOf(p.nodes);
    EdgeStepsDistinct(p.connections);
    NoRepeatConcat(AllNodeSteps(p.nodes), EdgeSteps(p.connections));
  }

  lemma StepsDistinct(p: Plan)
    requires ValidPlan(p)
    ensures NoRepeat(Canonical(p))
  {
    WorkStepsDistinct(p);
    hide AllNodeSteps, EdgeSteps, HasPortal, ValidPlan;
    NoRepeatConcat(PlaceSteps(p), WorkSteps(p));
  }

  /** No step of a valid plan repeats, by name. */
  lemma StepNamesDistinct(p: Plan)
    requires ValidPlan(p)
    ensures NoRepeat(StepNames(p))
    ensures NATIVE_BEFORE !in StepNames(p) && "" !in StepNames(p)
  {
    StepsDistinct(p);
    hide Name, Canonical, Names, ValidPlan;
    var steps := Canonical(p);
    NamesAt(steps);
    forall i, j | 0 <= i < j < |steps|
      ensures StepNames(p)[i] != StepNames(p)[j]
    {
      if Name(steps[i]) == Name(steps[j]) {
        NameInjective(steps[i], steps[j]);
      }
    }
    forall i | 0 <= i < |steps|
      ensures StepNames(p)[i] != NATIVE_BEFORE && StepNames(p)[i] != ""
    {
      NeverNativeBefore(steps[i]);
    }
  }

  // ---- Which steps, and in which order ----

  ghost predicate HasTerminal(nodes: seq<PlanNode>, id: string)
  {
    exists i :: 0 <= i < |nodes| && nodes[i].id == id && nodes[i].kind.Terminal?
  }

  /** What a plan asks for: a plan with a portal is one native step, any other one step by step. */
  ghost predicate AskedFor(p: Plan, s: Step)
  {
    match s
    case Workspace => p.workspaceId == ""
    case Floor => p.floorName != ""
    case Partitura => HasPortal(p.nodes)
    case Role(id) => !HasPortal(p.nodes) && HasTerminal(p.nodes, id)
    case Node(id) => !HasPortal(p.nodes) && Has(p.nodes, id)
    case Frame(id) => !HasPortal(p.nodes) && Has(p.nodes, id)
    case Edge(i) => !HasPortal(p.nodes) && i < p.connections
  }

  /** The node of s comes before that of t in the plan. */
  ghost predicate EarlierNode(nodes: seq<PlanNode>, s: Step, t: Step)
    requires OfNode(s) && OfNode(t)
  {
    exists a, b :: 0 <= a < b < |nodes| && nodes[a].id == s.id && nodes[b].id == t.id
  }

  /** The role of a node before the node, the node before its frame, one node after the other. */
  ghost predicate NodeBefore(nodes: seq<PlanNode>, s: Step, t: Step)
    requires OfNode(s) && OfNode(t)
  {
    || EarlierNode(nodes, s, t)
    || (s.id == t.id && ((s.Role? && !t.Role?) || (s.Node? && t.Frame?)))
  }

  /** t needs s: the place first, then the nodes, then the connections. */
  ghost predicate Needs(p: Plan, t: Step, s: Step)
  {
    || (s.Workspace? && !t.Workspace?)
    || (s.Floor? && !t.Workspace? && !t.Floor?)
    || (OfNode(s) && t.Edge?)
    || (s.Edge? && t.Edge? && s.index < t.index)
    || (OfNode(s) && OfNode(t) && NodeBefore(p.nodes, s, t))
  }

  lemma {:induction false} NodeStepsAre(nodes: seq<PlanNode>)
    ensures forall s :: s in AllNodeSteps(nodes) <==>
              (s.Role? && HasTerminal(nodes, s.id)) || ((s.Node? || s.Frame?) && Has(nodes, s.id))
  {
    if nodes != [] {
      var last := nodes[|nodes| - 1];
      NodeStepsAre(nodes[..|nodes| - 1]);
      HasGrows(nodes);
      hide Has, HasTerminal;
      assert forall s :: s in NodeSteps(last) <==>
          (s.Role? && s.id == last.id && last.kind.Terminal?) || ((s.Node? || s.Frame?) && s.id == last.id);
      assert forall s :: s in AllNodeSteps(nodes) <==>
          s in AllNodeSteps(nodes[..|nodes| - 1]) || s in NodeSteps(last);
    }
  }

  lemma HasGrows(nodes: seq<PlanNode>)
    requires nodes != []
    ensures var init, last := nodes[..|nodes| - 1], nodes[|nodes| - 1];
      && (forall id :: Has(nodes, id) <==> Has(init, id) || id == last.id)
      && (forall id :: HasTerminal(nodes, id) <==> HasTerminal(init, id) || (id == last.id && last.kind.Terminal?))
  {
    var init, last := nodes[..|nodes| - 1], nodes[|nodes| - 1];
    assert forall i :: 0 <= i < |init| ==> init[i] == nodes[i];
    assert nodes[|nodes| - 1] == last;
    forall id | Has(init, id)
      ensures Has(nodes, id) && (HasTerminal(init, id) ==> HasTerminal(nodes, id))
    {
      var i :| 0 <= i < |init| && init[i].id == id;
      assert nodes[i].id == id;
      if HasTerminal(init, id) {
        var k :| 0 <= k < |init| && init[k].id == id && init[k].kind.Terminal?;
        assert nodes[k].id == id && nodes[k].kind.Terminal?;
      }
    }
  }

  /** The connection steps are those of the plan, in its order. */
  lemma {:induction false} EdgeStepsAt(n: nat)
    ensures |EdgeSteps(n)| == n && forall i :: 0 <= i < n ==> EdgeSteps(n)[i] == Edge(i)
  {
    if n > 0 {
      EdgeStepsAt(n - 1);
    }
  }

  /** Later steps of the nodes are not needed by earlier ones. */
  lemma {:induction false} NodeStepsOrdered(nodes: seq<PlanNode>)
    requires DistinctNodes(nodes)
    ensures forall s :: s in AllNodeSteps(nodes) ==> OfNode(s)
    ensures var q := AllNodeSteps(nodes); forall i, j :: 0 <= i <= j < |q| ==> !NodeBefore(nodes, q[j], q[i])
  {
    NodeStepsOf(nodes);
    if nodes != [] {
      var init := nodes[..|nodes| - 1];
      NodeStepsOrdered(init);
      NodeStepsOf(init);
      hide Has, NodeBefore, AllNodeSteps;
      forall i, j | 0 <= i <= j < |AllNodeSteps(nodes)|
        ensures !NodeBefore(nodes, AllNodeSteps(nodes)[j], AllNodeSteps(nodes)[i])
      {
        OrderedStep(nodes, i, j);
      }
    }
  }

  ghost predicate DistinctNodes(nodes: seq<PlanNode>)
  {
    forall i, j :: 0 <= i < j < |nodes| ==> nodes[i].id != nodes[j].id
  }

  lemma OrderedStep(nodes: seq<PlanNode>, i: nat, j: nat)
    requires nodes != [] && DistinctNodes(nodes) && i <= j < |AllNodeSteps(nodes)|
    requires var q := AllNodeSteps(nodes[..|nodes| - 1]);
      && (forall s :: s in q ==> OfNode(s) && Has(nodes[..|nodes| - 1], s.id))
      && forall a, b :: 0 <= a <= b < |q| ==> !NodeBefore(nodes[..|nodes| - 1], q[b], q[a])
    ensures OfNode(AllNodeSteps(nodes)[i]) && OfNode(AllNodeSteps(nodes)[j])
    ensures !NodeBefore(nodes, AllNodeSteps(nodes)[j], AllNodeSteps(nodes)[i])
  {
    hide Has, EarlierNode, DistinctNodes;
    var init, last := nodes[..|nodes| - 1], nodes[|nodes| - 1];
    var q, own := AllNodeSteps(init), NodeSteps(last);
    assert AllNodeSteps(nodes) == q + own;
    hide AllNodeSteps;
    var s, t := (q + own)[j], (q + own)[i];
    if j < |q| {
      assert s in q && t in q;
      NotEarlierInit(nodes, s, t);
    } else {
      LastNotEarlier(nodes, s, t);
      assert i < |q| ==> t in q;
    }
  }

  lemma NotEarlierInit(nodes: seq<PlanNode>, s: Step, t: Step)
    requires nodes != [] && OfNode(s) && OfNode(t) && DistinctNodes(nodes)
    requires Has(nodes[..|nodes| - 1], t.id)
    ensures EarlierNode(nodes, s, t) ==> EarlierNode(nodes[..|nodes| - 1], s, t)
  {
    var init := nodes[..|nodes| - 1];
    var i :| 0 <= i < |init| && init[i].id == t.id;
    if a, b :| 0 <= a < b < |nodes| && nodes[a].id == s.id && nodes[b].id == t.id {
      assert nodes[i].id == t.id && b == i;
      assert init[a].id == s.id && init[b].id == t.id;
    }
  }

  lemma LastNotEarlier(nodes: seq<PlanNode>, s: Step, t: Step)
    requires nodes != [] && OfNode(s) && OfNode(t) && s.id == nodes[|nodes| - 1].id && DistinctNodes(nodes)
    ensures !EarlierNode(nodes, s, t)
    ensures Has(nodes[..|nodes| - 1], t.id) ==> s.id != t.id
  {
  }

  /**
   The step sequence holds exactly the steps the plan asks for, each once, and every step comes after
   those it needs.
   */
  lemma CanonicalOrder(p: Plan)
    requires ValidPlan(p)
    ensures NoRepeat(Canonical(p)) && forall s :: s in Canonical(p) <==> AskedFor(p, s)
    ensures var q := Canonical(p);
      forall i, j :: 0 <= i < |q| && 0 <= j < |q| && Needs(p, q[j], q[i]) ==> i < j
  {
    StepsDistinct(p);
    CanonicalAre(p);
    var q := Canonical(p);
    forall i, j | 0 <= i < |q| && 0 <= j < |q| && j <= i
      ensures !Needs(p, q[j], q[i])
    {
      NotNeeded(p, i, j);
    }
  }

  lemma CanonicalAre(p: Plan)
    ensures forall s :: s in Canonical(p) <==> AskedFor(p, s)
  {
    NodeStepsAre(p.nodes);
    EdgeStepsAt(p.connections);
    hide AllNodeSteps, EdgeSteps, Has, HasTerminal, HasPortal;
    forall s
      ensures s in EdgeSteps(p.connections) <==> s.Edge? && s.index < p.connections
    {
      if s.Edge? && s.index < p.connections {
        assert EdgeSteps(p.connections)[s.index] == s;
      }
    }
    forall s
      ensures s in Canonical(p) <==> AskedFor(p, s)
    {
      assert s in Canonical(p) <==> s in PlaceSteps(p) || s in WorkSteps(p);
      assert s in PlaceSteps(p) <==> (s.Workspace? && p.workspaceId == "") || (s.Floor? && p.floorName != "");
      assert !HasPortal(p.nodes) ==>
          (s in WorkSteps(p) <==> s in AllNodeSteps(p.nodes) || s in EdgeSteps(p.connections));
    }
  }

  function Phase(s: Step): nat
  {
    if s.Workspace? then 0 else if s.Floor? then 1 else if s.Edge? then 3 else 2
  }

  /** The k-th step, by the part of the sequence it is in. */
  lemma PartOf(p: Plan, k: nat)
    requires k < |Canonical(p)|
    ensures var place, all := |PlaceSteps(p)|, AllNodeSteps(p.nodes);
      if k < place then Canonical(p)[k] == PlaceSteps(p)[k]
      else if HasPortal(p.nodes) then Canonical(p)[k] == Partitura
      else if k < place + |all| then Canonical(p)[k] == all[k - place] && OfNode(all[k - place])
      else Canonical(p)[k] == Edge(k - place - |all|)
  {
    NodeStepsAre(p.nodes);
    EdgeStepsAt(p.connections);
    hide AllNodeSteps, EdgeSteps, HasPortal, Has, HasTerminal, PlaceSteps;
    var place, all := |PlaceSteps(p)|, AllNodeSteps(p.nodes);
    if !HasPortal(p.nodes) && place <= k < place + |all| {
      assert all[k - place] in all;
    }
  }

  lemma PhasesAscend(p: Plan, j: nat, i: nat)
    requires j <= i < |Canonical(p)|
    ensures Phase(Canonical(p)[j]) <= Phase(Canonical(p)[i])
  {
    PartOf(p, i);
    PartOf(p, j);
    hide AllNodeSteps, Canonical, HasPortal;
  }

  lemma NotNeeded(p: Plan, i: nat, j: nat)
    requires ValidPlan(p) && j <= i < |Canonical(p)|
    ensures !Needs(p, Canonical(p)[j], Canonical(p)[i])
  {
    PartOf(p, i);
    PartOf(p, j);
    PhasesAscend(p, j, i);
    NodeStepsOrdered(p.nodes);
    hide AllNodeSteps, Canonical, HasPortal, NodeBefore;
  }

  // ---- Mutation ids ----

  /** The idempotency key sent with a canvas step, without the job prefix they all share. */
  function MutationId(s: Step): string
    requires s.Node? || s.Frame? || s.Edge?
  {
    match s
    case Node(id) => id
    case Frame(id) => "frame-" + id
    case Edge(i) => "edge-" + Decimal(i)
  }

  /** The canvas steps that carry a mutation id. */
  ghost predicate CanvasStep(p: Plan, s: Step)
  {
    match s
    case Node(id) => Has(p.nodes, id)
    case Frame(id) => Has(p.nodes, id)
    case Edge(i) => i < p.connections
    case _ => false
  }

  ghost predicate MutationIdsDistinct(p: Plan)
  {
    forall s, t :: CanvasStep(p, s) && CanvasStep(p, t) && s != t ==> MutationId(s) != MutationId(t)
  }

  /** A node named like the frame of a node or like an edge takes its mutation id. */
  ghost predicate NamedLikeAnother(p: Plan)
  {
    (exists id :: Has(p.nodes, id) && Has(p.nodes, "frame-" + id))
    || (exists i: nat :: i < p.connections && Has(p.nodes, "edge-" + Decimal(i)))
  }

  /** Mutation ids identify the canvas steps of a plan exactly when no node is so named. */
  lemma MutationIdsDistinctIff(p: Plan)
    ensures MutationIdsDistinct(p) <==> !NamedLikeAnother(p)
  {
    hide Decimal, Has;
    if NamedLikeAnother(p) {
      if exists id :: Has(p.nodes, id) && Has(p.nodes, "frame-" + id) {
        var id :| Has(p.nodes, id) && Has(p.nodes, "frame-" + id);
        assert CanvasStep(p, Frame(id)) && CanvasStep(p, Node("frame-" + id));
        assert MutationId(Frame(id)) == MutationId(Node("frame-" + id));
      } else {
        var i: nat :| i < p.connections && Has(p.nodes, "edge-" + Decimal(i));
        assert CanvasStep(p, Edge(i)) && CanvasStep(p, Node("edge-" + Decimal(i)));
        assert MutationId(Edge(i)) == MutationId(Node("edge-" + Decimal(i)));
      }
    } else {
      forall s, t | CanvasStep(p, s) && CanvasStep(p, t) && s != t
        ensures MutationId(s) != MutationId(t)
      {
        if MutationId(s) == MutationId(t) {
          SameMutationId(s, t);
        }
      }
    }
  }

  lemma FrameIsNotEdge(id: string, number: string)
    ensures "frame-" + id != "edge-" + number
  {
    assert ("frame-" + id)[0] == 'f' && ("edge-" + number)[0] == 'e';
  }

  lemma SameMutationId(s: Step, t: Step)
    requires s.Node? || s.Frame? || s.Edge?
    requires t.Node? || t.Frame? || t.Edge?
    requires MutationId(s) == MutationId(t)
    ensures s == t || (s.Node? && !t.Node? && s.id == MutationId(t)) || (t.Node? && !s.Node? && t.id == MutationId(s))
  {
    hide Decimal;
    if s.Frame? && t.Edge? {
      FrameIsNotEdge(s.id, Decimal(t.index));
    }
    if s.Edge? && t.Frame? {
      FrameIsNotEdge(t.id, Decimal(s.index));
    }
    if s.Frame? && t.Frame? {
      SamePrefix("frame-", s.id, t.id);
    } else if s.Edge? && t.Edge? {
      SamePrefix("edge-", Decimal(s.index), Decimal(t.index));
      DecimalInjective(s.index, t.index);
    }
  }

  /** A valid plan in which two steps share a mutation id. */
  lemma FrameNameCollides()
    ensures var p := Plan("w", "", [PlanNode("a", Note), PlanNode("frame-a", Note)], 0);
      ValidPlan(p) && !MutationIdsDistinct(p)
  {
    var p := Plan("w", "", [PlanNode("a", Note), PlanNode("frame-a", Note)], 0);
    assert p.nodes[0].id == "a" && p.nodes[1].id == "frame-" + "a";
    assert Has(p.nodes, "a") && Has(p.nodes, "frame-" + "a");
    MutationIdsDistinctIff(p);
  }
}
