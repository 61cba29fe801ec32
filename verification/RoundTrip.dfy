/** Export followed by compilation into an empty application. */
module RoundTrip {
  import opened Common
  import opened AppGraph
  import opened OrchNames
  import opened MiddlewareChains
  import opened Compiler
  import opened CompilerLaws
  import opened Exporter

  // ── Exported edges ────────────────────────────────────────────────────────

  ghost predicate CallsAgent(orchs: seq<Orch>, e: Edge) {
    exists k, a :: 0 <= k < |orchs| && a in orchs[k].row.agents && e == Edge(orchs[k].row.nodeId, AgentNodeId(a))
  }

  ghost predicate BindsEp(app: App, e: Edge) {
    exists k :: 0 <= k < |app.eps| && BoundOrch(app.eps[k], app.orchs).Some?
                && e == Edge(EpNodeId(app.eps[k].slug), BoundOrch(app.eps[k], app.orchs).value.row.nodeId)
  }

  lemma {:induction false} AgentEdgesCall(from: string, agents: seq<string>, n: nat)
    requires n <= |agents|
    ensures forall e :: e in AgentEdges(from, agents, n) ==> exists a :: a in agents && e == Edge(from, AgentNodeId(a))
  {
    hide AgentNodeId;
    if n == 0 {
    } else {
      AgentEdgesCall(from, agents, n - 1);
    }
  }

  lemma {:induction false} OrchEdgesCall(orchs: seq<Orch>, n: nat)
    requires n <= |orchs|
    ensures forall e :: e in OrchEdgesOf(orchs, n) ==> CallsAgent(orchs, e)
  {
    hide AgentNodeId;
    if n == 0 {
    } else {
      OrchEdgesCall(orchs, n - 1);
      var row := orchs[n - 1].row;
      AgentEdgesCall(row.nodeId, row.agents, |row.agents|);
    }
  }

  lemma {:induction false} EpEdgesBind(app: App, n: nat)
    requires n <= |app.eps|
    ensures forall e :: e in EpEdgesOf(app.eps, n, app.orchs) ==> BindsEp(app, e)
    ensures forall k :: 0 <= k < n && BoundOrch(app.eps[k], app.orchs).Some? ==>
      Edge(EpNodeId(app.eps[k].slug), BoundOrch(app.eps[k], app.orchs).value.row.nodeId) in EpEdgesOf(app.eps, n, app.orchs)
  {
    hide EpNodeId, BoundOrch;
    if n == 0 {
    } else {
      EpEdgesBind(app, n - 1);
    }
  }

  lemma ExportedEdges(app: App)
    ensures forall e :: e in Exported(app).edges ==> CallsAgent(app.orchs, e) || BindsEp(app, e)
    ensures forall k :: 0 <= k < |app.eps| && BoundOrch(app.eps[k], app.orchs).Some? ==>
      Edge(EpNodeId(app.eps[k].slug), BoundOrch(app.eps[k], app.orchs).value.row.nodeId) in Exported(app).edges
  {
    hide EpNodeId, AgentNodeId, BoundOrch, CallsAgent, BindsEp, OrchEdgesOf, EpEdgesOf;
    OrchEdgesCall(app.orchs, |app.orchs|);
    EpEdgesBind(app, |app.eps|);
  }

  // ── Validity of the export ────────────────────────────────────────────────

  ghost predicate HasEntryPoint(app: App, i: nat)
    requires i < |app.orchs|
  {
    exists k :: 0 <= k < |app.eps| && BoundOrch(app.eps[k], app.orchs) == Some(app.orchs[i])
  }

  /** What the rows must satisfy for their export to be importable. */
  ghost predicate Exportable(app: App) {
    && app.eps != []
    && (forall k :: 0 <= k < |app.eps| ==>
          SlugMatches(app.eps[k].slug) && app.eps[k].epType in EP_TYPES && BoundOrch(app.eps[k], app.orchs).Some?)
    && (forall i :: 0 <= i < |app.orchs| ==> HasEntryPoint(app, i))
  }

  lemma ExportKinds(app: App)
    requires NoCollision(app)
    ensures var g := Exported(app);
            && !Violates(g, UnknownNodeType) && !Violates(g, UnknownEdgeEnd) && !Violates(g, DuplicateSlug)
  {
    var g := Exported(app);
    hide Exported, AgentNodeId, EpNodeId, NoCollision;
    ExportedNodes(app);
    ExportedLookup(app);
    ExportedEdges(app);
    ExportSlugsDistinct(app);
    forall e | e in g.edges
      ensures EdgeKnown(g, e)
    {
      if CallsAgent(app.orchs, e) {
        var k, a :| 0 <= k < |app.orchs| && a in app.orchs[k].row.agents && e == Edge(app.orchs[k].row.nodeId, AgentNodeId(a));
        assert Listed(app.orchs, a);
      } else {
        var k :| 0 <= k < |app.eps| && BoundOrch(app.eps[k], app.orchs).Some?
                 && e == Edge(EpNodeId(app.eps[k].slug), BoundOrch(app.eps[k], app.orchs).value.row.nodeId);
        var o := BoundOrch(app.eps[k], app.orchs).value;
        var j :| 0 <= j < |app.orchs| && app.orchs[j] == o;
      }
    }
  }

  lemma {:induction false} OfKindAppend(a: seq<Node>, b: seq<Node>, kind: Kind)
    ensures OfKind(a + b, kind) == OfKind(a, kind) + OfKind(b, kind)
  {
    if a == [] {
      assert a + b == b;
    } else {
      assert (a + b)[1..] == a[1..] + b;
      OfKindAppend(a[1..], b, kind);
    }
  }

  lemma OfKindNone(nodes: seq<Node>, kind: Kind)
    requires forall n :: n in nodes ==> n.kind != kind
    ensures OfKind(nodes, kind) == []
  {
    if nodes != [] { OfKindNone(nodes[1..], kind); }
  }

  lemma OfKindAll(nodes: seq<Node>, kind: Kind)
    requires forall n :: n in nodes ==> n.kind == kind
    ensures OfKind(nodes, kind) == nodes
  {
    if nodes != [] { OfKindAll(nodes[1..], kind); }
  }

  function DrawnOrchs(orchs: seq<Orch>, n: nat): (drawn: seq<Node>)
    requires n <= |orchs|
    ensures |drawn| == n && forall k :: 0 <= k < n ==> drawn[k] == OrchNode(orchs[k])
  {
    if n == 0 then [] else DrawnOrchs(orchs, n - 1) + [OrchNode(orchs[n - 1])]
  }

  lemma OrchChunkInOrder(orch: Orch, emitted: set<string>)
    ensures var agents := orch.row.agents;
            OfKind([OrchNode(orch)] + NewAgentNodes(agents, |agents|, emitted), Orchestrator) == [OrchNode(orch)]
  {
    hide NewAgentNodes;
    var drawn := NewAgentNodes(orch.row.agents, |orch.row.agents|, emitted);
    NewAgentNodesDraw(orch.row.agents, |orch.row.agents|, emitted);
    OfKindNone(drawn, Orchestrator);
    assert ([OrchNode(orch)] + drawn)[1..] == drawn;
  }

  lemma {:induction false} OrchNodesInOrder(orchs: seq<Orch>, n: nat)
    requires n <= |orchs|
    ensures OfKind(OrchNodesOf(orchs, n), Orchestrator) == DrawnOrchs(orchs, n)
  {
    hide EmittedByOrchs, OrchNode, NewAgentNodes, OfKind;
    if n == 0 {
      OfKindNone([], Orchestrator);
    } else {
      OrchNodesInOrder(orchs, n - 1);
      var agents, emitted := orchs[n - 1].row.agents, EmittedByOrchs(orchs, n - 1);
      OrchChunkInOrder(orchs[n - 1], emitted);
      OfKindAppend(OrchNodesOf(orchs, n - 1), [OrchNode(orchs[n - 1])] + NewAgentNodes(agents, |agents|, emitted), Orchestrator);
    }
  }

  lemma ExportOfKind(app: App, kind: Kind)
    ensures OfKind(Exported(app).nodes, kind) ==
            OfKind(OrchNodesOf(app.orchs, |app.orchs|), kind) + OfKind(EpNodesOf(app.eps, |app.eps|), kind)
            + OfKind(MwNodesOf(app.mws, |app.mws|), kind)
  {
    hide OrchNodesOf, MwNodesOf, EpNodesOf, OfKind;
    var a, b, c := OrchNodesOf(app.orchs, |app.orchs|), EpNodesOf(app.eps, |app.eps|), MwNodesOf(app.mws, |app.mws|);
    OfKindAppend(a + b, c, kind);
    OfKindAppend(a, b, kind);
  }

  /** The graph's orchestrator and entry-point nodes are the rows, in order. */
  lemma ExportInOrder(app: App)
    ensures OrchNodes(Exported(app)) == DrawnOrchs(app.orchs, |app.orchs|)
    ensures EpNodes(Exported(app)) == EpNodesOf(app.eps, |app.eps|)
  {
    hide OrchNodesOf, MwNodesOf, EpNodesOf, OfKind, DrawsOrch, DrawsAgent;
    var a, b, c := OrchNodesOf(app.orchs, |app.orchs|), EpNodesOf(app.eps, |app.eps|), MwNodesOf(app.mws, |app.mws|);
    ExportOfKind(app, Orchestrator);
    ExportOfKind(app, EntryPoint);
    OrchNodesInOrder(app.orchs, |app.orchs|);
    NodeKinds(app);
    OfKindNone(b, Orchestrator);
    OfKindNone(c, Orchestrator);
    OfKindNone(a, EntryPoint);
    OfKindNone(c, EntryPoint);
    OfKindAll(b, EntryPoint);
  }

  lemma NodeKinds(app: App)
    ensures forall m :: m in OrchNodesOf(app.orchs, |app.orchs|) ==> !m.kind.EntryPoint?
    ensures forall m :: m in EpNodesOf(app.eps, |app.eps|) ==> m.kind.EntryPoint?
    ensures forall m :: m in MwNodesOf(app.mws, |app.mws|) ==> m.kind.Middleware?
  {
    OrchNodesDrawn(app.orchs, |app.orchs|);
    EpsDrawn(app.eps, |app.eps|);
    MwsDrawn(app.mws, |app.mws|);
  }

  lemma ExportSlugsDistinct(app: App)
    requires NoCollision(app)
    ensures !SlugRepeated(Exported(app).nodes)
  {
    hide OrchNodesOf, MwNodesOf, EpNodesOf, EpNodeId;
    NodeKinds(app);
    EpsDrawn(app.eps, |app.eps|);
    var a, b, c := OrchNodesOf(app.orchs, |app.orchs|), EpNodesOf(app.eps, |app.eps|), MwNodesOf(app.mws, |app.mws|);
    var nodes := Exported(app).nodes;
    forall i | 0 <= i < |a|
      ensures !nodes[i].kind.EntryPoint?
    {
      assert nodes[i] == a[i] && a[i] in a;
    }
    forall i | |a| + |b| <= i < |nodes|
      ensures !nodes[i].kind.EntryPoint?
    {
      assert nodes[i] == c[i - |a| - |b|] && c[i - |a| - |b|] in c;
    }
    assert forall i :: |a| <= i < |a| + |b| ==> nodes[i] == EpNode(app.eps[i - |a|]);
  }

  lemma EpBoundIff(app: App, k: nat)
    requires NoCollision(app) && k < |app.eps|
    ensures Bound(Exported(app), EpNodeId(app.eps[k].slug)) <==> BoundOrch(app.eps[k], app.orchs).Some?
  {
    var g, id := Exported(app), EpNodeId(app.eps[k].slug);
    hide Exported, AgentNodeId, EpNodeId, BoundOrch;
    if BoundOrch(app.eps[k], app.orchs).Some? {
      BoundEdge(app, k);
    }
    if Bound(g, id) {
      hide IsKind;
      var e :| e in g.edges && e.source == id && IsKind(g, e.target, Orchestrator);
      EpEdgeSource(app, e, k);
    }
  }

  /** The edge of a bound entry point, and what it points at. */
  lemma BoundEdge(app: App, k: nat)
    requires NoCollision(app) && k < |app.eps| && BoundOrch(app.eps[k], app.orchs).Some?
    ensures var target := BoundOrch(app.eps[k], app.orchs).value.row.nodeId;
            Edge(EpNodeId(app.eps[k].slug), target) in Exported(app).edges && IsKind(Exported(app), target, Orchestrator)
  {
    hide Exported, AgentNodeId, EpNodeId, BoundOrch, NoCollision, CallsAgent, BindsEp;
    ExportedEdges(app);
    ExportedLookup(app);
    var o := BoundOrch(app.eps[k], app.orchs).value;
    var j :| 0 <= j < |app.orchs| && app.orchs[j] == o;
  }

  lemma EpEdgeSource(app: App, e: Edge, k: nat)
    requires NoCollision(app) && k < |app.eps| && e in Exported(app).edges && e.source == EpNodeId(app.eps[k].slug)
    ensures BoundOrch(app.eps[k], app.orchs).Some?
  {
    hide Exported, AgentNodeId, EpNodeId, BoundOrch;
    ExportedEdges(app);
    assert !CallsAgent(app.orchs, e);
    var j :| 0 <= j < |app.eps| && BoundOrch(app.eps[j], app.orchs).Some?
             && e == Edge(EpNodeId(app.eps[j].slug), BoundOrch(app.eps[j], app.orchs).value.row.nodeId);
    IdsTellApart(app.eps[k].slug, app.eps[j].slug);
  }

  lemma OrchEdgeTarget(app: App, e: Edge, i: nat)
    requires NoCollision(app) && i < |app.orchs| && e in Exported(app).edges && e.target == app.orchs[i].row.nodeId
    ensures HasEntryPoint(app, i)
  {
    hide Exported, AgentNodeId, EpNodeId, BoundOrch;
    ExportedEdges(app);
    assert !CallsAgent(app.orchs, e);
    var k :| 0 <= k < |app.eps| && BoundOrch(app.eps[k], app.orchs).Some?
             && e == Edge(EpNodeId(app.eps[k].slug), BoundOrch(app.eps[k], app.orchs).value.row.nodeId);
    var o := BoundOrch(app.eps[k], app.orchs).value;
    var j :| 0 <= j < |app.orchs| && app.orchs[j] == o;
  }

  lemma OrchPointedAtIff(app: App, i: nat)
    requires NoCollision(app) && i < |app.orchs|
    ensures PointedAt(Exported(app), app.orchs[i].row.nodeId) <==> HasEntryPoint(app, i)
  {
    var g, id := Exported(app), app.orchs[i].row.nodeId;
    hide Exported, AgentNodeId, EpNodeId, BoundOrch, NoCollision;
    if HasEntryPoint(app, i) {
      var k :| 0 <= k < |app.eps| && BoundOrch(app.eps[k], app.orchs) == Some(app.orchs[i]);
      BoundEdge(app, k);
      assert Edge(EpNodeId(app.eps[k].slug), id).target == id;
    }
    if PointedAt(g, id) {
      var e :| e in g.edges && e.target == id;
      OrchEdgeTarget(app, e, i);
    }
  }

  /** Main result: when node ids do not collide, validation accepts an export exactly if its slugs and
      types are well formed, every entry point is bound, and every orchestrator has an entry point. */
  lemma ExportValidIff(app: App)
    requires NoCollision(app)
    ensures Valid(Exported(app)) <==> Exportable(app)
  {
    var g := Exported(app);
    hide Exported, AgentNodeId, EpNodeId, BoundOrch, Bound, PointedAt, HasEntryPoint, NoCollision, SlugMatches;
    ExportKinds(app);
    ExportedNodes(app);
    forall k | 0 <= k < |app.eps| { EpBoundIff(app, k); }
    forall i | 0 <= i < |app.orchs| { OrchPointedAtIff(app, i); }
    if Valid(g) { ValidImpliesExportable(app); }
    if Exportable(app) {
      assert app.eps[0] in app.eps && EpNode(app.eps[0]) in g.nodes;
      forall error
        ensures !Violates(g, error)
      {
      }
    }
  }

  lemma ValidImpliesExportable(app: App)
    requires NoCollision(app) && Valid(Exported(app))
    ensures Exportable(app)
  {
    var g := Exported(app);
    hide Exported, AgentNodeId, EpNodeId, BoundOrch, Bound, PointedAt, HasEntryPoint, NoCollision, SlugMatches;
    ExportedNodes(app);
    assert !Violates(g, NoEntryPoint) && !Violates(g, BadSlug) && !Violates(g, BadEpType);
    assert !Violates(g, EntryPointUnbound) && !Violates(g, OrphanOrchestrator);
    forall k | 0 <= k < |app.eps|
      ensures SlugMatches(app.eps[k].slug) && app.eps[k].epType in EP_TYPES && BoundOrch(app.eps[k], app.orchs).Some?
    {
      EpBoundIff(app, k);
      assert EpNode(app.eps[k]) in g.nodes;
    }
    forall i | 0 <= i < |app.orchs|
      ensures HasEntryPoint(app, i)
    {
      OrchPointedAtIff(app, i);
      assert OrchNode(app.orchs[i]) in g.nodes;
    }
  }

  // ── The walk over an exported graph is flat ───────────────────────────────

  /** Targets of the edges leaving `id`, in edge order. */
  function TargetsFrom(edges: seq<Edge>, id: string): seq<string> {
    if edges == [] then []
    else (if edges[0].source == id then [edges[0].target] else []) + TargetsFrom(edges[1..], id)
  }

  lemma {:induction false} TargetsAppend(a: seq<Edge>, b: seq<Edge>, id: string)
    ensures TargetsFrom(a + b, id) == TargetsFrom(a, id) + TargetsFrom(b, id)
  {
    if a == [] {
      assert a + b == b;
    } else {
      assert (a + b)[1..] == a[1..] + b;
      TargetsAppend(a[1..], b, id);
    }
  }

  lemma {:induction false} TargetsNone(edges: seq<Edge>, id: string)
    requires forall e :: e in edges ==> e.source != id
    ensures TargetsFrom(edges, id) == []
  {
    if edges == [] {
    } else {
      TargetsNone(edges[1..], id);
    }
  }

  function AgentNodeIds(agents: seq<string>, n: nat): seq<string>
    requires n <= |agents|
  {
    if n == 0 then [] else AgentNodeIds(agents, n - 1) + [AgentNodeId(agents[n - 1])]
  }

  lemma {:induction false} TargetsOfAgentEdges(from: string, agents: seq<string>, n: nat)
    requires n <= |agents|
    ensures TargetsFrom(AgentEdges(from, agents, n), from) == AgentNodeIds(agents, n)
  {
    hide AgentNodeId;
    if n == 0 {
    } else {
      TargetsOfAgentEdges(from, agents, n - 1);
      var e := Edge(from, AgentNodeId(agents[n - 1]));
      TargetsAppend(AgentEdges(from, agents, n - 1), [e], from);
      assert [e][1..] == [];
    }
  }

  lemma {:induction false} TargetsOfOrch(orchs: seq<Orch>, n: nat, i: nat)
    requires n <= |orchs| && i < |orchs|
    requires forall j :: 0 <= j < |orchs| && j != i ==> orchs[j].row.nodeId != orchs[i].row.nodeId
    ensures var agents := orchs[i].row.agents;
            TargetsFrom(OrchEdgesOf(orchs, n), orchs[i].row.nodeId) == if i < n then AgentNodeIds(agents, |agents|) else []
  {
    hide AgentEdges, AgentNodeIds, TargetsFrom;
    if n == 0 {
      TargetsNone([], orchs[i].row.nodeId);
    } else {
      TargetsOfOrch(orchs, n - 1, i);
      var id, row := orchs[i].row.nodeId, orchs[n - 1].row;
      var chunk := AgentEdges(row.nodeId, row.agents, |row.agents|);
      TargetsAppend(OrchEdgesOf(orchs, n - 1), chunk, id);
      if i == n - 1 {
        TargetsOfAgentEdges(id, row.agents, |row.agents|);
      } else {
        AgentEdgesCall(row.nodeId, row.agents, |row.agents|);
        TargetsNone(chunk, id);
      }
    }
  }

  lemma TargetsInExport(app: App, i: nat)
    requires NoCollision(app) && i < |app.orchs|
    ensures var row := app.orchs[i].row;
            TargetsFrom(Exported(app).edges, row.nodeId) == AgentNodeIds(row.agents, |row.agents|)
  {
    hide OrchEdgesOf, EpEdgesOf, AgentNodeIds, TargetsFrom, EpNodeId, AgentNodeId;
    var id := app.orchs[i].row.nodeId;
    var a, b := OrchEdgesOf(app.orchs, |app.orchs|), EpEdgesOf(app.eps, |app.eps|, app.orchs);
    TargetsAppend(a, b, id);
    TargetsOfOrch(app.orchs, |app.orchs|, i);
    EpEdgesBind(app, |app.eps|);
    forall e | e in b
      ensures e.source != id
    {
      assert BindsEp(app, e);
    }
    TargetsNone(b, id);
  }

  /** The agent behind a target node, appended if new. */
  function CollectOne(g: Graph, found: seq<string>, target: string): seq<string> {
    var n := NodeById(g.nodes, target);
    var agentId := if n.Some? then n.value.data.agentId else "";
    if agentId != "" && agentId !in found then found + [agentId] else found
  }

  function Collect(g: Graph, found: seq<string>, targets: seq<string>): seq<string>
    decreases |targets|
  {
    if targets == [] then found else Collect(g, CollectOne(g, found, targets[0]), targets[1..])
  }

  lemma {:induction false} FlatWalk(g: Graph, id: string, i: nat, w: Walk)
    requires i <= |g.edges|
    requires forall e :: e in g.edges && e.source == id ==> IsKind(g, e.target, Agent)
    ensures WalkEdges(g, id, i, w).agentIds == Collect(g, w.agentIds, TargetsFrom(g.edges[i..], id))
    decreases |g.edges| - i
  {
    if i >= |g.edges| {
    } else {
      var e, mid, later := g.edges[i], WalkEdge(g, id, i, w), TargetsFrom(g.edges[i + 1..], id);
      assert g.edges[i..][0] == e && g.edges[i..][1..] == g.edges[i + 1..];
      FlatWalk(g, id, i + 1, mid);
      assert WalkEdges(g, id, i, w) == WalkEdges(g, id, i + 1, mid);
      if e.source == id {
        assert IsKind(g, e.target, Agent);
        assert mid.agentIds == CollectOne(g, w.agentIds, e.target);
        assert TargetsFrom(g.edges[i..], id) == [e.target] + later && ([e.target] + later)[1..] == later;
      } else {
        assert [] + later == later && mid == w;
      }
    }
  }

  lemma {:induction false} CollectAppend(g: Graph, found: seq<string>, a: seq<string>, b: seq<string>)
    ensures Collect(g, found, a + b) == Collect(g, Collect(g, found, a), b)
    decreases |a|
  {
    hide CollectOne;
    if a == [] {
      assert a + b == b;
    } else {
      assert (a + b)[1..] == a[1..] + b;
      CollectAppend(g, CollectOne(g, found, a[0]), a[1..], b);
    }
  }

  lemma {:induction false} CollectAgents(g: Graph, agents: seq<string>, n: nat)
    requires n <= |agents| && Distinct(agents) && "" !in agents
    requires forall a :: a in agents ==> NodeById(g.nodes, AgentNodeId(a)) == Some(AgentNode(a))
    ensures Collect(g, [], AgentNodeIds(agents, n)) == agents[..n]
  {
    hide AgentNodeId, NodeById;
    if n == 0 {
    } else {
      CollectAgents(g, agents, n - 1);
      var a := agents[n - 1];
      assert a in agents;
      CollectAppend(g, [], AgentNodeIds(agents, n - 1), [AgentNodeId(a)]);
      assert [AgentNodeId(a)][1..] == [];
      assert a !in agents[..n - 1];
      assert agents[..n] == agents[..n - 1] + [a];
      assert NodeById(g.nodes, AgentNodeId(a)) == Some(AgentNode(a));
    }
  }

  /** The compiler re-derives the exact agent sequence of each exported row. */
  lemma ExportResolves(app: App, i: nat)
    requires NoCollision(app) && i < |app.orchs|
    requires Distinct(app.orchs[i].row.agents) && "" !in app.orchs[i].row.agents
    ensures ResolveAgents(Exported(app), app.orchs[i].row.nodeId) == app.orchs[i].row.agents
  {
    hide Exported, AgentNodeId, EpNodeId, NoCollision, AgentNodeIds, Collect, TargetsFrom, WalkEdges;
    var g, row := Exported(app), app.orchs[i].row;
    ExportedLookup(app);
    EdgesFromOrch(app, i);
    FlatWalk(g, row.nodeId, 0, Walk({row.nodeId}, []));
    assert g.edges[0..] == g.edges;
    TargetsInExport(app, i);
    forall a | a in row.agents
      ensures NodeById(g.nodes, AgentNodeId(a)) == Some(AgentNode(a))
    {
      assert Listed(app.orchs, a);
    }
    CollectAgents(g, row.agents, |row.agents|);
    assert {} + {row.nodeId} == {row.nodeId};
  }

  lemma EdgesFromOrch(app: App, i: nat)
    requires NoCollision(app) && i < |app.orchs|
    ensures forall e :: e in Exported(app).edges && e.source == app.orchs[i].row.nodeId ==> IsKind(Exported(app), e.target, Agent)
  {
    var g := Exported(app);
    hide Exported, AgentNodeId, EpNodeId, BoundOrch;
    ExportedLookup(app);
    ExportedEdges(app);
    forall e | e in g.edges && e.source == app.orchs[i].row.nodeId
      ensures IsKind(g, e.target, Agent)
    {
      assert !BindsEp(app, e);
      var k, a :| 0 <= k < |app.orchs| && a in app.orchs[k].row.agents && e == Edge(app.orchs[k].row.nodeId, AgentNodeId(a));
      assert Listed(app.orchs, a);
    }
  }

  // ── What the export loses ─────────────────────────────────────────────────

  /** Nothing in an exported graph is delegatable: edges between orchestrators are not drawn. */
  lemma ExportNotDelegatable(app: App, i: nat)
    requires NoCollision(app) && i < |app.orchs|
    ensures !Delegatable(Exported(app), app.orchs[i].row.nodeId)
  {
    var g, id := Exported(app), app.orchs[i].row.nodeId;
    hide Exported, AgentNodeId, EpNodeId, BoundOrch;
    ExportedEdges(app);
    ExportInOrder(app);
    forall e, a | e in g.edges && e.target == id && a in OrchNodes(g)
      ensures a.id != e.source
    {
      assert !CallsAgent(app.orchs, e);
      var k :| 0 <= k < |OrchNodes(g)| && OrchNodes(g)[k] == a;
      assert a == OrchNode(app.orchs[k]);
    }
  }

  /** No middleware wiring comes back: middleware nodes are drawn without edges. */
  lemma ExportHasNoChains(app: App)
    requires NoCollision(app)
    ensures WiringEnds(Exported(app)) && AllWirings(Exported(app), |OrchNodes(Exported(app))|) == []
  {
    var g := Exported(app);
    hide Exported, AgentNodeId, EpNodeId, BoundOrch;
    forall e | e in g.edges
      ensures !IsKind(g, e.target, Middleware)
    {
      NoMiddlewareTarget(app, e);
    }
    NoWirings(g, |OrchNodes(g)|);
  }

  lemma NoMiddlewareTarget(app: App, e: Edge)
    requires NoCollision(app) && e in Exported(app).edges
    ensures !IsKind(Exported(app), e.target, Middleware)
  {
    hide Exported, AgentNodeId, EpNodeId, BoundOrch, NoCollision;
    ExportedEdges(app);
    ExportedLookup(app);
    if CallsAgent(app.orchs, e) {
      var k, a :| 0 <= k < |app.orchs| && a in app.orchs[k].row.agents && e == Edge(app.orchs[k].row.nodeId, AgentNodeId(a));
      assert Listed(app.orchs, a);
    } else {
      var k :| 0 <= k < |app.eps| && BoundOrch(app.eps[k], app.orchs).Some?
               && e == Edge(EpNodeId(app.eps[k].slug), BoundOrch(app.eps[k], app.orchs).value.row.nodeId);
      var o := BoundOrch(app.eps[k], app.orchs).value;
      var j :| 0 <= j < |app.orchs| && app.orchs[j] == o;
    }
  }

  lemma {:induction false} NoWirings(g: Graph, n: nat)
    requires WiringEnds(g) && n <= |OrchNodes(g)|
    requires forall e :: e in g.edges ==> !IsKind(g, e.target, Middleware)
    ensures AllWirings(g, n) == []
  {
    hide ChainsEndFrom, IsKind, OrchNodes, WiringsUpTo;
    if n == 0 {
    } else {
      NoWirings(g, n - 1);
      NoWiringsUpTo(g, OrchNodes(g)[n - 1].id, |g.edges|);
    }
  }

  lemma {:induction false} NoWiringsUpTo(g: Graph, orchId: string, n: nat)
    requires ChainsEndFrom(g, orchId) && n <= |g.edges|
    requires forall e :: e in g.edges ==> !IsKind(g, e.target, Middleware)
    ensures WiringsUpTo(g, orchId, n) == []
  {
    hide ChainsEndFrom, IsKind;
    if n == 0 {
    } else {
      NoWiringsUpTo(g, orchId, n - 1);
      assert g.edges[n - 1] in g.edges;
    }
  }

  // ── Round trip ────────────────────────────────────────────────────────────

  const NOTHING := Tables([], map[], map[])

  /** The importing side: new ids, the exported agents enabled, the slugs and names free. */
  ghost predicate Welcomes(s: Surroundings, app: App) {
    && FreshIds(NOTHING, s)
    && (forall k :: 0 <= k < |app.eps| ==> app.eps[k].slug !in s.otherSlugs)
    && (forall a :: Listed(app.orchs, a) ==> a in s.enabledAgents)
    && (forall k :: 0 <= k < |app.orchs| ==> app.orchs[k].row.name !in s.names && SlugText(app.orchs[k].row.name))
    && (forall i, j :: 0 <= i < j < |app.orchs| ==> app.orchs[i].row.name != app.orchs[j].row.name)
  }

  ghost predicate AgentsWellFormed(app: App) {
    forall i :: 0 <= i < |app.orchs| ==> Distinct(app.orchs[i].row.agents) && "" !in app.orchs[i].row.agents
  }

  function NamesUpTo(orchs: seq<Orch>, n: nat): set<string>
    requires n <= |orchs|
  {
    set k | 0 <= k < n :: orchs[k].row.name
  }

  /** Every exported name is accepted as proposed. */
  lemma {:induction false} ImportedNames(app: App, s: Surroundings, i: nat, u: Upserted)
    requires Welcomes(s, app) && i <= |app.orchs| && |OrchNodes(Exported(app))| == |app.orchs|
    requires u.names == s.names + NamesUpTo(app.orchs, i)
    requires forall k :: 0 <= k < i ==> s.newId(k) in u.rows && u.rows[s.newId(k)].name == app.orchs[k].row.name
    requires forall k :: 0 <= k < |app.orchs| ==> OrchNodes(Exported(app))[k] == OrchNode(app.orchs[k])
    ensures var r := UpsertFrom(Exported(app), NOTHING, s, i, u);
            r.Ok? && forall k :: 0 <= k < |app.orchs| ==>
              s.newId(k) in r.value.rows && r.value.rows[s.newId(k)].name == app.orchs[k].row.name
    decreases |app.orchs| - i
  {
    hide Exported, OrchNodes, ResolveAgents, Delegatable, OrchName, SlugText;
    if i >= |app.orchs| {
    } else {
      var name := app.orchs[i].row.name;
      assert name !in u.names;
      var n := OrchNodes(Exported(app))[i];
      WellFormedNameKept(name, Hint(n), u.names, s.token(i));
      assert Match(NOTHING, n) == None && NewName(n, u.names, s, i) == Ok(name);
      var next := UpsertNode(Exported(app), NOTHING, s, i, u);
      assert next.Ok? && next.value.names == u.names + {name};
      assert NamesUpTo(app.orchs, i + 1) == NamesUpTo(app.orchs, i) + {name};
      ImportedNames(app, s, i + 1, next.value);
    }
  }

  lemma ImportSucceeds(app: App, s: Surroundings)
    requires NoCollision(app) && Exportable(app) && Welcomes(s, app)
    ensures Compile(Exported(app), NOTHING, s).Ok?
    ensures var u := UpsertFrom(Exported(app), NOTHING, s, 0, Start(NOTHING, s));
            u.Ok? && forall k :: 0 <= k < |app.orchs| ==>
              s.newId(k) in u.value.rows && u.value.rows[s.newId(k)].name == app.orchs[k].row.name
  {
    var g := Exported(app);
    hide Exported, OrchNodes, Exportable, UpsertFrom, BindFrom, Valid, Surviving, DeletedNames, Slugs;
    ExportInOrder(app);
    EpsDrawn(app.eps, |app.eps|);
    ImportedNames(app, s, 0, Start(NOTHING, s));
    ExportValidIff(app);
    ValidGraphsBind(g, NOTHING, s);
    NothingMissing(app, s);
  }

  lemma NothingMissing(app: App, s: Surroundings)
    requires Welcomes(s, app)
    ensures !SlugConflict(Exported(app), s) && !AgentMissing(Exported(app), s)
  {
    var g := Exported(app);
    hide Exported, OrchNodes;
    ExportedNodes(app);
    ExportInOrder(app);
    EpsDrawn(app.eps, |app.eps|);
  }

  /** Main result: compiling an export into an empty application succeeds and restores node id, name,
      the exact agent sequence, every slug and every slug's orchestrator. */
  lemma ExportThenImport(app: App, s: Surroundings)
    requires NoCollision(app) && Exportable(app) && AgentsWellFormed(app) && Welcomes(s, app)
    ensures var r := Compile(Exported(app), NOTHING, s);
            && r.Ok?
            && |r.value.orchs| == |app.orchs|
            && (forall k :: 0 <= k < |app.orchs| ==>
                  s.newId(k) in r.value.orchs &&
                  r.value.orchs[s.newId(k)] == app.orchs[k].row.(delegatable := false))
            && r.value.eps.Keys == (set k | 0 <= k < |app.eps| :: app.eps[k].slug)
            && (forall k :: 0 <= k < |app.eps| ==>
                  var ep := r.value.eps[app.eps[k].slug];
                  ep.epType == app.eps[k].epType && ep.orchId in r.value.orchs &&
                  r.value.orchs[ep.orchId].nodeId == BoundOrch(app.eps[k], app.orchs).value.row.nodeId)
  {
    ImportSucceeds(app, s);
    ImportedRows(app, s);
    ImportedSlugs(app, s);
  }

  lemma ImportedRows(app: App, s: Surroundings)
    requires NoCollision(app) && Exportable(app) && AgentsWellFormed(app) && Welcomes(s, app)
    requires Compile(Exported(app), NOTHING, s).Ok?
    ensures var c := Compile(Exported(app), NOTHING, s).value;
            && |c.orchs| == |app.orchs|
            && forall k :: 0 <= k < |app.orchs| ==>
                 s.newId(k) in c.orchs && c.orchs[s.newId(k)] == app.orchs[k].row.(delegatable := false)
  {
    var g := Exported(app);
    hide Exported, OrchNodes, Exportable, UpsertFrom, Compile, NoCollision, AgentsWellFormed, Welcomes, LaidOut;
    ImportIsFresh(app, s);
    EmptyMatchesDistinct(g);
    hide MatchesDistinct, Match;
    ExportInOrder(app);
    CompiledLayout(g, NOTHING, s);
    LayoutSize(g, Compile(g, NOTHING, s).value.orchs, TargetOf(g, NOTHING, s));
    forall k | 0 <= k < |app.orchs| { ImportedRow(app, s, k); }
  }

  lemma EmptyMatchesDistinct(g: Graph)
    ensures MatchesDistinct(g, NOTHING) && OneRowPerNode(NOTHING.orchs)
  {
    hide OrchNodes;
  }

  lemma ImportIsFresh(app: App, s: Surroundings)
    requires Welcomes(s, app)
    ensures FreshIds(NOTHING, s)
  {
  }

  lemma ImportedRow(app: App, s: Surroundings, k: nat)
    requires NoCollision(app) && Exportable(app) && AgentsWellFormed(app) && Welcomes(s, app) && k < |app.orchs|
    requires Compile(Exported(app), NOTHING, s).Ok?
    ensures var c := Compile(Exported(app), NOTHING, s).value;
            s.newId(k) in c.orchs && c.orchs[s.newId(k)] == app.orchs[k].row.(delegatable := false)
  {
    hide Exported, Exportable, Compile, ResolveAgents, Delegatable, NoCollision, Welcomes, OrchNodes;
    ImportedDescription(app, s, k);
    ImportedName(app, s, k);
    ExportResolves(app, k);
    ExportNotDelegatable(app, k);
  }

  lemma ImportedDescription(app: App, s: Surroundings, k: nat)
    requires Welcomes(s, app) && k < |app.orchs| && Compile(Exported(app), NOTHING, s).Ok?
    ensures var c := Compile(Exported(app), NOTHING, s).value;
            s.newId(k) in c.orchs && Describes(Exported(app), OrchNode(app.orchs[k]), c.orchs[s.newId(k)])
  {
    hide Exported, OrchNodes, Compile, Describes, Welcomes, FreshIds, MatchesDistinct, Match, Target, OneRowPerNode, OrchNode;
    ImportIsFresh(app, s);
    EmptyMatchesDistinct(Exported(app));
    ExportInOrder(app);
    CompiledLayout(Exported(app), NOTHING, s);
    TargetOfNothing(Exported(app), s, k);
  }

  lemma TargetOfNothing(g: Graph, s: Surroundings, k: nat)
    requires k < |OrchNodes(g)|
    ensures TargetOf(g, NOTHING, s)(k) == s.newId(k)
  {
    hide OrchNodes;
  }

  lemma ImportedName(app: App, s: Surroundings, k: nat)
    requires NoCollision(app) && Exportable(app) && Welcomes(s, app) && k < |app.orchs|
    requires Compile(Exported(app), NOTHING, s).Ok?
    ensures var c := Compile(Exported(app), NOTHING, s).value;
            s.newId(k) in c.orchs ==> c.orchs[s.newId(k)].name == app.orchs[k].row.name
  {
    ImportIsFresh(app, s);
    hide Exported, OrchNodes, Compile, UpsertFrom, Exportable, NoCollision, Welcomes, FreshIds, Surviving, RowsSoFar, Start;
    CompiledRows(Exported(app), NOTHING, s);
    ImportSucceeds(app, s);
    SurvivingValues(Exported(app), NOTHING, UpsertFrom(Exported(app), NOTHING, s, 0, Start(NOTHING, s)).value.rows);
  }

  lemma StoredType(app: App, k: nat)
    requires Exportable(app) && k < |app.eps|
    ensures app.eps[k].epType != "" && BoundOrch(app.eps[k], app.orchs).Some?
  {
  }

  lemma ImportedSlugs(app: App, s: Surroundings)
    requires NoCollision(app) && Exportable(app) && Welcomes(s, app)
    requires Compile(Exported(app), NOTHING, s).Ok?
    ensures var c := Compile(Exported(app), NOTHING, s).value;
            && c.eps.Keys == (set k | 0 <= k < |app.eps| :: app.eps[k].slug)
            && forall k :: 0 <= k < |app.eps| ==>
                 var ep := c.eps[app.eps[k].slug];
                 ep.epType == app.eps[k].epType && ep.orchId in c.orchs &&
                 c.orchs[ep.orchId].nodeId == BoundOrch(app.eps[k], app.orchs).value.row.nodeId
  {
    hide Exported, Compile, OrchTarget, BoundOrch, EpNodeId, NoCollision, Exportable, SlugRepeated, OrchNodes, EpNodes;
    var g := Exported(app);
    var c := Compile(g, NOTHING, s).value;
    ImportIsFresh(app, s);
    hide Welcomes, FreshIds;
    ExportSlugsDistinct(app);
    ExportNodesDistinct(app);
    CompiledSlugs(g, NOTHING, s);
    ExportedSlugs(app);
    forall k | 0 <= k < |app.eps|
      ensures BoundOrch(app.eps[k], app.orchs).Some?
      ensures var ep := c.eps[app.eps[k].slug];
              ep.epType == app.eps[k].epType && ep.orchId in c.orchs &&
              c.orchs[ep.orchId].nodeId == BoundOrch(app.eps[k], app.orchs).value.row.nodeId
    {
      StoredType(app, k);
      assert EpNode(app.eps[k]) in EpNodes(g);
      ImportedTarget(app, k);
    }
  }

  lemma ExportedSlugs(app: App)
    ensures Slugs(Exported(app)) == set k | 0 <= k < |app.eps| :: app.eps[k].slug
    ensures forall k :: 0 <= k < |app.eps| ==> EpNode(app.eps[k]) in EpNodes(Exported(app))
  {
    var g := Exported(app);
    hide Exported, EpNodes, EpNodeId;
    ExportInOrder(app);
    EpsDrawn(app.eps, |app.eps|);
    forall k | 0 <= k < |app.eps|
      ensures EpNode(app.eps[k]) in EpNodes(g)
    {
      assert EpNodes(g)[k] in EpNodes(g);
    }
    forall slug
      ensures slug in Slugs(g) <==> exists k :: 0 <= k < |app.eps| && app.eps[k].slug == slug
    {
      if k :| 0 <= k < |app.eps| && app.eps[k].slug == slug { assert EpNode(app.eps[k]) in EpNodes(g); }
    }
  }

  lemma ExportNodesDistinct(app: App)
    requires NoCollision(app)
    ensures DistinctNodes(Exported(app))
  {
    hide Exported;
    ExportInOrder(app);
  }

  /** An edge that leaves an entry-point node leads to that entry point's orchestrator. */
  lemma EpEdgeTarget(app: App, k: nat, e: Edge)
    requires NoCollision(app) && k < |app.eps| && e in Exported(app).edges && e.source == EpNodeId(app.eps[k].slug)
    ensures BoundOrch(app.eps[k], app.orchs).Some? && e.target == BoundOrch(app.eps[k], app.orchs).value.row.nodeId
  {
    hide Exported, EpNodeId, AgentNodeId, BoundOrch;
    ExportedEdges(app);
    assert !CallsAgent(app.orchs, e);
    var i :| 0 <= i < |app.eps| && BoundOrch(app.eps[i], app.orchs).Some?
             && e == Edge(EpNodeId(app.eps[i].slug), BoundOrch(app.eps[i], app.orchs).value.row.nodeId);
    IdsTellApart(app.eps[k].slug, app.eps[i].slug);
    assert i == k;
  }

  lemma ImportedTarget(app: App, k: nat)
    requires NoCollision(app) && k < |app.eps| && BoundOrch(app.eps[k], app.orchs).Some?
    ensures OrchTarget(Exported(app), EpNodeId(app.eps[k].slug)) == Some(BoundOrch(app.eps[k], app.orchs).value.row.nodeId)
  {
    var g, id := Exported(app), EpNodeId(app.eps[k].slug);
    hide Exported, EpNodeId, AgentNodeId, BoundOrch, IsKind, NoCollision;
    BoundEdge(app, k);
    var target := OrchTarget(g, id);
    var j :| 0 <= j < |g.edges| && g.edges[j] == Edge(id, BoundOrch(app.eps[k], app.orchs).value.row.nodeId);
    assert target.Some?;
    EpEdgeTarget(app, k, Edge(id, target.value));
  }

  /** The round trip is the identity on a row exactly when the row was not delegatable. */
  lemma RowRestoredIff(app: App, s: Surroundings, k: nat)
    requires NoCollision(app) && Exportable(app) && AgentsWellFormed(app) && Welcomes(s, app) && k < |app.orchs|
    ensures var c := Compile(Exported(app), NOTHING, s);
            c.Ok? && s.newId(k) in c.value.orchs &&
            (c.value.orchs[s.newId(k)] == app.orchs[k].row <==> !app.orchs[k].row.delegatable)
  {
    hide Compile, Exported, NoCollision, Exportable, AgentsWellFormed, Welcomes;
    ExportThenImport(app, s);
  }

  /** A single delegatable orchestrator behind one entry point. */
  const SMALL := App([StoredEp("chat", "sse", Some("row"))], [Orch("row", OrchRow("node", "planner", ["x"], true))], [])

  function Strokes(n: nat): (s: string)
    ensures |s| == n
  {
    if n == 0 then "" else Strokes(n - 1) + "|"
  }

  lemma SmallIsExportable()
    ensures NoCollision(SMALL) && Exportable(SMALL) && AgentsWellFormed(SMALL)
  {
    assert OrchById(SMALL.orchs, "row", 1) == Some(SMALL.orchs[0]);
    assert HasEntryPoint(SMALL, 0) by { assert BoundOrch(SMALL.eps[0], SMALL.orchs) == Some(SMALL.orchs[0]); }
    assert SlugMatches("chat");
    assert forall a :: AgentNodeId(a)[0] == 'a';
    assert forall slug :: EpNodeId(slug)[0] == 'e';
    assert "node"[0] == 'n';
  }

  function Elsewhere(): Surroundings {
    Surroundings({}, {"x"}, {}, (n: nat) => Strokes(n), (i: nat) => (k: nat) => "")
  }

  lemma SmallIsWelcome()
    ensures Welcomes(Elsewhere(), SMALL)
  {
    var s := Elsewhere();
    forall i: nat, j: nat | i != j
      ensures s.newId(i) != s.newId(j)
    {
      assert |s.newId(i)| == i && |s.newId(j)| == j;
    }
    assert SlugText("planner");
  }

  /** The export is no inverse: a concrete application does not come back. */
  lemma ExportIsNoInverse()
    ensures NoCollision(SMALL) && Exportable(SMALL) && AgentsWellFormed(SMALL) && Welcomes(Elsewhere(), SMALL)
    ensures var s := Elsewhere();
            var c := Compile(Exported(SMALL), NOTHING, s);
            c.Ok? && s.newId(0) in c.value.orchs && c.value.orchs[s.newId(0)] != SMALL.orchs[0].row
  {
    SmallIsExportable();
    SmallIsWelcome();
    hide Compile, Exported, NoCollision, Exportable, AgentsWellFormed, Welcomes, Elsewhere;
    RowRestoredIff(SMALL, Elsewhere(), 0);
  }
}
