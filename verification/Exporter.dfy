/** Exporting an application's rows as a graph, and compiling that graph into an empty application. */
module Exporter {
  import opened Common
  import opened AppGraph
  import opened Compiler

  datatype Orch = Orch(id: RowId, row: OrchRow)

  datatype StoredEp = StoredEp(slug: string, epType: string, orchId: Option<RowId>)

  /** A middleware row; without a node id it is not drawn. */
  datatype StoredMw = StoredMw(nodeId: string, defId: string)

  function AgentNodeId(agentId: string): string {
    "agent_" + agentId
  }

  function EpNodeId(slug: string): string {
    "ep_" + slug
  }

  function OrchNode(o: Orch): Node {
    Node(o.row.nodeId, Orchestrator, NoData().(appOrchestratorId := o.id, name := o.row.name, displayName := o.row.name))
  }

  function AgentNode(agentId: string): Node {
    Node(AgentNodeId(agentId), Agent, NoData().(agentId := agentId))
  }

  function EpNode(ep: StoredEp): Node {
    Node(EpNodeId(ep.slug), EntryPoint, NoData().(slug := ep.slug, epType := ep.epType))
  }

  function MwNode(mw: StoredMw): Node {
    Node(mw.nodeId, Middleware, NoData().(defId := mw.defId))
  }

  // ── The exported graph ────────────────────────────────────────────────────

  // Each list is described by its first `n` source items.

  function EmittedBy(agents: seq<string>, n: nat, emitted: set<string>): set<string>
    requires n <= |agents|
  {
    if n == 0 then emitted else EmittedBy(agents, n - 1, emitted) + {agents[n - 1]}
  }

  /** Nodes for the agents not drawn yet. */
  function NewAgentNodes(agents: seq<string>, n: nat, emitted: set<string>): seq<Node>
    requires n <= |agents|
  {
    if n == 0 then []
    else
      NewAgentNodes(agents, n - 1, emitted) +
      if agents[n - 1] in EmittedBy(agents, n - 1, emitted) then [] else [AgentNode(agents[n - 1])]
  }

  function AgentEdges(from: string, agents: seq<string>, n: nat): seq<Edge>
    requires n <= |agents|
  {
    if n == 0 then [] else AgentEdges(from, agents, n - 1) + [Edge(from, AgentNodeId(agents[n - 1]))]
  }

  function EmittedByOrchs(orchs: seq<Orch>, n: nat): set<string>
    requires n <= |orchs|
  {
    if n == 0 then {}
    else
      var agents := orchs[n - 1].row.agents;
      EmittedBy(agents, |agents|, EmittedByOrchs(orchs, n - 1))
  }

  function OrchNodesOf(orchs: seq<Orch>, n: nat): seq<Node>
    requires n <= |orchs|
  {
    if n == 0 then []
    else
      var agents := orchs[n - 1].row.agents;
      OrchNodesOf(orchs, n - 1) + ([OrchNode(orchs[n - 1])] + NewAgentNodes(agents, |agents|, EmittedByOrchs(orchs, n - 1)))
  }

  function OrchEdgesOf(orchs: seq<Orch>, n: nat): seq<Edge>
    requires n <= |orchs|
  {
    if n == 0 then []
    else
      var row := orchs[n - 1].row;
      OrchEdgesOf(orchs, n - 1) + AgentEdges(row.nodeId, row.agents, |row.agents|)
  }

  /** Lookup by row id: later rows overwrite earlier ones. */
  function OrchById(orchs: seq<Orch>, id: RowId, n: nat): (o: Option<Orch>)
    requires n <= |orchs|
    ensures o.Some? ==> o.value in orchs && o.value.id == id
    ensures o.None? ==> forall k :: 0 <= k < n ==> orchs[k].id != id
  {
    if n == 0 then None
    else if orchs[n - 1].id == id then Some(orchs[n - 1])
    else OrchById(orchs, id, n - 1)
  }

  /** The orchestrator an entry point is bound to. */
  function BoundOrch(ep: StoredEp, orchs: seq<Orch>): (o: Option<Orch>)
    ensures o.Some? ==> o.value in orchs
  {
    if ep.orchId.None? then None else OrchById(orchs, ep.orchId.value, |orchs|)
  }

  function EpNodesOf(eps: seq<StoredEp>, n: nat): seq<Node>
    requires n <= |eps|
  {
    if n == 0 then [] else EpNodesOf(eps, n - 1) + [EpNode(eps[n - 1])]
  }

  function EpEdgesOf(eps: seq<StoredEp>, n: nat, orchs: seq<Orch>): seq<Edge>
    requires n <= |eps|
  {
    if n == 0 then []
    else
      var o := BoundOrch(eps[n - 1], orchs);
      EpEdgesOf(eps, n - 1, orchs) + if o.Some? then [Edge(EpNodeId(eps[n - 1].slug), o.value.row.nodeId)] else []
  }

  function MwNodesOf(mws: seq<StoredMw>, n: nat): seq<Node>
    requires n <= |mws|
  {
    if n == 0 then [] else MwNodesOf(mws, n - 1) + if mws[n - 1].nodeId == "" then [] else [MwNode(mws[n - 1])]
  }

  /** The rows handed to the export. */
  datatype App = App(eps: seq<StoredEp>, orchs: seq<Orch>, mws: seq<StoredMw>)

  function Exported(app: App): Graph {
    Graph(OrchNodesOf(app.orchs, |app.orchs|) + EpNodesOf(app.eps, |app.eps|) + MwNodesOf(app.mws, |app.mws|),
          OrchEdgesOf(app.orchs, |app.orchs|) + EpEdgesOf(app.eps, |app.eps|, app.orchs))
  }

  method ExportOrchestrators(orchs: seq<Orch>) returns (nodes: seq<Node>, edges: seq<Edge>)
    ensures nodes == OrchNodesOf(orchs, |orchs|) && edges == OrchEdgesOf(orchs, |orchs|)
  {
    var emitted: set<string> := {};
    nodes, edges := [], [];
    for i := 0 to |orchs|
      invariant emitted == EmittedByOrchs(orchs, i)
      invariant nodes == OrchNodesOf(orchs, i) && edges == OrchEdgesOf(orchs, i)
    {
      var drawn, wired;
      drawn, wired, emitted := ExportAgents(orchs[i].row.nodeId, orchs[i].row.agents, emitted);
      nodes := nodes + ([OrchNode(orchs[i])] + drawn);
      edges := edges + wired;
    }
  }

  method ExportAgents(from: string, agents: seq<string>, emittedBefore: set<string>)
    returns (nodes: seq<Node>, edges: seq<Edge>, emitted: set<string>)
    ensures nodes == NewAgentNodes(agents, |agents|, emittedBefore) && edges == AgentEdges(from, agents, |agents|)
    ensures emitted == EmittedBy(agents, |agents|, emittedBefore)
  {
    nodes, edges, emitted := [], [], emittedBefore;
    for k := 0 to |agents|
      invariant nodes == NewAgentNodes(agents, k, emittedBefore) && edges == AgentEdges(from, agents, k)
      invariant emitted == EmittedBy(agents, k, emittedBefore)
    {
      if agents[k] !in emitted {
        emitted := emitted + {agents[k]};
        nodes := nodes + [AgentNode(agents[k])];
      }
      edges := edges + [Edge(from, AgentNodeId(agents[k]))];
    }
  }

  method ExportEntryPoints(eps: seq<StoredEp>, orchs: seq<Orch>) returns (nodes: seq<Node>, edges: seq<Edge>)
    ensures nodes == EpNodesOf(eps, |eps|) && edges == EpEdgesOf(eps, |eps|, orchs)
  {
    nodes, edges := [], [];
    for k := 0 to |eps|
      invariant nodes == EpNodesOf(eps, k) && edges == EpEdgesOf(eps, k, orchs)
    {
      nodes := nodes + [EpNode(eps[k])];
      var o := BoundOrch(eps[k], orchs);
      if o.Some? {
        edges := edges + [Edge(EpNodeId(eps[k].slug), o.value.row.nodeId)];
      }
    }
  }

  method ExportGraph(app: App) returns (g: Graph)
    ensures g == Exported(app)
  {
    var orchNodes, orchEdges := ExportOrchestrators(app.orchs);
    var epNodes, epEdges := ExportEntryPoints(app.eps, app.orchs);
    var mwNodes: seq<Node> := [];
    for k := 0 to |app.mws|
      invariant mwNodes == MwNodesOf(app.mws, k)
    {
      if app.mws[k].nodeId != "" {
        mwNodes := mwNodes + [MwNode(app.mws[k])];
      }
    }
    g := Graph(orchNodes + epNodes + mwNodes, orchEdges + epEdges);
  }

  // ── What the export contains ──────────────────────────────────────────────

  ghost predicate Listed(orchs: seq<Orch>, agentId: string) {
    exists k :: 0 <= k < |orchs| && agentId in orchs[k].row.agents
  }

  ghost predicate DrawsOrch(orchs: seq<Orch>, m: Node) {
    exists k :: 0 <= k < |orchs| && m == OrchNode(orchs[k])
  }

  ghost predicate DrawsAgent(orchs: seq<Orch>, m: Node) {
    m == AgentNode(m.data.agentId) && Listed(orchs, m.data.agentId)
  }

  ghost predicate DrawsEp(eps: seq<StoredEp>, m: Node) {
    exists k :: 0 <= k < |eps| && m == EpNode(eps[k])
  }

  ghost predicate DrawsMw(mws: seq<StoredMw>, m: Node) {
    exists k :: 0 <= k < |mws| && mws[k].nodeId != "" && m == MwNode(mws[k])
  }

  lemma {:induction false} EmittedMembers(agents: seq<string>, n: nat, emitted: set<string>)
    requires n <= |agents|
    ensures emitted <= EmittedBy(agents, n, emitted)
    ensures forall k :: 0 <= k < n ==> agents[k] in EmittedBy(agents, n, emitted)
  {
    if n == 0 {
    } else {
      EmittedMembers(agents, n - 1, emitted);
    }
  }

  lemma {:induction false} NewAgentNodesDraw(agents: seq<string>, n: nat, emitted: set<string>)
    requires n <= |agents|
    ensures forall m :: m in NewAgentNodes(agents, n, emitted) ==> m == AgentNode(m.data.agentId) && m.data.agentId in agents
    ensures forall a :: a in EmittedBy(agents, n, emitted) && a !in emitted ==> AgentNode(a) in NewAgentNodes(agents, n, emitted)
  {
    if n == 0 {
    } else {
      NewAgentNodesDraw(agents, n - 1, emitted);
    }
  }

  lemma {:induction false} OrchNodesDrawn(orchs: seq<Orch>, n: nat)
    requires n <= |orchs|
    ensures forall m :: m in OrchNodesOf(orchs, n) ==> DrawsOrch(orchs, m) || DrawsAgent(orchs, m)
  {
    hide OrchNode, EmittedByOrchs;
    if n == 0 {
    } else {
      OrchNodesDrawn(orchs, n - 1);
      var agents := orchs[n - 1].row.agents;
      NewAgentNodesDraw(agents, |agents|, EmittedByOrchs(orchs, n - 1));
    }
  }

  lemma {:induction false} OrchsAreDrawn(orchs: seq<Orch>, n: nat)
    requires n <= |orchs|
    ensures forall k :: 0 <= k < n ==> OrchNode(orchs[k]) in OrchNodesOf(orchs, n)
  {
    hide OrchNode, NewAgentNodes, EmittedByOrchs;
    if n == 0 {
    } else {
      OrchsAreDrawn(orchs, n - 1);
    }
  }

  lemma {:induction false} AgentsAreDrawn(orchs: seq<Orch>, n: nat)
    requires n <= |orchs|
    ensures forall k, a :: 0 <= k < n && a in orchs[k].row.agents ==> a in EmittedByOrchs(orchs, n)
    ensures forall a :: a in EmittedByOrchs(orchs, n) ==> AgentNode(a) in OrchNodesOf(orchs, n)
  {
    hide OrchNode, NewAgentNodes, AgentNode, EmittedBy;
    if n == 0 {
    } else {
      AgentsAreDrawn(orchs, n - 1);
      var agents, emitted := orchs[n - 1].row.agents, EmittedByOrchs(orchs, n - 1);
      EmittedMembers(agents, |agents|, emitted);
      NewAgentNodesDraw(agents, |agents|, emitted);
    }
  }

  lemma {:induction false} EpsDrawn(eps: seq<StoredEp>, n: nat)
    requires n <= |eps|
    ensures |EpNodesOf(eps, n)| == n && forall k :: 0 <= k < n ==> EpNodesOf(eps, n)[k] == EpNode(eps[k])
  {
    hide EpNode;
    if n == 0 {
    } else {
      EpsDrawn(eps, n - 1);
    }
  }

  lemma {:induction false} MwsDrawn(mws: seq<StoredMw>, n: nat)
    requires n <= |mws|
    ensures forall m :: m in MwNodesOf(mws, n) ==> DrawsMw(mws, m)
    ensures forall k :: 0 <= k < n && mws[k].nodeId != "" ==> MwNode(mws[k]) in MwNodesOf(mws, n)
  {
    hide MwNode;
    if n == 0 {
    } else {
      MwsDrawn(mws, n - 1);
    }
  }

  lemma ExportedNodes(app: App)
    ensures forall m :: m in Exported(app).nodes ==>
      DrawsOrch(app.orchs, m) || DrawsAgent(app.orchs, m) || DrawsEp(app.eps, m) || DrawsMw(app.mws, m)
    ensures forall k :: 0 <= k < |app.orchs| ==> OrchNode(app.orchs[k]) in Exported(app).nodes
    ensures forall a :: Listed(app.orchs, a) ==> AgentNode(a) in Exported(app).nodes
    ensures forall k :: 0 <= k < |app.eps| ==> EpNode(app.eps[k]) in Exported(app).nodes
    ensures forall k :: 0 <= k < |app.mws| && app.mws[k].nodeId != "" ==> MwNode(app.mws[k]) in Exported(app).nodes
  {
    hide OrchNode, AgentNode, EpNode, MwNode, OrchNodesOf, EpNodesOf, MwNodesOf, EmittedByOrchs, DrawsAgent;
    OrchNodesDrawn(app.orchs, |app.orchs|);
    OrchsAreDrawn(app.orchs, |app.orchs|);
    AgentsAreDrawn(app.orchs, |app.orchs|);
    EpsDrawn(app.eps, |app.eps|);
    MwsDrawn(app.mws, |app.mws|);
    forall k | 0 <= k < |app.eps|
      ensures EpNode(app.eps[k]) in Exported(app).nodes
    {
      assert EpNodesOf(app.eps, |app.eps|)[k] in EpNodesOf(app.eps, |app.eps|);
    }
  }

  ghost predicate Drawn(g: Graph, id: string, kind: Kind, data: NodeData) {
    Node(id, kind, data) in g.nodes
  }

  /** What the drawn nodes carry: nothing of a row is lost that its node has a place for. */
  lemma ExportedData(app: App)
    ensures var g := Exported(app);
            && (forall o :: o in app.orchs ==>
                  Drawn(g, o.row.nodeId, Orchestrator, NodeData("", "", "", "", o.id, o.row.name, o.row.name)))
            && (forall o, a :: o in app.orchs && a in o.row.agents ==>
                  Drawn(g, "agent_" + a, Agent, NodeData("", "", a, "", "", "", "")))
            && (forall ep :: ep in app.eps ==>
                  Drawn(g, "ep_" + ep.slug, EntryPoint, NodeData(ep.slug, ep.epType, "", "", "", "", "")))
            && (forall mw :: mw in app.mws && mw.nodeId != "" ==>
                  Drawn(g, mw.nodeId, Middleware, NodeData("", "", "", mw.defId, "", "", "")))
  {
    ExportedNodes(app);
    hide Exported;
    forall o, a | o in app.orchs && a in o.row.agents
      ensures Drawn(Exported(app), "agent_" + a, Agent, NodeData("", "", a, "", "", "", ""))
    {
      var k :| 0 <= k < |app.orchs| && app.orchs[k] == o;
      assert Listed(app.orchs, a);
      assert AgentNode(a) in Exported(app).nodes;
    }
  }

  /** The ids of drawn nodes of different kinds do not meet, and orchestrators and slugs are told apart. */
  ghost predicate NoCollision(app: App) {
    && (forall i, j :: 0 <= i < j < |app.orchs| ==> app.orchs[i].row.nodeId != app.orchs[j].row.nodeId && app.orchs[i].id != app.orchs[j].id)
    && (forall i, j :: 0 <= i < j < |app.eps| ==> app.eps[i].slug != app.eps[j].slug)
    && (forall i, a :: 0 <= i < |app.orchs| && Listed(app.orchs, a) ==> app.orchs[i].row.nodeId != AgentNodeId(a))
    && (forall i, k :: 0 <= i < |app.orchs| && 0 <= k < |app.eps| ==> app.orchs[i].row.nodeId != EpNodeId(app.eps[k].slug))
    && (forall j :: 0 <= j < |app.mws| && app.mws[j].nodeId != "" ==> ApartFromMiddleware(app, app.mws[j].nodeId))
  }

  /** No other drawn node has this middleware node's id. */
  ghost predicate ApartFromMiddleware(app: App, mwId: string) {
    && (forall i :: 0 <= i < |app.orchs| ==> app.orchs[i].row.nodeId != mwId)
    && (forall a :: Listed(app.orchs, a) ==> AgentNodeId(a) != mwId)
    && (forall k :: 0 <= k < |app.eps| ==> EpNodeId(app.eps[k].slug) != mwId)
  }

  lemma IdsTellApart(a: string, b: string)
    ensures AgentNodeId(a) != EpNodeId(b)
    ensures AgentNodeId(a) == AgentNodeId(b) ==> a == b
    ensures EpNodeId(a) == EpNodeId(b) ==> a == b
  {
    assert AgentNodeId(a)[0] == 'a' && EpNodeId(b)[0] == 'e';
    assert AgentNodeId(a)[6..] == a && AgentNodeId(b)[6..] == b;
    assert EpNodeId(a)[3..] == a && EpNodeId(b)[3..] == b;
  }

  lemma OrchIdFinds(app: App, m: Node, k: nat)
    requires NoCollision(app) && k < |app.orchs| && m in Exported(app).nodes && m.id == app.orchs[k].row.nodeId
    ensures m == OrchNode(app.orchs[k])
  {
    hide Exported, AgentNodeId, EpNodeId;
    ExportedNodes(app);
    if DrawsOrch(app.orchs, m) {
      var j :| 0 <= j < |app.orchs| && m == OrchNode(app.orchs[j]);
      assert app.orchs[j].row.nodeId == app.orchs[k].row.nodeId;
    }
  }

  lemma AgentIdFinds(app: App, m: Node, a: string)
    requires NoCollision(app) && Listed(app.orchs, a) && m in Exported(app).nodes && m.id == AgentNodeId(a)
    ensures m == AgentNode(a)
  {
    ExportedNodes(app);
    IdsTellApart(a, m.data.agentId);
    IdsTellApart(a, m.data.slug);
    AgentIdsEqual(a, m.data.agentId);
    hide Exported, AgentNodeId, EpNodeId;
  }

  lemma AgentIdsEqual(a: string, b: string)
    ensures AgentNodeId(a) == AgentNodeId(b) <==> a == b
    ensures EpNodeId(a) == EpNodeId(b) <==> a == b
  {
    IdsTellApart(a, b);
  }

  lemma EpIdFinds(app: App, m: Node, k: nat)
    requires NoCollision(app) && k < |app.eps| && m in Exported(app).nodes && m.id == EpNodeId(app.eps[k].slug)
    ensures m == EpNode(app.eps[k])
  {
    hide Exported, AgentNodeId, EpNodeId;
    ExportedNodes(app);
    IdsTellApart(m.data.agentId, app.eps[k].slug);
    AgentIdsEqual(m.data.slug, app.eps[k].slug);
    if DrawsEp(app.eps, m) {
      var j :| 0 <= j < |app.eps| && m == EpNode(app.eps[j]);
      assert app.eps[j].slug == app.eps[k].slug;
    }
  }

  /** Looking a drawn id up finds the node drawn for it. */
  lemma ExportedLookup(app: App)
    requires NoCollision(app)
    ensures forall k :: 0 <= k < |app.orchs| ==>
      NodeById(Exported(app).nodes, app.orchs[k].row.nodeId) == Some(OrchNode(app.orchs[k]))
    ensures forall a :: Listed(app.orchs, a) ==> NodeById(Exported(app).nodes, AgentNodeId(a)) == Some(AgentNode(a))
    ensures forall k :: 0 <= k < |app.eps| ==>
      NodeById(Exported(app).nodes, EpNodeId(app.eps[k].slug)) == Some(EpNode(app.eps[k]))
  {
    hide Exported, AgentNodeId, EpNodeId, NoCollision, DrawsOrch, DrawsAgent, DrawsEp, DrawsMw;
    ExportedNodes(app);
    var nodes := Exported(app).nodes;
    forall k | 0 <= k < |app.orchs|
      ensures NodeById(nodes, app.orchs[k].row.nodeId) == Some(OrchNode(app.orchs[k]))
    {
      assert OrchNode(app.orchs[k]) in nodes;
      OrchIdFinds(app, NodeById(nodes, app.orchs[k].row.nodeId).value, k);
    }
    forall a | Listed(app.orchs, a)
      ensures NodeById(nodes, AgentNodeId(a)) == Some(AgentNode(a))
    {
      assert AgentNode(a) in nodes;
      AgentIdFinds(app, NodeById(nodes, AgentNodeId(a)).value, a);
    }
    forall k | 0 <= k < |app.eps|
      ensures NodeById(nodes, EpNodeId(app.eps[k].slug)) == Some(EpNode(app.eps[k]))
    {
      assert EpNode(app.eps[k]) in nodes;
      EpIdFinds(app, NodeById(nodes, EpNodeId(app.eps[k].slug)).value, k);
    }
  }
}
