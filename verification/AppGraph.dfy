/** The canvas graph of an application: structural validation and agent reachability. */
module AppGraph {
  import opened Common

  datatype Kind = EntryPoint | Orchestrator | Agent | Middleware | OtherKind(text: string)

  /** Node data; the empty string stands for an absent or falsy entry. */
  datatype NodeData = NodeData(
    slug: string, epType: string,
    agentId: string, defId: string,
    appOrchestratorId: string, name: string, displayName: string)

  datatype Node = Node(id: string, kind: Kind, data: NodeData)

  datatype Edge = Edge(source: string, target: string)

  datatype Graph = Graph(nodes: seq<Node>, edges: seq<Edge>)

  const EP_TYPES: set<string> := {"websocket", "sse", "webrtc", "a2a", "voice"}

  /** The last node carrying this id: later entries overwrite earlier ones in the lookup table. */
  function NodeById(nodes: seq<Node>, id: string): (n: Option<Node>)
    ensures n.Some? ==> n.value in nodes && n.value.id == id
    ensures n.None? ==> forall m :: m in nodes ==> m.id != id
  {
    if nodes == [] then None
    else
      var last := nodes[|nodes| - 1];
      if last.id == id then Some(last) else NodeById(nodes[..|nodes| - 1], id)
  }

  /** The node at `k` is the last one with this id. */
  predicate LastWithId(nodes: seq<Node>, id: string, k: nat)
    requires k < |nodes|
  {
    nodes[k].id == id && forall j :: k < j < |nodes| ==> nodes[j].id != id
  }

  lemma {:induction false} NodeByIdIsLast(nodes: seq<Node>, id: string)
    ensures NodeById(nodes, id).Some? ==> exists k :: 0 <= k < |nodes| && LastWithId(nodes, id, k) && nodes[k] == NodeById(nodes, id).value
  {
    if nodes == [] {
    } else if nodes[|nodes| - 1].id == id {
      assert LastWithId(nodes, id, |nodes| - 1);
    } else {
      var init := nodes[..|nodes| - 1];
      NodeByIdIsLast(init, id);
      if NodeById(init, id).Some? {
        var k :| 0 <= k < |init| && LastWithId(init, id, k) && init[k] == NodeById(init, id).value;
        assert LastWithId(nodes, id, k);
      }
    }
  }

  predicate IsKind(g: Graph, id: string, kind: Kind) {
    var n := NodeById(g.nodes, id);
    n.Some? && n.value.kind == kind
  }

  predicate SlugChar(c: char) {
    'a' <= c <= 'z' || '0' <= c <= '9' || c == '_' || c == '-'
  }

  predicate SlugText(text: string) {
    1 <= |text| <= 64 && forall c :: c in text ==> SlugChar(c)
  }

  /** The pattern's final anchor also matches just before one trailing line feed. */
  predicate SlugMatches(text: string) {
    SlugText(text) || (|text| > 1 && text[|text| - 1] == '\n' && SlugText(text[..|text| - 1]))
  }

  predicate SlugBody(body: string) {
    1 <= |body| <= 64 && forall i :: 0 <= i < |body| ==> 'a' <= body[i] <= 'z' || '0' <= body[i] <= '9' || body[i] in {'_', '-'}
  }

  lemma SlugTextIff(text: string)
    ensures SlugText(text) <==> SlugBody(text)
  {
    assert forall i :: 0 <= i < |text| ==> text[i] in text;
  }

  /** What a slug may be. */
  lemma SlugMatchesIff(text: string)
    ensures SlugMatches(text) <==> exists body :: (text == body || text == body + "\n") && SlugBody(body)
  {
    SlugTextIff(text);
    hide SlugText, SlugBody;
    if text != "" {
      var body := text[..|text| - 1];
      SlugTextIff(body);
      assert text[|text| - 1] == '\n' ==> text == body + "\n";
      assert forall b :: text == b + "\n" ==> b == body && text[|text| - 1] == '\n';
    }
    SlugIsNotEmpty("");
  }

  lemma SlugIsNotEmpty(body: string)
    ensures SlugBody(body) ==> body != ""
  {
  }

  // ── Validation ────────────────────────────────────────────────────────────

  datatype GraphError =
    | UnknownNodeType | UnknownEdgeEnd | NoEntryPoint
    | BadSlug | BadEpType | DuplicateSlug
    | EntryPointUnbound | OrphanOrchestrator

  predicate KnownKind(n: Node) {
    !n.kind.OtherKind?
  }

  predicate EdgeKnown(g: Graph, e: Edge) {
    NodeById(g.nodes, e.source).Some? && NodeById(g.nodes, e.target).Some?
  }

  predicate SlugRepeated(nodes: seq<Node>) {
    exists i, j :: 0 <= i < j < |nodes| && nodes[i].kind.EntryPoint? && nodes[j].kind.EntryPoint?
                   && nodes[i].data.slug == nodes[j].data.slug
  }

  /** Some edge binds the entry point to an orchestrator; more than one edge is allowed. */
  predicate Bound(g: Graph, epId: string) {
    exists e :: e in g.edges && e.source == epId && IsKind(g, e.target, Orchestrator)
  }

  predicate PointedAt(g: Graph, orchId: string) {
    IsKind(g, orchId, Orchestrator) && exists e :: e in g.edges && e.target == orchId
  }

  /** What each rejection says about the graph. */
  ghost predicate Violates(g: Graph, error: GraphError) {
    match error
    case UnknownNodeType => exists n :: n in g.nodes && !KnownKind(n)
    case UnknownEdgeEnd => exists e :: e in g.edges && !EdgeKnown(g, e)
    case NoEntryPoint => forall n :: n in g.nodes ==> !n.kind.EntryPoint?
    case BadSlug => exists n :: n in g.nodes && n.kind.EntryPoint? && !SlugMatches(n.data.slug)
    case BadEpType => exists n :: n in g.nodes && n.kind.EntryPoint? && n.data.epType !in EP_TYPES
    case DuplicateSlug => SlugRepeated(g.nodes)
    case EntryPointUnbound => exists n :: n in g.nodes && n.kind.EntryPoint? && !Bound(g, n.id)
    case OrphanOrchestrator => exists n :: n in g.nodes && n.kind.Orchestrator? && !PointedAt(g, n.id)
  }

  ghost predicate Valid(g: Graph) {
    forall error :: !Violates(g, error)
  }

  /** The entry-point slugs among the first `n` nodes. */
  function SlugsUpTo(nodes: seq<Node>, n: nat): set<string>
    requires n <= |nodes|
  {
    if n == 0 then {} else SlugsUpTo(nodes, n - 1) + if nodes[n - 1].kind.EntryPoint? then {nodes[n - 1].data.slug} else {}
  }

  lemma {:induction false} SlugsMember(nodes: seq<Node>, n: nat, slug: string)
    requires n <= |nodes|
    ensures slug in SlugsUpTo(nodes, n) <==> exists k :: 0 <= k < n && nodes[k].kind.EntryPoint? && nodes[k].data.slug == slug
  {
    if n == 0 {
    } else {
      SlugsMember(nodes, n - 1, slug);
    }
  }

  /** A node repeats no earlier slug exactly if it is none of those seen. */
  lemma SlugStep(nodes: seq<Node>, i: nat)
    requires i < |nodes| && !SlugRepeated(nodes[..i])
    ensures SlugRepeated(nodes[..i + 1]) <==> nodes[i].kind.EntryPoint? && nodes[i].data.slug in SlugsUpTo(nodes, i)
  {
    SlugsMember(nodes, i, nodes[i].data.slug);
    hide SlugsUpTo;
    var before, after := nodes[..i], nodes[..i + 1];
    assert forall k :: 0 <= k < i ==> before[k] == after[k];
    if nodes[i].kind.EntryPoint? && nodes[i].data.slug in SlugsUpTo(nodes, i) {
      var k :| 0 <= k < i && nodes[k].kind.EntryPoint? && nodes[k].data.slug == nodes[i].data.slug;
      assert after[k].data.slug == after[i].data.slug;
    }
  }

  lemma RepeatedPrefix(nodes: seq<Node>, n: nat)
    requires n <= |nodes| && SlugRepeated(nodes[..n])
    ensures SlugRepeated(nodes)
  {
    var i, j :| 0 <= i < j < n && nodes[..n][i].kind.EntryPoint? && nodes[..n][j].kind.EntryPoint?
                && nodes[..n][i].data.slug == nodes[..n][j].data.slug;
    assert nodes[i].data.slug == nodes[j].data.slug;
  }

  method CheckEntryPoints(g: Graph) returns (bad: Option<GraphError>)
    ensures bad.Some? ==> Violates(g, bad.value)
    ensures bad.None? ==> forall e :: e in {NoEntryPoint, BadSlug, BadEpType, DuplicateSlug} ==> !Violates(g, e)
  {
    hide SlugMatches, EP_TYPES, Bound, PointedAt, KnownKind, EdgeKnown, SlugRepeated;
    var slugs: set<string>, anyEntryPoint := {}, false;
    for i := 0 to |g.nodes|
      invariant anyEntryPoint <==> exists k :: 0 <= k < i && g.nodes[k].kind.EntryPoint?
    {
      anyEntryPoint := anyEntryPoint || g.nodes[i].kind.EntryPoint?;
    }
    if !anyEntryPoint { return Some(NoEntryPoint); }
    NothingRepeated(g.nodes);
    for i := 0 to |g.nodes|
      invariant forall k :: 0 <= k < i && g.nodes[k].kind.EntryPoint? ==>
        SlugMatches(g.nodes[k].data.slug) && g.nodes[k].data.epType in EP_TYPES
      invariant slugs == SlugsUpTo(g.nodes, i) && !SlugRepeated(g.nodes[..i])
    {
      var n := g.nodes[i];
      SlugStep(g.nodes, i);
      if n.kind.EntryPoint? {
        if !SlugMatches(n.data.slug) { return Some(BadSlug); }
        if n.data.epType !in EP_TYPES { return Some(BadEpType); }
        if n.data.slug in slugs {
          RepeatedPrefix(g.nodes, i + 1);
          return Some(DuplicateSlug);
        }
        slugs := slugs + {n.data.slug};
      }
    }
    bad := None;
    assert g.nodes[..|g.nodes|] == g.nodes;
  }

  lemma NothingRepeated(nodes: seq<Node>)
    ensures !SlugRepeated(nodes[..0])
  {
  }

  method ValidateGraph(g: Graph) returns (r: Result<(), GraphError>)
    ensures r.Ok? ==> Valid(g)
    ensures r.Err? ==> Violates(g, r.error)
  {
    for i := 0 to |g.nodes|
      invariant forall k :: 0 <= k < i ==> KnownKind(g.nodes[k])
    {
      if !KnownKind(g.nodes[i]) { return Err(UnknownNodeType); }
    }
    for i := 0 to |g.edges|
      invariant forall k :: 0 <= k < i ==> EdgeKnown(g, g.edges[k])
    {
      if !EdgeKnown(g, g.edges[i]) { return Err(UnknownEdgeEnd); }
    }
    var bad := CheckEntryPoints(g);
    if bad.Some? { return Err(bad.value); }
    for i := 0 to |g.nodes|
      invariant forall k :: 0 <= k < i && g.nodes[k].kind.EntryPoint? ==> Bound(g, g.nodes[k].id)
    {
      if g.nodes[i].kind.EntryPoint? && !Bound(g, g.nodes[i].id) { return Err(EntryPointUnbound); }
    }
    for i := 0 to |g.nodes|
      invariant forall k :: 0 <= k < i && g.nodes[k].kind.Orchestrator? ==> PointedAt(g, g.nodes[k].id)
    {
      if g.nodes[i].kind.Orchestrator? && !PointedAt(g, g.nodes[i].id) { return Err(OrphanOrchestrator); }
    }
    r := Ok(());
  }

  // ── Agent reachability ────────────────────────────────────────────────────

  function Ids(nodes: seq<Node>): set<string> {
    set n | n in nodes :: n.id
  }

  /** `to` is entered from `from`: an edge to a middleware or orchestrator node. */
  predicate Enters(g: Graph, from: string, to: string) {
    Edge(from, to) in g.edges && (IsKind(g, to, Middleware) || IsKind(g, to, Orchestrator))
  }

  /** An edge from `node` to an agent node standing for this agent. */
  predicate Offers(g: Graph, node: string, agentId: string) {
    agentId != "" &&
    exists e {:trigger e.target} ::
      e in g.edges && e.source == node && IsKind(g, e.target, Agent) &&
      NodeById(g.nodes, e.target).value.data.agentId == agentId
  }

  datatype Walk = Walk(visited: set<string>, agentIds: seq<string>)

  function WalkNode(g: Graph, id: string, w: Walk): (r: Walk)
    ensures w.visited <= r.visited
    decreases Ids(g.nodes) - w.visited, 0, 0
  {
    if id in w.visited then w
    else if NodeById(g.nodes, id).None? then w.(visited := w.visited + {id})
    else
      assert id in Ids(g.nodes) - w.visited;
      WalkEdges(g, id, 0, w.(visited := w.visited + {id}))
  }

  function WalkEdges(g: Graph, id: string, i: nat, w: Walk): (r: Walk)
    requires i <= |g.edges|
    ensures w.visited <= r.visited
    decreases Ids(g.nodes) - w.visited, 1, |g.edges| - i
  {
    if i == |g.edges| then w else WalkEdges(g, id, i + 1, WalkEdge(g, id, i, w))
  }

  function WalkEdge(g: Graph, id: string, i: nat, w: Walk): (r: Walk)
    requires i < |g.edges|
    ensures w.visited <= r.visited
    decreases Ids(g.nodes) - w.visited, 1, |g.edges| - i - 1
  {
    var e := g.edges[i];
    if e.source != id then w
    else if IsKind(g, e.target, Agent) then
      var agentId := NodeById(g.nodes, e.target).value.data.agentId;
      if agentId != "" && agentId !in w.agentIds then w.(agentIds := w.agentIds + [agentId]) else w
    else if IsKind(g, e.target, Middleware) || IsKind(g, e.target, Orchestrator) then WalkNode(g, e.target, w)
    else w
  }

  function ResolveAgents(g: Graph, orchId: string): seq<string> {
    WalkNode(g, orchId, Walk({}, [])).agentIds
  }

  /** The recursive closure with its two captured collections. */
  class AgentWalk {
    const graph: Graph
    var visited: set<string>
    var agentIds: seq<string>

    constructor (graph: Graph)
      ensures this.graph == graph && Current() == Walk({}, [])
    {
      this.graph := graph;
      visited, agentIds := {}, [];
    }

    function Current(): Walk
      reads this
    {
      Walk(visited, agentIds)
    }

    method Visit(id: string)
      modifies this
      ensures Current() == WalkNode(graph, id, old(Current()))
      decreases Ids(graph.nodes) - visited
    {
      if id in visited { return; }
      visited := visited + {id};
      var node := NodeById(graph.nodes, id);
      if node.None? { return; }
      assert id in Ids(graph.nodes);
      ghost var entered := Current();
      for i := 0 to |graph.edges|
        invariant old(visited) < visited && id in visited
        invariant WalkEdges(graph, id, i, Current()) == WalkEdges(graph, id, 0, entered)
      {
        var e := graph.edges[i];
        if e.source != id { continue; }
        var target := NodeById(graph.nodes, e.target);
        if target.None? { continue; }
        if target.value.kind.Agent? {
          var agentId := target.value.data.agentId;
          if agentId != "" && agentId !in agentIds {
            agentIds := agentIds + [agentId];
          }
        } else if target.value.kind.Middleware? || target.value.kind.Orchestrator? {
          Visit(target.value.id);
        }
      }
    }
  }

  method ResolveAgentsForOrch(orchId: string, graph: Graph) returns (agentIds: seq<string>)
    ensures agentIds == ResolveAgents(graph, orchId)
  {
    var walk := new AgentWalk(graph);
    walk.Visit(orchId);
    agentIds := walk.agentIds;
  }

  /** A path whose steps after the first node enter middleware or orchestrator nodes. */
  ghost predicate InnerPath(g: Graph, p: seq<string>) {
    p != [] && forall i :: 0 <= i < |p| - 1 ==> Enters(g, p[i], p[i + 1])
  }

  ghost predicate Reaches(g: Graph, from: string, to: string) {
    exists p :: InnerPath(g, p) && p[0] == from && p[|p| - 1] == to
  }

  /** Some path through middleware and orchestrators leads from `orchId` to the agent. */
  ghost predicate AgentReachable(g: Graph, orchId: string, agentId: string) {
    NodeById(g.nodes, orchId).Some? && exists n :: Reaches(g, orchId, n) && Offers(g, n, agentId)
  }

  lemma ReachesSelf(g: Graph, id: string)
    ensures Reaches(g, id, id)
  {
    assert InnerPath(g, [id]);
  }

  lemma ReachesStep(g: Graph, from: string, mid: string, to: string)
    requires Enters(g, from, mid) && Reaches(g, mid, to)
    ensures Reaches(g, from, to)
  {
    var p :| InnerPath(g, p) && p[0] == mid && p[|p| - 1] == to;
    var q := [from] + p;
    forall i | 0 <= i < |q| - 1
      ensures Enters(g, q[i], q[i + 1])
    {
      if i > 0 { assert Enters(g, p[i - 1], p[i]); }
    }
    assert InnerPath(g, q);
  }

  // Soundness: everything new was reached from the node being walked.

  ghost predicate SoundFrom(g: Graph, id: string, before: Walk, after: Walk) {
    && (forall x :: x in after.visited - before.visited ==> Reaches(g, id, x))
    && (forall a :: a in after.agentIds && a !in before.agentIds ==> exists n :: Reaches(g, id, n) && Offers(g, n, a))
  }

  lemma SoundTrans(g: Graph, id: string, a: Walk, b: Walk, c: Walk)
    requires SoundFrom(g, id, a, b) && SoundFrom(g, id, b, c)
    ensures SoundFrom(g, id, a, c)
  {
  }

  lemma SoundFromChild(g: Graph, id: string, child: string, before: Walk, after: Walk)
    requires Enters(g, id, child) && SoundFrom(g, child, before, after)
    ensures SoundFrom(g, id, before, after)
  {
    forall x | Reaches(g, child, x)
      ensures Reaches(g, id, x)
    {
      ReachesStep(g, id, child, x);
    }
  }

  lemma {:induction false} WalkNodeSound(g: Graph, id: string, w: Walk)
    ensures SoundFrom(g, id, w, WalkNode(g, id, w))
    decreases Ids(g.nodes) - w.visited, 0, 0
  {
    ReachesSelf(g, id);
    if id !in w.visited && NodeById(g.nodes, id).Some? {
      assert id in Ids(g.nodes) - w.visited;
      var entered := w.(visited := w.visited + {id});
      WalkEdgesSound(g, id, 0, entered);
      SoundTrans(g, id, w, entered, WalkNode(g, id, w));
    }
  }

  lemma {:induction false} WalkEdgesSound(g: Graph, id: string, i: nat, w: Walk)
    requires i <= |g.edges|
    ensures SoundFrom(g, id, w, WalkEdges(g, id, i, w))
    decreases Ids(g.nodes) - w.visited, 1, |g.edges| - i
  {
    if i >= |g.edges| {
    } else {
      var e := g.edges[i];
      var mid := WalkEdge(g, id, i, w);
      if e.source == id {
        assert e == Edge(id, e.target);
        if IsKind(g, e.target, Agent) {
          ReachesSelf(g, id);
          assert e.target == g.edges[i].target;
        } else if IsKind(g, e.target, Middleware) || IsKind(g, e.target, Orchestrator) {
          WalkNodeSound(g, e.target, w);
          SoundFromChild(g, id, e.target, w, mid);
        }
      }
      WalkEdgesSound(g, id, i + 1, mid);
      SoundTrans(g, id, w, mid, WalkEdges(g, id, i, w));
    }
  }

  // Completeness: every node visited on the way has all it leads to recorded.

  ghost predicate Exhausted(g: Graph, id: string, w: Walk) {
    NodeById(g.nodes, id).Some? ==>
      && (forall y :: Enters(g, id, y) ==> y in w.visited)
      && (forall a :: Offers(g, id, a) ==> a in w.agentIds)
  }

  ghost predicate CompleteBetween(g: Graph, before: Walk, after: Walk) {
    && before.visited <= after.visited && before.agentIds <= after.agentIds
    && forall x :: x in after.visited - before.visited ==> Exhausted(g, x, after)
  }

  lemma CompleteTrans(g: Graph, a: Walk, b: Walk, c: Walk)
    requires CompleteBetween(g, a, b) && CompleteBetween(g, b, c)
    ensures CompleteBetween(g, a, c)
  {
    forall x | x in c.visited - a.visited
      ensures Exhausted(g, x, c)
    {
      if x in b.visited { assert Exhausted(g, x, b); }
    }
  }

  lemma {:induction false} WalkNodeComplete(g: Graph, id: string, w: Walk)
    ensures CompleteBetween(g, w, WalkNode(g, id, w)) && id in WalkNode(g, id, w).visited
    decreases Ids(g.nodes) - w.visited, 0, 0
  {
    if id !in w.visited && NodeById(g.nodes, id).Some? {
      assert id in Ids(g.nodes) - w.visited;
      var entered := w.(visited := w.visited + {id});
      var after := WalkNode(g, id, w);
      WalkEdgesComplete(g, id, 0, entered);
      forall a | Offers(g, id, a)
        ensures a in after.agentIds
      {
        var e :| e in g.edges && e.source == id && IsKind(g, e.target, Agent)
                 && NodeById(g.nodes, e.target).value.data.agentId == a;
        assert EdgeDone(g, id, e, after);
      }
      forall y | Enters(g, id, y)
        ensures y in after.visited
      {
        assert EdgeDone(g, id, Edge(id, y), after);
      }
    }
  }

  /** What walking this edge must have left behind. */
  ghost predicate EdgeDone(g: Graph, id: string, e: Edge, w: Walk) {
    e.source == id ==>
      && (Enters(g, id, e.target) ==> e.target in w.visited)
      && (IsKind(g, e.target, Agent) ==>
            var a := NodeById(g.nodes, e.target).value.data.agentId; a != "" ==> a in w.agentIds)
  }

  lemma {:induction false} WalkEdgesComplete(g: Graph, id: string, i: nat, w: Walk)
    requires i <= |g.edges|
    ensures CompleteBetween(g, w, WalkEdges(g, id, i, w))
    ensures forall k :: i <= k < |g.edges| ==> EdgeDone(g, id, g.edges[k], WalkEdges(g, id, i, w))
    decreases Ids(g.nodes) - w.visited, 1, |g.edges| - i
  {
    if i >= |g.edges| {
    } else {
      var e := g.edges[i];
      var mid, after := WalkEdge(g, id, i, w), WalkEdges(g, id, i, w);
      if e.source == id && !IsKind(g, e.target, Agent) && (IsKind(g, e.target, Middleware) || IsKind(g, e.target, Orchestrator)) {
        WalkNodeComplete(g, e.target, w);
      }
      WalkEdgesComplete(g, id, i + 1, mid);
      CompleteTrans(g, w, mid, after);
      assert EdgeDone(g, id, e, mid);
    }
  }

  lemma {:induction false} ClosedContainsPath(g: Graph, w: Walk, p: seq<string>)
    requires InnerPath(g, p) && p[0] in w.visited
    requires forall x :: x in w.visited ==> Exhausted(g, x, w)
    requires NodeById(g.nodes, p[0]).Some?
    ensures p[|p| - 1] in w.visited && NodeById(g.nodes, p[|p| - 1]).Some?
    decreases |p|
  {
    if |p| > 1 {
      assert Enters(g, p[0], p[1]);
      assert InnerPath(g, p[1..]) by {
        forall i | 0 <= i < |p| - 2
          ensures Enters(g, p[1..][i], p[1..][i + 1])
        {
          assert Enters(g, p[i + 1], p[i + 2]);
        }
      }
      ClosedContainsPath(g, w, p[1..]);
    }
  }

  lemma {:induction false} WalkNodeDistinct(g: Graph, id: string, w: Walk)
    requires Distinct(w.agentIds)
    ensures Distinct(WalkNode(g, id, w).agentIds)
    decreases Ids(g.nodes) - w.visited, 0, 0
  {
    if id !in w.visited && NodeById(g.nodes, id).Some? {
      assert id in Ids(g.nodes) - w.visited;
      WalkEdgesDistinct(g, id, 0, w.(visited := w.visited + {id}));
    }
  }

  lemma {:induction false} WalkEdgesDistinct(g: Graph, id: string, i: nat, w: Walk)
    requires i <= |g.edges| && Distinct(w.agentIds)
    ensures Distinct(WalkEdges(g, id, i, w).agentIds)
    decreases Ids(g.nodes) - w.visited, 1, |g.edges| - i
  {
    if i >= |g.edges| {
    } else {
      var e := g.edges[i];
      if e.source == id && !IsKind(g, e.target, Agent) && (IsKind(g, e.target, Middleware) || IsKind(g, e.target, Orchestrator)) {
        WalkNodeDistinct(g, e.target, w);
      }
      WalkEdgesDistinct(g, id, i + 1, WalkEdge(g, id, i, w));
    }
  }

  /** Main result: on any graph, cyclic or not, exactly the agents reachable through middleware and
      orchestrators, each once. */
  lemma ResolveAgentsExact(g: Graph, orchId: string)
    ensures Distinct(ResolveAgents(g, orchId))
    ensures forall a :: a in ResolveAgents(g, orchId) <==> AgentReachable(g, orchId, a)
  {
    var start := Walk({}, []);
    var after := WalkNode(g, orchId, start);
    WalkNodeDistinct(g, orchId, start);
    WalkNodeSound(g, orchId, start);
    WalkNodeComplete(g, orchId, start);
    forall a | AgentReachable(g, orchId, a)
      ensures a in after.agentIds
    {
      var n :| Reaches(g, orchId, n) && Offers(g, n, a);
      var p :| InnerPath(g, p) && p[0] == orchId && p[|p| - 1] == n;
      ClosedContainsPath(g, after, p);
      assert Exhausted(g, n, after);
    }
  }

  /** A delegating orchestrator can call every agent its children can. */
  lemma DelegationContains(g: Graph, parent: string, child: string)
    requires NodeById(g.nodes, parent).Some? && Enters(g, parent, child)
    ensures forall a :: a in ResolveAgents(g, child) ==> a in ResolveAgents(g, parent)
  {
    ResolveAgentsExact(g, parent);
    ResolveAgentsExact(g, child);
    forall a | AgentReachable(g, child, a)
      ensures AgentReachable(g, parent, a)
    {
      var n :| Reaches(g, child, n) && Offers(g, n, a);
      ReachesStep(g, parent, child, n);
    }
  }

  // ── What validation lets through ──────────────────────────────────────────

  function NoData(): NodeData {
    NodeData("", "", "", "", "", "", "")
  }

  const EP := Node("ep", EntryPoint, NoData().(slug := "a", epType := "sse"))
  const ORCH := Node("o", Orchestrator, NoData())
  const OTHER := Node("p", Orchestrator, NoData())

  lemma LetterIsSlug()
    ensures SlugText("a")
  {
  }

  /** An entry point with edges to two orchestrators is accepted. */
  lemma TwoTargetsAreValid()
    ensures Valid(Graph([EP, ORCH, OTHER], [Edge("ep", "o"), Edge("ep", "p")]))
  {
    var g := Graph([EP, ORCH, OTHER], [Edge("ep", "o"), Edge("ep", "p")]);
    assert g.nodes[..2] == [EP, ORCH] && g.nodes[..2][..1] == [EP];
    assert NodeById(g.nodes, "ep") == Some(EP) && NodeById(g.nodes, "o") == Some(ORCH) && NodeById(g.nodes, "p") == Some(OTHER);
    assert g.edges[0] == Edge("ep", "o") && g.edges[1] == Edge("ep", "p");
    assert Bound(g, "ep") && PointedAt(g, "o") && PointedAt(g, "p");
    assert SlugText("a") && EP in g.nodes;
  }

  /** So is a slug that ends in a line feed. */
  lemma LineFeedSlugIsValid()
    ensures Valid(Graph([EP.(data := EP.data.(slug := "a\n")), ORCH], [Edge("ep", "o")]))
  {
    var ep := EP.(data := EP.data.(slug := "a\n"));
    var g := Graph([ep, ORCH], [Edge("ep", "o")]);
    assert g.nodes[..1] == [ep];
    assert NodeById(g.nodes, "ep") == Some(ep) && NodeById(g.nodes, "o") == Some(ORCH);
    assert g.edges[0] == Edge("ep", "o");
    assert Bound(g, "ep") && PointedAt(g, "o");
    assert "a\n"[..1] == "a" && SlugText("a") && SlugMatches("a\n");
    assert ep in g.nodes;
  }
}
