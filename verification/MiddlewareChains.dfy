/** Middleware chains: from an orchestrator through middleware nodes to one agent. */
module MiddlewareChains {
  import opened Common
  import opened AppGraph

  datatype Wiring = Wiring(defId: string, agentId: string, position: nat, mwNodeId: string)

  /** Target of the first edge leaving `id`; later edges are ignored. */
  function FirstTarget(g: Graph, id: string): Option<Node> {
    FirstTargetFrom(g, id, 0)
  }

  function FirstTargetFrom(g: Graph, id: string, i: nat): (n: Option<Node>)
    requires i <= |g.edges|
    ensures n.Some? ==> NodeById(g.nodes, n.value.id) == n && Edge(id, n.value.id) in g.edges
    decreases |g.edges| - i
  {
    if i == |g.edges| then None
    else if g.edges[i].source == id then
      assert g.edges[i] == Edge(id, g.edges[i].target);
      NodeById(g.nodes, g.edges[i].target)
    else FirstTargetFrom(g, id, i + 1)
  }

  function NextInChain(g: Graph, id: string): Option<string> {
    var n := FirstTarget(g, id);
    if n.Some? && n.value.kind.Middleware? then Some(n.value.id) else None
  }

  /** The node `k` steps further along the chain, while it lasts. */
  function After(g: Graph, id: string, k: nat): Option<string>
    decreases k
  {
    if k == 0 then Some(id)
    else
      var n := NextInChain(g, id);
      if n.None? then None else After(g, n.value, k - 1)
  }

  ghost predicate ChainEnds(g: Graph, id: string) {
    exists k: nat :: After(g, id, k).None?
  }

  /** The edge makes the resolver walk: it leads from this orchestrator into middleware. */
  predicate EntersChain(g: Graph, orchId: string, e: Edge) {
    e.source == orchId && IsKind(g, e.target, Middleware)
  }

  /** Every walk the resolver makes for this orchestrator ends. */
  ghost predicate ChainsEndFrom(g: Graph, orchId: string) {
    forall e :: e in g.edges && EntersChain(g, orchId, e) ==> ChainEnds(g, e.target)
  }

  ghost predicate FirstEnd(g: Graph, id: string, k: nat) {
    After(g, id, k).None? && forall j :: 0 <= j < k ==> After(g, id, j).Some?
  }

  lemma {:induction false} FirstEndExists(g: Graph, id: string, k: nat)
    requires After(g, id, k).None?
    ensures exists m: nat :: FirstEnd(g, id, m)
    decreases k
  {
    if j: nat :| j < k && After(g, id, j).None? {
      FirstEndExists(g, id, j);
    } else {
      assert FirstEnd(g, id, k);
    }
  }

  /** How many steps the walk makes before it stops. */
  ghost function Steps(g: Graph, id: string): (k: nat)
    requires ChainEnds(g, id)
    ensures FirstEnd(g, id, k)
  {
    var some: nat :| After(g, id, some).None?;
    FirstEndExists(g, id, some);
    var k: nat :| FirstEnd(g, id, k);
    k
  }

  lemma StepsDecrease(g: Graph, id: string)
    requires ChainEnds(g, id) && NextInChain(g, id).Some?
    ensures var n := NextInChain(g, id).value;
            ChainEnds(g, n) && Steps(g, n) < Steps(g, id)
  {
    var n, k := NextInChain(g, id).value, Steps(g, id);
    assert After(g, n, k - 1).None?;
    assert After(g, id, Steps(g, n) + 1) == After(g, n, Steps(g, n));
    assert !(k - 1 < Steps(g, n));
  }

  // ── The walk ──────────────────────────────────────────────────────────────

  /** The chain from `id` on, in order. */
  ghost function ChainFrom(g: Graph, id: string): seq<string>
    requires ChainEnds(g, id)
    decreases Steps(g, id)
  {
    var n := NextInChain(g, id);
    if n.None? then [id]
    else
      StepsDecrease(g, id);
      [id] + ChainFrom(g, n.value)
  }

  /** The agent at the end of the chain; empty when it ends anywhere else. */
  ghost function AgentAtEnd(g: Graph, id: string): string
    requires ChainEnds(g, id)
    decreases Steps(g, id)
  {
    var n := FirstTarget(g, id);
    if n.None? then ""
    else if n.value.kind.Agent? then n.value.data.agentId
    else if n.value.kind.Middleware? then
      StepsDecrease(g, id);
      AgentAtEnd(g, n.value.id)
    else ""
  }

  function DefOf(g: Graph, mwId: string): string {
    var n := NodeById(g.nodes, mwId);
    if n.Some? then n.value.data.defId else ""
  }

  /** One wiring per chain node, positions counting up from 0. */
  function Wirings(g: Graph, chain: seq<string>, agentId: string): seq<Wiring> {
    seq(|chain|, i requires 0 <= i < |chain| => Wiring(DefOf(g, chain[i]), agentId, i, chain[i]))
  }

  /** The wirings of the chain starting at `id`: none unless it ends at an agent. */
  ghost function WiringsOfChain(g: Graph, id: string): seq<Wiring>
    requires ChainEnds(g, id)
  {
    if AgentAtEnd(g, id) == "" then [] else Wirings(g, ChainFrom(g, id), AgentAtEnd(g, id))
  }

  ghost function WiringsOfEdge(g: Graph, orchId: string, e: Edge): seq<Wiring>
    requires ChainsEndFrom(g, orchId) && e in g.edges
  {
    if EntersChain(g, orchId, e) then WiringsOfChain(g, e.target) else []
  }

  /** Wirings found along the first `n` edges. */
  ghost function WiringsUpTo(g: Graph, orchId: string, n: nat): seq<Wiring>
    requires ChainsEndFrom(g, orchId) && n <= |g.edges|
  {
    if n == 0 then [] else WiringsUpTo(g, orchId, n - 1) + WiringsOfEdge(g, orchId, g.edges[n - 1])
  }

  method ResolveMwChains(orchId: string, g: Graph) returns (result: seq<Wiring>)
    requires ChainsEndFrom(g, orchId)
    ensures result == WiringsUpTo(g, orchId, |g.edges|)
  {
    hide ChainsEndFrom, WiringsOfEdge;
    result := [];
    for i := 0 to |g.edges|
      invariant result == WiringsUpTo(g, orchId, i)
    {
      var found := WireEdge(orchId, g, g.edges[i]);
      result := result + found;
    }
  }

  method WireEdge(orchId: string, g: Graph, edge: Edge) returns (found: seq<Wiring>)
    requires ChainsEndFrom(g, orchId) && edge in g.edges
    ensures found == WiringsOfEdge(g, orchId, edge)
  {
    found := [];
    if edge.source == orchId && IsKind(g, edge.target, Middleware) {
      found := FollowChain(g, edge.target);
    }
  }

  /** One step of the walk. */
  lemma WalkOn(g: Graph, id: string)
    requires ChainEnds(g, id)
    ensures var n := FirstTarget(g, id);
            if n.Some? && n.value.kind.Middleware? then
              && ChainEnds(g, n.value.id) && Steps(g, n.value.id) < Steps(g, id)
              && ChainFrom(g, id) == [id] + ChainFrom(g, n.value.id) && AgentAtEnd(g, id) == AgentAtEnd(g, n.value.id)
            else
              && ChainFrom(g, id) == [id]
              && AgentAtEnd(g, id) == if n.Some? && n.value.kind.Agent? then n.value.data.agentId else ""
  {
    hide ChainEnds, FirstTarget;
    if NextInChain(g, id).Some? { StepsDecrease(g, id); }
  }

  /** The endless-looking inner loop. */
  method FollowChain(g: Graph, first: string) returns (found: seq<Wiring>)
    requires ChainEnds(g, first)
    ensures found == WiringsOfChain(g, first)
  {
    hide ChainEnds, ChainFrom, AgentAtEnd, FirstTarget, Wirings;
    found := [];
    var chain, current := [first], first;
    ghost var walked: seq<string> := [];
    while true
      invariant ChainEnds(g, current) && chain == walked + [current]
      invariant AgentAtEnd(g, current) == AgentAtEnd(g, first)
      invariant walked + ChainFrom(g, current) == ChainFrom(g, first)
      decreases Steps(g, current)
    {
      WalkOn(g, current);
      var next := FirstTarget(g, current);
      if next.None? { break; }
      if next.value.kind.Agent? {
        if next.value.data.agentId != "" {
          found := Wirings(g, chain, next.value.data.agentId);
        }
        break;
      } else if next.value.kind.Middleware? {
        walked := chain;
        chain := chain + [next.value.id];
        current := next.value.id;
      } else {
        break;
      }
    }
  }

  // ── What is reported ──────────────────────────────────────────────────────

  lemma {:induction false} ChainIsPath(g: Graph, id: string)
    requires ChainEnds(g, id)
    ensures var chain := ChainFrom(g, id);
            && chain != [] && chain[0] == id && InnerPath(g, chain)
            && (forall i :: 1 <= i < |chain| ==> IsKind(g, chain[i], Middleware))
            && (AgentAtEnd(g, id) != "" ==> Offers(g, chain[|chain| - 1], AgentAtEnd(g, id)))
    decreases Steps(g, id)
  {
    var n := FirstTarget(g, id);
    var next := NextInChain(g, id);
    if next.Some? {
      StepsDecrease(g, id);
      ChainIsPath(g, next.value);
      var rest := ChainFrom(g, next.value);
      assert Enters(g, id, next.value);
      forall i | 0 <= i < |rest|
        ensures Enters(g, ([id] + rest)[i], ([id] + rest)[i + 1])
      {
        if i > 0 { assert Enters(g, rest[i - 1], rest[i]); }
      }
    } else if n.Some? && n.value.kind.Agent? {
      assert Edge(id, n.value.id).target == n.value.id;
    }
  }

  /** Main result: each group of reported wirings has positions 0..n-1 along a real path from the
      orchestrator through middleware to one agent, and the orchestrator may call that agent. */
  lemma ReportedChainIsReal(g: Graph, orchId: string, e: Edge)
    requires ChainsEndFrom(g, orchId) && e in g.edges && NodeById(g.nodes, orchId).Some?
    requires WiringsOfEdge(g, orchId, e) != []
    ensures var ws := WiringsOfEdge(g, orchId, e);
            exists chain, agentId ::
              && |chain| == |ws|
              && InnerPath(g, [orchId] + chain)
              && (forall i :: 0 <= i < |chain| ==>
                    ws[i] == Wiring(DefOf(g, chain[i]), agentId, i, chain[i]) && IsKind(g, chain[i], Middleware))
              && Offers(g, chain[|chain| - 1], agentId)
              && agentId in ResolveAgents(g, orchId)
  {
    assert e == Edge(orchId, e.target);
    var chain, agentId := ChainFrom(g, e.target), AgentAtEnd(g, e.target);
    ChainIsPath(g, e.target);
    assert WiringsOfEdge(g, orchId, e) == Wirings(g, chain, agentId);
    hide ChainEnds, ChainsEndFrom, WiringsOfEdge, WiringsOfChain, ChainFrom, AgentAtEnd, ResolveAgents, InnerPath, AgentReachable, Offers;
    assert Enters(g, orchId, chain[0]);
    PathPrepended(g, orchId, chain);
    PathReachesAgent(g, [orchId] + chain, agentId);
    ResolveAgentsExact(g, orchId);
  }

  lemma PathPrepended(g: Graph, from: string, path: seq<string>)
    requires path != [] && InnerPath(g, path) && Enters(g, from, path[0])
    ensures InnerPath(g, [from] + path)
  {
    hide Enters;
    var longer := [from] + path;
    forall i | 0 <= i < |longer| - 1
      ensures Enters(g, longer[i], longer[i + 1])
    {
      if i > 0 { assert Enters(g, path[i - 1], path[i]); }
    }
  }

  lemma PathReachesAgent(g: Graph, path: seq<string>, agentId: string)
    requires path != [] && InnerPath(g, path) && NodeById(g.nodes, path[0]).Some? && Offers(g, path[|path| - 1], agentId)
    ensures AgentReachable(g, path[0], agentId)
  {
    hide Enters, Offers, InnerPath;
    assert Reaches(g, path[0], path[|path| - 1]);
  }

  // ── Which chains are reported ─────────────────────────────────────────────

  /** Edge `k` is the first one that leaves `from`. */
  predicate FirstEdge(g: Graph, from: string, k: nat)
    requires k < |g.edges|
  {
    g.edges[k].source == from && forall j :: 0 <= j < k ==> g.edges[j].source != from
  }

  /** The first edge that leaves `from` leads to this node. */
  predicate LeadsTo(g: Graph, from: string, to: string) {
    exists k :: 0 <= k < |g.edges| && FirstEdge(g, from, k) && g.edges[k].target == to
  }

  /** First edges lead along the path, through middleware, and from its last node to an agent node. */
  ghost predicate ChainTo(g: Graph, path: seq<string>, agentNode: string) {
    && path != [] && LeadsTo(g, path[|path| - 1], agentNode) && IsKind(g, agentNode, Agent)
    && forall i :: 0 < i < |path| ==> Links(g, path, i)
  }

  predicate Links(g: Graph, path: seq<string>, i: int)
    requires 0 < i < |path|
  {
    LeadsTo(g, path[i - 1], path[i]) && IsKind(g, path[i], Middleware)
  }

  lemma {:induction false} FirstTargetExact(g: Graph, id: string, i: nat)
    requires i <= |g.edges| && forall j :: 0 <= j < i ==> g.edges[j].source != id
    ensures forall to :: LeadsTo(g, id, to) ==> FirstTargetFrom(g, id, i) == NodeById(g.nodes, to)
    ensures FirstTargetFrom(g, id, i).Some? ==> LeadsTo(g, id, FirstTargetFrom(g, id, i).value.id)
    decreases |g.edges| - i
  {
    hide NodeById;
    if i == |g.edges| {
    } else if g.edges[i].source == id {
      assert FirstEdge(g, id, i);
    } else {
      FirstTargetExact(g, id, i + 1);
    }
  }

  lemma AfterOneMore(g: Graph, id: string, next: string)
    requires NextInChain(g, id) == Some(next) && ChainEnds(g, next)
    ensures ChainEnds(g, id)
  {
    var k: nat :| After(g, next, k).None?;
    assert After(g, id, k + 1).None?;
  }

  lemma AfterNone(g: Graph, id: string)
    requires NextInChain(g, id).None?
    ensures ChainEnds(g, id)
  {
    assert After(g, id, 1).None?;
  }

  /** A chain that leads to an agent ends there. */
  lemma {:induction false} ChainToEnds(g: Graph, path: seq<string>, agentNode: string)
    requires ChainTo(g, path, agentNode)
    ensures ChainEnds(g, path[0])
    ensures ChainFrom(g, path[0]) == path && AgentAtEnd(g, path[0]) == NodeById(g.nodes, agentNode).value.data.agentId
    decreases |path|
  {
    FirstTargetExact(g, path[0], 0);
    hide LeadsTo, FirstTargetFrom, NodeById, After, ChainEnds;
    if |path| == 1 {
      AfterNone(g, path[0]);
    } else {
      var rest := path[1..];
      assert Links(g, path, 1);
      forall i | 0 < i < |rest|
        ensures Links(g, rest, i)
      {
        assert Links(g, path, i + 1);
      }
      assert rest[|rest| - 1] == path[|path| - 1];
      ChainToEnds(g, rest, agentNode);
      AfterOneMore(g, path[0], rest[0]);
      StepsDecrease(g, path[0]);
      assert [path[0]] + rest == path;
    }
  }

  /** If a walk ends at an agent, it is along such a chain. */
  lemma {:induction false} EndedChain(g: Graph, id: string)
    requires ChainEnds(g, id) && AgentAtEnd(g, id) != ""
    ensures exists agentNode :: ChainTo(g, ChainFrom(g, id), agentNode)
    decreases Steps(g, id)
  {
    FirstTargetExact(g, id, 0);
    hide LeadsTo, FirstTargetFrom, NodeById, After, ChainEnds;
    var n := FirstTarget(g, id);
    if n.value.kind.Agent? {
      assert ChainTo(g, [id], n.value.id);
      assert NextInChain(g, id).None? && ChainFrom(g, id) == [id];
    } else {
      StepsDecrease(g, id);
      EndedChain(g, n.value.id);
      var rest := ChainFrom(g, n.value.id);
      var agentNode :| ChainTo(g, rest, agentNode);
      StartsChain(g, n.value.id);
      var path := [id] + rest;
      forall i | 0 < i < |path|
        ensures Links(g, path, i)
      {
        if i > 1 { assert Links(g, rest, i - 1); }
      }
      assert path[|path| - 1] == rest[|rest| - 1];
      assert ChainTo(g, path, agentNode);
      assert ChainFrom(g, id) == path;
    }
  }

  lemma StartsChain(g: Graph, id: string)
    requires ChainEnds(g, id)
    ensures ChainFrom(g, id) != [] && ChainFrom(g, id)[0] == id
  {
  }

  /** What is reported for the chain `path` that leads to this agent node: one wiring per middleware node, in order. */
  ghost predicate WiresPath(g: Graph, path: seq<string>, agentNode: string, ws: seq<Wiring>)
    requires NodeById(g.nodes, agentNode).Some? && forall i :: 0 <= i < |path| ==> NodeById(g.nodes, path[i]).Some?
  {
    && |ws| == |path|
    && forall i :: 0 <= i < |ws| ==>
         ws[i] == Wiring(NodeById(g.nodes, path[i]).value.data.defId, NodeById(g.nodes, agentNode).value.data.agentId, i, path[i])
  }

  /** Main result: for an edge into middleware exactly the chain that first edges lead along to an agent with an
      id is reported, and without such a chain nothing. */
  lemma ReportedIff(g: Graph, id: string)
    requires ChainEnds(g, id) && IsKind(g, id, Middleware)
    ensures forall path, agentNode :: ChainTo(g, path, agentNode) && path[0] == id && NodeById(g.nodes, agentNode).value.data.agentId != "" ==>
      (forall i :: 0 <= i < |path| ==> NodeById(g.nodes, path[i]).Some?) && WiresPath(g, path, agentNode, WiringsOfChain(g, id))
    ensures WiringsOfChain(g, id) != [] <==>
      exists path, agentNode :: ChainTo(g, path, agentNode) && path[0] == id && NodeById(g.nodes, agentNode).value.data.agentId != ""
  {
    hide LeadsTo, FirstTargetFrom, NodeById, After, ChainEnds, ChainFrom, AgentAtEnd;
    forall path, agentNode | ChainTo(g, path, agentNode) && path[0] == id && NodeById(g.nodes, agentNode).value.data.agentId != ""
      ensures (forall i :: 0 <= i < |path| ==> NodeById(g.nodes, path[i]).Some?) && WiresPath(g, path, agentNode, WiringsOfChain(g, id))
      ensures WiringsOfChain(g, id) != []
    {
      ChainToEnds(g, path, agentNode);
      forall i | 0 <= i < |path|
        ensures NodeById(g.nodes, path[i]).Some?
      {
        if i > 0 { assert Links(g, path, i); }
      }
    }
    if WiringsOfChain(g, id) != [] {
      EndedChain(g, id);
      StartsChain(g, id);
      var agentNode :| ChainTo(g, ChainFrom(g, id), agentNode);
      ChainToEnds(g, ChainFrom(g, id), agentNode);
    }
  }

  // ── When the walk ends ────────────────────────────────────────────────────

  /** A walk that comes back to where it started never ends. */
  lemma {:induction false} ReturningChainNeverEnds(g: Graph, id: string, period: nat, k: nat)
    requires period > 0 && After(g, id, period) == Some(id)
    ensures After(g, id, k).Some?
    decreases k
  {
    if k <= period {
      AfterPrefix(g, id, k, period);
    } else {
      AfterSplit(g, id, period, k - period);
      ReturningChainNeverEnds(g, id, period, k - period);
    }
  }

  lemma {:induction false} AfterSplit(g: Graph, id: string, i: nat, j: nat)
    requires After(g, id, i).Some?
    ensures After(g, id, i + j) == After(g, After(g, id, i).value, j)
    decreases i
  {
    if i == 0 {
    } else {
      AfterSplit(g, NextInChain(g, id).value, i - 1, j);
    }
  }

  lemma {:induction false} AfterPrefix(g: Graph, id: string, k: nat, n: nat)
    requires k <= n && After(g, id, n).Some?
    ensures After(g, id, k).Some?
    decreases k
  {
    if k == 0 {
    } else {
      AfterPrefix(g, NextInChain(g, id).value, k - 1, n - 1);
    }
  }

  lemma {:induction false} DistinctSize(s: seq<string>)
    requires Distinct(s)
    ensures |Elements(s, |s|)| == |s|
  {
    if s == [] {
    } else {
      var n := |s| - 1;
      DistinctSize(s[..n]);
      ElementsPrefix(s, s[..n], n);
      ElementsMember(s, n, s[n]);
    }
  }

  /** The values at the first `n` positions. */
  function Elements(s: seq<string>, n: nat): set<string>
    requires n <= |s|
  {
    if n == 0 then {} else Elements(s, n - 1) + {s[n - 1]}
  }

  lemma {:induction false} ElementsMember(s: seq<string>, n: nat, x: string)
    requires n <= |s|
    ensures x in Elements(s, n) <==> exists k :: 0 <= k < n && s[k] == x
  {
    if n == 0 {
    } else {
      ElementsMember(s, n - 1, x);
    }
  }

  /** Only the first `n` positions matter. */
  lemma {:induction false} ElementsPrefix(s: seq<string>, r: seq<string>, n: nat)
    requires n <= |s| && n <= |r| && s[..n] == r[..n]
    ensures Elements(s, n) == Elements(r, n)
  {
    if n == 0 {
    } else {
      assert s[..n - 1] == s[..n][..n - 1] && r[..n - 1] == r[..n][..n - 1];
      assert s[n - 1] == s[..n][n - 1] == r[n - 1];
      ElementsPrefix(s, r, n - 1);
    }
  }

  /** More places than values: some value comes twice. */
  lemma Pigeonhole(s: seq<string>, values: set<string>)
    requires (forall k :: 0 <= k < |s| ==> s[k] in values) && |s| > |values|
    ensures exists i, j :: 0 <= i < j < |s| && s[i] == s[j]
  {
    if Distinct(s) {
      DistinctSize(s);
      forall x | x in Elements(s, |s|)
        ensures x in values
      {
        ElementsMember(s, |s|, x);
      }
      SubsetSize(Elements(s, |s|), values);
    }
  }

  lemma {:induction false} IdsSize(nodes: seq<Node>)
    ensures |Ids(nodes)| <= |nodes|
  {
    if nodes == [] {
      assert Ids(nodes) == {};
    } else {
      var n := |nodes| - 1;
      IdsSize(nodes[..n]);
      assert Ids(nodes) == Ids(nodes[..n]) + {nodes[n].id};
    }
  }

  /** Every step of the walk leads to a node of the graph. */
  lemma {:induction false} AfterIsNode(g: Graph, id: string, k: nat)
    requires k > 0 && After(g, id, k).Some?
    ensures After(g, id, k).value in Ids(g.nodes)
    decreases k
  {
    var next := NextInChain(g, id).value;
    assert FirstTarget(g, id).value in g.nodes;
    if k == 1 {
      assert After(g, next, 0) == Some(next);
    } else {
      AfterIsNode(g, next, k - 1);
    }
  }

  /** A walk that outlasts the nodes has come back to one of them. */
  lemma LongWalkReturns(g: Graph, id: string)
    requires After(g, id, |g.nodes| + 1).Some?
    ensures exists i: nat, period: nat :: ReturnsAt(g, id, i, period)
  {
    var n := |g.nodes| + 1;
    forall k | 1 <= k <= n
      ensures After(g, id, k).Some? && After(g, id, k).value in Ids(g.nodes)
    {
      AfterPrefix(g, id, k, n);
      AfterIsNode(g, id, k);
    }
    hide After;
    var trail := seq(n, k requires 0 <= k < n => After(g, id, k + 1).value);
    IdsSize(g.nodes);
    Pigeonhole(trail, Ids(g.nodes));
    var i, j :| 0 <= i < j < |trail| && trail[i] == trail[j];
    AfterSplit(g, id, i + 1, j - i);
    assert ReturnsAt(g, id, i + 1, j - i);
  }

  ghost predicate ReturnsAt(g: Graph, id: string, i: nat, period: nat) {
    period > 0 && After(g, id, i).Some? && After(g, After(g, id, i).value, period) == After(g, id, i)
  }

  /** The walk from a node ends exactly if it ends within as many steps as there are nodes, and one. */
  lemma ChainEndsIff(g: Graph, id: string)
    ensures ChainEnds(g, id) <==> After(g, id, |g.nodes| + 1).None?
  {
    if After(g, id, |g.nodes| + 1).Some? {
      LongWalkReturns(g, id);
      var i: nat, period: nat :| ReturnsAt(g, id, i, period);
      forall k: nat
        ensures After(g, id, k).Some?
      {
        ReturningChainNeverEnds(g, After(g, id, i).value, period, k);
        AfterSplit(g, id, i, k);
        AfterPrefix(g, id, k, i + k);
      }
    }
  }

  /** The resolver ends for an orchestrator exactly if each chain its edges enter ends within that many steps. */
  lemma ResolverEndsIff(g: Graph, orchId: string)
    ensures ChainsEndFrom(g, orchId) <==>
            forall e :: e in g.edges && EntersChain(g, orchId, e) ==> After(g, e.target, |g.nodes| + 1).None?
  {
    forall e | e in g.edges
      ensures ChainEnds(g, e.target) <==> After(g, e.target, |g.nodes| + 1).None?
    {
      ChainEndsIff(g, e.target);
    }
  }

  /** A rank that falls along every middleware-to-middleware edge. */
  ghost predicate Ranked(g: Graph, rank: string -> nat) {
    forall a, b :: Edge(a, b) in g.edges && IsKind(g, a, Middleware) && IsKind(g, b, Middleware) ==> rank(b) < rank(a)
  }

  lemma {:induction false} RankedChainEnds(g: Graph, rank: string -> nat, id: string)
    requires Ranked(g, rank) && IsKind(g, id, Middleware)
    ensures ChainEnds(g, id)
    decreases rank(id)
  {
    var next := NextInChain(g, id);
    if next.None? {
      assert After(g, id, 1).None?;
    } else {
      assert Edge(id, next.value) in g.edges && IsKind(g, next.value, Middleware);
      RankedChainEnds(g, rank, next.value);
      var k: nat :| After(g, next.value, k).None?;
      assert After(g, id, k + 1).None?;
    }
  }

  /** Acyclic middleware is enough: the resolver ends for every orchestrator. */
  lemma RankedChainsEnd(g: Graph, rank: string -> nat, orchId: string)
    requires Ranked(g, rank)
    ensures ChainsEndFrom(g, orchId)
  {
    forall e | e in g.edges && EntersChain(g, orchId, e)
      ensures ChainEnds(g, e.target)
    {
      RankedChainEnds(g, rank, e.target);
    }
  }

  // ── Two concrete graphs ───────────────────────────────────────────────────

  const MW := Node("m", Middleware, NoData())

  /** An entry point, an orchestrator and a middleware node wired to itself; `entered`: the orchestrator leads to it. */
  function LoopGraph(entered: bool): Graph {
    Graph([EP, ORCH, MW], [Edge("ep", "o"), Edge("m", "m")] + if entered then [Edge("o", "m")] else [])
  }

  lemma LoopNodes(entered: bool)
    ensures var g := LoopGraph(entered);
            NodeById(g.nodes, "ep") == Some(EP) && NodeById(g.nodes, "o") == Some(ORCH) && NodeById(g.nodes, "m") == Some(MW)
  {
    var g := LoopGraph(entered);
    assert g.nodes[..2] == [EP, ORCH] && g.nodes[..2][..1] == [EP] && [EP, ORCH][..1] == [EP];
  }

  lemma LoopGraphValid(entered: bool)
    ensures Valid(LoopGraph(entered))
  {
    var g := LoopGraph(entered);
    LoopNodes(entered);
    assert Bound(g, "ep") by { assert g.edges[0] == Edge("ep", "o"); }
    assert PointedAt(g, "o") by { assert g.edges[0] == Edge("ep", "o"); }
    LetterIsSlug();
    hide NodeById, SlugText;
    assert EP in g.nodes;
  }

  lemma LoopNeverEnds(entered: bool)
    ensures !ChainEnds(LoopGraph(entered), "m")
  {
    var g := LoopGraph(entered);
    LoopNodes(entered);
    assert g.edges[1] == Edge("m", "m") && g.edges[0] == Edge("ep", "o");
    assert FirstTargetFrom(g, "m", 1) == Some(MW);
    assert FirstTarget(g, "m") == Some(MW);
    assert After(g, "m", 0) == Some("m");
    assert After(g, "m", 1) == Some("m");
    forall k: nat
      ensures After(g, "m", k).Some?
    {
      ReturningChainNeverEnds(g, "m", 1, k);
    }
  }

  /** Validation does not rule out a graph on which the resolver never returns. */
  lemma ValidGraphMayLoop()
    ensures Valid(LoopGraph(true)) && !ChainsEndFrom(LoopGraph(true), "o")
  {
    var g := LoopGraph(true);
    LoopGraphValid(true);
    LoopNodes(true);
    LoopNeverEnds(true);
    assert g.edges[2] == Edge("o", "m");
    assert Edge("o", "m") in g.edges && EntersChain(g, "o", Edge("o", "m"));
  }

  /** A middleware cycle that no orchestrator enters does no harm. */
  lemma UnenteredLoopIsHarmless()
    ensures Valid(LoopGraph(false)) && !ChainEnds(LoopGraph(false), "m") && ChainsEndFrom(LoopGraph(false), "o")
  {
    LoopGraphValid(false);
    LoopNodes(false);
    LoopNeverEnds(false);
  }
}
