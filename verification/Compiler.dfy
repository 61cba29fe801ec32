/** Compiling a canvas graph into the application's orchestrator and entry-point rows. */
module Compiler {
  import opened Common
  import opened AppGraph
  import opened OrchNames
  import opened MiddlewareChains

  type RowId = string

  datatype OrchRow = OrchRow(nodeId: string, name: string, agents: seq<string>, delegatable: bool)

  datatype EpRow = EpRow(epType: string, orchId: RowId)

  /** The application's rows: orchestrators by id, with the order they were loaded in, entry points by slug. */
  datatype Tables = Tables(order: seq<RowId>, orchs: map<RowId, OrchRow>, eps: map<string, EpRow>)

  /** What compilation reads besides the graph, and where new ids and random tokens come from. */
  datatype Surroundings = Surroundings(
    otherSlugs: set<string>, enabledAgents: set<string>, names: set<string>,
    newId: nat -> RowId, token: nat -> nat -> string)

  datatype CompileError =
    | SlugTaken | AgentUnavailable | NameRejected(reason: NameError)
    | NoOrchestratorEdge | UnknownOrchestrator

  function OfKind(nodes: seq<Node>, kind: Kind): (some: seq<Node>)
    ensures forall n :: n in some <==> n in nodes && n.kind == kind
  {
    if nodes == [] then []
    else if nodes[0].kind == kind then [nodes[0]] + OfKind(nodes[1..], kind)
    else OfKind(nodes[1..], kind)
  }

  function OrchNodes(g: Graph): seq<Node> {
    OfKind(g.nodes, Orchestrator)
  }

  function EpNodes(g: Graph): seq<Node> {
    OfKind(g.nodes, EntryPoint)
  }

  /** Another orchestrator of the graph has an edge to this one. */
  predicate Delegatable(g: Graph, nodeId: string) {
    exists e :: e in g.edges && e.target == nodeId &&
      (exists a :: a in OrchNodes(g) && a.id == e.source) && exists b :: b in OrchNodes(g) && b.id == nodeId
  }

  // ── Orchestrator rows ─────────────────────────────────────────────────────

  /** Lookup table by node id: later rows overwrite earlier ones. */
  function RowByNodeId(t: Tables, nodeId: string, n: nat): (r: Option<RowId>)
    requires n <= |t.order| && forall id :: id in t.order ==> id in t.orchs
    ensures r.Some? ==> r.value in t.order && t.orchs[r.value].nodeId == nodeId
    ensures r.None? ==> forall k :: 0 <= k < n ==> t.orchs[t.order[k]].nodeId != nodeId
  {
    if n == 0 then None
    else if t.orchs[t.order[n - 1]].nodeId == nodeId then Some(t.order[n - 1])
    else RowByNodeId(t, nodeId, n - 1)
  }

  ghost predicate Loaded(t: Tables) {
    forall id :: id in t.order <==> id in t.orchs
  }

  /** The existing row an orchestrator node updates: by node id, else by the row id the canvas sent along. */
  function Match(t: Tables, n: Node): (r: Option<RowId>)
    requires Loaded(t)
    ensures r.Some? ==> r.value in t.orchs
  {
    var byNode := RowByNodeId(t, n.id, |t.order|);
    if byNode.Some? then byNode
    else if n.data.appOrchestratorId != "" && n.data.appOrchestratorId in t.orchs then Some(n.data.appOrchestratorId)
    else None
  }

  /** The row's place in load order is the last one carrying this node id. */
  predicate LastWithNodeId(t: Tables, nodeId: string, k: nat)
    requires k < |t.order| && forall id :: id in t.order ==> id in t.orchs
  {
    t.orchs[t.order[k]].nodeId == nodeId && forall j :: k < j < |t.order| ==> t.orchs[t.order[j]].nodeId != nodeId
  }

  lemma {:induction false} RowByNodeIdIsLast(t: Tables, nodeId: string, n: nat)
    requires n <= |t.order| && forall id :: id in t.order ==> id in t.orchs
    requires forall j :: n <= j < |t.order| ==> t.orchs[t.order[j]].nodeId != nodeId
    ensures var r := RowByNodeId(t, nodeId, n);
            r.Some? ==> exists k :: 0 <= k < |t.order| && t.order[k] == r.value && LastWithNodeId(t, nodeId, k)
    decreases n
  {
    if n == 0 {
    } else if t.orchs[t.order[n - 1]].nodeId == nodeId {
      assert LastWithNodeId(t, nodeId, n - 1);
    } else {
      RowByNodeIdIsLast(t, nodeId, n - 1);
    }
  }

  /** The node id takes precedence, and of several rows with it the last loaded; the row id sent along counts only
      when no row has the node id; otherwise nothing matches. */
  lemma MatchExact(t: Tables, n: Node)
    requires Loaded(t)
    ensures var r := Match(t, n);
            if exists id :: id in t.orchs && t.orchs[id].nodeId == n.id then
              r.Some? && exists k :: 0 <= k < |t.order| && t.order[k] == r.value && LastWithNodeId(t, n.id, k)
            else
              r == if n.data.appOrchestratorId != "" && n.data.appOrchestratorId in t.orchs then Some(n.data.appOrchestratorId) else None
  {
    RowByNodeIdIsLast(t, n.id, |t.order|);
    if RowByNodeId(t, n.id, |t.order|).None? {
      forall id | id in t.orchs
        ensures t.orchs[id].nodeId != n.id
      {
        assert id in t.order;
      }
    }
  }

  datatype Upserted = Upserted(rows: map<RowId, OrchRow>, byNode: map<string, RowId>, names: set<string>, touched: seq<string>)

  function Hint(n: Node): string {
    if n.data.displayName != "" then n.data.displayName else n.id
  }

  function NewName(n: Node, names: set<string>, s: Surroundings, i: nat): Result<string, NameError> {
    OrchName(n.data.name, Hint(n), names, s.token(i))
  }

  /** Upserts the i-th orchestrator node. */
  function UpsertNode(g: Graph, t: Tables, s: Surroundings, i: nat, u: Upserted): Result<Upserted, CompileError>
    requires Loaded(t) && i < |OrchNodes(g)| && t.orchs.Keys <= u.rows.Keys
  {
    var n := OrchNodes(g)[i];
    var agents, delegatable := ResolveAgents(g, n.id), Delegatable(g, n.id);
    var found := Match(t, n);
    if found.Some? then
      var row := u.rows[found.value].(nodeId := n.id, agents := agents, delegatable := delegatable);
      Ok(Upserted(u.rows[found.value := row], u.byNode[n.id := found.value], u.names, u.touched + [row.name]))
    else
      var name := NewName(n, u.names, s, i);
      if name.Err? then Err(NameRejected(name.error))
      else
        var row := OrchRow(n.id, name.value, agents, delegatable);
        Ok(Upserted(u.rows[s.newId(i) := row], u.byNode[n.id := s.newId(i)], u.names + {name.value}, u.touched + [name.value]))
  }

  function UpsertFrom(g: Graph, t: Tables, s: Surroundings, i: nat, u: Upserted): (r: Result<Upserted, CompileError>)
    requires Loaded(t) && i <= |OrchNodes(g)| && t.orchs.Keys <= u.rows.Keys
    ensures r.Ok? ==> u.rows.Keys <= r.value.rows.Keys
    decreases |OrchNodes(g)| - i
  {
    if i == |OrchNodes(g)| then Ok(u)
    else
      var next := UpsertNode(g, t, s, i, u);
      if next.Err? then next else UpsertFrom(g, t, s, i + 1, next.value)
  }

  function Start(t: Tables, s: Surroundings): Upserted {
    Upserted(t.orchs, map[], s.names, [])
  }

  predicate Desired(g: Graph, nodeId: string) {
    exists n :: n in OrchNodes(g) && n.id == nodeId
  }

  /** Existing rows whose node is gone are deleted. */
  function Surviving(g: Graph, t: Tables, rows: map<RowId, OrchRow>): map<RowId, OrchRow> {
    map id | id in rows && (id !in t.orchs || Desired(g, rows[id].nodeId)) :: rows[id]
  }

  /** Names of the deleted rows among the first `n`. */
  function DeletedNames(g: Graph, order: seq<RowId>, n: nat, rows: map<RowId, OrchRow>): seq<string>
    requires n <= |order| && forall id :: id in order ==> id in rows
  {
    if n == 0 then []
    else
      var row := rows[order[n - 1]];
      DeletedNames(g, order, n - 1, rows) + if Desired(g, row.nodeId) then [] else [row.name]
  }

  // ── Entry points ──────────────────────────────────────────────────────────

  /** The first edge from an entry point to an orchestrator, from edge `i` on. */
  function OrchTargetFrom(g: Graph, epId: string, i: nat): (target: Option<string>)
    requires i <= |g.edges|
    ensures target.Some? ==> IsKind(g, target.value, Orchestrator) && Edge(epId, target.value) in g.edges
    ensures target.None? ==> forall k :: i <= k < |g.edges| ==> !(g.edges[k].source == epId && IsKind(g, g.edges[k].target, Orchestrator))
    decreases |g.edges| - i
  {
    if i == |g.edges| then None
    else if g.edges[i].source == epId && IsKind(g, g.edges[i].target, Orchestrator) then
      assert g.edges[i] == Edge(epId, g.edges[i].target);
      Some(g.edges[i].target)
    else OrchTargetFrom(g, epId, i + 1)
  }

  function OrchTarget(g: Graph, epId: string): Option<string> {
    OrchTargetFrom(g, epId, 0)
  }

  /** Edge `k` binds the entry point to this orchestrator. */
  predicate BindsAt(g: Graph, epId: string, k: nat, target: string)
    requires k < |g.edges|
  {
    g.edges[k] == Edge(epId, target) && IsKind(g, target, Orchestrator)
  }

  lemma {:induction false} FirstFrom(g: Graph, epId: string, i: nat, target: string)
    requires i <= |g.edges|
    ensures OrchTargetFrom(g, epId, i) == Some(target) <==>
            exists k :: i <= k < |g.edges| && BindsAt(g, epId, k, target) && forall j, other :: i <= j < k ==> !BindsAt(g, epId, j, other)
    decreases |g.edges| - i
  {
    if i == |g.edges| {
    } else if g.edges[i].source == epId && IsKind(g, g.edges[i].target, Orchestrator) {
      assert BindsAt(g, epId, i, g.edges[i].target);
    } else {
      FirstFrom(g, epId, i + 1, target);
    }
  }

  /** Of an entry point's edges to orchestrators the first counts. */
  lemma OrchTargetIsFirst(g: Graph, epId: string, target: string)
    ensures OrchTarget(g, epId) == Some(target) <==>
            exists k :: 0 <= k < |g.edges| && BindsAt(g, epId, k, target) && forall j, other :: 0 <= j < k ==> !BindsAt(g, epId, j, other)
  {
    FirstFrom(g, epId, 0, target);
  }

  function EpType(n: Node): string {
    if n.data.epType == "" then "websocket" else n.data.epType
  }

  function BindFrom(g: Graph, byNode: map<string, RowId>, i: nat, eps: map<string, EpRow>): Result<map<string, EpRow>, CompileError>
    requires i <= |EpNodes(g)|
    decreases |EpNodes(g)| - i
  {
    if i == |EpNodes(g)| then Ok(eps)
    else
      var n := EpNodes(g)[i];
      var target := OrchTarget(g, n.id);
      if target.None? then Err(NoOrchestratorEdge)
      else if target.value !in byNode then Err(UnknownOrchestrator)
      else BindFrom(g, byNode, i + 1, eps[n.data.slug := EpRow(EpType(n), byNode[target.value])])
  }

  function Slugs(g: Graph): set<string> {
    set n | n in EpNodes(g) :: n.data.slug
  }

  // ── The whole compilation ─────────────────────────────────────────────────

  predicate SlugConflict(g: Graph, s: Surroundings) {
    exists n :: n in EpNodes(g) && n.data.slug in s.otherSlugs
  }

  predicate AgentMissing(g: Graph, s: Surroundings) {
    exists n :: n in g.nodes && n.kind.Agent? && n.data.agentId != "" && n.data.agentId !in s.enabledAgents
  }

  datatype Compiled = Compiled(orchs: map<RowId, OrchRow>, eps: map<string, EpRow>, touched: seq<string>)

  function Compile(g: Graph, t: Tables, s: Surroundings): Result<Compiled, CompileError>
    requires Loaded(t)
  {
    if SlugConflict(g, s) then Err(SlugTaken)
    else if AgentMissing(g, s) then Err(AgentUnavailable)
    else
      var upserted := UpsertFrom(g, t, s, 0, Start(t, s));
      if upserted.Err? then Err(upserted.error)
      else
        var u := upserted.value;
        var bound := BindFrom(g, u.byNode, 0, t.eps);
        if bound.Err? then Err(bound.error)
        else Ok(Compiled(
          Surviving(g, t, u.rows),
          map slug | slug in bound.value && slug in Slugs(g) :: bound.value[slug],
          u.touched + DeletedNames(g, t.order, |t.order|, u.rows)))
  }

  /** The walks that rewiring makes all end: otherwise the source does not return. */
  ghost predicate WiringEnds(g: Graph) {
    forall n :: n in OrchNodes(g) ==> ChainsEndFrom(g, n.id)
  }

  /** Rewiring ends exactly if each chain an orchestrator node enters ends within as many steps as there are nodes, and one. */
  lemma WiringEndsIff(g: Graph)
    ensures WiringEnds(g) <==>
            forall n, e :: n in OrchNodes(g) && e in g.edges && EntersChain(g, n.id, e) ==> After(g, e.target, |g.nodes| + 1).None?
  {
    hide After, EntersChain, ChainEnds;
    forall n | n in OrchNodes(g)
      ensures ChainsEndFrom(g, n.id) <==>
              forall e :: e in g.edges && EntersChain(g, n.id, e) ==> After(g, e.target, |g.nodes| + 1).None?
    {
      ResolverEndsIff(g, n.id);
    }
  }

  /** The application as the caller's transaction sees it. */
  class Application {
    var orchs: map<RowId, OrchRow>
    var eps: map<string, EpRow>
    var wirings: seq<Wiring>

    constructor (orchs: map<RowId, OrchRow>, eps: map<string, EpRow>)
      ensures this.orchs == orchs && this.eps == eps && wirings == []
    {
      this.orchs, this.eps, wirings := orchs, eps, [];
    }

    method UpsertOrchestrators(g: Graph, order: seq<RowId>, s: Surroundings)
      returns (r: Result<(map<string, RowId>, seq<string>), CompileError>)
      requires Loaded(Tables(order, orchs, eps))
      modifies this`orchs
      ensures var t := Tables(order, old(orchs), eps);
              var spec := UpsertFrom(g, t, s, 0, Start(t, s));
              if spec.Err? then r == Err(spec.error)
              else r == Ok((spec.value.byNode, spec.value.touched)) && orchs == spec.value.rows
    {
      ghost var t := Tables(order, orchs, eps);
      var existing := Tables(order, orchs, eps);
      var nodes := OrchNodes(g);
      var byNode: map<string, RowId>, names, touched: seq<string> := map[], s.names, [];
      for i := 0 to |nodes|
        invariant t.orchs.Keys <= orchs.Keys
        invariant UpsertFrom(g, t, s, i, Upserted(orchs, byNode, names, touched)) == UpsertFrom(g, t, s, 0, Start(t, s))
      {
        ghost var before := Upserted(orchs, byNode, names, touched);
        var n := nodes[i];
        var agents := ResolveAgentsForOrch(n.id, g);
        var found := Match(existing, n);
        if found.Some? {
          var row := orchs[found.value].(nodeId := n.id, agents := agents, delegatable := Delegatable(g, n.id));
          orchs := orchs[found.value := row];
          byNode := byNode[n.id := found.value];
          touched := touched + [row.name];
          assert UpsertNode(g, t, s, i, before) == Ok(Upserted(orchs, byNode, names, touched));
        } else {
          var name := GenerateOrchName(n.data.name, Hint(n), names, s.token(i));
          if name.Err? {
            assert UpsertNode(g, t, s, i, before) == Err(NameRejected(name.error));
            return Err(NameRejected(name.error));
          }
          orchs := orchs[s.newId(i) := OrchRow(n.id, name.value, agents, Delegatable(g, n.id))];
          names := names + {name.value};
          byNode := byNode[n.id := s.newId(i)];
          touched := touched + [name.value];
          assert UpsertNode(g, t, s, i, before) == Ok(Upserted(orchs, byNode, names, touched));
        }
      }
      r := Ok((byNode, touched));
    }

    method DeleteOrchestrators(g: Graph, order: seq<RowId>, ghost t: Tables) returns (deleted: seq<string>)
      requires Loaded(t) && order == t.order && t.orchs.Keys <= orchs.Keys
      modifies this`orchs
      ensures orchs == Surviving(g, t, old(orchs))
      ensures deleted == DeletedNames(g, order, |order|, old(orchs))
    {
      hide Desired;
      deleted := [];
      var rows := orchs;
      for i := 0 to |order|
        invariant deleted == DeletedNames(g, order, i, rows)
        invariant forall k :: 0 <= k < i && order[k] in orchs ==> Desired(g, rows[order[k]].nodeId)
        invariant forall id :: id in rows && id !in orchs ==> id in t.orchs && !Desired(g, rows[id].nodeId)
        invariant forall id :: id in orchs ==> id in rows && orchs[id] == rows[id]
      {
        if !Desired(g, rows[order[i]].nodeId) {
          deleted := deleted + [rows[order[i]].name];
          orchs := orchs - {order[i]};
        }
      }
    }

    method UpsertEntryPoints(g: Graph, byNode: map<string, RowId>) returns (error: Option<CompileError>)
      modifies this`eps
      ensures var spec := BindFrom(g, byNode, 0, old(eps));
              if spec.Err? then error == Some(spec.error)
              else error == None && eps == map slug | slug in spec.value && slug in Slugs(g) :: spec.value[slug]
    {
      var nodes := EpNodes(g);
      for i := 0 to |nodes|
        invariant BindFrom(g, byNode, i, eps) == BindFrom(g, byNode, 0, old(eps))
      {
        var target := OrchTarget(g, nodes[i].id);
        if target.None? { return Some(NoOrchestratorEdge); }
        if target.value !in byNode { return Some(UnknownOrchestrator); }
        eps := eps[nodes[i].data.slug := EpRow(EpType(nodes[i]), byNode[target.value])];
      }
      eps := map slug | slug in eps && slug in Slugs(g) :: eps[slug];
      error := None;
    }

    method ReplaceWirings(g: Graph)
      requires WiringEnds(g)
      modifies this`wirings
      ensures wirings == AllWirings(g, |OrchNodes(g)|)
    {
      hide ChainsEndFrom, WiringsUpTo, Usable, OrchNodes;
      var nodes := OrchNodes(g);
      wirings := [];
      for i := 0 to |nodes|
        invariant wirings == AllWirings(g, i)
      {
        assert nodes[i] in OrchNodes(g);
        var chains := ResolveMwChains(nodes[i].id, g);
        wirings := wirings + Usable(chains);
      }
    }

    /** Runs inside the caller's transaction: after an error the caller does not commit. */
    method CompileGraph(g: Graph, order: seq<RowId>, s: Surroundings) returns (r: Result<seq<string>, CompileError>)
      requires Loaded(Tables(order, orchs, eps))
      requires Compile(g, Tables(order, orchs, eps), s).Ok? ==> WiringEnds(g)
      modifies this
      ensures match Compile(g, Tables(order, old(orchs), old(eps)), s)
              case Err(e) => r == Err(e)
              case Ok(c) => r == Ok(c.touched) && orchs == c.orchs && eps == c.eps && wirings == AllWirings(g, |OrchNodes(g)|)
    {
      ghost var t := Tables(order, orchs, eps);
      if SlugConflict(g, s) { return Err(SlugTaken); }
      if AgentMissing(g, s) { return Err(AgentUnavailable); }
      var upserted := UpsertOrchestrators(g, order, s);
      if upserted.Err? { return Err(upserted.error); }
      var deleted := DeleteOrchestrators(g, order, t);
      var error := UpsertEntryPoints(g, upserted.value.0);
      if error.Some? { return Err(error.value); }
      ReplaceWirings(g);
      r := Ok(upserted.value.1 + deleted);
    }
  }

  function Usable(ws: seq<Wiring>): seq<Wiring> {
    if ws == [] then []
    else if ws[0].defId != "" && ws[0].agentId != "" then [ws[0]] + Usable(ws[1..])
    else Usable(ws[1..])
  }

  /** Wirings of the first `n` orchestrator nodes. */
  ghost function AllWirings(g: Graph, n: nat): seq<Wiring>
    requires WiringEnds(g) && n <= |OrchNodes(g)|
  {
    if n == 0 then [] else AllWirings(g, n - 1) + Usable(WiringsUpTo(g, OrchNodes(g)[n - 1].id, |g.edges|))
  }
}
