/** What compilation leaves behind, row by row, said of the graph alone. */
module RowLaws {
  import opened Common
  import opened AppGraph
  import opened OrchNames
  import opened MiddlewareChains
  import opened Compiler
  import opened CompilerLaws

  // ── Orchestrator rows ─────────────────────────────────────────────────────

  /** An edge leads here from an orchestrator node. */
  ghost predicate Delegated(g: Graph, nodeId: string) {
    exists m :: m in g.nodes && m.kind.Orchestrator? && Edge(m.id, nodeId) in g.edges
  }

  /** The row of this node: delegatable exactly if an orchestrator leads to it, its agents those reachable, each once. */
  ghost predicate RowSays(g: Graph, nodeId: string, row: OrchRow) {
    && row.nodeId == nodeId
    && (row.delegatable <==> Delegated(g, nodeId))
    && Distinct(row.agents) && forall a :: a in row.agents <==> AgentReachable(g, nodeId, a)
  }

  ghost predicate IsOrch(g: Graph, n: Node) {
    n in g.nodes && n.kind.Orchestrator?
  }

  lemma DelegatableIff(g: Graph, n: Node)
    requires IsOrch(g, n)
    ensures Delegatable(g, n.id) <==> Delegated(g, n.id)
  {
    if Delegatable(g, n.id) {
      var e, a :| e in g.edges && e.target == n.id && a in OrchNodes(g) && a.id == e.source;
      assert e == Edge(a.id, n.id);
    }
    if m :| m in g.nodes && m.kind.Orchestrator? && Edge(m.id, n.id) in g.edges {
      assert m in OrchNodes(g) && n in OrchNodes(g);
      assert Edge(m.id, n.id).target == n.id;
    }
  }

  lemma DescribedSays(g: Graph, n: Node, row: OrchRow)
    requires IsOrch(g, n) && Describes(g, n, row)
    ensures RowSays(g, n.id, row)
  {
    hide Delegatable, ResolveAgents, AgentReachable, Delegated;
    DelegatableIff(g, n);
    ResolveAgentsExact(g, n.id);
  }

  lemma {:induction false} OrchNodeAt(g: Graph, i: nat)
    requires i < |OrchNodes(g)|
    ensures IsOrch(g, OrchNodes(g)[i])
  {
    assert OrchNodes(g)[i] in OrchNodes(g);
  }

  /** Main result: from any rows there were before, each orchestrator node gets the row that the graph calls for, and
      there is no other row. */
  lemma CompiledRowsExact(g: Graph, t: Tables, s: Surroundings)
    requires Loaded(t) && FreshIds(t, s) && OneRowPerNode(t.orchs) && DistinctNodes(g) && MatchesDistinct(g, t)
    requires Compile(g, t, s).Ok?
    ensures var rows := Compile(g, t, s).value.orchs;
            && OneRowPerNode(rows)
            && (forall n :: IsOrch(g, n) ==> exists id :: id in rows && RowSays(g, n.id, rows[id]))
            && (forall id :: id in rows ==> exists n :: IsOrch(g, n) && RowSays(g, n.id, rows[id]))
  {
    hide OrchNodes, Match, Compile, Target, TargetOf, Describes, RowSays, IsOrch, NodeView, GraphView, OneRowPerNode, DistinctNodes;
    CompiledLayout(g, t, s);
    IncrementalIsFresh(g, t, s);
    var rows, f := Compile(g, t, s).value.orchs, TargetOf(g, t, s);
    forall i | 0 <= i < |OrchNodes(g)|
      ensures f(i) in rows && IsOrch(g, OrchNodes(g)[i]) && RowSays(g, OrchNodes(g)[i].id, rows[f(i)])
    {
      OrchNodeAt(g, i);
      DescribedSays(g, OrchNodes(g)[i], rows[f(i)]);
    }
    forall n | IsOrch(g, n)
      ensures exists id :: id in rows && RowSays(g, n.id, rows[id])
    {
      OrchNodeIndex(g, n);
    }
  }

  lemma OrchNodeIndex(g: Graph, n: Node)
    requires IsOrch(g, n)
    ensures exists i :: 0 <= i < |OrchNodes(g)| && OrchNodes(g)[i] == n
  {
    OrchNodeOf(g, n);
  }

  // ── One orchestrator delegating to another ────────────────────────────────

  const DELEGATING := Graph([EP, ORCH, OTHER], [Edge("ep", "o"), Edge("o", "p")])

  /** Two rows whose marks are the wrong way round, as after reversing the edge. */
  const REVERSED := Tables(["r", "q"],
                           map["r" := OrchRow("o", "parent", [], true), "q" := OrchRow("p", "child", [], false)], map[])

  lemma OfKindStep(n: Node, rest: seq<Node>, kind: Kind)
    ensures OfKind([], kind) == []
    ensures OfKind([n] + rest, kind) == if n.kind == kind then [n] + OfKind(rest, kind) else OfKind(rest, kind)
  {
    assert ([n] + rest)[1..] == rest;
  }

  lemma OrchsOfThree(a: Node, b: Node, c: Node)
    requires !a.kind.Orchestrator? && b.kind.Orchestrator? && c.kind.Orchestrator?
    ensures OfKind([a, b, c], Orchestrator) == [b, c]
  {
    OfKindStep(c, [], Orchestrator);
    OfKindStep(b, [c], Orchestrator);
    OfKindStep(a, [b, c], Orchestrator);
    hide OfKind;
    assert [c] + [] == [c] && [b] + [c] == [b, c] && [a] + [b, c] == [a, b, c];
  }

  lemma DelegatingLookup()
    ensures var nodes := DELEGATING.nodes;
            NodeById(nodes, "ep") == Some(EP) && NodeById(nodes, "o") == Some(ORCH) && NodeById(nodes, "p") == Some(OTHER)
  {
    var nodes := DELEGATING.nodes;
    assert nodes[..2] == [EP, ORCH] && nodes[..2][..1] == [EP];
  }

  lemma DelegatingNodes()
    ensures var g := DELEGATING;
            && NodeById(g.nodes, "ep") == Some(EP) && NodeById(g.nodes, "o") == Some(ORCH) && NodeById(g.nodes, "p") == Some(OTHER)
            && OrchNodes(g) == [ORCH, OTHER]
  {
    DelegatingLookup();
    OrchsOfThree(EP, ORCH, OTHER);
    hide OfKind, NodeById;
  }

  lemma DelegatingIsValid()
    ensures Valid(DELEGATING) && DistinctNodes(DELEGATING)
  {
    DelegatingNodes();
    hide OfKind, NodeById, SlugChar;
    assert DELEGATING.edges[0] == Edge("ep", "o") && DELEGATING.edges[1] == Edge("o", "p");
    assert Bound(DELEGATING, "ep") && PointedAt(DELEGATING, "o") && PointedAt(DELEGATING, "p");
    LetterIsSlug();
    assert EP in DELEGATING.nodes;
  }

  lemma LookupStep(t: Tables, nodeId: string, n: nat)
    requires Loaded(t) && 0 < n <= |t.order|
    ensures RowByNodeId(t, nodeId, 0) == None
    ensures RowByNodeId(t, nodeId, n) ==
      if t.orchs[t.order[n - 1]].nodeId == nodeId then Some(t.order[n - 1]) else RowByNodeId(t, nodeId, n - 1)
  {
  }

  lemma ReversedMatch()
    ensures Loaded(REVERSED) && OneRowPerNode(REVERSED.orchs)
    ensures Match(REVERSED, ORCH) == Some("r") && Match(REVERSED, OTHER) == Some("q")
  {
    assert REVERSED.order[0] == "r" && REVERSED.order[1] == "q";
    assert REVERSED.orchs["r"].nodeId == "o" && REVERSED.orchs["q"].nodeId == "p";
    assert "o"[0] != "p"[0];
    LookupStep(REVERSED, "o", 1);
    LookupStep(REVERSED, "o", 2);
    LookupStep(REVERSED, "p", 2);
    hide RowByNodeId;
  }

  lemma DelegatingCompiles(s: Surroundings)
    requires FreshIds(REVERSED, s) && "a" !in s.otherSlugs
    ensures Loaded(REVERSED) && Compile(DELEGATING, REVERSED, s).Ok?
  {
    DelegatingNodes();
    DelegatingIsValid();
    ReversedMatch();
    assert !SlugConflict(DELEGATING, s) && !AgentMissing(DELEGATING, s);
    hide Compile, Valid, Match, ResolveAgents, Delegatable, SlugConflict, AgentMissing;
    assert UpsertNode(DELEGATING, REVERSED, s, 0, Start(REVERSED, s)).Ok?;
    var u := UpsertNode(DELEGATING, REVERSED, s, 0, Start(REVERSED, s)).value;
    assert UpsertNode(DELEGATING, REVERSED, s, 1, u).Ok?;
    assert UpsertFrom(DELEGATING, REVERSED, s, 1, u).Ok?;
    ValidGraphsBind(DELEGATING, REVERSED, s);
  }

  lemma DelegatingMarks()
    ensures Delegated(DELEGATING, "p") && !Delegated(DELEGATING, "o")
  {
    assert DELEGATING.edges[1] == Edge("o", "p") && ORCH in DELEGATING.nodes;
  }

  /** A concrete compilation: the orchestrator that is delegated to is marked delegatable, the delegating one is not. */
  lemma ChildIsDelegatable(s: Surroundings)
    requires FreshIds(REVERSED, s) && "a" !in s.otherSlugs
    ensures Loaded(REVERSED) && Compile(DELEGATING, REVERSED, s).Ok?
    ensures var rows := Compile(DELEGATING, REVERSED, s).value.orchs;
            && rows.Keys == {"r", "q"}
            && rows["r"].nodeId == "o" && !rows["r"].delegatable
            && rows["q"].nodeId == "p" && rows["q"].delegatable
  {
    DelegatingNodes();
    DelegatingIsValid();
    ReversedMatch();
    DelegatingCompiles(s);
    DelegatingMarks();
    ReversedTargets(s);
    hide *;
    CompiledLayout(DELEGATING, REVERSED, s);
    LaidOutPair(s, Compile(DELEGATING, REVERSED, s).value.orchs);
  }

  lemma ReversedTargets(s: Surroundings)
    ensures Loaded(REVERSED) && MatchesDistinct(DELEGATING, REVERSED)
    ensures TargetOf(DELEGATING, REVERSED, s)(0) == "r" && TargetOf(DELEGATING, REVERSED, s)(1) == "q"
  {
    DelegatingNodes();
    ReversedMatch();
    hide Match, OrchNodes;
  }

  lemma LaidOutPair(s: Surroundings, rows: map<RowId, OrchRow>)
    requires Loaded(REVERSED) && LaidOut(DELEGATING, rows, TargetOf(DELEGATING, REVERSED, s))
    ensures rows.Keys == {"r", "q"}
    ensures rows["r"].nodeId == "o" && !rows["r"].delegatable && rows["q"].nodeId == "p" && rows["q"].delegatable
  {
    DelegatingNodes();
    DelegatingMarks();
    ReversedTargets(s);
    DelegatableIff(DELEGATING, ORCH);
    DelegatableIff(DELEGATING, OTHER);
    LaidOutTwo(DELEGATING, rows, TargetOf(DELEGATING, REVERSED, s));
    hide Match, ResolveAgents, Delegatable, Delegated, OrchNodes, TargetOf, LaidOut;
  }

  lemma LaidOutTwo(g: Graph, rows: map<RowId, OrchRow>, f: nat -> RowId)
    requires LaidOut(g, rows, f) && |OrchNodes(g)| == 2
    ensures rows.Keys == {f(0), f(1)}
    ensures Describes(g, OrchNodes(g)[0], rows[f(0)]) && Describes(g, OrchNodes(g)[1], rows[f(1)])
  {
    hide Describes, OrchNodes;
    forall id | id in rows
      ensures id in {f(0), f(1)}
    {
      var i :| 0 <= i < |OrchNodes(g)| && f(i) == id;
    }
  }

  // ── Nodes by kind, refusals, new names ────────────────────────────────────

  function OfThisKind(kind: Kind): Node -> bool {
    (n: Node) => n.kind == kind
  }

  /** The nodes of a kind, in the graph's order, each as often as it is there. */
  lemma {:induction false} OfKindExact(nodes: seq<Node>, kind: Kind)
    ensures Selects(OfKind(nodes, kind), nodes, OfThisKind(kind))
  {
    hide Selects;
    if nodes == [] {
      SelectsNothing(OfThisKind(kind));
    } else {
      OfKindExact(nodes[1..], kind);
      SelectsPrepend(nodes[0], OfKind(nodes[1..], kind), nodes[1..], OfThisKind(kind));
      assert nodes == [nodes[0]] + nodes[1..];
      assert OfKind(nodes, kind) == (if nodes[0].kind == kind then [nodes[0]] else []) + OfKind(nodes[1..], kind);
    }
  }

  lemma {:induction false} BindErrors(g: Graph, byNode: map<string, RowId>, i: nat, eps: map<string, EpRow>)
    requires i <= |EpNodes(g)|
    ensures var r := BindFrom(g, byNode, i, eps);
            r.Err? ==> r.error.NoOrchestratorEdge? || r.error.UnknownOrchestrator?
    decreases |EpNodes(g)| - i
  {
    hide EpNodes, OrchTarget, EpType;
    if i >= |EpNodes(g)| {
    } else {
      var n := EpNodes(g)[i];
      var target := OrchTarget(g, n.id);
      if target.Some? && target.value in byNode {
        BindErrors(g, byNode, i + 1, eps[n.data.slug := EpRow(EpType(n), byNode[target.value])]);
      }
    }
  }

  /** A slug of another application refuses the graph first, then an agent that is missing or disabled. */
  lemma RefusedIff(g: Graph, t: Tables, s: Surroundings)
    requires Loaded(t)
    ensures var r := Compile(g, t, s);
            var taken := exists n :: n in g.nodes && n.kind.EntryPoint? && n.data.slug in s.otherSlugs;
            var missing := exists n :: n in g.nodes && n.kind.Agent? && n.data.agentId != "" && n.data.agentId !in s.enabledAgents;
            && (r == Err(SlugTaken) <==> taken)
            && (r == Err(AgentUnavailable) <==> !taken && missing)
  {
    var upserted := UpsertFrom(g, t, s, 0, Start(t, s));
    UpsertErrors(g, t, s, 0, Start(t, s));
    if upserted.Ok? { BindErrors(g, upserted.value.byNode, 0, t.eps); }
    assert SlugConflict(g, s) <==> exists n :: n in g.nodes && n.kind.EntryPoint? && n.data.slug in s.otherSlugs;
    hide UpsertFrom, BindFrom, SlugConflict, Surviving, DeletedNames, Slugs;
  }

  /** A new row without a proposed name is named after its display name or, for want of one, its node. */
  lemma NewRowNamed(g: Graph, t: Tables, s: Surroundings, i: nat, u: Upserted)
    requires Loaded(t) && i < |OrchNodes(g)| && t.orchs.Keys <= u.rows.Keys
    ensures var n, next := OrchNodes(g)[i], UpsertNode(g, t, s, i, u);
            var base := BaseName(if n.data.displayName == "" then n.id else n.data.displayName);
            Match(t, n).None? && n.data.name == "" && base !in u.names ==>
              next.Ok? && s.newId(i) in next.value.rows && next.value.rows[s.newId(i)].name == base
  {
    hide Match, ResolveAgents, Delegatable, BaseName, FirstFree, OrchNodes;
  }

  // ── The flush list ────────────────────────────────────────────────────────

  /** The names noted for the first `n` nodes are those of the rows they ended up in, which stay. */
  ghost predicate TouchedSoFar(g: Graph, t: Tables, s: Surroundings, n: nat, u: Upserted)
    requires Loaded(t) && n <= |OrchNodes(g)|
  {
    |u.touched| == n && forall k :: 0 <= k < n ==> TouchedAt(g, u, TargetOf(g, t, s)(k), u.touched[k])
  }

  predicate TouchedAt(g: Graph, u: Upserted, id: RowId, name: string) {
    id in u.rows && u.rows[id].name == name && Desired(g, u.rows[id].nodeId)
  }

  lemma TouchedAdvance(g: Graph, t: Tables, s: Surroundings, i: nat, u: Upserted)
    requires Loaded(t) && i < |OrchNodes(g)| && t.orchs.Keys <= u.rows.Keys && FreshIds(t, s) && TouchedSoFar(g, t, s, i, u)
    requires UpsertNode(g, t, s, i, u).Ok?
    ensures TouchedSoFar(g, t, s, i + 1, UpsertNode(g, t, s, i, u).value)
  {
    UpsertNodeEffect(g, t, s, i, u);
    NodeIsDesired(g, i);
    var next, f := UpsertNode(g, t, s, i, u).value, TargetOf(g, t, s);
    hide UpsertNode, OrchNodes, Match, ResolveAgents, Delegatable, Desired, FreshIds, Target;
    forall k | 0 <= k < i
      ensures TouchedAt(g, next, f(k), next.touched[k])
    {
      assert TouchedAt(g, u, f(k), u.touched[k]);
      if f(k) == f(i) { SameTarget(g, t, s, k, i); }
    }
  }

  lemma NodeIsDesired(g: Graph, i: nat)
    requires i < |OrchNodes(g)|
    ensures Desired(g, OrchNodes(g)[i].id)
  {
    assert OrchNodes(g)[i] in OrchNodes(g);
  }

  lemma SameTarget(g: Graph, t: Tables, s: Surroundings, k: nat, i: nat)
    requires Loaded(t) && FreshIds(t, s) && k < i < |OrchNodes(g)| && Target(g, t, s, k) == Target(g, t, s, i)
    ensures Target(g, t, s, i) in t.orchs
  {
    hide Match, OrchNodes;
  }

  lemma {:induction false} UpsertFromTouched(g: Graph, t: Tables, s: Surroundings, i: nat, u: Upserted)
    requires Loaded(t) && i <= |OrchNodes(g)| && t.orchs.Keys <= u.rows.Keys && FreshIds(t, s) && TouchedSoFar(g, t, s, i, u)
    ensures var r := UpsertFrom(g, t, s, i, u);
            r.Ok? ==> TouchedSoFar(g, t, s, |OrchNodes(g)|, r.value)
    decreases |OrchNodes(g)| - i
  {
    if i >= |OrchNodes(g)| {
    } else {
      var next := UpsertNode(g, t, s, i, u);
      if next.Ok? {
        UpsertNodeEffect(g, t, s, i, u);
        TouchedAdvance(g, t, s, i, u);
        hide TouchedSoFar, UpsertNode, Target, OrchNodes, FreshIds, Describes;
        UpsertFromTouched(g, t, s, i + 1, next.value);
      }
    }
  }

  function GoneFrom(rows: map<RowId, OrchRow>): RowId -> bool {
    (id: RowId) => id !in rows
  }

  /** The deleted names, one for each loaded row that does not survive, in load order. */
  lemma {:induction false} DeletedNamesExact(g: Graph, t: Tables, rows: map<RowId, OrchRow>, n: nat)
    requires Loaded(t) && n <= |t.order| && t.orchs.Keys <= rows.Keys
    requires NamesKept(t, rows)
    ensures exists gone ::
      Selects(gone, t.order[..n], GoneFrom(Surviving(g, t, rows))) && NamesOf(t, gone, DeletedNames(g, t.order, n, rows))
  {
    var keep := GoneFrom(Surviving(g, t, rows));
    hide Selects;
    if n == 0 {
      SelectsNothing(keep);
      assert NamesOf(t, [], []);
    } else {
      DeletedNamesExact(g, t, rows, n - 1);
      var gone :| Selects(gone, t.order[..n - 1], keep) && NamesOf(t, gone, DeletedNames(g, t.order, n - 1, rows));
      var id := t.order[n - 1];
      assert id in t.orchs && (keep(id) <==> !Desired(g, rows[id].nodeId));
      hide Desired, Surviving;
      SelectsAppend(gone, t.order[..n - 1], id, keep);
      assert t.order[..n] == t.order[..n - 1] + [id];
      assert NamesOf(t, gone + (if keep(id) then [id] else []), DeletedNames(g, t.order, n, rows));
    }
  }

  ghost predicate NamesOf(t: Tables, ids: seq<RowId>, names: seq<string>) {
    |names| == |ids| && forall k :: 0 <= k < |ids| ==> ids[k] in t.orchs && names[k] == t.orchs[ids[k]].name
  }

  ghost predicate NamesKept(t: Tables, rows: map<RowId, OrchRow>) {
    forall id :: id in t.orchs ==> id in rows && rows[id].name == t.orchs[id].name
  }

  lemma NameKept(g: Graph, t: Tables, s: Surroundings, i: nat, u: Upserted)
    requires Loaded(t) && i < |OrchNodes(g)| && t.orchs.Keys <= u.rows.Keys && FreshIds(t, s)
    requires NamesKept(t, u.rows) && UpsertNode(g, t, s, i, u).Ok?
    ensures NamesKept(t, UpsertNode(g, t, s, i, u).value.rows)
  {
    UpsertNodeEffect(g, t, s, i, u);
    hide UpsertNode, OrchNodes, FreshIds, Describes, Target;
  }

  lemma {:induction false} UpsertsKeepNames(g: Graph, t: Tables, s: Surroundings, i: nat, u: Upserted)
    requires Loaded(t) && i <= |OrchNodes(g)| && t.orchs.Keys <= u.rows.Keys && FreshIds(t, s) && NamesKept(t, u.rows)
    ensures var r := UpsertFrom(g, t, s, i, u);
            r.Ok? ==> NamesKept(t, r.value.rows)
    decreases |OrchNodes(g)| - i
  {
    hide UpsertNode, OrchNodes, FreshIds, Describes, Target, NamesKept;
    if i >= |OrchNodes(g)| {
    } else {
      var next := UpsertNode(g, t, s, i, u);
      if next.Ok? {
        UpsertNodeEffect(g, t, s, i, u);
        NameKept(g, t, s, i, u);
        UpsertsKeepNames(g, t, s, i + 1, next.value);
      }
    }
  }

  /** The names a compilation returns: for each node, in order, that of the row it ended up in, and then those of the
      rows deleted, in the order they were loaded. */
  lemma FlushListExact(g: Graph, t: Tables, s: Surroundings)
    requires Loaded(t) && FreshIds(t, s) && Compile(g, t, s).Ok?
    ensures var c, n := Compile(g, t, s).value, |OrchNodes(g)|;
            && |c.touched| >= n
            && (forall k :: 0 <= k < n ==> TargetOf(g, t, s)(k) in c.orchs && c.orchs[TargetOf(g, t, s)(k)].name == c.touched[k])
            && exists gone :: Selects(gone, t.order, GoneFrom(c.orchs)) && NamesOf(t, gone, c.touched[n..])
  {
    hide UpsertFrom, BindFrom, OrchNodes, Slugs, TargetOf, Desired, DeletedNames;
    var u := UpsertFrom(g, t, s, 0, Start(t, s)).value;
    var f, n := TargetOf(g, t, s), |OrchNodes(g)|;
    UpsertFromTouched(g, t, s, 0, Start(t, s));
    UpsertsKeepNames(g, t, s, 0, Start(t, s));
    DeletedNamesExact(g, t, u.rows, |t.order|);
    assert t.order[..|t.order|] == t.order;
    var c := Compile(g, t, s).value;
    assert c.touched[n..] == DeletedNames(g, t.order, |t.order|, u.rows);
    forall k | 0 <= k < n
      ensures f(k) in c.orchs && c.orchs[f(k)].name == c.touched[k]
    {
      assert TouchedAt(g, u, f(k), u.touched[k]);
    }
  }

  // ── Wirings ───────────────────────────────────────────────────────────────

  predicate Complete(w: Wiring) {
    w.defId != "" && w.agentId != ""
  }

  lemma {:induction false} UsableExact(ws: seq<Wiring>)
    ensures Selects(Usable(ws), ws, Complete)
  {
    hide Selects;
    if ws == [] {
      SelectsNothing(Complete);
    } else {
      UsableExact(ws[1..]);
      SelectsPrepend(ws[0], Usable(ws[1..]), ws[1..], Complete);
      assert ws == [ws[0]] + ws[1..];
      assert Usable(ws) == (if Complete(ws[0]) then [ws[0]] else []) + Usable(ws[1..]);
    }
  }

  /** One part for each edge: what its chain gives if it leads from this orchestrator into middleware. */
  ghost predicate WiredByEdges(g: Graph, orchId: string, edges: seq<Edge>, parts: seq<seq<Wiring>>)
    requires ChainsEndFrom(g, orchId) && forall e :: e in edges ==> e in g.edges
  {
    |parts| == |edges| && forall k :: 0 <= k < |edges| ==> WiredByEdge(g, orchId, edges[k], parts[k])
  }

  ghost predicate WiredByEdge(g: Graph, orchId: string, e: Edge, part: seq<Wiring>)
    requires ChainsEndFrom(g, orchId) && e in g.edges
  {
    part == if e.source == orchId && IsKind(g, e.target, Middleware) then WiringsOfChain(g, e.target) else []
  }

  lemma {:induction false} WiringsUpToExact(g: Graph, orchId: string, n: nat)
    requires ChainsEndFrom(g, orchId) && n <= |g.edges|
    ensures exists parts :: WiredByEdges(g, orchId, g.edges[..n], parts) && Concatenates(WiringsUpTo(g, orchId, n), parts)
  {
    hide ChainsEndFrom, WiringsOfChain, Concatenates, IsKind;
    if n == 0 {
      ConcatenatesNothing<Wiring>();
      assert WiredByEdges(g, orchId, g.edges[..0], []);
    } else {
      WiringsUpToExact(g, orchId, n - 1);
      var parts :| WiredByEdges(g, orchId, g.edges[..n - 1], parts) && Concatenates(WiringsUpTo(g, orchId, n - 1), parts);
      var e := g.edges[n - 1];
      var next := WiringsOfEdge(g, orchId, e);
      assert WiredByEdge(g, orchId, e, next);
      ConcatenatesNext(WiringsUpTo(g, orchId, n - 1), parts, next);
      assert WiredByEdges(g, orchId, g.edges[..n], parts + [next]);
    }
  }

  /** The wirings of an orchestrator: in edge order, what each edge's chain gives. */
  ghost predicate OrchWired(g: Graph, orchId: string, found: seq<Wiring>)
    requires ChainsEndFrom(g, orchId)
  {
    exists parts :: WiredByEdges(g, orchId, g.edges, parts) && Concatenates(found, parts)
  }

  ghost predicate OrchsWired(g: Graph, n: nat, found: seq<seq<Wiring>>)
    requires WiringEnds(g) && n <= |OrchNodes(g)|
  {
    |found| == n && forall k :: 0 <= k < n ==> OrchNodes(g)[k] in OrchNodes(g) && OrchWired(g, OrchNodes(g)[k].id, found[k])
  }

  /** Main result: the application's wirings are those found for its orchestrators, one after another in the graph's
      order, without the ones that lack a definition or an agent. */
  lemma {:induction false} AllWiringsExact(g: Graph, n: nat)
    requires WiringEnds(g) && n <= |OrchNodes(g)|
    ensures exists found, all :: OrchsWired(g, n, found) && Concatenates(all, found) && Selects(AllWirings(g, n), all, Complete)
  {
    hide WiringsUpTo, Usable, OrchNodes, Concatenates, Selects, OrchWired;
    if n == 0 {
      ConcatenatesNothing<Wiring>();
      SelectsNothing(Complete);
      assert OrchsWired(g, 0, []);
    } else {
      AllWiringsExact(g, n - 1);
      var found, all :| OrchsWired(g, n - 1, found) && Concatenates(all, found) && Selects(AllWirings(g, n - 1), all, Complete);
      assert OrchNodes(g)[n - 1] in OrchNodes(g);
      var next := WiringsUpTo(g, OrchNodes(g)[n - 1].id, |g.edges|);
      OrchIsWired(g, OrchNodes(g)[n - 1].id);
      UsableExact(next);
      ConcatenatesNext(all, found, next);
      SelectsConcat(AllWirings(g, n - 1), all, Usable(next), next, Complete);
      assert OrchsWired(g, n, found + [next]);
    }
  }

  lemma OrchIsWired(g: Graph, orchId: string)
    requires ChainsEndFrom(g, orchId)
    ensures OrchWired(g, orchId, WiringsUpTo(g, orchId, |g.edges|))
  {
    hide ChainsEndFrom, WiringsUpTo, Concatenates;
    WiringsUpToExact(g, orchId, |g.edges|);
    assert g.edges[..|g.edges|] == g.edges;
  }
}
