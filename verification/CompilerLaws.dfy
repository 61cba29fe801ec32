/** What compilation guarantees: incremental equals from scratch, unique names, complete flush list. */
module CompilerLaws {
  import opened Common
  import opened AppGraph
  import opened OrchNames
  import opened Compiler

  ghost predicate DistinctNodes(g: Graph) {
    forall i, j :: 0 <= i < j < |OrchNodes(g)| ==> OrchNodes(g)[i].id != OrchNodes(g)[j].id
  }

  /** New row ids are new. */
  ghost predicate FreshIds(t: Tables, s: Surroundings) {
    && (forall i :: s.newId(i) !in t.orchs)
    && (forall i, j :: i != j ==> s.newId(i) != s.newId(j))
  }

  ghost predicate OneRowPerNode(rows: map<RowId, OrchRow>) {
    forall a, b :: a in rows && b in rows && a != b ==> rows[a].nodeId != rows[b].nodeId
  }

  /** The row the i-th orchestrator node ends up in: the one it matched, or a new one. */
  function Target(g: Graph, t: Tables, s: Surroundings, i: nat): RowId
    requires Loaded(t) && i < |OrchNodes(g)|
  {
    var found := Match(t, OrchNodes(g)[i]);
    if found.Some? then found.value else s.newId(i)
  }

  /** No two orchestrator nodes claim the same existing row. */
  ghost predicate MatchesDistinct(g: Graph, t: Tables)
    requires Loaded(t)
  {
    forall i, j :: 0 <= i < j < |OrchNodes(g)| ==>
      Match(t, OrchNodes(g)[i]).None? || Match(t, OrchNodes(g)[i]) != Match(t, OrchNodes(g)[j])
  }

  predicate Describes(g: Graph, n: Node, row: OrchRow) {
    row.nodeId == n.id && row.agents == ResolveAgents(g, n.id) && row.delegatable == Delegatable(g, n.id)
  }

  /** First `n` values of `f`. */
  function Image(f: nat -> RowId, n: nat): set<RowId> {
    if n == 0 then {} else Image(f, n - 1) + {f(n - 1)}
  }

  lemma {:induction false} ImageMember(f: nat -> RowId, n: nat, id: RowId)
    ensures id in Image(f, n) <==> exists k :: 0 <= k < n && f(k) == id
  {
    if n == 0 {
    } else {
      ImageMember(f, n - 1, id);
    }
  }

  /** The first `n` values of `f` are different. */
  ghost predicate InjectiveUpTo(f: nat -> RowId, n: nat) {
    forall i, j :: 0 <= i < j < n ==> f(i) != f(j)
  }

  lemma InjectiveNext(f: nat -> RowId, n: nat)
    ensures InjectiveUpTo(f, n + 1) <==> InjectiveUpTo(f, n) && f(n) !in Image(f, n)
  {
    hide Image;
    ImageMember(f, n, f(n));
  }

  lemma {:induction false} ImageSize(f: nat -> RowId, n: nat)
    ensures |Image(f, n)| <= n
    ensures |Image(f, n)| == n <==> InjectiveUpTo(f, n)
  {
    if n == 0 {
    } else {
      hide InjectiveUpTo;
      ImageSize(f, n - 1);
      InjectiveNext(f, n - 1);
    }
  }

  function TargetOf(g: Graph, t: Tables, s: Surroundings): nat -> RowId
    requires Loaded(t)
  {
    (i: nat) => if i < |OrchNodes(g)| then Target(g, t, s, i) else ""
  }

  // ── State of the upsert loop ──────────────────────────────────────────────

  /** The rows after the first `n` nodes: the loaded ones and the targets; a row holds what its last writer wrote. */
  ghost predicate RowsSoFar(g: Graph, t: Tables, s: Surroundings, n: nat, rows: map<RowId, OrchRow>)
    requires Loaded(t) && n <= |OrchNodes(g)|
  {
    var targets := Image(TargetOf(g, t, s), n);
    && rows.Keys == t.orchs.Keys + targets
    && (forall id :: id in t.orchs && id !in targets ==> rows[id] == t.orchs[id])
    && (forall k :: 0 <= k < n && LastWriter(g, t, s, k, n) ==>
          TargetOf(g, t, s)(k) in rows && Describes(g, OrchNodes(g)[k], rows[TargetOf(g, t, s)(k)]))
  }

  ghost predicate LastWriter(g: Graph, t: Tables, s: Surroundings, k: nat, n: nat)
    requires Loaded(t)
  {
    forall j :: k < j < n ==> TargetOf(g, t, s)(j) != TargetOf(g, t, s)(k)
  }

  /** One upsert rewrites the target row and nothing else; a matched row keeps its name, a new one gets a new name. */
  lemma UpsertNodeEffect(g: Graph, t: Tables, s: Surroundings, i: nat, u: Upserted)
    requires Loaded(t) && i < |OrchNodes(g)| && t.orchs.Keys <= u.rows.Keys && FreshIds(t, s)
    ensures var next, target := UpsertNode(g, t, s, i, u), Target(g, t, s, i);
            next.Ok? ==>
              && target in next.value.rows
              && var row := next.value.rows[target];
              && next.value.rows == u.rows[target := row]
              && Describes(g, OrchNodes(g)[i], row)
              && next.value.byNode == u.byNode[OrchNodes(g)[i].id := target]
              && next.value.touched == u.touched + [row.name]
              && next.value.names == (if target in t.orchs then u.names else u.names + {row.name})
              && (target in t.orchs ==> row.name == u.rows[target].name)
              && (target !in t.orchs ==> NewName(OrchNodes(g)[i], u.names, s, i) == Ok(row.name))
  {
    hide Match, ResolveAgents, Delegatable, NewName, OrchNodes;
  }

  lemma RowsAdvance(g: Graph, t: Tables, s: Surroundings, i: nat, rows: map<RowId, OrchRow>, row: OrchRow)
    requires Loaded(t) && i < |OrchNodes(g)| && RowsSoFar(g, t, s, i, rows) && Describes(g, OrchNodes(g)[i], row)
    ensures RowsSoFar(g, t, s, i + 1, rows[TargetOf(g, t, s)(i) := row])
  {
    hide TargetOf, Describes, OrchNodes;
    var f := TargetOf(g, t, s);
    var next := rows[f(i) := row];
    forall k | 0 <= k < i + 1 && LastWriter(g, t, s, k, i + 1)
      ensures f(k) in next && Describes(g, OrchNodes(g)[k], next[f(k)])
    {
      if k < i {
        assert f(i) != f(k);
        assert LastWriter(g, t, s, k, i);
      }
    }
  }

  lemma {:induction false} UpsertFromRows(g: Graph, t: Tables, s: Surroundings, i: nat, u: Upserted)
    requires Loaded(t) && i <= |OrchNodes(g)| && t.orchs.Keys <= u.rows.Keys && FreshIds(t, s)
    requires RowsSoFar(g, t, s, i, u.rows)
    ensures var r := UpsertFrom(g, t, s, i, u);
            r.Ok? ==> RowsSoFar(g, t, s, |OrchNodes(g)|, r.value.rows)
    decreases |OrchNodes(g)| - i
  {
    hide RowsSoFar, UpsertNode, Target, Describes, OrchNodes, FreshIds;
    if i >= |OrchNodes(g)| {
    } else {
      UpsertNodeEffect(g, t, s, i, u);
      var next := UpsertNode(g, t, s, i, u);
      if next.Ok? {
        RowsAdvance(g, t, s, i, u.rows, next.value.rows[Target(g, t, s, i)]);
        UpsertFromRows(g, t, s, i + 1, next.value);
      }
    }
  }

  // ── The lookup table from node to row ─────────────────────────────────────

  ghost predicate ByNodeSoFar(g: Graph, t: Tables, s: Surroundings, n: nat, byNode: map<string, RowId>)
    requires Loaded(t) && n <= |OrchNodes(g)|
  {
    forall k :: 0 <= k < n ==>
      OrchNodes(g)[k].id in byNode && (DistinctNodes(g) ==> byNode[OrchNodes(g)[k].id] == TargetOf(g, t, s)(k))
  }

  lemma ByNodeAdvance(g: Graph, t: Tables, s: Surroundings, i: nat, byNode: map<string, RowId>)
    requires Loaded(t) && i < |OrchNodes(g)| && ByNodeSoFar(g, t, s, i, byNode)
    ensures ByNodeSoFar(g, t, s, i + 1, byNode[OrchNodes(g)[i].id := TargetOf(g, t, s)(i)])
  {
    hide TargetOf, OrchNodes;
  }

  lemma {:induction false} UpsertFromByNode(g: Graph, t: Tables, s: Surroundings, i: nat, u: Upserted)
    requires Loaded(t) && i <= |OrchNodes(g)| && t.orchs.Keys <= u.rows.Keys && FreshIds(t, s)
    requires ByNodeSoFar(g, t, s, i, u.byNode)
    ensures var r := UpsertFrom(g, t, s, i, u);
            r.Ok? ==> ByNodeSoFar(g, t, s, |OrchNodes(g)|, r.value.byNode)
    decreases |OrchNodes(g)| - i
  {
    hide UpsertNode, Target, OrchNodes, ByNodeSoFar, Describes, FreshIds;
    if i >= |OrchNodes(g)| {
    } else {
      UpsertNodeEffect(g, t, s, i, u);
      ByNodeAdvance(g, t, s, i, u.byNode);
      var next := UpsertNode(g, t, s, i, u);
      if next.Ok? { UpsertFromByNode(g, t, s, i + 1, next.value); }
    }
  }

  /** Every orchestrator a valid entry point can be bound to has a row. */
  lemma {:induction false} BindFromSucceeds(g: Graph, byNode: map<string, RowId>, i: nat, eps: map<string, EpRow>)
    requires i <= |EpNodes(g)|
    requires forall n :: n in EpNodes(g) ==> Bound(g, n.id)
    requires forall n :: n in OrchNodes(g) ==> n.id in byNode
    ensures BindFrom(g, byNode, i, eps).Ok?
    decreases |EpNodes(g)| - i
  {
    if i >= |EpNodes(g)| {
    } else {
      var n := EpNodes(g)[i];
      assert Bound(g, n.id);
      var target := OrchTarget(g, n.id);
      assert NodeById(g.nodes, target.value).value in OrchNodes(g);
      BindFromSucceeds(g, byNode, i + 1, eps[n.data.slug := EpRow(EpType(n), byNode[target.value])]);
    }
  }

  /** Main result: on a graph validation accepts, compilation never raises its two binding errors: only a
      taken slug, a missing agent or a rejected name can stop it. */
  lemma ValidGraphsBind(g: Graph, t: Tables, s: Surroundings)
    requires Loaded(t) && FreshIds(t, s) && Valid(g)
    ensures var r := Compile(g, t, s);
            && (r.Err? ==> !r.error.NoOrchestratorEdge? && !r.error.UnknownOrchestrator?)
            && (r.Ok? <==> !SlugConflict(g, s) && !AgentMissing(g, s) && UpsertFrom(g, t, s, 0, Start(t, s)).Ok?)
  {
    hide Surviving, DeletedNames, OrchNodes, EpNodes, UpsertFrom, BindFrom, Bound, Target, Slugs, AgentMissing;
    var upserted := UpsertFrom(g, t, s, 0, Start(t, s));
    UpsertErrors(g, t, s, 0, Start(t, s));
    if upserted.Ok? {
      UpsertFromByNode(g, t, s, 0, Start(t, s));
      forall n | n in OrchNodes(g)
        ensures n.id in upserted.value.byNode
      {
        var k :| 0 <= k < |OrchNodes(g)| && OrchNodes(g)[k] == n;
      }
      EntryPointsBound(g);
      BindFromSucceeds(g, upserted.value.byNode, 0, t.eps);
    }
  }

  lemma EntryPointsBound(g: Graph)
    requires Valid(g)
    ensures forall n :: n in EpNodes(g) ==> Bound(g, n.id)
  {
    hide Bound;
    assert !Violates(g, EntryPointUnbound);
  }

  lemma {:induction false} UpsertErrors(g: Graph, t: Tables, s: Surroundings, i: nat, u: Upserted)
    requires Loaded(t) && i <= |OrchNodes(g)| && t.orchs.Keys <= u.rows.Keys
    ensures var r := UpsertFrom(g, t, s, i, u);
            r.Err? ==> r.error.NameRejected?
    decreases |OrchNodes(g)| - i
  {
    hide ResolveAgents, Delegatable, NewName, OrchNodes, Match;
    if i >= |OrchNodes(g)| {
    } else {
      var next := UpsertNode(g, t, s, i, u);
      if next.Ok? { UpsertErrors(g, t, s, i + 1, next.value); }
    }
  }

  // ── Incremental compilation refines compiling from scratch ────────────────

  lemma TargetsDistinctIffMatchesDistinct(g: Graph, t: Tables, s: Surroundings)
    requires Loaded(t) && FreshIds(t, s)
    ensures MatchesDistinct(g, t) <==>
            forall i, j :: 0 <= i < j < |OrchNodes(g)| ==> Target(g, t, s, i) != Target(g, t, s, j)
  {
    hide OrchNodes, Match;
    forall i, j | 0 <= i < j < |OrchNodes(g)|
      ensures Target(g, t, s, i) != Target(g, t, s, j) <==>
              Match(t, OrchNodes(g)[i]).None? || Match(t, OrchNodes(g)[i]) != Match(t, OrchNodes(g)[j])
    {
    }
  }

  /** What any compilation of the graph, from whatever rows, must come to. */
  ghost function GraphView(g: Graph): set<(string, seq<string>, bool)> {
    set n | n in OrchNodes(g) :: (n.id, ResolveAgents(g, n.id), Delegatable(g, n.id))
  }

  ghost function NodeView(rows: map<RowId, OrchRow>): set<(string, seq<string>, bool)> {
    set id | id in rows :: (rows[id].nodeId, rows[id].agents, rows[id].delegatable)
  }

  /** With one row per node to start from, the surviving rows are among the nodes' targets. */
  lemma SurvivorsAreTargets(g: Graph, t: Tables, s: Surroundings, rows: map<RowId, OrchRow>)
    requires Loaded(t) && FreshIds(t, s) && OneRowPerNode(t.orchs)
    requires RowsSoFar(g, t, s, |OrchNodes(g)|, rows)
    ensures Surviving(g, t, rows).Keys <= Image(TargetOf(g, t, s), |OrchNodes(g)|)
  {
    hide OrchNodes, Describes, LastWriter, Image, Desired, TargetOf;
    forall id | id in Surviving(g, t, rows)
      ensures id in Image(TargetOf(g, t, s), |OrchNodes(g)|)
    {
      if id in t.orchs && rows[id] == t.orchs[id] { DesiredIsTarget(g, t, s, id); }
    }
  }

  lemma DesiredIsTarget(g: Graph, t: Tables, s: Surroundings, id: RowId)
    requires Loaded(t) && OneRowPerNode(t.orchs) && id in t.orchs && Desired(g, t.orchs[id].nodeId)
    ensures id in Image(TargetOf(g, t, s), |OrchNodes(g)|)
  {
    hide OrchNodes, Match, Image;
    var node :| node in OrchNodes(g) && node.id == t.orchs[id].nodeId;
    var k :| 0 <= k < |OrchNodes(g)| && OrchNodes(g)[k] == node;
    MatchedByNodeId(t, node, id);
    assert TargetOf(g, t, s)(k) == id;
    ImageMember(TargetOf(g, t, s), |OrchNodes(g)|, id);
  }

  lemma MatchedByNodeId(t: Tables, n: Node, id: RowId)
    requires Loaded(t) && OneRowPerNode(t.orchs) && id in t.orchs && t.orchs[id].nodeId == n.id
    ensures Match(t, n) == Some(id)
  {
    assert id in t.order;
    var found := RowByNodeId(t, n.id, |t.order|);
    var k :| 0 <= k < |t.order| && t.order[k] == id;
    assert found.Some?;
  }

  lemma TargetsSurvive(g: Graph, t: Tables, s: Surroundings, rows: map<RowId, OrchRow>)
    requires Loaded(t) && FreshIds(t, s) && MatchesDistinct(g, t)
    requires RowsSoFar(g, t, s, |OrchNodes(g)|, rows)
    ensures var f := TargetOf(g, t, s);
            forall k :: 0 <= k < |OrchNodes(g)| ==>
              f(k) in Surviving(g, t, rows) && Describes(g, OrchNodes(g)[k], rows[f(k)])
  {
    hide ResolveAgents, Delegatable, OrchNodes, Match, Image;
    TargetsDistinctIffMatchesDistinct(g, t, s);
    var n, f := |OrchNodes(g)|, TargetOf(g, t, s);
    forall k | 0 <= k < n
      ensures f(k) in Surviving(g, t, rows) && Describes(g, OrchNodes(g)[k], rows[f(k)])
    {
      assert LastWriter(g, t, s, k, n);
      assert OrchNodes(g)[k] in OrchNodes(g);
    }
  }

  /** The rows the compilation leaves, before the caller commits. */
  lemma CompiledRows(g: Graph, t: Tables, s: Surroundings)
    requires Loaded(t) && FreshIds(t, s) && Compile(g, t, s).Ok?
    ensures var u := UpsertFrom(g, t, s, 0, Start(t, s));
            && u.Ok? && RowsSoFar(g, t, s, |OrchNodes(g)|, u.value.rows)
            && Compile(g, t, s).value.orchs == Surviving(g, t, u.value.rows)
  {
    hide ResolveAgents, Delegatable, OrchNodes, Match, UpsertNode, UpsertFrom, Surviving, DeletedNames;
    UpsertFromRows(g, t, s, 0, Start(t, s));
  }

  /** Rows laid out one per node show exactly what the graph determines. */
  lemma DescribedView(g: Graph, rows: map<RowId, OrchRow>, f: nat -> RowId)
    requires DistinctNodes(g) && LaidOut(g, rows, f)
    ensures NodeView(rows) == GraphView(g) && OneRowPerNode(rows)
  {
    hide Delegatable, ResolveAgents, OrchNodes;
    forall v
      ensures v in NodeView(rows) <==> v in GraphView(g)
    {
      if v in NodeView(rows) {
        var id :| id in rows && v == (rows[id].nodeId, rows[id].agents, rows[id].delegatable);
        var k :| 0 <= k < |OrchNodes(g)| && f(k) == id;
        assert OrchNodes(g)[k] in OrchNodes(g);
      }
      if v in GraphView(g) {
        var node :| node in OrchNodes(g) && v == (node.id, ResolveAgents(g, node.id), Delegatable(g, node.id));
        var k :| 0 <= k < |OrchNodes(g)| && OrchNodes(g)[k] == node;
        assert f(k) in rows;
      }
    }
  }

  /** The final rows are the nodes' targets, one each. */
  ghost predicate LaidOut(g: Graph, rows: map<RowId, OrchRow>, f: nat -> RowId) {
    && (forall i :: 0 <= i < |OrchNodes(g)| ==> f(i) in rows && Describes(g, OrchNodes(g)[i], rows[f(i)]))
    && (forall id :: id in rows ==> exists i :: 0 <= i < |OrchNodes(g)| && f(i) == id)
  }

  lemma CompiledLayout(g: Graph, t: Tables, s: Surroundings)
    requires Loaded(t) && FreshIds(t, s) && OneRowPerNode(t.orchs) && MatchesDistinct(g, t)
    requires Compile(g, t, s).Ok?
    ensures LaidOut(g, Compile(g, t, s).value.orchs, TargetOf(g, t, s))
  {
    hide Delegatable, ResolveAgents, OrchNodes, Match, UpsertFrom, Compile, Surviving, RowsSoFar, Target, Describes, Image;
    CompiledRows(g, t, s);
    var rows := UpsertFrom(g, t, s, 0, Start(t, s)).value.rows;
    var final, n, f := Surviving(g, t, rows), |OrchNodes(g)|, TargetOf(g, t, s);
    SurvivorsAreTargets(g, t, s, rows);
    TargetsSurvive(g, t, s, rows);
    SurvivingValues(g, t, rows);
    forall i | 0 <= i < n
      ensures f(i) in final && Describes(g, OrchNodes(g)[i], final[f(i)])
    {
    }
    forall id | id in final
      ensures exists i :: 0 <= i < n && f(i) == id
    {
      ImageMember(f, n, id);
    }
  }

  lemma LayoutSize(g: Graph, rows: map<RowId, OrchRow>, f: nat -> RowId)
    requires LaidOut(g, rows, f)
    requires forall i, j :: 0 <= i < j < |OrchNodes(g)| ==> f(i) != f(j)
    ensures |rows| == |OrchNodes(g)|
  {
    hide OrchNodes, Describes;
    var n := |OrchNodes(g)|;
    ImageSize(f, n);
    forall id
      ensures id in rows.Keys <==> id in Image(f, n)
    {
      ImageMember(f, n, id);
    }
    assert rows.Keys == Image(f, n);
  }

  /** Main result: from any existing rows, when the nodes match distinct ones, compiling yields exactly
      one row per node, none left over, holding what the graph alone determines. */
  lemma IncrementalIsFresh(g: Graph, t: Tables, s: Surroundings)
    requires Loaded(t) && FreshIds(t, s) && OneRowPerNode(t.orchs) && DistinctNodes(g) && MatchesDistinct(g, t)
    requires Compile(g, t, s).Ok?
    ensures var c := Compile(g, t, s).value;
            && NodeView(c.orchs) == GraphView(g)
            && |c.orchs| == |OrchNodes(g)|
            && OneRowPerNode(c.orchs)
  {
    hide OrchNodes, Match, Compile, Target, Describes, LaidOut, NodeView, GraphView, OneRowPerNode;
    CompiledLayout(g, t, s);
    TargetsDistinctIffMatchesDistinct(g, t, s);
    DescribedView(g, Compile(g, t, s).value.orchs, TargetOf(g, t, s));
    LayoutSize(g, Compile(g, t, s).value.orchs, TargetOf(g, t, s));
  }

  lemma SurvivingValues(g: Graph, t: Tables, rows: map<RowId, OrchRow>)
    ensures forall id :: id in Surviving(g, t, rows) ==> id in rows && Surviving(g, t, rows)[id] == rows[id]
  {
  }

  /** The condition is exact: when two nodes claim one row, some node is left without a row. */
  lemma OneRowEachIffMatchesDistinct(g: Graph, t: Tables, s: Surroundings)
    requires Loaded(t) && FreshIds(t, s) && OneRowPerNode(t.orchs) && DistinctNodes(g) && Compile(g, t, s).Ok?
    ensures |Compile(g, t, s).value.orchs| == |OrchNodes(g)| <==> MatchesDistinct(g, t)
  {
    hide ResolveAgents, Delegatable, OrchNodes, Match, UpsertFrom, Compile, Surviving, RowsSoFar;
    if MatchesDistinct(g, t) {
      IncrementalIsFresh(g, t, s);
    } else {
      CompiledRows(g, t, s);
      var rows := UpsertFrom(g, t, s, 0, Start(t, s)).value.rows;
      SurvivorsAreTargets(g, t, s, rows);
      TargetsDistinctIffMatchesDistinct(g, t, s);
      var f, n := TargetOf(g, t, s), |OrchNodes(g)|;
      ImageSize(f, n);
      var i, j :| 0 <= i < j < n && Target(g, t, s, i) == Target(g, t, s, j);
      assert f(i) == f(j);
      SubsetSize(Surviving(g, t, rows).Keys, Image(f, n));
    }
  }

  // ── Two nodes that claim one row ──────────────────────────────────────────

  const FIRST := Node("n1", Orchestrator, NoData().(appOrchestratorId := "r"))
  const SECOND := Node("n2", Orchestrator, NoData().(appOrchestratorId := "r"))

  /** Both orchestrator nodes carry the id of the one existing row, as after copying a node on the canvas. */
  const COPIED := Graph([EP, FIRST, SECOND], [Edge("ep", "n1"), Edge("n1", "n2")])
  const ONE_ROW := Tables(["r"], map["r" := OrchRow("old", "planner", [], false)], map[])

  lemma CopiedNodes()
    ensures NodeById(COPIED.nodes, "ep") == Some(EP) && NodeById(COPIED.nodes, "n1") == Some(FIRST) && NodeById(COPIED.nodes, "n2") == Some(SECOND)
    ensures OrchNodes(COPIED) == [FIRST, SECOND]
  {
    assert COPIED.nodes[..2] == [EP, FIRST] && COPIED.nodes[..2][..1] == [EP];
    assert COPIED.nodes[1..] == [FIRST, SECOND] && COPIED.nodes[1..][1..] == [SECOND] && [SECOND][1..] == [];
    assert OfKind([SECOND], Orchestrator) == [SECOND] && OfKind([FIRST, SECOND], Orchestrator) == [FIRST, SECOND];
  }

  lemma CopiedIsValid()
    ensures Valid(COPIED) && DistinctNodes(COPIED)
  {
    CopiedNodes();
    hide OfKind, NodeById, SlugChar;
    assert COPIED.edges[0] == Edge("ep", "n1") && COPIED.edges[1] == Edge("n1", "n2");
    assert Bound(COPIED, "ep") && PointedAt(COPIED, "n1") && PointedAt(COPIED, "n2");
    LetterIsSlug();
    assert EP in COPIED.nodes;
  }

  lemma CopiedMatch()
    ensures Match(ONE_ROW, FIRST) == Some("r") && Match(ONE_ROW, SECOND) == Some("r")
  {
    assert RowByNodeId(ONE_ROW, "n1", 0) == None && RowByNodeId(ONE_ROW, "n2", 0) == None;
  }

  /** A concrete graph that validation accepts, and whose compilation succeeds, yet leaves a node without a row. */
  lemma CopiedNodeLosesItsRow(s: Surroundings)
    requires FreshIds(ONE_ROW, s) && "a" !in s.otherSlugs
    ensures Valid(COPIED) && DistinctNodes(COPIED) && Loaded(ONE_ROW) && OneRowPerNode(ONE_ROW.orchs)
    ensures var r := Compile(COPIED, ONE_ROW, s);
            r.Ok? && |OrchNodes(COPIED)| == 2 && |r.value.orchs| != 2
  {
    CopiedNodes();
    CopiedIsValid();
    CopiedMatch();
    CopiedCompiles(s);
    hide Compile, Valid;
    OneRowEachIffMatchesDistinct(COPIED, ONE_ROW, s);
  }

  lemma CopiedCompiles(s: Surroundings)
    requires FreshIds(ONE_ROW, s) && "a" !in s.otherSlugs
    ensures Compile(COPIED, ONE_ROW, s).Ok?
  {
    CopiedNodes();
    CopiedIsValid();
    CopiedMatch();
    assert !SlugConflict(COPIED, s) && !AgentMissing(COPIED, s);
    hide Compile, Valid, Match, ResolveAgents, Delegatable, SlugConflict, AgentMissing;
    assert UpsertNode(COPIED, ONE_ROW, s, 0, Start(ONE_ROW, s)).Ok?;
    var u := UpsertNode(COPIED, ONE_ROW, s, 0, Start(ONE_ROW, s)).value;
    assert UpsertNode(COPIED, ONE_ROW, s, 1, u).Ok?;
    assert UpsertFrom(COPIED, ONE_ROW, s, 1, u).Ok?;
    ValidGraphsBind(COPIED, ONE_ROW, s);
  }

  // ── Slugs ─────────────────────────────────────────────────────────────────

  ghost predicate DistinctSlugs(nodes: seq<Node>) {
    forall i, j :: 0 <= i < j < |nodes| ==> nodes[i].data.slug != nodes[j].data.slug
  }

  lemma SlugNotRepeatedLater(nodes: seq<Node>)
    requires nodes != [] && !SlugRepeated(nodes)
    ensures !SlugRepeated(nodes[1..])
    ensures nodes[0].kind.EntryPoint? ==>
      forall n :: n in nodes[1..] && n.kind.EntryPoint? ==> n.data.slug != nodes[0].data.slug
  {
    var rest := nodes[1..];
    forall n | n in rest && n.kind.EntryPoint? && nodes[0].kind.EntryPoint?
      ensures n.data.slug != nodes[0].data.slug
    {
      var k :| 0 <= k < |rest| && rest[k] == n;
      assert nodes[k + 1] == n;
    }
  }

  lemma {:induction false} EpSlugsDistinct(nodes: seq<Node>)
    requires !SlugRepeated(nodes)
    ensures DistinctSlugs(OfKind(nodes, EntryPoint))
  {
    hide SlugRepeated;
    if nodes == [] {
    } else {
      SlugNotRepeatedLater(nodes);
      EpSlugsDistinct(nodes[1..]);
    }
  }

  /** The entry-point row this node asks for. */
  predicate BoundTo(g: Graph, byNode: map<string, RowId>, n: Node, eps: map<string, EpRow>) {
    var target := OrchTarget(g, n.id);
    target.Some? && target.value in byNode && n.data.slug in eps &&
    eps[n.data.slug] == EpRow(EpType(n), byNode[target.value])
  }

  lemma {:induction false} BindFromBinds(g: Graph, byNode: map<string, RowId>, i: nat, eps: map<string, EpRow>)
    requires i <= |EpNodes(g)| && !SlugRepeated(g.nodes)
    requires forall k :: 0 <= k < i ==> BoundTo(g, byNode, EpNodes(g)[k], eps)
    ensures var r := BindFrom(g, byNode, i, eps);
            r.Ok? ==> forall k :: 0 <= k < |EpNodes(g)| ==> BoundTo(g, byNode, EpNodes(g)[k], r.value)
    decreases |EpNodes(g)| - i
  {
    hide SlugRepeated, OfKind, OrchTarget;
    EpSlugsDistinct(g.nodes);
    assert DistinctSlugs(EpNodes(g));
    var r := BindFrom(g, byNode, i, eps);
    if i < |EpNodes(g)| && r.Ok? {
      var n := EpNodes(g)[i];
      var target := OrchTarget(g, n.id);
      var next := eps[n.data.slug := EpRow(EpType(n), byNode[target.value])];
      forall k | 0 <= k < i + 1
        ensures BoundTo(g, byNode, EpNodes(g)[k], next)
      {
        if k < i {
          assert BoundTo(g, byNode, EpNodes(g)[k], eps);
          assert EpNodes(g)[k].data.slug != EpNodes(g)[i].data.slug;
        }
      }
      BindFromBinds(g, byNode, i + 1, next);
    }
  }

  /** Entry point rows stand for the graph's slugs exactly, each leading to the row of the orchestrator
      node its first orchestrator edge points at. */
  ghost predicate SlugsRealised(g: Graph, c: Compiled) {
    && c.eps.Keys == Slugs(g)
    && forall n :: n in EpNodes(g) ==>
         && OrchTarget(g, n.id).Some? && c.eps[n.data.slug].orchId in c.orchs
         && c.orchs[c.eps[n.data.slug].orchId].nodeId == OrchTarget(g, n.id).value
         && c.eps[n.data.slug].epType == if n.data.epType == "" then "websocket" else n.data.epType
  }

  lemma CompiledSlugs(g: Graph, t: Tables, s: Surroundings)
    requires Loaded(t) && FreshIds(t, s) && DistinctNodes(g) && MatchesDistinct(g, t)
    requires !SlugRepeated(g.nodes) && Compile(g, t, s).Ok?
    ensures SlugsRealised(g, Compile(g, t, s).value)
  {
    hide ResolveAgents, Delegatable, OrchNodes, Match, UpsertFrom, SlugRepeated, OfKind, Surviving, RowsSoFar, BindFrom, DeletedNames, Target;
    var c := Compile(g, t, s).value;
    var u := UpsertFrom(g, t, s, 0, Start(t, s)).value;
    var bound := BindFrom(g, u.byNode, 0, t.eps).value;
    CompiledRows(g, t, s);
    TargetsSurvive(g, t, s, u.rows);
    SurvivingValues(g, t, u.rows);
    UpsertFromByNode(g, t, s, 0, Start(t, s));
    BindFromBinds(g, u.byNode, 0, t.eps);
    forall n | n in EpNodes(g)
      ensures n.data.slug in c.eps && OrchTarget(g, n.id).Some? && c.eps[n.data.slug].orchId in c.orchs
      ensures c.orchs[c.eps[n.data.slug].orchId].nodeId == OrchTarget(g, n.id).value
      ensures c.eps[n.data.slug].epType == if n.data.epType == "" then "websocket" else n.data.epType
    {
      var i :| 0 <= i < |EpNodes(g)| && EpNodes(g)[i] == n;
      assert BoundTo(g, u.byNode, n, bound);
      assert n.data.slug in Slugs(g);
      var node := NodeById(g.nodes, OrchTarget(g, n.id).value).value;
      OrchNodeOf(g, node);
      var k :| 0 <= k < |OrchNodes(g)| && OrchNodes(g)[k] == node;
      assert Describes(g, OrchNodes(g)[k], u.rows[TargetOf(g, t, s)(k)]);
    }
    assert c.eps.Keys == Slugs(g);
  }

  lemma OrchNodeOf(g: Graph, n: Node)
    requires n in g.nodes && n.kind.Orchestrator?
    ensures n in OrchNodes(g)
  {
  }

  /** Two compilations of one graph, say of the running application and of an empty one, agree. */
  lemma CompilationsAgree(g: Graph, t1: Tables, s1: Surroundings, t2: Tables, s2: Surroundings)
    requires Valid(g) && DistinctNodes(g)
    requires Loaded(t1) && FreshIds(t1, s1) && OneRowPerNode(t1.orchs) && MatchesDistinct(g, t1) && Compile(g, t1, s1).Ok?
    requires Loaded(t2) && FreshIds(t2, s2) && OneRowPerNode(t2.orchs) && MatchesDistinct(g, t2) && Compile(g, t2, s2).Ok?
    ensures var c1, c2 := Compile(g, t1, s1).value, Compile(g, t2, s2).value;
            && NodeView(c1.orchs) == NodeView(c2.orchs) && |c1.orchs| == |c2.orchs|
            && c1.eps.Keys == c2.eps.Keys
            && forall slug :: slug in c1.eps ==>
                 && c1.eps[slug].orchId in c1.orchs && c2.eps[slug].orchId in c2.orchs
                 && c1.orchs[c1.eps[slug].orchId].nodeId == c2.orchs[c2.eps[slug].orchId].nodeId
  {
    hide Compile, NodeView, GraphView, Match, FreshIds, MatchesDistinct, OrchNodes, DistinctNodes, OrchTarget;
    assert !Violates(g, DuplicateSlug);
    IncrementalIsFresh(g, t1, s1);
    IncrementalIsFresh(g, t2, s2);
    CompiledSlugs(g, t1, s1);
    CompiledSlugs(g, t2, s2);
    var c1 := Compile(g, t1, s1).value;
    forall slug | slug in c1.eps
      ensures exists n :: n in EpNodes(g) && n.data.slug == slug
    {
      assert slug in Slugs(g);
    }
  }

  // ── Names ─────────────────────────────────────────────────────────────────

  ghost predicate DistinctNames(rows: map<RowId, OrchRow>) {
    forall a, b :: a in rows && b in rows && a != b ==> rows[a].name != rows[b].name
  }

  /** Names are unique here and known to the caller's list of all names in use. */
  ghost predicate NamesKnown(rows: map<RowId, OrchRow>, names: set<string>) {
    DistinctNames(rows) && forall id :: id in rows ==> rows[id].name in names
  }

  /** A row keeps its old name or got one nobody used. */
  ghost predicate NamesOldOrNew(t: Tables, s: Surroundings, rows: map<RowId, OrchRow>) {
    forall id :: id in rows ==> (id in t.orchs && rows[id].name == t.orchs[id].name) || rows[id].name !in s.names
  }

  /** Rows that differ from what was loaded are on the flush list. */
  ghost predicate ChangesTouched(t: Tables, rows: map<RowId, OrchRow>, touched: seq<string>) {
    forall id :: id in rows && !(id in t.orchs && rows[id] == t.orchs[id]) ==> rows[id].name in touched
  }

  ghost predicate NamingSoFar(t: Tables, s: Surroundings, u: Upserted) {
    && s.names <= u.names && NamesKnown(u.rows, u.names) && NamesOldOrNew(t, s, u.rows)
    && ChangesTouched(t, u.rows, u.touched)
    && t.orchs.Keys <= u.rows.Keys && forall id :: id in t.orchs ==> u.rows[id].name == t.orchs[id].name
  }

  lemma UpsertNodeNaming(g: Graph, t: Tables, s: Surroundings, i: nat, u: Upserted)
    requires Loaded(t) && i < |OrchNodes(g)| && FreshIds(t, s) && NamingSoFar(t, s, u)
    requires forall k, j :: HexToken(s.token(k)(j))
    ensures var next := UpsertNode(g, t, s, i, u);
            next.Ok? ==> NamingSoFar(t, s, next.value)
  {
    hide UpsertNode, Target, Describes, OrchNodes, NewName, FreshIds, HexToken;
    UpsertNodeEffect(g, t, s, i, u);
    NewNameFresh(OrchNodes(g)[i], u.names, s, i);
    var next := UpsertNode(g, t, s, i, u);
    if next.Ok? { NamingAdvance(t, s, u, Target(g, t, s, i), next.value.rows[Target(g, t, s, i)], next.value); }
  }

  lemma NewNameFresh(n: Node, names: set<string>, s: Surroundings, i: nat)
    requires forall k, j :: HexToken(s.token(k)(j))
    ensures var name := NewName(n, names, s, i);
            name.Ok? ==> name.value !in names
  {
    hide OrchName;
    OrchNameFresh(n.data.name, Hint(n), names, s.token(i));
  }

  lemma NamingAdvance(t: Tables, s: Surroundings, u: Upserted, target: RowId, row: OrchRow, next: Upserted)
    requires Loaded(t) && NamingSoFar(t, s, u)
    requires next.rows == u.rows[target := row] && next.touched == u.touched + [row.name]
    requires next.names == (if target in t.orchs then u.names else u.names + {row.name})
    requires target in t.orchs ==> row.name == u.rows[target].name
    requires target !in t.orchs ==> row.name !in u.names
    ensures NamingSoFar(t, s, next)
  {
  }

  lemma {:induction false} UpsertFromNaming(g: Graph, t: Tables, s: Surroundings, i: nat, u: Upserted)
    requires Loaded(t) && i <= |OrchNodes(g)| && FreshIds(t, s) && NamingSoFar(t, s, u)
    requires forall k, j :: HexToken(s.token(k)(j))
    ensures var r := UpsertFrom(g, t, s, i, u);
            r.Ok? ==> NamingSoFar(t, s, r.value)
    decreases |OrchNodes(g)| - i
  {
    hide UpsertNode, OrchNodes, HexToken;
    if i >= |OrchNodes(g)| {
    } else {
      UpsertNodeNaming(g, t, s, i, u);
      var next := UpsertNode(g, t, s, i, u);
      if next.Ok? { UpsertFromNaming(g, t, s, i + 1, next.value); }
    }
  }

  lemma {:induction false} DeletedNamesCover(g: Graph, order: seq<RowId>, n: nat, rows: map<RowId, OrchRow>)
    requires n <= |order| && forall id :: id in order ==> id in rows
    ensures forall k :: 0 <= k < n && !Desired(g, rows[order[k]].nodeId) ==>
      rows[order[k]].name in DeletedNames(g, order, n, rows)
  {
    hide Desired;
    if n == 0 {
    } else {
      DeletedNamesCover(g, order, n - 1, rows);
    }
  }

  /** Main result: names stay globally distinct (no row takes a name another application uses), a
      surviving row keeps its name, and the returned list names every row created, updated or deleted. */
  lemma NamesAndFlushList(g: Graph, t: Tables, s: Surroundings)
    requires Loaded(t) && FreshIds(t, s) && NamesKnown(t.orchs, s.names) && Compile(g, t, s).Ok?
    requires forall k, j :: HexToken(s.token(k)(j))
    ensures var c := Compile(g, t, s).value;
            && DistinctNames(c.orchs) && NamesOldOrNew(t, s, c.orchs)
            && (forall id :: id in c.orchs && id in t.orchs ==> c.orchs[id].name == t.orchs[id].name)
            && ChangesTouched(t, c.orchs, c.touched)
            && (forall id :: id in t.orchs && id !in c.orchs ==> t.orchs[id].name in c.touched)
  {
    hide UpsertFrom, Desired, HexToken, BindFrom, OrchNodes, Slugs;
    UpsertFromNaming(g, t, s, 0, Start(t, s));
    var u := UpsertFrom(g, t, s, 0, Start(t, s)).value;
    DeletedNamesCover(g, t.order, |t.order|, u.rows);
    var c := Compile(g, t, s).value;
    forall id | id in t.orchs && id !in c.orchs
      ensures t.orchs[id].name in c.touched
    {
      assert id in t.order;
      var k :| 0 <= k < |t.order| && t.order[k] == id;
    }
  }
}
