/** Delegation: the tree of workflows one run starts through its sub-orchestrators. */
module RunTree {
  import opened Common

  const MAX_SUB_ORCH_DEPTH: nat := 3

  /** Whom a tool call reaches. */
  datatype Target = Agent | SubOrchestrator(name: string) | UnknownAgent

  /** A run is identified by the (iteration, call) steps leading to it. */
  type Path = seq<(nat, nat)>

  /** Outside behaviour: the tool calls each run plans per iteration (none ends it), and each
      orchestrator's iteration limit. Delegation may be cyclic. */
  datatype World = World(calls: (Path, nat) -> seq<Target>, limit: string -> nat)

  datatype Run = Run(name: string, depth: nat, children: seq<Run>)

  function StartRun(w: World, name: string, depth: nat, path: Path): Run
    requires depth <= MAX_SUB_ORCH_DEPTH
    decreases MAX_SUB_ORCH_DEPTH - depth, w.limit(name) + 1, 0, 0
  {
    Run(name, depth, Iterate(w, depth, path, 0, w.limit(name)))
  }

  /** The loop: `left` more iterations are allowed. */
  function Iterate(w: World, depth: nat, path: Path, iteration: nat, left: nat): seq<Run>
    requires depth <= MAX_SUB_ORCH_DEPTH
    decreases MAX_SUB_ORCH_DEPTH - depth, left, 1, 0
  {
    if left == 0 || w.calls(path, iteration) == [] then []
    else
      Dispatch(w, depth, path, iteration, left, w.calls(path, iteration), 0) +
      Iterate(w, depth, path, iteration + 1, left - 1)
  }

  /** Child workflows of the calls from the k-th on; a call below the depth limit is answered with an error instead. */
  function Dispatch(w: World, depth: nat, path: Path, iteration: nat, left: nat, calls: seq<Target>, k: nat): seq<Run>
    requires depth <= MAX_SUB_ORCH_DEPTH && left > 0 && k <= |calls|
    decreases MAX_SUB_ORCH_DEPTH - depth, left, 0, |calls| - k
  {
    if k == |calls| then []
    else
      var later := Dispatch(w, depth, path, iteration, left, calls, k + 1);
      if calls[k].SubOrchestrator? && depth + 1 <= MAX_SUB_ORCH_DEPTH then
        [StartRun(w, calls[k].name, depth + 1, path + [(iteration, k)])] + later
      else later
  }

  /** How many workflows run in these trees. */
  function Workflows(runs: seq<Run>): nat {
    if runs == [] then 0 else 1 + Workflows(runs[0].children) + Workflows(runs[1..])
  }

  predicate DepthsFrom(runs: seq<Run>, depth: nat) {
    forall r :: r in runs ==> r.depth == depth && depth <= MAX_SUB_ORCH_DEPTH && DepthsFrom(r.children, depth + 1)
  }

  /** 1 + x + x² + … + x^levels */
  function Geometric(x: nat, levels: nat): nat {
    if levels == 0 then 1 else 1 + x * Geometric(x, levels - 1)
  }

  ghost predicate Bounded(w: World, iterations: nat, callsPerTurn: nat) {
    && (forall name :: w.limit(name) <= iterations)
    && (forall path, i :: |w.calls(path, i)| <= callsPerTurn)
  }

  lemma {:induction false} WorkflowsAppend(a: seq<Run>, b: seq<Run>)
    ensures Workflows(a + b) == Workflows(a) + Workflows(b)
  {
    if a == [] {
      assert a + b == b;
    } else {
      assert (a + b)[1..] == a[1..] + b;
      WorkflowsAppend(a[1..], b);
    }
  }

  lemma MulMono(a: nat, b: nat, x: nat)
    requires a <= b
    ensures a * x <= b * x
  {
  }

  lemma OneMore(left: nat, c: nat, x: nat)
    ensures (left + 1) * c * x == left * c * x + c * x
  {
    assert (left + 1) * c == left * c + c;
  }

  lemma {:induction false} RunBounded(w: World, name: string, depth: nat, path: Path, i: nat, c: nat)
    requires depth <= MAX_SUB_ORCH_DEPTH && Bounded(w, i, c)
    ensures Workflows([StartRun(w, name, depth, path)]) <= Geometric(i * c, MAX_SUB_ORCH_DEPTH - depth)
    ensures DepthsFrom([StartRun(w, name, depth, path)], depth)
    decreases MAX_SUB_ORCH_DEPTH - depth, w.limit(name) + 1, 0, 0
  {
    var run := StartRun(w, name, depth, path);
    IterateBounded(w, depth, path, 0, w.limit(name), i, c);
    assert [run][1..] == [];
    MulMono(w.limit(name), i, c);
    MulMono(w.limit(name) * c, i * c, Below(i * c, depth));
  }

  /** Bound on a child tree of a run at `depth`: nothing below the limit. */
  function Below(x: nat, depth: nat): nat
    requires depth <= MAX_SUB_ORCH_DEPTH
  {
    if depth == MAX_SUB_ORCH_DEPTH then 0 else Geometric(x, MAX_SUB_ORCH_DEPTH - depth - 1)
  }

  lemma {:induction false} IterateBounded(w: World, depth: nat, path: Path, iteration: nat, left: nat, i: nat, c: nat)
    requires depth <= MAX_SUB_ORCH_DEPTH && Bounded(w, i, c)
    ensures Workflows(Iterate(w, depth, path, iteration, left)) <= left * c * Below(i * c, depth)
    ensures DepthsFrom(Iterate(w, depth, path, iteration, left), depth + 1)
    decreases MAX_SUB_ORCH_DEPTH - depth, left, 1, 0
  {
    if left > 0 && w.calls(path, iteration) != [] {
      var calls := w.calls(path, iteration);
      var now := Dispatch(w, depth, path, iteration, left, calls, 0);
      var later := Iterate(w, depth, path, iteration + 1, left - 1);
      DispatchBounded(w, depth, path, iteration, left, calls, 0, i, c);
      IterateBounded(w, depth, path, iteration + 1, left - 1, i, c);
      WorkflowsAppend(now, later);
      var below := Below(i * c, depth);
      MulMono(|calls|, c, below);
      OneMore(left - 1, c, below);
    }
  }

  lemma {:induction false} DispatchBounded(w: World, depth: nat, path: Path, iteration: nat, left: nat,
                                           calls: seq<Target>, k: nat, i: nat, c: nat)
    requires depth <= MAX_SUB_ORCH_DEPTH && left > 0 && k <= |calls| && Bounded(w, i, c)
    ensures Workflows(Dispatch(w, depth, path, iteration, left, calls, k)) <= (|calls| - k) * Below(i * c, depth)
    ensures DepthsFrom(Dispatch(w, depth, path, iteration, left, calls, k), depth + 1)
    decreases MAX_SUB_ORCH_DEPTH - depth, left, 0, |calls| - k
  {
    if k >= |calls| {
    } else {
      var below := Below(i * c, depth);
      var later := Dispatch(w, depth, path, iteration, left, calls, k + 1);
      DispatchBounded(w, depth, path, iteration, left, calls, k + 1, i, c);
      assert (|calls| - k) * below == (|calls| - (k + 1)) * below + below;
      if calls[k].SubOrchestrator? && depth + 1 <= MAX_SUB_ORCH_DEPTH {
        var step := path + [(iteration, k)];
        var child := StartRun(w, calls[k].name, depth + 1, step);
        RunBounded(w, calls[k].name, depth + 1, step, i, c);
        WorkflowsAppend([child], later);
      }
    }
  }

  /** Main result: even when orchestrators delegate to each other in a cycle, a top-level run stays
      within depth 3 and starts at most 1 + Ic + (Ic)² + (Ic)³ workflows. */
  lemma RunTreeIsBounded(w: World, name: string, i: nat, c: nat)
    requires Bounded(w, i, c)
    ensures var x := i * c;
            Workflows([StartRun(w, name, 0, [])]) <= 1 + x + x * x + x * x * x
    ensures DepthsFrom([StartRun(w, name, 0, [])], 0)
  {
    RunBounded(w, name, 0, [], i, c);
    var x := i * c;
    assert Geometric(x, 0) == 1;
    assert Geometric(x, 1) == 1 + x;
    assert Geometric(x, 2) == 1 + x * (1 + x);
    assert Geometric(x, 3) == 1 + x * (1 + x * (1 + x));
    assert x * (1 + x * (1 + x)) == x + x * (x * (1 + x)) == x + x * (x + x * x);
    assert x * (x + x * x) == x * x + x * (x * x) == x * x + x * x * x;
  }

  // ── Which workflows run ───────────────────────────────────────────────────

  predicate Delegates(t: Target) {
    t.SubOrchestrator?
  }

  /** One run per delegating call, in order, under the name called and one level down; none below the limit. */
  ghost predicate StartedBy(depth: nat, calls: seq<Target>, started: seq<Run>) {
    if depth >= 3 then started == []
    else exists subs :: Selects(subs, calls, Delegates) && Same(depth, subs, started)
  }

  ghost predicate Same(depth: nat, subs: seq<Target>, started: seq<Run>) {
    |started| == |subs| && forall k :: 0 <= k < |subs| ==> subs[k] == SubOrchestrator(started[k].name) && started[k].depth == depth + 1
  }

  lemma {:induction false} DispatchExact(w: World, depth: nat, path: Path, iteration: nat, left: nat, calls: seq<Target>, k: nat)
    requires depth <= MAX_SUB_ORCH_DEPTH && left > 0 && k <= |calls|
    ensures StartedBy(depth, calls[k..], Dispatch(w, depth, path, iteration, left, calls, k))
    decreases |calls| - k
  {
    hide Selects, StartRun;
    if k >= |calls| {
      SelectsNothing(Delegates);
      assert calls[k..] == [];
    } else {
      DispatchExact(w, depth, path, iteration, left, calls, k + 1);
      assert calls[k..] == [calls[k]] + calls[k + 1..];
      if depth < 3 {
        var later := Dispatch(w, depth, path, iteration, left, calls, k + 1);
        var subs :| Selects(subs, calls[k + 1..], Delegates) && Same(depth, subs, later);
        SelectsPrepend(calls[k], subs, calls[k + 1..], Delegates);
        StartedRun(w, if Delegates(calls[k]) then calls[k].name else "", depth + 1, path + [(iteration, k)]);
        assert Same(depth, (if Delegates(calls[k]) then [calls[k]] else []) + subs, Dispatch(w, depth, path, iteration, left, calls, k));
      }
    }
  }

  lemma StartedRun(w: World, name: string, depth: nat, path: Path)
    requires depth <= MAX_SUB_ORCH_DEPTH
    ensures StartRun(w, name, depth, path).name == name && StartRun(w, name, depth, path).depth == depth
  {
  }

  function CallsIn(w: World, path: Path, from: nat, j: nat): seq<Target> {
    w.calls(path, from + j)
  }

  /** The iterations of a run: those before the first without calls, at most as many as its limit. */
  ghost predicate Rounds(w: World, path: Path, from: nat, left: nat, n: nat) {
    && n <= left && (n < left ==> CallsIn(w, path, from, n) == [])
    && forall j: nat :: j < n ==> CallsIn(w, path, from, j) != []
  }

  ghost predicate StartedIn(w: World, depth: nat, path: Path, from: nat, parts: seq<seq<Run>>) {
    forall j: nat :: j < |parts| ==> StartedBy(depth, CallsIn(w, path, from, j), parts[j])
  }

  lemma CallsLater(w: World, path: Path, from: nat, j: nat)
    ensures CallsIn(w, path, from, 0) == w.calls(path, from)
    ensures CallsIn(w, path, from, j + 1) == CallsIn(w, path, from + 1, j)
  {
    assert from + (j + 1) == (from + 1) + j;
  }

  lemma RoundsLater(w: World, depth: nat, path: Path, from: nat, left: nat, first: seq<Run>, parts: seq<seq<Run>>)
    requires left > 0 && CallsIn(w, path, from, 0) != [] && StartedBy(depth, CallsIn(w, path, from, 0), first)
    requires Rounds(w, path, from + 1, left - 1, |parts|) && StartedIn(w, depth, path, from + 1, parts)
    ensures Rounds(w, path, from, left, |[first] + parts|) && StartedIn(w, depth, path, from, [first] + parts)
  {
    hide StartedBy, CallsIn;
    var all := [first] + parts;
    forall j: nat | j < |all|
      ensures StartedBy(depth, CallsIn(w, path, from, j), all[j]) && CallsIn(w, path, from, j) != []
    {
      if j > 0 { CallsLater(w, path, from, j - 1); }
    }
    CallsLater(w, path, from, |parts|);
  }

  lemma {:induction false} IterateExact(w: World, depth: nat, path: Path, from: nat, left: nat)
    requires depth <= MAX_SUB_ORCH_DEPTH
    ensures exists parts :: Rounds(w, path, from, left, |parts|) && StartedIn(w, depth, path, from, parts)
              && Concatenates(Iterate(w, depth, path, from, left), parts)
    decreases left
  {
    CallsLater(w, path, from, 0);
    hide StartedBy, Dispatch, Concatenates;
    if left == 0 || w.calls(path, from) == [] {
      var none: seq<seq<Run>> := [];
      ConcatenatesNothing<Run>();
      assert Rounds(w, path, from, left, |none|) && StartedIn(w, depth, path, from, none);
    } else {
      IterateExact(w, depth, path, from + 1, left - 1);
      hide Rounds, StartedIn, CallsIn;
      var parts :| Rounds(w, path, from + 1, left - 1, |parts|) && StartedIn(w, depth, path, from + 1, parts)
                   && Concatenates(Iterate(w, depth, path, from + 1, left - 1), parts);
      var calls := w.calls(path, from);
      var first := Dispatch(w, depth, path, from, left, calls, 0);
      DispatchExact(w, depth, path, from, left, calls, 0);
      assert calls[0..] == calls;
      RoundsLater(w, depth, path, from, left, first, parts);
      ConcatenatesPrepend(first, Iterate(w, depth, path, from + 1, left - 1), parts);
    }
  }

  /** The workflows a run starts: iteration by iteration, until it plans no calls or reaches its limit, one for
      each call of a sub-orchestrator, in order, under that name and one level down; none below depth 3. */
  lemma RunStartsExactly(w: World, name: string, depth: nat, path: Path)
    requires depth <= MAX_SUB_ORCH_DEPTH
    ensures var run := StartRun(w, name, depth, path);
            && run.name == name && run.depth == depth
            && exists parts ::
                 Rounds(w, path, 0, w.limit(name), |parts|) && StartedIn(w, depth, path, 0, parts) && Concatenates(run.children, parts)
  {
    IterateExact(w, depth, path, 0, w.limit(name));
  }

  // ── The bound is reached ──────────────────────────────────────────────────

  /** Every run delegates `c` calls to itself in each of its `i` iterations. */
  ghost predicate Greedy(w: World, i: nat, c: nat) {
    && (forall name :: w.limit(name) == i)
    && (forall path, n :: |w.calls(path, n)| == c && forall t :: t in w.calls(path, n) ==> t.SubOrchestrator?)
  }

  lemma {:induction false} GreedyRun(w: World, name: string, depth: nat, path: Path, i: nat, c: nat)
    requires depth <= MAX_SUB_ORCH_DEPTH && Greedy(w, i, c)
    ensures Workflows([StartRun(w, name, depth, path)]) == Geometric(i * c, MAX_SUB_ORCH_DEPTH - depth)
    decreases MAX_SUB_ORCH_DEPTH - depth, w.limit(name) + 1, 0, 0
  {
    GreedyIterate(w, depth, path, 0, i, i, c);
    assert [StartRun(w, name, depth, path)][1..] == [];
  }

  lemma {:induction false} GreedyIterate(w: World, depth: nat, path: Path, iteration: nat, left: nat, i: nat, c: nat)
    requires depth <= MAX_SUB_ORCH_DEPTH && Greedy(w, i, c)
    ensures Workflows(Iterate(w, depth, path, iteration, left)) == left * c * Below(i * c, depth)
    decreases MAX_SUB_ORCH_DEPTH - depth, left, 1, 0
  {
    var below := Below(i * c, depth);
    if left > 0 && w.calls(path, iteration) != [] {
      var calls := w.calls(path, iteration);
      GreedyDispatch(w, depth, path, iteration, left, calls, 0, i, c);
      GreedyIterate(w, depth, path, iteration + 1, left - 1, i, c);
      WorkflowsAppend(Dispatch(w, depth, path, iteration, left, calls, 0), Iterate(w, depth, path, iteration + 1, left - 1));
      OneMore(left - 1, c, below);
    } else if left > 0 {
      assert |w.calls(path, iteration)| == c;
      assert c == 0 && left * c == 0;
    }
  }

  lemma {:induction false} GreedyDispatch(w: World, depth: nat, path: Path, iteration: nat, left: nat,
                                          calls: seq<Target>, k: nat, i: nat, c: nat)
    requires depth <= MAX_SUB_ORCH_DEPTH && left > 0 && k <= |calls| && Greedy(w, i, c)
    requires forall t :: t in calls ==> t.SubOrchestrator?
    ensures Workflows(Dispatch(w, depth, path, iteration, left, calls, k)) == (|calls| - k) * Below(i * c, depth)
    decreases MAX_SUB_ORCH_DEPTH - depth, left, 0, |calls| - k
  {
    if k >= |calls| {
    } else {
      var below := Below(i * c, depth);
      GreedyDispatch(w, depth, path, iteration, left, calls, k + 1, i, c);
      assert (|calls| - k) * below == (|calls| - (k + 1)) * below + below;
      if depth + 1 <= MAX_SUB_ORCH_DEPTH {
        var step := path + [(iteration, k)];
        GreedyRun(w, calls[k].name, depth + 1, step, i, c);
        WorkflowsAppend([StartRun(w, calls[k].name, depth + 1, step)],
                        Dispatch(w, depth, path, iteration, left, calls, k + 1));
      }
    }
  }
}
