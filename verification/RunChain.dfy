/** A whole run: segments chained by continue-as-new, compared with one uninterrupted loop. */
module RunChain {
  import opened Common
  import opened Messages
  import opened AgentLoop
  import Texts

  /** How a run ended and what its planning calls cost, in order. */
  datatype Tally = Tally(status: RunStatus, iterations: nat, tokens: nat, planned: seq<nat>)

  function PlanTokens(plans: seq<Plan>): seq<nat> {
    if plans == [] then [] else PlanTokens(plans[..|plans| - 1]) + [plans[|plans| - 1].tokens]
  }

  function Sum(ns: seq<nat>): nat {
    if ns == [] then 0 else ns[0] + Sum(ns[1..])
  }

  /** `rest` with `planned` spent before it. */
  function After(planned: seq<nat>, rest: Tally): Tally {
    rest.(planned := planned + rest.planned)
  }

  /** What a planning call adds to the token count. */
  function Cost(o: Outcome): nat {
    if o.plan.PlanFailed? then 0 else o.plan.tokens
  }

  /** The status with which an iteration that passed the budget gate ends the run, if it does. */
  function Verdict(o: Outcome): Option<RunStatus> {
    if o.plan.PlanFailed? then Some(FailureStatus(o.plan.failure))
    else if o.plan.toolCalls == [] then Some(RunCompleted)
    else if WaitsForHuman(o.results) && o.humanReply.None? then Some(RunFailed)
    else if o.recordFailure.Some? then Some(FailureStatus(o.recordFailure.value))
    else None
  }

  /** The loop with neither messages nor cuts. */
  function Straight(cfg: Config, turns: nat -> Outcome, iteration: nat, tokens: nat): Tally
    decreases cfg.maxIterations - iteration
  {
    if iteration >= cfg.maxIterations then Tally(RunStopped, iteration, tokens, [])
    else if OverBudget(cfg, tokens) then Tally(RunFailed, iteration + 1, tokens, [])
    else
      var cost, verdict := Cost(turns(iteration)), Verdict(turns(iteration));
      if verdict.Some? then Tally(verdict.value, iteration + 1, tokens + cost, [cost])
      else After([cost], Straight(cfg, turns, iteration + 1, tokens + cost))
  }

  /** From `st` on, the segment that ended in `end` and `last` did what the uninterrupted loop does,
      and if it was cut it made progress. */
  ghost predicate Follows(cfg: Config, turns: nat -> Outcome, st: State, end: SegmentEnd, last: State) {
    var whole := Straight(cfg, turns, st.iteration, st.tokensUsed);
    match end
    case Finished(status, iterations, tokens, _) =>
      PlanTokens(last.plans) == PlanTokens(st.plans) + whole.planned &&
      Tally(status, iterations, tokens, whole.planned) == whole
    case ContinueAsNew(iteration, tokens) =>
      st.iteration < iteration <= cfg.maxIterations &&
      var rest := Straight(cfg, turns, iteration, tokens);
      PlanTokens(st.plans) + whole.planned == PlanTokens(last.plans) + rest.planned &&
      whole == rest.(planned := whole.planned)
  }

  /** Counters, planning cost and verdict of one iteration, read off its step. */
  ghost predicate StepTallies(cfg: Config, st: State, o: Outcome, step: Step) {
    var after := EndState(step);
    && after.iteration == st.iteration + 1
    && if OverBudget(cfg, st.tokensUsed) then
         step.Stop? && step.status == RunFailed && after.tokensUsed == st.tokensUsed && after.plans == st.plans
       else
         && after.tokensUsed == st.tokensUsed + Cost(o)
         && PlanTokens(after.plans) == PlanTokens(st.plans) + [Cost(o)]
         && Verdict(o) == if step.Stop? then Some(step.status) else None
  }

  lemma AfterPlanTallies(cfg: Config, st: State, o: Outcome, cut: (nat, nat) -> bool)
    requires o.plan.Planned?
    ensures var step := AfterPlan(cfg, st, o, cut);
            && EndState(step).iteration == st.iteration
            && EndState(step).tokensUsed == st.tokensUsed + o.plan.tokens
            && EndState(step).plans == st.plans + [Plan(st.messages, st.tokensUsed, o.plan.tokens)]
            && Verdict(o) == if step.Stop? then Some(step.status) else None
  {
    hide BuildAssistantMessage, BuildToolResultsMessage, ResultBlocks, FailureStatus, WaitsForHuman, Resolved;
  }

  lemma PlanTokensSnoc(plans: seq<Plan>, p: Plan)
    ensures PlanTokens(plans + [p]) == PlanTokens(plans) + [p.tokens]
  {
    assert (plans + [p])[..|plans|] == plans;
  }

  lemma TurnTallies(cfg: Config, st: State, o: Outcome, cut: (nat, nat) -> bool)
    ensures StepTallies(cfg, st, o, Turn(cfg, st, o, cut))
  {
    hide AfterPlan, FailureStatus;
    var counted := st.(iteration := st.iteration + 1);
    if o.plan.Planned? {
      AfterPlanTallies(cfg, counted, o, cut);
      PlanTokensSnoc(st.plans, Plan(st.messages, st.tokensUsed, o.plan.tokens));
    } else {
      PlanTokensSnoc(st.plans, Plan(st.messages, st.tokensUsed, 0));
    }
  }

  lemma StepFollows(cfg: Config, turns: nat -> Outcome, st: State, step: Step, end: SegmentEnd, last: State)
    requires st.iteration < cfg.maxIterations && StepTallies(cfg, st, turns(st.iteration), step)
    requires EndOf(step).Some? ==> end == EndOf(step).value && last == EndState(step)
    requires EndOf(step).None? ==> Follows(cfg, turns, EndState(step), end, last)
    ensures Follows(cfg, turns, st, end, last)
  {
  }

  lemma {:induction false} SegmentFollowsStraight(cfg: Config, st: State, turns: nat -> Outcome, cut: (nat, nat) -> bool)
    ensures var (end, last) := Segment(cfg, st, turns, cut);
            Follows(cfg, turns, st, end, last)
    decreases cfg.maxIterations - st.iteration
  {
    if st.iteration >= cfg.maxIterations {
    } else {
      var step := Turn(cfg, st, turns(st.iteration), cut);
      SegmentStep(cfg, st, turns, cut);
      TurnTallies(cfg, st, turns(st.iteration), cut);
      if step.Proceed? { SegmentFollowsStraight(cfg, step.next, turns, cut); }
      var (end, last) := Segment(cfg, st, turns, cut);
      StepFollows(cfg, turns, st, step, end, last);
    }
  }

  /** The run as segments: each starts from whatever history was reloaded, with the carried counters. */
  function Chain(cfg: Config, goal: string, turns: nat -> Outcome, cut: (nat, nat) -> bool,
                 reloaded: nat -> seq<Message>, iteration: nat, tokens: nat): Tally
    decreases cfg.maxIterations - iteration
  {
    var opening := Opening(reloaded(iteration), goal, iteration, tokens);
    var (end, last) := Segment(cfg, opening, turns, cut);
    SegmentFollowsStraight(cfg, opening, turns, cut);
    match end
    case Finished(status, iterations, spent, _) => Tally(status, iterations, spent, PlanTokens(last.plans))
    case ContinueAsNew(iterationCarry, tokensCarry) =>
      After(PlanTokens(last.plans), Chain(cfg, goal, turns, cut, reloaded, iterationCarry, tokensCarry))
  }

  /** Main result: wherever the cuts fall and whatever is reloaded, the chain is the uninterrupted run. */
  lemma {:induction false} ChainIsStraight(cfg: Config, goal: string, turns: nat -> Outcome, cut: (nat, nat) -> bool,
                                           reloaded: nat -> seq<Message>, iteration: nat, tokens: nat)
    ensures Chain(cfg, goal, turns, cut, reloaded, iteration, tokens) == Straight(cfg, turns, iteration, tokens)
    decreases cfg.maxIterations - iteration
  {
    var opening := Opening(reloaded(iteration), goal, iteration, tokens);
    var (end, last) := Segment(cfg, opening, turns, cut);
    SegmentFollowsStraight(cfg, opening, turns, cut);
    if end.ContinueAsNew? {
      ChainIsStraight(cfg, goal, turns, cut, reloaded, end.iterationCarry, end.tokensCarry);
    }
  }

  // ── Budget ────────────────────────────────────────────────────────────────

  /** The costs add up from `tokens` on, each spent strictly below the budget. */
  ghost predicate Conserves(cfg: Config, tokens: nat, run: Tally) {
    && run.tokens == tokens + Sum(run.planned)
    && (cfg.budgetTokens.Some? ==>
          forall k :: 0 <= k < |run.planned| ==> tokens + Sum(run.planned[..k]) < cfg.budgetTokens.value)
  }

  lemma ConservesBefore(cfg: Config, tokens: nat, cost: nat, rest: Tally)
    requires Conserves(cfg, tokens + cost, rest) && !OverBudget(cfg, tokens)
    ensures Conserves(cfg, tokens, After([cost], rest))
  {
    var planned := [cost] + rest.planned;
    assert planned[1..] == rest.planned;
    forall k | 0 <= k < |planned|
      ensures cfg.budgetTokens.Some? ==> tokens + Sum(planned[..k]) < cfg.budgetTokens.value
    {
      if k > 0 { assert planned[..k][1..] == rest.planned[..k - 1]; }
    }
  }

  lemma ConservesOnce(cfg: Config, tokens: nat, cost: nat, run: Tally)
    requires run.planned == [cost] && run.tokens == tokens + cost && !OverBudget(cfg, tokens)
    ensures Conserves(cfg, tokens, run)
  {
    assert run.planned[1..] == [] && run.planned[..0] == [];
  }

  lemma {:induction false} StraightConserves(cfg: Config, turns: nat -> Outcome, iteration: nat, tokens: nat)
    ensures Conserves(cfg, tokens, Straight(cfg, turns, iteration, tokens))
    decreases cfg.maxIterations - iteration
  {
    if iteration >= cfg.maxIterations || OverBudget(cfg, tokens) {
    } else if Verdict(turns(iteration)).Some? {
      ConservesOnce(cfg, tokens, Cost(turns(iteration)), Straight(cfg, turns, iteration, tokens));
    } else {
      hide Conserves, Verdict, OverBudget;
      var cost := Cost(turns(iteration));
      StraightConserves(cfg, turns, iteration + 1, tokens + cost);
      ConservesBefore(cfg, tokens, cost, Straight(cfg, turns, iteration + 1, tokens + cost));
    }
  }

  lemma {:induction false} SumSnoc(ns: seq<nat>, n: nat)
    ensures Sum(ns + [n]) == Sum(ns) + n
  {
    if ns == [] {
    } else {
      SumSnoc(ns[1..], n);
      assert (ns + [n])[1..] == ns[1..] + [n];
    }
  }

  ghost predicate WithinBudget(cfg: Config, run: Tally) {
    && run.tokens == Sum(run.planned)
    && (cfg.budgetTokens.Some? ==>
          && (forall k :: 0 <= k < |run.planned| ==> Sum(run.planned[..k]) < cfg.budgetTokens.value)
          && (run.planned != [] ==> run.tokens < cfg.budgetTokens.value + run.planned[|run.planned| - 1]))
  }

  lemma StraightBudget(cfg: Config, turns: nat -> Outcome)
    ensures WithinBudget(cfg, Straight(cfg, turns, 0, 0))
  {
    StraightConserves(cfg, turns, 0, 0);
    var planned := Straight(cfg, turns, 0, 0).planned;
    if planned != [] {
      var k := |planned| - 1;
      SumSnoc(planned[..k], planned[k]);
      assert planned == planned[..k] + [planned[k]];
    }
  }

  /** Budget conservation over a whole chain: the total is the sum of the planned turns, each planned
      turn starts strictly below the budget, so the overshoot is less than the last turn. */
  lemma ChainBudget(cfg: Config, goal: string, turns: nat -> Outcome, cut: (nat, nat) -> bool, reloaded: nat -> seq<Message>)
    ensures WithinBudget(cfg, Chain(cfg, goal, turns, cut, reloaded, 0, 0))
  {
    ChainIsStraight(cfg, goal, turns, cut, reloaded, 0, 0);
    StraightBudget(cfg, turns);
  }

  /** However many cuts, the run takes at most its iterations (one extra count never happens). */
  lemma {:induction false} ChainIterations(cfg: Config, goal: string, turns: nat -> Outcome, cut: (nat, nat) -> bool,
                                           reloaded: nat -> seq<Message>)
    requires cfg.maxIterations >= 0
    ensures var run := Chain(cfg, goal, turns, cut, reloaded, 0, 0);
            |run.planned| <= run.iterations <= cfg.maxIterations
  {
    ChainIsStraight(cfg, goal, turns, cut, reloaded, 0, 0);
    StraightIterations(cfg, turns, 0, 0);
  }

  lemma {:induction false} StraightIterations(cfg: Config, turns: nat -> Outcome, iteration: nat, tokens: nat)
    requires iteration <= cfg.maxIterations
    ensures var run := Straight(cfg, turns, iteration, tokens);
            iteration + |run.planned| <= run.iterations <= cfg.maxIterations
    decreases cfg.maxIterations - iteration
  {
    if iteration < cfg.maxIterations && turns(iteration).plan.Planned? {
      StraightIterations(cfg, turns, iteration + 1, tokens + turns(iteration).plan.tokens);
    }
  }

  // ── The engine the workflow replaces ──────────────────────────────────────

  /** The legacy loop as a recursion: model errors fail the run, results are always recorded, nobody is asked. */
  function Legacy(cfg: Config, turns: nat -> Outcome, iteration: nat, tokens: nat): Tally
    decreases cfg.maxIterations - iteration
  {
    if iteration >= cfg.maxIterations then Tally(RunStopped, iteration, tokens, [])
    else if OverBudget(cfg, tokens) then Tally(RunFailed, iteration + 1, tokens, [])
    else
      match turns(iteration).plan
      case PlanFailed(_) => Tally(RunFailed, iteration + 1, tokens, [0])
      case Planned(calls, _, _, cost) =>
        if calls == [] then Tally(RunCompleted, iteration + 1, tokens + cost, [cost])
        else
          After([cost], Legacy(cfg, turns, iteration + 1, tokens + cost))
  }

  lemma AfterOneMore(planned: seq<nat>, cost: nat, rest: Tally)
    ensures After(planned, After([cost], rest)) == After(planned + [cost], rest)
  {
    assert planned + ([cost] + rest.planned) == planned + [cost] + rest.planned;
  }

  method LegacyRun(cfg: Config, turns: nat -> Outcome) returns (run: Tally)
    ensures run == Legacy(cfg, turns, 0, 0)
  {
    var iteration, tokensUsed: nat, planned: seq<nat> := 0, 0, [];
    while iteration < cfg.maxIterations
      invariant After(planned, Legacy(cfg, turns, iteration, tokensUsed)) == Legacy(cfg, turns, 0, 0)
      decreases cfg.maxIterations - iteration
    {
      var o := turns(iteration);
      iteration := iteration + 1;
      if cfg.budgetTokens.Some? && tokensUsed >= cfg.budgetTokens.value {
        return Tally(RunFailed, iteration, tokensUsed, planned);
      }
      if o.plan.PlanFailed? {
        return Tally(RunFailed, iteration, tokensUsed, planned + [0]);
      }
      tokensUsed := tokensUsed + o.plan.tokens;
      AfterOneMore(planned, o.plan.tokens, Legacy(cfg, turns, iteration, tokensUsed));
      planned := planned + [o.plan.tokens];
      if o.plan.toolCalls == [] {
        return Tally(RunCompleted, iteration, tokensUsed, planned);
      }
    }
    run := Tally(RunStopped, iteration, tokensUsed, planned);
  }

  /** The turn asks no human and its results are recorded: what both engines can express. */
  predicate Shared(o: Outcome) {
    !WaitsForHuman(o.results) && o.recordFailure.None?
  }

  /** On such streams the engines agree on iterations and tokens, and on the status except that the
      workflow reads a model error worded as a cancellation as one. */
  lemma {:induction false} LegacyMatchesStraight(cfg: Config, turns: nat -> Outcome, iteration: nat, tokens: nat)
    requires forall i :: Shared(turns(i))
    ensures var run := Straight(cfg, turns, iteration, tokens);
            Legacy(cfg, turns, iteration, tokens) == run.(status := if run.status == RunCanceled then RunFailed else run.status)
    decreases cfg.maxIterations - iteration
  {
    if iteration < cfg.maxIterations && turns(iteration).plan.Planned? {
      assert Shared(turns(iteration));
      LegacyMatchesStraight(cfg, turns, iteration + 1, tokens + turns(iteration).plan.tokens);
    }
  }

  /** What the first `n` turns cost. */
  function Spent(turns: nat -> Outcome, n: nat): nat {
    if n == 0 then 0 else Spent(turns, n - 1) + Cost(turns(n - 1))
  }

  /** The turn calls tools, so on a shared stream the run goes on. */
  predicate GoesOn(o: Outcome) {
    o.plan.Planned? && o.plan.toolCalls != []
  }

  /** The run reaches its `n`-th planning call, which fails in a way the workflow reads as a cancellation. */
  ghost predicate ReadsAsCanceled(cfg: Config, turns: nat -> Outcome, n: nat) {
    && n < cfg.maxIterations
    && (forall j :: 0 <= j < n ==> GoesOn(turns(j)))
    && !OverBudget(cfg, Spent(turns, n))
    && turns(n).plan.PlanFailed? && FailureStatus(turns(n).plan.failure) == RunCanceled
  }

  lemma {:induction false} SpentGrows(turns: nat -> Outcome, m: nat, n: nat)
    requires m <= n
    ensures Spent(turns, m) <= Spent(turns, n)
  {
    if m == n {
    } else {
      SpentGrows(turns, m, n - 1);
    }
  }

  /** The run stops before its `i`-th planning call fails: none does. */
  predicate StopsOtherwise(cfg: Config, turns: nat -> Outcome, i: nat) {
    i >= cfg.maxIterations || OverBudget(cfg, Spent(turns, i)) || (turns(i).plan.Planned? && !GoesOn(turns(i)))
  }

  lemma NotCanceledAt(cfg: Config, turns: nat -> Outcome, i: nat, n: nat)
    requires (forall j :: 0 <= j < i ==> GoesOn(turns(j))) && StopsOtherwise(cfg, turns, i)
    ensures !ReadsAsCanceled(cfg, turns, n)
  {
    hide FailureStatus, Spent;
    if n < i {
      assert GoesOn(turns(n));
    } else {
      SpentGrows(turns, i, n);
    }
  }

  lemma NeverCanceled(cfg: Config, turns: nat -> Outcome, i: nat)
    requires (forall j :: 0 <= j < i ==> GoesOn(turns(j))) && StopsOtherwise(cfg, turns, i)
    ensures forall n :: !ReadsAsCanceled(cfg, turns, n)
  {
    forall n: nat
      ensures !ReadsAsCanceled(cfg, turns, n)
    {
      NotCanceledAt(cfg, turns, i, n);
    }
  }

  lemma {:induction false} CanceledIff(cfg: Config, turns: nat -> Outcome, i: nat)
    requires forall j :: Shared(turns(j))
    requires forall j :: 0 <= j < i ==> GoesOn(turns(j))
    ensures Straight(cfg, turns, i, Spent(turns, i)).status == RunCanceled <==> exists n :: ReadsAsCanceled(cfg, turns, n)
    decreases cfg.maxIterations - i
  {
    if i >= cfg.maxIterations || OverBudget(cfg, Spent(turns, i)) {
      NeverCanceled(cfg, turns, i);
    } else {
      var o := turns(i);
      assert Shared(o);
      if GoesOn(o) {
        CanceledIff(cfg, turns, i + 1);
      } else if o.plan.Planned? {
        NeverCanceled(cfg, turns, i);
      } else {
        FailsHere(cfg, turns, i);
      }
    }
  }

  lemma FailsHere(cfg: Config, turns: nat -> Outcome, i: nat)
    requires forall j :: 0 <= j < i ==> GoesOn(turns(j))
    requires i < cfg.maxIterations && !OverBudget(cfg, Spent(turns, i)) && turns(i).plan.PlanFailed?
    ensures FailureStatus(turns(i).plan.failure) == RunCanceled <==> exists n :: ReadsAsCanceled(cfg, turns, n)
  {
    hide FailureStatus, OverBudget;
    if FailureStatus(turns(i).plan.failure) == RunCanceled { assert ReadsAsCanceled(cfg, turns, i); }
    forall n: nat | ReadsAsCanceled(cfg, turns, n)
      ensures n == i
    {
      assert n < i ==> GoesOn(turns(n));
      assert i < n ==> GoesOn(turns(i));
    }
  }

  /** Main result: on streams both engines can express, any chain of segments agrees with the legacy engine on
      iterations, tokens and turns, and on the status exactly unless some planning call the run reaches within
      budget fails with a cancellation or an error worded like one. */
  lemma ChainMatchesLegacy(cfg: Config, goal: string, turns: nat -> Outcome, cut: (nat, nat) -> bool, reloaded: nat -> seq<Message>)
    requires forall i :: Shared(turns(i))
    ensures var run, legacy := Chain(cfg, goal, turns, cut, reloaded, 0, 0), Legacy(cfg, turns, 0, 0);
            && legacy.(status := run.status) == run
            && (legacy == run <==> !exists n :: ReadsAsCanceled(cfg, turns, n))
  {
    ChainIsStraight(cfg, goal, turns, cut, reloaded, 0, 0);
    LegacyMatchesStraight(cfg, turns, 0, 0);
    CanceledIff(cfg, turns, 0);
  }

  /** The model provider's own error text, nobody having canceled anything. */
  const PROVIDER_ERROR := "LLM error: canceled"

  /** A concrete stream on which the engines differ: one model error whose text contains "cancel". */
  lemma ModelErrorReadAsCancellation(cfg: Config, goal: string, cut: (nat, nat) -> bool, reloaded: nat -> seq<Message>)
    requires cfg.maxIterations > 0 && cfg.budgetTokens.None?
    ensures var turns := (i: nat) => Outcome(PlanFailed(Failure(false, PROVIDER_ERROR)), [], None, None);
            && Chain(cfg, goal, turns, cut, reloaded, 0, 0).status == RunCanceled
            && Legacy(cfg, turns, 0, 0).status == RunFailed
  {
    var turns := (i: nat) => Outcome(PlanFailed(Failure(false, PROVIDER_ERROR)), [], None, None);
    MentionsIt();
    ChainIsStraight(cfg, goal, turns, cut, reloaded, 0, 0);
  }

  lemma MentionsIt()
    ensures MentionsCancel(PROVIDER_ERROR)
  {
    MentionsLater(PROVIDER_ERROR, 11);
    assert PROVIDER_ERROR[11..] == "canceled" && "canceled"[..6] == "cancel";
    assert Texts.Lower("cancel") == "cancel";
  }

  lemma {:induction false} MentionsLater(text: string, k: nat)
    requires k <= |text|
    ensures MentionsCancel(text[k..]) ==> MentionsCancel(text)
  {
    if k == 0 {
      assert text[0..] == text;
    } else {
      assert text[k..] == text[1..][k - 1..];
      MentionsLater(text[1..], k - 1);
    }
  }
}
