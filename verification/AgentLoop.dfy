/** One segment of the orchestration workflow: the agentic loop between two continue-as-new cuts. */
module AgentLoop {
  import opened Common
  import opened Messages
  import opened Compaction
  import opened Texts
  import History

  datatype ToolCall = ToolCall(id: ToolId, name: string, input: Json)

  datatype AgentStatus = Completed | Failed | InputRequired

  datatype AgentResult = AgentResult(status: AgentStatus, text: string)

  /** An activity that gave up; cancellation is recognised by type or by the wording of the cause. */
  datatype Failure = Failure(cancelled: bool, cause: string)

  datatype PlanOutcome =
    | Planned(toolCalls: seq<ToolCall>, turn: Option<Content>, finalAnswer: Option<string>, tokens: nat)
    | PlanFailed(failure: Failure)

  /** Everything the outside world answers during one iteration. */
  datatype Outcome = Outcome(
    plan: PlanOutcome,
    results: seq<AgentResult>,
    humanReply: Option<string>,
    recordFailure: Option<Failure>)

  datatype Config = Config(maxIterations: int, budgetTokens: Option<int>, codec: Codec)

  datatype RunStatus = RunCompleted | RunFailed | RunStopped | RunCanceled

  datatype SegmentEnd =
    | Finished(status: RunStatus, iterations: nat, tokens: nat, answer: Option<string>)
    | ContinueAsNew(iterationCarry: nat, tokensCarry: nat)

  /** A call of the planning activity: what it was given and what it cost. */
  datatype Plan = Plan(messages: seq<Message>, tokensBefore: nat, tokens: nat)

  /** Workflow state together with the attempted row writes and planning calls so far. */
  datatype State = State(
    messages: seq<Message>,
    tokensUsed: nat,
    iteration: nat,
    msgSeq: nat,
    rows: seq<History.Row>,
    plans: seq<Plan>)

  datatype Step =
    | Proceed(next: State)
    | Restart(carry: State)
    | Stop(status: RunStatus, answer: Option<string>, last: State)

  /** The lowered text contains "cancel" somewhere. */
  predicate MentionsCancel(text: string) {
    |text| >= 6 && (Lower(text[..6]) == "cancel" || MentionsCancel(text[1..]))
  }

  function FailureStatus(failure: Failure): RunStatus {
    if failure.cancelled || MentionsCancel(failure.cause) then RunCanceled else RunFailed
  }

  function CallIds(calls: seq<ToolCall>): seq<ToolId> {
    if calls == [] then [] else [calls[0].id] + CallIds(calls[1..])
  }

  function BuildAssistantMessage(turn: Content): (m: Message)
    ensures m.role == Assistant && Answered(m) == []
    ensures Asked(m) == if turn.Blocks? then UseIds(turn.blocks) else []
  {
    Message(Assistant, if turn.Blocks? then Blocks(SlimToolUseInputs(turn.blocks)) else turn)
  }

  /** Results zipped back to the calls that asked for them, in full. */
  function ResultBlocks(calls: seq<ToolCall>, results: seq<AgentResult>): (blocks: seq<Block>)
    ensures forall b :: b in blocks ==> b.ToolResult?
    ensures |results| == |calls| ==> ResultIds(blocks) == CallIds(calls)
  {
    if calls == [] || results == [] then []
    else [ToolResult(calls[0].id, results[0].text)] + ResultBlocks(calls[1..], results[1..])
  }

  function BuildToolResultsMessage(codec: Codec, calls: seq<ToolCall>, results: seq<AgentResult>): Message {
    Message(User, Blocks(CompactResults(codec, ResultBlocks(calls, results))))
  }

  predicate WaitsForHuman(results: seq<AgentResult>) {
    exists r :: r in results && r.status.InputRequired?
  }

  function WithReply(results: seq<AgentResult>, reply: string): (resolved: seq<AgentResult>)
    ensures |resolved| == |results| && !WaitsForHuman(resolved)
    ensures forall k :: 0 <= k < |results| ==>
      resolved[k] == if results[k].status.InputRequired? then AgentResult(Completed, reply) else results[k]
  {
    if results == [] then []
    else
      var rest := WithReply(results[1..], reply);
      var first := if results[0].status.InputRequired? then AgentResult(Completed, reply) else results[0];
      [first] + rest
  }

  predicate OverBudget(cfg: Config, tokensUsed: nat) {
    cfg.budgetTokens.Some? && tokensUsed >= cfg.budgetTokens.value
  }

  /** When the event history has grown too long: (messages, iteration). */
  predicate HistoryTooLong(messages: nat, iteration: nat) {
    messages > 200 || iteration >= 50
  }

  function WithPlan(st: State, tokens: nat): State {
    st.(tokensUsed := st.tokensUsed + tokens, plans := st.plans + [Plan(st.messages, st.tokensUsed, tokens)])
  }

  /** The assistant turn joins the planner's messages slimmed and the row table as it came. */
  function WithTurn(st: State, turn: Option<Content>): State {
    if turn.None? then st
    else st.(
      messages := st.messages + [BuildAssistantMessage(turn.value)],
      rows := st.rows + [History.Row(History.AgentRow, turn.value, st.msgSeq)],
      msgSeq := st.msgSeq + 1)
  }

  /** State after planning call and assistant turn, the iteration already counted. */
  function Told(st: State, o: Outcome): State
    requires o.plan.Planned?
  {
    WithTurn(WithPlan(st, o.plan.tokens), o.plan.turn)
  }

  function WithResults(cfg: Config, st: State, calls: seq<ToolCall>, results: seq<AgentResult>): State {
    st.(
      messages := st.messages + [BuildToolResultsMessage(cfg.codec, calls, results)],
      rows := st.rows + [History.Row(History.UserRow, Blocks(ResultBlocks(calls, results)), st.msgSeq)])
  }

  /** The results once a human has spoken for the agents that asked for input. */
  function Resolved(o: Outcome): seq<AgentResult> {
    if WaitsForHuman(o.results) && o.humanReply.Some? then WithReply(o.results, o.humanReply.value) else o.results
  }

  /** Everything from the tool results on. */
  function AfterResults(cfg: Config, st: State, o: Outcome, cut: (nat, nat) -> bool): Step
    requires o.plan.Planned?
  {
    if WaitsForHuman(o.results) && o.humanReply.None? then Stop(RunFailed, None, st)
    else
      var answered := WithResults(cfg, st, o.plan.toolCalls, Resolved(o));
      if o.recordFailure.Some? then Stop(FailureStatus(o.recordFailure.value), None, answered)
      else
        var next := answered.(msgSeq := answered.msgSeq + 1);
        if cut(|next.messages|, next.iteration) then Restart(next) else Proceed(next)
  }

  /** Everything from the planning call on, in an iteration already counted. */
  function AfterPlan(cfg: Config, st: State, o: Outcome, cut: (nat, nat) -> bool): Step
    requires o.plan.Planned?
  {
    var p := o.plan;
    var told := Told(st, o);
    if p.toolCalls == [] then Stop(RunCompleted, p.finalAnswer, told)
    else AfterResults(cfg, told, o, cut)
  }

  /** One pass of the loop body. */
  function Turn(cfg: Config, st: State, o: Outcome, cut: (nat, nat) -> bool): Step {
    var counted := st.(iteration := st.iteration + 1);
    if OverBudget(cfg, st.tokensUsed) then Stop(RunFailed, None, counted)
    else if o.plan.PlanFailed? then
      Stop(FailureStatus(o.plan.failure), None, counted.(plans := st.plans + [Plan(st.messages, st.tokensUsed, 0)]))
    else AfterPlan(cfg, counted, o, cut)
  }

  /** The loop as a recursion: how the segment ends, and in what state. */
  function Segment(cfg: Config, st: State, turns: nat -> Outcome, cut: (nat, nat) -> bool): (SegmentEnd, State)
    decreases cfg.maxIterations - st.iteration
  {
    if st.iteration >= cfg.maxIterations then (Finished(RunStopped, st.iteration, st.tokensUsed, None), st)
    else
      match Turn(cfg, st, turns(st.iteration), cut)
      case Proceed(next) => Segment(cfg, next, turns, cut)
      case Restart(carry) => (ContinueAsNew(carry.iteration, carry.tokensUsed), carry)
      case Stop(status, answer, last) => (Finished(status, last.iteration, last.tokensUsed, answer), last)
  }

  /** A fresh segment: history reloaded, counters carried over, the user row written. */
  function Opening(prior: seq<Message>, userMessage: string, iterationCarry: nat, tokensCarry: nat): State {
    State(prior + [UserText(userMessage)], tokensCarry, iterationCarry, 1,
          [History.Row(History.UserRow, Text(userMessage), 0)], [])
  }

  /** How a step ends the segment, if it does. */
  function EndOf(step: Step): Option<SegmentEnd> {
    match step
    case Proceed(_) => None
    case Restart(carry) => Some(ContinueAsNew(carry.iteration, carry.tokensUsed))
    case Stop(status, answer, last) => Some(Finished(status, last.iteration, last.tokensUsed, answer))
  }

  lemma SegmentStep(cfg: Config, st: State, turns: nat -> Outcome, cut: (nat, nat) -> bool)
    requires st.iteration < cfg.maxIterations
    ensures var step := Turn(cfg, st, turns(st.iteration), cut);
            Segment(cfg, st, turns, cut) ==
            if EndOf(step).Some? then (EndOf(step).value, EndState(step)) else Segment(cfg, EndState(step), turns, cut)
  {
  }

  class OrchestrationWorkflow {
    var messages: seq<Message>
    var tokensUsed: nat
    var iteration: nat
    var msgSeq: nat
    var humanResponse: Option<string>
    // What the activities were asked to do.
    var rows: seq<History.Row>
    var plans: seq<Plan>

    constructor ()
      ensures Current() == State([], 0, 0, 1, [], [])
    {
      messages, tokensUsed, iteration, msgSeq, humanResponse := [], 0, 0, 1, None;
      rows, plans := [], [];
    }

    function Current(): State
      reads this
    {
      State(messages, tokensUsed, iteration, msgSeq, rows, plans)
    }

    /** Loop body up to the tool calls: budget gate, planning call, assistant turn. */
    method PlanTurn(cfg: Config, o: Outcome) returns (end: Option<SegmentEnd>)
      modifies this
      ensures end.Some? ==>
        !(o.plan.Planned? && o.plan.toolCalls != [] && !OverBudget(cfg, old(tokensUsed))) &&
        Current() == EndState(Turn(cfg, old(Current()), o, HistoryTooLong)) &&
        end == EndOf(Turn(cfg, old(Current()), o, HistoryTooLong))
      ensures end.None? ==>
        o.plan.Planned? && o.plan.toolCalls != [] && !OverBudget(cfg, old(tokensUsed)) &&
        Current() == Told(old(Current()).(iteration := old(iteration) + 1), o)
    {
      iteration := iteration + 1;
      if cfg.budgetTokens.Some? && tokensUsed >= cfg.budgetTokens.value {
        return Some(Finished(RunFailed, iteration, tokensUsed, None));
      }
      match o.plan {
        case PlanFailed(failure) =>
          plans := plans + [Plan(messages, tokensUsed, 0)];
          end := Some(Finished(FailureStatus(failure), iteration, tokensUsed, None));
        case Planned(toolCalls, turn, finalAnswer, tokens) =>
          plans := plans + [Plan(messages, tokensUsed, tokens)];
          tokensUsed := tokensUsed + tokens;
          if turn.Some? {
            rows := rows + [History.Row(History.AgentRow, turn.value, msgSeq)];
            msgSeq := msgSeq + 1;
            messages := messages + [BuildAssistantMessage(turn.value)];
          }
          end := if toolCalls == [] then Some(Finished(RunCompleted, iteration, tokensUsed, finalAnswer)) else None;
      }
    }

    /** Loop body from the tool results on: human input, results message, row write, history cut. */
    method HandleResults(cfg: Config, o: Outcome) returns (end: Option<SegmentEnd>)
      requires o.plan.Planned?
      modifies this
      ensures var step := AfterResults(cfg, old(Current()), o, HistoryTooLong);
              Current() == EndState(step) && end == EndOf(step)
    {
      hide WaitsForHuman, WithReply, ResultBlocks, BuildToolResultsMessage, FailureStatus;
      var results := o.results;
      if WaitsForHuman(results) {
        humanResponse := o.humanReply;
        if humanResponse.None? {
          return Some(Finished(RunFailed, iteration, tokensUsed, None));
        }
        results := WithReply(results, humanResponse.value);
        humanResponse := None;
      }
      messages := messages + [BuildToolResultsMessage(cfg.codec, o.plan.toolCalls, results)];
      rows := rows + [History.Row(History.UserRow, Blocks(ResultBlocks(o.plan.toolCalls, results)), msgSeq)];
      assert Current() == WithResults(cfg, old(Current()), o.plan.toolCalls, Resolved(o));
      if o.recordFailure.Some? {
        return Some(Finished(FailureStatus(o.recordFailure.value), iteration, tokensUsed, None));
      }
      msgSeq := msgSeq + 1;
      end := if |messages| > 200 || iteration >= 50 then Some(ContinueAsNew(iteration, tokensUsed)) else None;
    }

    method Iterate(cfg: Config, o: Outcome) returns (end: Option<SegmentEnd>)
      modifies this
      ensures var step := Turn(cfg, old(Current()), o, HistoryTooLong);
              Current() == EndState(step) && end == EndOf(step)
    {
      hide AfterResults, Told, EndState, EndOf, OverBudget, FailureStatus;
      end := PlanTurn(cfg, o);
      if end.None? {
        end := HandleResults(cfg, o);
      }
    }

    method Run(cfg: Config, priorHistory: seq<Message>, userMessage: string,
               iterationCarry: nat, tokensCarry: nat, turns: nat -> Outcome)
      returns (end: SegmentEnd)
      requires plans == []
      modifies this
      ensures (end, Current()) ==
              Segment(cfg, Opening(priorHistory, userMessage, iterationCarry, tokensCarry), turns, HistoryTooLong)
    {
      hide Turn, EndState, EndOf;
      tokensUsed, iteration := tokensCarry, iterationCarry;
      messages := priorHistory + [UserText(userMessage)];
      rows := [History.Row(History.UserRow, Text(userMessage), 0)];
      msgSeq := 1;
      ghost var opening := Current();
      while iteration < cfg.maxIterations
        invariant Segment(cfg, Current(), turns, HistoryTooLong) == Segment(cfg, opening, turns, HistoryTooLong)
        decreases cfg.maxIterations - iteration
      {
        SegmentStep(cfg, Current(), turns, HistoryTooLong);
        StepPlans(cfg, Current(), turns(iteration), HistoryTooLong);
        var ended := Iterate(cfg, turns(iteration));
        if ended.Some? {
          return ended.value;
        }
      }
      end := Finished(RunStopped, iteration, tokensUsed, None);
    }
  }

  // ── What is recorded and what is shown ────────────────────────────────────

  /** The lowered text spells "cancel" from here on. */
  predicate CancelAt(text: string, i: int) {
    0 <= i && i + 6 <= |text| && Lower(text[i..i + 6]) == "cancel"
  }

  lemma {:induction false} MentionsCancelIff(text: string)
    ensures MentionsCancel(text) <==> exists i :: CancelAt(text, i)
  {
    if |text| < 6 {
    } else {
      MentionsCancelIff(text[1..]);
      assert text[0..6] == text[..6];
      if i :| CancelAt(text, i) {
        if i > 0 { CancelBehind(text, i - 1); }
      }
      if MentionsCancel(text[1..]) {
        var i :| CancelAt(text[1..], i);
        CancelBehind(text, i);
      } else if MentionsCancel(text) {
        assert CancelAt(text, 0);
      }
    }
  }

  lemma CancelBehind(text: string, i: int)
    requires text != "" && 0 <= i
    ensures CancelAt(text[1..], i) == CancelAt(text, i + 1)
  {
    if i + 7 <= |text| { assert text[1..][i..i + 6] == text[i + 1..i + 7]; }
  }

  /** A failure counts as a cancellation by its type, or if its cause mentions one anywhere, in any case. */
  ghost predicate MeansCancel(failure: Failure) {
    failure.cancelled || exists i :: CancelAt(failure.cause, i)
  }

  lemma FailureStatusExact(failure: Failure)
    ensures FailureStatus(failure) == if MeansCancel(failure) then RunCanceled else RunFailed
  {
    MentionsCancelIff(failure.cause);
  }

  /** The text of result `k`, a waiting one replaced by the human's reply. */
  function FullText(o: Outcome, k: nat): string
    requires k < |o.results|
  {
    if o.results[k].status.InputRequired? && o.humanReply.Some? then o.humanReply.value else o.results[k].text
  }

  /** A full record of the results: each call's id with the whole text. */
  ghost predicate RecordsResults(o: Outcome, full: seq<Block>)
    requires o.plan.Planned?
  {
    && |full| == (if |o.plan.toolCalls| <= |o.results| then |o.plan.toolCalls| else |o.results|)
    && forall k :: 0 <= k < |full| ==> full[k] == ToolResult(o.plan.toolCalls[k].id, FullText(o, k))
  }

  /** What the planner is shown of the results: each call's id with the text as compaction leaves it. */
  ghost predicate ShowsResults(codec: Codec, full: seq<Block>, m: Message) {
    && m.role == User && m.content.Blocks? && |m.content.blocks| == |full|
    && forall k :: 0 <= k < |full| ==> ShowsResult(codec, full[k], m.content.blocks[k])
  }

  ghost predicate ShowsResult(codec: Codec, full: Block, shown: Block) {
    full.ToolResult? && shown.ToolResult? && shown.toolUseId == full.toolUseId && ShownAs(codec, full.content, shown.content)
  }

  /** What the planner is shown of its own turn: text as it is, blocks slimmed. */
  ghost predicate ShowsTurn(turn: Content, m: Message) {
    && m.role == Assistant
    && match turn
       case Text(_) => m.content == turn
       case Blocks(blocks) =>
         && m.content.Blocks? && |m.content.blocks| == |blocks|
         && forall k :: 0 <= k < |blocks| ==> BlockSlimmed(blocks[k], m.content.blocks[k])
  }

  lemma AssistantMessageShows(turn: Content)
    ensures ShowsTurn(turn, BuildAssistantMessage(turn))
  {
    if turn.Blocks? {
      forall k | 0 <= k < |turn.blocks|
        ensures BlockSlimmed(turn.blocks[k], SlimToolUseInputs(turn.blocks)[k])
      {
        SlimmedExactly(turn.blocks, k);
      }
    }
  }

  lemma {:induction false} ResultBlocksAre(calls: seq<ToolCall>, results: seq<AgentResult>)
    ensures var blocks := ResultBlocks(calls, results);
            && |blocks| == (if |calls| <= |results| then |calls| else |results|)
            && forall k :: 0 <= k < |blocks| ==> blocks[k] == ToolResult(calls[k].id, results[k].text)
  {
    if calls == [] || results == [] {
    } else {
      ResultBlocksAre(calls[1..], results[1..]);
    }
  }

  lemma ResultsMessageShows(codec: Codec, calls: seq<ToolCall>, results: seq<AgentResult>)
    ensures ShowsResults(codec, ResultBlocks(calls, results), BuildToolResultsMessage(codec, calls, results))
  {
    var full := ResultBlocks(calls, results);
    forall k | 0 <= k < |full|
      ensures ShowsResult(codec, full[k], CompactResults(codec, full)[k])
    {
      assert full[k] in full;
      CompactedContents(codec, full, k);
    }
  }

  /** Block `k` of the results message answers call `k` with what may be shown of result `k`. */
  lemma ResultsMessageExact(codec: Codec, calls: seq<ToolCall>, results: seq<AgentResult>, k: nat)
    requires k < |calls| && k < |results|
    ensures var m := BuildToolResultsMessage(codec, calls, results);
            && m.role == User && m.content.Blocks?
            && |m.content.blocks| == (if |calls| <= |results| then |calls| else |results|)
            && m.content.blocks[k].ToolResult? && m.content.blocks[k].toolUseId == calls[k].id
            && ShownAs(codec, results[k].text, m.content.blocks[k].content)
  {
    ResultBlocksAre(calls, results);
    ResultsMessageShows(codec, calls, results);
    hide ShownAs, BuildToolResultsMessage;
    assert ShowsResult(codec, ResultBlocks(calls, results)[k], BuildToolResultsMessage(codec, calls, results).content.blocks[k]);
  }

  /** A short plain answer reaches the planner as it is. */
  lemma PlainAnswerIsShown(codec: Codec, calls: seq<ToolCall>, results: seq<AgentResult>, k: nat)
    requires k < |calls| && k < |results| && |results[k].text| <= 2000
    requires var stripped := Strip(results[k].text); stripped == "" || stripped[0] !in {'{', '['}
    ensures var m := BuildToolResultsMessage(codec, calls, results);
            m.content.Blocks? && k < |m.content.blocks| && m.content.blocks[k] == ToolResult(calls[k].id, results[k].text)
  {
    ResultsMessageExact(codec, calls, results, k);
    hide BuildToolResultsMessage, Strip;
    assert ReadsAsPlain(codec, results[k].text);
  }

  lemma ResolvedAre(o: Outcome, k: nat)
    requires k < |o.results|
    ensures |Resolved(o)| == |o.results| && Resolved(o)[k].text == FullText(o, k)
  {
  }

  /** The rows and messages an iteration that goes on adds. */
  ghost predicate Recorded(cfg: Config, st: State, o: Outcome, next: State, full: seq<Block>, reply: Message)
    requires o.plan.Planned?
  {
    && RecordsResults(o, full) && ShowsResults(cfg.codec, full, reply)
    && match o.plan.turn
       case None =>
         && next.rows == st.rows + [History.Row(History.UserRow, Blocks(full), st.msgSeq)]
         && next.messages == st.messages + [reply]
       case Some(turn) =>
         && next.rows == st.rows + [History.Row(History.AgentRow, turn, st.msgSeq), History.Row(History.UserRow, Blocks(full), st.msgSeq + 1)]
         && |next.messages| == |st.messages| + 2 && next.messages == st.messages + [next.messages[|st.messages|], reply]
         && ShowsTurn(turn, next.messages[|st.messages|])
  }

  /** Main result: an iteration that goes on writes the turn and all results in full, whatever size they have, and
      shows the planner the turn slimmed and each result compacted, in the calls' order. */
  lemma TurnRecords(cfg: Config, st: State, o: Outcome, cut: (nat, nat) -> bool)
    ensures var step := Turn(cfg, st, o, cut);
            !step.Stop? ==>
              && o.plan.Planned? && o.plan.toolCalls != []
              && exists full, reply :: Recorded(cfg, st, o, EndState(step), full, reply)
  {
    hide *;
    StepMessages(cfg, st, o, cut);
    StepWrites(cfg, st, o, cut);
    if !Turn(cfg, st, o, cut).Stop? {
      ResultsRecorded(o);
      ResultsMessageShows(cfg.codec, o.plan.toolCalls, Resolved(o));
      if o.plan.turn.Some? { AssistantMessageShows(o.plan.turn.value); }
      RecordedBy(cfg, st, o, EndState(Turn(cfg, st, o, cut)));
    }
  }

  lemma RecordedBy(cfg: Config, st: State, o: Outcome, next: State)
    requires o.plan.Planned?
    requires var full := ResultBlocks(o.plan.toolCalls, Resolved(o));
             var reply := BuildToolResultsMessage(cfg.codec, o.plan.toolCalls, Resolved(o));
             && RecordsResults(o, full) && ShowsResults(cfg.codec, full, reply)
             && next.rows == st.rows + (match o.plan.turn
                  case None => [History.Row(History.UserRow, Blocks(full), st.msgSeq)]
                  case Some(turn) => [History.Row(History.AgentRow, turn, st.msgSeq), History.Row(History.UserRow, Blocks(full), st.msgSeq + 1)])
             && next.messages == st.messages + (if o.plan.turn.Some? then [BuildAssistantMessage(o.plan.turn.value), reply] else [reply])
    requires o.plan.turn.Some? ==> ShowsTurn(o.plan.turn.value, BuildAssistantMessage(o.plan.turn.value))
    ensures exists full, reply :: Recorded(cfg, st, o, next, full, reply)
  {
    hide ResultBlocks, Resolved, RecordsResults, ShowsResults, ShowsTurn, BuildAssistantMessage, BuildToolResultsMessage;
    assert Recorded(cfg, st, o, next, ResultBlocks(o.plan.toolCalls, Resolved(o)),
                    BuildToolResultsMessage(cfg.codec, o.plan.toolCalls, Resolved(o)));
  }

  lemma ResultsRecorded(o: Outcome)
    requires o.plan.Planned?
    ensures RecordsResults(o, ResultBlocks(o.plan.toolCalls, Resolved(o)))
  {
    ResultBlocksAre(o.plan.toolCalls, Resolved(o));
    hide Resolved, ResultBlocks, FullText;
    ResolvedSize(o);
    forall k | 0 <= k < |o.results|
      ensures Resolved(o)[k].text == FullText(o, k)
    {
      ResolvedAre(o, k);
    }
  }

  lemma StepWrites(cfg: Config, st: State, o: Outcome, cut: (nat, nat) -> bool)
    ensures var step := Turn(cfg, st, o, cut);
            !step.Stop? ==>
              && o.plan.Planned?
              && var full := ResultBlocks(o.plan.toolCalls, Resolved(o));
              EndState(step).rows == st.rows + match o.plan.turn
                case None => [History.Row(History.UserRow, Blocks(full), st.msgSeq)]
                case Some(turn) => [History.Row(History.AgentRow, turn, st.msgSeq), History.Row(History.UserRow, Blocks(full), st.msgSeq + 1)]
  {
    hide BuildAssistantMessage, BuildToolResultsMessage, ResultBlocks, FailureStatus, WaitsForHuman, Resolved, OverBudget;
  }

  /** The turn that answers is written and shown like any other. */
  lemma FinalTurnRecorded(cfg: Config, st: State, o: Outcome, cut: (nat, nat) -> bool)
    requires Turn(cfg, st, o, cut).Stop? && Turn(cfg, st, o, cut).status == RunCompleted
    ensures var last := Turn(cfg, st, o, cut).last;
            o.plan.Planned? && match o.plan.turn
              case None => last.rows == st.rows && last.messages == st.messages
              case Some(turn) =>
                && last.rows == st.rows + [History.Row(History.AgentRow, turn, st.msgSeq)]
                && exists shown :: last.messages == st.messages + [shown] && ShowsTurn(turn, shown)
  {
    if o.plan.Planned? && o.plan.turn.Some? { AssistantMessageShows(o.plan.turn.value); }
    hide BuildAssistantMessage, BuildToolResultsMessage, ResultBlocks, WaitsForHuman, Resolved, OverBudget, ShowsTurn;
  }

  lemma StepGrows(cfg: Config, st: State, o: Outcome, cut: (nat, nat) -> bool)
    ensures st.rows <= EndState(Turn(cfg, st, o, cut)).rows
  {
    hide BuildAssistantMessage, BuildToolResultsMessage, ResultBlocks, FailureStatus, WaitsForHuman, Resolved, OverBudget;
  }

  lemma {:induction false} SegmentGrows(cfg: Config, st: State, turns: nat -> Outcome, cut: (nat, nat) -> bool)
    ensures st.rows <= Segment(cfg, st, turns, cut).1.rows
    decreases cfg.maxIterations - st.iteration
  {
    if st.iteration >= cfg.maxIterations {
    } else {
      hide Turn;
      var step := Turn(cfg, st, turns(st.iteration), cut);
      SegmentStep(cfg, st, turns, cut);
      StepGrows(cfg, st, turns(st.iteration), cut);
      if step.Proceed? { SegmentGrows(cfg, step.next, turns, cut); }
    }
  }

  /** The first planning call sees the reloaded history and then what the user said; this is also the first row. */
  lemma RunOpens(cfg: Config, prior: seq<Message>, goal: string, iterationCarry: nat, tokensCarry: nat,
                 turns: nat -> Outcome, cut: (nat, nat) -> bool)
    ensures var end := Segment(cfg, Opening(prior, goal, iterationCarry, tokensCarry), turns, cut).1;
            && (end.plans != [] ==> end.plans[0].messages == prior + [Message(User, Text(goal))])
            && end.rows != [] && end.rows[0] == History.Row(History.UserRow, Text(goal), 0)
  {
    var opening := Opening(prior, goal, iterationCarry, tokensCarry);
    SegmentPlans(cfg, opening, turns, cut);
    SegmentGrows(cfg, opening, turns, cut);
  }

  // ── How a run ends ────────────────────────────────────────────────────────

  ghost predicate SomeoneWaits(o: Outcome) {
    exists k :: 0 <= k < |o.results| && o.results[k].status == InputRequired
  }

  /** Why an iteration ends the run, and with what: the budget was used up before it, planning failed, the planner
      called no tool, an agent's question stayed without a reply, or the results could not be recorded. */
  ghost predicate EndsRun(cfg: Config, o: Outcome, tokensBefore: nat, status: RunStatus, answer: Option<string>) {
    if cfg.budgetTokens.Some? && tokensBefore >= cfg.budgetTokens.value then
      status == RunFailed && answer == None
    else match o.plan
      case PlanFailed(failure) => status == (if MeansCancel(failure) then RunCanceled else RunFailed) && answer == None
      case Planned(calls, _, finalAnswer, _) =>
        if calls == [] then status == RunCompleted && answer == finalAnswer
        else if SomeoneWaits(o) && o.humanReply == None then status == RunFailed && answer == None
        else o.recordFailure.Some? && status == (if MeansCancel(o.recordFailure.value) then RunCanceled else RunFailed) && answer == None
  }

  lemma TurnEnds(cfg: Config, st: State, o: Outcome, cut: (nat, nat) -> bool)
    ensures var step := Turn(cfg, st, o, cut);
            if step.Stop? then EndsRun(cfg, o, st.tokensUsed, step.status, step.answer)
            else forall status, answer :: !EndsRun(cfg, o, st.tokensUsed, status, answer)
  {
    if o.plan.PlanFailed? { FailureStatusExact(o.plan.failure); }
    if o.recordFailure.Some? { FailureStatusExact(o.recordFailure.value); }
    assert WaitsForHuman(o.results) <==> SomeoneWaits(o);
    hide FailureStatus, WaitsForHuman, SomeoneWaits, MeansCancel, Resolved, Told, WithResults;
  }

  lemma TurnTokens(cfg: Config, st: State, o: Outcome, cut: (nat, nat) -> bool)
    ensures var step := Turn(cfg, st, o, cut);
            && EndState(step).iteration == st.iteration + 1
            && EndState(step).tokensUsed ==
               st.tokensUsed + if o.plan.Planned? && !OverBudget(cfg, st.tokensUsed) then o.plan.tokens else 0
  {
    hide BuildAssistantMessage, BuildToolResultsMessage, ResultBlocks, FailureStatus, WaitsForHuman, Resolved, OverBudget;
  }

  /** The tokens of the turns from `i` up to `j`. */
  function TokensOf(turns: nat -> Outcome, i: nat, j: nat): nat
    requires i <= j
  {
    if i == j then 0 else TokensOf(turns, i, j - 1) + if turns(j - 1).plan.Planned? then turns(j - 1).plan.tokens else 0
  }

  /** The tokens used before iteration `i`, counting from a state. */
  function TokensBefore(st: State, turns: nat -> Outcome, i: nat): nat
    requires st.iteration <= i
  {
    st.tokensUsed + TokensOf(turns, st.iteration, i)
  }

  ghost predicate EndsAt(cfg: Config, st: State, turns: nat -> Outcome, i: nat, status: RunStatus, answer: Option<string>)
    requires st.iteration <= i
  {
    EndsRun(cfg, turns(i), TokensBefore(st, turns, i), status, answer)
  }

  /** No iteration before `n` gives a reason to end. */
  ghost predicate GoesOnUntil(cfg: Config, st: State, turns: nat -> Outcome, n: nat) {
    forall i, status, answer :: st.iteration <= i < n ==> !EndsAt(cfg, st, turns, i, status, answer)
  }

  /** Stopped at the iteration limit, cut, or ended by the last iteration with the status and the answer this one
      gives; no other iteration gives any. */
  ghost predicate EndedProperly(cfg: Config, st: State, turns: nat -> Outcome, end: SegmentEnd, last: State) {
    && st.iteration <= last.iteration
    && match end
       case ContinueAsNew(i, t) => i == last.iteration && t == last.tokensUsed && GoesOnUntil(cfg, st, turns, last.iteration)
       case Finished(status, i, t, answer) =>
         && i == last.iteration && t == last.tokensUsed
         && if status == RunStopped then
              last.iteration >= cfg.maxIterations && answer == None && GoesOnUntil(cfg, st, turns, last.iteration)
            else
              && st.iteration < last.iteration && GoesOnUntil(cfg, st, turns, last.iteration - 1)
              && EndsAt(cfg, st, turns, last.iteration - 1, status, answer)
  }

  lemma EndedLater(cfg: Config, st: State, next: State, turns: nat -> Outcome, end: SegmentEnd, last: State)
    requires next.iteration == st.iteration + 1 && EndedProperly(cfg, next, turns, end, last)
    requires next.tokensUsed == TokensBefore(st, turns, next.iteration)
    requires forall status, answer :: !EndsRun(cfg, turns(st.iteration), st.tokensUsed, status, answer)
    ensures EndedProperly(cfg, st, turns, end, last)
  {
    hide EndsRun, TokensOf;
    forall i, status, answer | next.iteration <= i
      ensures EndsAt(cfg, st, turns, i, status, answer) == EndsAt(cfg, next, turns, i, status, answer)
    {
      TokensSplit(turns, st.iteration, next.iteration, i);
    }
    NoTokensYet(turns, st.iteration);
    assert forall status, answer :: !EndsAt(cfg, st, turns, st.iteration, status, answer);
  }

  lemma {:induction false} TokensSplit(turns: nat -> Outcome, i: nat, j: nat, k: nat)
    requires i <= j <= k
    ensures TokensOf(turns, i, k) == TokensOf(turns, i, j) + TokensOf(turns, j, k)
  {
    if j == k {
    } else {
      TokensSplit(turns, i, j, k - 1);
    }
  }

  lemma NoTokensYet(turns: nat -> Outcome, i: nat)
    ensures TokensOf(turns, i, i) == 0
  {
  }

  lemma StepEnds(cfg: Config, st: State, turns: nat -> Outcome, cut: (nat, nat) -> bool)
    ensures var step := Turn(cfg, st, turns(st.iteration), cut);
            if EndOf(step).Some? then EndedProperly(cfg, st, turns, EndOf(step).value, EndState(step))
            else
              && EndState(step).iteration == st.iteration + 1
              && EndState(step).tokensUsed == TokensBefore(st, turns, st.iteration + 1)
              && forall status, answer :: !EndsRun(cfg, turns(st.iteration), st.tokensUsed, status, answer)
  {
    TurnEnds(cfg, st, turns(st.iteration), cut);
    TurnTokens(cfg, st, turns(st.iteration), cut);
    NoTokensYet(turns, st.iteration);
    TokensOfOne(turns, st.iteration);
    hide Turn, TokensOf;
    assert OverBudget(cfg, st.tokensUsed) ==> EndsRun(cfg, turns(st.iteration), st.tokensUsed, RunFailed, None);
  }

  lemma TokensOfOne(turns: nat -> Outcome, i: nat)
    ensures TokensOf(turns, i, i + 1) == if turns(i).plan.Planned? then turns(i).plan.tokens else 0
  {
    NoTokensYet(turns, i);
  }

  lemma StoppedAtLimit(cfg: Config, st: State, turns: nat -> Outcome, cut: (nat, nat) -> bool)
    requires st.iteration >= cfg.maxIterations
    ensures Segment(cfg, st, turns, cut) == (Finished(RunStopped, st.iteration, st.tokensUsed, None), st)
  {
  }

  /** Main result: why and with what a run ends, from its outcomes alone. */
  lemma {:induction false} RunEnds(cfg: Config, st: State, turns: nat -> Outcome, cut: (nat, nat) -> bool)
    ensures var (end, last) := Segment(cfg, st, turns, cut);
            EndedProperly(cfg, st, turns, end, last)
    decreases cfg.maxIterations - st.iteration
  {
    hide Segment, Turn, TokensOf, EndsRun;
    if st.iteration >= cfg.maxIterations {
      StoppedAtLimit(cfg, st, turns, cut);
    } else {
      var step := Turn(cfg, st, turns(st.iteration), cut);
      SegmentStep(cfg, st, turns, cut);
      StepEnds(cfg, st, turns, cut);
      if step.Proceed? {
        var (end, last) := Segment(cfg, step.next, turns, cut);
        RunEnds(cfg, step.next, turns, cut);
        EndedLater(cfg, st, step.next, turns, end, last);
      }
    }
  }

  /** What holds of a segment that is cut in time. */
  ghost predicate Short(st: State, end: SegmentEnd, last: State) {
    && st.plans <= last.plans
    && (forall k :: |st.plans| < k < |last.plans| ==> |last.plans[k].messages| <= 200)
    && (last.iteration <= 50 || last.iteration <= st.iteration + 1)
    && (end.ContinueAsNew? ==> |last.messages| > 200 || last.iteration >= 50)
  }

  lemma ShortLater(st: State, next: State, end: SegmentEnd, last: State)
    requires next.iteration == st.iteration + 1 && |next.messages| <= 200 && next.iteration < 50 && Short(next, end, last)
    requires st.plans <= next.plans && |next.plans| <= |st.plans| + 1
    requires |last.plans| > |next.plans| ==> last.plans[|next.plans|].messages == next.messages
    ensures Short(st, end, last)
  {
  }

  /** Main result: continue-as-new comes in time. Every planning call of a segment but its first sees at most 200
      messages, the segment ends by iteration 50 or with its first one, and it is cut only when one of the two
      limits is reached. */
  lemma {:induction false} CutInTime(cfg: Config, st: State, turns: nat -> Outcome)
    requires st.iteration < cfg.maxIterations
    ensures var (end, last) := Segment(cfg, st, turns, HistoryTooLong);
            Short(st, end, last)
    decreases cfg.maxIterations - st.iteration
  {
    hide Segment, Turn, HistoryTooLong, OverBudget;
    var o := turns(st.iteration);
    var step := Turn(cfg, st, o, HistoryTooLong);
    SegmentStep(cfg, st, turns, HistoryTooLong);
    StepPlans(cfg, st, o, HistoryTooLong);
    StepCut(cfg, st, o);
    if step.Proceed? {
      var (end, last) := Segment(cfg, step.next, turns, HistoryTooLong);
      SegmentPlans(cfg, step.next, turns, HistoryTooLong);
      if step.next.iteration < cfg.maxIterations {
        CutInTime(cfg, step.next, turns);
        ShortLater(st, step.next, end, last);
      } else {
        StoppedAtLimit(cfg, step.next, turns, HistoryTooLong);
      }
    }
  }

  lemma StepCut(cfg: Config, st: State, o: Outcome)
    ensures var step := Turn(cfg, st, o, HistoryTooLong);
            !step.Stop? ==> (step.Restart? <==> |EndState(step).messages| > 200 || EndState(step).iteration >= 50)
  {
    hide BuildAssistantMessage, BuildToolResultsMessage, ResultBlocks, FailureStatus, WaitsForHuman, Resolved, OverBudget;
  }

  // ── Row numbering ─────────────────────────────────────────────────────────

  ghost predicate Numbered(rows: seq<History.Row>) {
    forall i :: 0 <= i < |rows| ==> rows[i].seqNo == i
  }

  function EndState(step: Step): State {
    match step case Proceed(s) => s case Restart(s) => s case Stop(_, _, s) => s
  }

  ghost predicate WellNumbered(st: State) {
    Numbered(st.rows) && st.msgSeq == |st.rows|
  }

  lemma TurnNumbered(cfg: Config, st: State, o: Outcome, cut: (nat, nat) -> bool)
    requires WellNumbered(st)
    ensures var step := Turn(cfg, st, o, cut);
            Numbered(EndState(step).rows) && (!step.Stop? ==> WellNumbered(EndState(step)))
  {
    hide ResultBlocks, BuildToolResultsMessage, BuildAssistantMessage, FailureStatus, WaitsForHuman, Resolved;
    if o.plan.Planned? { assert WellNumbered(Told(st.(iteration := st.iteration + 1), o)); }
  }

  /** Whatever happens, attempted writes are numbered 0, 1, 2, … without gap or repeat. */
  lemma {:induction false} RowsNumbered(cfg: Config, st: State, turns: nat -> Outcome, cut: (nat, nat) -> bool)
    requires WellNumbered(st)
    ensures Numbered(Segment(cfg, st, turns, cut).1.rows)
    decreases cfg.maxIterations - st.iteration
  {
    if st.iteration >= cfg.maxIterations {
    } else {
      hide Turn, Numbered, WellNumbered;
      var step := Turn(cfg, st, turns(st.iteration), cut);
      SegmentStep(cfg, st, turns, cut);
      TurnNumbered(cfg, st, turns(st.iteration), cut);
      if step.Proceed? { RowsNumbered(cfg, step.next, turns, cut); }
    }
  }

  // ── Pairing ───────────────────────────────────────────────────────────────

  /** The provider reports the tool calls its serialised turn contains, and every call gets its result. A turn
      whose serialisation failed has no content. */
  predicate Honest(o: Outcome) {
    o.plan.Planned? ==>
      && |o.results| == |o.plan.toolCalls|
      && (o.plan.turn.Some? ==>
            CallIds(o.plan.toolCalls) == if o.plan.turn.value.Blocks? then UseIds(o.plan.turn.value.blocks) else [])
  }

  predicate Serialised(o: Outcome) {
    o.plan.Planned? && o.plan.turn.Some?
  }

  /** Honest, and no turn that calls tools was lost to serialisation. */
  predicate Faithful(o: Outcome) {
    Honest(o) && (o.plan.Planned? && o.plan.toolCalls != [] ==> Serialised(o))
  }

  ghost predicate PlansPaired(st: State) {
    forall p :: p in st.plans ==> FullyPaired(p.messages)
  }

  lemma CallIdsEmpty(calls: seq<ToolCall>)
    ensures CallIds(calls) == [] <==> calls == []
  {
  }

  lemma ReplyAnswers(cfg: Config, calls: seq<ToolCall>, results: seq<AgentResult>)
    requires |results| == |calls|
    ensures Answers(BuildToolResultsMessage(cfg.codec, calls, results), CallIds(calls))
  {
    hide CompactResults, ResultBlocks, ResultIds, CallIds;
  }

  lemma RowAnswers(calls: seq<ToolCall>, results: seq<AgentResult>, seqNo: nat)
    requires |results| == |calls|
    ensures Answers(History.Deserialize(History.Row(History.UserRow, Blocks(ResultBlocks(calls, results)), seqNo)), CallIds(calls))
  {
    hide ResultBlocks, ResultIds, CallIds;
  }

  // Planning calls: which messages they see.

  lemma StepPlans(cfg: Config, st: State, o: Outcome, cut: (nat, nat) -> bool)
    ensures var step := Turn(cfg, st, o, cut);
            && EndState(step).iteration == st.iteration + 1
            && EndState(step).plans ==
               if OverBudget(cfg, st.tokensUsed) then st.plans
               else st.plans + [Plan(st.messages, st.tokensUsed, if o.plan.Planned? then o.plan.tokens else 0)]
  {
    hide BuildAssistantMessage, BuildToolResultsMessage, ResultBlocks, FailureStatus, WaitsForHuman, Resolved, OverBudget;
  }

  /** What an iteration that goes on appends to the messages. */
  lemma StepMessages(cfg: Config, st: State, o: Outcome, cut: (nat, nat) -> bool)
    ensures var step := Turn(cfg, st, o, cut);
            !step.Stop? ==>
              && o.plan.Planned? && o.plan.toolCalls != []
              && var reply := BuildToolResultsMessage(cfg.codec, o.plan.toolCalls, Resolved(o));
              EndState(step).messages ==
              st.messages + (if o.plan.turn.Some? then [BuildAssistantMessage(o.plan.turn.value), reply] else [reply])
  {
    hide BuildAssistantMessage, BuildToolResultsMessage, ResultBlocks, FailureStatus, WaitsForHuman, Resolved, OverBudget;
  }

  /** An iteration that goes on keeps the messages paired exactly if its turn was serialised: the results are
      appended in either case. */
  lemma StepPairedIff(cfg: Config, st: State, o: Outcome, cut: (nat, nat) -> bool)
    requires FullyPaired(st.messages) && Honest(o)
    ensures var step := Turn(cfg, st, o, cut);
            !step.Stop? ==> (FullyPaired(EndState(step).messages) <==> Serialised(o))
  {
    hide Turn, Answers, FullyPaired, BuildToolResultsMessage, WaitsForHuman;
    StepMessages(cfg, st, o, cut);
    if Turn(cfg, st, o, cut).Stop? { return; }
    CallIdsEmpty(o.plan.toolCalls);
    var reply := BuildToolResultsMessage(cfg.codec, o.plan.toolCalls, Resolved(o));
    ReplyAnswers(cfg, o.plan.toolCalls, Resolved(o));
    if o.plan.turn.Some? {
      PairedExtendedByExchange(st.messages, BuildAssistantMessage(o.plan.turn.value), reply);
    } else {
      PairedConcat(st.messages, [reply]);
      AnswerAlone(reply, CallIds(o.plan.toolCalls));
    }
  }

  lemma AnswerAlone(m: Message, ids: seq<ToolId>)
    requires Answers(m, ids) && ids != []
    ensures !FullyPaired([m])
  {
  }

  /** A segment's planning calls come after those made before; the first sees the messages it starts with. */
  lemma {:induction false} SegmentPlans(cfg: Config, st: State, turns: nat -> Outcome, cut: (nat, nat) -> bool)
    ensures var plans := Segment(cfg, st, turns, cut).1.plans;
            && st.plans <= plans
            && (|plans| > |st.plans| ==> plans[|st.plans|].messages == st.messages)
    decreases cfg.maxIterations - st.iteration
  {
    if st.iteration >= cfg.maxIterations {
    } else {
      hide Turn, OverBudget;
      var step := Turn(cfg, st, turns(st.iteration), cut);
      SegmentStep(cfg, st, turns, cut);
      StepPlans(cfg, st, turns(st.iteration), cut);
      if step.Proceed? { SegmentPlans(cfg, step.next, turns, cut); }
    }
  }

  /** Every turn planned in this segment before the last planning call was serialised. */
  ghost predicate SerialisedBeforeLast(st: State, end: State, turns: nat -> Outcome) {
    forall i: nat :: st.iteration <= i < st.iteration + |end.plans| - |st.plans| - 1 ==> Serialised(turns(i))
  }

  /** Main result: from paired messages, every planning call of the run sees every tool use answered, slimming
      and compaction included, exactly if each turn planned before the last call was serialised. */
  lemma {:induction false} PlansPairedIff(cfg: Config, st: State, turns: nat -> Outcome, cut: (nat, nat) -> bool)
    requires FullyPaired(st.messages) && PlansPaired(st) && forall i :: Honest(turns(i))
    ensures var end := Segment(cfg, st, turns, cut).1;
            PlansPaired(end) <==> SerialisedBeforeLast(st, end, turns)
    decreases cfg.maxIterations - st.iteration
  {
    if st.iteration >= cfg.maxIterations {
    } else {
      hide Turn, OverBudget, FullyPaired, Honest, Serialised;
      var o := turns(st.iteration);
      var step := Turn(cfg, st, o, cut);
      SegmentStep(cfg, st, turns, cut);
      StepPlans(cfg, st, o, cut);
      if step.Proceed? {
        var next, end := step.next, Segment(cfg, step.next, turns, cut).1;
        StepPairedIff(cfg, st, o, cut);
        SegmentPlans(cfg, next, turns, cut);
        if Serialised(o) {
          PlansPairedIff(cfg, next, turns, cut);
          LaterSerialised(st, next, end, turns);
        } else {
          UnserialisedSpoilsNext(st, next, end, turns);
        }
      }
    }
  }

  lemma LaterSerialised(st: State, next: State, end: State, turns: nat -> Outcome)
    requires next.iteration == st.iteration + 1 && |next.plans| - |st.plans| in {0, 1} && next.plans <= end.plans
    requires |next.plans| == |st.plans| ==> |end.plans| == |st.plans|
    requires Serialised(turns(st.iteration))
    ensures SerialisedBeforeLast(next, end, turns) <==> SerialisedBeforeLast(st, end, turns)
  {
    hide Serialised;
  }

  lemma UnserialisedSpoilsNext(st: State, next: State, end: State, turns: nat -> Outcome)
    requires next.iteration == st.iteration + 1 && next.plans <= end.plans && PlansPaired(next)
    requires |next.plans| == |st.plans| + 1
    requires |end.plans| > |next.plans| ==> end.plans[|next.plans|].messages == next.messages
    requires !FullyPaired(next.messages) && !Serialised(turns(st.iteration))
    ensures PlansPaired(end) <==> SerialisedBeforeLast(st, end, turns)
  {
    hide Serialised, FullyPaired;
    if |end.plans| > |next.plans| {
      assert end.plans[|next.plans|] in end.plans;
    } else {
      assert end.plans == next.plans;
    }
  }

  lemma OpeningPaired(prior: seq<Message>, goal: string, iterationCarry: nat, tokensCarry: nat)
    ensures var opening := Opening(prior, goal, iterationCarry, tokensCarry);
            && (FullyPaired(opening.messages) <==> FullyPaired(prior))
            && RowsPaired(opening.rows) && PlansPaired(opening) && opening.plans == []
  {
    var first := [UserText(goal)];
    assert first[1..] == [];
    assert FullyPaired(first);
    PairedSplit(prior, first);
    assert History.DeserializeAll([History.Row(History.UserRow, Text(goal), 0)]) == first;
  }

  const ONE_CALL := Outcome(Planned([ToolCall("t1", "agent__a", JNull)], None, None, 1), [AgentResult(Completed, "found")], None, None)
  const FINAL := Outcome(Planned([], Some(Text("done")), Some("done"), 1), [], None, None)

  /** The first turn calls a tool but cannot be serialised; the second answers. */
  function LostTurn(i: nat): Outcome {
    if i == 0 then ONE_CALL else FINAL
  }

  /** A concrete run in which serialisation fails once: its second planning call is not paired. */
  lemma UnserializedTurnUnpairs(codec: Codec, cut: (nat, nat) -> bool)
    requires !cut(2, 1)
    ensures var end := Segment(Config(2, None, codec), Opening([], "hi", 0, 0), LostTurn, cut).1;
            (forall i :: Honest(LostTurn(i))) && |end.plans| == 2 && !PlansPaired(end)
  {
    var cfg, opening := Config(2, None, codec), Opening([], "hi", 0, 0);
    var first := Turn(cfg, opening, ONE_CALL, cut);
    SegmentStep(cfg, opening, LostTurn, cut);
    StepPlans(cfg, opening, ONE_CALL, cut);
    OneCallGoesOn(codec, cut);
    LostTurnIsHonest();
    var next := first.next;
    SegmentStep(cfg, next, LostTurn, cut);
    StepPlans(cfg, next, FINAL, cut);
    assert EndOf(Turn(cfg, next, FINAL, cut)).Some?;
    OpeningPaired([], "hi", 0, 0);
    hide Segment, Turn;
    PlansPairedIff(cfg, opening, LostTurn, cut);
    assert !Serialised(LostTurn(0));
  }

  lemma OneCallGoesOn(codec: Codec, cut: (nat, nat) -> bool)
    requires !cut(2, 1)
    ensures Turn(Config(2, None, codec), Opening([], "hi", 0, 0), ONE_CALL, cut).Proceed?
  {
    hide BuildToolResultsMessage, ResultBlocks;
  }

  lemma LostTurnIsHonest()
    ensures forall i :: Honest(LostTurn(i))
  {
  }

  // Rows: what the run leaves for later ones.

  /** The rows form a run in the sense of the history loader. */
  predicate RowsOfRun(rows: seq<History.Row>) {
    rows != [] && rows[0].content.Text? && rows[0].role.UserRow? && PairedUpToLast(History.DeserializeAll(rows))
  }

  predicate RowsPaired(rows: seq<History.Row>) {
    RowsOfRun(rows) && FullyPaired(History.DeserializeAll(rows))
  }

  lemma DeserializeSnoc(rows: seq<History.Row>, row: History.Row)
    ensures History.DeserializeAll(rows + [row]) == History.DeserializeAll(rows) + [History.Deserialize(row)]
  {
  }

  /** Rows of an iteration up to the tool calls. */
  lemma ToldRows(st: State, o: Outcome)
    requires RowsPaired(st.rows) && o.plan.Planned?
    ensures RowsOfRun(Told(st, o).rows)
  {
    if o.plan.turn.Some? {
      var row := History.Row(History.AgentRow, o.plan.turn.value, st.msgSeq);
      var msgs, m := History.DeserializeAll(st.rows), History.Deserialize(row);
      DeserializeSnoc(st.rows, row);
      assert (msgs + [m])[..|msgs|] == msgs;
      hide FullyPaired;
      if Asked(m) == [] { PairedExtendedByPlain(msgs, m); }
    }
  }

  lemma ExchangeRows(cfg: Config, st: State, o: Outcome)
    requires RowsPaired(st.rows) && Faithful(o) && o.plan.Planned? && o.plan.toolCalls != []
    ensures RowsPaired(WithResults(cfg, Told(st, o), o.plan.toolCalls, Resolved(o)).rows)
  {
    hide ResultBlocks, Resolved, RowsPaired, Told, WithResults, Faithful, History.Deserialize, Asked, Answers, CallIds;
    FaithfulResults(o);
    var use := History.Row(History.AgentRow, o.plan.turn.value, st.msgSeq);
    var answer := History.Row(History.UserRow, Blocks(ResultBlocks(o.plan.toolCalls, Resolved(o))), st.msgSeq + 1);
    ExchangeWrites(cfg, st, o);
    CallIdsEmpty(o.plan.toolCalls);
    ResolvedSize(o);
    RowAnswers(o.plan.toolCalls, Resolved(o), st.msgSeq + 1);
    RowsExchanged(st.rows, use, answer);
  }

  lemma FaithfulResults(o: Outcome)
    requires Faithful(o) && o.plan.Planned? && o.plan.toolCalls != []
    ensures |o.results| == |o.plan.toolCalls| && o.plan.turn.Some?
  {
  }

  /** The two rows an iteration with tool calls writes; the first asks for what the calls say. */
  lemma ExchangeWrites(cfg: Config, st: State, o: Outcome)
    requires Faithful(o) && o.plan.Planned? && o.plan.toolCalls != []
    ensures var use := History.Row(History.AgentRow, o.plan.turn.value, st.msgSeq);
            var answer := History.Row(History.UserRow, Blocks(ResultBlocks(o.plan.toolCalls, Resolved(o))), st.msgSeq + 1);
            && WithResults(cfg, Told(st, o), o.plan.toolCalls, Resolved(o)).rows == st.rows + [use] + [answer]
            && Asked(History.Deserialize(use)) == CallIds(o.plan.toolCalls)
  {
    hide ResultBlocks, Resolved, CallIds, BuildAssistantMessage, BuildToolResultsMessage, UseIds;
  }

  lemma ResolvedSize(o: Outcome)
    ensures |Resolved(o)| == |o.results|
  {
  }

  lemma RowsExchanged(rows: seq<History.Row>, use: History.Row, answer: History.Row)
    requires RowsPaired(rows) && Asked(History.Deserialize(use)) != []
    requires Answers(History.Deserialize(answer), Asked(History.Deserialize(use)))
    ensures RowsPaired(rows + [use] + [answer])
  {
    hide FullyPaired, Answers, History.Deserialize, History.DeserializeAll, Asked;
    var msgs := History.DeserializeAll(rows);
    DeserializeSnoc(rows, use);
    DeserializeSnoc(rows + [use], answer);
    assert msgs + [History.Deserialize(use)] + [History.Deserialize(answer)]
        == msgs + [History.Deserialize(use), History.Deserialize(answer)];
    PairedExtendedByExchange(msgs, History.Deserialize(use), History.Deserialize(answer));
  }

  /** Every iteration leaves the rows of a run, and paired ones if the run goes on. */
  lemma StepRows(cfg: Config, st: State, o: Outcome, cut: (nat, nat) -> bool)
    requires RowsPaired(st.rows) && Faithful(o)
    ensures var step := Turn(cfg, st, o, cut);
            RowsOfRun(EndState(step).rows) && (!step.Stop? ==> RowsPaired(EndState(step).rows))
  {
    hide RowsOfRun, Told, WithResults, Faithful, Resolved, WaitsForHuman, FailureStatus, OverBudget;
    var counted := st.(iteration := st.iteration + 1);
    if o.plan.Planned? {
      ToldRows(counted, o);
      if o.plan.toolCalls != [] { ExchangeRows(cfg, counted, o); }
    }
  }

  /** Whatever history it was given, a run leaves the rows of a run. */
  lemma {:induction false} SegmentRows(cfg: Config, st: State, turns: nat -> Outcome, cut: (nat, nat) -> bool)
    requires RowsPaired(st.rows) && forall i :: Faithful(turns(i))
    ensures RowsOfRun(Segment(cfg, st, turns, cut).1.rows)
    decreases cfg.maxIterations - st.iteration
  {
    if st.iteration >= cfg.maxIterations {
    } else {
      hide Turn, RowsOfRun, RowsPaired, Faithful;
      var step := Turn(cfg, st, turns(st.iteration), cut);
      SegmentStep(cfg, st, turns, cut);
      StepRows(cfg, st, turns(st.iteration), cut);
      if step.Proceed? { SegmentRows(cfg, step.next, turns, cut); }
    }
  }

  // ── End to end ────────────────────────────────────────────────────────────

  /** From any reloaded history: the planning calls are paired exactly if the history is and the turns
      before the last call were serialised. */
  lemma RunPairedIff(cfg: Config, prior: seq<Message>, goal: string, iterationCarry: nat, tokensCarry: nat,
                     turns: nat -> Outcome, cut: (nat, nat) -> bool)
    requires forall i :: Honest(turns(i))
    ensures var opening := Opening(prior, goal, iterationCarry, tokensCarry);
            var end := Segment(cfg, opening, turns, cut).1;
            PlansPaired(end) <==> end.plans == [] || (FullyPaired(prior) && SerialisedBeforeLast(opening, end, turns))
  {
    var opening := Opening(prior, goal, iterationCarry, tokensCarry);
    var end := Segment(cfg, opening, turns, cut).1;
    OpeningPaired(prior, goal, iterationCarry, tokensCarry);
    SegmentPlans(cfg, opening, turns, cut);
    hide Segment, FullyPaired, Honest, Serialised;
    if FullyPaired(prior) {
      PlansPairedIff(cfg, opening, turns, cut);
    } else if end.plans != [] {
      assert end.plans[0] in end.plans;
    }
  }

  /** Main result: let earlier runs have lost any of their row writes. The planning calls of the next run see
      every tool use answered exactly if every stored results row directly follows a tool-use turn and the run's
      own turns were serialised. */
  lemma NextRunPairedIff(
      tasks: seq<History.StoredTask>, runs: seq<seq<History.Row>>, window: int, cfg: Config, goal: string,
      iterationCarry: nat, tokensCarry: nat, turns: nat -> Outcome, cut: (nat, nat) -> bool)
    requires |tasks| == |runs| && forall k :: 0 <= k < |tasks| ==> History.LeftByRun(tasks[k], runs[k])
    requires History.UniqueUses(
      History.AttemptsUpTo(History.Window(tasks, window), History.Window(runs, window), |History.Window(tasks, window)|))
    requires forall i :: Honest(turns(i))
    ensures var opening := Opening(History.Loaded(tasks, window), goal, iterationCarry, tokensCarry);
            var end := Segment(cfg, opening, turns, cut).1;
            PlansPaired(end) <==>
              (end.plans == [] ||
               (History.ResultsAfterUses(History.LoadedMessages(History.Window(tasks, window))) &&
                SerialisedBeforeLast(opening, end, turns)))
  {
    hide *;
    History.ReloadPairedIff(tasks, runs, window);
    RunPairedIff(cfg, History.Loaded(tasks, window), goal, iterationCarry, tokensCarry, turns, cut);
  }

  /** Main result: as long as no results row was stored without its assistant row, whatever else earlier runs
      lost, every planning call of the next run sees each tool use answered, and that run leaves a run's rows. */
  lemma NextRunSeesEveryToolUseAnswered(
      tasks: seq<History.StoredTask>, window: int, cfg: Config, goal: string,
      iterationCarry: nat, tokensCarry: nat, turns: nat -> Outcome, cut: (nat, nat) -> bool)
    requires forall t :: t in tasks ==> History.Intact(t)
    requires History.UniqueUses(History.LoadedMessages(History.Window(tasks, window)))
    requires forall i :: Faithful(turns(i))
    ensures var end := Segment(cfg, Opening(History.Loaded(tasks, window), goal, iterationCarry, tokensCarry), turns, cut).1;
            PlansPaired(end) && RowsOfRun(end.rows)
  {
    var opening := Opening(History.Loaded(tasks, window), goal, iterationCarry, tokensCarry);
    hide Segment, RowsPaired, FullyPaired, PlansPaired, History.Intact, History.UniqueUses, RowsOfRun, History.Loaded;
    History.ReloadDropsOnlyDanglingTurns(tasks, window);
    OpeningPaired(History.Loaded(tasks, window), goal, iterationCarry, tokensCarry);
    SegmentRows(cfg, opening, turns, cut);
    FaithfulIsHonest(turns);
    PlansPairedIff(cfg, opening, turns, cut);
    FaithfulSerialises(cfg, opening, turns, cut);
  }

  lemma FaithfulIsHonest(turns: nat -> Outcome)
    requires forall i :: Faithful(turns(i))
    ensures forall i :: Honest(turns(i))
  {
  }

  /** Before the last planning call every turn went on, so it called tools. */
  lemma {:induction false} FaithfulSerialises(cfg: Config, st: State, turns: nat -> Outcome, cut: (nat, nat) -> bool)
    requires forall i :: Faithful(turns(i))
    ensures SerialisedBeforeLast(st, Segment(cfg, st, turns, cut).1, turns)
    decreases cfg.maxIterations - st.iteration
  {
    if st.iteration >= cfg.maxIterations {
    } else {
      var o := turns(st.iteration);
      var step := Turn(cfg, st, o, cut);
      SegmentStep(cfg, st, turns, cut);
      StepPlans(cfg, st, o, cut);
      if step.Proceed? {
        StepMessages(cfg, st, o, cut);
        SegmentPlans(cfg, step.next, turns, cut);
        FaithfulSerialises(cfg, step.next, turns, cut);
        assert Faithful(o);
        hide Turn, Segment, Faithful, Serialised, OverBudget;
        if |step.next.plans| == |st.plans| + 1 {
          LaterSerialised(st, step.next, Segment(cfg, step.next, turns, cut).1, turns);
        }
      }
    }
  }

  // ── A whole conversation ──────────────────────────────────────────────────

  /** One segment of a conversation: a user turn, or its continuation after a cut with the carried counters. */
  datatype Episode = Episode(goal: string, window: int, iterationCarry: nat, tokensCarry: nat,
                             turns: nat -> Outcome, cut: (nat, nat) -> bool)

  /** The state in which an episode ends that reloads what the given tasks hold. */
  function EpisodeEnd(cfg: Config, prior: seq<History.StoredTask>, e: Episode): State {
    Segment(cfg, Opening(History.Loaded(prior, e.window), e.goal, e.iterationCarry, e.tokensCarry), e.turns, e.cut).1
  }

  /** Each task holds what was not lost of the rows its episode wrote, having reloaded the tasks before it. */
  ghost predicate Conversation(cfg: Config, episodes: seq<Episode>, tasks: seq<History.StoredTask>) {
    |episodes| == |tasks| && forall k :: 0 <= k < |tasks| ==> Stored(cfg, episodes, tasks, k)
  }

  ghost predicate Stored(cfg: Config, episodes: seq<Episode>, tasks: seq<History.StoredTask>, k: nat)
    requires k < |episodes| == |tasks|
  {
    Subsequence(tasks[k].rows, EpisodeEnd(cfg, tasks[..k], episodes[k]).rows)
  }

  /** The rows the first `n` episodes attempted to write. */
  function Attempted(cfg: Config, episodes: seq<Episode>, tasks: seq<History.StoredTask>, n: nat): (runs: seq<seq<History.Row>>)
    requires n <= |episodes| == |tasks|
    ensures |runs| == n
    ensures forall k :: 0 <= k < n ==> runs[k] == EpisodeEnd(cfg, tasks[..k], episodes[k]).rows
  {
    seq(n, k requires 0 <= k < n => EpisodeEnd(cfg, tasks[..k], episodes[k]).rows)
  }

  ghost predicate FaithfulEpisode(e: Episode) {
    forall i :: Faithful(e.turns(i))
  }

  lemma EpisodeLeavesRun(cfg: Config, episodes: seq<Episode>, tasks: seq<History.StoredTask>, k: nat)
    requires k < |episodes| == |tasks| && FaithfulEpisode(episodes[k])
    ensures Stored(cfg, episodes, tasks, k) ==> History.LeftByRun(tasks[k], EpisodeEnd(cfg, tasks[..k], episodes[k]).rows)
  {
    var e := episodes[k];
    var prior := History.Loaded(tasks[..k], e.window);
    var rows := EpisodeEnd(cfg, tasks[..k], e).rows;
    hide Segment, RowsPaired, FullyPaired, Subsequence, History.Loaded, PlansPaired;
    OpeningPaired(prior, e.goal, e.iterationCarry, e.tokensCarry);
    SegmentRows(cfg, Opening(prior, e.goal, e.iterationCarry, e.tokensCarry), e.turns, e.cut);
    UpToLastFollows(History.DeserializeAll(rows));
  }

  /** Main result: over a whole conversation, its runs cut into segments anywhere and any of their row writes
      lost, an episode's planning calls see every tool use answered exactly if, among the rows it reloads,
      every results row directly follows a tool-use turn. */
  lemma ConversationPairedIff(cfg: Config, episodes: seq<Episode>, tasks: seq<History.StoredTask>, k: nat)
    requires Conversation(cfg, episodes, tasks) && k < |episodes|
    requires forall e :: e in episodes ==> FaithfulEpisode(e)
    requires var recent := History.Window(tasks[..k], episodes[k].window);
             |recent| <= |History.Window(Attempted(cfg, episodes, tasks, k), episodes[k].window)| &&
             History.UniqueUses(History.AttemptsUpTo(recent, History.Window(Attempted(cfg, episodes, tasks, k), episodes[k].window), |recent|))
    ensures var end := EpisodeEnd(cfg, tasks[..k], episodes[k]);
            PlansPaired(end) <==>
              (end.plans == [] || History.ResultsAfterUses(History.LoadedMessages(History.Window(tasks[..k], episodes[k].window))))
  {
    var e := episodes[k];
    var runs := Attempted(cfg, episodes, tasks, k);
    forall j | 0 <= j < k
      ensures History.LeftByRun(tasks[..k][j], runs[j])
    {
      assert Stored(cfg, episodes, tasks, j);
      EpisodeLeavesRun(cfg, episodes, tasks, j);
    }
    assert FaithfulEpisode(e);
    FaithfulIsHonest(e.turns);
    var opening := Opening(History.Loaded(tasks[..k], e.window), e.goal, e.iterationCarry, e.tokensCarry);
    FaithfulSerialises(cfg, opening, e.turns, e.cut);
    hide Segment, PlansPaired, FullyPaired, History.LeftByRun, History.UniqueUses, Stored, SerialisedBeforeLast, Honest, Faithful;
    NextRunPairedIff(tasks[..k], runs, e.window, cfg, e.goal, e.iterationCarry, e.tokensCarry, e.turns, e.cut);
  }
}
