/** Reloading a conversation from stored rows: windowing, deserialising, sanitising. */
module History {
  import opened Common
  import opened Messages

  datatype RowRole = UserRow | AgentRow

  datatype Row = Row(role: RowRole, content: Content, seqNo: nat)

  /** A root task: its rows in seq order and the first text part of its input message. */
  datatype StoredTask = StoredTask(rows: seq<Row>, inputText: string)

  function Deserialize(row: Row): Message {
    Message(if row.role == AgentRow then Assistant else User, row.content)
  }

  function DeserializeAll(rows: seq<Row>): (msgs: seq<Message>)
    ensures |msgs| == |rows|
    ensures forall i :: 0 <= i < |rows| ==> msgs[i] == Deserialize(rows[i])
  {
    if rows == [] then [] else [Deserialize(rows[0])] + DeserializeAll(rows[1..])
  }

  // ── Sanitising ────────────────────────────────────────────────────────────

  /** Every id some result block of the first `n` messages answers. */
  function AnsweredBy(msgs: seq<Message>, n: nat): set<ToolId>
    requires n <= |msgs|
  {
    if n == 0 then {} else AnsweredBy(msgs, n - 1) + Elements(Answered(msgs[n - 1]))
  }

  function Elements(ids: seq<ToolId>): set<ToolId> {
    set id | id in ids
  }

  function AnsweredAnywhere(msgs: seq<Message>): set<ToolId> {
    AnsweredBy(msgs, |msgs|)
  }

  predicate Unmatched(m: Message, results: set<ToolId>) {
    Asked(m) != [] && exists id :: id in Asked(m) && id !in results
  }

  /** The second pass over `msgs`; `skip` is the flag left by the message before. */
  function Keep(msgs: seq<Message>, results: set<ToolId>, skip: bool): seq<Message> {
    if msgs == [] then []
    else if skip && OnlyResults(msgs[0]) then Keep(msgs[1..], results, false)
    else if Unmatched(msgs[0], results) then Keep(msgs[1..], results, true)
    else [msgs[0]] + Keep(msgs[1..], results, false)
  }

  function Sanitized(msgs: seq<Message>): seq<Message> {
    Keep(msgs, AnsweredAnywhere(msgs), false)
  }

  method CollectResultIds(messages: seq<Message>) returns (resultIds: set<ToolId>)
    ensures resultIds == AnsweredAnywhere(messages)
  {
    resultIds := {};
    for i := 0 to |messages|
      invariant resultIds == AnsweredBy(messages, i)
    {
      resultIds := resultIds + Elements(Answered(messages[i]));
    }
  }

  lemma KeepStep(msgs: seq<Message>, i: nat, results: set<ToolId>, skip: bool)
    requires i < |msgs|
    ensures Keep(msgs[i..], results, skip) ==
      if skip && OnlyResults(msgs[i]) then Keep(msgs[i + 1..], results, false)
      else if Unmatched(msgs[i], results) then Keep(msgs[i + 1..], results, true)
      else [msgs[i]] + Keep(msgs[i + 1..], results, false)
  {
    hide Unmatched, OnlyResults;
    assert msgs[i..][1..] == msgs[i + 1..];
  }

  /** The second pass. */
  method KeepMatched(messages: seq<Message>, resultIds: set<ToolId>) returns (sanitized: seq<Message>)
    ensures sanitized == Keep(messages, resultIds, false)
  {
    hide Keep, Unmatched, OnlyResults;
    sanitized := [];
    var skipNextToolResult := false;
    assert messages[0..] == messages;
    for i := 0 to |messages|
      invariant sanitized + Keep(messages[i..], resultIds, skipNextToolResult) == Keep(messages, resultIds, false)
    {
      var msg := messages[i];
      KeepStep(messages, i, resultIds, skipNextToolResult);
      var dropped := skipNextToolResult && OnlyResults(msg);
      skipNextToolResult := false;
      if !dropped {
        if Unmatched(msg, resultIds) {
          skipNextToolResult := true;
        } else {
          sanitized := sanitized + [msg];
        }
      }
    }
    assert messages[|messages|..] == [];
    KeepNothing(resultIds, skipNextToolResult);
  }

  lemma KeepNothing(results: set<ToolId>, skip: bool)
    ensures Keep([], results, skip) == []
  {
  }

  method SanitizeHistory(messages: seq<Message>) returns (sanitized: seq<Message>)
    ensures sanitized == Sanitized(messages)
  {
    if messages == [] {
      return messages;
    }
    var resultIds := CollectResultIds(messages);
    sanitized := KeepMatched(messages, resultIds);
  }

  lemma {:induction false} AnsweredByMember(msgs: seq<Message>, n: nat, id: ToolId)
    requires n <= |msgs|
    ensures id in AnsweredBy(msgs, n) <==> exists j :: 0 <= j < n && id in Answered(msgs[j])
  {
    if n == 0 {
    } else {
      AnsweredByMember(msgs, n - 1, id);
    }
  }

  /** The conversation without its unanswered tool-use turns. */
  function WithoutDangling(msgs: seq<Message>): seq<Message> {
    if msgs == [] then []
    else if DanglingAt(msgs, 0) then WithoutDangling(msgs[1..])
    else [msgs[0]] + WithoutDangling(msgs[1..])
  }

  ghost predicate KeepsAt(msgs: seq<Message>, at: seq<nat>) {
    forall i :: 0 <= i < |msgs| ==> (i in at <==> !DanglingAt(msgs, i))
  }

  lemma WithoutDanglingStep(msgs: seq<Message>)
    requires msgs != []
    ensures WithoutDangling(msgs) == (if DanglingAt(msgs, 0) then [] else [msgs[0]]) + WithoutDangling(msgs[1..])
  {
    hide DanglingAt;
  }

  /** Exactly the messages at the other positions are left, in order. */
  lemma {:induction false} WithoutDanglingExact(msgs: seq<Message>)
    ensures exists at :: Picks(WithoutDangling(msgs), msgs, at) && KeepsAt(msgs, at)
  {
    if msgs == [] {
      assert Picks(WithoutDangling(msgs), msgs, []) && KeepsAt(msgs, []);
    } else {
      hide DanglingAt, WithoutDangling, Picks, KeepsAt;
      var first, rest := msgs[0], msgs[1..];
      WithoutDanglingExact(rest);
      var at :| Picks(WithoutDangling(rest), rest, at) && KeepsAt(rest, at);
      WithoutDanglingStep(msgs);
      assert [first] + rest == msgs;
      PicksFirst(first, !DanglingAt(msgs, 0));
      var here, kept := FirstKept(first, !DanglingAt(msgs, 0)), PositionKept(!DanglingAt(msgs, 0));
      PicksConcat(here, [first], kept, WithoutDangling(rest), rest, at);
      KeepsShifted(msgs, kept, at);
    }
  }

  function FirstKept<T>(x: T, kept: bool): seq<T> {
    if kept then [x] else []
  }

  function PositionKept(kept: bool): seq<nat> {
    if kept then [0] else []
  }

  lemma PicksFirst<T>(x: T, kept: bool)
    ensures Picks(FirstKept(x, kept), [x], PositionKept(kept))
  {
  }

  lemma KeepsShifted(msgs: seq<Message>, kept: seq<nat>, at: seq<nat>)
    requires msgs != [] && kept == PositionKept(!DanglingAt(msgs, 0)) && KeepsAt(msgs[1..], at)
    ensures KeepsAt(msgs, kept + Shifted(at, 1))
  {
    hide DanglingAt;
    forall i | 0 <= i < |msgs|
      ensures i in kept + Shifted(at, 1) <==> !DanglingAt(msgs, i)
    {
      ShiftedMember(at, 1, i);
      if i > 0 { DanglingBehind(msgs, i); }
    }
  }

  lemma DanglingBehind(msgs: seq<Message>, i: nat)
    requires 0 < i < |msgs|
    ensures DanglingAt(msgs, i) == DanglingAt(msgs[1..], i - 1)
  {
  }

  /** What unique ids and the row writers leave: a result answers no turn but the one right before it, whole
      and in order, and results come in messages of their own. Rows may be missing anywhere. */
  ghost predicate AnswersAreNext(msgs: seq<Message>) {
    && (forall i, j :: 0 <= i < |msgs| && 0 <= j < |msgs| && Meet(msgs[i], msgs[j]) ==>
          j == i + 1 && Answers(msgs[j], Asked(msgs[i])))
    && (forall j :: 0 <= j < |msgs| && Answered(msgs[j]) != [] ==> OnlyResults(msgs[j]))
  }

  /** Some result in `answer` is for a tool use in `use`. */
  predicate Meet(use: Message, answer: Message) {
    exists id :: id in Asked(use) && id in Answered(answer)
  }

  lemma AnsweredIsNotDangling(msgs: seq<Message>, i: nat, j: nat, id: ToolId)
    requires AnswersAreNext(msgs) && i < |msgs| && j < |msgs| && id in Asked(msgs[i]) && id in Answered(msgs[j])
    ensures !DanglingAt(msgs, i)
  {
    assert Meet(msgs[i], msgs[j]);
  }

  lemma DanglingIsUnmatched(msgs: seq<Message>, i: nat)
    requires AnswersAreNext(msgs) && i < |msgs| && DanglingAt(msgs, i)
    ensures Unmatched(msgs[i], AnsweredAnywhere(msgs))
  {
    var id := Asked(msgs[i])[0];
    hide AnswersAreNext, AnsweredBy, Answers, DanglingAt;
    AnsweredByMember(msgs, |msgs|, id);
    forall j | 0 <= j < |msgs|
      ensures id !in Answered(msgs[j])
    {
      if id in Answered(msgs[j]) { AnsweredIsNotDangling(msgs, i, j, id); }
    }
    assert id in Asked(msgs[i]);
  }

  lemma AnsweredIsMatched(msgs: seq<Message>, i: nat)
    requires i < |msgs| && Asked(msgs[i]) != [] && !DanglingAt(msgs, i)
    ensures !Unmatched(msgs[i], AnsweredAnywhere(msgs))
  {
    hide AnsweredBy;
    forall id | id in Asked(msgs[i])
      ensures id in AnsweredAnywhere(msgs)
    {
      AnsweredByMember(msgs, |msgs|, id);
      assert id in Answered(msgs[i + 1]);
    }
  }

  /** Although ids are looked up in the whole history, only the next message can answer a turn. */
  lemma UnmatchedIsDangling(msgs: seq<Message>, i: nat)
    requires AnswersAreNext(msgs) && i < |msgs|
    ensures Unmatched(msgs[i], AnsweredAnywhere(msgs)) <==> DanglingAt(msgs, i)
  {
    hide AnswersAreNext, AnsweredBy, Answers;
    if DanglingAt(msgs, i) {
      DanglingIsUnmatched(msgs, i);
    } else if Asked(msgs[i]) != [] {
      AnsweredIsMatched(msgs, i);
    }
  }

  /** The lookup in `results` finds exactly the dangling turns of the rest of the history. */
  predicate FindsDangling(msgs: seq<Message>, results: set<ToolId>) {
    msgs == [] || ((Unmatched(msgs[0], results) <==> DanglingAt(msgs, 0)) && FindsDangling(msgs[1..], results))
  }

  lemma {:induction false} FindsDanglingFrom(msgs: seq<Message>, k: nat)
    requires AnswersAreNext(msgs) && k <= |msgs|
    ensures FindsDangling(msgs[k..], AnsweredAnywhere(msgs))
    decreases |msgs| - k
  {
    hide Unmatched, AnsweredBy, AnswersAreNext, Answers;
    if k == |msgs| {
    } else {
      FindsDanglingFrom(msgs, k + 1);
      UnmatchedIsDangling(msgs, k);
      assert msgs[k..][0] == msgs[k] && msgs[k..][1..] == msgs[k + 1..];
      assert DanglingAt(msgs[k..], 0) == DanglingAt(msgs, k);
    }
  }

  // ── What the skip flag takes along ────────────────────────────────────────

  /** An unanswered tool-use turn is followed by nothing but results, or by an empty block list. */
  predicate SwallowedAt(msgs: seq<Message>, i: nat)
    requires i < |msgs|
  {
    DanglingAt(msgs, i) && i + 1 < |msgs| && OnlyResults(msgs[i + 1])
  }

  ghost predicate NothingSwallowed(msgs: seq<Message>) {
    forall i :: 0 <= i < |msgs| ==> !SwallowedAt(msgs, i)
  }

  /** How many messages the skip flag drops. */
  function Swallowed(msgs: seq<Message>, skip: bool): nat {
    if msgs == [] then 0
    else if skip && OnlyResults(msgs[0]) then 1 + Swallowed(msgs[1..], false)
    else Swallowed(msgs[1..], DanglingAt(msgs, 0))
  }

  lemma ResultsAskNothing(m: Message)
    requires OnlyResults(m)
    ensures Asked(m) == []
  {
    if m.role == Assistant { NoUses(m.content.blocks); }
  }

  lemma {:induction false} NoUses(blocks: seq<Block>)
    requires forall b :: b in blocks ==> b.ToolResult?
    ensures UseIds(blocks) == []
  {
    if blocks == [] {
    } else {
      assert blocks[0] in blocks;
      NoUses(blocks[1..]);
    }
  }

  lemma {:induction false} KeepAndSwallowed(msgs: seq<Message>, results: set<ToolId>, skip: bool)
    requires FindsDangling(msgs, results)
    ensures |Keep(msgs, results, skip)| + Swallowed(msgs, skip) == |WithoutDangling(msgs)|
    ensures Swallowed(msgs, skip) == 0 ==> Keep(msgs, results, skip) == WithoutDangling(msgs)
  {
    hide Unmatched, OnlyResults, Answers, Asked;
    if msgs == [] {
    } else if skip && OnlyResults(msgs[0]) {
      ResultsAskNothing(msgs[0]);
      KeepAndSwallowed(msgs[1..], results, false);
    } else {
      KeepAndSwallowed(msgs[1..], results, DanglingAt(msgs, 0));
    }
  }

  lemma {:induction false} SwallowedIff(msgs: seq<Message>, skip: bool)
    ensures Swallowed(msgs, skip) == 0 <==> !(skip && msgs != [] && OnlyResults(msgs[0])) && NothingSwallowed(msgs)
  {
    hide OnlyResults, Answers, Asked;
    if msgs == [] {
    } else if skip && OnlyResults(msgs[0]) {
    } else {
      var rest := msgs[1..];
      SwallowedIff(rest, DanglingAt(msgs, 0));
      assert SwallowedAt(msgs, 0) <==> DanglingAt(msgs, 0) && rest != [] && OnlyResults(rest[0]);
      assert forall i :: 0 <= i < |rest| ==> SwallowedAt(rest, i) == SwallowedAt(msgs, i + 1);
      assert forall i :: 1 <= i < |msgs| ==> SwallowedAt(msgs, i) == SwallowedAt(rest, i - 1);
    }
  }

  /** Sanitising removes the dangling turns and nothing else, exactly unless one of them is followed by
      an empty turn or by results whose own turn is missing. */
  lemma SanitizedDropsExactlyDangling(msgs: seq<Message>)
    requires AnswersAreNext(msgs)
    ensures Sanitized(msgs) == WithoutDangling(msgs) <==> NothingSwallowed(msgs)
  {
    var results := AnsweredAnywhere(msgs);
    FindsDanglingFrom(msgs, 0);
    assert msgs[0..] == msgs;
    KeepAndSwallowed(msgs, results, false);
    SwallowedIff(msgs, false);
  }

  // ── Whether the next call is paired ───────────────────────────────────────

  /** Every results message directly follows some tool-use turn; `afterUse` says it of what came before. */
  predicate AfterUses(msgs: seq<Message>, afterUse: bool) {
    msgs == [] || ((Answered(msgs[0]) != [] ==> afterUse) && AfterUses(msgs[1..], Asked(msgs[0]) != []))
  }

  predicate ResultsAfterUses(msgs: seq<Message>) {
    AfterUses(msgs, false)
  }

  lemma {:induction false} FollowingIsAfter(msgs: seq<Message>, asked: seq<ToolId>)
    requires FollowUses(msgs, asked)
    ensures AfterUses(msgs, asked != [])
  {
    if msgs == [] {
    } else {
      FollowingIsAfter(msgs[1..], Asked(msgs[0]));
    }
  }

  predicate PureResults(msgs: seq<Message>) {
    msgs == [] || ((Answered(msgs[0]) != [] ==> OnlyResults(msgs[0])) && PureResults(msgs[1..]))
  }

  lemma {:induction false} PureResultsFrom(msgs: seq<Message>, k: nat)
    requires AnswersAreNext(msgs) && k <= |msgs|
    ensures PureResults(msgs[k..])
    decreases |msgs| - k
  {
    hide OnlyResults, Answers, Asked;
    if k == |msgs| {
    } else {
      PureResultsFrom(msgs, k + 1);
      assert msgs[k..][0] == msgs[k] && msgs[k..][1..] == msgs[k + 1..];
    }
  }

  lemma {:induction false} KeepPairedIff(msgs: seq<Message>, results: set<ToolId>, skip: bool)
    requires FindsDangling(msgs, results) && PureResults(msgs)
    ensures FullyPaired(Keep(msgs, results, skip)) <==> AfterUses(msgs, skip)
  {
    if msgs == [] {
    } else if skip && OnlyResults(msgs[0]) {
      ResultsAskNothing(msgs[0]);
      KeepPairedIff(msgs[1..], results, false);
    } else if DanglingAt(msgs, 0) {
      KeepPairedIff(msgs[1..], results, true);
    } else if Asked(msgs[0]) == [] {
      KeepPairedIff(msgs[1..], results, false);
      KeptAlone(msgs, results, skip);
    } else {
      KeepPairedIff(msgs[2..], results, false);
      KeptExchange(msgs, results, skip);
    }
  }

  lemma KeptAlone(msgs: seq<Message>, results: set<ToolId>, skip: bool)
    requires msgs != [] && Asked(msgs[0]) == [] && !(skip && OnlyResults(msgs[0])) && !Unmatched(msgs[0], results)
    ensures FullyPaired(Keep(msgs, results, skip)) <==> Answered(msgs[0]) == [] && FullyPaired(Keep(msgs[1..], results, false))
  {
    hide Answers, OnlyResults, Unmatched;
    var rest := Keep(msgs[1..], results, false);
    var kept := [msgs[0]] + rest;
    assert Keep(msgs, results, skip) == kept;
    assert kept[0] == msgs[0] && kept[1..] == rest;
  }

  lemma KeptExchange(msgs: seq<Message>, results: set<ToolId>, skip: bool)
    requires |msgs| >= 2 && Asked(msgs[0]) != [] && Answers(msgs[1], Asked(msgs[0]))
    requires !Unmatched(msgs[0], results) && !(skip && OnlyResults(msgs[0]))
    ensures FullyPaired(Keep(msgs, results, skip)) <==> FullyPaired(Keep(msgs[2..], results, false))
    ensures AfterUses(msgs, skip) <==> AfterUses(msgs[2..], false)
  {
    var rest := Keep(msgs[2..], results, false);
    assert msgs[1..][0] == msgs[1] && msgs[1..][1..] == msgs[2..];
    assert Asked(msgs[1]) == [] && Answered(msgs[0]) == [];
    var kept := [msgs[0]] + ([msgs[1]] + rest);
    assert Keep(msgs[1..], results, false) == [msgs[1]] + rest;
    assert Keep(msgs, results, skip) == kept;
    assert kept[0] == msgs[0] && kept[1] == msgs[1] && kept[2..] == rest;
  }

  /** What the sanitiser is for: its result is fully paired, exactly unless some results are stored that
      do not directly follow a tool-use turn. */
  lemma SanitizedPairedIff(msgs: seq<Message>)
    requires AnswersAreNext(msgs)
    ensures FullyPaired(Sanitized(msgs)) <==> ResultsAfterUses(msgs)
  {
    FindsDanglingFrom(msgs, 0);
    PureResultsFrom(msgs, 0);
    assert msgs[0..] == msgs;
    KeepPairedIff(msgs, AnsweredAnywhere(msgs), false);
  }

  // ── Runs, with rows missing anywhere ──────────────────────────────────────

  function TaskMessages(task: StoredTask): seq<Message> {
    if task.rows != [] then DeserializeAll(task.rows)
    else if task.inputText != "" then [UserText(task.inputText)]
    else []
  }

  /** The messages of the first `n` tasks. */
  function LoadedUpTo(tasks: seq<StoredTask>, n: nat): seq<Message>
    requires n <= |tasks|
  {
    if n == 0 then [] else LoadedUpTo(tasks, n - 1) + TaskMessages(tasks[n - 1])
  }

  function LoadedMessages(tasks: seq<StoredTask>): seq<Message> {
    LoadedUpTo(tasks, |tasks|)
  }

  /** The tail slice `items[-window:]`; a window of 0 is the slice from 0, so it keeps everything. */
  function Window<T>(items: seq<T>, window: int): seq<T> {
    if 0 < window < |items| then items[|items| - window..] else items
  }

  function Loaded(tasks: seq<StoredTask>, window: int): seq<Message> {
    Sanitized(LoadedMessages(Window(tasks, window)))
  }

  method CollectRows(tasks: seq<StoredTask>) returns (allRows: seq<Message>)
    ensures allRows == LoadedMessages(tasks)
  {
    allRows := [];
    for k := 0 to |tasks|
      invariant allRows == LoadedUpTo(tasks, k)
    {
      var task := tasks[k];
      if task.rows != [] {
        allRows := allRows + DeserializeAll(task.rows);
      } else if task.inputText != "" {
        allRows := allRows + [UserText(task.inputText)];
      }
    }
  }

  method LoadContextHistory(priorTasks: seq<StoredTask>, historyWindow: int) returns (history: seq<Message>)
    ensures history == Loaded(priorTasks, historyWindow)
  {
    var tasks := priorTasks;
    if historyWindow >= 0 && |tasks| > historyWindow {
      tasks := if historyWindow == 0 then tasks else tasks[|tasks| - historyWindow..];
    }
    assert tasks == Window(priorTasks, historyWindow);
    if tasks == [] {
      return [];
    }
    var allRows := CollectRows(tasks);
    if allRows == [] {
      return [];
    }
    history := SanitizeHistory(allRows);
  }

  /** What the window keeps are the last items: the newest turns, none of them left out. */
  lemma WindowIsTail<T>(items: seq<T>, window: int)
    ensures exists older :: items == older + Window(items, window)
    ensures |Window(items, window)| == if 0 < window < |items| then window else |items|
  {
    var older := items[..|items| - |Window(items, window)|];
    assert items == older + Window(items, window);
  }

  /** The documented meaning of the window, a bound on the turns kept, holds except at 0. */
  lemma WindowBoundsTurns(tasks: seq<StoredTask>, window: nat)
    ensures |Window(tasks, window)| <= window <==> window != 0 || tasks == []
  {
  }

  /** A root task as a run leaves it: the run attempted the writes `run`, any of which may be missing. */
  ghost predicate LeftByRun(task: StoredTask, run: seq<Row>) {
    ResultsFollowUses(DeserializeAll(run)) && Subsequence(task.rows, run)
  }

  /** What the task would load had no write been lost; a task without rows stands for its input text. */
  function Attempt(task: StoredTask, run: seq<Row>): seq<Message> {
    if task.rows == [] then TaskMessages(task) else DeserializeAll(run)
  }

  function AttemptsUpTo(tasks: seq<StoredTask>, runs: seq<seq<Row>>, n: nat): seq<Message>
    requires n <= |tasks| && n <= |runs|
  {
    if n == 0 then [] else AttemptsUpTo(tasks, runs, n - 1) + Attempt(tasks[n - 1], runs[n - 1])
  }

  /** No id is asked for by two different messages. */
  ghost predicate UniqueUses(msgs: seq<Message>) {
    forall i, j, id :: 0 <= i < j < |msgs| && id in Asked(msgs[i]) ==> id !in Asked(msgs[j])
  }

  lemma UniqueUsesMeetNext(msgs: seq<Message>)
    requires ResultsFollowUses(msgs) && UniqueUses(msgs)
    ensures AnswersAreNext(msgs)
  {
    hide FollowUses, Answers;
    forall i, j | 0 <= i < |msgs| && 0 <= j < |msgs| && Meet(msgs[i], msgs[j])
      ensures j == i + 1 && Answers(msgs[j], Asked(msgs[i]))
    {
      MeetsNext(msgs, i, j);
    }
    forall j | 0 <= j < |msgs| && Answered(msgs[j]) != []
      ensures OnlyResults(msgs[j])
    {
      FollowsAt(msgs, [], j);
      AnswersArePure(msgs[j], if j == 0 then [] else Asked(msgs[j - 1]));
    }
  }

  lemma AnswersArePure(m: Message, ids: seq<ToolId>)
    requires Answers(m, ids)
    ensures OnlyResults(m) && Answered(m) == ids
  {
  }

  lemma MeetsNext(msgs: seq<Message>, i: nat, j: nat)
    requires ResultsFollowUses(msgs) && UniqueUses(msgs) && i < |msgs| && j < |msgs| && Meet(msgs[i], msgs[j])
    ensures j == i + 1 && Answers(msgs[j], Asked(msgs[i]))
  {
    hide FollowUses, Asked, Answered;
    var id :| id in Asked(msgs[i]) && id in Answered(msgs[j]);
    FollowsAt(msgs, [], j);
    assert id in if j == 0 then [] else Asked(msgs[j - 1]);
    assert i == j - 1;
  }

  /** Increasing positions are at least as far apart as their indices. */
  lemma {:induction false} Apart(at: seq<nat>, i: nat, j: nat)
    requires (forall k, l :: 0 <= k < l < |at| ==> at[k] < at[l]) && i < |at| && j < |at|
    ensures i <= j ==> at[j] - at[i] >= j - i
    ensures j <= i ==> at[i] - at[j] >= i - j
    decreases if i <= j then j - i else i - j
  {
    if i < j {
      Apart(at, i, j - 1);
    } else if j < i {
      Apart(at, i - 1, j);
    }
  }

  /** Losing messages breaks up no exchange of which both parts are left. */
  lemma SubsequenceMeetsNext(part: seq<Message>, whole: seq<Message>, at: seq<nat>)
    requires AnswersAreNext(whole) && Picks(part, whole, at)
    ensures AnswersAreNext(part)
  {
    hide Answers, Meet, OnlyResults, Asked, Answered;
    forall i, j | 0 <= i < |part| && 0 <= j < |part| && Meet(part[i], part[j])
      ensures j == i + 1 && Answers(part[j], Asked(part[i]))
    {
      Apart(at, i, j);
      assert Meet(whole[at[i]], whole[at[j]]);
    }
  }

  lemma PicksAll<T>(s: seq<T>)
    ensures Subsequence(s, s)
  {
    var at := seq(|s|, k requires 0 <= k < |s| => k);
    assert Picks(s, s, at);
  }

  lemma TaskIsPartOfAttempt(task: StoredTask, run: seq<Row>)
    requires LeftByRun(task, run)
    ensures Subsequence(TaskMessages(task), Attempt(task, run))
  {
    if task.rows == [] {
      PicksAll(TaskMessages(task));
    } else {
      var at :| Picks(task.rows, run, at);
      assert Picks(DeserializeAll(task.rows), DeserializeAll(run), at);
    }
  }

  lemma {:induction false} LoadedIsPartOfAttempts(tasks: seq<StoredTask>, runs: seq<seq<Row>>, n: nat)
    requires n <= |tasks| == |runs| && forall k :: 0 <= k < |tasks| ==> LeftByRun(tasks[k], runs[k])
    ensures Subsequence(LoadedUpTo(tasks, n), AttemptsUpTo(tasks, runs, n))
  {
    hide LeftByRun, TaskMessages, Attempt, Picks;
    if n == 0 {
      PicksAll(LoadedUpTo(tasks, 0));
    } else {
      LoadedIsPartOfAttempts(tasks, runs, n - 1);
      TaskIsPartOfAttempt(tasks[n - 1], runs[n - 1]);
      var at :| Picks(LoadedUpTo(tasks, n - 1), AttemptsUpTo(tasks, runs, n - 1), at);
      var bt :| Picks(TaskMessages(tasks[n - 1]), Attempt(tasks[n - 1], runs[n - 1]), bt);
      PicksConcat(LoadedUpTo(tasks, n - 1), AttemptsUpTo(tasks, runs, n - 1), at,
                  TaskMessages(tasks[n - 1]), Attempt(tasks[n - 1], runs[n - 1]), bt);
    }
  }

  lemma NothingFollows()
    ensures ResultsFollowUses([])
  {
  }

  lemma AttemptFollows(task: StoredTask, run: seq<Row>)
    requires LeftByRun(task, run)
    ensures ResultsFollowUses(Attempt(task, run))
  {
  }

  lemma {:induction false} AttemptsFollowUses(tasks: seq<StoredTask>, runs: seq<seq<Row>>, n: nat)
    requires n <= |tasks| == |runs| && forall k :: 0 <= k < |tasks| ==> LeftByRun(tasks[k], runs[k])
    ensures ResultsFollowUses(AttemptsUpTo(tasks, runs, n))
  {
    hide ResultsFollowUses, LeftByRun, Attempt;
    if n == 0 {
      NothingFollows();
    } else {
      AttemptsFollowUses(tasks, runs, n - 1);
      AttemptFollows(tasks[n - 1], runs[n - 1]);
      FollowAppend(AttemptsUpTo(tasks, runs, n - 1), Attempt(tasks[n - 1], runs[n - 1]));
    }
  }

  lemma LoadedMeetsNext(tasks: seq<StoredTask>, runs: seq<seq<Row>>)
    requires |tasks| == |runs| && forall k :: 0 <= k < |tasks| ==> LeftByRun(tasks[k], runs[k])
    requires UniqueUses(AttemptsUpTo(tasks, runs, |tasks|))
    ensures AnswersAreNext(LoadedMessages(tasks))
  {
    hide LeftByRun, ResultsFollowUses, UniqueUses, AnswersAreNext, Picks, LoadedUpTo, AttemptsUpTo;
    var n := |tasks|;
    var loaded, attempted := LoadedUpTo(tasks, n), AttemptsUpTo(tasks, runs, n);
    AttemptsFollowUses(tasks, runs, n);
    UniqueUsesMeetNext(attempted);
    LoadedIsPartOfAttempts(tasks, runs, n);
    var at :| Picks(loaded, attempted, at);
    SubsequenceMeetsNext(loaded, attempted, at);
  }

  lemma WindowedRuns(tasks: seq<StoredTask>, runs: seq<seq<Row>>, window: int)
    requires |tasks| == |runs| && forall k :: 0 <= k < |tasks| ==> LeftByRun(tasks[k], runs[k])
    ensures var recent, recentRuns := Window(tasks, window), Window(runs, window);
            |recent| == |recentRuns| && forall k :: 0 <= k < |recent| ==> LeftByRun(recent[k], recentRuns[k])
  {
    hide LeftByRun;
  }

  /** Main result: let every earlier run have lost any of its row writes. Given globally unique tool ids, the
      reloaded history is fully paired exactly if every results row that is left directly follows a
      tool-use turn, and it is what is left minus the dangling turns exactly if none of these is followed by
      an empty turn or by stray results. */
  lemma ReloadPairedIff(tasks: seq<StoredTask>, runs: seq<seq<Row>>, window: int)
    requires |tasks| == |runs| && forall k :: 0 <= k < |tasks| ==> LeftByRun(tasks[k], runs[k])
    requires UniqueUses(AttemptsUpTo(Window(tasks, window), Window(runs, window), |Window(tasks, window)|))
    ensures var msgs := LoadedMessages(Window(tasks, window));
            && (FullyPaired(Loaded(tasks, window)) <==> ResultsAfterUses(msgs))
            && (Loaded(tasks, window) == WithoutDangling(msgs) <==> NothingSwallowed(msgs))
  {
    WindowedRuns(tasks, runs, window);
    hide *;
    LoadedMeetsNext(Window(tasks, window), Window(runs, window));
    SanitizedPairedIff(LoadedMessages(Window(tasks, window)));
    SanitizedDropsExactlyDangling(LoadedMessages(Window(tasks, window)));
    LoadedIs(tasks, window);
  }

  lemma LoadedIs(tasks: seq<StoredTask>, window: int)
    ensures Loaded(tasks, window) == Sanitized(LoadedMessages(Window(tasks, window)))
  {
  }

  // ── Runs that keep their exchanges together ───────────────────────────────

  /** No results row without the assistant row it answers; results rows and whole endings may be missing. */
  predicate Intact(task: StoredTask) {
    ResultsFollowUses(TaskMessages(task))
  }

  /** A task's messages minus its unanswered tool-use turns. */
  function Surviving(task: StoredTask): seq<Message> {
    WithoutDangling(TaskMessages(task))
  }

  function SurvivingUpTo(tasks: seq<StoredTask>, n: nat): seq<Message>
    requires n <= |tasks|
  {
    if n == 0 then [] else SurvivingUpTo(tasks, n - 1) + Surviving(tasks[n - 1])
  }

  function AllSurviving(tasks: seq<StoredTask>): seq<Message> {
    SurvivingUpTo(tasks, |tasks|)
  }

  lemma {:induction false} WithoutDanglingConcat(a: seq<Message>, b: seq<Message>)
    requires ResultsFollowUses(b)
    ensures WithoutDangling(a + b) == WithoutDangling(a) + WithoutDangling(b)
  {
    if a == [] {
      assert a + b == b;
    } else {
      assert (a + b)[0] == a[0] && (a + b)[1..] == a[1..] + b;
      WithoutDanglingConcat(a[1..], b);
      SameAtFront(a, b);
    }
  }

  lemma SameAtFront(a: seq<Message>, b: seq<Message>)
    requires a != [] && ResultsFollowUses(b)
    ensures DanglingAt(a + b, 0) == DanglingAt(a, 0)
  {
    if |a| == 1 && b != [] { assert (a + b)[1] == b[0]; }
  }

  lemma {:induction false} SurvivingOfLoaded(tasks: seq<StoredTask>, n: nat)
    requires n <= |tasks| && forall t :: t in tasks ==> Intact(t)
    ensures WithoutDangling(LoadedUpTo(tasks, n)) == SurvivingUpTo(tasks, n)
    ensures ResultsFollowUses(LoadedUpTo(tasks, n))
  {
    hide ResultsFollowUses, TaskMessages, WithoutDangling;
    if n == 0 {
      NothingFollows();
      NothingDangles();
    } else {
      var task := tasks[n - 1];
      assert Intact(task);
      SurvivingOfLoaded(tasks, n - 1);
      WithoutDanglingConcat(LoadedUpTo(tasks, n - 1), TaskMessages(task));
      FollowAppend(LoadedUpTo(tasks, n - 1), TaskMessages(task));
    }
  }

  lemma NothingDangles()
    ensures WithoutDangling([]) == []
  {
  }

  lemma WindowKeeps(tasks: seq<StoredTask>, window: int)
    ensures forall t :: t in Window(tasks, window) ==> t in tasks
  {
  }

  /** Main result: as long as no results row is stored without its assistant row, whatever else each run lost,
      reloading gives a fully paired history; and it gives exactly the rows minus every unanswered turn,
      unless such a turn is followed by an empty one. */
  lemma ReloadDropsOnlyDanglingTurns(tasks: seq<StoredTask>, window: int)
    requires forall t :: t in tasks ==> Intact(t)
    requires UniqueUses(LoadedMessages(Window(tasks, window)))
    ensures FullyPaired(Loaded(tasks, window))
    ensures Loaded(tasks, window) == AllSurviving(Window(tasks, window)) <==>
            NothingSwallowed(LoadedMessages(Window(tasks, window)))
  {
    var recent := Window(tasks, window);
    var msgs := LoadedMessages(recent);
    WindowKeeps(tasks, window);
    hide LoadedUpTo, Intact, UniqueUses, NothingSwallowed, AnswersAreNext, WithoutDangling, FullyPaired, FollowUses, AfterUses, Keep;
    SurvivingOfLoaded(recent, |recent|);
    UniqueUsesMeetNext(msgs);
    SanitizedDropsExactlyDangling(msgs);
    SanitizedPairedIff(msgs);
    FollowingIsAfter(msgs, []);
  }

  // ── Runs that were merely cut off ─────────────────────────────────────────

  /** Everything the run attempted up to some row. */
  predicate CutOff(task: StoredTask) {
    PairedUpToLast(TaskMessages(task)) && (task.rows != [] ==> task.rows[0].content.Text?)
  }

  lemma {:induction false} PairedPrefix(msgs: seq<Message>, n: nat)
    requires FullyPaired(msgs) && n <= |msgs|
    ensures PairedUpToLast(msgs[..n])
  {
    if n == 0 {
    } else if Asked(msgs[0]) == [] {
      PairedPrefix(msgs[1..], n - 1);
      assert msgs[..n][1..] == msgs[1..][..n - 1];
      PrependedUpToLast(msgs[..1], msgs[1..][..n - 1]);
      assert msgs[..n] == msgs[..1] + msgs[1..][..n - 1];
    } else if n == 1 {
      assert msgs[..1][..0] == [];
    } else {
      PairedPrefix(msgs[2..], n - 2);
      PrependedUpToLast(msgs[..2], msgs[2..][..n - 2]);
      assert msgs[..n] == msgs[..2] + msgs[2..][..n - 2];
    }
  }

  lemma PrependedUpToLast(a: seq<Message>, b: seq<Message>)
    requires FullyPaired(a) && PairedUpToLast(b)
    ensures PairedUpToLast(a + b)
  {
    hide FullyPaired;
    PairedConcat(a, b);
    if !FullyPaired(b) {
      PairedConcat(a, b[..|b| - 1]);
      assert (a + b)[..|a + b| - 1] == a + b[..|b| - 1];
      assert (a + b)[|a + b| - 1] == b[|b| - 1];
    }
  }

  /** However early a run's writes stop, what is there is a cut-off run. */
  lemma PrefixIsCutOff(task: StoredTask, n: nat)
    requires CutOff(task) && 0 < n <= |task.rows|
    ensures CutOff(task.(rows := task.rows[..n]))
  {
    var full := DeserializeAll(task.rows);
    assert DeserializeAll(task.rows[..n]) == full[..n];
    hide FullyPaired;
    if FullyPaired(full) {
      PairedPrefix(full, n);
    } else if n < |full| {
      PairedPrefix(full[..|full| - 1], n);
      assert full[..|full| - 1][..n] == full[..n];
    } else {
      assert full[..n] == full;
    }
  }

  lemma CutOffIsIntact(task: StoredTask)
    requires CutOff(task)
    ensures Intact(task)
  {
    UpToLastFollows(TaskMessages(task));
  }

  lemma OnlyLastDangles(msgs: seq<Message>, i: nat)
    requires PairedUpToLast(msgs) && i < |msgs| && DanglingAt(msgs, i)
    ensures i == |msgs| - 1 && !FullyPaired(msgs)
  {
    hide FullyPaired, FollowUses, Asked, Answers;
    PairedAtEveryPosition(msgs);
    if !FullyPaired(msgs) {
      var body := msgs[..|msgs| - 1];
      PairedAtEveryPosition(body);
      assert i < |body| ==> (DanglingAt(msgs, i) ==> DanglingAt(body, i));
    }
  }

  /** A cut-off run loses its last turn when that asked for tools, and nothing else. */
  lemma CutOffLosesItsLastTurn(task: StoredTask)
    requires CutOff(task)
    ensures var msgs := TaskMessages(task);
            Surviving(task) == if msgs != [] && Asked(msgs[|msgs| - 1]) != [] then msgs[..|msgs| - 1] else msgs
  {
    var msgs := TaskMessages(task);
    if FullyPaired(msgs) {
      PairedLosesNothing(msgs);
      if msgs != [] { PairedEndsAnswered(msgs); }
    } else {
      var body, last := msgs[..|msgs| - 1], msgs[|msgs| - 1];
      assert msgs == body + [last];
      UseFollowsAnything(last, []);
      WithoutDanglingConcat(body, [last]);
      PairedLosesNothing(body);
    }
  }

  lemma {:induction false} PairedLosesNothing(msgs: seq<Message>)
    requires FullyPaired(msgs)
    ensures WithoutDangling(msgs) == msgs
  {
    if msgs == [] {
    } else if Asked(msgs[0]) == [] {
      PairedLosesNothing(msgs[1..]);
    } else {
      PairedLosesNothing(msgs[2..]);
      assert msgs[1..][0] == msgs[1] && msgs[1..][1..] == msgs[2..];
      assert Asked(msgs[1]) == [];
    }
  }

  lemma PairedEndsAnswered(msgs: seq<Message>)
    requires FullyPaired(msgs) && msgs != []
    ensures Asked(msgs[|msgs| - 1]) == []
  {
    PairedAtEveryPosition(msgs);
    assert !DanglingAt(msgs, |msgs| - 1);
  }

  lemma SwallowsNothingAppended(a: seq<Message>, b: seq<Message>)
    requires NothingSwallowed(a) && NothingSwallowed(b) && (b != [] ==> !OnlyResults(b[0]))
    requires ResultsFollowUses(b)
    ensures NothingSwallowed(a + b)
  {
    hide OnlyResults, FollowUses, Answers, Asked;
    var all := a + b;
    forall i | 0 <= i < |all|
      ensures !SwallowedAt(all, i)
    {
      if i < |a| - 1 {
        assert SwallowedAt(all, i) == SwallowedAt(a, i);
      } else if i >= |a| {
        assert SwallowedAt(all, i) == SwallowedAt(b, i - |a|);
      }
    }
  }

  lemma NothingToSwallow()
    ensures NothingSwallowed([])
  {
  }

  lemma IntactFollows(task: StoredTask)
    requires Intact(task)
    ensures ResultsFollowUses(TaskMessages(task))
  {
  }

  lemma {:induction false} CutOffSwallowsNothing(tasks: seq<StoredTask>, n: nat)
    requires n <= |tasks| && forall t :: t in tasks ==> CutOff(t)
    ensures NothingSwallowed(LoadedUpTo(tasks, n))
  {
    hide NothingSwallowed, CutOff, TaskMessages, ResultsFollowUses;
    if n == 0 {
      NothingToSwallow();
    } else {
      CutOffSwallowsNothing(tasks, n - 1);
      CutOffOpensWithText(tasks[n - 1]);
      CutOffIsIntact(tasks[n - 1]);
      IntactFollows(tasks[n - 1]);
      SwallowsNothingAppended(LoadedUpTo(tasks, n - 1), TaskMessages(tasks[n - 1]));
    }
  }

  lemma CutOffOpensWithText(task: StoredTask)
    requires CutOff(task)
    ensures NothingSwallowed(TaskMessages(task))
    ensures TaskMessages(task) != [] ==> !OnlyResults(TaskMessages(task)[0])
  {
    var msgs := TaskMessages(task);
    hide DanglingAt, PairedUpToLast;
    forall i | 0 <= i < |msgs|
      ensures !SwallowedAt(msgs, i)
    {
      if DanglingAt(msgs, i) { OnlyLastDangles(msgs, i); }
    }
  }

  /** For runs that were merely cut off, each at any row, reloading gives exactly the rows minus the dangling
      turn of each interrupted run. */
  lemma ReloadOfCutOffRuns(tasks: seq<StoredTask>, window: int)
    requires forall t :: t in tasks ==> CutOff(t)
    requires UniqueUses(LoadedMessages(Window(tasks, window)))
    ensures Loaded(tasks, window) == AllSurviving(Window(tasks, window))
  {
    forall t | t in tasks
      ensures Intact(t)
    {
      CutOffIsIntact(t);
    }
    WindowKeeps(tasks, window);
    hide *;
    CutOffSwallowsNothing(Window(tasks, window), |Window(tasks, window)|);
    LoadedMessagesIs(Window(tasks, window));
    ReloadDropsOnlyDanglingTurns(tasks, window);
  }

  lemma LoadedMessagesIs(tasks: seq<StoredTask>)
    ensures LoadedMessages(tasks) == LoadedUpTo(tasks, |tasks|)
  {
  }

  // ── Complete runs, and the loader that does not sanitise ──────────────────

  lemma {:induction false} LoadedPairedIff(tasks: seq<StoredTask>, n: nat)
    requires n <= |tasks| && forall t :: t in tasks ==> Intact(t)
    ensures FullyPaired(LoadedUpTo(tasks, n)) <==> forall k :: 0 <= k < n ==> FullyPaired(TaskMessages(tasks[k]))
  {
    hide FullyPaired, ResultsFollowUses, TaskMessages;
    if n == 0 {
      NothingUnpaired();
    } else {
      LoadedPairedIff(tasks, n - 1);
      assert Intact(tasks[n - 1]);
      PairedSplit(LoadedUpTo(tasks, n - 1), TaskMessages(tasks[n - 1]));
    }
  }

  lemma NothingUnpaired()
    ensures FullyPaired([])
  {
  }

  /** The legacy loader skips sanitising: one run inside the window with an unanswered turn breaks the next call. */
  lemma LegacyReloadPairedIff(tasks: seq<StoredTask>)
    requires forall t :: t in tasks ==> Intact(t)
    ensures FullyPaired(LoadedMessages(tasks)) <==> forall k :: 0 <= k < |tasks| ==> FullyPaired(TaskMessages(tasks[k]))
  {
    LoadedPairedIff(tasks, |tasks|);
  }

  /** Reloading returns the rows themselves exactly when every run in the window completed its exchanges. */
  lemma ReloadIsIdentityIff(tasks: seq<StoredTask>, window: int)
    requires forall t :: t in tasks ==> Intact(t)
    requires UniqueUses(LoadedMessages(Window(tasks, window)))
    ensures var recent := Window(tasks, window);
            Loaded(tasks, window) == LoadedMessages(recent) <==>
            forall k :: 0 <= k < |recent| ==> FullyPaired(TaskMessages(recent[k]))
  {
    var recent := Window(tasks, window);
    var msgs := LoadedMessages(recent);
    WindowKeeps(tasks, window);
    hide LoadedUpTo, Intact, UniqueUses, AnswersAreNext, WithoutDangling, FullyPaired, FollowUses, TaskMessages, Keep;
    ReloadDropsOnlyDanglingTurns(tasks, window);
    LegacyReloadPairedIff(recent);
    if FullyPaired(msgs) {
      PairedAtEveryPosition(msgs);
      assert NothingSwallowed(msgs);
      SurvivingOfLoaded(recent, |recent|);
      PairedLosesNothing(msgs);
    }
  }

  // ── What a reload consists of ─────────────────────────────────────────────

  /** The messages a task stands for: its rows one by one or, without rows, its input text, if any. */
  ghost predicate MessagesOf(task: StoredTask, msgs: seq<Message>) {
    if task.rows == [] then
      msgs == if task.inputText == "" then [] else [Message(User, Text(task.inputText))]
    else
      |msgs| == |task.rows| && forall i :: 0 <= i < |msgs| ==> ReadFrom(task.rows[i], msgs[i])
  }

  predicate ReadFrom(row: Row, m: Message) {
    m.content == row.content && m.role == match row.role { case AgentRow => Assistant case UserRow => User }
  }

  ghost predicate MessagesOfEach(tasks: seq<StoredTask>, parts: seq<seq<Message>>) {
    |parts| == |tasks| && forall k :: 0 <= k < |tasks| ==> MessagesOf(tasks[k], parts[k])
  }

  /** The rows of the tasks, task after task. */
  lemma {:induction false} LoadedConcatenates(tasks: seq<StoredTask>, n: nat)
    requires n <= |tasks|
    ensures exists parts :: MessagesOfEach(tasks[..n], parts) && Concatenates(LoadedUpTo(tasks, n), parts)
  {
    hide MessagesOf, TaskMessages, Concatenates;
    if n == 0 {
      ConcatenatesNothing<Message>();
      assert MessagesOfEach(tasks[..0], []);
    } else {
      LoadedConcatenates(tasks, n - 1);
      var parts :| MessagesOfEach(tasks[..n - 1], parts) && Concatenates(LoadedUpTo(tasks, n - 1), parts);
      var next := TaskMessages(tasks[n - 1]);
      TaskMessagesAre(tasks[n - 1]);
      ConcatenatesNext(LoadedUpTo(tasks, n - 1), parts, next);
      assert MessagesOfEach(tasks[..n], parts + [next]);
    }
  }

  lemma TaskMessagesAre(task: StoredTask)
    ensures MessagesOf(task, TaskMessages(task))
  {
  }

  /** Main result: where every run in the window completed its exchanges, what is loaded of the tasks
      `older + recent` are the messages of the recent ones, task after task, row after row, and nothing else;
      the recent ones are as many as the window says, or all there are. */
  lemma LatestTasksAreLoaded(older: seq<StoredTask>, recent: seq<StoredTask>, window: int)
    requires |recent| == window > 0 || (older == [] && (window <= 0 || |recent| <= window))
    requires forall t :: t in recent ==> FullyPaired(TaskMessages(t))
    requires UniqueUses(LoadedMessages(recent))
    ensures exists parts :: MessagesOfEach(recent, parts) && Concatenates(Loaded(older + recent, window), parts)
  {
    forall t | t in recent
      ensures Intact(t)
    {
      PairedFollows(TaskMessages(t));
    }
    assert (older + recent)[|older|..] == recent;
    assert Window(older + recent, window) == recent == Window(recent, window);
    LoadedConcatenates(recent, |recent|);
    assert recent[..|recent|] == recent;
    LoadedIs(older + recent, window);
    LoadedIs(recent, window);
    hide Window, LoadedUpTo, Loaded, Intact, FullyPaired, UniqueUses, MessagesOfEach, Concatenates, TaskMessages;
    ReloadIsIdentityIff(recent, window);
  }

  // ── A concrete loss ───────────────────────────────────────────────────────

  const HI := UserText("hi")
  const USE := Message(Assistant, Blocks([ToolUse("t1", "agent__a", JNull)]))
  const EMPTY := Message(Assistant, Blocks([]))

  /** The results row, number 2, was lost; the next assistant turn is empty. */
  const LOSSY := StoredTask([Row(UserRow, HI.content, 0), Row(AgentRow, USE.content, 1), Row(AgentRow, EMPTY.content, 3)], "hi")

  lemma LossyMessages()
    ensures LoadedMessages([LOSSY]) == [HI, USE, EMPTY] && TaskMessages(LOSSY) == [HI, USE, EMPTY]
  {
    assert DeserializeAll(LOSSY.rows) == [HI, USE, EMPTY];
    assert LoadedUpTo([LOSSY], 0) == [];
  }

  lemma UseAsks()
    ensures Asked(USE) == ["t1"] && Asked(HI) == [] && Asked(EMPTY) == []
    ensures Answered(USE) == [] && Answered(HI) == [] && Answered(EMPTY) == []
  {
  }

  lemma LossyKept()
    ensures Sanitized([HI, USE, EMPTY]) == [HI]
  {
    var msgs := [HI, USE, EMPTY];
    UseAsks();
    hide Asked, Answered;
    assert AnsweredBy(msgs, 0) == {} && AnsweredBy(msgs, 1) == {} && AnsweredBy(msgs, 2) == {} && AnsweredBy(msgs, 3) == {};
    assert "t1" in Asked(USE) && Unmatched(USE, {});
    assert msgs[1..] == [USE, EMPTY] && msgs[1..][1..] == [EMPTY] && [EMPTY][1..] == [];
    assert Keep([EMPTY], {}, true) == [];
    assert Keep([USE, EMPTY], {}, false) == [];
  }

  lemma LossySurviving()
    ensures Intact(LOSSY) && Surviving(LOSSY) == [HI, EMPTY]
  {
    var msgs := [HI, USE, EMPTY];
    LossyMessages();
    UseAsks();
    hide Asked, Answered, TaskMessages;
    assert msgs[1..] == [USE, EMPTY] && msgs[1..][1..] == [EMPTY] && [EMPTY][1..] == [];
    assert !DanglingAt([EMPTY], 0) && DanglingAt([USE, EMPTY], 0) && !DanglingAt(msgs, 0);
    assert WithoutDangling([EMPTY]) == [EMPTY];
    assert WithoutDangling([USE, EMPTY]) == [EMPTY];
    FollowStep(EMPTY, [], ["t1"]);
    FollowStep(USE, [EMPTY], []);
    FollowStep(HI, [USE, EMPTY], []);
    hide FollowUses;
    assert [EMPTY] + [] == [EMPTY] && [USE] + [EMPTY] == [USE, EMPTY] && [HI] + [USE, EMPTY] == msgs;
  }

  lemma FollowStep(m: Message, rest: seq<Message>, asked: seq<ToolId>)
    ensures FollowUses([], asked)
    ensures FollowUses([m] + rest, asked) <==> (Answered(m) != [] ==> Answers(m, asked)) && FollowUses(rest, Asked(m))
    ensures FollowUses([], Asked(m))
  {
    assert ([m] + rest)[1..] == rest;
  }

  /** The sanitiser's blind spot: a run whose lost results row is followed by an empty turn loses that too. */
  lemma EmptyTurnAfterDanglingIsLost()
    ensures Intact(LOSSY) && UniqueUses(LoadedMessages([LOSSY]))
    ensures Loaded([LOSSY], 20) == [HI] && AllSurviving([LOSSY]) == [HI, EMPTY]
  {
    LossyMessages();
    LossyKept();
    LossySurviving();
    UseAsks();
    hide LoadedUpTo, Surviving, Intact, Sanitized, Asked;
    assert SurvivingUpTo([LOSSY], 0) == [];
  }

  const RESULT := Message(User, Blocks([ToolResult("t1", "found")]))

  /** The run wrote the user's text, a turn and its results; the assistant row was lost. */
  const STRAY_RUN := [Row(UserRow, HI.content, 0), Row(AgentRow, USE.content, 1), Row(UserRow, RESULT.content, 2)]
  const STRAY := StoredTask([STRAY_RUN[0], STRAY_RUN[2]], "hi")

  lemma StrayLists()
    ensures AttemptsUpTo([STRAY], [STRAY_RUN], 1) == [HI, USE, RESULT] && LoadedMessages([STRAY]) == [HI, RESULT]
  {
    StrayMessages();
    hide Asked, Answered, FollowUses;
    assert AttemptsUpTo([STRAY], [STRAY_RUN], 0) == [] && LoadedUpTo([STRAY], 0) == [];
  }

  /** The sanitiser looks for turns without results, not for results without their turn: those stay. */
  lemma StrayResultsStay()
    ensures LeftByRun(STRAY, STRAY_RUN) && UniqueUses(AttemptsUpTo([STRAY], [STRAY_RUN], 1))
    ensures Loaded([STRAY], 20) == [HI, RESULT] && !FullyPaired(Loaded([STRAY], 20))
  {
    UseAsks();
    StrayMessages();
    StrayLists();
    StrayKept();
    hide AttemptsUpTo, LoadedUpTo, DeserializeAll, Asked, Answered, Sanitized, FullyPaired, FollowUses;
    assert Picks(STRAY.rows, STRAY_RUN, [0, 2]);
  }

  lemma StrayMessages()
    ensures DeserializeAll(STRAY_RUN) == [HI, USE, RESULT] && DeserializeAll(STRAY.rows) == [HI, RESULT]
    ensures ResultsFollowUses([HI, USE, RESULT])
    ensures Asked(RESULT) == [] && Answered(RESULT) == ["t1"]
  {
    UseAsks();
    assert DeserializeAll(STRAY_RUN) == [HI, USE, RESULT];
    assert DeserializeAll(STRAY.rows) == [HI, RESULT];
    assert RESULT.content.blocks[1..] == [];
    assert FollowUses([RESULT], ["t1"]);
    assert [USE, RESULT][1..] == [RESULT] && [HI, USE, RESULT][1..] == [USE, RESULT];
    assert FollowUses([USE, RESULT], []);
  }

  lemma StrayKept()
    ensures Sanitized([HI, RESULT]) == [HI, RESULT] && !FullyPaired([HI, RESULT])
  {
    var results := AnsweredAnywhere([HI, RESULT]);
    UseAsks();
    StrayMessages();
    hide AnsweredBy, Asked, Answered;
    assert [HI, RESULT][1..] == [RESULT] && [RESULT][1..] == [];
    assert Keep([RESULT], results, false) == [RESULT];
  }
}
