/** Conversation messages in the block form the planner and the row store share. */
module Messages {
  import opened Common

  type ToolId = string

  datatype Json =
    | JNull
    | JBool(flag: bool)
    | JNum(num: int)
    | JStr(text: string)
    | JArr(items: seq<Json>)
    | JObj(fields: seq<Field>)

  datatype Field = Field(key: string, value: Json)

  datatype Block =
    | TextBlock(text: string)
    | ToolUse(id: ToolId, name: string, input: Json)
    | ToolResult(toolUseId: ToolId, content: string)
    | OtherBlock

  datatype Content = Text(text: string) | Blocks(blocks: seq<Block>)

  datatype Role = User | Assistant | Tool

  datatype Message = Message(role: Role, content: Content)

  function UserText(text: string): Message {
    Message(User, Text(text))
  }

  /** Tool-use ids of a block list, in order. */
  function UseIds(blocks: seq<Block>): seq<ToolId> {
    if blocks == [] then []
    else if blocks[0].ToolUse? then [blocks[0].id] + UseIds(blocks[1..])
    else UseIds(blocks[1..])
  }

  /** Ids answered by the tool_result blocks of a block list, in order. */
  function ResultIds(blocks: seq<Block>): seq<ToolId> {
    if blocks == [] then []
    else if blocks[0].ToolResult? then [blocks[0].toolUseId] + ResultIds(blocks[1..])
    else ResultIds(blocks[1..])
  }

  predicate IsUse(b: Block) {
    b.ToolUse?
  }

  predicate IsResult(b: Block) {
    b.ToolResult?
  }

  ghost predicate UsesHave(uses: seq<Block>, ids: seq<ToolId>) {
    |uses| == |ids| && forall k :: 0 <= k < |uses| ==> uses[k].ToolUse? && uses[k].id == ids[k]
  }

  ghost predicate ResultsHave(results: seq<Block>, ids: seq<ToolId>) {
    |results| == |ids| && forall k :: 0 <= k < |results| ==> results[k].ToolResult? && results[k].toolUseId == ids[k]
  }

  /** The ids are those of the tool uses, in order, one for each. */
  lemma {:induction false} UseIdsExact(blocks: seq<Block>)
    ensures exists found :: Selects(found, blocks, IsUse) && UsesHave(found, UseIds(blocks))
  {
    hide Selects;
    if blocks == [] {
      SelectsNothing(IsUse);
      assert UsesHave([], []);
    } else {
      var b, rest := blocks[0], blocks[1..];
      UseIdsExact(rest);
      var found :| Selects(found, rest, IsUse) && UsesHave(found, UseIds(rest));
      assert blocks == [b] + rest;
      SelectsPrepend(b, found, rest, IsUse);
      assert UsesHave((if IsUse(b) then [b] else []) + found, UseIds(blocks));
    }
  }

  /** The ids are those of the results, in order, one for each. */
  lemma {:induction false} ResultIdsExact(blocks: seq<Block>)
    ensures exists found :: Selects(found, blocks, IsResult) && ResultsHave(found, ResultIds(blocks))
  {
    hide Selects;
    if blocks == [] {
      SelectsNothing(IsResult);
      assert ResultsHave([], []);
    } else {
      var b, rest := blocks[0], blocks[1..];
      ResultIdsExact(rest);
      var found :| Selects(found, rest, IsResult) && ResultsHave(found, ResultIds(rest));
      assert blocks == [b] + rest;
      SelectsPrepend(b, found, rest, IsResult);
      assert ResultsHave((if IsResult(b) then [b] else []) + found, ResultIds(blocks));
    }
  }

  function Asked(m: Message): seq<ToolId> {
    if m.role == Assistant && m.content.Blocks? then UseIds(m.content.blocks) else []
  }

  function Answered(m: Message): seq<ToolId> {
    if m.role != Assistant && m.content.Blocks? then ResultIds(m.content.blocks) else []
  }

  /** A list content with nothing but tool_result blocks; the empty list qualifies. */
  predicate OnlyResults(m: Message) {
    m.content.Blocks? && forall b :: b in m.content.blocks ==> b.ToolResult?
  }

  /** `m` answers exactly `ids`, one result each, in order. */
  predicate Answers(m: Message, ids: seq<ToolId>) {
    m.role == User && OnlyResults(m) && Answered(m) == ids
  }

  /** The tool-use turn at `i` has no answer right after it. */
  predicate DanglingAt(msgs: seq<Message>, i: nat)
    requires i < |msgs|
  {
    Asked(msgs[i]) != [] && !(i + 1 < |msgs| && Answers(msgs[i + 1], Asked(msgs[i])))
  }

  /** What a provider accepts: every tool-use turn is followed at once by its results, and no result stands alone. */
  predicate FullyPaired(msgs: seq<Message>) {
    if msgs == [] then true
    else if Asked(msgs[0]) == [] then Answered(msgs[0]) == [] && FullyPaired(msgs[1..])
    else |msgs| >= 2 && Answers(msgs[1], Asked(msgs[0])) && FullyPaired(msgs[2..])
  }

  /** Like `FullyPaired`, except that the last message may be an unanswered tool-use turn. */
  predicate PairedUpToLast(msgs: seq<Message>) {
    FullyPaired(msgs) || (msgs != [] && Asked(msgs[|msgs| - 1]) != [] && FullyPaired(msgs[..|msgs| - 1]))
  }

  /** Every results message answers the message right before it; `asked` is what that one asked. */
  predicate FollowUses(msgs: seq<Message>, asked: seq<ToolId>) {
    msgs == [] || ((Answered(msgs[0]) != [] ==> Answers(msgs[0], asked)) && FollowUses(msgs[1..], Asked(msgs[0])))
  }

  /** Every results message directly follows the tool-use turn it answers. */
  predicate ResultsFollowUses(msgs: seq<Message>) {
    FollowUses(msgs, [])
  }

  /** The two readings of pairing: turn by turn, and at every position of the list. */
  lemma {:induction false} PairedAtEveryPosition(msgs: seq<Message>)
    ensures FullyPaired(msgs) <==> ResultsFollowUses(msgs) && forall i :: 0 <= i < |msgs| ==> !DanglingAt(msgs, i)
  {
    if msgs == [] {
    } else if Asked(msgs[0]) == [] {
      var rest := msgs[1..];
      PairedAtEveryPosition(rest);
      assert forall i :: 0 <= i < |rest| ==> DanglingAt(rest, i) == DanglingAt(msgs, i + 1);
      assert forall i :: 1 <= i < |msgs| ==> DanglingAt(msgs, i) == DanglingAt(rest, i - 1);
    } else if !DanglingAt(msgs, 0) {
      var rest := msgs[2..];
      PairedAtEveryPosition(rest);
      assert msgs[1..][1..] == rest && msgs[1..][0] == msgs[1];
      assert FollowUses(msgs, []) == FollowUses(rest, Asked(msgs[1]));
      assert Asked(msgs[1]) == [];
      assert forall i :: 0 <= i < |rest| ==> DanglingAt(rest, i) == DanglingAt(msgs, i + 2);
      assert forall i :: 2 <= i < |msgs| ==> DanglingAt(msgs, i) == DanglingAt(rest, i - 2);
    }
  }

  /** A paired conversation goes on paired exactly with a paired continuation. */
  lemma {:induction false} PairedConcat(a: seq<Message>, b: seq<Message>)
    requires FullyPaired(a)
    ensures FullyPaired(a + b) <==> FullyPaired(b)
  {
    hide Asked, Answered, Answers;
    if a == [] {
      assert a + b == b;
    } else if Asked(a[0]) == [] {
      assert (a + b)[0] == a[0] && (a + b)[1..] == a[1..] + b;
      PairedConcat(a[1..], b);
    } else {
      assert (a + b)[0] == a[0] && (a + b)[1] == a[1] && (a + b)[2..] == a[2..] + b;
      PairedConcat(a[2..], b);
    }
  }

  /** A conversation that continues without results is paired exactly if both parts are. */
  lemma {:induction false} PairedSplit(a: seq<Message>, b: seq<Message>)
    requires ResultsFollowUses(b)
    ensures FullyPaired(a + b) <==> FullyPaired(a) && FullyPaired(b)
  {
    if a == [] {
      assert a + b == b;
    } else if Asked(a[0]) == [] {
      assert (a + b)[1..] == a[1..] + b;
      PairedSplit(a[1..], b);
    } else if |a| >= 2 {
      assert (a + b)[2..] == a[2..] + b;
      PairedSplit(a[2..], b);
    } else if b != [] {
      assert (a + b)[1] == b[0];
    }
  }

  /** A plain message can follow any paired conversation. */
  lemma PairedExtendedByPlain(msgs: seq<Message>, m: Message)
    requires FullyPaired(msgs) && Asked(m) == [] && Answered(m) == []
    ensures FullyPaired(msgs + [m])
  {
    PairedConcat(msgs, [m]);
  }

  lemma PairedExtendedByExchange(msgs: seq<Message>, use: Message, answer: Message)
    requires FullyPaired(msgs) && Asked(use) != [] && Answers(answer, Asked(use))
    ensures FullyPaired(msgs + [use, answer])
  {
    PairedConcat(msgs, [use, answer]);
  }

  lemma {:induction false} PairedFollows(msgs: seq<Message>)
    requires FullyPaired(msgs)
    ensures ResultsFollowUses(msgs)
  {
    if msgs == [] {
    } else if Asked(msgs[0]) == [] {
      PairedFollows(msgs[1..]);
    } else {
      PairedFollows(msgs[2..]);
      assert msgs[1..][1..] == msgs[2..];
      FollowsAnything(msgs[2..], Asked(msgs[1]));
    }
  }

  /** Messages that need nothing before them can follow anything. */
  lemma FollowsAnything(msgs: seq<Message>, asked: seq<ToolId>)
    requires ResultsFollowUses(msgs)
    ensures FollowUses(msgs, asked)
  {
  }

  lemma {:induction false} FollowConcat(a: seq<Message>, b: seq<Message>, asked: seq<ToolId>)
    requires FollowUses(a, asked) && FollowUses(b, if a == [] then asked else Asked(a[|a| - 1]))
    ensures FollowUses(a + b, asked)
  {
    if a == [] {
      assert a + b == b;
    } else {
      assert (a + b)[1..] == a[1..] + b;
      FollowConcat(a[1..], b, Asked(a[0]));
    }
  }

  lemma FollowAppend(a: seq<Message>, b: seq<Message>)
    requires ResultsFollowUses(a) && ResultsFollowUses(b)
    ensures ResultsFollowUses(a + b)
  {
    hide FollowUses;
    FollowsAnything(b, if a == [] then [] else Asked(a[|a| - 1]));
    FollowConcat(a, b, []);
  }

  lemma {:induction false} FollowsAt(msgs: seq<Message>, asked: seq<ToolId>, j: nat)
    requires FollowUses(msgs, asked) && j < |msgs| && Answered(msgs[j]) != []
    ensures Answers(msgs[j], if j == 0 then asked else Asked(msgs[j - 1]))
  {
    if j == 0 {
    } else {
      FollowsAt(msgs[1..], Asked(msgs[0]), j - 1);
    }
  }

  lemma UseFollowsAnything(m: Message, asked: seq<ToolId>)
    requires Asked(m) != []
    ensures FollowUses([m], asked)
  {
  }

  lemma UpToLastFollows(msgs: seq<Message>)
    requires PairedUpToLast(msgs)
    ensures ResultsFollowUses(msgs)
  {
    hide FullyPaired, FollowUses;
    if FullyPaired(msgs) {
      PairedFollows(msgs);
    } else {
      var body, last := msgs[..|msgs| - 1], msgs[|msgs| - 1];
      PairedFollows(body);
      UseFollowsAnything(last, if body == [] then [] else Asked(body[|body| - 1]));
      FollowConcat(body, [last], []);
      assert msgs == body + [last];
    }
  }
}
