/** Shrinking what the planner sees: heavy tool inputs and long tool results. */
module Compaction {
  import opened Common
  import opened Messages
  import opened Texts

  const COMPACT_KEEP: set<string> := {
    "agent", "main_point", "confidence", "approach", "round", "winner", "winner_reason",
    "scores", "final", "synthesized_answer", "question", "field", "insight", "status"
  }
  const HEAVY_INPUT_FIELDS: set<string> := {"arguments", "opponent_arguments"}
  const MAX_TOOL_RESULT_CHARS: nat := 2000
  const TRUNCATED_MARK := "\n[truncated — full result in artifacts]"

  /** The JSON reader and writer; the reader fails on malformed text. */
  datatype Codec = Codec(parse: string -> Option<Json>, dump: Json -> string)

  function KeptFields(fields: seq<Field>): seq<Field> {
    if fields == [] then []
    else if fields[0].key in COMPACT_KEEP then [fields[0]] + KeptFields(fields[1..])
    else KeptFields(fields[1..])
  }

  function DroppedKeys(fields: seq<Field>): seq<string> {
    if fields == [] then []
    else if fields[0].key in COMPACT_KEEP then DroppedKeys(fields[1..])
    else [fields[0].key] + DroppedKeys(fields[1..])
  }

  predicate Listed(f: Field) {
    f.key in COMPACT_KEEP
  }

  predicate Unlisted(f: Field) {
    f.key !in COMPACT_KEEP
  }

  function SlimElement(element: Json): Json {
    if element.JObj? then JObj(KeptFields(element.fields)) else element
  }

  function SlimElements(items: seq<Json>): seq<Json> {
    if items == [] then [] else [SlimElement(items[0])] + SlimElements(items[1..])
  }

  function SlimFields(fields: seq<Field>): seq<Field> {
    if fields == [] then []
    else
      var f := fields[0];
      var slim := if f.key in HEAVY_INPUT_FIELDS && f.value.JArr? then Field(f.key, JArr(SlimElements(f.value.items))) else f;
      [slim] + SlimFields(fields[1..])
  }

  function SlimBlock(block: Block): Block {
    if block.ToolUse? && block.input.JObj? then block.(input := JObj(SlimFields(block.input.fields))) else block
  }

  /** Elides heavy arrays from tool_use inputs; what pairs turns with results is untouched. */
  function SlimToolUseInputs(content: seq<Block>): (slim: seq<Block>)
    ensures |slim| == |content|
    ensures UseIds(slim) == UseIds(content) && ResultIds(slim) == ResultIds(content)
  {
    if content == [] then [] else [SlimBlock(content[0])] + SlimToolUseInputs(content[1..])
  }

  ghost predicate KeysOf(keys: seq<string>, fields: seq<Field>) {
    |keys| == |fields| && forall k :: 0 <= k < |keys| ==> keys[k] == fields[k].key
  }

  /** Exactly the fields on the list are kept, in order, and the other ones' keys are named, in order. */
  lemma {:induction false} KeptFieldsExact(fields: seq<Field>)
    ensures Selects(KeptFields(fields), fields, Listed)
    ensures exists dropped :: Selects(dropped, fields, Unlisted) && KeysOf(DroppedKeys(fields), dropped)
  {
    hide COMPACT_KEEP, Selects;
    if fields == [] {
      SelectsNothing(Listed);
      SelectsNothing(Unlisted);
      assert KeysOf([], []);
    } else {
      KeptFieldsExact(fields[1..]);
      var f, rest := fields[0], fields[1..];
      var dropped :| Selects(dropped, rest, Unlisted) && KeysOf(DroppedKeys(rest), dropped);
      assert fields == [f] + rest;
      SelectsPrepend(f, KeptFields(rest), rest, Listed);
      SelectsPrepend(f, dropped, rest, Unlisted);
      var all := (if Unlisted(f) then [f] else []) + dropped;
      assert KeysOf(DroppedKeys(fields), all);
      assert KeptFields(fields) == (if Listed(f) then [f] else []) + KeptFields(rest);
    }
  }

  /** What slimming may do to an element of a heavy array: elide the unlisted fields of an object. */
  ghost predicate ElementSlimmed(e: Json, slim: Json) {
    if e.JObj? then slim.JObj? && Selects(slim.fields, e.fields, Listed) else slim == e
  }

  /** What slimming may do to a field. */
  ghost predicate FieldSlimmed(f: Field, slim: Field) {
    && slim.key == f.key
    && if f.key in HEAVY_INPUT_FIELDS && f.value.JArr? then
         && slim.value.JArr? && |slim.value.items| == |f.value.items|
         && forall k :: 0 <= k < |f.value.items| ==> ElementSlimmed(f.value.items[k], slim.value.items[k])
       else slim.value == f.value
  }

  lemma {:induction false} ElementsSlimmed(items: seq<Json>)
    ensures |SlimElements(items)| == |items|
    ensures forall k :: 0 <= k < |items| ==> ElementSlimmed(items[k], SlimElements(items)[k])
  {
    if items == [] {
    } else {
      if items[0].JObj? { KeptFieldsExact(items[0].fields); }
      hide COMPACT_KEEP, KeptFields, Selects;
      ElementsSlimmed(items[1..]);
    }
  }

  lemma {:induction false} FieldsSlimmed(fields: seq<Field>)
    ensures |SlimFields(fields)| == |fields|
    ensures forall k :: 0 <= k < |fields| ==> FieldSlimmed(fields[k], SlimFields(fields)[k])
  {
    if fields == [] {
    } else {
      hide ElementSlimmed, HEAVY_INPUT_FIELDS;
      FieldsSlimmed(fields[1..]);
      if fields[0].value.JArr? { ElementsSlimmed(fields[0].value.items); }
    }
  }

  /** What slimming may do to a block: a tool use keeps its id and name, and only its input's fields are slimmed. */
  ghost predicate BlockSlimmed(b: Block, slim: Block) {
    if b.ToolUse? && b.input.JObj? then
      && slim.ToolUse? && slim.id == b.id && slim.name == b.name
      && slim.input.JObj? && |slim.input.fields| == |b.input.fields|
      && forall i :: 0 <= i < |b.input.fields| ==> FieldSlimmed(b.input.fields[i], slim.input.fields[i])
    else slim == b
  }

  /** Slimming touches nothing but heavy arrays in the inputs of tool uses. */
  lemma {:induction false} SlimmedExactly(content: seq<Block>, k: nat)
    requires k < |content|
    ensures BlockSlimmed(content[k], SlimToolUseInputs(content)[k])
  {
    if k == 0 {
      var b := content[0];
      if b.ToolUse? && b.input.JObj? { FieldsSlimmed(b.input.fields); }
    } else {
      SlimmedExactly(content[1..], k - 1);
    }
  }

  /** Index of the last blank before `end`, or -1. */
  function LastBlank(text: string, end: nat): (k: int)
    requires end <= |text|
    ensures -1 <= k < end
    ensures 0 <= k ==> text[k] == ' '
    ensures forall j :: k < j < end ==> text[j] != ' '
  {
    if end == 0 then -1 else if text[end - 1] == ' ' then end - 1 else LastBlank(text, end - 1)
  }

  function KeptOfEach(items: seq<Json>): seq<Json>
    requires forall x :: x in items ==> x.JObj?
  {
    if items == [] then [] else [JObj(KeptFields(items[0].fields))] + KeptOfEach(items[1..])
  }

  function Truncated(text: string): string {
    if |text| > MAX_TOOL_RESULT_CHARS then
      var blank := LastBlank(text, MAX_TOOL_RESULT_CHARS);
      text[..if blank > 0 then blank else MAX_TOOL_RESULT_CHARS] + TRUNCATED_MARK
    else text
  }

  function ElisionNote(dropped: seq<string>): (note: string)
    ensures note == "" <==> dropped == []
  {
    if dropped == [] then "" else "\n[fields elided from context: " + Join(dropped, ", ") + " — full result in artifacts]"
  }

  function CompactToolResult(codec: Codec, text: string): string {
    var stripped := Strip(text);
    var parsed := if stripped != "" && stripped[0] in {'{', '['} then codec.parse(stripped) else None;
    if parsed.Some? && parsed.value.JObj? && stripped[0] == '{' && KeptFields(parsed.value.fields) != [] then
      codec.dump(JObj(KeptFields(parsed.value.fields))) + ElisionNote(DroppedKeys(parsed.value.fields))
    else if parsed.Some? && parsed.value.JArr? && stripped[0] == '[' && forall x :: x in parsed.value.items ==> x.JObj? then
      codec.dump(JArr(KeptOfEach(parsed.value.items)))
    else
      Truncated(text)
  }

  /** A text of at most 2000 characters as it is; a longer one cut at its last blank within the limit, or at the limit
      if there is none but a leading one, and marked. */
  ghost predicate CutShort(text: string, short: string) {
    if |text| <= 2000 then short == text
    else exists cut :: CutAt(text, cut) && short == text[..cut] + "\n[truncated — full result in artifacts]"
  }

  predicate CutAt(text: string, cut: int) {
    && 0 < cut <= 2000 < |text|
    && (cut < 2000 ==> text[cut] == ' ')
    && forall j :: (if cut < 2000 then cut else 0) < j < 2000 ==> text[j] != ' '
  }

  lemma TruncatedIsBoundedPrefix(text: string)
    ensures CutShort(text, Truncated(text))
    ensures |Truncated(text)| <= MAX_TOOL_RESULT_CHARS + |TRUNCATED_MARK|
  {
    if |text| > MAX_TOOL_RESULT_CHARS {
      var blank := LastBlank(text, MAX_TOOL_RESULT_CHARS);
      var cut := if blank > 0 then blank else MAX_TOOL_RESULT_CHARS;
      assert CutAt(text, cut) && Truncated(text) == text[..cut] + TRUNCATED_MARK;
    }
  }

  // ── What the planner gets to see of a result ──────────────────────────────

  /** The text reads as an object with these fields, some of them listed. */
  ghost predicate ReadsAsObject(codec: Codec, text: string, fields: seq<Field>) {
    && (var stripped := Strip(text); stripped != "" && stripped[0] == '{' && codec.parse(stripped) == Some(JObj(fields)))
    && exists f :: f in fields && Listed(f)
  }

  /** The text reads as an array of objects. */
  ghost predicate ReadsAsObjects(codec: Codec, text: string, items: seq<Json>) {
    && (var stripped := Strip(text); stripped != "" && stripped[0] == '[' && codec.parse(stripped) == Some(JArr(items)))
    && forall x :: x in items ==> x.JObj?
  }

  /** Neither: the text does not open like either, is malformed, has no listed field, or holds another value. */
  ghost predicate ReadsAsPlain(codec: Codec, text: string) {
    (forall fields :: !ReadsAsObject(codec, text, fields)) && (forall items :: !ReadsAsObjects(codec, text, items))
  }

  /** The note on an object whose fields were not all listed. */
  ghost predicate NoteOn(note: string, fields: seq<Field>) {
    exists dropped, keys :: Selects(dropped, fields, Unlisted) && KeysOf(keys, dropped) &&
      note == if keys == [] then "" else "\n[fields elided from context: " + Join(keys, ", ") + " — full result in artifacts]"
  }

  /** Each item, an object, with its listed fields only. */
  ghost predicate ItemsListed(kept: seq<Json>, items: seq<Json>) {
    && |kept| == |items|
    && forall k :: 0 <= k < |items| ==> items[k].JObj? && ElementSlimmed(items[k], kept[k])
  }

  lemma SomeListed(fields: seq<Field>)
    ensures KeptFields(fields) != [] <==> exists f :: f in fields && Listed(f)
  {
    KeptFieldsExact(fields);
    var kept := KeptFields(fields);
    var at :| Picks(kept, fields, at) && Hits(at, fields, Listed);
    if kept != [] {
      assert at[0] in at && Listed(fields[at[0]]);
    }
    if f :| f in fields && Listed(f) {
      var i :| 0 <= i < |fields| && fields[i] == f;
      assert i in at;
    }
  }

  /** An object: its listed fields in order and a note naming the others, if any. */
  lemma CompactedObject(codec: Codec, text: string, fields: seq<Field>)
    requires ReadsAsObject(codec, text, fields)
    ensures exists kept, note ::
      && CompactToolResult(codec, text) == codec.dump(JObj(kept)) + note
      && Selects(kept, fields, Listed) && NoteOn(note, fields)
  {
    SomeListed(fields);
    KeptFieldsExact(fields);
    var note := ElisionNote(DroppedKeys(fields));
    var dropped :| Selects(dropped, fields, Unlisted) && KeysOf(DroppedKeys(fields), dropped);
    assert NoteOn(note, fields);
    hide COMPACT_KEEP, KeptFields, Strip, DroppedKeys, ElisionNote, Truncated, KeptOfEach, Selects, NoteOn;
    assert CompactToolResult(codec, text) == codec.dump(JObj(KeptFields(fields))) + note;
  }

  lemma {:induction false} KeptOfEachListed(items: seq<Json>)
    requires forall x :: x in items ==> x.JObj?
    ensures ItemsListed(KeptOfEach(items), items)
  {
    if items == [] {
    } else {
      assert items[0] in items;
      KeptFieldsExact(items[0].fields);
      KeptOfEachListed(items[1..]);
      hide KeptFields, Selects, COMPACT_KEEP;
    }
  }

  /** An array of objects: the same number of objects, each with its listed fields in order. */
  lemma CompactedArray(codec: Codec, text: string, items: seq<Json>)
    requires ReadsAsObjects(codec, text, items)
    ensures exists kept :: ItemsListed(kept, items) && CompactToolResult(codec, text) == codec.dump(JArr(kept))
  {
    KeptOfEachListed(items);
    hide COMPACT_KEEP, KeptFields, Strip, DroppedKeys, ElisionNote, Truncated, KeptOfEach, ItemsListed;
    assert CompactToolResult(codec, text) == codec.dump(JArr(KeptOfEach(items)));
  }

  lemma FallsThrough(codec: Codec, text: string)
    requires var stripped := Strip(text);
             stripped != "" ==>
               match codec.parse(stripped)
               case Some(JObj(fields)) => stripped[0] != '{' || KeptFields(fields) == []
               case Some(JArr(items)) => stripped[0] != '[' || exists x :: x in items && !x.JObj?
               case _ => true
    ensures CompactToolResult(codec, text) == Truncated(text)
  {
    hide COMPACT_KEEP, KeptFields, Strip, DroppedKeys, ElisionNote, Truncated, KeptOfEach;
  }

  /** Anything else, cut short if it is long. */
  lemma CompactedPlain(codec: Codec, text: string)
    requires ReadsAsPlain(codec, text)
    ensures CutShort(text, CompactToolResult(codec, text))
  {
    TruncatedIsBoundedPrefix(text);
    var stripped := Strip(text);
    hide COMPACT_KEEP, KeptFields, Strip, Truncated, CutShort, CompactToolResult, Listed;
    if stripped != "" {
      match codec.parse(stripped)
      case Some(JObj(fields)) =>
        SomeListed(fields);
        assert !ReadsAsObject(codec, text, fields);
      case Some(JArr(items)) =>
        assert !ReadsAsObjects(codec, text, items);
      case _ =>
    }
    FallsThrough(codec, text);
  }

  /** What may be shown in place of a result. */
  ghost predicate ShownAs(codec: Codec, text: string, shown: string) {
    && (forall fields :: ReadsAsObject(codec, text, fields) ==>
          exists kept, note :: shown == codec.dump(JObj(kept)) + note && Selects(kept, fields, Listed) && NoteOn(note, fields))
    && (forall items :: ReadsAsObjects(codec, text, items) ==>
          exists kept :: ItemsListed(kept, items) && shown == codec.dump(JArr(kept)))
    && (ReadsAsPlain(codec, text) ==> CutShort(text, shown))
  }

  /** Main result: what the planner sees of a result, however it reads. */
  lemma ShownExactly(codec: Codec, text: string)
    ensures ShownAs(codec, text, CompactToolResult(codec, text))
  {
    hide CompactToolResult, ReadsAsObject, ReadsAsObjects, ReadsAsPlain, CutShort, ItemsListed, NoteOn, Selects;
    forall fields | ReadsAsObject(codec, text, fields)
      ensures exists kept, note ::
        CompactToolResult(codec, text) == codec.dump(JObj(kept)) + note && Selects(kept, fields, Listed) && NoteOn(note, fields)
    {
      CompactedObject(codec, text, fields);
    }
    forall items | ReadsAsObjects(codec, text, items)
      ensures exists kept :: ItemsListed(kept, items) && CompactToolResult(codec, text) == codec.dump(JArr(kept))
    {
      CompactedArray(codec, text, items);
    }
    if ReadsAsPlain(codec, text) { CompactedPlain(codec, text); }
  }

  /** With a writer that the reader undoes, the shortened result reads back as just that. */
  lemma ShownReadsBack(codec: Codec, text: string, fields: seq<Field>, items: seq<Json>)
    requires forall j :: codec.parse(codec.dump(j)) == Some(j)
    ensures ReadsAsObject(codec, text, fields) ==>
      exists json, kept, note :: CompactToolResult(codec, text) == json + note
        && codec.parse(json) == Some(JObj(kept)) && Selects(kept, fields, Listed) && NoteOn(note, fields)
    ensures ReadsAsObjects(codec, text, items) ==>
      exists kept :: ItemsListed(kept, items) && codec.parse(CompactToolResult(codec, text)) == Some(JArr(kept))
  {
    hide CompactToolResult, ReadsAsObject, ReadsAsObjects, ItemsListed, NoteOn, Selects;
    if ReadsAsObject(codec, text, fields) { CompactedObject(codec, text, fields); }
    if ReadsAsObjects(codec, text, items) { CompactedArray(codec, text, items); }
  }

  /** Result contents shortened for the planner; the ids they answer stay. */
  function CompactResults(codec: Codec, blocks: seq<Block>): (compact: seq<Block>)
    ensures |compact| == |blocks|
    ensures ResultIds(compact) == ResultIds(blocks) && UseIds(compact) == UseIds(blocks)
    ensures (forall b :: b in blocks ==> b.ToolResult?) ==> forall b :: b in compact ==> b.ToolResult?
  {
    if blocks == [] then []
    else
      var b := blocks[0];
      var rest := CompactResults(codec, blocks[1..]);
      if b.ToolResult? then [b.(content := CompactToolResult(codec, b.content))] + rest else [b] + rest
  }

  /** Each result keeps its id and gets what may be shown in its place; every other block stays. */
  lemma {:induction false} CompactedContents(codec: Codec, blocks: seq<Block>, k: nat)
    requires k < |blocks|
    ensures var b, compact := blocks[k], CompactResults(codec, blocks)[k];
            if b.ToolResult? then compact.ToolResult? && compact.toolUseId == b.toolUseId && ShownAs(codec, b.content, compact.content)
            else compact == b
  {
    if k == 0 {
      var b := blocks[0];
      if b.ToolResult? { ShownExactly(codec, b.content); }
      hide CompactToolResult, ShownAs;
    } else {
      hide CompactToolResult, ShownAs;
      CompactedContents(codec, blocks[1..], k - 1);
    }
  }
}
