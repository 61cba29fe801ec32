/** Polling a remote agent's task until it ends, and the event stream this gives the caller. */
module Poll {
  import opened Common
  import opened Texts

  datatype Part = Part(text: Option<string>, mediaType: Option<string>, snakeMediaType: Option<string>)
  datatype Artifact = Artifact(artifactId: string, index: Option<int>, parts: seq<Part>)

  /** What an artifact is remembered by: its id or, for want of one, its index. */
  datatype Key = Id(id: string) | Index(index: int) | NoKey

  datatype Reason =
    | PollDeadline(limit: int)
    | TimeoutAfter(limit: int)
    | Fault(error: string)
    | Text(text: string)
    | EndedIn(state: string)

  datatype Event =
    | TaskCreated(id: string)
    | Status(state: string, inputRequired: bool)
    | Produced(artifact: Artifact)
    | Done(text: string)
    | Error(reason: Reason)

  /** The answer to one poll; a missing state is empty. */
  datatype Reply =
    | Task(state: string, artifacts: seq<Artifact>, message: seq<Part>)
    | Failed(error: string)
    | CutOff                     // the overall timeout struck while waiting

  /** The n-th round checks the deadline at `clock(n)`, receives `reply(n)`, and sleeps, unless `sleepCut(n)`. */
  datatype World = World(timeout: int, maxPoll: int, interval: int, start: int,
                         clock: nat -> int, reply: nat -> Reply, sleepCut: nat -> bool)

  /** A round takes at least the poll interval. */
  ghost predicate Paced(w: World) {
    && w.interval > 0 && w.clock(0) >= w.start
    && forall n: nat :: RoundTakesInterval(w, n)
  }

  predicate RoundTakesInterval(w: World, n: nat) {
    w.clock(n + 1) >= w.clock(n) + w.interval
  }

  const TERMINAL := {"TASK_STATE_COMPLETED", "TASK_STATE_FAILED", "TASK_STATE_CANCELED", "TASK_STATE_REJECTED",
                     "completed", "failed", "canceled", "rejected"}
  const COMPLETED := {"TASK_STATE_COMPLETED", "completed"}
  const INPUT_REQUIRED := {"TASK_STATE_INPUT_REQUIRED", "input-required"}

  function Min(a: int, b: int): int {
    if a <= b then a else b
  }

  function Limit(w: World): int {
    Min(w.timeout, w.maxPoll)
  }

  // ── Artifacts and texts ───────────────────────────────────────────────────

  function KeyOf(a: Artifact): Key {
    if a.artifactId != "" then Id(a.artifactId) else if a.index.Some? then Index(a.index.value) else NoKey
  }

  /** Artifacts count as the same by their ids, if either has one, and otherwise by their indices. */
  lemma SameKeyIff(a: Artifact, b: Artifact)
    ensures KeyOf(a) == KeyOf(b) <==>
      if a.artifactId != "" || b.artifactId != "" then a.artifactId == b.artifactId else a.index == b.index
  {
  }

  function NormalizePart(p: Part): Part {
    if p.mediaType.Some? && p.snakeMediaType.None? then p.(snakeMediaType := p.mediaType) else p
  }

  /** The artifact as it is but for missing snake-case media types, which take the value of the camel-case ones. */
  ghost predicate NormalizedAs(a: Artifact, r: Artifact) {
    && r.artifactId == a.artifactId && r.index == a.index && |r.parts| == |a.parts|
    && forall i :: 0 <= i < |a.parts| ==> PartNormalizedAs(a.parts[i], r.parts[i])
  }

  predicate PartNormalizedAs(p: Part, r: Part) {
    && r.text == p.text && r.mediaType == p.mediaType
    && r.snakeMediaType == if p.snakeMediaType == None then p.mediaType else p.snakeMediaType
  }

  function Normalize(a: Artifact): (r: Artifact)
    ensures NormalizedAs(a, r)
  {
    a.(parts := seq(|a.parts|, i requires 0 <= i < |a.parts| => NormalizePart(a.parts[i])))
  }

  /** Normalising again changes nothing. */
  lemma NormalizeOnce(a: Artifact)
    ensures Normalize(Normalize(a)) == Normalize(a)
  {
    var once := Normalize(a);
    assert Normalize(once).parts == once.parts;
  }

  /** The texts of the first `n` parts. */
  function PartTexts(parts: seq<Part>, n: nat): seq<string>
    requires n <= |parts|
  {
    if n == 0 then [] else PartTexts(parts, n - 1) + if parts[n - 1].text.Some? then [parts[n - 1].text.value] else []
  }

  function ArtifactTexts(artifacts: seq<Artifact>, n: nat): seq<string>
    requires n <= |artifacts|
  {
    if n == 0 then []
    else ArtifactTexts(artifacts, n - 1) + PartTexts(artifacts[n - 1].parts, |artifacts[n - 1].parts|)
  }

  function TaskText(artifacts: seq<Artifact>, message: seq<Part>): string {
    var texts := ArtifactTexts(artifacts, |artifacts|);
    Join(if texts == [] then PartTexts(message, |message|) else texts, "")
  }

  method CollectTexts(parts: seq<Part>) returns (texts: seq<string>)
    ensures texts == PartTexts(parts, |parts|)
  {
    texts := [];
    for i := 0 to |parts|
      invariant texts == PartTexts(parts, i)
    {
      if parts[i].text.Some? { texts := texts + [parts[i].text.value]; }
    }
  }

  method ExtractText(artifacts: seq<Artifact>, message: seq<Part>) returns (text: string)
    ensures text == TaskText(artifacts, message)
  {
    var parts := [];
    for i := 0 to |artifacts|
      invariant parts == ArtifactTexts(artifacts, i)
    {
      var texts := CollectTexts(artifacts[i].parts);
      parts := parts + texts;
    }
    if parts == [] {
      parts := CollectTexts(message);
    }
    text := Join(parts, "");
  }

  predicate HasText(p: Part) {
    p.text.Some?
  }

  ghost predicate TextsOf(told: seq<Part>, texts: seq<string>) {
    |told| == |texts| && forall k :: 0 <= k < |told| ==> told[k].text == Some(texts[k])
  }

  /** The text is that of the parts which have one, one after another in order, and nothing else. */
  ghost predicate Spells(text: string, parts: seq<Part>) {
    exists told, texts :: Selects(told, parts, HasText) && TextsOf(told, texts) && Concatenates(text, texts)
  }

  ghost predicate PartsOfEach(artifacts: seq<Artifact>, pieces: seq<seq<Part>>) {
    |pieces| == |artifacts| && forall k :: 0 <= k < |pieces| ==> pieces[k] == artifacts[k].parts
  }

  /** What a task says: the parts of all its artifacts, artifact after artifact or, if none of them has a text,
      those of its status message. */
  ghost predicate TaskSays(text: string, artifacts: seq<Artifact>, message: seq<Part>) {
    exists all, pieces :: PartsOfEach(artifacts, pieces) && Concatenates(all, pieces) &&
      Spells(text, if exists p :: p in all && HasText(p) then all else message)
  }

  lemma {:induction false} PartTextsExact(parts: seq<Part>, n: nat)
    requires n <= |parts|
    ensures exists told :: Selects(told, parts[..n], HasText) && TextsOf(told, PartTexts(parts, n))
  {
    hide Selects;
    if n == 0 {
      SelectsNothing(HasText);
      assert TextsOf([], PartTexts(parts, 0));
    } else {
      PartTextsExact(parts, n - 1);
      var told :| Selects(told, parts[..n - 1], HasText) && TextsOf(told, PartTexts(parts, n - 1));
      SelectsAppend(told, parts[..n - 1], parts[n - 1], HasText);
      assert parts[..n] == parts[..n - 1] + [parts[n - 1]];
      assert TextsOf(told + (if HasText(parts[n - 1]) then [parts[n - 1]] else []), PartTexts(parts, n));
    }
  }

  lemma PartsTexts(parts: seq<Part>)
    ensures exists told :: Selects(told, parts, HasText) && TextsOf(told, PartTexts(parts, |parts|))
  {
    PartTextsExact(parts, |parts|);
    assert parts[..|parts|] == parts;
  }

  ghost predicate TextsOfArtifacts(artifacts: seq<Artifact>, n: nat, all: seq<Part>, pieces: seq<seq<Part>>, told: seq<Part>)
    requires n <= |artifacts|
  {
    PartsOfEach(artifacts[..n], pieces) && Concatenates(all, pieces) && Selects(told, all, HasText) && TextsOf(told, ArtifactTexts(artifacts, n))
  }

  lemma {:induction false} ArtifactTextsExact(artifacts: seq<Artifact>, n: nat)
    requires n <= |artifacts|
    ensures exists all, pieces, told :: TextsOfArtifacts(artifacts, n, all, pieces, told)
  {
    hide Selects, Concatenates, PartTexts;
    if n == 0 {
      ConcatenatesNothing<Part>();
      SelectsNothing(HasText);
      assert TextsOfArtifacts(artifacts, 0, [], [], []);
    } else {
      ArtifactTextsExact(artifacts, n - 1);
      var all, pieces, told :| TextsOfArtifacts(artifacts, n - 1, all, pieces, told);
      var parts := artifacts[n - 1].parts;
      PartsTexts(parts);
      var more :| Selects(more, parts, HasText) && TextsOf(more, PartTexts(parts, |parts|));
      ConcatenatesNext(all, pieces, parts);
      SelectsConcat(told, all, more, parts, HasText);
      assert TextsOfArtifacts(artifacts, n, all + parts, pieces + [parts], told + more);
    }
  }

  lemma SelectsSome(told: seq<Part>, parts: seq<Part>)
    requires Selects(told, parts, HasText)
    ensures told != [] <==> exists p :: p in parts && HasText(p)
  {
    var at :| Picks(told, parts, at) && Hits(at, parts, HasText);
    if told != [] {
      assert at[0] in at && HasText(parts[at[0]]);
    }
    if p :| p in parts && HasText(p) {
      var i :| 0 <= i < |parts| && parts[i] == p;
      assert i in at;
    }
  }

  /** Main result: what the joined text is, in terms of the parts. */
  lemma TaskTextExact(artifacts: seq<Artifact>, message: seq<Part>)
    ensures TaskSays(TaskText(artifacts, message), artifacts, message)
  {
    hide Selects, Concatenates, Join, ArtifactTexts, PartTexts, HasText;
    ArtifactTextsExact(artifacts, |artifacts|);
    PartsTexts(message);
    var all, pieces, told :| TextsOfArtifacts(artifacts, |artifacts|, all, pieces, told);
    assert artifacts[..|artifacts|] == artifacts;
    SelectsSome(told, all);
    JoinConcatenates(ArtifactTexts(artifacts, |artifacts|));
    JoinConcatenates(PartTexts(message, |message|));
    if told == [] {
      assert Spells(TaskText(artifacts, message), message);
    } else {
      assert Spells(TaskText(artifacts, message), all);
    }
  }

  // ── What the rounds yield ─────────────────────────────────────────────────

  /** The last state reported in the first `n` replies. */
  function LastState(w: World, n: nat): string {
    if n == 0 then ""
    else if w.reply(n - 1).Task? && w.reply(n - 1).state != "" then w.reply(n - 1).state
    else LastState(w, n - 1)
  }

  function KeysIn(artifacts: seq<Artifact>, n: nat): set<Key>
    requires n <= |artifacts|
  {
    if n == 0 then {} else KeysIn(artifacts, n - 1) + {KeyOf(artifacts[n - 1])}
  }

  /** The keys of all artifacts in the first `n` replies. */
  function KeysBy(w: World, n: nat): set<Key> {
    if n == 0 then {}
    else KeysBy(w, n - 1) + if w.reply(n - 1).Task? then KeysIn(w.reply(n - 1).artifacts, |w.reply(n - 1).artifacts|) else {}
  }

  function NewArtifacts(artifacts: seq<Artifact>, n: nat, known: set<Key>): seq<Event>
    requires n <= |artifacts|
  {
    if n == 0 then []
    else
      var a := artifacts[n - 1];
      var before := NewArtifacts(artifacts, n - 1, known);
      if KeyOf(a) in known + KeysIn(artifacts, n - 1) then before else before + [Produced(Normalize(a))]
  }

  /** Round `n`: the state if it differs from the last one reported, and the artifacts not seen in any earlier reply. */
  function Round(w: World, n: nat): seq<Event>
  {
    var r := w.reply(n);
    if !r.Task? then [] else
    (if r.state != "" && r.state != LastState(w, n) then [Status(r.state, r.state in INPUT_REQUIRED)] else [])
    + NewArtifacts(r.artifacts, |r.artifacts|, KeysBy(w, n))
  }

  predicate EndsAt(w: World, n: nat) {
    || w.clock(n) >= w.start + Limit(w)
    || !w.reply(n).Task?
    || w.reply(n).state in TERMINAL
    || w.sleepCut(n)
  }

  function End(w: World, n: nat): (e: nat)
    requires Paced(w)
    ensures e >= n && EndsAt(w, e) && forall j :: n <= j < e ==> !EndsAt(w, j)
    decreases w.start + Limit(w) - w.clock(n)
  {
    assert RoundTakesInterval(w, n);
    if EndsAt(w, n) then n else End(w, n + 1)
  }

  function Rounds(w: World, n: nat): seq<Event> {
    if n == 0 then [] else Rounds(w, n - 1) + Round(w, n - 1)
  }

  /** How polling ends: with a last event, or by raising. */
  datatype Ending = Yields(event: Event) | Raises(reason: Reason)

  function Closing(w: World, e: nat): Ending
    requires EndsAt(w, e)
  {
    var r := w.reply(e);
    if w.clock(e) >= w.start + Limit(w) then Yields(Error(PollDeadline(w.maxPoll)))
    else if r.Failed? then Raises(Fault(r.error))
    else if r.CutOff? then Raises(TimeoutAfter(Limit(w)))
    else if r.state in COMPLETED then Yields(Done(TaskText(r.artifacts, r.message)))
    else if r.state in TERMINAL then
      var text := TaskText(r.artifacts, r.message);
      Yields(Error(if text != "" then Text(text) else EndedIn(r.state)))
    else Raises(TimeoutAfter(Limit(w)))
  }

  /** How many polls are sent. */
  function Polls(w: World): nat
    requires Paced(w)
  {
    var e := End(w, 0);
    if w.clock(e) >= w.start + Limit(w) then e else e + 1
  }

  /** One round's status and artifact events, and what is remembered for the next. */
  method Report(w: World, n: nat, lastState: string, known: set<Key>)
    returns (events: seq<Event>, state: string, yielded: set<Key>)
    requires w.reply(n).Task? && lastState == LastState(w, n) && known == KeysBy(w, n)
    ensures events == Round(w, n) && state == LastState(w, n + 1) && yielded == KeysBy(w, n + 1)
  {
    var r := w.reply(n);
    events, state, yielded := [], lastState, known;
    if r.state != "" && r.state != lastState {
      state := r.state;
      events := events + [Status(r.state, r.state in INPUT_REQUIRED)];
    }
    ghost var status := events;
    for i := 0 to |r.artifacts|
      invariant events == status + NewArtifacts(r.artifacts, i, known)
      invariant yielded == known + KeysIn(r.artifacts, i)
    {
      var key := KeyOf(r.artifacts[i]);
      if key !in yielded {
        yielded := yielded + {key};
        events := events + [Produced(Normalize(r.artifacts[i]))];
      }
    }
  }

  method PollEvents(w: World) returns (events: seq<Event>, raised: Option<Reason>, polls: nat)
    requires Paced(w)
    ensures polls == Polls(w)
    ensures var ending := Closing(w, End(w, 0));
            if ending.Yields? then raised == None && events == Rounds(w, polls) + [ending.event]
            else raised == Some(ending.reason) && events == Rounds(w, polls)
  {
    hide Round, TaskText, LastState, KeysBy;
    events, raised, polls := [], None, 0;
    var deadline := w.start + Min(w.timeout, w.maxPoll);
    var lastState := "";
    var yielded: set<Key> := {};
    RemembersNothing(w);
    while true
      invariant End(w, 0) == End(w, polls)
      invariant events == Rounds(w, polls) && lastState == LastState(w, polls) && yielded == KeysBy(w, polls)
      decreases deadline - w.clock(polls)
    {
      if w.clock(polls) >= deadline {
        return events + [Error(PollDeadline(w.maxPoll))], None, polls;
      }
      var n := polls;
      var r := w.reply(n);
      polls := n + 1;
      FaultYieldsNothing(w, n);
      if r.Failed? { return events, Some(Fault(r.error)), polls; }
      if r.CutOff? { return events, Some(TimeoutAfter(Limit(w))), polls; }
      var reported;
      reported, lastState, yielded := Report(w, n, lastState, yielded);
      if r.state in TERMINAL {
        var text := ExtractText(r.artifacts, r.message);
        var last := if r.state in COMPLETED then Done(text) else Error(if text != "" then Text(text) else EndedIn(r.state));
        return events + reported + [last], None, polls;
      }
      events := events + reported;
      if w.sleepCut(n) { return events, Some(TimeoutAfter(Limit(w))), polls; }
      assert RoundTakesInterval(w, n);
    }
  }

  lemma FaultYieldsNothing(w: World, n: nat)
    ensures !w.reply(n).Task? ==> Rounds(w, n + 1) == Rounds(w, n)
  {
    assert Rounds(w, n) + [] == Rounds(w, n);
  }

  lemma RemembersNothing(w: World)
    ensures LastState(w, 0) == "" && KeysBy(w, 0) == {}
  {
  }

  /** Handing the task over: the remote id, or the failure raised. */
  datatype Submission = Accepted(id: string) | Refused(reason: Reason)

  function Stream(w: World, s: Submission): seq<Event>
    requires Paced(w)
  {
    if s.Refused? then [Error(s.reason)]
    else [TaskCreated(s.id)] + Rounds(w, Polls(w)) + [Last(w)]
  }

  /** The last event; a failure that is raised is reported as an error. */
  function Last(w: World): Event
    requires Paced(w)
  {
    var ending := Closing(w, End(w, 0));
    if ending.Yields? then ending.event else Error(ending.reason)
  }

  method StreamInvoke(w: World, s: Submission) returns (events: seq<Event>)
    requires Paced(w)
    ensures events == Stream(w, s)
  {
    hide Rounds, Closing, EndsAt, End, Polls;
    if s.Refused? { return [Error(s.reason)]; }
    events := [TaskCreated(s.id)];
    var polled, raised, _ := PollEvents(w);
    events := events + polled;
    if raised.Some? { events := events + [Error(raised.value)]; }
  }

  // ── What a caller can rely on ─────────────────────────────────────────────

  predicate IsTerminal(e: Event) {
    e.Done? || e.Error?
  }

  predicate NoneTerminal(events: seq<Event>) {
    forall i :: 0 <= i < |events| ==> !IsTerminal(events[i])
  }

  /** The states reported, in order. */
  function States(events: seq<Event>): seq<string> {
    if events == [] then []
    else
      var e := events[|events| - 1];
      States(events[..|events| - 1]) + if e.Status? then [e.state] else []
  }

  /** The keys of the artifacts reported, in order. */
  function Keys(events: seq<Event>): seq<Key> {
    if events == [] then []
    else
      var e := events[|events| - 1];
      Keys(events[..|events| - 1]) + if e.Produced? then [KeyOf(e.artifact)] else []
  }

  lemma {:induction false} StatesConcat(a: seq<Event>, b: seq<Event>)
    ensures States(a + b) == States(a) + States(b)
  {
    if b == [] {
      assert a + b == a;
    } else {
      StatesConcat(a, b[..|b| - 1]);
      assert (a + b)[..|a + b| - 1] == a + b[..|b| - 1];
    }
  }

  lemma {:induction false} KeysConcat(a: seq<Event>, b: seq<Event>)
    ensures Keys(a + b) == Keys(a) + Keys(b)
  {
    if b == [] {
      assert a + b == a;
    } else {
      KeysConcat(a, b[..|b| - 1]);
      assert (a + b)[..|a + b| - 1] == a + b[..|b| - 1];
    }
  }

  lemma One(e: Event)
    ensures States([e]) == (if e.Status? then [e.state] else [])
    ensures Keys([e]) == (if e.Produced? then [KeyOf(e.artifact)] else [])
  {
    assert [e][..0] == [];
  }

  /** No state is followed by itself. */
  predicate NoRepeats(s: seq<string>) {
    |s| <= 1 || (s[|s| - 1] != s[|s| - 2] && NoRepeats(s[..|s| - 1]))
  }

  /** `s` holds each of `keys` exactly once and nothing else. */
  ghost predicate Lists(s: seq<Key>, keys: set<Key>) {
    Distinct(s) && forall k :: k in s <==> k in keys
  }

  lemma ListsJoin(a: seq<Key>, ka: set<Key>, b: seq<Key>, kb: set<Key>)
    requires Lists(a, ka) && Lists(b, kb) && ka !! kb
    ensures Lists(a + b, ka + kb)
  {
    var s := a + b;
    forall i, j | 0 <= i < j < |s|
      ensures s[i] != s[j]
    {
      if i < |a| <= j { assert s[i] in a && s[j] in b; }
    }
  }

  lemma Same(keys: set<Key>, others: set<Key>)
    requires forall k :: k in keys <==> k in others
    ensures keys == others
  {
  }

  lemma {:induction false} NewArtifactsNotTerminal(artifacts: seq<Artifact>, n: nat, known: set<Key>)
    requires n <= |artifacts|
    ensures NoneTerminal(NewArtifacts(artifacts, n, known))
  {
    if n == 0 {
    } else {
      NewArtifactsNotTerminal(artifacts, n - 1, known);
    }
  }

  lemma {:induction false} NewArtifactsStateless(artifacts: seq<Artifact>, n: nat, known: set<Key>)
    requires n <= |artifacts|
    ensures States(NewArtifacts(artifacts, n, known)) == []
  {
    hide States;
    if n == 0 {
      Empty();
    } else {
      NewArtifactsStateless(artifacts, n - 1, known);
      hide Normalize, KeyOf, KeysIn;
      var e := Produced(Normalize(artifacts[n - 1]));
      One(e);
      StatesConcat(NewArtifacts(artifacts, n - 1, known), [e]);
    }
  }

  lemma Empty()
    ensures States([]) == [] && Keys([]) == []
  {
  }

  lemma NewArtifactsNext(artifacts: seq<Artifact>, n: nat, known: set<Key>)
    requires 0 < n <= |artifacts|
    ensures KeysIn(artifacts, n) == KeysIn(artifacts, n - 1) + {KeyOf(artifacts[n - 1])}
    ensures NewArtifacts(artifacts, n, known) ==
      NewArtifacts(artifacts, n - 1, known) +
      if KeyOf(artifacts[n - 1]) in known + KeysIn(artifacts, n - 1) then [] else [Produced(Normalize(artifacts[n - 1]))]
  {
    hide KeyOf, Normalize;
  }

  lemma NothingNew(artifacts: seq<Artifact>, known: set<Key>)
    ensures Lists(Keys(NewArtifacts(artifacts, 0, known)), KeysIn(artifacts, 0) - known)
  {
    Empty();
  }

  lemma {:induction false} NewArtifactsKeys(artifacts: seq<Artifact>, n: nat, known: set<Key>)
    requires n <= |artifacts|
    ensures Lists(Keys(NewArtifacts(artifacts, n, known)), KeysIn(artifacts, n) - known)
  {
    hide Lists, Keys, Normalize, KeyOf, NewArtifacts, KeysIn;
    if n == 0 {
      NothingNew(artifacts, known);
    } else {
      NewArtifactsKeys(artifacts, n - 1, known);
      NewArtifactsNext(artifacts, n, known);
      var before, key := NewArtifacts(artifacts, n - 1, known), KeyOf(artifacts[n - 1]);
      var had := KeysIn(artifacts, n - 1) - known;
      if key in known + KeysIn(artifacts, n - 1) {
        Same(KeysIn(artifacts, n) - known, had);
        assert before + [] == before;
      } else {
        var e := Produced(Normalize(artifacts[n - 1]));
        NormalizedKey(artifacts[n - 1]);
        KeysConcat(before, [e]);
        One(e);
        OneKey(key);
        ListsJoin(Keys(before), had, [key], {key});
        Same(KeysIn(artifacts, n) - known, had + {key});
      }
    }
  }

  lemma NormalizedKey(a: Artifact)
    ensures KeyOf(Normalize(a)) == KeyOf(a)
  {
  }

  lemma OneKey(k: Key)
    ensures Lists([k], {k})
  {
  }

  /** What round `n` says about the task's state. */
  function News(w: World, n: nat): seq<string> {
    var r := w.reply(n);
    if r.Task? && r.state != "" && r.state != LastState(w, n) then [r.state] else []
  }

  lemma RoundStates(w: World, n: nat)
    ensures NoneTerminal(Round(w, n)) && States(Round(w, n)) == News(w, n)
  {
    hide States, NewArtifacts, KeysBy, LastState, INPUT_REQUIRED;
    var r := w.reply(n);
    Empty();
    if r.Task? {
      var status := if News(w, n) != [] then [Status(r.state, r.state in INPUT_REQUIRED)] else [];
      NewArtifactsNotTerminal(r.artifacts, |r.artifacts|, KeysBy(w, n));
      NewArtifactsStateless(r.artifacts, |r.artifacts|, KeysBy(w, n));
      StatesConcat(status, NewArtifacts(r.artifacts, |r.artifacts|, KeysBy(w, n)));
      if status != [] { One(status[0]); }
    }
  }

  lemma RoundKeys(w: World, n: nat)
    ensures Lists(Keys(Round(w, n)), KeysBy(w, n + 1) - KeysBy(w, n))
  {
    hide Keys, NewArtifacts, LastState, Lists, INPUT_REQUIRED;
    var r := w.reply(n);
    if r.Task? {
      var status := if News(w, n) != [] then [Status(r.state, r.state in INPUT_REQUIRED)] else [];
      NewArtifactsKeys(r.artifacts, |r.artifacts|, KeysBy(w, n));
      KeysConcat(status, NewArtifacts(r.artifacts, |r.artifacts|, KeysBy(w, n)));
      if status != [] { One(status[0]); } else { Empty(); }
      var produced := Keys(NewArtifacts(r.artifacts, |r.artifacts|, KeysBy(w, n)));
      assert [] + produced == produced;
      Same(KeysIn(r.artifacts, |r.artifacts|) - KeysBy(w, n), KeysBy(w, n + 1) - KeysBy(w, n));
    } else {
      Empty();
      NoKeys();
      Same(KeysBy(w, n + 1) - KeysBy(w, n), {});
    }
  }

  lemma NoKeys()
    ensures Lists([], {})
  {
  }

  lemma NoRepeatsAppend(states: seq<string>, s: string)
    requires NoRepeats(states) && (states == [] || states[|states| - 1] != s)
    ensures NoRepeats(states + [s])
  {
    assert (states + [s])[..|states|] == states;
  }

  predicate HasState(w: World, n: nat) {
    w.reply(n).Task? && w.reply(n).state != ""
  }

  lemma LastStateStep(w: World, n: nat)
    ensures LastState(w, 0) == ""
    ensures n > 0 ==> LastState(w, n) == if HasState(w, n - 1) then w.reply(n - 1).state else LastState(w, n - 1)
  {
  }

  lemma RoundsNext(w: World, n: nat)
    ensures Rounds(w, 0) == []
    ensures n > 0 ==> Rounds(w, n) == Rounds(w, n - 1) + Round(w, n - 1)
  {
    hide Round;
  }

  lemma NoneTerminalConcat(a: seq<Event>, b: seq<Event>)
    requires NoneTerminal(a) && NoneTerminal(b)
    ensures NoneTerminal(a + b)
  {
  }

  /** The states reported do not repeat, and the last of them is the last state there was. */
  predicate ToldUpTo(w: World, n: nat, states: seq<string>) {
    NoRepeats(states) && LastState(w, n) == if states == [] then "" else states[|states| - 1]
  }

  lemma ToldNext(w: World, n: nat, states: seq<string>)
    requires ToldUpTo(w, n, states)
    ensures ToldUpTo(w, n + 1, states + News(w, n))
  {
    LastStateStep(w, n + 1);
    hide NoRepeats, LastState;
    var news := News(w, n);
    if news == [] { assert states + [] == states; } else { NoRepeatsAppend(states, news[0]); }
  }

  lemma NothingTold(w: World)
    ensures ToldUpTo(w, 0, []) && NoneTerminal([])
  {
  }

  lemma {:induction false} RoundsStates(w: World, n: nat)
    ensures NoneTerminal(Rounds(w, n)) && ToldUpTo(w, n, States(Rounds(w, n)))
  {
    hide States, Round, Rounds, ToldUpTo, NoneTerminal;
    RoundsNext(w, n);
    if n == 0 {
      Empty();
      NothingTold(w);
    } else {
      RoundsStates(w, n - 1);
      RoundStates(w, n - 1);
      StatesConcat(Rounds(w, n - 1), Round(w, n - 1));
      NoneTerminalConcat(Rounds(w, n - 1), Round(w, n - 1));
      ToldNext(w, n - 1, States(Rounds(w, n - 1)));
    }
  }

  lemma {:induction false} RoundsKeys(w: World, n: nat)
    ensures Lists(Keys(Rounds(w, n)), KeysBy(w, n))
  {
    hide Keys, Round, Lists;
    Empty();
    NoKeys();
    if n == 0 {
    } else {
      RoundsKeys(w, n - 1);
      RoundKeys(w, n - 1);
      var now, before := KeysBy(w, n), KeysBy(w, n - 1);
      KeysConcat(Rounds(w, n - 1), Round(w, n - 1));
      ListsJoin(Keys(Rounds(w, n - 1)), before, Keys(Round(w, n - 1)), now - before);
      Same(now, before + (now - before));
    }
  }

  /** Main result: the stream never repeats a state consecutively, and reports every artifact key that any
      reply contained exactly once. */
  lemma EachOnce(w: World, s: Submission)
    requires Paced(w) && s.Accepted?
    ensures NoRepeats(States(Stream(w, s)))
    ensures Lists(Keys(Stream(w, s)), KeysBy(w, Polls(w)))
  {
    hide Rounds, Polls, NoRepeats, Lists, States, Keys, Closing;
    var rounds, last := Rounds(w, Polls(w)), Last(w);
    RoundsStates(w, Polls(w));
    RoundsKeys(w, Polls(w));
    StatesConcat([TaskCreated(s.id)] + rounds, [last]);
    StatesConcat([TaskCreated(s.id)], rounds);
    KeysConcat([TaskCreated(s.id)] + rounds, [last]);
    KeysConcat([TaskCreated(s.id)], rounds);
    One(TaskCreated(s.id));
    LastIsTerminal(w);
    One(last);
    assert States(Stream(w, s)) == States(rounds) && Keys(Stream(w, s)) == Keys(rounds);
  }

  lemma AllButLast(first: Event, rounds: seq<Event>, last: Event)
    requires !IsTerminal(first) && NoneTerminal(rounds)
    ensures NoneTerminal(([first] + rounds + [last])[..1 + |rounds|])
  {
    assert ([first] + rounds + [last])[..1 + |rounds|] == [first] + rounds;
  }

  lemma LastIsTerminal(w: World)
    requires Paced(w)
    ensures IsTerminal(Last(w))
  {
  }

  /** Main result: whatever the agent answers, the stream ends in its one and only done or error; it opens
      with the task's id once the submission was accepted. */
  lemma ExactlyOneTerminal(w: World, s: Submission)
    requires Paced(w)
    ensures var events := Stream(w, s);
            && events != [] && IsTerminal(events[|events| - 1]) && NoneTerminal(events[..|events| - 1])
            && (s.Accepted? ==> events[0] == TaskCreated(s.id))
  {
    if s.Accepted? {
      LastIsTerminal(w);
      RoundsStates(w, Polls(w));
      hide Rounds, Polls, Last, IsTerminal, End, EndsAt;
      AllButLast(TaskCreated(s.id), Rounds(w, Polls(w)), Last(w));
    }
  }

  lemma {:induction false} ClockAdvances(w: World, n: nat)
    requires Paced(w)
    ensures w.clock(n) >= w.start + n * w.interval
  {
    if n == 0 {
    } else {
      ClockAdvances(w, n - 1);
      assert RoundTakesInterval(w, n - 1);
    }
  }

  /** At most ceil(limit / interval) polls are sent. */
  lemma PollsBounded(w: World)
    requires Paced(w)
    ensures Polls(w) > 0 ==> (Polls(w) - 1) * w.interval < Limit(w)
  {
    var n := Polls(w);
    if n > 0 {
      ClockAdvances(w, n - 1);
      assert n - 1 < End(w, 0) ==> !EndsAt(w, n - 1);
      assert w.clock(n - 1) < w.start + Limit(w);
    }
  }

  /** The stream says done exactly when some reply before the deadline completes the task and no earlier
      round ended the polling; it then carries that reply's text. */
  lemma DoneIff(w: World, s: Submission)
    requires Paced(w) && s.Accepted?
    ensures var last := Last(w);
            && Stream(w, s)[|Stream(w, s)| - 1] == last
            && (last.Done? <==> exists n: nat :: CompletesAt(w, n))
            && (forall n: nat :: CompletesAt(w, n) ==> last == Done(TaskText(w.reply(n).artifacts, w.reply(n).message)))
  {
    var e := End(w, 0);
    if Last(w).Done? { assert CompletesAt(w, e); }
    forall n: nat | CompletesAt(w, n)
      ensures n == e
    {
      assert EndsAt(w, e) && EndsAt(w, n);
    }
  }

  predicate CompletesAt(w: World, n: nat) {
    && w.clock(n) < w.start + Limit(w) && w.reply(n).Task? && w.reply(n).state in COMPLETED
    && forall j :: 0 <= j < n ==> !EndsAt(w, j)
  }

  // ── The events in terms of the replies ────────────────────────────────────

  /** Reply `n` has a state other than that of the last reply before it that has one. */
  ghost predicate ChangesState(w: World, n: nat) {
    HasState(w, n) && forall j: nat :: j < n && LastWithState(w, j, n) ==> w.reply(j).state != w.reply(n).state
  }

  ghost predicate LastWithState(w: World, j: nat, n: nat) {
    HasState(w, j) && forall l: nat :: j < l < n ==> !HasState(w, l)
  }

  /** The reported states are those of the replies at the positions `at`, all that change the state before `n`. */
  ghost predicate ReportsChanges(w: World, n: nat, states: seq<string>, at: seq<nat>) {
    && |at| == |states|
    && (forall k :: 0 <= k < |at| ==> at[k] < n && w.reply(at[k]).Task? && states[k] == w.reply(at[k]).state)
    && (forall k, l :: 0 <= k < l < |at| ==> at[k] < at[l])
    && (forall i: nat :: i < n ==> (i in at <==> ChangesState(w, i)))
  }

  lemma {:induction false} LastStateExact(w: World, n: nat)
    ensures forall j: nat :: j < n && LastWithState(w, j, n) ==> LastState(w, n) == w.reply(j).state
    ensures (forall j: nat :: j < n ==> !HasState(w, j)) ==> LastState(w, n) == ""
  {
    LastStateStep(w, n);
    hide LastState;
    if n == 0 {
    } else {
      LastStateExact(w, n - 1);
      forall j: nat | j < n && LastWithState(w, j, n)
        ensures LastState(w, n) == w.reply(j).state
      {
        if j < n - 1 { assert LastWithState(w, j, n - 1); }
      }
    }
  }

  lemma {:induction false} SomeLast(w: World, n: nat)
    requires exists j: nat :: j < n && HasState(w, j)
    ensures exists j: nat :: j < n && LastWithState(w, j, n)
  {
    if HasState(w, n - 1) {
      assert LastWithState(w, n - 1, n);
    } else {
      var j: nat :| j < n && HasState(w, j);
      SomeLast(w, n - 1);
      var k: nat :| k < n - 1 && LastWithState(w, k, n - 1);
      assert LastWithState(w, k, n);
    }
  }

  lemma NewsIff(w: World, n: nat)
    ensures News(w, n) == if ChangesState(w, n) then [w.reply(n).state] else []
  {
    LastStateExact(w, n);
    hide LastState;
    if exists j: nat :: j < n && HasState(w, j) {
      SomeLast(w, n);
    }
  }

  lemma NothingReported(w: World)
    ensures ReportsChanges(w, 0, [], [])
  {
  }

  lemma {:induction false} RoundsReport(w: World, n: nat)
    ensures exists at :: ReportsChanges(w, n, States(Rounds(w, n)), at)
  {
    hide States, Rounds, Round, ChangesState, ReportsChanges;
    RoundsNext(w, n);
    if n == 0 {
      Empty();
      NothingReported(w);
    } else {
      RoundsReport(w, n - 1);
      RoundStates(w, n - 1);
      StatesConcat(Rounds(w, n - 1), Round(w, n - 1));
      NewsIff(w, n - 1);
      var at :| ReportsChanges(w, n - 1, States(Rounds(w, n - 1)), at);
      ReportsNext(w, n, States(Rounds(w, n - 1)), at, States(Rounds(w, n)));
    }
  }

  lemma ReportsNext(w: World, n: nat, states: seq<string>, at: seq<nat>, next: seq<string>)
    requires n > 0 && ReportsChanges(w, n - 1, states, at)
    requires next == states + (if ChangesState(w, n - 1) then [w.reply(n - 1).state] else [])
    ensures exists more :: ReportsChanges(w, n, next, more)
  {
    var m: nat := n - 1;
    assert ChangesState(w, m) ==> w.reply(m).Task?;
    hide ChangesState;
    var more := if ChangesState(w, m) then at + [m] else at;
    assert forall i: nat :: i in more <==> i in at || (i == m && ChangesState(w, m));
    assert ReportsChanges(w, n, next, more);
  }

  /** The artifact is one of reply `n`, normalised, and no artifact before it counts as the same. */
  ghost predicate FirstSeen(w: World, n: nat, i: nat, shown: Artifact) {
    && w.reply(n).Task? && i < |w.reply(n).artifacts| && NormalizedAs(w.reply(n).artifacts[i], shown)
    && (forall j :: 0 <= j < i ==> KeyOf(w.reply(n).artifacts[j]) != KeyOf(shown))
    && forall m: nat, j: nat :: m < n && HasArtifact(w, m, j) ==> KeyOf(w.reply(m).artifacts[j]) != KeyOf(shown)
  }

  predicate HasArtifact(w: World, m: nat, j: nat) {
    w.reply(m).Task? && j < |w.reply(m).artifacts|
  }

  /** An event that some reply before `n` accounts for. */
  ghost predicate Accounted(w: World, n: nat, e: Event) {
    match e
    case Status(state, inputRequired) => inputRequired <==> state in {"TASK_STATE_INPUT_REQUIRED", "input-required"}
    case Produced(shown) => exists m: nat, i: nat :: m < n && FirstSeen(w, m, i, shown)
    case _ => false
  }

  lemma {:induction false} KeysInExact(artifacts: seq<Artifact>, n: nat, key: Key)
    requires n <= |artifacts|
    ensures key in KeysIn(artifacts, n) <==> exists i :: 0 <= i < n && KeyOf(artifacts[i]) == key
  {
    hide KeyOf;
    if n == 0 {
    } else {
      KeysInExact(artifacts, n - 1, key);
    }
  }

  /** The keys of the replies polled are those of their artifacts. */
  lemma {:induction false} KeysByExact(w: World, n: nat, key: Key)
    ensures key in KeysBy(w, n) <==> exists m: nat, j: nat :: m < n && HasArtifact(w, m, j) && KeyOf(w.reply(m).artifacts[j]) == key
  {
    hide KeyOf, KeysIn;
    if n == 0 {
    } else {
      KeysByExact(w, n - 1, key);
      if w.reply(n - 1).Task? {
        var artifacts := w.reply(n - 1).artifacts;
        KeysInExact(artifacts, |artifacts|, key);
        if key in KeysIn(artifacts, |artifacts|) {
          var i :| 0 <= i < |artifacts| && KeyOf(artifacts[i]) == key;
          assert HasArtifact(w, n - 1, i);
        }
      }
    }
  }

  lemma {:induction false} NewArtifactsSeen(w: World, m: nat, i: nat)
    requires w.reply(m).Task? && i <= |w.reply(m).artifacts|
    ensures forall k :: 0 <= k < |NewArtifacts(w.reply(m).artifacts, i, KeysBy(w, m))| ==>
      Accounted(w, m + 1, NewArtifacts(w.reply(m).artifacts, i, KeysBy(w, m))[k])
  {
    var artifacts := w.reply(m).artifacts;
    hide KeyOf, KeysIn, KeysBy, Normalize, Accounted;
    if i == 0 {
    } else {
      NewArtifactsSeen(w, m, i - 1);
      var a := artifacts[i - 1];
      if KeyOf(a) !in KeysBy(w, m) + KeysIn(artifacts, i - 1) {
        NewIsFirstSeen(w, m, i - 1);
      }
    }
  }

  lemma NewIsFirstSeen(w: World, m: nat, i: nat)
    requires w.reply(m).Task? && i < |w.reply(m).artifacts|
    requires KeyOf(w.reply(m).artifacts[i]) !in KeysBy(w, m) + KeysIn(w.reply(m).artifacts, i)
    ensures Accounted(w, m + 1, Produced(Normalize(w.reply(m).artifacts[i])))
  {
    var artifacts := w.reply(m).artifacts;
    var shown := Normalize(artifacts[i]);
    assert KeyOf(shown) == KeyOf(artifacts[i]);
    hide KeyOf, KeysIn, KeysBy;
    KeysInExact(artifacts, i, KeyOf(shown));
    KeysByExact(w, m, KeyOf(shown));
    assert FirstSeen(w, m, i, shown);
  }

  lemma {:induction false} RoundsAccounted(w: World, n: nat)
    ensures forall k :: 0 <= k < |Rounds(w, n)| ==> Accounted(w, n, Rounds(w, n)[k])
  {
    hide Accounted, Round;
    if n == 0 {
    } else {
      RoundsAccounted(w, n - 1);
      RoundAccounted(w, n - 1);
      forall e | Accounted(w, n - 1, e)
        ensures Accounted(w, n, e)
      {
        StaysAccounted(w, n - 1, e);
      }
    }
  }

  lemma StaysAccounted(w: World, n: nat, e: Event)
    requires Accounted(w, n, e)
    ensures Accounted(w, n + 1, e)
  {
  }

  lemma RoundAccounted(w: World, n: nat)
    ensures forall k :: 0 <= k < |Round(w, n)| ==> Accounted(w, n + 1, Round(w, n)[k])
  {
    hide NewArtifacts, KeysBy, LastState, FirstSeen;
    if w.reply(n).Task? { NewArtifactsSeen(w, n, |w.reply(n).artifacts|); }
  }

  /** Main result: between the first and the last event the stream holds exactly the changes of state, each once and
      flagged when input is required, and artifacts as they first came, normalised. */
  lemma StreamFromReplies(w: World, s: Submission)
    requires Paced(w) && s.Accepted?
    ensures exists events, last, at ::
      && Stream(w, s) == [TaskCreated(s.id)] + events + [last]
      && ReportsChanges(w, Polls(w), States(events), at)
      && forall k :: 0 <= k < |events| ==> Accounted(w, Polls(w), events[k])
  {
    hide Rounds, Polls, States, ReportsChanges, Accounted, End, Last;
    RoundsReport(w, Polls(w));
    RoundsAccounted(w, Polls(w));
    var at :| ReportsChanges(w, Polls(w), States(Rounds(w, Polls(w))), at);
    assert Stream(w, s) == [TaskCreated(s.id)] + Rounds(w, Polls(w)) + [Last(w)];
  }

  /** The polling stops at round `n`, for one of four reasons. */
  predicate StopsAt(w: World, n: nat) {
    || w.clock(n) >= w.start + w.timeout || w.clock(n) >= w.start + w.maxPoll
    || !w.reply(n).Task?
    || w.reply(n).state in {"TASK_STATE_COMPLETED", "TASK_STATE_FAILED", "TASK_STATE_CANCELED", "TASK_STATE_REJECTED",
                            "completed", "failed", "canceled", "rejected"}
    || w.sleepCut(n)
  }

  /** The last event of a stream whose polling stops at round `n`. */
  ghost predicate ClosedBy(w: World, n: nat, last: Event) {
    if w.clock(n) >= w.start + w.timeout || w.clock(n) >= w.start + w.maxPoll then last == Error(PollDeadline(w.maxPoll))
    else match w.reply(n)
      case Failed(error) => last == Error(Fault(error))
      case CutOff => last == Error(TimeoutAfter(Limit(w)))
      case Task(state, artifacts, message) =>
        if state in {"TASK_STATE_COMPLETED", "completed"} then last.Done? && TaskSays(last.text, artifacts, message)
        else if state in {"TASK_STATE_FAILED", "TASK_STATE_CANCELED", "TASK_STATE_REJECTED", "failed", "canceled", "rejected"} then
          exists text :: TaskSays(text, artifacts, message) && last == Error(if text == "" then EndedIn(state) else Text(text))
        else last == Error(TimeoutAfter(Limit(w)))
  }

  /** Main result: the last event, from the replies alone. */
  lemma LastEventExact(w: World, s: Submission)
    requires Paced(w) && s.Accepted?
    ensures exists n: nat ::
      && StopsAt(w, n) && (forall j: nat :: j < n ==> !StopsAt(w, j))
      && ClosedBy(w, n, Stream(w, s)[|Stream(w, s)| - 1])
      && Polls(w) == if w.clock(n) >= w.start + w.timeout || w.clock(n) >= w.start + w.maxPoll then n else n + 1
  {
    var n := End(w, 0);
    StopsIff(w);
    hide EndsAt, StopsAt, Closing, ClosedBy, Rounds;
    ClosingExact(w, n);
    assert Stream(w, s)[|Stream(w, s)| - 1] == Last(w);
  }

  lemma StopsIff(w: World)
    ensures forall n: nat :: StopsAt(w, n) == EndsAt(w, n)
  {
  }

  lemma ClosingExact(w: World, n: nat)
    requires EndsAt(w, n)
    ensures var ending := Closing(w, n);
            ClosedBy(w, n, if ending.Yields? then ending.event else Error(ending.reason))
  {
    if w.reply(n).Task? { TaskTextExact(w.reply(n).artifacts, w.reply(n).message); }
    hide TaskText, TaskSays;
  }

  /** A refused submission is reported with its reason, and nothing else. */
  lemma RefusalIsReported(w: World, reason: Reason)
    requires Paced(w)
    ensures Stream(w, Refused(reason)) == [Error(reason)]
  {
  }
}
