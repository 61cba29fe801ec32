/** Relaying a run's events to a client: a reader on a lossy channel races with the workflow's result. */
module Relay {
  import opened Common

  datatype Event =
    | Ready(runId: string)
    | Done(runId: string, taskId: string, iterations: int)
    | Error(message: string)
    | Other(kind: string, body: string)

  datatype Message = Control | Garbled | Data(event: Event)

  datatype RunResult =
    | Completed(taskId: string, iterations: int)
    | NotCompleted(error: Option<string>)
    | Raised(message: string)

  /** Everything outside the function's control. `ctx` and `inbox` are the messages that were not lost, until
      the listener ends; `late(n)`: the ready deadline has passed at the n-th context message. The result
      arrives once `at` run messages are handled, `sending`: in the middle of relaying the next one, which by
      then has been delivered or not. An emit that fails delivers nothing. */
  datatype World = World(
    ctx: seq<Message>, late: nat -> bool, openingOk: nat -> bool,
    inbox: seq<Message>, ok: nat -> bool, cancelSet: nat -> bool,
    at: nat, sending: Option<bool>,
    result: RunResult, finalOk: nat -> bool, emitError: string)

  predicate IsTerminal(e: Event) {
    e.Done? || e.Error?
  }

  function Terminals(events: seq<Event>): (n: nat)
    ensures n <= |events|
  {
    if events == [] then 0
    else Terminals(events[..|events| - 1]) + if IsTerminal(events[|events| - 1]) then 1 else 0
  }

  lemma {:induction false} TerminalsConcat(a: seq<Event>, b: seq<Event>)
    ensures Terminals(a + b) == Terminals(a) + Terminals(b)
  {
    if b == [] {
      assert a + b == a;
    } else {
      TerminalsConcat(a, b[..|b| - 1]);
      assert (a + b)[..|a + b| - 1] == a + b[..|b| - 1];
    }
  }

  // ── Opening: the context channel ──────────────────────────────────────────

  const START_TIMEOUT := "Timed out waiting for workflow to start"
  const READY_TIMEOUT := "Timed out waiting for workflow ready event"
  const NO_RUN := "No run_id received from workflow"

  /** Whether the n-th context message ends the wait: with a ready event, or by being late. */
  predicate EndsWait(w: World, n: nat)
    requires n < |w.ctx|
  {
    match w.ctx[n]
    case Control => w.late(n)
    case Garbled => false
    case Data(e) => e.Ready? || w.late(n)
  }

  function WaitEnd(w: World, n: nat): (k: nat)
    requires n <= |w.ctx|
    ensures n <= k <= |w.ctx| && (k < |w.ctx| ==> EndsWait(w, k))
    ensures forall j :: n <= j < k ==> !EndsWait(w, j)
    decreases |w.ctx| - n
  {
    if n == |w.ctx| || EndsWait(w, n) then n else WaitEnd(w, n + 1)
  }

  function Sent(ok: bool, e: Event): seq<Event> {
    if ok then [e] else []
  }

  /** What the client receives before the run channel is read, and the run to read, if any. */
  function Opening(w: World): (seq<Event>, Option<string>) {
    var k := WaitEnd(w, 0);
    if k == |w.ctx| then (Sent(w.openingOk(0), Error(NO_RUN)), None)
    else match w.ctx[k]
      case Control => (Sent(w.openingOk(0), Error(START_TIMEOUT)), None)
      case Data(Ready(run)) =>
        if !w.openingOk(0) then ([], None)
        else if run == "" then ([Ready(run)] + Sent(w.openingOk(1), Error(NO_RUN)), None)
        else ([Ready(run)], Some(run))
      case _ => (Sent(w.openingOk(0), Error(READY_TIMEOUT)), None)
  }

  method Open(w: World) returns (sent: seq<Event>, run: Option<string>)
    ensures (sent, run) == Opening(w)
  {
    sent, run := [], None;
    var n := 0;
    var runId := "";
    while n < |w.ctx|
      invariant n <= |w.ctx| && WaitEnd(w, 0) == WaitEnd(w, n) && runId == "" && sent == []
    {
      match w.ctx[n] {
        case Control =>
          if w.late(n) { return Sent(w.openingOk(0), Error(START_TIMEOUT)), None; }
        case Garbled =>
        case Data(event) =>
          if event.Ready? {
            if !w.openingOk(0) { return [], None; }
            sent, runId := [event], event.runId;
            break;
          }
          if w.late(n) { return Sent(w.openingOk(0), Error(READY_TIMEOUT)), None; }
      }
      n := n + 1;
    }
    if runId == "" {
      assert sent == [] ==> sent + Sent(w.openingOk(0), Error(NO_RUN)) == Sent(w.openingOk(0), Error(NO_RUN));
      return sent + Sent(w.openingOk(|sent|), Error(NO_RUN)), None;
    }
    run := Some(runId);
  }

  // ── The reader, the race, and the guarantee ───────────────────────────────

  datatype Halt = OnTerminal | OnEmitFailure | OnCancel

  /** Why the reader would stop at the n-th message, if it does. */
  function Stop(w: World, n: nat): Option<Halt>
    requires n < |w.inbox|
  {
    if !w.inbox[n].Data? then None
    else if !w.ok(n) then Some(OnEmitFailure)
    else if IsTerminal(w.inbox[n].event) then Some(OnTerminal)
    else if w.cancelSet(n) then Some(OnCancel)
    else None
  }

  function FirstStop(w: World, n: nat): (s: nat)
    requires n <= |w.inbox|
    ensures n <= s <= |w.inbox| && (s < |w.inbox| ==> Stop(w, s).Some?)
    ensures forall j :: n <= j < s ==> Stop(w, j).None?
    decreases |w.inbox| - n
  {
    if n == |w.inbox| || Stop(w, n).Some? then n else FirstStop(w, n + 1)
  }

  /** The events among the first `n` messages. */
  function Events(inbox: seq<Message>, n: nat): seq<Event>
    requires n <= |inbox|
  {
    if n == 0 then [] else Events(inbox, n - 1) + if inbox[n - 1].Data? then [inbox[n - 1].event] else []
  }

  /** The terminal event made from the result; when emitting it fails, an error is tried once more. */
  function Final(w: World, run: string): seq<Event> {
    match w.result
    case Completed(task, iterations) =>
      if w.finalOk(0) then [Done(run, task, iterations)] else Sent(w.finalOk(1), Error(w.emitError))
    case NotCompleted(error) =>
      if w.finalOk(0) then [Error(if error.Some? && error.value != "" then error.value else "Run failed")]
      else Sent(w.finalOk(1), Error(w.emitError))
    case Raised(message) => Sent(w.finalOk(0), Error(message))
  }

  /** The result overtakes the reader before it stops by itself. */
  predicate Overtaken(w: World) {
    w.at <= FirstStop(w, 0)
  }

  /** Overtaken while relaying a message that still reached the client. */
  predicate DeliveredAnyway(w: World) {
    Overtaken(w) && w.sending == Some(true) && w.at < |w.inbox| && w.inbox[w.at].Data?
  }

  function Relayed(w: World, run: string): seq<Event> {
    var s := FirstStop(w, 0);
    if Overtaken(w) then
      Events(w.inbox, w.at) + (if DeliveredAnyway(w) then [w.inbox[w.at].event] else []) + Final(w, run)
    else
      var seen := Events(w.inbox, s) + if s < |w.inbox| && Stop(w, s) != Some(OnEmitFailure) then [w.inbox[s].event] else [];
      seen + if s < |w.inbox| && w.at == s + 1 && Stop(w, s) != Some(OnTerminal) then Final(w, run) else []
  }

  /** Reads until it stops or is overtaken. `terminal` stays false when cut off inside an emit. */
  method Reader(w: World) returns (sent: seq<Event>, terminal: bool, overtaken: bool, n: nat)
    ensures overtaken <==> Overtaken(w)
    ensures overtaken ==> !terminal && sent == Events(w.inbox, w.at) + if DeliveredAnyway(w) then [w.inbox[w.at].event] else []
    ensures !overtaken ==>
      var s := FirstStop(w, 0);
      && (terminal <==> s < |w.inbox| && Stop(w, s) == Some(OnTerminal))
      && n == (if s < |w.inbox| then s + 1 else s)
      && sent == Events(w.inbox, s) + if s < |w.inbox| && Stop(w, s) != Some(OnEmitFailure) then [w.inbox[s].event] else []
  {
    sent, terminal, n := [], false, 0;
    while n < |w.inbox| && n != w.at
      invariant n <= |w.inbox| && n <= w.at && FirstStop(w, 0) == FirstStop(w, n)
      invariant sent == Events(w.inbox, n) && !terminal
    {
      if w.inbox[n].Data? {
        var event := w.inbox[n].event;
        if !w.ok(n) { return sent, false, false, n + 1; }
        sent := sent + [event];
        if IsTerminal(event) { return sent, true, false, n + 1; }
        if w.cancelSet(n) { return sent, false, false, n + 1; }
      }
      n := n + 1;
    }
    overtaken := n == w.at;
    if overtaken && n < |w.inbox| && w.sending == Some(true) && w.inbox[n].Data? {
      sent := sent + [w.inbox[n].event];
    }
  }

  method EmitFinal(w: World, run: string) returns (sent: seq<Event>)
    ensures sent == Final(w, run)
  {
    if w.result.Raised? {
      return Sent(w.finalOk(0), Error(w.result.message));
    }
    var event := Done(run, "", 0);
    if w.result.Completed? {
      event := Done(run, w.result.taskId, w.result.iterations);
    } else if w.result.error.None? || w.result.error.value == "" {
      event := Error("Run failed");
    } else {
      event := Error(w.result.error.value);
    }
    if w.finalOk(0) { return [event]; }
    sent := Sent(w.finalOk(1), Error(w.emitError));
  }

  function Transcript(w: World): seq<Event> {
    var opening := Opening(w);
    if opening.1.None? then opening.0 else opening.0 + Relayed(w, opening.1.value)
  }

  method StreamRunEvents(w: World) returns (sent: seq<Event>)
    ensures sent == Transcript(w)
  {
    var run;
    sent, run := Open(w);
    if run.None? { return; }
    var relayed, terminal, overtaken, n := Reader(w);
    var resultIsIn := overtaken || n == w.at;
    if resultIsIn && !terminal {
      var final := EmitFinal(w, run.value);
      relayed := relayed + final;
    }
    sent := sent + relayed;
  }

  // ── The transcript, message by message ────────────────────────────────────

  predicate IsData(m: Message) {
    m.Data?
  }

  /** `sent` are the events of exactly the data messages in `messages`, in order, each once. */
  ghost predicate Relays(sent: seq<Event>, messages: seq<Message>) {
    exists data :: Selects(data, messages, IsData) && EventsOf(sent, data)
  }

  ghost predicate EventsOf(sent: seq<Event>, data: seq<Message>) {
    |sent| == |data| && forall k :: 0 <= k < |sent| ==> data[k] == Data(sent[k])
  }

  lemma {:induction false} EventsRelay(inbox: seq<Message>, n: nat)
    requires n <= |inbox|
    ensures Relays(Events(inbox, n), inbox[..n])
  {
    hide Selects;
    if n == 0 {
      SelectsNothing(IsData);
      assert EventsOf(Events(inbox, 0), []);
    } else {
      EventsRelay(inbox, n - 1);
      RelaysNext(Events(inbox, n - 1), inbox[..n - 1], inbox[n - 1]);
      assert inbox[..n] == inbox[..n - 1] + [inbox[n - 1]];
    }
  }

  lemma RelaysNext(sent: seq<Event>, messages: seq<Message>, m: Message)
    requires Relays(sent, messages)
    ensures Relays(sent + (if m.Data? then [m.event] else []), messages + [m])
  {
    hide Selects;
    var data :| Selects(data, messages, IsData) && EventsOf(sent, data);
    SelectsAppend(data, messages, m, IsData);
    assert EventsOf(sent + (if m.Data? then [m.event] else []), data + (if IsData(m) then [m] else []));
  }

  /** Reading goes no further than this message: it cannot be passed on, says done or error, or follows a cancellation. */
  predicate StopsReading(w: World, i: nat)
    requires i < |w.inbox|
  {
    w.inbox[i].Data? && (!w.ok(i) || w.inbox[i].event.Done? || w.inbox[i].event.Error? || w.cancelSet(i))
  }

  /** The reader passes on the first `reach` messages; `reported`: the result arrived in time. It does not, once the
      reader has stopped, unless it coincides with that and no terminal event was passed on. */
  ghost predicate Reads(w: World, reach: nat, reported: bool) {
    exists s: nat :: StopsFirst(w, s) && ReadsTo(w, s, reach, reported)
  }

  ghost predicate StopsFirst(w: World, s: nat) {
    s <= |w.inbox| && (s < |w.inbox| ==> StopsReading(w, s)) && forall j: nat :: j < s ==> !StopsReading(w, j)
  }

  ghost predicate ReadsTo(w: World, s: nat, reach: nat, reported: bool)
    requires StopsFirst(w, s)
  {
    if w.at <= s then
      reported && reach == if w.at < |w.inbox| && w.sending == Some(true) then w.at + 1 else w.at
    else
      && reach == (if s < |w.inbox| && w.ok(s) then s + 1 else s)
      && (reported <==> s < |w.inbox| && w.at == s + 1 && !(w.ok(s) && IsTerminal(w.inbox[s].event)))
  }

  /** The report on the result: the event it calls for, or one attempt to say why that could not be sent. */
  ghost predicate Reports(w: World, run: string, report: seq<Event>) {
    var called := match w.result
      case Completed(task, iterations) => Done(run, task, iterations)
      case NotCompleted(None) => Error("Run failed")
      case NotCompleted(Some(error)) => Error(if error == "" then "Run failed" else error)
      case Raised(message) => Error(message);
    if w.finalOk(0) then report == [called]
    else if w.result.Raised? then report == []
    else report == if w.finalOk(1) then [Error(w.emitError)] else []
  }

  lemma FinalReports(w: World, run: string)
    ensures Reports(w, run, Final(w, run))
  {
  }

  lemma StopIff(w: World)
    ensures forall i: nat :: i < |w.inbox| ==> (StopsReading(w, i) <==> Stop(w, i).Some?)
  {
  }

  /** After ready: the events read, in order and each once, and then the report, if there is one. */
  ghost predicate Delivers(w: World, run: string, reach: nat, sent: seq<Event>, report: seq<Event>) {
    && reach <= |w.inbox| && Relays(sent, w.inbox[..reach])
    && ((Reads(w, reach, true) && Reports(w, run, report)) || (Reads(w, reach, false) && report == []))
  }

  lemma OvertakenRelays(w: World, run: string)
    requires Overtaken(w)
    ensures exists reach: nat, sent, report :: Delivers(w, run, reach, sent, report) && Relayed(w, run) == sent + report
  {
    var s := FirstStop(w, 0);
    var delivered := w.at < |w.inbox| && w.sending == Some(true);
    var reach := if delivered then w.at + 1 else w.at;
    EventsRelay(w.inbox, w.at);
    StopIff(w);
    FinalReports(w, run);
    hide Relays, Events, Final, Reports, Stop, StopsReading;
    var sent := Events(w.inbox, w.at) + if DeliveredAnyway(w) then [w.inbox[w.at].event] else [];
    if delivered {
      RelaysNext(Events(w.inbox, w.at), w.inbox[..w.at], w.inbox[w.at]);
      assert w.inbox[..reach] == w.inbox[..w.at] + [w.inbox[w.at]];
    } else {
      assert sent == Events(w.inbox, w.at);
    }
    assert StopsFirst(w, s) && ReadsTo(w, s, reach, true);
    assert Delivers(w, run, reach, sent, Final(w, run));
    assert Relayed(w, run) == sent + Final(w, run);
  }

  lemma StoppedRelays(w: World, run: string)
    requires !Overtaken(w)
    ensures exists reach: nat, sent, report :: Delivers(w, run, reach, sent, report) && Relayed(w, run) == sent + report
  {
    var s := FirstStop(w, 0);
    var passed := s < |w.inbox| && w.ok(s);
    var reach := if passed then s + 1 else s;
    var reported := s < |w.inbox| && w.at == s + 1 && !(w.ok(s) && IsTerminal(w.inbox[s].event));
    EventsRelay(w.inbox, s);
    StopIff(w);
    FinalReports(w, run);
    assert s < |w.inbox| ==> w.inbox[s].Data? && (Stop(w, s) == Some(OnEmitFailure) <==> !w.ok(s));
    assert s < |w.inbox| ==> (Stop(w, s) == Some(OnTerminal) <==> w.ok(s) && IsTerminal(w.inbox[s].event));
    hide Relays, Events, Final, Reports, Stop, StopsReading, IsTerminal;
    var sent := Events(w.inbox, s) + if passed then [w.inbox[s].event] else [];
    if passed {
      RelaysNext(Events(w.inbox, s), w.inbox[..s], w.inbox[s]);
      assert w.inbox[..reach] == w.inbox[..s] + [w.inbox[s]];
    } else {
      assert sent == Events(w.inbox, s);
    }
    assert StopsFirst(w, s) && ReadsTo(w, s, reach, reported);
    assert Delivers(w, run, reach, sent, if reported then Final(w, run) else []);
    assert Relayed(w, run) == sent + if reported then Final(w, run) else [];
  }

  /** Context message `k` starts the run: the first that says ready, with none before it past the deadline. */
  predicate StartsAt(w: World, k: int, run: string) {
    0 <= k < |w.ctx| && w.ctx[k] == Data(Ready(run)) && forall j :: 0 <= j < k ==> Waits(w, j)
  }

  predicate Waits(w: World, j: nat)
    requires j < |w.ctx|
  {
    w.ctx[j].Garbled? || (!w.late(j) && !(w.ctx[j].Data? && w.ctx[j].event.Ready?))
  }

  lemma WaitsIff(w: World)
    ensures forall j: nat :: j < |w.ctx| ==> (Waits(w, j) <==> !EndsWait(w, j))
  {
  }

  /** Main result: once a run is started, the client receives ready, then exactly the events of the data messages
      read before the reader stopped or was overtaken, in order and each once, then the report, if any. */
  lemma TranscriptExact(w: World)
    requires Started(w)
    ensures exists k, run, reach: nat, sent, report ::
      StartsAt(w, k, run) && Delivers(w, run, reach, sent, report) && Transcript(w) == [Ready(run)] + sent + report
  {
    var k, run := WaitEnd(w, 0), Opening(w).1.value;
    WaitsIff(w);
    assert Opening(w).0 == [Ready(run)];
    assert StartsAt(w, k, run);
    hide Opening, Delivers, Relayed, StartsAt, Overtaken;
    if Overtaken(w) { OvertakenRelays(w, run); } else { StoppedRelays(w, run); }
    var reach: nat, sent, report :| Delivers(w, run, reach, sent, report) && Relayed(w, run) == sent + report;
    assert Transcript(w) == [Ready(run)] + sent + report;
  }

  /** A run is started exactly by a ready event with an id that comes in time and reaches the client. */
  lemma StartedIff(w: World)
    ensures Started(w) <==> w.openingOk(0) && exists k, run :: StartsAt(w, k, run) && run != ""
  {
    var n := WaitEnd(w, 0);
    WaitsIff(w);
    if k, run :| StartsAt(w, k, run) && run != "" {
      assert EndsWait(w, k);
      assert k == n;
    }
    if Started(w) {
      assert StartsAt(w, n, w.ctx[n].event.runId);
    }
  }

  /** Why a run is not started: the deadline passed, or there is no run id. */
  lemma FailedOpeningReason(w: World)
    requires !Started(w) && forall n :: w.openingOk(n)
    ensures var sent := Transcript(w);
            && sent != [] && sent[|sent| - 1].Error?
            && var reason := sent[|sent| - 1].message;
            && (reason == "Timed out waiting for workflow to start" ==>
                  exists k: nat :: k < |w.ctx| && w.ctx[k] == Control && w.late(k))
            && (reason == "Timed out waiting for workflow ready event" ==>
                  exists k: nat :: k < |w.ctx| && w.ctx[k].Data? && !w.ctx[k].event.Ready? && w.late(k))
            && (reason == "No run_id received from workflow" ==>
                  (forall k: nat :: k < |w.ctx| ==> Waits(w, k)) || exists k :: StartsAt(w, k, ""))
            && reason in {"Timed out waiting for workflow to start", "Timed out waiting for workflow ready event", "No run_id received from workflow"}
  {
    var n := WaitEnd(w, 0);
    WaitsIff(w);
    if n < |w.ctx| && w.ctx[n] == Data(Ready("")) { assert StartsAt(w, n, ""); }
  }

  // ── How many terminal events ──────────────────────────────────────────────

  predicate Started(w: World) {
    Opening(w).1.Some?
  }

  lemma {:induction false} NoTerminalBeforeStop(w: World, n: nat)
    requires n <= FirstStop(w, 0)
    ensures Terminals(Events(w.inbox, n)) == 0
  {
    if n == 0 {
    } else {
      NoTerminalBeforeStop(w, n - 1);
      assert Stop(w, n - 1).None?;
      var last := if w.inbox[n - 1].Data? then [w.inbox[n - 1].event] else [];
      TerminalsConcat(Events(w.inbox, n - 1), last);
      if last != [] { Single(last[0]); }
    }
  }

  lemma Single(e: Event)
    ensures Terminals([e]) == if IsTerminal(e) then 1 else 0
  {
    assert [e][..0] == [];
  }

  lemma FinalIsTerminal(w: World, run: string)
    ensures Terminals(Final(w, run)) == |Final(w, run)| <= 1
    ensures Final(w, run) != [] ==> IsTerminal(Final(w, run)[0])
  {
    if Final(w, run) != [] { Single(Final(w, run)[0]); }
  }

  /** Cut off by the result while relaying a terminal event that nonetheless reached the client. */
  predicate TerminalDeliveredAnyway(w: World) {
    DeliveredAnyway(w) && IsTerminal(w.inbox[w.at].event)
  }

  /** The reader stops on a terminal event it relayed, before the result overtakes it. */
  predicate TerminalRelayed(w: World) {
    var s := FirstStop(w, 0);
    !Overtaken(w) && s < |w.inbox| && Stop(w, s) == Some(OnTerminal)
  }

  /** The result arrives in time to be reported, and reporting it succeeds. */
  predicate ResultReported(w: World) {
    var s := FirstStop(w, 0);
    && (Overtaken(w) || (s < |w.inbox| && w.at == s + 1 && Stop(w, s) != Some(OnTerminal)))
    && if w.result.Raised? then w.finalOk(0) else w.finalOk(0) || w.finalOk(1)
  }

  /** A stretch without terminals, at most one more event, and a report. */
  lemma PartTerminals(a: seq<Event>, last: seq<Event>, report: seq<Event>)
    requires Terminals(a) == 0 && |last| <= 1 && |report| <= 1
    requires report != [] ==> IsTerminal(report[0])
    ensures Terminals(a + last + report) == (if last != [] && IsTerminal(last[0]) then 1 else 0) + |report|
    ensures Terminals(a + last + report) > 0 ==> var r := a + last + report; IsTerminal(r[|r| - 1])
  {
    TerminalsConcat(a + last, report);
    TerminalsConcat(a, last);
    if last != [] { Single(last[0]); assert last == [last[0]]; }
    if report != [] { Single(report[0]); assert report == [report[0]]; }
  }

  lemma OvertakenTerminals(w: World, run: string)
    requires Overtaken(w)
    ensures Terminals(Relayed(w, run)) ==
      (if TerminalDeliveredAnyway(w) then 1 else 0) + (if ResultReported(w) then 1 else 0)
    ensures Terminals(Relayed(w, run)) > 0 ==> var r := Relayed(w, run); IsTerminal(r[|r| - 1])
  {
    hide Terminals, Events;
    NoTerminalBeforeStop(w, w.at);
    FinalIsTerminal(w, run);
    PartTerminals(Events(w.inbox, w.at), if DeliveredAnyway(w) then [w.inbox[w.at].event] else [], Final(w, run));
  }

  lemma StoppedTerminals(w: World, run: string)
    requires !Overtaken(w)
    ensures Terminals(Relayed(w, run)) == (if TerminalRelayed(w) then 1 else 0) + (if ResultReported(w) then 1 else 0)
    ensures Terminals(Relayed(w, run)) > 0 ==> var r := Relayed(w, run); IsTerminal(r[|r| - 1])
  {
    hide Terminals, Events;
    var s := FirstStop(w, 0);
    var last := if s < |w.inbox| && Stop(w, s) != Some(OnEmitFailure) then [w.inbox[s].event] else [];
    var tied := s < |w.inbox| && w.at == s + 1 && Stop(w, s) != Some(OnTerminal);
    NoTerminalBeforeStop(w, s);
    FinalIsTerminal(w, run);
    PartTerminals(Events(w.inbox, s), last, if tied then Final(w, run) else []);
  }

  lemma RelayedTerminals(w: World, run: string)
    ensures Terminals(Relayed(w, run)) ==
      (if TerminalDeliveredAnyway(w) then 1 else 0) + (if TerminalRelayed(w) then 1 else 0) + (if ResultReported(w) then 1 else 0)
    ensures Terminals(Relayed(w, run)) > 0 ==> var r := Relayed(w, run); IsTerminal(r[|r| - 1])
  {
    hide Terminals, Relayed, ResultReported;
    if Overtaken(w) { OvertakenTerminals(w, run); } else { StoppedTerminals(w, run); }
  }

  lemma StartedTerminals(w: World)
    requires Started(w)
    ensures Terminals(Transcript(w)) == Terminals(Relayed(w, Opening(w).1.value))
  {
    hide Terminals, Relayed;
    var opening := Opening(w);
    TerminalsConcat(opening.0, Relayed(w, opening.1.value));
    assert opening.0 == [Ready(opening.1.value)];
    Single(opening.0[0]);
  }

  /** Main result: after ready, at most one terminal event reaches the client, and it comes last, exactly
      unless the result cuts the reader off inside the emit of a delivered terminal event. */
  lemma AtMostOneTerminal(w: World)
    requires Started(w)
    ensures Transcript(w)[0].Ready?
    ensures Terminals(Transcript(w)) <= 1 <==> !(TerminalDeliveredAnyway(w) && ResultReported(w))
    ensures Terminals(Transcript(w)) > 0 ==> var sent := Transcript(w); IsTerminal(sent[|sent| - 1])
  {
    RelayedTerminals(w, Opening(w).1.value);
    StartedTerminals(w);
  }

  /** Main result: with emits that succeed, no cancellation and a listener that outlasts the race, whatever
      messages were lost and whoever finishes first, the client gets exactly one terminal event (the
      same exception applying). */
  lemma ExactlyOneTerminal(w: World)
    requires Started(w) && !TerminalDeliveredAnyway(w)
    requires forall n :: w.ok(n) && w.finalOk(n) && !w.cancelSet(n)
    requires FirstStop(w, 0) < |w.inbox| || w.at <= |w.inbox|
    ensures Terminals(Transcript(w)) == 1
    ensures var sent := Transcript(w); IsTerminal(sent[|sent| - 1])
  {
    RelayedTerminals(w, Opening(w).1.value);
    StartedTerminals(w);
  }

  /** A client left without a terminal event: reading stopped for another reason before the result, or every
      attempt to report the result failed. */
  lemma SilentIff(w: World)
    requires Started(w)
    ensures Terminals(Transcript(w)) == 0 <==> !TerminalDeliveredAnyway(w) && !TerminalRelayed(w) && !ResultReported(w)
  {
    RelayedTerminals(w, Opening(w).1.value);
    StartedTerminals(w);
  }

  /** A run that never opens is reported by exactly one error, last. */
  lemma FailedOpeningIsReportedOnce(w: World)
    requires !Started(w) && forall n :: w.openingOk(n)
    ensures Terminals(Transcript(w)) == 1
    ensures var sent := Transcript(w); sent[|sent| - 1].Error?
  {
    var sent := Transcript(w);
    var last := sent[|sent| - 1];
    Single(last);
    if |sent| == 2 {
      Single(sent[0]);
      TerminalsConcat([sent[0]], [last]);
      assert sent == [sent[0]] + [last];
    } else {
      assert sent == [last];
    }
  }

  /** The exception is real: the reader is cut off just after "done" went out, and "done" is sent again. */
  lemma DoneMayComeTwice()
    ensures exists w ::
      && Started(w) && (forall n :: w.ok(n) && w.finalOk(n) && !w.cancelSet(n))
      && Transcript(w) == [Ready("run"), Done("run", "task", 1), Done("run", "task", 1)]
  {
    var yes, no := (n: nat) => true, (n: nat) => false;
    var done := Done("run", "task", 1);
    var w := World([Data(Ready("run"))], no, yes, [Data(done)], yes, no, 0, Some(true), Completed("task", 1), yes, "");
    assert WaitEnd(w, 0) == 0 && FirstStop(w, 0) == 0;
    assert Relayed(w, "run") == [done, done];
    assert Transcript(w) == [Ready("run"), done, done];
  }
}
