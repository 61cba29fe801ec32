/** The two-level access token cache: one map per replica in front of a shared store in front of the database. */
module TokenCache {
  import opened Common

  type Replica = nat
  type Id = nat

  /** What is cached of a token's row. */
  datatype Payload = Payload(tokenId: string, userId: int, name: string, orchestrator: Option<string>,
                             enabled: bool, expiresAt: Option<string>)

  datatype Entry = Entry(payload: Payload, expires: real)

  const TTL := 300.0

  // ── One token, any number of replicas ─────────────────────────────────────

  /** A validation between two of its awaits. `at` is when its payload was read. */
  datatype Request =
    | AskL2(replica: Replica)
    | FromL2(replica: Replica, payload: Payload, at: real)
    | AskDb(replica: Replica)
    | FromDb(replica: Replica, payload: Payload, at: real)
    | L1Filled(replica: Replica, payload: Payload, at: real)

  datatype State = State(
    now: real,
    row: Option<Payload>,
    l2: Option<Entry>,
    l1: map<Replica, Entry>,
    requests: map<Id, Request>)

  datatype Event =
    | Tick(seconds: real)
    | WriteRow(row: Option<Payload>)        // any change of the database
    | Begin(id: Id, replica: Replica)       // L1 look-up; a hit answers at once
    | ReadL2(id: Id, up: bool)              // an unavailable store reads as a miss
    | FillFromL2(id: Id)
    | ReadDb(id: Id)
    | FillL1(id: Id)                        // the user is active
    | FillL2(id: Id, up: bool)
    | GiveUp(id: Id)                        // the user is inactive, or the request is abandoned
    | DropL1(replica: Replica)              // invalidation, first half; also a restart
    | DropL2                                // invalidation, second half

  function Live(e: Option<Entry>, now: real): Option<Payload> {
    if e.Some? && e.value.expires > now then Some(e.value.payload) else None
  }

  function L1Of(s: State, r: Replica): Option<Entry> {
    if r in s.l1 then Some(s.l1[r]) else None
  }

  /** `d` bounds the time between reading a payload and writing it to a cache. */
  predicate Enabled(d: real, s: State, e: Event) {
    match e
    case Tick(seconds) => seconds >= 0.0
    case WriteRow(_) => true
    case Begin(id, _) => id !in s.requests
    case ReadL2(id, _) => id in s.requests && s.requests[id].AskL2?
    case FillFromL2(id) => id in s.requests && s.requests[id].FromL2? && s.now <= s.requests[id].at + d
    case ReadDb(id) => id in s.requests && s.requests[id].AskDb?
    case FillL1(id) => id in s.requests && s.requests[id].FromDb? && s.now <= s.requests[id].at + d
    case FillL2(id, _) => id in s.requests && s.requests[id].L1Filled? && s.now <= s.requests[id].at + d
    case GiveUp(id) => id in s.requests
    case DropL1(_) => true
    case DropL2 => true
  }

  function Apply(d: real, s: State, e: Event): State
    requires Enabled(d, s, e)
  {
    match e
    case Tick(seconds) => s.(now := s.now + seconds)
    case WriteRow(row) => s.(row := row)
    case Begin(id, r) =>
      if Live(L1Of(s, r), s.now).Some? then s
      else s.(l1 := s.l1 - {r}, requests := s.requests[id := AskL2(r)])
    case ReadL2(id, up) =>
      var r := s.requests[id].replica;
      var hit := Live(s.l2, s.now);
      s.(requests := s.requests[id := if up && hit.Some? then FromL2(r, hit.value, s.now) else AskDb(r)])
    case FillFromL2(id) =>
      var q := s.requests[id];
      s.(l1 := s.l1[q.replica := Entry(q.payload, s.now + TTL)], requests := s.requests - {id})
    case ReadDb(id) =>
      if s.row.Some? && s.row.value.enabled then
        s.(requests := s.requests[id := FromDb(s.requests[id].replica, s.row.value, s.now)])
      else s.(requests := s.requests - {id})
    case FillL1(id) =>
      var q := s.requests[id];
      s.(l1 := s.l1[q.replica := Entry(q.payload, s.now + TTL)],
         requests := s.requests[id := L1Filled(q.replica, q.payload, q.at)])
    case FillL2(id, up) =>
      s.(l2 := if up then Some(Entry(s.requests[id].payload, s.now + TTL)) else s.l2, requests := s.requests - {id})
    case GiveUp(id) => s.(requests := s.requests - {id})
    case DropL1(r) => s.(l1 := s.l1 - {r})
    case DropL2 => s.(l2 := None)
  }

  /** What a replica answers to a client in this step: who, and the payload it vouches for. */
  function Accepted(d: real, s: State, e: Event): Option<(Replica, Payload)>
    requires Enabled(d, s, e)
  {
    match e
    case Begin(_, r) =>
      var hit := Live(L1Of(s, r), s.now);
      if hit.Some? && hit.value.enabled then Some((r, hit.value)) else None
    case FillFromL2(id) =>
      if s.requests[id].payload.enabled then Some((s.requests[id].replica, s.requests[id].payload)) else None
    case FillL2(id, _) => Some((s.requests[id].replica, s.requests[id].payload))
    case _ => None
  }

  ghost predicate Steps(d: real, states: seq<State>, events: seq<Event>) {
    && |states| == |events| + 1
    && forall i :: 0 <= i < |events| ==> Enabled(d, states[i], events[i]) && Apply(d, states[i], events[i]) == states[i + 1]
  }

  predicate Cold(s: State) {
    s.l2.None? && s.l1 == map[] && s.requests == map[]
  }

  /** Between the states `lo` and `hi` the database held `p` at an instant not before `since`. */
  ghost predicate WasRow(states: seq<State>, lo: nat, hi: nat, p: Payload, since: real) {
    exists j :: lo <= j <= hi && j < |states| && states[j].row == Some(p) && states[j].now >= since
  }

  lemma WasRowStill(states: seq<State>, lo: nat, hi: nat, p: Payload, since: real, earlier: real)
    requires WasRow(states, lo, hi, p, since) && earlier <= since
    ensures WasRow(states, lo, hi + 1, p, earlier)
  {
    var j :| lo <= j <= hi && j < |states| && states[j].row == Some(p) && states[j].now >= since;
    assert states[j].row == Some(p);
  }

  lemma IsRow(states: seq<State>, lo: nat, i: nat, p: Payload, since: real)
    requires lo <= i < |states| && states[i].row == Some(p) && states[i].now >= since
    ensures WasRow(states, lo, i, p, since)
  {
  }

  // ── Staleness ─────────────────────────────────────────────────────────────

  ghost predicate FreshL2(d: real, states: seq<State>, i: nat)
    requires i < |states|
  {
    var s := states[i];
    s.l2.Some? ==> WasRow(states, 0, i, s.l2.value.payload, s.l2.value.expires - TTL - d)
  }

  ghost predicate FreshL1(d: real, states: seq<State>, i: nat)
    requires i < |states|
  {
    var s := states[i];
    forall r :: r in s.l1 ==>
      WasRow(states, 0, i, s.l1[r].payload, s.l1[r].expires - 2.0 * TTL - 2.0 * d)
  }

  ghost predicate FreshRequest(d: real, states: seq<State>, i: nat, q: Request) {
    match q
    case FromL2(_, p, at) => WasRow(states, 0, i, p, at - TTL - d)
    case FromDb(_, p, at) => WasRow(states, 0, i, p, at)
    case L1Filled(_, p, at) => WasRow(states, 0, i, p, at)
    case _ => true
  }

  ghost predicate FreshRequests(d: real, states: seq<State>, i: nat)
    requires i < |states|
  {
    forall id :: id in states[i].requests ==> FreshRequest(d, states, i, states[i].requests[id])
  }

  lemma L2StaysFresh(d: real, states: seq<State>, events: seq<Event>, i: nat)
    requires d >= 0.0 && Steps(d, states, events) && i < |events|
    requires FreshL2(d, states, i) && FreshRequests(d, states, i)
    ensures FreshL2(d, states, i + 1)
  {
    var s, e := states[i], events[i];
    hide WasRow;
    assert Apply(d, s, e) == states[i + 1];
    if e.FillL2? && e.up {
      var q := s.requests[e.id];
      assert FreshRequest(d, states, i, q);
      WasRowStill(states, 0, i, q.payload, q.at, s.now - d);
    } else if s.l2.Some? {
      WasRowStill(states, 0, i, s.l2.value.payload, s.l2.value.expires - TTL - d, s.l2.value.expires - TTL - d);
    }
  }

  lemma L1StaysFresh(d: real, states: seq<State>, events: seq<Event>, i: nat)
    requires d >= 0.0 && Steps(d, states, events) && i < |events|
    requires FreshL1(d, states, i) && FreshRequests(d, states, i)
    ensures FreshL1(d, states, i + 1)
  {
    var s, e, t := states[i], events[i], states[i + 1];
    hide WasRow;
    assert Apply(d, s, e) == t;
    forall r | r in t.l1
      ensures WasRow(states, 0, i + 1, t.l1[r].payload, t.l1[r].expires - 2.0 * TTL - 2.0 * d)
    {
      var since := t.l1[r].expires - 2.0 * TTL - 2.0 * d;
      if r in s.l1 && t.l1[r] == s.l1[r] {
        WasRowStill(states, 0, i, t.l1[r].payload, since, since);
      } else {
        var q := s.requests[e.id];
        assert FreshRequest(d, states, i, q);
        WasRowStill(states, 0, i, q.payload, if q.FromL2? then q.at - TTL - d else q.at, since);
      }
    }
  }

  lemma RequestsStayFresh(d: real, states: seq<State>, events: seq<Event>, i: nat)
    requires d >= 0.0 && Steps(d, states, events) && i < |events|
    requires FreshL2(d, states, i) && FreshRequests(d, states, i)
    ensures FreshRequests(d, states, i + 1)
  {
    var s, e, t := states[i], events[i], states[i + 1];
    hide WasRow;
    assert Apply(d, s, e) == t;
    forall id | id in t.requests
      ensures FreshRequest(d, states, i + 1, t.requests[id])
    {
      var q := t.requests[id];
      if q.FromL2? && e == ReadL2(id, true) {
        WasRowStill(states, 0, i, q.payload, s.l2.value.expires - TTL - d, q.at - TTL - d);
      } else if e == ReadDb(id) {
        IsRow(states, 0, i, q.payload, s.now);
        WasRowStill(states, 0, i, q.payload, s.now, q.at);
      } else if q.FromL2? {
        WasRowStill(states, 0, i, q.payload, q.at - TTL - d, q.at - TTL - d);
      } else if q.FromDb? || q.L1Filled? {
        assert FreshRequest(d, states, i, s.requests[id]);
        WasRowStill(states, 0, i, q.payload, q.at, q.at);
      }
    }
  }

  lemma {:induction false} EverythingFresh(d: real, states: seq<State>, events: seq<Event>, i: nat)
    requires d >= 0.0 && Steps(d, states, events) && Cold(states[0]) && i < |states|
    ensures FreshL2(d, states, i) && FreshL1(d, states, i) && FreshRequests(d, states, i)
  {
    if i == 0 {
    } else {
      EverythingFresh(d, states, events, i - 1);
      L2StaysFresh(d, states, events, i - 1);
      L1StaysFresh(d, states, events, i - 1);
      RequestsStayFresh(d, states, events, i - 1);
    }
  }

  /** Main result: whatever a replica accepts was the database row less than 600 seconds ago, plus twice
      the time a read may take to reach a cache. */
  lemma AcceptedIsRecent(d: real, states: seq<State>, events: seq<Event>, i: nat)
    requires d >= 0.0 && Steps(d, states, events) && Cold(states[0]) && i < |events|
    requires Accepted(d, states[i], events[i]).Some?
    ensures exists j :: 0 <= j <= i && states[j].row == Some(Accepted(d, states[i], events[i]).value.1)
                        && states[j].now > states[i].now - 600.0 - 2.0 * d
  {
    var s, e := states[i], events[i];
    var p := Accepted(d, s, e).value.1;
    EverythingFresh(d, states, events, i);
    var since := if e.Begin? then s.l1[e.replica].expires - 2.0 * TTL - 2.0 * d
                 else if e.FillFromL2? then s.requests[e.id].at - TTL - d
                 else s.requests[e.id].at;
    assert !e.Begin? ==> FreshRequest(d, states, i, s.requests[e.id]);
    assert WasRow(states, 0, i, p, since);
  }

  /** Only enabled rows are on their way from the database. */
  predicate OnlyEnabledRead(s: State) {
    forall id :: id in s.requests && (s.requests[id].FromDb? || s.requests[id].L1Filled?) ==> s.requests[id].payload.enabled
  }

  lemma {:induction false} ReadsStayEnabled(d: real, states: seq<State>, events: seq<Event>, i: nat)
    requires Steps(d, states, events) && Cold(states[0]) && i < |states|
    ensures OnlyEnabledRead(states[i])
  {
    if i == 0 {
    } else {
      ReadsStayEnabled(d, states, events, i - 1);
      assert Apply(d, states[i - 1], events[i - 1]) == states[i];
    }
  }

  /** Whatever a replica accepts is enabled, wherever it comes from. */
  lemma AcceptedIsEnabled(d: real, states: seq<State>, events: seq<Event>, i: nat)
    requires Steps(d, states, events) && Cold(states[0]) && i < |events|
    ensures Accepted(d, states[i], events[i]).Some? ==> Accepted(d, states[i], events[i]).value.1.enabled
  {
    ReadsStayEnabled(d, states, events, i);
  }

  // ── Invalidation ──────────────────────────────────────────────────────────

  /** As `invalidate_token` on replica `r` leaves things when no validation is under way. */
  predicate Invalidated(s: State, r: Replica) {
    r !in s.l1 && s.l2.None? && s.requests == map[]
  }

  ghost predicate SinceRow(states: seq<State>, lo: nat, i: nat, p: Payload)
    requires lo < |states|
  {
    WasRow(states, lo, i, p, states[lo].now)
  }

  predicate ShortLived(s: State) {
    forall r :: r in s.l1 ==> s.l1[r].expires <= s.now + TTL
  }

  ghost predicate RenewedL2(states: seq<State>, lo: nat, i: nat)
    requires lo <= i < |states|
  {
    var s := states[i];
    s.l2.Some? ==> SinceRow(states, lo, i, s.l2.value.payload)
  }

  ghost predicate RenewedL1(states: seq<State>, lo: nat, i: nat, r: Replica)
    requires lo <= i < |states|
  {
    var s := states[i];
    forall q :: q in s.l1 ==>
      SinceRow(states, lo, i, s.l1[q].payload) || (q != r && s.l1[q].expires <= states[lo].now + TTL)
  }

  ghost predicate RenewedRequests(states: seq<State>, lo: nat, i: nat)
    requires lo <= i < |states|
  {
    var s := states[i];
    forall id :: id in s.requests && Holds(s.requests[id]) ==> SinceRow(states, lo, i, s.requests[id].payload)
  }

  predicate Holds(q: Request) {
    q.FromL2? || q.FromDb? || q.L1Filled?
  }

  lemma SinceRowStill(states: seq<State>, lo: nat, i: nat, p: Payload)
    requires lo <= i < |states| && SinceRow(states, lo, i, p)
    ensures SinceRow(states, lo, i + 1, p)
  {
    WasRowStill(states, lo, i, p, states[lo].now, states[lo].now);
  }

  lemma L2Renews(d: real, states: seq<State>, events: seq<Event>, lo: nat, i: nat)
    requires Steps(d, states, events) && lo <= i < |events|
    requires RenewedL2(states, lo, i) && RenewedRequests(states, lo, i)
    ensures RenewedL2(states, lo, i + 1)
  {
    var t := states[i + 1];
    hide SinceRow;
    assert Apply(d, states[i], events[i]) == t;
    if t.l2.Some? { SinceRowStill(states, lo, i, t.l2.value.payload); }
  }

  lemma L1Renews(d: real, states: seq<State>, events: seq<Event>, lo: nat, i: nat, r: Replica)
    requires Steps(d, states, events) && lo <= i < |events|
    requires RenewedL1(states, lo, i, r) && RenewedRequests(states, lo, i)
    ensures RenewedL1(states, lo, i + 1, r)
  {
    var s, t := states[i], states[i + 1];
    hide SinceRow;
    assert Apply(d, s, events[i]) == t;
    forall q | q in t.l1
      ensures SinceRow(states, lo, i + 1, t.l1[q].payload) || (q != r && t.l1[q].expires <= states[lo].now + TTL)
    {
      if SinceRow(states, lo, i, t.l1[q].payload) { SinceRowStill(states, lo, i, t.l1[q].payload); }
      else { assert q in s.l1 && s.l1[q] == t.l1[q]; }
    }
  }

  lemma RequestsRenew(d: real, states: seq<State>, events: seq<Event>, lo: nat, i: nat)
    requires Steps(d, states, events) && lo <= i < |events| && states[i].now >= states[lo].now
    requires RenewedL2(states, lo, i) && RenewedRequests(states, lo, i)
    ensures RenewedRequests(states, lo, i + 1)
  {
    var e, t := events[i], states[i + 1];
    hide SinceRow;
    assert Apply(d, states[i], e) == t;
    forall id | id in t.requests && Holds(t.requests[id])
      ensures SinceRow(states, lo, i + 1, t.requests[id].payload)
    {
      if e == ReadDb(id) { RowNow(states, lo, i, t.requests[id].payload); }
      SinceRowStill(states, lo, i, t.requests[id].payload);
    }
  }

  lemma RowNow(states: seq<State>, lo: nat, i: nat, p: Payload)
    requires lo <= i < |states| && states[i].row == Some(p) && states[i].now >= states[lo].now
    ensures SinceRow(states, lo, i, p)
  {
    IsRow(states, lo, i, p, states[lo].now);
  }

  lemma {:induction false} AlwaysShortLived(d: real, states: seq<State>, events: seq<Event>, i: nat)
    requires Steps(d, states, events) && Cold(states[0]) && i < |states|
    ensures ShortLived(states[i])
  {
    if i == 0 {
    } else {
      AlwaysShortLived(d, states, events, i - 1);
      assert Apply(d, states[i - 1], events[i - 1]) == states[i];
    }
  }

  lemma {:induction false} RenewedFrom(d: real, states: seq<State>, events: seq<Event>, lo: nat, i: nat, r: Replica)
    requires d >= 0.0 && Steps(d, states, events) && Cold(states[0]) && lo <= i < |states|
    requires Invalidated(states[lo], r)
    ensures RenewedL2(states, lo, i) && RenewedL1(states, lo, i, r) && RenewedRequests(states, lo, i)
    ensures states[i].now >= states[lo].now
  {
    hide SinceRow;
    if i == lo {
      AlwaysShortLived(d, states, events, lo);
    } else {
      RenewedFrom(d, states, events, lo, i - 1, r);
      L2Renews(d, states, events, lo, i - 1);
      L1Renews(d, states, events, lo, i - 1, r);
      RequestsRenew(d, states, events, lo, i - 1);
      assert Apply(d, states[i - 1], events[i - 1]) == states[i];
    }
  }

  /** Main result: after an invalidation with no validation under way, whatever its replica accepts was the
      row at or after that instant; from 300 seconds on the same holds of every replica. */
  lemma InvalidationTakesHold(d: real, states: seq<State>, events: seq<Event>, lo: nat, i: nat, r: Replica)
    requires d >= 0.0 && Steps(d, states, events) && Cold(states[0]) && lo <= i < |events|
    requires Invalidated(states[lo], r)
    requires Accepted(d, states[i], events[i]).Some?
    requires Accepted(d, states[i], events[i]).value.0 == r || states[i].now >= states[lo].now + 300.0
    ensures exists j :: lo <= j <= i && states[j].row == Some(Accepted(d, states[i], events[i]).value.1)
  {
    RenewedFrom(d, states, events, lo, i, r);
    assert SinceRow(states, lo, i, Accepted(d, states[i], events[i]).value.1);
  }

  // ── One replica's code ────────────────────────────────────────────────────

  type Hash = string

  function Lookup<T>(m: map<Hash, T>, h: Hash): Option<T> {
    if h in m then Some(m[h]) else None
  }

  /** What the replicas share: the database's token rows and the shared cache. */
  class Shared {
    var rows: map<Hash, Payload>
    var l2: map<Hash, Entry>

    constructor (rows: map<Hash, Payload>)
      ensures this.rows == rows && l2 == map[]
    {
      this.rows, l2 := rows, map[];
    }
  }

  /** A validation that nothing interrupts, in the steps above. `up`: the shared cache is available. */
  function Served(s: State, r: Replica, up: bool, active: bool): (State, Option<Payload>)
    requires s.requests == map[]
  {
    var begin := Begin(0, r);
    var s1 := Apply(0.0, s, begin);
    if 0 !in s1.requests then (s1, Answer(Accepted(0.0, s, begin))) else
    var s2 := Apply(0.0, s1, ReadL2(0, up));
    if s2.requests[0].FromL2? then
      (Apply(0.0, s2, FillFromL2(0)), Answer(Accepted(0.0, s2, FillFromL2(0))))
    else
    var s3 := Apply(0.0, s2, ReadDb(0));
    if 0 !in s3.requests then (s3, None) else
    if !active then (Apply(0.0, s3, GiveUp(0)), None) else
    var s4 := Apply(0.0, s3, FillL1(0));
    (Apply(0.0, s4, FillL2(0, up)), Answer(Accepted(0.0, s4, FillL2(0, up))))
  }

  function Answer(a: Option<(Replica, Payload)>): Option<Payload> {
    if a.Some? then Some(a.value.1) else None
  }

  function IfEnabled(hit: Option<Payload>): Option<Payload> {
    if hit.Some? && hit.value.enabled then hit else None
  }

  lemma ServedFromL1(s: State, r: Replica, up: bool, active: bool)
    requires s.requests == map[] && Live(L1Of(s, r), s.now).Some?
    ensures Served(s, r, up, active) == (s, IfEnabled(Live(L1Of(s, r), s.now)))
  {
  }

  lemma ServedFromL2(s: State, r: Replica, active: bool)
    requires s.requests == map[] && Live(L1Of(s, r), s.now).None? && Live(s.l2, s.now).Some?
    ensures var hit := Live(s.l2, s.now);
            Served(s, r, true, active) == (s.(l1 := s.l1[r := Entry(hit.value, s.now + TTL)]), IfEnabled(hit))
  {
    var s2 := Apply(0.0, Apply(0.0, s, Begin(0, r)), ReadL2(0, true));
    assert s2.requests[0].FromL2?;
    assert s2.requests - {0} == map[];
    assert (s.l1 - {r})[r := Entry(s2.requests[0].payload, s.now + TTL)] == s.l1[r := Entry(s2.requests[0].payload, s.now + TTL)];
  }

  lemma ServedFromDatabase(s: State, r: Replica, up: bool, active: bool)
    requires s.requests == map[] && Live(L1Of(s, r), s.now).None? && (up ==> Live(s.l2, s.now).None?)
    ensures Served(s, r, up, active) ==
      if s.row.Some? && s.row.value.enabled && active then
        var e := Entry(s.row.value, s.now + TTL);
        (s.(l1 := s.l1[r := e], l2 := if up then Some(e) else s.l2), s.row)
      else (s.(l1 := s.l1 - {r}), None)
  {
    var s1 := Apply(0.0, s, Begin(0, r));
    var s2 := Apply(0.0, s1, ReadL2(0, up));
    assert s2.requests[0] == AskDb(r);
    assert s1.requests == map[0 := AskL2(r)] && s2.requests == map[0 := AskDb(r)];
    var s3 := Apply(0.0, s2, ReadDb(0));
    assert s3.requests - {0} == map[];
    if s.row.Some? && s.row.value.enabled && active {
      var e := Entry(s.row.value, s.now + TTL);
      assert (s.l1 - {r})[r := e] == s.l1[r := e];
      var s4 := Apply(0.0, s3, FillL1(0));
      assert s4.requests - {0} == map[];
    }
  }

  class TokenCache {
    const id: Replica
    const shared: Shared
    var l1: map<Hash, Entry>

    constructor (id: Replica, shared: Shared)
      ensures this.id == id && this.shared == shared && l1 == map[]
    {
      this.id, this.shared, l1 := id, shared, map[];
    }

    /** The protocol's state for one token, as this replica sees it. */
    ghost function View(h: Hash, now: real): (s: State)
      reads this, shared
    {
      State(now, Lookup(shared.rows, h), Lookup(shared.l2, h), if h in l1 then map[id := l1[h]] else map[], map[])
    }

    method L1Get(h: Hash, now: real) returns (hit: Option<Payload>)
      modifies this`l1
      ensures hit == Live(Lookup(old(l1), h), now)
      ensures l1 == if hit.Some? then old(l1) else old(l1) - {h}
    {
      if h in l1 && l1[h].expires > now {
        return Some(l1[h].payload);
      }
      l1 := l1 - {h};
      return None;
    }

    method L1Set(h: Hash, p: Payload, now: real)
      modifies this`l1
      ensures l1 == old(l1)[h := Entry(p, now + TTL)]
    {
      l1 := l1[h := Entry(p, now + TTL)];
    }

    method L2Get(h: Hash, now: real, up: bool) returns (hit: Option<Payload>)
      ensures hit == if up then Live(Lookup(shared.l2, h), now) else None
    {
      if up && h in shared.l2 && shared.l2[h].expires > now {
        return Some(shared.l2[h].payload);
      }
      return None;
    }

    method Validate(h: Hash, now: real, up: bool, active: bool) returns (r: Option<Payload>)
      modifies this`l1, shared`l2
      ensures (View(h, now), r) == Served(old(View(h, now)), id, up, active)
      ensures forall g :: g != h ==> Lookup(l1, g) == Lookup(old(l1), g) && Lookup(shared.l2, g) == Lookup(old(shared.l2), g)
    {
      hide Served, Apply, Accepted;
      ghost var s := View(h, now);
      var hit := L1Get(h, now);
      if hit.Some? {
        ServedFromL1(s, id, up, active);
        return if hit.value.enabled then hit else None;
      }
      hit := L2Get(h, now, up);
      if hit.Some? {
        ServedFromL2(s, id, active);
        L1Set(h, hit.value, now);
        assert View(h, now).l1 == s.l1[id := l1[h]];
        return if hit.value.enabled then hit else None;
      }
      ServedFromDatabase(s, id, up, active);
      if h !in shared.rows || !shared.rows[h].enabled || !active {
        return None;
      }
      var p := shared.rows[h];
      L1Set(h, p, now);
      assert View(h, now).l1 == s.l1[id := l1[h]];
      if up {
        shared.l2 := shared.l2[h := Entry(p, now + TTL)];
      }
      return Some(p);
    }

    method Invalidate(h: Hash, now: real)
      modifies this`l1, shared`l2
      ensures Invalidated(View(h, now), id)
      ensures l1 == old(l1) - {h} && shared.l2 == old(shared.l2) - {h}
    {
      l1 := l1 - {h};
      shared.l2 := shared.l2 - {h};
    }
  }

  /** The next validation after an invalidation answers with the database as it is. */
  lemma ValidationAfterInvalidation(s: State, r: Replica, up: bool, active: bool)
    requires Invalidated(s, r)
    ensures var answer := Served(s, r, up, active).1;
            forall p :: answer == Some(p) <==> s.row == Some(p) && p.enabled && active
  {
    ServedFromDatabase(s, r, up, active);
  }

  // ── The staleness bound is reached ────────────────────────────────────────

  /** A state some run with delay `d` comes to in which the database has held `p` at the instant 0 only. */
  ghost predicate Forgotten(d: real, s: State, p: Payload) {
    exists states: seq<State>, events: seq<Event> :: RunForgets(d, states, events, s, p)
  }

  ghost predicate RunForgets(d: real, states: seq<State>, events: seq<Event>, s: State, p: Payload) {
    && Steps(d, states, events) && Cold(states[0]) && states[|events|] == s
    && forall j :: 0 <= j < |states| && states[j].row == Some(p) ==> states[j].now <= 0.0
  }

  lemma ForgottenStep(d: real, s: State, p: Payload, e: Event)
    requires Forgotten(d, s, p) && Enabled(d, s, e)
    requires Apply(d, s, e).row == Some(p) ==> Apply(d, s, e).now <= 0.0
    ensures Forgotten(d, Apply(d, s, e), p)
  {
    var states: seq<State>, events: seq<Event> :| RunForgets(d, states, events, s, p);
    hide Apply, Enabled;
    var states', events' := states + [Apply(d, s, e)], events + [e];
    assert states'[|events'|] == Apply(d, s, e);
    assert Steps(d, states', events');
    assert RunForgets(d, states', events', Apply(d, s, e), p);
  }

  lemma StartForgotten(d: real, s: State, p: Payload)
    requires Cold(s) && s.now == 0.0
    ensures Forgotten(d, s, p)
  {
    assert RunForgets(d, [s], [], s, p);
  }

  const TOKEN := Payload("token", 1, "", None, true, None)

  /** Replica 0 reads the row at 0, after which it is gone, and takes `d` to fill the caches. */
  lemma SlowFill(d: real)
    requires d >= 0.0
    ensures var e := Entry(TOKEN, d + 300.0);
            Forgotten(d, State(d, None, Some(e), map[0 := e], map[]), TOKEN)
  {
    var p, e := TOKEN, Entry(TOKEN, d + 300.0);
    var s0 := State(0.0, Some(p), None, map[], map[]);
    StartForgotten(d, s0, p);
    hide Forgotten;
    ForgottenStep(d, s0, p, Begin(0, 0));
    var s1 := s0.(requests := map[0 := AskL2(0)]);
    assert Apply(d, s0, Begin(0, 0)) == s1;
    ForgottenStep(d, s1, p, ReadL2(0, true));
    var s2 := s0.(requests := map[0 := AskDb(0)]);
    assert Apply(d, s1, ReadL2(0, true)) == s2;
    ForgottenStep(d, s2, p, ReadDb(0));
    var s3 := s0.(requests := map[0 := FromDb(0, p, 0.0)]);
    assert Apply(d, s2, ReadDb(0)) == s3;
    ForgottenStep(d, s3, p, WriteRow(None));
    SlowFillEnds(d, s3.(row := None));
  }

  lemma SlowFillEnds(d: real, s: State)
    requires d >= 0.0 && Forgotten(d, s, TOKEN)
    requires s == State(0.0, None, None, map[], map[0 := FromDb(0, TOKEN, 0.0)])
    ensures var e := Entry(TOKEN, d + 300.0);
            Forgotten(d, State(d, None, Some(e), map[0 := e], map[]), TOKEN)
  {
    var p, e := TOKEN, Entry(TOKEN, d + 300.0);
    hide Forgotten;
    ForgottenStep(d, s, p, Tick(d));
    var s1 := s.(now := d);
    ForgottenStep(d, s1, p, FillL1(0));
    var s2 := State(d, None, None, map[0 := e], map[0 := L1Filled(0, p, 0.0)]);
    assert Apply(d, s1, FillL1(0)) == s2;
    ForgottenStep(d, s2, p, FillL2(0, true));
    var s3 := State(d, None, Some(e), map[0 := e], map[]);
    assert Apply(d, s2, FillL2(0, true)) == s3;
  }

  /** Replica 1 reads the shared entry just before it expires, and takes `d` to copy it. */
  lemma SlowCopy(d: real, left: real)
    requires d >= 0.0 && 0.0 < left < 300.0
    ensures var e, f := Entry(TOKEN, d + 300.0), Entry(TOKEN, 2.0 * d + 600.0 - left);
            Forgotten(d, State(2.0 * d + 300.0 - left, None, Some(e), map[0 := e, 1 := f], map[]), TOKEN)
  {
    var p, e, f := TOKEN, Entry(TOKEN, d + 300.0), Entry(TOKEN, 2.0 * d + 600.0 - left);
    var s0 := State(d, None, Some(e), map[0 := e], map[]);
    SlowFill(d);
    hide Forgotten;
    ForgottenStep(d, s0, p, Tick(300.0 - left));
    var s1 := s0.(now := d + (300.0 - left));
    ForgottenStep(d, s1, p, Begin(0, 1));
    var s2 := s1.(requests := map[0 := AskL2(1)]);
    assert Apply(d, s1, Begin(0, 1)) == s2;
    ForgottenStep(d, s2, p, ReadL2(0, true));
    var s3 := s1.(requests := map[0 := FromL2(1, p, s1.now)]);
    assert Apply(d, s2, ReadL2(0, true)) == s3;
    ForgottenStep(d, s3, p, Tick(d));
    var s4 := s3.(now := s1.now + d);
    ForgottenStep(d, s4, p, FillFromL2(0));
    var s5 := State(2.0 * d + 300.0 - left, None, Some(e), map[0 := e, 1 := f], map[]);
    assert Apply(d, s4, FillFromL2(0)) == s5;
  }

  /** For every delay the bound of 600 seconds and twice the delay cannot be improved: one replica fills the
      shared cache late, another copies the entry late just before it expires, and serves it until just
      before its own copy does. */
  lemma BoundIsTight(d: real, slack: real)
    requires d >= 0.0 && 0.0 < slack < 600.0
    ensures exists s, p :: Forgotten(d, s, p) && s.now == 600.0 + 2.0 * d - slack
                           && Enabled(d, s, Begin(0, 1)) && Accepted(d, s, Begin(0, 1)) == Some((1, p))
  {
    var left := slack / 2.0;
    var e, f := Entry(TOKEN, d + 300.0), Entry(TOKEN, 2.0 * d + 600.0 - left);
    var s := State(2.0 * d + 300.0 - left, None, Some(e), map[0 := e, 1 := f], map[]);
    SlowCopy(d, left);
    hide Forgotten;
    ForgottenStep(d, s, TOKEN, Tick(300.0 - left));
    var last := s.(now := s.now + (300.0 - left));
    assert Accepted(d, last, Begin(0, 1)) == Some((1, TOKEN));
  }
}
