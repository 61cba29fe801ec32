/** The fixed-window rate limiter: one shared counter per user and hour slot, any number of replicas. */
module RateLimit {
  import opened Common

  type User = nat
  type Id = nat

  const WINDOW := 3600
  const KEY_TTL := 7200

  datatype Key = Key(user: User, slot: int)

  datatype Counter = Counter(count: nat, expires: Option<real>)

  type Counters = map<Key, Counter>

  /** The hour slot of an instant. */
  function Slot(now: real): (slot: int)
    ensures (slot * WINDOW) as real <= now < ((slot + 1) * WINDOW) as real
  {
    now.Floor / WINDOW
  }

  predicate Live(c: Counters, k: Key, now: real) {
    k in c && (c[k].expires.Some? ==> now < c[k].expires.value)
  }

  /** INCR: an expired or missing counter starts again, without an expiry. */
  function Incremented(c: Counters, k: Key, now: real): Counter {
    if Live(c, k, now) then c[k].(count := c[k].count + 1) else Counter(1, None)
  }

  function WithExpiry(c: Counters, k: Key, now: real): Counters {
    if Live(c, k, now) then c[k := c[k].(expires := Some(now + KEY_TTL as real))] else c
  }

  // ── Any interleaving of checks ────────────────────────────────────────────

  /** A check under way: it computed its slot `at` some instant; `counted` is what INCR answered. */
  datatype Request = Request(user: User, rpm: int, at: real, counted: Option<nat>)

  datatype State = State(now: real, counters: Counters, requests: map<Id, Request>)

  datatype Event =
    | Tick(seconds: real)
    | Ask(id: Id, user: User, rpm: int)
    | Incr(id: Id)
    | SetExpiry(id: Id)

  function KeyOf(q: Request): Key {
    Key(q.user, Slot(q.at))
  }

  /** Each request's INCR comes within an hour of reading the clock; its EXPIRE at any time later, or never. */
  predicate Enabled(s: State, e: Event) {
    match e
    case Tick(seconds) => seconds >= 0.0
    case Ask(id, _, rpm) => id !in s.requests && rpm > 0
    case Incr(id) => id in s.requests && s.requests[id].counted.None? && s.now <= s.requests[id].at + WINDOW as real
    case SetExpiry(id) => id in s.requests && s.requests[id].counted == Some(1)
  }

  function Apply(s: State, e: Event): State
    requires Enabled(s, e)
  {
    match e
    case Tick(seconds) => s.(now := s.now + seconds)
    case Ask(id, user, rpm) => s.(requests := s.requests[id := Request(user, rpm, s.now, None)])
    case Incr(id) =>
      var q := s.requests[id];
      var c := Incremented(s.counters, KeyOf(q), s.now);
      s.(counters := s.counters[KeyOf(q) := c], requests := s.requests[id := q.(counted := Some(c.count))])
    case SetExpiry(id) => s.(counters := WithExpiry(s.counters, KeyOf(s.requests[id]), s.now))
  }

  ghost predicate Steps(states: seq<State>, events: seq<Event>) {
    && |states| == |events| + 1 && states[0].counters == map[] && states[0].requests == map[]
    && forall i :: 0 <= i < |events| ==> Enabled(states[i], events[i]) && Apply(states[i], events[i]) == states[i + 1]
  }

  /** The check whose INCR this step is, if it is let through. */
  function Admitted(s: State, e: Event): Option<Request>
    requires Enabled(s, e)
  {
    if e.Incr? && Incremented(s.counters, KeyOf(s.requests[e.id]), s.now).count <= 60 * s.requests[e.id].rpm
    then Some(s.requests[e.id]) else None
  }

  // ── The code of one check ─────────────────────────────────────────────────

  /** A check that nothing interrupts, in the steps above: the counters it leaves, and its verdict. */
  function Checked(c: Counters, now: real, user: User, rpm: int): (Counters, bool, nat)
    requires rpm > 0
  {
    var asked := Apply(State(now, c, map[]), Ask(0, user, rpm));
    var counted := Apply(asked, Incr(0));
    var count := counted.requests[0].counted.value;
    var done := if count == 1 then Apply(counted, SetExpiry(0)) else counted;
    (done.counters, Admitted(asked, Incr(0)).Some?, count)
  }

  class RateLimiter {
    var counters: Counters

    constructor ()
      ensures counters == map[]
    {
      counters := map[];
    }

    method CheckRateLimit(user: User, rpm: int, now: real) returns (allowed: bool, count: nat)
      modifies this
      ensures rpm <= 0 ==> allowed && count == 0 && counters == old(counters)
      ensures rpm > 0 ==> (counters, allowed, count) == Checked(old(counters), now, user, rpm)
    {
      if rpm <= 0 { return true, 0; }
      var k := Key(user, now.Floor / WINDOW);
      count := 1;
      if Live(counters, k, now) {
        count := counters[k].count + 1;
        counters := counters[k := counters[k].(count := count)];
      } else {
        counters := counters[k := Counter(1, None)];
      }
      if count == 1 {
        counters := counters[k := counters[k].(expires := Some(now + KEY_TTL as real))];
      }
      allowed := count <= rpm * 60;
    }
  }

  /** What a check does to its counter, and to no other. */
  lemma CheckCounts(c: Counters, now: real, user: User, rpm: int)
    requires rpm > 0
    ensures var (after, allowed, count) := Checked(c, now, user, rpm);
            var k := Key(user, Slot(now));
            var was := if Live(c, k, now) then c[k].count else 0;
            && count == was + 1 && (allowed <==> count <= 60 * rpm)
            && k in after && after[k] == Counter(count, if was == 0 then Some(now + 7200.0) else c[k].expires)
            && after - {k} == c - {k}
  {
  }

  // ── Over whole runs ───────────────────────────────────────────────────────

  /** How many of the first `n` steps admit a request of key `k` whose own limit is at most `rpm`. */
  function AdmittedIn(states: seq<State>, events: seq<Event>, n: nat, k: Key, rpm: nat): nat
    requires n <= |events| < |states|
    requires forall i :: 0 <= i < |events| ==> Enabled(states[i], events[i])
  {
    if n == 0 then 0
    else
      var q := Admitted(states[n - 1], events[n - 1]);
      AdmittedIn(states, events, n - 1, k, rpm)
      + if q.Some? && KeyOf(q.value) == k && q.value.rpm <= rpm then 1 else 0
  }

  /** How many of the first `n` steps admit one of the user's requests made in the 3600 seconds from `from`. */
  function AdmittedFrom(states: seq<State>, events: seq<Event>, n: nat, user: User, rpm: nat, from: real): nat
    requires n <= |events| < |states|
    requires forall i :: 0 <= i < |events| ==> Enabled(states[i], events[i])
  {
    if n == 0 then 0
    else
      var q := Admitted(states[n - 1], events[n - 1]);
      AdmittedFrom(states, events, n - 1, user, rpm, from)
      + if q.Some? && q.value.user == user && q.value.rpm <= rpm && from <= q.value.at < from + 3600.0 then 1 else 0
  }

  /** No counter expires while a request of its slot may still increment it. */
  predicate OutlivesSlot(s: State) {
    && (forall k :: k in s.counters && s.counters[k].expires.Some? ==>
          s.counters[k].expires.value >= (k.slot * WINDOW + KEY_TTL) as real)
    && (forall id :: id in s.requests ==> s.requests[id].at <= s.now)
  }

  lemma {:induction false} CountersOutliveSlots(states: seq<State>, events: seq<Event>, i: nat)
    requires Steps(states, events) && i < |states|
    ensures OutlivesSlot(states[i])
  {
    if i == 0 {
    } else {
      CountersOutliveSlots(states, events, i - 1);
      assert Apply(states[i - 1], events[i - 1]) == states[i];
    }
  }

  /** A counter never restarts: each INCR of an existing counter continues it. */
  lemma NeverRestarts(states: seq<State>, events: seq<Event>, i: nat)
    requires Steps(states, events) && i < |events| && events[i].Incr?
    ensures events[i].id in states[i].requests
    ensures var k := KeyOf(states[i].requests[events[i].id]);
            k in states[i].counters ==> Live(states[i].counters, k, states[i].now)
  {
    CountersOutliveSlots(states, events, i);
    var q := states[i].requests[events[i].id];
    assert q.at < ((Slot(q.at) + 1) * WINDOW) as real;
  }

  function CountOf(s: State, k: Key): nat {
    if k in s.counters then s.counters[k].count else 0
  }

  lemma {:induction false} AdmittedAtMostCounted(states: seq<State>, events: seq<Event>, n: nat, k: Key, rpm: nat)
    requires Steps(states, events) && n <= |events|
    ensures AdmittedIn(states, events, n, k, rpm) <= CountOf(states[n], k)
    ensures AdmittedIn(states, events, n, k, rpm) <= 60 * rpm
  {
    if n == 0 {
    } else {
      AdmittedAtMostCounted(states, events, n - 1, k, rpm);
      assert Apply(states[n - 1], events[n - 1]) == states[n];
      if events[n - 1].Incr? { NeverRestarts(states, events, n - 1); }
    }
  }

  /** Main result: of a user's requests in one hour slot, at most 60 * rpm whose limit is at most `rpm` are
      admitted, whatever other requests, with whatever limits, share the counter. */
  lemma SlotLimit(states: seq<State>, events: seq<Event>, k: Key, rpm: nat)
    requires Steps(states, events)
    ensures AdmittedIn(states, events, |events|, k, rpm) <= 60 * rpm
  {
    AdmittedAtMostCounted(states, events, |events|, k, rpm);
  }

  /** How many of the first `n` steps are an INCR of key `k`. */
  function Checks(states: seq<State>, events: seq<Event>, n: nat, k: Key): nat
    requires n <= |events| < |states|
    requires forall i :: 0 <= i < |events| ==> Enabled(states[i], events[i])
  {
    if n == 0 then 0
    else
      var e := events[n - 1];
      Checks(states, events, n - 1, k) + if e.Incr? && KeyOf(states[n - 1].requests[e.id]) == k then 1 else 0
  }

  /** With one limit for all of a slot's requests, no more are turned away than must be: exactly the first
      60 * rpm of them are admitted. */
  lemma {:induction false} SlotAdmitsExactly(states: seq<State>, events: seq<Event>, n: nat, k: Key, rpm: nat)
    requires Steps(states, events) && n <= |events|
    requires forall i :: 0 <= i < n && events[i].Incr? && KeyOf(states[i].requests[events[i].id]) == k ==>
      states[i].requests[events[i].id].rpm == rpm
    ensures CountOf(states[n], k) == Checks(states, events, n, k)
    ensures AdmittedIn(states, events, n, k, rpm) == (if Checks(states, events, n, k) <= 60 * rpm then Checks(states, events, n, k) else 60 * rpm)
  {
    if n == 0 {
    } else {
      SlotAdmitsExactly(states, events, n - 1, k, rpm);
      assert Apply(states[n - 1], events[n - 1]) == states[n];
      if events[n - 1].Incr? { NeverRestarts(states, events, n - 1); }
    }
  }

  lemma {:induction false} IntervalMeetsTwoSlots(states: seq<State>, events: seq<Event>, n: nat, user: User, rpm: nat, from: real)
    requires Steps(states, events) && n <= |events|
    ensures AdmittedFrom(states, events, n, user, rpm, from)
         <= AdmittedIn(states, events, n, Key(user, Slot(from)), rpm) + AdmittedIn(states, events, n, Key(user, Slot(from) + 1), rpm)
  {
    if n == 0 {
    } else {
      IntervalMeetsTwoSlots(states, events, n - 1, user, rpm, from);
      var q := Admitted(states[n - 1], events[n - 1]);
      if q.Some? && from <= q.value.at < from + 3600.0 { TwoSlots(from, q.value.at); }
    }
  }

  lemma TwoSlots(from: real, at: real)
    requires from <= at < from + 3600.0
    ensures Slot(from) <= Slot(at) <= Slot(from) + 1
  {
  }

  /** Main result: at most 120 * rpm requests are admitted in any half-open hour. */
  lemma HourLimit(states: seq<State>, events: seq<Event>, user: User, rpm: nat, from: real)
    requires Steps(states, events)
    ensures AdmittedFrom(states, events, |events|, user, rpm, from) <= 120 * rpm
  {
    IntervalMeetsTwoSlots(states, events, |events|, user, rpm, from);
    SlotLimit(states, events, Key(user, Slot(from)), rpm);
    SlotLimit(states, events, Key(user, Slot(from) + 1), rpm);
  }
}
