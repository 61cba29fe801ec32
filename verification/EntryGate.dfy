/** Admission to an entry point: the atomic gate script, registration and deregistration, interleaved. */
module EntryGate {
  import opened Common

  type Sid = nat   // a session id; only its identity matters

  /** How far a connection has come. Registering and ending take two store commands each. */
  datatype Phase = Queued | Granted | HashWritten | Registered | HashDeleted | Gone

  /** The shared store, and where each connection stands. */
  datatype State = State(members: set<Sid>, hashes: set<Sid>, phase: map<Sid, Phase>)

  datatype Event =
    | TryGate(sid: Sid, cap: int)  // the script, on arrival or from the queue
    | Pass(sid: Sid)           // no cap is configured: the set is not consulted
    | WriteHash(sid: Sid)      // register: HSET with its TTL
    | AddMember(sid: Sid)      // register: SADD
    | DeleteHash(sid: Sid)     // end: DEL, also after a registration that failed half-way
    | RemoveMember(sid: Sid)   // end: SREM
    | Expire(sid: Sid)         // the hash's TTL runs out
    | Leave(sid: Sid)          // the process dies or the client gives up: no further steps

  predicate At(s: State, sid: Sid, phase: Phase) {
    sid in s.phase && s.phase[sid] == phase
  }

  /** The script's verdict: members without a session hash are pruned, then the cap is checked. */
  predicate Admits(cap: int, s: State) {
    !AtCap(cap, s.members * s.hashes)
  }

  predicate AtCap(cap: int, live: set<Sid>) {
    cap >= 0 && |live| >= cap
  }

  predicate Enabled(s: State, e: Event) {
    match e
    case TryGate(sid, _) => sid !in s.phase || s.phase[sid].Queued?
    case Pass(sid) => sid !in s.phase
    case WriteHash(sid) => At(s, sid, Granted)
    case AddMember(sid) => At(s, sid, HashWritten)
    case DeleteHash(sid) => sid in s.phase && (s.phase[sid].Granted? || s.phase[sid].HashWritten? || s.phase[sid].Registered?)
    case RemoveMember(sid) => At(s, sid, HashDeleted)
    case Expire(sid) => sid in s.hashes
    case Leave(sid) => sid in s.phase
  }

  function Apply(s: State, e: Event): State {
    match e
    case TryGate(sid, cap) =>
      var live := s.members * s.hashes;
      if Admits(cap, s) then State(live + {sid}, s.hashes, s.phase[sid := Granted])
      else State(live, s.hashes, s.phase[sid := Queued])
    case Pass(sid) => s.(phase := s.phase[sid := Granted])
    case WriteHash(sid) => s.(hashes := s.hashes + {sid}, phase := s.phase[sid := HashWritten])
    case AddMember(sid) => s.(members := s.members + {sid}, phase := s.phase[sid := Registered])
    case DeleteHash(sid) => s.(hashes := s.hashes - {sid}, phase := s.phase[sid := HashDeleted])
    case RemoveMember(sid) => s.(members := s.members - {sid}, phase := s.phase[sid := Gone])
    case Expire(sid) => s.(hashes := s.hashes - {sid})
    case Leave(sid) => s.(phase := s.phase[sid := Gone])
  }

  /** Granted a slot, but not yet back in the set by `register`. */
  function Unregistered(s: State): set<Sid> {
    set sid | sid in s.phase && (s.phase[sid].Granted? || s.phase[sid].HashWritten?)
  }

  /** Registered, and not yet ended or expired. */
  function LiveSessions(s: State): set<Sid> {
    set sid | sid in s.hashes && At(s, sid, Registered)
  }

  const EMPTY := State({}, {}, map[])

  /** A run: any interleaving of the events of any number of sessions, under caps of at most `cap`. */
  ghost predicate Run(cap: int, states: seq<State>, events: seq<Event>) {
    && |states| == |events| + 1 && states[0] == EMPTY
    && forall i :: 0 <= i < |events| ==> StepAt(states, events, i) && Capped(cap, events[i])
  }

  predicate Capped(cap: int, e: Event) {
    !e.Pass? && (e.TryGate? ==> 0 <= e.cap <= cap)
  }

  predicate StepAt(states: seq<State>, events: seq<Event>, i: nat)
    requires i < |events| < |states|
  {
    Enabled(states[i], events[i]) && Apply(states[i], events[i]) == states[i + 1]
  }

  // ── The shared set, as the code drives it ─────────────────────────────────

  datatype Admission = Admitted | QueueFull | Rejected

  class SessionStore {
    var members: set<Sid>
    var hashes: set<Sid>
    ghost var phase: map<Sid, Phase>

    constructor ()
      ensures View() == EMPTY
    {
      members, hashes, phase := {}, {}, map[];
    }

    ghost function View(): State
      reads this
    {
      State(members, hashes, phase)
    }

    /** The Lua script: -1 when the cap is reached, else the cardinality after the add. */
    method GateScript(sid: Sid, cap: int) returns (n: int)
      requires Enabled(View(), TryGate(sid, cap))
      modifies this`members, this`phase
      ensures View() == Apply(old(View()), TryGate(sid, cap))
      ensures n == if Admits(cap, old(View())) then |old(members) * hashes| + 1 else -1
    {
      var rest := members;
      while rest != {}
        invariant rest <= old(members) && phase == old(phase)
        invariant forall m :: m in members <==> m in old(members) && (m in rest || m in hashes)
        decreases rest
      {
        var m :| m in rest;
        rest := rest - {m};
        if m !in hashes {
          members := members - {m};
        }
      }
      assert members == old(members) * hashes;
      n := |members|;
      if cap >= 0 && n >= cap {
        phase := phase[sid := Queued];
        return -1;
      }
      members := members + {sid};
      phase := phase[sid := Granted];
      n := n + 1;
    }

    /** The gate's entry-point part. */
    method RuntimeGate(sid: Sid, cap: Option<int>, queueTimeout: int) returns (r: Admission)
      requires sid !in phase
      modifies this`members, this`phase
      ensures View() == Apply(old(View()), if cap.None? then Pass(sid) else TryGate(sid, cap.value))
      ensures r == if At(View(), sid, Granted) then Admitted else if queueTimeout != 0 then QueueFull else Rejected
    {
      if cap.None? {
        phase := phase[sid := Granted];
        return Admitted;
      }
      var n := GateScript(sid, cap.value);
      r := if n != -1 then Admitted else if queueTimeout != 0 then QueueFull else Rejected;
    }

    /** Two store commands; other sessions may come between them. */
    method Register(sid: Sid)
      requires At(View(), sid, Granted)
      modifies this
      ensures View() == Apply(Apply(old(View()), WriteHash(sid)), AddMember(sid))
    {
      hashes := hashes + {sid};
      phase := phase[sid := HashWritten];
      members := members + {sid};
      phase := phase[sid := Registered];
    }

    method End(sid: Sid)
      requires Enabled(View(), DeleteHash(sid))
      modifies this
      ensures View() == Apply(Apply(old(View()), DeleteHash(sid)), RemoveMember(sid))
    {
      hashes := hashes - {sid};
      phase := phase[sid := HashDeleted];
      members := members - {sid};
      phase := phase[sid := Gone];
    }
  }

  /** The queue loop: while the deadline, checked at `clock(n)`, has not passed, sleep three seconds and try. The
      n-th try's verdict is the script's in whatever state the store then is; the last may fall after the deadline. */
  method WaitForSlot(deadline: int, clock: nat -> int, verdict: nat -> bool) returns (acquired: bool, tries: nat)
    requires forall n: nat :: clock(n + 1) >= clock(n) + 3
    ensures forall j :: 0 <= j < tries ==> clock(j) < deadline
    ensures tries > 0 ==> 3 * (tries - 1) < deadline - clock(0)
    ensures acquired ==> tries > 0 && verdict(tries - 1) && forall j :: 0 <= j < tries - 1 ==> !verdict(j)
    ensures !acquired ==> clock(tries) >= deadline && forall j :: 0 <= j < tries ==> !verdict(j)
  {
    acquired, tries := false, 0;
    while clock(tries) < deadline
      invariant forall j :: 0 <= j < tries ==> clock(j) < deadline && !verdict(j)
      invariant clock(tries) >= clock(0) + 3 * tries
      invariant tries > 0 ==> 3 * (tries - 1) < deadline - clock(0)
      decreases deadline - clock(tries)
    {
      assert clock(tries + 1) >= clock(tries) + 3;
      tries := tries + 1;
      acquired := verdict(tries - 1);
      if acquired { return; }
    }
  }

  // ── The bound ─────────────────────────────────────────────────────────────

  lemma UnionSize(a: set<Sid>, b: set<Sid>)
    ensures |a + b| <= |a| + |b|
  {
    assert a + b == a + (b - a);
    assert b == (b - a) + (b * a);
  }

  /** Everyone who is in the set or will still be added to it. */
  function Claims(s: State): set<Sid> {
    s.members + Unregistered(s)
  }

  /** A live, registered session is in the set: the prune never removes it. */
  ghost predicate LiveAreMembers(s: State) {
    forall sid :: At(s, sid, Registered) && sid in s.hashes ==> sid in s.members
  }

  lemma GrantKeepsBound(cap: int, k: nat, s: State, sid: Sid, bound: int)
    requires 0 <= cap <= bound && k >= 1 && Admits(cap, s)
    requires |Unregistered(Apply(s, TryGate(sid, cap)))| <= k
    ensures |Claims(Apply(s, TryGate(sid, cap)))| <= bound + k - 1
  {
    var t := Apply(s, TryGate(sid, cap));
    var others := Unregistered(t) - {sid};
    assert sid in Unregistered(t);
    assert Claims(t) == t.members + others;
    UnionSize(s.members * s.hashes, {sid});
    UnionSize(t.members, others);
  }

  /** Only a grant lets a newcomer in. */
  lemma OthersAddNoClaim(s: State, e: Event)
    requires Enabled(s, e) && !e.Pass? && (e.TryGate? ==> !Admits(e.cap, s))
    ensures Claims(Apply(s, e)) <= Claims(s)
  {
    var t := Apply(s, e);
    forall sid | sid in Claims(t)
      ensures sid in Claims(s)
    {
      if sid !in s.members { assert sid in Unregistered(t) || e == AddMember(sid); }
    }
  }

  lemma LiveStayMembers(s: State, e: Event)
    requires Enabled(s, e) && LiveAreMembers(s)
    ensures LiveAreMembers(Apply(s, e))
  {
    var t := Apply(s, e);
    forall sid | At(t, sid, Registered) && sid in t.hashes
      ensures sid in t.members
    {
      if e != AddMember(sid) { assert At(s, sid, Registered) && sid in s.hashes; }
    }
  }

  lemma StepKeepsBound(cap: int, k: nat, s: State, e: Event)
    requires cap >= 0 && k >= 1 && Enabled(s, e) && Capped(cap, e)
    requires |Claims(s)| <= cap + k - 1 && |Unregistered(Apply(s, e))| <= k
    ensures |Claims(Apply(s, e))| <= cap + k - 1
  {
    hide Claims, Unregistered, Apply, Admits, Enabled;
    if e.TryGate? && Admits(e.cap, s) {
      GrantKeepsBound(e.cap, k, s, e.sid, cap);
    } else {
      OthersAddNoClaim(s, e);
      SubsetSize(Claims(Apply(s, e)), Claims(s));
    }
  }

  lemma {:induction false} RunKeepsBound(cap: int, k: nat, states: seq<State>, events: seq<Event>, i: nat)
    requires cap >= 0 && k >= 1 && Run(cap, states, events) && i < |states|
    requires forall j :: 0 <= j < |states| ==> |Unregistered(states[j])| <= k
    ensures |Claims(states[i])| <= cap + k - 1 && LiveAreMembers(states[i])
  {
    if i == 0 {
    } else {
      RunKeepsBound(cap, k, states, events, i - 1);
      assert StepAt(states, events, i - 1) && Capped(cap, events[i - 1]);
      StepKeepsBound(cap, k, states[i - 1], events[i - 1]);
      LiveStayMembers(states[i - 1], events[i - 1]);
    }
  }

  /** Main result: over every interleaving with at most `k` grants not yet registered at once, the set
      never exceeds cap + k - 1, and neither does the number of live registered sessions. */
  lemma EntryPointSetBounded(cap: int, k: nat, states: seq<State>, events: seq<Event>, i: nat)
    requires cap >= 0 && k >= 1 && Run(cap, states, events) && i < |states|
    requires forall j :: 0 <= j < |states| ==> |Unregistered(states[j])| <= k
    ensures |states[i].members| <= cap + k - 1
    ensures |LiveSessions(states[i])| <= cap + k - 1
  {
    var s := states[i];
    RunKeepsBound(cap, k, states, events, i);
    SubsetSize(s.members, Claims(s));
    SubsetSize(LiveSessions(s), s.members);
  }

  /** Where grants and registrations do not overlap, the cap itself holds. */
  lemma CapHoldsWithoutOverlap(cap: int, states: seq<State>, events: seq<Event>, i: nat)
    requires cap >= 0 && Run(cap, states, events) && i < |states|
    requires forall j :: 0 <= j < |states| ==> |Unregistered(states[j])| <= 1
    ensures |states[i].members| <= cap
  {
    EntryPointSetBounded(cap, 1, states, events, i);
  }

  /** At the script itself: a grant leaves at most `cap` members whatever happened before, and a denial
      means at least `cap` members have a live hash. */
  lemma GateVerdicts(cap: int, s: State, sid: Sid)
    requires cap >= 0 && Enabled(s, TryGate(sid, cap))
    ensures var t := Apply(s, TryGate(sid, cap));
            && (At(t, sid, Granted) ==> |t.members| <= cap && sid in t.members)
            && (At(t, sid, Queued) ==> |t.members| >= cap && t.members <= t.hashes)
            && (At(t, sid, Granted) || At(t, sid, Queued))
  {
    UnionSize(s.members * s.hashes, {sid});
  }

  /** What the script changes: members without a hash go, all others stay, and the caller comes in exactly when it is
      granted a slot, which it is exactly below the cap or without one. */
  lemma GateExact(cap: int, s: State, sid: Sid)
    requires Enabled(s, TryGate(sid, cap))
    ensures var t := Apply(s, TryGate(sid, cap));
            && t.hashes == s.hashes
            && (forall m :: m != sid ==> (m in t.members <==> m in s.members && m in s.hashes))
            && (At(t, sid, Granted) <==> cap < 0 || |set m | m in s.members && m in s.hashes| < cap)
            && (At(t, sid, Granted) ==> sid in t.members)
            && t.phase - {sid} == s.phase - {sid}
  {
    assert (set m | m in s.members && m in s.hashes) == s.members * s.hashes;
  }

  /** A session that is registered and ended leaves nothing behind and touches no other. */
  lemma RegisterThenEnd(s: State, sid: Sid)
    requires At(s, sid, Granted)
    ensures var registered := Apply(Apply(s, WriteHash(sid)), AddMember(sid));
            var ended := Apply(Apply(registered, DeleteHash(sid)), RemoveMember(sid));
            && registered.members == s.members + {sid} && registered.hashes == s.hashes + {sid} && At(registered, sid, Registered)
            && ended.members == s.members - {sid} && ended.hashes == s.hashes - {sid} && At(ended, sid, Gone)
            && registered.phase - {sid} == s.phase - {sid} && ended.phase - {sid} == s.phase - {sid}
  {
  }

  // ── The bound is reached ──────────────────────────────────────────────────

  ghost predicate Reachable(cap: int, k: nat, s: State) {
    exists states, events ::
      && Run(cap, states, events) && states[|events|] == s
      && forall j :: 0 <= j < |states| ==> |Unregistered(states[j])| <= k
  }

  lemma StartReachable(cap: int, k: nat)
    ensures Reachable(cap, k, EMPTY)
  {
    var states: seq<State>, events: seq<Event> := [EMPTY], [];
    assert Unregistered(EMPTY) == {};
    assert Run(cap, states, events) && states[|events|] == EMPTY;
  }

  lemma ReachableStep(cap: int, k: nat, s: State, e: Event)
    requires Reachable(cap, k, s) && Enabled(s, e) && Capped(cap, e) && |Unregistered(Apply(s, e))| <= k
    ensures Reachable(cap, k, Apply(s, e))
  {
    var states, events :|
      && Run(cap, states, events) && states[|events|] == s
      && forall j :: 0 <= j < |states| ==> |Unregistered(states[j])| <= k;
    hide Apply, Enabled, Unregistered;
    var states', events' := states + [Apply(s, e)], events + [e];
    assert states'[|events'|] == Apply(s, e);
    forall i | 0 <= i < |events'|
      ensures StepAt(states', events', i) && Capped(cap, events'[i])
    {
      if i < |events| { assert StepAt(states, events, i); }
    }
    assert Run(cap, states', events');
  }

  function Below(n: nat): (below: set<Sid>)
    ensures (forall i: nat :: i in below <==> i < n) && |below| == n
  {
    if n == 0 then {} else Below(n - 1) + {n - 1}
  }

  /** The first `r` sessions are registered; the next `g` hold a grant, of which only the last is in the set. */
  function Crowd(r: nat, g: nat): State {
    State(Below(r) + (if g > 0 then {r + g - 1} else {}), Below(r), Phases(r, g))
  }

  function Phases(r: nat, g: nat): map<Sid, Phase> {
    map i | i in Below(r + g) :: Stage(i, r)
  }

  function Stage(i: nat, r: nat): Phase {
    if i < r then Registered else Granted
  }

  lemma CrowdUnregistered(r: nat, g: nat)
    ensures |Unregistered(Crowd(r, g))| == g
  {
    hide Below;
    var u := Unregistered(Crowd(r, g));
    assert forall i :: i in u <==> i in Below(r + g) && r <= i;
    assert Below(r + g) == u + Below(r) && u !! Below(r);
  }

  lemma PhasesGrow(r: nat, g: nat)
    ensures Phases(r, g)[r + g := Granted] == Phases(r, g + 1)
  {
    hide Below;
    var p, q := Phases(r, g)[r + g := Granted], Phases(r, g + 1);
    assert Below(r + (g + 1)) == Below(r + g) + {r + g};
    assert p.Keys == q.Keys;
    forall i | i in p.Keys
      ensures p[i] == q[i]
    {
      assert q[i] == Stage(i, r);
      if i != r + g { assert p[i] == Stage(i, r); }
    }
  }

  /** A grant prunes the previous one, which has no hash yet. */
  lemma GrantInCrowd(cap: int, r: nat, g: nat)
    requires r < cap
    ensures Enabled(Crowd(r, g), TryGate(r + g, cap))
    ensures Apply(Crowd(r, g), TryGate(r + g, cap)) == Crowd(r, g + 1)
  {
    assert Phases(r, g).Keys == Below(r + g);
    hide Below, Phases;
    var s := Crowd(r, g);
    assert s.members * s.hashes == Below(r);
    PhasesGrow(r, g);
  }

  lemma CrowdGrows(cap: int, k: nat, r: nat, g: nat)
    requires cap >= 0 && Reachable(cap, k, Crowd(r, g)) && r < cap && g < k
    ensures Reachable(cap, k, Crowd(r, g + 1))
  {
    hide Reachable;
    GrantInCrowd(cap, r, g);
    CrowdUnregistered(r, g + 1);
    ReachableStep(cap, k, Crowd(r, g), TryGate(r + g, cap));
  }

  lemma HashInCrowd(r: nat, g: nat)
    requires 0 < g
    ensures Enabled(Crowd(r, g), WriteHash(r))
    ensures var mid := Apply(Crowd(r, g), WriteHash(r));
            Enabled(mid, AddMember(r)) && |Unregistered(mid)| == g
  {
    CrowdUnregistered(r, g);
    hide Below;
    var mid := Apply(Crowd(r, g), WriteHash(r));
    assert Unregistered(mid) == Unregistered(Crowd(r, g));
  }

  lemma PhasesAfter(r: nat, g: nat)
    requires 0 < g
    ensures Phases(r, g)[r := HashWritten][r := Registered] == Phases(r + 1, g - 1)
  {
    hide Below;
    var p, q := Phases(r, g)[r := HashWritten][r := Registered], Phases(r + 1, g - 1);
    assert (r + 1) + (g - 1) == r + g;
    assert r in Below(r + g);
    assert p.Keys == Below(r + g) && q.Keys == Below(r + g);
    forall i | i in p.Keys
      ensures p[i] == q[i]
    {
      assert q[i] == Stage(i, r + 1);
      if i != r { assert p[i] == Stage(i, r); }
    }
  }

  lemma MemberInCrowd(r: nat, g: nat)
    requires 0 < g
    ensures Apply(Apply(Crowd(r, g), WriteHash(r)), AddMember(r)) == Crowd(r + 1, g - 1)
  {
    hide Below, Phases;
    var s, t := Crowd(r, g), Crowd(r + 1, g - 1);
    assert t.hashes == s.hashes + {r};
    assert t.members == s.members + {r};
    PhasesAfter(r, g);
  }

  lemma CrowdRegisters(cap: int, k: nat, r: nat, g: nat)
    requires Reachable(cap, k, Crowd(r, g)) && 0 < g <= k
    ensures Reachable(cap, k, Crowd(r + 1, g - 1))
  {
    hide Reachable;
    HashInCrowd(r, g);
    MemberInCrowd(r, g);
    CrowdUnregistered(r + 1, g - 1);
    ReachableStep(cap, k, Crowd(r, g), WriteHash(r));
    ReachableStep(cap, k, Apply(Crowd(r, g), WriteHash(r)), AddMember(r));
  }

  lemma {:induction false} FullHouse(cap: int, k: nat, r: nat)
    requires r <= cap && k >= 1
    ensures Reachable(cap, k, Crowd(r, 0))
  {
    hide Reachable;
    if r == 0 {
      assert Crowd(0, 0) == EMPTY;
      StartReachable(cap, k);
    } else {
      FullHouse(cap, k, r - 1);
      CrowdGrows(cap, k, r - 1, 0);
      CrowdRegisters(cap, k, r - 1, 1);
    }
  }

  lemma {:induction false} Overlapping(cap: int, k: nat, g: nat)
    requires cap >= 1 && 1 <= k && g <= k
    ensures Reachable(cap, k, Crowd(cap - 1, g))
  {
    hide *;
    if g == 0 {
      FullHouse(cap, k, cap - 1);
    } else {
      Overlapping(cap, k, g - 1);
      CrowdGrows(cap, k, cap - 1, g - 1);
    }
  }

  lemma {:induction false} AllRegister(cap: int, k: nat, j: nat)
    requires cap >= 1 && 1 <= k && j <= k
    ensures Reachable(cap, k, Crowd(cap - 1 + j, k - j))
  {
    hide *;
    if j == 0 {
      Overlapping(cap, k, k);
    } else {
      AllRegister(cap, k, j - 1);
      CrowdRegisters(cap, k, cap - 1 + (j - 1), k - (j - 1));
    }
  }

  /** The bound is exact for every cap and every overlap: with k = 2 the plain cap is already exceeded. */
  lemma BoundIsReached(cap: int, k: nat)
    requires cap >= 1 && k >= 1
    ensures exists s :: Reachable(cap, k, s) && |s.members| == cap + k - 1 && s.members == LiveSessions(s)
  {
    AllRegister(cap, k, k);
    var s := Crowd(cap + k - 1, 0);
    assert s.members == Below(cap + k - 1);
    assert LiveSessions(s) == s.members;
  }
}
