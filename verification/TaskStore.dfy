/** The task store: a guarded state machine per task, driven by the runner, cancellation, push and the reaper. */
module TaskStore {
  import opened Common

  type Id = nat

  /** `Other` is any name outside the table, as a push may carry. */
  datatype TaskState =
    | Submitted | Working | InputRequired
    | Completed | Failed | Canceled | Rejected
    | Other(name: string)

  datatype Task = Task(
    state: TaskState,
    error: Option<string>,
    statusMessage: Option<string>,
    remoteTaskId: Option<string>,
    tokensUsed: int,
    deadline: Option<int>)

  type Tasks = map<Id, Task>

  function Transitions(from: TaskState): set<TaskState> {
    match from
    case Submitted => {Working, Canceled, Rejected}
    case Working => {InputRequired, Completed, Failed, Canceled}
    case InputRequired => {Working, Canceled}
    case _ => {}
  }

  predicate IsTerminal(s: TaskState) {
    s.Completed? || s.Failed? || s.Canceled? || s.Rejected?
  }

  /** What a caller asks of `transition`; an absent field is left as it is. */
  datatype Update = Update(to: TaskState, error: Option<string>, statusMessage: Option<string>,
                           remoteTaskId: Option<string>, tokensDelta: int)

  function OrElse<T>(a: Option<T>, b: Option<T>): Option<T> {
    if a.Some? then a else b
  }

  function Updated(t: Task, u: Update): Task {
    if u.to !in Transitions(t.state) then t
    else t.(state := u.to,
            error := OrElse(u.error, t.error),
            statusMessage := OrElse(u.statusMessage, t.statusMessage),
            remoteTaskId := OrElse(u.remoteTaskId, t.remoteTaskId),
            tokensUsed := t.tokensUsed + if u.tokensDelta > 0 then u.tokensDelta else 0)
  }

  function NewTask(deadline: Option<int>): Task {
    Task(Submitted, None, None, None, 0, deadline)
  }

  /** One committed store call; whoever makes it. */
  datatype Op =
    | Create(id: Id, deadline: Option<int>)
    | Transition(id: Id, update: Update)
    | AddTokens(id: Id, delta: int)

  function Apply(s: Tasks, op: Op): Tasks {
    match op
    case Create(id, deadline) => if id in s then s else s[id := NewTask(deadline)]
    case Transition(id, u) => if id in s then s[id := Updated(s[id], u)] else s
    case AddTokens(id, delta) => if id in s then s[id := s[id].(tokensUsed := s[id].tokensUsed + delta)] else s
  }

  /** The store after the first `n` calls of an interleaving. */
  function After(s: Tasks, ops: seq<Op>, n: nat): Tasks
    requires n <= |ops|
  {
    if n == 0 then s else Apply(After(s, ops, n - 1), ops[n - 1])
  }

  // ── The store as its callers drive it ─────────────────────────────────────

  predicate Overdue(t: Task, now: int) {
    t.deadline.Some? && t.deadline.value < now
  }

  const EXPIRED := Update(Failed, Some("deadline exceeded"), None, None, 0)

  class Store {
    var tasks: Tasks

    constructor ()
      ensures tasks == map[]
    {
      tasks := map[];
    }

    method CreateTask(id: Id, deadline: Option<int>) returns (t: Option<Task>)
      modifies this
      ensures tasks == Apply(old(tasks), Create(id, deadline))
      ensures t == if id in old(tasks) then None else Some(NewTask(deadline))
    {
      if id in tasks { return None; }
      t := Some(Task(Submitted, None, None, None, 0, deadline));
      tasks := tasks[id := t.value];
    }

    /** An unknown id yields nothing; an illegal move yields the task as it stands. */
    method TransitionTask(id: Id, u: Update) returns (t: Option<Task>)
      modifies this
      ensures tasks == Apply(old(tasks), Transition(id, u))
      ensures t == if id in tasks then Some(tasks[id]) else None
    {
      if id !in tasks { return None; }
      var task := tasks[id];
      if u.to !in Transitions(task.state) { return Some(task); }
      task := task.(state := u.to);
      if u.error.Some? { task := task.(error := u.error); }
      if u.statusMessage.Some? { task := task.(statusMessage := u.statusMessage); }
      if u.remoteTaskId.Some? { task := task.(remoteTaskId := u.remoteTaskId); }
      if u.tokensDelta > 0 { task := task.(tokensUsed := task.tokensUsed + u.tokensDelta); }
      tasks := tasks[id := task];
      t := Some(task);
    }

    method AddTokensUsed(id: Id, delta: int)
      modifies this
      ensures tasks == Apply(old(tasks), AddTokens(id, delta))
    {
      if id in tasks {
        tasks := tasks[id := tasks[id].(tokensUsed := tasks[id].tokensUsed + delta)];
      }
    }

    /** A remote agent's push: refused for an unknown or foreign task and for a body without a state,
        ignored once the task is terminal. */
    method Push(id: Id, owned: bool, state: Option<TaskState>) returns (status: int)
      modifies this
      ensures tasks == if status == 200 && state.Some? then
                         Apply(old(tasks), Transition(id, Update(state.value, None, None, None, 0)))
                       else old(tasks)
      ensures status == if id !in old(tasks) || !owned then 404
                        else if !IsTerminal(old(tasks)[id].state) && state.None? then 400
                        else 200
    {
      if id !in tasks || !owned { return 404; }
      if IsTerminal(tasks[id].state) { return 200; }
      if state.None? { return 400; }
      var _ := TransitionTask(id, Update(state.value, None, None, None, 0));
      status := 200;
    }

    /** One pass of the reaper: select the overdue tasks, then fail them one by one. */
    method Reap(now: int)
      modifies this
      ensures tasks.Keys == old(tasks).Keys
      ensures forall id :: id in tasks && Overdue(tasks[id], now) ==> !tasks[id].state.Working?
      ensures forall id :: id in tasks ==>
        var t := old(tasks)[id];
        tasks[id] == if Overdue(t, now) && t.state.Working? then t.(state := Failed, error := EXPIRED.error) else t
    {
      var expired := set id | id in tasks && tasks[id].state in {Submitted, Working} && Overdue(tasks[id], now);
      while expired != {}
        invariant expired <= old(tasks).Keys && tasks.Keys == old(tasks).Keys
        invariant forall id :: id in expired ==> tasks[id] == old(tasks)[id]
        invariant forall id :: id in tasks && id !in expired ==> tasks[id] == Reaped(old(tasks)[id], now)
        decreases expired
      {
        var id :| id in expired;
        var _ := TransitionTask(id, EXPIRED);
        expired := expired - {id};
      }
    }
  }

  function Reaped(t: Task, now: int): Task {
    if t.state in {Submitted, Working} && Overdue(t, now) then Updated(t, EXPIRED) else t
  }

  // ── One transition ────────────────────────────────────────────────────────

  /** The states from which a task may move to this one at once. */
  function Sources(to: TaskState): set<TaskState> {
    match to
    case Working => {Submitted, InputRequired}
    case InputRequired => {Working}
    case Completed => {Working}
    case Failed => {Working}
    case Canceled => {Submitted, Working, InputRequired}
    case Rejected => {Submitted}
    case _ => {}
  }

  predicate Kept<T(==)>(was: Option<T>, asked: Option<T>, now: Option<T>) {
    if asked == None then now == was else now == asked
  }

  /** A move from one of its sources is made and every field that is given replaces the old one; any other move changes
      nothing. In both cases every other task stays as it is. */
  lemma TransitionExact(s: Tasks, id: Id, u: Update)
    requires id in s
    ensures var after := Apply(s, Transition(id, u));
            && after.Keys == s.Keys && (forall other :: other in s && other != id ==> after[other] == s[other])
            && var was, now := s[id], after[id];
            if was.state in Sources(u.to) then
              && now.state == u.to && now.deadline == was.deadline
              && Kept(was.error, u.error, now.error)
              && Kept(was.statusMessage, u.statusMessage, now.statusMessage)
              && Kept(was.remoteTaskId, u.remoteTaskId, now.remoteTaskId)
              && now.tokensUsed == was.tokensUsed + if u.tokensDelta > 0 then u.tokensDelta else 0
            else now == was
  {
  }

  /** A submitted task is not completed in one step, nor failed, nor does a waiting one end but by cancellation. */
  lemma NoShortCuts(s: Tasks, id: Id, u: Update)
    requires id in s
    ensures var was, now := s[id].state, Apply(s, Transition(id, u))[id].state;
            && (now in {Completed, Failed, InputRequired} && now != was ==> was == Working)
            && (now == Rejected && was != Rejected ==> was == Submitted)
            && (was == InputRequired && IsTerminal(now) ==> now == Canceled)
            && (IsTerminal(was) ==> now == was)
  {
  }

  // ── Over whole interleavings ──────────────────────────────────────────────

  /** The states a task can come to from `a`, by any number of moves. */
  predicate CanReach(a: TaskState, b: TaskState) {
    || a == b
    || (a.Submitted? && !b.Other?)
    || ((a.Working? || a.InputRequired?) && !b.Other? && !b.Submitted? && !b.Rejected?)
  }

  lemma {:induction false} TaskPersists(s: Tasks, ops: seq<Op>, i: nat, j: nat, id: Id)
    requires i <= j <= |ops| && id in After(s, ops, i)
    ensures id in After(s, ops, j)
    ensures CanReach(After(s, ops, i)[id].state, After(s, ops, j)[id].state)
    ensures After(s, ops, i)[id].deadline == After(s, ops, j)[id].deadline
  {
    if i >= j {
    } else {
      TaskPersists(s, ops, i, j - 1, id);
    }
  }

  /** Main result: once a task is terminal, nothing any caller does changes its state, error, message or
      remote id; so a task enters at most one terminal state. */
  lemma {:induction false} TerminalIsFrozen(s: Tasks, ops: seq<Op>, i: nat, j: nat, id: Id)
    requires i <= j <= |ops| && id in After(s, ops, i) && IsTerminal(After(s, ops, i)[id].state)
    ensures id in After(s, ops, j)
    ensures var t, u := After(s, ops, i)[id], After(s, ops, j)[id]; u == t.(tokensUsed := u.tokensUsed)
  {
    if i >= j {
    } else {
      TerminalIsFrozen(s, ops, i, j - 1, id);
    }
  }

  ghost predicate ReachedBy(s: Tasks, ops: seq<Op>, id: Id, b: TaskState) {
    var t := After(s, ops, |ops|);
    id in t && t[id].state == b
  }

  function Move(id: Id, to: TaskState): Op {
    Transition(id, Update(to, None, None, None, 0))
  }

  lemma MoveReaches(s: Tasks, ops: seq<Op>, id: Id, a: TaskState, b: TaskState)
    requires ReachedBy(s, ops, id, a) && b in Transitions(a)
    ensures ReachedBy(s, ops + [Move(id, b)], id, b)
  {
    AfterPrefix(s, ops, [Move(id, b)], |ops|);
  }

  lemma {:induction false} AfterPrefix(s: Tasks, ops: seq<Op>, more: seq<Op>, n: nat)
    requires n <= |ops|
    ensures After(s, ops + more, n) == After(s, ops, n)
  {
    if n == 0 {
    } else {
      AfterPrefix(s, ops, more, n - 1);
    }
  }

  /** Main result: what the table allows over whole runs, exactly. Nothing returns to submitted, only a
      submitted task is rejected, and a name outside the table is never entered. */
  lemma ReachesIff(s: Tasks, id: Id, b: TaskState)
    requires id in s
    ensures CanReach(s[id].state, b) <==> exists ops :: ReachedBy(s, ops, id, b)
  {
    var a := s[id].state;
    if ops :| ReachedBy(s, ops, id, b) { TaskPersists(s, ops, 0, |ops|, id); }
    if CanReach(a, b) {
      assert ReachedBy(s, [], id, a);
      if a != b {
        if b in Transitions(a) {
          MoveReaches(s, [], id, a, b);
        } else {
          MoveReaches(s, [], id, a, Working);
          MoveReaches(s, [] + [Move(id, Working)], id, Working, b);
        }
      }
    }
  }

  /** What a call adds to a task's tokens; a refused transition adds nothing. */
  function Charge(s: Tasks, op: Op, id: Id): int {
    match op
    case Transition(i, u) =>
      if i == id && id in s && u.to in Transitions(s[id].state) && u.tokensDelta > 0 then u.tokensDelta else 0
    case AddTokens(i, delta) => if i == id then delta else 0
    case Create(_, _) => 0
  }

  /** The charges of the calls `i` to `j`. */
  function Charged(s: Tasks, ops: seq<Op>, i: nat, j: nat, id: Id): int
    requires i <= j <= |ops|
  {
    if i == j then 0 else Charged(s, ops, i, j - 1, id) + Charge(After(s, ops, j - 1), ops[j - 1], id)
  }

  /** Tokens are conserved: a task's count is what was charged, and it never falls while usage is not negative. */
  lemma {:induction false} TokensConserved(s: Tasks, ops: seq<Op>, i: nat, j: nat, id: Id)
    requires i <= j <= |ops| && id in After(s, ops, i)
    ensures id in After(s, ops, j)
    ensures After(s, ops, j)[id].tokensUsed == After(s, ops, i)[id].tokensUsed + Charged(s, ops, i, j, id)
    ensures (forall k :: i <= k < j && ops[k].AddTokens? ==> ops[k].delta >= 0) ==> Charged(s, ops, i, j, id) >= 0
  {
    if i >= j {
    } else {
      TokensConserved(s, ops, i, j - 1, id);
    }
  }

  /** The reaper under interleaving: between its selection and its transition anything may happen, yet the
      task it fails is overdue and was working, and no task it has dealt with is left working. */
  lemma ReaperMeetsOthers(s: Tasks, ops: seq<Op>, i: nat, k: nat, id: Id, now: int)
    requires i <= k < |ops| && id in After(s, ops, i) && Overdue(After(s, ops, i)[id], now)
    requires ops[k] == Transition(id, EXPIRED)
    ensures id in After(s, ops, k) && id in After(s, ops, k + 1)
    ensures var t, u := After(s, ops, k)[id], After(s, ops, k + 1)[id];
            && Overdue(t, now) && !u.state.Working?
            && u == if t.state.Working? then t.(state := Failed, error := Some("deadline exceeded")) else t
  {
    TaskPersists(s, ops, i, k, id);
  }
}
