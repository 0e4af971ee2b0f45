/** Handing a task to the next Agent when its assignee is unavailable. */
module Rerouting {
  import opened Common
  import opened Routing

  const REROUTES := 1

  datatype Status = DELEGATED | ACCEPTED | RUNNING | WAITING | OTHER

  predicate Reroutable(s: Status) {
    !s.OTHER?
  }

  datatype Reason =
    | CAPABILITY_UNSUPPORTED | CAPACITY | POLICY | OTHER_REASON | ACCEPT_TIMEOUT | AGENT_OFFLINE | AGENT_REVOKED
    | AGENT_SUSPENDED | BUDGET_EXCEEDED

  function Name(r: Reason): string {
    match r
    case CAPABILITY_UNSUPPORTED => "CAPABILITY_UNSUPPORTED"
    case CAPACITY => "CAPACITY"
    case POLICY => "POLICY"
    case OTHER_REASON => "OTHER"
    case ACCEPT_TIMEOUT => "ACCEPT_TIMEOUT"
    case AGENT_OFFLINE => "AGENT_OFFLINE"
    case AGENT_REVOKED => "AGENT_REVOKED"
    case AGENT_SUSPENDED => "AGENT_SUSPENDED"
    case BUDGET_EXCEEDED => "BUDGET_EXCEEDED"
  }

  const STEM := "REROUTE"

  function RowReason(r: Reason): string {
    STEM + ['_'] + Name(r)
  }

  /** A row of `task_assignments`; the table is append-only. */
  datatype Assignment = Assignment(revision: nat, assignee: Account, reason: string)

  datatype Task = Task(status: Status, assignee: Option<Account>, revision: nat, rows: seq<Assignment>)

  /** `LIKE 'REROUTE_%'`, where the underscore stands for any one character. */
  predicate CountsAsReroute(reason: string) {
    |reason| >= |STEM| + 1 && reason[..|STEM|] == STEM
  }

  function RerouteCount(rows: seq<Assignment>): nat {
    if rows == [] then 0
    else RerouteCount(rows[..|rows| - 1]) + if CountsAsReroute(rows[|rows| - 1].reason) then 1 else 0
  }

  function PreviousAssignees(rows: seq<Assignment>): set<Account> {
    set r | r in rows :: r.assignee
  }

  /** The pattern holds of a reason exactly when it is the stem, any one character, and anything after it. */
  lemma PatternExactly(reason: string)
    ensures CountsAsReroute(reason) <==> exists c: char, rest: string :: reason == "REROUTE" + [c] + rest
  {
    if CountsAsReroute(reason) {
      assert reason == STEM + [reason[7]] + reason[8..];
    }
    if c: char, rest: string :| reason == "REROUTE" + [c] + rest {
      assert reason[..7] == "REROUTE";
    }
  }

  lemma OwnReasonCounts(r: Reason)
    ensures CountsAsReroute(RowReason(r))
  {
    hide Name;
    assert RowReason(r)[..|STEM|] == STEM;
  }

  /** Everyone a reroute must not choose. */
  function Excluded(t: Task, more: set<Account>): set<Account> {
    PreviousAssignees(t.rows) + more + if t.assignee.Some? then {t.assignee.value} else {}
  }

  /** A new assignment, as `delegate_task` and `reassign_task` record it. */
  function Assigned(t: Task, a: Account, reason: string): Task {
    Task(DELEGATED, Some(a), t.revision + 1, t.rows + [Assignment(t.revision + 1, a, reason)])
  }

  datatype Outcome = NOOP | REASSIGNED(to: Candidate) | WAITS | FAILED

  /** What a reroute must do: `executes` says whether the command bus takes the command it issues. */
  ghost predicate Rerouted(
      t: Task, rows: seq<AgentRow>, q: Query, reason: Reason, executes: bool, u: Task, o: Outcome)
  {
    var full := q.(excluded := Excluded(t, q.excluded));
    if !Reroutable(t.status) then u == t && o == NOOP
    else if o.REASSIGNED? then
      && RerouteCount(t.rows) < REROUTES && IsChoice(rows, full, Some(o.to)) && executes
      && u == Assigned(t, o.to.account, RowReason(reason))
    else if o.WAITS? then
      && (RerouteCount(t.rows) < REROUTES ==> IsChoice(rows, full, None))
      && u == t.(status := WAITING) && (t.status.WAITING? || executes)
    else
      && o.FAILED? && u == t && !executes
      && (t.status.WAITING? ==> RerouteCount(t.rows) < REROUTES && !IsChoice(rows, full, None))
  }

  lemma SomeChoice(agents: seq<AgentRow>, q: Query, c: Candidate)
    requires IsChoice(agents, q, Some(c))
    ensures !IsChoice(agents, q, None)
  {
  }

  class TaskRow {
    var status: Status
    var assignee: Option<Account>
    var revision: nat
    var rows: seq<Assignment>

    constructor ()
      ensures Value() == Task(OTHER, None, 0, [])
    {
      status, assignee, revision, rows := OTHER, None, 0, [];
    }

    function Value(): Task
      reads this
    {
      Task(status, assignee, revision, rows)
    }

    /** `reroute_task`. */
    method RerouteTask(agents: seq<AgentRow>, q: Query, reason: Reason, executes: bool) returns (o: Outcome)
      requires OneRowPerAgent(agents)
      modifies this
      ensures Rerouted(old(Value()), agents, q, reason, executes, Value(), o)
    {
      hide RerouteCount, Name, IsChoice;
      if !Reroutable(status) {
        return NOOP;
      }
      var exclude := PreviousAssignees(rows) + q.excluded;
      if assignee.Some? {
        exclude := exclude + {assignee.value};
      }
      assert exclude == Excluded(Value(), q.excluded);
      var candidate: Option<Candidate> := None;
      if RerouteCount(rows) < REROUTES {
        candidate := SelectAssignee(agents, q.(excluded := exclude));
      }
      if candidate.Some? {
        SomeChoice(agents, q.(excluded := exclude), candidate.value);
        if !executes {
          return FAILED;
        }
        var to := candidate.value;
        rows := rows + [Assignment(revision + 1, to.account, RowReason(reason))];
        status, assignee, revision := DELEGATED, Some(to.account), revision + 1;
        return REASSIGNED(to);
      }
      if status.WAITING? {
        return WAITS;
      }
      if !executes {
        return FAILED;
      }
      status := WAITING;
      o := WAITS;
    }
  }

  /** No earlier row counts as a reroute. */
  ghost predicate NeverRerouted(rows: seq<Assignment>) {
    forall i :: 0 <= i < |rows| ==> !CountsAsReroute(rows[i].reason)
  }

  lemma {:induction false} NoneCounted(rows: seq<Assignment>)
    ensures NeverRerouted(rows) <==> RerouteCount(rows) < REROUTES
  {
    if rows == [] {
    } else {
      var n := |rows| - 1;
      hide CountsAsReroute;
      NoneCounted(rows[..n]);
      assert forall i :: 0 <= i < n ==> rows[..n][i] == rows[i];
    }
  }

  /** Some Agent may take the task over. */
  ghost predicate Taker(t: Task, agents: seq<AgentRow>, q: Query) {
    exists i :: 0 <= i < |agents| && Eligible(agents[i], q.(excluded := Excluded(t, q.excluded)))
  }

  lemma NoChoiceExactly(agents: seq<AgentRow>, q: Query)
    ensures IsChoice(agents, q, None) <==> forall i :: 0 <= i < |agents| ==> !Eligible(agents[i], q)
  {
    hide Eligible;
    assert forall i :: 0 <= i < |agents| && Eligible(agents[i], q) ==> FromRow(agents, q, CandidateOf(agents[i]));
  }

  /**
   How a reroute ends: it leaves a task in any other status alone; a task never rerouted goes to an Agent when some
   Agent may take it over, and any other task waits; a refused command changes nothing.
   */
  lemma RerouteEndsExactly(
      t: Task, agents: seq<AgentRow>, q: Query, why: Reason, executes: bool, u: Task, o: Outcome)
    requires Rerouted(t, agents, q, why, executes, u, o)
    ensures var takes := NeverRerouted(t.rows) && Taker(t, agents, q);
      && (o.NOOP? <==> t.status.OTHER?)
      && (o.REASSIGNED? <==> !t.status.OTHER? && takes && executes)
      && (o.WAITS? <==> !t.status.OTHER? && !takes && (t.status.WAITING? || executes))
      && (o.FAILED? <==> !t.status.OTHER? && !executes && (takes || !t.status.WAITING?))
    ensures u.status == if o.REASSIGNED? then DELEGATED else if o.WAITS? then WAITING else t.status
    ensures o.REASSIGNED? ==>
      && u.assignee == Some(o.to.account) && u.revision == t.revision + 1
      && |u.rows| == |t.rows| + 1 && t.rows <= u.rows
      && u.rows[|t.rows|] == Assignment(u.revision, o.to.account, "REROUTE_" + Name(why))
    ensures !o.REASSIGNED? ==> u == t.(status := u.status)
  {
    var full := q.(excluded := Excluded(t, q.excluded));
    NoneCounted(t.rows);
    NoChoiceExactly(agents, full);
    if o.REASSIGNED? {
      SomeChoice(agents, full, o.to);
      assert RowReason(why) == "REROUTE_" + Name(why);
    }
    hide RerouteCount, NeverRerouted, CountsAsReroute, IsChoice, Eligible, Name, Excluded;
  }

  // ---------------------------------------------------------------- runs

  /** A step of a task's life, with the outcome of a reroute. */
  datatype Step =
    | ByHand(a: Account, reason: string)
    | StatusChange(status: Status)
    | Reroute(agents: seq<AgentRow>, q: Query, why: Reason, executes: bool, o: Outcome)

  ghost predicate Steps(t: Task, s: Step, u: Task) {
    match s
    case ByHand(a, reason) => u == Assigned(t, a, reason)
    case StatusChange(status) => u == t.(status := status)
    case Reroute(agents, q, reason, executes, o) => Rerouted(t, agents, q, reason, executes, u, o)
  }

  /** A run: the tasks passed through, one more than the steps between them. */
  ghost predicate IsRun(ts: seq<Task>, steps: seq<Step>) {
    |ts| == |steps| + 1 && forall i :: 0 <= i < |steps| ==> Steps(ts[i], steps[i], ts[i + 1])
  }

  predicate Moves(s: Step) {
    s.Reroute? && s.o.REASSIGNED?
  }

  function Moved(steps: seq<Step>): nat {
    if steps == [] then 0 else Moved(steps[..|steps| - 1]) + if Moves(steps[|steps| - 1]) then 1 else 0
  }

  lemma RowAdded(rows: seq<Assignment>, r: Assignment)
    ensures RerouteCount(rows + [r]) == RerouteCount(rows) + if CountsAsReroute(r.reason) then 1 else 0
  {
    assert (rows + [r])[..|rows|] == rows;
  }

  /** An assignment by hand whose reason the counter takes for a reroute. */
  predicate Miscounted(s: Step) {
    s.ByHand? && CountsAsReroute(s.reason)
  }

  function MiscountedIn(steps: seq<Step>): nat {
    if steps == [] then 0
    else MiscountedIn(steps[..|steps| - 1]) + if Miscounted(steps[|steps| - 1]) then 1 else 0
  }

  lemma StepCounts(t: Task, s: Step, u: Task)
    requires Steps(t, s, u)
    ensures t.rows <= u.rows
    ensures RerouteCount(u.rows) == RerouteCount(t.rows) + if Moves(s) || Miscounted(s) then 1 else 0
    ensures Moves(s) ==> RerouteCount(t.rows) < REROUTES
  {
    hide RerouteCount, Name, IsChoice, CountsAsReroute;
    match s
    case ByHand(a, reason) => RowAdded(t.rows, Assignment(t.revision + 1, a, reason));
    case StatusChange(_) =>
    case Reroute(_, _, reason, _, o) =>
      if o.REASSIGNED? {
        RowAdded(t.rows, Assignment(t.revision + 1, o.to.account, RowReason(reason)));
        OwnReasonCounts(reason);
      }
  }

  /** The counter holds the reroutes of a run and, on top of them, the assignments whose reason looks like one. */
  lemma {:induction false} CounterIs(ts: seq<Task>, steps: seq<Step>)
    requires IsRun(ts, steps)
    ensures RerouteCount(ts[|ts| - 1].rows) == RerouteCount(ts[0].rows) + Moved(steps) + MiscountedIn(steps)
    ensures Moved(steps) <= REROUTES
  {
    if steps == [] {
    } else {
      var n := |steps| - 1;
      CounterIs(ts[..n + 1], steps[..n]);
      StepCounts(ts[n], steps[n], ts[n + 1]);
    }
  }

  lemma {:induction false} NoneMiscounted(steps: seq<Step>)
    ensures MiscountedIn(steps) == 0 <==> forall i :: 0 <= i < |steps| ==> !Miscounted(steps[i])
  {
    if steps == [] {
    } else {
      var n := |steps| - 1;
      NoneMiscounted(steps[..n]);
      assert forall i :: 0 <= i < n ==> steps[..n][i] == steps[i];
    }
  }

  /** The counter counts the reroutes of a run exactly when no reason chosen by hand matches its pattern. */
  lemma CounterIsHonestExactly(ts: seq<Task>, steps: seq<Step>)
    requires IsRun(ts, steps)
    ensures RerouteCount(ts[|ts| - 1].rows) == RerouteCount(ts[0].rows) + Moved(steps)
      <==> forall i :: 0 <= i < |steps| && steps[i].ByHand? ==> !CountsAsReroute(steps[i].reason)
  {
    hide RerouteCount, Moved, CountsAsReroute, IsRun;
    CounterIs(ts, steps);
    NoneMiscounted(steps);
    assert forall i :: 0 <= i < |steps| ==>
      (Miscounted(steps[i]) <==> steps[i].ByHand? && CountsAsReroute(steps[i].reason));
  }

  const HAND_REASON := "REROUTED"

  /** One assignment by hand, for a reason the pattern matches. */
  function TakenByHand(): Task {
    Task(DELEGATED, Some(1), 1, [Assignment(1, 1, HAND_REASON)])
  }

  /** The only Agent there is; it is free, and nobody ever gave it the task. */
  function FreeAgent(): AgentRow {
    AgentRow("a", 2, false, 1, None, true, true, false, false, false, 0, true)
  }

  const ANYONE := Query(false, false, false, {})

  lemma HandCounts()
    ensures RerouteCount(TakenByHand().rows) == 1
  {
    assert HAND_REASON[..|STEM|] == STEM;
    assert TakenByHand().rows == [] + [Assignment(1, 1, HAND_REASON)];
    RowAdded([], Assignment(1, 1, HAND_REASON));
  }

  lemma NothingMoved(byHand: Step, reroute: Step)
    requires !Moves(byHand) && !Moves(reroute)
    ensures Moved([byHand, reroute]) == 0
  {
    var none: seq<Step> := [];
    assert [byHand, reroute][..1] == [byHand] && [byHand][..0] == none;
    assert Moved(none) == 0 && Moved([byHand]) == 0;
  }

  /**
   A task that was never rerouted waits although an eligible Agent is there, because a reason chosen by hand used up
   its one reroute.
   */
  lemma HandReasonUsesUpReroute()
    ensures exists ts: seq<Task>, steps, c ::
      IsRun(ts, steps) && ts[0].rows == [] && Moved(steps) == 0 && MustWait(ts, steps, c)
  {
    var start, given := Task(DELEGATED, None, 0, []), TakenByHand();
    var waiting := given.(status := WAITING);
    var byHand, reroute := ByHand(1, HAND_REASON), Reroute([FreeAgent()], ANYONE, AGENT_OFFLINE, true, WAITS);
    HandCounts();
    FreeAgentIsChosen(given);
    hide RerouteCount, IsChoice, CountsAsReroute, Moved;
    NothingMoved(byHand, reroute);
    assert Steps(start, byHand, given) && Steps(given, reroute, waiting);
    assert MustWait([start, given, waiting], [byHand, reroute], CandidateOf(FreeAgent()));
  }

  lemma FreeAgentIsChosen(t: Task)
    requires t == TakenByHand()
    ensures IsChoice([FreeAgent()], ANYONE.(excluded := Excluded(t, ANYONE.excluded)), Some(CandidateOf(FreeAgent())))
  {
    var full := ANYONE.(excluded := Excluded(t, ANYONE.excluded));
    assert Eligible([FreeAgent()][0], full);
  }

  /** The last step is a reroute that leaves the task waiting although `c` could have taken it. */
  ghost predicate MustWait(ts: seq<Task>, steps: seq<Step>, c: Candidate) {
    var n := |steps| - 1;
    && n >= 0 && |ts| == |steps| + 1 && steps[n].Reroute? && ts[n + 1].status.WAITING? && steps[n].o == WAITS
    && IsChoice(steps[n].agents, steps[n].q.(excluded := Excluded(ts[n], steps[n].q.excluded)), Some(c))
  }

  lemma {:induction false} RowsGrow(ts: seq<Task>, steps: seq<Step>, i: nat, j: nat)
    requires IsRun(ts, steps) && i <= j < |ts|
    ensures ts[i].rows <= ts[j].rows
    decreases j
  {
    if i >= j {
    } else {
      RowsGrow(ts, steps, i, j - 1);
      StepCounts(ts[j - 1], steps[j - 1], ts[j]);
    }
  }

  /**
   Over any run, with assignments by hand in between, a task is rerouted at most once, and the Agent it goes to is
   the best eligible one and was never assigned the task before.
   */
  lemma RerouteOnceAndFresh(ts: seq<Task>, steps: seq<Step>, i: nat, k: nat)
    requires IsRun(ts, steps) && i < |steps| && Moves(steps[i]) && k <= i
    ensures Moved(steps) <= REROUTES
    ensures var to := steps[i].o.to;
      && IsChoice(steps[i].agents, steps[i].q.(excluded := Excluded(ts[i], steps[i].q.excluded)), Some(to))
      && ts[i].assignee != Some(to.account)
      && (forall r :: r in ts[k].rows ==> r.assignee != to.account)
      && to.account !in steps[i].q.excluded
      && ts[i + 1].assignee == Some(to.account)
  {
    CounterIs(ts, steps);
    RowsGrow(ts, steps, k, i);
    assert Steps(ts[i], steps[i], ts[i + 1]);
    ChoiceNotExcluded(steps[i].agents, steps[i].q.(excluded := Excluded(ts[i], steps[i].q.excluded)), steps[i].o.to);
    hide IsChoice, RerouteCount, IsRun;
    assert forall r :: r in ts[k].rows ==> r in ts[i].rows;
  }

  lemma ChoiceNotExcluded(agents: seq<AgentRow>, q: Query, c: Candidate)
    requires IsChoice(agents, q, Some(c))
    ensures c.account !in q.excluded
  {
    var i :| 0 <= i < |agents| && Eligible(agents[i], q) && CandidateOf(agents[i]) == c;
  }
}
