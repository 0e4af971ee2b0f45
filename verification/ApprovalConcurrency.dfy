/**
 Concurrent transactions on one grant row. Each session runs one command statement by statement, reads the
 committed rows plus its own uncommitted writes, and holds the row lock from loading the grant until it commits
 or rolls back. Every interleaving leaves the rows some one-after-the-other execution leaves.
 */
module ApprovalConcurrency {
  import opened Common
  import opened ApprovalModel
  import opened ApprovalInvariants
  import opened ApprovalRuns

  type Sid = nat

  // ---------------------------------------------------------------- one transaction

  /** The uncommitted writes of a transaction. */
  datatype Writes = Writes(
    events: seq<Event>, decisions: seq<Decision>, uses: seq<Consumption>, row: Option<(Status, nat)>,
    projection: Option<Projection>)

  const NO_WRITES := Writes([], [], [], None, None)

  /** What a session sees: the committed rows with its own writes on top. */
  function View(c: Aggregate, w: Writes): Aggregate {
    Aggregate(
      if w.row.Some? then c.grant.(status := w.row.value.0, aggregateSeq := w.row.value.1) else c.grant,
      c.decisions + w.decisions, c.consumptions + w.uses, c.stream + w.events,
      if w.projection.Some? then w.projection.value else c.projection)
  }

  datatype Row = NoRow | VoteRow(approve: bool) | UseRow(key: string)

  /** What a transaction has decided to write once its reads are done; no body means no event of its own. */
  datatype Plan = Plan(body: Option<Body>, row: Row, status: Status, origin: Origin, escalation: Option<Origin>)

  /** The next statement of a transaction, with the local variables it still needs. */
  datatype Pc =
    | Waiting
    | Loaded(g: Grant)
    | KeyFree(g: Grant)
    | Planned(g: Grant, plan: Plan)
    | Logged(plan: Plan, id: EventId, seqNo: nat)
    | Inserted(plan: Plan, id: EventId, seqNo: nat)
    | Updated(plan: Plan, id: EventId)
    | Projected(plan: Plan)
    | Finished
    | Raised(code: Code)

  function PlanVote(g: Grant, prior: set<Account>, approve: bool, p: Approver, humans: set<Account>, now: Time,
                    o: Origin): Pc
  {
    if !g.status.Pending? then Raised(APPROVAL_NOT_PENDING)
    else if now >= g.expiresAt then Raised(APPROVAL_NOT_USABLE)
    else
      var who := CheckEligibility(g, prior, p, humans);
      if who.Err? then Raised(who.code)
      else
        var voter := o.(actor := who.value);
        if !approve then Planned(g, Plan(Some(RejectedEvent), VoteRow(false), Rejected, voter, None))
        else if |prior| + 1 >= g.quorum then
          Planned(g, Plan(Some(GrantedEvent(|prior| + 1)), VoteRow(true), Approved, voter, None))
        else Planned(g, Plan(None, VoteRow(true), Pending, voter, None))
  }

  function PlanEnding(g: Grant, how: Ending, o: Origin, escalation: Option<Origin>): Pc {
    var next := NextStatus(g.status, EndingBody(how));
    if next.Err? then Raised(next.code)
    else Planned(g, Plan(Some(EndingBody(how)), NoRow, next.value, o, escalation))
  }

  function PlanUse(g: Grant, used: nat, key: string, consumedFor: Subject, now: Time, o: Origin): Pc {
    if g.status.Consumed? then Raised(APPROVAL_EXHAUSTED)
    else if !Consumable(g.status) then Raised(APPROVAL_NOT_USABLE)
    else if !(g.validFrom <= now < g.expiresAt) then Raised(APPROVAL_NOT_USABLE)
    else if consumedFor != g.subject then Raised(APPROVAL_SCOPE_MISMATCH)
    else if g.maxUses.Some? && used >= g.maxUses.value then Raised(APPROVAL_EXHAUSTED)
    else Planned(g, Plan(Some(ConsumedEvent(key, used + 1)), UseRow(key), StatusAfterConsumption(used + 1, g.maxUses),
                         o.(key := key), None))
  }

  function EscalationPlan(o: Origin): Plan {
    Plan(Some(EscalatedEvent), NoRow, Expired, o, None)
  }

  /** The first read after the lock: the consumption key, or the earlier voters. */
  function AfterLoad(g: Grant, v: Aggregate, c: Command, humans: set<Account>): Pc {
    match c
    case Use(key, _, _, _) => if FindConsumption(v.consumptions, key).Some? then Finished else KeyFree(g)
    case Vote(approve, p, now, o) => PlanVote(g, DeciderSet(v.decisions), approve, p, humans, now, o)
    case Withdraw(revoke, o) => PlanEnding(g, if revoke then Revoke else Cancel, o, None)
    case Sweep(now, o, escalation) => if Due(g, now) then PlanEnding(g, Lapse, o, Some(escalation)) else Finished
  }

  /** `append`, or the read of the last event where a vote appends none. */
  function LogStep(g: Grant, plan: Plan, v: Aggregate, w: Writes): (Pc, Writes) {
    if plan.body.None? then
      if v.stream == [] then (Raised(EVENT_STREAM_EMPTY), w)
      else (Logged(plan, v.stream[|v.stream| - 1].id, 0), w)
    else
      var done := Append(v.stream, g.aggregateSeq + 1, plan.origin, plan.body.value);
      if done.Err? then (Raised(done.code), w)
      else
        var events := if done.value.stream == v.stream then w.events else w.events + [done.value.event];
        (Logged(plan, done.value.event.id, done.value.event.seqNo), w.(events := events))
  }

  function InsertStep(plan: Plan, id: EventId, w: Writes): Writes {
    match plan.row
    case NoRow => w
    case VoteRow(approve) => w.(decisions := w.decisions + [Decision(plan.origin.actor, approve, id)])
    case UseRow(key) => w.(uses := w.uses + [Consumption(key, plan.origin.actor, id)])
  }

  /** One statement of a transaction that holds the lock. */
  function Statement(pc: Pc, w: Writes, c: Aggregate, cmd: Command, humans: set<Account>): (Pc, Writes) {
    var v := View(c, w);
    match pc
    case Loaded(g) => (AfterLoad(g, v, cmd, humans), w)
    case KeyFree(g) =>
      (if cmd.Use? then PlanUse(g, |v.consumptions|, cmd.key, cmd.consumedFor, cmd.now, cmd.origin) else pc, w)
    case Planned(g, plan) => LogStep(g, plan, v, w)
    case Logged(plan, id, n) => (Inserted(plan, id, n), InsertStep(plan, id, w))
    case Inserted(plan, id, n) =>
      (Updated(plan, id), if plan.body.Some? then w.(row := Some((plan.status, n))) else w)
    case Updated(plan, id) => (Projected(plan), w.(projection := Some(Project(v, plan.status, id))))
    case Projected(plan) =>
      (if plan.escalation.Some? then Planned(v.grant, EscalationPlan(plan.escalation.value)) else Finished, w)
    case _ => (pc, w)
  }

  // ---------------------------------------------------------------- all sessions

  datatype Session = Session(cmd: Command, pc: Pc, writes: Writes)

  /** A log entry: the command that ended, and whether it raised an error. */
  datatype Entry = Entry(cmd: Command, raised: bool)

  datatype System = System(committed: Aggregate, lock: Option<Sid>, sessions: map<Sid, Session>, log: seq<Entry>)

  datatype Action = Begin(sid: Sid, cmd: Command) | Advance(sid: Sid) | Kill(sid: Sid)

  function Release(s: System, sid: Sid): System {
    s.(lock := None, sessions := s.sessions - {sid})
  }

  /** One step of one session. A session that finds the row locked waits; any session may be rolled back. */
  function Step(s: System, a: Action, humans: set<Account>): System {
    match a
    case Begin(sid, cmd) =>
      if sid in s.sessions then s else s.(sessions := s.sessions[sid := Session(cmd, Waiting, NO_WRITES)])
    case Kill(sid) =>
      if s.lock == Some(sid) then Release(s, sid) else s.(sessions := s.sessions - {sid})
    case Advance(sid) =>
      if sid !in s.sessions then s
      else
        var t := s.sessions[sid];
        match t.pc
        case Waiting =>
          if s.lock.Some? then s
          else s.(lock := Some(sid), sessions := s.sessions[sid := t.(pc := Loaded(s.committed.grant))])
        case Finished =>
          Release(s, sid).(committed := View(s.committed, t.writes), log := s.log + [Entry(t.cmd, false)])
        case Raised(_) => Release(s, sid).(log := s.log + [Entry(t.cmd, true)])
        case _ =>
          var next := Statement(t.pc, t.writes, s.committed, t.cmd, humans);
          s.(sessions := s.sessions[sid := t.(pc := next.0, writes := next.1)])
  }

  function Steps(s: System, actions: seq<Action>, humans: set<Account>): System {
    if actions == [] then s
    else Step(Steps(s, actions[..|actions| - 1], humans), actions[|actions| - 1], humans)
  }

  function Start(a: Aggregate): System {
    System(a, None, map[], [])
  }

  // ---------------------------------------------------------------- what the rest of a transaction does

  /** The outcome of a command run alone. */
  function Alone(a: Aggregate, c: Command, humans: set<Account>): Outcome<Aggregate> {
    match c
    case Vote(approve, p, now, o) => Decide(a, approve, p, humans, now, o)
    case Withdraw(revoke, o) => Terminate(a, if revoke then Revoke else Cancel, o)
    case Sweep(now, o, escalation) => if Due(a.grant, now) then Expire(a, o, escalation) else Ok(a)
    case Use(key, consumedFor, now, o) =>
      var r := Consume(a, key, consumedFor, now, o);
      if r.Ok? then Ok(r.value.after) else Err(r.code)
  }

  lemma AloneIsApply(a: Aggregate, c: Command, humans: set<Account>)
    ensures Apply(a, c, humans) == OrElse(Alone(a, c, humans), a)
  {
  }

  function FinishProject(v: Aggregate, plan: Plan): Outcome<Aggregate> {
    if plan.escalation.None? then Ok(v)
    else
      var done := Append(v.stream, v.grant.aggregateSeq + 1, plan.escalation.value, EscalatedEvent);
      if done.Err? then Err(done.code)
      else
        var b := SetStatus(v.(stream := done.value.stream), Expired, done.value.event.seqNo);
        Ok(Reproject(b, Expired, done.value.event.id))
  }

  function FinishUpdate(v: Aggregate, plan: Plan, id: EventId): Outcome<Aggregate> {
    FinishProject(Reproject(v, plan.status, id), plan)
  }

  function FinishInsert(v: Aggregate, plan: Plan, id: EventId, n: nat): Outcome<Aggregate> {
    FinishUpdate(if plan.body.Some? then SetStatus(v, plan.status, n) else v, plan, id)
  }

  function WithRow(v: Aggregate, plan: Plan, id: EventId): Aggregate {
    match plan.row
    case NoRow => v
    case VoteRow(approve) => v.(decisions := v.decisions + [Decision(plan.origin.actor, approve, id)])
    case UseRow(key) => v.(consumptions := v.consumptions + [Consumption(key, plan.origin.actor, id)])
  }

  function FinishLog(v: Aggregate, plan: Plan, id: EventId, n: nat): Outcome<Aggregate> {
    FinishInsert(WithRow(v, plan, id), plan, id, n)
  }

  /** The statements from the append on, run without interruption. */
  function FinishPlan(v: Aggregate, g: Grant, plan: Plan): Outcome<Aggregate> {
    if plan.body.None? then
      if v.stream == [] then Err(EVENT_STREAM_EMPTY)
      else FinishLog(v, plan, v.stream[|v.stream| - 1].id, 0)
    else
      var done := Append(v.stream, g.aggregateSeq + 1, plan.origin, plan.body.value);
      if done.Err? then Err(done.code)
      else FinishLog(v.(stream := done.value.stream), plan, done.value.event.id, done.value.event.seqNo)
  }

  function Rest(pc: Pc, v: Aggregate, cmd: Command, humans: set<Account>): Outcome<Aggregate> {
    match pc
    case Waiting => Alone(v, cmd, humans)
    case Loaded(_) => Alone(v, cmd, humans)
    case KeyFree(_) => Alone(v, cmd, humans)
    case Planned(g, plan) => FinishPlan(v, g, plan)
    case Logged(plan, id, n) => FinishLog(v, plan, id, n)
    case Inserted(plan, id, n) => FinishInsert(v, plan, id, n)
    case Updated(plan, id) => FinishUpdate(v, plan, id)
    case Projected(plan) => FinishProject(v, plan)
    case Finished => Ok(v)
    case Raised(code) => Err(code)
  }

  /** The local variables a transaction carries are still what it would read now. */
  ghost predicate Current(pc: Pc, w: Writes, v: Aggregate, cmd: Command) {
    match pc
    case Loaded(g) => g == v.grant && w == NO_WRITES
    case KeyFree(g) => g == v.grant && w == NO_WRITES && cmd.Use? && FindConsumption(v.consumptions, cmd.key).None?
    case _ => true
  }

  lemma VotePlan(v: Aggregate, approve: bool, p: Approver, humans: set<Account>, now: Time, o: Origin)
    ensures var pc := PlanVote(v.grant, DeciderSet(v.decisions), approve, p, humans, now, o);
      Rest(pc, v, Vote(approve, p, now, o), humans) == Decide(v, approve, p, humans, now, o)
      && (pc.Planned? || pc.Raised?)
  {
    hide CheckEligibility, Append, Project;
  }

  lemma EndingPlan(v: Aggregate, how: Ending, o: Origin, cmd: Command, humans: set<Account>)
    ensures var pc := PlanEnding(v.grant, how, o, None);
      Rest(pc, v, cmd, humans) == Terminate(v, how, o) && (pc.Planned? || pc.Raised?)
  {
    hide Append, Project;
  }

  lemma SweepPlan(v: Aggregate, o: Origin, escalation: Origin, cmd: Command, humans: set<Account>)
    ensures var pc := PlanEnding(v.grant, Lapse, o, Some(escalation));
      Rest(pc, v, cmd, humans) == Expire(v, o, escalation) && (pc.Planned? || pc.Raised?)
  {
    hide Append, Project;
  }

  lemma UsePlan(v: Aggregate, key: string, consumedFor: Subject, now: Time, o: Origin, humans: set<Account>)
    requires FindConsumption(v.consumptions, key).None?
    ensures var pc := PlanUse(v.grant, |v.consumptions|, key, consumedFor, now, o);
      Rest(pc, v, Use(key, consumedFor, now, o), humans) == Alone(v, Use(key, consumedFor, now, o), humans)
      && (pc.Planned? || pc.Raised?)
  {
    hide Append, Project, FindConsumption;
  }

  lemma LoadKeeps(v: Aggregate, cmd: Command, humans: set<Account>)
    ensures var pc := AfterLoad(v.grant, v, cmd, humans);
      && Rest(pc, v, cmd, humans) == Alone(v, cmd, humans)
      && (pc.Planned? || pc.Raised? || pc.Finished?
          || (pc == KeyFree(v.grant) && cmd.Use? && FindConsumption(v.consumptions, cmd.key).None?))
  {
    hide Append, Project, PlanVote, PlanEnding, PlanUse, FinishPlan, Decide, Terminate, Expire;
    match cmd
    case Use(_, _, _, _) =>
    case Vote(approve, p, now, o) => VotePlan(v, approve, p, humans, now, o);
    case Withdraw(revoke, o) => EndingPlan(v, if revoke then Revoke else Cancel, o, cmd, humans);
    case Sweep(now, o, escalation) => SweepPlan(v, o, escalation, cmd, humans);
  }

  /** A statement changes neither the outcome the transaction is heading for nor what it is entitled to assume. */
  lemma StatementKeeps(pc: Pc, w: Writes, c: Aggregate, cmd: Command, humans: set<Account>)
    requires !pc.Waiting? && Current(pc, w, View(c, w), cmd)
    ensures var next := Statement(pc, w, c, cmd, humans);
      && Rest(next.0, View(c, next.1), cmd, humans) == Rest(pc, View(c, w), cmd, humans)
      && Current(next.0, next.1, View(c, next.1), cmd) && !next.0.Waiting?
  {
    hide Append, Project, PlanVote, PlanEnding, PlanUse, LogStep, FinishPlan, InsertStep, WithRow, Alone;
    var v := View(c, w);
    match pc
    case Loaded(_) =>
      LoadKeeps(v, cmd, humans);
    case KeyFree(_) => UsePlan(v, cmd.key, cmd.consumedFor, cmd.now, cmd.origin, humans);
    case Planned(g, plan) => LogKeeps(g, plan, c, w);
    case Logged(plan, id, n) => InsertKeeps(plan, id, c, w);
    case Inserted(plan, id, n) =>
    case Updated(plan, id) =>
    case Projected(plan) => EscalationFollows(v, plan);
    case Finished =>
    case Raised(_) =>
  }

  lemma EscalationFollows(v: Aggregate, plan: Plan)
    ensures FinishProject(v, plan) ==
      if plan.escalation.None? then Ok(v) else FinishPlan(v, v.grant, EscalationPlan(plan.escalation.value))
  {
    hide Append;
  }

  lemma LogKeeps(g: Grant, plan: Plan, c: Aggregate, w: Writes)
    ensures var next := LogStep(g, plan, View(c, w), w);
      && (next.0.Logged? || next.0.Raised?)
      && FinishPlan(View(c, w), g, plan)
        == if next.0.Raised? then Err(next.0.code)
           else FinishLog(View(c, next.1), next.0.plan, next.0.id, next.0.seqNo)
  {
    hide FinishLog, FindKey;
    var v := View(c, w);
    if plan.body.Some? {
      var done := Append(v.stream, g.aggregateSeq + 1, plan.origin, plan.body.value);
      if done.Ok? && done.value.stream != v.stream {
        assert v.stream + [done.value.event] == c.stream + (w.events + [done.value.event]);
      }
    }
  }

  lemma InsertKeeps(plan: Plan, id: EventId, c: Aggregate, w: Writes)
    ensures View(c, InsertStep(plan, id, w)) == WithRow(View(c, w), plan, id)
  {
    match plan.row
    case NoRow =>
    case VoteRow(approve) =>
      var d := Decision(plan.origin.actor, approve, id);
      assert (c.decisions + w.decisions) + [d] == c.decisions + (w.decisions + [d]);
    case UseRow(key) =>
      var u := Consumption(key, plan.origin.actor, id);
      assert (c.consumptions + w.uses) + [u] == c.consumptions + (w.uses + [u]);
  }

  // ---------------------------------------------------------------- the interleaving theorem

  function Commands(log: seq<Entry>): seq<Command> {
    if log == [] then [] else Commands(log[..|log| - 1]) + [log[|log| - 1].cmd]
  }

  /** Every log entry ended as its command ends when run alone on what the entries before it left. */
  ghost predicate Explained(a: Aggregate, log: seq<Entry>, humans: set<Account>) {
    forall i :: 0 <= i < |log| ==>
      (log[i].raised <==> Alone(Run(a, Commands(log[..i]), humans), log[i].cmd, humans).Err?)
  }

  ghost predicate HolderOnTrack(s: System, humans: set<Account>) {
    s.lock.Some? ==>
      && s.lock.value in s.sessions
      && var t := s.sessions[s.lock.value];
         && !t.pc.Waiting? && Current(t.pc, t.writes, View(s.committed, t.writes), t.cmd)
         && Rest(t.pc, View(s.committed, t.writes), t.cmd, humans) == Alone(s.committed, t.cmd, humans)
  }

  ghost predicate LockRespected(s: System) {
    forall sid :: sid in s.sessions && s.lock != Some(sid) ==>
      s.sessions[sid].pc.Waiting? && s.sessions[sid].writes == NO_WRITES
  }

  ghost predicate Serial(s: System, a: Aggregate, humans: set<Account>) {
    && s.committed == Run(a, Commands(s.log), humans)
    && Explained(a, s.log, humans)
    && LockRespected(s) && HolderOnTrack(s, humans)
  }

  lemma ViewNothing(c: Aggregate)
    ensures View(c, NO_WRITES) == c
  {
    assert c.decisions + [] == c.decisions && c.consumptions + [] == c.consumptions && c.stream + [] == c.stream;
  }

  /** Ending the lock holder's transaction appends one explained entry. */
  lemma EndKeeps(s: System, a: Aggregate, sid: Sid, humans: set<Account>)
    requires Serial(s, a, humans) && s.lock == Some(sid)
    requires s.sessions[sid].pc.Finished? || s.sessions[sid].pc.Raised?
    ensures Serial(Step(s, Advance(sid), humans), a, humans)
  {
    hide Alone, Apply, Run, Commands, Explained, Rest, View, Current, Statement;
    var t := s.sessions[sid];
    var e := Entry(t.cmd, t.pc.Raised?);
    RestAtEnd(t.pc, View(s.committed, t.writes), t.cmd, humans);
    AloneIsApply(s.committed, t.cmd, humans);
    RunExtendsLog(a, s.log, e, humans);
    ExplainedExtends(a, s.log, e, humans);
  }

  lemma RestAtEnd(pc: Pc, v: Aggregate, cmd: Command, humans: set<Account>)
    requires pc.Finished? || pc.Raised?
    ensures if pc.Finished? then Rest(pc, v, cmd, humans) == Ok(v) else Rest(pc, v, cmd, humans).Err?
  {
  }

  lemma ExplainedExtends(a: Aggregate, log: seq<Entry>, e: Entry, humans: set<Account>)
    requires Explained(a, log, humans)
    requires e.raised <==> Alone(Run(a, Commands(log), humans), e.cmd, humans).Err?
    ensures Explained(a, log + [e], humans)
  {
    hide Alone, Run, Commands;
    var more := log + [e];
    forall i | 0 <= i < |more|
      ensures more[i].raised <==> Alone(Run(a, Commands(more[..i]), humans), more[i].cmd, humans).Err?
    {
      assert more[..i] == if i < |log| then log[..i] else log;
    }
  }

  lemma RunExtendsLog(a: Aggregate, log: seq<Entry>, e: Entry, humans: set<Account>)
    ensures Run(a, Commands(log + [e]), humans) == Apply(Run(a, Commands(log), humans), e.cmd, humans)
  {
    hide Apply;
    var cs := Commands(log);
    assert (log + [e])[..|log|] == log;
    assert (cs + [e.cmd])[..|cs|] == cs;
  }

  lemma AcquireKeeps(s: System, a: Aggregate, sid: Sid, humans: set<Account>)
    requires Serial(s, a, humans) && sid in s.sessions && s.sessions[sid].pc.Waiting?
    ensures Serial(Step(s, Advance(sid), humans), a, humans)
  {
    hide Alone, Run, Commands, Explained, View, Statement;
    ViewNothing(s.committed);
  }

  lemma AdvanceKeeps(s: System, a: Aggregate, sid: Sid, humans: set<Account>)
    requires Serial(s, a, humans) && sid in s.sessions
    requires var pc := s.sessions[sid].pc; !pc.Waiting? && !pc.Finished? && !pc.Raised?
    ensures Serial(Step(s, Advance(sid), humans), a, humans)
  {
    hide Alone, Run, Commands, Explained, View, Rest, Current, Statement;
    var t := s.sessions[sid];
    StatementKeeps(t.pc, t.writes, s.committed, t.cmd, humans);
  }

  lemma StepKeeps(s: System, a: Aggregate, act: Action, humans: set<Account>)
    requires Serial(s, a, humans)
    ensures Serial(Step(s, act, humans), a, humans)
  {
    hide Alone, Run, Commands, Explained, View, Rest, Current, Statement;
    if act.Advance? && act.sid in s.sessions {
      var t := s.sessions[act.sid];
      if t.pc.Waiting? {
        AcquireKeeps(s, a, act.sid, humans);
      } else if t.pc.Finished? || t.pc.Raised? {
        EndKeeps(s, a, act.sid, humans);
      } else {
        AdvanceKeeps(s, a, act.sid, humans);
      }
    }
  }

  /** Whatever the interleaving, the committed rows are those of the ended commands run one after the other. */
  lemma {:induction false} EveryInterleavingIsSerial(a: Aggregate, actions: seq<Action>, humans: set<Account>)
    ensures Serial(Steps(Start(a), actions, humans), a, humans)
  {
    if actions == [] {
    } else {
      EveryInterleavingIsSerial(a, actions[..|actions| - 1], humans);
      StepKeeps(Steps(Start(a), actions[..|actions| - 1], humans), a, actions[|actions| - 1], humans);
    }
  }

  /** So every interleaving from a fresh request is a reachable approval: bounded use, quorum and columns hold. */
  lemma EveryInterleavingIsReachable(r: Request, o: Origin, actions: seq<Action>, humans: set<Account>)
    requires Open(r, o).Ok?
    ensures var s := Steps(Start(Open(r, o).value), actions, humans);
      Reachable(s.committed, humans) && Explained(Open(r, o).value, s.log, humans)
  {
    EveryInterleavingIsSerial(Open(r, o).value, actions, humans);
  }

  /** Uses stay bounded and each key is used once, in every interleaving. */
  lemma BoundedUseUnderConcurrency(r: Request, o: Origin, actions: seq<Action>, humans: set<Account>)
    requires Open(r, o).Ok?
    ensures var a := Steps(Start(Open(r, o).value), actions, humans).committed;
      && (a.grant.maxUses.Some? ==> |a.consumptions| <= a.grant.maxUses.value)
      && (a.grant.status.Consumed? <==> a.grant.maxUses == Some(|a.consumptions|))
      && (forall i, j :: 0 <= i < j < |a.consumptions| ==> a.consumptions[i].key != a.consumptions[j].key)
      && |UsesIn(a.stream)| == |a.consumptions|
      && forall k :: 0 <= k < |a.consumptions| ==>
           UsesIn(a.stream)[k].body == ConsumedEvent(a.consumptions[k].key, k + 1)
  {
    EveryInterleavingIsReachable(r, o, actions, humans);
    BoundedUse(Steps(Start(Open(r, o).value), actions, humans).committed, humans);
  }
}
