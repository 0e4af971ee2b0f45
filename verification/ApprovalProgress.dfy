/**
 Progress under the row lock: a free lock is taken by whoever asks, and a session that holds it ends after a bounded
 number of its own steps, whatever the other sessions do meanwhile.
 */
module ApprovalProgress {
  import opened Common
  import opened ApprovalModel
  import opened ApprovalInvariants
  import opened ApprovalRuns
  import opened ApprovalConcurrency

  const MOST := 12

  /** Statements left once the plan's projection is written: none, or those of the escalation. */
  function AfterProjection(plan: Plan): nat {
    if plan.escalation.None? then 1 else 6
  }

  /** An upper bound of the statements a transaction still has to perform before it ends. */
  function Left(pc: Pc): nat {
    match pc
    case Waiting => MOST
    case Loaded(_) => 11
    case KeyFree(_) => 6
    case Planned(_, plan) => 4 + AfterProjection(plan)
    case Logged(plan, _, _) => 3 + AfterProjection(plan)
    case Inserted(plan, _, _) => 2 + AfterProjection(plan)
    case Updated(plan, _) => 1 + AfterProjection(plan)
    case Projected(plan) => AfterProjection(plan)
    case Finished => 0
    case Raised(_) => 0
  }

  lemma LoadProgresses(g: Grant, v: Aggregate, cmd: Command, humans: set<Account>)
    ensures Left(AfterLoad(g, v, cmd, humans)) < 11
  {
    hide CheckEligibility, NextStatus, DeciderSet, FindConsumption;
  }

  /** Every statement of the lock holder brings it nearer to its end. */
  lemma StatementProgresses(pc: Pc, w: Writes, c: Aggregate, cmd: Command, humans: set<Account>)
    requires !pc.Waiting? && !pc.Finished? && !pc.Raised? && Current(pc, w, View(c, w), cmd)
    ensures Left(Statement(pc, w, c, cmd, humans).0) < Left(pc)
  {
    hide View, AfterLoad, InsertStep, Append, FindConsumption, StatusAfterConsumption, Consumable;
    match pc
    case Loaded(g) => LoadProgresses(g, View(c, w), cmd, humans);
    case _ =>
  }

  /** The session that holds the lock, with its command. */
  ghost predicate Holds(s: System, sid: Sid, cmd: Command) {
    s.lock == Some(sid) && sid in s.sessions && s.sessions[sid].cmd == cmd
  }

  /** The session ended first of all after `before`, as its command ends on the rows committed then. */
  ghost predicate EndedAfter(s: System, before: System, cmd: Command, humans: set<Account>) {
    var n := |before.log|;
    && |s.log| > n && s.log[..n] == before.log
    && s.log[n] == Entry(cmd, Alone(before.committed, cmd, humans).Err?)
  }

  lemma OthersDoNotMatter(s: System, act: Action, sid: Sid, cmd: Command, humans: set<Account>)
    requires Holds(s, sid, cmd) && act != Kill(sid) && act != Advance(sid)
    requires act.Advance? && act.sid in s.sessions ==> s.sessions[act.sid].pc.Waiting?
    ensures var u := Step(s, act, humans);
      && Holds(u, sid, cmd) && u.sessions[sid] == s.sessions[sid] && u.log == s.log && u.committed == s.committed
  {
    hide Statement, View;
  }

  /** One own step of the lock holder: it ends, or is nearer to its end. */
  lemma HolderAdvances(s: System, a: Aggregate, sid: Sid, cmd: Command, humans: set<Account>)
    requires Serial(s, a, humans) && Holds(s, sid, cmd)
    ensures var u := Step(s, Advance(sid), humans);
      if s.sessions[sid].pc.Finished? || s.sessions[sid].pc.Raised? then EndedAfter(u, s, cmd, humans)
      else
        && Holds(u, sid, cmd) && u.log == s.log && u.committed == s.committed
        && Left(u.sessions[sid].pc) < Left(s.sessions[sid].pc)
  {
    hide Statement, View, Current, Alone, Rest, Left, Run, Commands;
    var t := s.sessions[sid];
    if t.pc.Finished? || t.pc.Raised? {
      RestAtEnd(t.pc, View(s.committed, t.writes), cmd, humans);
    } else {
      StatementProgresses(t.pc, t.writes, s.committed, cmd, humans);
    }
  }

  /** How often the session is given a step. */
  function Turns(actions: seq<Action>, sid: Sid): nat {
    if actions == [] then 0
    else Turns(actions[..|actions| - 1], sid) + if actions[|actions| - 1] == Advance(sid) then 1 else 0
  }

  lemma LogGrows(s: System, act: Action, humans: set<Account>)
    ensures s.log <= Step(s, act, humans).log
  {
    hide Statement, View;
  }

  /** Either the session still holds the lock and has used up its turns, or it has ended. */
  ghost predicate OnItsWay(u: System, s: System, sid: Sid, cmd: Command, turns: nat, humans: set<Account>) {
    || EndedAfter(u, s, cmd, humans)
    || (&& Holds(u, sid, cmd) && u.log == s.log && u.committed == s.committed && sid in s.sessions
        && Left(u.sessions[sid].pc) + turns <= Left(s.sessions[sid].pc))
  }

  lemma StillOnItsWay(u: System, s: System, a: Aggregate, sid: Sid, cmd: Command, turns: nat, act: Action,
                      humans: set<Account>)
    requires Serial(u, a, humans) && OnItsWay(u, s, sid, cmd, turns, humans) && act != Kill(sid)
    ensures OnItsWay(Step(u, act, humans), s, sid, cmd, turns + (if act == Advance(sid) then 1 else 0), humans)
  {
    hide Left, Alone, Step, Current, Rest, View, Run, Commands;
    LogGrows(u, act, humans);
    if !EndedAfter(u, s, cmd, humans) {
      if act == Advance(sid) {
        HolderAdvances(u, a, sid, cmd, humans);
      } else {
        OthersDoNotMatter(u, act, sid, cmd, humans);
      }
    }
  }

  lemma {:induction false} HolderOnItsWay(s: System, a: Aggregate, sid: Sid, actions: seq<Action>, humans: set<Account>)
    requires Serial(s, a, humans) && s.lock == Some(sid) && sid in s.sessions && Kill(sid) !in actions
    ensures Serial(Steps(s, actions, humans), a, humans)
    ensures OnItsWay(Steps(s, actions, humans), s, sid, s.sessions[sid].cmd, Turns(actions, sid), humans)
  {
    hide Serial, Step, Left, EndedAfter;
    if actions == [] {
    } else {
      var rest, act := actions[..|actions| - 1], actions[|actions| - 1];
      HolderOnItsWay(s, a, sid, rest, humans);
      StepKeeps(Steps(s, rest, humans), a, act, humans);
      StillOnItsWay(Steps(s, rest, humans), s, a, sid, s.sessions[sid].cmd, Turns(rest, sid), act, humans);
    }
  }

  /**
   Nothing but a rollback keeps a session that has the lock from ending: after twelve of its own steps at most, with any
   steps of others in between, its command is the next in the log, with the outcome it has on the rows it found.
   */
  lemma HolderEnds(s: System, a: Aggregate, sid: Sid, actions: seq<Action>, humans: set<Account>)
    requires Serial(s, a, humans) && s.lock == Some(sid) && sid in s.sessions && Kill(sid) !in actions
    requires Turns(actions, sid) >= MOST
    ensures EndedAfter(Steps(s, actions, humans), s, s.sessions[sid].cmd, humans)
  {
    hide Serial, EndedAfter, Steps;
    HolderOnItsWay(s, a, sid, actions, humans);
    LeftIsBounded(s.sessions[sid].pc);
    HolderDoesNotWait(s, a, sid, humans);
  }

  lemma LeftIsBounded(pc: Pc)
    ensures Left(pc) <= MOST && (!pc.Waiting? ==> Left(pc) < MOST)
  {
  }

  lemma HolderDoesNotWait(s: System, a: Aggregate, sid: Sid, humans: set<Account>)
    requires Serial(s, a, humans) && s.lock == Some(sid)
    ensures sid in s.sessions && !s.sessions[sid].pc.Waiting?
  {
    hide Rest, Alone, Current, View, Run, Commands, Explained;
  }

  /** A session may begin at any time, and takes the lock at its first step when nobody holds it. */
  lemma FreeLockIsTaken(s: System, sid: Sid, cmd: Command, humans: set<Account>)
    requires s.lock.None? && sid !in s.sessions
    ensures var u := Step(Step(s, Begin(sid, cmd), humans), Advance(sid), humans);
      Holds(u, sid, cmd) && u.log == s.log && u.committed == s.committed
  {
    hide Statement, View;
  }

  /** A rollback leaves nothing of the session: no write, no log entry, no lock. */
  lemma RollbackLeavesNothing(s: System, sid: Sid, humans: set<Account>)
    ensures var u := Step(s, Kill(sid), humans);
      && sid !in u.sessions && u.lock != Some(sid) && u.committed == s.committed && u.log == s.log
      && forall other :: other in s.sessions && other != sid ==>
           other in u.sessions && u.sessions[other] == s.sessions[other] && (s.lock == Some(other) ==> u.lock == s.lock)
  {
    hide Statement, View;
  }
}
