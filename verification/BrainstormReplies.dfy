/**
 What every command of a reachable session is answered, told from the transcript: each refusal names the first thing
 wrong with the command, and a breach pauses the session until somebody resumes it.
 */
module BrainstormReplies {
  import opened Common
  import opened Brainstorm
  import opened BrainstormRuns

  // ---------------------------------------------------------------- what limits say

  /** A key is given as the integer `n`. */
  predicate Given(raw: map<Key, Raw>, k: Key, n: int) {
    k in raw && raw[k] == IntValue(n)
  }

  /** The limit is what the mapping gives, and what it was where the mapping is silent. */
  ghost predicate Says(raw: map<Key, Raw>, k: Key, n: int, silent: int) {
    Given(raw, k, n) || (k !in raw && n == silent)
  }

  /** Limits parse exactly where every key is one of the five and every value a large enough integer. */
  lemma ParseExactly(raw: map<Key, Raw>)
    ensures Parse(raw).Some? <==> forall k :: k in raw ==>
      && raw[k].IntValue?
      && match k
         case OtherKey(_) => false
         case BudgetCostUnits => raw[k].n >= 0
         case TimeLimitMinutes => raw[k].n >= 0
         case _ => raw[k].n >= 1
    ensures Parse(raw).Some? ==>
      var l := Parse(raw).value;
      && Says(raw, TurnsPerAgent, l.turnsPerAgent, 5) && Says(raw, MaxConsecutive, l.maxConsecutive, 1)
      && Says(raw, TotalTurns, l.totalTurns, 40) && Says(raw, BudgetCostUnits, l.budget, 0)
      && Says(raw, TimeLimitMinutes, l.minutes, 0)
  {
    if k :| k in raw && !ValidItem(k, raw[k]) {
      assert k in raw;
    }
  }

  /** A limit of zero is none: the check never answers with it. */
  lemma ZeroIsNoLimit(l: Limits, t: TurnState, isAgent: bool)
    ensures Check(l.(maxConsecutive := 0), t, isAgent) != Some(MAX_CONSECUTIVE_EXCEEDED)
    ensures Check(l.(turnsPerAgent := 0), t, isAgent) != Some(TURNS_PER_AGENT_EXCEEDED)
    ensures Check(l.(totalTurns := 0), t, isAgent) != Some(TOTAL_TURNS_EXCEEDED)
    ensures Check(l.(budget := 0), t, isAgent) != Some(BUDGET_EXCEEDED)
    ensures Check(l.(minutes := 0), t, isAgent) != Some(TIME_LIMIT_EXCEEDED)
  {
  }

  // ---------------------------------------------------------------- what can be wrong

  ghost predicate Seated(s: Session, a: Account) {
    exists i :: 0 <= i < |s.participants| && s.participants[i].account == a
  }

  ghost predicate SeatedAsAgent(s: Session, a: Account) {
    exists i :: 0 <= i < |s.participants| && s.participants[i].account == a && s.participants[i].isAgent
  }

  /** How often `a` has spoken since anybody else did or the session was resumed. */
  function InARow(s: Session, a: Account): nat {
    Contributions(s.events, StretchStart(s.events, |s.events|, a), |s.events|)
  }

  /** The limit the code names would be passed by this contribution. */
  ghost predicate Over(s: Session, c: Command, code: BreachCode)
    requires c.Contribute?
  {
    match code
    case MAX_CONSECUTIVE_EXCEEDED => InARow(s, c.actor) + 1 > s.limits.maxConsecutive
    case TURNS_PER_AGENT_EXCEEDED =>
      SeatedAsAgent(s, c.actor) && TurnsBy(s.turns, c.actor) + 1 > s.limits.turnsPerAgent
    case TOTAL_TURNS_EXCEEDED => |s.turns| + 1 > s.limits.totalTurns
    case BUDGET_EXCEEDED => s.limits.budget != 0 && c.spent > s.limits.budget
    case TIME_LIMIT_EXCEEDED => s.limits.minutes != 0 && c.now > s.startedAt + s.limits.minutes * MINUTE
  }

  ghost predicate OverAny(s: Session, c: Command)
    requires c.Contribute?
  {
    exists code :: Over(s, c, code)
  }

  /** An Agent speaks although the Agents' turns so far make it another Agent's turn. */
  ghost predicate OutOfTurn(s: Session, a: Account) {
    var agents := Agents(s.participants);
    SeatedAsAgent(s, a) && agents != [] && agents[Sum(agents) % |agents|].account != a
  }

  ghost predicate SomeInvalid(patch: map<Key, Raw>) {
    exists k :: k in patch && !ValidItem(k, patch[k])
  }

  /** What a refusal says is wrong with the command. */
  ghost predicate Fault(s: Session, c: Command, why: Refusal) {
    match why
    case BRAINSTORM_FACILITATOR_ONLY => !c.Contribute? && !c.facilitator
    case BRAINSTORM_CLOSED => (c.Join? || c.Close?) && s.status.CLOSED?
    case BRAINSTORM_NOT_OPEN => (c.Contribute? || c.Pause?) && !s.status.OPEN?
    case BRAINSTORM_NOT_PAUSED => c.Resume? && !s.status.PAUSED?
    case BRAINSTORM_LIMITS_INVALID => c.Resume? && SomeInvalid(c.patch)
    case BRAINSTORM_BODY_REQUIRED => c.Contribute? && !c.bodyGiven
    case BRAINSTORM_NOT_A_PARTICIPANT => c.Contribute? && !Seated(s, c.actor)
    case BRAINSTORM_CONTRIBUTION_TYPE_REQUIRED => c.Contribute? && SeatedAsAgent(s, c.actor) && c.kind.NotGiven?
    case BRAINSTORM_CONTRIBUTION_TYPE_INVALID => c.Contribute? && c.kind.NotKnown?
    case Breached(code) => c.Contribute? && Over(s, c, code) && !c.stored.Refused?
    case BRAINSTORM_NOT_YOUR_TURN => c.Contribute? && OutOfTurn(s, c.actor) && !OverAny(s, c)
    case EVENT_REFUSED => !c.Join? && c.stored.Refused?
  }

  /** The order in which the limits are looked at. */
  function LimitRank(code: BreachCode): nat {
    match code
    case MAX_CONSECUTIVE_EXCEEDED => 0
    case TURNS_PER_AGENT_EXCEEDED => 1
    case TOTAL_TURNS_EXCEEDED => 2
    case BUDGET_EXCEEDED => 3
    case TIME_LIMIT_EXCEEDED => 4
  }

  /** The order in which refusals are considered. */
  function Rank(why: Refusal): nat {
    match why
    case BRAINSTORM_FACILITATOR_ONLY => 0
    case BRAINSTORM_CLOSED => 1
    case BRAINSTORM_NOT_OPEN => 2
    case BRAINSTORM_NOT_PAUSED => 3
    case BRAINSTORM_BODY_REQUIRED => 4
    case BRAINSTORM_NOT_A_PARTICIPANT => 5
    case BRAINSTORM_CONTRIBUTION_TYPE_REQUIRED => 6
    case BRAINSTORM_CONTRIBUTION_TYPE_INVALID => 7
    case Breached(code) => 8 + LimitRank(code)
    case BRAINSTORM_NOT_YOUR_TURN => 13
    case BRAINSTORM_LIMITS_INVALID => 14
    case EVENT_REFUSED => 15
  }

  ghost predicate FirstFault(s: Session, c: Command, why: Refusal) {
    Fault(s, c, why) && forall w :: Rank(w) < Rank(why) ==> !Fault(s, c, w)
  }

  ghost predicate Faultless(s: Session, c: Command) {
    forall why :: !Fault(s, c, why)
  }

  // ---------------------------------------------------------------- the limits, told from the transcript

  /** The streak of anybody, last to speak or not. */
  lemma InARowIs(s: Session, a: Account)
    requires Inv(s)
    ensures InARow(s, a) == if s.last == Some(a) then s.consecutive else 0
  {
    if s.last == Some(a) {
      StreakSinceStart(s.events, a);
    } else {
      var n := |s.events|;
      StretchIsStreak(s.events, StretchStart(s.events, n, a), n, a);
      assert s.events[..n] == s.events;
    }
  }

  lemma RowFound(s: Session, a: Account)
    requires Inv(s)
    ensures Find(s.participants, a).Some? <==> Seated(s, a)
    ensures Find(s.participants, a).Some? ==>
      var p := s.participants[Find(s.participants, a).value];
      (p.isAgent <==> SeatedAsAgent(s, a)) && p.taken == TurnsBy(s.turns, a) && p.account == a
  {
    hide Sum, Agents, TurnsBy, Find;
    if Seated(s, a) {
      var i :| 0 <= i < |s.participants| && s.participants[i].account == a;
      FindRow(s.participants, i);
    }
  }

  /** The check answers with the first limit that would be passed. */
  lemma CheckIsOver(s: Session, c: Command)
    requires Inv(s) && c.Contribute? && Seated(s, c.actor)
    ensures Find(s.participants, c.actor).Some?
    ensures var i := Find(s.participants, c.actor).value;
      match Check(s.limits, TurnStateOf(s, i, c.spent, c.now), s.participants[i].isAgent)
      case Some(code) => Over(s, c, code) && forall d :: LimitRank(d) < LimitRank(code) ==> !Over(s, c, d)
      case None => !OverAny(s, c)
  {
    InARowIs(s, c.actor);
    RowFound(s, c.actor);
    StreakNow(s);
    assert |s.turns| == s.turnNo;
    hide InARow, Find, TurnsBy, Inv, SeatedAsAgent;
  }

  lemma TurnIs(s: Session, a: Account)
    requires Inv(s) && Seated(s, a)
    ensures OutOfTurn(s, a)
      <==> SeatedAsAgent(s, a) && NextAgent(s).Some? && NextAgent(s).value.account != a
  {
    hide Sum, Agents, Find, TurnsBy;
  }

  /** Nothing is wrong with the contribution itself. */
  ghost predicate Complete(s: Session, c: Command)
    requires c.Contribute?
  {
    && s.status.OPEN? && c.bodyGiven && Seated(s, c.actor)
    && (if SeatedAsAgent(s, c.actor) then c.kind.Known? else !c.kind.NotKnown?)
  }

  lemma IncompleteAnswer(s: Session, c: Command)
    requires Inv(s) && c.Contribute? && !Complete(s, c)
    ensures Step(s, c).1.Rejected? && FirstFault(s, c, Step(s, c).1.why) && Step(s, c).0 == s
  {
    RowFound(s, c.actor);
    hide Inv, Over, OverAny, Check, Seated, SeatedAsAgent, OutOfTurn, Find, NextAgent, LimitRank, RecordTurn, PauseWith;
  }

  /** How a complete contribution ends. */
  lemma CompleteReply(s: Session, c: Command)
    requires Inv(s) && c.Contribute? && Complete(s, c)
    ensures Find(s.participants, c.actor).Some?
    ensures var i := Find(s.participants, c.actor).value;
      var breach := Check(s.limits, TurnStateOf(s, i, c.spent, c.now), s.participants[i].isAgent);
      Step(s, c) ==
        if breach.Some? then
          (if c.stored.Refused? then (s, Rejected(EVENT_REFUSED))
           else (PauseWith(s, ByBreach(breach.value), c.stored), Rejected(Breached(breach.value))))
        else if OutOfTurn(s, c.actor) then (s, Rejected(BRAINSTORM_NOT_YOUR_TURN))
        else match c.stored
          case Refused => (s, Rejected(EVENT_REFUSED))
          case Repeated => (s, Done)
          case New => (RecordTurn(s, i), TurnTaken(s.turnNo + 1))
  {
    RowFound(s, c.actor);
    TurnIs(s, c.actor);
    hide Inv, Check, Seated, SeatedAsAgent, OutOfTurn, Find, NextAgent, RecordTurn, PauseWith;
  }

  /** A complete contribution has no fault but a limit, the turn or the store. */
  lemma LateFaults(s: Session, c: Command, why: Refusal)
    requires c.Contribute? && Complete(s, c) && Fault(s, c, why)
    ensures match why
      case Breached(code) => Over(s, c, code) && !c.stored.Refused?
      case BRAINSTORM_NOT_YOUR_TURN => OutOfTurn(s, c.actor) && !OverAny(s, c)
      case EVENT_REFUSED => c.stored.Refused?
      case _ => false
  {
    hide Over, OverAny, OutOfTurn, Seated, SeatedAsAgent;
  }

  lemma CompleteAnswer(s: Session, c: Command)
    requires Inv(s) && c.Contribute? && Complete(s, c)
    ensures match Step(s, c).1
      case Rejected(why) => FirstFault(s, c, why)
      case _ => Faultless(s, c)
  {
    CheckIsOver(s, c);
    CompleteReply(s, c);
    RanksOfLimits();
    hide Inv, Step, Complete, Over, Check, Seated, SeatedAsAgent, OutOfTurn, Find, NextAgent, LimitRank, RecordTurn,
      PauseWith, Fault;
    forall why | Fault(s, c, why)
      ensures Step(s, c).1.Rejected? && Rank(Step(s, c).1.why) <= Rank(why)
    {
      LateFaults(s, c, why);
    }
    if Step(s, c).1.Rejected? {
      LateFault(s, c, Step(s, c).1.why);
    }
  }

  lemma LateFault(s: Session, c: Command, why: Refusal)
    requires c.Contribute?
    ensures Fault(s, c, why) <== match why
      case Breached(code) => Over(s, c, code) && !c.stored.Refused?
      case BRAINSTORM_NOT_YOUR_TURN => OutOfTurn(s, c.actor) && !OverAny(s, c)
      case EVENT_REFUSED => c.stored.Refused?
      case _ => false
  {
  }

  lemma RanksOfLimits()
    ensures forall code :: LimitRank(code) <= 4
  {
  }

  lemma PatchFault(s: Session, patch: map<Key, Raw>)
    requires Inv(s)
    ensures Patched(s.limits, patch).None? <==> SomeInvalid(patch)
    ensures Patched(s.limits, patch).Some? ==> Patched(s.limits, patch).value == Merged(patch, s.limits)
  {
    PatchIsLocal(s.limits, patch);
  }

  lemma AnswerIsFault(s: Session, c: Command)
    requires Inv(s)
    ensures match Step(s, c).1
      case Rejected(why) => FirstFault(s, c, why)
      case _ => Faultless(s, c)
  {
    if c.Contribute? {
      hide Inv, Step, Complete;
      if Complete(s, c) {
        CompleteAnswer(s, c);
      } else {
        IncompleteAnswer(s, c);
      }
    } else {
      FacilitatorAnswer(s, c);
    }
  }

  lemma FacilitatorAnswer(s: Session, c: Command)
    requires Inv(s) && !c.Contribute?
    ensures match Step(s, c).1
      case Rejected(why) => FirstFault(s, c, why)
      case _ => Faultless(s, c)
  {
    hide Inv, Step, Fault;
    if c.Resume? {
      ResumeAnswer(s, c);
    } else {
      SimpleAnswer(s, c);
    }
  }

  lemma ResumeAnswer(s: Session, c: Command)
    requires Inv(s) && c.Resume?
    ensures match Step(s, c).1
      case Rejected(why) => FirstFault(s, c, why)
      case _ => Faultless(s, c)
  {
    PatchFault(s, c.patch);
    hide Inv, Patched, SomeInvalid, Over, OverAny, OutOfTurn, Seated, SeatedAsAgent, LimitRank, Merged;
  }

  lemma SimpleAnswer(s: Session, c: Command)
    requires c.Join? || c.Pause? || c.Close?
    ensures match Step(s, c).1
      case Rejected(why) => FirstFault(s, c, why)
      case _ => Faultless(s, c)
  {
    hide AddParticipant, PauseWith, LimitRank;
  }

  /** Every command of a reachable session is answered with the first of its faults, and goes through without any. */
  lemma AnsweredByFirstFault(s: Session, c: Command, why: Refusal)
    requires Reachable(s)
    ensures Step(s, c).1 == Rejected(why) <==> FirstFault(s, c, why)
    ensures !Step(s, c).1.Rejected? <==> Faultless(s, c)
  {
    ReachableInv(s);
    AnswerIsFault(s, c);
    hide Step, Fault, Reachable, Inv;
    match Step(s, c).1
    case Rejected(w) => OneFirst(s, c, w, why);
    case _ =>
  }

  lemma OneFirst(s: Session, c: Command, v: Refusal, w: Refusal)
    requires FirstFault(s, c, v)
    ensures FirstFault(s, c, w) <==> v == w
  {
    hide Fault;
    RanksDiffer(v, w);
  }

  lemma RanksDiffer(v: Refusal, w: Refusal)
    ensures Rank(v) == Rank(w) <==> v == w
  {
  }

  // ---------------------------------------------------------------- contributions

  /** Every limit leaves room for this contribution. */
  ghost predicate WithinLimits(s: Session, c: Command)
    requires c.Contribute?
  {
    && InARow(s, c.actor) < s.limits.maxConsecutive && |s.turns| < s.limits.totalTurns
    && (SeatedAsAgent(s, c.actor) ==> TurnsBy(s.turns, c.actor) < s.limits.turnsPerAgent)
    && (s.limits.budget != 0 ==> c.spent <= s.limits.budget)
    && (s.limits.minutes != 0 ==> c.now - s.startedAt <= s.limits.minutes * MINUTE)
  }

  /** A turn is taken exactly by a complete, new contribution of somebody seated, in turn and within every limit. */
  lemma ContributionExactly(s: Session, c: Command)
    requires Reachable(s) && c.Contribute?
    ensures var (u, reply) := Step(s, c);
      && (reply.TurnTaken? <==>
            Complete(s, c) && WithinLimits(s, c) && !OutOfTurn(s, c.actor) && c.stored.New?)
      && (if reply.TurnTaken? then u.turns == s.turns + [Turn(reply.turnNo, c.actor)] && u.status.OPEN?
          else u.turns == s.turns)
  {
    ReachableInv(s);
    hide Inv, Reachable, Check, Over, OverAny, WithinLimits, OutOfTurn, Complete, Find, LimitRank, Step, FirstFault;
    if Complete(s, c) {
      CheckIsOver(s, c);
      CompleteReply(s, c);
      OverIsNotWithin(s, c);
    } else {
      IncompleteAnswer(s, c);
    }
  }

  lemma OverIsNotWithin(s: Session, c: Command)
    requires c.Contribute?
    ensures OverAny(s, c) <==> !WithinLimits(s, c)
  {
    hide InARow, TurnsBy, SeatedAsAgent;
    if !WithinLimits(s, c) {
      assert Over(s, c, MAX_CONSECUTIVE_EXCEEDED) || Over(s, c, TURNS_PER_AGENT_EXCEEDED)
        || Over(s, c, TOTAL_TURNS_EXCEEDED) || Over(s, c, BUDGET_EXCEEDED) || Over(s, c, TIME_LIMIT_EXCEEDED);
    }
  }

  /** Without a resume nothing said to a session that is not open becomes a turn. */
  lemma {:induction false} SilentUntilResumed(s: Session, cs: seq<Command>)
    requires !s.status.OPEN? && forall i :: 0 <= i < |cs| ==> !cs[i].Resume?
    ensures !Run(s, cs).status.OPEN? && Run(s, cs).turns == s.turns
  {
    if cs == [] {
    } else {
      SilentUntilResumed(s, cs[..|cs| - 1]);
      hide Patched, AddParticipant, Check;
    }
  }

  /**
   The contribution that would pass a limit is rejected for the first one it passes; the session stands paused for that
   reason and takes no turn until somebody resumes it.
   */
  lemma BreachPauses(s: Session, c: Command, code: BreachCode, cs: seq<Command>)
    requires Reachable(s) && c.Contribute? && FirstFault(s, c, Breached(code))
    requires forall i :: 0 <= i < |cs| ==> !cs[i].Resume?
    ensures var (u, reply) := Step(s, c);
      && reply == Rejected(Breached(code)) && u.status.PAUSED? && u.pausedReason == Some(ByBreach(code))
      && u.events == s.events + (if c.stored.New? then [Paused(ByBreach(code))] else [])
      && !Run(u, cs).status.OPEN? && Run(u, cs).turns == s.turns
  {
    hide Reachable, FirstFault, Check, NextAgent, Find;
    AnsweredByFirstFault(s, c, Breached(code));
    SilentUntilResumed(Step(s, c).0, cs);
  }

  // ---------------------------------------------------------------- what the facilitator's commands leave

  /** The session stands as the event says, with nothing else changed but the reason of a pause. */
  ghost predicate StandsAs(s: Session, u: Session, status: Status, reason: Option<Reason>, e: Event) {
    && u.status == status && u.pausedReason == reason && u.events == s.events + [e] && u.turns == s.turns
    && u.participants == s.participants && u.turnNo == s.turnNo && u.turnIndex == s.turnIndex && u.last == s.last
  }

  /** The limits a resume puts in force: what the patch names, and the earlier ones where it is silent. */
  ghost predicate PatchedTo(patch: map<Key, Raw>, l: Limits, m: Limits) {
    && Says(patch, TurnsPerAgent, m.turnsPerAgent, l.turnsPerAgent)
    && Says(patch, MaxConsecutive, m.maxConsecutive, l.maxConsecutive)
    && Says(patch, TotalTurns, m.totalTurns, l.totalTurns) && Says(patch, BudgetCostUnits, m.budget, l.budget)
    && Says(patch, TimeLimitMinutes, m.minutes, l.minutes)
  }

  /** One more row at the next seat, or none for an account that is seated. */
  ghost predicate JoinedBy(s: Session, a: Account, isAgent: bool, u: Session) {
    && u == s.(participants := u.participants)
    && if Seated(s, a) then u.participants == s.participants
       else u.participants == s.participants + [Participant(a, isAgent, |s.participants|, 0)]
  }

  /** What a command of the facilitator that goes through leaves behind. */
  lemma CommandLeaves(s: Session, c: Command)
    requires Reachable(s) && !c.Contribute? && !Step(s, c).1.Rejected?
    ensures var (u, reply) := Step(s, c);
      match c
      case Join(a, isAgent, _) => JoinedBy(s, a, isAgent, u) && reply == Reply.Seated(|s.participants|)
      case Pause(_, stored) =>
        if stored.New? then StandsAs(s, u, PAUSED, Some(ByFacilitator), Paused(ByFacilitator))
        else u == s.(status := PAUSED, pausedReason := Some(ByFacilitator))
      case Resume(_, patch, stored) =>
        if stored.New? then
          StandsAs(s, u, OPEN, None, Resumed(u.limits)) && PatchedTo(patch, s.limits, u.limits) && u.consecutive == 0
        else u == s
      case Close(_, stored) =>
        if stored.New? then StandsAs(s, u, CLOSED, None, Closed(|s.turns|)) && u.limits == s.limits else u == s
      case _ => true
  {
    ReachableInv(s);
    match c
    case Join(_, _, _) => JoinLeaves(s, c);
    case Resume(_, _, _) => ResumeLeaves(s, c);
    case Pause(_, _) => hide Reachable, Inv;
    case Close(_, _) =>
      assert s.turnNo == |s.turns|;
      hide Reachable, Inv;
  }

  lemma JoinLeaves(s: Session, c: Command)
    requires Inv(s) && c.Join? && !Step(s, c).1.Rejected?
    ensures JoinedBy(s, c.account, c.isAgent, Step(s, c).0) && Step(s, c).1 == Reply.Seated(|s.participants|)
  {
    RowFound(s, c.account);
    MaxSeatIsLast(s.participants);
    hide Inv, Find, MaxSeat, Seated;
  }

  lemma ResumeLeaves(s: Session, c: Command)
    requires Inv(s) && c.Resume? && !Step(s, c).1.Rejected?
    ensures var u := Step(s, c).0;
      if c.stored.New? then
        StandsAs(s, u, OPEN, None, Resumed(u.limits)) && PatchedTo(c.patch, s.limits, u.limits) && u.consecutive == 0
      else u == s
  {
    StreakNow(s);
    PatchIsLocal(s.limits, c.patch);
    hide Inv, Patched;
  }

  // ---------------------------------------------------------------- from the start on

  lemma StepFromStart(s: Session, c: Command)
    requires Inv(s)
    ensures var u := Step(s, c).0;
      u.startedAt == s.startedAt && s.events <= u.events && (!c.Resume? ==> u.limits == s.limits)
  {
    hide Inv, Check, NextAgent, Find, Patched, AddParticipant, Agents;
  }

  /** Over any run a session keeps the moment and the limits it was started with, the limits until it is resumed. */
  lemma {:induction false} StartHolds(limits: Limits, accounts: seq<(Account, bool)>, now: Time, cs: seq<Command>)
    requires Positive(limits)
    ensures var u := Run(Start(limits, accounts, now), cs);
      && Inv(u) && u.startedAt == now && u.events != [] && u.events[0] == Opened(limits)
      && ((forall i :: 0 <= i < |cs| ==> !cs[i].Resume?) ==> u.limits == limits)
  {
    if cs == [] {
      StartInv(limits, accounts, now);
    } else {
      hide Start, Inv, Step;
      var rest := cs[..|cs| - 1];
      StartHolds(limits, accounts, now, rest);
      StepFromStart(Run(Start(limits, accounts, now), rest), cs[|cs| - 1]);
      StepKeeps(Run(Start(limits, accounts, now), rest), cs[|cs| - 1]);
    }
  }

  /** Accounts named once each are seated in the order they are named, in their roles. */
  lemma {:induction false} SeatedAsNamed(accounts: seq<(Account, bool)>)
    requires forall i, j :: 0 <= i < j < |accounts| ==> accounts[i].0 != accounts[j].0
    ensures |SeatAll(accounts)| == |accounts|
    ensures forall i :: 0 <= i < |accounts| ==> SeatAll(accounts)[i] == Participant(accounts[i].0, accounts[i].1, i, 0)
  {
    if accounts == [] {
    } else {
      var front := accounts[..|accounts| - 1];
      SeatedAsNamed(front);
      MaxSeatIsLast(SeatAll(front));
      hide MaxSeat;
    }
  }
}
