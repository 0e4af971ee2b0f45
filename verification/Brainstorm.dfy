/**
 Brainstorm sessions: limits, the round-robin cursor, the counters and the handlers that change one session.
 A session's rows and its event stream are one value.
 */
module Brainstorm {
  import opened Common

  type Account = nat
  /** Microseconds. */
  type Time = int
  const MINUTE: Time := 60_000_000

  // ---------------------------------------------------------------- limits

  datatype Limits = Limits(turnsPerAgent: int, maxConsecutive: int, totalTurns: int, budget: int, minutes: int)

  const DEFAULTS := Limits(5, 1, 40, 0, 0)

  datatype Key =
    | TurnsPerAgent | MaxConsecutive | TotalTurns | BudgetCostUnits | TimeLimitMinutes | OtherKey(name: string)

  /** A JSON value: an integer, or anything that is none (a boolean included). */
  datatype Raw = IntValue(n: int) | NotAnInt

  function Floor(k: Key): int {
    if k.BudgetCostUnits? || k.TimeLimitMinutes? then 0 else 1
  }

  predicate ValidItem(k: Key, v: Raw) {
    !k.OtherKey? && v.IntValue? && v.n >= Floor(k)
  }

  function Get(raw: map<Key, Raw>, k: Key, fallback: int): int {
    if k in raw && raw[k].IntValue? then raw[k].n else fallback
  }

  function Merged(raw: map<Key, Raw>, base: Limits): Limits {
    Limits(Get(raw, TurnsPerAgent, base.turnsPerAgent), Get(raw, MaxConsecutive, base.maxConsecutive),
           Get(raw, TotalTurns, base.totalTurns), Get(raw, BudgetCostUnits, base.budget),
           Get(raw, TimeLimitMinutes, base.minutes))
  }

  function AsDict(l: Limits): map<Key, Raw> {
    map[TurnsPerAgent := IntValue(l.turnsPerAgent), MaxConsecutive := IntValue(l.maxConsecutive),
        TotalTurns := IntValue(l.totalTurns), BudgetCostUnits := IntValue(l.budget),
        TimeLimitMinutes := IntValue(l.minutes)]
  }

  predicate Positive(l: Limits) {
    l.turnsPerAgent >= 1 && l.maxConsecutive >= 1 && l.totalTurns >= 1 && l.budget >= 0 && l.minutes >= 0
  }

  function Parse(raw: map<Key, Raw>): Option<Limits> {
    if forall k :: k in raw ==> ValidItem(k, raw[k]) then Some(Merged(raw, DEFAULTS)) else None
  }

  /** `parse`: starts from the defaults and overwrites them item by item. */
  method ParseLimits(raw: map<Key, Raw>) returns (r: Option<Limits>)
    ensures r == Parse(raw)
    ensures r.Some? ==> Positive(r.value)
  {
    if exists k :: k in raw && k.OtherKey? {
      return None;
    }
    var values, todo, done := DEFAULTS, raw.Keys, map[];
    while todo != {}
      invariant todo + done.Keys == raw.Keys && todo !! done.Keys
      invariant forall k :: k in done ==> done[k] == raw[k] && ValidItem(k, raw[k])
      invariant values == Merged(done, DEFAULTS) && Positive(values)
      decreases todo
    {
      var k :| k in todo;
      if !raw[k].IntValue? || raw[k].n < Floor(k) {
        return None;
      }
      match k {
        case TurnsPerAgent => values := values.(turnsPerAgent := raw[k].n);
        case MaxConsecutive => values := values.(maxConsecutive := raw[k].n);
        case TotalTurns => values := values.(totalTurns := raw[k].n);
        case BudgetCostUnits => values := values.(budget := raw[k].n);
        case TimeLimitMinutes => values := values.(minutes := raw[k].n);
        case OtherKey(_) => assert false;
      }
      done, todo := done[k := raw[k]], todo - {k};
    }
    assert done == raw;
    r := Some(values);
  }

  /** The limits a resume asks for: the current ones overwritten by the patch, then parsed as a whole. */
  function Patched(l: Limits, patch: map<Key, Raw>): Option<Limits> {
    Parse(AsDict(l) + patch)
  }

  /** Patching succeeds exactly when the patch alone is valid, and leaves every limit it does not name. */
  lemma PatchIsLocal(l: Limits, patch: map<Key, Raw>)
    requires Positive(l)
    ensures Patched(l, patch).Some? <==> Parse(patch).Some?
    ensures Patched(l, patch).Some? ==> Patched(l, patch).value == Merged(patch, l) && Positive(Merged(patch, l))
  {
    var all := AsDict(l) + patch;
    if k :| k in patch && !ValidItem(k, patch[k]) {
      assert k in all && all[k] == patch[k];
    }
  }

  datatype BreachCode =
    | MAX_CONSECUTIVE_EXCEEDED | TURNS_PER_AGENT_EXCEEDED | TOTAL_TURNS_EXCEEDED | BUDGET_EXCEEDED
    | TIME_LIMIT_EXCEEDED

  datatype TurnState = TurnState(
    total: int, taken: int, consecutive: int, isLast: bool, spent: int, startedAt: Time, now: Time)

  /** `check`: the first limit a contribution would breach. */
  function Check(l: Limits, t: TurnState, isAgent: bool): Option<BreachCode> {
    var consecutive := if t.isLast then t.consecutive + 1 else 1;
    if l.maxConsecutive != 0 && consecutive > l.maxConsecutive then Some(MAX_CONSECUTIVE_EXCEEDED)
    else if isAgent && l.turnsPerAgent != 0 && t.taken + 1 > l.turnsPerAgent then Some(TURNS_PER_AGENT_EXCEEDED)
    else if l.totalTurns != 0 && t.total + 1 > l.totalTurns then Some(TOTAL_TURNS_EXCEEDED)
    else if l.budget != 0 && t.spent > l.budget then Some(BUDGET_EXCEEDED)
    else if l.minutes != 0 && t.now - t.startedAt > l.minutes * MINUTE then Some(TIME_LIMIT_EXCEEDED)
    else None
  }

  // ---------------------------------------------------------------- sessions

  datatype Status = OPEN | PAUSED | CLOSED
  datatype Participant = Participant(account: Account, isAgent: bool, seat: int, taken: nat)
  datatype Turn = Turn(seqNo: nat, account: Account)

  /** The session's events, with the payload fields the results refer to. */
  datatype Event =
    | Opened(limits: Limits)
    | Recorded(account: Account, turnNo: nat)
    | Paused(reason: Reason)
    | Resumed(limits: Limits)
    | Closed(turnCount: nat)

  datatype Reason = ByFacilitator | ByBreach(code: BreachCode)

  datatype Session = Session(
    status: Status, limits: Limits, turnNo: nat, turnIndex: nat, last: Option<Account>, consecutive: nat,
    pausedReason: Option<Reason>, startedAt: Time, participants: seq<Participant>, turns: seq<Turn>, events: seq<Event>)

  function Agents(ps: seq<Participant>): seq<Participant> {
    if ps == [] then []
    else Agents(ps[..|ps| - 1]) + (if ps[|ps| - 1].isAgent then [ps[|ps| - 1]] else [])
  }

  function NextAgent(s: Session): Option<Participant> {
    var agents := Agents(s.participants);
    if agents == [] then None else Some(agents[s.turnIndex % |agents|])
  }

  function Find(ps: seq<Participant>, a: Account): (r: Option<nat>)
    ensures r.Some? ==> r.value < |ps| && ps[r.value].account == a
    ensures r.None? <==> forall i :: 0 <= i < |ps| ==> ps[i].account != a
  {
    if ps == [] then None
    else if ps[|ps| - 1].account == a then Some(|ps| - 1)
    else Find(ps[..|ps| - 1], a)
  }

  /** `coalesce(max(seat), -1)`. */
  function MaxSeat(ps: seq<Participant>): int {
    if ps == [] then -1
    else
      var m := MaxSeat(ps[..|ps| - 1]);
      if ps[|ps| - 1].seat > m then ps[|ps| - 1].seat else m
  }

  /** `add_participant`: the rows afterwards and the seat it returns. A seated account keeps its row. */
  function AddParticipant(ps: seq<Participant>, a: Account, isAgent: bool): (seq<Participant>, int) {
    var seat := MaxSeat(ps) + 1;
    if Find(ps, a).Some? then (ps, seat) else (ps + [Participant(a, isAgent, seat, 0)], seat)
  }

  /** `advance`. */
  function Advance(s: Session, i: nat): Session
    requires i < |s.participants|
  {
    var p := s.participants[i];
    s.(turnNo := s.turnNo + 1, turnIndex := if p.isAgent then s.turnIndex + 1 else s.turnIndex,
       last := Some(p.account), consecutive := if s.last == Some(p.account) then s.consecutive + 1 else 1,
       participants := s.participants[i := p.(taken := p.taken + 1)])
  }

  // ---------------------------------------------------------------- handlers

  /** What the event store does with an append: takes it, recognises a repeated key, or refuses. */
  datatype Stored = New | Repeated | Refused

  datatype Refusal =
    | BRAINSTORM_CLOSED | BRAINSTORM_NOT_OPEN | BRAINSTORM_NOT_PAUSED | BRAINSTORM_BODY_REQUIRED
    | BRAINSTORM_NOT_A_PARTICIPANT | BRAINSTORM_CONTRIBUTION_TYPE_REQUIRED | BRAINSTORM_CONTRIBUTION_TYPE_INVALID
    | BRAINSTORM_NOT_YOUR_TURN | BRAINSTORM_LIMITS_INVALID | BRAINSTORM_FACILITATOR_ONLY | EVENT_REFUSED
    | Breached(code: BreachCode)

  datatype ContributionType = NotGiven | Known | NotKnown

  datatype Command =
    | Join(account: Account, isAgent: bool, facilitator: bool)
    | Contribute(actor: Account, bodyGiven: bool, kind: ContributionType, spent: int, now: Time, stored: Stored)
    | Pause(facilitator: bool, stored: Stored)
    | Resume(facilitator: bool, patch: map<Key, Raw>, stored: Stored)
    | Close(facilitator: bool, stored: Stored)

  datatype Reply = Done | Seated(seat: int) | TurnTaken(turnNo: nat) | Rejected(why: Refusal)

  /** `_pause`: a repeated key appends no event but still sets the status. */
  function PauseWith(s: Session, reason: Reason, stored: Stored): Session {
    s.(status := PAUSED, pausedReason := Some(reason),
       events := if stored.New? then s.events + [Paused(reason)] else s.events)
  }

  function TurnStateOf(s: Session, i: nat, spent: int, now: Time): TurnState
    requires i < |s.participants|
  {
    TurnState(s.turnNo, s.participants[i].taken, s.consecutive, s.last == Some(s.participants[i].account), spent,
              s.startedAt, now)
  }

  function RecordTurn(s: Session, i: nat): Session
    requires i < |s.participants|
  {
    var n, who := s.turnNo + 1, s.participants[i].account;
    Advance(s.(turns := s.turns + [Turn(n, who)], events := s.events + [Recorded(who, n)]), i)
  }

  /**
   `contribute_turn`: a breach pauses the session in a transaction of its own, then rejects the contribution; where the
   store refuses the pause, its error is the answer.
   */
  function ContributeTurn(s: Session, c: Command): (Session, Reply)
    requires c.Contribute?
  {
    if !s.status.OPEN? then (s, Rejected(BRAINSTORM_NOT_OPEN))
    else if !c.bodyGiven then (s, Rejected(BRAINSTORM_BODY_REQUIRED))
    else
      var found := Find(s.participants, c.actor);
      if found.None? then (s, Rejected(BRAINSTORM_NOT_A_PARTICIPANT))
      else
        var i := found.value;
        var isAgent := s.participants[i].isAgent;
        if isAgent && c.kind.NotGiven? then (s, Rejected(BRAINSTORM_CONTRIBUTION_TYPE_REQUIRED))
        else if c.kind.NotKnown? then (s, Rejected(BRAINSTORM_CONTRIBUTION_TYPE_INVALID))
        else
          var breach := Check(s.limits, TurnStateOf(s, i, c.spent, c.now), isAgent);
          if breach.Some? then
            (if c.stored.Refused? then (s, Rejected(EVENT_REFUSED))
             else (PauseWith(s, ByBreach(breach.value), c.stored), Rejected(Breached(breach.value))))
          else if isAgent && NextAgent(s).Some? && NextAgent(s).value.account != c.actor then
            (s, Rejected(BRAINSTORM_NOT_YOUR_TURN))
          else if c.stored.Refused? then (s, Rejected(EVENT_REFUSED))
          else if c.stored.Repeated? then (s, Done)
          else (RecordTurn(s, i), TurnTaken(s.turnNo + 1))
  }

  function Step(s: Session, c: Command): (Session, Reply) {
    match c
    case Contribute(_, _, _, _, _, _) => ContributeTurn(s, c)
    case Join(account, isAgent, facilitator) =>
      if !facilitator then (s, Rejected(BRAINSTORM_FACILITATOR_ONLY))
      else if s.status.CLOSED? then (s, Rejected(BRAINSTORM_CLOSED))
      else
        var added := AddParticipant(s.participants, account, isAgent);
        (s.(participants := added.0), Seated(added.1))
    case Pause(facilitator, stored) =>
      if !facilitator then (s, Rejected(BRAINSTORM_FACILITATOR_ONLY))
      else if !s.status.OPEN? then (s, Rejected(BRAINSTORM_NOT_OPEN))
      else if stored.Refused? then (s, Rejected(EVENT_REFUSED))
      else (PauseWith(s, ByFacilitator, stored), Done)
    case Resume(facilitator, patch, stored) =>
      if !facilitator then (s, Rejected(BRAINSTORM_FACILITATOR_ONLY))
      else if !s.status.PAUSED? then (s, Rejected(BRAINSTORM_NOT_PAUSED))
      else
        var limits := Patched(s.limits, patch);
        if limits.None? then (s, Rejected(BRAINSTORM_LIMITS_INVALID))
        else if stored.Refused? then (s, Rejected(EVENT_REFUSED))
        else if stored.Repeated? then (s, Done)
        else
          (s.(status := OPEN, limits := limits.value, consecutive := 0, pausedReason := None,
              events := s.events + [Resumed(limits.value)]), Done)
    case Close(facilitator, stored) =>
      if !facilitator then (s, Rejected(BRAINSTORM_FACILITATOR_ONLY))
      else if s.status.CLOSED? then (s, Rejected(BRAINSTORM_CLOSED))
      else if stored.Refused? then (s, Rejected(EVENT_REFUSED))
      else if stored.Repeated? then (s, Done)
      else (s.(status := CLOSED, pausedReason := None, events := s.events + [Closed(s.turnNo)]), Done)
  }

  function Run(s: Session, cs: seq<Command>): Session {
    if cs == [] then s else Step(Run(s, cs[..|cs| - 1]), cs[|cs| - 1]).0
  }

  /** The participants `start_brainstorm` seats, in the order it is given them. */
  function SeatAll(accounts: seq<(Account, bool)>): seq<Participant> {
    if accounts == [] then []
    else
      var a := accounts[|accounts| - 1];
      AddParticipant(SeatAll(accounts[..|accounts| - 1]), a.0, a.1).0
  }

  function Start(limits: Limits, accounts: seq<(Account, bool)>, now: Time): Session {
    Session(OPEN, limits, 0, 0, None, 0, None, now, SeatAll(accounts), [], [Opened(limits)])
  }

  // ---------------------------------------------------------------- invariant

  function TurnsBy(turns: seq<Turn>, a: Account): nat {
    if turns == [] then 0
    else TurnsBy(turns[..|turns| - 1], a) + if turns[|turns| - 1].account == a then 1 else 0
  }

  function Sum(ps: seq<Participant>): nat {
    if ps == [] then 0 else Sum(ps[..|ps| - 1]) + ps[|ps| - 1].taken
  }

  /** The turn rows the events describe. */
  function TurnsIn(events: seq<Event>): seq<Turn> {
    if events == [] then []
    else
      var e, rest := events[|events| - 1], TurnsIn(events[..|events| - 1]);
      if e.Recorded? then rest + [Turn(e.turnNo, e.account)] else rest
  }

  /** The limits in force after the events. */
  function LimitsAfter(events: seq<Event>): Limits {
    if events == [] then DEFAULTS
    else
      var e := events[|events| - 1];
      if e.Opened? || e.Resumed? then e.limits else LimitsAfter(events[..|events| - 1])
  }

  /** The last contributor, and its consecutive turns since it last changed or the session was resumed. */
  function Streak(events: seq<Event>): (Option<Account>, nat) {
    if events == [] then (None, 0)
    else
      var e, before := events[|events| - 1], Streak(events[..|events| - 1]);
      if e.Recorded? then (Some(e.account), if before.0 == Some(e.account) then before.1 + 1 else 1)
      else if e.Resumed? then (before.0, 0)
      else before
  }

  ghost predicate SeatsInOrder(ps: seq<Participant>) {
    && (forall i :: 0 <= i < |ps| ==> ps[i].seat == i)
    && forall i, j :: 0 <= i < j < |ps| ==> ps[i].account != ps[j].account
  }

  ghost predicate CountersMatch(s: Session) {
    && s.turnNo == |s.turns| == Sum(s.participants)
    && s.turnIndex == Sum(Agents(s.participants))
    && (forall i :: 0 <= i < |s.turns| ==> s.turns[i].seqNo == i + 1 && Find(s.participants, s.turns[i].account).Some?)
    && forall i :: 0 <= i < |s.participants| ==> s.participants[i].taken == TurnsBy(s.turns, s.participants[i].account)
  }

  ghost predicate StreaksBounded(events: seq<Event>) {
    forall n :: 0 <= n <= |events| ==> Streak(events[..n]).1 <= LimitsAfter(events[..n]).maxConsecutive
  }

  ghost predicate OpenedFirst(events: seq<Event>) {
    events != [] && events[0].Opened? && forall k :: 0 < k < |events| ==> !events[k].Opened?
  }

  ghost predicate EventsMatch(s: Session) {
    && s.turns == TurnsIn(s.events)
    && s.limits == LimitsAfter(s.events) && Positive(s.limits)
    && (s.last, s.consecutive) == Streak(s.events)
    && StreaksBounded(s.events) && OpenedFirst(s.events)
    && (s.status.CLOSED? ==> s.events != [] && s.events[|s.events| - 1] == Closed(s.turnNo))
  }

  ghost predicate Inv(s: Session) {
    SeatsInOrder(s.participants) && CountersMatch(s) && EventsMatch(s)
  }

  // ---------------------------------------------------------------- seats

  lemma {:induction false} MaxSeatIsLast(ps: seq<Participant>)
    requires forall i :: 0 <= i < |ps| ==> ps[i].seat == i
    ensures MaxSeat(ps) == |ps| - 1
  {
    if ps == [] {
    } else {
      MaxSeatIsLast(ps[..|ps| - 1]);
    }
  }

  lemma AddKeepsSeats(ps: seq<Participant>, a: Account, isAgent: bool)
    requires SeatsInOrder(ps)
    ensures SeatsInOrder(AddParticipant(ps, a, isAgent).0)
  {
    MaxSeatIsLast(ps);
  }

  /** `add_participant` returns the account's own seat exactly when the account was not seated before. */
  lemma ReturnedSeat(ps: seq<Participant>, a: Account, isAgent: bool)
    requires SeatsInOrder(ps)
    ensures var (rows, seat) := AddParticipant(ps, a, isAgent);
      var found := Find(rows, a);
      found.Some? && (rows[found.value].seat == seat <==> Find(ps, a).None?)
  {
    MaxSeatIsLast(ps);
  }

  lemma {:induction false} SeatAllInOrder(accounts: seq<(Account, bool)>)
    ensures SeatsInOrder(SeatAll(accounts)) && Sum(SeatAll(accounts)) == 0 && Sum(Agents(SeatAll(accounts))) == 0
    ensures forall i :: 0 <= i < |SeatAll(accounts)| ==> SeatAll(accounts)[i].taken == 0
  {
    if accounts == [] {
      assert SeatAll(accounts) == [];
    } else {
      hide Find, MaxSeat, Sum, Agents, SeatsInOrder;
      var a, ps := accounts[|accounts| - 1], SeatAll(accounts[..|accounts| - 1]);
      SeatAllInOrder(accounts[..|accounts| - 1]);
      AddKeepsSeats(ps, a.0, a.1);
      AddKeepsSums(ps, a.0, a.1);
    }
  }

  lemma AddKeepsSums(ps: seq<Participant>, a: Account, isAgent: bool)
    ensures Sum(AddParticipant(ps, a, isAgent).0) == Sum(ps)
    ensures Sum(Agents(AddParticipant(ps, a, isAgent).0)) == Sum(Agents(ps))
  {
    var rows := AddParticipant(ps, a, isAgent).0;
    if rows != ps {
      assert rows[..|ps|] == ps;
      var p := rows[|ps|];
      assert (Agents(ps) + [p])[..|Agents(ps)|] == Agents(ps);
      assert Agents(ps) + [] == Agents(ps);
    }
  }

  // ---------------------------------------------------------------- counters

  lemma {:induction false} SumUpdate(ps: seq<Participant>, i: nat, p: Participant)
    requires i < |ps|
    ensures Sum(ps[i := p]) == Sum(ps) - ps[i].taken + p.taken
  {
    var n := |ps| - 1;
    if i < n {
      SumUpdate(ps[..n], i, p);
      assert ps[i := p][..n] == ps[..n][i := p];
    } else {
      assert ps[i := p][..n] == ps[..n];
    }
  }

  lemma {:induction false} AgentsUpdate(ps: seq<Participant>, i: nat, p: Participant)
    requires i < |ps| && p.isAgent == ps[i].isAgent
    ensures |Agents(ps[..i])| <= |Agents(ps)|
    ensures if ps[i].isAgent
      then |Agents(ps[..i])| < |Agents(ps)| && Agents(ps)[|Agents(ps[..i])|] == ps[i]
           && Agents(ps[i := p]) == Agents(ps)[|Agents(ps[..i])| := p]
      else Agents(ps[i := p]) == Agents(ps)
  {
    var n := |ps| - 1;
    if i < n {
      AgentsUpdate(ps[..n], i, p);
      assert ps[i := p][..n] == ps[..n][i := p] && ps[..n][..i] == ps[..i];
    } else {
      assert ps[i := p][..n] == ps[..n];
    }
  }

  lemma FindUpdated(ps: seq<Participant>, i: nat, p: Participant, a: Account)
    requires i < |ps| && p.account == ps[i].account
    ensures Find(ps[i := p], a).Some? <==> Find(ps, a).Some?
  {
    var qs := ps[i := p];
    assert forall k :: 0 <= k < |ps| ==> qs[k].account == ps[k].account;
  }

  lemma TurnsByAppended(turns: seq<Turn>, t: Turn, a: Account)
    ensures TurnsBy(turns + [t], a) == TurnsBy(turns, a) + if t.account == a then 1 else 0
  {
    assert (turns + [t])[..|turns|] == turns;
  }

  lemma {:induction false} NoTurns(turns: seq<Turn>, a: Account)
    requires forall i :: 0 <= i < |turns| ==> turns[i].account != a
    ensures TurnsBy(turns, a) == 0
  {
    if turns == [] {
    } else {
      NoTurns(turns[..|turns| - 1], a);
    }
  }

  lemma RecordKeepsSums(s: Session, i: nat)
    requires i < |s.participants|
    ensures var u := RecordTurn(s, i);
      && Sum(u.participants) == Sum(s.participants) + 1
      && Sum(Agents(u.participants)) == Sum(Agents(s.participants)) + if s.participants[i].isAgent then 1 else 0
  {
    var p := s.participants[i];
    var q := p.(taken := p.taken + 1);
    SumUpdate(s.participants, i, q);
    AgentsUpdate(s.participants, i, q);
    if p.isAgent {
      SumUpdate(Agents(s.participants), |Agents(s.participants[..i])|, q);
    }
  }

  lemma RecordKeepsRows(s: Session, i: nat)
    requires SeatsInOrder(s.participants) && CountersMatch(s) && i < |s.participants|
    ensures var u := RecordTurn(s, i);
      && (forall k :: 0 <= k < |u.participants| ==>
            u.participants[k].taken == TurnsBy(u.turns, u.participants[k].account))
      && forall k :: 0 <= k < |u.turns| ==> Find(u.participants, u.turns[k].account).Some?
  {
    hide Find, TurnsBy, Sum, Agents;
    var u, p := RecordTurn(s, i), s.participants[i];
    forall k | 0 <= k < |u.participants|
      ensures u.participants[k].taken == TurnsBy(u.turns, u.participants[k].account)
    {
      TurnsByAppended(s.turns, Turn(s.turnNo + 1, p.account), s.participants[k].account);
    }
    forall k | 0 <= k < |u.turns| ensures Find(u.participants, u.turns[k].account).Some? {
      FindUpdated(s.participants, i, p.(taken := p.taken + 1), u.turns[k].account);
    }
  }

  lemma RecordKeepsCounters(s: Session, i: nat)
    requires SeatsInOrder(s.participants) && CountersMatch(s) && i < |s.participants|
    ensures SeatsInOrder(RecordTurn(s, i).participants) && CountersMatch(RecordTurn(s, i))
  {
    hide Find, TurnsBy, Sum, Agents;
    RecordKeepsSums(s, i);
    RecordKeepsRows(s, i);
  }

  /** Everybody who took a turn is still seated, and the newcomer took none. */
  lemma NewcomerTookNone(s: Session, rows: seq<Participant>, p: Participant)
    requires CountersMatch(s) && rows == s.participants + [p] && Find(s.participants, p.account).None?
    ensures TurnsBy(s.turns, p.account) == 0
    ensures forall i :: 0 <= i < |s.turns| ==> Find(rows, s.turns[i].account).Some?
  {
    hide Find, Sum, Agents, TurnsBy;
    forall i | 0 <= i < |s.turns| ensures s.turns[i].account != p.account && Find(rows, s.turns[i].account).Some? {
      var k := Find(s.participants, s.turns[i].account).value;
      assert rows[k] == s.participants[k];
    }
    NoTurns(s.turns, p.account);
  }

  lemma JoinKeepsCounters(s: Session, a: Account, isAgent: bool)
    requires SeatsInOrder(s.participants) && CountersMatch(s)
    ensures var u := s.(participants := AddParticipant(s.participants, a, isAgent).0);
      SeatsInOrder(u.participants) && CountersMatch(u)
  {
    hide Find, MaxSeat, Sum, Agents, TurnsBy, SeatsInOrder;
    var rows := AddParticipant(s.participants, a, isAgent).0;
    AddKeepsSeats(s.participants, a, isAgent);
    AddKeepsSums(s.participants, a, isAgent);
    if rows != s.participants {
      NewcomerTookNone(s, rows, rows[|s.participants|]);
    }
  }

  // ---------------------------------------------------------------- events

  lemma EventAppended(events: seq<Event>, e: Event)
    ensures TurnsIn(events + [e])
      == TurnsIn(events) + (if e.Recorded? then [Turn(e.turnNo, e.account)] else [])
    ensures LimitsAfter(events + [e]) == if e.Opened? || e.Resumed? then e.limits else LimitsAfter(events)
    ensures Streak(events + [e]) ==
      if e.Recorded? then (Some(e.account), if Streak(events).0 == Some(e.account) then Streak(events).1 + 1 else 1)
      else if e.Resumed? then (Streak(events).0, 0)
      else Streak(events)
  {
    assert (events + [e])[..|events|] == events;
  }

  lemma BoundAppended(events: seq<Event>, e: Event)
    requires StreaksBounded(events)
    requires Streak(events + [e]).1 <= LimitsAfter(events + [e]).maxConsecutive
    ensures StreaksBounded(events + [e])
  {
    forall n | 0 <= n <= |events| + 1
      ensures Streak((events + [e])[..n]).1 <= LimitsAfter((events + [e])[..n]).maxConsecutive
    {
      assert (events + [e])[..n] == if n <= |events| then events[..n] else events + [e];
    }
  }

  lemma EventKeeps(s: Session, u: Session, e: Event)
    requires EventsMatch(s) && u.events == s.events + [e] && !e.Opened?
    requires u.turns == s.turns + (if e.Recorded? then [Turn(e.turnNo, e.account)] else [])
    requires u.limits == if e.Resumed? then e.limits else s.limits
    requires u.last == if e.Recorded? then Some(e.account) else s.last
    requires u.consecutive ==
      if e.Recorded? then (if s.last == Some(e.account) then s.consecutive + 1 else 1)
      else if e.Resumed? then 0
      else s.consecutive
    requires u.consecutive <= u.limits.maxConsecutive && Positive(u.limits)
    requires u.status.CLOSED? ==> e == Closed(u.turnNo)
    ensures EventsMatch(u)
  {
    EventAppended(s.events, e);
    BoundAppended(s.events, e);
    hide TurnsIn, LimitsAfter, Streak, StreaksBounded;
  }

  lemma StreakNow(s: Session)
    requires EventsMatch(s)
    ensures s.consecutive <= s.limits.maxConsecutive && Positive(s.limits)
  {
    assert s.events[..|s.events|] == s.events;
  }

  // ---------------------------------------------------------------- every command keeps it

  lemma ContributionKeeps(s: Session, c: Command)
    requires Inv(s) && c.Contribute?
    ensures Inv(ContributeTurn(s, c).0)
  {
    hide SeatsInOrder, CountersMatch, EventsMatch, Find, NextAgent;
    StreakNow(s);
    var (u, reply) := ContributeTurn(s, c);
    if reply.TurnTaken? {
      var i := Find(s.participants, c.actor).value;
      RecordKeepsCounters(s, i);
      TurnKeepsEvents(s, i);
      assert Check(s.limits, TurnStateOf(s, i, c.spent, c.now), s.participants[i].isAgent).None?;
    } else if u != s {
      PauseKeeps(s, u.pausedReason.value, c.stored);
    }
  }

  lemma TurnKeepsEvents(s: Session, i: nat)
    requires EventsMatch(s) && !s.status.CLOSED? && i < |s.participants|
    requires RecordTurn(s, i).consecutive <= s.limits.maxConsecutive
    ensures EventsMatch(RecordTurn(s, i))
  {
    EventKeeps(s, RecordTurn(s, i), Recorded(s.participants[i].account, s.turnNo + 1));
  }

  lemma PauseKeeps(s: Session, reason: Reason, stored: Stored)
    requires Inv(s) && !s.status.CLOSED?
    ensures Inv(PauseWith(s, reason, stored))
  {
    StreakNow(s);
    if stored.New? {
      EventKeeps(s, PauseWith(s, reason, stored), Paused(reason));
    }
  }

  lemma StepKeeps(s: Session, c: Command)
    requires Inv(s)
    ensures Inv(Step(s, c).0)
  {
    hide SeatsInOrder, CountersMatch, EventsMatch, ContributeTurn, Patched;
    StreakNow(s);
    match c
    case Contribute(_, _, _, _, _, _) => ContributionKeeps(s, c);
    case Join(account, isAgent, facilitator) => JoinKeeps(s, account, isAgent);
    case Pause(facilitator, stored) =>
      if s.status.OPEN? {
        PauseKeeps(s, ByFacilitator, stored);
      }
    case Resume(facilitator, patch, stored) => ResumeKeeps(s, c);
    case Close(facilitator, stored) => CloseKeeps(s, c);
  }

  lemma JoinKeeps(s: Session, a: Account, isAgent: bool)
    requires Inv(s)
    ensures Inv(s.(participants := AddParticipant(s.participants, a, isAgent).0))
  {
    JoinKeepsCounters(s, a, isAgent);
  }

  lemma ResumeKeeps(s: Session, c: Command)
    requires Inv(s) && c.Resume?
    ensures Inv(Step(s, c).0)
  {
    var u := Step(s, c).0;
    PatchIsLocal(s.limits, c.patch);
    if u != s {
      EventKeeps(s, u, Resumed(u.limits));
    }
  }

  lemma CloseKeeps(s: Session, c: Command)
    requires Inv(s) && c.Close?
    ensures Inv(Step(s, c).0)
  {
    var u := Step(s, c).0;
    StreakNow(s);
    if u != s {
      EventKeeps(s, u, Closed(s.turnNo));
    }
  }
}
