/** Whole runs of a brainstorm session: counters against the transcript, bounded streaks, the exact run length. */
module BrainstormRuns {
  import opened Common
  import opened Brainstorm

  lemma StartInv(limits: Limits, accounts: seq<(Account, bool)>, now: Time)
    requires Positive(limits)
    ensures Inv(Start(limits, accounts, now))
  {
    hide Sum, Agents;
    SeatAllInOrder(accounts);
    var e := Opened(limits);
    assert [] + [e] == [e];
    EventAppended([], e);
    BoundAppended([], e);
  }

  lemma {:induction false} RunKeeps(s: Session, cs: seq<Command>)
    requires Inv(s)
    ensures Inv(Run(s, cs))
  {
    hide Inv, Step;
    if cs == [] {
    } else {
      RunKeeps(s, cs[..|cs| - 1]);
      StepKeeps(Run(s, cs[..|cs| - 1]), cs[|cs| - 1]);
    }
  }

  /** A session some run leads to from its start with valid limits. */
  ghost predicate Reachable(s: Session) {
    exists limits, accounts, now, cs :: Positive(limits) && s == Run(Start(limits, accounts, now), cs)
  }

  lemma ReachableInv(s: Session)
    requires Reachable(s)
    ensures Inv(s)
  {
    var limits, accounts, now, cs :| Positive(limits) && s == Run(Start(limits, accounts, now), cs);
    StartInv(limits, accounts, now);
    RunKeeps(Start(limits, accounts, now), cs);
  }

  /** Nothing changes a closed session. */
  lemma {:induction false} ClosedIsFrozen(s: Session, cs: seq<Command>)
    requires s.status.CLOSED?
    ensures Run(s, cs) == s
  {
    if cs == [] {
    } else {
      ClosedIsFrozen(s, cs[..|cs| - 1]);
    }
  }

  // ---------------------------------------------------------------- streaks

  /** From event `i` to `j` the session was not resumed and nobody but `a` contributed. */
  ghost predicate Stretch(events: seq<Event>, i: nat, j: nat, a: Account)
    requires i <= j <= |events|
  {
    forall k :: i <= k < j ==>
      !events[k].Resumed? && !events[k].Opened? && (events[k].Recorded? ==> events[k].account == a)
  }

  function Contributions(events: seq<Event>, i: nat, j: nat): nat
    requires i <= j <= |events|
  {
    if i == j then 0 else Contributions(events, i, j - 1) + if events[j - 1].Recorded? then 1 else 0
  }

  /** Over a stretch the streak grows by the contributions in it, or starts with them. */
  lemma {:induction false} StretchIsStreak(events: seq<Event>, i: nat, j: nat, a: Account)
    requires i <= j <= |events| && Stretch(events, i, j, a)
    ensures LimitsAfter(events[..j]) == LimitsAfter(events[..i])
    ensures var before, n := Streak(events[..i]), Contributions(events, i, j);
      Streak(events[..j])
      == if n == 0 then before else (Some(a), n + if before.0 == Some(a) then before.1 else 0)
  {
    if i == j {
    } else {
      StretchIsStreak(events, i, j - 1, a);
      assert events[..j] == events[..j - 1] + [events[j - 1]];
      EventAppended(events[..j - 1], events[j - 1]);
    }
  }

  /** Where the stretch of `a` that ends at event `j` began: no earlier event belongs to it. */
  function StretchStart(events: seq<Event>, j: nat, a: Account): (i: nat)
    requires j <= |events|
    ensures i <= j && Stretch(events, i, j, a) && (i > 0 ==> !Stretch(events, i - 1, j, a))
  {
    if j == 0 then 0
    else
      var e := events[j - 1];
      if e.Resumed? || e.Opened? || (e.Recorded? && e.account != a) then j else StretchStart(events, j - 1, a)
  }

  lemma {:induction false} LastIsLastTurn(events: seq<Event>)
    ensures var turns := TurnsIn(events);
      Streak(events).0 == if turns == [] then None else Some(turns[|turns| - 1].account)
    ensures Streak(events).0.None? ==> Streak(events).1 == 0
  {
    if events == [] {
    } else {
      LastIsLastTurn(events[..|events| - 1]);
    }
  }

  /** What ends the stretch of `a` just before event `i`. */
  lemma BeforeStretch(events: seq<Event>, i: nat, j: nat, a: Account)
    requires OpenedFirst(events) && 0 < i <= j <= |events|
    requires Stretch(events, i, j, a) && !Stretch(events, i - 1, j, a)
    ensures Streak(events[..i]).0 != Some(a) || Streak(events[..i]).1 == 0
  {
    hide Streak, LimitsAfter, TurnsIn;
    var e := events[i - 1];
    assert e.Resumed? || e.Opened? || (e.Recorded? && e.account != a);
    assert events[..i] == events[..i - 1] + [e];
    EventAppended(events[..i - 1], e);
    if e.Opened? {
      assert events[..i - 1] == [];
      NoStreak();
    }
  }

  lemma NoStreak()
    ensures Streak([]) == (None, 0)
  {
  }

  /** The streak of the last contributor is its contributions since its stretch began. */
  lemma StreakSinceStart(events: seq<Event>, a: Account)
    requires OpenedFirst(events) && Streak(events).0 == Some(a)
    ensures Streak(events).1 == Contributions(events, StretchStart(events, |events|, a), |events|)
  {
    hide *;
    var i, n := StretchStart(events, |events|, a), |events|;
    StretchIsStreak(events, i, n, a);
    assert events[..n] == events;
    if i > 0 {
      BeforeStretch(events, i, n, a);
    } else {
      assert events[..0] == [];
      NoStreak();
    }
  }

  /**
   The counters are what the transcript says, through joins, pauses and resumes; the consecutive count is how often
   the last contributor has spoken since anybody else did or the session was resumed.
   */
  lemma CountersAreTheTranscript(s: Session)
    requires Reachable(s)
    ensures s.turnNo == |s.turns| == Sum(s.participants) && s.turns == TurnsIn(s.events)
    ensures s.turnIndex == Sum(Agents(s.participants))
    ensures forall i :: 0 <= i < |s.turns| ==> s.turns[i].seqNo == i + 1
    ensures forall i :: 0 <= i < |s.participants| ==>
      s.participants[i].seat == i && s.participants[i].taken == TurnsBy(s.turns, s.participants[i].account)
    ensures s.last == if s.turns == [] then None else Some(s.turns[|s.turns| - 1].account)
    ensures s.consecutive == if s.last.None? then 0
      else Contributions(s.events, StretchStart(s.events, |s.events|, s.last.value), |s.events|)
    ensures forall i, j :: 0 <= i < j < |s.participants| ==> s.participants[i].account != s.participants[j].account
    ensures s.status.CLOSED? ==> s.events != [] && s.events[|s.events| - 1] == Closed(|s.turns|)
  {
    ReachableInv(s);
    LastIsLastTurn(s.events);
    if s.last.Some? {
      StreakSinceStart(s.events, s.last.value);
    }
    hide StreaksBounded, Contributions, StretchStart, Streak, TurnsIn;
  }

  /** Without a resume in between, nobody contributes more often in a row than the limit then in force allows. */
  lemma StretchBounded(s: Session, i: nat, j: nat, a: Account)
    requires Reachable(s) && i <= j <= |s.events| && Stretch(s.events, i, j, a)
    ensures Contributions(s.events, i, j) <= LimitsAfter(s.events[..i]).maxConsecutive
  {
    ReachableInv(s);
    StretchIsStreak(s.events, i, j, a);
    assert Streak(s.events[..j]).1 <= LimitsAfter(s.events[..j]).maxConsecutive;
    if Contributions(s.events, i, j) == 0 {
      assert Streak(s.events[..i]).1 <= LimitsAfter(s.events[..i]).maxConsecutive;
    }
  }

  // ---------------------------------------------------------------- what an Agent is told

  /** `remaining_turns`. */
  function RemainingTurns(s: Session, p: Participant): int {
    var forAgent := if s.limits.turnsPerAgent != 0 then Max(s.limits.turnsPerAgent - p.taken, 0) else 0x4000_0000;
    var inTotal := if s.limits.totalTurns != 0 then Max(s.limits.totalTurns - s.turnNo, 0) else 0x4000_0000;
    if forAgent <= inTotal then forAgent else inTotal
  }

  function Max(a: int, b: int): int {
    if a >= b then a else b
  }

  /** An Agent is told that no turn remains exactly when a turn limit would stop its next contribution. */
  lemma NoTurnsRemainExactly(s: Session, i: nat, spent: int, now: Time)
    requires Reachable(s) && i < |s.participants| && s.participants[i].isAgent
    ensures var breach := Check(s.limits, TurnStateOf(s, i, spent, now).(isLast := false), true);
      RemainingTurns(s, s.participants[i]) == 0
      <==> breach == Some(TURNS_PER_AGENT_EXCEEDED) || breach == Some(TOTAL_TURNS_EXCEEDED)
  {
    ReachableInv(s);
  }

  // ---------------------------------------------------------------- the round robin

  /** The row of the `i`-th Agent. */
  function RowOf(ps: seq<Participant>, i: nat): (j: nat)
    requires i < |Agents(ps)|
    ensures j < |ps| && ps[j].isAgent && ps[j] == Agents(ps)[i] && |Agents(ps[..j])| == i
  {
    var n := |ps| - 1;
    if ps[n].isAgent && i == |Agents(ps)| - 1 then n
    else
      var j := RowOf(ps[..n], i);
      assert ps[..n][..j] == ps[..j];
      j
  }

  /** Turns an Agent at place `i` of `n` has after `k` rounds-robin turns. */
  function Share(k: nat, n: nat, i: nat): nat
    requires n > 0
  {
    k / n + if i < k % n then 1 else 0
  }

  lemma NextTurn(k: nat, n: nat)
    requires n > 0
    ensures if k % n + 1 < n then (k + 1) / n == k / n && (k + 1) % n == k % n + 1
            else (k + 1) / n == k / n + 1 && (k + 1) % n == 0
  {
    var q, r := k / n, k % n;
    assert k == n * q + r;
    if r + 1 < n {
      Quotient(k + 1, n, q, r + 1);
    } else {
      assert n * (q + 1) == n * q + n;
      Quotient(k + 1, n, q + 1, 0);
    }
  }

  lemma {:induction false} Multiples(n: nat, a: nat, b: nat)
    ensures a < b ==> n * a + n <= n * b
    ensures a <= b ==> n * a <= n * b
  {
    if a >= b {
    } else {
      Multiples(n, a, b - 1);
      assert n * b == n * (b - 1) + n;
    }
  }

  lemma Quotient(k: nat, n: nat, q: nat, r: nat)
    requires r < n && k == n * q + r
    ensures k / n == q && k % n == r
  {
    assert k == n * (k / n) + k % n;
    Multiples(n, k / n, q);
    Multiples(n, q, k / n);
  }

  lemma ShareStep(k: nat, n: nat, i: nat)
    requires n > 0 && i < n
    ensures Share(k + 1, n, i) == Share(k, n, i) + if i == k % n then 1 else 0
  {
    NextTurn(k, n);
  }

  /** Every Agent is still under its limit at turn `k` exactly while `k` is below `n` times the limit. */
  lemma UnderLimit(k: nat, n: nat, limit: nat)
    requires n > 0
    ensures Share(k, n, k % n) == k / n
    ensures k < n * limit <==> k / n < limit
  {
    assert k == n * (k / n) + k % n;
    Multiples(n, k / n, limit);
    Multiples(n, limit, k / n);
  }

  /** A contribution by `a` that is complete and new; costs and clock do not matter without those limits. */
  ghost predicate ContributionBy(c: Command, a: Account) {
    c.Contribute? && c.actor == a && c.bodyGiven && c.kind.Known? && c.stored.New?
  }

  /** Command `k` comes from the Agent at place `k` modulo the number of Agents. */
  ghost predicate InTurn(cs: seq<Command>, agents: seq<Participant>) {
    |agents| > 0 && forall k :: 0 <= k < |cs| ==> ContributionBy(cs[k], agents[k % |agents|].account)
  }

  /** No turn taken, no budget and no time limit, at least two Agents. */
  ghost predicate Untouched(s: Session) {
    && Inv(s) && s.status.OPEN? && s.turnNo == 0 && s.limits.budget == 0 && s.limits.minutes == 0
    && |Agents(s.participants)| >= 2
    && s.last.None? && s.consecutive == 0
  }

  function RunLength(limits: Limits, n: nat): int {
    if n * limits.turnsPerAgent <= limits.totalTurns then n * limits.turnsPerAgent else limits.totalTurns
  }

  /** The session after `k` in-turn turns of `s`. */
  ghost predicate After(s: Session, u: Session, k: nat) {
    var agents := Agents(s.participants);
    && Inv(u) && u.status.OPEN? && u.turnNo == u.turnIndex == k && u.limits == s.limits
    && |Agents(u.participants)| == |agents| >= 2
    && (forall i :: 0 <= i < |agents| ==>
          Agents(u.participants)[i].account == agents[i].account
          && Agents(u.participants)[i].taken == Share(k, |agents|, i))
    && u.last == (if k == 0 then None else Some(agents[(k - 1) % |agents|].account))
  }

  lemma DistinctAgents(ps: seq<Participant>, i: nat, j: nat)
    requires SeatsInOrder(ps) && i < |Agents(ps)| && j < |Agents(ps)| && i != j
    ensures Agents(ps)[i].account != Agents(ps)[j].account
  {
    assert ps[RowOf(ps, i)] == Agents(ps)[i] && ps[RowOf(ps, j)] == Agents(ps)[j];
  }

  lemma ZeroTaken(s: Session, i: nat)
    requires Inv(s) && s.turnNo == 0 && i < |Agents(s.participants)|
    ensures Agents(s.participants)[i].taken == 0
  {
    var j := RowOf(s.participants, i);
    NoTurns(s.turns, s.participants[j].account);
  }

  lemma UntouchedIsAfter(s: Session)
    requires Untouched(s)
    ensures After(s, s, 0)
  {
    forall i | 0 <= i < |Agents(s.participants)| ensures Agents(s.participants)[i].taken == 0 {
      ZeroTaken(s, i);
    }
    assert Sum(Agents(s.participants)) == 0 by {
      NoneTaken(Agents(s.participants));
    }
    hide Inv;
  }

  lemma {:induction false} NoneTaken(ps: seq<Participant>)
    requires forall i :: 0 <= i < |ps| ==> ps[i].taken == 0
    ensures Sum(ps) == 0
  {
    if ps == [] {
    } else {
      NoneTaken(ps[..|ps| - 1]);
    }
  }

  lemma FindRow(ps: seq<Participant>, j: nat)
    requires SeatsInOrder(ps) && j < |ps|
    ensures Find(ps, ps[j].account) == Some(j)
  {
    var k := Find(ps, ps[j].account).value;
    assert ps[k].account == ps[j].account;
  }

  /** The Agent whose turn it is; it is never the one who spoke last. */
  lemma Whose(s: Session, u: Session, k: nat)
    requires After(s, u, k)
    ensures var n := |Agents(s.participants)|;
      && k % n < n
      && NextAgent(u) == Some(Agents(u.participants)[k % n])
      && u.last != Some(Agents(s.participants)[k % n].account)
  {
    var n := |Agents(s.participants)|;
    if k > 0 {
      NextTurn(k - 1, n);
      DistinctAgents(u.participants, (k - 1) % n, k % n);
    }
  }

  /** What the limit check says to the Agent in turn. */
  lemma CheckInTurn(s: Session, u: Session, k: nat, spent: int, now: Time)
    requires After(s, u, k) && s.limits.budget == 0 && s.limits.minutes == 0
    ensures var n := |Agents(s.participants)|;
      var j := RowOf(u.participants, k % n);
      Check(u.limits, TurnStateOf(u, j, spent, now), true)
      == if k >= n * s.limits.turnsPerAgent then Some(TURNS_PER_AGENT_EXCEEDED)
         else if k >= s.limits.totalTurns then Some(TOTAL_TURNS_EXCEEDED)
         else None
  {
    var n := |Agents(s.participants)|;
    Whose(s, u, k);
    StreakNow(u);
    UnderLimit(k, n, s.limits.turnsPerAgent);
  }

  /** One in-turn contribution is accepted and moves the cursor on. */
  lemma TurnAccepted(s: Session, u: Session, k: nat, c: Command)
    requires After(s, u, k) && s.limits.budget == 0 && s.limits.minutes == 0
    requires k < RunLength(s.limits, |Agents(s.participants)|)
    requires ContributionBy(c, Agents(s.participants)[k % |Agents(s.participants)|].account)
    ensures Step(u, c).1 == TurnTaken(k + 1) && After(s, Step(u, c).0, k + 1)
  {
    var n := |Agents(s.participants)|;
    var j := RowOf(u.participants, k % n);
    Whose(s, u, k);
    FindRow(u.participants, j);
    CheckInTurn(s, u, k, c.spent, c.now);
    hide Check, NextAgent, Inv, RowOf;
    assert Step(u, c) == (RecordTurn(u, j), TurnTaken(k + 1));
    StepKeeps(u, c);
    RecordMoves(s, u, k, j);
  }

  lemma AgentsMove(s: Session, u: Session, k: nat, j: nat)
    requires After(s, u, k) && j < |u.participants|
    requires j == RowOf(u.participants, k % |Agents(s.participants)|)
    ensures var n, i := |Agents(s.participants)|, k % |Agents(s.participants)|;
      var p := Agents(u.participants)[i];
      Agents(RecordTurn(u, j).participants) == Agents(u.participants)[i := p.(taken := p.taken + 1)]
      && u.participants[j] == p && p.isAgent
  {
    hide Inv;
    var p := u.participants[j];
    AgentsUpdate(u.participants, j, p.(taken := p.taken + 1));
  }

  lemma RecordMoves(s: Session, u: Session, k: nat, j: nat)
    requires After(s, u, k) && j < |u.participants| && Inv(RecordTurn(u, j))
    requires j == RowOf(u.participants, k % |Agents(s.participants)|)
    ensures After(s, RecordTurn(u, j), k + 1)
  {
    hide Inv, Share, Agents, RowOf;
    var n := |Agents(s.participants)|;
    AgentsMove(s, u, k, j);
    forall i | 0 <= i < n ensures Share(k + 1, n, i) == Share(k, n, i) + if i == k % n then 1 else 0 {
      ShareStep(k, n, i);
    }
  }

  lemma TurnBreaches(s: Session, u: Session, k: nat, c: Command)
    requires After(s, u, k) && s.limits.budget == 0 && s.limits.minutes == 0
    requires k == RunLength(s.limits, |Agents(s.participants)|)
    requires ContributionBy(c, Agents(s.participants)[k % |Agents(s.participants)|].account)
    ensures var code := if |Agents(s.participants)| * s.limits.turnsPerAgent <= s.limits.totalTurns
      then TURNS_PER_AGENT_EXCEEDED else TOTAL_TURNS_EXCEEDED;
      Step(u, c) == (PauseWith(u, ByBreach(code), New), Rejected(Breached(code)))
  {
    var n := |Agents(s.participants)|;
    var j := RowOf(u.participants, k % n);
    FindRow(u.participants, j);
    CheckInTurn(s, u, k, c.spent, c.now);
    hide Check, NextAgent, Inv, RowOf;
  }

  lemma {:induction false} InTurnRun(s: Session, cs: seq<Command>)
    requires Untouched(s) && InTurn(cs, Agents(s.participants))
    requires |cs| <= RunLength(s.limits, |Agents(s.participants)|)
    ensures After(s, Run(s, cs), |cs|)
  {
    if cs == [] {
      UntouchedIsAfter(s);
    } else {
      var rest, k := cs[..|cs| - 1], |cs| - 1;
      hide Untouched, After, Step, RunLength;
      assert InTurn(rest, Agents(s.participants));
      InTurnRun(s, rest);
      TurnAcceptedFrom(s, Run(s, rest), k, cs[k]);
    }
  }

  lemma TurnAcceptedFrom(s: Session, u: Session, k: nat, c: Command)
    requires Untouched(s) && After(s, u, k) && k + 1 <= RunLength(s.limits, |Agents(s.participants)|)
    requires |Agents(s.participants)| > 0
    requires ContributionBy(c, Agents(s.participants)[k % |Agents(s.participants)|].account)
    ensures After(s, Step(u, c).0, k + 1)
  {
    TurnAccepted(s, u, k, c);
  }

  ghost predicate AllAccepted(s: Session, cs: seq<Command>, m: nat)
    requires m <= |cs|
  {
    forall k :: 0 <= k < m ==> Step(Run(s, cs[..k]), cs[k]).1 == TurnTaken(k + 1)
  }

  /** No Agent is more than one turn ahead of another. */
  ghost predicate Even(agents: seq<Participant>) {
    forall i, j :: 0 <= i < |agents| && 0 <= j < |agents| ==> agents[i].taken <= agents[j].taken + 1
  }

  lemma AfterIsEven(s: Session, u: Session, k: nat)
    requires After(s, u, k)
    ensures Even(Agents(u.participants)) && u.turnNo == k
  {
    hide Inv, Agents;
  }

  /**
   In-turn contributions alone: every one of the first min(total, n * turns per Agent) is accepted and the next one
   breaches the per-Agent limit if that product is the smaller bound and the total otherwise; the consecutive limit
   is never what stops them. Turn `k` is the Agent's at place `k` modulo `n`, and shares stay even.
   */
  lemma ExactRunLength(s: Session, cs: seq<Command>)
    requires Untouched(s) && InTurn(cs, Agents(s.participants))
    requires |cs| == RunLength(s.limits, |Agents(s.participants)|) + 1
    ensures AllAccepted(s, cs, |cs| - 1)
    ensures Even(Agents(Run(s, cs[..|cs| - 1]).participants)) && Run(s, cs[..|cs| - 1]).turnNo == |cs| - 1
    ensures Step(Run(s, cs[..|cs| - 1]), cs[|cs| - 1]).1 == Rejected(Breached(
      if |Agents(s.participants)| * s.limits.turnsPerAgent <= s.limits.totalTurns
      then TURNS_PER_AGENT_EXCEEDED else TOTAL_TURNS_EXCEEDED))
    ensures Run(s, cs).status.PAUSED? && Run(s, cs).turns == Run(s, cs[..|cs| - 1]).turns
  {
    var agents, m := Agents(s.participants), |cs| - 1;
    forall k | 0 <= k < m ensures Step(Run(s, cs[..k]), cs[k]).1 == TurnTaken(k + 1) {
      assert InTurn(cs[..k], agents);
      InTurnRun(s, cs[..k]);
      TurnAccepted(s, Run(s, cs[..k]), k, cs[k]);
    }
    assert InTurn(cs[..m], agents);
    InTurnRun(s, cs[..m]);
    AfterIsEven(s, Run(s, cs[..m]), m);
    TurnBreaches(s, Run(s, cs[..m]), m, cs[m]);
    hide Untouched, InTurn, Inv, Step, RunLength, Agents, After;
  }

  // ---------------------------------------------------------------- any run without new Agents

  /** The contributors of the turns taken by these accounts, in order. */
  function TurnsOf(turns: seq<Turn>, accounts: set<Account>): seq<Account> {
    if turns == [] then []
    else
      var t, rest := turns[|turns| - 1], TurnsOf(turns[..|turns| - 1], accounts);
      if t.account in accounts then rest + [t.account] else rest
  }

  function Accounts(agents: seq<Participant>): set<Account> {
    set p | p in agents :: p.account
  }

  /** Agent turn `j` was taken by the Agent at place `j` modulo `n`, and the counts say so. */
  ghost predicate RoundRobin(agents: seq<Participant>, u: Session)
    requires agents != []
  {
    && |Agents(u.participants)| == |agents|
    && (forall i :: 0 <= i < |agents| ==>
          Agents(u.participants)[i].account == agents[i].account
          && Agents(u.participants)[i].taken == Share(u.turnIndex, |agents|, i))
    && |TurnsOf(u.turns, Accounts(agents))| == u.turnIndex
    && forall j :: 0 <= j < u.turnIndex ==> TurnsOf(u.turns, Accounts(agents))[j] == agents[j % |agents|].account
  }

  ghost predicate HasAccount(agents: seq<Participant>, a: Account) {
    exists i :: 0 <= i < |agents| && agents[i].account == a
  }

  lemma SameAccounts(agents: seq<Participant>, now: seq<Participant>, a: Account)
    requires |agents| == |now| && forall i :: 0 <= i < |agents| ==> now[i].account == agents[i].account
    ensures a in Accounts(agents) <==> HasAccount(now, a)
  {
    if a in Accounts(agents) {
      var p :| p in agents && p.account == a;
      var i :| 0 <= i < |agents| && agents[i] == p;
      assert now[i].account == a;
    }
    if HasAccount(now, a) {
      var i :| 0 <= i < |now| && now[i].account == a;
      assert agents[i] in agents;
    }
  }

  /** A row is an Agent's exactly when its account is among the Agents' accounts. */
  lemma RowIsAgent(ps: seq<Participant>, j: nat)
    requires SeatsInOrder(ps) && j < |ps|
    ensures ps[j].isAgent <==> HasAccount(Agents(ps), ps[j].account)
    ensures ps[j].isAgent ==> |Agents(ps[..j])| < |Agents(ps)| && Agents(ps)[|Agents(ps[..j])|] == ps[j]
  {
    AgentsUpdate(ps, j, ps[j]);
    if HasAccount(Agents(ps), ps[j].account) {
      var i :| 0 <= i < |Agents(ps)| && Agents(ps)[i].account == ps[j].account;
      var k := RowOf(ps, i);
      FindRow(ps, k);
      FindRow(ps, j);
    }
  }

  lemma TurnAppended(turns: seq<Turn>, t: Turn, accounts: set<Account>)
    ensures TurnsOf(turns + [t], accounts)
      == TurnsOf(turns, accounts) + if t.account in accounts then [t.account] else []
  {
    assert (turns + [t])[..|turns|] == turns;
  }

  /** What one turn does to the Agents and to their turns. */
  lemma TurnMoves(agents: seq<Participant>, u: Session, j: nat)
    requires agents != [] && Inv(u) && RoundRobin(agents, u) && j < |u.participants|
    requires u.participants[j].isAgent ==> NextAgent(u).Some? && NextAgent(u).value.account == u.participants[j].account
    ensures var v, i := RecordTurn(u, j), u.turnIndex % |agents|;
      var before, who := Agents(u.participants), Accounts(agents);
      if u.participants[j].isAgent then
        && v.turnIndex == u.turnIndex + 1 && u.participants[j].account == agents[i].account
        && Agents(v.participants) == before[i := before[i].(taken := before[i].taken + 1)]
        && TurnsOf(v.turns, who) == TurnsOf(u.turns, who) + [agents[i].account]
      else
        && v.turnIndex == u.turnIndex && Agents(v.participants) == before
        && TurnsOf(v.turns, who) == TurnsOf(u.turns, who)
  {
    hide *;
    PlaceOfTurn(agents, u, j);
    AgentsAfter(u, j);
    TurnsAfter(u, j, Accounts(agents));
  }

  lemma AgentsAfter(u: Session, j: nat)
    requires j < |u.participants|
    ensures var v, p, at := RecordTurn(u, j), u.participants[j], |Agents(u.participants[..j])|;
      if p.isAgent then
        && v.turnIndex == u.turnIndex + 1 && at < |Agents(u.participants)| && Agents(u.participants)[at] == p
        && Agents(v.participants) == Agents(u.participants)[at := p.(taken := p.taken + 1)]
      else v.turnIndex == u.turnIndex && Agents(v.participants) == Agents(u.participants)
  {
    var p := u.participants[j];
    AgentsUpdate(u.participants, j, p.(taken := p.taken + 1));
    hide Agents;
  }

  lemma TurnsAfter(u: Session, j: nat, who: set<Account>)
    requires j < |u.participants|
    ensures var p := u.participants[j];
      TurnsOf(RecordTurn(u, j).turns, who)
      == if p.account in who then TurnsOf(u.turns, who) + [p.account] else TurnsOf(u.turns, who)
  {
    TurnAppended(u.turns, Turn(u.turnNo + 1, u.participants[j].account), who);
    hide TurnsOf;
  }

  /** The Agent speaking sits where the cursor points; anyone else is no Agent at all. */
  lemma PlaceOfTurn(agents: seq<Participant>, u: Session, j: nat)
    requires agents != [] && Inv(u) && RoundRobin(agents, u) && j < |u.participants|
    requires u.participants[j].isAgent ==> NextAgent(u).Some? && NextAgent(u).value.account == u.participants[j].account
    ensures |Agents(u.participants)| == |agents|
    ensures u.participants[j].isAgent <==> u.participants[j].account in Accounts(agents)
    ensures u.participants[j].isAgent ==>
      var i := u.turnIndex % |agents|;
      |Agents(u.participants[..j])| == i && agents[i].account == u.participants[j].account
  {
    hide Share, TurnsOf, Find;
    RowIsAgent(u.participants, j);
    SameAccounts(agents, Agents(u.participants), u.participants[j].account);
    if u.participants[j].isAgent {
      var at, i := |Agents(u.participants[..j])|, u.turnIndex % |agents|;
      if at != i {
        DistinctAgents(u.participants, at, i);
      }
    }
  }

  lemma TurnKeepsRobin(agents: seq<Participant>, u: Session, j: nat)
    requires agents != [] && Inv(u) && RoundRobin(agents, u) && j < |u.participants|
    requires u.participants[j].isAgent ==> NextAgent(u).Some? && NextAgent(u).value.account == u.participants[j].account
    ensures RoundRobin(agents, RecordTurn(u, j))
  {
    hide Inv, Share, Agents, TurnsOf, HasAccount, Accounts, Find, RecordTurn, NextAgent;
    TurnMoves(agents, u, j);
    var n, i := |agents|, u.turnIndex % |agents|;
    forall k | 0 <= k < n ensures Share(u.turnIndex + 1, n, k) == Share(u.turnIndex, n, k) + if k == i then 1 else 0 {
      ShareStep(u.turnIndex, n, k);
    }
  }

  /** Rows and cursor untouched, the same Agents: the rotation stands. */
  lemma SameTurnsKeepRobin(agents: seq<Participant>, u: Session, v: Session)
    requires agents != [] && RoundRobin(agents, u)
    requires v.turns == u.turns && v.turnIndex == u.turnIndex && Agents(v.participants) == Agents(u.participants)
    ensures RoundRobin(agents, v)
  {
    hide Agents, Share, TurnsOf, Accounts;
  }

  lemma ContributionKeepsRobin(agents: seq<Participant>, u: Session, c: Command)
    requires agents != [] && Inv(u) && RoundRobin(agents, u) && c.Contribute?
    ensures RoundRobin(agents, ContributeTurn(u, c).0)
  {
    hide Inv, Check, Share, TurnsOf, RoundRobin, RecordTurn, Agents, Accounts;
    var (v, reply) := ContributeTurn(u, c);
    if reply.TurnTaken? {
      var j := Find(u.participants, c.actor).value;
      AgentsExist(u, j);
      TurnKeepsRobin(agents, u, j);
    } else {
      SameTurnsKeepRobin(agents, u, v);
    }
  }

  lemma AgentsExist(u: Session, j: nat)
    requires Inv(u) && j < |u.participants|
    ensures u.participants[j].isAgent ==> NextAgent(u).Some?
  {
    RowIsAgent(u.participants, j);
  }

  lemma StepKeepsRobin(agents: seq<Participant>, u: Session, c: Command)
    requires agents != [] && Inv(u) && RoundRobin(agents, u) && !(c.Join? && c.isAgent)
    ensures RoundRobin(agents, Step(u, c).0)
  {
    hide Inv, Share, TurnsOf, RoundRobin, Agents, Accounts, ContributeTurn, Patched, AddParticipant;
    if c.Contribute? {
      ContributionKeepsRobin(agents, u, c);
    } else {
      if c.Join? {
        HumanJoins(u.participants, c.account);
      }
      SameTurnsKeepRobin(agents, u, Step(u, c).0);
    }
  }

  lemma HumanJoins(ps: seq<Participant>, a: Account)
    ensures Agents(AddParticipant(ps, a, false).0) == Agents(ps)
  {
    var rows := AddParticipant(ps, a, false).0;
    if rows != ps {
      assert rows[..|ps|] == ps;
    }
  }

  /**
   Whatever happens in a session that no further Agent joins (people speaking, pauses, resumes, breaches, attempts out
   of turn), Agent turn `j` belongs to the Agent at place `j` modulo `n` and the Agents' counts stay even.
   */
  lemma {:induction false} AgentTurnsRotate(s: Session, cs: seq<Command>)
    requires Inv(s) && s.turnNo == 0 && Agents(s.participants) != []
    requires forall i :: 0 <= i < |cs| ==> !(cs[i].Join? && cs[i].isAgent)
    ensures RoundRobin(Agents(s.participants), Run(s, cs))
    ensures Even(Agents(Run(s, cs).participants))
  {
    if cs == [] {
      NothingTaken(s);
    } else {
      AgentTurnsRotate(s, cs[..|cs| - 1]);
      RunKeeps(s, cs[..|cs| - 1]);
      StepKeepsRobin(Agents(s.participants), Run(s, cs[..|cs| - 1]), cs[|cs| - 1]);
    }
    RobinIsEven(Agents(s.participants), Run(s, cs));
  }

  lemma RobinIsEven(agents: seq<Participant>, u: Session)
    requires agents != [] && RoundRobin(agents, u)
    ensures Even(Agents(u.participants))
  {
    hide Agents, TurnsOf;
  }

  lemma NothingTaken(s: Session)
    requires Inv(s) && s.turnNo == 0 && Agents(s.participants) != []
    ensures RoundRobin(Agents(s.participants), s)
  {
    forall i | 0 <= i < |Agents(s.participants)| ensures Agents(s.participants)[i].taken == 0 {
      ZeroTaken(s, i);
    }
    NoneTaken(Agents(s.participants));
  }
}
