/**
 From the request to any later moment of a run: the terms that were asked for are the terms that hold, every vote came
 from somebody entitled to it, every use lay within the terms, and each refusal names the first thing in the way.
 */
module ApprovalTerms {
  import opened Common
  import opened ApprovalModel
  import opened ApprovalInvariants
  import opened ApprovalRuns

  // ---------------------------------------------------------------- the terms of a request

  const DAY: Time := 24 * 3600 * 1_000_000

  function Severity(r: Risk): nat {
    match r case LOW => 0 case MEDIUM => 1 case HIGH => 2 case CRITICAL => 3
  }

  /** The duration a request asks for. */
  function AskedFor(r: Request): Time {
    if r.validFor == None || r.validFor == Some(0) then DAY else r.validFor.value
  }

  /** The risk is one of the two given and no lower than the other. */
  ghost predicate Graver(r: Request, risk: Risk) {
    && (risk == r.catalogRisk || r.risk == Some(risk))
    && Severity(r.catalogRisk) <= Severity(risk) && (r.risk.Some? ==> Severity(r.risk.value) <= Severity(risk))
  }

  /** The grant has the terms request `r` asked for when it was read at `at`. */
  ghost predicate TermsOf(r: Request, at: Time, g: Grant) {
    && g.subject == r.subject && g.requestedBy == r.requestedBy && g.implementing == r.implementing
    && g.requiresHuman == r.requiresHuman && Graver(r, g.risk)
    && g.validFrom == at && g.expiresAt == at + AskedFor(r)
    && (match r.maxUses case None => g.maxUses == None case Some(n) => n > 0 && g.maxUses == Some(n))
    && g.quorum == (if g.risk.CRITICAL? then 2 else if g.risk.LOW? && !g.requiresHuman then 0 else 1)
  }

  /** A request is accepted exactly with sensible terms and a store that takes it, and then it has just those terms. */
  lemma OpensExactly(r: Request, o: Origin)
    ensures Open(r, o).Ok? <==>
      (r.maxUses.Some? ==> r.maxUses.value > 0) && (r.validFor.Some? ==> r.validFor.value >= 0) && !o.refused
    ensures Open(r, o) == Err(MAX_USES_INVALID) <==> r.maxUses.Some? && r.maxUses.value <= 0
    ensures Open(r, o) == Err(VALIDITY_INVALID) <==>
      (r.maxUses.Some? ==> r.maxUses.value > 0) && r.validFor.Some? && r.validFor.value < 0
    ensures Open(r, o) == Err(EVENT_REFUSED) <==>
      (r.maxUses.Some? ==> r.maxUses.value > 0) && (r.validFor.Some? ==> r.validFor.value >= 0) && o.refused
    ensures Open(r, o).Ok? ==>
      var a := Open(r, o).value;
      && TermsOf(r, o.at, a.grant) && a.grant.status.Pending? && a.decisions == [] && a.consumptions == []
      && |a.stream| == 1 && a.stream[0].actor == r.requestedBy && a.stream[0].at == o.at
  {
    assert FindKey([], r.requestedBy, OnRequest, o.key).None?;
  }

  /** The terms a request asked for hold after any run. */
  lemma TermsStay(r: Request, o: Origin, cs: seq<Command>, humans: set<Account>)
    requires Open(r, o).Ok?
    ensures TermsOf(r, o.at, Run(Open(r, o).value, cs, humans).grant)
  {
    OpensExactly(r, o);
    OpenEstablishes(r, o, humans);
    hide Inv, Open, Run, Graver;
    RunExtends(Open(r, o).value, cs, humans);
  }

  // ---------------------------------------------------------------- the event store

  /** The event was recorded for the same sender, kind of command and key. */
  predicate RecordedFor(e: Event, o: Origin, body: Body) {
    e.actor == o.actor && e.scope == ScopeOf(body) && e.key == o.key
  }

  ghost predicate OncePerKey(stream: seq<Event>) {
    forall i, j :: 0 <= i < j < |stream| ==>
      !(stream[i].actor == stream[j].actor && stream[i].scope == stream[j].scope && stream[i].key == stream[j].key)
  }

  /** The next event of a stream, as the sender asked for it. */
  predicate NextFor(stream: seq<Event>, o: Origin, body: Body, e: Event) {
    RecordedFor(e, o, body) && e.body == body && e.seqNo == |stream| + 1 && e.id == o.id && e.at == o.at
  }

  /**
   An append under a key used before returns the event on record and adds nothing, or conflicts with it; under a new
   key it adds the next event where the store takes it and the stream is as long as the sender expects.
   */
  lemma AppendExactly(stream: seq<Event>, expectedSeq: nat, o: Origin, body: Body)
    requires OncePerKey(stream)
    ensures var r := Append(stream, expectedSeq, o, body);
      && (forall i :: 0 <= i < |stream| && RecordedFor(stream[i], o, body) ==>
            r == if stream[i].body == body then Ok(Appended(stream, stream[i])) else Err(IDEMPOTENCY_CONFLICT))
      && ((forall i :: 0 <= i < |stream| ==> !RecordedFor(stream[i], o, body)) ==>
            if o.refused then r == Err(EVENT_REFUSED)
            else if expectedSeq != |stream| + 1 then r == Err(SEQUENCE_CONFLICT)
            else r.Ok? && r.value.stream == stream + [r.value.event] && NextFor(stream, o, body, r.value.event))
  {
    var found := FindKey(stream, o.actor, ScopeOf(body), o.key);
    if i :| 0 <= i < |stream| && RecordedFor(stream[i], o, body) {
      assert SameIdempotencyKey(stream[i], o.actor, ScopeOf(body), o.key);
      var j :| 0 <= j < |stream| && stream[j] == found.value;
    }
  }

  lemma AppendKeepsKeys(stream: seq<Event>, expectedSeq: nat, o: Origin, body: Body)
    requires OncePerKey(stream) && Append(stream, expectedSeq, o, body).Ok?
    ensures OncePerKey(Append(stream, expectedSeq, o, body).value.stream)
  {
  }

  lemma RecordKeepsKeys(a: Aggregate, o: Origin, body: Body, decision: Option<bool>)
    requires OncePerKey(a.stream) && Record(a, o, body, decision).Ok?
    ensures OncePerKey(Record(a, o, body, decision).value.stream)
  {
    hide Append, NextStatus, Deciders, OncePerKey;
    AppendKeepsKeys(a.stream, a.grant.aggregateSeq + 1, o, body);
  }

  lemma CommandKeepsKeys(a: Aggregate, c: Command, humans: set<Account>)
    requires OncePerKey(a.stream)
    ensures OncePerKey(Apply(a, c, humans).stream)
  {
    hide Append, Record, NextStatus, Deciders, OncePerKey, CheckEligibility, DeciderSet, FindConsumption;
    match c
    case Vote(approve, p, now, o) =>
      var who := CheckEligibility(a.grant, DeciderSet(a.decisions), p, humans);
      if who.Ok? {
        var voter, body := o.(actor := who.value),
          if approve then GrantedEvent(|DeciderSet(a.decisions)| + 1) else RejectedEvent;
        if Record(a, voter, body, Some(approve)).Ok? {
          RecordKeepsKeys(a, voter, body, Some(approve));
        }
      }
    case Withdraw(revoke, o) => EndingKeepsKeys(a, if revoke then Revoke else Cancel, o);
    case Sweep(now, o, escalation) =>
      EndingKeepsKeys(a, Lapse, o);
      if Terminate(a, Lapse, o).Ok? {
        var b := Terminate(a, Lapse, o).value;
        if Append(b.stream, b.grant.aggregateSeq + 1, escalation, EscalatedEvent).Ok? {
          AppendKeepsKeys(b.stream, b.grant.aggregateSeq + 1, escalation, EscalatedEvent);
        }
      }
    case Use(key, consumedFor, now, o) =>
      var body := ConsumedEvent(key, |a.consumptions| + 1);
      if Append(a.stream, a.grant.aggregateSeq + 1, o.(key := key), body).Ok? {
        AppendKeepsKeys(a.stream, a.grant.aggregateSeq + 1, o.(key := key), body);
      }
  }

  lemma EndingKeepsKeys(a: Aggregate, how: Ending, o: Origin)
    requires OncePerKey(a.stream)
    ensures Terminate(a, how, o).Ok? ==> OncePerKey(Terminate(a, how, o).value.stream)
  {
    hide Record, NextStatus, OncePerKey;
    if Record(a, o, EndingBody(how), None).Ok? {
      RecordKeepsKeys(a, o, EndingBody(how), None);
    }
  }

  /** Over any run no key is recorded twice for the same sender and kind of command. */
  lemma {:induction false} RunKeepsKeys(a: Aggregate, cs: seq<Command>, humans: set<Account>)
    requires OncePerKey(a.stream)
    ensures OncePerKey(Run(a, cs, humans).stream)
  {
    hide Apply, OncePerKey;
    if cs == [] {
    } else {
      RunKeepsKeys(a, cs[..|cs| - 1], humans);
      CommandKeepsKeys(Run(a, cs[..|cs| - 1], humans), cs[|cs| - 1], humans);
    }
  }

  // ---------------------------------------------------------------- aliases that go round

  /** Each account of the list is an alias of the next, the last one of the first; none repeats. */
  ghost predicate AliasCycle(aliases: map<Account, Account>, c: seq<Account>) {
    && c != [] && (forall i, j :: 0 <= i < j < |c| ==> c[i] != c[j])
    && (forall i :: 0 <= i < |c| - 1 ==> c[i] in aliases && aliases[c[i]] == c[i + 1])
    && c[|c| - 1] in aliases && aliases[c[|c| - 1]] == c[0]
  }

  lemma {:induction false} RoundTheCycle(aliases: map<Account, Account>, c: seq<Account>, k: nat)
    requires AliasCycle(aliases, c) && k <= |c|
    ensures EffectivePrincipal(if k < |c| then c[k] else c[0], aliases, c[..k]) == Least(c)
    decreases |c| - k
  {
    if k == |c| {
      assert c[..k] == c;
    } else {
      RoundTheCycle(aliases, c, k + 1);
      assert c[..k] + [c[k]] == c[..k + 1] && c[k] !in c[..k];
    }
  }

  /** The cycle as seen from its place `i`. */
  function Turned(c: seq<Account>, i: nat): seq<Account>
    requires i <= |c|
  {
    c[i..] + c[..i]
  }

  lemma TurnedAt(c: seq<Account>, i: nat, k: nat)
    requires i < |c| && k < |c|
    ensures |Turned(c, i)| == |c| && Turned(c, i)[k] == if k < |c| - i then c[i + k] else c[k - (|c| - i)]
  {
  }

  lemma TurnedCycle(aliases: map<Account, Account>, c: seq<Account>, i: nat)
    requires AliasCycle(aliases, c) && i < |c|
    ensures AliasCycle(aliases, Turned(c, i))
  {
    hide Turned;
    var n := |c|;
    forall k: nat | k < n
      ensures |Turned(c, i)| == n && Turned(c, i)[k] == if k < n - i then c[i + k] else c[k - (n - i)]
    {
      TurnedAt(c, i, k);
    }
    TurnedAt(c, i, 0);
  }

  lemma TurnedMembers(c: seq<Account>, i: nat, x: Account)
    requires i < |c|
    ensures x in Turned(c, i) <==> x in c
  {
    assert c == c[..i] + c[i..];
  }

  /** The accounts of a cycle of aliases have one principal, the least of them: none may approve for another. */
  lemma CyclePrincipal(aliases: map<Account, Account>, c: seq<Account>, a: Account, b: Account)
    requires AliasCycle(aliases, c) && a in c && b in c
    ensures var p := EffectivePrincipal(a, aliases, []);
      p in c && (forall x :: x in c ==> p <= x) && SamePrincipal(a, Some(b), aliases)
  {
    PrincipalOfTurn(aliases, c, a);
    PrincipalOfTurn(aliases, c, b);
  }

  lemma PrincipalOfTurn(aliases: map<Account, Account>, c: seq<Account>, a: Account)
    requires AliasCycle(aliases, c) && a in c
    ensures var p := EffectivePrincipal(a, aliases, []);
      p in c && forall x :: x in c ==> p <= x
  {
    var i :| 0 <= i < |c| && c[i] == a;
    var turned := Turned(c, i);
    TurnedCycle(aliases, c, i);
    TurnedAt(c, i, 0);
    hide EffectivePrincipal, Turned, AliasCycle;
    RoundTheCycle(aliases, turned, 0);
    assert turned[..0] == [];
    forall x ensures x in turned <==> x in c {
      TurnedMembers(c, i, x);
    }
  }

  // ---------------------------------------------------------------- votes

  /** What can stand between an approver and a vote. */
  datatype Obstacle =
    | AlreadyDecided | RanOut | NotActive | OwnRequest | VotedBefore | NotHuman | NotAuthorized | RoleTooLow
    | NoFreshProof | StoreRefuses

  /** The risks that only people may approve, and only after proving afresh who they are. */
  predicate Grave(r: Risk) {
    Severity(r) >= Severity(HIGH)
  }

  ghost predicate HasVoted(a: Aggregate, who: Account) {
    exists i :: 0 <= i < |a.decisions| && a.decisions[i].decidedBy == who
  }

  ghost predicate Own(g: Grant, who: Account, aliases: map<Account, Account>) {
    SamePrincipal(who, Some(g.requestedBy), aliases) || SamePrincipal(who, g.implementing, aliases)
  }

  ghost predicate Hinders(b: Obstacle, a: Aggregate, c: Command, humans: set<Account>)
    requires c.Vote?
  {
    var g, p := a.grant, c.approver;
    match b
    case AlreadyDecided => !g.status.Pending?
    case RanOut => c.now >= g.expiresAt
    case NotActive => p.account.None? || !p.active
    case OwnRequest => p.account.Some? && Own(g, p.account.value, p.aliases)
    case VotedBefore => p.account.Some? && HasVoted(a, p.account.value)
    case NotHuman => p.account.Some? && (Grave(g.risk) || g.requiresHuman) && p.account.value !in humans
    case NotAuthorized => !p.authorization.Allowed?
    case RoleTooLow => !p.roleCoversRisk
    case NoFreshProof => Grave(g.risk) && !p.reauthVerified
    case StoreRefuses => c.origin.refused && (c.approve ==> |a.decisions| + 1 >= Needed(g))
  }

  function Place(b: Obstacle): nat {
    match b
    case AlreadyDecided => 0
    case RanOut => 1
    case NotActive => 2
    case OwnRequest => 3
    case VotedBefore => 4
    case NotHuman => 5
    case NotAuthorized => 6
    case RoleTooLow => 7
    case NoFreshProof => 8
    case StoreRefuses => 9
  }

  /** The error an obstacle is reported as. */
  function Reported(b: Obstacle, p: Approver): Code {
    match b
    case AlreadyDecided => APPROVAL_NOT_PENDING
    case RanOut => APPROVAL_NOT_USABLE
    case NotActive => APPROVER_NOT_ELIGIBLE
    case OwnRequest => SELF_APPROVAL_FORBIDDEN
    case VotedBefore => APPROVER_DUPLICATE
    case NotHuman => HUMAN_APPROVER_REQUIRED
    case NotAuthorized =>
      if p.authorization.ChannelNotMember? then APPROVER_NOT_CHANNEL_MEMBER
      else if p.authorization.RoleMaxRiskExceeded? then APPROVER_ROLE_RISK_TOO_LOW
      else APPROVER_NOT_ELIGIBLE
    case RoleTooLow => APPROVER_ROLE_RISK_TOO_LOW
    case NoFreshProof => REAUTH_REQUIRED
    case StoreRefuses => EVENT_REFUSED
  }

  ghost predicate FirstObstacle(b: Obstacle, a: Aggregate, c: Command, humans: set<Account>)
    requires c.Vote?
  {
    Hinders(b, a, c, humans) && forall d :: Place(d) < Place(b) ==> !Hinders(d, a, c, humans)
  }

  ghost predicate NothingHinders(a: Aggregate, c: Command, humans: set<Account>)
    requires c.Vote?
  {
    forall b :: !Hinders(b, a, c, humans)
  }

  lemma VotedIsDecider(a: Aggregate, who: Account)
    ensures HasVoted(a, who) <==> who in DeciderSet(a.decisions)
  {
    if HasVoted(a, who) {
      var i :| 0 <= i < |a.decisions| && a.decisions[i].decidedBy == who;
      assert a.decisions[i] in a.decisions;
    }
    if who in DeciderSet(a.decisions) {
      var d :| d in a.decisions && d.decidedBy == who;
      var i :| 0 <= i < |a.decisions| && a.decisions[i] == d;
    }
  }

  /** What the eligibility check finds: the first obstacle that lies with the approver, if there is one. */
  lemma ApproverObstacle(a: Aggregate, c: Command, humans: set<Account>) returns (b: Obstacle)
    requires c.Vote?
    ensures match CheckEligibility(a.grant, DeciderSet(a.decisions), c.approver, humans)
      case Ok(who) => c.approver.account == Some(who) && forall d :: 2 <= Place(d) <= 8 ==> !Hinders(d, a, c, humans)
      case Err(code) =>
        && code == Reported(b, c.approver) && 2 <= Place(b) <= 8 && Hinders(b, a, c, humans)
        && forall d :: 2 <= Place(d) < Place(b) ==> !Hinders(d, a, c, humans)
  {
    if c.approver.account.Some? {
      VotedIsDecider(a, c.approver.account.value);
    }
    hide SamePrincipal, HasVoted, DeciderSet;
    b := if Hinders(NotActive, a, c, humans) then NotActive
      else if Hinders(OwnRequest, a, c, humans) then OwnRequest
      else if Hinders(VotedBefore, a, c, humans) then VotedBefore
      else if Hinders(NotHuman, a, c, humans) then NotHuman
      else if Hinders(NotAuthorized, a, c, humans) then NotAuthorized
      else if Hinders(RoleTooLow, a, c, humans) then RoleTooLow
      else NoFreshProof;
  }

  /** A decision as four answers, one after the other. */
  lemma DecideReply(a: Aggregate, c: Command, humans: set<Account>)
    requires Inv(a, humans) && c.Vote?
    ensures var who := CheckEligibility(a.grant, DeciderSet(a.decisions), c.approver, humans);
      var r := Decide(a, c.approve, c.approver, humans, c.now, c.origin);
      if !a.grant.status.Pending? then r == Err(APPROVAL_NOT_PENDING)
      else if c.now >= a.grant.expiresAt then r == Err(APPROVAL_NOT_USABLE)
      else if who.Err? then r == Err(who.code)
      else if c.origin.refused && (c.approve ==> |a.decisions| + 1 >= Needed(a.grant)) then r == Err(EVENT_REFUSED)
      else r.Ok?
  {
    DecideOutcome(a, c.approve, c.approver, humans, c.now, c.origin);
    hide LedgerMatches, EligibleVoter, DistinctVoters, CheckEligibility, Replay, Deciders, DeciderSet, Record;
  }

  lemma VoteAnswer(a: Aggregate, c: Command, humans: set<Account>) returns (b: Obstacle)
    requires Inv(a, humans) && c.Vote?
    ensures match Decide(a, c.approve, c.approver, humans, c.now, c.origin)
      case Ok(_) => NothingHinders(a, c, humans)
      case Err(code) => code == Reported(b, c.approver) && FirstObstacle(b, a, c, humans)
  {
    hide Inv, Decide, CheckEligibility, DeciderSet, Own, HasVoted, Grave, Needed;
    DecideReply(a, c, humans);
    b := ApproverObstacle(a, c, humans);
    if !a.grant.status.Pending? {
      b := AlreadyDecided;
    } else if c.now >= a.grant.expiresAt {
      b := RanOut;
    } else if CheckEligibility(a.grant, DeciderSet(a.decisions), c.approver, humans).Ok? {
      b := StoreRefuses;
    }
  }

  lemma OneObstacle(b: Obstacle, d: Obstacle, a: Aggregate, c: Command, humans: set<Account>)
    requires c.Vote? && FirstObstacle(b, a, c, humans)
    ensures !NothingHinders(a, c, humans) && (FirstObstacle(d, a, c, humans) ==> b == d)
  {
    hide Hinders;
    assert Place(b) < Place(d) || Place(d) < Place(b) || b == d;
  }

  /** A vote fails for the first obstacle in its way and succeeds without any. */
  lemma VoteExactly(a: Aggregate, c: Command, b: Obstacle, humans: set<Account>)
    requires Reachable(a, humans) && c.Vote?
    ensures var r := Decide(a, c.approve, c.approver, humans, c.now, c.origin);
      && (FirstObstacle(b, a, c, humans) ==> r == Err(Reported(b, c.approver)))
      && (r.Ok? <==> NothingHinders(a, c, humans))
  {
    ReachableKeeps(a, humans);
    hide *;
    var first := VoteAnswer(a, c, humans);
    if Decide(a, c.approve, c.approver, humans, c.now, c.origin).Err? {
      OneObstacle(first, b, a, c, humans);
    } else if FirstObstacle(b, a, c, humans) {
      OneObstacle(b, b, a, c, humans);
    }
  }

  // ---------------------------------------------------------------- every vote of a run

  /** Command `c` is a vote that `who` was entitled to cast under these terms. */
  ghost predicate Entitled(g: Grant, c: Command, who: Account, humans: set<Account>) {
    && c.Vote? && c.now < g.expiresAt
    && c.approver.account == Some(who) && c.approver.active && !Own(g, who, c.approver.aliases)
    && c.approver.authorization.Allowed? && c.approver.roleCoversRisk
    && (Grave(g.risk) ==> who in humans && c.approver.reauthVerified) && (g.requiresHuman ==> who in humans)
  }

  /** One of the commands cast this vote. */
  ghost predicate CastIn(cs: seq<Command>, g: Grant, d: Decision, humans: set<Account>) {
    exists i :: 0 <= i < |cs| && Entitled(g, cs[i], d.decidedBy, humans) && cs[i].approve == d.approve
  }

  /** A command adds no vote, or it is a vote and adds that one. */
  lemma OneVoteAtMost(a: Aggregate, c: Command, humans: set<Account>)
    requires Inv(a, humans)
    ensures var ds := Apply(a, c, humans).decisions;
      ds == a.decisions
      || (exists d: Decision ::
            ds == a.decisions + [d] && Entitled(a.grant, c, d.decidedBy, humans) && c.approve == d.approve)
  {
    match c
    case Vote(approve, p, now, o) => VoteAdds(a, c, humans);
    case Withdraw(revoke, o) =>
      hide Inv, Terminate;
      TerminateOutcome(a, if revoke then Revoke else Cancel, o, humans);
    case Sweep(now, o, escalation) =>
      hide Inv, Terminate, Append, Deciders;
      TerminateOutcome(a, Lapse, o, humans);
    case Use(key, consumedFor, now, o) =>
      hide Inv, Append, Deciders;
  }

  lemma VoteAdds(a: Aggregate, c: Command, humans: set<Account>)
    requires Inv(a, humans) && c.Vote?
    ensures var ds := Apply(a, c, humans).decisions;
      ds == a.decisions
      || (exists d: Decision ::
            ds == a.decisions + [d] && Entitled(a.grant, c, d.decidedBy, humans) && c.approve == d.approve)
  {
    if Decide(a, c.approve, c.approver, humans, c.now, c.origin).Ok? {
      var b := ApproverObstacle(a, c, humans);
      b := VoteAnswer(a, c, humans);
      UnhinderedIsEntitled(a, c, humans);
      DecideOutcome(a, c.approve, c.approver, humans, c.now, c.origin);
      hide LedgerMatches, EligibleVoter, DistinctVoters, CheckEligibility, Replay, Deciders, DeciderSet, Record, Decide,
        Hinders, NothingHinders, Entitled;
      var ds := Apply(a, c, humans).decisions;
      var d := ds[|a.decisions|];
      assert ds == a.decisions + [d] && Entitled(a.grant, c, d.decidedBy, humans) && c.approve == d.approve;
    }
  }

  lemma UnhinderedIsEntitled(a: Aggregate, c: Command, humans: set<Account>)
    requires c.Vote? && NothingHinders(a, c, humans)
    ensures c.approver.account.Some? && Entitled(a.grant, c, c.approver.account.value, humans)
  {
    hide Own, HasVoted, Grave;
    assert forall b :: !Hinders(b, a, c, humans);
    assert !Hinders(NotActive, a, c, humans) && !Hinders(OwnRequest, a, c, humans) && !Hinders(NotHuman, a, c, humans);
    assert !Hinders(NotAuthorized, a, c, humans) && !Hinders(RoleTooLow, a, c, humans);
    assert !Hinders(NoFreshProof, a, c, humans) && !Hinders(RanOut, a, c, humans);
  }

  /** Every vote that was added in a run came from somebody entitled to it. */
  lemma {:induction false} VotesWereEntitled(a: Aggregate, cs: seq<Command>, k: nat, humans: set<Account>)
    requires Inv(a, humans) && |a.decisions| <= k < |Run(a, cs, humans).decisions|
    ensures CastIn(cs, a.grant, Run(a, cs, humans).decisions[k], humans)
  {
    hide Inv, Apply, Entitled;
    if cs == [] {
    } else {
      var n := |cs| - 1;
      var v := Run(a, cs[..n], humans);
      RunKeeps(a, cs[..n], humans);
      RunExtends(a, cs[..n], humans);
      OneVoteAtMost(v, cs[n], humans);
      SameTerms(a.grant, v.grant, cs[n], humans);
      if k < |v.decisions| {
        VotesWereEntitled(a, cs[..n], k, humans);
        CastLater(cs, n, a.grant, v.decisions[k], humans);
      } else {
        assert Entitled(a.grant, cs[n], Run(a, cs, humans).decisions[k].decidedBy, humans);
      }
    }
  }

  lemma SameTerms(g: Grant, h: Grant, c: Command, humans: set<Account>)
    requires h == g.(status := h.status, aggregateSeq := h.aggregateSeq)
    ensures forall who :: Entitled(h, c, who, humans) <==> Entitled(g, c, who, humans)
  {
  }

  lemma CastLater(cs: seq<Command>, n: nat, g: Grant, d: Decision, humans: set<Account>)
    requires n <= |cs| && CastIn(cs[..n], g, d, humans)
    ensures CastIn(cs, g, d, humans)
  {
    hide Own;
    var i :| 0 <= i < n && Entitled(g, cs[..n][i], d.decidedBy, humans) && cs[..n][i].approve == d.approve;
    assert Entitled(g, cs[i], d.decidedBy, humans);
  }

  // ---------------------------------------------------------------- every use of a run

  /** Command `c` uses the approval under `key`, for what it was given and while it is valid. */
  ghost predicate UsesWithin(g: Grant, c: Command, key: string) {
    c.Use? && c.key == key && c.consumedFor == g.subject && g.validFrom <= c.now < g.expiresAt
  }

  ghost predicate UsedIn(cs: seq<Command>, g: Grant, u: Consumption) {
    exists i :: 0 <= i < |cs| && UsesWithin(g, cs[i], u.key) && cs[i].origin.actor == u.consumedBy
  }

  lemma OneUseAtMost(a: Aggregate, c: Command, humans: set<Account>)
    requires Inv(a, humans)
    ensures var us := Apply(a, c, humans).consumptions;
      us == a.consumptions
      || (exists u: Consumption ::
            us == a.consumptions + [u] && UsesWithin(a.grant, c, u.key) && c.origin.actor == u.consumedBy)
  {
    match c
    case Vote(approve, p, now, o) =>
      DecideOutcome(a, approve, p, humans, now, o);
      hide Inv, Decide, Deciders, Replay, CheckEligibility;
    case Withdraw(revoke, o) =>
      hide Inv, Terminate;
      TerminateOutcome(a, if revoke then Revoke else Cancel, o, humans);
    case Sweep(now, o, escalation) =>
      hide Inv, Terminate, Append, Deciders;
      TerminateOutcome(a, Lapse, o, humans);
    case Use(key, consumedFor, now, o) => UseAdds(a, c, humans);
  }

  lemma UseAdds(a: Aggregate, c: Command, humans: set<Account>)
    requires Inv(a, humans) && c.Use?
    ensures var us := Apply(a, c, humans).consumptions;
      us == a.consumptions
      || (exists u: Consumption ::
            us == a.consumptions + [u] && UsesWithin(a.grant, c, u.key) && c.origin.actor == u.consumedBy)
  {
    ConsumeOutcome(a, c.key, c.consumedFor, c.now, c.origin, humans);
    hide Inv, Consume, Deciders, FindConsumption;
    var us := Apply(a, c, humans).consumptions;
    if us != a.consumptions {
      var u := us[|a.consumptions|];
      assert us == a.consumptions + [u] && UsesWithin(a.grant, c, u.key) && c.origin.actor == u.consumedBy;
    }
  }

  /** Every use that was added in a run lay within the terms. */
  lemma {:induction false} UsesWereWithin(a: Aggregate, cs: seq<Command>, k: nat, humans: set<Account>)
    requires Inv(a, humans) && |a.consumptions| <= k < |Run(a, cs, humans).consumptions|
    ensures UsedIn(cs, a.grant, Run(a, cs, humans).consumptions[k])
  {
    hide Inv, Apply;
    if cs == [] {
    } else {
      var n := |cs| - 1;
      var v := Run(a, cs[..n], humans);
      RunKeeps(a, cs[..n], humans);
      RunExtends(a, cs[..n], humans);
      OneUseAtMost(v, cs[n], humans);
      if k < |v.consumptions| {
        UsesWereWithin(a, cs[..n], k, humans);
        UsedLater(cs, n, a.grant, v.consumptions[k]);
      } else {
        assert UsesWithin(a.grant, cs[n], Run(a, cs, humans).consumptions[k].key);
      }
    }
  }

  lemma UsedLater(cs: seq<Command>, n: nat, g: Grant, u: Consumption)
    requires n <= |cs| && UsedIn(cs[..n], g, u)
    ensures UsedIn(cs, g, u)
  {
    var i :| 0 <= i < n && UsesWithin(g, cs[..n][i], u.key) && cs[..n][i].origin.actor == u.consumedBy;
    assert UsesWithin(g, cs[i], u.key);
  }

  /** Nothing more happens to an approval in one of these. */
  predicate Over(s: Status) {
    s != Pending && s != Approved && s != PartiallyConsumed
  }

  /** Why a use under a new key is refused, or that it is not. */
  lemma UseExactly(a: Aggregate, key: string, consumedFor: Subject, now: Time, o: Origin, humans: set<Account>)
    requires Reachable(a, humans) && forall i :: 0 <= i < |a.consumptions| ==> a.consumptions[i].key != key
    ensures var r := Consume(a, key, consumedFor, now, o);
      var g := a.grant;
      if g.maxUses == Some(|a.consumptions|) then r == Err(APPROVAL_EXHAUSTED)
      else if g.status == Pending || Over(g.status) || now < g.validFrom || g.expiresAt <= now then
        r == Err(APPROVAL_NOT_USABLE)
      else if consumedFor != g.subject then r == Err(APPROVAL_SCOPE_MISMATCH)
      else if o.refused then r == Err(EVENT_REFUSED)
      else r.Ok? && r.value.usedCount == |a.consumptions| + 1 && !r.value.replayed
  {
    hide Reachable, Inv, Replay, Deciders, FindKey, UsesIn;
    ReachableKeeps(a, humans);
    BoundedUse(a, humans);
    ColumnsAreDerived(a, humans);
    if Consumable(a.grant.status) {
      FreshUseMisses(a, humans, o.actor, key);
      RoomLeft(a, humans);
    }
  }

  lemma RoomLeft(a: Aggregate, humans: set<Account>)
    requires Inv(a, humans) && Consumable(a.grant.status)
    ensures UsesLeft(a)
  {
    hide LedgerMatches, Voting, Replay, Deciders;
  }

  function StatusAfter(how: Ending): Status {
    match how case Cancel => Cancelled case Revoke => Revoked case Lapse => Expired
  }

  lemma EndedAs(s: Status, how: Ending)
    ensures Terminal(s) <==> Over(s)
    ensures NextStatus(s, EndingBody(how)) == if Over(s) then Err(APPROVAL_TERMINAL) else Ok(StatusAfter(how))
  {
  }

  /** An approval can be ended exactly as long as it is not over. */
  lemma EndsExactly(a: Aggregate, how: Ending, o: Origin, humans: set<Account>)
    requires Reachable(a, humans)
    ensures var r := Terminate(a, how, o);
      if Over(a.grant.status) then r == Err(APPROVAL_TERMINAL)
      else if o.refused then r == Err(EVENT_REFUSED)
      else r.Ok? && r.value.grant.status == StatusAfter(how)
  {
    hide Reachable, Inv, Terminate, NewEvent, Deciders, NextStatus, EndingBody;
    ReachableKeeps(a, humans);
    TerminateOutcome(a, how, o, humans);
    EndedAs(a.grant.status, how);
  }

  /** After a sweep that the store takes nothing is left open past its validity, and nothing else was touched. */
  lemma SweepSettles(a: Aggregate, now: Time, o: Origin, escalation: Origin, humans: set<Account>)
    requires Reachable(a, humans) && !o.refused && !escalation.refused
    ensures var b := Apply(a, Sweep(now, o, escalation), humans);
      && (Over(b.grant.status) || now < b.grant.expiresAt)
      && (if Over(a.grant.status) || now < a.grant.expiresAt then b == a else b.grant.status == Expired)
    ensures Due(a.grant, now) <==> !Over(a.grant.status) && a.grant.expiresAt <= now
  {
    hide *;
    ReachableKeeps(a, humans);
    DueIs(a.grant, now);
    ExpireKeeps(a, o, escalation, humans);
    ExpiredStands(a, o, escalation);
    TermsOfExpired(a, o, escalation, humans);
    SweepIs(a, now, o, escalation, humans);
    OverIsTerminal(a.grant.status);
  }

  lemma DueIs(g: Grant, now: Time)
    ensures Due(g, now) <==> !Over(g.status) && g.expiresAt <= now
  {
  }

  lemma OverIsTerminal(s: Status)
    ensures Over(s) <==> Terminal(s)
    ensures Over(Expired)
  {
  }

  lemma SweepIs(a: Aggregate, now: Time, o: Origin, escalation: Origin, humans: set<Account>)
    ensures var r := Expire(a, o, escalation);
      Apply(a, Sweep(now, o, escalation), humans) == if Due(a.grant, now) && r.Ok? then r.value else a
  {
    hide Expire;
  }

  lemma ExpiredStands(a: Aggregate, o: Origin, escalation: Origin)
    ensures Expire(a, o, escalation).Ok? ==> Expire(a, o, escalation).value.grant.status == Expired
  {
    hide Terminate, Append, Deciders;
  }

  lemma TermsOfExpired(a: Aggregate, o: Origin, escalation: Origin, humans: set<Account>)
    requires Inv(a, humans)
    ensures Expire(a, o, escalation).Ok? ==> Expire(a, o, escalation).value.grant.expiresAt == a.grant.expiresAt
  {
    if Expire(a, o, escalation).Ok? {
      ExpireExtends(a, o, escalation, humans);
      hide Inv, Expire;
    }
  }

  // ---------------------------------------------------------------- from the request on

  /**
   Whatever happens to an approval after its request: its terms are those asked for, it is used no more often than was
   asked for and only within these terms, and every vote came from somebody entitled to it.
   */
  lemma PromiseOfARequest(r: Request, o: Origin, cs: seq<Command>, humans: set<Account>)
    requires Open(r, o).Ok?
    ensures var asked := Open(r, o).value;
      var a := Run(asked, cs, humans);
      && TermsOf(r, o.at, asked.grant) && TermsOf(r, o.at, a.grant)
      && (r.maxUses.Some? ==> |a.consumptions| <= r.maxUses.value)
      && (forall k :: 0 <= k < |a.consumptions| ==> UsedIn(cs, asked.grant, a.consumptions[k]))
      && forall k :: 0 <= k < |a.decisions| ==> CastIn(cs, asked.grant, a.decisions[k], humans)
  {
    OpensExactly(r, o);
    OpenEstablishes(r, o, humans);
    TermsStay(r, o, cs, humans);
    hide Inv, Open, Run, UsedIn, CastIn, Graver, Needed, AskedFor;
    var asked := Open(r, o).value;
    var a := Run(asked, cs, humans);
    forall k | 0 <= k < |a.consumptions| ensures UsedIn(cs, asked.grant, a.consumptions[k]) {
      UsesWereWithin(asked, cs, k, humans);
    }
    forall k | 0 <= k < |a.decisions| ensures CastIn(cs, asked.grant, a.decisions[k], humans) {
      VotesWereEntitled(asked, cs, k, humans);
    }
    assert Reachable(a, humans);
    BoundedUse(a, humans);
  }
}
