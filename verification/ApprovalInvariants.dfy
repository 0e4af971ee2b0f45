/**
 What every run of approval commands keeps: the stream replays to the status, the ledgers agree with the
 stream, votes respect the quorum, uses stay bounded, and the display projection is derived from the rest.
 */
module ApprovalInvariants {
  import opened Common
  import opened ApprovalModel

  // ---------------------------------------------------------------- invariant

  function ReplayStep(s: Status, b: Body, maxUses: Option<nat>): Status {
    if b.RequestedEvent? then Pending
    else if b.EscalatedEvent? then s
    else if b.ConsumedEvent? then StatusAfterConsumption(b.usedCount, maxUses)
    else if NextStatus(s, b).Ok? then NextStatus(s, b).value else s
  }

  /** The status the stream alone determines: the transition table, refined by the use count. */
  function Replay(stream: seq<Event>, maxUses: Option<nat>): Status {
    if stream == [] then Pending
    else ReplayStep(Replay(stream[..|stream| - 1], maxUses), stream[|stream| - 1].body, maxUses)
  }

  /** The number of approvals that turns PENDING into APPROVED: one even where the catalog asks for none. */
  function Needed(g: Grant): nat {
    if g.quorum == 0 then 1 else g.quorum
  }

  ghost predicate AllApprove(ds: seq<Decision>) {
    forall i :: 0 <= i < |ds| ==> ds[i].approve
  }

  ghost predicate DistinctVoters(ds: seq<Decision>) {
    forall i, j :: 0 <= i < j < |ds| ==> ds[i].decidedBy != ds[j].decidedBy
  }

  ghost predicate EligibleVoter(g: Grant, who: Account, humans: set<Account>) {
    && who != g.requestedBy
    && g.implementing != Some(who)
    && (AtLeastHigh(g.risk) || g.requiresHuman ==> who in humans)
  }

  ghost predicate StreamWellFormed(stream: seq<Event>) {
    && |stream| >= 1 && stream[0].body == RequestedEvent
    && forall i :: 0 <= i < |stream| ==>
         && stream[i].seqNo == i + 1 && stream[i].scope == ScopeOf(stream[i].body)
         && (stream[i].body.ConsumedEvent? ==> stream[i].key == stream[i].body.consumptionKey)
  }

  /** The k-th consumption row is the k-th APPROVAL_CONSUMED event, carrying use count k. */
  ghost predicate LedgerMatches(cs: seq<Consumption>, stream: seq<Event>) {
    && (cs == [] || 2 + |cs| <= |stream|)
    && (forall k :: 0 <= k < |cs| ==>
          stream[2 + k].body == ConsumedEvent(cs[k].key, k + 1) && stream[2 + k].id == cs[k].eventId)
    && (forall i, j :: 0 <= i < j < |cs| ==> cs[i].key != cs[j].key)
  }

  ghost predicate Voting(a: Aggregate, humans: set<Account>) {
    && a.grant.quorum == RequiredQuorum(a.grant.risk, a.grant.requiresHuman)
    && DistinctVoters(a.decisions)
    && forall i :: 0 <= i < |a.decisions| ==> EligibleVoter(a.grant, a.decisions[i].decidedBy, humans)
  }

  ghost predicate UsesLeft(a: Aggregate) {
    a.grant.maxUses.Some? ==> |a.consumptions| < a.grant.maxUses.value
  }

  /** No approval event yet; `k` closing events. */
  ghost predicate Undecided(a: Aggregate, k: nat) {
    |a.stream| == 1 + k && a.consumptions == [] && AllApprove(a.decisions) && |a.decisions| < Needed(a.grant)
  }

  /** Approved by exactly the needed number of votes, then used; `k` closing events. */
  ghost predicate ApprovedThenUsed(a: Aggregate, k: nat) {
    && |a.stream| == 2 + |a.consumptions| + k
    && a.stream[1].body == GrantedEvent(Needed(a.grant))
    && |a.decisions| == Needed(a.grant) && AllApprove(a.decisions)
  }

  ghost predicate Ended(a: Aggregate, k: nat) {
    Undecided(a, k) || (ApprovedThenUsed(a, k) && UsesLeft(a))
  }

  ghost predicate Shape(a: Aggregate)
    requires |a.stream| >= 1
  {
    var n := |a.stream|;
    match a.grant.status
    case Pending => Undecided(a, 0)
    case Approved => ApprovedThenUsed(a, 0) && a.consumptions == []
    case PartiallyConsumed => ApprovedThenUsed(a, 0) && a.consumptions != [] && UsesLeft(a)
    case Consumed => ApprovedThenUsed(a, 0) && a.grant.maxUses == Some(|a.consumptions|)
    case Rejected => n == 2 && a.stream[1].body == RejectedEvent && a.consumptions == []
      && 1 <= |a.decisions| <= Needed(a.grant) && !a.decisions[|a.decisions| - 1].approve
      && AllApprove(a.decisions[..|a.decisions| - 1])
    case Cancelled => Ended(a, 1) && a.stream[n - 1].body == CancelledEvent
    case Revoked => Ended(a, 1) && a.stream[n - 1].body == RevokedEvent
    case Expired => Ended(a, 2) && a.stream[n - 2].body == ExpiredEvent && a.stream[n - 1].body == EscalatedEvent
  }

  /** Everything about the stream, the status column and the projection that does not depend on the phase. */
  ghost predicate Derived(a: Aggregate) {
    && StreamWellFormed(a.stream)
    && a.grant.aggregateSeq == |a.stream|
    && (a.grant.maxUses.Some? ==> a.grant.maxUses.value > 0)
    && a.grant.status == Replay(a.stream, a.grant.maxUses)
    && a.projection == Project(a, a.grant.status, a.stream[|a.stream| - 1].id)
  }

  ghost predicate Inv(a: Aggregate, humans: set<Account>) {
    Derived(a) && Shape(a) && LedgerMatches(a.consumptions, a.stream) && Voting(a, humans)
  }

  // ---------------------------------------------------------------- the commands keep it

  lemma DeciderSetSize(ds: seq<Decision>)
    requires DistinctVoters(ds)
    ensures |DeciderSet(ds)| == |ds|
  {
    if ds == [] {
    } else {
      var rest := ds[..|ds| - 1];
      DeciderSetSize(rest);
      assert DeciderSet(ds) == DeciderSet(rest) + {ds[|ds| - 1].decidedBy} by {
        assert forall d :: d in ds <==> d in rest || d == ds[|ds| - 1];
      }
    }
  }

  /** Two votes for a CRITICAL approval, one for any other. */
  lemma NeededByRisk(a: Aggregate, humans: set<Account>)
    requires Voting(a, humans)
    ensures Needed(a.grant) == if a.grant.risk.CRITICAL? then 2 else 1
  {
  }

  /** An event type the stream does not hold yet cannot collide with an earlier idempotency key. */
  lemma NoCollision(stream: seq<Event>, actor: Account, scope: Scope, key: string)
    requires StreamWellFormed(stream)
    requires forall i :: 0 <= i < |stream| ==> ScopeOf(stream[i].body) != scope
    ensures FindKey(stream, actor, scope, key).None?
  {
  }

  /** Open streams hold only the request, the grant and uses. */
  lemma OpenStream(a: Aggregate, humans: set<Account>)
    requires Inv(a, humans) && !Terminal(a.grant.status)
    ensures forall i :: 0 <= i < |a.stream| ==>
      a.stream[i].body.RequestedEvent? || a.stream[i].body.GrantedEvent? || a.stream[i].body.ConsumedEvent?
  {
    forall i | 0 <= i < |a.stream|
      ensures a.stream[i].body.RequestedEvent? || a.stream[i].body.GrantedEvent? || a.stream[i].body.ConsumedEvent?
    {
      if i >= 2 {
        assert a.stream[2 + (i - 2)].body == ConsumedEvent(a.consumptions[i - 2].key, i - 2 + 1);
      }
    }
  }

  lemma ReplayAppends(stream: seq<Event>, e: Event, maxUses: Option<nat>)
    ensures Replay(stream + [e], maxUses) == ReplayStep(Replay(stream, maxUses), e.body, maxUses)
  {
    assert (stream + [e])[..|stream|] == stream;
  }

  lemma LedgerKept(cs: seq<Consumption>, stream: seq<Event>, e: Event)
    requires LedgerMatches(cs, stream)
    ensures LedgerMatches(cs, stream + [e])
  {
  }

  lemma VotingExtends(a: Aggregate, d: Decision, humans: set<Account>)
    requires Voting(a, humans) && EligibleVoter(a.grant, d.decidedBy, humans)
    requires d.decidedBy !in DeciderSet(a.decisions)
    ensures Voting(a.(decisions := a.decisions + [d]), humans)
  {
    forall i | 0 <= i < |a.decisions| ensures a.decisions[i].decidedBy != d.decidedBy {
      assert a.decisions[i] in a.decisions;
    }
  }

  function NewEvent(a: Aggregate, o: Origin, body: Body): Event {
    Event(o.id, |a.stream| + 1, o.actor, ScopeOf(body), o.key, body, o.at)
  }

  /** The aggregate after one more event, with the given status and ledgers. */
  function Written(a: Aggregate, e: Event, status: Status, ds: seq<Decision>, cs: seq<Consumption>): Aggregate {
    var g := a.grant.(status := status, aggregateSeq := |a.stream| + 1);
    Aggregate(g, ds, cs, a.stream + [e], Projection(status, |cs|, Deciders(ds), e.id))
  }

  lemma WrittenDerived(a: Aggregate, o: Origin, body: Body, status: Status, ds: seq<Decision>, cs: seq<Consumption>)
    requires Derived(a) && status == ReplayStep(a.grant.status, body, a.grant.maxUses)
    requires body.ConsumedEvent? ==> o.key == body.consumptionKey
    ensures Derived(Written(a, NewEvent(a, o, body), status, ds, cs))
  {
    ReplayAppends(a.stream, NewEvent(a, o, body), a.grant.maxUses);
  }

  /** What `Record` leaves behind when the store takes the event. */
  lemma RecordResult(a: Aggregate, o: Origin, body: Body, decision: Option<bool>, ds: seq<Decision>)
    requires Derived(a) && FindKey(a.stream, o.actor, ScopeOf(body), o.key).None?
    requires NextStatus(a.grant.status, body).Ok?
    requires ds == if decision.Some? then a.decisions + [Decision(o.actor, decision.value, o.id)] else a.decisions
    ensures if o.refused then Record(a, o, body, decision) == Err(EVENT_REFUSED) else
      Record(a, o, body, decision)
      == Ok(Written(a, NewEvent(a, o, body), NextStatus(a.grant.status, body).value, ds, a.consumptions))
  {
    hide FindKey, NextStatus, Replay, Deciders;
  }

  /** The aggregate a request leaves behind: one event, no vote, no use. */
  ghost predicate Fresh(a: Aggregate) {
    && |a.stream| == 1 && a.stream[0].body == RequestedEvent && a.stream[0].seqNo == 1
    && a.stream[0].scope == OnRequest
    && a.decisions == [] && a.consumptions == []
    && a.grant.status.Pending? && a.grant.aggregateSeq == 1
    && (a.grant.maxUses.Some? ==> a.grant.maxUses.value > 0)
    && a.grant.quorum == RequiredQuorum(a.grant.risk, a.grant.requiresHuman)
    && a.projection == Projection(Pending, 0, [], a.stream[0].id)
  }

  lemma FreshInv(a: Aggregate, humans: set<Account>)
    requires Fresh(a)
    ensures Inv(a, humans)
  {
    assert a.stream == [] + [a.stream[0]];
    ReplayAppends([], a.stream[0], a.grant.maxUses);
  }

  lemma OpenEstablishes(r: Request, o: Origin, humans: set<Account>)
    ensures Open(r, o).Ok? ==> Inv(Open(r, o).value, humans) && Open(r, o).value.grant.status.Pending?
  {
    if Open(r, o).Ok? {
      assert Fresh(Open(r, o).value);
      FreshInv(Open(r, o).value, humans);
    }
  }

  lemma EligibleIsEligible(g: Grant, prior: set<Account>, p: Approver, humans: set<Account>)
    requires CheckEligibility(g, prior, p, humans).Ok?
    ensures var who := CheckEligibility(g, prior, p, humans).value;
      who !in prior && EligibleVoter(g, who, humans)
  {
  }

  /** Following alias edges from `a` reaches `root`, which has none, after `n` steps. */
  ghost predicate EndsAt(aliases: map<Account, Account>, a: Account, n: nat, root: Account)
    decreases n
  {
    if n == 0 then a !in aliases && a == root else a in aliases && EndsAt(aliases, aliases[a], n - 1, root)
  }

  lemma {:induction false} OneLength(
      aliases: map<Account, Account>, a: Account, n: nat, root: Account, m: nat, other: Account)
    requires EndsAt(aliases, a, n, root) && EndsAt(aliases, a, m, other)
    ensures n == m && root == other
    decreases n
  {
    if n == 0 || m == 0 {
    } else {
      OneLength(aliases, aliases[a], n - 1, root, m - 1, other);
    }
  }

  ghost predicate EndsLater(aliases: map<Account, Account>, a: Account, n: nat, root: Account) {
    exists m: nat :: m > n && EndsAt(aliases, a, m, root)
  }

  /** The effective principal is where the alias edges end. */
  lemma {:induction false} PrincipalIsTheEnd(
      aliases: map<Account, Account>, a: Account, n: nat, root: Account, seen: seq<Account>)
    requires EndsAt(aliases, a, n, root)
    requires forall i :: 0 <= i < |seen| ==> EndsLater(aliases, seen[i], n, root)
    ensures EffectivePrincipal(a, aliases, seen) == root
    decreases n
  {
    if a in seen {
      var i :| 0 <= i < |seen| && seen[i] == a;
      assert EndsLater(aliases, seen[i], n, root);
      var m: nat :| m > n && EndsAt(aliases, a, m, root);
      OneLength(aliases, a, n, root, m, root);
    }
    if n == 0 {
    } else {
      forall i | 0 <= i < |seen + [a]| ensures EndsLater(aliases, (seen + [a])[i], n - 1, root) {
        if i < |seen| {
          assert EndsLater(aliases, seen[i], n, root);
        }
      }
      PrincipalIsTheEnd(aliases, aliases[a], n - 1, root, seen + [a]);
    }
  }

  /** Nobody whose aliases lead to the same account as the requester's or the implementer's may approve. */
  lemma AliasesMayNotApprove(g: Grant, prior: set<Account>, p: Approver, humans: set<Account>, self: Account,
                             who: Account, n: nat, m: nat, root: Account)
    requires EndsAt(p.aliases, who, n, root) && EndsAt(p.aliases, self, m, root)
    requires self == g.requestedBy || g.implementing == Some(self)
    ensures CheckEligibility(g, prior, p, humans) != Ok(who)
  {
    PrincipalIsTheEnd(p.aliases, who, n, root, []);
    PrincipalIsTheEnd(p.aliases, self, m, root, []);
  }

  /** A pending aggregate in which `who` may still vote. */
  ghost predicate MayVote(a: Aggregate, who: Account, humans: set<Account>) {
    && Inv(a, humans) && a.grant.status.Pending?
    && who !in DeciderSet(a.decisions) && EligibleVoter(a.grant, who, humans)
  }

  function ClosingVote(a: Aggregate, who: Account, approve: bool, o: Origin): Aggregate {
    var body := if approve then GrantedEvent(Needed(a.grant)) else RejectedEvent;
    Written(a, NewEvent(a, o.(actor := who), body), if approve then Approved else Rejected,
            a.decisions + [Decision(who, approve, o.id)], a.consumptions)
  }

  function CastVote(a: Aggregate, who: Account): Aggregate
    requires a.stream != []
  {
    var id := a.stream[|a.stream| - 1].id;
    Reproject(a.(decisions := a.decisions + [Decision(who, true, id)]), Pending, id)
  }

  /** The three ways an eligible decision ends, before the store is consulted. */
  lemma DecideBranches(a: Aggregate, approve: bool, p: Approver, humans: set<Account>, now: Time, o: Origin,
                       who: Account)
    requires a.grant.status.Pending? && now < a.grant.expiresAt && a.stream != []
    requires CheckEligibility(a.grant, DeciderSet(a.decisions), p, humans) == Ok(who)
    ensures var n := |DeciderSet(a.decisions)| + 1;
      Decide(a, approve, p, humans, now, o) ==
        if !approve then Record(a, o.(actor := who), RejectedEvent, Some(false))
        else if n >= a.grant.quorum then Record(a, o.(actor := who), GrantedEvent(n), Some(true))
        else Ok(CastVote(a, who))
  {
  }

  lemma ClosingVoteRecorded(a: Aggregate, who: Account, approve: bool, o: Origin)
    requires Derived(a) && a.grant.status.Pending? && |a.stream| == 1
    ensures var body := if approve then GrantedEvent(Needed(a.grant)) else RejectedEvent;
      var r := Record(a, o.(actor := who), body, Some(approve));
      if o.refused then r == Err(EVENT_REFUSED) else r == Ok(ClosingVote(a, who, approve, o))
  {
    var body := if approve then GrantedEvent(Needed(a.grant)) else RejectedEvent;
    NoCollision(a.stream, who, OnDecide, o.key);
    RecordResult(a, o.(actor := who), body, Some(approve), a.decisions + [Decision(who, approve, o.id)]);
  }

  lemma EligibleMayVote(a: Aggregate, p: Approver, humans: set<Account>)
    requires Inv(a, humans) && a.grant.status.Pending?
    requires CheckEligibility(a.grant, DeciderSet(a.decisions), p, humans).Ok?
    ensures MayVote(a, CheckEligibility(a.grant, DeciderSet(a.decisions), p, humans).value, humans)
  {
    EligibleIsEligible(a.grant, DeciderSet(a.decisions), p, humans);
  }

  /** What a decision does, case by case, without reference to the event store. */
  lemma DecideOutcome(a: Aggregate, approve: bool, p: Approver, humans: set<Account>, now: Time, o: Origin)
    requires Derived(a) && DistinctVoters(a.decisions) && (a.grant.status.Pending? ==> |a.stream| == 1)
    ensures var who := CheckEligibility(a.grant, DeciderSet(a.decisions), p, humans);
      var r := Decide(a, approve, p, humans, now, o);
      if !a.grant.status.Pending? || now >= a.grant.expiresAt || who.Err? then r.Err?
      else if approve && |a.decisions| + 1 < Needed(a.grant) then r == Ok(CastVote(a, who.value))
      else if approve && |a.decisions| + 1 > Needed(a.grant) then true
      else if o.refused then r == Err(EVENT_REFUSED)
      else r == Ok(ClosingVote(a, who.value, approve, o))
  {
    hide CheckEligibility, DistinctVoters, DeciderSet, ClosingVote, CastVote, Replay, Deciders, NextStatus;
    var who := CheckEligibility(a.grant, DeciderSet(a.decisions), p, humans);
    if a.grant.status.Pending? && now < a.grant.expiresAt && who.Ok? {
      DeciderSetSize(a.decisions);
      DecideBranches(a, approve, p, humans, now, o, who.value);
      if !approve || |a.decisions| + 1 == Needed(a.grant) {
        ClosingVoteRecorded(a, who.value, approve, o);
      }
    }
  }

  lemma VoteKeeps(a: Aggregate, who: Account, humans: set<Account>)
    requires MayVote(a, who, humans) && |a.decisions| + 1 < Needed(a.grant)
    ensures Inv(CastVote(a, who), humans)
  {
    VotingExtends(a, Decision(who, true, a.stream[|a.stream| - 1].id), humans);
  }

  lemma ClosingVoteShape(a: Aggregate, who: Account, approve: bool, o: Origin, humans: set<Account>)
    requires MayVote(a, who, humans) && (approve ==> |a.decisions| + 1 == Needed(a.grant))
    ensures Shape(ClosingVote(a, who, approve, o)) && Voting(ClosingVote(a, who, approve, o), humans)
  {
    var ds := a.decisions + [Decision(who, approve, o.id)];
    VotingExtends(a, Decision(who, approve, o.id), humans);
    assert ds[..|a.decisions|] == a.decisions;
  }

  lemma ClosingVoteKeeps(a: Aggregate, who: Account, approve: bool, o: Origin, humans: set<Account>)
    requires MayVote(a, who, humans) && (approve ==> |a.decisions| + 1 == Needed(a.grant))
    ensures Inv(ClosingVote(a, who, approve, o), humans)
  {
    ClosingVoteShape(a, who, approve, o, humans);
    ClosingVoteDerived(a, who, approve, o, humans);
    hide Shape, Voting, Derived, LedgerMatches, MayVote, ClosingVote;
  }

  lemma ClosingVoteDerived(a: Aggregate, who: Account, approve: bool, o: Origin, humans: set<Account>)
    requires MayVote(a, who, humans)
    ensures Derived(ClosingVote(a, who, approve, o))
    ensures LedgerMatches(ClosingVote(a, who, approve, o).consumptions, ClosingVote(a, who, approve, o).stream)
  {
    hide Voting, EligibleVoter, DeciderSet, Derived, Replay;
    var body := if approve then GrantedEvent(Needed(a.grant)) else RejectedEvent;
    LedgerKept(a.consumptions, a.stream, NewEvent(a, o.(actor := who), body));
    WrittenDerived(a, o.(actor := who), body, if approve then Approved else Rejected,
                   a.decisions + [Decision(who, approve, o.id)], a.consumptions);
  }

  lemma DecideKeeps(a: Aggregate, approve: bool, p: Approver, humans: set<Account>, now: Time, o: Origin)
    requires Inv(a, humans) && Decide(a, approve, p, humans, now, o).Ok?
    ensures Inv(Decide(a, approve, p, humans, now, o).value, humans)
  {
    DecideOutcome(a, approve, p, humans, now, o);
    EligibleMayVote(a, p, humans);
    var who := CheckEligibility(a.grant, DeciderSet(a.decisions), p, humans).value;
    if approve && |a.decisions| + 1 < Needed(a.grant) {
      VoteKeeps(a, who, humans);
    } else {
      ClosingVoteKeeps(a, who, approve, o, humans);
    }
  }

  lemma OpenStreamMisses(a: Aggregate, humans: set<Account>, actor: Account, scope: Scope, key: string)
    requires Inv(a, humans) && !Terminal(a.grant.status)
    requires scope.OnCancel? || scope.OnRevoke? || scope.OnExpire?
    ensures FindKey(a.stream, actor, scope, key).None?
  {
    OpenStream(a, humans);
    NoCollision(a.stream, actor, scope, key);
  }

  /** An aggregate whose expiry event is written and whose escalation is not. */
  ghost predicate HalfExpired(a: Aggregate, humans: set<Account>) {
    && Derived(a) && LedgerMatches(a.consumptions, a.stream) && Voting(a, humans)
    && a.grant.status.Expired? && Ended(a, 1) && a.stream[|a.stream| - 1].body == ExpiredEvent
    && forall i :: 0 <= i < |a.stream| ==> !a.stream[i].body.EscalatedEvent?
  }

  lemma EndedShape(a: Aggregate, e: Event, how: Ending, humans: set<Account>)
    requires Inv(a, humans) && !Terminal(a.grant.status) && e.body == EndingBody(how)
    ensures var b := Written(a, e, NextStatus(a.grant.status, e.body).value, a.decisions, a.consumptions);
      && Ended(b, 1) && (!how.Lapse? ==> Shape(b)) && b.stream[|b.stream| - 1].body == e.body
      && Voting(b, humans) && LedgerMatches(b.consumptions, b.stream)
      && forall i :: 0 <= i < |b.stream| ==> !b.stream[i].body.EscalatedEvent?
  {
    LedgerKept(a.consumptions, a.stream, e);
    OpenStream(a, humans);
  }

  lemma TerminateOutcome(a: Aggregate, how: Ending, o: Origin, humans: set<Account>)
    requires Inv(a, humans)
    ensures if Terminal(a.grant.status) then Terminate(a, how, o) == Err(APPROVAL_TERMINAL)
      else if o.refused then Terminate(a, how, o) == Err(EVENT_REFUSED) else
      var body := EndingBody(how);
      Terminate(a, how, o)
      == Ok(Written(a, NewEvent(a, o, body), NextStatus(a.grant.status, body).value, a.decisions, a.consumptions))
  {
    if !Terminal(a.grant.status) {
      OpenStreamMisses(a, humans, o.actor, ScopeOf(EndingBody(how)), o.key);
      RecordResult(a, o, EndingBody(how), None, a.decisions);
    }
  }

  lemma EndingDerived(a: Aggregate, how: Ending, o: Origin, humans: set<Account>)
    requires Inv(a, humans) && !Terminal(a.grant.status)
    ensures var body := EndingBody(how);
      && NextStatus(a.grant.status, body).Ok?
      && Derived(Written(a, NewEvent(a, o, body), NextStatus(a.grant.status, body).value, a.decisions, a.consumptions))
  {
    hide Shape, LedgerMatches, Voting, Derived, Replay;
    var body := EndingBody(how);
    WrittenDerived(a, o, body, NextStatus(a.grant.status, body).value, a.decisions, a.consumptions);
  }

  lemma TerminateKeeps(a: Aggregate, how: Ending, o: Origin, humans: set<Account>)
    requires Inv(a, humans)
    ensures Terminate(a, how, o).Ok? <==> !Terminal(a.grant.status) && !o.refused
    ensures Terminate(a, how, o).Ok? && !how.Lapse? ==> Inv(Terminate(a, how, o).value, humans)
    ensures Terminate(a, how, o).Ok? && how.Lapse? ==> HalfExpired(Terminate(a, how, o).value, humans)
  {
    hide Terminate, Shape, LedgerMatches, Voting, Derived, Replay, Ended;
    TerminateOutcome(a, how, o, humans);
    if !Terminal(a.grant.status) {
      EndedShape(a, NewEvent(a, o, EndingBody(how)), how, humans);
      EndingDerived(a, how, o, humans);
    }
  }

  lemma EscalatedShape(b: Aggregate, e: Event, humans: set<Account>)
    requires HalfExpired(b, humans) && e.body == EscalatedEvent
    ensures var c := Written(b, e, Expired, b.decisions, b.consumptions);
      Shape(c) && Voting(c, humans) && LedgerMatches(c.consumptions, c.stream)
  {
    LedgerKept(b.consumptions, b.stream, e);
  }

  lemma EscalationKeeps(b: Aggregate, e: Origin, humans: set<Account>)
    requires HalfExpired(b, humans)
    ensures var done := Append(b.stream, b.grant.aggregateSeq + 1, e, EscalatedEvent);
      && (done.Ok? <==> !e.refused)
      && (done.Ok? ==> Inv(Reproject(
           SetStatus(b.(stream := done.value.stream), Expired, done.value.event.seqNo), Expired, done.value.event.id),
           humans))
  {
    hide Shape, LedgerMatches, Voting, Replay, Deciders, FindKey;
    NoCollision(b.stream, e.actor, OnEscalate, e.key);
    if !e.refused {
      EscalatedShape(b, NewEvent(b, e, EscalatedEvent), humans);
      WrittenDerived(b, e, EscalatedEvent, Expired, b.decisions, b.consumptions);
    }
  }

  lemma ExpireKeeps(a: Aggregate, o: Origin, escalation: Origin, humans: set<Account>)
    requires Inv(a, humans)
    ensures Expire(a, o, escalation).Ok? <==> !Terminal(a.grant.status) && !o.refused && !escalation.refused
    ensures Expire(a, o, escalation).Ok? ==> Inv(Expire(a, o, escalation).value, humans)
  {
    if !Terminal(a.grant.status) {
      TerminateKeeps(a, Lapse, o, humans);
      if !o.refused {
        EscalationKeeps(Terminate(a, Lapse, o).value, escalation, humans);
      }
    }
  }

  /** A key that is not in the ledger is in no APPROVAL_CONSUMED event either. */
  lemma FreshUseMisses(a: Aggregate, humans: set<Account>, actor: Account, key: string)
    requires Inv(a, humans) && Consumable(a.grant.status) && FindConsumption(a.consumptions, key).None?
    ensures FindKey(a.stream, actor, OnConsume, key).None?
  {
    forall i | 0 <= i < |a.stream| ensures !SameIdempotencyKey(a.stream[i], actor, OnConsume, key) {
      if i >= 2 {
        assert a.stream[2 + (i - 2)].body == ConsumedEvent(a.consumptions[i - 2].key, i - 2 + 1);
      }
    }
  }

  /** Whether a use that is not a retry goes through: nothing but these five conditions stops it. */
  ghost predicate UseAllowed(a: Aggregate, consumedFor: Subject, now: Time, o: Origin) {
    && Consumable(a.grant.status) && a.grant.validFrom <= now < a.grant.expiresAt
    && consumedFor == a.grant.subject && UsesLeft(a) && !o.refused
  }

  lemma ConsumeOutcome(a: Aggregate, key: string, consumedFor: Subject, now: Time, o: Origin, humans: set<Account>)
    requires Inv(a, humans)
    ensures var r := Consume(a, key, consumedFor, now, o);
      var prior := FindConsumption(a.consumptions, key);
      if prior.Some? then
        r == Ok(Used(a, |a.consumptions|, a.grant.status, prior.value.eventId, true))
      else if UseAllowed(a, consumedFor, now, o) then
        var n := |a.consumptions| + 1;
        var status := StatusAfterConsumption(n, a.grant.maxUses);
        r == Ok(Used(Written(a, NewEvent(a, o.(key := key), ConsumedEvent(key, n)), status, a.decisions,
                             a.consumptions + [Consumption(key, o.actor, o.id)]), n, status, o.id, false))
      else r.Err?
  {
    hide Shape, LedgerMatches, Voting, Replay, Deciders, FindKey, FindConsumption;
    if FindConsumption(a.consumptions, key).None? && Consumable(a.grant.status) {
      FreshUseMisses(a, humans, o.actor, key);
    }
  }

  lemma UsedShape(a: Aggregate, e: Event, key: string, who: Account, humans: set<Account>)
    requires Inv(a, humans) && Consumable(a.grant.status) && UsesLeft(a) && FindConsumption(a.consumptions, key).None?
    requires e.body == ConsumedEvent(key, |a.consumptions| + 1)
    ensures var b := Written(a, e, StatusAfterConsumption(|a.consumptions| + 1, a.grant.maxUses), a.decisions,
                             a.consumptions + [Consumption(key, who, e.id)]);
      Shape(b) && Voting(b, humans) && LedgerMatches(b.consumptions, b.stream)
  {
  }

  lemma ConsumeKeeps(a: Aggregate, key: string, consumedFor: Subject, now: Time, o: Origin, humans: set<Account>)
    requires Inv(a, humans) && Consume(a, key, consumedFor, now, o).Ok?
    ensures Inv(Consume(a, key, consumedFor, now, o).value.after, humans)
  {
    ConsumeOutcome(a, key, consumedFor, now, o, humans);
    if FindConsumption(a.consumptions, key).None? {
      var n := |a.consumptions| + 1;
      var body := ConsumedEvent(key, n);
      UsedShape(a, NewEvent(a, o.(key := key), body), key, o.actor, humans);
      WrittenDerived(a, o.(key := key), body, StatusAfterConsumption(n, a.grant.maxUses), a.decisions,
                     a.consumptions + [Consumption(key, o.actor, o.id)]);
    }
  }
}
