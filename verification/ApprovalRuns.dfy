/** Safety of whole runs of approval commands, and the rebuild of the display projection from events. */
module ApprovalRuns {
  import opened Common
  import opened ApprovalModel
  import opened ApprovalInvariants

  datatype Command =
    | Vote(approve: bool, approver: Approver, now: Time, origin: Origin)
    | Withdraw(revoke: bool, origin: Origin)
    | Sweep(now: Time, origin: Origin, escalation: Origin)
    | Use(key: string, consumedFor: Subject, now: Time, origin: Origin)

  function OrElse(r: Outcome<Aggregate>, a: Aggregate): Aggregate {
    if r.Ok? then r.value else a
  }

  /** One committed command; a command that raises leaves the aggregate as it was. */
  function Apply(a: Aggregate, c: Command, humans: set<Account>): Aggregate {
    match c
    case Vote(approve, approver, now, o) => OrElse(Decide(a, approve, approver, humans, now, o), a)
    case Withdraw(revoke, o) => OrElse(Terminate(a, if revoke then Revoke else Cancel, o), a)
    case Sweep(now, o, escalation) => if Due(a.grant, now) then OrElse(Expire(a, o, escalation), a) else a
    case Use(key, consumedFor, now, o) =>
      var r := Consume(a, key, consumedFor, now, o);
      if r.Ok? then r.value.after else a
  }

  function Run(a: Aggregate, cs: seq<Command>, humans: set<Account>): Aggregate {
    if cs == [] then a else Apply(Run(a, cs[..|cs| - 1], humans), cs[|cs| - 1], humans)
  }

  lemma ApplyKeeps(a: Aggregate, c: Command, humans: set<Account>)
    requires Inv(a, humans)
    ensures Inv(Apply(a, c, humans), humans)
  {
    match c
    case Vote(approve, approver, now, o) =>
      if Decide(a, approve, approver, humans, now, o).Ok? {
        DecideKeeps(a, approve, approver, humans, now, o);
      }
    case Withdraw(revoke, o) => TerminateKeeps(a, if revoke then Revoke else Cancel, o, humans);
    case Sweep(now, o, escalation) => ExpireKeeps(a, o, escalation, humans);
    case Use(key, consumedFor, now, o) =>
      if Consume(a, key, consumedFor, now, o).Ok? {
        ConsumeKeeps(a, key, consumedFor, now, o, humans);
      }
  }

  lemma {:induction false} RunKeeps(a: Aggregate, cs: seq<Command>, humans: set<Account>)
    requires Inv(a, humans)
    ensures Inv(Run(a, cs, humans), humans)
  {
    if cs == [] {
    } else {
      RunKeeps(a, cs[..|cs| - 1], humans);
      ApplyKeeps(Run(a, cs[..|cs| - 1], humans), cs[|cs| - 1], humans);
    }
  }

  /** An aggregate some run of commands leads to, starting from a fresh request. */
  ghost predicate Reachable(a: Aggregate, humans: set<Account>) {
    exists r, o, cs :: Open(r, o).Ok? && a == Run(Open(r, o).value, cs, humans)
  }

  lemma ReachableKeeps(a: Aggregate, humans: set<Account>)
    requires Reachable(a, humans)
    ensures Inv(a, humans)
  {
    var r, o, cs :| Open(r, o).Ok? && a == Run(Open(r, o).value, cs, humans);
    OpenEstablishes(r, o, humans);
    RunKeeps(Open(r, o).value, cs, humans);
  }

  // ---------------------------------------------------------------- bounded use

  /** The APPROVAL_CONSUMED events of a stream, in order. */
  function UsesIn(stream: seq<Event>): seq<Event> {
    if stream == [] then []
    else
      var rest := UsesIn(stream[..|stream| - 1]);
      if stream[|stream| - 1].body.ConsumedEvent? then rest + [stream[|stream| - 1]] else rest
  }

  lemma {:induction false} UsesAreContiguous(stream: seq<Event>, from: nat, to: nat)
    requires from <= to <= |stream|
    requires forall i :: 0 <= i < |stream| ==> (stream[i].body.ConsumedEvent? <==> from <= i < to)
    ensures UsesIn(stream) == stream[from..to]
    decreases |stream|
  {
    if stream == [] {
    } else {
      var n := |stream| - 1;
      var rest := stream[..n];
      if to == |stream| && from < to {
        assert rest[from..n] == stream[from..n] && stream[from..to] == stream[from..n] + [stream[n]];
        UsesAreContiguous(rest, from, n);
      } else if to == |stream| {
        UsesAreContiguous(rest, n, n);
      } else {
        UsesAreContiguous(rest, from, to);
        assert stream[from..to] == rest[from..to];
      }
    }
  }

  /** Where each kind of event sits in the stream of an aggregate. */
  lemma Layout(a: Aggregate, humans: set<Account>, i: nat)
    requires Inv(a, humans) && i < |a.stream|
    ensures var b := a.stream[i].body;
      if i == 0 then b.RequestedEvent?
      else if a.stream[1].body.GrantedEvent? then
        if i == 1 then true
        else if i < 2 + |a.consumptions| then b == ConsumedEvent(a.consumptions[i - 2].key, i - 1)
        else if i == 2 + |a.consumptions| then b.CancelledEvent? || b.ExpiredEvent? || b.RevokedEvent?
        else b.EscalatedEvent?
      else
        && a.consumptions == []
        && (i == 1 ==> b.RejectedEvent? || b.CancelledEvent? || b.ExpiredEvent? || b.RevokedEvent?)
        && (i > 1 ==> b.EscalatedEvent?)
  {
    if 2 <= i < 2 + |a.consumptions| {
      assert a.stream[2 + (i - 2)].body == ConsumedEvent(a.consumptions[i - 2].key, i - 2 + 1);
    }
  }

  /** Over every run: never more uses than allowed, one per key, numbered by their events; CONSUMED when full. */
  lemma BoundedUse(a: Aggregate, humans: set<Account>)
    requires Reachable(a, humans)
    ensures a.grant.maxUses.Some? ==> |a.consumptions| <= a.grant.maxUses.value
    ensures a.grant.status.Consumed? <==> a.grant.maxUses == Some(|a.consumptions|)
    ensures forall i, j :: 0 <= i < j < |a.consumptions| ==> a.consumptions[i].key != a.consumptions[j].key
    ensures |UsesIn(a.stream)| == |a.consumptions|
    ensures forall k :: 0 <= k < |a.consumptions| ==>
      && UsesIn(a.stream)[k].body == ConsumedEvent(a.consumptions[k].key, k + 1)
      && UsesIn(a.stream)[k].id == a.consumptions[k].eventId
  {
    ReachableKeeps(a, humans);
    var cs := a.consumptions;
    var from := if cs == [] then 0 else 2;
    forall i | 0 <= i < |a.stream| ensures a.stream[i].body.ConsumedEvent? <==> from <= i < from + |cs| {
      Layout(a, humans, i);
    }
    UsesAreContiguous(a.stream, from, from + |cs|);
  }

  // ---------------------------------------------------------------- quorum

  ghost predicate EverApproved(a: Aggregate) {
    exists i :: 0 <= i < |a.stream| && a.stream[i].body.GrantedEvent?
  }

  lemma GrantIsSecond(a: Aggregate, humans: set<Account>)
    requires Inv(a, humans)
    ensures EverApproved(a) <==> |a.stream| >= 2 && a.stream[1].body.GrantedEvent?
  {
    hide Inv;
    if EverApproved(a) {
      var i :| 0 <= i < |a.stream| && a.stream[i].body.GrantedEvent?;
      Layout(a, humans, i);
    }
  }

  lemma VotesByPhase(a: Aggregate, humans: set<Account>)
    requires Inv(a, humans)
    ensures |a.stream| >= 2 && a.stream[1].body.GrantedEvent? ==>
      |a.decisions| == Needed(a.grant) && AllApprove(a.decisions)
    ensures a.grant.status.Pending? ==> |a.decisions| < Needed(a.grant) && AllApprove(a.decisions)
    ensures a.consumptions != [] || Consumable(a.grant.status) || a.grant.status.Consumed? ==>
      |a.stream| >= 2 && a.stream[1].body.GrantedEvent?
  {
    hide LedgerMatches, Voting, Needed, AllApprove, Replay, Deciders;
  }

  lemma VotersAre(a: Aggregate, humans: set<Account>)
    requires Inv(a, humans)
    ensures |DeciderSet(a.decisions)| == |a.decisions|
    ensures forall who :: who in DeciderSet(a.decisions) ==> EligibleVoter(a.grant, who, humans)
    ensures Needed(a.grant) == if a.grant.risk.CRITICAL? then 2 else 1
  {
    hide Derived, Shape, LedgerMatches, EligibleVoter;
    DeciderSetSize(a.decisions);
    NeededByRisk(a, humans);
  }

  /**
   An approval was granted by exactly the needed number of distinct eligible votes, all of them for it: two where the
   risk is CRITICAL, one everywhere else.
   */
  lemma QuorumMet(a: Aggregate, humans: set<Account>)
    requires Reachable(a, humans)
    ensures EverApproved(a) ==> |a.decisions| == |DeciderSet(a.decisions)| == Needed(a.grant) && AllApprove(a.decisions)
    ensures a.grant.status.Pending? ==> |a.decisions| < Needed(a.grant) && AllApprove(a.decisions)
    ensures a.consumptions != [] || Consumable(a.grant.status) || a.grant.status.Consumed? ==> EverApproved(a)
    ensures forall who :: who in DeciderSet(a.decisions) ==> EligibleVoter(a.grant, who, humans)
    ensures Needed(a.grant) == if a.grant.risk.CRITICAL? then 2 else 1
  {
    hide *;
    ReachableKeeps(a, humans);
    GrantIsSecond(a, humans);
    VotesByPhase(a, humans);
    VotersAre(a, humans);
  }

  // ---------------------------------------------------------------- derived columns, monotonicity

  /** The grant's status and sequence number and the whole projection follow from stream and ledgers alone. */
  lemma ColumnsAreDerived(a: Aggregate, humans: set<Account>)
    requires Reachable(a, humans)
    ensures |a.stream| >= 1 && a.grant.aggregateSeq == |a.stream|
    ensures forall i :: 0 <= i < |a.stream| ==> a.stream[i].seqNo == i + 1
    ensures a.grant.status == Replay(a.stream, a.grant.maxUses)
    ensures a.projection == Projection(Replay(a.stream, a.grant.maxUses), |UsesIn(a.stream)|, Deciders(a.decisions),
                                       a.stream[|a.stream| - 1].id)
  {
    hide Shape, LedgerMatches, Voting, UsesIn, Reachable, Replay, Deciders;
    ReachableKeeps(a, humans);
    BoundedUse(a, humans);
  }

  /** `b` extends `a`: the ledgers and the stream only grew and the terms of the grant did not change. */
  ghost predicate Extends(a: Aggregate, b: Aggregate) {
    && a.stream <= b.stream && a.decisions <= b.decisions && a.consumptions <= b.consumptions
    && b.grant == a.grant.(status := b.grant.status, aggregateSeq := b.grant.aggregateSeq)
    && (Terminal(a.grant.status) ==> a == b)
  }

  lemma ExpireExtends(a: Aggregate, o: Origin, escalation: Origin, humans: set<Account>)
    requires Inv(a, humans) && Expire(a, o, escalation).Ok?
    ensures Extends(a, Expire(a, o, escalation).value)
  {
    TerminateOutcome(a, Lapse, o, humans);
    var b := Terminate(a, Lapse, o).value;
    AppendGrows(b.stream, b.grant.aggregateSeq + 1, escalation, EscalatedEvent);
    hide Inv, Terminate, NextStatus, Append, Deciders;
  }

  lemma AppendGrows(stream: seq<Event>, expectedSeq: nat, o: Origin, body: Body)
    ensures Append(stream, expectedSeq, o, body).Ok? ==> stream <= Append(stream, expectedSeq, o, body).value.stream
  {
    hide FindKey;
  }

  lemma VoteExtends(a: Aggregate, approve: bool, p: Approver, now: Time, o: Origin, humans: set<Account>)
    requires Inv(a, humans) && Decide(a, approve, p, humans, now, o).Ok?
    ensures Extends(a, Decide(a, approve, p, humans, now, o).value)
  {
    hide Decide, CheckEligibility, LedgerMatches, EligibleVoter, Replay, Deciders;
    DecideOutcome(a, approve, p, humans, now, o);
  }

  lemma UseExtends(a: Aggregate, key: string, consumedFor: Subject, now: Time, o: Origin, humans: set<Account>)
    requires Inv(a, humans) && Consume(a, key, consumedFor, now, o).Ok?
    ensures Extends(a, Consume(a, key, consumedFor, now, o).value.after)
  {
    hide Consume, FindConsumption, Inv, Deciders;
    ConsumeOutcome(a, key, consumedFor, now, o, humans);
  }

  lemma ApplyExtends(a: Aggregate, c: Command, humans: set<Account>)
    requires Inv(a, humans)
    ensures Extends(a, Apply(a, c, humans))
  {
    hide Decide, Terminate, Expire, Consume, Inv, Deciders;
    match c
    case Vote(approve, approver, now, o) =>
      if Decide(a, approve, approver, humans, now, o).Ok? {
        VoteExtends(a, approve, approver, now, o, humans);
      }
    case Withdraw(revoke, o) => TerminateOutcome(a, if revoke then Revoke else Cancel, o, humans);
    case Sweep(now, o, escalation) =>
      if Expire(a, o, escalation).Ok? {
        ExpireExtends(a, o, escalation, humans);
      }
    case Use(key, consumedFor, now, o) =>
      if Consume(a, key, consumedFor, now, o).Ok? {
        UseExtends(a, key, consumedFor, now, o, humans);
      }
  }

  lemma {:induction false} RunExtends(a: Aggregate, cs: seq<Command>, humans: set<Account>)
    requires Inv(a, humans)
    ensures Extends(a, Run(a, cs, humans))
  {
    if cs == [] {
    } else {
      RunExtends(a, cs[..|cs| - 1], humans);
      RunKeeps(a, cs[..|cs| - 1], humans);
      ApplyExtends(Run(a, cs[..|cs| - 1], humans), cs[|cs| - 1], humans);
    }
  }

  /** Once a key was consumed, retrying it after any further run returns the same event and changes nothing. */
  lemma RetryReplays(a: Aggregate, cs: seq<Command>, key: string, consumedFor: Subject, now: Time, o: Origin,
                     humans: set<Account>)
    requires Reachable(a, humans) && FindConsumption(a.consumptions, key).Some?
    ensures var b := Run(a, cs, humans);
      var r := Consume(b, key, consumedFor, now, o);
      r.Ok? && r.value.replayed && r.value.after == b
      && r.value.eventId == FindConsumption(a.consumptions, key).value.eventId
  {
    ReachableKeeps(a, humans);
    RunExtends(a, cs, humans);
    FirstInPrefix(a.consumptions, Run(a, cs, humans).consumptions, (c: Consumption) => c.key == key);
  }

  // ---------------------------------------------------------------- exact success conditions

  /** Votes, withdrawals and uses succeed exactly when their guards allow: the store never adds a conflict. */
  lemma ExactOutcomes(a: Aggregate, approve: bool, p: Approver, now: Time, key: string, consumedFor: Subject,
                      o: Origin, humans: set<Account>)
    requires Reachable(a, humans)
    ensures Decide(a, approve, p, humans, now, o).Ok? <==>
      && a.grant.status.Pending? && now < a.grant.expiresAt
      && CheckEligibility(a.grant, DeciderSet(a.decisions), p, humans).Ok?
      && ((approve && |a.decisions| + 1 < Needed(a.grant)) || !o.refused)
    ensures Terminate(a, Cancel, o).Ok? <==> !Terminal(a.grant.status) && !o.refused
    ensures Terminate(a, Revoke, o).Ok? <==> !Terminal(a.grant.status) && !o.refused
    ensures Consume(a, key, consumedFor, now, o).Ok? <==>
      FindConsumption(a.consumptions, key).Some? || UseAllowed(a, consumedFor, now, o)
  {
    ReachableKeeps(a, humans);
    TerminateKeeps(a, Cancel, o, humans);
    TerminateKeeps(a, Revoke, o, humans);
    ConsumeOutcome(a, key, consumedFor, now, o, humans);
    DecideOutcome(a, approve, p, humans, now, o);
  }

  // ---------------------------------------------------------------- projection rebuild

  /** One step of the rebuild: only APPROVAL_REQUESTED creates the row, later events update it. */
  function RebuildStep(p: Option<Projection>, e: Event, ds: seq<Decision>, maxUses: Option<nat>): Option<Projection> {
    if e.body.RequestedEvent? then
      if p.None? then Some(Projection(Pending, 0, [], e.id)) else p
    else if p.None? then None
    else match e.body
      case ConsumedEvent(_, n) =>
        Some(Projection(StatusAfterConsumption(n, maxUses), n, Deciders(ds), e.id))
      case EscalatedEvent => Some(p.value.(lastEventId := e.id))
      case GrantedEvent(_) => Some(p.value.(status := Approved, deciders := Deciders(ds), lastEventId := e.id))
      case RejectedEvent => Some(p.value.(status := Rejected, deciders := Deciders(ds), lastEventId := e.id))
      case CancelledEvent => Some(p.value.(status := Cancelled, deciders := Deciders(ds), lastEventId := e.id))
      case ExpiredEvent => Some(p.value.(status := Expired, deciders := Deciders(ds), lastEventId := e.id))
      case RevokedEvent => Some(p.value.(status := Revoked, deciders := Deciders(ds), lastEventId := e.id))
  }

  function Rebuilt(stream: seq<Event>, ds: seq<Decision>, maxUses: Option<nat>): Option<Projection> {
    if stream == [] then None
    else RebuildStep(Rebuilt(stream[..|stream| - 1], ds, maxUses), stream[|stream| - 1], ds, maxUses)
  }

  /** `rebuild_approvals` for one approval: delete the row, then apply every event in recorded order. */
  method RebuildProjection(stream: seq<Event>, ds: seq<Decision>, maxUses: Option<nat>) returns (p: Option<Projection>)
    ensures p == Rebuilt(stream, ds, maxUses)
  {
    p := None;
    for i := 0 to |stream|
      invariant p == Rebuilt(stream[..i], ds, maxUses)
    {
      assert stream[..i + 1][..i] == stream[..i];
      p := RebuildStep(p, stream[i], ds, maxUses);
    }
    assert stream[..|stream|] == stream;
  }

  /** The status before any closing event: APPROVED, or PARTIALLY_CONSUMED after some use. */
  lemma ReplayBeforeClosing(a: Aggregate, humans: set<Account>)
    requires Inv(a, humans) && |a.stream| > 2 + |a.consumptions| && a.stream[1].body.GrantedEvent?
    ensures Consumable(Replay(a.stream[..2 + |a.consumptions|], a.grant.maxUses))
  {
    var n, uses := 2 + |a.consumptions|, a.grant.maxUses;
    Layout(a, humans, n - 1);
    assert a.stream[..n] == a.stream[..n - 1] + [a.stream[n - 1]];
    ReplayAppends(a.stream[..n - 1], a.stream[n - 1], uses);
    if n == 2 {
      assert a.stream[..1] == [] + [a.stream[0]];
      ReplayAppends([], a.stream[0], uses);
    } else {
      assert UsesLeft(a);
    }
  }

  /** Every status-changing event of a reachable stream is one the transition table allows at its place. */
  lemma LegalAtItsPlace(a: Aggregate, humans: set<Account>, i: nat)
    requires Inv(a, humans) && 1 <= i < |a.stream|
    ensures var b := a.stream[i].body;
      !b.RequestedEvent? && (b.EscalatedEvent? || b.ConsumedEvent?
                             || NextStatus(Replay(a.stream[..i], a.grant.maxUses), b).Ok?)
  {
    Layout(a, humans, i);
    if i == 1 {
      assert a.stream[..1] == [] + [a.stream[0]];
      ReplayAppends([], a.stream[0], a.grant.maxUses);
    } else if i == 2 + |a.consumptions| && a.stream[1].body.GrantedEvent? {
      ReplayBeforeClosing(a, humans);
    }
  }

  function UsesBefore(uses: nat, n: nat): nat {
    if n <= 2 then 0 else if n <= 2 + uses then n - 2 else uses
  }

  ghost predicate LegalAt(stream: seq<Event>, maxUses: Option<nat>, uses: nat, i: nat)
    requires i < |stream|
  {
    var b := stream[i].body;
    if i == 0 then b.RequestedEvent?
    else
      && !b.RequestedEvent?
      && UsesBefore(uses, i + 1) == (if b.ConsumedEvent? then b.usedCount else UsesBefore(uses, i))
      && (b.EscalatedEvent? ==> i > 1)
      && (b.EscalatedEvent? || b.ConsumedEvent? || NextStatus(Replay(stream[..i], maxUses), b).Ok?)
  }

  lemma PrefixStep(stream: seq<Event>, n: nat)
    requires 1 <= n <= |stream|
    ensures stream[..n] == stream[..n - 1] + [stream[n - 1]]
  {
  }

  lemma RebuiltStep(stream: seq<Event>, ds: seq<Decision>, maxUses: Option<nat>, n: nat)
    requires 1 <= n <= |stream|
    ensures Rebuilt(stream[..n], ds, maxUses)
      == RebuildStep(Rebuilt(stream[..n - 1], ds, maxUses), stream[n - 1], ds, maxUses)
  {
    assert stream[..n][..n - 1] == stream[..n - 1];
  }

  lemma NothingRebuilt(ds: seq<Decision>, maxUses: Option<nat>)
    ensures Rebuilt([], ds, maxUses) == None && Replay([], maxUses) == Pending
  {
  }

  /** The row the rebuild has reached after the first `n` events. */
  function RowAfter(stream: seq<Event>, ds: seq<Decision>, maxUses: Option<nat>, uses: nat, n: nat): Projection
    requires 1 <= n <= |stream|
  {
    Projection(Replay(stream[..n], maxUses), UsesBefore(uses, n), if n == 1 then [] else Deciders(ds),
               stream[n - 1].id)
  }

  lemma RebuiltFirst(stream: seq<Event>, ds: seq<Decision>, maxUses: Option<nat>, uses: nat)
    requires stream != [] && LegalAt(stream, maxUses, uses, 0)
    ensures Rebuilt(stream[..1], ds, maxUses) == Some(RowAfter(stream, ds, maxUses, uses, 1))
  {
    RebuiltStep(stream, ds, maxUses, 1);
    PrefixStep(stream, 1);
    ReplayAppends(stream[..0], stream[0], maxUses);
    NothingRebuilt(ds, maxUses);
    assert stream[..0] == [];
    hide Rebuilt, Replay, Deciders;
  }

  lemma RebuiltNext(stream: seq<Event>, ds: seq<Decision>, maxUses: Option<nat>, uses: nat, n: nat)
    requires 1 < n <= |stream| && LegalAt(stream, maxUses, uses, n - 1)
    requires Rebuilt(stream[..n - 1], ds, maxUses) == Some(RowAfter(stream, ds, maxUses, uses, n - 1))
    ensures Rebuilt(stream[..n], ds, maxUses) == Some(RowAfter(stream, ds, maxUses, uses, n))
  {
    hide Rebuilt, Replay, Deciders, NextStatus, RebuildStep, ReplayStep;
    RebuiltStep(stream, ds, maxUses, n);
    PrefixStep(stream, n);
    ReplayAppends(stream[..n - 1], stream[n - 1], maxUses);
    LegalStepRebuilds(RowAfter(stream, ds, maxUses, uses, n - 1), stream[n - 1], ds, maxUses);
  }

  lemma {:induction false} RebuiltPrefix(stream: seq<Event>, ds: seq<Decision>, maxUses: Option<nat>, uses: nat, n: nat)
    requires 1 <= n <= |stream| && forall i :: 0 <= i < |stream| ==> LegalAt(stream, maxUses, uses, i)
    ensures Rebuilt(stream[..n], ds, maxUses) == Some(RowAfter(stream, ds, maxUses, uses, n))
  {
    hide Rebuilt, LegalAt, RowAfter;
    if n == 1 {
      RebuiltFirst(stream, ds, maxUses, uses);
    } else {
      RebuiltPrefix(stream, ds, maxUses, uses, n - 1);
      RebuiltNext(stream, ds, maxUses, uses, n);
    }
  }

  /** On a legal event the rebuild and the replay agree about the status. */
  lemma LegalStepRebuilds(p: Projection, e: Event, ds: seq<Decision>, maxUses: Option<nat>)
    requires !e.body.RequestedEvent?
    requires e.body.EscalatedEvent? || e.body.ConsumedEvent? || NextStatus(p.status, e.body).Ok?
    ensures RebuildStep(Some(p), e, ds, maxUses) == Some(Projection(
      ReplayStep(p.status, e.body, maxUses), if e.body.ConsumedEvent? then e.body.usedCount else p.usedCount,
      if e.body.EscalatedEvent? then p.deciders else Deciders(ds), e.id))
  {
  }

  lemma RebuiltFromStream(a: Aggregate, humans: set<Account>)
    requires Inv(a, humans)
    ensures Rebuilt(a.stream, a.decisions, a.grant.maxUses)
      == Some(if a.grant.status.Pending? then a.projection.(deciders := []) else a.projection)
  {
    var n, uses := |a.stream|, |a.consumptions|;
    forall i | 0 <= i < n ensures LegalAt(a.stream, a.grant.maxUses, uses, i) {
      Layout(a, humans, i);
      if i > 0 {
        LegalAtItsPlace(a, humans, i);
      }
    }
    RebuiltPrefix(a.stream, a.decisions, a.grant.maxUses, uses, n);
    assert a.stream[..n] == a.stream;
    assert UsesBefore(uses, n) == uses && (n == 1 <==> a.grant.status.Pending?);
  }

  /**
   Rebuilding the projection from events gives back the live row except while an approval is still pending
   with votes already cast: such votes append no event, so the rebuilt row lists no decider.
   */
  lemma RebuildMatchesExactly(a: Aggregate, humans: set<Account>)
    requires Reachable(a, humans)
    ensures Rebuilt(a.stream, a.decisions, a.grant.maxUses) == Some(a.projection)
      <==> !(a.grant.status.Pending? && a.decisions != [])
  {
    ReachableKeeps(a, humans);
    RebuiltFromStream(a, humans);
    assert Deciders(a.decisions) == [] <==> a.decisions == [];
  }

  function TwoVoteRequest(): Request {
    Request(Subject("", ""), CRITICAL, None, 1, None, None, None, false)
  }

  function PersonSeven(): Approver {
    Approver(Some(7), true, map[], Allowed, true, true)
  }

  lemma TwoVotesOpen(o: Origin)
    requires !o.refused && o.at == 0
    ensures Open(TwoVoteRequest(), o).Ok?
    ensures var a := Open(TwoVoteRequest(), o).value;
      && a.grant.status.Pending? && a.decisions == [] && a.grant.quorum == 2 && a.grant.expiresAt == EXPIRY_HOURS * HOUR
      && a.grant.requestedBy == 1 && a.grant.implementing.None? && a.grant.risk.CRITICAL?
  {
  }

  lemma SevenIsEligible(g: Grant)
    requires g.requestedBy == 1 && g.implementing.None?
    ensures CheckEligibility(g, {}, PersonSeven(), {7}) == Ok(7)
  {
  }

  /** A CRITICAL request with one of its two votes cast: the live row names the voter, the rebuilt row does not. */
  lemma RebuildForgetsVotes()
    ensures exists a, humans :: Reachable(a, humans) && a.projection.deciders == [7] && ForgetsDeciders(a)
  {
    hide Open, Apply, CheckEligibility, ForgetsDeciders, Inv, PersonSeven, TwoVoteRequest;
    var r, o := TwoVoteRequest(), Origin(0, 1, "", 0, false);
    TwoVotesOpen(o);
    OpenEstablishes(r, o, {7});
    var a0, c := Open(r, o).value, Vote(true, PersonSeven(), 5, Origin(1, 7, "", 5, false));
    SevenIsEligible(a0.grant);
    FirstVote(a0, PersonSeven(), {7}, c);
    var a := Apply(a0, c, {7});
    assert Run(a0, [c], {7}) == a by {
      assert [c][..0] == [] && Run(a0, [], {7}) == a0;
    }
    assert Reachable(a, {7});
  }

  lemma FirstVote(a: Aggregate, voter: Approver, humans: set<Account>, c: Command)
    requires Inv(a, humans) && a.grant.status.Pending? && a.decisions == [] && a.grant.quorum == 2
    requires CheckEligibility(a.grant, {}, voter, humans) == Ok(7)
    requires c.Vote? && c.approve && c.approver == voter && c.now < a.grant.expiresAt
    ensures Apply(a, c, humans).projection.deciders == [7] && ForgetsDeciders(Apply(a, c, humans))
  {
    assert DeciderSet(a.decisions) == {};
    DecideOutcome(a, true, voter, humans, c.now, c.origin);
    ApplyKeeps(a, c, humans);
    OneDecider(7, a.stream[|a.stream| - 1].id);
    hide Inv, Decide, CheckEligibility, Deciders, Rebuilt;
    RebuiltFromStream(Apply(a, c, humans), humans);
  }

  lemma OneDecider(who: Account, id: EventId)
    ensures Deciders([] + [Decision(who, true, id)]) == [who] && Deciders([Decision(who, true, id)]) == [who]
  {
    var ds := [Decision(who, true, id)];
    assert ds[..0] == [] && [] + ds == ds && Deciders([]) == [];
  }

  ghost predicate ForgetsDeciders(a: Aggregate) {
    Rebuilt(a.stream, a.decisions, a.grant.maxUses) == Some(a.projection.(deciders := []))
  }
}
