/**
 The approval service as it runs: one object holds the rows of one approval, and each method performs the
 statements of one command on them. Contracts tie the new rows to the command's specification on the old ones.
 */
module ApprovalService {
  import opened Common
  import opened ApprovalModel
  import opened ApprovalInvariants

  datatype Decided = Decided(status: Status, approvals: nat)
  datatype Receipt = Receipt(usedCount: nat, status: Status, eventId: EventId, replayed: bool)

  function ReceiptFor(u: Used): Receipt {
    Receipt(u.usedCount, u.status, u.eventId, u.replayed)
  }

  /** The rows after an accepted event: stream, ledgers, status columns, projection. */
  function AfterEvent(a: Aggregate, done: Appended, status: Status, ds: seq<Decision>, cs: seq<Consumption>)
    : Aggregate
  {
    Aggregate(a.grant.(status := status, aggregateSeq := done.event.seqNo), ds, cs, done.stream,
              Projection(status, |cs|, Deciders(ds), done.event.id))
  }

  lemma RecordSteps(a: Aggregate, o: Origin, body: Body, decision: Option<bool>)
    requires NextStatus(a.grant.status, body).Ok?
    ensures var done := Append(a.stream, a.grant.aggregateSeq + 1, o, body);
      Record(a, o, body, decision) ==
        if done.Err? then Err(done.code)
        else Ok(AfterEvent(a, done.value, NextStatus(a.grant.status, body).value,
          if decision.Some? then a.decisions + [Decision(o.actor, decision.value, done.value.event.id)]
          else a.decisions, a.consumptions))
  {
    hide Append, NextStatus, Deciders;
  }

  /** A command's result as the specification states it: the rows it leaves behind, or its error code. */
  function Landed<T>(r: Outcome<T>, rows: Aggregate): Outcome<Aggregate> {
    if r.Ok? then Ok(rows) else Err(r.code)
  }

  class Approval {
    var grant: Grant
    var decisions: seq<Decision>
    var consumptions: seq<Consumption>
    var stream: seq<Event>
    var projection: Projection

    function Value(): Aggregate
      reads this
    {
      Aggregate(grant, decisions, consumptions, stream, projection)
    }

    constructor (g: Grant)
      ensures Value() == Aggregate(g, [], [], [], Projection(Pending, 0, [], 0))
    {
      grant, decisions, consumptions, stream, projection := g, [], [], [], Projection(Pending, 0, [], 0);
    }

    /** The rows of an approval as another handler finds them. */
    constructor Loaded(a: Aggregate)
      ensures Value() == a
    {
      grant, decisions, consumptions, stream, projection :=
        a.grant, a.decisions, a.consumptions, a.stream, a.projection;
    }

    // ---------------------------------------------------------------- single statements

    method AppendEvent(expectedSeq: nat, o: Origin, body: Body) returns (r: Outcome<Event>)
      modifies `stream
      ensures Append(old(stream), expectedSeq, o, body)
        == if r.Ok? then Ok(Appended(stream, r.value)) else Err(r.code)
      ensures r.Err? ==> stream == old(stream)
    {
      var done := Append(stream, expectedSeq, o, body);
      if done.Err? {
        return Err(done.code);
      }
      stream := done.value.stream;
      r := Ok(done.value.event);
    }

    method UpdateStatus(status: Status, seqNo: nat)
      modifies `grant
      ensures grant == old(grant).(status := status, aggregateSeq := seqNo)
    {
      grant := grant.(status := status, aggregateSeq := seqNo);
    }

    method UpsertProjection(status: Status, eventId: EventId)
      modifies `projection
      ensures projection == Projection(status, |consumptions|, Deciders(decisions), eventId)
    {
      projection := Projection(status, |consumptions|, Deciders(decisions), eventId);
    }

    // ---------------------------------------------------------------- commands

    method DecideApproval(approve: bool, approver: Approver, humans: set<Account>, now: Time, o: Origin)
      returns (r: Outcome<Decided>)
      modifies this
      ensures Decide(old(Value()), approve, approver, humans, now, o) == Landed(r, Value())
      ensures if r.Ok? then r.value.status == grant.status else Value() == old(Value())
    {
      hide Record, CheckEligibility;
      if !grant.status.Pending? {
        return Err(APPROVAL_NOT_PENDING);
      }
      if now >= grant.expiresAt {
        return Err(APPROVAL_NOT_USABLE);
      }
      var prior := DeciderSet(decisions);
      var eligible := CheckEligibility(grant, prior, approver, humans);
      if eligible.Err? {
        return Err(eligible.code);
      }
      var who := eligible.value;
      var approvals := |prior| + 1;
      if !approve || approvals >= grant.quorum {
        var body := if approve then GrantedEvent(approvals) else RejectedEvent;
        r := RecordDecision(o.(actor := who), body, approve, if approve then approvals else |prior|);
      } else if stream == [] {
        return Err(EVENT_STREAM_EMPTY);
      } else {
        var last := stream[|stream| - 1].id;
        decisions := decisions + [Decision(who, true, last)];
        UpsertProjection(Pending, last);
        r := Ok(Decided(Pending, approvals));
      }
    }

    /** The statements after an event that closes the vote: append, ledger row, status, projection. */
    method RecordDecision(o: Origin, body: Body, approve: bool, approvals: nat) returns (r: Outcome<Decided>)
      requires NextStatus(grant.status, body).Ok?
      modifies this
      ensures Record(old(Value()), o, body, Some(approve)) == Landed(r, Value())
      ensures if r.Ok? then r.value == Decided(grant.status, approvals) else Value() == old(Value())
    {
      hide Append, NextStatus;
      RecordSteps(Value(), o, body, Some(approve));
      var status := NextStatus(grant.status, body).value;
      var event := AppendEvent(grant.aggregateSeq + 1, o, body);
      if event.Err? {
        return Err(event.code);
      }
      decisions := decisions + [Decision(o.actor, approve, event.value.id)];
      UpdateStatus(status, event.value.seqNo);
      UpsertProjection(status, event.value.id);
      assert Value() == AfterEvent(old(Value()), Appended(stream, event.value), status, decisions, consumptions);
      r := Ok(Decided(status, approvals));
    }

    method TerminateWith(how: Ending, o: Origin) returns (r: Outcome<EventId>)
      modifies this
      ensures Terminate(old(Value()), how, o) == Landed(r, Value())
      ensures r.Err? ==> Value() == old(Value())
    {
      var next := NextStatus(grant.status, EndingBody(how));
      if next.Err? {
        return Err(next.code);
      }
      var event := AppendEvent(grant.aggregateSeq + 1, o, EndingBody(how));
      if event.Err? {
        return Err(event.code);
      }
      UpdateStatus(next.value, event.value.seqNo);
      UpsertProjection(next.value, event.value.id);
      r := Ok(event.value.id);
    }

    /** Only the requester or an administrator may cancel. */
    method CancelApproval(o: Origin, admin: bool) returns (r: Outcome<EventId>)
      modifies this
      ensures Landed(r, Value()) == if old(grant.requestedBy) != o.actor && !admin then
        Err(APPROVAL_CANCEL_FORBIDDEN) else Terminate(old(Value()), Cancel, o)
      ensures r.Err? ==> Value() == old(Value())
    {
      if grant.requestedBy != o.actor && !admin {
        return Err(APPROVAL_CANCEL_FORBIDDEN);
      }
      r := TerminateWith(Cancel, o);
    }

    method RevokeApproval(o: Origin) returns (r: Outcome<EventId>)
      modifies this
      ensures Terminate(old(Value()), Revoke, o) == Landed(r, Value())
      ensures r.Err? ==> Value() == old(Value())
    {
      r := TerminateWith(Revoke, o);
    }

    method ConsumeApproval(key: string, consumedFor: Subject, now: Time, o: Origin) returns (r: Outcome<Receipt>)
      modifies this
      ensures var d := Consume(old(Value()), key, consumedFor, now, o);
        if d.Err? then r == Err(d.code) && Value() == old(Value())
        else r == Ok(ReceiptFor(d.value)) && Value() == d.value.after
    {
      hide Append, StatusAfterConsumption;
      var existing := FindConsumption(consumptions, key);
      if existing.Some? {
        return Ok(Receipt(|consumptions|, grant.status, existing.value.eventId, true));
      }
      if grant.status.Consumed? {
        return Err(APPROVAL_EXHAUSTED);
      }
      if !Consumable(grant.status) || !(grant.validFrom <= now < grant.expiresAt) {
        return Err(APPROVAL_NOT_USABLE);
      }
      if consumedFor != grant.subject {
        return Err(APPROVAL_SCOPE_MISMATCH);
      }
      var used := |consumptions|;
      if grant.maxUses.Some? && used >= grant.maxUses.value {
        return Err(APPROVAL_EXHAUSTED);
      }
      var event := AppendEvent(grant.aggregateSeq + 1, o.(key := key), ConsumedEvent(key, used + 1));
      if event.Err? {
        return Err(event.code);
      }
      consumptions := consumptions + [Consumption(key, o.actor, event.value.id)];
      ghost var written := Value();
      var status := StatusAfterConsumption(used + 1, grant.maxUses);
      UpdateStatus(status, event.value.seqNo);
      UpsertProjection(status, event.value.id);
      assert Value() == Reproject(SetStatus(written, status, event.value.seqNo), status, event.value.id);
      r := Ok(Receipt(used + 1, status, event.value.id, false));
    }

    /** One turn of the sweep: expiry, then its escalation. */
    method ExpireOne(o: Origin, escalation: Origin) returns (r: Outcome<EventId>)
      modifies this
      ensures Expire(old(Value()), o, escalation) == Landed(r, Value())
    {
      hide Append, Terminate, Deciders;
      r := TerminateWith(Lapse, o);
      if r.Ok? {
        var event := AppendEvent(grant.aggregateSeq + 1, escalation, EscalatedEvent);
        if event.Err? {
          return Err(event.code);
        }
        UpdateStatus(Expired, event.value.seqNo);
        UpsertProjection(Expired, event.value.id);
        r := Ok(event.value.id);
      }
    }

    /** Rolls every row back to an earlier value. */
    method Restore(a: Aggregate)
      modifies this
      ensures Value() == a
    {
      grant, decisions, consumptions, stream, projection :=
        a.grant, a.decisions, a.consumptions, a.stream, a.projection;
    }
  }

  // ---------------------------------------------------------------- many approvals

  /** The query of the sweep: every row that is due, each once, locked for update. */
  method SelectDue(rows: seq<Approval>, now: Time) returns (due: seq<Approval>)
    requires Distinct(rows)
    ensures Distinct(due) && forall a :: a in due <==> a in rows && Due(a.grant, now)
  {
    due := [];
    for i := 0 to |rows|
      invariant Distinct(due) && forall a :: a in due <==> a in rows[..i] && Due(a.grant, now)
    {
      assert rows[..i + 1] == rows[..i] + [rows[i]];
      if Due(rows[i].grant, now) {
        assert rows[i] !in rows[..i];
        due := due + [rows[i]];
      }
    }
    assert rows[..|rows|] == rows;
  }

  /** The origins of one sweep: each due approval gets its own expiry and escalation events. */
  datatype SweepTurn = SweepTurn(expiry: Origin, escalation: Origin)

  ghost predicate Distinct(rows: seq<Approval>) {
    forall i, j :: 0 <= i < j < |rows| ==> rows[i] != rows[j]
  }

  ghost predicate Refuses(turns: seq<SweepTurn>, i: nat)
    requires i < |turns|
  {
    turns[i].expiry.refused || turns[i].escalation.refused
  }

  /**
   `expire_approvals`: the due rows are locked, then expired one after the other in one transaction. All of
   them are expired and escalated, or, when the store refuses one event, none of them changes.
   */
  method ExpireApprovals(due: seq<Approval>, turns: seq<SweepTurn>, now: Time, ghost humans: set<Account>)
    returns (r: Outcome<nat>)
    requires |turns| == |due| && Distinct(due)
    requires forall a :: a in due ==> Inv(a.Value(), humans) && Due(a.grant, now)
    modifies due
    ensures r.Ok? <==> forall i: nat :: i < |turns| ==> !Refuses(turns, i)
    ensures r.Ok? ==> r.value == |due| && forall i :: 0 <= i < |due| ==>
      Expire(old(due[i].Value()), turns[i].expiry, turns[i].escalation) == Ok(due[i].Value())
    ensures r.Err? ==> forall i :: 0 <= i < |due| ==> due[i].Value() == old(due[i].Value())
    ensures forall a :: a in due ==> Inv(a.Value(), humans)
  {
    hide Expire, Inv;
    var saved: seq<Aggregate> := seq(|due|, i requires 0 <= i < |due| reads due => due[i].Value());
    var k := 0;
    while k < |due|
      invariant 0 <= k <= |due|
      invariant forall i :: 0 <= i < k ==>
        && !Refuses(turns, i)
        && Expire(saved[i], turns[i].expiry, turns[i].escalation) == Ok(due[i].Value())
      invariant forall i :: k <= i < |due| ==> due[i].Value() == saved[i]
    {
      ExpireKeeps(saved[k], turns[k].expiry, turns[k].escalation, humans);
      var one := due[k].ExpireOne(turns[k].expiry, turns[k].escalation);
      if one.Err? {
        RestoreAll(due, saved);
        assert Refuses(turns, k);
        return Err(one.code);
      }
      k := k + 1;
    }
    forall i | 0 <= i < |due|
      ensures Inv(due[i].Value(), humans)
    {
      ExpireKeeps(saved[i], turns[i].expiry, turns[i].escalation, humans);
    }
    r := Ok(|due|);
  }

  ghost function DueRows(rows: seq<Approval>, now: Time): set<Approval>
    reads rows
  {
    set a | a in rows && Due(a.grant, now)
  }

  lemma ExpiryExpires(a: Aggregate, o: Origin, escalation: Origin)
    requires Expire(a, o, escalation).Ok?
    ensures Expire(a, o, escalation).value.grant.status.Expired?
  {
  }

  lemma {:induction false} AsMany(due: seq<Approval>, rows: set<Approval>)
    requires Distinct(due) && forall a :: a in due <==> a in rows
    ensures |due| == |rows|
    decreases |due|
  {
    if due == [] {
      assert rows == {};
    } else {
      var n := |due| - 1;
      assert forall a :: a in due <==> a in due[..n] || a == due[n];
      AsMany(due[..n], rows - {due[n]});
    }
  }

  /**
   One sweep over all rows, `turn` supplying the origins of each expiry: afterwards no row is due and every other
   row is as it was, or, when the store refuses one event, nothing changed.
   */
  method SweepAll(rows: seq<Approval>, turn: nat -> SweepTurn, now: Time, ghost humans: set<Account>)
    returns (r: Outcome<nat>)
    requires Distinct(rows) && forall a :: a in rows ==> Inv(a.Value(), humans)
    modifies rows
    ensures r.Ok? <==> forall i: nat :: i < |old(DueRows(rows, now))| ==>
      !turn(i).expiry.refused && !turn(i).escalation.refused
    ensures r.Ok? ==> r.value == |old(DueRows(rows, now))| && DueRows(rows, now) == {}
    ensures r.Ok? ==> forall a :: a in rows ==> Terminal(a.grant.status) || now < a.grant.expiresAt
    ensures r.Ok? ==> forall a :: a in old(DueRows(rows, now)) ==> a.grant.status.Expired?
    ensures forall a :: a in rows && (r.Err? || a !in old(DueRows(rows, now))) ==> a.Value() == old(a.Value())
    ensures forall a :: a in rows ==> Inv(a.Value(), humans)
  {
    hide Inv, Expire;
    var due := SelectDue(rows, now);
    AsMany(due, DueRows(rows, now));
    var turns := seq(|due|, i requires 0 <= i < |due| => turn(i));
    assert forall i :: 0 <= i < |due| ==> due[i] in due && due[i] in rows;
    r := ExpireApprovals(due, turns, now, humans);
    forall i: nat | i < |due| ensures Refuses(turns, i) <==> turn(i).expiry.refused || turn(i).escalation.refused {
      assert turns[i] == turn(i);
    }
    if r.Ok? {
      forall i | 0 <= i < |due| ensures due[i].grant.status.Expired? {
        ExpiryExpires(old(due[i].Value()), turns[i].expiry, turns[i].escalation);
      }
    }
  }

  method RestoreAll(rows: seq<Approval>, saved: seq<Aggregate>)
    requires |rows| == |saved| && Distinct(rows)
    modifies rows
    ensures forall i :: 0 <= i < |rows| ==> rows[i].Value() == saved[i]
  {
    for i := 0 to |rows|
      invariant forall j :: 0 <= j < i ==> rows[j].Value() == saved[j]
    {
      rows[i].Restore(saved[i]);
    }
  }

  /** The grant row `request_approval` inserts. */
  function NewGrant(r: Request, at: Time): Grant
    requires r.maxUses.Some? ==> r.maxUses.value > 0
  {
    var uses := if r.maxUses.Some? then Some(r.maxUses.value as nat) else None;
    Grant(r.subject, EffectiveRisk(r), Pending, r.requestedBy, r.implementing, at, at + Validity(r), uses,
          RequiredQuorum(EffectiveRisk(r), r.requiresHuman), 0, r.requiresHuman)
  }

  /** The approvals of one workspace, with the index by requester and idempotency key. */
  class Workspace {
    var byRequest: map<(Account, string), Approval>

    constructor ()
      ensures byRequest == map[]
    {
      byRequest := map[];
    }

    /** `request_approval`: the same key from the same requester returns the existing approval, whatever is asked. */
    method RequestApproval(key: string, request: Request, o: Origin) returns (r: Outcome<Approval>)
      modifies this
      ensures var k := (request.requestedBy, key);
        var created := Open(request, o.(key := key));
        if created.Err? && !created.code.EVENT_REFUSED? then r == Err(created.code) && byRequest == old(byRequest)
        else if k in old(byRequest) then r == Ok(old(byRequest)[k]) && byRequest == old(byRequest)
        else if created.Err? then r == Err(EVENT_REFUSED) && byRequest == old(byRequest)
        else r.Ok? && fresh(r.value) && byRequest == old(byRequest)[k := r.value] && r.value.Value() == created.value
    {
      if request.maxUses.Some? && request.maxUses.value <= 0 {
        return Err(MAX_USES_INVALID);
      }
      if Validity(request) <= 0 {
        return Err(VALIDITY_INVALID);
      }
      var k := (request.requestedBy, key);
      if k in byRequest {
        return Ok(byRequest[k]);
      }
      var row := new Approval(NewGrant(request, o.at));
      var event := row.AppendEvent(row.grant.aggregateSeq + 1, o.(actor := request.requestedBy, key := key),
                                   RequestedEvent);
      if event.Err? {
        return Err(event.code);
      }
      row.UpdateStatus(Pending, event.value.seqNo);
      row.UpsertProjection(Pending, event.value.id);
      byRequest := byRequest[k := row];
      r := Ok(row);
    }
  }
}
