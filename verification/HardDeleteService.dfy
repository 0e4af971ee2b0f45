/** The hard-delete handlers as they run on the tables, calling the approval service and the key ledger. */
module HardDeleteService {
  import opened Common
  import opened ApprovalModel
  import opened HardDelete
  import L = TombstoneLedger
  import S = ApprovalService

  lemma {:induction false} ShredInTwo(v: L.Vault, ks: seq<L.KeyRef>, more: seq<L.KeyRef>, actor: string, now: Time,
                                      digest: L.Digest)
    ensures var first := L.ShredAll(v, ks, REASON, actor, now, digest);
      L.ShredAll(v, ks + more, REASON, actor, now, digest)
      == if first.Err? then first else L.ShredAll(first.value, more, REASON, actor, now, digest)
    decreases |more|
  {
    hide L.Shred;
    if more == [] {
      assert ks + more == ks;
    } else {
      var n := |more| - 1;
      assert (ks + more)[..|ks| + n] == ks + more[..n];
      ShredInTwo(v, ks, more[..n], actor, now, digest);
    }
  }

  /** Shredding other keys does not change which keys are kept for a target. */
  lemma KeysStay(v: L.Vault, u: L.Vault, o: L.Owner)
    requires L.OnlyForgets(v, u)
    ensures KeysFor(u.keys, o) == KeysFor(v.keys, o)
  {
    assert (set k | k in u.keys && u.keys[k].owner == o) == (set k | k in v.keys && v.keys[k].owner == o);
  }

  class Desk {
    const setting: Setting
    const database: L.Database
    var rows: map<Id, Row>
    var requested: map<string, Id>
    var approvals: map<Id, Aggregate>
    var byRequest: map<(Account, string), Id>
    var messages: seq<Message>

    constructor (setting: Setting)
      ensures Valid() && this.setting == setting && Value() == NOTHING && fresh(database)
    {
      var tables := new L.Database(setting.digest, map[]);
      this.setting, database := setting, tables;
      rows, requested, approvals, byRequest, messages := map[], map[], map[], map[], [];
    }

    ghost predicate Valid()
      reads this, database
    {
      && database.digest == setting.digest && L.Sound(database.Value(), setting.digest)
      && forall k :: k in byRequest ==> byRequest[k] in approvals
    }

    function Value(): World
      reads this, database
    {
      World(rows, requested, approvals, byRequest, messages, database.Value())
    }

    function Landed<T>(r: Result<T, Error>): Answer
      reads this, database
    {
      if r.Ok? then Ok(Value()) else Err(r.code)
    }

    /**
     `request_approval` on the approval kept under the key, if there is one. A grant row is inserted before its event
     is appended, so an id already taken comes before the store's refusal.
     */
    method AttachApproval(request: Request, key: string, newId: Id, o: Origin) returns (r: Result<Attached, Error>)
      requires Valid()
      ensures r.Ok? ==> forall k :: k in r.value.byRequest ==> r.value.byRequest[k] in r.value.approvals
      ensures r == Attach(Value(), request, key, newId, o)
    {
      hide Open, L.Sound;
      var k := (request.requestedBy, key);
      var workspace := new S.Workspace();
      if k in byRequest {
        var kept := new S.Approval.Loaded(approvals[byRequest[k]]);
        workspace.byRequest := map[k := kept];
      }
      var got := workspace.RequestApproval(key, request, o);
      if got.Err? && !got.code.EVENT_REFUSED? {
        return Err(OfApproval(got.code));
      }
      if k in byRequest {
        return Ok(Attached(byRequest[k], approvals, byRequest));
      }
      if newId in approvals {
        return Err(OfApproval(APPROVAL_ID_TAKEN));
      }
      if got.Err? {
        return Err(OfApproval(got.code));
      }
      r := Ok(Attached(newId, approvals[newId := got.value.Value()], byRequest[k := newId]));
    }

    /** Answers with the request's id; a repeated key gets the id of the request it opened. */
    method RequestHardDelete(c: Opening) returns (r: Result<Id, Error>)
      requires Valid()
      modifies this
      ensures Valid() && OpenRequest(old(Value()), c, setting) == Landed(r)
      ensures r.Ok? ==> c.key in requested && r.value == requested[c.key]
      ensures r.Err? || c.key in old(requested) ==> Value() == old(Value())
    {
      if c.key in requested {
        return Ok(requested[c.key]);
      }
      if !c.reasonGiven {
        return Err(HARD_DELETE_REASON_REQUIRED);
      }
      if !c.targetExists {
        return Err(HARD_DELETE_TARGET_NOT_FOUND);
      }
      if exists rid :: rid in rows && rows[rid].target == c.target && OpenPhase(rows[rid].phase) {
        return Err(HARD_DELETE_ALREADY_PENDING);
      }
      hide Attach, CriticalRequest, ApprovalKey, L.Sound;
      var rid := setting.requestId(c.target, c.key);
      var got := AttachApproval(CriticalRequest(c.who, rid, setting), ApprovalKey(c.key), c.newId, c.origin);
      if got.Err? {
        return Err(got.code);
      }
      if rid in rows {
        return Err(HARD_DELETE_ID_TAKEN);
      }
      if !c.stored {
        return Err(HARD_DELETE_EVENT_REFUSED);
      }
      approvals, byRequest := got.value.approvals, got.value.byRequest;
      rows := rows[rid := Row(c.target, c.who, got.value.id, PENDING_APPROVAL, c.hours, None, None, None, [])];
      requested := requested[c.key := rid];
      r := Ok(rid);
    }

    method ApproveHardDelete(c: Deciding) returns (r: Result<Status, Error>)
      requires Valid()
      modifies this
      ensures Valid() && ApproveRequest(old(Value()), c, setting) == Landed(r)
      ensures if r.Ok? then c.rid in rows && rows[c.rid].approvalId in approvals
          && r.value == approvals[rows[c.rid].approvalId].grant.status
        else Value() == old(Value())
    {
      hide Decide, L.Sound;
      if c.rid !in rows {
        return Err(HARD_DELETE_NOT_FOUND);
      }
      var row := rows[c.rid];
      if !row.phase.PENDING_APPROVAL? {
        return Err(HARD_DELETE_STATUS_INVALID);
      }
      if !Reauthenticated(c.approver.account, c.proof, setting) {
        return Err(HARD_DELETE_REAUTH_REQUIRED);
      }
      if row.approvalId !in approvals {
        return Err(OfApproval(APPROVAL_NOT_FOUND));
      }
      var approval := new S.Approval.Loaded(approvals[row.approvalId]);
      var d := approval.DecideApproval(c.approve, c.approver.(reauthVerified := true), setting.humans, c.now, c.origin);
      if d.Err? {
        return Err(OfApproval(d.code));
      }
      var status := d.value.status;
      if (status.Rejected? || status.Approved?) && !c.stored {
        return Err(HARD_DELETE_EVENT_REFUSED);
      }
      approvals := approvals[row.approvalId := approval.Value()];
      if status.Rejected? {
        rows := rows[c.rid := row.(phase := REJECTED)];
      } else if status.Approved? {
        var at := c.origin.at + c.delay;
        rows := rows[c.rid := row.(phase := APPROVED_WAITING, approvedAt := Some(at),
                                   executableAt := Some(at + row.hours * HOUR))];
      }
      r := Ok(status);
    }

    /** Where the approval service says no, the request is cancelled all the same. */
    method CancelHardDelete(c: Cancelling) returns (r: Result<(), Error>)
      requires Valid()
      modifies this
      ensures Valid() && CancelRequest(old(Value()), c, setting) == Landed(r)
      ensures r.Err? ==> Value() == old(Value())
    {
      hide Record, NextStatus, L.Sound;
      if c.rid !in rows {
        return Err(HARD_DELETE_NOT_FOUND);
      }
      var row, saved := rows[c.rid], rows;
      if !OpenPhase(row.phase) {
        return Err(HARD_DELETE_STATUS_INVALID);
      }
      rows := rows[c.rid := row.(phase := CANCELLED)];
      var after := approvals;
      if row.approvalId in approvals {
        var a := approvals[row.approvalId];
        var approval := new S.Approval.Loaded(a);
        var done := approval.CancelApproval(c.origin.(actor := c.actor), c.admin);
        if done.Ok? {
          after := approvals[row.approvalId := approval.Value()];
        } else if (a.grant.requestedBy == c.actor || c.admin) && NextStatus(a.grant.status, CancelledEvent).Ok? {
          rows := saved;
          return Err(OfApproval(done.code));
        }
      }
      if !c.stored {
        rows := saved;
        return Err(HARD_DELETE_EVENT_REFUSED);
      }
      approvals := after;
      r := Ok(());
    }

    /** Shreds the message bodies of a conversation, then every key kept for the target. */
    method DestroyTarget(t: Target, actor: string, now: Time) returns (r: Result<seq<L.KeyRef>, L.LedgerError>)
      requires Valid()
      modifies database
      ensures Valid()
      ensures var refs := TargetKeys(old(Value()), t, setting);
        && L.ShredAll(old(database.Value()), refs, REASON, actor, now, setting.digest)
           == (if r.Ok? then Ok(database.Value()) else Err(r.code))
        && (r.Ok? ==> r.value == refs)
      ensures r.Err? ==> database.Value() == old(database.Value())
    {
      hide L.ShredAll, L.Sound, L.Shreddable, L.Listed, KeysFor, BodyKeys;
      ghost var before := database.Value();
      var savedKeys, savedLedger := database.keys, database.ledger;
      var bodies: seq<L.KeyRef> := if t.kind.ConversationTarget? then BodyKeys(messages, t.id) else [];
      ghost var kept := KeysFor(before.keys, OwnerOf(t, setting));
      ShredInTwo(before, bodies, kept, actor, now, setting.digest);
      L.ShredAllForgets(before, bodies, REASON, actor, now, setting.digest);
      var first := database.DestroyKeys(bodies, REASON, actor, now);
      if first.Err? {
        return first;
      }
      KeysStay(before, database.Value(), OwnerOf(t, setting));
      r := database.DestroyKeys(KeysFor(database.keys, OwnerOf(t, setting)), REASON, actor, now);
      if r.Err? {
        database.keys, database.ledger := savedKeys, savedLedger;
        return;
      }
      r := Ok(first.value + r.value);
    }

    /** An executed request is answered again without doing anything. */
    method ExecuteHardDelete(c: Executing) returns (r: Result<bool, Error>)
      requires Valid()
      modifies this, database
      ensures Valid() && ExecuteRequest(old(Value()), c, setting) == Landed(r)
      ensures if r.Ok? then c.rid in rows && rows[c.rid].phase.EXECUTED? else Value() == old(Value())
      ensures r == Ok(true) ==> Value() == old(Value())
    {
      hide L.ShredAll, L.Sound, TargetKeys;
      if c.rid !in rows {
        return Err(HARD_DELETE_NOT_FOUND);
      }
      var row := rows[c.rid];
      if row.phase.EXECUTED? {
        return Ok(true);
      }
      if !row.phase.APPROVED_WAITING? {
        return Err(HARD_DELETE_NOT_APPROVED);
      }
      if row.executableAt.None? || c.now < row.executableAt.value {
        return Err(HARD_DELETE_WAITING_PERIOD);
      }
      if row.approvalId !in approvals {
        return Err(OfApproval(APPROVAL_NOT_FOUND));
      }
      if !StillGranted(approvals[row.approvalId].grant.status) {
        return Err(HARD_DELETE_NOT_APPROVED);
      }
      if !Reauthenticated(Some(c.who), c.proof, setting) {
        return Err(HARD_DELETE_REAUTH_REQUIRED);
      }
      if !c.targetExists && (row.target.kind.AccountTarget? || row.target.kind.ArtifactTarget?) {
        return Err(HARD_DELETE_TARGET_NOT_FOUND);
      }
      var savedKeys, savedLedger := database.keys, database.ledger;
      var destroyed := DestroyTarget(row.target, setting.uuid(c.who), c.now);
      if destroyed.Err? {
        return Err(OfLedger(destroyed.code));
      }
      if !c.stored {
        database.keys, database.ledger := savedKeys, savedLedger;
        return Err(HARD_DELETE_EVENT_REFUSED);
      }
      rows := rows[c.rid := row.(phase := EXECUTED, executedAt := Some(c.now), keysDestroyed := destroyed.value)];
      r := Ok(false);
    }
  }
}
