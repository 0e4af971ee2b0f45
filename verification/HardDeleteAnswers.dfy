/**
 From the opening of a hard-delete request to its end: what was asked for is what is waited for and destroyed, and every
 command is answered with the first thing wrong with it.
 */
module HardDeleteAnswers {
  import opened Common
  import opened ApprovalModel
  import opened ApprovalInvariants
  import opened ApprovalRuns
  import opened ApprovalTerms
  import opened HardDelete
  import opened HardDeleteRuns
  import L = TombstoneLedger

  // ---------------------------------------------------------------- what an opening leaves

  /** The row is what the opening asked for. */
  ghost predicate AskedBy(row: Row, c: Opening) {
    row.target == c.target && row.requestedBy == c.who && row.hours == c.hours
  }

  /** The approval a request opens under a key its requester has not used before. */
  ghost predicate WeekLong(g: Grant, c: Opening, rid: Id) {
    && g.subject == Subject("action", "hard-delete:" + rid) && g.requestedBy == c.who && g.implementing.None?
    && g.risk.CRITICAL? && g.requiresHuman && g.maxUses == Some(1)
    && g.validFrom == c.origin.at && g.expiresAt == c.origin.at + 7 * DAY
  }

  predicate KeyIsFree(w: World, c: Opening) {
    (c.who, c.key + ":approval") !in w.byRequest
  }

  lemma OpensCritical(who: Account, rid: Id, o: Origin, s: Setting)
    ensures var opening := Open(CriticalRequest(who, rid, s), o);
      && (if o.refused then opening == Err(EVENT_REFUSED) else opening.Ok?)
      && (opening.Ok? ==>
            forall c: Opening :: c.who == who && c.origin.at == o.at ==> WeekLong(opening.value.grant, c, rid))
  {
    OpensExactly(CriticalRequest(who, rid, s), o);
  }

  /** The terms of a request are looked at before its key: one that makes no sense attaches nothing. */
  lemma TermsComeFirst(w: World, request: Request, key: string, newId: Id, o: Origin)
    requires (request.maxUses.Some? && request.maxUses.value <= 0)
      || (request.validFor.Some? && request.validFor.value < 0)
    ensures Attach(w, request, key, newId, o).Err?
  {
    OpensExactly(request, o.(key := key));
    hide Open;
  }

  /** What a new request adds to the tables. */
  lemma OpeningAdds(w: World, c: Opening, s: Setting)
    requires c.key !in w.requested && OpenRequest(w, c, s).Ok?
    ensures var u, rid := OpenRequest(w, c, s).value, s.requestId(c.target, c.key);
      && rid !in w.rows && u.rows == w.rows[rid := u.rows[rid]] && u.requested == w.requested[c.key := rid]
      && AskedBy(u.rows[rid], c) && u.rows[rid].phase.PENDING_APPROVAL? && u.rows[rid].keysDestroyed == []
      && u.vault == w.vault && u.messages == w.messages
      && (KeyIsFree(w, c) ==>
            && u.rows[rid].approvalId == c.newId && c.newId !in w.approvals && c.newId in u.approvals
            && WeekLong(u.approvals[c.newId].grant, c, rid))
      && (!KeyIsFree(w, c) ==>
            u.approvals == w.approvals && u.rows[rid].approvalId == w.byRequest[(c.who, c.key + ":approval")])
  {
    var rid := s.requestId(c.target, c.key);
    OpensCritical(c.who, rid, c.origin.(key := ApprovalKey(c.key)), s);
    assert CriticalRequest(c.who, rid, s).requestedBy == c.who;
    hide Open, CriticalRequest, HasOpenRequest;
  }

  /**
   From opening to execution: the request stays what was asked for, and once executed it was so no earlier than the
   configured hours after its approval was given.
   */
  lemma WaitedAsAsked(w: World, c: Opening, actions: seq<Action>, s: Setting)
    requires Good(w, s) && c.key !in w.requested && OpenRequest(w, c, s).Ok?
    ensures var v, rid := Steps(OpenRequest(w, c, s).value, actions, s), s.requestId(c.target, c.key);
      && rid in v.rows && v.rows[rid].approvalId in v.approvals && AskedBy(v.rows[rid], c)
      && (v.rows[rid].phase.EXECUTED? ==>
            var a := v.approvals[v.rows[rid].approvalId];
            && v.rows[rid].executedAt.Some? && |a.stream| >= 2 && a.stream[1].body.GrantedEvent?
            && a.stream[1].at + c.hours * 3600 * 1_000_000 <= v.rows[rid].executedAt.value)
  {
    var u, rid := OpenRequest(w, c, s).value, s.requestId(c.target, c.key);
    OpeningAdds(w, c, s);
    OpenKeeps(w, c, s);
    hide OpenRequest, Steps, Good;
    StepsKeep(u, actions, s);
    var v := Steps(u, actions, s);
    RowKept(u, v, rid, s);
    if v.rows[rid].phase.EXECUTED? {
      ExecutedWaited(v, rid, s);
    }
  }

  lemma ExecutedWaited(w: World, rid: Id, s: Setting)
    requires Good(w, s) && rid in w.rows && w.rows[rid].phase.EXECUTED?
    ensures w.rows[rid].approvalId in w.approvals && w.rows[rid].executedAt.Some?
    ensures var row, a := w.rows[rid], w.approvals[w.rows[rid].approvalId];
      |a.stream| >= 2 && a.stream[1].body.GrantedEvent? && a.stream[1].at + row.hours * HOUR <= row.executedAt.value
  {
    hide Inv, L.Sound;
  }

  // ---------------------------------------------------------------- what can be wrong

  /** The order in which the errors are looked for. */
  function Place(e: Error): nat {
    match e
    case HARD_DELETE_NOT_FOUND => 0
    case HARD_DELETE_REASON_REQUIRED => 1
    case HARD_DELETE_STATUS_INVALID => 2
    case HARD_DELETE_NOT_APPROVED => 3
    case HARD_DELETE_WAITING_PERIOD => 4
    case HARD_DELETE_REAUTH_REQUIRED => 5
    case HARD_DELETE_TARGET_NOT_FOUND => 6
    case HARD_DELETE_ALREADY_PENDING => 7
    case OfApproval(_) => 8
    case HARD_DELETE_ID_TAKEN => 9
    case OfLedger(_) => 10
    case HARD_DELETE_EVENT_REFUSED => 11
  }

  predicate Finished(p: Phase) {
    p == EXECUTED || p == Phase.REJECTED || p == CANCELLED
  }

  ghost predicate Waiting(w: World, t: Target) {
    exists rid :: rid in w.rows && w.rows[rid].target == t && !Finished(w.rows[rid].phase)
  }

  predicate IsPerson(who: Option<Account>, s: Setting) {
    who.Some? && who.value in s.humans
  }

  ghost predicate OpeningFault(w: World, c: Opening, s: Setting, e: Error) {
    match e
    case HARD_DELETE_REASON_REQUIRED => !c.reasonGiven
    case HARD_DELETE_TARGET_NOT_FOUND => !c.targetExists
    case HARD_DELETE_ALREADY_PENDING => Waiting(w, c.target)
    case OfApproval(code) =>
      KeyIsFree(w, c)
      && if c.newId in w.approvals then code == APPROVAL_ID_TAKEN else c.origin.refused && code == EVENT_REFUSED
    case HARD_DELETE_ID_TAKEN => s.requestId(c.target, c.key) in w.rows
    case HARD_DELETE_EVENT_REFUSED => !c.stored
    case _ => false
  }

  ghost function OpeningFaults(w: World, c: Opening, s: Setting): iset<Error> {
    iset e: Error | OpeningFault(w, c, s, e)
  }

  /** The answer to a command with these faults: the first of them, or success without any. */
  ghost predicate Answers(r: Answer, faults: iset<Error>) {
    match r
    case Err(e) => e in faults && forall d :: d in faults && d != e ==> Place(e) < Place(d)
    case Ok(_) => forall d :: d !in faults
  }

  lemma OpeningReply(w: World, c: Opening, s: Setting)
    requires c.key !in w.requested
    ensures var r := OpenRequest(w, c, s);
      if !c.reasonGiven then r == Err(HARD_DELETE_REASON_REQUIRED)
      else if !c.targetExists then r == Err(HARD_DELETE_TARGET_NOT_FOUND)
      else if Waiting(w, c.target) then r == Err(HARD_DELETE_ALREADY_PENDING)
      else if KeyIsFree(w, c) && c.newId in w.approvals then r == Err(OfApproval(APPROVAL_ID_TAKEN))
      else if KeyIsFree(w, c) && c.origin.refused then r == Err(OfApproval(EVENT_REFUSED))
      else if s.requestId(c.target, c.key) in w.rows then r == Err(HARD_DELETE_ID_TAKEN)
      else if !c.stored then r == Err(HARD_DELETE_EVENT_REFUSED)
      else r.Ok?
  {
    var rid := s.requestId(c.target, c.key);
    OpensCritical(c.who, rid, c.origin.(key := ApprovalKey(c.key)), s);
    assert CriticalRequest(c.who, rid, s).requestedBy == c.who;
    assert HasOpenRequest(w, c.target) <==> Waiting(w, c.target);
    hide Open, CriticalRequest, HasOpenRequest, Waiting;
  }

  /** A new opening fails for the first of its faults and goes through without any. */
  lemma OpeningAnswer(w: World, c: Opening, s: Setting)
    requires c.key !in w.requested
    ensures Answers(OpenRequest(w, c, s), OpeningFaults(w, c, s))
  {
    hide OpenRequest, Waiting, KeyIsFree;
    OpeningReply(w, c, s);
  }

  ghost predicate DecidingFault(w: World, c: Deciding, s: Setting, e: Error) {
    match e
    case HARD_DELETE_NOT_FOUND => c.rid !in w.rows
    case HARD_DELETE_STATUS_INVALID => c.rid in w.rows && w.rows[c.rid].phase != PENDING_APPROVAL
    case HARD_DELETE_REAUTH_REQUIRED => !c.proof || !IsPerson(c.approver.account, s)
    case OfApproval(code) =>
      && c.rid in w.rows && w.rows[c.rid].approvalId in w.approvals
      && VoteFails(w.approvals[w.rows[c.rid].approvalId], c, s, code)
    case HARD_DELETE_EVENT_REFUSED => !c.stored && Closes(w, c)
    case _ => false
  }

  /** The vote a decision casts; the proof the handler asked for stands for the approver's own. */
  function Proven(c: Deciding): Command {
    Vote(c.approve, c.approver.(reauthVerified := true), c.now, c.origin)
  }

  /** The first obstacle in the way of the vote is reported as this code. */
  ghost predicate VoteFails(a: Aggregate, c: Deciding, s: Setting, code: Code) {
    exists b :: FirstObstacle(b, a, Proven(c), s.humans) && code == Reported(b, c.approver)
  }

  /** The vote is the last one: a rejection, or the approval that completes the quorum. */
  predicate Closes(w: World, c: Deciding) {
    && c.rid in w.rows && w.rows[c.rid].approvalId in w.approvals
    && var a := w.approvals[w.rows[c.rid].approvalId];
       c.approve ==> |a.decisions| + 1 >= Needed(a.grant)
  }

  ghost function DecidingFaults(w: World, c: Deciding, s: Setting): iset<Error> {
    iset e: Error | DecidingFault(w, c, s, e)
  }

  lemma VoteFailsOnce(a: Aggregate, c: Deciding, s: Setting)
    requires Inv(a, s.humans)
    ensures match Decide(a, c.approve, c.approver.(reauthVerified := true), s.humans, c.now, c.origin)
      case Ok(_) => forall d :: !VoteFails(a, c, s, d)
      case Err(code) => forall d :: VoteFails(a, c, s, d) <==> d == code
  {
    var first := VoteAnswer(a, Proven(c), s.humans);
    hide Inv, Decide, Hinders, FirstObstacle, NothingHinders;
    assert Reported(first, c.approver.(reauthVerified := true)) == Reported(first, c.approver);
    forall o | FirstObstacle(o, a, Proven(c), s.humans)
      ensures !NothingHinders(a, Proven(c), s.humans) && (FirstObstacle(first, a, Proven(c), s.humans) ==> o == first)
    {
      OneObstacle(o, first, a, Proven(c), s.humans);
    }
  }

  /** What an accepted vote does to the status. */
  lemma StatusAfterVote(a: Aggregate, c: Deciding, s: Setting)
    requires Inv(a, s.humans)
    ensures match Decide(a, c.approve, c.approver.(reauthVerified := true), s.humans, c.now, c.origin)
      case Ok(b) => b.grant.status ==
        if c.approve && |a.decisions| + 1 < Needed(a.grant) then Pending
        else if c.approve then Approved else Status.Rejected
      case Err(_) => true
  {
    DecideOutcome(a, c.approve, c.approver.(reauthVerified := true), s.humans, c.now, c.origin);
    hide LedgerMatches, EligibleVoter, DistinctVoters, CheckEligibility, Replay, Deciders, DeciderSet, Record, Decide;
  }

  /** A decision fails for the first of its faults and goes through without any. */
  lemma DecidingAnswer(w: World, c: Deciding, s: Setting)
    requires Good(w, s)
    ensures Answers(ApproveRequest(w, c, s), DecidingFaults(w, c, s))
  {
    hide Inv, L.Sound, Decide, VoteFails, RowTrue;
    if c.rid in w.rows {
      VoteFailsOnce(w.approvals[w.rows[c.rid].approvalId], c, s);
      StatusAfterVote(w.approvals[w.rows[c.rid].approvalId], c, s);
    }
  }

  ghost predicate CancellingFault(w: World, c: Cancelling, e: Error) {
    match e
    case HARD_DELETE_NOT_FOUND => c.rid !in w.rows
    case HARD_DELETE_STATUS_INVALID =>
      c.rid in w.rows && Finished(w.rows[c.rid].phase)
    case OfApproval(code) => EndsApproval(w, c) && c.origin.refused && code == EVENT_REFUSED
    case HARD_DELETE_EVENT_REFUSED => !c.stored
    case _ => false
  }

  /** The cancellation takes the approval with it: it is not over, and the sender may end it. */
  predicate EndsApproval(w: World, c: Cancelling) {
    && c.rid in w.rows && w.rows[c.rid].approvalId in w.approvals
    && var g := w.approvals[w.rows[c.rid].approvalId].grant;
       !Over(g.status) && (g.requestedBy == c.actor || c.admin)
  }

  ghost function CancellingFaults(w: World, c: Cancelling): iset<Error> {
    iset e: Error | CancellingFault(w, c, e)
  }

  /** The request is cancelled, and its approval where the sender may end that. */
  ghost predicate Cancels(w: World, c: Cancelling, u: World) {
    && c.rid in w.rows && u.rows == w.rows[c.rid := w.rows[c.rid].(phase := CANCELLED)]
    && var id := w.rows[c.rid].approvalId;
       if EndsApproval(w, c) then
         id in u.approvals && u.approvals == w.approvals[id := u.approvals[id]]
         && u.approvals[id].grant.status == Cancelled
       else u.approvals == w.approvals
  }

  lemma CancelReply(w: World, c: Cancelling, s: Setting)
    requires Good(w, s)
    ensures var r := CancelRequest(w, c, s);
      if c.rid !in w.rows then r == Err(HARD_DELETE_NOT_FOUND)
      else if Finished(w.rows[c.rid].phase) then r == Err(HARD_DELETE_STATUS_INVALID)
      else if EndsApproval(w, c) && c.origin.refused then r == Err(OfApproval(EVENT_REFUSED))
      else if !c.stored then r == Err(HARD_DELETE_EVENT_REFUSED)
      else r.Ok? && Cancels(w, c, r.value)
  {
    hide Inv, L.Sound, Terminate, RowTrue, NextStatus, Deciders, NewEvent;
    if c.rid in w.rows {
      var a := w.approvals[w.rows[c.rid].approvalId];
      TerminateOutcome(a, Cancel, c.origin.(actor := c.actor), s.humans);
      EndedAs(a.grant.status, Cancel);
    }
  }

  /** A cancellation fails for the first of its faults and goes through without any. */
  lemma CancellingAnswer(w: World, c: Cancelling, s: Setting)
    requires Good(w, s)
    ensures Answers(CancelRequest(w, c, s), CancellingFaults(w, c))
  {
    hide Good, CancelRequest, EndsApproval, Cancels;
    CancelReply(w, c, s);
  }

  /** What a cancellation that goes through ends. */
  lemma CancellingEnds(w: World, c: Cancelling, s: Setting)
    requires Good(w, s) && CancelRequest(w, c, s).Ok?
    ensures Cancels(w, c, CancelRequest(w, c, s).value)
  {
    hide Good, Cancels, EndsApproval, Terminate;
    CancelReply(w, c, s);
  }

  ghost predicate ExecutingFault(w: World, c: Executing, s: Setting, e: Error) {
    match e
    case HARD_DELETE_NOT_FOUND => c.rid !in w.rows
    case HARD_DELETE_NOT_APPROVED => c.rid in w.rows && (w.rows[c.rid].phase != APPROVED_WAITING || Lapsed(w, c))
    case HARD_DELETE_WAITING_PERIOD => c.rid in w.rows && !WaitedLongEnough(w.rows[c.rid], c.now)
    case HARD_DELETE_REAUTH_REQUIRED => !c.proof || !IsPerson(Some(c.who), s)
    case HARD_DELETE_TARGET_NOT_FOUND =>
      c.rid in w.rows && !TargetThere(w.rows[c.rid], c)
    case OfLedger(l) => l == L.KEY_TOMBSTONED && c.rid in w.rows && !KeysMayGo(w, w.rows[c.rid].target, s)
    case HARD_DELETE_EVENT_REFUSED => !c.stored
    case _ => false
  }

  predicate WaitedLongEnough(row: Row, now: Time) {
    row.approvedAt.Some? && row.approvedAt.value + row.hours * 3600 * 1_000_000 <= now
  }

  /** When the waiting is over the approval no longer stands. */
  predicate Lapsed(w: World, c: Executing) {
    && c.rid in w.rows && w.rows[c.rid].approvalId in w.approvals && WaitedLongEnough(w.rows[c.rid], c.now)
    && !Stands(w.approvals[w.rows[c.rid].approvalId].grant.status)
  }

  ghost function ExecutingFaults(w: World, c: Executing, s: Setting): iset<Error> {
    iset e: Error | ExecutingFault(w, c, s, e)
  }

  /** Where every key is known, shredding can only stumble over a tombstone. */
  lemma {:induction false} OnlyTombstones(v: L.Vault, ks: seq<L.KeyRef>, actor: string, now: Time, digest: L.Digest)
    requires L.Sound(v, digest) && forall k :: k in ks ==> k in v.keys
    ensures L.ShredAll(v, ks, REASON, actor, now, digest).Err? ==>
      L.ShredAll(v, ks, REASON, actor, now, digest).code == L.KEY_TOMBSTONED
  {
    hide L.Sound, L.Listed;
    if ks == [] {
    } else {
      var rest := ks[..|ks| - 1];
      OnlyTombstones(v, rest, actor, now, digest);
      L.ShredAllForgets(v, rest, REASON, actor, now, digest);
    }
  }

  /** The answer of an execution, given what each of its checks finds; the ledger may hold a key back. */
  ghost predicate Verdict(r: Answer, waiting: bool, ready: bool, granted: bool, proven: bool, present: bool,
                          held: Option<L.LedgerError>, stored: bool)
  {
    if !waiting then r == Err(HARD_DELETE_NOT_APPROVED)
    else if !ready then r == Err(HARD_DELETE_WAITING_PERIOD)
    else if !granted then r == Err(HARD_DELETE_NOT_APPROVED)
    else if !proven then r == Err(HARD_DELETE_REAUTH_REQUIRED)
    else if !present then r == Err(HARD_DELETE_TARGET_NOT_FOUND)
    else if held.Some? then r == Err(OfLedger(held.value))
    else if !stored then r == Err(HARD_DELETE_EVENT_REFUSED)
    else r.Ok?
  }

  /** An execution needs the target's row only for accounts and artifacts. */
  predicate TargetThere(row: Row, c: Executing) {
    c.targetExists || row.target.kind == ConversationTarget || row.target.kind == DocumentTarget
  }

  function HeldBy(w: World, c: Executing, s: Setting): Option<L.LedgerError>
    requires c.rid in w.rows
  {
    var refs := TargetKeys(w, w.rows[c.rid].target, s);
    var shredded := L.ShredAll(w.vault, refs, REASON, s.uuid(c.who), c.now, s.digest);
    if shredded.Ok? then None else Some(shredded.code)
  }

  lemma ExecutingSteps(w: World, c: Executing, s: Setting)
    requires c.rid in w.rows && !w.rows[c.rid].phase.EXECUTED? && w.rows[c.rid].approvalId in w.approvals
    ensures var row := w.rows[c.rid];
      Verdict(ExecuteRequest(w, c, s), row.phase == APPROVED_WAITING,
              row.executableAt.Some? && row.executableAt.value <= c.now,
              StillGranted(w.approvals[row.approvalId].grant.status), c.proof && IsPerson(Some(c.who), s),
              TargetThere(row, c), HeldBy(w, c, s), c.stored)
  {
    hide L.ShredAll, TargetKeys, StillGranted;
  }

  lemma ReadyWhen(w: World, rid: Id, now: Time, s: Setting)
    requires Good(w, s) && rid in w.rows && w.rows[rid].phase == APPROVED_WAITING
    ensures var row := w.rows[rid];
      row.executableAt.Some? && row.executableAt.value <= now <==> WaitedLongEnough(row, now)
  {
    hide Inv, L.Sound, HumanVoted, GrantedBy;
  }

  /** Readiness does not matter to a request that is not waiting. */
  lemma SameVerdict(r: Answer, waiting: bool, ready: bool, really: bool, granted: bool, proven: bool, present: bool,
                    held: Option<L.LedgerError>, stored: bool)
    requires Verdict(r, waiting, ready, granted, proven, present, held, stored) && (waiting ==> ready == really)
    ensures Verdict(r, waiting, really, granted, proven, present, held, stored)
  {
  }

  lemma StandsIs(st: Status)
    ensures StillGranted(st) <==> Stands(st)
  {
  }

  predicate Stands(st: Status) {
    st == Approved || st == PartiallyConsumed || st == Consumed
  }

  /** What the ledger says to the target's keys. */
  lemma LedgerAnswer(w: World, c: Executing, s: Setting)
    requires Good(w, s) && c.rid in w.rows
    ensures HeldBy(w, c, s) == if KeysMayGo(w, w.rows[c.rid].target, s) then None else Some(L.KEY_TOMBSTONED)
  {
    RowFacts(w, c.rid, s);
    hide L.ShredAll, TargetKeys, L.Sound, Good, L.Shreddable, KeysMayGo, L.Forgotten;
    var refs := TargetKeys(w, w.rows[c.rid].target, s);
    TargetKeysKnown(w, w.rows[c.rid].target, s);
    L.ShredAllForgets(w.vault, refs, REASON, s.uuid(c.who), c.now, s.digest);
    OnlyTombstones(w.vault, refs, s.uuid(c.who), c.now, s.digest);
  }

  /** The checks of an execution in the words of its faults. */
  lemma ExecutingVerdict(w: World, c: Executing, s: Setting)
    requires Good(w, s) && c.rid in w.rows && !w.rows[c.rid].phase.EXECUTED?
    ensures w.rows[c.rid].approvalId in w.approvals
    ensures var row := w.rows[c.rid];
      Verdict(ExecuteRequest(w, c, s), row.phase == APPROVED_WAITING, WaitedLongEnough(row, c.now),
              Stands(w.approvals[row.approvalId].grant.status), c.proof && IsPerson(Some(c.who), s),
              TargetThere(row, c), if KeysMayGo(w, row.target, s) then None else Some(L.KEY_TOMBSTONED), c.stored)
  {
    hide *;
    RowFacts(w, c.rid, s);
    ExecutingSteps(w, c, s);
    LedgerAnswer(w, c, s);
    var row := w.rows[c.rid];
    StandsIs(w.approvals[row.approvalId].grant.status);
    if row.phase == APPROVED_WAITING {
      ReadyWhen(w, c.rid, c.now, s);
    }
    SameVerdict(ExecuteRequest(w, c, s), row.phase == APPROVED_WAITING,
                row.executableAt.Some? && row.executableAt.value <= c.now, WaitedLongEnough(row, c.now),
                StillGranted(w.approvals[row.approvalId].grant.status), c.proof && IsPerson(Some(c.who), s),
                TargetThere(row, c), HeldBy(w, c, s), c.stored);
  }

  lemma VerdictAnswers(w: World, c: Executing, s: Setting, r: Answer)
    requires c.rid in w.rows && w.rows[c.rid].approvalId in w.approvals
    requires var row := w.rows[c.rid];
      Verdict(r, row.phase == APPROVED_WAITING, WaitedLongEnough(row, c.now),
              Stands(w.approvals[row.approvalId].grant.status), c.proof && IsPerson(Some(c.who), s),
              TargetThere(row, c), if KeysMayGo(w, row.target, s) then None else Some(L.KEY_TOMBSTONED), c.stored)
    ensures Answers(r, ExecutingFaults(w, c, s))
  {
    hide KeysMayGo, IsPerson, WaitedLongEnough;
  }

  /** The first execution fails for the first of its faults and goes through without any. */
  lemma ExecutingAnswer(w: World, c: Executing, s: Setting)
    requires Good(w, s) && !Executed(w, c.rid)
    ensures Answers(ExecuteRequest(w, c, s), ExecutingFaults(w, c, s))
  {
    if c.rid in w.rows {
      hide Good, ExecuteRequest, Verdict, Answers, ExecutingFaults, KeysMayGo;
      ExecutingVerdict(w, c, s);
      VerdictAnswers(w, c, s, ExecuteRequest(w, c, s));
    }
  }

  // ---------------------------------------------------------------- what decisions and executions leave

  /** The row after a decision that closed the vote, or did not. */
  ghost predicate RowDecided(row: Row, c: Deciding, closed: bool, later: Row) {
    if !closed then later == row
    else if !c.approve then later == row.(phase := Phase.REJECTED)
    else
      && later.phase == APPROVED_WAITING && later.approvedAt == Some(c.origin.at + c.delay)
      && later.executableAt == Some(c.origin.at + c.delay + row.hours * 3600 * 1_000_000)
  }

  /** An accepted decision moves the request exactly when it closes the vote, and to the end the vote had. */
  lemma DecisionMoves(w: World, c: Deciding, s: Setting)
    requires Good(w, s) && ApproveRequest(w, c, s).Ok?
    ensures var u := ApproveRequest(w, c, s).value;
      && c.rid in w.rows && c.rid in u.rows && u.rows == w.rows[c.rid := u.rows[c.rid]]
      && RowDecided(w.rows[c.rid], c, Closes(w, c), u.rows[c.rid])
  {
    InvOf(w, c.rid, s);
    hide Good, Inv, Decide, Needed;
    var a := w.approvals[w.rows[c.rid].approvalId];
    StatusAfterVote(a, c, s);
    var b := Decide(a, c.approve, c.approver.(reauthVerified := true), s.humans, c.now, c.origin).value;
    RowFollows(w, c, s, b.grant.status);
  }

  lemma RowFollows(w: World, c: Deciding, s: Setting, status: Status)
    requires c.rid in w.rows && w.rows[c.rid].approvalId in w.approvals && ApproveRequest(w, c, s).Ok?
    requires var d := Decide(w.approvals[w.rows[c.rid].approvalId], c.approve, c.approver.(reauthVerified := true),
                             s.humans, c.now, c.origin);
      d.Ok? ==> status == d.value.grant.status
    requires status == if !Closes(w, c) then Pending else if c.approve then Approved else Status.Rejected
    ensures var u := ApproveRequest(w, c, s).value;
      && c.rid in u.rows && u.rows == w.rows[c.rid := u.rows[c.rid]]
      && RowDecided(w.rows[c.rid], c, Closes(w, c), u.rows[c.rid])
  {
    hide Decide, Closes;
  }

  /** The row after its execution: at its end, at the time of the command. */
  ghost predicate RowExecuted(row: Row, now: Time, later: Row) {
    && later.phase == EXECUTED && later.executedAt == Some(now)
    && later.approvedAt == row.approvedAt && later.executableAt == row.executableAt
  }

  lemma ExecutionReply(w: World, c: Executing, s: Setting)
    requires !Executed(w, c.rid) && ExecuteRequest(w, c, s).Ok?
    ensures var u := ExecuteRequest(w, c, s).value;
      && c.rid in w.rows && c.rid in u.rows && u.rows == w.rows[c.rid := u.rows[c.rid]]
      && RowExecuted(w.rows[c.rid], c.now, u.rows[c.rid])
      && var refs := TargetKeys(w, w.rows[c.rid].target, s);
         u.rows[c.rid].keysDestroyed == refs
         && L.ShredAll(w.vault, refs, REASON, s.uuid(c.who), c.now, s.digest) == Ok(u.vault)
  {
    hide TargetKeys, L.ShredAll;
  }

  /** The first execution ends the request, names exactly the target's keys and writes down who destroyed them when. */
  lemma ExecutionEnds(w: World, c: Executing, s: Setting)
    requires Good(w, s) && !Executed(w, c.rid) && ExecuteRequest(w, c, s).Ok?
    ensures var u := ExecuteRequest(w, c, s).value;
      && c.rid in w.rows && c.rid in u.rows && u.rows == w.rows[c.rid := u.rows[c.rid]]
      && RowExecuted(w.rows[c.rid], c.now, u.rows[c.rid])
      && (forall k :: k in u.rows[c.rid].keysDestroyed <==> KeyOfTarget(w, k, w.rows[c.rid].target, s))
      && L.Records(w.vault, u.vault, "HARD_DELETE", s.uuid(c.who), c.now)
  {
    ExecutionReply(w, c, s);
    RowFacts(w, c.rid, s);
    hide Good, ExecuteRequest, TargetKeys, KeyOfTarget, L.ShredAll, L.Records, L.Sound, RowExecuted;
    var t := w.rows[c.rid].target;
    TargetKeysAre(w, t, s);
    L.ShredAllRecords(w.vault, TargetKeys(w, t, s), REASON, s.uuid(c.who), c.now, s.digest);
  }

  lemma ExecutedReplay(w: World, c: Executing, s: Setting)
    requires Executed(w, c.rid)
    ensures ExecuteRequest(w, c, s) == Ok(w)
  {
    hide TargetKeys, L.ShredAll;
  }

  lemma FinishedStays(v: World, w: World, rid: Id)
    requires Forward(v, w) && Executed(v, rid)
    ensures Executed(w, rid) && w.rows[rid] == v.rows[rid]
  {
    hide ApprovalsGrew, KeysForward, RequestedForward;
  }

  /** Once executed, a request is answered the same way for ever, whoever asks, and nothing happens again. */
  lemma ExecutedAgain(w: World, actions: seq<Action>, c: Executing, s: Setting)
    requires Good(w, s) && Executed(w, c.rid)
    ensures var v := Steps(w, actions, s);
      ExecuteRequest(v, c, s) == Ok(v) && c.rid in w.rows && c.rid in v.rows && v.rows[c.rid] == w.rows[c.rid]
  {
    hide Good, Steps, Forward, ExecuteRequest;
    StepsKeep(w, actions, s);
    FinishedStays(w, Steps(w, actions, s), c.rid);
    ExecutedReplay(Steps(w, actions, s), c, s);
  }
}
