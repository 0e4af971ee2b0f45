/**
 Hard deletion: a request row whose life is tied to the approval kept under its key, a waiting period and the
 destruction of the target's keys. The approval may also be driven directly, behind the request's back.
 */
module HardDelete {
  import opened Common
  import opened ApprovalModel
  import opened ApprovalInvariants
  import opened ApprovalRuns
  import L = TombstoneLedger

  type Id = string

  datatype Kind = AccountTarget | ConversationTarget | ArtifactTarget | DocumentTarget
  datatype Target = Target(kind: Kind, id: string)

  function KindName(k: Kind): string {
    match k
    case AccountTarget => "account"
    case ConversationTarget => "conversation"
    case ArtifactTarget => "artifact"
    case DocumentTarget => "document"
  }

  datatype Phase = PENDING_APPROVAL | APPROVED_WAITING | EXECUTED | REJECTED | CANCELLED

  datatype Row = Row(
    target: Target, requestedBy: Account, approvalId: Id, phase: Phase, hours: int, approvedAt: Option<Time>,
    executableAt: Option<Time>, executedAt: Option<Time>, keysDestroyed: seq<L.KeyRef>)

  /** A message row: its conversation and the key its body is encrypted with, if it is. */
  datatype Message = Message(conversation: string, bodyKey: Option<L.KeyRef>)

  /**
   One workspace: the requests, the HARD_DELETE_REQUESTED events by idempotency key, the approvals with their index,
   the messages in the order they arrived, and the keys with their ledger (of all workspaces).
   */
  datatype World = World(
    rows: map<Id, Row>, requested: map<string, Id>, approvals: map<Id, Aggregate>,
    byRequest: map<(Account, string), Id>, messages: seq<Message>, vault: L.Vault)

  /**
   Fixed for a run: who is human, the text form of account ids, the row digest, the request naming, the workspace and
   the risk of the action.
   */
  datatype Setting = Setting(
    humans: set<Account>, uuid: Account -> string, digest: L.Digest, requestId: (Target, string) -> Id,
    workspace: string, catalogRisk: Risk)

  datatype Error =
    | HARD_DELETE_REASON_REQUIRED | HARD_DELETE_TARGET_NOT_FOUND | HARD_DELETE_ALREADY_PENDING
    | HARD_DELETE_ID_TAKEN | HARD_DELETE_NOT_FOUND | HARD_DELETE_STATUS_INVALID | HARD_DELETE_NOT_APPROVED
    | HARD_DELETE_WAITING_PERIOD | HARD_DELETE_REAUTH_REQUIRED | HARD_DELETE_EVENT_REFUSED
    | OfApproval(approval: Code) | OfLedger(ledger: L.LedgerError)

  type Answer = Result<World, Error>

  predicate OpenPhase(p: Phase) {
    p.PENDING_APPROVAL? || p.APPROVED_WAITING?
  }

  predicate HasOpenRequest(w: World, t: Target) {
    exists rid :: rid in w.rows && w.rows[rid].target == t && OpenPhase(w.rows[rid].phase)
  }

  // ---------------------------------------------------------------- the handlers

  const WEEK := 7 * 24 * HOUR

  function ApprovalKey(key: string): string {
    key + ":approval"
  }

  function CriticalRequest(requester: Account, rid: Id, s: Setting): Request {
    Request(Subject("action", "hard-delete:" + rid), s.catalogRisk, Some(CRITICAL), requester, None, Some(WEEK),
            Some(1), true)
  }

  datatype Attached = Attached(id: Id, approvals: map<Id, Aggregate>, byRequest: map<(Account, string), Id>)

  /** `request_approval` on the approval tables: an earlier request under the same key wins. */
  function Attach(w: World, request: Request, key: string, newId: Id, o: Origin): Result<Attached, Error> {
    var k := (request.requestedBy, key);
    var created := Open(request, o.(key := key));
    if created.Err? && !created.code.EVENT_REFUSED? then Err(OfApproval(created.code))
    else if k in w.byRequest then Ok(Attached(w.byRequest[k], w.approvals, w.byRequest))
    else if newId in w.approvals then Err(OfApproval(APPROVAL_ID_TAKEN))
    else if created.Err? then Err(OfApproval(created.code))
    else Ok(Attached(newId, w.approvals[newId := created.value], w.byRequest[k := newId]))
  }

  datatype Opening = Opening(
    who: Account, target: Target, key: string, reasonGiven: bool, targetExists: bool, hours: int, newId: Id,
    origin: Origin, stored: bool)

  /** A key for which the request event exists already is answered from it, whoever asks and for whatever target. */
  function OpenRequest(w: World, c: Opening, s: Setting): Answer {
    if c.key in w.requested then Ok(w)
    else if !c.reasonGiven then Err(HARD_DELETE_REASON_REQUIRED)
    else if !c.targetExists then Err(HARD_DELETE_TARGET_NOT_FOUND)
    else if HasOpenRequest(w, c.target) then Err(HARD_DELETE_ALREADY_PENDING)
    else
      var rid := s.requestId(c.target, c.key);
      var got := Attach(w, CriticalRequest(c.who, rid, s), ApprovalKey(c.key), c.newId, c.origin);
      if got.Err? then Err(got.code)
      else if rid in w.rows then Err(HARD_DELETE_ID_TAKEN)
      else if !c.stored then Err(HARD_DELETE_EVENT_REFUSED)
      else
        var row := Row(c.target, c.who, got.value.id, PENDING_APPROVAL, c.hours, None, None, None, []);
        Ok(w.(rows := w.rows[rid := row], requested := w.requested[c.key := rid], approvals := got.value.approvals,
              byRequest := got.value.byRequest))
  }

  /**
   `require_recent_mfa`: the session holds a fresh proof, which only human accounts can obtain. The account is the one
   that sends the command.
   */
  predicate Reauthenticated(who: Option<Account>, proof: bool, s: Setting) {
    proof && who.Some? && who.value in s.humans
  }

  /**
   A decision; `proof` is whether the sender's session holds a fresh proof, `delay` is how much later the handler reads
   the clock for the waiting period.
   */
  datatype Deciding = Deciding(
    rid: Id, approve: bool, approver: Approver, proof: bool, now: Time, origin: Origin, delay: nat, stored: bool)

  function ApproveRequest(w: World, c: Deciding, s: Setting): Answer {
    if c.rid !in w.rows then Err(HARD_DELETE_NOT_FOUND)
    else
      var row := w.rows[c.rid];
      if !row.phase.PENDING_APPROVAL? then Err(HARD_DELETE_STATUS_INVALID)
      else if !Reauthenticated(c.approver.account, c.proof, s) then Err(HARD_DELETE_REAUTH_REQUIRED)
      else if row.approvalId !in w.approvals then Err(OfApproval(APPROVAL_NOT_FOUND))
      else
        var d := Decide(w.approvals[row.approvalId], c.approve, c.approver.(reauthVerified := true), s.humans, c.now,
                        c.origin);
        if d.Err? then Err(OfApproval(d.code))
        else
          var b := w.(approvals := w.approvals[row.approvalId := d.value]);
          if d.value.grant.status.Rejected? then
            if !c.stored then Err(HARD_DELETE_EVENT_REFUSED)
            else Ok(b.(rows := w.rows[c.rid := row.(phase := REJECTED)]))
          else if d.value.grant.status.Approved? then
            if !c.stored then Err(HARD_DELETE_EVENT_REFUSED)
            else
              var at := c.origin.at + c.delay;
              Ok(b.(rows := w.rows[c.rid := row.(phase := APPROVED_WAITING, approvedAt := Some(at),
                                                 executableAt := Some(at + row.hours * HOUR))]))
          else Ok(b)
  }

  datatype Cancelling = Cancelling(rid: Id, actor: Account, admin: bool, origin: Origin, stored: bool)

  /** The approval is cancelled too unless the service says no; the request is cancelled in any case. */
  function CancelRequest(w: World, c: Cancelling, s: Setting): Answer {
    if c.rid !in w.rows then Err(HARD_DELETE_NOT_FOUND)
    else
      var row := w.rows[c.rid];
      if !OpenPhase(row.phase) then Err(HARD_DELETE_STATUS_INVALID)
      else
        var rows := w.rows[c.rid := row.(phase := CANCELLED)];
        var barred := row.approvalId !in w.approvals
          || (w.approvals[row.approvalId].grant.requestedBy != c.actor && !c.admin)
          || NextStatus(w.approvals[row.approvalId].grant.status, CancelledEvent).Err?;
        var ended := if barred then Ok(w.approvals) else
          var d := Terminate(w.approvals[row.approvalId], Cancel, c.origin.(actor := c.actor));
          if d.Ok? then Ok(w.approvals[row.approvalId := d.value]) else Err(OfApproval(d.code));
        if ended.Err? then Err(ended.code)
        else if !c.stored then Err(HARD_DELETE_EVENT_REFUSED)
        else Ok(w.(rows := rows, approvals := ended.value))
  }

  function OwnerOf(t: Target, s: Setting): L.Owner {
    L.Owner(s.workspace, KindName(t.kind), t.id)
  }

  /** `_keys_for_target`. */
  function KeysFor(keys: map<L.KeyRef, L.Key>, o: L.Owner): (r: seq<L.KeyRef>)
    ensures forall k :: k in r <==> k in keys && keys[k].owner == o
  {
    Sorted(set k | k in keys && keys[k].owner == o)
  }

  predicate HasBodyKey(m: Message, conversation: string) {
    m.conversation == conversation && m.bodyKey.Some? && m.bodyKey.value != ""
  }

  predicate IsBodyKey(messages: seq<Message>, conversation: string, k: L.KeyRef) {
    exists m :: m in messages && HasBodyKey(m, conversation) && m.bodyKey.value == k
  }

  /** The body keys of a conversation's messages, message by message. */
  function BodyKeys(messages: seq<Message>, conversation: string): (r: seq<L.KeyRef>)
    ensures forall k :: k in r <==> IsBodyKey(messages, conversation, k)
  {
    if messages == [] then []
    else
      var n := |messages| - 1;
      var rest := BodyKeys(messages[..n], conversation);
      assert messages == messages[..n] + [messages[n]];
      if HasBodyKey(messages[n], conversation) then rest + [messages[n].bodyKey.value] else rest
  }

  /** The keys an execution destroys: a conversation's message bodies first, then the keys kept for the target. */
  function TargetKeys(w: World, t: Target, s: Setting): seq<L.KeyRef> {
    (if t.kind.ConversationTarget? then BodyKeys(w.messages, t.id) else []) + KeysFor(w.vault.keys, OwnerOf(t, s))
  }

  datatype Executing = Executing(
    rid: Id, who: Account, now: Time, proof: bool, targetExists: bool, stored: bool)

  predicate StillGranted(st: Status) {
    st.Approved? || st.PartiallyConsumed? || st.Consumed?
  }

  const REASON := "HARD_DELETE"

  function ExecuteRequest(w: World, c: Executing, s: Setting): Answer {
    if c.rid !in w.rows then Err(HARD_DELETE_NOT_FOUND)
    else
      var row := w.rows[c.rid];
      if row.phase.EXECUTED? then Ok(w)
      else if !row.phase.APPROVED_WAITING? then Err(HARD_DELETE_NOT_APPROVED)
      else if row.executableAt.None? || c.now < row.executableAt.value then Err(HARD_DELETE_WAITING_PERIOD)
      else if row.approvalId !in w.approvals then Err(OfApproval(APPROVAL_NOT_FOUND))
      else if !StillGranted(w.approvals[row.approvalId].grant.status) then Err(HARD_DELETE_NOT_APPROVED)
      else if !Reauthenticated(Some(c.who), c.proof, s) then Err(HARD_DELETE_REAUTH_REQUIRED)
      else if !c.targetExists && (row.target.kind.AccountTarget? || row.target.kind.ArtifactTarget?) then
        Err(HARD_DELETE_TARGET_NOT_FOUND)
      else
        var refs := TargetKeys(w, row.target, s);
        var shredded := L.ShredAll(w.vault, refs, REASON, s.uuid(c.who), c.now, s.digest);
        if shredded.Err? then Err(OfLedger(shredded.code))
        else if !c.stored then Err(HARD_DELETE_EVENT_REFUSED)
        else
          var done := row.(phase := EXECUTED, executedAt := Some(c.now), keysDestroyed := refs);
          Ok(w.(rows := w.rows[c.rid := done], vault := shredded.value))
  }

  // ---------------------------------------------------------------- runs

  /**
   The handlers, every other way to touch an approval or a key, and new messages; a message's body is encrypted with
   a key that exists.
   */
  datatype Action =
    | DoOpen(opening: Opening)
    | DoApprove(deciding: Deciding)
    | DoCancel(cancelling: Cancelling)
    | DoExecute(executing: Executing)
    | DirectOpen(request: Request, key: string, newId: Id, origin: Origin)
    | DirectCommand(id: Id, cmd: Command)
    | NewKey(ref: L.KeyRef, wrapped: string, owner: L.Owner)
    | NewMessage(message: Message)
    | ImportLedger(entries: seq<L.Tombstone>, at: Time)

  function Or(r: Answer, w: World): World {
    if r.Ok? then r.value else w
  }

  function Step(w: World, a: Action, s: Setting): World {
    match a
    case DoOpen(c) => Or(OpenRequest(w, c, s), w)
    case DoApprove(c) => Or(ApproveRequest(w, c, s), w)
    case DoCancel(c) => Or(CancelRequest(w, c, s), w)
    case DoExecute(c) => Or(ExecuteRequest(w, c, s), w)
    case DirectOpen(request, key, newId, o) =>
      var got := Attach(w, request, key, newId, o);
      if got.Ok? then w.(approvals := got.value.approvals, byRequest := got.value.byRequest) else w
    case DirectCommand(id, cmd) =>
      if id in w.approvals then w.(approvals := w.approvals[id := Apply(w.approvals[id], cmd, s.humans)]) else w
    case NewKey(ref, wrapped, owner) =>
      if ref in w.vault.keys then w else w.(vault := w.vault.(keys := w.vault.keys[ref := L.Active(wrapped, owner)]))
    case NewMessage(m) =>
      if m.bodyKey.Some? && m.bodyKey.value !in w.vault.keys then w else w.(messages := w.messages + [m])
    case ImportLedger(entries, at) => w.(vault := L.Applied(w.vault, entries, at, s.digest))
  }

  function Steps(w: World, actions: seq<Action>, s: Setting): World {
    if actions == [] then w else Step(Steps(w, actions[..|actions| - 1], s), actions[|actions| - 1], s)
  }

  const NOTHING := World(map[], map[], map[], map[], [], L.Vault(map[], []))

  ghost predicate ReachableWorld(w: World, s: Setting) {
    exists actions :: w == Steps(NOTHING, actions, s)
  }

  // ---------------------------------------------------------------- invariant

  /** The grant of `a` was given at a clock reading no later than `at`. */
  ghost predicate GrantedBy(a: Aggregate, at: Time) {
    |a.stream| >= 2 && a.stream[1].body.GrantedEvent? && a.stream[1].at <= at
  }

  /** A human cast one of the votes. */
  ghost predicate HumanVoted(a: Aggregate, humans: set<Account>) {
    exists i :: 0 <= i < |a.decisions| && a.decisions[i].decidedBy in humans
  }

  ghost predicate Waited(row: Row, a: Aggregate, humans: set<Account>) {
    && HumanVoted(a, humans)
    && row.approvedAt.Some? && GrantedBy(a, row.approvedAt.value)
    && row.executableAt == Some(row.approvedAt.value + row.hours * HOUR)
  }

  /** What a request row says about its approval. */
  ghost predicate RowTrue(row: Row, a: Aggregate, humans: set<Account>) {
    && row.requestedBy == a.grant.requestedBy
    && match row.phase
       case PENDING_APPROVAL => row.executedAt.None?
       case APPROVED_WAITING => Waited(row, a, humans) && row.executedAt.None?
       case EXECUTED =>
         Waited(row, a, humans) && row.executedAt.Some? && row.executableAt.value <= row.executedAt.value
       case REJECTED => |a.stream| >= 2 && a.stream[1].body.RejectedEvent? && row.executedAt.None?
       case CANCELLED => row.executedAt.None?
  }

  ghost predicate ApprovalsSound(w: World, s: Setting) {
    && (forall id :: id in w.approvals ==> Inv(w.approvals[id], s.humans))
    && forall k :: k in w.byRequest ==>
         w.byRequest[k] in w.approvals && w.approvals[w.byRequest[k]].grant.requestedBy == k.0
  }

  ghost predicate RowsTrue(w: World, s: Setting) {
    forall rid :: rid in w.rows ==>
      w.rows[rid].approvalId in w.approvals && RowTrue(w.rows[rid], w.approvals[w.rows[rid].approvalId], s.humans)
  }

  ghost predicate OneOpenPerTarget(w: World) {
    forall p, q :: p in w.rows && q in w.rows && p != q && w.rows[p].target == w.rows[q].target ==>
      !OpenPhase(w.rows[p].phase) || !OpenPhase(w.rows[q].phase)
  }

  ghost predicate KeysGone(w: World) {
    forall rid :: rid in w.rows ==> Gone(w.vault, w.rows[rid].keysDestroyed)
  }

  ghost predicate RequestsKnown(w: World) {
    forall key :: key in w.requested ==> w.requested[key] in w.rows
  }

  ghost predicate BodyKeysKnown(w: World) {
    forall i :: 0 <= i < |w.messages| && w.messages[i].bodyKey.Some? ==> w.messages[i].bodyKey.value in w.vault.keys
  }

  ghost predicate Good(w: World, s: Setting) {
    && ApprovalsSound(w, s) && RowsTrue(w, s) && OneOpenPerTarget(w) && KeysGone(w) && RequestsKnown(w)
    && BodyKeysKnown(w) && L.Sound(w.vault, s.digest)
  }

  /** The approvals only moved forward. */
  ghost predicate ApprovalsGrew(v: World, w: World) {
    && v.approvals.Keys <= w.approvals.Keys
    && forall id :: id in v.approvals ==> Extends(v.approvals[id], w.approvals[id])
  }

  lemma GrowingKeepsRow(row: Row, a: Aggregate, b: Aggregate, humans: set<Account>)
    requires Extends(a, b) && RowTrue(row, a, humans)
    ensures RowTrue(row, b, humans)
  {
    if HumanVoted(a, humans) {
      var i :| 0 <= i < |a.decisions| && a.decisions[i].decidedBy in humans;
      assert b.decisions[i] == a.decisions[i];
    }
    if |a.stream| >= 2 {
      assert b.stream[1] == a.stream[1];
    }
  }

  /** The columns a request is opened with. */
  ghost predicate SameOpening(row: Row, later: Row) {
    && later.target == row.target && later.requestedBy == row.requestedBy && later.approvalId == row.approvalId
    && later.hours == row.hours
  }

  /** Finished requests are final and a request keeps what it was opened with. */
  ghost predicate RowsForward(v: World, w: World) {
    forall rid :: rid in v.rows ==>
      && rid in w.rows && SameOpening(v.rows[rid], w.rows[rid])
      && (OpenPhase(v.rows[rid].phase) || w.rows[rid] == v.rows[rid])
  }

  ghost predicate KeysForward(v: World, w: World) {
    forall k :: k in v.vault.keys ==> k in w.vault.keys && (v.vault.keys[k].Destroyed? ==> w.vault.keys[k].Destroyed?)
  }

  ghost predicate RequestedForward(v: World, w: World) {
    forall key :: key in v.requested ==> key in w.requested && w.requested[key] == v.requested[key]
  }

  ghost predicate Forward(v: World, w: World) {
    ApprovalsGrew(v, w) && RowsForward(v, w) && KeysForward(v, w) && RequestedForward(v, w)
  }

  /** Whatever leaves the rows alone, moves approvals forward and only forgets keys keeps everything. */
  lemma SameRowsKeep(v: World, w: World, s: Setting)
    requires Good(v, s) && w.rows == v.rows && ApprovalsGrew(v, w) && ApprovalsSound(w, s)
    requires L.Sound(w.vault, s.digest) && KeysForward(v, w) && w.requested == v.requested && BodyKeysKnown(w)
    ensures Good(w, s) && Forward(v, w)
  {
    hide Inv, Extends, RowTrue, L.Sound;
    forall rid | rid in w.rows
      ensures w.rows[rid].approvalId in w.approvals
      ensures RowTrue(w.rows[rid], w.approvals[w.rows[rid].approvalId], s.humans)
    {
      var id := w.rows[rid].approvalId;
      GrowingKeepsRow(w.rows[rid], v.approvals[id], w.approvals[id], s.humans);
    }
  }

  ghost predicate Gone(vault: L.Vault, ks: seq<L.KeyRef>) {
    forall i :: 0 <= i < |ks| ==> ks[i] in vault.keys && vault.keys[ks[i]].Destroyed?
  }

  /** A row may be replaced by one of the same opening while its request is open. */
  ghost predicate Replaces(v: World, rid: Id, row: Row) {
    if rid in v.rows then
      OpenPhase(v.rows[rid].phase) && SameOpening(v.rows[rid], row)
    else !HasOpenRequest(v, row.target)
  }

  lemma SameBodyKeys(v: World, w: World)
    requires BodyKeysKnown(v) && w.messages == v.messages && KeysForward(v, w)
    ensures BodyKeysKnown(w)
  {
  }

  lemma RowUpdateKeepsRows(v: World, w: World, rid: Id, row: Row, s: Setting)
    requires RowsTrue(v, s) && w.rows == v.rows[rid := row] && ApprovalsGrew(v, w)
    requires row.approvalId in w.approvals && RowTrue(row, w.approvals[row.approvalId], s.humans)
    ensures RowsTrue(w, s)
  {
    hide Extends, RowTrue;
    forall q | q in w.rows
      ensures w.rows[q].approvalId in w.approvals && RowTrue(w.rows[q], w.approvals[w.rows[q].approvalId], s.humans)
    {
      if q != rid {
        var id := w.rows[q].approvalId;
        GrowingKeepsRow(w.rows[q], v.approvals[id], w.approvals[id], s.humans);
      }
    }
  }

  lemma RowUpdateKeepsTargets(v: World, w: World, rid: Id, row: Row)
    requires OneOpenPerTarget(v) && w.rows == v.rows[rid := row] && Replaces(v, rid, row)
    ensures OneOpenPerTarget(w) && RowsForward(v, w)
  {
    hide OpenPhase;
  }

  lemma RowUpdateKeepsKeys(v: World, w: World, rid: Id, row: Row)
    requires KeysGone(v) && w.rows == v.rows[rid := row] && KeysForward(v, w) && Gone(w.vault, row.keysDestroyed)
    ensures KeysGone(w)
  {
  }

  lemma RowUpdateKeeps(v: World, w: World, rid: Id, row: Row, s: Setting)
    requires Good(v, s) && w.rows == v.rows[rid := row] && ApprovalsGrew(v, w) && ApprovalsSound(w, s)
    requires L.Sound(w.vault, s.digest) && KeysForward(v, w) && w.messages == v.messages
    requires RequestedForward(v, w) && RequestsKnown(w)
    requires row.approvalId in w.approvals && RowTrue(row, w.approvals[row.approvalId], s.humans)
    requires Gone(w.vault, row.keysDestroyed)
    requires Replaces(v, rid, row)
    ensures Good(w, s) && Forward(v, w)
  {
    hide Inv, RowTrue, L.Sound, RowsTrue, OneOpenPerTarget, KeysGone, BodyKeysKnown, RequestsKnown, ApprovalsSound,
      ApprovalsGrew, RowsForward, KeysForward, RequestedForward, Gone, Replaces;
    RowUpdateKeepsRows(v, w, rid, row, s);
    RowUpdateKeepsTargets(v, w, rid, row);
    RowUpdateKeepsKeys(v, w, rid, row);
    SameBodyKeys(v, w);
  }

  lemma SetApprovalGrows(w: World, id: Id, b: Aggregate, s: Setting)
    requires ApprovalsSound(w, s) && id in w.approvals && Inv(b, s.humans) && Extends(w.approvals[id], b)
    ensures var u := w.(approvals := w.approvals[id := b]);
      ApprovalsSound(u, s) && ApprovalsGrew(w, u)
  {
    hide Inv;
  }

  lemma AttachGrows(w: World, request: Request, key: string, newId: Id, o: Origin, s: Setting)
    requires ApprovalsSound(w, s) && Attach(w, request, key, newId, o).Ok?
    ensures var got := Attach(w, request, key, newId, o).value;
      var u := w.(approvals := got.approvals, byRequest := got.byRequest);
      && ApprovalsSound(u, s) && ApprovalsGrew(w, u) && got.id in u.approvals
      && u.approvals[got.id].grant.requestedBy == request.requestedBy
  {
    OpenEstablishes(request, o.(key := key), s.humans);
    OpenedBy(request, o.(key := key));
    hide Inv, Open;
  }

  lemma OpenedBy(request: Request, o: Origin)
    ensures Open(request, o).Ok? ==> Open(request, o).value.grant.requestedBy == request.requestedBy
  {
  }

  /** What an accepted decision does to the approval, seen from the request. */
  lemma DecisionGrows(a: Aggregate, c: Deciding, s: Setting)
    requires Inv(a, s.humans) && Reauthenticated(c.approver.account, c.proof, s)
    requires Decide(a, c.approve, c.approver.(reauthVerified := true), s.humans, c.now, c.origin).Ok?
    ensures var b := Decide(a, c.approve, c.approver.(reauthVerified := true), s.humans, c.now, c.origin).value;
      && Inv(b, s.humans) && Extends(a, b)
      && (b.grant.status.Approved? ==> GrantedBy(b, c.origin.at) && HumanVoted(b, s.humans))
      && (b.grant.status.Rejected? ==> |b.stream| >= 2 && b.stream[1].body.RejectedEvent?)
  {
    hide *;
    var p := c.approver.(reauthVerified := true);
    DecideKeeps(a, c.approve, p, s.humans, c.now, c.origin);
    VoteExtends(a, c.approve, p, c.now, c.origin, s.humans);
    DecisionShows(a, c, s);
  }

  lemma DecisionShows(a: Aggregate, c: Deciding, s: Setting)
    requires Inv(a, s.humans) && Reauthenticated(c.approver.account, c.proof, s)
    requires Decide(a, c.approve, c.approver.(reauthVerified := true), s.humans, c.now, c.origin).Ok?
    ensures var b := Decide(a, c.approve, c.approver.(reauthVerified := true), s.humans, c.now, c.origin).value;
      && (b.grant.status.Approved? ==> GrantedBy(b, c.origin.at) && HumanVoted(b, s.humans))
      && (b.grant.status.Rejected? ==> |b.stream| >= 2 && b.stream[1].body.RejectedEvent?)
  {
    var p := c.approver.(reauthVerified := true);
    DecideOutcome(a, c.approve, p, s.humans, c.now, c.origin);
    VoteIsApprovers(a, p, s.humans);
    hide Decide, CheckEligibility, LedgerMatches, EligibleVoter, DistinctVoters, Replay, Deciders, DeciderSet;
    assert DecisionIsVote(a, Decide(a, c.approve, p, s.humans, c.now, c.origin).value, p);
  }

  lemma VoteIsApprovers(a: Aggregate, p: Approver, humans: set<Account>)
    ensures var who := CheckEligibility(a.grant, DeciderSet(a.decisions), p, humans);
      who.Ok? ==> p.account == Some(who.value)
  {
  }

  /** The last decision of `b` is the approver's. */
  predicate DecisionIsVote(a: Aggregate, b: Aggregate, p: Approver) {
    |b.decisions| == |a.decisions| + 1 && p.account == Some(b.decisions[|a.decisions|].decidedBy)
  }

  lemma TerminationGrows(a: Aggregate, o: Origin, s: Setting)
    requires Inv(a, s.humans) && Terminate(a, Cancel, o).Ok?
    ensures Inv(Terminate(a, Cancel, o).value, s.humans) && Extends(a, Terminate(a, Cancel, o).value)
  {
    TerminateKeeps(a, Cancel, o, s.humans);
    ApplyExtends(a, Withdraw(false, o), s.humans);
  }

  // ---------------------------------------------------------------- every step keeps it

  lemma OpenKeeps(w: World, c: Opening, s: Setting)
    requires Good(w, s) && OpenRequest(w, c, s).Ok?
    ensures Good(OpenRequest(w, c, s).value, s) && Forward(w, OpenRequest(w, c, s).value)
  {
    if c.key in w.requested {
      hide Good, Forward;
      ForwardSelf(w);
    } else {
      NewRequestKeeps(w, c, s);
    }
  }

  lemma RequestedBy(who: Account, rid: Id, s: Setting)
    ensures CriticalRequest(who, rid, s).requestedBy == who
  {
  }

  lemma NewRequestKeeps(w: World, c: Opening, s: Setting)
    requires Good(w, s) && c.key !in w.requested && OpenRequest(w, c, s).Ok?
    ensures Good(OpenRequest(w, c, s).value, s) && Forward(w, OpenRequest(w, c, s).value)
  {
    hide Inv, Extends, Attach, CriticalRequest, ApprovalKey, L.Sound;
    var rid := s.requestId(c.target, c.key);
    RequestedBy(c.who, rid, s);
    AttachGrows(w, CriticalRequest(c.who, rid, s), ApprovalKey(c.key), c.newId, c.origin, s);
    var u := OpenRequest(w, c, s).value;
    RowUpdateKeeps(w, u, rid, u.rows[rid], s);
  }

  /** A row that keeps the keys it names may take the place of an earlier one. */
  lemma NothingDestroyed(w: World, rid: Id, row: Row, s: Setting)
    requires Good(w, s) && rid in w.rows && row.keysDestroyed == w.rows[rid].keysDestroyed
    ensures Gone(w.vault, row.keysDestroyed)
    ensures forall u: World :: u.requested == w.requested && u.rows == w.rows[rid := row] ==>
      RequestsKnown(u) && RequestedForward(w, u)
  {
    hide Inv, L.Sound, RowTrue;
  }

  /** What a decision leaves: the approval moved forward, and the row stands or follows it. */
  lemma DecidedRow(w: World, c: Deciding, s: Setting)
    requires Good(w, s) && ApproveRequest(w, c, s).Ok?
    ensures var u := ApproveRequest(w, c, s).value;
      && ApprovalsSound(u, s) && ApprovalsGrew(w, u) && c.rid in w.rows && c.rid in u.rows
      && u == w.(approvals := u.approvals, rows := u.rows)
      && (u.rows == w.rows
          || (&& u.rows == w.rows[c.rid := u.rows[c.rid]] && Replaces(w, c.rid, u.rows[c.rid])
              && u.rows[c.rid].approvalId in u.approvals
              && RowTrue(u.rows[c.rid], u.approvals[u.rows[c.rid].approvalId], s.humans)
              && u.rows[c.rid].keysDestroyed == w.rows[c.rid].keysDestroyed))
  {
    hide Inv, Extends, Decide, L.Sound, OneOpenPerTarget, KeysGone, RequestsKnown, RowTrue;
    var id := w.rows[c.rid].approvalId;
    var u := ApproveRequest(w, c, s).value;
    DecisionGrows(w.approvals[id], c, s);
    SetApprovalGrows(w, id, u.approvals[id], s);
    if u.rows != w.rows {
      FollowsDecision(w.rows[c.rid], w.approvals[id], u.approvals[id], c.origin.at + c.delay, s.humans);
    }
  }

  /** A row that takes up what its approval became says so truly. */
  lemma FollowsDecision(row: Row, a: Aggregate, b: Aggregate, at: Time, humans: set<Account>)
    requires RowTrue(row, a, humans) && row.phase.PENDING_APPROVAL? && Extends(a, b)
    ensures b.grant.status.Rejected? && |b.stream| >= 2 && b.stream[1].body.RejectedEvent? ==>
      RowTrue(row.(phase := REJECTED), b, humans)
    ensures GrantedBy(b, at) && HumanVoted(b, humans) ==>
      RowTrue(row.(phase := APPROVED_WAITING, approvedAt := Some(at), executableAt := Some(at + row.hours * HOUR)), b,
              humans)
  {
  }

  lemma ApproveKeeps(w: World, c: Deciding, s: Setting)
    requires Good(w, s) && ApproveRequest(w, c, s).Ok?
    ensures Good(ApproveRequest(w, c, s).value, s) && Forward(w, ApproveRequest(w, c, s).value)
  {
    SoundOf(w, s);
    hide *;
    var u := ApproveRequest(w, c, s).value;
    DecidedRow(w, c, s);
    SameKeysForward(w, u);
    if u.rows == w.rows {
      SameRowsKeep(w, u, s);
    } else {
      NothingDestroyed(w, c.rid, u.rows[c.rid], s);
      RowUpdateKeeps(w, u, c.rid, u.rows[c.rid], s);
    }
  }

  lemma SoundOf(w: World, s: Setting)
    requires Good(w, s)
    ensures L.Sound(w.vault, s.digest) && BodyKeysKnown(w)
  {
    hide Inv, L.Sound;
  }

  lemma SameKeysForward(v: World, w: World)
    requires v.vault == w.vault && v.messages == w.messages
    ensures KeysForward(v, w) && (BodyKeysKnown(v) ==> BodyKeysKnown(w))
  {
  }

  lemma CancelKeeps(w: World, c: Cancelling, s: Setting)
    requires Good(w, s) && CancelRequest(w, c, s).Ok?
    ensures Good(CancelRequest(w, c, s).value, s) && Forward(w, CancelRequest(w, c, s).value)
  {
    hide Inv, Extends, Terminate, NextStatus, L.Sound, OneOpenPerTarget, KeysGone, RequestsKnown, Forward;
    var id := w.rows[c.rid].approvalId;
    var u := CancelRequest(w, c, s).value;
    NothingDestroyed(w, c.rid, u.rows[c.rid], s);
    if u.approvals != w.approvals {
      TerminationGrows(w.approvals[id], c.origin.(actor := c.actor), s);
      SetApprovalGrows(w, id, u.approvals[id], s);
    } else {
      SelfExtends(w);
    }
    RowUpdateKeeps(w, u, c.rid, u.rows[c.rid], s);
  }

  lemma SelfExtends(w: World)
    ensures forall u: World :: u.approvals == w.approvals ==> ApprovalsGrew(w, u)
  {
  }

  lemma ForwardSelf(w: World)
    ensures Forward(w, w)
  {
  }

  lemma ExecuteKeeps(w: World, c: Executing, s: Setting)
    requires Good(w, s) && ExecuteRequest(w, c, s).Ok?
    ensures Good(ExecuteRequest(w, c, s).value, s) && Forward(w, ExecuteRequest(w, c, s).value)
  {
    ForwardSelf(w);
    hide Inv, Extends, L.ShredAll, L.Sound, L.Listed, TargetKeys;
    var u := ExecuteRequest(w, c, s).value;
    if u != w {
      L.ShredAllForgets(w.vault, TargetKeys(w, w.rows[c.rid].target, s), REASON, s.uuid(c.who), c.now, s.digest);
      SelfExtends(w);
      RowUpdateKeeps(w, u, c.rid, u.rows[c.rid], s);
    }
  }

  lemma StepKeeps(w: World, a: Action, s: Setting)
    requires Good(w, s)
    ensures Good(Step(w, a, s), s) && Forward(w, Step(w, a, s))
  {
    ForwardSelf(w);
    hide Inv, Extends, Good, Forward, OpenRequest, ApproveRequest, CancelRequest, ExecuteRequest;
    match a
    case DoOpen(c) => if OpenRequest(w, c, s).Ok? { OpenKeeps(w, c, s); }
    case DoApprove(c) => if ApproveRequest(w, c, s).Ok? { ApproveKeeps(w, c, s); }
    case DoCancel(c) => if CancelRequest(w, c, s).Ok? { CancelKeeps(w, c, s); }
    case DoExecute(c) => if ExecuteRequest(w, c, s).Ok? { ExecuteKeeps(w, c, s); }
    case _ => OutsideStepKeeps(w, a, s);
  }

  /** Opening, driving and sweeping approvals directly, new keys, messages and ledger imports keep everything too. */
  lemma OutsideStepKeeps(w: World, a: Action, s: Setting)
    requires Good(w, s) && !a.DoOpen? && !a.DoApprove? && !a.DoCancel? && !a.DoExecute?
    ensures Good(Step(w, a, s), s) && Forward(w, Step(w, a, s))
  {
    hide Inv, Extends, Attach, Apply, L.Sound, L.Applied, Good, Forward;
    ForwardSelf(w);
    match a
    case DirectOpen(request, key, newId, o) =>
      if Attach(w, request, key, newId, o).Ok? {
        DirectOpenKeeps(w, request, key, newId, o, s);
      }
    case DirectCommand(id, cmd) =>
      if id in w.approvals {
        DirectCommandKeeps(w, id, cmd, s);
      }
    case _ => TablesKeep(w, a, s);
  }

  lemma DirectOpenKeeps(w: World, request: Request, key: string, newId: Id, o: Origin, s: Setting)
    requires Good(w, s) && Attach(w, request, key, newId, o).Ok?
    ensures var got := Attach(w, request, key, newId, o).value;
      var u := w.(approvals := got.approvals, byRequest := got.byRequest);
      Good(u, s) && Forward(w, u)
  {
    hide Inv, Extends, Attach, L.Sound, RowsTrue, OneOpenPerTarget, KeysGone, RequestsKnown;
    var got := Attach(w, request, key, newId, o).value;
    AttachGrows(w, request, key, newId, o, s);
    SameRowsKeep(w, w.(approvals := got.approvals, byRequest := got.byRequest), s);
  }

  lemma DirectCommandKeeps(w: World, id: Id, cmd: Command, s: Setting)
    requires Good(w, s) && id in w.approvals
    ensures var u := w.(approvals := w.approvals[id := Apply(w.approvals[id], cmd, s.humans)]);
      Good(u, s) && Forward(w, u)
  {
    hide Inv, Extends, Apply, L.Sound, RowsTrue, OneOpenPerTarget, KeysGone, RequestsKnown;
    var b := Apply(w.approvals[id], cmd, s.humans);
    ApplyKeeps(w.approvals[id], cmd, s.humans);
    ApplyExtends(w.approvals[id], cmd, s.humans);
    SetApprovalGrows(w, id, b, s);
    SameRowsKeep(w, w.(approvals := w.approvals[id := b]), s);
  }

  lemma TablesKeep(w: World, a: Action, s: Setting)
    requires Good(w, s) && (a.NewKey? || a.NewMessage? || a.ImportLedger?)
    ensures Good(Step(w, a, s), s) && Forward(w, Step(w, a, s))
  {
    hide Inv, Extends, L.Sound, L.Applied, L.Listed, RowsTrue, OneOpenPerTarget, KeysGone, RequestsKnown,
      ApprovalsSound, Forward;
    match a {
      case NewKey(ref, wrapped, owner) => NewKeyKeepsSound(w.vault, ref, L.Active(wrapped, owner), s.digest);
      case NewMessage(_) =>
      case ImportLedger(entries, at) => L.ImportForgets(w.vault, entries, at, s.digest);
    }
    OnlyTablesKeep(w, Step(w, a, s), s);
  }

  lemma OnlyTablesKeep(v: World, w: World, s: Setting)
    requires Good(v, s) && w.rows == v.rows && w.requested == v.requested && w.approvals == v.approvals
    requires w.byRequest == v.byRequest && L.Sound(w.vault, s.digest) && KeysForward(v, w) && BodyKeysKnown(w)
    ensures Good(w, s) && Forward(v, w)
  {
    hide Inv, L.Sound, RowsTrue, OneOpenPerTarget, KeysGone, RequestsKnown, ApprovalsSound, KeysForward, BodyKeysKnown,
      Forward;
    SelfExtends(v);
    SameApprovals(v, w, s);
    SameRowsKeep(v, w, s);
  }

  lemma SameApprovals(v: World, w: World, s: Setting)
    requires ApprovalsSound(v, s) && w.approvals == v.approvals && w.byRequest == v.byRequest
    ensures ApprovalsSound(w, s)
  {
  }

  lemma NewKeyKeepsSound(v: L.Vault, ref: L.KeyRef, dek: L.Key, digest: L.Digest)
    requires L.Sound(v, digest)
    ensures L.Sound(v.(keys := v.keys[ref := dek]), digest)
  {
  }

  lemma ForwardThen(u: World, v: World, w: World)
    requires Forward(u, v) && Forward(v, w)
    ensures Forward(u, w)
  {
    hide OpenPhase;
  }

  /** Over any run: finished requests and destroyed keys are final and approvals only move forward. */
  lemma {:induction false} StepsKeep(w: World, actions: seq<Action>, s: Setting)
    requires Good(w, s)
    ensures Good(Steps(w, actions, s), s) && Forward(w, Steps(w, actions, s))
  {
    ForwardSelf(w);
    hide Good, Forward, Step;
    if actions == [] {
    } else {
      StepsKeep(w, actions[..|actions| - 1], s);
      var v := Steps(w, actions[..|actions| - 1], s);
      StepKeeps(v, actions[|actions| - 1], s);
      ForwardThen(w, v, Step(v, actions[|actions| - 1], s));
    }
  }

  lemma ReachableIsGood(w: World, s: Setting)
    requires ReachableWorld(w, s)
    ensures Good(w, s)
  {
    var actions :| w == Steps(NOTHING, actions, s);
    StepsKeep(NOTHING, actions, s);
  }
}
