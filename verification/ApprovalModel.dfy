/**
 Approval grants: statuses, the transition table, the per-aggregate event stream and approver eligibility.
 One `Aggregate` gathers the rows of one approval: the grant, the decision and consumption ledgers, the
 event stream and the display projection.
 */
module ApprovalModel {
  import opened Common

  type Account = nat
  /** Microseconds. */
  type Time = int
  const HOUR: Time := 3_600_000_000
  type EventId = nat

  /** The stable error codes of the approval service and of the event store. */
  datatype Code =
    | APPROVAL_NOT_FOUND | APPROVAL_ID_TAKEN | APPROVAL_CANCEL_FORBIDDEN
    | APPROVAL_TERMINAL | APPROVAL_TRANSITION_INVALID | IDEMPOTENCY_CONFLICT | EVENT_REFUSED
    | SEQUENCE_CONFLICT | APPROVER_NOT_ELIGIBLE | SELF_APPROVAL_FORBIDDEN | APPROVER_DUPLICATE
    | HUMAN_APPROVER_REQUIRED | APPROVER_NOT_CHANNEL_MEMBER | APPROVER_ROLE_RISK_TOO_LOW | REAUTH_REQUIRED
    | MAX_USES_INVALID | VALIDITY_INVALID | APPROVAL_NOT_PENDING | APPROVAL_NOT_USABLE | EVENT_STREAM_EMPTY
    | APPROVAL_EXHAUSTED | APPROVAL_SCOPE_MISMATCH

  type Outcome<+T> = Result<T, Code>

  datatype Status =
    | Pending | Approved | PartiallyConsumed | Consumed
    | Rejected | Cancelled | Expired | Revoked

  predicate Terminal(s: Status) {
    s.Consumed? || s.Rejected? || s.Cancelled? || s.Expired? || s.Revoked?
  }

  predicate Consumable(s: Status) {
    s.Approved? || s.PartiallyConsumed?
  }

  /** Event types with the payload fields that later readers rely on. */
  datatype Body =
    | RequestedEvent
    | GrantedEvent(quorumCount: nat)
    | RejectedEvent
    | CancelledEvent
    | ExpiredEvent
    | EscalatedEvent
    | RevokedEvent
    | ConsumedEvent(consumptionKey: string, usedCount: nat)

  /** The idempotency scopes of the approval commands. */
  datatype Scope = OnRequest | OnDecide | OnCancel | OnRevoke | OnExpire | OnEscalate | OnConsume

  function ScopeOf(b: Body): Scope {
    match b
    case RequestedEvent => OnRequest
    case GrantedEvent(_) => OnDecide
    case RejectedEvent => OnDecide
    case CancelledEvent => OnCancel
    case RevokedEvent => OnRevoke
    case ExpiredEvent => OnExpire
    case EscalatedEvent => OnEscalate
    case ConsumedEvent(_, _) => OnConsume
  }

  function NextStatus(current: Status, event: Body): Outcome<Status> {
    if Terminal(current) then Err(APPROVAL_TERMINAL)
    else match (current, event)
      case (Pending, GrantedEvent(_)) => Ok(Approved)
      case (Pending, RejectedEvent) => Ok(Rejected)
      case (_, CancelledEvent) => Ok(Cancelled)
      case (_, ExpiredEvent) => Ok(Expired)
      case (_, RevokedEvent) => Ok(Revoked)
      case (Approved, ConsumedEvent(_, _)) => Ok(PartiallyConsumed)
      case (PartiallyConsumed, ConsumedEvent(_, _)) => Ok(PartiallyConsumed)
      case _ => Err(APPROVAL_TRANSITION_INVALID)
  }

  function StatusAfterConsumption(used: nat, maxUses: Option<nat>): Status {
    if maxUses.Some? && used >= maxUses.value then Consumed else PartiallyConsumed
  }

  datatype Risk = LOW | MEDIUM | HIGH | CRITICAL

  /** The approval defaults of policy/risk-rules.yaml. */
  function CatalogQuorum(r: Risk): nat {
    match r case LOW => 0 case MEDIUM => 1 case HIGH => 1 case CRITICAL => 2
  }

  predicate AtLeastHigh(r: Risk) {
    r.HIGH? || r.CRITICAL?
  }

  datatype Subject = Subject(kind: string, id: string)

  datatype Grant = Grant(
    subject: Subject, risk: Risk, status: Status, requestedBy: Account, implementing: Option<Account>,
    validFrom: Time, expiresAt: Time, maxUses: Option<nat>, quorum: nat, aggregateSeq: nat,
    requiresHuman: bool)

  datatype Event = Event(id: EventId, seqNo: nat, actor: Account, scope: Scope, key: string, body: Body, at: Time)
  datatype Decision = Decision(decidedBy: Account, approve: bool, eventId: EventId)
  datatype Consumption = Consumption(key: string, consumedBy: Account, eventId: EventId)
  datatype Projection = Projection(status: Status, usedCount: nat, deciders: seq<Account>, lastEventId: EventId)

  datatype Aggregate = Aggregate(
    grant: Grant, decisions: seq<Decision>, consumptions: seq<Consumption>, stream: seq<Event>,
    projection: Projection)

  // ---------------------------------------------------------------- event store

  /** What the caller supplies with an event: fresh id, actor, idempotency key, clock reading. */
  datatype Origin = Origin(id: EventId, actor: Account, key: string, at: Time, refused: bool)

  datatype Appended = Appended(stream: seq<Event>, event: Event)

  predicate SameIdempotencyKey(e: Event, actor: Account, scope: Scope, key: string) {
    e.actor == actor && e.scope == scope && e.key == key
  }

  function FindKey(stream: seq<Event>, actor: Account, scope: Scope, key: string): (r: Option<Event>)
    ensures r.None? <==> forall i :: 0 <= i < |stream| ==> !SameIdempotencyKey(stream[i], actor, scope, key)
  {
    FindFirst(stream, (e: Event) => SameIdempotencyKey(e, actor, scope, key))
  }

  /**
   The event store's `append`: an identical earlier request is replayed, the same key with another body is a
   conflict, and the expected sequence number must be the next one. `refused` stands for the store's other
   checks (workspace, actor, schema, the same key on another aggregate).
   */
  function Append(stream: seq<Event>, expectedSeq: nat, o: Origin, body: Body): Outcome<Appended> {
    var prior := FindKey(stream, o.actor, ScopeOf(body), o.key);
    if prior.Some? then
      if prior.value.body == body then Ok(Appended(stream, prior.value)) else Err(IDEMPOTENCY_CONFLICT)
    else if o.refused then Err(EVENT_REFUSED)
    else if expectedSeq != |stream| + 1 then Err(SEQUENCE_CONFLICT)
    else
      var e := Event(o.id, |stream| + 1, o.actor, ScopeOf(body), o.key, body, o.at);
      Ok(Appended(stream + [e], e))
  }

  // ---------------------------------------------------------------- approver eligibility

  /** The account the alias edges lead to; a cycle resolves to the least account seen. */
  function EffectivePrincipal(a: Account, aliases: map<Account, Account>, seen: seq<Account>): Account
    decreases aliases.Keys - (set s | s in seen)
  {
    if a in aliases && a !in seen then
      assert a in aliases.Keys - (set s | s in seen);
      EffectivePrincipal(aliases[a], aliases, seen + [a])
    else if a in seen then Least(seen) else a
  }

  function Least(s: seq<Account>): (m: Account)
    requires s != []
    ensures m in s && forall x :: x in s ==> m <= x
  {
    if |s| == 1 then s[0]
    else
      var rest := Least(s[1..]);
      assert forall x :: x in s ==> x == s[0] || x in s[1..];
      if s[0] <= rest then s[0] else rest
  }

  predicate SamePrincipal(a: Account, b: Option<Account>, aliases: map<Account, Account>) {
    b.Some? && EffectivePrincipal(a, aliases, []) == EffectivePrincipal(b.value, aliases, [])
  }

  datatype Authorization = Allowed | ChannelNotMember | RoleMaxRiskExceeded | Denied

  /** What the policy layer knows about one approver when it decides. */
  datatype Approver = Approver(
    account: Option<Account>, active: bool, aliases: map<Account, Account>, authorization: Authorization,
    roleCoversRisk: bool, reauthVerified: bool)

  function CheckEligibility(g: Grant, prior: set<Account>, a: Approver, humans: set<Account>): Outcome<Account> {
    if a.account.None? || !a.active then Err(APPROVER_NOT_ELIGIBLE)
    else
      var who := a.account.value;
      if SamePrincipal(who, Some(g.requestedBy), a.aliases) || SamePrincipal(who, g.implementing, a.aliases) then
        Err(SELF_APPROVAL_FORBIDDEN)
      else if who in prior then Err(APPROVER_DUPLICATE)
      else if (AtLeastHigh(g.risk) || g.requiresHuman) && who !in humans then Err(HUMAN_APPROVER_REQUIRED)
      else if a.authorization.ChannelNotMember? then Err(APPROVER_NOT_CHANNEL_MEMBER)
      else if a.authorization.RoleMaxRiskExceeded? then Err(APPROVER_ROLE_RISK_TOO_LOW)
      else if a.authorization.Denied? then Err(APPROVER_NOT_ELIGIBLE)
      else if !a.roleCoversRisk then Err(APPROVER_ROLE_RISK_TOO_LOW)
      else if AtLeastHigh(g.risk) && !a.reauthVerified then Err(REAUTH_REQUIRED)
      else Ok(who)
  }

  // ---------------------------------------------------------------- the operations on one aggregate

  function Deciders(ds: seq<Decision>): (r: seq<Account>)
    ensures |r| == |ds| && forall i :: 0 <= i < |ds| ==> r[i] == ds[i].decidedBy
  {
    if ds == [] then [] else Deciders(ds[..|ds| - 1]) + [ds[|ds| - 1].decidedBy]
  }

  function DeciderSet(ds: seq<Decision>): set<Account> {
    set d | d in ds :: d.decidedBy
  }

  /** `_project`: counts the consumption ledger and lists the deciders at the time it is called. */
  function Project(a: Aggregate, status: Status, eventId: EventId): Projection {
    Projection(status, |a.consumptions|, Deciders(a.decisions), eventId)
  }

  function SetStatus(a: Aggregate, status: Status, seqNo: nat): Aggregate {
    a.(grant := a.grant.(status := status, aggregateSeq := seqNo))
  }

  function Reproject(a: Aggregate, status: Status, eventId: EventId): Aggregate {
    a.(projection := Project(a, status, eventId))
  }

  datatype Request = Request(
    subject: Subject, catalogRisk: Risk, risk: Option<Risk>, requestedBy: Account, implementing: Option<Account>,
    validFor: Option<Time>, maxUses: Option<int>, requiresHuman: bool)

  predicate HigherRisk(a: Risk, b: Risk) {
    match a
    case LOW => false
    case MEDIUM => b.LOW?
    case HIGH => b.LOW? || b.MEDIUM?
    case CRITICAL => !b.CRITICAL?
  }

  function EffectiveRisk(r: Request): Risk {
    if r.risk.Some? && HigherRisk(r.risk.value, r.catalogRisk) then r.risk.value else r.catalogRisk
  }

  /** A request that insists on a human asks for one vote even where the catalog asks for none. */
  function RequiredQuorum(risk: Risk, requiresHuman: bool): nat {
    if requiresHuman && CatalogQuorum(risk) == 0 then 1 else CatalogQuorum(risk)
  }

  const EXPIRY_HOURS := 24

  /** An absent or zero duration means the default. */
  function Validity(r: Request): Time {
    if r.validFor.Some? && r.validFor.value != 0 then r.validFor.value else EXPIRY_HOURS * HOUR
  }

  /** `request_approval` for a key the requester has not used before. */
  function Open(r: Request, o: Origin): Outcome<Aggregate> {
    if r.maxUses.Some? && r.maxUses.value <= 0 then Err(MAX_USES_INVALID)
    else if Validity(r) <= 0 then Err(VALIDITY_INVALID)
    else
      var uses := if r.maxUses.Some? then Some(r.maxUses.value as nat) else None;
      var g := Grant(r.subject, EffectiveRisk(r), Pending, r.requestedBy, r.implementing, o.at, o.at + Validity(r),
                     uses, RequiredQuorum(EffectiveRisk(r), r.requiresHuman), 0, r.requiresHuman);
      var done := Append([], g.aggregateSeq + 1, o.(actor := r.requestedBy), RequestedEvent);
      if done.Err? then Err(done.code)
      else
        var a := Aggregate(g, [], [], done.value.stream, Projection(Pending, 0, [], done.value.event.id));
        Ok(Reproject(SetStatus(a, Pending, done.value.event.seqNo), Pending, done.value.event.id))
  }

  /** The part `decide_approval` and `_terminate` share once the event body is known. */
  function Record(a: Aggregate, o: Origin, body: Body, decision: Option<bool>): Outcome<Aggregate> {
    var done := Append(a.stream, a.grant.aggregateSeq + 1, o, body);
    if done.Err? then Err(done.code)
    else
      var next := NextStatus(a.grant.status, body);
      if next.Err? then Err(next.code)
      else
        var id := done.value.event.id;
        var written := a.(stream := done.value.stream, decisions :=
          if decision.Some? then a.decisions + [Decision(o.actor, decision.value, id)] else a.decisions);
        Ok(Reproject(SetStatus(written, next.value, done.value.event.seqNo), next.value, id))
  }

  function Decide(a: Aggregate, approve: bool, approver: Approver, humans: set<Account>, now: Time, o: Origin)
    : Outcome<Aggregate>
  {
    if !a.grant.status.Pending? then Err(APPROVAL_NOT_PENDING)
    else if now >= a.grant.expiresAt then Err(APPROVAL_NOT_USABLE)
    else
      var prior := DeciderSet(a.decisions);
      var who := CheckEligibility(a.grant, prior, approver, humans);
      if who.Err? then Err(who.code)
      else
        var voter := o.(actor := who.value);
        var approvals := |prior| + 1;
        if !approve then Record(a, voter, RejectedEvent, Some(false))
        else if approvals >= a.grant.quorum then Record(a, voter, GrantedEvent(approvals), Some(true))
        else if a.stream == [] then Err(EVENT_STREAM_EMPTY)
        else
          var last := a.stream[|a.stream| - 1].id;
          Ok(Reproject(a.(decisions := a.decisions + [Decision(who.value, true, last)]), Pending, last))
  }

  datatype Ending = Cancel | Revoke | Lapse

  function EndingBody(how: Ending): Body {
    match how case Cancel => CancelledEvent case Revoke => RevokedEvent case Lapse => ExpiredEvent
  }

  /** `_terminate`: the status must allow the ending before anything is written. */
  function Terminate(a: Aggregate, how: Ending, o: Origin): Outcome<Aggregate> {
    var next := NextStatus(a.grant.status, EndingBody(how));
    if next.Err? then Err(next.code) else Record(a, o, EndingBody(how), None)
  }

  predicate Due(g: Grant, now: Time) {
    (g.status.Pending? || g.status.Approved? || g.status.PartiallyConsumed?) && g.expiresAt <= now
  }

  /** One turn of the expiry sweep: APPROVAL_EXPIRED, then its escalation. */
  function Expire(a: Aggregate, o: Origin, escalation: Origin): Outcome<Aggregate> {
    var expired := Terminate(a, Lapse, o);
    if expired.Err? then expired
    else
      var b := expired.value;
      var done := Append(b.stream, b.grant.aggregateSeq + 1, escalation, EscalatedEvent);
      if done.Err? then Err(done.code)
      else
        var c := SetStatus(b.(stream := done.value.stream), Expired, done.value.event.seqNo);
        Ok(Reproject(c, Expired, done.value.event.id))
  }

  datatype Used = Used(after: Aggregate, usedCount: nat, status: Status, eventId: EventId, replayed: bool)

  function FindConsumption(cs: seq<Consumption>, key: string): (r: Option<Consumption>)
    ensures r.None? <==> forall i :: 0 <= i < |cs| ==> cs[i].key != key
    ensures r.Some? ==> r.value in cs && r.value.key == key
  {
    FindFirst(cs, (c: Consumption) => c.key == key)
  }

  function Consume(a: Aggregate, key: string, consumedFor: Subject, now: Time, o: Origin): Outcome<Used> {
    var g := a.grant;
    var existing := FindConsumption(a.consumptions, key);
    var used := |a.consumptions|;
    if existing.Some? then Ok(Used(a, used, g.status, existing.value.eventId, true))
    else if g.status.Consumed? then Err(APPROVAL_EXHAUSTED)
    else if !Consumable(g.status) then Err(APPROVAL_NOT_USABLE)
    else if !(g.validFrom <= now < g.expiresAt) then Err(APPROVAL_NOT_USABLE)
    else if consumedFor != g.subject then Err(APPROVAL_SCOPE_MISMATCH)
    else if g.maxUses.Some? && used >= g.maxUses.value then Err(APPROVAL_EXHAUSTED)
    else
      var done := Append(a.stream, g.aggregateSeq + 1, o.(key := key), ConsumedEvent(key, used + 1));
      if done.Err? then Err(done.code)
      else
        var id := done.value.event.id;
        var status := StatusAfterConsumption(used + 1, g.maxUses);
        var written := a.(stream := done.value.stream,
                          consumptions := a.consumptions + [Consumption(key, o.actor, id)]);
        Ok(Used(Reproject(SetStatus(written, status, done.value.event.seqNo), status, id), used + 1, status, id, false))
  }
}
