/**
 The Agent registry: the lifecycle fold over an Agent's event stream, the runtime columns kept beside it, and the
 lifecycle commands. The chain digest is a parameter.
 */
module AgentRegistry {
  import opened Common

  type Account = nat
  type EventId = nat
  type Hash = string
  /** Seconds. */
  type Time = int

  datatype Kind =
    | Registered | Updated | Activated | Suspended | Revoked | Heartbeat(capacity: nat) | MarkedOffline(missed: nat)
    | Foreign

  /** The event type alone, without its payload. */
  datatype Tag = TRegistered | TUpdated | TActivated | TSuspended | TRevoked | THeartbeat | TMarkedOffline | TForeign

  function TagOf(k: Kind): Tag {
    match k
    case Registered => TRegistered
    case Updated => TUpdated
    case Activated => TActivated
    case Suspended => TSuspended
    case Revoked => TRevoked
    case Heartbeat(_) => THeartbeat
    case MarkedOffline(_) => TMarkedOffline
    case Foreign => TForeign
  }

  datatype Event = Event(id: EventId, kind: Kind, seqNo: nat, actor: Account, scope: Tag, key: string, at: Time)

  datatype Status = PENDING | ACTIVE | SUSPENDED | REVOKED | OFFLINE

  datatype Link = Link(id: EventId, tag: Tag, seqNo: nat, at: Time)

  /** `chain_hash`: the previous hash with what identifies an event. */
  type Digest = (Hash, Link) -> Hash

  ghost predicate NeverEmpty(digest: Digest) {
    forall p, l :: digest(p, l) != []
  }

  const HEARTBEAT_INTERVAL := 30
  const OFFLINE_AFTER_MISSES := 3
  const OFFLINE_AFTER := 90

  // ---------------------------------------------------------------- fold

  datatype HistoryEntry = HistoryEntry(link: Link, status: Status, hash: Hash)

  datatype State = State(
    status: Status, online: bool, capacity: nat, lastHeartbeat: Option<Time>, missed: nat, hash: Hash,
    lastEvent: Option<EventId>, lastSeq: nat, history: seq<HistoryEntry>)

  const INITIAL := State(PENDING, false, 1, None, 0, [], None, 0, [])

  function LinkOf(e: Event): Link {
    Link(e.id, TagOf(e.kind), e.seqNo, e.at)
  }

  /** The columns an event type sets. */
  function Columns(s: State, e: Event): State {
    match e.kind
    case Registered => s.(status := PENDING)
    case Updated => s
    case Activated => s.(status := ACTIVE)
    case Suspended => s.(status := SUSPENDED, online := false)
    case Revoked => s.(status := REVOKED, online := false)
    case Heartbeat(capacity) =>
      s.(online := true, capacity := capacity, lastHeartbeat := Some(e.at), missed := 0,
         status := if s.status.ACTIVE? || s.status.OFFLINE? then ACTIVE else s.status)
    case MarkedOffline(missed) =>
      s.(online := false, missed := missed,
         status := if s.status.ACTIVE? || s.status.OFFLINE? then OFFLINE else s.status)
    case Foreign => s
  }

  function FoldStep(s: State, e: Event, digest: Digest): State {
    if e.kind.Foreign? then s
    else
      var t := Columns(s, e);
      var hash := digest(s.hash, LinkOf(e));
      t.(hash := hash, lastEvent := Some(e.id), lastSeq := e.seqNo,
         history := t.history + [HistoryEntry(LinkOf(e), t.status, hash)])
  }

  function Fold(stream: seq<Event>, digest: Digest): State {
    if stream == [] then INITIAL else FoldStep(Fold(stream[..|stream| - 1], digest), stream[|stream| - 1], digest)
  }

  /** `fold`: one pass that replaces the state and appends to the history. */
  method FoldEvents(stream: seq<Event>, digest: Digest) returns (s: State)
    ensures s == Fold(stream, digest)
  {
    s := INITIAL;
    var history := [];
    for i := 0 to |stream|
      invariant s.(history := history) == Fold(stream[..i], digest) && s.history == []
    {
      assert stream[..i + 1][..i] == stream[..i];
      var e := stream[i];
      if !e.kind.Foreign? {
        s := Columns(s, e);
        var hash := digest(s.hash, LinkOf(e));
        history := history + [HistoryEntry(LinkOf(e), s.status, hash)];
        s := s.(hash := hash, lastEvent := Some(e.id), lastSeq := e.seqNo);
      }
    }
    assert stream[..|stream|] == stream;
    s := s.(history := history);
  }

  // ---------------------------------------------------------------- rows and streams

  /** The runtime columns of the `agents` row, and whether a connection test is stored. */
  datatype Row = Row(
    status: Status, online: bool, capacity: nat, lastHeartbeat: Option<Time>, missed: nat, hash: Option<Hash>,
    lastEvent: Option<EventId>, lastSeq: nat, tested: bool)

  datatype Agent = Agent(row: Row, stream: seq<Event>)

  /** `write_state`. */
  function WriteState(row: Row, s: State): Row {
    Row(s.status, s.online, s.capacity, s.lastHeartbeat, s.missed, if s.hash == [] then None else Some(s.hash),
        s.lastEvent, s.lastSeq, row.tested)
  }

  /** `refresh_state`. */
  function Refresh(a: Agent, digest: Digest): Agent {
    a.(row := WriteState(a.row, Fold(a.stream, digest)))
  }

  datatype Caller = Caller(actor: Account, key: string, at: Time, id: EventId, refused: bool)

  predicate SameKey(e: Event, c: Caller, scope: Tag) {
    e.actor == c.actor && e.scope == scope && e.key == c.key
  }

  function FindKey(stream: seq<Event>, c: Caller, scope: Tag): (r: Option<Event>)
    ensures r.None? <==> forall i :: 0 <= i < |stream| ==> !SameKey(stream[i], c, scope)
  {
    FindFirst(stream, (e: Event) => SameKey(e, c, scope))
  }

  datatype Error =
    | AGENT_REVOKED | AGENT_ALREADY_ACTIVE | AGENT_CONNECTION_TEST_REQUIRED | AGENT_STATUS_INVALID
    | AGENT_HEALTH_INVALID | AGENT_CAPACITY_INVALID | USAGE_REQUIRED | USAGE_INVALID | OfField(fault: Fault)
    | AGENT_UPDATE_EMPTY
    | IDEMPOTENCY_CONFLICT | EVENT_REFUSED

  type Outcome<+T> = Result<T, Error>

  function NewEvent(stream: seq<Event>, kind: Kind, c: Caller): Event {
    Event(c.id, kind, |stream| + 1, c.actor, TagOf(kind), c.key, c.at)
  }

  /** The store's append without an expected sequence number. */
  function Append(stream: seq<Event>, kind: Kind, c: Caller): Outcome<seq<Event>> {
    var prior := FindKey(stream, c, TagOf(kind));
    if prior.Some? then if prior.value.kind == kind then Ok(stream) else Err(IDEMPOTENCY_CONFLICT)
    else if c.refused then Err(EVENT_REFUSED)
    else Ok(stream + [NewEvent(stream, kind, c)])
  }

  function MissedAt(last: Option<Time>, now: Time): nat {
    if last.None? then OFFLINE_AFTER_MISSES
    else if now - last.value < 0 then 0
    else (now - last.value) / HEARTBEAT_INTERVAL
  }

  predicate OfflineDue(last: Option<Time>, now: Time) {
    last.None? || now - last.value >= OFFLINE_AFTER || MissedAt(last, now) >= OFFLINE_AFTER_MISSES
  }

  /** Both conditions of `is_offline_due` say the same: ninety seconds without a heartbeat. */
  lemma OfflineDueExactly(last: Option<Time>, now: Time)
    ensures OfflineDue(last, now) <==> last.None? || now - last.value >= OFFLINE_AFTER
    ensures last.Some? ==> (MissedAt(last, now) >= OFFLINE_AFTER_MISSES <==> now - last.value >= OFFLINE_AFTER)
  {
  }

  // ---------------------------------------------------------------- commands

  /** A field an update names may fail its check; the first that does decides the error. */
  datatype Fault =
    | AGENT_ENDPOINT_SECRET_VALUE | AGENT_LIMIT_KEY_INVALID | AGENT_LIMIT_VALUE_INVALID | AGENT_DELIVERY_MODES_INVALID
    | CAPABILITY_UNKNOWN

  /** The usage a heartbeat reports; the recorder looks at it after the event is appended. */
  datatype Usage = Absent | Malformed | Given

  datatype Command =
    | Update(fault: Option<Fault>, changes: bool, caller: Caller)
    | TestConnection(passed: bool)
    | Activate(probe: Option<bool>, caller: Caller)
    | Suspend(caller: Caller)
    | Revoke(caller: Caller)
    | RecordHeartbeat(healthKnown: bool, capacity: int, usage: Usage, reconfirms: bool, caller: Caller)
    | MarkOffline(now: Time, caller: Caller)
    | SweepTurn(listed: Row, now: Time, caller: Caller)
    | OtherService(caller: Caller)

  function AppendAndRefresh(a: Agent, kind: Kind, c: Caller, digest: Digest): Outcome<Agent> {
    var done := Append(a.stream, kind, c);
    if done.Err? then Err(done.code) else Ok(Refresh(a.(stream := done.value), digest))
  }

  /** `_mark_offline` and the refresh after it. */
  function TakeOffline(a: Agent, now: Time, c: Caller, digest: Digest): Outcome<Agent> {
    var missed := MissedAt(a.row.lastHeartbeat, now);
    var reported := if missed >= OFFLINE_AFTER_MISSES then missed else OFFLINE_AFTER_MISSES;
    AppendAndRefresh(a.(row := a.row.(missed := missed)), MarkedOffline(reported), c, digest)
  }

  /** The tag a command's replay check looks for. */
  function ScopeOf(cmd: Command): Option<Tag> {
    match cmd
    case Update(_, _, _) => Some(TUpdated)
    case Activate(_, _) => Some(TActivated)
    case Suspend(_) => Some(TSuspended)
    case Revoke(_) => Some(TRevoked)
    case RecordHeartbeat(_, _, _, _, _) => Some(THeartbeat)
    case MarkOffline(_, _) => Some(TMarkedOffline)
    case _ => None
  }

  function Handle(a: Agent, cmd: Command, digest: Digest): Outcome<Agent> {
    var st := a.row.status;
    if ScopeOf(cmd).Some? && FindKey(a.stream, cmd.caller, ScopeOf(cmd).value).Some? then Ok(Refresh(a, digest))
    else match cmd
      case Update(fault, changes, c) =>
        if st.REVOKED? then Err(AGENT_REVOKED)
        else if fault.Some? then Err(OfField(fault.value))
        else if !changes then Err(AGENT_UPDATE_EMPTY)
        else AppendAndRefresh(a, Updated, c, digest)
      case TestConnection(passed) => Ok(if passed then a.(row := a.row.(tested := true)) else a)
      case Activate(probe, c) =>
        var tested := if probe.Some? then probe.value else a.row.tested;
        if st.REVOKED? then Err(AGENT_REVOKED)
        else if st.ACTIVE? then Err(AGENT_ALREADY_ACTIVE)
        else if !tested then Err(AGENT_CONNECTION_TEST_REQUIRED)
        else AppendAndRefresh(a.(row := a.row.(tested := tested)), Activated, c, digest)
      case Suspend(c) =>
        if st.REVOKED? || st.SUSPENDED? then Err(AGENT_STATUS_INVALID) else AppendAndRefresh(a, Suspended, c, digest)
      case Revoke(c) =>
        if st.REVOKED? then Err(AGENT_REVOKED) else AppendAndRefresh(a, Revoked, c, digest)
      case RecordHeartbeat(healthKnown, capacity, usage, reconfirms, c) =>
        if st.PENDING? || st.SUSPENDED? || st.REVOKED? then Err(AGENT_STATUS_INVALID)
        else if !healthKnown then Err(AGENT_HEALTH_INVALID)
        else if capacity < 0 then Err(AGENT_CAPACITY_INVALID)
        else if usage.Absent? then Err(USAGE_REQUIRED)
        else
          var done := AppendAndRefresh(a.(row := a.row.(tested := a.row.tested || reconfirms)), Heartbeat(capacity), c,
                                       digest);
          if done.Ok? && usage.Malformed? then Err(USAGE_INVALID) else done
      case MarkOffline(now, c) =>
        if !st.ACTIVE? || !a.row.online then Err(AGENT_STATUS_INVALID) else TakeOffline(a, now, c, digest)
      case SweepTurn(listed, now, c) =>
        if !listed.status.ACTIVE? || !listed.online then Ok(a)
        else if !OfflineDue(listed.lastHeartbeat, now) then
          var missed := MissedAt(listed.lastHeartbeat, now);
          Ok(if missed != listed.missed then a.(row := a.row.(missed := missed)) else a)
        else TakeOffline(a, now, c, digest)
      case OtherService(c) =>
        var done := Append(a.stream, Foreign, c);
        if done.Err? then Err(done.code) else Ok(a.(stream := done.value))
  }

  function Step(a: Agent, cmd: Command, digest: Digest): Agent {
    var r := Handle(a, cmd, digest);
    if r.Ok? then r.value else a
  }

  function Run(a: Agent, cmds: seq<Command>, digest: Digest): Agent {
    if cmds == [] then a else Step(Run(a, cmds[..|cmds| - 1], digest), cmds[|cmds| - 1], digest)
  }

  /** `register_agent`. */
  function Register(c: Caller, tested: bool, digest: Digest): Outcome<Agent> {
    AppendAndRefresh(Agent(Row(PENDING, false, 1, None, 0, None, None, 0, tested), []), Registered, c, digest)
  }

  // ---------------------------------------------------------------- invariant

  /** Every column but the missed count equals the fold of the stream. */
  ghost predicate RowMatches(a: Agent, digest: Digest) {
    a.row.(missed := 0) == WriteState(a.row, Fold(a.stream, digest)).(missed := 0)
  }

  ghost predicate Inv(a: Agent, digest: Digest) {
    && RowMatches(a, digest)
    && (a.row.online ==> a.row.status.ACTIVE? && a.row.lastHeartbeat.Some?)
    && forall i :: 0 <= i < |a.stream| ==> a.stream[i].seqNo == i + 1 && a.stream[i].scope == TagOf(a.stream[i].kind)
  }

  lemma FoldAppended(stream: seq<Event>, e: Event, digest: Digest)
    ensures Fold(stream + [e], digest) == FoldStep(Fold(stream, digest), e, digest)
  {
    assert (stream + [e])[..|stream|] == stream;
  }

  lemma RefreshKeeps(a: Agent, digest: Digest)
    requires Inv(a, digest)
    ensures Inv(Refresh(a, digest), digest)
    ensures Refresh(a, digest).row == a.row.(missed := Fold(a.stream, digest).missed)
  {
    hide Fold;
  }

  /** Appending is safe: a heartbeat only where the status allows one. */
  lemma AppendKeeps(a: Agent, b: Agent, kind: Kind, c: Caller, digest: Digest)
    requires Inv(a, digest) && b.stream == a.stream
    requires kind.Heartbeat? ==> a.row.status.ACTIVE? || a.row.status.OFFLINE?
    requires kind.Registered? ==> a.stream == []
    requires AppendAndRefresh(b, kind, c, digest).Ok?
    ensures Inv(AppendAndRefresh(b, kind, c, digest).value, digest)
  {
    hide Fold, FindKey, Columns;
    FoldAppended(a.stream, NewEvent(a.stream, kind, c), digest);
    NothingFolded(digest);
    ColumnsKeepOnline(Fold(a.stream, digest), NewEvent(a.stream, kind, c));
  }

  lemma NothingFolded(digest: Digest)
    ensures Fold([], digest) == INITIAL
  {
  }

  /** An event leaves an Agent online only where it was heard from and is active. */
  lemma ColumnsKeepOnline(s: State, e: Event)
    requires s.online ==> s.status.ACTIVE? && s.lastHeartbeat.Some?
    requires e.kind.Heartbeat? ==> s.status.ACTIVE? || s.status.OFFLINE?
    requires e.kind.Registered? ==> s == INITIAL
    ensures Columns(s, e).online ==> Columns(s, e).status.ACTIVE? && Columns(s, e).lastHeartbeat.Some?
  {
  }

  lemma RegisterInv(c: Caller, tested: bool, digest: Digest)
    ensures Register(c, tested, digest).Ok? ==> Inv(Register(c, tested, digest).value, digest)
  {
    var a := Agent(Row(PENDING, false, 1, None, 0, None, None, 0, tested), []);
    if Register(c, tested, digest).Ok? {
      AppendKeeps(a, a, Registered, c, digest);
    }
  }

  lemma TakeOfflineKeeps(a: Agent, now: Time, c: Caller, digest: Digest)
    requires Inv(a, digest) && TakeOffline(a, now, c, digest).Ok?
    ensures Inv(TakeOffline(a, now, c, digest).value, digest)
  {
    hide Inv, AppendAndRefresh;
    var missed := MissedAt(a.row.lastHeartbeat, now);
    AppendKeeps(a, a.(row := a.row.(missed := missed)), MarkedOffline(
      if missed >= OFFLINE_AFTER_MISSES then missed else OFFLINE_AFTER_MISSES), c, digest);
  }

  lemma MissedOnly(a: Agent, missed: nat, tested: bool, digest: Digest)
    requires Inv(a, digest)
    ensures Inv(a.(row := a.row.(missed := missed, tested := tested)), digest)
  {
    hide Fold;
  }

  lemma OtherServiceKeeps(a: Agent, c: Caller, digest: Digest)
    requires Inv(a, digest)
    ensures Inv(Step(a, OtherService(c), digest), digest)
  {
    FoldAppended(a.stream, NewEvent(a.stream, Foreign, c), digest);
    hide Fold, FindKey;
  }

  lemma StepKeeps(a: Agent, cmd: Command, digest: Digest)
    requires Inv(a, digest)
    ensures Inv(Step(a, cmd, digest), digest)
  {
    hide Inv, AppendAndRefresh, TakeOffline, FindKey, Refresh, MissedAt, OfflineDue, Append;
    if cmd.OtherService? {
      OtherServiceKeeps(a, cmd.caller, digest);
    } else if Handle(a, cmd, digest).Ok? {
      RefreshKeeps(a, digest);
      MissedOnly(a, a.row.missed, true, digest);
      match cmd
      case Update(_, _, c) => CommandKeeps(a, a, Updated, c, digest);
      case TestConnection(_) =>
      case Activate(_, c) => CommandKeeps(a, a.(row := a.row.(tested := true)), Activated, c, digest);
      case Suspend(c) => CommandKeeps(a, a, Suspended, c, digest);
      case Revoke(c) => CommandKeeps(a, a, Revoked, c, digest);
      case RecordHeartbeat(_, capacity, _, reconfirms, c) =>
        if capacity >= 0 && (a.row.status.ACTIVE? || a.row.status.OFFLINE?) {
          CommandKeeps(a, a.(row := a.row.(tested := a.row.tested || reconfirms)), Heartbeat(capacity), c, digest);
        }
      case MarkOffline(now, c) => if TakeOffline(a, now, c, digest).Ok? { TakeOfflineKeeps(a, now, c, digest); }
      case SweepTurn(listed, now, c) =>
        MissedOnly(a, MissedAt(listed.lastHeartbeat, now), a.row.tested, digest);
        if TakeOffline(a, now, c, digest).Ok? { TakeOfflineKeeps(a, now, c, digest); }
    }
  }

  lemma CommandKeeps(a: Agent, b: Agent, kind: Kind, c: Caller, digest: Digest)
    requires Inv(a, digest) && b.stream == a.stream && !kind.Registered?
    requires kind.Heartbeat? ==> a.row.status.ACTIVE? || a.row.status.OFFLINE?
    ensures AppendAndRefresh(b, kind, c, digest).Ok? ==> Inv(AppendAndRefresh(b, kind, c, digest).value, digest)
  {
    if AppendAndRefresh(b, kind, c, digest).Ok? {
      AppendKeeps(a, b, kind, c, digest);
    }
  }

  lemma {:induction false} RunKeeps(a: Agent, cmds: seq<Command>, digest: Digest)
    requires Inv(a, digest)
    ensures Inv(Run(a, cmds, digest), digest)
  {
    hide Inv, Step;
    if cmds == [] {
    } else {
      RunKeeps(a, cmds[..|cmds| - 1], digest);
      StepKeeps(Run(a, cmds[..|cmds| - 1], digest), cmds[|cmds| - 1], digest);
    }
  }

  /** An Agent as some run of commands after its registration leaves it. */
  ghost predicate Reachable(a: Agent, digest: Digest) {
    exists c, tested, cmds ::
      Register(c, tested, digest).Ok? && a == Run(Register(c, tested, digest).value, cmds, digest)
  }

  lemma ReachableInv(a: Agent, digest: Digest)
    requires Reachable(a, digest)
    ensures Inv(a, digest)
  {
    var c, tested, cmds :| Register(c, tested, digest).Ok? && a == Run(Register(c, tested, digest).value, cmds, digest);
    RegisterInv(c, tested, digest);
    RunKeeps(Register(c, tested, digest).value, cmds, digest);
  }

  // ---------------------------------------------------------------- main results

  /** The live row is the fold, column by column; an online Agent is active and was heard from. */
  lemma RowIsTheFold(a: Agent, digest: Digest)
    requires Reachable(a, digest)
    ensures var f := Fold(a.stream, digest);
      && a.row.status == f.status && a.row.online == f.online && a.row.capacity == f.capacity
      && a.row.lastHeartbeat == f.lastHeartbeat && a.row.lastEvent == f.lastEvent && a.row.lastSeq == f.lastSeq
      && a.row.hash == (if f.hash == [] then None else Some(f.hash))
    ensures a.row.online ==> a.row.status.ACTIVE? && a.row.lastHeartbeat.Some?
  {
    ReachableInv(a, digest);
    hide Fold;
  }

  /** A rebuild changes nothing but, possibly, the missed count. */
  lemma RebuildChangesOnlyMisses(a: Agent, digest: Digest)
    requires Reachable(a, digest)
    ensures Refresh(a, digest) == a.(row := a.row.(missed := Fold(a.stream, digest).missed))
    ensures Refresh(a, digest) == a <==> a.row.missed == Fold(a.stream, digest).missed
  {
    ReachableInv(a, digest);
    RefreshKeeps(a, digest);
    hide Fold;
  }

  function Lifecycle(stream: seq<Event>): seq<Link> {
    if stream == [] then []
    else
      var e, rest := stream[|stream| - 1], Lifecycle(stream[..|stream| - 1]);
      if e.kind.Foreign? then rest else rest + [LinkOf(e)]
  }

  /** Equal lifecycle hashes mean the same lifecycle: event ids, types, sequence numbers and times. */
  lemma {:induction false} SameHashSameLifecycle(s: seq<Event>, t: seq<Event>, digest: Digest)
    requires CollisionFree(digest) && NeverEmpty(digest) && Fold(s, digest).hash == Fold(t, digest).hash
    ensures Lifecycle(s) == Lifecycle(t)
    decreases |s| + |t|
  {
    if s == [] && t == [] {
    } else if s != [] && s[|s| - 1].kind.Foreign? {
      SameHashSameLifecycle(s[..|s| - 1], t, digest);
    } else if t != [] && t[|t| - 1].kind.Foreign? {
      SameHashSameLifecycle(s, t[..|t| - 1], digest);
    } else {
      assert s != [] && t != [];
      SameHashSameLifecycle(s[..|s| - 1], t[..|t| - 1], digest);
    }
  }

  // ---------------------------------------------------------------- after revocation

  /** A sweep turn whose listing still holds when the row is locked. */
  predicate CurrentListing(a: Agent, cmd: Command) {
    cmd.SweepTurn? ==> cmd.listed.status == a.row.status && cmd.listed.online == a.row.online
  }

  /** A sweep turn that takes the Agent offline on the strength of its listing. */
  predicate SweepTakesOffline(a: Agent, cmd: Command) {
    && cmd.SweepTurn? && cmd.listed.status.ACTIVE? && cmd.listed.online
    && OfflineDue(cmd.listed.lastHeartbeat, cmd.now)
    && FindKey(a.stream, cmd.caller, TMarkedOffline).None? && !cmd.caller.refused
  }

  lemma AppendExtends(a: Agent, kind: Kind, c: Caller, digest: Digest)
    requires AppendAndRefresh(a, kind, c, digest).Ok?
    ensures var b := AppendAndRefresh(a, kind, c, digest).value;
      b.row.status == Fold(b.stream, digest).status && b.row.online == Fold(b.stream, digest).online
      && b.stream == (if FindKey(a.stream, c, TagOf(kind)).None? then a.stream + [NewEvent(a.stream, kind, c)]
                      else a.stream)
  {
    hide Fold;
  }

  lemma LifecycleAppended(stream: seq<Event>, e: Event)
    ensures Lifecycle(stream + [e]) == if e.kind.Foreign? then Lifecycle(stream) else Lifecycle(stream) + [LinkOf(e)]
  {
    assert (stream + [e])[..|stream|] == stream;
  }

  /** A command adds to the lifecycle of a revoked Agent exactly when it is such a sweep turn. */
  lemma AfterRevocationExactly(a: Agent, cmd: Command, digest: Digest)
    requires Inv(a, digest) && a.row.status.REVOKED?
    ensures Step(a, cmd, digest).row.status.REVOKED? && !Step(a, cmd, digest).row.online
    ensures Lifecycle(Step(a, cmd, digest).stream) != Lifecycle(a.stream) <==> SweepTakesOffline(a, cmd)
    ensures CurrentListing(a, cmd) ==> Lifecycle(Step(a, cmd, digest).stream) == Lifecycle(a.stream)
  {
    RefreshKeeps(a, digest);
    if cmd.OtherService? {
      LifecycleAppended(a.stream, NewEvent(a.stream, Foreign, cmd.caller));
    } else if cmd.SweepTurn? {
      SweepOnRevoked(a, cmd, digest);
    }
    hide Fold, Lifecycle, FindKey, TakeOffline, OfflineDue, MissedAt, AppendAndRefresh, Inv, RowMatches;
  }

  lemma SweepOnRevoked(a: Agent, cmd: Command, digest: Digest)
    requires Inv(a, digest) && a.row.status.REVOKED? && cmd.SweepTurn?
    ensures Step(a, cmd, digest).row.status.REVOKED? && !Step(a, cmd, digest).row.online
    ensures Lifecycle(Step(a, cmd, digest).stream) != Lifecycle(a.stream) <==> SweepTakesOffline(a, cmd)
  {
    hide OfflineDue, MissedAt, AppendAndRefresh, FindKey, Lifecycle, Fold, Inv;
    NotOnline(a, digest);
    var missed := MissedAt(a.row.lastHeartbeat, cmd.now);
    var kind := MarkedOffline(if missed >= OFFLINE_AFTER_MISSES then missed else OFFLINE_AFTER_MISSES);
    var e, b := NewEvent(a.stream, kind, cmd.caller), a.(row := a.row.(missed := missed));
    LifecycleAppended(a.stream, e);
    FoldAppended(a.stream, e, digest);
    FoldIsRow(a, digest);
    AppendOutcome(b, kind, cmd.caller, digest);
    if AppendAndRefresh(b, kind, cmd.caller, digest).Ok? {
      AppendExtends(b, kind, cmd.caller, digest);
    }
  }

  lemma FoldIsRow(a: Agent, digest: Digest)
    requires Inv(a, digest)
    ensures Fold(a.stream, digest).status == a.row.status && Fold(a.stream, digest).online == a.row.online
  {
    hide Fold;
  }

  lemma AppendOutcome(a: Agent, kind: Kind, c: Caller, digest: Digest)
    ensures FindKey(a.stream, c, TagOf(kind)).None? ==> (AppendAndRefresh(a, kind, c, digest).Ok? <==> !c.refused)
  {
    hide Fold, FindKey;
  }

  ghost predicate ListingsCurrent(a: Agent, cmds: seq<Command>, digest: Digest) {
    forall i :: 0 <= i < |cmds| ==> CurrentListing(Run(a, cmds[..i], digest), cmds[i])
  }

  /** Revocation is final in every run; with current listings no lifecycle event follows it either. */
  lemma {:induction false} RevocationIsFinal(a: Agent, cmds: seq<Command>, digest: Digest)
    requires Inv(a, digest) && a.row.status.REVOKED?
    ensures Run(a, cmds, digest).row.status.REVOKED? && !Run(a, cmds, digest).row.online
    ensures ListingsCurrent(a, cmds, digest) ==> Lifecycle(Run(a, cmds, digest).stream) == Lifecycle(a.stream)
  {
    hide Inv, Step, Lifecycle;
    if cmds == [] {
      NotOnline(a, digest);
    } else {
      var rest := cmds[..|cmds| - 1];
      RevocationIsFinal(a, rest, digest);
      RunKeeps(a, rest, digest);
      if ListingsCurrent(a, cmds, digest) {
        forall i | 0 <= i < |rest| ensures CurrentListing(Run(a, rest[..i], digest), rest[i]) {
          assert rest[..i] == cmds[..i];
        }
        assert CurrentListing(Run(a, cmds[..|rest|], digest), cmds[|rest|]);
      }
      AfterRevocationExactly(Run(a, rest, digest), cmds[|rest|], digest);
    }
  }

  lemma NotOnline(a: Agent, digest: Digest)
    requires Inv(a, digest) && a.row.status.REVOKED?
    ensures !a.row.online
  {
  }

  /**
   A sweep that listed an online Agent just before it was revoked, and finds that row due, still appends
   AGENT_MARKED_OFFLINE after AGENT_REVOKED, whoever revoked it and under whatever new key the sweep runs.
   */
  lemma StaleSweepFollowsRevocation(a: Agent, revoker: Caller, now: Time, sweeper: Caller, digest: Digest)
    requires Inv(a, digest) && a.row.online && OfflineDue(a.row.lastHeartbeat, now)
    requires FindKey(a.stream, revoker, TRevoked).None? && !revoker.refused
    requires FindKey(a.stream, sweeper, TMarkedOffline).None? && !sweeper.refused
    ensures var b := Step(a, Revoke(revoker), digest);
      var late := SweepTurn(a.row, now, sweeper);
      var c := Step(b, late, digest);
      && b.row.status.REVOKED? && !CurrentListing(b, late)
      && |Lifecycle(c.stream)| == |Lifecycle(b.stream)| + 1 && Lifecycle(b.stream) < Lifecycle(c.stream)
      && Lifecycle(c.stream)[|Lifecycle(b.stream)|].tag == TMarkedOffline
      && |c.stream| >= 2 && c.stream[|c.stream| - 2].kind.Revoked?
  {
    hide Fold, Lifecycle, OfflineDue, MissedAt, AppendAndRefresh, Inv;
    OnlineIsActive(a, digest);
    RevokeShows(a, revoker, digest);
    var b := Step(a, Revoke(revoker), digest);
    StepKeeps(a, Revoke(revoker), digest);
    OtherScope(a.stream, Revoked, revoker, sweeper, TMarkedOffline);
    SweepShows(b, a.row, now, sweeper, digest);
  }

  lemma OtherScope(stream: seq<Event>, kind: Kind, c: Caller, other: Caller, scope: Tag)
    requires FindKey(stream, other, scope).None? && TagOf(kind) != scope
    ensures FindKey(stream + [NewEvent(stream, kind, c)], other, scope).None?
  {
    var more := stream + [NewEvent(stream, kind, c)];
    forall i | 0 <= i < |more| ensures !SameKey(more[i], other, scope) {
      if i < |stream| {
        assert more[i] == stream[i];
      }
    }
  }

  /** What an append under a new key leaves in the columns. */
  lemma AppendShows(a: Agent, b: Agent, kind: Kind, c: Caller, digest: Digest)
    requires Inv(a, digest) && b.stream == a.stream && FindKey(a.stream, c, TagOf(kind)).None? && !c.refused
    ensures var r, e := AppendAndRefresh(b, kind, c, digest), NewEvent(a.stream, kind, c);
      && r.Ok? && r.value.stream == a.stream + [e]
      && var before := Fold(a.stream, digest);
         && before.status == a.row.status && before.online == a.row.online
         && before.lastHeartbeat == a.row.lastHeartbeat
         && r.value.row.status == Columns(before, e).status && r.value.row.online == Columns(before, e).online
         && r.value.row.lastHeartbeat == Columns(before, e).lastHeartbeat
  {
    FoldAppended(a.stream, NewEvent(a.stream, kind, c), digest);
    hide Fold, FindKey;
  }

  lemma RevokeShows(a: Agent, c: Caller, digest: Digest)
    requires Inv(a, digest) && !a.row.status.REVOKED? && FindKey(a.stream, c, TRevoked).None? && !c.refused
    ensures var b := Step(a, Revoke(c), digest);
      b.row.status.REVOKED? && !b.row.online && b.stream == a.stream + [NewEvent(a.stream, Revoked, c)]
  {
    hide Fold, FindKey, AppendAndRefresh, Inv, SameKey, Append;
    AppendShows(a, a, Revoked, c, digest);
  }

  /** A sweep turn on a due listing appends its event, whatever the row says by then. */
  lemma SweepShows(a: Agent, listed: Row, now: Time, c: Caller, digest: Digest)
    requires Inv(a, digest) && listed.status.ACTIVE? && listed.online && OfflineDue(listed.lastHeartbeat, now)
    requires FindKey(a.stream, c, TMarkedOffline).None? && !c.refused
    ensures var b := Step(a, SweepTurn(listed, now, c), digest);
      && b.stream == a.stream + [NewEvent(a.stream, ReportedAt(a, now), c)]
      && Lifecycle(b.stream) == Lifecycle(a.stream) + [LinkOf(NewEvent(a.stream, ReportedAt(a, now), c))]
      && b.row.lastHeartbeat == a.row.lastHeartbeat && !b.row.online
      && b.row.status == if a.row.status.ACTIVE? then OFFLINE else a.row.status
  {
    hide Fold, FindKey, AppendAndRefresh, Inv, OfflineDue, MissedAt, Lifecycle;
    var b := a.(row := a.row.(missed := MissedAt(a.row.lastHeartbeat, now)));
    AppendShows(a, b, ReportedAt(a, now), c, digest);
    LifecycleAppended(a.stream, NewEvent(a.stream, ReportedAt(a, now), c));
  }

  /** The event a sweep at `now` appends. */
  function ReportedAt(a: Agent, now: Time): Kind {
    var missed := MissedAt(a.row.lastHeartbeat, now);
    MarkedOffline(if missed >= OFFLINE_AFTER_MISSES then missed else OFFLINE_AFTER_MISSES)
  }

  // ---------------------------------------------------------------- instances

  function Fresh(id: EventId, key: string, at: Time): Caller {
    Caller(7, key, at, id, false)
  }

  /** The sweep ninety seconds after the first heartbeat. */
  function FirstSweep(): Caller {
    Fresh(5, "s", OFFLINE_AFTER)
  }

  lemma ReachOn(a: Agent, cmd: Command, digest: Digest)
    requires Reachable(a, digest)
    ensures Reachable(Step(a, cmd, digest), digest) && Inv(a, digest)
  {
    ReachableInv(a, digest);
    hide Step, Register;
    var c, tested, cmds :| Register(c, tested, digest).Ok? && a == Run(Register(c, tested, digest).value, cmds, digest);
    assert (cmds + [cmd])[..|cmds|] == cmds;
    assert Run(Register(c, tested, digest).value, cmds + [cmd], digest) == Step(a, cmd, digest);
  }

  /** No event of the stream has this scope with another key. */
  ghost predicate OnlyKey(stream: seq<Event>, scope: Tag, key: string) {
    forall i :: 0 <= i < |stream| && stream[i].scope == scope ==> stream[i].key == key
  }

  ghost predicate OnlyAt(stream: seq<Event>, scope: Tag, i: nat) {
    forall j :: 0 <= j < |stream| && stream[j].scope == scope ==> j == i
  }

  ghost predicate Without(stream: seq<Event>, scope: Tag) {
    forall i :: 0 <= i < |stream| ==> stream[i].scope != scope
  }

  lemma KeyIsNew(stream: seq<Event>, c: Caller, scope: Tag, key: string)
    requires Without(stream, scope) || (OnlyKey(stream, scope, key) && key != c.key)
    ensures FindKey(stream, c, scope).None?
  {
  }

  /** An event of another scope changes nothing about this one. */
  lemma ScopeStaysAway(stream: seq<Event>, kind: Kind, c: Caller, scope: Tag)
    requires Without(stream, scope) && TagOf(kind) != scope
    ensures Without(stream + [NewEvent(stream, kind, c)], scope)
  {
  }

  lemma KeyStaysOnly(stream: seq<Event>, kind: Kind, c: Caller, scope: Tag, key: string)
    requires OnlyKey(stream, scope, key) && TagOf(kind) != scope
    ensures OnlyKey(stream + [NewEvent(stream, kind, c)], scope, key)
  {
  }

  lemma PlaceStaysOnly(stream: seq<Event>, kind: Kind, c: Caller, scope: Tag, i: nat)
    requires OnlyAt(stream, scope, i) && TagOf(kind) != scope
    ensures OnlyAt(stream + [NewEvent(stream, kind, c)], scope, i)
  {
  }

  lemma FirstOfItsScope(stream: seq<Event>, kind: Kind, c: Caller)
    requires Without(stream, TagOf(kind))
    ensures OnlyKey(stream + [NewEvent(stream, kind, c)], TagOf(kind), c.key)
    ensures OnlyAt(stream + [NewEvent(stream, kind, c)], TagOf(kind), |stream|)
  {
  }

  /** A registered, activated Agent heard from at second zero. */
  lemma OnlineAgent(digest: Digest) returns (a: Agent)
    ensures Reachable(a, digest) && Inv(a, digest) && a.row.online && a.row.lastHeartbeat == Some(0)
    ensures Without(a.stream, TMarkedOffline) && Without(a.stream, TRevoked) && OnlyKey(a.stream, THeartbeat, "h")
  {
    hide Reachable, Inv, Step, FindKey, Fold, OnlyKey, OnlyAt, Without, NewEvent;
    var b := ActivatedAgent(digest);
    var c := Fresh(3, "h", 0);
    a := Step(b, RecordHeartbeat(true, 1, Given, false, c), digest);
    ReachOn(b, RecordHeartbeat(true, 1, Given, false, c), digest);
    KeyIsNew(b.stream, c, THeartbeat, "");
    HeartbeatShows(b, c, digest);
    ReachableInv(a, digest);
    FirstOfItsScope(b.stream, Heartbeat(1), c);
    ScopeStaysAway(b.stream, Heartbeat(1), c, TMarkedOffline);
    ScopeStaysAway(b.stream, Heartbeat(1), c, TRevoked);
  }

  lemma ActivatedAgent(digest: Digest) returns (a: Agent)
    ensures Reachable(a, digest) && Inv(a, digest) && a.row.status.ACTIVE?
    ensures Without(a.stream, TMarkedOffline) && Without(a.stream, TRevoked) && Without(a.stream, THeartbeat)
  {
    hide Reachable, Inv, Step, FindKey, Fold, Without, NewEvent;
    var b := Registration(digest);
    var c := Fresh(2, "a", 0);
    a := Step(b, Activate(Some(true), c), digest);
    ReachOn(b, Activate(Some(true), c), digest);
    KeyIsNew(b.stream, c, TActivated, "");
    ActivateShows(b, c, digest);
    ReachableInv(a, digest);
    ScopeStaysAway(b.stream, Activated, c, TMarkedOffline);
    ScopeStaysAway(b.stream, Activated, c, TRevoked);
    ScopeStaysAway(b.stream, Activated, c, THeartbeat);
  }

  lemma Registration(digest: Digest) returns (a: Agent)
    ensures Reachable(a, digest) && Inv(a, digest) && a.row.status.PENDING?
    ensures forall s :: s != TRegistered ==> Without(a.stream, s)
  {
    var none := Agent(Row(PENDING, false, 1, None, 0, None, None, 0, false), []);
    AppendShows(none, none, Registered, Fresh(1, "r", 0), digest);
    a := Register(Fresh(1, "r", 0), false, digest).value;
    assert Run(a, [], digest) == a;
    assert Reachable(a, digest);
    ReachableInv(a, digest);
  }

  lemma ActivateShows(a: Agent, c: Caller, digest: Digest)
    requires Inv(a, digest) && a.row.status.PENDING? && FindKey(a.stream, c, TActivated).None? && !c.refused
    ensures var b := Step(a, Activate(Some(true), c), digest);
      b.row.status.ACTIVE? && b.stream == a.stream + [NewEvent(a.stream, Activated, c)]
  {
    hide Fold, FindKey, AppendAndRefresh, Inv, SameKey, Append;
    AppendShows(a, a.(row := a.row.(tested := true)), Activated, c, digest);
  }

  lemma HeartbeatShows(a: Agent, c: Caller, digest: Digest)
    requires Inv(a, digest) && (a.row.status.ACTIVE? || a.row.status.OFFLINE?)
    requires FindKey(a.stream, c, THeartbeat).None? && !c.refused
    ensures var b := Step(a, RecordHeartbeat(true, 1, Given, false, c), digest);
      && b.row.status.ACTIVE? && b.row.online && b.row.lastHeartbeat == Some(c.at)
      && b.stream == a.stream + [NewEvent(a.stream, Heartbeat(1), c)]
  {
    hide Fold, FindKey, AppendAndRefresh, Inv, SameKey, Append;
    AppendShows(a, a.(row := a.row.(tested := a.row.tested || false)), Heartbeat(1), c, digest);
  }

  /** A run with a stale listing: the Agent is listed online and due, revoked, then marked offline. */
  lemma RevokedThenMarkedOffline(digest: Digest)
    ensures exists a, revoke, late :: Reachable(a, digest) && MarkedAfterRevocation(a, revoke, late, digest)
  {
    var a := OnlineAgent(digest);
    var revoker, sweeper := Fresh(4, "v", OFFLINE_AFTER), FirstSweep();
    hide Reachable, Inv, Fold, Lifecycle;
    StaleSweepFollowsRevocation(a, revoker, OFFLINE_AFTER, sweeper, digest);
    assert MarkedAfterRevocation(a, Revoke(revoker), SweepTurn(a.row, OFFLINE_AFTER, sweeper), digest);
  }

  /** `late` works on the listing of `a`, made before `revoke`. */
  ghost predicate MarkedAfterRevocation(a: Agent, revoke: Command, late: Command, digest: Digest) {
    && revoke.Revoke? && late.SweepTurn? && late.listed == a.row
    && var b := Step(a, revoke, digest);
       && b.row.status.REVOKED?
       && |Lifecycle(Step(b, late, digest).stream)| == |Lifecycle(b.stream)| + 1
  }

  /**
   A sweep turn over an Agent that is online and due goes through with the store exactly in one of two ways: a new
   key takes it offline, a key used before leaves it online.
   */
  lemma SweepTakesOfflineExactly(a: Agent, cmd: Command, digest: Digest)
    requires Inv(a, digest) && cmd.SweepTurn? && cmd.listed == a.row && a.row.online
    requires OfflineDue(a.row.lastHeartbeat, cmd.now) && Handle(a, cmd, digest).Ok?
    ensures Step(a, cmd, digest).row.online <==> FindKey(a.stream, cmd.caller, TMarkedOffline).Some?
  {
    hide OfflineDue, MissedAt, AppendAndRefresh, FindKey, Fold, Inv;
    OnlineIsActive(a, digest);
    var missed := MissedAt(a.row.lastHeartbeat, cmd.now);
    var kind := MarkedOffline(if missed >= OFFLINE_AFTER_MISSES then missed else OFFLINE_AFTER_MISSES);
    var b := a.(row := a.row.(missed := missed));
    FoldAppended(a.stream, NewEvent(a.stream, kind, cmd.caller), digest);
    FoldIsRow(a, digest);
    AppendExtends(b, kind, cmd.caller, digest);
  }

  lemma OnlineIsActive(a: Agent, digest: Digest)
    requires Inv(a, digest) && a.row.online
    ensures a.row.status.ACTIVE?
  {
  }

  /** A run in which a sweep's key was used before: the Agent, back online and due again, stays online. */
  lemma ReusedKeyKeepsOnline(digest: Digest)
    ensures exists a, cmd :: Reachable(a, digest) && StaysOnline(a, cmd, digest)
  {
    var gone := SweptAgent(digest);
    var i := |gone.stream| - 1;
    hide Reachable, Inv, Step, Handle, OfflineDue, ReportedAt, OnlyAt;
    var back := BackOnline(gone, digest);
    DueAfterNinety(back, OFFLINE_AFTER);
    PlaceStaysOnly(gone.stream, Heartbeat(1), Fresh(6, "b", OFFLINE_AFTER), TMarkedOffline, i);
    var again := SweepTurn(back.row, 2 * OFFLINE_AFTER, Fresh(7, "s", 2 * OFFLINE_AFTER));
    RepeatedSweep(back, i, again, digest);
    assert StaysOnline(back, again, digest);
  }

  lemma DueAfterNinety(a: Agent, since: Time)
    requires a.row.lastHeartbeat == Some(since)
    ensures OfflineDue(a.row.lastHeartbeat, since + OFFLINE_AFTER)
    ensures ReportedAt(a, since + OFFLINE_AFTER) == MarkedOffline(3)
  {
  }

  /** The stream ends in the one event of a sweep, made under the key "s". */
  ghost predicate SweptLast(stream: seq<Event>) {
    && stream != [] && OnlyAt(stream, TMarkedOffline, |stream| - 1) && OnlyKey(stream, THeartbeat, "h")
    && SameKey(stream[|stream| - 1], FirstSweep(), TMarkedOffline) && stream[|stream| - 1].kind == MarkedOffline(3)
  }

  lemma SweepEndsStream(stream: seq<Event>)
    requires Without(stream, TMarkedOffline) && OnlyKey(stream, THeartbeat, "h")
    ensures SweptLast(stream + [NewEvent(stream, MarkedOffline(3), FirstSweep())])
  {
    FirstOfItsScope(stream, MarkedOffline(3), FirstSweep());
    KeyStaysOnly(stream, MarkedOffline(3), FirstSweep(), THeartbeat, "h");
    hide OnlyAt, OnlyKey;
  }

  /** The row and the stream after a sweep ninety seconds later. */
  lemma SweptOnline(a: Agent, digest: Digest)
    requires Inv(a, digest) && a.row.online && a.row.lastHeartbeat == Some(0) && Without(a.stream, TMarkedOffline)
    ensures var b := Step(a, SweepTurn(a.row, OFFLINE_AFTER, FirstSweep()), digest);
      b.row.status.OFFLINE? && b.stream == a.stream + [NewEvent(a.stream, MarkedOffline(3), FirstSweep())]
  {
    OnlineIsActive(a, digest);
    DueAfterNinety(a, 0);
    KeyIsNew(a.stream, FirstSweep(), TMarkedOffline, "");
    hide Inv, Step, Fold, FindKey, OfflineDue, ReportedAt, Lifecycle, Without, OnlyKey, NewEvent;
    SweepShows(a, a.row, OFFLINE_AFTER, FirstSweep(), digest);
  }

  /** An Agent that a sweep took offline after ninety seconds. */
  lemma SweptAgent(digest: Digest) returns (a: Agent)
    ensures Reachable(a, digest) && Inv(a, digest) && a.row.status.OFFLINE? && SweptLast(a.stream)
  {
    hide Reachable, Inv, Step, Without, OnlyKey, SweptLast, NewEvent;
    var b := OnlineAgent(digest);
    var turn := SweepTurn(b.row, OFFLINE_AFTER, FirstSweep());
    SweptOnline(b, digest);
    SweepEndsStream(b.stream);
    a := Step(b, turn, digest);
    ReachOn(b, turn, digest);
    ReachableInv(a, digest);
  }

  ghost predicate StaysOnline(a: Agent, cmd: Command, digest: Digest) {
    && cmd.SweepTurn? && cmd.listed == a.row && a.row.online && OfflineDue(a.row.lastHeartbeat, cmd.now)
    && Handle(a, cmd, digest).Ok? && Step(a, cmd, digest).row.online
  }

  /** A heartbeat at second ninety brings the Agent back. */
  lemma BackOnline(a: Agent, digest: Digest) returns (b: Agent)
    requires Reachable(a, digest) && Inv(a, digest) && a.row.status.OFFLINE?
    requires OnlyKey(a.stream, THeartbeat, "h")
    ensures Reachable(b, digest) && Inv(b, digest) && b.row.online && b.row.status.ACTIVE?
    ensures b.row.lastHeartbeat == Some(OFFLINE_AFTER)
    ensures b.stream == a.stream + [NewEvent(a.stream, Heartbeat(1), Fresh(6, "b", OFFLINE_AFTER))]
  {
    var beat := RecordHeartbeat(true, 1, Given, false, Fresh(6, "b", OFFLINE_AFTER));
    b := Step(a, beat, digest);
    KeyIsNew(a.stream, Fresh(6, "b", OFFLINE_AFTER), THeartbeat, "h");
    ReachOn(a, beat, digest);
    HeartbeatShows(a, Fresh(6, "b", OFFLINE_AFTER), digest);
    hide Reachable, Step;
    ReachableInv(b, digest);
  }

  lemma RepeatedSweep(a: Agent, i: nat, cmd: Command, digest: Digest)
    requires Inv(a, digest) && cmd.SweepTurn? && cmd.listed == a.row && a.row.online
    requires OfflineDue(a.row.lastHeartbeat, cmd.now)
    requires i < |a.stream| && SameKey(a.stream[i], cmd.caller, TMarkedOffline)
    requires a.stream[i].kind == ReportedAt(a, cmd.now)
    requires OnlyAt(a.stream, TMarkedOffline, i)
    ensures Handle(a, cmd, digest).Ok? && Step(a, cmd, digest).row.online
  {
    OnlineIsActive(a, digest);
    FoundAt(a.stream, i, cmd.caller, TMarkedOffline);
    RefreshKeeps(a, digest);
    hide Fold, Inv, OfflineDue, MissedAt, FindKey;
  }

  lemma FoundAt(stream: seq<Event>, i: nat, c: Caller, scope: Tag)
    requires i < |stream| && SameKey(stream[i], c, scope)
    requires OnlyAt(stream, scope, i)
    ensures FindKey(stream, c, scope) == Some(stream[i])
  {
    FirstIsAt(stream, (e: Event) => SameKey(e, c, scope), i);
  }
}
