/**
 The Agent's row told from its events, and what every command of a reachable Agent is answered: each column is decided
 by the last event of certain types, each refusal names the first thing wrong with the command.
 */
module AgentHistory {
  import opened Common
  import opened AgentRegistry

  // ---------------------------------------------------------------- columns from the history

  /** The last event with one of the kinds. */
  function Last(stream: seq<Event>, p: Kind -> bool): (r: Option<Event>)
    ensures r.Some? ==> p(r.value.kind)
  {
    if stream == [] then None
    else if p(stream[|stream| - 1].kind) then Some(stream[|stream| - 1])
    else Last(stream[..|stream| - 1], p)
  }

  predicate Beats(k: Kind) {
    k.Heartbeat?
  }

  /** What shows an Agent to be there or not. */
  predicate Shows(k: Kind) {
    k.Heartbeat? || k.Suspended? || k.Revoked? || k.MarkedOffline?
  }

  /** What the missed heartbeats are counted by. */
  predicate Counts(k: Kind) {
    k.Heartbeat? || k.MarkedOffline?
  }

  /** What somebody decides about an Agent. */
  predicate Decides(k: Kind) {
    k.Registered? || k.Activated? || k.Suspended? || k.Revoked?
  }

  /** What tells whether an active Agent is to be reached. */
  predicate Reaches(k: Kind) {
    k.Activated? || k.Heartbeat? || k.MarkedOffline?
  }

  predicate Lives(k: Kind) {
    !k.Foreign?
  }

  function StatusFrom(stream: seq<Event>): Status {
    match Last(stream, Decides)
    case None => PENDING
    case Some(e) =>
      if e.kind.Registered? then PENDING
      else if e.kind.Suspended? then SUSPENDED
      else if e.kind.Revoked? then REVOKED
      else if Last(stream, Reaches).Some? && Last(stream, Reaches).value.kind.MarkedOffline? then OFFLINE
      else ACTIVE
  }

  function MissedFrom(stream: seq<Event>): nat {
    match Last(stream, Counts)
    case None => 0
    case Some(e) => if e.kind.MarkedOffline? then e.kind.missed else 0
  }

  /** Each column of the state is decided by the last event of certain types. */
  ghost predicate FromHistory(stream: seq<Event>, s: State) {
    && s.status == StatusFrom(stream)
    && (s.online <==> Last(stream, Shows).Some? && Last(stream, Shows).value.kind.Heartbeat?)
    && s.missed == MissedFrom(stream)
    && (match Last(stream, Beats)
        case None => s.capacity == 1 && s.lastHeartbeat == None
        case Some(e) => s.capacity == e.kind.capacity && s.lastHeartbeat == Some(e.at))
    && (match Last(stream, Lives)
        case None => s.lastEvent == None && s.lastSeq == 0
        case Some(e) => s.lastEvent == Some(e.id) && s.lastSeq == e.seqNo)
  }

  lemma LastAppended(stream: seq<Event>, e: Event, p: Kind -> bool)
    ensures Last(stream + [e], p) == if p(e.kind) then Some(e) else Last(stream, p)
  {
    assert (stream + [e])[..|stream|] == stream;
  }

  /** An Agent somebody activated was to be reached at that time. */
  lemma {:induction false} ActivationReaches(stream: seq<Event>)
    ensures Last(stream, Decides).Some? && Last(stream, Decides).value.kind.Activated? ==> Last(stream, Reaches).Some?
  {
    if stream == [] {
    } else {
      ActivationReaches(stream[..|stream| - 1]);
    }
  }

  lemma StepFromHistory(stream: seq<Event>, s: State, e: Event, digest: Digest)
    requires FromHistory(stream, s)
    ensures FromHistory(stream + [e], FoldStep(s, e, digest))
  {
    LastAppended(stream, e, Beats);
    LastAppended(stream, e, Shows);
    LastAppended(stream, e, Counts);
    LastAppended(stream, e, Decides);
    LastAppended(stream, e, Reaches);
    LastAppended(stream, e, Lives);
    hide Last;
  }

  lemma {:induction false} FoldFromHistory(stream: seq<Event>, digest: Digest)
    ensures FromHistory(stream, Fold(stream, digest))
  {
    if stream == [] {
    } else {
      var n := |stream| - 1;
      FoldFromHistory(stream[..n], digest);
      StepFromHistory(stream[..n], Fold(stream[..n], digest), stream[n], digest);
      assert stream == stream[..n] + [stream[n]];
    }
  }

  /** The live row of an Agent: every column but the missed count is decided by the last event of certain types. */
  lemma RowFromHistory(a: Agent, digest: Digest)
    requires Reachable(a, digest)
    ensures a.row.status == StatusFrom(a.stream)
    ensures a.row.online <==> Last(a.stream, Shows).Some? && Last(a.stream, Shows).value.kind.Heartbeat?
    ensures match Last(a.stream, Beats)
      case None => a.row.capacity == 1 && a.row.lastHeartbeat == None
      case Some(e) => a.row.capacity == e.kind.capacity && a.row.lastHeartbeat == Some(e.at)
    ensures match Last(a.stream, Lives)
      case None => a.row.lastEvent == None && a.row.lastSeq == 0
      case Some(e) => a.row.lastEvent == Some(e.id) && a.row.lastSeq == e.seqNo
  {
    RowIsTheFold(a, digest);
    FoldFromHistory(a.stream, digest);
    hide Fold, Last, Reachable;
  }

  /** What the history says about lifecycle event `n - 1`: it and the status and the hash right after it. */
  ghost predicate EntryTells(history: seq<HistoryEntry>, stream: seq<Event>, n: nat, digest: Digest)
    requires 0 < n <= |stream|
  {
    var k := |Lifecycle(stream[..n])| - 1;
    && 0 <= k < |history| && history[k].link == LinkOf(stream[n - 1])
    && history[k].status == StatusFrom(stream[..n]) && history[k].hash == Fold(stream[..n], digest).hash
  }

  lemma LastEntry(stream: seq<Event>, digest: Digest)
    requires stream != [] && |Fold(stream[..|stream| - 1], digest).history| == |Lifecycle(stream[..|stream| - 1])|
    ensures |Fold(stream, digest).history| == |Lifecycle(stream)|
    ensures Fold(stream[..|stream| - 1], digest).history <= Fold(stream, digest).history
    ensures !stream[|stream| - 1].kind.Foreign? ==> EntryTells(Fold(stream, digest).history, stream, |stream|, digest)
  {
    FoldFromHistory(stream, digest);
    assert stream[..|stream|] == stream;
    hide StatusFrom;
  }

  lemma PrefixOfPrefix(stream: seq<Event>, m: nat, n: nat)
    requires n <= m <= |stream|
    ensures stream[..m][..n] == stream[..n]
  {
  }

  /** What a history says stands in every longer one. */
  lemma EntryStays(history: seq<HistoryEntry>, more: seq<HistoryEntry>, stream: seq<Event>, m: nat, n: nat,
                   digest: Digest)
    requires 0 < n <= m <= |stream| && history <= more && EntryTells(history, stream[..m], n, digest)
    ensures EntryTells(more, stream, n, digest)
  {
    hide Fold, Lifecycle, StatusFrom;
    PrefixOfPrefix(stream, m, n);
  }

  /** The history of the fold: one entry for each lifecycle event, with the status and the hash right after it. */
  lemma {:induction false} HistoryTells(stream: seq<Event>, n: nat, digest: Digest)
    requires 0 < n <= |stream|
    ensures |Fold(stream, digest).history| == |Lifecycle(stream)|
    ensures !stream[n - 1].kind.Foreign? ==> EntryTells(Fold(stream, digest).history, stream, n, digest)
    decreases |stream|
  {
    var m := |stream| - 1;
    if m == 0 {
      LastEntry(stream, digest);
    } else {
      hide Fold, Lifecycle, EntryTells;
      var k := if n < |stream| then n else m;
      HistoryTells(stream[..m], k, digest);
      LastEntry(stream, digest);
      if n <= m && !stream[n - 1].kind.Foreign? {
        EntryStays(Fold(stream[..m], digest).history, Fold(stream, digest).history, stream, m, n, digest);
      }
    }
  }

  // ---------------------------------------------------------------- what a command is answered

  /** The event was recorded for the same request: same sender, same key, same kind of command. */
  predicate RecordedFor(e: Event, cmd: Command) {
    !cmd.TestConnection? && e.actor == cmd.caller.actor && e.key == cmd.caller.key && match cmd
      case Update(_, _, _) => e.kind.Updated?
      case Activate(_, _) => e.kind.Activated?
      case Suspend(_) => e.kind.Suspended?
      case Revoke(_) => e.kind.Revoked?
      case RecordHeartbeat(_, _, _, _, _) => e.kind.Heartbeat?
      case MarkOffline(_, _) => e.kind.MarkedOffline?
      case SweepTurn(_, _, _) => e.kind.MarkedOffline?
      case OtherService(_) => e.kind.Foreign?
      case TestConnection(_) => false
  }

  ghost predicate Repeated(a: Agent, cmd: Command) {
    exists i :: 0 <= i < |a.stream| && RecordedFor(a.stream[i], cmd)
  }

  /** The sweep's listing shows an online Agent not heard from for ninety seconds. */
  predicate ListedDue(cmd: Command) {
    && cmd.SweepTurn? && cmd.listed.status == ACTIVE && cmd.listed.online
    && (cmd.listed.lastHeartbeat.None? || cmd.now - cmd.listed.lastHeartbeat.value >= 90)
  }

  /** Whether the command wants an event recorded. */
  predicate Records(cmd: Command) {
    !cmd.TestConnection? && (cmd.SweepTurn? ==> ListedDue(cmd))
  }

  predicate Passed(a: Agent, cmd: Command)
    requires cmd.Activate?
  {
    cmd.probe == Some(true) || (cmd.probe == None && a.row.tested)
  }

  /** What each error says is wrong with a command under a new key. */
  predicate Fault(a: Agent, cmd: Command, e: Error) {
    var st := a.row.status;
    match e
    case AGENT_REVOKED => (cmd.Update? || cmd.Activate? || cmd.Revoke?) && st == REVOKED
    case AGENT_ALREADY_ACTIVE => cmd.Activate? && st == ACTIVE
    case AGENT_CONNECTION_TEST_REQUIRED => cmd.Activate? && !Passed(a, cmd)
    case AGENT_STATUS_INVALID =>
      || (cmd.Suspend? && (st == REVOKED || st == SUSPENDED))
      || (cmd.RecordHeartbeat? && st != ACTIVE && st != OFFLINE)
      || (cmd.MarkOffline? && !a.row.online)
    case AGENT_HEALTH_INVALID => cmd.RecordHeartbeat? && !cmd.healthKnown
    case AGENT_CAPACITY_INVALID => cmd.RecordHeartbeat? && cmd.capacity <= -1
    case USAGE_REQUIRED => cmd.RecordHeartbeat? && cmd.usage == Absent
    case USAGE_INVALID => cmd.RecordHeartbeat? && cmd.usage == Malformed
    case OfField(fault) => cmd.Update? && cmd.fault == Some(fault)
    case AGENT_UPDATE_EMPTY => cmd.Update? && !cmd.changes
    case IDEMPOTENCY_CONFLICT => false
    case EVENT_REFUSED => Records(cmd) && cmd.caller.refused
  }

  /** The order in which the faults are looked for. */
  function Place(e: Error): nat {
    match e
    case AGENT_REVOKED => 0
    case AGENT_STATUS_INVALID => 1
    case AGENT_ALREADY_ACTIVE => 2
    case AGENT_CONNECTION_TEST_REQUIRED => 3
    case AGENT_HEALTH_INVALID => 4
    case AGENT_CAPACITY_INVALID => 5
    case USAGE_REQUIRED => 6
    case OfField(_) => 7
    case AGENT_UPDATE_EMPTY => 8
    case IDEMPOTENCY_CONFLICT => 9
    case EVENT_REFUSED => 10
    case USAGE_INVALID => 11
  }

  ghost predicate FirstFault(a: Agent, cmd: Command, e: Error) {
    Fault(a, cmd, e) && forall d :: Fault(a, cmd, d) && d != e ==> Place(e) < Place(d)
  }

  /** A repeated request has an event under its key. */
  lemma FoundIsRepeated(a: Agent, cmd: Command, scope: Tag, digest: Digest)
    requires Inv(a, digest) && !cmd.TestConnection?
    requires match cmd
      case Update(_, _, _) => scope == TUpdated
      case Activate(_, _) => scope == TActivated
      case Suspend(_) => scope == TSuspended
      case Revoke(_) => scope == TRevoked
      case RecordHeartbeat(_, _, _, _, _) => scope == THeartbeat
      case OtherService(_) => scope == TForeign
      case _ => scope == TMarkedOffline
    ensures FindKey(a.stream, cmd.caller, scope).Some? <==> Repeated(a, cmd)
  {
    hide Fold, RowMatches;
    forall i | 0 <= i < |a.stream| ensures SameKey(a.stream[i], cmd.caller, scope) <==> RecordedFor(a.stream[i], cmd) {
    }
  }

  /** The event a command has recorded, as far as its kind goes. */
  predicate KindFor(a: Agent, cmd: Command, k: Kind) {
    match cmd
    case Update(_, _, _) => k == Updated
    case Activate(_, _) => k == Activated
    case Suspend(_) => k == Suspended
    case Revoke(_) => k == Revoked
    case RecordHeartbeat(_, capacity, _, _, _) => k.Heartbeat? && k.capacity == capacity
    case MarkOffline(now, _) => k.MarkedOffline? && ReportsMissed(k.missed, a.row.lastHeartbeat, now)
    case SweepTurn(_, now, _) => k.MarkedOffline? && ReportsMissed(k.missed, a.row.lastHeartbeat, now)
    case OtherService(_) => k == Foreign
    case TestConnection(_) => false
  }

  /** As many heartbeats as whole intervals have gone by since the last one, and at least three. */
  predicate ReportsMissed(missed: nat, last: Option<Time>, now: Time) {
    && missed >= 3 && (last.None? ==> missed == 3)
    && (last.Some? && missed > 3 ==> 30 * missed <= now - last.value)
    && (last.Some? ==> now - last.value < 30 * (missed + 1))
  }

  /** The connection test is on record after the command. */
  predicate TestedAfter(a: Agent, cmd: Command) {
    || a.row.tested
    || (cmd.TestConnection? && cmd.passed) || (cmd.Activate? && cmd.probe == Some(true))
    || (cmd.RecordHeartbeat? && cmd.reconfirms)
  }

  /** `n` whole intervals of thirty seconds lie between the two moments. */
  predicate WholeIntervals(n: nat, since: Time, now: Time) {
    if now <= since then n == 0 else 30 * n <= now - since < 30 * (n + 1)
  }

  /** A sweep that finds nothing due brings the count of misses up to date where its listing still holds. */
  predicate CountedBy(a: Agent, cmd: Command, missed: nat) {
    cmd.SweepTurn? && cmd.listed.status == ACTIVE && cmd.listed.online && cmd.listed.missed == a.row.missed
    && cmd.listed.lastHeartbeat.Some?
    ==> WholeIntervals(missed, cmd.listed.lastHeartbeat.value, cmd.now)
  }

  /** What a command under a new key leaves: its event at the end of the stream, or at most a count of misses. */
  ghost predicate Leaves(a: Agent, cmd: Command, b: Agent) {
    && (b.row.tested <==> TestedAfter(a, cmd))
    && if Records(cmd) then
         && |b.stream| == |a.stream| + 1 && a.stream <= b.stream && RecordedAs(a, cmd, b.stream[|a.stream|])
         && (!cmd.OtherService? ==> b.row.missed == MissedFrom(b.stream))
       else b == a.(row := a.row.(missed := b.row.missed, tested := b.row.tested)) && CountedBy(a, cmd, b.row.missed)
  }

  /** The event is the one the command asks for, next in the stream. */
  predicate RecordedAs(a: Agent, cmd: Command, e: Event) {
    && !cmd.TestConnection? && KindFor(a, cmd, e.kind) && e.actor == cmd.caller.actor && e.key == cmd.caller.key
    && e.at == cmd.caller.at && e.id == cmd.caller.id && e.seqNo == |a.stream| + 1
  }

  lemma MissedIsReported(last: Option<Time>, now: Time)
    ensures var missed := MissedAt(last, now);
      && ReportsMissed(if missed >= OFFLINE_AFTER_MISSES then missed else OFFLINE_AFTER_MISSES, last, now)
      && (last.Some? ==> WholeIntervals(missed, last.value, now))
  {
  }

  /** What an append under a new key leaves, whatever the row was before. */
  lemma AppendLeaves(a: Agent, b: Agent, kind: Kind, c: Caller, digest: Digest)
    requires Inv(a, digest) && b.stream == a.stream && FindKey(a.stream, c, TagOf(kind)).None?
    ensures var r := AppendAndRefresh(b, kind, c, digest);
      if c.refused then r == Err(EVENT_REFUSED)
      else
        && r.Ok? && r.value.stream == a.stream + [NewEvent(a.stream, kind, c)] && r.value.row.tested == b.row.tested
        && r.value.row.missed == MissedFrom(r.value.stream)
  {
    FoldFromHistory(a.stream + [NewEvent(a.stream, kind, c)], digest);
    hide Fold, FindKey, StatusFrom, MissedFrom, Last;
  }

  /** The kind of event a command has recorded and the row it has it recorded beside. */
  predicate Appends(a: Agent, cmd: Command, b: Agent, kind: Kind) {
    && Records(cmd) && b.stream == a.stream && KindFor(a, cmd, kind) && !kind.Foreign?
    && (b.row.tested <==> TestedAfter(a, cmd))
  }

  lemma AppendedLeaves(a: Agent, cmd: Command, b: Agent, kind: Kind, scope: Tag, digest: Digest)
    requires Inv(a, digest) && !Repeated(a, cmd) && Appends(a, cmd, b, kind) && scope == TagOf(kind)
    ensures FindKey(a.stream, cmd.caller, scope).None?
    ensures var r := AppendAndRefresh(b, kind, cmd.caller, digest);
      if cmd.caller.refused then r == Err(EVENT_REFUSED) else r.Ok? && Leaves(a, cmd, r.value)
  {
    hide Inv, Repeated, MissedFrom, ReportsMissed;
    FoundIsRepeated(a, cmd, scope, digest);
    AppendLeaves(a, b, kind, cmd.caller, digest);
    hide AppendAndRefresh, FindKey;
  }

  ghost predicate Answered(a: Agent, cmd: Command, r: Outcome<Agent>) {
    match r
    case Err(e) => FirstFault(a, cmd, e)
    case Ok(b) => (forall e :: !Fault(a, cmd, e)) && Leaves(a, cmd, b)
  }

  lemma HeartbeatReply(a: Agent, cmd: Command, digest: Digest)
    requires cmd.RecordHeartbeat? && FindKey(a.stream, cmd.caller, THeartbeat).None?
    ensures var st, r := a.row.status, Handle(a, cmd, digest);
      if st != ACTIVE && st != OFFLINE then r == Err(AGENT_STATUS_INVALID)
      else if !cmd.healthKnown then r == Err(AGENT_HEALTH_INVALID)
      else if cmd.capacity <= -1 then r == Err(AGENT_CAPACITY_INVALID)
      else if cmd.usage == Absent then r == Err(USAGE_REQUIRED)
      else
        var b := a.(row := a.row.(tested := a.row.tested || cmd.reconfirms));
        var done := AppendAndRefresh(b, Heartbeat(cmd.capacity), cmd.caller, digest);
        r == if done.Ok? && cmd.usage == Malformed then Err(USAGE_INVALID) else done
  {
    hide FindKey, AppendAndRefresh, TakeOffline, Refresh, Append, OfflineDue, MissedAt;
  }

  lemma HeartbeatAnswer(a: Agent, cmd: Command, digest: Digest)
    requires Inv(a, digest) && cmd.RecordHeartbeat? && !Repeated(a, cmd)
    ensures Answered(a, cmd, Handle(a, cmd, digest))
  {
    hide Inv, Handle, FindKey, AppendAndRefresh, Leaves, Repeated;
    FoundIsRepeated(a, cmd, THeartbeat, digest);
    HeartbeatReply(a, cmd, digest);
    if cmd.capacity >= 0 {
      AppendedLeaves(a, cmd, a.(row := a.row.(tested := a.row.tested || cmd.reconfirms)), Heartbeat(cmd.capacity),
                     THeartbeat, digest);
    }
  }

  lemma OfflineReady(a: Agent, now: Time, cmd: Command)
    requires (cmd.MarkOffline? || (cmd.SweepTurn? && ListedDue(cmd))) && cmd.now == now
    ensures var missed := MissedAt(a.row.lastHeartbeat, now);
      var reported := if missed >= OFFLINE_AFTER_MISSES then missed else OFFLINE_AFTER_MISSES;
      Appends(a, cmd, a.(row := a.row.(missed := missed)), MarkedOffline(reported))
  {
    MissedIsReported(a.row.lastHeartbeat, now);
    hide MissedAt, ReportsMissed;
  }

  lemma MarkAnswer(a: Agent, cmd: Command, digest: Digest)
    requires Inv(a, digest) && cmd.MarkOffline? && !Repeated(a, cmd)
    ensures Answered(a, cmd, Handle(a, cmd, digest))
  {
    FoundIsRepeated(a, cmd, TMarkedOffline, digest);
    var missed := MissedAt(a.row.lastHeartbeat, cmd.now);
    OfflineReady(a, cmd.now, cmd);
    AppendedLeaves(a, cmd, a.(row := a.row.(missed := missed)),
                   MarkedOffline(if missed >= OFFLINE_AFTER_MISSES then missed else OFFLINE_AFTER_MISSES),
                   TMarkedOffline, digest);
    assert a.row.online ==> a.row.status.ACTIVE?;
    hide Inv, FindKey, AppendAndRefresh, Leaves, MissedAt;
  }

  lemma DueSweepReply(a: Agent, cmd: Command, digest: Digest)
    requires ListedDue(cmd)
    ensures var missed := MissedAt(a.row.lastHeartbeat, cmd.now);
      Handle(a, cmd, digest)
      == AppendAndRefresh(a.(row := a.row.(missed := missed)),
                          MarkedOffline(if missed >= OFFLINE_AFTER_MISSES then missed else OFFLINE_AFTER_MISSES),
                          cmd.caller, digest)
  {
    OfflineDueExactly(cmd.listed.lastHeartbeat, cmd.now);
    hide FindKey, AppendAndRefresh, Refresh, Append, OfflineDue, MissedAt;
  }

  lemma IdleSweepReply(a: Agent, cmd: Command, digest: Digest)
    requires cmd.SweepTurn? && !ListedDue(cmd)
    ensures Handle(a, cmd, digest).Ok? && Leaves(a, cmd, Handle(a, cmd, digest).value)
  {
    OfflineDueExactly(cmd.listed.lastHeartbeat, cmd.now);
    MissedIsReported(cmd.listed.lastHeartbeat, cmd.now);
    hide FindKey, AppendAndRefresh, Refresh, Append, OfflineDue, MissedAt, ReportsMissed, TakeOffline;
  }

  lemma SweepAnswer(a: Agent, cmd: Command, digest: Digest)
    requires Inv(a, digest) && cmd.SweepTurn? && !Repeated(a, cmd)
    ensures Answered(a, cmd, Handle(a, cmd, digest))
  {
    hide Inv, Handle, FindKey, AppendAndRefresh, Leaves, Repeated, MissedAt, ListedDue;
    if ListedDue(cmd) {
      var missed := MissedAt(a.row.lastHeartbeat, cmd.now);
      OfflineReady(a, cmd.now, cmd);
      AppendedLeaves(a, cmd, a.(row := a.row.(missed := missed)),
                     MarkedOffline(if missed >= OFFLINE_AFTER_MISSES then missed else OFFLINE_AFTER_MISSES),
                     TMarkedOffline, digest);
      DueSweepReply(a, cmd, digest);
    } else {
      IdleSweepReply(a, cmd, digest);
    }
  }

  lemma UpdateAnswer(a: Agent, cmd: Command, digest: Digest)
    requires Inv(a, digest) && cmd.Update? && !Repeated(a, cmd)
    ensures Answered(a, cmd, Handle(a, cmd, digest))
  {
    AppendedLeaves(a, cmd, a, Updated, TUpdated, digest);
    hide Inv, FindKey, AppendAndRefresh, Leaves, Append, Refresh;
  }

  lemma ActivateReply(a: Agent, cmd: Command, digest: Digest)
    requires cmd.Activate? && FindKey(a.stream, cmd.caller, TActivated).None?
    ensures var st, r := a.row.status, Handle(a, cmd, digest);
      if st == REVOKED then r == Err(AGENT_REVOKED)
      else if st == ACTIVE then r == Err(AGENT_ALREADY_ACTIVE)
      else if !Passed(a, cmd) then r == Err(AGENT_CONNECTION_TEST_REQUIRED)
      else r == AppendAndRefresh(a.(row := a.row.(tested := true)), Activated, cmd.caller, digest)
  {
    hide FindKey, AppendAndRefresh, TakeOffline, Refresh, Append, OfflineDue, MissedAt;
  }

  lemma ActivateAnswer(a: Agent, cmd: Command, digest: Digest)
    requires Inv(a, digest) && cmd.Activate? && !Repeated(a, cmd)
    ensures Answered(a, cmd, Handle(a, cmd, digest))
  {
    hide Inv, Handle, FindKey, AppendAndRefresh, Leaves, Repeated;
    FoundIsRepeated(a, cmd, TActivated, digest);
    ActivateReply(a, cmd, digest);
    if Passed(a, cmd) {
      AppendedLeaves(a, cmd, a.(row := a.row.(tested := true)), Activated, TActivated, digest);
    }
  }

  lemma SuspendAnswer(a: Agent, cmd: Command, digest: Digest)
    requires Inv(a, digest) && cmd.Suspend? && !Repeated(a, cmd)
    ensures Answered(a, cmd, Handle(a, cmd, digest))
  {
    AppendedLeaves(a, cmd, a, Suspended, TSuspended, digest);
    hide Inv, FindKey, AppendAndRefresh, Leaves, Append, Refresh;
  }

  lemma RevokeAnswer(a: Agent, cmd: Command, digest: Digest)
    requires Inv(a, digest) && cmd.Revoke? && !Repeated(a, cmd)
    ensures Answered(a, cmd, Handle(a, cmd, digest))
  {
    AppendedLeaves(a, cmd, a, Revoked, TRevoked, digest);
    hide Inv, FindKey, AppendAndRefresh, Leaves, Append, Refresh;
  }

  lemma OtherAnswer(a: Agent, cmd: Command, digest: Digest)
    requires Inv(a, digest) && (cmd.OtherService? || cmd.TestConnection?) && !Repeated(a, cmd)
    ensures Answered(a, cmd, Handle(a, cmd, digest))
  {
    if cmd.OtherService? {
      FoundIsRepeated(a, cmd, TForeign, digest);
    }
    hide Inv, FindKey, Repeated;
  }

  /** A command under a new key fails for the first of its faults, and without any leaves just its event. */
  lemma NewCommandAnswer(a: Agent, cmd: Command, digest: Digest)
    requires Reachable(a, digest) && !Repeated(a, cmd)
    ensures match Handle(a, cmd, digest)
      case Err(e) => FirstFault(a, cmd, e)
      case Ok(b) => (forall e :: !Fault(a, cmd, e)) && Leaves(a, cmd, b)
  {
    ReachableInv(a, digest);
    hide Inv, Handle, Repeated, Fault, FirstFault, Leaves;
    match cmd
    case Update(_, _, _) => UpdateAnswer(a, cmd, digest);
    case Activate(_, _) => ActivateAnswer(a, cmd, digest);
    case Suspend(_) => SuspendAnswer(a, cmd, digest);
    case Revoke(_) => RevokeAnswer(a, cmd, digest);
    case RecordHeartbeat(_, _, _, _, _) => HeartbeatAnswer(a, cmd, digest);
    case MarkOffline(_, _) => MarkAnswer(a, cmd, digest);
    case SweepTurn(_, _, _) => SweepAnswer(a, cmd, digest);
    case OtherService(_) => OtherAnswer(a, cmd, digest);
    case TestConnection(_) => OtherAnswer(a, cmd, digest);
  }

  /** The sweep would report another number than the event on record does. */
  ghost predicate Disagrees(a: Agent, cmd: Command) {
    && ListedDue(cmd)
    && exists i :: 0 <= i < |a.stream| && RecordedFor(a.stream[i], cmd)
         && !ReportsMissed(a.stream[i].kind.missed, a.row.lastHeartbeat, cmd.now)
  }

  /**
   A command under a key its sender used before is answered from the event on record, whatever the command says and
   wherever the Agent stands by then; only a due sweep that would report another number is refused.
   */
  lemma RepeatedAnswer(a: Agent, cmd: Command, digest: Digest)
    requires Reachable(a, digest) && Repeated(a, cmd)
    ensures match Handle(a, cmd, digest)
      case Err(e) => e == IDEMPOTENCY_CONFLICT && Disagrees(a, cmd)
      case Ok(b) => b.stream == a.stream && b.row.tested == a.row.tested && b.row.status == a.row.status
  {
    ReachableInv(a, digest);
    hide Inv, Handle, Repeated, Disagrees;
    if cmd.SweepTurn? {
      RepeatedSweepAnswer(a, cmd, digest);
    } else if cmd.OtherService? {
      FoundForeign(a, cmd, digest);
    } else {
      RepeatedReplays(a, cmd, digest);
      RefreshKeeps(a, digest);
    }
  }

  lemma RepeatedReplays(a: Agent, cmd: Command, digest: Digest)
    requires Inv(a, digest) && Repeated(a, cmd) && !cmd.SweepTurn? && !cmd.OtherService?
    ensures Handle(a, cmd, digest) == Ok(Refresh(a, digest))
  {
    match cmd {
      case Update(_, _, _) => FoundIsRepeated(a, cmd, TUpdated, digest);
      case Activate(_, _) => FoundIsRepeated(a, cmd, TActivated, digest);
      case Suspend(_) => FoundIsRepeated(a, cmd, TSuspended, digest);
      case Revoke(_) => FoundIsRepeated(a, cmd, TRevoked, digest);
      case RecordHeartbeat(_, _, _, _, _) => FoundIsRepeated(a, cmd, THeartbeat, digest);
      case MarkOffline(_, _) => FoundIsRepeated(a, cmd, TMarkedOffline, digest);
      case _ =>
    }
    hide Inv, FindKey, Refresh, AppendAndRefresh, TakeOffline, Append;
  }

  lemma FoundForeign(a: Agent, cmd: Command, digest: Digest)
    requires Inv(a, digest) && cmd.OtherService? && Repeated(a, cmd)
    ensures Handle(a, cmd, digest) == Ok(a)
  {
    FoundIsRepeated(a, cmd, TForeign, digest);
    hide Repeated;
    var e := FindKey(a.stream, cmd.caller, TForeign).value;
    assert e in a.stream && SameKey(e, cmd.caller, TForeign);
  }

  lemma RepeatedSweepAnswer(a: Agent, cmd: Command, digest: Digest)
    requires Inv(a, digest) && cmd.SweepTurn? && Repeated(a, cmd)
    ensures match Handle(a, cmd, digest)
      case Err(e) => e == IDEMPOTENCY_CONFLICT && Disagrees(a, cmd)
      case Ok(b) => b.stream == a.stream && b.row.tested == a.row.tested && b.row.status == a.row.status
  {
  }

  // ---------------------------------------------------------------- nobody is active untested

  lemma ActivatedBefore(stream: seq<Event>, e: Event)
    ensures (StatusFrom(stream + [e]) == ACTIVE || StatusFrom(stream + [e]) == OFFLINE) && !e.kind.Activated? ==>
      StatusFrom(stream) == ACTIVE || StatusFrom(stream) == OFFLINE
  {
    LastAppended(stream, e, Decides);
    hide Last;
  }

  ghost predicate InService(a: Agent) {
    a.row.status == ACTIVE || a.row.status == OFFLINE
  }

  /** A command that goes through puts an Agent in service only after a test. */
  lemma LeavesTested(a: Agent, cmd: Command, b: Agent)
    requires a.row.status == StatusFrom(a.stream) && b.row.status == StatusFrom(b.stream)
    requires (forall e :: !Fault(a, cmd, e)) && Leaves(a, cmd, b) && (InService(a) ==> a.row.tested)
    ensures (InService(b) ==> b.row.tested) && (a.row.tested ==> b.row.tested)
  {
    hide StatusFrom, CountedBy, ReportsMissed, MissedFrom, ListedDue;
    assert !Fault(a, cmd, AGENT_CONNECTION_TEST_REQUIRED);
    if Records(cmd) {
      assert b.stream == a.stream + [b.stream[|a.stream|]];
      ActivatedBefore(a.stream, b.stream[|a.stream|]);
    }
  }

  lemma StepTested(a: Agent, cmd: Command, digest: Digest)
    requires Reachable(a, digest) && (InService(a) ==> a.row.tested)
    ensures var b := Step(a, cmd, digest);
      (InService(b) ==> b.row.tested) && (a.row.tested ==> b.row.tested)
  {
    ReachOn(a, cmd, digest);
    hide *;
    RowFromHistory(a, digest);
    RowFromHistory(Step(a, cmd, digest), digest);
    StepIs(a, cmd, digest);
    SameService(a, Step(a, cmd, digest));
    if Repeated(a, cmd) {
      RepeatedAnswer(a, cmd, digest);
    } else {
      NewCommandAnswer(a, cmd, digest);
      if Handle(a, cmd, digest).Ok? {
        LeavesTested(a, cmd, Step(a, cmd, digest));
      }
    }
  }

  lemma SameService(a: Agent, b: Agent)
    ensures a.row.status == b.row.status ==> (InService(a) <==> InService(b))
  {
  }

  lemma StepIs(a: Agent, cmd: Command, digest: Digest)
    ensures Step(a, cmd, digest) == if Handle(a, cmd, digest).Ok? then Handle(a, cmd, digest).value else a
  {
    hide Handle;
  }

  lemma {:induction false} RunTested(a: Agent, cmds: seq<Command>, digest: Digest)
    requires Reachable(a, digest) && (InService(a) ==> a.row.tested)
    ensures var b := Run(a, cmds, digest);
      Reachable(b, digest) && (InService(b) ==> b.row.tested) && (a.row.tested ==> b.row.tested)
  {
    hide Reachable, Inv, Step;
    if cmds == [] {
    } else {
      RunTested(a, cmds[..|cmds| - 1], digest);
      StepTested(Run(a, cmds[..|cmds| - 1], digest), cmds[|cmds| - 1], digest);
      ReachOn(Run(a, cmds[..|cmds| - 1], digest), cmds[|cmds| - 1], digest);
    }
  }

  /** An Agent in service has passed a connection test, whatever run led there. */
  lemma InServiceWasTested(a: Agent, digest: Digest)
    requires Reachable(a, digest) && InService(a)
    ensures a.row.tested
  {
    var c, tested, cmds :| Register(c, tested, digest).Ok? && a == Run(Register(c, tested, digest).value, cmds, digest);
    var b := Register(c, tested, digest).value;
    hide Register;
    JustRegistered(c, tested, digest);
    RunTested(b, cmds, digest);
  }

  lemma JustRegistered(c: Caller, tested: bool, digest: Digest)
    requires Register(c, tested, digest).Ok?
    ensures var a := Register(c, tested, digest).value;
      Reachable(a, digest) && a.row.status == PENDING && a.row.tested == tested && !a.row.online
  {
    var a := Register(c, tested, digest).value;
    assert Run(a, [], digest) == a;
    NothingFolded(digest);
    FoldAppended([], NewEvent([], Registered, c), digest);
    hide Fold;
  }
}
