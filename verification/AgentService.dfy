/** The Agent lifecycle handlers as they run on the row and the stream of one Agent, and the loops over many. */
module AgentService {
  import opened Common
  import R = AgentRegistry

  class Record {
    const digest: R.Digest
    var row: R.Row
    var stream: seq<R.Event>

    constructor (digest: R.Digest, row: R.Row, stream: seq<R.Event>)
      ensures this.digest == digest && Value() == R.Agent(row, stream)
    {
      this.digest, this.row, this.stream := digest, row, stream;
    }

    function Value(): R.Agent
      reads this
    {
      R.Agent(row, stream)
    }

    function Landed<T>(r: R.Outcome<T>): R.Outcome<R.Agent>
      reads this
    {
      if r.Ok? then Ok(Value()) else Err(r.code)
    }

    /** `_replay`: the first event of the stream with the caller's scope, key and account. */
    method Replay(c: R.Caller, scope: R.Tag) returns (found: bool)
      ensures found == R.FindKey(stream, c, scope).Some?
    {
      for i := 0 to |stream|
        invariant forall k :: 0 <= k < i ==> !R.SameKey(stream[k], c, scope)
      {
        if R.SameKey(stream[i], c, scope) {
          return true;
        }
      }
      found := false;
    }

    method AppendEvent(kind: R.Kind, c: R.Caller) returns (r: R.Outcome<()>)
      modifies `stream
      ensures R.Append(old(stream), kind, c) == if r.Ok? then Ok(stream) else Err(r.code)
      ensures r.Err? ==> stream == old(stream)
    {
      var done := R.Append(stream, kind, c);
      if done.Err? {
        return Err(done.code);
      }
      stream := done.value;
      r := Ok(());
    }

    /** Folds the stream and writes the runtime columns. */
    method RefreshState()
      modifies `row
      ensures Value() == R.Refresh(old(Value()), digest)
    {
      var s := R.FoldEvents(stream, digest);
      row := R.WriteState(row, s);
    }

    method AppendAndRefresh(kind: R.Kind, c: R.Caller) returns (r: R.Outcome<()>)
      modifies this
      ensures R.AppendAndRefresh(old(Value()), kind, c, digest) == Landed(r)
      ensures r.Err? ==> Value() == old(Value())
    {
      r := AppendEvent(kind, c);
      if r.Ok? {
        RefreshState();
      }
    }

    method UpdateAgent(fault: Option<R.Fault>, changes: bool, c: R.Caller) returns (r: R.Outcome<()>)
      modifies this
      ensures R.Handle(old(Value()), R.Update(fault, changes, c), digest) == Landed(r)
      ensures r.Err? ==> Value() == old(Value())
    {
      hide R.AppendAndRefresh, R.FindKey, R.Refresh;
      var replayed := Replay(c, R.TUpdated);
      if replayed {
        RefreshState();
        return Ok(());
      }
      if row.status.REVOKED? {
        return Err(R.AGENT_REVOKED);
      }
      if fault.Some? {
        return Err(R.OfField(fault.value));
      }
      if !changes {
        return Err(R.AGENT_UPDATE_EMPTY);
      }
      r := AppendAndRefresh(R.Updated, c);
    }

    method ActivateAgent(probe: Option<bool>, c: R.Caller) returns (r: R.Outcome<()>)
      modifies this
      ensures R.Handle(old(Value()), R.Activate(probe, c), digest) == Landed(r)
      ensures r.Err? ==> Value() == old(Value())
    {
      hide R.AppendAndRefresh, R.FindKey, R.Refresh;
      var replayed := Replay(c, R.TActivated);
      if replayed {
        RefreshState();
        return Ok(());
      }
      if row.status.REVOKED? {
        return Err(R.AGENT_REVOKED);
      }
      if row.status.ACTIVE? {
        return Err(R.AGENT_ALREADY_ACTIVE);
      }
      var saved := row;
      if probe.Some? {
        row := row.(tested := probe.value);
      }
      if !row.tested {
        row := saved;
        return Err(R.AGENT_CONNECTION_TEST_REQUIRED);
      }
      r := AppendAndRefresh(R.Activated, c);
      if r.Err? {
        row := saved;
      }
    }

    method SuspendAgent(c: R.Caller) returns (r: R.Outcome<()>)
      modifies this
      ensures R.Handle(old(Value()), R.Suspend(c), digest) == Landed(r)
      ensures r.Err? ==> Value() == old(Value())
    {
      hide R.AppendAndRefresh, R.FindKey, R.Refresh;
      var replayed := Replay(c, R.TSuspended);
      if replayed {
        RefreshState();
        return Ok(());
      }
      if row.status.REVOKED? || row.status.SUSPENDED? {
        return Err(R.AGENT_STATUS_INVALID);
      }
      r := AppendAndRefresh(R.Suspended, c);
    }

    method RevokeAgent(c: R.Caller) returns (r: R.Outcome<()>)
      modifies this
      ensures R.Handle(old(Value()), R.Revoke(c), digest) == Landed(r)
      ensures r.Err? ==> Value() == old(Value())
    {
      hide R.AppendAndRefresh, R.FindKey, R.Refresh;
      var replayed := Replay(c, R.TRevoked);
      if replayed {
        RefreshState();
        return Ok(());
      }
      if row.status.REVOKED? {
        return Err(R.AGENT_REVOKED);
      }
      r := AppendAndRefresh(R.Revoked, c);
    }

    method RecordHeartbeat(healthKnown: bool, capacity: int, usage: R.Usage, reconfirms: bool, c: R.Caller)
      returns (r: R.Outcome<()>)
      modifies this
      ensures R.Handle(old(Value()), R.RecordHeartbeat(healthKnown, capacity, usage, reconfirms, c), digest)
        == Landed(r)
      ensures r.Err? ==> Value() == old(Value())
    {
      hide R.AppendAndRefresh, R.FindKey, R.Refresh;
      var replayed := Replay(c, R.THeartbeat);
      if replayed {
        RefreshState();
        return Ok(());
      }
      if row.status.PENDING? || row.status.SUSPENDED? || row.status.REVOKED? {
        return Err(R.AGENT_STATUS_INVALID);
      }
      if !healthKnown {
        return Err(R.AGENT_HEALTH_INVALID);
      }
      if capacity < 0 {
        return Err(R.AGENT_CAPACITY_INVALID);
      }
      if usage.Absent? {
        return Err(R.USAGE_REQUIRED);
      }
      var savedRow, savedStream := row, stream;
      row := row.(tested := row.tested || reconfirms);
      r := AppendAndRefresh(R.Heartbeat(capacity), c);
      if r.Ok? && usage.Malformed? {
        stream := savedStream;
        r := Err(R.USAGE_INVALID);
      }
      if r.Err? {
        row := savedRow;
      }
    }

    /** `_mark_offline` with the refresh its callers do next. */
    method TakeOffline(now: R.Time, c: R.Caller) returns (r: R.Outcome<()>)
      modifies this
      ensures R.TakeOffline(old(Value()), now, c, digest) == Landed(r)
      ensures r.Err? ==> Value() == old(Value())
    {
      hide R.AppendAndRefresh, R.MissedAt;
      var saved, missed := row, R.MissedAt(row.lastHeartbeat, now);
      row := row.(missed := missed);
      r := AppendAndRefresh(
        R.MarkedOffline(if missed >= R.OFFLINE_AFTER_MISSES then missed else R.OFFLINE_AFTER_MISSES), c);
      if r.Err? {
        row := saved;
      }
    }

    method MarkOffline(now: R.Time, c: R.Caller) returns (r: R.Outcome<()>)
      modifies this
      ensures R.Handle(old(Value()), R.MarkOffline(now, c), digest) == Landed(r)
      ensures r.Err? ==> Value() == old(Value())
    {
      hide R.TakeOffline, R.FindKey, R.Refresh;
      var replayed := Replay(c, R.TMarkedOffline);
      if replayed {
        RefreshState();
        return Ok(());
      }
      if !row.status.ACTIVE? || !row.online {
        return Err(R.AGENT_STATUS_INVALID);
      }
      r := TakeOffline(now, c);
    }

    /** One turn of the sweep; `listed` is the row as the sweep's listing saw it, before it was locked. */
    method SweepTurn(listed: R.Row, now: R.Time, c: R.Caller) returns (r: R.Outcome<bool>)
      modifies this
      ensures R.Handle(old(Value()), R.SweepTurn(listed, now, c), digest) == Landed(r)
      ensures r.Err? ==> Value() == old(Value())
      ensures r == Ok(true) ==> listed.online && R.OfflineDue(listed.lastHeartbeat, now)
    {
      hide R.TakeOffline, R.OfflineDue, R.MissedAt;
      if !listed.status.ACTIVE? || !listed.online {
        return Ok(false);
      }
      if !R.OfflineDue(listed.lastHeartbeat, now) {
        var missed := R.MissedAt(listed.lastHeartbeat, now);
        if missed != listed.missed {
          row := row.(missed := missed);
        }
        return Ok(false);
      }
      var done := TakeOffline(now, c);
      r := if done.Ok? then Ok(true) else Err(done.code);
    }
  }

  /** `rebuild`: refreshes one Agent after the other. */
  method Rebuild(agents: seq<Record>)
    requires forall i, j :: 0 <= i < j < |agents| ==> agents[i] != agents[j]
    modifies agents
    ensures forall i :: 0 <= i < |agents| ==> agents[i].Value() == R.Refresh(old(agents[i].Value()), agents[i].digest)
  {
    hide R.Refresh;
    for k := 0 to |agents|
      invariant forall i :: 0 <= i < k ==> agents[i].Value() == R.Refresh(old(agents[i].Value()), agents[i].digest)
      invariant forall i :: k <= i < |agents| ==> agents[i].Value() == old(agents[i].Value())
    {
      agents[k].RefreshState();
    }
  }
}
