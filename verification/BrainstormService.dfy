/** The brainstorm handlers as they run, statement by statement, on the rows of one session. */
module BrainstormService {
  import opened Common
  import B = Brainstorm

  class Rows {
    var status: B.Status
    var limits: B.Limits
    var turnNo: nat
    var turnIndex: nat
    var last: Option<B.Account>
    var consecutive: nat
    var pausedReason: Option<B.Reason>
    const startedAt: B.Time
    var participants: seq<B.Participant>
    var turns: seq<B.Turn>
    var events: seq<B.Event>

    function Value(): B.Session
      reads this
    {
      B.Session(status, limits, turnNo, turnIndex, last, consecutive, pausedReason, startedAt, participants, turns,
                events)
    }

    /** `start_brainstorm`: the row, then one seat after the other. */
    constructor (limits: B.Limits, accounts: seq<(B.Account, bool)>, now: B.Time)
      ensures Value() == B.Start(limits, accounts, now)
    {
      status, this.limits, turnNo, turnIndex := B.OPEN, limits, 0, 0;
      last, consecutive, pausedReason, startedAt := None, 0, None, now;
      participants, turns, events := [], [], [B.Opened(limits)];
      new;
      for i := 0 to |accounts|
        invariant Value() == B.Start(limits, accounts[..i], now)
      {
        assert accounts[..i + 1][..i] == accounts[..i];
        var _ := AddParticipant(accounts[i].0, accounts[i].1);
      }
      assert accounts[..|accounts|] == accounts;
    }

    method AddParticipant(a: B.Account, isAgent: bool) returns (seat: int)
      modifies `participants
      ensures (participants, seat) == B.AddParticipant(old(participants), a, isAgent)
    {
      seat := B.MaxSeat(participants) + 1;
      if B.Find(participants, a).None? {
        participants := participants + [B.Participant(a, isAgent, seat, 0)];
      }
    }

    method Advance(i: nat)
      requires i < |participants|
      modifies this
      ensures Value() == B.Advance(old(Value()), i)
    {
      var p := participants[i];
      consecutive := if last == Some(p.account) then consecutive + 1 else 1;
      if p.isAgent {
        turnIndex := turnIndex + 1;
      }
      turnNo, last := turnNo + 1, Some(p.account);
      participants := participants[i := p.(taken := p.taken + 1)];
    }

    method SetStatus(s: B.Status, reason: Option<B.Reason>)
      modifies `status, `pausedReason
      ensures status == s && pausedReason == reason
    {
      status, pausedReason := s, reason;
    }

    method PauseWith(reason: B.Reason, stored: B.Stored)
      modifies this
      ensures Value() == B.PauseWith(old(Value()), reason, stored)
    {
      if stored.New? {
        events := events + [B.Paused(reason)];
      }
      SetStatus(B.PAUSED, Some(reason));
    }

    method ContributeTurn(c: B.Command) returns (reply: B.Reply)
      requires c.Contribute?
      modifies this
      ensures (Value(), reply) == B.Step(old(Value()), c)
    {
      hide B.Check, B.NextAgent, B.Find;
      if !status.OPEN? {
        return B.Rejected(B.BRAINSTORM_NOT_OPEN);
      }
      if !c.bodyGiven {
        return B.Rejected(B.BRAINSTORM_BODY_REQUIRED);
      }
      var found := B.Find(participants, c.actor);
      if found.None? {
        return B.Rejected(B.BRAINSTORM_NOT_A_PARTICIPANT);
      }
      var i := found.value;
      var isAgent := participants[i].isAgent;
      if isAgent && c.kind.NotGiven? {
        return B.Rejected(B.BRAINSTORM_CONTRIBUTION_TYPE_REQUIRED);
      }
      if c.kind.NotKnown? {
        return B.Rejected(B.BRAINSTORM_CONTRIBUTION_TYPE_INVALID);
      }
      var breach := B.Check(limits, B.TurnStateOf(Value(), i, c.spent, c.now), isAgent);
      if breach.Some? {
        if c.stored.Refused? {
          return B.Rejected(B.EVENT_REFUSED);
        }
        PauseWith(B.ByBreach(breach.value), c.stored);
        return B.Rejected(B.Breached(breach.value));
      }
      if isAgent {
        var expected := B.NextAgent(Value());
        if expected.Some? && expected.value.account != c.actor {
          return B.Rejected(B.BRAINSTORM_NOT_YOUR_TURN);
        }
      }
      if c.stored.Refused? {
        return B.Rejected(B.EVENT_REFUSED);
      }
      if c.stored.Repeated? {
        return B.Done;
      }
      var n := turnNo + 1;
      events := events + [B.Recorded(c.actor, n)];
      turns := turns + [B.Turn(n, c.actor)];
      Advance(i);
      reply := B.TurnTaken(n);
    }

    method JoinBrainstorm(c: B.Command) returns (reply: B.Reply)
      requires c.Join?
      modifies this
      ensures (Value(), reply) == B.Step(old(Value()), c)
    {
      if !c.facilitator {
        return B.Rejected(B.BRAINSTORM_FACILITATOR_ONLY);
      }
      if status.CLOSED? {
        return B.Rejected(B.BRAINSTORM_CLOSED);
      }
      var seat := AddParticipant(c.account, c.isAgent);
      reply := B.Seated(seat);
    }

    method PauseBrainstorm(c: B.Command) returns (reply: B.Reply)
      requires c.Pause?
      modifies this
      ensures (Value(), reply) == B.Step(old(Value()), c)
    {
      if !c.facilitator {
        return B.Rejected(B.BRAINSTORM_FACILITATOR_ONLY);
      }
      if !status.OPEN? {
        return B.Rejected(B.BRAINSTORM_NOT_OPEN);
      }
      if c.stored.Refused? {
        return B.Rejected(B.EVENT_REFUSED);
      }
      PauseWith(B.ByFacilitator, c.stored);
      reply := B.Done;
    }

    method ResumeBrainstorm(c: B.Command) returns (reply: B.Reply)
      requires c.Resume?
      modifies this
      ensures (Value(), reply) == B.Step(old(Value()), c)
    {
      if !c.facilitator {
        return B.Rejected(B.BRAINSTORM_FACILITATOR_ONLY);
      }
      if !status.PAUSED? {
        return B.Rejected(B.BRAINSTORM_NOT_PAUSED);
      }
      var parsed := B.ParseLimits(B.AsDict(limits) + c.patch);
      if parsed.None? {
        return B.Rejected(B.BRAINSTORM_LIMITS_INVALID);
      }
      if c.stored.Refused? {
        return B.Rejected(B.EVENT_REFUSED);
      }
      if c.stored.Repeated? {
        return B.Done;
      }
      hide B.Parse;
      events := events + [B.Resumed(parsed.value)];
      limits, consecutive := parsed.value, 0;
      SetStatus(B.OPEN, None);
      reply := B.Done;
    }

    method CloseBrainstorm(c: B.Command) returns (reply: B.Reply)
      requires c.Close?
      modifies this
      ensures (Value(), reply) == B.Step(old(Value()), c)
    {
      if !c.facilitator {
        return B.Rejected(B.BRAINSTORM_FACILITATOR_ONLY);
      }
      if status.CLOSED? {
        return B.Rejected(B.BRAINSTORM_CLOSED);
      }
      if c.stored.Refused? {
        return B.Rejected(B.EVENT_REFUSED);
      }
      if c.stored.Repeated? {
        return B.Done;
      }
      events := events + [B.Closed(turnNo)];
      SetStatus(B.CLOSED, None);
      reply := B.Done;
    }
  }
}
