/** The fixed-window request limiter of one Agent: counts per minute, with old windows deleted as it goes. */
module RateLimiter {
  import opened Common

  /** Microseconds. */
  type Time = int
  const MINUTE: Time := 60_000_000
  const KEPT_MINUTES := 60

  type Windows = map<int, nat>

  /** The aligned minute of a moment. */
  function MinuteOf(now: Time): int {
    now / MINUTE
  }

  function Count(w: Windows, minute: int): nat {
    if minute in w then w[minute] else 0
  }

  /** `_count_request`: one more in this minute, then everything older than an hour goes. */
  function Counted(w: Windows, minute: int): Windows {
    var more := w[minute := Count(w, minute) + 1];
    map m | m in more && m >= minute - KEPT_MINUTES :: more[m]
  }

  /**
   A request: when it comes, the configured limit, whether another limit is exceeded and whether the caller asks to
   count it.
   */
  datatype Call = Call(now: Time, limit: Option<nat>, otherExceeded: bool, counts: bool)

  predicate Admits(w: Windows, c: Call) {
    !(c.limit.Some? && Count(w, MinuteOf(c.now)) >= c.limit.value) && !c.otherExceeded
  }

  predicate Recorded(c: Call) {
    c.counts && c.limit.Some?
  }

  /** `enforce_limits`, as far as the request windows go. */
  function Enforce(w: Windows, c: Call): Windows {
    if Admits(w, c) && Recorded(c) then Counted(w, MinuteOf(c.now)) else w
  }

  class AgentWindows {
    var windows: Windows

    constructor ()
      ensures windows == map[]
    {
      windows := map[];
    }

    method CountRequest(now: Time)
      modifies this
      ensures windows == Counted(old(windows), MinuteOf(now))
    {
      var minute := MinuteOf(now);
      windows := windows[minute := Count(windows, minute) + 1];
      var cutoff := minute - KEPT_MINUTES;
      windows := map m | m in windows && !(m < cutoff) :: windows[m];
    }

    method EnforceLimits(c: Call) returns (admitted: bool)
      modifies this
      ensures admitted == Admits(old(windows), c) && windows == Enforce(old(windows), c)
    {
      if c.limit.Some? && Count(windows, MinuteOf(c.now)) >= c.limit.value {
        return false;
      }
      if c.otherExceeded {
        return false;
      }
      if c.counts && c.limit.Some? {
        CountRequest(c.now);
      }
      admitted := true;
    }
  }

  // ---------------------------------------------------------------- runs

  function After(calls: seq<Call>): Windows {
    if calls == [] then map[] else Enforce(After(calls[..|calls| - 1]), calls[|calls| - 1])
  }

  predicate Admitted(calls: seq<Call>, i: nat)
    requires i < |calls|
  {
    Admits(After(calls[..i]), calls[i])
  }

  ghost predicate Monotone(calls: seq<Call>) {
    forall i, j :: 0 <= i <= j < |calls| ==> calls[i].now <= calls[j].now
  }

  /** A call leaves a mark where the caller asks to count it and the Agent has a limit. */
  predicate LeavesMark(c: Call) {
    c.counts && c.limit != None
  }

  /** How many of the calls were admitted and counted in a minute. */
  function AdmittedIn(calls: seq<Call>, minute: int): nat {
    if calls == [] then 0
    else
      var n := |calls| - 1;
      AdmittedIn(calls[..n], minute)
      + if Admitted(calls, n) && LeavesMark(calls[n]) && MinuteOf(calls[n].now) == minute then 1 else 0
  }

  lemma MinutesGrow(a: Time, b: Time)
    requires a <= b
    ensures MinuteOf(a) <= MinuteOf(b)
  {
  }

  /** An aligned minute is sixty seconds long. */
  lemma MinuteSpans(now: Time)
    ensures 60 * 1_000_000 * MinuteOf(now) <= now < 60 * 1_000_000 * (MinuteOf(now) + 1)
  {
  }

  /** A counted request leaves the minutes of the last hour and no older one. */
  lemma HourIsKept(w: Windows, minute: int, m: int)
    ensures m in Counted(w, minute) <==> m == minute || (m in w && m >= minute - 60)
  {
  }

  lemma CountedCounts(w: Windows, minute: int, m: int)
    requires m >= minute - KEPT_MINUTES
    ensures Count(Counted(w, minute), m) == Count(w, m) + if m == minute then 1 else 0
  {
  }

  /** Deleting old windows never loses a count that this or a later call reads. */
  lemma {:induction false} CountIsExact(calls: seq<Call>, minute: int)
    requires Monotone(calls)
    requires calls != [] ==> minute >= MinuteOf(calls[|calls| - 1].now) - KEPT_MINUTES
    ensures Count(After(calls), minute) == AdmittedIn(calls, minute)
  {
    if calls == [] {
    } else {
      var n := |calls| - 1;
      if n > 0 {
        MinutesGrow(calls[n - 1].now, calls[n].now);
      }
      CountIsExact(calls[..n], minute);
      CountedCounts(After(calls[..n]), MinuteOf(calls[n].now), minute);
    }
  }

  /** So a call is admitted exactly when its minute has room for it and no other limit is exceeded. */
  lemma AdmissionExactly(calls: seq<Call>, i: nat)
    requires Monotone(calls) && i < |calls|
    ensures Admitted(calls, i) <==>
      !calls[i].otherExceeded
      && (calls[i].limit.Some? ==> AdmittedIn(calls[..i], MinuteOf(calls[i].now)) < calls[i].limit.value)
  {
    if i > 0 {
      MinutesGrow(calls[i - 1].now, calls[i].now);
    }
    CountIsExact(calls[..i], MinuteOf(calls[i].now));
  }

  ghost predicate LimitIs(calls: seq<Call>, limit: nat) {
    forall i :: 0 <= i < |calls| ==> calls[i].limit == Some(limit)
  }

  /** No aligned minute takes more recorded requests than the limit. */
  lemma {:induction false} MinuteBounded(calls: seq<Call>, limit: nat, minute: int)
    requires Monotone(calls) && LimitIs(calls, limit)
    ensures AdmittedIn(calls, minute) <= limit
  {
    if calls == [] {
    } else {
      var n := |calls| - 1;
      MinuteBounded(calls[..n], limit, minute);
      AdmissionExactly(calls, n);
    }
  }

  /** How many calls were admitted and recorded in the sixty seconds from `start` on. */
  function AdmittedFrom(calls: seq<Call>, start: Time): nat {
    if calls == [] then 0
    else
      var n := |calls| - 1;
      AdmittedFrom(calls[..n], start)
      + if Admitted(calls, n) && LeavesMark(calls[n]) && start <= calls[n].now < start + MINUTE then 1 else 0
  }

  /** Sixty seconds touch two aligned minutes at most. */
  lemma {:induction false} TwoMinutes(calls: seq<Call>, start: Time)
    ensures AdmittedFrom(calls, start) <= AdmittedIn(calls, MinuteOf(start)) + AdmittedIn(calls, MinuteOf(start) + 1)
  {
    if calls == [] {
    } else {
      var n := |calls| - 1;
      TwoMinutes(calls[..n], start);
      if start <= calls[n].now < start + MINUTE {
        assert MinuteOf(calls[n].now) == MinuteOf(start) || MinuteOf(calls[n].now) == MinuteOf(start) + 1;
      }
    }
  }

  /** Wherever sixty seconds begin, at most twice the limit is admitted in them. */
  lemma AnySixtySeconds(calls: seq<Call>, limit: nat, start: Time)
    requires Monotone(calls) && LimitIs(calls, limit)
    ensures AdmittedFrom(calls, start) <= 2 * limit
  {
    TwoMinutes(calls, start);
    MinuteBounded(calls, limit, MinuteOf(start));
    MinuteBounded(calls, limit, MinuteOf(start) + 1);
  }

  // ---------------------------------------------------------------- the bound is reached

  /** `n` counted requests at one moment. */
  function Burst(n: nat, at: Time, limit: nat): seq<Call> {
    if n == 0 then [] else Burst(n - 1, at, limit) + [Call(at, Some(limit), false, true)]
  }

  lemma {:induction false} BurstShape(n: nat, at: Time, limit: nat)
    ensures |Burst(n, at, limit)| == n
    ensures forall i :: 0 <= i < n ==> Burst(n, at, limit)[i] == Call(at, Some(limit), false, true)
  {
    if n == 0 {
    } else {
      BurstShape(n - 1, at, limit);
    }
  }

  ghost predicate Before(calls: seq<Call>, at: Time, limit: nat) {
    Monotone(calls) && LimitIs(calls, limit) && forall i :: 0 <= i < |calls| ==> calls[i].now <= at
  }

  /** One more request, in a minute with room. */
  lemma OneMore(calls: seq<Call>, at: Time, limit: nat, start: Time)
    requires Before(calls, at, limit) && AdmittedIn(calls, MinuteOf(at)) < limit && start <= at < start + MINUTE
    ensures var more := calls + [Call(at, Some(limit), false, true)];
      && Before(more, at, limit)
      && AdmittedIn(more, MinuteOf(at)) == AdmittedIn(calls, MinuteOf(at)) + 1
      && AdmittedFrom(more, start) == AdmittedFrom(calls, start) + 1
  {
    var c := Call(at, Some(limit), false, true);
    StillBefore(calls, c, at, limit);
    assert LeavesMark(c);
    hide Before, LeavesMark, AdmittedIn, AdmittedFrom, MinuteOf;
    assert (calls + [c])[..|calls|] == calls;
    RoomAdmits(calls, c, at, limit);
    OneMoreCounted(calls, c, MinuteOf(at), start);
  }

  lemma StillBefore(calls: seq<Call>, c: Call, at: Time, limit: nat)
    requires Before(calls, at, limit) && c.now == at && c.limit == Some(limit)
    ensures Before(calls + [c], at, limit)
  {
  }

  lemma RoomAdmits(calls: seq<Call>, c: Call, at: Time, limit: nat)
    requires Before(calls + [c], at, limit) && c == Call(at, Some(limit), false, true)
    requires AdmittedIn(calls, MinuteOf(at)) < limit
    ensures Admitted(calls + [c], |calls|)
  {
    hide AdmittedIn, MinuteOf, Admitted;
    assert (calls + [c])[..|calls|] == calls;
    AdmissionExactly(calls + [c], |calls|);
  }

  lemma OneMoreCounted(calls: seq<Call>, c: Call, minute: int, start: Time)
    requires Admitted(calls + [c], |calls|) && LeavesMark(c)
    ensures AdmittedIn(calls + [c], minute) == AdmittedIn(calls, minute) + if MinuteOf(c.now) == minute then 1 else 0
    ensures AdmittedFrom(calls + [c], start)
      == AdmittedFrom(calls, start) + if start <= c.now < start + MINUTE then 1 else 0
  {
    hide MinuteOf, Admitted;
    assert (calls + [c])[..|calls|] == calls;
  }

  /** A burst no larger than the limit, in a minute not used before, is admitted whole. */
  lemma {:induction false} BurstAdmitted(before: seq<Call>, n: nat, at: Time, limit: nat, start: Time)
    requires n <= limit && start <= at < start + MINUTE
    requires Before(before, at, limit) && AdmittedIn(before, MinuteOf(at)) == 0
    ensures var calls := before + Burst(n, at, limit);
      && Before(calls, at, limit) && AdmittedIn(calls, MinuteOf(at)) == n
      && AdmittedFrom(calls, start) == AdmittedFrom(before, start) + n
  {
    hide AdmittedIn, AdmittedFrom, MinuteOf, Before;
    if n == 0 {
      assert before + Burst(n, at, limit) == before;
    } else {
      BurstAdmitted(before, n - 1, at, limit, start);
      OneMore(before + Burst(n - 1, at, limit), at, limit, start);
      assert before + Burst(n, at, limit)
        == (before + Burst(n - 1, at, limit)) + [Call(at, Some(limit), false, true)];
    }
  }

  lemma {:induction false} OtherMinute(calls: seq<Call>, minute: int)
    requires forall i :: 0 <= i < |calls| ==> MinuteOf(calls[i].now) != minute
    ensures AdmittedIn(calls, minute) == 0
  {
    if calls == [] {
    } else {
      OtherMinute(calls[..|calls| - 1], minute);
    }
  }

  /** Twice the limit is the best bound: it is reached across the boundary of two minutes. */
  lemma TwiceIsReached(limit: nat)
    ensures exists calls, start :: Monotone(calls) && LimitIs(calls, limit) && AdmittedFrom(calls, start) == 2 * limit
  {
    var first := Burst(limit, MINUTE - 1, limit);
    var calls := first + Burst(limit, MINUTE, limit);
    BurstShape(limit, MINUTE - 1, limit);
    assert [] + first == first;
    BurstAdmitted([], limit, MINUTE - 1, limit, MINUTE - 1);
    OtherMinute(first, MinuteOf(MINUTE));
    BurstAdmitted(first, limit, MINUTE, limit, MINUTE - 1);
    assert AdmittedFrom(calls, MINUTE - 1) == 2 * limit;
  }
}
