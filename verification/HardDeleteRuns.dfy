/**
 What whole runs of hard-delete requests guarantee: who approved an executed request, when one can still be executed,
 and what execution destroys.
 */
module HardDeleteRuns {
  import opened Common
  import opened ApprovalModel
  import opened ApprovalInvariants
  import opened ApprovalRuns
  import opened HardDelete
  import L = TombstoneLedger

  // ---------------------------------------------------------------- who approved

  /** The accounts that voted for an approval. */
  function ApprovedBy(a: Aggregate): set<Account> {
    set d | d in a.decisions && d.approve :: d.decidedBy
  }

  /** Two different people approved the request, neither of them the account that asked for it. */
  ghost predicate TwoHumansApproved(w: World, rid: Id, humans: set<Account>)
    requires rid in w.rows && w.rows[rid].approvalId in w.approvals
  {
    var who := ApprovedBy(w.approvals[w.rows[rid].approvalId]) * humans - {w.rows[rid].requestedBy};
    exists p, q :: p in who && q in who && p != q
  }

  lemma {:induction false} ApprovedByAll(a: Aggregate)
    requires AllApprove(a.decisions)
    ensures ApprovedBy(a) == DeciderSet(a.decisions)
  {
    forall d | d in a.decisions ensures d.approve {
      var i :| 0 <= i < |a.decisions| && a.decisions[i] == d;
    }
  }

  lemma GrantedQuorum(a: Aggregate, humans: set<Account>)
    requires Inv(a, humans) && |a.stream| >= 2 && a.stream[1].body.GrantedEvent?
    ensures |ApprovedBy(a)| == |a.decisions| == Needed(a.grant) == if a.grant.risk.CRITICAL? then 2 else 1
    ensures forall who :: who in ApprovedBy(a) ==> EligibleVoter(a.grant, who, humans)
  {
    hide Inv, Needed, ApprovedBy;
    VotesByPhase(a, humans);
    VotersAre(a, humans);
    ApprovedByAll(a);
  }

  /** With one human vote all votes of a granted approval are human: only a CRITICAL one has a second. */
  lemma HumansOnly(a: Aggregate, humans: set<Account>)
    requires Inv(a, humans) && |a.stream| >= 2 && a.stream[1].body.GrantedEvent? && HumanVoted(a, humans)
    ensures ApprovedBy(a) <= humans
  {
    hide Inv;
    GrantedQuorum(a, humans);
  }

  /**
   In every reachable world an executed request's approval was granted by exactly its quorum of distinct eligible
   accounts, every one of them human and none of them the requester, at least the waiting period before execution, and
   the keys it names are destroyed.
   */
  lemma ExecutedWasApproved(w: World, rid: Id, s: Setting)
    requires ReachableWorld(w, s) && rid in w.rows && w.rows[rid].phase.EXECUTED?
    ensures w.rows[rid].approvalId in w.approvals && w.rows[rid].executedAt.Some?
    ensures var row, a := w.rows[rid], w.approvals[w.rows[rid].approvalId];
      && |a.stream| >= 2 && a.stream[1].body.GrantedEvent?
      && a.stream[1].at + row.hours * HOUR <= row.executedAt.value
      && |ApprovedBy(a)| == |a.decisions| == (if a.grant.risk.CRITICAL? then 2 else 1)
      && ApprovedBy(a) <= s.humans - {row.requestedBy}
      && (forall who :: who in ApprovedBy(a) ==> EligibleVoter(a.grant, who, s.humans))
      && Gone(w.vault, row.keysDestroyed)
  {
    hide Inv, EligibleVoter, L.Sound;
    ReachableIsGood(w, s);
    ExecutedQuorum(w, rid, s);
  }

  lemma ExecutedQuorum(w: World, rid: Id, s: Setting)
    requires Good(w, s) && rid in w.rows && w.rows[rid].phase.EXECUTED?
    ensures w.rows[rid].approvalId in w.approvals
    ensures var row, a := w.rows[rid], w.approvals[w.rows[rid].approvalId];
      && |ApprovedBy(a)| == |a.decisions| == (if a.grant.risk.CRITICAL? then 2 else 1)
      && ApprovedBy(a) <= s.humans - {row.requestedBy}
      && forall who :: who in ApprovedBy(a) ==> EligibleVoter(a.grant, who, s.humans)
  {
    hide Inv, L.Sound, ApprovedBy, HumanVoted;
    var a := w.approvals[w.rows[rid].approvalId];
    GrantedQuorum(a, s.humans);
    HumansOnly(a, s.humans);
  }

  lemma TwoOrFewer(who: set<Account>)
    requires |who| <= 2
    ensures |who| == 2 <==> exists p, q :: p in who && q in who && p != q
  {
    if |who| == 2 {
      var p :| p in who;
      var rest := who - {p};
      assert |rest| == 1;
      var q :| q in rest;
      assert q in who;
    }
    if p, q :| p in who && q in who && p != q {
      assert {p, q} <= who;
      Subsets({p, q}, who);
    }
  }

  lemma Subsets(few: set<Account>, many: set<Account>)
    requires few <= many
    ensures |few| <= |many|
    ensures |few| == |many| ==> few == many
  {
    assert many == few + (many - few);
  }

  /** An executed request had two human approvers other than its requester exactly when its approval is CRITICAL. */
  lemma TwoHumansExactly(w: World, rid: Id, s: Setting)
    requires Good(w, s) && rid in w.rows && w.rows[rid].phase.EXECUTED?
    ensures w.rows[rid].approvalId in w.approvals
    ensures TwoHumansApproved(w, rid, s.humans) <==> w.approvals[w.rows[rid].approvalId].grant.risk.CRITICAL?
  {
    hide Good, Inv, ApprovedBy;
    ExecutedQuorum(w, rid, s);
    var a := w.approvals[w.rows[rid].approvalId];
    var all := ApprovedBy(a);
    var who := all * s.humans - {w.rows[rid].requestedBy};
    Subsets(who, all);
    TwoOrFewer(who);
    if a.grant.risk.CRITICAL? {
      assert who == all;
    }
  }

  /**
   A request just opened has a CRITICAL approval exactly when its key was new for the requester, or the approval
   already kept under that key is CRITICAL.
   */
  lemma OpenedCritical(w: World, c: Opening, s: Setting)
    requires Good(w, s) && c.key !in w.requested && OpenRequest(w, c, s).Ok?
    ensures var u := OpenRequest(w, c, s).value;
      var rid := s.requestId(c.target, c.key);
      && rid in u.rows && u.rows[rid].approvalId in u.approvals
      && (u.approvals[u.rows[rid].approvalId].grant.risk.CRITICAL? <==> KeyIsFreeOrCritical(w, c))
  {
    var rid := s.requestId(c.target, c.key);
    hide Inv, ApprovalKey, CriticalRequest, Open;
    CriticalOpens(c.who, rid, c.origin.(key := ApprovalKey(c.key)), s);
  }

  /** What the requester can look up before opening a request. */
  predicate KeyIsFreeOrCritical(w: World, c: Opening) {
    var k := (c.who, ApprovalKey(c.key));
    k in w.byRequest && w.byRequest[k] in w.approvals ==> w.approvals[w.byRequest[k]].grant.risk.CRITICAL?
  }

  lemma CriticalOpens(who: Account, rid: Id, o: Origin, s: Setting)
    ensures CriticalRequest(who, rid, s).requestedBy == who
    ensures var opening := Open(CriticalRequest(who, rid, s), o);
      opening.Ok? ==> opening.value.grant.risk.CRITICAL?
  {
  }

  /** The terms of an approval never change. */
  lemma TermsNeverChange(w: World, actions: seq<Action>, id: Id, s: Setting)
    requires Good(w, s) && id in w.approvals
    ensures id in Steps(w, actions, s).approvals
    ensures var g, h := w.approvals[id].grant, Steps(w, actions, s).approvals[id].grant;
      h == g.(status := h.status, aggregateSeq := h.aggregateSeq)
  {
    StepsKeep(w, actions, s);
    hide Good, Steps;
  }

  /**
   The promise of two humans, from opening to execution: whatever happens in between, an executed request had two
   human approvers other than its requester exactly when, at its opening, its key was free or kept a CRITICAL approval.
   */
  lemma TwoHumansFromTheStart(w: World, c: Opening, actions: seq<Action>, s: Setting)
    requires Good(w, s) && c.key !in w.requested && OpenRequest(w, c, s).Ok?
    ensures var v, rid := Steps(OpenRequest(w, c, s).value, actions, s), s.requestId(c.target, c.key);
      && rid in v.rows && v.rows[rid].approvalId in v.approvals && v.rows[rid].requestedBy == c.who
      && (v.rows[rid].phase.EXECUTED? ==> (TwoHumansApproved(v, rid, s.humans) <==> KeyIsFreeOrCritical(w, c)))
  {
    var u, rid := OpenRequest(w, c, s).value, s.requestId(c.target, c.key);
    OpenedCritical(w, c, s);
    OpenKeeps(w, c, s);
    OpenedFor(w, c, s);
    hide Good, OpenRequest, Steps, KeyIsFreeOrCritical, TwoHumansApproved;
    StepsKeep(u, actions, s);
    var v := Steps(u, actions, s);
    RowKept(u, v, rid, s);
    TermsNeverChange(u, actions, u.rows[rid].approvalId, s);
    if v.rows[rid].phase.EXECUTED? {
      TwoHumansExactly(v, rid, s);
    }
  }

  lemma OpenedFor(w: World, c: Opening, s: Setting)
    requires c.key !in w.requested && OpenRequest(w, c, s).Ok?
    ensures var u, rid := OpenRequest(w, c, s).value, s.requestId(c.target, c.key);
      && rid in u.rows && u.rows[rid].requestedBy == c.who && u.rows[rid].phase.PENDING_APPROVAL?
      && c.key in u.requested && u.requested[c.key] == rid
  {
    hide Attach, CriticalRequest, ApprovalKey;
  }

  /** A request keeps its target, its approval, its requester and its waiting period. */
  lemma RowKept(v: World, w: World, rid: Id, s: Setting)
    requires Good(v, s) && Good(w, s) && Forward(v, w) && rid in v.rows
    ensures v.rows[rid].approvalId in v.approvals && rid in w.rows && w.rows[rid].approvalId in w.approvals
    ensures w.rows[rid].target == v.rows[rid].target && w.rows[rid].approvalId == v.rows[rid].approvalId
    ensures w.rows[rid].requestedBy == v.rows[rid].requestedBy && w.rows[rid].hours == v.rows[rid].hours
  {
    hide Inv, L.Sound;
  }

  /** Asking again under the same key, whoever does and for whatever target, changes nothing and names the request. */
  lemma OpeningReplays(w: World, c: Opening, actions: seq<Action>, again: Opening, s: Setting)
    requires Good(w, s) && c.key !in w.requested && OpenRequest(w, c, s).Ok? && again.key == c.key
    ensures var v := Steps(OpenRequest(w, c, s).value, actions, s);
      && OpenRequest(v, again, s) == Ok(v)
      && again.key in v.requested && v.requested[again.key] == s.requestId(c.target, c.key)
  {
    OpenKeeps(w, c, s);
    OpenedFor(w, c, s);
    StepsKeep(OpenRequest(w, c, s).value, actions, s);
    hide Good, Steps, Attach, CriticalRequest, ApprovalKey;
  }

  /** At most one open request per target. */
  lemma OneOpenRequest(w: World, s: Setting, p: Id, q: Id)
    requires ReachableWorld(w, s) && p in w.rows && q in w.rows && w.rows[p].target == w.rows[q].target
    requires OpenPhase(w.rows[p].phase) && OpenPhase(w.rows[q].phase)
    ensures p == q
  {
    ReachableIsGood(w, s);
  }

  // ---------------------------------------------------------------- the clock over a run

  predicate CommandReadsFrom(cmd: Command, t: Time) {
    match cmd
    case Vote(_, _, now, o) => t <= now <= o.at
    case Withdraw(_, o) => t <= o.at
    case Sweep(now, o, escalation) => t <= now <= o.at <= escalation.at
    case Use(_, _, now, o) => t <= now <= o.at
  }

  function CommandEnds(cmd: Command): Time {
    match cmd
    case Vote(_, _, _, o) => o.at
    case Withdraw(_, o) => o.at
    case Sweep(_, _, escalation) => escalation.at
    case Use(_, _, _, o) => o.at
  }

  /** What an action reads from the clock lies at or after `t` and never goes back. */
  predicate ReadsFrom(a: Action, t: Time) {
    match a
    case DoOpen(c) => t <= c.origin.at
    case DoApprove(c) => t <= c.now <= c.origin.at
    case DoCancel(c) => t <= c.origin.at
    case DoExecute(c) => t <= c.now
    case DirectOpen(_, _, _, o) => t <= o.at
    case DirectCommand(_, cmd) => CommandReadsFrom(cmd, t)
    case NewKey(_, _, _) => true
    case NewMessage(_) => true
    case ImportLedger(_, at) => t <= at
  }

  /** The last reading of an action that starts at `t`. */
  function Ends(a: Action, t: Time): Time {
    match a
    case DoOpen(c) => c.origin.at
    case DoApprove(c) => c.origin.at + c.delay
    case DoCancel(c) => c.origin.at
    case DoExecute(c) => c.now
    case DirectOpen(_, _, _, o) => o.at
    case DirectCommand(_, cmd) => CommandEnds(cmd)
    case NewKey(_, _, _) => t
    case NewMessage(_) => t
    case ImportLedger(_, at) => at
  }

  function ClockAfter(actions: seq<Action>, t: Time): Time {
    if actions == [] then t else Ends(actions[|actions| - 1], ClockAfter(actions[..|actions| - 1], t))
  }

  /** A run under a clock that reads `t` at its start and does not go back. */
  predicate Timed(actions: seq<Action>, t: Time) {
    actions == []
    || (&& Timed(actions[..|actions| - 1], t)
        && ReadsFrom(actions[|actions| - 1], ClockAfter(actions[..|actions| - 1], t)))
  }

  lemma ClockGoesOn(a: Action, t: Time)
    requires ReadsFrom(a, t)
    ensures t <= Ends(a, t)
  {
  }

  lemma {:induction false} TimedThen(a: Action, rest: seq<Action>, t: Time)
    requires ReadsFrom(a, t) && Timed(rest, Ends(a, t))
    ensures Timed([a] + rest, t) && ClockAfter([a] + rest, t) == ClockAfter(rest, Ends(a, t))
    decreases |rest|
  {
    hide ReadsFrom, Ends;
    var all := [a] + rest;
    if rest == [] {
      assert all[..0] == [] && Timed(all[..0], t) && ClockAfter(all[..0], t) == t;
    } else {
      assert all[..|all| - 1] == [a] + rest[..|rest| - 1];
      TimedThen(a, rest[..|rest| - 1], t);
    }
  }

  // ---------------------------------------------------------------- what can still be executed

  /** The people who may vote. */
  ghost function Voters(g: Grant, humans: set<Account>): set<Account> {
    set h | h in humans && EligibleVoter(g, h, humans)
  }

  /** There are as many of them as the approval needs. */
  ghost predicate EnoughVoters(g: Grant, humans: set<Account>) {
    |Voters(g, humans)| >= Needed(g)
  }

  /**
   At time `t`: executed already; or waiting with a grant that still stands; or not decided, neither by the request nor
   by its approval, with enough people to decide it and the approval's validity not over.
   */
  ghost predicate CanExecute(w: World, rid: Id, t: Time, s: Setting)
    requires rid in w.rows && w.rows[rid].approvalId in w.approvals
  {
    var phase, g := w.rows[rid].phase, w.approvals[w.rows[rid].approvalId].grant;
    || phase.EXECUTED?
    || (phase.APPROVED_WAITING? && StillGranted(g.status))
    || (phase.PENDING_APPROVAL? && g.status.Pending? && t < g.expiresAt && EnoughVoters(g, s.humans))
  }

  predicate Executed(w: World, rid: Id) {
    rid in w.rows && w.rows[rid].phase.EXECUTED?
  }

  /**
   Some continuation from time `t` on executes the request; what the policy layer, the event store and the target
   tables answer on the way is free.
   */
  ghost predicate Executable(w: World, rid: Id, t: Time, s: Setting) {
    exists actions :: Timed(actions, t) && Executed(Steps(w, actions, s), rid)
  }

  /**
   A request reaches EXECUTED only from APPROVED_WAITING with a live grant, and that only by a decision on its own
   approval before its validity ends.
   */
  lemma PhaseSources(w: World, a: Action, rid: Id, t: Time, s: Setting)
    requires rid in w.rows && w.rows[rid].approvalId in w.approvals && ReadsFrom(a, t)
    ensures var u := Step(w, a, s);
      var was, g := w.rows[rid].phase, w.approvals[w.rows[rid].approvalId].grant;
      && rid in u.rows
      && (u.rows[rid].phase.EXECUTED? ==> was.EXECUTED? || (was.APPROVED_WAITING? && StillGranted(g.status)))
      && (u.rows[rid].phase.APPROVED_WAITING? ==>
            was.APPROVED_WAITING? || (was.PENDING_APPROVAL? && g.status.Pending? && t < g.expiresAt))
      && (u.rows[rid].phase.PENDING_APPROVAL? ==> was.PENDING_APPROVAL?)
  {
    hide Record, CheckEligibility, Apply, Attach, L.ShredAll, L.Applied, Terminate, NextStatus, HasOpenRequest, Open,
      TargetKeys, CommandReadsFrom;
  }

  /** A grant given with a human vote had its voters among the people who may vote. */
  lemma GrantedHadVoters(a: Aggregate, humans: set<Account>)
    requires Inv(a, humans) && |a.stream| >= 2 && a.stream[1].body.GrantedEvent? && HumanVoted(a, humans)
    ensures EnoughVoters(a.grant, humans)
  {
    GrantedQuorum(a, humans);
    HumansOnly(a, humans);
    hide Inv, ApprovedBy, Needed;
    assert ApprovedBy(a) <= Voters(a.grant, humans);
    Subsets(ApprovedBy(a), Voters(a.grant, humans));
  }

  /** A given grant that no longer stands never stands again; a decided one is never undecided again. */
  lemma GrantsOnlyEnd(a: Aggregate, b: Aggregate, humans: set<Account>)
    requires Inv(a, humans) && Inv(b, humans) && Extends(a, b)
    ensures |a.stream| >= 2 && a.stream[1].body.GrantedEvent? && StillGranted(b.grant.status) ==>
      StillGranted(a.grant.status)
    ensures b.grant.status.Pending? ==> a.grant.status.Pending?
    ensures b.grant.expiresAt == a.grant.expiresAt
    ensures EnoughVoters(b.grant, humans) ==> EnoughVoters(a.grant, humans)
  {
    hide EnoughVoters, EligibleVoter;
    VotersByTerms(a.grant, b.grant, humans);
  }

  lemma VotersByTerms(g: Grant, h: Grant, humans: set<Account>)
    requires h == g.(status := h.status, aggregateSeq := h.aggregateSeq)
    ensures EnoughVoters(h, humans) <==> EnoughVoters(g, humans)
  {
    assert Voters(g, humans) == Voters(h, humans);
  }

  /** What can be executed after a step could be before. */
  lemma CouldExecute(w: World, a: Action, rid: Id, t: Time, s: Setting)
    requires Good(w, s) && rid in w.rows && ReadsFrom(a, t)
    ensures Good(Step(w, a, s), s) && rid in Step(w, a, s).rows
    ensures w.rows[rid].approvalId in w.approvals
    ensures Step(w, a, s).rows[rid].approvalId in Step(w, a, s).approvals
    ensures CanExecute(Step(w, a, s), rid, Ends(a, t), s) ==> CanExecute(w, rid, t, s)
  {
    hide Good, Step, Forward, EnoughVoters, Inv, StillGranted, ReadsFrom, Ends;
    var u := Step(w, a, s);
    StepKeeps(w, a, s);
    RowKept(w, u, rid, s);
    PhaseSources(w, a, rid, t, s);
    ApprovalMoved(w, u, rid, s);
    ClockGoesOn(a, t);
  }

  lemma ApprovalMoved(w: World, u: World, rid: Id, s: Setting)
    requires Good(w, s) && Good(u, s) && Forward(w, u) && rid in w.rows
    ensures rid in u.rows && u.rows[rid].approvalId == w.rows[rid].approvalId
    ensures w.rows[rid].approvalId in w.approvals && w.rows[rid].approvalId in u.approvals
    ensures var g, h := w.approvals[w.rows[rid].approvalId].grant, u.approvals[w.rows[rid].approvalId].grant;
      && (w.rows[rid].phase.APPROVED_WAITING? && StillGranted(h.status) ==> StillGranted(g.status))
      && (h.status.Pending? ==> g.status.Pending?) && h.expiresAt == g.expiresAt
      && (EnoughVoters(h, s.humans) ==> EnoughVoters(g, s.humans))
      && (u.rows[rid].phase.APPROVED_WAITING? ==> EnoughVoters(g, s.humans))
  {
    hide Inv, Extends, EnoughVoters, L.Sound, StillGranted, HumanVoted;
    var a, b := w.approvals[w.rows[rid].approvalId], u.approvals[w.rows[rid].approvalId];
    GrantsOnlyEnd(a, b, s.humans);
    if u.rows[rid].phase.APPROVED_WAITING? {
      GrantedHadVoters(b, s.humans);
    }
  }

  /** A request that cannot be executed at time `t` never will be, whatever happens from then on. */
  lemma {:induction false} StuckForever(w: World, actions: seq<Action>, rid: Id, t: Time, s: Setting)
    requires Good(w, s) && rid in w.rows && w.rows[rid].approvalId in w.approvals && !CanExecute(w, rid, t, s)
    requires Timed(actions, t)
    ensures Good(Steps(w, actions, s), s) && rid in Steps(w, actions, s).rows
    ensures var u := Steps(w, actions, s);
      && u.rows[rid].approvalId in u.approvals && !CanExecute(u, rid, ClockAfter(actions, t), s)
      && !u.rows[rid].phase.EXECUTED?
  {
    hide Step, Good, StillGranted, EnoughVoters, ReadsFrom, Ends;
    if actions == [] {
    } else {
      var rest, last := actions[..|actions| - 1], actions[|actions| - 1];
      StuckForever(w, rest, rid, t, s);
      CouldExecute(Steps(w, rest, s), last, rid, ClockAfter(rest, t), s);
    }
  }

  // ---------------------------------------------------------------- a run that executes

  lemma {:induction false} StepsThen(w: World, a: Action, rest: seq<Action>, s: Setting)
    ensures Steps(w, [a] + rest, s) == Steps(Step(w, a, s), rest, s)
    decreases |rest|
  {
    hide Step;
    var all := [a] + rest;
    if rest == [] {
      assert all[..0] == [] && Steps(w, [], s) == w;
    } else {
      assert all[..|all| - 1] == [a] + rest[..|rest| - 1];
      StepsThen(w, a, rest[..|rest| - 1], s);
    }
  }

  /** Somebody can cast the next vote. */
  lemma NextVoter(a: Aggregate, humans: set<Account>) returns (who: Account)
    requires Inv(a, humans) && a.grant.status.Pending? && EnoughVoters(a.grant, humans)
    ensures MayVote(a, who, humans) && who in humans
  {
    hide Derived, LedgerMatches;
    var voted := DeciderSet(a.decisions);
    DeciderSetSize(a.decisions);
    if Voters(a.grant, humans) <= voted {
      Subsets(Voters(a.grant, humans), voted);
      assert false;
    }
    who :| who in Voters(a.grant, humans) && who !in voted;
  }

  function Voter(who: Account): Approver {
    Approver(Some(who), true, map[], Allowed, true, true)
  }

  function OriginOf(who: Account, t: Time): Origin {
    Origin(0, who, "", t, false)
  }

  /** A vote for the request at time `t`. */
  function VoteFor(rid: Id, who: Account, t: Time): Deciding {
    Deciding(rid, true, Voter(who), true, t, OriginOf(who, t), 0, true)
  }

  lemma VoterIsEligible(a: Aggregate, who: Account, humans: set<Account>)
    requires MayVote(a, who, humans)
    ensures CheckEligibility(a.grant, DeciderSet(a.decisions), Voter(who), humans) == Ok(who)
  {
    hide Inv;
  }

  /** The approval after one more vote by `who`. */
  function Voted(a: Aggregate, who: Account, t: Time): Aggregate
    requires a.stream != []
  {
    if |a.decisions| + 1 < Needed(a.grant) then CastVote(a, who)
    else ClosingVote(a, who, true, OriginOf(who, t))
  }

  lemma VoteDecides(a: Aggregate, who: Account, t: Time, humans: set<Account>)
    requires MayVote(a, who, humans) && t < a.grant.expiresAt
    ensures a.stream != [] && |a.decisions| < Needed(a.grant)
    ensures Decide(a, true, Voter(who), humans, t, OriginOf(who, t)) == Ok(Voted(a, who, t))
    ensures var b := Voted(a, who, t);
      && |b.decisions| == |a.decisions| + 1
      && b.decisions[..|a.decisions|] == a.decisions && b.decisions[|a.decisions|].decidedBy == who
      && (if |b.decisions| < Needed(a.grant) then b.grant == a.grant else b.grant.status.Approved?)
  {
    hide CheckEligibility, DistinctVoters, DeciderSet, EligibleVoter;
    VoterIsEligible(a, who, humans);
    DecideOutcome(a, true, Voter(who), humans, t, OriginOf(who, t));
  }

  /** One vote through the request's own handler, which only people can cast. */
  lemma VoteMoves(w: World, rid: Id, who: Account, t: Time, s: Setting)
    requires Good(w, s) && rid in w.rows && w.rows[rid].phase.PENDING_APPROVAL?
    requires w.rows[rid].approvalId in w.approvals && MayVote(w.approvals[w.rows[rid].approvalId], who, s.humans)
    requires who in s.humans && t < w.approvals[w.rows[rid].approvalId].grant.expiresAt
    ensures var u, id := Step(w, DoApprove(VoteFor(rid, who, t)), s), w.rows[rid].approvalId;
      var a := w.approvals[id];
      && a.stream != [] && u.approvals == w.approvals[id := Voted(a, who, t)] && |a.decisions| < Needed(a.grant)
      && |Voted(a, who, t).decisions| == |a.decisions| + 1
      && rid in u.rows && u.rows[rid].approvalId == id && u.rows[rid].keysDestroyed == w.rows[rid].keysDestroyed
      && (if |a.decisions| + 1 < Needed(a.grant) then u.rows == w.rows && Voted(a, who, t).grant == a.grant
          else u.rows[rid].phase.APPROVED_WAITING? && Voted(a, who, t).grant.status.Approved?)
  {
    hide Good, Inv, Decide, Voted, Needed, EligibleVoter;
    VoteDecides(w.approvals[w.rows[rid].approvalId], who, t, s.humans);
  }

  /** A vote at time `t` reads the clock at `t` only. */
  lemma VoteTimed(rid: Id, who: Account, t: Time)
    ensures ReadsFrom(DoApprove(VoteFor(rid, who, t)), t) && Ends(DoApprove(VoteFor(rid, who, t)), t) == t
  {
  }

  function Later(t: Time, u: Time): Time {
    if t <= u then u else t
  }

  /** Executing at `t`, or as soon as the waiting period is over. */
  function ExecuteFrom(w: World, rid: Id, who: Account, t: Time): Executing
    requires rid in w.rows && w.rows[rid].executableAt.Some?
  {
    Executing(rid, who, Later(t, w.rows[rid].executableAt.value), true, true, true)
  }

  /** Importing the ledger once more at `t`, then executing. */
  function Finishing(w: World, rid: Id, who: Account, t: Time): seq<Action>
    requires rid in w.rows && w.rows[rid].executableAt.Some?
  {
    [ImportLedger(w.vault.ledger, t), DoExecute(ExecuteFrom(w, rid, who, t))]
  }

  lemma FinishingTimed(w: World, rid: Id, who: Account, t: Time)
    requires rid in w.rows && w.rows[rid].executableAt.Some?
    ensures Timed(Finishing(w, rid, who, t), t)
  {
    var first, last := ImportLedger(w.vault.ledger, t), DoExecute(ExecuteFrom(w, rid, who, t));
    var none: seq<Action> := [];
    assert Timed(none, Ends(last, t));
    TimedThen(last, none, t);
    assert [last] + none == [last] && [first] + [last] == [first, last];
    TimedThen(first, [last], t);
  }

  /** Whether the ledger lets the target's keys go: none of them is active although it has a tombstone. */
  predicate KeysMayGo(w: World, t: Target, s: Setting) {
    forall k :: k in TargetKeys(w, t, s) && k in w.vault.keys && w.vault.keys[k].Active? ==>
      !L.Listed(w.vault.ledger, k)
  }

  lemma TargetKeysKnown(w: World, t: Target, s: Setting)
    requires BodyKeysKnown(w)
    ensures forall k :: k in TargetKeys(w, t, s) ==> k in w.vault.keys
    ensures KeysMayGo(w, t, s) <==> L.Shreddable(w.vault, TargetKeys(w, t, s))
  {
    hide L.Listed;
    var refs := TargetKeys(w, t, s);
    forall k | k in refs ensures k in w.vault.keys {
      if k !in KeysFor(w.vault.keys, OwnerOf(t, s)) {
        assert IsBodyKey(w.messages, t.id, k);
        var m :| m in w.messages && HasBodyKey(m, t.id) && m.bodyKey.value == k;
        var i :| 0 <= i < |w.messages| && w.messages[i] == m;
      }
    }
    if !KeysMayGo(w, t, s) {
      var k :| k in refs && k in w.vault.keys && w.vault.keys[k].Active? && L.Listed(w.vault.ledger, k);
      var i :| 0 <= i < |refs| && refs[i] == k;
      assert !L.Shreddable(w.vault, refs);
    }
  }

  lemma ExecutionGuards(w: World, c: Executing, s: Setting)
    requires c.rid in w.rows && w.rows[c.rid].approvalId in w.approvals && !w.rows[c.rid].phase.EXECUTED?
    ensures var row := w.rows[c.rid];
      ExecuteRequest(w, c, s).Ok? <==>
      && row.phase.APPROVED_WAITING? && row.executableAt.Some? && row.executableAt.value <= c.now
      && StillGranted(w.approvals[row.approvalId].grant.status) && c.proof && c.who in s.humans && c.stored
      && (c.targetExists || row.target.kind.ConversationTarget? || row.target.kind.DocumentTarget?)
      && L.ShredAll(w.vault, TargetKeys(w, row.target, s), REASON, s.uuid(c.who), c.now, s.digest).Ok?
    ensures ExecuteRequest(w, c, s).Ok? ==>
      var u := ExecuteRequest(w, c, s).value;
      && Executed(u, c.rid) && u.approvals == w.approvals
      && Ok(u.vault)
         == L.ShredAll(w.vault, TargetKeys(w, w.rows[c.rid].target, s), REASON, s.uuid(c.who), c.now, s.digest)
  {
    hide L.ShredAll, TargetKeys;
  }

  /**
   Execution succeeds exactly when the waiting period is over, the grant still stands, a person re-authenticated,
   the target exists where it must, and no key of the target is active although the ledger lists it.
   */
  lemma ExecutionExactly(w: World, c: Executing, s: Setting)
    requires Good(w, s) && c.rid in w.rows && !w.rows[c.rid].phase.EXECUTED?
    ensures w.rows[c.rid].approvalId in w.approvals
    ensures w.rows[c.rid].phase.APPROVED_WAITING? ==> w.rows[c.rid].executableAt.Some?
    ensures var row := w.rows[c.rid];
      ExecuteRequest(w, c, s).Ok? <==>
      && row.phase.APPROVED_WAITING? && row.executableAt.value <= c.now
      && StillGranted(w.approvals[row.approvalId].grant.status) && c.proof && c.who in s.humans && c.stored
      && (c.targetExists || row.target.kind.ConversationTarget? || row.target.kind.DocumentTarget?)
      && KeysMayGo(w, row.target, s)
  {
    RowFacts(w, c.rid, s);
    hide *;
    var t := w.rows[c.rid].target;
    ExecutionGuards(w, c, s);
    TargetShreds(w, t, s.uuid(c.who), c.now, s);
  }

  lemma TargetShreds(w: World, t: Target, actor: string, now: Time, s: Setting)
    requires BodyKeysKnown(w) && L.Sound(w.vault, s.digest)
    ensures L.ShredAll(w.vault, TargetKeys(w, t, s), REASON, actor, now, s.digest).Ok? <==> KeysMayGo(w, t, s)
  {
    hide *;
    TargetKeysKnown(w, t, s);
    L.ShredAllForgets(w.vault, TargetKeys(w, t, s), REASON, actor, now, s.digest);
  }

  lemma RowFacts(w: World, rid: Id, s: Setting)
    requires Good(w, s) && rid in w.rows
    ensures w.rows[rid].approvalId in w.approvals && BodyKeysKnown(w) && L.Sound(w.vault, s.digest)
    ensures w.rows[rid].phase.APPROVED_WAITING? ==> w.rows[rid].executableAt.Some?
  {
    hide Inv, L.Sound;
  }

  /** After its own ledger is imported once more, the ledger holds no key back. */
  lemma ImportFreesKeys(w: World, at: Time, t: Target, s: Setting)
    requires Good(w, s)
    ensures var u := Step(w, ImportLedger(w.vault.ledger, at), s);
      u.rows == w.rows && u.approvals == w.approvals && KeysMayGo(u, t, s)
  {
    hide Inv, TargetKeys, L.Applied, L.Listed;
    L.ImportForgets(w.vault, w.vault.ledger, at, s.digest);
  }

  lemma FinishingExecutes(w: World, rid: Id, who: Account, t: Time, s: Setting)
    requires Good(w, s) && who in s.humans && rid in w.rows && w.rows[rid].phase.APPROVED_WAITING?
    requires w.rows[rid].approvalId in w.approvals && StillGranted(w.approvals[w.rows[rid].approvalId].grant.status)
    ensures w.rows[rid].executableAt.Some?
    ensures var u := Steps(w, Finishing(w, rid, who, t), s);
      Executed(u, rid) && u.approvals == w.approvals && u.rows[rid].approvalId == w.rows[rid].approvalId
  {
    hide Good, Step, KeysMayGo;
    RowFacts(w, rid, s);
    var first, exec := ImportLedger(w.vault.ledger, t), ExecuteFrom(w, rid, who, t);
    StepKeeps(w, first, s);
    var v := Step(w, first, s);
    ImportFreesKeys(w, t, w.rows[rid].target, s);
    ExecutionExactly(v, exec, s);
    ExecutionGuards(v, exec, s);
    ExecuteIsStep(v, exec, s);
    StepKeeps(v, DoExecute(exec), s);
    RowKept(v, Step(v, DoExecute(exec), s), rid, s);
    StepsThen(w, first, [DoExecute(exec)], s);
    StepsThen(v, DoExecute(exec), [], s);
    assert Finishing(w, rid, who, t) == [first] + [DoExecute(exec)] && [DoExecute(exec)] + [] == [DoExecute(exec)];
  }

  /** A request that waits was approved by somebody, who may also execute it. */
  lemma SomePerson(w: World, rid: Id, s: Setting) returns (who: Account)
    requires Good(w, s) && rid in w.rows && w.rows[rid].phase.APPROVED_WAITING?
    ensures who in s.humans
  {
    hide Inv, L.Sound;
    var a := w.approvals[w.rows[rid].approvalId];
    var i :| 0 <= i < |a.decisions| && a.decisions[i].decidedBy in s.humans;
    who := a.decisions[i].decidedBy;
  }

  lemma ExecuteIsStep(w: World, c: Executing, s: Setting)
    requires ExecuteRequest(w, c, s).Ok?
    ensures Step(w, DoExecute(c), s) == ExecuteRequest(w, c, s).value
  {
    hide ExecuteRequest;
  }

  /** How many votes are missing. */
  function VotesMissing(w: World, rid: Id): int
    requires rid in w.rows && w.rows[rid].approvalId in w.approvals
  {
    Needed(w.approvals[w.rows[rid].approvalId].grant) - |w.approvals[w.rows[rid].approvalId].decisions|
  }

  ghost predicate NotDecided(w: World, rid: Id, t: Time, s: Setting)
    requires rid in w.rows && w.rows[rid].approvalId in w.approvals
  {
    var g := w.approvals[w.rows[rid].approvalId].grant;
    w.rows[rid].phase.PENDING_APPROVAL? && g.status.Pending? && t < g.expiresAt && EnoughVoters(g, s.humans)
  }

  /** A vote at time `t` that brings the request one step closer. */
  lemma SomeVote(w: World, rid: Id, t: Time, s: Setting) returns (vote: Action)
    requires Good(w, s) && rid in w.rows && w.rows[rid].approvalId in w.approvals && NotDecided(w, rid, t, s)
    ensures ReadsFrom(vote, t) && Ends(vote, t) == t
    ensures var u := Step(w, vote, s);
      && Good(u, s) && rid in u.rows && u.rows[rid].approvalId in u.approvals
      && (|| (NotDecided(u, rid, t, s) && 0 <= VotesMissing(u, rid) < VotesMissing(w, rid))
          || (u.rows[rid].phase.APPROVED_WAITING? && StillGranted(u.approvals[u.rows[rid].approvalId].grant.status)))
  {
    InvOf(w, rid, s);
    hide Good, Inv, Step, Voted, Needed, EnoughVoters, MayVote, Forward, ReadsFrom, Ends;
    var who := NextVoter(w.approvals[w.rows[rid].approvalId], s.humans);
    vote := DoApprove(VoteFor(rid, who, t));
    VoteMoves(w, rid, who, t, s);
    VoteTimed(rid, who, t);
    StepKeeps(w, vote, s);
  }

  /** From a request neither decided, expired nor short of voters, votes and then an execution lead to the end. */
  lemma {:induction false} VotesExecute(w: World, rid: Id, t: Time, s: Setting)
    requires Good(w, s) && rid in w.rows && w.rows[rid].approvalId in w.approvals && NotDecided(w, rid, t, s)
    ensures Executable(w, rid, t, s)
    decreases VotesMissing(w, rid)
  {
    hide Good, Step, NotDecided, VotesMissing, StillGranted, Steps, Timed, ReadsFrom, Ends, ClockAfter;
    var vote := SomeVote(w, rid, t, s);
    var u := Step(w, vote, s);
    var rest: seq<Action>;
    if NotDecided(u, rid, t, s) && 0 <= VotesMissing(u, rid) < VotesMissing(w, rid) {
      VotesExecute(u, rid, t, s);
      rest :| Timed(rest, t) && Executed(Steps(u, rest, s), rid);
    } else {
      var who := SomePerson(u, rid, s);
      FinishingExecutes(u, rid, who, t, s);
      FinishingTimed(u, rid, who, t);
      rest := Finishing(u, rid, who, t);
    }
    StepsThen(w, vote, rest, s);
    TimedThen(vote, rest, t);
    assert Executed(Steps(w, [vote] + rest, s), rid);
  }

  lemma InvOf(w: World, rid: Id, s: Setting)
    requires Good(w, s) && rid in w.rows
    ensures w.rows[rid].approvalId in w.approvals && Inv(w.approvals[w.rows[rid].approvalId], s.humans)
  {
    hide Inv;
  }

  /** Exactly which requests some continuation from time `t` on executes. */
  lemma ExecutableExactly(w: World, rid: Id, t: Time, s: Setting)
    requires Good(w, s) && rid in w.rows
    ensures w.rows[rid].approvalId in w.approvals
    ensures Executable(w, rid, t, s) <==> CanExecute(w, rid, t, s)
  {
    InvOf(w, rid, s);
    hide Good, EnoughVoters, Inv, StillGranted;
    if !CanExecute(w, rid, t, s) {
      forall actions | Timed(actions, t) ensures !Executed(Steps(w, actions, s), rid) {
        StuckForever(w, actions, rid, t, s);
      }
    } else if w.rows[rid].phase.EXECUTED? {
      assert Timed([], t) && Executed(Steps(w, [], s), rid);
    } else if w.rows[rid].phase.APPROVED_WAITING? {
      var who := SomePerson(w, rid, s);
      FinishingExecutes(w, rid, who, t, s);
      FinishingTimed(w, rid, who, t);
      assert Executed(Steps(w, Finishing(w, rid, who, t), s), rid);
    } else {
      VotesExecute(w, rid, t, s);
    }
  }

  // ---------------------------------------------------------------- what execution destroys

  /** A key kept for the target, or the key of a message body in a conversation that is the target. */
  ghost predicate KeyOfTarget(w: World, k: L.KeyRef, t: Target, s: Setting) {
    || (k in w.vault.keys && KeptFor(w.vault.keys[k].owner, t, s))
    || (t.kind.ConversationTarget? && k != "" && EncryptsIn(w.messages, t.id, k))
  }

  predicate KeptFor(o: L.Owner, t: Target, s: Setting) {
    o.workspace == s.workspace && o.targetId == t.id && match t.kind
      case AccountTarget => o.targetType == "account"
      case ConversationTarget => o.targetType == "conversation"
      case ArtifactTarget => o.targetType == "artifact"
      case DocumentTarget => o.targetType == "document"
  }

  /** The body of some message of the conversation is encrypted with the key. */
  ghost predicate EncryptsIn(messages: seq<Message>, conversation: string, k: L.KeyRef) {
    exists m :: m in messages && m.conversation == conversation && m.bodyKey == Some(k)
  }

  /**
   Execution destroys exactly the target's keys: every one of them, recording those that were active, and no other
   key and no other line of the ledger changes.
   */
  lemma ExecutionShredsTarget(w: World, c: Executing, s: Setting)
    requires Good(w, s) && c.rid in w.rows && !w.rows[c.rid].phase.EXECUTED? && ExecuteRequest(w, c, s).Ok?
    ensures var u, t := ExecuteRequest(w, c, s).value, w.rows[c.rid].target;
      && u.vault.keys.Keys == w.vault.keys.Keys && w.vault.ledger <= u.vault.ledger
      && (forall k :: k in w.vault.keys ==>
            if KeyOfTarget(w, k, t, s) then u.vault.keys[k].Destroyed? else u.vault.keys[k] == w.vault.keys[k])
      && (forall k :: L.Listed(u.vault.ledger, k) <==>
            L.Listed(w.vault.ledger, k) || (k in w.vault.keys && w.vault.keys[k].Active? && KeyOfTarget(w, k, t, s)))
      && forall k :: KeyOfTarget(w, k, t, s) ==> k in w.vault.keys
  {
    RowFacts(w, c.rid, s);
    hide *;
    var t := w.rows[c.rid].target;
    var refs := TargetKeys(w, t, s);
    ExecutionGuards(w, c, s);
    TargetKeysAre(w, t, s);
    TargetKeysKnown(w, t, s);
    ShredsExactly(w.vault, refs, s.uuid(c.who), c.now, s.digest);
  }

  lemma TargetKeysAre(w: World, t: Target, s: Setting)
    ensures forall k :: k in TargetKeys(w, t, s) <==> KeyOfTarget(w, k, t, s)
  {
    forall k ensures k != "" && EncryptsIn(w.messages, t.id, k) <==> IsBodyKey(w.messages, t.id, k) {
      BodyKeyIs(w.messages, t.id, k);
    }
    forall o: L.Owner ensures o == OwnerOf(t, s) <==> KeptFor(o, t, s) {
    }
    hide IsBodyKey, EncryptsIn, OwnerOf, KeptFor;
  }

  lemma BodyKeyIs(messages: seq<Message>, conversation: string, k: L.KeyRef)
    ensures k != "" && EncryptsIn(messages, conversation, k) <==> IsBodyKey(messages, conversation, k)
  {
    if k != "" && EncryptsIn(messages, conversation, k) {
      var m :| m in messages && m.conversation == conversation && m.bodyKey == Some(k);
      assert HasBodyKey(m, conversation);
    }
  }

  lemma ShredsExactly(v: L.Vault, refs: seq<L.KeyRef>, actor: string, now: Time, digest: L.Digest)
    requires L.Sound(v, digest) && (forall k :: k in refs ==> k in v.keys)
    requires L.ShredAll(v, refs, REASON, actor, now, digest).Ok?
    ensures var u := L.ShredAll(v, refs, REASON, actor, now, digest).value;
      && u.keys.Keys == v.keys.Keys && v.ledger <= u.ledger
      && (forall k :: k in v.keys ==> if k in refs then u.keys[k].Destroyed? else u.keys[k] == v.keys[k])
      && forall k :: L.Listed(u.ledger, k) <==> L.Listed(v.ledger, k) || (k in v.keys && v.keys[k].Active? && k in refs)
  {
    hide L.ShredAll, L.Listed, L.Sound;
    L.ShredAllForgets(v, refs, REASON, actor, now, digest);
  }

  // ---------------------------------------------------------------- where the promises fail

  /** Some run leads to `w` by time `t`, under a clock that does not go back. */
  ghost predicate ReachedBy(w: World, t: Time, s: Setting) {
    exists start, actions :: Timed(actions, start) && ClockAfter(actions, start) <= t && w == Steps(NOTHING, actions, s)
  }

  lemma ReachedIsReachable(w: World, t: Time, s: Setting)
    requires ReachedBy(w, t, s)
    ensures ReachableWorld(w, s) && Good(w, s)
  {
    var start, actions :| Timed(actions, start) && ClockAfter(actions, start) <= t && w == Steps(NOTHING, actions, s);
    ReachableIsGood(w, s);
  }

  lemma NothingReached(t: Time, s: Setting)
    ensures ReachedBy(NOTHING, t, s)
  {
    assert Timed([], t) && ClockAfter([], t) == t && Steps(NOTHING, [], s) == NOTHING;
  }

  lemma ReachOn(w: World, a: Action, t: Time, s: Setting)
    requires ReachedBy(w, t, s) && ReadsFrom(a, t)
    ensures ReachedBy(Step(w, a, s), Ends(a, t), s)
  {
    hide Step;
    var start, actions :| Timed(actions, start) && ClockAfter(actions, start) <= t && w == Steps(NOTHING, actions, s);
    var more := actions + [a];
    assert more[..|more| - 1] == actions;
    LaterReads(a, ClockAfter(actions, start), t);
    assert Timed(more, start) && Steps(NOTHING, more, s) == Step(w, a, s);
  }

  lemma LaterReads(a: Action, t: Time, u: Time)
    requires t <= u && ReadsFrom(a, u)
    ensures ReadsFrom(a, t) && Ends(a, t) <= Ends(a, u)
  {
  }

  lemma {:induction false} ReachAll(w: World, actions: seq<Action>, t: Time, s: Setting)
    requires ReachedBy(w, t, s) && Timed(actions, t)
    ensures ReachedBy(Steps(w, actions, s), ClockAfter(actions, t), s)
  {
    hide Step, ReachedBy, ReadsFrom, Ends;
    if actions == [] {
    } else {
      var rest := actions[..|actions| - 1];
      ReachAll(w, rest, t, s);
      ReachOn(Steps(w, rest, s), actions[|actions| - 1], ClockAfter(rest, t), s);
    }
  }

  /** An approval that needs no human, asked for under the key of the requester's hard-delete request. */
  function LowRequest(requester: Account): Request {
    Request(Subject("task", "t"), LOW, None, requester, None, None, None, false)
  }

  function EarlyOpening(requester: Account): Opening {
    Opening(requester, Target(AccountTarget, "t"), "k", true, true, 24, "b", OriginOf(requester, 0), true)
  }

  lemma LowOpens(requester: Account, key: string)
    ensures var made := Open(LowRequest(requester), OriginOf(requester, 0).(key := key));
      made.Ok? && EarlyApproval(made.value, requester)
  {
  }

  /** Opened at time 0 and valid for a day, with no vote yet. */
  ghost predicate EarlyApproval(a: Aggregate, requester: Account) {
    && a.grant.risk.LOW? && !a.grant.requiresHuman && a.grant.requestedBy == requester && a.grant.implementing.None?
    && a.grant.status.Pending? && a.decisions == [] && a.grant.expiresAt == EXPIRY_HOURS * HOUR
  }

  /** A world with one open request, whose approval was opened earlier under its key and asks for no human. */
  ghost predicate EarlyWorld(w: World, rid: Id, requester: Account, s: Setting) {
    && ReachedBy(w, 0, s) && Good(w, s) && rid in w.rows && w.rows[rid].phase.PENDING_APPROVAL?
    && w.rows[rid].requestedBy == requester && w.rows[rid].approvalId in w.approvals
    && Inv(w.approvals[w.rows[rid].approvalId], s.humans)
    && EarlyApproval(w.approvals[w.rows[rid].approvalId], requester)
  }

  lemma EarlyWorldExists(requester: Account, s: Setting) returns (w: World, rid: Id)
    ensures EarlyWorld(w, rid, requester, s)
  {
    var o := OriginOf(requester, 0);
    var direct := DirectOpen(LowRequest(requester), ApprovalKey("k"), "a", o);
    var c := EarlyOpening(requester);
    rid := s.requestId(c.target, c.key);
    NothingReached(0, s);
    var v := Step(NOTHING, direct, s);
    ReachOn(NOTHING, direct, 0, s);
    LowOpens(requester, ApprovalKey("k"));
    w := Step(v, DoOpen(c), s);
    ReachOn(v, DoOpen(c), 0, s);
    ReachedIsReachable(w, 0, s);
    hide ReachedBy, Good, Inv, ApprovalKey, EarlyApproval;
    EarlierAttached(v, requester, s);
    InvOf(w, rid, s);
  }

  lemma EarlierAttached(v: World, requester: Account, s: Setting)
    requires v.rows == map[] && v.requested == map[]
    requires v.byRequest == map[(requester, ApprovalKey("k")) := "a"] && "a" in v.approvals
    ensures var c := EarlyOpening(requester);
      var rid := s.requestId(c.target, c.key);
      OpenRequest(v, c, s) == Ok(v.(
        rows := map[rid := Row(c.target, requester, "a", PENDING_APPROVAL, 24, None, None, None, [])],
        requested := map["k" := rid]))
  {
    hide ApprovalKey;
    assert !HasOpenRequest(v, EarlyOpening(requester).target);
  }

  /**
   Under every setting, any requester and any human besides are enough: some reachable request of the one is executed
   with the other as its only approver.
   */
  lemma OneHumanIsEnough(requester: Account, human: Account, s: Setting)
    requires human in s.humans && human != requester
    ensures exists w, rid, t :: ReachedBy(w, t, s) && ExecutedWithOnly(w, rid, requester, human)
  {
    var w, rid := EarlyWorldExists(requester, s);
    hide ReachedBy, Good, Inv, MayVote, ApprovedBy;
    MayVoteFirst(w.approvals[w.rows[rid].approvalId], requester, human, s.humans);
    var u, t := LoneVoteExecutes(w, rid, human, 0, s);
    assert ExecutedWithOnly(u, rid, requester, human);
  }

  /** Where one vote is enough, that vote at time `t` and then an execution end the request. */
  lemma LoneVoteExecutes(w: World, rid: Id, who: Account, t: Time, s: Setting) returns (u: World, end: Time)
    requires ReachedBy(w, t, s) && Good(w, s) && rid in w.rows && w.rows[rid].phase.PENDING_APPROVAL?
    requires w.rows[rid].approvalId in w.approvals && who in s.humans
    requires var a := w.approvals[w.rows[rid].approvalId];
      MayVote(a, who, s.humans) && a.decisions == [] && Needed(a.grant) == 1 && t < a.grant.expiresAt
    ensures ReachedBy(u, end, s) && Executed(u, rid) && u.rows[rid].approvalId in u.approvals
    ensures u.rows[rid].requestedBy == w.rows[rid].requestedBy
    ensures ApprovedBy(u.approvals[u.rows[rid].approvalId]) == {who}
  {
    hide ReachedBy, Good, Inv, Step, Voted, Needed, Forward, Finishing, ApprovedBy, MayVote, Steps, Timed, ReadsFrom,
      Ends, ClockAfter;
    var vote := DoApprove(VoteFor(rid, who, t));
    VoteMoves(w, rid, who, t, s);
    VoteTimed(rid, who, t);
    OnlyVoter(w.approvals[w.rows[rid].approvalId], who, t, s.humans);
    ReachOn(w, vote, t, s);
    StepKeeps(w, vote, s);
    var v := Step(w, vote, s);
    FinishingExecutes(v, rid, who, t, s);
    FinishingTimed(v, rid, who, t);
    var actions := Finishing(v, rid, who, t);
    ReachAll(v, actions, t, s);
    u, end := Steps(v, actions, s), ClockAfter(actions, t);
    StepsKeep(v, actions, s);
    RowKept(w, v, rid, s);
    RowKept(v, u, rid, s);
  }

  ghost predicate ExecutedWithOnly(w: World, rid: Id, requester: Account, human: Account) {
    && Executed(w, rid) && w.rows[rid].requestedBy == requester && w.rows[rid].approvalId in w.approvals
    && ApprovedBy(w.approvals[w.rows[rid].approvalId]) == {human}
  }

  lemma MayVoteFirst(a: Aggregate, requester: Account, who: Account, humans: set<Account>)
    requires Inv(a, humans) && EarlyApproval(a, requester) && who != requester
    ensures MayVote(a, who, humans) && Needed(a.grant) == 1
  {
    assert DeciderSet(a.decisions) == {};
    hide Derived, Shape;
  }

  lemma OnlyVoter(a: Aggregate, who: Account, t: Time, humans: set<Account>)
    requires MayVote(a, who, humans) && a.decisions == [] && Needed(a.grant) == 1
    ensures a.stream != [] && ApprovedBy(Voted(a, who, t)) == {who}
  {
    hide Shape, Voting;
  }

  /** It waits for a decision its approval already took or can no longer take. */
  ghost predicate Stranded(w: World, rid: Id, s: Setting) {
    && rid in w.rows && w.rows[rid].phase.PENDING_APPROVAL? && w.rows[rid].approvalId in w.approvals
    && !w.approvals[w.rows[rid].approvalId].grant.status.Pending?
    && forall t :: !Executable(w, rid, t, s)
  }

  /**
   A command on the approval itself that decides or ends it strands its waiting request: any closing vote, approving
   or rejecting, any withdrawal and any expiry, whenever it is accepted.
   */
  lemma DirectDecisionStrands(w: World, rid: Id, cmd: Command, s: Setting)
    requires Good(w, s) && rid in w.rows && w.rows[rid].phase.PENDING_APPROVAL?
    requires w.rows[rid].approvalId in w.approvals
    requires !Apply(w.approvals[w.rows[rid].approvalId], cmd, s.humans).grant.status.Pending?
    ensures Stranded(Step(w, DirectCommand(w.rows[rid].approvalId, cmd), s), rid, s)
  {
    hide Good, Apply, Executable, Forward, EnoughVoters;
    var u := Step(w, DirectCommand(w.rows[rid].approvalId, cmd), s);
    StepKeeps(w, DirectCommand(w.rows[rid].approvalId, cmd), s);
    forall t ensures !Executable(u, rid, t, s) {
      ExecutableExactly(u, rid, t, s);
    }
  }

  /** The same vote through the approval service instead of the request's handler. */
  function DirectFor(who: Account, t: Time): Command {
    Vote(true, Voter(who), t, OriginOf(who, t))
  }

  /** Whatever the setting, some request waits for ever on an approval that was given behind its back. */
  lemma StrandedRequest(s: Setting)
    ensures exists w, rid, t :: ReachedBy(w, t, s) && Stranded(w, rid, s) && ApprovalGiven(w, rid)
  {
    var requester, who := 1, 2;
    var w, rid := EarlyWorldExists(requester, s);
    hide ReachedBy, Good, Inv, MayVote, Stranded, Apply, Step, ReadsFrom, Ends, DirectFor;
    var id := w.rows[rid].approvalId;
    MayVoteFirst(w.approvals[id], requester, who, s.humans);
    DirectVote(w.approvals[id], who, 0, s.humans);
    DirectVoteTimed(who, 0);
    DirectStep(w, id, DirectFor(who, 0), s);
    DirectDecisionStrands(w, rid, DirectFor(who, 0), s);
    ReachOn(w, DirectCommand(id, DirectFor(who, 0)), 0, s);
    assert ApprovalGiven(Step(w, DirectCommand(id, DirectFor(who, 0)), s), rid);
  }

  lemma DirectVoteTimed(who: Account, t: Time)
    ensures forall id :: ReadsFrom(DirectCommand(id, DirectFor(who, t)), t)
  {
  }

  lemma DirectStep(w: World, id: Id, cmd: Command, s: Setting)
    requires id in w.approvals
    ensures Step(w, DirectCommand(id, cmd), s)
      == w.(approvals := w.approvals[id := Apply(w.approvals[id], cmd, s.humans)])
  {
    hide Apply;
  }

  ghost predicate ApprovalGiven(w: World, rid: Id) {
    && rid in w.rows && w.rows[rid].approvalId in w.approvals
    && w.approvals[w.rows[rid].approvalId].grant.status.Approved?
  }

  lemma DirectVote(a: Aggregate, who: Account, t: Time, humans: set<Account>)
    requires MayVote(a, who, humans) && t < a.grant.expiresAt && |a.decisions| + 1 == Needed(a.grant)
    ensures Apply(a, DirectFor(who, t), humans).grant.status.Approved?
  {
    VoteDecides(a, who, t, humans);
    hide Decide, Voted, MayVote;
  }

  /**
   A request may be open, undecided and have voters, and yet be lost: its approval ran out and was not swept yet.
   */
  lemma ExpiredRequest(requester: Account, human: Account, s: Setting)
    requires human in s.humans && human != requester
    ensures exists w, rid, t :: ReachedBy(w, t, s) && ExpiredUnswept(w, rid, t, s) && !Executable(w, rid, t, s)
  {
    var w, rid := EarlyWorldExists(requester, s);
    var t := EXPIRY_HOURS * HOUR;
    EarlyStill(w, 0, t, s);
    var a := w.approvals[w.rows[rid].approvalId];
    hide ReachedBy, Good, Inv, EligibleVoter;
    HumanIsVoter(a.grant, human, s.humans);
    MayVoteFirst(a, requester, human, s.humans);
    ExecutableExactly(w, rid, t, s);
    assert ExpiredUnswept(w, rid, t, s);
  }

  ghost predicate ExpiredUnswept(w: World, rid: Id, t: Time, s: Setting) {
    && rid in w.rows && w.rows[rid].phase.PENDING_APPROVAL? && w.rows[rid].approvalId in w.approvals
    && var g := w.approvals[w.rows[rid].approvalId].grant;
       g.status.Pending? && EnoughVoters(g, s.humans) && g.expiresAt <= t
  }

  lemma EarlyStill(w: World, t: Time, u: Time, s: Setting)
    requires ReachedBy(w, t, s) && t <= u
    ensures ReachedBy(w, u, s)
  {
    var start, actions :| Timed(actions, start) && ClockAfter(actions, start) <= t && w == Steps(NOTHING, actions, s);
    assert ClockAfter(actions, start) <= u;
  }

  lemma HumanIsVoter(g: Grant, human: Account, humans: set<Account>)
    requires human in humans && g.requestedBy != human && g.implementing.None?
    ensures |Voters(g, humans)| >= 1
  {
    assert human in Voters(g, humans);
    Subsets({human}, Voters(g, humans));
  }

  /** The ledger may hold a key back: one created again under a reference it already lists. */
  lemma KeyHeldBack(s: Setting)
    ensures exists w, t, at :: ReachedBy(w, at, s) && !KeysMayGo(w, t, s)
  {
    var t := Target(AccountTarget, "t");
    var f := L.Fields("x", s.workspace, "account", "t", "", "", None, 0);
    var listing := ImportLedger([L.Tombstone(f, None, "", None, None)], 0);
    NothingReached(0, s);
    ReachOn(NOTHING, listing, 0, s);
    var v := Step(NOTHING, listing, s);
    L.ImportForgets(L.Vault(map[], []), listing.entries, 0, s.digest);
    assert listing.entries[0].fields.keyRef == "x";
    assert L.Listed(listing.entries, "x") && L.Listed(v.vault.ledger, "x");
    var created := NewKey("x", "", OwnerOf(t, s));
    ReachOn(v, created, 0, s);
    var w := Step(v, created, s);
    hide ReachedBy, Steps, L.Applied;
    assert "x" in KeysFor(w.vault.keys, OwnerOf(t, s));
    assert !KeysMayGo(w, t, s);
  }
}
