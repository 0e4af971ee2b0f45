/** Choosing an Agent for a task: the eligibility filter, the score and the deterministic order. */
module Routing {
  import opened Common

  type Account = nat

  /** A row of the candidate query, with the answers of its sub-queries and of the policy layer. */
  datatype AgentRow = AgentRow(
    agentId: string, account: Account, secretHandles: bool, capacity: int, concurrentTasks: Option<int>, online: bool,
    active: bool, member: bool, hasCapability: bool, domainMatch: bool, load: nat, allowed: bool)

  datatype Query = Query(inChannel: bool, needsCapability: bool, needsSecretHandles: bool, excluded: set<Account>)

  datatype Candidate = Candidate(agentId: string, account: Account, score: nat, capacity: int, load: nat)

  function EffectiveCapacity(r: AgentRow): int {
    if r.concurrentTasks.Some? && r.concurrentTasks.value > 0 && r.concurrentTasks.value < r.capacity
    then r.concurrentTasks.value else r.capacity
  }

  predicate Eligible(r: AgentRow, q: Query) {
    && r.account !in q.excluded && r.active && r.online
    && (q.inChannel ==> r.member) && (q.needsCapability ==> r.hasCapability)
    && (q.needsSecretHandles ==> r.secretHandles)
    && r.load < EffectiveCapacity(r) && r.allowed
  }

  function CandidateOf(r: AgentRow): Candidate {
    Candidate(r.agentId, r.account, (if r.domainMatch then 2 else 0) + (if r.load == 0 then 1 else 0),
              EffectiveCapacity(r), r.load)
  }

  // ---------------------------------------------------------------- order

  /** Score descending, then agent id ascending. */
  predicate Before(c: Candidate, d: Candidate) {
    c.score > d.score || (c.score == d.score && Less(c.agentId, d.agentId))
  }

  lemma BeforeIsOrder(c: Candidate, d: Candidate, e: Candidate)
    ensures c.agentId != d.agentId ==> Before(c, d) || Before(d, c)
    ensures !(Before(c, d) && Before(d, c)) && !Before(c, c)
    ensures Before(c, d) && Before(d, e) ==> Before(c, e)
  {
    LessIsTotal(c.agentId, d.agentId);
    LessIrreflexive(c.agentId);
    if Less(c.agentId, d.agentId) && Less(d.agentId, e.agentId) {
      LessTransitive(c.agentId, d.agentId, e.agentId);
    }
  }

  ghost predicate Ordered(cs: seq<Candidate>) {
    forall i, j :: 0 <= i < j < |cs| ==> Before(cs[i], cs[j])
  }

  ghost predicate DistinctIds(cs: seq<Candidate>) {
    forall i, j :: 0 <= i < j < |cs| ==> cs[i].agentId != cs[j].agentId
  }

  // ---------------------------------------------------------------- candidates

  ghost predicate OneRowPerAgent(rows: seq<AgentRow>) {
    forall i, j :: 0 <= i < j < |rows| ==> rows[i].agentId != rows[j].agentId
  }

  /** Some eligible row yields this candidate. */
  ghost predicate FromRow(rows: seq<AgentRow>, q: Query, c: Candidate) {
    exists i :: 0 <= i < |rows| && Eligible(rows[i], q) && CandidateOf(rows[i]) == c
  }

  /** Puts a candidate at its place in an ordered list. */
  method Insert(cs: seq<Candidate>, c: Candidate) returns (more: seq<Candidate>)
    requires Ordered(cs) && forall i :: 0 <= i < |cs| ==> cs[i].agentId != c.agentId
    ensures Ordered(more) && |more| == |cs| + 1
    ensures forall d :: d in more <==> d in cs || d == c
  {
    var k := |cs|;
    while k > 0 && Before(c, cs[k - 1])
      invariant 0 <= k <= |cs|
      invariant forall i :: k <= i < |cs| ==> Before(c, cs[i])
    {
      k := k - 1;
    }
    more := cs[..k] + [c] + cs[k..];
    forall i | 0 <= i < k ensures Before(cs[i], c) {
      BeforeIsOrder(cs[k - 1], c, c);
      BeforeIsOrder(cs[i], cs[k - 1], c);
    }
    forall i, j | 0 <= i < j < |more| ensures Before(more[i], more[j]) {
      if i < k && j > k {
        assert more[i] == cs[i] && more[j] == cs[j - 1];
      } else if i >= k && j > k {
        assert more[j] == cs[j - 1] && (i > k ==> more[i] == cs[i - 1]);
      }
    }
    Members(cs, k, c);
  }

  lemma Members(cs: seq<Candidate>, k: nat, c: Candidate)
    requires k <= |cs|
    ensures forall d :: d in cs[..k] + [c] + cs[k..] <==> d in cs || d == c
  {
    assert cs == cs[..k] + cs[k..];
  }

  /** `candidates`: collects the eligible rows in query order, then sorts them. */
  method Candidates(rows: seq<AgentRow>, q: Query) returns (out: seq<Candidate>)
    requires OneRowPerAgent(rows)
    ensures Ordered(out)
    ensures forall c :: c in out <==> FromRow(rows, q, c)
  {
    var found := [];
    for i := 0 to |rows|
      invariant forall c :: c in found <==> FromRow(rows[..i], q, c)
      invariant DistinctIds(found)
      invariant forall k :: 0 <= k < |found| ==> exists j :: 0 <= j < i && rows[j].agentId == found[k].agentId
    {
      FromRowStep(rows, i, q);
      if Eligible(rows[i], q) {
        found := found + [CandidateOf(rows[i])];
      }
    }
    assert rows[..|rows|] == rows;
    out := Sort(found);
  }

  lemma FromRowStep(rows: seq<AgentRow>, i: nat, q: Query)
    requires i < |rows|
    ensures forall c :: FromRow(rows[..i + 1], q, c) <==>
      (FromRow(rows[..i], q, c) || (Eligible(rows[i], q) && c == CandidateOf(rows[i])))
  {
    var before, after := rows[..i], rows[..i + 1];
    assert after[i] == rows[i];
    forall c | FromRow(before, q, c) ensures FromRow(after, q, c) {
      var k :| 0 <= k < |before| && Eligible(before[k], q) && CandidateOf(before[k]) == c;
      assert after[k] == before[k];
    }
    forall c | FromRow(after, q, c) && !(Eligible(rows[i], q) && c == CandidateOf(rows[i]))
      ensures FromRow(before, q, c)
    {
      var k :| 0 <= k < |after| && Eligible(after[k], q) && CandidateOf(after[k]) == c;
      assert before[k] == after[k];
    }
  }

  method Sort(cs: seq<Candidate>) returns (out: seq<Candidate>)
    requires DistinctIds(cs)
    ensures Ordered(out) && |out| == |cs| && forall c :: c in out <==> c in cs
  {
    out := [];
    for i := 0 to |cs|
      invariant Ordered(out) && |out| == i && forall c :: c in out <==> c in cs[..i]
    {
      forall k | 0 <= k < |out| ensures out[k].agentId != cs[i].agentId {
        assert out[k] in cs[..i];
      }
      assert cs[..i + 1] == cs[..i] + [cs[i]];
      out := Insert(out, cs[i]);
    }
    assert cs[..|cs|] == cs;
  }

  /** `select_assignee`: the first of the ordered candidates. */
  method SelectAssignee(rows: seq<AgentRow>, q: Query) returns (chosen: Option<Candidate>)
    requires OneRowPerAgent(rows)
    ensures IsChoice(rows, q, chosen)
  {
    var found := Candidates(rows, q);
    chosen := if found == [] then None else Some(found[0]);
    if found != [] {
      assert found[0] in found;
    }
  }

  // ---------------------------------------------------------------- the choice

  /** The best eligible candidate, or none where nothing is eligible. */
  ghost predicate IsChoice(rows: seq<AgentRow>, q: Query, chosen: Option<Candidate>) {
    if chosen.None? then forall c :: !FromRow(rows, q, c) else IsBest(rows, q, chosen.value)
  }

  ghost predicate IsBest(rows: seq<AgentRow>, q: Query, best: Candidate) {
    FromRow(rows, q, best) && forall c :: FromRow(rows, q, c) && c != best ==> Before(best, c)
  }

  /** There is only one choice. */
  lemma ChoiceIsUnique(rows: seq<AgentRow>, q: Query, a: Option<Candidate>, b: Option<Candidate>)
    requires IsChoice(rows, q, a) && IsChoice(rows, q, b)
    ensures a == b
  {
    hide FromRow;
    if a.Some? && b.Some? && a != b {
      BeforeIsOrder(a.value, b.value, a.value);
    }
  }

  /** The choice depends on which rows there are, not on their order. */
  lemma ChoiceIgnoresOrder(
      rows: seq<AgentRow>, others: seq<AgentRow>, q: Query, a: Option<Candidate>, b: Option<Candidate>)
    requires multiset(rows) == multiset(others) && IsChoice(rows, q, a) && IsChoice(others, q, b)
    ensures a == b
  {
    forall c ensures FromRow(rows, q, c) <==> FromRow(others, q, c) {
      if FromRow(rows, q, c) {
        SameRows(rows, others, q, c);
      }
      if FromRow(others, q, c) {
        SameRows(others, rows, q, c);
      }
    }
    hide FromRow;
    ChoiceIsUnique(rows, q, a, b);
  }

  lemma SameRows(rows: seq<AgentRow>, others: seq<AgentRow>, q: Query, c: Candidate)
    requires multiset(rows) == multiset(others) && FromRow(rows, q, c)
    ensures FromRow(others, q, c)
  {
    var i :| 0 <= i < |rows| && Eligible(rows[i], q) && CandidateOf(rows[i]) == c;
    assert rows[i] in multiset(others);
    assert rows[i] in others;
  }

  // ---------------------------------------------------------------- who is chosen, told from the rows

  /** What a task asks of the Agent that takes it. */
  predicate Fit(r: AgentRow, q: Query) {
    && r.active && r.online && r.allowed && r.account !in q.excluded
    && (r.member || !q.inChannel) && (r.hasCapability || !q.needsCapability)
    && (r.secretHandles || !q.needsSecretHandles)
    && r.load < r.capacity
    && (r.concurrentTasks.Some? && r.concurrentTasks.value > 0 ==> r.load < r.concurrentTasks.value)
  }

  /** A domain match counts first, then having nothing to do, then the id. */
  predicate Preferred(r: AgentRow, o: AgentRow) {
    if r.domainMatch != o.domainMatch then r.domainMatch
    else if (r.load == 0) != (o.load == 0) then r.load == 0
    else Less(r.agentId, o.agentId)
  }

  /** The fit Agent preferred to every other fit one. */
  ghost predicate Leads(rows: seq<AgentRow>, q: Query, i: int) {
    && 0 <= i < |rows| && Fit(rows[i], q)
    && forall j :: 0 <= j < |rows| && j != i && Fit(rows[j], q) ==> Preferred(rows[i], rows[j])
  }

  lemma EligibleIsFit(r: AgentRow, q: Query)
    ensures Eligible(r, q) <==> Fit(r, q)
  {
  }

  lemma PreferredIsBefore(r: AgentRow, o: AgentRow)
    ensures Preferred(r, o) <==> Before(CandidateOf(r), CandidateOf(o))
  {
  }

  lemma NoneFit(rows: seq<AgentRow>, q: Query)
    ensures IsChoice(rows, q, None) <==> forall i :: 0 <= i < |rows| ==> !Fit(rows[i], q)
  {
    hide Eligible, CandidateOf, Fit;
    forall i | 0 <= i < |rows| ensures Fit(rows[i], q) <==> Eligible(rows[i], q) {
      EligibleIsFit(rows[i], q);
    }
    if i :| 0 <= i < |rows| && Fit(rows[i], q) {
      assert FromRow(rows, q, CandidateOf(rows[i]));
    }
  }

  lemma SameId(r: AgentRow, o: AgentRow)
    ensures CandidateOf(r) == CandidateOf(o) ==> r.agentId == o.agentId
  {
  }

  /** A fit row leads exactly when its candidate is the best. */
  lemma LeadsIsBest(rows: seq<AgentRow>, q: Query, i: nat)
    requires OneRowPerAgent(rows) && i < |rows| && Fit(rows[i], q)
    ensures Leads(rows, q, i) <==> IsBest(rows, q, CandidateOf(rows[i]))
  {
    hide Eligible, CandidateOf, Before, Fit, Preferred;
    var c := CandidateOf(rows[i]);
    forall j | 0 <= j < |rows|
      ensures Eligible(rows[j], q) <==> Fit(rows[j], q)
      ensures Preferred(rows[i], rows[j]) <==> Before(c, CandidateOf(rows[j]))
      ensures j != i ==> CandidateOf(rows[j]) != c
    {
      EligibleIsFit(rows[j], q);
      PreferredIsBefore(rows[i], rows[j]);
      SameId(rows[i], rows[j]);
    }
    assert FromRow(rows, q, c);
    forall j | 0 <= j < |rows| && Fit(rows[j], q) ensures FromRow(rows, q, CandidateOf(rows[j])) {
    }
  }

  /** The choice is none exactly when no row is fit, and an Agent exactly when its row is the preferred fit one. */
  lemma ChoiceExactly(rows: seq<AgentRow>, q: Query, chosen: Option<Candidate>)
    requires OneRowPerAgent(rows)
    ensures IsChoice(rows, q, chosen) <==> match chosen
      case None => forall i :: 0 <= i < |rows| ==> !Fit(rows[i], q)
      case Some(c) => exists i :: Leads(rows, q, i) && CandidateOf(rows[i]) == c
  {
    hide Eligible, CandidateOf, Fit, IsBest, Preferred;
    match chosen
    case None => NoneFit(rows, q);
    case Some(c) =>
      if IsBest(rows, q, c) {
        var i := RowOfBest(rows, q, c);
        LeadsIsBest(rows, q, i);
      }
      if i :| Leads(rows, q, i) && CandidateOf(rows[i]) == c {
        LeadsIsBest(rows, q, i);
      }
  }

  lemma RowOfBest(rows: seq<AgentRow>, q: Query, c: Candidate) returns (i: nat)
    requires IsBest(rows, q, c)
    ensures i < |rows| && Fit(rows[i], q) && CandidateOf(rows[i]) == c
  {
    i :| 0 <= i < |rows| && Eligible(rows[i], q) && CandidateOf(rows[i]) == c;
    EligibleIsFit(rows[i], q);
  }

  /** What a candidate tells about its row: the score both preferences, the capacity the tighter of two limits. */
  lemma CandidateTells(r: AgentRow, n: int)
    ensures var c := CandidateOf(r);
      && c.agentId == r.agentId && c.account == r.account && c.load == r.load
      && c.score <= 3 && (c.score >= 2 <==> r.domainMatch) && (c.score % 2 == 1 <==> r.load == 0)
      && (n < c.capacity <==>
            n < r.capacity && (r.concurrentTasks.Some? && r.concurrentTasks.value > 0 ==> n < r.concurrentTasks.value))
  {
  }
}
