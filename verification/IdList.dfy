/** The identifiers of baseline documents: lists and ranges such as `P1-01, V-P2-20~22`, with ASCII digits and words. */
module IdList {
  import opened Common
  import opened Markdown

  predicate IsDigit(c: char) {
    '0' <= c <= '9'
  }

  predicate IsWord(c: char) {
    'A' <= c <= 'Z' || 'a' <= c <= 'z' || IsDigit(c) || c == '_'
  }

  function DigitValue(c: char): nat
    requires IsDigit(c)
  {
    c as int - '0' as int
  }

  function DigitChar(n: nat): (c: char)
    requires n <= 9
    ensures IsDigit(c) && DigitValue(c) == n
  {
    ('0' as int + n) as char
  }

  /** `\b`. */
  predicate Boundary(s: string, i: nat)
    requires i <= |s|
  {
    (i > 0 && IsWord(s[i - 1])) != (i < |s| && IsWord(s[i]))
  }

  /** The length of `V-P\d-` or `P\d-` at position `i`, or 0. */
  function PrefixLength(s: string, i: nat): (k: nat)
    requires i <= |s|
    ensures i + k <= |s|
  {
    if i + 5 <= |s| && s[i] == 'V' && s[i + 1] == '-' && s[i + 2] == 'P' && IsDigit(s[i + 3]) && s[i + 4] == '-' then 5
    else if i + 3 <= |s| && s[i] == 'P' && IsDigit(s[i + 1]) && s[i + 2] == '-' then 3
    else 0
  }

  predicate TwoDigitsAt(s: string, i: nat) {
    i + 2 <= |s| && IsDigit(s[i]) && IsDigit(s[i + 1])
  }

  function NumberAt(s: string, i: nat): (n: nat)
    requires TwoDigitsAt(s, i)
    ensures n <= 99
  {
    10 * DigitValue(s[i]) + DigitValue(s[i + 1])
  }

  function TwoDigits(n: nat): string
    requires n <= 99
  {
    [DigitChar(n / 10), DigitChar(n % 10)]
  }

  datatype Match = Match(prefix: string, first: nat, last: nat, next: nat)

  /** The match of the identifier pattern at position `i`. */
  function MatchAt(s: string, i: nat): (m: Option<Match>)
    requires i <= |s|
    ensures m.Some? ==> i < m.value.next <= |s| && m.value.first <= 99 && m.value.last <= 99
  {
    var k := PrefixLength(s, i);
    if !Boundary(s, i) || k == 0 || !TwoDigitsAt(s, i + k) then None
    else
      var j := i + k + 2;
      if j < |s| && s[j] == '~' && TwoDigitsAt(s, j + 1) && Boundary(s, j + 3) then
        Some(Match(s[i..i + k], NumberAt(s, i + k), NumberAt(s, j + 1), j + 3))
      else if Boundary(s, j) then Some(Match(s[i..i + k], NumberAt(s, i + k), NumberAt(s, i + k), j))
      else None
  }

  /** `prefix` with each number from `first` to `last`. */
  function Range(prefix: string, first: nat, last: nat): seq<string>
    requires last <= 99
    decreases last + 1 - first
  {
    if first > last then [] else [prefix + TwoDigits(first)] + Range(prefix, first + 1, last)
  }

  /** The identifiers found from position `i` on. */
  function Expand(s: string, i: nat): seq<string>
    requires i <= |s|
    decreases |s| - i
  {
    if i == |s| then []
    else
      var m := MatchAt(s, i);
      if m.None? then Expand(s, i + 1)
      else Range(m.value.prefix, m.value.first, m.value.last) + Expand(s, m.value.next)
  }

  /** `expand_ids`. */
  method ExpandIds(cell: string) returns (ids: seq<string>)
    ensures ids == Expand(cell, 0)
  {
    hide MatchAt, Range;
    ids := [];
    var i := 0;
    while i < |cell|
      invariant 0 <= i <= |cell|
      invariant ids + Expand(cell, i) == Expand(cell, 0)
    {
      var found := MatchAt(cell, i);
      if found.None? {
        i := i + 1;
      } else {
        var m := found.value;
        var range := ExpandRange(m);
        assert (ids + range) + Expand(cell, m.next) == ids + (range + Expand(cell, m.next));
        ids, i := ids + range, m.next;
      }
    }
  }

  /** The inner loop over one range. */
  method ExpandRange(m: Match) returns (ids: seq<string>)
    requires m.first <= 99 && m.last <= 99
    ensures ids == Range(m.prefix, m.first, m.last)
  {
    ids := [];
    var n := m.first;
    while n <= m.last
      invariant ids + Range(m.prefix, n, m.last) == Range(m.prefix, m.first, m.last)
      decreases m.last + 1 - n
    {
      var id := m.prefix + TwoDigits(n);
      assert (ids + [id]) + Range(m.prefix, n + 1, m.last) == ids + ([id] + Range(m.prefix, n + 1, m.last));
      ids, n := ids + [id], n + 1;
    }
  }

  // ---------------------------------------------------------------- identifiers and lists

  /** `P3-07` or `V-P3-07`. */
  predicate IsId(x: string) {
    var k := PrefixLength(x, 0);
    k > 0 && |x| == k + 2 && TwoDigitsAt(x, k)
  }

  const COMMA := [',', ' ']

  lemma IdParts(x: string)
    requires IsId(x)
    ensures var k := PrefixLength(x, 0);
      x == x[..k] + TwoDigits(NumberAt(x, k)) && (forall i :: 0 <= i < |x| ==> IsWord(x[i]) || x[i] == '-')
      && IsWord(x[0]) && IsDigit(x[|x| - 1])
  {
    var k := PrefixLength(x, 0);
    var n := NumberAt(x, k);
    assert DigitChar(n / 10) == x[k] && DigitChar(n % 10) == x[k + 1];
  }

  /** An identifier between non-word characters is matched whole. */
  lemma MatchesId(s: string, i: nat, x: string)
    requires IsId(x) && i + |x| <= |s| && s[i..i + |x|] == x
    requires i == 0 || !IsWord(s[i - 1])
    requires i + |x| == |s| || s[i + |x|] == ','
    ensures var k := PrefixLength(x, 0);
      MatchAt(s, i) == Some(Match(x[..k], NumberAt(x, k), NumberAt(x, k), i + |x|))
  {
    IdParts(x);
    assert forall j :: 0 <= j < |x| ==> s[i + j] == x[j];
    var k := PrefixLength(x, 0);
    assert PrefixLength(s, i) == k;
    assert s[i..i + k] == x[..k];
  }

  lemma NoMatch(s: string, i: nat)
    requires i < |s| && s[i] != 'V' && s[i] != 'P'
    ensures Expand(s, i) == Expand(s, i + 1)
  {
  }

  /** From position `i` on the text is the printed list. */
  ghost predicate ListAt(s: string, i: nat, ids: seq<string>) {
    i <= |s| && s[i..] == Join(ids, COMMA)
  }

  /** At position `i` stands `x`, up to a comma or the end. */
  ghost predicate WordAt(s: string, i: nat, x: string) {
    var j := i + |x|;
    j <= |s| && s[i..j] == x && (j == |s| || s[j] == ',')
  }

  ghost predicate SeparatorAt(s: string, j: nat) {
    j + 2 <= |s| && s[j] == ',' && s[j + 1] == ' '
  }

  /** Where the parts of a printed list are. */
  lemma ListParts(s: string, i: nat, ids: seq<string>)
    requires ListAt(s, i, ids) && ids != []
    ensures var j := i + |ids[0]|;
      && WordAt(s, i, ids[0])
      && if |ids| == 1 then j == |s| else SeparatorAt(s, j) && ListAt(s, j + 2, ids[1..])
  {
    var x, j := ids[0], i + |ids[0]|;
    if |ids| == 1 {
      assert s[i..j] == x;
    } else {
      var t := s[i..];
      assert t == x + COMMA + Join(ids[1..], COMMA);
      assert t[..|x|] == x && s[i..j] == t[..|x|];
      assert s[j] == t[|x|] && s[j + 1] == t[|x| + 1] && s[j + 2..] == t[|x| + 2..];
    }
  }

  ghost predicate AreIds(ids: seq<string>) {
    forall k :: 0 <= k < |ids| ==> IsId(ids[k])
  }

  lemma FirstAndRest(ids: seq<string>)
    requires ids != [] && AreIds(ids)
    ensures IsId(ids[0]) && AreIds(ids[1..]) && ids == [ids[0]] + ids[1..]
    ensures |ids| == 1 <==> ids[1..] == []
  {
    hide IsId;
  }

  /** No word runs into position `i`. */
  ghost predicate StartsAt(s: string, i: nat) {
    i <= |s| && (i == 0 || !IsWord(s[i - 1]))
  }

  /** What stands for the identifiers from position `i` on gives them back. */
  lemma {:induction false} ListExpands(s: string, i: nat, ids: seq<string>)
    requires ListAt(s, i, ids) && AreIds(ids) && StartsAt(s, i)
    ensures Expand(s, i) == ids
    decreases |ids|
  {
    if ids == [] {
    } else {
      ListParts(s, i, ids);
      FirstAndRest(ids);
      hide *;
      var rest, j := ids[1..], i + |ids[0]|;
      IdExpands(s, i, ids[0]);
      if rest == [] {
        NothingLeft(s);
      } else {
        SeparatorPassed(s, j);
        ListExpands(s, j + 2, rest);
      }
    }
  }

  /** An identifier at position `i` stands for itself. */
  lemma IdExpands(s: string, i: nat, x: string)
    requires IsId(x) && WordAt(s, i, x) && StartsAt(s, i)
    ensures i + |x| <= |s| && Expand(s, i) == [x] + Expand(s, i + |x|)
  {
    hide MatchAt, PrefixLength, IsId, Range;
    NotEmpty(x);
    MatchesId(s, i, x);
    OneInRange(x);
  }

  lemma SeparatorPassed(s: string, j: nat)
    requires SeparatorAt(s, j)
    ensures j + 2 <= |s| && Expand(s, j) == Expand(s, j + 2) && StartsAt(s, j + 2)
  {
    NoMatch(s, j);
    NoMatch(s, j + 1);
    hide Expand;
  }

  lemma NothingLeft(s: string)
    ensures Expand(s, |s|) == []
  {
  }

  lemma NotEmpty(x: string)
    requires IsId(x)
    ensures x != []
  {
  }

  lemma OneInRange(x: string)
    requires IsId(x)
    ensures var k := PrefixLength(x, 0);
      Range(x[..k], NumberAt(x, k), NumberAt(x, k)) == [x]
  {
    IdParts(x);
    var k := PrefixLength(x, 0);
    assert Range(x[..k], NumberAt(x, k) + 1, NumberAt(x, k)) == [];
  }

  lemma {:induction false} RangeGivesIds(prefix: string, first: nat, last: nat)
    requires last <= 99 && PrefixLength(prefix, 0) == |prefix| > 0
    ensures forall x :: x in Range(prefix, first, last) ==> IsId(x)
    decreases last + 1 - first
  {
    if first > last {
    } else {
      RangeGivesIds(prefix, first + 1, last);
      var x := prefix + TwoDigits(first);
      assert PrefixLength(x, 0) == |prefix|;
    }
  }

  lemma {:induction false} ExpandGivesIds(s: string, i: nat)
    requires i <= |s|
    ensures forall x :: x in Expand(s, i) ==> IsId(x)
    decreases |s| - i
  {
    if i >= |s| {
    } else {
      var m := MatchAt(s, i);
      if m.None? {
        ExpandGivesIds(s, i + 1);
      } else {
        var k := PrefixLength(s, i);
        assert PrefixLength(s[i..i + k], 0) == k;
        RangeGivesIds(m.value.prefix, m.value.first, m.value.last);
        ExpandGivesIds(s, m.value.next);
      }
    }
  }

  /** Expanding a comma-separated list gives the list back exactly when every element is an identifier. */
  lemma ListRoundTrip(ids: seq<string>)
    ensures Expand(Join(ids, COMMA), 0) == ids <==> forall x :: x in ids ==> IsId(x)
  {
    var s := Join(ids, COMMA);
    ExpandGivesIds(s, 0);
    if forall x :: x in ids ==> IsId(x) {
      assert forall k :: 0 <= k < |ids| ==> ids[k] in ids;
      assert s[0..] == s;
      ListExpands(s, 0, ids);
    }
  }

  /** A range `P1-08~11` stands for each identifier from its first to its last number, in order. */
  lemma RangeExpands(prefix: string, a: nat, b: nat)
    requires PrefixLength(prefix, 0) == |prefix| > 0 && a <= 99 && b <= 99
    ensures Expand(prefix + TwoDigits(a) + ['~'] + TwoDigits(b), 0) == Range(prefix, a, b)
  {
    var k := |prefix|;
    var s := prefix + TwoDigits(a) + ['~'] + TwoDigits(b);
    assert s[..k] == prefix && s[k] == TwoDigits(a)[0] && s[k + 1] == TwoDigits(a)[1] && s[k + 2] == '~';
    assert s[k + 3] == TwoDigits(b)[0] && s[k + 4] == TwoDigits(b)[1] && |s| == k + 5;
    assert PrefixLength(s, 0) == k;
    assert NumberAt(s, k) == a && NumberAt(s, k + 3) == b;
    assert MatchAt(s, 0) == Some(Match(prefix, a, b, |s|));
    assert Range(prefix, a, b) + [] == Range(prefix, a, b);
  }

  lemma {:induction false} RangeIs(prefix: string, first: nat, last: nat)
    requires last <= 99
    ensures |Range(prefix, first, last)| == if first <= last then last + 1 - first else 0
    ensures forall i :: 0 <= i < |Range(prefix, first, last)| ==>
      first + i <= 99 && Range(prefix, first, last)[i] == prefix + TwoDigits(first + i)
    decreases last + 1 - first
  {
    hide TwoDigits;
    if first > last {
    } else {
      RangeIs(prefix, first + 1, last);
    }
  }

  // ---------------------------------------------------------------- what is no identifier

  predicate Digits(s: string) {
    forall i :: 0 <= i < |s| ==> '0' <= s[i] <= '9'
  }

  /** Three digits in the two shapes an identifier has. */
  predicate ShapedAs(x: string, d: char, e: char, f: char) {
    Digits([d, e, f]) && (x == ['P', d, '-', e, f] || x == ['V', '-', 'P', d, '-', e, f])
  }

  lemma IdShape(x: string)
    ensures IsId(x) <==> exists d, e, f :: ShapedAs(x, d, e, f)
  {
    if IsId(x) {
      var k := PrefixLength(x, 0);
      if k == 3 {
        assert x == ['P', x[1], '-', x[3], x[4]];
        assert ShapedAs(x, x[1], x[3], x[4]);
      } else {
        assert x == ['V', '-', 'P', x[3], '-', x[5], x[6]];
        assert ShapedAs(x, x[3], x[5], x[6]);
      }
    }
    if d, e, f :| ShapedAs(x, d, e, f) {
      assert IsDigit([d, e, f][0]) && IsDigit([d, e, f][1]) && IsDigit([d, e, f][2]);
    }
  }

  /** Text of letters, digits and underscores, at least one of them. */
  predicate Wordy(w: string) {
    w != [] && forall i :: 0 <= i < |w| ==> IsWord(w[i])
  }

  lemma {:induction false} NothingFound(s: string, i: nat)
    requires i <= |s| && forall j :: i <= j < |s| ==> MatchAt(s, j).None?
    ensures Expand(s, i) == []
    decreases |s| - i
  {
    hide MatchAt;
    if i == |s| {
    } else {
      NothingFound(s, i + 1);
    }
  }

  /** `P3-07`, the shape without the leading `V-`. */
  predicate IsPackage(x: string) {
    IsId(x) && x[0] == 'P'
  }

  /** An identifier that a word runs into is not found. */
  lemma NotAfterWord(w: string, x: string)
    requires Wordy(w) && IsPackage(x)
    ensures Expand(w + x, 0) == []
  {
    var s, n := w + x, |w|;
    assert s[n] == 'P' && s[n + 1] == x[1] && s[n + 2] == '-' && s[n + 3] == x[3] && s[n + 4] == x[4];
    forall j | 0 <= j < |s| ensures MatchAt(s, j).None? {
      if j < n {
        NoPrefixInWord(w, x, j);
      }
    }
    NothingFound(s, 0);
  }

  lemma NoPrefixInWord(w: string, x: string, j: nat)
    requires Wordy(w) && x != [] && x[0] == 'P' && j < |w|
    ensures PrefixLength(w + x, j) == 0
  {
    var s, n := w + x, |w|;
    assert s[n] == 'P' && IsWord(s[j]) && s[j] == w[j];
    if j + 1 < n {
      assert s[j + 1] == w[j + 1] && IsWord(w[j + 1]);
    }
    if j + 2 < n {
      assert s[j + 2] == w[j + 2] && IsWord(w[j + 2]);
    }
  }

  /** Nor is one that runs into a word. */
  lemma NotBeforeWord(x: string, w: string)
    requires IsPackage(x) && Wordy(w)
    ensures Expand(x + w, 0) == []
  {
    var s := x + w;
    IdParts(x);
    assert forall i :: 0 <= i < 5 ==> s[i] == x[i];
    assert forall i :: 5 <= i < |s| ==> s[i] == w[i - 5] && IsWord(s[i]);
    forall j | 0 <= j < |s| ensures MatchAt(s, j).None? {
    }
    NothingFound(s, 0);
  }

  /** Where a word runs into the end of a range, only the first identifier counts. */
  lemma RangeBeforeWord(x: string, b: nat, w: string)
    requires IsPackage(x) && b <= 99 && Wordy(w)
    ensures Expand(x + ['~'] + TwoDigits(b) + w, 0) == [x]
  {
    var s := x + ['~'] + TwoDigits(b) + w;
    IdParts(x);
    assert forall i :: 0 <= i < 5 ==> s[i] == x[i];
    assert s[5] == '~' && IsDigit(s[6]) && IsDigit(s[7]) && s[..3] == x[..3];
    assert forall i :: 8 <= i < |s| ==> s[i] == w[i - 8] && IsWord(s[i]);
    forall j | 5 <= j < |s| ensures MatchAt(s, j).None? {
    }
    NothingFound(s, 5);
    OneInRange(x);
    assert MatchAt(s, 0) == Some(Match(x[..3], NumberAt(x, 3), NumberAt(x, 3), 5));
    hide MatchAt, Range;
    assert [x] + [] == [x];
  }
}
