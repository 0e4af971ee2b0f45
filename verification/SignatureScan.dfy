/**
 The streaming malware scanner: the file arrives in chunks, a short tail of what was read is carried over,
 and every window (tail plus chunk) is searched for each signature. The verdict is compared with a plain
 substring search of the whole file.
 */
module SignatureScan {
  import opened Common

  newtype byte = b: int | 0 <= b < 256

  type Bytes = seq<byte>

  /** One call of `read`: some bytes (none at the end of the file) or an operating-system error. */
  datatype Read = Data(bytes: Bytes) | Failed(kind: string)

  datatype Report = Clean | Infected(name: string) | Error(kind: string)

  datatype Signature = Signature(name: string, marker: Bytes)

  const CHUNK: nat := 65536

  predicate OccursAt(m: Bytes, s: Bytes, i: nat) {
    i + |m| <= |s| && s[i..i + |m|] == m
  }

  ghost predicate Occurs(m: Bytes, s: Bytes) {
    exists i: nat :: OccursAt(m, s, i)
  }

  ghost predicate Around(s: Bytes, before: Bytes, m: Bytes, after: Bytes) {
    s == before + m + after
  }

  /** A marker occurs exactly where something before it and something after it make up the whole. */
  lemma OccursExactly(m: Bytes, s: Bytes)
    ensures Occurs(m, s) <==> exists before, after :: Around(s, before, m, after)
  {
    if i: nat :| OccursAt(m, s, i) {
      assert Around(s, s[..i], m, s[i + |m|..]);
    }
    if before, after :| Around(s, before, m, after) {
      assert OccursAt(m, s, |before|);
    }
  }

  /** Python's `marker in window`. */
  method Contains(m: Bytes, s: Bytes) returns (found: bool)
    ensures found <==> Occurs(m, s)
  {
    found := false;
    var i := 0;
    while i + |m| <= |s|
      invariant !found && forall j: nat :: j < i ==> !OccursAt(m, s, j)
    {
      if s[i..i + |m|] == m {
        assert OccursAt(m, s, i);
        return true;
      }
      i := i + 1;
    }
  }

  function Concat(chunks: seq<Bytes>): Bytes {
    if chunks == [] then [] else Concat(chunks[..|chunks| - 1]) + chunks[|chunks| - 1]
  }

  /** The chunks delivered before the end of the file or the first error. */
  function Delivered(input: seq<Read>): (chunks: seq<Bytes>)
    ensures |chunks| <= |input|
    ensures forall i :: 0 <= i < |chunks| ==> chunks[i] != [] && input[i] == Data(chunks[i])
    ensures |chunks| < |input| ==> input[|chunks|] == Data([]) || input[|chunks|].Failed?
  {
    if input == [] || input[0].Failed? || input[0].bytes == [] then []
    else [input[0].bytes] + Delivered(input[1..])
  }

  /** The operating-system error that stopped reading, if any. */
  function Failure(input: seq<Read>): Option<string> {
    var n := |Delivered(input)|;
    if n < |input| && input[n].Failed? then Some(input[n].kind) else None
  }

  /** Signature `k` is present in non-empty contents `s`. */
  ghost predicate Hit(signatures: seq<Signature>, s: Bytes, k: nat) {
    k < |signatures| && s != [] && Occurs(signatures[k].marker, s)
  }

  ghost predicate Infects(signatures: seq<Signature>, s: Bytes) {
    exists k: nat :: Hit(signatures, s, k)
  }

  /** Prefix `c` is the shortest infected one and signature `k` the first, in table order, found in it. */
  ghost predicate EarliestHit(signatures: seq<Signature>, chunks: seq<Bytes>, c: nat, k: nat) {
    && 0 < c <= |chunks|
    && !Infects(signatures, Concat(chunks[..c - 1]))
    && Hit(signatures, Concat(chunks[..c]), k)
    && forall j: nat :: j < k ==> !Hit(signatures, Concat(chunks[..c]), j)
  }

  ghost predicate NamesEarliest(signatures: seq<Signature>, chunks: seq<Bytes>, name: string) {
    exists c: nat, k: nat :: EarliestHit(signatures, chunks, c, k) && signatures[k].name == name
  }

  /** Python's `window[-overlap:]`, or nothing when the overlap is 0. */
  function LastBytes(s: Bytes, overlap: int): Bytes {
    if overlap <= 0 then [] else if |s| <= overlap then s else s[|s| - overlap..]
  }

  lemma OccurrenceShifts(m: Bytes, before: Bytes, s: Bytes, i: nat)
    ensures OccursAt(m, before + s, |before| + i) <==> OccursAt(m, s, i)
  {
    if i + |m| <= |s| {
      assert (before + s)[|before| + i..|before| + i + |m|] == s[i..i + |m|];
    }
  }

  lemma OccurrenceInPrefix(m: Bytes, s: Bytes, after: Bytes, i: nat)
    requires i + |m| <= |s|
    ensures OccursAt(m, s + after, i) <==> OccursAt(m, s, i)
  {
    assert (s + after)[i..i + |m|] == s[i..i + |m|];
  }

  /** A marker no longer than the carried tail plus one is new in `s + chunk` only if the window shows it. */
  lemma WindowSeesNewOccurrence(m: Bytes, s: Bytes, chunk: Bytes, overlap: nat)
    requires |m| <= overlap + 1
    ensures Occurs(m, LastBytes(s, overlap) + chunk) ==> Occurs(m, s + chunk)
    ensures Occurs(m, s + chunk) ==> Occurs(m, s) || Occurs(m, LastBytes(s, overlap) + chunk)
  {
    var window := LastBytes(s, overlap) + chunk;
    var before := s[..|s| - |LastBytes(s, overlap)|];
    assert s + chunk == before + window;
    if i: nat :| OccursAt(m, window, i) {
      OccurrenceShifts(m, before, window, i);
    }
    if i: nat :| OccursAt(m, s + chunk, i) {
      if i + |m| <= |s| {
        OccurrenceInPrefix(m, s, chunk, i);
      } else {
        OccurrenceShifts(m, before, window, i - |before|);
      }
    }
  }

  /** Nothing found so far: the window decides, signature by signature, for the longer prefix. */
  lemma WindowDecides(signatures: seq<Signature>, s: Bytes, chunk: Bytes, overlap: int, k: nat)
    requires k < |signatures| && |signatures[k].marker| <= overlap + 1 && chunk != []
    requires !Infects(signatures, s) && (s != [] ==> overlap >= 0)
    ensures Occurs(signatures[k].marker, LastBytes(s, overlap) + chunk) <==> Hit(signatures, s + chunk, k)
  {
    assert !Hit(signatures, s, k);
    if s == [] {
      assert LastBytes(s, overlap) + chunk == s + chunk;
    } else {
      WindowSeesNewOccurrence(signatures[k].marker, s, chunk, overlap);
    }
  }

  lemma LastBytesOfWindow(s: Bytes, chunk: Bytes, overlap: int)
    ensures LastBytes(LastBytes(s, overlap) + chunk, overlap) == LastBytes(s + chunk, overlap)
  {
  }

  lemma ConcatNext(chunks: seq<Bytes>, n: nat)
    requires n < |chunks|
    ensures Concat(chunks[..n + 1]) == Concat(chunks[..n]) + chunks[n]
  {
    assert chunks[..n + 1][..n] == chunks[..n];
  }

  /** Contents only grow, so an infected prefix infects the whole. */
  lemma {:induction false} InfectionPersists(signatures: seq<Signature>, chunks: seq<Bytes>, c: nat)
    requires c <= |chunks| && Infects(signatures, Concat(chunks[..c]))
    ensures Infects(signatures, Concat(chunks))
    decreases |chunks|
  {
    if c == |chunks| {
      assert chunks[..c] == chunks;
    } else {
      var shorter := chunks[..|chunks| - 1];
      assert shorter[..c] == chunks[..c];
      InfectionPersists(signatures, shorter, c);
      var k: nat :| Hit(signatures, Concat(shorter), k);
      var m := signatures[k].marker;
      var i: nat :| OccursAt(m, Concat(shorter), i);
      assert Concat(chunks)[i..i + |m|] == Concat(shorter)[i..i + |m|];
      assert OccursAt(m, Concat(chunks), i);
      assert Hit(signatures, Concat(chunks), k);
    }
  }

  ghost predicate AllFit(signatures: seq<Signature>, overlap: int) {
    signatures != [] && forall k :: 0 <= k < |signatures| ==> |signatures[k].marker| <= overlap + 1
  }

  /** None of the first `n` signatures occurs in the window. */
  ghost predicate NoneOf(signatures: seq<Signature>, n: nat, window: Bytes)
    requires n <= |signatures|
  {
    forall k :: 0 <= k < n ==> !Occurs(signatures[k].marker, window)
  }

  /** The contents after `n` chunks. */
  ghost function After(chunks: seq<Bytes>, n: nat): Bytes
    requires n <= |chunks|
  {
    Concat(chunks[..n])
  }

  /** Nothing was found in the first `n` chunks, and the tail carried on is the right one. */
  ghost predicate Searched(signatures: seq<Signature>, chunks: seq<Bytes>, n: nat, overlap: int, tail: Bytes)
    requires n <= |chunks|
  {
    && !Infects(signatures, After(chunks, n)) && (After(chunks, n) != [] ==> overlap >= 0)
    && tail == LastBytes(After(chunks, n), overlap)
  }

  /** A window without a signature leaves the longer prefix clean. */
  lemma WindowClears(signatures: seq<Signature>, chunks: seq<Bytes>, n: nat, overlap: int, tail: Bytes)
    requires AllFit(signatures, overlap) && n < |chunks| && chunks[n] != []
    requires Searched(signatures, chunks, n, overlap, tail) && NoneOf(signatures, |signatures|, tail + chunks[n])
    ensures Searched(signatures, chunks, n + 1, overlap, LastBytes(tail + chunks[n], overlap))
  {
    hide Occurs, LastBytes, Concat;
    var s, chunk := After(chunks, n), chunks[n];
    ConcatNext(chunks, n);
    if k: nat :| Hit(signatures, s + chunk, k) {
      WindowDecides(signatures, s, chunk, overlap, k);
    }
    EmptyMarkerOccurs(signatures[0].marker, tail + chunk);
    LastBytesOfWindow(s, chunk, overlap);
  }

  /** The first signature a window shows is the first one in the shortest infected prefix. */
  lemma WindowNames(signatures: seq<Signature>, chunks: seq<Bytes>, n: nat, overlap: int, tail: Bytes, hit: nat)
    requires AllFit(signatures, overlap) && n < |chunks| && chunks[n] != [] && hit < |signatures|
    requires Searched(signatures, chunks, n, overlap, tail)
    requires Occurs(signatures[hit].marker, tail + chunks[n]) && NoneOf(signatures, hit, tail + chunks[n])
    ensures NamesEarliest(signatures, chunks, signatures[hit].name) && Infects(signatures, Concat(chunks))
  {
    hide Occurs, LastBytes, Concat, Infects;
    ConcatNext(chunks, n);
    forall k | 0 <= k <= hit
      ensures Hit(signatures, Concat(chunks[..n + 1]), k) <==> Occurs(signatures[k].marker, tail + chunks[n])
    {
      WindowDecides(signatures, After(chunks, n), chunks[n], overlap, k);
    }
    assert EarliestHit(signatures, chunks, n + 1, hit);
    HitInfects(signatures, Concat(chunks[..n + 1]), hit);
    InfectionPersists(signatures, chunks, n + 1);
  }

  lemma HitInfects(signatures: seq<Signature>, s: Bytes, k: nat)
    requires Hit(signatures, s, k)
    ensures Infects(signatures, s)
  {
  }

  lemma EmptyMarkerOccurs(m: Bytes, window: Bytes)
    ensures m == [] ==> Occurs(m, window)
  {
    assert m == [] ==> OccursAt(m, window, 0);
  }

  lemma NothingRead(signatures: seq<Signature>, chunks: seq<Bytes>, overlap: int)
    ensures Searched(signatures, chunks, 0, overlap, [])
  {
  }

  lemma AllSearched(signatures: seq<Signature>, chunks: seq<Bytes>, overlap: int, tail: Bytes)
    requires Searched(signatures, chunks, |chunks|, overlap, tail)
    ensures !Infects(signatures, Concat(chunks))
  {
    assert chunks[..|chunks|] == chunks;
  }

  class SignatureScanner {
    const signatures: seq<Signature>
    const overlap: int

    /** An empty table falls back on the built-in one. */
    constructor (custom: seq<Signature>, builtin: seq<Signature>)
      requires builtin != []
      ensures signatures == if custom == [] then builtin else custom
      ensures Sized()
    {
      signatures := if custom == [] then builtin else custom;
      overlap := LongestMarker(if custom == [] then builtin else custom) - 1;
    }

    ghost predicate Sized() {
      AllFit(signatures, overlap)
    }

    /** The first signature, in table order, found in the window. */
    method Match(window: Bytes) returns (hit: Option<nat>)
      ensures hit.None? ==> NoneOf(signatures, |signatures|, window)
      ensures hit.Some? ==> hit.value < |signatures| && Occurs(signatures[hit.value].marker, window)
      ensures hit.Some? ==> NoneOf(signatures, hit.value, window)
    {
      for k := 0 to |signatures|
        invariant forall j :: 0 <= j < k ==> !Occurs(signatures[j].marker, window)
      {
        var found := Contains(signatures[k].marker, window);
        if found {
          return Some(k);
        }
      }
      hit := None;
    }

    method Report(input: seq<Read>) returns (report: Report)
      requires Sized()
      ensures report.Infected? <==> Infects(signatures, Concat(Delivered(input)))
      ensures report.Infected? ==> NamesEarliest(signatures, Delivered(input), report.name)
      ensures report.Error? <==> !report.Infected? && Failure(input).Some?
      ensures report.Error? ==> Failure(input) == Some(report.kind)
    {
      ghost var chunks := Delivered(input);
      var tail: Bytes := [];
      var n := 0;
      NothingRead(signatures, chunks, overlap);
      hide LastBytes, Concat, Delivered, Occurs, Infects, NamesEarliest, NoneOf, Searched, AllFit;
      while n < |input| && !(input[n].Data? && input[n].bytes == [])
        invariant n <= |chunks| && Searched(signatures, chunks, n, overlap, tail)
      {
        if input[n].Failed? {
          AllSearched(signatures, chunks, overlap, tail);
          return Error(input[n].kind);
        }
        var window := tail + input[n].bytes;
        var hit := Match(window);
        if hit.Some? {
          WindowNames(signatures, chunks, n, overlap, tail, hit.value);
          return Infected(signatures[hit.value].name);
        }
        WindowClears(signatures, chunks, n, overlap, tail);
        tail := LastBytes(window, overlap);
        n := n + 1;
      }
      AllSearched(signatures, chunks, overlap, tail);
      report := Clean;
    }

    /** Reading a whole file in pieces of CHUNK bytes is a substring search of the file. */
    method Scan(file: Bytes) returns (report: Report)
      requires Sized()
      ensures report.Infected? <==> Infects(signatures, file)
      ensures !report.Error?
    {
      CutDeliversAll(file, CHUNK);
      report := Report(Cut(file, CHUNK));
    }
  }

  /** The results of reading a file `size` bytes at a time. */
  function Cut(file: Bytes, size: nat): seq<Read>
    requires size > 0
  {
    if file == [] then [Data([])]
    else if |file| <= size then [Data(file), Data([])]
    else [Data(file[..size])] + Cut(file[size..], size)
  }

  lemma {:induction false} ConcatFront(first: Bytes, chunks: seq<Bytes>)
    ensures Concat([first] + chunks) == first + Concat(chunks)
  {
    if chunks == [] {
      assert ([first] + chunks)[..0] == [];
    } else {
      var all := [first] + chunks;
      assert all[..|all| - 1] == [first] + chunks[..|chunks| - 1];
      ConcatFront(first, chunks[..|chunks| - 1]);
    }
  }

  lemma DeliveredFront(first: Bytes, rest: seq<Read>)
    requires first != []
    ensures Delivered([Data(first)] + rest) == [first] + Delivered(rest)
    ensures Failure([Data(first)] + rest) == Failure(rest)
  {
    var input := [Data(first)] + rest;
    assert input[1..] == rest;
    assert Delivered(input) == [first] + Delivered(rest);
  }

  lemma {:induction false} CutDeliversAll(file: Bytes, size: nat)
    requires size > 0
    ensures Concat(Delivered(Cut(file, size))) == file && Failure(Cut(file, size)).None?
  {
    if file == [] {
    } else {
      var first := if |file| <= size then file else file[..size];
      var rest := if |file| <= size then [Data([])] else Cut(file[size..], size);
      var remaining := file[|first|..];
      assert file == first + remaining;
      assert Cut(file, size) == [Data(first)] + rest;
      DeliveredFront(first, rest);
      assert Concat(Delivered(rest)) == remaining && Failure(rest).None? by {
        if |file| > size {
          CutDeliversAll(file[size..], size);
        }
      }
      ConcatFront(first, Delivered(rest));
    }
  }

  function LongestMarker(signatures: seq<Signature>): (n: nat)
    ensures forall k :: 0 <= k < |signatures| ==> |signatures[k].marker| <= n
    ensures signatures != [] ==> exists k :: 0 <= k < |signatures| && |signatures[k].marker| == n
  {
    if signatures == [] then 0
    else
      var rest := LongestMarker(signatures[1..]);
      if |signatures[0].marker| >= rest then |signatures[0].marker| else rest
  }
}
