/**
 The key-tombstone ledger: a hash chain of destroyed keys, its export and verification, crypto-shredding, and
 the import that makes a restored database forget the destroyed keys again.
 The row digest is a parameter; where a result needs it, it is assumed to be free of collisions.
 */
module TombstoneLedger {
  import opened Common

  type Hash = string
  type KeyRef = string
  type Time = int

  /** The hashed columns of one row. */
  datatype Fields = Fields(
    keyRef: KeyRef, workspace: string, targetType: string, targetId: string, reason: string, requestedBy: string,
    auditEvent: Option<string>, destroyedAt: Time)

  datatype Tombstone = Tombstone(
    fields: Fields, previous: Option<Hash>, content: Hash, signature: Option<string>, ledgerKey: Option<string>)

  /** `chain_hash`: the digest of a row's columns together with the previous row's hash. */
  type Digest = (Fields, Option<Hash>) -> Hash

  function LastHash(ledger: seq<Tombstone>): Option<Hash> {
    if ledger == [] then None else Some(ledger[|ledger| - 1].content)
  }

  /** Row `i` carries the hash of the row before it and the right hash of its own. */
  predicate Linked(ledger: seq<Tombstone>, i: nat, digest: Digest)
    requires i < |ledger|
  {
    && ledger[i].previous == LastHash(ledger[..i])
    && ledger[i].content == digest(ledger[i].fields, LastHash(ledger[..i]))
  }

  ghost predicate Chained(ledger: seq<Tombstone>, digest: Digest) {
    forall i :: 0 <= i < |ledger| ==> Linked(ledger, i, digest)
  }

  predicate Listed(ledger: seq<Tombstone>, k: KeyRef) {
    exists i :: 0 <= i < |ledger| && ledger[i].fields.keyRef == k
  }

  ghost predicate OneRowPerKey(ledger: seq<Tombstone>) {
    forall i, j :: 0 <= i < j < |ledger| ==> ledger[i].fields.keyRef != ledger[j].fields.keyRef
  }

  // ---------------------------------------------------------------- verification

  /** The positions below `n` that do not check out, in order. */
  ghost predicate Reports(problems: seq<nat>, entries: seq<Tombstone>, n: nat, digest: Digest)
    requires n <= |entries|
  {
    && (forall i :: 0 <= i < |problems| ==> problems[i] < n && !Linked(entries, problems[i], digest))
    && (forall i, j :: 0 <= i < j < |problems| ==> problems[i] < problems[j])
    && forall i: nat :: i < n && !Linked(entries, i, digest) ==> i in problems
  }

  lemma ReportsOn(problems: seq<nat>, entries: seq<Tombstone>, n: nat, digest: Digest)
    requires n < |entries| && Reports(problems, entries, n, digest)
    ensures Reports(if Linked(entries, n, digest) then problems else problems + [n], entries, n + 1, digest)
  {
    hide Linked;
  }

  /** Checking row `n` against the hash of the row before it. */
  lemma LinkedTo(entries: seq<Tombstone>, n: nat, digest: Digest)
    requires n < |entries|
    ensures var e, previous := entries[n], LastHash(entries[..n]);
      Linked(entries, n, digest) <==> digest(e.fields, previous) == e.content && e.previous == previous
    ensures LastHash(entries[..n + 1]) == Some(entries[n].content)
  {
  }

  lemma NoneYet(entries: seq<Tombstone>, digest: Digest)
    ensures Reports([], entries, 0, digest) && LastHash(entries[..0]) == None
  {
  }

  /** `verify_exported_ledger`: the positions of the rows that do not check out, in order. */
  method VerifyExported(entries: seq<Tombstone>, digest: Digest) returns (problems: seq<nat>)
    ensures Reports(problems, entries, |entries|, digest)
    ensures problems == [] <==> Chained(entries, digest)
  {
    hide *;
    problems := [];
    var previous: Option<Hash> := None;
    NoneYet(entries, digest);
    for i := 0 to |entries|
      invariant previous == LastHash(entries[..i]) && Reports(problems, entries, i, digest)
    {
      LinkedTo(entries, i, digest);
      ReportsOn(problems, entries, i, digest);
      var e := entries[i];
      if digest(e.fields, previous) != e.content || e.previous != previous {
        problems := problems + [i];
      }
      previous := Some(e.content);
    }
    NothingReported(problems, entries, digest);
  }

  lemma NothingReported(problems: seq<nat>, entries: seq<Tombstone>, digest: Digest)
    requires Reports(problems, entries, |entries|, digest)
    ensures problems == [] <==> Chained(entries, digest)
  {
    hide Linked;
    if problems != [] {
      assert !Linked(entries, problems[0], digest);
    }
  }

  datatype Problem = PreviousMismatch(row: nat) | ContentMismatch(row: nat)

  predicate Faulty(rows: seq<Tombstone>, p: Problem, digest: Digest) {
    p.row < |rows| && match p
      case PreviousMismatch(i) => rows[i].previous != LastHash(rows[..i])
      case ContentMismatch(i) => rows[i].content != digest(rows[i].fields, LastHash(rows[..i]))
  }

  /** `verify_chain` on the table itself: the same recomputation, reporting the two faults separately. */
  method VerifyTable(rows: seq<Tombstone>, digest: Digest) returns (problems: seq<Problem>)
    ensures forall p :: p in problems <==> Faulty(rows, p, digest)
    ensures problems == [] <==> Chained(rows, digest)
  {
    problems := [];
    var previous: Option<Hash> := None;
    for i := 0 to |rows|
      invariant previous == LastHash(rows[..i])
      invariant forall p :: p in problems <==> p.row < i && Faulty(rows, p, digest)
    {
      if rows[i].previous != previous {
        problems := problems + [PreviousMismatch(i)];
      }
      if rows[i].content != digest(rows[i].fields, previous) {
        problems := problems + [ContentMismatch(i)];
      }
      previous := Some(rows[i].content);
      assert rows[..i + 1][|rows[..i + 1]| - 1] == rows[i];
    }
    FaultlessIsChained(rows, problems, digest);
  }

  lemma FaultlessIsChained(rows: seq<Tombstone>, problems: seq<Problem>, digest: Digest)
    requires forall p :: p in problems <==> Faulty(rows, p, digest)
    ensures problems == [] <==> Chained(rows, digest)
  {
    forall i | 0 <= i < |rows|
      ensures Linked(rows, i, digest) <==> PreviousMismatch(i) !in problems && ContentMismatch(i) !in problems
    {
    }
    if problems != [] {
      var p := problems[0];
      assert p in problems;
      assert !Linked(rows, p.row, digest);
    }
  }

  /** Two intact ledgers that end in the same hash hold the same rows, from the first to the last. */
  lemma {:induction false} SameHeadSameLedger(a: seq<Tombstone>, b: seq<Tombstone>, digest: Digest)
    requires CollisionFree(digest) && Chained(a, digest) && Chained(b, digest)
    requires LastHash(a) == LastHash(b)
    ensures |a| == |b|
    ensures forall i :: 0 <= i < |a| ==>
      a[i].fields == b[i].fields && a[i].previous == b[i].previous && a[i].content == b[i].content
  {
    if a == [] {
    } else {
      var m, n := |a| - 1, |b| - 1;
      assert Linked(a, m, digest) && Linked(b, n, digest);
      ChainedPrefix(a, m, digest);
      ChainedPrefix(b, n, digest);
      SameHeadSameLedger(a[..m], b[..n], digest);
    }
  }

  lemma ChainedPrefix(a: seq<Tombstone>, n: nat, digest: Digest)
    requires Chained(a, digest) && n <= |a|
    ensures Chained(a[..n], digest)
  {
    forall i | 0 <= i < n ensures Linked(a[..n], i, digest) {
      assert Linked(a, i, digest) && a[..n][..i] == a[..i];
    }
  }

  /** The ledger after a run of `_insert_tombstone` calls on an empty table. */
  function Inserted(fs: seq<Fields>, digest: Digest): seq<Tombstone> {
    if fs == [] then []
    else
      var before := Inserted(fs[..|fs| - 1], digest);
      var f := fs[|fs| - 1];
      before + [Tombstone(f, LastHash(before), digest(f, LastHash(before)), None, None)]
  }

  /** Whatever is inserted, the ledger is intact, one row per insertion in order, and verification finds nothing. */
  lemma {:induction false} EveryRunVerifies(fs: seq<Fields>, digest: Digest)
    ensures var ledger := Inserted(fs, digest);
      && Chained(ledger, digest) && |ledger| == |fs|
      && forall i :: 0 <= i < |fs| ==> ledger[i].fields == fs[i]
  {
    if fs == [] {
    } else {
      var before, ledger := Inserted(fs[..|fs| - 1], digest), Inserted(fs, digest);
      EveryRunVerifies(fs[..|fs| - 1], digest);
      forall i | 0 <= i < |ledger| ensures Linked(ledger, i, digest) {
        assert ledger[..i] == before[..i];
        if i < |before| {
          assert Linked(before, i, digest);
        } else {
          assert before[..i] == before;
        }
      }
    }
  }

  // ---------------------------------------------------------------- keys and the ledger together

  datatype Key = Active(wrapped: string, owner: Owner) | Destroyed(at: Time, owner: Owner)
  datatype Owner = Owner(workspace: string, targetType: string, targetId: string)

  datatype Vault = Vault(keys: map<KeyRef, Key>, ledger: seq<Tombstone>)

  /** What every ledger operation keeps. */
  ghost predicate Sound(v: Vault, digest: Digest) {
    Chained(v.ledger, digest) && OneRowPerKey(v.ledger)
  }

  function Row(ledger: seq<Tombstone>, f: Fields, signature: Option<string>, ledgerKey: Option<string>, digest: Digest)
    : Tombstone
  {
    Tombstone(f, LastHash(ledger), digest(f, LastHash(ledger)), signature, ledgerKey)
  }

  lemma RowKeepsChain(ledger: seq<Tombstone>, t: Tombstone, digest: Digest)
    requires Chained(ledger, digest) && OneRowPerKey(ledger) && !Listed(ledger, t.fields.keyRef)
    requires t == Row(ledger, t.fields, t.signature, t.ledgerKey, digest)
    ensures Chained(ledger + [t], digest) && OneRowPerKey(ledger + [t])
  {
    var more := ledger + [t];
    forall i | 0 <= i < |more| ensures Linked(more, i, digest) {
      assert more[..i] == ledger[..i];
      if i < |ledger| {
        assert Linked(ledger, i, digest);
      } else {
        assert more[..i] == ledger;
      }
    }
  }

  /** `v` became `w` without reviving, dropping or adding a key or touching a ledger row. */
  ghost predicate OnlyForgets(v: Vault, w: Vault) {
    && w.keys.Keys == v.keys.Keys && v.ledger <= w.ledger
    && forall k :: k in v.keys ==>
         w.keys[k] == v.keys[k] || (v.keys[k].Active? && w.keys[k].Destroyed? && w.keys[k].owner == v.keys[k].owner)
  }

  datatype LedgerError = KEY_UNKNOWN | KEY_TOMBSTONED
  datatype Shredded = Shredded(vault: Vault, refs: seq<KeyRef>)

  /** `shred_key` then `record_tombstone`: a destroyed key is left alone, an unknown one is an error. */
  function Shred(v: Vault, k: KeyRef, reason: string, actor: string, now: Time, digest: Digest)
    : Result<Vault, LedgerError>
  {
    if k !in v.keys then Err(KEY_UNKNOWN)
    else if v.keys[k].Destroyed? then Ok(v)
    else if Listed(v.ledger, k) then Err(KEY_TOMBSTONED)
    else
      var o := v.keys[k].owner;
      var f := Fields(k, o.workspace, o.targetType, o.targetId, reason, actor, None, now);
      Ok(Vault(v.keys[k := Destroyed(now, o)], v.ledger + [Row(v.ledger, f, None, None, digest)]))
  }

  /** `_destroy_keys` on a list of references. */
  function ShredAll(v: Vault, ks: seq<KeyRef>, reason: string, actor: string, now: Time, digest: Digest)
    : Result<Vault, LedgerError>
  {
    if ks == [] then Ok(v)
    else
      var before := ShredAll(v, ks[..|ks| - 1], reason, actor, now, digest);
      if before.Err? then before else Shred(before.value, ks[|ks| - 1], reason, actor, now, digest)
  }

  lemma ShredForgets(v: Vault, k: KeyRef, reason: string, actor: string, now: Time, digest: Digest)
    requires Sound(v, digest)
    ensures Shred(v, k, reason, actor, now, digest).Ok?
      <==> k in v.keys && (v.keys[k].Active? ==> !Listed(v.ledger, k))
    ensures Shred(v, k, reason, actor, now, digest).Ok? ==>
      var w := Shred(v, k, reason, actor, now, digest).value;
      && OnlyForgets(v, w) && Sound(w, digest) && w.keys[k].Destroyed?
      && (v.keys[k].Active? ==> Listed(w.ledger, k) && !Listed(v.ledger, k))
      && (forall j :: j in v.keys && j != k ==> w.keys[j] == v.keys[j])
      && forall j :: Listed(w.ledger, j) <==> Listed(v.ledger, j) || (j == k && v.keys[k].Active?)
  {
    if k in v.keys && v.keys[k].Active? && !Listed(v.ledger, k) {
      var w := Shred(v, k, reason, actor, now, digest).value;
      var t := w.ledger[|v.ledger|];
      RowKeepsChain(v.ledger, t, digest);
      ListedMore(v.ledger, t);
    }
  }

  lemma ListedMore(ledger: seq<Tombstone>, t: Tombstone)
    ensures forall j :: Listed(ledger + [t], j) <==> Listed(ledger, j) || j == t.fields.keyRef
  {
    var more := ledger + [t];
    assert more[|ledger|] == t;
    forall j | Listed(ledger, j) ensures Listed(more, j) {
      var i :| 0 <= i < |ledger| && ledger[i].fields.keyRef == j;
      assert more[i].fields.keyRef == j;
    }
  }

  /** Whether shredding a list goes through: every reference known, and none active yet already tombstoned. */
  predicate Shreddable(v: Vault, ks: seq<KeyRef>) {
    forall i :: 0 <= i < |ks| ==> ks[i] in v.keys && (v.keys[ks[i]].Active? ==> !Listed(v.ledger, ks[i]))
  }

  /** `w` is `v` with the listed keys destroyed and recorded, and everything else as it was. */
  ghost predicate Forgotten(v: Vault, w: Vault, ks: seq<KeyRef>) {
    && OnlyForgets(v, w)
    && (forall i :: 0 <= i < |ks| ==> ks[i] in w.keys && w.keys[ks[i]].Destroyed?)
    && (forall k :: k in v.keys && k !in ks ==> w.keys[k] == v.keys[k])
    && forall k :: Listed(w.ledger, k) <==> Listed(v.ledger, k) || (k in ks && k in v.keys && v.keys[k].Active?)
  }

  lemma ShredOneMore(v: Vault, m: Vault, ks: seq<KeyRef>, k: KeyRef, reason: string, actor: string, now: Time,
                     digest: Digest)
    requires Sound(m, digest) && Forgotten(v, m, ks) && Shreddable(v, ks)
    ensures var r := Shred(m, k, reason, actor, now, digest);
      && (r.Ok? <==> Shreddable(v, ks + [k]))
      && (r.Ok? ==> Sound(r.value, digest) && Forgotten(v, r.value, ks + [k]))
  {
    ShredForgets(m, k, reason, actor, now, digest);
    hide Shred, Sound, Listed;
    var more := ks + [k];
    assert more[|ks|] == k && forall i :: 0 <= i < |ks| ==> more[i] == ks[i];
  }

  /**
   Shredding destroys exactly the listed keys, records each newly destroyed one, and leaves every other key
   alone; it fails exactly when a reference is unknown or its tombstone exists while the key is still active.
   */
  lemma {:induction false} ShredAllForgets(v: Vault, ks: seq<KeyRef>, reason: string, actor: string, now: Time,
                                           digest: Digest)
    requires Sound(v, digest)
    ensures ShredAll(v, ks, reason, actor, now, digest).Ok? <==> Shreddable(v, ks)
    ensures ShredAll(v, ks, reason, actor, now, digest).Ok? ==>
      var w := ShredAll(v, ks, reason, actor, now, digest).value;
      Sound(w, digest) && Forgotten(v, w, ks)
  {
    hide Shred, Sound, Listed, Forgotten, Shreddable;
    if ks == [] {
      NothingForgotten(v);
    } else {
      var rest, k := ks[..|ks| - 1], ks[|ks| - 1];
      assert ks == rest + [k];
      ShredAllForgets(v, rest, reason, actor, now, digest);
      if Shreddable(v, ks) {
        ShreddablePrefix(v, rest, k);
      }
      if ShredAll(v, rest, reason, actor, now, digest).Ok? {
        ShredOneMore(v, ShredAll(v, rest, reason, actor, now, digest).value, rest, k, reason, actor, now, digest);
      }
    }
  }

  lemma NothingForgotten(v: Vault)
    ensures Forgotten(v, v, []) && Shreddable(v, [])
  {
  }

  lemma ShreddablePrefix(v: Vault, ks: seq<KeyRef>, k: KeyRef)
    requires Shreddable(v, ks + [k])
    ensures Shreddable(v, ks)
  {
    hide Listed;
    assert forall i :: 0 <= i < |ks| ==> (ks + [k])[i] == ks[i];
  }

  /** The first error ends it. */
  lemma {:induction false} ShredStops(v: Vault, ks: seq<KeyRef>, n: nat, reason: string, actor: string, now: Time,
                                      digest: Digest)
    requires n <= |ks| && ShredAll(v, ks[..n], reason, actor, now, digest).Err?
    ensures ShredAll(v, ks, reason, actor, now, digest) == ShredAll(v, ks[..n], reason, actor, now, digest)
    decreases |ks|
  {
    hide Shred;
    if n == |ks| {
      assert ks[..n] == ks;
    } else {
      assert ks[..|ks| - 1][..n] == ks[..n];
      ShredStops(v, ks[..|ks| - 1], n, reason, actor, now, digest);
    }
  }

  /** A reference that stops shredding, and why. */
  ghost predicate Stops(v: Vault, k: KeyRef, e: LedgerError) {
    match e
    case KEY_UNKNOWN => k !in v.keys
    case KEY_TOMBSTONED => k in v.keys && v.keys[k].Active? && Listed(v.ledger, k)
  }

  /** Where shredding fails, it does so for the reason of a reference on its list. */
  lemma {:induction false} ShredAllStops(v: Vault, ks: seq<KeyRef>, reason: string, actor: string, now: Time,
                                         digest: Digest)
    requires Sound(v, digest) && ShredAll(v, ks, reason, actor, now, digest).Err?
    ensures exists k :: k in ks && Stops(v, k, ShredAll(v, ks, reason, actor, now, digest).code)
  {
    var rest, k := ks[..|ks| - 1], ks[|ks| - 1];
    if ShredAll(v, rest, reason, actor, now, digest).Err? {
      ShredAllStops(v, rest, reason, actor, now, digest);
      var j :| j in rest && Stops(v, j, ShredAll(v, rest, reason, actor, now, digest).code);
      assert j in ks;
    } else {
      ShredAllForgets(v, rest, reason, actor, now, digest);
      assert k in ks;
      hide Listed, Sound;
      assert Stops(v, k, ShredAll(v, ks, reason, actor, now, digest).code);
    }
  }

  /** The line says of an active key of `v` that it was destroyed: which, whose, why, by whom and when. */
  ghost predicate RecordOf(t: Tombstone, v: Vault, reason: string, actor: string, now: Time) {
    var f := t.fields;
    && f.keyRef in v.keys && v.keys[f.keyRef].Active?
    && v.keys[f.keyRef].owner == Owner(f.workspace, f.targetType, f.targetId)
    && f.reason == reason && f.requestedBy == actor && f.destroyedAt == now && f.auditEvent == None
    && t.signature == None && t.ledgerKey == None
  }

  /** `w` is `v` after shredding at `now`: every new line is a record, every key newly destroyed was so at `now`. */
  ghost predicate Records(v: Vault, w: Vault, reason: string, actor: string, now: Time) {
    && v.ledger <= w.ledger
    && (forall i :: |v.ledger| <= i < |w.ledger| ==> RecordOf(w.ledger[i], v, reason, actor, now))
    && forall k :: k in v.keys && k in w.keys && v.keys[k].Active? && w.keys[k].Destroyed? ==> w.keys[k].at == now
  }

  lemma ShredRecordsOne(v: Vault, m: Vault, k: KeyRef, reason: string, actor: string, now: Time, digest: Digest)
    requires OnlyForgets(v, m) && Records(v, m, reason, actor, now)
    ensures Shred(m, k, reason, actor, now, digest).Ok? ==>
      Records(v, Shred(m, k, reason, actor, now, digest).value, reason, actor, now)
  {
    hide Listed;
  }

  /** What shredding writes down, whatever the list. */
  lemma {:induction false} ShredAllRecords(v: Vault, ks: seq<KeyRef>, reason: string, actor: string, now: Time,
                                           digest: Digest)
    requires Sound(v, digest) && ShredAll(v, ks, reason, actor, now, digest).Ok?
    ensures Records(v, ShredAll(v, ks, reason, actor, now, digest).value, reason, actor, now)
  {
    hide Sound, Listed, Shred, Records;
    if ks == [] {
      NothingRecorded(v, reason, actor, now);
    } else {
      var rest := ks[..|ks| - 1];
      ShredAllRecords(v, rest, reason, actor, now, digest);
      ShredAllForgets(v, rest, reason, actor, now, digest);
      ShredRecordsOne(v, ShredAll(v, rest, reason, actor, now, digest).value, ks[|ks| - 1], reason, actor, now, digest);
    }
  }

  lemma NothingRecorded(v: Vault, reason: string, actor: string, now: Time)
    ensures Records(v, v, reason, actor, now)
  {
  }

  // ---------------------------------------------------------------- import

  /** The fields a missing entry is re-appended with. */
  function Reconciled(f: Fields): Fields {
    f.(reason := "RECONCILED:" + f.reason)
  }

  /** One entry of an import: append its tombstone if it is missing, then destroy the key if it is active. */
  function ApplyEntry(v: Vault, e: Tombstone, now: Time, digest: Digest): Vault {
    var k := e.fields.keyRef;
    var ledger :=
      if Listed(v.ledger, k) then v.ledger
      else v.ledger + [Row(v.ledger, Reconciled(e.fields), e.signature, e.ledgerKey, digest)];
    var keys := if k in v.keys && v.keys[k].Active? then v.keys[k := Destroyed(now, v.keys[k].owner)] else v.keys;
    Vault(keys, ledger)
  }

  function Applied(v: Vault, es: seq<Tombstone>, now: Time, digest: Digest): Vault {
    if es == [] then v else ApplyEntry(Applied(v, es[..|es| - 1], now, digest), es[|es| - 1], now, digest)
  }

  datatype Class = Unknown | AlreadyDestroyed | NewlyShredded

  /** What the import reports about entry `i`, judged on the vault it started from. */
  function ClassOf(v: Vault, es: seq<Tombstone>, i: nat): Class
    requires i < |es|
  {
    var k := es[i].fields.keyRef;
    if k !in v.keys then Unknown
    else if v.keys[k].Destroyed? || Listed(es[..i], k) then AlreadyDestroyed
    else NewlyShredded
  }

  /** Entry `i` is re-appended: neither the ledger nor an earlier entry has its key. */
  predicate Missing(v: Vault, es: seq<Tombstone>, i: nat)
    requires i < |es|
  {
    !Listed(v.ledger, es[i].fields.keyRef) && !Listed(es[..i], es[i].fields.keyRef)
  }

  datatype Report = Report(imported: seq<KeyRef>, shredded: seq<KeyRef>, already: seq<KeyRef>, unknown: seq<KeyRef>)

  function Noted(r: Report, k: KeyRef, missing: bool, c: Class): Report {
    var s := if missing then r.(imported := r.imported + [k]) else r;
    match c
    case Unknown => s.(unknown := s.unknown + [k])
    case AlreadyDestroyed => s.(already := s.already + [k])
    case NewlyShredded => s.(shredded := s.shredded + [k])
  }

  /** The report on the first `n` entries, each judged by the vault the import started from. */
  function Reported(v: Vault, es: seq<Tombstone>, n: nat): Report
    requires n <= |es|
  {
    if n == 0 then Report([], [], [], [])
    else Noted(Reported(v, es, n - 1), es[n - 1].fields.keyRef, Missing(v, es, n - 1), ClassOf(v, es, n - 1))
  }

  function Refs(es: seq<Tombstone>): seq<KeyRef> {
    if es == [] then [] else Refs(es[..|es| - 1]) + [es[|es| - 1].fields.keyRef]
  }

  /** Every entry is in exactly one of the three lists of the report. */
  lemma {:induction false} ClassesPartition(v: Vault, es: seq<Tombstone>, n: nat)
    requires n <= |es|
    ensures var r := Reported(v, es, n);
      multiset(r.unknown) + multiset(r.already) + multiset(r.shredded) == multiset(Refs(es[..n]))
  {
    if n == 0 {
    } else {
      ClassesPartition(v, es, n - 1);
      NotedCounts(Reported(v, es, n - 1), es[n - 1].fields.keyRef, Missing(v, es, n - 1), ClassOf(v, es, n - 1));
      RefsCount(es, n);
    }
  }

  lemma NotedCounts(r: Report, k: KeyRef, missing: bool, c: Class)
    ensures var s := Noted(r, k, missing, c);
      multiset(s.unknown) + multiset(s.already) + multiset(s.shredded)
      == multiset(r.unknown) + multiset(r.already) + multiset(r.shredded) + multiset{k}
  {
  }

  lemma RefsCount(es: seq<Tombstone>, n: nat)
    requires 0 < n <= |es|
    ensures multiset(Refs(es[..n])) == multiset(Refs(es[..n - 1])) + multiset{es[n - 1].fields.keyRef}
  {
    assert es[..n][..n - 1] == es[..n - 1];
  }

  /** The import appends one row for each reported import, in that order. */
  lemma {:induction false} ImportedRows(v: Vault, es: seq<Tombstone>, n: nat, now: Time, digest: Digest)
    requires Sound(v, digest) && n <= |es|
    ensures v.ledger <= Applied(v, es[..n], now, digest).ledger
    ensures Refs(Applied(v, es[..n], now, digest).ledger[|v.ledger|..]) == Reported(v, es, n).imported
  {
    hide *;
    if n == 0 {
      NothingImported(v, es, now, digest);
    } else {
      ImportedRows(v, es, n - 1, now, digest);
      EntryFound(v, es, n - 1, now, digest);
      NotedImports(v, es, n);
      AppendedRef(v.ledger, Applied(v, es[..n - 1], now, digest), es[n - 1], now, digest);
    }
  }

  lemma NothingImported(v: Vault, es: seq<Tombstone>, now: Time, digest: Digest)
    ensures Applied(v, es[..0], now, digest) == v && v.ledger <= v.ledger
    ensures Refs(v.ledger[|v.ledger|..]) == Reported(v, es, 0).imported
  {
  }

  lemma NotedImports(v: Vault, es: seq<Tombstone>, n: nat)
    requires 0 < n <= |es|
    ensures Reported(v, es, n).imported == Reported(v, es, n - 1).imported
      + (if Missing(v, es, n - 1) then [es[n - 1].fields.keyRef] else [])
  {
    hide Missing, ClassOf;
  }

  /** One entry adds at most its own reference to the rows appended so far. */
  lemma AppendedRef(base: seq<Tombstone>, w: Vault, e: Tombstone, now: Time, digest: Digest)
    requires base <= w.ledger
    ensures var u := ApplyEntry(w, e, now, digest);
      && base <= u.ledger
      && Refs(u.ledger[|base|..]) == Refs(w.ledger[|base|..])
         + (if Listed(w.ledger, e.fields.keyRef) then [] else [e.fields.keyRef])
  {
    RefsGrow(w.ledger, Row(w.ledger, Reconciled(e.fields), e.signature, e.ledgerKey, digest), |base|);
    hide Refs, Listed;
  }

  lemma RefsGrow(ledger: seq<Tombstone>, t: Tombstone, from: nat)
    requires from <= |ledger|
    ensures Refs((ledger + [t])[from..]) == Refs(ledger[from..]) + [t.fields.keyRef]
  {
    assert (ledger + [t])[from..][..|ledger| - from] == ledger[from..];
  }

  lemma NotedNames(r: Report, j: KeyRef, missing: bool, c: Class, k: KeyRef)
    ensures var n := Noted(r, j, missing, c);
      && (k in n.imported <==> k in r.imported || (k == j && missing))
      && (k in n.unknown <==> k in r.unknown || (k == j && c.Unknown?))
      && (k in n.already <==> k in r.already || (k == j && c.AlreadyDestroyed?))
      && (k in n.shredded <==> k in r.shredded || (k == j && c.NewlyShredded?))
  {
  }

  /** What the four lists of the report say about a key. */
  lemma {:induction false} ReportMeans(v: Vault, es: seq<Tombstone>, n: nat, k: KeyRef)
    requires n <= |es|
    ensures var r, listed := Reported(v, es, n), Listed(es[..n], k);
      && (k in r.imported <==> listed && !Listed(v.ledger, k))
      && (k in r.unknown <==> listed && k !in v.keys)
      && (k in r.shredded <==> listed && k in v.keys && v.keys[k].Active?)
      && (k in r.already ==> listed && k in v.keys)
      && (listed && k in v.keys && v.keys[k].Destroyed? ==> k in r.already)
  {
    if n == 0 {
    } else {
      hide Noted, Listed;
      ReportMeans(v, es, n - 1, k);
      assert es[..n] == es[..n - 1] + [es[n - 1]];
      ListedMore(es[..n - 1], es[n - 1]);
      NotedNames(Reported(v, es, n - 1), es[n - 1].fields.keyRef, Missing(v, es, n - 1), ClassOf(v, es, n - 1), k);
    }
  }

  /** The line repeats an entry, marked as reconciled, with the entry's signature. */
  ghost predicate Repeats(t: Tombstone, e: Tombstone) {
    && t.fields == e.fields.(reason := "RECONCILED:" + e.fields.reason)
    && t.signature == e.signature && t.ledgerKey == e.ledgerKey
  }

  ghost predicate RepeatsSome(t: Tombstone, es: seq<Tombstone>) {
    exists e :: e in es && Repeats(t, e)
  }

  /** What an import writes down: every new line repeats an entry, every key it destroys was destroyed at its moment. */
  lemma {:induction false} ImportRecords(v: Vault, es: seq<Tombstone>, now: Time, digest: Digest)
    requires Sound(v, digest)
    ensures var w := Applied(v, es, now, digest);
      && v.ledger <= w.ledger
      && (forall i :: |v.ledger| <= i < |w.ledger| ==> RepeatsSome(w.ledger[i], es))
      && forall k :: k in v.keys && k in w.keys && v.keys[k].Active? && w.keys[k].Destroyed? ==> w.keys[k].at == now
  {
    if es == [] {
    } else {
      var rest, e := es[..|es| - 1], es[|es| - 1];
      assert es == rest + [e];
      ImportRecords(v, rest, now, digest);
      ImportForgets(v, rest, now, digest);
      hide Listed, Sound, Repeats;
      var m, w := Applied(v, rest, now, digest), Applied(v, es, now, digest);
      forall i | |v.ledger| <= i < |w.ledger| ensures RepeatsSome(w.ledger[i], es) {
        if i < |m.ledger| {
          var f :| f in rest && Repeats(m.ledger[i], f);
          assert f in es;
        } else {
          RepeatsEntry(m, e, digest);
        }
      }
    }
  }

  lemma RepeatsEntry(m: Vault, e: Tombstone, digest: Digest)
    ensures Repeats(Row(m.ledger, Reconciled(e.fields), e.signature, e.ledgerKey, digest), e)
  {
  }

  lemma AppliedStep(v: Vault, es: seq<Tombstone>, i: nat, now: Time, digest: Digest)
    requires i < |es|
    ensures Applied(v, es[..i + 1], now, digest) == ApplyEntry(Applied(v, es[..i], now, digest), es[i], now, digest)
  {
    assert es[..i + 1][..i] == es[..i];
  }

  lemma ApplyEntryForgets(v: Vault, e: Tombstone, now: Time, digest: Digest)
    requires Sound(v, digest)
    ensures var w := ApplyEntry(v, e, now, digest);
      && OnlyForgets(v, w) && Sound(w, digest)
      && (e.fields.keyRef in v.keys ==> w.keys[e.fields.keyRef].Destroyed?)
      && (forall k :: k in v.keys && k != e.fields.keyRef ==> w.keys[k] == v.keys[k])
      && forall k :: Listed(w.ledger, k) <==> Listed(v.ledger, k) || k == e.fields.keyRef
  {
    if !Listed(v.ledger, e.fields.keyRef) {
      var t := Row(v.ledger, Reconciled(e.fields), e.signature, e.ledgerKey, digest);
      RowKeepsChain(v.ledger, t, digest);
      ListedMore(v.ledger, t);
    }
  }

  /**
   An import never revives a key: afterwards the ledger lists what it listed before plus the entries' keys, the
   chain is intact, every listed key this database knows is destroyed and all other keys are as they were.
   */
  lemma {:induction false} ImportForgets(v: Vault, es: seq<Tombstone>, now: Time, digest: Digest)
    requires Sound(v, digest)
    ensures var w := Applied(v, es, now, digest);
      && OnlyForgets(v, w) && Sound(w, digest)
      && (forall k :: Listed(w.ledger, k) <==> Listed(v.ledger, k) || Listed(es, k))
      && (forall k :: k in v.keys && Listed(es, k) ==> w.keys[k].Destroyed?)
      && forall k :: k in v.keys && !Listed(es, k) ==> w.keys[k] == v.keys[k]
  {
    if es == [] {
    } else {
      var rest, e := es[..|es| - 1], es[|es| - 1];
      assert es == rest + [e];
      ImportForgets(v, rest, now, digest);
      ApplyEntryForgets(Applied(v, rest, now, digest), e, now, digest);
      ListedMore(rest, e);
    }
  }

  /** Judging an entry on the vault as it is when the entry's turn comes gives the same answers. */
  lemma EntryFound(v: Vault, es: seq<Tombstone>, i: nat, now: Time, digest: Digest)
    requires Sound(v, digest) && i < |es|
    ensures var w := Applied(v, es[..i], now, digest);
      var k := es[i].fields.keyRef;
      && Missing(v, es, i) == !Listed(w.ledger, k)
      && ClassOf(v, es, i)
         == (if k !in w.keys then Unknown else if w.keys[k].Destroyed? then AlreadyDestroyed else NewlyShredded)
      && Applied(v, es[..i + 1], now, digest) == ApplyEntry(w, es[i], now, digest)
      && Sound(ApplyEntry(w, es[i], now, digest), digest)
  {
    ImportForgets(v, es[..i], now, digest);
    AppliedStep(v, es, i, now, digest);
    ApplyEntryForgets(Applied(v, es[..i], now, digest), es[i], now, digest);
  }

  /** Applying to a vault that already lists and destroyed every entry's key does nothing. */
  lemma {:induction false} NothingLeftToApply(v: Vault, es: seq<Tombstone>, now: Time, digest: Digest)
    requires forall k :: Listed(es, k) ==> Listed(v.ledger, k) && (k in v.keys ==> v.keys[k].Destroyed?)
    ensures Applied(v, es, now, digest) == v
  {
    if es == [] {
    } else {
      var rest, e := es[..|es| - 1], es[|es| - 1];
      assert es == rest + [e];
      ListedMore(rest, e);
      NothingLeftToApply(v, rest, now, digest);
    }
  }

  /** A second import of the same ledger changes no state, whenever it runs. */
  lemma ImportTwice(v: Vault, es: seq<Tombstone>, now: Time, later: Time, digest: Digest)
    requires Sound(v, digest)
    ensures var w := Applied(v, es, now, digest);
      Applied(w, es, later, digest) == w
  {
    ImportForgets(v, es, now, digest);
    NothingLeftToApply(Applied(v, es, now, digest), es, later, digest);
  }

  /** Restoring an old backup and importing the ledger exported after it: no key destroyed since comes back. */
  lemma RestoreThenImport(backup: Vault, current: Vault, now: Time, digest: Digest)
    requires Sound(backup, digest)
    ensures var w := Applied(backup, current.ledger, now, digest);
      forall k :: k in backup.keys && Listed(current.ledger, k) ==>
        k in w.keys && w.keys[k].Destroyed? && Listed(w.ledger, k)
  {
    ImportForgets(backup, current.ledger, now, digest);
  }

  // ---------------------------------------------------------------- the tables

  class Database {
    const digest: Digest
    var keys: map<KeyRef, Key>
    var ledger: seq<Tombstone>

    constructor (digest: Digest, keys: map<KeyRef, Key>)
      ensures this.digest == digest && Value() == Vault(keys, []) && Sound(Value(), digest)
    {
      this.digest, this.keys, this.ledger := digest, keys, [];
    }

    function Value(): Vault
      reads this
    {
      Vault(keys, ledger)
    }

    /** `_insert_tombstone`; the caller has checked that the key has no row yet. */
    method InsertTombstone(f: Fields, signature: Option<string>, ledgerKey: Option<string>) returns (content: Hash)
      requires Sound(Value(), digest) && !Listed(ledger, f.keyRef)
      modifies `ledger
      ensures ledger == old(ledger) + [Row(old(ledger), f, signature, ledgerKey, digest)]
      ensures Sound(Value(), digest) && LastHash(ledger) == Some(content)
    {
      var previous := LastHash(ledger);
      content := digest(f, previous);
      RowKeepsChain(ledger, Tombstone(f, previous, content, signature, ledgerKey), digest);
      ledger := ledger + [Tombstone(f, previous, content, signature, ledgerKey)];
    }

    /** `_destroy_keys`: stops at the first error, whose transaction is then rolled back. */
    method DestroyKeys(refs: seq<KeyRef>, reason: string, actor: string, now: Time)
      returns (r: Result<seq<KeyRef>, LedgerError>)
      requires Sound(Value(), digest)
      modifies `keys, `ledger
      ensures Sound(Value(), digest)
      ensures r.Ok? <==> Shreddable(old(Value()), refs)
      ensures ShredAll(old(Value()), refs, reason, actor, now, digest) == if r.Ok? then Ok(Value()) else Err(r.code)
      ensures if r.Ok? then r.value == refs else Value() == old(Value())
    {
      ghost var v := Value();
      var savedKeys, savedLedger := keys, ledger;
      ShredAllForgets(v, refs, reason, actor, now, digest);
      for i := 0 to |refs|
        invariant Sound(Value(), digest) && Ok(Value()) == ShredAll(v, refs[..i], reason, actor, now, digest)
      {
        var k := refs[i];
        assert refs[..i + 1][..i] == refs[..i];
        ShredAllForgets(v, refs[..i + 1], reason, actor, now, digest);
        if k !in keys || (keys[k].Active? && Listed(ledger, k)) {
          r := Err(if k !in keys then KEY_UNKNOWN else KEY_TOMBSTONED);
          assert !Shreddable(v, refs[..i + 1]);
          ShredStops(v, refs, i + 1, reason, actor, now, digest);
          keys, ledger := savedKeys, savedLedger;
          return;
        }
        if keys[k].Active? {
          var o := keys[k].owner;
          var f := Fields(k, o.workspace, o.targetType, o.targetId, reason, actor, None, now);
          var _ := InsertTombstone(f, None, None);
          keys := keys[k := Destroyed(now, o)];
        }
      }
      assert refs[..|refs|] == refs;
      r := Ok(refs);
    }

    /** `import_and_apply`. */
    method ImportAndApply(entries: seq<Tombstone>, now: Time)
      returns (imported: seq<KeyRef>, shredded: seq<KeyRef>, already: seq<KeyRef>, unknown: seq<KeyRef>)
      requires Sound(Value(), digest)
      modifies `keys, `ledger
      ensures Value() == Applied(old(Value()), entries, now, digest) && Sound(Value(), digest)
      ensures Report(imported, shredded, already, unknown) == Reported(old(Value()), entries, |entries|)
    {
      ghost var v := Value();
      imported, shredded, already, unknown := [], [], [], [];
      assert entries[..0] == [] && Applied(v, [], now, digest) == v;
      hide Sound, Applied, ClassOf, Missing, Listed, Row, LastHash, Reconciled;
      for i := 0 to |entries|
        invariant Sound(Value(), digest) && Value() == Applied(v, entries[..i], now, digest)
        invariant Report(imported, shredded, already, unknown) == Reported(v, entries, i)
      {
        var e := entries[i];
        var k := e.fields.keyRef;
        EntryFound(v, entries, i, now, digest);
        if !Listed(ledger, k) {
          var _ := InsertTombstone(Reconciled(e.fields), e.signature, e.ledgerKey);
          imported := imported + [k];
        }
        if k !in keys {
          unknown := unknown + [k];
        } else if keys[k].Destroyed? {
          already := already + [k];
        } else {
          keys := keys[k := Destroyed(now, keys[k].owner)];
          shredded := shredded + [k];
        }
      }
      assert entries[..|entries|] == entries;
    }
  }
}
