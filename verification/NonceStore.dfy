/** The webhook replay window: the in-memory nonce store and the verification that uses it. */
module NonceStore {
  import opened Common

  /** Microseconds. */
  type Time = int
  const SECOND: Time := 1_000_000

  type Seen = map<string, Time>

  function Pruned(seen: Seen, cutoff: Time): Seen {
    map k | k in seen && seen[k] >= cutoff :: seen[k]
  }

  /** `remember`: forgets what is older than the retention, then takes the nonce unless it is still there. */
  function Remember(seen: Seen, nonce: string, now: Time, retention: Time): (Seen, bool) {
    var kept := Pruned(seen, now - retention);
    if nonce in kept then (kept, false) else (kept[nonce := now], true)
  }

  class InMemoryNonceStore {
    const retention: Time
    var seen: Seen

    constructor (retention: Time)
      ensures this.retention == retention && seen == map[]
    {
      this.retention, this.seen := retention, map[];
    }

    method RememberNonce(nonce: string, now: Time) returns (accepted: bool)
      modifies this
      ensures (seen, accepted) == Remember(old(seen), nonce, now, retention)
    {
      var cutoff := now - retention;
      var stale := set k | k in seen && seen[k] < cutoff;
      while stale != {}
        invariant stale <= seen.Keys && forall k :: k in stale ==> seen[k] < cutoff
        invariant forall k :: k in seen ==> k in old(seen) && seen[k] == old(seen)[k]
        invariant forall k :: k in old(seen) ==> k in seen || old(seen)[k] < cutoff
        invariant forall k :: k in seen && seen[k] < cutoff ==> k in stale
        decreases stale
      {
        var k :| k in stale;
        seen := seen - {k};
        stale := stale - {k};
      }
      assert seen == Pruned(old(seen), cutoff);
      if nonce in seen {
        return false;
      }
      seen := seen[nonce := now];
      accepted := true;
    }
  }

  // ---------------------------------------------------------------- runs of the store

  datatype Call = Call(nonce: string, now: Time)

  function SeenAfter(calls: seq<Call>, retention: Time): Seen {
    if calls == [] then map[]
    else
      var c := calls[|calls| - 1];
      Remember(SeenAfter(calls[..|calls| - 1], retention), c.nonce, c.now, retention).0
  }

  /** Whether call `i` was accepted. */
  predicate Accepted(calls: seq<Call>, i: nat, retention: Time)
    requires i < |calls|
  {
    Remember(SeenAfter(calls[..i], retention), calls[i].nonce, calls[i].now, retention).1
  }

  ghost predicate Monotone(calls: seq<Call>) {
    forall i, j :: 0 <= i <= j < |calls| ==> calls[i].now <= calls[j].now
  }

  /** Call `j` accepted this nonce, and no more than the retention before `now`. */
  ghost predicate AcceptedRecently(calls: seq<Call>, j: nat, nonce: string, now: Time, retention: Time)
    requires j < |calls|
  {
    calls[j].nonce == nonce && Accepted(calls, j, retention) && now - calls[j].now <= retention
  }

  lemma AcceptedInPrefix(calls: seq<Call>, n: nat, j: nat, retention: Time)
    requires j < n <= |calls|
    ensures Accepted(calls[..n], j, retention) == Accepted(calls, j, retention)
  {
    assert calls[..n][..j] == calls[..j];
  }

  /** Some call accepted this nonce at this moment. */
  ghost predicate AcceptedAt(calls: seq<Call>, nonce: string, at: Time, retention: Time) {
    exists j: nat :: j < |calls| && calls[j] == Call(nonce, at) && Accepted(calls, j, retention)
  }

  lemma AcceptedAtGrows(calls: seq<Call>, n: nat, nonce: string, at: Time, retention: Time)
    requires n <= |calls| && AcceptedAt(calls[..n], nonce, at, retention)
    ensures AcceptedAt(calls, nonce, at, retention)
  {
    hide Accepted;
    var j: nat :| j < n && calls[..n][j] == Call(nonce, at) && Accepted(calls[..n], j, retention);
    AcceptedInPrefix(calls, n, j, retention);
    assert calls[j] == Call(nonce, at);
  }

  lemma AfterLast(calls: seq<Call>, retention: Time)
    requires calls != []
    ensures var n := |calls| - 1;
      SeenAfter(calls, retention)
      == Remember(SeenAfter(calls[..n], retention), calls[n].nonce, calls[n].now, retention).0
  {
  }

  /** What the store holds was accepted by some call. */
  lemma {:induction false} SeenWasAccepted(calls: seq<Call>, nonce: string, retention: Time)
    requires nonce in SeenAfter(calls, retention)
    ensures AcceptedAt(calls, nonce, SeenAfter(calls, retention)[nonce], retention)
  {
    if calls == [] {
    } else {
      var n := |calls| - 1;
      AfterLast(calls, retention);
      if calls[n].nonce == nonce && Accepted(calls, n, retention) {
        assert calls[n] == Call(nonce, calls[n].now);
      } else {
        hide AcceptedAt;
        SeenWasAccepted(calls[..n], nonce, retention);
        AcceptedAtGrows(calls, n, nonce, SeenAfter(calls, retention)[nonce], retention);
      }
    }
  }

  /** A nonce accepted within the retention is still in the store, under its latest acceptance. */
  lemma {:induction false} RecentIsSeen(calls: seq<Call>, j: nat, nonce: string, retention: Time)
    requires Monotone(calls) && retention >= 0 && j < |calls|
    requires AcceptedRecently(calls, j, nonce, calls[|calls| - 1].now, retention)
    ensures nonce in SeenAfter(calls, retention) && SeenAfter(calls, retention)[nonce] >= calls[j].now
  {
    var n := |calls| - 1;
    AfterLast(calls, retention);
    if j >= n {
    } else {
      AcceptedInPrefix(calls, n, j, retention);
      assert calls[n - 1].now <= calls[n].now && calls[j].now <= calls[n].now;
      hide Accepted;
      RecentIsSeen(calls[..n], j, nonce, retention);
    }
  }

  /** Under a clock that does not go back, a nonce is accepted exactly when no call accepted it within the retention. */
  lemma RememberExactly(calls: seq<Call>, i: nat, retention: Time)
    requires Monotone(calls) && retention >= 0 && i < |calls|
    ensures Accepted(calls, i, retention)
      <==> forall j: nat :: j < i ==> !AcceptedRecently(calls, j, calls[i].nonce, calls[i].now, retention)
  {
    var before, c := calls[..i], calls[i];
    var seen := SeenAfter(before, retention);
    if !Accepted(calls, i, retention) {
      SeenWasAccepted(before, c.nonce, retention);
      var j: nat :| j < i && before[j] == Call(c.nonce, seen[c.nonce]) && Accepted(before, j, retention);
      AcceptedInPrefix(calls, i, j, retention);
      assert AcceptedRecently(calls, j, c.nonce, c.now, retention);
    }
    forall j: nat | j < i && AcceptedRecently(calls, j, c.nonce, c.now, retention)
      ensures !Accepted(calls, i, retention)
    {
      AcceptedInPrefix(calls, i, j, retention);
      assert before[i - 1].now <= c.now;
      RecentIsSeen(before, j, c.nonce, retention);
    }
  }

  // ---------------------------------------------------------------- verification

  datatype Stamp = Missing | NotNumeric | Seconds(n: nat)

  /** A request as the checks see it: whether its signature and its declared body digest match. */
  datatype Request = Request(stamp: Stamp, nonce: Option<string>, signature: Option<bool>, claim: Option<bool>)

  datatype Code =
    | WEBHOOK_HEADER_MISSING | WEBHOOK_TIMESTAMP_EXPIRED | WEBHOOK_SIGNATURE_INVALID | WEBHOOK_BODY_HASH_MISMATCH
    | WEBHOOK_NONCE_REUSED

  function Distance(a: int, b: int): nat {
    if a >= b then a - b else b - a
  }

  /** Everything `verify` checks before it asks the nonce store. */
  function Screened(r: Request, now: Time, window: nat): Option<Code> {
    if r.stamp.Missing? || r.nonce.None? || r.signature.None? then Some(WEBHOOK_HEADER_MISSING)
    else if r.stamp.NotNumeric? then Some(WEBHOOK_TIMESTAMP_EXPIRED)
    else if Distance(now / SECOND, r.stamp.n) > window then Some(WEBHOOK_TIMESTAMP_EXPIRED)
    else if !r.signature.value then Some(WEBHOOK_SIGNATURE_INVALID)
    else if r.claim == Some(false) then Some(WEBHOOK_BODY_HASH_MISMATCH)
    else None
  }

  /** `verify`, with one clock reading. */
  function Verify(seen: Seen, r: Request, now: Time, window: nat, retention: Time): (Seen, Option<Code>) {
    var refused := Screened(r, now, window);
    if refused.Some? then (seen, refused)
    else
      var done := Remember(seen, r.nonce.value, now, retention);
      (done.0, if done.1 then None else Some(WEBHOOK_NONCE_REUSED))
  }

  method VerifyRequest(store: InMemoryNonceStore, r: Request, now: Time, window: nat) returns (refused: Option<Code>)
    modifies store
    ensures (store.seen, refused) == Verify(old(store.seen), r, now, window, store.retention)
  {
    if r.stamp.Missing? || r.nonce.None? || r.signature.None? {
      return Some(WEBHOOK_HEADER_MISSING);
    }
    if r.stamp.NotNumeric? || Distance(now / SECOND, r.stamp.n) > window {
      return Some(WEBHOOK_TIMESTAMP_EXPIRED);
    }
    if !r.signature.value {
      return Some(WEBHOOK_SIGNATURE_INVALID);
    }
    if r.claim == Some(false) {
      return Some(WEBHOOK_BODY_HASH_MISMATCH);
    }
    var taken := store.RememberNonce(r.nonce.value, now);
    refused := if taken then None else Some(WEBHOOK_NONCE_REUSED);
  }

  datatype Delivery = Delivery(request: Request, now: Time)

  /** The store calls a run of deliveries makes. */
  function StoreCalls(ds: seq<Delivery>, window: nat): seq<Call> {
    if ds == [] then []
    else
      var d, rest := ds[|ds| - 1], StoreCalls(ds[..|ds| - 1], window);
      if Screened(d.request, d.now, window).Some? then rest else rest + [Call(d.request.nonce.value, d.now)]
  }

  function StoreAfter(ds: seq<Delivery>, window: nat, retention: Time): Seen {
    if ds == [] then map[]
    else
      var d := ds[|ds| - 1];
      Verify(StoreAfter(ds[..|ds| - 1], window, retention), d.request, d.now, window, retention).0
  }

  /** What delivery `i` is answered. */
  function Answer(ds: seq<Delivery>, i: nat, window: nat, retention: Time): Option<Code>
    requires i < |ds|
  {
    Verify(StoreAfter(ds[..i], window, retention), ds[i].request, ds[i].now, window, retention).1
  }

  predicate Delivered(ds: seq<Delivery>, i: nat, window: nat, retention: Time)
    requires i < |ds|
  {
    Answer(ds, i, window, retention).None?
  }

  ghost predicate InOrder(ds: seq<Delivery>) {
    forall i, j :: 0 <= i <= j < |ds| ==> ds[i].now <= ds[j].now
  }

  lemma {:induction false} StoreIsItsCalls(ds: seq<Delivery>, window: nat, retention: Time)
    ensures StoreAfter(ds, window, retention) == SeenAfter(StoreCalls(ds, window), retention)
  {
    if ds == [] {
    } else {
      var d, rest := ds[|ds| - 1], ds[..|ds| - 1];
      StoreIsItsCalls(rest, window, retention);
      if Screened(d.request, d.now, window).None? {
        var calls := StoreCalls(rest, window);
        assert (calls + [Call(d.request.nonce.value, d.now)])[..|calls|] == calls;
      }
    }
  }

  lemma {:induction false} CallsBounded(ds: seq<Delivery>, window: nat, at: Time)
    requires InOrder(ds) && forall i :: 0 <= i < |ds| ==> ds[i].now <= at
    ensures Monotone(StoreCalls(ds, window))
    ensures forall k :: 0 <= k < |StoreCalls(ds, window)| ==> StoreCalls(ds, window)[k].now <= at
  {
    if ds == [] {
    } else {
      CallsBounded(ds[..|ds| - 1], window, ds[|ds| - 1].now);
    }
  }

  /** A delivery that passed the screen is one store call, accepted exactly when the delivery is. */
  lemma DeliveryIsCall(ds: seq<Delivery>, i: nat, window: nat, retention: Time)
    requires i < |ds| && Screened(ds[i].request, ds[i].now, window).None?
    ensures var calls, k := StoreCalls(ds[..i + 1], window), |StoreCalls(ds[..i], window)|;
      && calls == StoreCalls(ds[..i], window) + [Call(ds[i].request.nonce.value, ds[i].now)]
      && (Accepted(calls, k, retention) <==> Delivered(ds, i, window, retention))
  {
    assert ds[..i + 1][..i] == ds[..i];
    StoreIsItsCalls(ds[..i], window, retention);
    var calls := StoreCalls(ds[..i + 1], window);
    assert calls[..|calls| - 1] == StoreCalls(ds[..i], window);
  }

  lemma {:induction false} CallsOfPrefix(ds: seq<Delivery>, i: nat, window: nat)
    requires i <= |ds|
    ensures StoreCalls(ds[..i], window) <= StoreCalls(ds, window)
  {
    if i < |ds| {
      CallsOfPrefix(ds[..|ds| - 1], i, window);
      assert ds[..|ds| - 1][..i] == ds[..i];
    } else {
      assert ds[..i] == ds;
    }
  }

  /** Two stores that answer alike from a moment on. */
  ghost predicate Alike(a: Seen, b: Seen, now: Time, retention: Time) {
    Pruned(a, now - retention) == Pruned(b, now - retention)
  }

  lemma AlikeLater(a: Seen, b: Seen, now: Time, later: Time, retention: Time)
    requires Alike(a, b, now, retention) && now <= later
    ensures Alike(a, b, later, retention)
  {
    PrunedTwice(a, now - retention, later - retention);
    PrunedTwice(b, now - retention, later - retention);
  }

  lemma PrunedTwice(seen: Seen, early: Time, late: Time)
    requires early <= late
    ensures Pruned(Pruned(seen, early), late) == Pruned(seen, late)
  {
  }

  lemma RefusedIsAlike(seen: Seen, r: Request, now: Time, window: nat, retention: Time)
    requires Verify(seen, r, now, window, retention).1.Some?
    ensures Alike(Verify(seen, r, now, window, retention).0, seen, now, retention)
  {
    PrunedTwice(seen, now - retention, now - retention);
  }

  /** The run without delivery `i`. */
  function Without(ds: seq<Delivery>, i: nat): seq<Delivery>
    requires i < |ds|
  {
    ds[..i] + ds[i + 1..]
  }

  lemma PrefixWithout(ds: seq<Delivery>, i: nat, j: nat)
    requires i < j <= |ds|
    ensures ds[..j][..j - 1] == ds[..j - 1] && |Without(ds, i)| == |ds| - 1
    ensures if j == i + 1 then Without(ds, i)[..j - 1] == ds[..i]
      else Without(ds, i)[..j - 1][..j - 2] == Without(ds, i)[..j - 2] && Without(ds, i)[j - 2] == ds[j - 1]
  {
  }

  lemma LastDelivery(ds: seq<Delivery>, n: nat, window: nat, retention: Time)
    requires 0 < n <= |ds|
    ensures StoreAfter(ds[..n], window, retention)
      == Verify(StoreAfter(ds[..n - 1], window, retention), ds[n - 1].request, ds[n - 1].now, window, retention).0
  {
    assert ds[..n][..n - 1] == ds[..n - 1];
  }

  /** Stores that are alike when a delivery comes are alike after it. */
  lemma VerifyKeepsAlike(a: Seen, b: Seen, d: Delivery, window: nat, retention: Time)
    requires Alike(a, b, d.now, retention)
    ensures Alike(Verify(a, d.request, d.now, window, retention).0, Verify(b, d.request, d.now, window, retention).0,
                  d.now, retention)
  {
  }

  lemma {:induction false} StoresStayAlike(ds: seq<Delivery>, i: nat, j: nat, window: nat, retention: Time)
    requires InOrder(ds) && i < j <= |ds| && !Delivered(ds, i, window, retention)
    ensures Alike(StoreAfter(ds[..j], window, retention), StoreAfter(Without(ds, i)[..j - 1], window, retention),
                  ds[j - 1].now, retention)
    decreases j
  {
    hide StoreAfter, Verify, Alike, Without;
    var es := Without(ds, i);
    PrefixWithout(ds, i, j);
    LastDelivery(ds, j, window, retention);
    if j == i + 1 {
      RefusedIsAlike(StoreAfter(ds[..i], window, retention), ds[i].request, ds[i].now, window, retention);
    } else {
      StoresStayAlike(ds, i, j - 1, window, retention);
      LastDelivery(es, j - 1, window, retention);
      AlikeLater(StoreAfter(ds[..j - 1], window, retention), StoreAfter(es[..j - 2], window, retention),
                 ds[j - 2].now, ds[j - 1].now, retention);
      VerifyKeepsAlike(StoreAfter(ds[..j - 1], window, retention), StoreAfter(es[..j - 2], window, retention),
                       ds[j - 1], window, retention);
    }
  }

  /** A refused delivery leaves no trace: without it every later delivery gets the same answer. */
  lemma RefusedLeavesNoTrace(ds: seq<Delivery>, i: nat, j: nat, window: nat, retention: Time)
    requires InOrder(ds) && i < j < |ds| && !Delivered(ds, i, window, retention)
    ensures Delivered(Without(ds, i), j - 1, window, retention) <==> Delivered(ds, j, window, retention)
  {
    StoresStayAlike(ds, i, j, window, retention);
    AlikeLater(StoreAfter(ds[..j], window, retention), StoreAfter(Without(ds, i)[..j - 1], window, retention),
               ds[j - 1].now, ds[j].now, retention);
    assert Without(ds, i)[j - 1] == ds[j];
  }

  /** The retention that covers the whole time a timestamp stays acceptable. */
  function Enough(window: nat): Time {
    (2 * window + 1) * SECOND - 1
  }

  /** Two accepted deliveries of one timestamp are less than the window apart. */
  lemma WithinWindow(a: Time, b: Time, stamp: nat, window: nat)
    requires a <= b && Distance(a / SECOND, stamp) <= window && Distance(b / SECOND, stamp) <= window
    ensures b - a <= Enough(window)
  {
  }

  lemma SameStampIsNear(ds: seq<Delivery>, i: nat, j: nat, window: nat, retention: Time)
    requires InOrder(ds) && i < j < |ds| && ds[i].request.stamp == ds[j].request.stamp
    requires Delivered(ds, i, window, retention) && Delivered(ds, j, window, retention)
    ensures ds[j].now - ds[i].now <= Enough(window)
  {
    hide StoreAfter, Enough;
    WithinWindow(ds[i].now, ds[j].now, ds[i].request.stamp.n, window);
  }

  /** A call whose nonce was accepted within the retention is turned away. */
  lemma RepeatedCall(calls: seq<Call>, k: nat, m: nat, retention: Time)
    requires Monotone(calls) && retention >= 0 && k < m < |calls| && calls[k].nonce == calls[m].nonce
    requires calls[m].now - calls[k].now <= retention && Accepted(calls, k, retention)
    ensures !Accepted(calls, m, retention)
  {
    hide Accepted, Monotone;
    RememberExactly(calls, m, retention);
    assert AcceptedRecently(calls, k, calls[m].nonce, calls[m].now, retention);
  }

  function PlaceOf(ds: seq<Delivery>, i: nat, window: nat): nat
    requires i <= |ds|
  {
    |StoreCalls(ds[..i], window)|
  }

  /** An accepted delivery is an accepted call at its place, in the calls of any longer run. */
  lemma DeliveredCall(ds: seq<Delivery>, i: nat, j: nat, window: nat, retention: Time)
    requires i <= j < |ds| && Delivered(ds, i, window, retention)
    ensures var calls, k := StoreCalls(ds[..j + 1], window), PlaceOf(ds, i, window);
      && k < |calls| && k < PlaceOf(ds, i + 1, window) && ds[i].request.nonce.Some?
      && calls[k] == Call(ds[i].request.nonce.value, ds[i].now) && Accepted(calls, k, retention)
  {
    MadeCall(ds, PlaceOf(ds, i, window), i, j + 1, window, retention);
    DeliveryIsCall(ds, i, window, retention);
    hide Accepted, Delivered;
  }

  lemma PrefixCalls(ds: seq<Delivery>, i: nat, j: nat, window: nat)
    requires i <= j <= |ds|
    ensures var early, calls := StoreCalls(ds[..i], window), StoreCalls(ds[..j], window);
      |early| <= |calls| && calls[..|early|] == early
  {
    CallsOfPrefix(ds[..j], i, window);
    hide StoreCalls;
    assert ds[..j][..i] == ds[..i];
  }

  lemma PlacesGrow(ds: seq<Delivery>, i: nat, j: nat, window: nat)
    requires i <= j <= |ds|
    ensures PlaceOf(ds, i, window) <= PlaceOf(ds, j, window)
  {
    PrefixCalls(ds, i, j, window);
  }

  // ---------------------------------------------------------------- exactly what is accepted

  /** Delivery `j` was accepted with this nonce, and no more than the retention before `now`. */
  ghost predicate DeliveredRecently(
      ds: seq<Delivery>, j: nat, nonce: Option<string>, now: Time, window: nat, retention: Time)
    requires j < |ds|
  {
    ds[j].request.nonce == nonce && Delivered(ds, j, window, retention) && now - ds[j].now <= retention
  }

  /** Call `m` of the store was made by delivery `j`. */
  ghost predicate MadeBy(ds: seq<Delivery>, m: nat, j: nat, window: nat) {
    j < |ds| && Screened(ds[j].request, ds[j].now, window).None? && PlaceOf(ds, j, window) == m
  }

  lemma {:induction false} SomeDeliveryMade(ds: seq<Delivery>, i: nat, m: nat, window: nat) returns (j: nat)
    requires i <= |ds| && m < PlaceOf(ds, i, window)
    ensures j < i && MadeBy(ds, m, j, window)
  {
    assert i > 0;
    assert ds[..i][..i - 1] == ds[..i - 1];
    if m < PlaceOf(ds, i - 1, window) {
      j := SomeDeliveryMade(ds, i - 1, m, window);
    } else {
      j := i - 1;
    }
  }

  /** The call a delivery made, in the calls of any longer run. */
  lemma MadeCall(ds: seq<Delivery>, m: nat, j: nat, i: nat, window: nat, retention: Time)
    requires MadeBy(ds, m, j, window) && j < i <= |ds|
    ensures var calls := StoreCalls(ds[..i], window);
      && m < |calls| && Call(ds[j].request.nonce.value, ds[j].now) == calls[m]
      && (Accepted(calls, m, retention) <==> Delivered(ds, j, window, retention))
    ensures ds[j].request.nonce.Some?
  {
    DeliveryIsCall(ds, j, window, retention);
    PrefixCalls(ds, j + 1, i, window);
    hide StoreCalls, Accepted, Delivered, Screened;
    var calls, early := StoreCalls(ds[..i], window), StoreCalls(ds[..j + 1], window);
    AcceptedInPrefix(calls, |early|, m, retention);
  }

  /** An accepted earlier call was an accepted earlier delivery. */
  lemma EarlierDelivery(ds: seq<Delivery>, i: nat, m: nat, nonce: string, now: Time, window: nat, retention: Time)
    requires i < |ds| && m < PlaceOf(ds, i, window) && m < |StoreCalls(ds[..i + 1], window)|
    requires AcceptedRecently(StoreCalls(ds[..i + 1], window), m, nonce, now, retention)
    ensures exists j: nat :: j < i && DeliveredRecently(ds, j, Some(nonce), now, window, retention)
  {
    hide StoreCalls, Accepted, Delivered, PlaceOf, MadeBy;
    var j := SomeDeliveryMade(ds, i, m, window);
    MadeCall(ds, m, j, i + 1, window, retention);
    assert DeliveredRecently(ds, j, Some(nonce), now, window, retention);
  }

  /** An accepted earlier delivery was an accepted earlier call. */
  lemma EarlierCall(ds: seq<Delivery>, i: nat, j: nat, nonce: string, now: Time, window: nat, retention: Time)
    requires j < i < |ds| && DeliveredRecently(ds, j, Some(nonce), now, window, retention)
    ensures var calls, m := StoreCalls(ds[..i + 1], window), PlaceOf(ds, j, window);
      m < PlaceOf(ds, i, window) && m < |calls| && AcceptedRecently(calls, m, nonce, now, retention)
  {
    hide StoreCalls, Accepted, Delivered, PlaceOf;
    DeliveredCall(ds, j, i, window, retention);
    PlacesGrow(ds, j + 1, i, window);
  }

  /** A delivery that passes the other checks is accepted exactly when its nonce was not accepted recently. */
  lemma ReplaysExactly(ds: seq<Delivery>, i: nat, window: nat, retention: Time)
    requires InOrder(ds) && retention >= 0 && i < |ds| && Screened(ds[i].request, ds[i].now, window).None?
    ensures ds[i].request.nonce.Some?
    ensures Delivered(ds, i, window, retention)
      <==> forall j: nat :: j < i ==> !DeliveredRecently(ds, j, ds[i].request.nonce, ds[i].now, window, retention)
  {
    var nonce, now := ds[i].request.nonce.value, ds[i].now;
    var calls, k := StoreCalls(ds[..i + 1], window), PlaceOf(ds, i, window);
    CallsBounded(ds[..i + 1], window, now);
    MadeCall(ds, k, i, i + 1, window, retention);
    hide StoreCalls, Accepted, Delivered, InOrder, Monotone, PlaceOf, Screened, DeliveredRecently, AcceptedRecently;
    RememberExactly(calls, k, retention);
    if m: nat :| m < k && AcceptedRecently(calls, m, nonce, now, retention) {
      EarlierDelivery(ds, i, m, nonce, now, window, retention);
    }
    if j: nat :| j < i && DeliveredRecently(ds, j, Some(nonce), now, window, retention) {
      EarlierCall(ds, i, j, nonce, now, window, retention);
    }
  }

  /** The stamp, in seconds, is no further than the window from the clock. */
  predicate InWindow(stamp: Stamp, now: Time, window: nat) {
    stamp.Seconds? && now / 1_000_000 <= stamp.n + window && stamp.n <= now / 1_000_000 + window
  }

  /** What each code says is wrong with delivery `i`; a replay is one of what the run accepted before. */
  ghost predicate AtFault(ds: seq<Delivery>, i: nat, code: Code, window: nat, retention: Time)
    requires i < |ds|
  {
    var r, now := ds[i].request, ds[i].now;
    match code
    case WEBHOOK_HEADER_MISSING => r.stamp.Missing? || r.nonce.None? || r.signature.None?
    case WEBHOOK_TIMESTAMP_EXPIRED => !r.stamp.Missing? && !InWindow(r.stamp, now, window)
    case WEBHOOK_SIGNATURE_INVALID => r.signature == Some(false)
    case WEBHOOK_BODY_HASH_MISMATCH => r.claim == Some(false)
    case WEBHOOK_NONCE_REUSED =>
      exists j: nat :: j < i && DeliveredRecently(ds, j, r.nonce, now, window, retention)
  }

  /** The order of the checks. */
  function Rank(code: Code): nat {
    match code
    case WEBHOOK_HEADER_MISSING => 0
    case WEBHOOK_TIMESTAMP_EXPIRED => 1
    case WEBHOOK_SIGNATURE_INVALID => 2
    case WEBHOOK_BODY_HASH_MISMATCH => 3
    case WEBHOOK_NONCE_REUSED => 4
  }

  ghost predicate FirstFault(ds: seq<Delivery>, i: nat, code: Code, window: nat, retention: Time)
    requires i < |ds|
  {
    && AtFault(ds, i, code, window, retention)
    && forall c :: Rank(c) < Rank(code) ==> !AtFault(ds, i, c, window, retention)
  }

  lemma AnswerIsFault(ds: seq<Delivery>, i: nat, window: nat, retention: Time)
    requires InOrder(ds) && retention >= 0 && i < |ds|
    ensures match Answer(ds, i, window, retention)
      case Some(code) => FirstFault(ds, i, code, window, retention)
      case None => forall c :: !AtFault(ds, i, c, window, retention)
  {
    hide StoreAfter, DeliveredRecently, InOrder, Remember;
    if Screened(ds[i].request, ds[i].now, window).None? {
      ReplaysExactly(ds, i, window, retention);
    }
  }

  /** Every delivery of a run is answered with the first of its faults. */
  lemma AnsweredByFirstFault(ds: seq<Delivery>, i: nat, code: Code, window: nat, retention: Time)
    requires InOrder(ds) && retention >= 0 && i < |ds|
    ensures Answer(ds, i, window, retention) == Some(code) <==> FirstFault(ds, i, code, window, retention)
  {
    hide Answer, AtFault;
    AnswerIsFault(ds, i, window, retention);
    match Answer(ds, i, window, retention)
    case Some(c) => assert Rank(c) < Rank(code) || Rank(code) < Rank(c) || c == code;
    case None =>
  }

  /**
   A delivery of a run is accepted exactly when its headers are there, its stamp is a number within the window, the
   signature matches, the body is not contradicted, and its nonce was not accepted within the retention.
   */
  lemma DeliveredExactly(ds: seq<Delivery>, i: nat, window: nat, retention: Time)
    requires InOrder(ds) && retention >= 0 && i < |ds|
    ensures var r := ds[i].request;
      Delivered(ds, i, window, retention) <==>
      && r.nonce.Some? && r.signature == Some(true) && r.claim != Some(false)
      && InWindow(r.stamp, ds[i].now, window)
      && forall j: nat :: j < i ==> !DeliveredRecently(ds, j, r.nonce, ds[i].now, window, retention)
  {
    hide StoreAfter, DeliveredRecently, InOrder, Remember;
    if Screened(ds[i].request, ds[i].now, window).None? {
      ReplaysExactly(ds, i, window, retention);
    }
  }

  /** With enough retention no (timestamp, nonce) pair is accepted twice in any run. */
  lemma NeverTwice(ds: seq<Delivery>, i: nat, j: nat, window: nat, retention: Time)
    requires InOrder(ds) && i < j < |ds| && retention >= Enough(window)
    requires Delivered(ds, i, window, retention) && Delivered(ds, j, window, retention)
    ensures ds[i].request.stamp != ds[j].request.stamp || ds[i].request.nonce != ds[j].request.nonce
  {
    if ds[i].request.stamp == ds[j].request.stamp && ds[i].request.nonce == ds[j].request.nonce {
      SameStampIsNear(ds, i, j, window, retention);
      CallsBounded(ds[..j + 1], window, ds[j].now);
      hide StoreCalls, Accepted, Delivered, InOrder, Monotone, PlaceOf;
      var calls, k, m := StoreCalls(ds[..j + 1], window), PlaceOf(ds, i, window), PlaceOf(ds, j, window);
      DeliveredCall(ds, i, j, window, retention);
      DeliveredCall(ds, j, j, window, retention);
      PlacesGrow(ds, i + 1, j, window);
      RepeatedCall(calls, k, m, retention);
      assert false;
    }
  }

  ghost predicate ReplayFree(window: nat, retention: Time) {
    forall ds: seq<Delivery>, i: nat, j: nat ::
      InOrder(ds) && i < j < |ds| && Delivered(ds, i, window, retention) && Delivered(ds, j, window, retention) ==>
        ds[i].request.stamp != ds[j].request.stamp || ds[i].request.nonce != ds[j].request.nonce
  }

  /** A shorter retention lets the same request through twice: at the first and the last moment of its window. */
  lemma ShorterIsNotEnough(window: nat, retention: Time)
    requires 0 <= retention < Enough(window)
    ensures !ReplayFree(window, retention)
  {
    var r := Request(Seconds(window), Some([]), Some(true), None);
    var first, last := Delivery(r, 0), Delivery(r, (2 * window + 1) * SECOND - 1);
    var ds := [first, last];
    assert last.now / SECOND == 2 * window;
    assert ds[..0] == [] && ds[..1] == [first] && [first][..0] == [];
    assert StoreAfter([first], window, retention) == map[[] := 0];
    assert Delivered(ds, 0, window, retention);
    assert Delivered(ds, 1, window, retention);
    assert InOrder(ds);
  }

  /** The exact retention: twice the window plus one second, less a microsecond. */
  lemma RetentionExactly(window: nat, retention: Time)
    requires retention >= 0
    ensures ReplayFree(window, retention) <==> retention >= Enough(window)
  {
    if retention >= Enough(window) {
      forall ds: seq<Delivery>, i: nat, j: nat |
        InOrder(ds) && i < j < |ds| && Delivered(ds, i, window, retention) && Delivered(ds, j, window, retention)
        ensures ds[i].request.stamp != ds[j].request.stamp || ds[i].request.nonce != ds[j].request.nonce
      {
        NeverTwice(ds, i, j, window, retention);
      }
    } else {
      ShorterIsNotEnough(window, retention);
    }
  }

  const WINDOW := 300
  const RETENTION: Time := 24 * 3600 * SECOND

  /** The window and the retention the server runs with are far apart enough. */
  lemma DefaultsAreReplayFree()
    ensures ReplayFree(WINDOW, RETENTION)
  {
    RetentionExactly(WINDOW, RETENTION);
  }
}
