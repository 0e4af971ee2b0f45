/** Datatypes and the order of strings, shared by the other modules. */
module Common {

  datatype Option<+T> = None | Some(value: T)

  /** A command either commits a value or raises an error code and rolls everything back. */
  datatype Result<+T, +E> = Ok(value: T) | Err(code: E)

  /** A digest of two parts tells all pairs apart. */
  ghost predicate CollisionFree<A(!new), B(!new)>(digest: (A, B) -> string) {
    forall a, b, c, d :: digest(a, b) == digest(c, d) ==> a == c && b == d
  }

  /** The first element with the property. */
  function FindFirst<T>(s: seq<T>, p: T -> bool): (r: Option<T>)
    ensures r.None? <==> forall i :: 0 <= i < |s| ==> !p(s[i])
    ensures r.Some? ==> r.value in s && p(r.value)
  {
    if s == [] then None else if p(s[0]) then Some(s[0]) else FindFirst(s[1..], p)
  }

  lemma {:induction false} FirstIsAt<T>(s: seq<T>, p: T -> bool, i: nat)
    requires i < |s| && p(s[i]) && forall j :: 0 <= j < i ==> !p(s[j])
    ensures FindFirst(s, p) == Some(s[i])
  {
    if i == 0 {
    } else {
      FirstIsAt(s[1..], p, i - 1);
    }
  }

  lemma {:induction false} FirstInPrefix<T>(s: seq<T>, more: seq<T>, p: T -> bool)
    requires s <= more && FindFirst(s, p).Some?
    ensures FindFirst(more, p) == FindFirst(s, p)
  {
    if s == [] || p(s[0]) {
    } else {
      FirstInPrefix(s[1..], more[1..], p);
    }
  }

  /** The order of strings by code point, a proper prefix first. */
  predicate Less(a: string, b: string) {
    b != [] && (a == [] || a[0] < b[0] || (a[0] == b[0] && Less(a[1..], b[1..])))
  }

  lemma {:induction false} LessIsTotal(a: string, b: string)
    ensures Less(a, b) || a == b || Less(b, a)
    ensures !(Less(a, b) && Less(b, a)) && !Less(a, a)
  {
    if a == [] {
    } else {
      if b != [] {
        LessIsTotal(a[1..], b[1..]);
        assert a[0] == b[0] && a[1..] == b[1..] ==> a == [a[0]] + a[1..] == [b[0]] + b[1..] == b;
      }
      LessIrreflexive(a);
    }
  }

  lemma {:induction false} LessIrreflexive(a: string)
    ensures !Less(a, a)
  {
    if a == [] {
    } else {
      LessIrreflexive(a[1..]);
    }
  }

  lemma {:induction false} LessTransitive(a: string, b: string, c: string)
    requires Less(a, b) && Less(b, c)
    ensures Less(a, c)
  {
    if a == [] || a[0] != b[0] || b[0] != c[0] {
    } else {
      LessTransitive(a[1..], b[1..], c[1..]);
    }
  }

  /** The least string of a set comes before all others. */
  predicate IsLeast(m: string, ks: set<string>) {
    m in ks && forall k :: k in ks && k != m ==> Less(m, k)
  }

  lemma {:induction false} LeastExists(ks: set<string>)
    requires ks != {}
    ensures exists m :: IsLeast(m, ks)
    decreases ks
  {
    var k :| k in ks;
    if ks == {k} {
      assert IsLeast(k, ks);
    } else {
      LeastExists(ks - {k});
      var m :| IsLeast(m, ks - {k});
      LessIsTotal(k, m);
      if Less(m, k) {
        assert IsLeast(m, ks);
      } else {
        forall j | j in ks && j != k ensures Less(k, j) {
          if j != m {
            LessTransitive(k, m, j);
          }
        }
        assert IsLeast(k, ks);
      }
    }
  }

  lemma LeastIsUnique(ks: set<string>)
    ensures forall m, n :: IsLeast(m, ks) && IsLeast(n, ks) ==> m == n
  {
    forall m, n | IsLeast(m, ks) && IsLeast(n, ks) ensures m == n {
      LessIsTotal(m, n);
    }
  }

  /** The strings of a set in ascending order. */
  function Sorted(ks: set<string>): (r: seq<string>)
    ensures forall k :: k in r <==> k in ks
    ensures forall i, j :: 0 <= i < j < |r| ==> Less(r[i], r[j])
    decreases ks
  {
    if ks == {} then []
    else
      LeastExists(ks);
      LeastIsUnique(ks);
      var m :| m in ks && IsLeast(m, ks);
      [m] + Sorted(ks - {m})
  }
}
