/** Shared value types: optional values, JSON trees, and the byte order on identifiers. */
module Prelude {
  datatype Option<+T> = None | Some(value: T)

  /** Identifiers and timestamps are text. */
  type Id = string

  /** A JSON value. The server treats almost all of them as opaque. */
  datatype Json =
    | Null
    | Bool(b: bool)
    | Number(n: int)
    | Text(text: string)
    | Array(items: seq<Json>)
    | Object(fields: map<string, Json>)

  /** Subtraction that stops at zero, `saturating_sub`. */
  function Minus(a: nat, b: nat): nat { if a < b then 0 else a - b }

  /** Lexicographic order, the order of `BTreeMap<String, _>` keys and of SQLite `TEXT`. */
  predicate Before(a: string, b: string) {
    if b == "" then false
    else if a == "" then true
    else a[0] < b[0] || (a[0] == b[0] && Before(a[1..], b[1..]))
  }

  lemma {:induction false} BeforeIrreflexive(a: string)
    ensures !Before(a, a)
  {
    if a != "" {
      BeforeIrreflexive(a[1..]);
    }
  }

  lemma {:induction false} BeforeTransitive(a: string, b: string, c: string)
    requires Before(a, b) && Before(b, c)
    ensures Before(a, c)
  {
    if a != "" && a[0] == b[0] && b[0] == c[0] {
      BeforeTransitive(a[1..], b[1..], c[1..]);
    }
  }

  lemma {:induction false} BeforeTotal(a: string, b: string)
    ensures Before(a, b) || a == b || Before(b, a)
  {
    if a != "" && b != "" && a[0] == b[0] {
      BeforeTotal(a[1..], b[1..]);
      assert a[1..] == b[1..] ==> a == [a[0]] + a[1..] == [b[0]] + b[1..] == b;
    }
  }

  /** The least key is the first one a sorted map iterates over. */
  ghost predicate IsFirst(keys: set<Id>, k: Id) {
    k in keys && forall other :: other in keys && other != k ==> Before(k, other)
  }

  lemma SmallerIsFirst(rest: set<Id>, y: Id, x: Id)
    requires IsFirst(rest, y) && Before(x, y)
    ensures IsFirst(rest + {x}, x)
  {
    forall other | other in rest + {x} && other != x ensures Before(x, other) {
      if other != y {
        BeforeTransitive(x, y, other);
      }
    }
  }

  lemma {:induction false} FirstExists(keys: set<Id>)
    requires keys != {}
    ensures exists k :: IsFirst(keys, k)
    decreases |keys|
  {
    var x :| x in keys;
    var rest := keys - {x};
    assert keys == rest + {x};
    if rest == {} {
      assert IsFirst(keys, x);
    } else {
      FirstExists(rest);
      var y :| IsFirst(rest, y);
      BeforeTotal(x, y);
      if Before(y, x) {
        assert IsFirst(keys, y);
      } else {
        SmallerIsFirst(rest, y, x);
      }
    }
  }

  lemma FirstUnique(keys: set<Id>, j: Id, k: Id)
    requires IsFirst(keys, j) && IsFirst(keys, k)
    ensures j == k
  {
    if j != k {
      BeforeTransitive(j, k, j);
      BeforeIrreflexive(j);
    }
  }

  /** The first key of a nonempty set, in iteration order. */
  function First(keys: set<Id>): (k: Id)
    requires keys != {}
    ensures k in keys
    ensures forall other :: other in keys && other != k ==> Before(k, other)
  {
    FirstExists(keys);
    var k :| k in keys && forall other :: other in keys && other != k ==> Before(k, other);
    assert forall j :: j in keys && (forall other :: other in keys && other != j ==> Before(j, other)) ==> IsFirst(keys, j);
    forall j | IsFirst(keys, j) ensures j == k { FirstUnique(keys, j, k); }
    k
  }

  /** No key twice. */
  predicate Distinct(keys: seq<Id>) { forall i, j :: 0 <= i < j < |keys| ==> keys[i] != keys[j] }

  /** The keys of a sorted map, in iteration order. */
  function KeysInOrder(keys: set<Id>): (r: seq<Id>)
    ensures Distinct(r)
    ensures forall k :: k in keys <==> k in r
    ensures forall i, j :: 0 <= i < j < |r| ==> Before(r[i], r[j])
    decreases |keys|
  {
    if keys == {} then []
    else
      var k := First(keys);
      assert |keys - {k}| < |keys|;
      [k] + KeysInOrder(keys - {k})
  }

  /** The elements a test keeps, in order. */
  function Filter<T>(xs: seq<T>, keep: T -> bool): seq<T>
    decreases |xs|
  {
    if xs == [] then []
    else
      var n := |xs| - 1;
      Filter(xs[..n], keep) + (if keep(xs[n]) then [xs[n]] else [])
  }

  lemma FilterLast<T>(xs: seq<T>, x: T, keep: T -> bool)
    ensures Filter(xs + [x], keep) == Filter(xs, keep) + (if keep(x) then [x] else [])
  {
    assert (xs + [x])[..|xs|] == xs;
  }

  /** Filtering keeps exactly the elements that pass. */
  lemma {:induction false} FilterKeeps<T(!new)>(xs: seq<T>, keep: T -> bool)
    ensures forall x :: x in Filter(xs, keep) <==> x in xs && keep(x)
    ensures |Filter(xs, keep)| <= |xs|
    decreases |xs|
  {
    if xs != [] {
      var n := |xs| - 1;
      FilterKeeps(xs[..n], keep);
      FilterLast(xs[..n], xs[n], keep);
      hide Filter;
      assert xs == xs[..n] + [xs[n]];
    }
  }

  /** Elements that were apart stay apart. */
  lemma {:induction false} FilterApart<T(!new), K>(xs: seq<T>, keep: T -> bool, key: T -> K)
    requires forall i, j :: 0 <= i < j < |xs| ==> key(xs[i]) != key(xs[j])
    ensures forall i, j :: 0 <= i < j < |Filter(xs, keep)| ==> key(Filter(xs, keep)[i]) != key(Filter(xs, keep)[j])
    decreases |xs|
  {
    if xs != [] {
      var n := |xs| - 1;
      FilterApart(xs[..n], keep, key);
      FilterKeeps(xs[..n], keep);
      var before := Filter(xs[..n], keep);
      forall i | 0 <= i < |before| ensures key(before[i]) != key(xs[n]) {
        assert before[i] in before && before[i] in xs[..n];
      }
    }
  }

  lemma {:induction false} FilterAll<T>(xs: seq<T>, keep: T -> bool)
    requires forall i :: 0 <= i < |xs| ==> keep(xs[i])
    ensures Filter(xs, keep) == xs
    decreases |xs|
  {
    if xs != [] {
      var n := |xs| - 1;
      FilterAll(xs[..n], keep);
      assert xs == xs[..n] + [xs[n]];
    }
  }

  /** Tests that agree on the elements keep the same elements. */
  lemma {:induction false} SameFilter<T>(xs: seq<T>, a: T -> bool, b: T -> bool)
    requires forall x :: x in xs ==> a(x) == b(x)
    ensures Filter(xs, a) == Filter(xs, b)
    decreases |xs|
  {
    if xs != [] {
      SameFilter(xs[..|xs| - 1], a, b);
    }
  }

  lemma KeysCount<K, V>(m: map<K, V>)
    ensures |m| == |m.Keys|
  {
    if m != map[] {
      var k :| k in m;
      KeysCount(m - {k});
      assert m.Keys == (m - {k}).Keys + {k};
      assert m == (m - {k})[k := m[k]];
    }
  }

  lemma SubsetCount<T>(a: set<T>, b: set<T>)
    requires a <= b
    ensures |a| <= |b|
  {
    assert b == a + (b - a);
  }
}
