/** Listing sessions page by page (`list_sessions`, `encode_cursor` and `decode_cursor` in
    piqo-server/src/storage.rs). */
module Pagination {
  import opened Prelude

  /** What a listing is sorted by. */
  datatype Key = Key(createdAt: string, id: Id)

  predicate KeyBefore(a: Key, b: Key) {
    Before(a.createdAt, b.createdAt) || (a.createdAt == b.createdAt && Before(a.id, b.id))
  }

  lemma KeyTransitive(a: Key, b: Key, c: Key)
    requires KeyBefore(a, b) && KeyBefore(b, c)
    ensures KeyBefore(a, c)
  {
    if Before(a.createdAt, b.createdAt) && Before(b.createdAt, c.createdAt) {
      BeforeTransitive(a.createdAt, b.createdAt, c.createdAt);
    } else if a.createdAt == b.createdAt && b.createdAt == c.createdAt {
      BeforeTransitive(a.id, b.id, c.id);
    }
  }

  lemma KeyOrder(a: Key, b: Key)
    ensures !KeyBefore(a, a)
    ensures KeyBefore(a, b) || a == b || KeyBefore(b, a)
    ensures !(KeyBefore(a, b) && KeyBefore(b, a))
  {
    BeforeIrreflexive(a.createdAt);
    BeforeIrreflexive(a.id);
    BeforeTotal(a.createdAt, b.createdAt);
    BeforeTotal(a.id, b.id);
    if KeyBefore(a, b) && KeyBefore(b, a) {
      KeyTransitive(a, b, a);
    }
  }

  // ---------------------------------------------------------------- the sorted table

  ghost predicate IsLatest(table: set<Key>, k: Key) {
    k in table && forall other :: other in table && other != k ==> KeyBefore(other, k)
  }

  lemma {:induction false} LatestExists(table: set<Key>)
    requires table != {}
    ensures exists k :: IsLatest(table, k)
    decreases |table|
  {
    var x :| x in table;
    var rest := table - {x};
    assert table == rest + {x};
    if rest == {} {
      assert IsLatest(table, x);
    } else {
      LatestExists(rest);
      var y :| IsLatest(rest, y);
      KeyOrder(x, y);
      if KeyBefore(x, y) {
        assert IsLatest(table, y);
      } else {
        forall other | other in table && other != x ensures KeyBefore(other, x) {
          if other != y { KeyTransitive(other, y, x); }
        }
        assert IsLatest(table, x);
      }
    }
  }

  lemma LatestUnique(table: set<Key>, j: Key, k: Key)
    requires IsLatest(table, j) && IsLatest(table, k)
    ensures j == k
  {
    KeyOrder(j, k);
  }

  function Latest(table: set<Key>): (k: Key)
    requires table != {}
    ensures k in table && forall other :: other in table && other != k ==> KeyBefore(other, k)
  {
    LatestExists(table);
    var k :| k in table && forall other :: other in table && other != k ==> KeyBefore(other, k);
    assert forall j :: j in table && (forall other :: other in table && other != j ==> KeyBefore(other, j)) ==> IsLatest(table, j);
    forall j | IsLatest(table, j) ensures j == k { LatestUnique(table, j, k); }
    k
  }

  /** `ORDER BY created_at DESC, id DESC`. */
  function Descending(table: set<Key>): seq<Key>
    decreases |table|
  {
    if table == {} then [] else [Latest(table)] + Descending(table - {Latest(table)})
  }

  predicate StrictlyDescending(keys: seq<Key>) { forall i, j :: 0 <= i < j < |keys| ==> KeyBefore(keys[j], keys[i]) }

  /** Every row once, newest first. */
  lemma {:induction false} DescendingIs(table: set<Key>)
    ensures forall k :: k in Descending(table) <==> k in table
    ensures |Descending(table)| == |table|
    ensures StrictlyDescending(Descending(table))
    decreases |table|
  {
    if table != {} {
      var k := Latest(table);
      DescendingIs(table - {k});
      var rest := Descending(table - {k});
      forall j | 0 <= j < |rest| ensures KeyBefore(rest[j], k) {
        assert rest[j] in rest;
      }
    }
  }

  /** No session is listed before a newer one, and of two as old as each other the one with the greater id comes first. */
  lemma NewestFirst(table: set<Key>)
    ensures var keys := Descending(table);
            forall i, j :: 0 <= i < j < |keys| ==>
              !Before(keys[i].createdAt, keys[j].createdAt) && (keys[i].createdAt == keys[j].createdAt ==> Before(keys[j].id, keys[i].id))
  {
    DescendingIs(table);
    hide Descending, Before;
    var keys := Descending(table);
    forall i, j | 0 <= i < j < |keys|
      ensures !Before(keys[i].createdAt, keys[j].createdAt) && (keys[i].createdAt == keys[j].createdAt ==> Before(keys[j].id, keys[i].id))
    {
      NewerIsNotOlder(keys[i], keys[j]);
    }
  }

  lemma NewerIsNotOlder(newer: Key, older: Key)
    requires KeyBefore(older, newer)
    ensures !Before(newer.createdAt, older.createdAt) && (newer.createdAt == older.createdAt ==> Before(older.id, newer.id))
  {
    BeforeIrreflexive(newer.createdAt);
    if Before(newer.createdAt, older.createdAt) && Before(older.createdAt, newer.createdAt) {
      BeforeTransitive(newer.createdAt, older.createdAt, newer.createdAt);
    }
  }

  function BelowKey(table: set<Key>, k: Key): set<Key> { set x | x in table && KeyBefore(x, k) }

  lemma DescendingNext(table: set<Key>)
    requires Descending(table) != []
    ensures table != {} && Descending(table) == [Latest(table)] + Descending(table - {Latest(table)})
    ensures BelowKey(table, Latest(table)) == table - {Latest(table)}
  {
    hide Before, KeyBefore;
    KeyOrder(Latest(table), Latest(table));
  }

  lemma BelowOther(table: set<Key>, k: Key)
    requires k in table && k != Latest(table)
    ensures BelowKey(table, k) == BelowKey(table - {Latest(table)}, k)
  {
    hide Before, KeyBefore;
    KeyOrder(Latest(table), k);
  }

  /** What comes after a row in the listing is the listing of the rows before it. */
  lemma {:induction false} DescendingRest(table: set<Key>, i: nat)
    requires i < |Descending(table)|
    ensures Descending(BelowKey(table, Descending(table)[i])) == Descending(table)[i + 1..]
    decreases |table|
  {
    hide Before, KeyBefore, Latest, Descending, BelowKey, StrictlyDescending;
    DescendingNext(table);
    var top := Latest(table);
    var rest := table - {top};
    if i > 0 {
      DescendingRest(rest, i - 1);
      DescendingIs(rest);
      var k := Descending(rest)[i - 1];
      assert k in Descending(rest);
      BelowOther(table, k);
    }
  }

  // ---------------------------------------------------------------- cursors

  function EncodeCursor(k: Key): string { k.createdAt + "|" + k.id }

  /** The first separator, or the length. */
  function Separator(s: string): (i: nat)
    ensures i <= |s|
    ensures i < |s| ==> s[i] == '|'
    ensures forall j :: 0 <= j < i ==> s[j] != '|'
  {
    if s == "" || s[0] == '|' then 0 else 1 + Separator(s[1..])
  }

  function DecodeCursor(s: string): Option<Key> {
    var i := Separator(s);
    if i == |s| || i == 0 || i + 1 == |s| then None else Some(Key(s[..i], s[i + 1..]))
  }

  predicate Encodable(k: Key) { k.createdAt != "" && '|' !in k.createdAt && k.id != "" }

  /** A cursor gives back its parts exactly when both are nonempty and the timestamp has no separator. */
  lemma CursorRoundTrip(k: Key)
    ensures DecodeCursor(EncodeCursor(k)) == Some(k) <==> Encodable(k)
  {
    var s := EncodeCursor(k);
    var i := Separator(s);
    assert s[|k.createdAt|] == '|';
    assert i <= |k.createdAt|;
    assert forall j :: 0 <= j < |k.createdAt| ==> s[j] == k.createdAt[j];
    if '|' !in k.createdAt {
      assert i == |k.createdAt|;
      assert s[..i] == k.createdAt && s[i + 1..] == k.id;
    } else {
      var j :| 0 <= j < |k.createdAt| && k.createdAt[j] == '|';
      assert i <= j;
      assert |s[..i]| < |k.createdAt|;
    }
  }

  // ---------------------------------------------------------------- pages

  function Clamp(limit: nat): nat { if limit < 1 then 1 else if limit > 200 then 200 else limit }

  datatype Page = Page(rows: seq<Key>, next: Option<string>) | InvalidCursor

  /** The first n rows, and a cursor when there are more. */
  function Cut(all: seq<Key>, n: nat): Page
    requires n > 0
  {
    var fetched := if |all| > n then all[..n + 1] else all;
    if |fetched| > n then Page(fetched[..n], Some(EncodeCursor(fetched[n - 1]))) else Page(fetched, None)
  }

  lemma CutMeaning(all: seq<Key>, seen: nat, n: nat)
    requires n > 0 && seen <= |all|
    ensures var page := Cut(all[seen..], n);
            && page.Page?
            && page.rows == all[seen..if seen + n < |all| then seen + n else |all|]
            && (page.next.Some? <==> seen + n < |all|)
            && (page.next.Some? ==> page.next.value == EncodeCursor(all[seen + n - 1]))
  {
    hide EncodeCursor;
    var rest := all[seen..];
    if |rest| > n {
      assert rest[..n + 1][..n] == all[seen..seen + n];
      assert rest[..n + 1][n - 1] == all[seen + n - 1];
    }
  }

  /** One page: one row more than the limit is fetched, to know whether there is a next page. */
  function ListSessions(table: set<Key>, cursor: Option<string>, limit: nat): Page {
    if cursor.Some? && DecodeCursor(cursor.value).None? then InvalidCursor
    else
      var all := Descending(if cursor.Some? then BelowKey(table, DecodeCursor(cursor.value).value) else table);
      Cut(all, Clamp(limit))
  }

  predicate AllEncodable(table: set<Key>) { forall k :: k in table ==> Encodable(k) }

  /** Where a walk stands: `seen` rows have been listed, and the cursor names the last of them. */
  ghost predicate Walking(table: set<Key>, seen: nat, cursor: Option<string>) {
    && seen <= |Descending(table)|
    && (if cursor.None? then seen == 0 else 0 < seen && cursor == Some(EncodeCursor(Descending(table)[seen - 1])))
  }

  lemma RestOf(table: set<Key>, seen: nat, cursor: Option<string>)
    requires AllEncodable(table) && Walking(table, seen, cursor)
    ensures cursor.Some? ==> DecodeCursor(cursor.value).Some?
    ensures Descending(if cursor.Some? then BelowKey(table, DecodeCursor(cursor.value).value) else table) == Descending(table)[seen..]
  {
    if cursor.Some? {
      var k := Descending(table)[seen - 1];
      DescendingIs(table);
      assert k in Descending(table);
      CursorRoundTrip(k);
      DescendingRest(table, seen - 1);
    }
  }

  lemma PageIsNext(table: set<Key>, seen: nat, cursor: Option<string>, limit: nat)
    requires AllEncodable(table) && Walking(table, seen, cursor)
    ensures var all, n := Descending(table), Clamp(limit);
            var page := ListSessions(table, cursor, limit);
            && page.Page?
            && page.rows == all[seen..if seen + n < |all| then seen + n else |all|]
            && (page.next.Some? <==> seen + n < |all|)
            && (page.next.Some? ==> Walking(table, seen + n, page.next))
  {
    RestOf(table, seen, cursor);
    hide DecodeCursor, EncodeCursor, Descending, Clamp, Cut, BelowKey;
    ClampIsNearest(limit);
    CutMeaning(Descending(table), seen, Clamp(limit));
  }

  /** A limit between 1 and 200 is kept; any other becomes the nearer of the two. */
  lemma ClampIsNearest(limit: nat)
    ensures 1 <= Clamp(limit) <= 200
    ensures 1 <= limit <= 200 ==> Clamp(limit) == limit
    ensures limit < 1 ==> Clamp(limit) == 1
    ensures limit > 200 ==> Clamp(limit) == 200
  {
  }

  /** Following cursors over a fixed table lists every session exactly once, newest first, and ends, whatever the
      page size; every page but the last is full. */
  method ListAll(table: set<Key>, limit: nat) returns (pages: seq<seq<Key>>, listed: seq<Key>)
    requires AllEncodable(table)
    ensures listed == Descending(table) == Flattened(pages)
    ensures |pages| > 0 && forall i :: 0 <= i < |pages| - 1 ==> |pages[i]| == Clamp(limit)
    ensures 1 <= limit <= 200 ==> forall i :: 0 <= i < |pages| - 1 ==> |pages[i]| == limit
    ensures |pages[|pages| - 1]| <= Clamp(limit)
  {
    hide Descending, ListSessions, Clamp;
    ClampIsNearest(limit);
    var cursor: Option<string> := None;
    pages, listed := [], [];
    while true
      invariant Walking(table, |listed|, cursor)
      invariant listed == Descending(table)[..|listed|] && listed == Flattened(pages)
      invariant forall i :: 0 <= i < |pages| ==> |pages[i]| == Clamp(limit)
      decreases |Descending(table)| - |listed|
    {
      PageIsNext(table, |listed|, cursor, limit);
      var page := ListSessions(table, cursor, limit);
      assert (pages + [page.rows])[..|pages|] == pages;
      listed, pages, cursor := listed + page.rows, pages + [page.rows], page.next;
      if cursor.None? {
        assert Descending(table)[..|listed|] == Descending(table);
        return pages, listed;
      }
    }
  }

  function Flattened(pages: seq<seq<Key>>): seq<Key>
    decreases |pages|
  {
    if pages == [] then [] else Flattened(pages[..|pages| - 1]) + pages[|pages| - 1]
  }
}
