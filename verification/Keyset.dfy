/** Keyset pagination: following next_cursor from the start returns every row once, in order. */
module Keyset {
  import opened Common
  import opened TextOrder

  /** (sort column, external_id); tables with one key column use it twice. */
  type Key = (string, string)

  datatype Direction = Asc | Desc

  datatype Row = Row(key: Key, payload: string)

  predicate KeyLt(a: Key, b: Key) {
    Lt(a.0, b.0) || (a.0 == b.0 && Lt(a.1, b.1))
  }

  predicate Before(dir: Direction, a: Key, b: Key) {
    if dir == Asc then KeyLt(a, b) else KeyLt(b, a)
  }

  /** The table in the order of the query; the last key column is unique. */
  predicate InOrder(dir: Direction, rows: seq<Row>) {
    forall i, j :: 0 <= i < j < |rows| ==> Before(dir, rows[i].key, rows[j].key)
  }

  lemma KeyLtAsymmetric(a: Key, b: Key)
    requires KeyLt(a, b)
    ensures !KeyLt(b, a)
  {
    if Le(a.0, b.0) && Le(b.0, a.0) { LeAntisymmetric(a.0, b.0); }
    if Le(a.1, b.1) && Le(b.1, a.1) { LeAntisymmetric(a.1, b.1); }
  }

  /** The WHERE clause of a page. */
  predicate After(dir: Direction, cursor: Option<Key>, key: Key) {
    cursor.Some? ==> Before(dir, cursor.value, key)
  }

  datatype Page = Page(items: seq<Row>, next: Option<Key>, hasMore: bool)

  /** The cursor stands after the first `n` rows. */
  predicate PointsAfter(rows: seq<Row>, cursor: Option<Key>, n: nat) {
    n <= |rows| && (if n == 0 then cursor.None? else cursor == Some(rows[n - 1].key))
  }

  /** The rows after the cursor are a suffix of the table. */
  lemma AfterIsSuffix(dir: Direction, rows: seq<Row>, cursor: Option<Key>, n: nat, k: nat)
    requires InOrder(dir, rows) && PointsAfter(rows, cursor, n) && k < |rows|
    ensures After(dir, cursor, rows[k].key) <==> n <= k
  {
    if n > 0 && k < n {
      if k < n - 1 {
        if dir == Asc { KeyLtAsymmetric(rows[k].key, rows[n - 1].key); }
          else { KeyLtAsymmetric(rows[n - 1].key, rows[k].key); }
      } else {
      }
    }
  }

  /** One page: the first limit + 1 rows after the cursor, of which the last only says that there are more. */
  method ListPage(dir: Direction, rows: seq<Row>, cursor: Option<Key>, limit: nat, cap: nat, ghost n: nat)
    returns (page: Page)
    requires InOrder(dir, rows) && PointsAfter(rows, cursor, n) && 1 <= limit && 1 <= cap
    ensures var size := if limit <= cap then limit else cap;
            && page.hasMore == (n + size < |rows|)
            && page.items == rows[n..if page.hasMore then n + size else |rows|]
            && (page.hasMore ==> PointsAfter(rows, page.next, n + size))
            && (!page.hasMore ==> page.next.None?)
  {
    var size := if limit <= cap then limit else cap;
    var fetched: seq<Row> := [];
    var k := 0;
    while k < |rows| && |fetched| < size + 1
      invariant 0 <= k <= |rows| && |fetched| <= size + 1
      invariant fetched == if k <= n then [] else rows[n..k]
    {
      AfterIsSuffix(dir, rows, cursor, n, k);
      if After(dir, cursor, rows[k].key) {
        fetched := fetched + [rows[k]];
      }
      k := k + 1;
    }
    var hasMore := |fetched| > size;
    var items := if hasMore then fetched[..size] else fetched;
    page := Page(items, if hasMore then Some(items[|items| - 1].key) else None, hasMore);
  }

  /** A client that follows the cursor until there is no more gets the whole table, each row once and in order. */
  method FollowCursor(dir: Direction, rows: seq<Row>, limit: nat, cap: nat) returns (all: seq<Row>, pages: nat)
    requires InOrder(dir, rows) && 1 <= limit && 1 <= cap
    ensures all == rows
    ensures pages <= |rows| + 1
  {
    var page := ListPage(dir, rows, None, limit, cap, 0);
    all := page.items;
    pages := 1;
    while page.hasMore
      invariant |all| <= |rows| && all == rows[..|all|]
      invariant page.hasMore ==> PointsAfter(rows, page.next, |all|)
      invariant !page.hasMore ==> |all| == |rows|
      invariant pages <= |all| + 1 && (page.hasMore ==> pages <= |all|)
      decreases |rows| - |all|, page.hasMore
    {
      ghost var n := |all|;
      page := ListPage(dir, rows, page.next, limit, cap, n);
      all := all + page.items;
      pages := pages + 1;
    }
  }
}
