/**
 * The rows `get_all_urls` returns for table display, ordered newest first
 * (talisik/core/storage.py, MemoryStorage.get_all_urls).
 */
module Listing {
  import opened Wrappers
  import opened Models

  /** One row of the listing: the record without its id. */
  datatype UrlRow = UrlRow(
    originalUrl: string,
    shortCode: string,
    expiresAt: Option<int>,
    clickCount: nat,
    isActive: bool,
    createdAt: int)

  function RowOf(u: ShortURL): (row: UrlRow)
    ensures row.shortCode == u.shortCode && row.originalUrl == u.originalUrl
    ensures row.createdAt == u.createdAt && row.expiresAt == u.expiresAt
    ensures row.clickCount == u.clickCount && row.isActive == u.isActive
  {
    UrlRow(u.originalUrl, u.shortCode, u.expiresAt, u.clickCount, u.isActive, u.createdAt)
  }

  /** The rows of a table, in table order. */
  function RowsOf(t: seq<ShortURL>): (rows: seq<UrlRow>)
    ensures |rows| == |t|
    ensures forall i :: 0 <= i < |t| ==> rows[i] == RowOf(t[i])
  {
    seq(|t|, i requires 0 <= i < |t| => RowOf(t[i]))
  }

  /** Newer rows come before older ones. */
  ghost predicate NewestFirst(rows: seq<UrlRow>) {
    forall i, j :: 0 <= i < j < |rows| ==> rows[i].createdAt >= rows[j].createdAt
  }

  /** A sequence drawn from rows no newer than `bound` holds no row newer than `bound`. */
  lemma AllAtMost(bound: int, xs: seq<UrlRow>, ys: seq<UrlRow>)
    requires forall k :: 0 <= k < |xs| ==> xs[k].createdAt <= bound
    requires multiset(ys) <= multiset(xs)
    ensures forall k :: 0 <= k < |ys| ==> ys[k].createdAt <= bound
  {
    forall k | 0 <= k < |ys| ensures ys[k].createdAt <= bound {
      assert ys[k] in multiset(ys);
      assert ys[k] in xs;
    }
  }

  /**
   * Places `x` into a newest-first sequence ahead of every row that is not newer
   * than it, so that among equal timestamps the earlier input stays in front.
   */
  function Insert(x: UrlRow, rows: seq<UrlRow>): (r: seq<UrlRow>)
    requires NewestFirst(rows)
    ensures NewestFirst(r)
    ensures multiset(r) == multiset(rows) + multiset{x}
  {
    if |rows| == 0 || rows[0].createdAt <= x.createdAt then
      [x] + rows
    else
      var rest := Insert(x, rows[1..]);
      assert rows == [rows[0]] + rows[1..];
      assert multiset(rest) == multiset(rows[1..] + [x]);
      AllAtMost(rows[0].createdAt, rows[1..] + [x], rest);
      [rows[0]] + rest
  }

  /**
   * `sorted(rows, key=created_at, reverse=True)`: Python's sort is stable, and
   * this insertion sort keeps rows with equal timestamps in input order too.
   */
  function SortNewestFirst(rows: seq<UrlRow>): (r: seq<UrlRow>)
    ensures NewestFirst(r)
    ensures multiset(r) == multiset(rows)
    ensures |r| == |rows|
  {
    if |rows| == 0 then []
    else
      assert rows == [rows[0]] + rows[1..];
      Insert(rows[0], SortNewestFirst(rows[1..]))
  }
}
