/**
  Reading a result under a row and a byte limit, and showing it page by page.
*/
module ResultPaging {
  import opened Base

  const ROW_LIMIT := 5000
  const BYTE_LIMIT := 26_214_400
  const SAMPLE_LIMIT := 25
  const PAGE_SIZE := 100

  /** A row, as the JSON text whose length counts against the limit. */
  type Row = string

  datatype ReadResult = ReadResult(rows: seq<Row>, byteCount: nat, sample: seq<Row>, truncated: bool)

  function Bytes(rows: seq<Row>): nat {
    if rows == [] then 0 else Bytes(rows[..|rows| - 1]) + |rows[|rows| - 1]|
  }

  /** The first n rows stay within both limits. */
  predicate Within(rows: seq<Row>, n: nat)
    requires n <= |rows|
  {
    n <= 5000 && Bytes(rows[..n]) <= 26_214_400
  }

  lemma {:induction false} FewerBytes(rows: seq<Row>, m: nat, n: nat)
    requires m <= n <= |rows|
    ensures Bytes(rows[..m]) <= Bytes(rows[..n])
    decreases n
  {
    if m < n {
      FewerBytes(rows, m, n - 1);
      assert rows[..n][..n - 1] == rows[..n - 1];
    }
  }

  lemma OneMoreRow(rows: seq<Row>, n: nat)
    requires n < |rows|
    ensures rows[..n + 1] == rows[..n] + [rows[n]]
    ensures Bytes(rows[..n + 1]) == Bytes(rows[..n]) + |rows[n]|
  {
    assert rows[..n + 1][..n] == rows[..n];
  }

  /** The capped loop of `executeReadOnly`: it keeps the longest prefix of the
      cursor that is within both limits, and says so when that is not all. */
  method ReadCapped(cursor: seq<Row>) returns (r: ReadResult)
    ensures |r.rows| <= |cursor| && r.rows == cursor[..|r.rows|]
    ensures forall n: nat | n <= |cursor| :: Within(cursor, n) <==> n <= |r.rows|
    ensures r.byteCount == Bytes(r.rows)
    ensures r.truncated <==> |r.rows| < |cursor|
    ensures r.sample == r.rows[..if |r.rows| < 25 then |r.rows| else 25]
  {
    var rows: seq<Row> := [];
    var sample: seq<Row> := [];
    var byteCount := 0;
    var rowCount := 0;
    var truncated := false;
    while rowCount < |cursor| && !truncated
      invariant rowCount <= |cursor| && rows == cursor[..rowCount] && byteCount == Bytes(rows)
      invariant Within(cursor, rowCount)
      invariant sample == rows[..if rowCount < SAMPLE_LIMIT then rowCount else SAMPLE_LIMIT]
      invariant truncated ==> rowCount < |cursor| && !Within(cursor, rowCount + 1)
      decreases |cursor| - rowCount, !truncated
    {
      OneMoreRow(cursor, rowCount);
      if rowCount >= ROW_LIMIT || byteCount + |cursor[rowCount]| > BYTE_LIMIT {
        truncated := true;
      } else {
        if |sample| < SAMPLE_LIMIT {
          sample := sample + [cursor[rowCount]];
        }
        rows := rows + [cursor[rowCount]];
        byteCount := byteCount + |cursor[rowCount]|;
        rowCount := rowCount + 1;
      }
    }
    WithinIsDownward(cursor, rowCount);
    r := ReadResult(rows, byteCount, sample, truncated);
  }

  lemma WithinIsDownward(rows: seq<Row>, k: nat)
    requires k <= |rows| && Within(rows, k) && (k < |rows| ==> !Within(rows, k + 1))
    ensures forall n: nat | n <= |rows| :: Within(rows, n) <==> n <= k
  {
    forall n: nat | n <= |rows| ensures Within(rows, n) <==> n <= k {
      if n <= k {
        FewerBytes(rows, n, k);
      } else {
        FewerBytes(rows, k + 1, n);
      }
    }
  }

  // ---------------------------------------------------------------------
  // Pages

  /** `from` and `to` are missing on an empty page. */
  datatype Page = Page(data: seq<Row>, current: nat, last: nat, from: Option<nat>, to: Option<nat>, total: nat)

  function LastPage(total: nat): (last: nat)
    ensures last >= 1
  {
    var pages := (total + PAGE_SIZE - 1) / PAGE_SIZE;
    if pages < 1 then 1 else pages
  }

  function Clamp(page: int, last: nat): (current: nat)
    requires last >= 1
    ensures 1 <= current <= last
  {
    var atLeastOne := if page < 1 then 1 else page;
    if atLeastOne < last then atLeastOne else last
  }

  /** `array_slice`: past the end there is nothing, and the last slice is
      short. */
  function Slice(rows: seq<Row>, offset: nat, length: nat): seq<Row> {
    if offset >= |rows| then [] else if offset + length <= |rows| then rows[offset..offset + length] else rows[offset..]
  }

  /** `page`, once a snapshot is there. */
  function PageOf(rows: seq<Row>, page: int): Page {
    var last := LastPage(|rows|);
    var current := Clamp(page, last);
    var offset := (current - 1) * PAGE_SIZE;
    var data := Slice(rows, offset, PAGE_SIZE);
    Page(data, current, last, if data == [] then None else Some(offset + 1),
         if data == [] then None else Some(offset + |data|), |rows|)
  }

  /** The rows of the first n pages. */
  function FirstPages(rows: seq<Row>, n: nat): seq<Row> {
    if n == 0 then [] else FirstPages(rows, n - 1) + PageOf(rows, n).data
  }

  /** The last page holds the last row, and no page before it is short. */
  lemma LastPageCovers(total: nat)
    ensures (LastPage(total) - 1) * PAGE_SIZE <= total <= LastPage(total) * PAGE_SIZE
    ensures total > 0 ==> (LastPage(total) - 1) * PAGE_SIZE < total
  {
  }

  lemma {:induction false} FirstPagesArePrefix(rows: seq<Row>, n: nat)
    requires n <= LastPage(|rows|)
    ensures FirstPages(rows, n) == rows[..if n * PAGE_SIZE < |rows| then n * PAGE_SIZE else |rows|]
    decreases n
  {
    if n > 0 {
      FirstPagesArePrefix(rows, n - 1);
      LastPageCovers(|rows|);
      assert Clamp(n, LastPage(|rows|)) == n;
      var offset := (n - 1) * PAGE_SIZE;
      assert offset <= |rows|;
      var end := if n * PAGE_SIZE < |rows| then n * PAGE_SIZE else |rows|;
      assert PageOf(rows, n).data == rows[offset..end];
      assert rows[..end] == rows[..offset] + rows[offset..end];
    }
  }

  /** All pages together are all rows. */
  lemma PagesAreTheResult(rows: seq<Row>)
    ensures FirstPages(rows, LastPage(|rows|)) == rows
  {
    FirstPagesArePrefix(rows, LastPage(|rows|));
    LastPageCovers(|rows|);
    assert rows[..|rows|] == rows;
  }

  /** Whatever page is asked for, the bounds shown are those of the rows shown,
      and only an empty result has an empty page. */
  lemma BoundsMatchTheRows(rows: seq<Row>, page: int)
    ensures var p := PageOf(rows, page);
            && p.total == |rows| && p.last >= 1 && (p.last - 1) * 100 <= |rows| <= p.last * 100
            && (rows != [] ==> (p.last - 1) * 100 < |rows|)
            && p.current == (if page < 1 then 1 else if page > p.last then p.last else page)
            && (p.data == [] <==> rows == [])
            && (rows == [] ==> p.from == None && p.to == None && p.current == 1)
            && (rows != [] ==> && p.from == Some((p.current - 1) * 100 + 1)
                               && p.to.Some? && p.from.value <= p.to.value <= |rows|
                               && p.data == rows[p.from.value - 1..p.to.value]
                               && |p.data| <= 100 && (p.current < p.last ==> |p.data| == 100))
  {
    LastPageCovers(|rows|);
    var current := Clamp(page, LastPage(|rows|));
    assert (current - 1) * PAGE_SIZE <= (LastPage(|rows|) - 1) * PAGE_SIZE;
    if current < LastPage(|rows|) {
      assert current * PAGE_SIZE <= (LastPage(|rows|) - 1) * PAGE_SIZE;
    }
  }
}
