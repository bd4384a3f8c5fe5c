/** One page of a filtered table, with its metadata. */
module Paging {
  import opened Wrappers
  import opened Collections

  type Row = map<string, string>

  datatype Error = UnknownColumn | QueryRefused | ZeroPageSize

  datatype Page = Page(items: seq<Row>, total: nat, page: int, pageSize: int, pages: int)

  datatype Filter = Filter(column: string, value: string)

  predicate Satisfies(row: Row, filters: seq<Filter>) {
    forall i :: 0 <= i < |filters| ==> filters[i].column in row && row[filters[i].column] == filters[i].value
  }

  /** The rows that satisfy every filter, in table order. */
  function Matching(rows: seq<Row>, filters: seq<Filter>): seq<Row> {
    if rows == [] then []
    else
      var earlier, last := Matching(rows[..|rows| - 1], filters), rows[|rows| - 1];
      if Satisfies(last, filters) then earlier + [last] else earlier
  }

  /** What a database makes of a negative OFFSET or LIMIT: SQLite ignores it, others refuse the query. */
  datatype Dialect = Lenient | Strict

  predicate Accepts(d: Dialect, offset: int, limit: int) {
    d.Lenient? || (offset >= 0 && limit >= 0)
  }

  /** SQL's OFFSET and LIMIT, negative ones ignored. */
  function Slice(rows: seq<Row>, offset: int, limit: int): seq<Row> {
    var start := Min(Max(offset, 0), |rows|);
    rows[start..if limit < 0 then |rows| else Min(start + limit, |rows|)]
  }

  /** Python's floor division. */
  function FloorDiv(n: int, d: int): int
    requires d != 0
  {
    if d > 0 || n % d == 0 then n / d else n / d - 1
  }

  function Pages(total: nat, size: int): int
    requires size != 0
  {
    FloorDiv(total + size - 1, size)
  }

  function Items(rows: seq<Row>, page: int, size: int): seq<Row> {
    Slice(rows, (page - 1) * size, size)
  }

  /** The query is narrowed filter by filter; a filter on a column the model lacks raises. */
  method Paginate(d: Dialect, columns: set<string>, rows: seq<Row>, page: int, size: int, filters: seq<Filter>)
    returns (r: Result<Page, Error>)
    ensures r.Err? && r.error.UnknownColumn? <==> exists i :: 0 <= i < |filters| && filters[i].column !in columns
    ensures (forall i :: 0 <= i < |filters| ==> filters[i].column in columns) ==>
      && (r.Err? && r.error.QueryRefused? <==> !Accepts(d, (page - 1) * size, size))
      && (r.Err? && r.error.ZeroPageSize? <==> size == 0)
    ensures r.Ok? ==> size != 0 && var q := Matching(rows, filters);
                      r.value == Page(Items(q, page, size), |q|, page, size, Pages(|q|, size))
  {
    var q := rows;
    NoFilter(rows);
    for i := 0 to |filters|
      invariant q == Matching(rows, filters[..i])
      invariant forall j :: 0 <= j < i ==> filters[j].column in columns
    {
      if filters[i].column !in columns {
        return Err(UnknownColumn);
      }
      OneMoreFilter(rows, filters[..i], filters[i]);
      assert filters[..i] + [filters[i]] == filters[..i + 1];
      q := Matching(q, [filters[i]]);
    }
    assert filters[..|filters|] == filters;
    if !Accepts(d, (page - 1) * size, size) {
      return Err(QueryRefused);
    }
    if size == 0 {
      return Err(ZeroPageSize);
    }
    return Ok(Page(Items(q, page, size), |q|, page, size, Pages(|q|, size)));
  }

  /** The matching rows are the rows that satisfy every filter, each as often as the table has it. */
  lemma {:induction false} MatchingMembers(rows: seq<Row>, filters: seq<Filter>, row: Row)
    ensures multiset(Matching(rows, filters))[row] == if Satisfies(row, filters) then multiset(rows)[row] else 0
  {
    if rows != [] {
      var front, last := rows[..|rows| - 1], rows[|rows| - 1];
      MatchingMembers(front, filters, row);
      assert rows == front + [last];
    }
  }

  /** A row that has the required value in every filtered column is the next match after those before it, and any other
      row is no match: the matching rows stand in table order, none is missed, and none is taken twice. */
  lemma {:induction false} MatchingRows(rows: seq<Row>, filters: seq<Filter>, i: nat)
    requires i < |rows|
    ensures var has := forall j :: 0 <= j < |filters| ==>
        filters[j].column in rows[i] && rows[i][filters[j].column] == filters[j].value;
      var n := |Matching(rows[..i], filters)|;
      && |Matching(rows[..i + 1], filters)| == n + (if has then 1 else 0)
      && (has ==> n < |Matching(rows, filters)| && Matching(rows, filters)[n] == rows[i])
  {
    assert rows[..i + 1][..i] == rows[..i] && rows[..i + 1][i] == rows[i];
    if i < |rows| - 1 {
      var front := rows[..|rows| - 1];
      MatchingRows(front, filters, i);
      assert front[..i] == rows[..i] && front[..i + 1] == rows[..i + 1];
    } else {
      assert rows[..|rows| - 1] == rows[..i];
    }
  }

  lemma {:induction false} NoFilter(rows: seq<Row>)
    ensures Matching(rows, []) == rows
  {
    if rows != [] {
      NoFilter(rows[..|rows| - 1]);
    }
  }

  lemma SatisfiesSnoc(row: Row, filters: seq<Filter>, f: Filter)
    ensures Satisfies(row, filters + [f]) <==> Satisfies(row, filters) && Satisfies(row, [f])
  {
    assert (filters + [f])[|filters|] == f && [f][0] == f;
    assert forall i :: 0 <= i < |filters| ==> (filters + [f])[i] == filters[i];
  }

  /** Filtering once more is filtering by one condition more. */
  lemma {:induction false} OneMoreFilter(rows: seq<Row>, filters: seq<Filter>, f: Filter)
    ensures Matching(Matching(rows, filters), [f]) == Matching(rows, filters + [f])
  {
    if rows != [] {
      var front, last := rows[..|rows| - 1], rows[|rows| - 1];
      OneMoreFilter(front, filters, f);
      SatisfiesSnoc(last, filters, f);
      var earlier := Matching(front, filters);
      assert (earlier + [last])[..|earlier|] == earlier;
    }
  }

  // ---------- The pages partition the rows ----------

  /** The items of pages 1 to n, one after the other. */
  function Together(rows: seq<Row>, size: nat, n: nat): seq<Row> {
    if n == 0 then [] else Together(rows, size, n - 1) + Items(rows, n, size)
  }

  lemma {:induction false} TogetherIsPrefix(rows: seq<Row>, size: nat, n: nat)
    ensures Together(rows, size, n) == rows[..Min(n * size, |rows|)]
  {
    if n > 0 {
      TogetherIsPrefix(rows, size, n - 1);
      assert n * size == (n - 1) * size + size;
      NextSlice(rows, (n - 1) * size, size);
    }
  }

  lemma NextSlice(rows: seq<Row>, offset: nat, limit: nat)
    ensures rows[..Min(offset, |rows|)] + Slice(rows, offset, limit) == rows[..Min(offset + limit, |rows|)]
  {
    var a, b := Min(offset, |rows|), Min(offset + limit, |rows|);
    assert Slice(rows, offset, limit) == rows[a..b];
    assert rows[..a] + rows[a..b] == rows[..b];
  }

  /** `pages` is the least number of pages that hold all rows. */
  lemma PagesIsLeast(total: nat, size: nat)
    requires size > 0
    ensures Pages(total, size) * size >= total
    ensures total > 0 ==> Pages(total, size) > 0 && (Pages(total, size) - 1) * size < total
    ensures total == 0 ==> Pages(total, size) == 0
  {
    var t := total + size - 1;
    var p, r := t / size, t % size;
    assert t == p * size + r;
    assert (p - 1) * size == p * size - size;
  }

  lemma Monotone(m: int, n: int, size: nat)
    requires m <= n
    ensures m * size <= n * size
  {
  }

  /** Where a page starts and ends, against the total. */
  lemma PageBounds(total: nat, size: nat, page: nat)
    requires size > 0 && page >= 1
    ensures var pages := Pages(total, size); var start, end := (page - 1) * size, page * size;
      && end == start + size
      && (page < pages ==> end < total)
      && (page == pages ==> start < total <= end)
      && (page > pages ==> total <= start)
  {
    var pages := Pages(total, size);
    PagesIsLeast(total, size);
    if page < pages {
      Monotone(page, pages - 1, size);
    } else if page > pages {
      Monotone(pages, page - 1, size);
    }
  }

  /** Pages 1 to `pages` give every matching row once and in order; fewer pages do not; every page but the last is
      full, the last one is not empty, and the pages beyond are. */
  lemma PagesPartition(rows: seq<Row>, size: nat, page: nat)
    requires size > 0 && page >= 1
    ensures var pages := Pages(|rows|, size);
      && Together(rows, size, pages) == rows
      && (page < pages ==> |Items(rows, page, size)| == size && Together(rows, size, page) != rows)
      && (page == pages ==> 0 < |Items(rows, page, size)| <= size)
      && (page > pages ==> Items(rows, page, size) == [])
  {
    PagesSuffice(rows, size);
    PageItems(rows, size, page);
    if page < Pages(|rows|, size) {
      FewerMiss(rows, size, page);
    }
  }

  lemma PagesSuffice(rows: seq<Row>, size: nat)
    requires size > 0
    ensures Together(rows, size, Pages(|rows|, size)) == rows
  {
    PagesIsLeast(|rows|, size);
    TogetherIsPrefix(rows, size, Pages(|rows|, size));
    WholeIsPrefix(rows);
  }

  lemma FewerMiss(rows: seq<Row>, size: nat, page: nat)
    requires size > 0 && 1 <= page < Pages(|rows|, size)
    ensures Together(rows, size, page) != rows
  {
    TogetherIsPrefix(rows, size, page);
    PageBounds(|rows|, size, page);
  }

  lemma PageItems(rows: seq<Row>, size: nat, page: nat)
    requires size > 0 && page >= 1
    ensures var pages := Pages(|rows|, size);
      && (page < pages ==> |Items(rows, page, size)| == size)
      && (page == pages ==> 0 < |Items(rows, page, size)| <= size)
      && (page > pages ==> Items(rows, page, size) == [])
  {
    PageBounds(|rows|, size, page);
    ItemsCount(rows, page, size, (page - 1) * size, page * size);
  }

  lemma WholeIsPrefix(rows: seq<Row>)
    ensures rows[..|rows|] == rows
  {
  }

  /** How many rows are between a page's bounds. */
  lemma ItemsCount(rows: seq<Row>, page: nat, size: nat, start: nat, end: nat)
    requires page >= 1 && start == (page - 1) * size && end == start + size
    ensures |Items(rows, page, size)| == Min(end, |rows|) - Min(start, |rows|)
  {
  }

  /** A strict database refuses exactly the pages below the first and negative sizes. */
  lemma StrictRefuses(page: int, size: int)
    ensures Accepts(Strict, (page - 1) * size, size) <==> size == 0 || (size > 0 && page >= 1)
    ensures Accepts(Lenient, (page - 1) * size, size)
  {
    if size > 0 && page >= 1 {
      Monotone(0, page - 1, size);
    } else if size > 0 {
      Monotone(page - 1, -1, size);
    }
  }

  /** For a negative size the number of pages is rounded down as well. */
  lemma PagesOfNegativeSize(total: nat, size: int)
    requires size < 0
    ensures Pages(total, size) * size >= total + size - 1 > (Pages(total, size) + 1) * size
  {
    var t := total + size - 1;
    var q, r := t / size, t % size;
    assert t == q * size + r && 0 <= r < -size;
    assert (q - 1) * size == q * size - size && (q + 1) * size == q * size + size;
  }

  /** On a database that takes any number, a page below the first is the first one, and a negative size gives all rows
      from the page's offset on. */
  lemma OutOfRange(rows: seq<Row>, page: int, size: int)
    ensures page < 1 && size > 0 ==> Items(rows, page, size) == Items(rows, 1, size)
    ensures page >= 1 && size < 0 ==> Items(rows, page, size) == rows
  {
    if page < 1 && size > 0 {
      Monotone(page - 1, 0, size);
    } else if page >= 1 && size < 0 {
      Monotone(0, page - 1, -size);
      assert (page - 1) * size == -((page - 1) * -size);
    }
  }
}
