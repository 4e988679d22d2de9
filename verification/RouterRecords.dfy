/** Billing records read from the router page by page, singly or as a complete export. */
module RouterRecords {
  import opened Optional

  const PAGE_SIZE := 100
  const MAX_EXPORT_ROWS := 50_000
  const MAX_SAFE := 9007199254740991

  type Row = seq<string>

  // A page as the router sends it. A number that is not a safe integer, a column list that is not a list of
  // texts and anything that is not a list where one is due arrive as None.
  datatype Reply =
    | Failed
    | Sent(
        kind: string, page: Option<int>, total: Option<int>, columns: Option<seq<string>>,
        rows: Option<seq<Option<Row>>>)

  datatype Page = Page(rows: seq<Row>, columns: seq<string>, total: nat)

  datatype Query = Query(kind: string, page: int, pageSize: int, all: bool)

  datatype Records = Records(page: int, columns: seq<string>, rows: seq<Row>, total: nat)

  // The reply to the n-th request of a query, when that request asks for the given page.
  type Server = (nat, nat) -> Reply

  function Min(a: int, b: int): (least: int)
    ensures least <= a && least <= b && (least == a || least == b)
  {
    if a < b then a else b
  }

  // A page goes on to the last row there is, and no further than 100 rows.
  function RowsOn(page: nat, total: nat): (n: nat)
    requires page >= 1
    ensures n <= PAGE_SIZE && (n > 0 ==> (page - 1) * PAGE_SIZE + n <= total)
    ensures n < PAGE_SIZE ==> total <= (page - 1) * PAGE_SIZE + n
  {
    if total <= (page - 1) * PAGE_SIZE then 0 else Min(PAGE_SIZE, total - (page - 1) * PAGE_SIZE)
  }

  function WholeRows(rows: seq<Option<Row>>, width: nat): (r: Option<seq<Row>>)
    ensures r.Some? <==> forall k :: 0 <= k < |rows| ==> rows[k].Some? && |rows[k].value| == width
    ensures r.Some? ==> |r.value| == |rows| && forall k :: 0 <= k < |rows| ==> rows[k] == Some(r.value[k])
  {
    if rows == [] then Some([]) else
      var rest := WholeRows(rows[1..], width);
      if rows[0].None? || |rows[0].value| != width || rest.None? then None else Some([rows[0].value] + rest.value)
  }

  // The checks every page must pass: the kind and page asked for, and exactly the rows that the total leaves for it.
  function Checked(reply: Reply, kind: string, page: nat): Option<Page>
    requires page >= 1
  {
    if reply.Failed? || reply.kind != kind || reply.page != Some(page)
       || reply.total.None? || reply.total.value < 0 || reply.columns.None? || reply.rows.None? then None
    else
      var rows := WholeRows(reply.rows.value, |reply.columns.value|);
      if rows.None? || |rows.value| != RowsOn(page, reply.total.value) then None
      else Some(Page(rows.value, reply.columns.value, reply.total.value))
  }

  // As many pages as the rows need, and one where there are none.
  function Pages(total: nat): (n: nat)
    ensures n >= 1 && total <= n * PAGE_SIZE && (n > 1 ==> (n - 1) * PAGE_SIZE < total)
  {
    if total <= PAGE_SIZE then 1 else (total + PAGE_SIZE - 1) / PAGE_SIZE
  }

  // The reply that carries a page.
  function Carrying(kind: string, page: nat, p: Page): Reply {
    Sent(kind, Some(page), Some(p.total), Some(p.columns),
         Some(seq(|p.rows|, k requires 0 <= k < |p.rows| => Some(p.rows[k]))))
  }

  // A reply is accepted exactly if it is of the kind and page asked for, and carries as many rows as the total
  // leaves for that page, each as wide as the columns; what is accepted is what it carries.
  lemma CheckedIff(reply: Reply, kind: string, page: nat, p: Page)
    requires page >= 1
    ensures Checked(reply, kind, page) == Some(p) <==>
              && reply == Carrying(kind, page, p)
              && |p.rows| == RowsOn(page, p.total)
              && forall k :: 0 <= k < |p.rows| ==> |p.rows[k]| == |p.columns|
  {
    if Checked(reply, kind, page) == Some(p) {
      assert reply.rows.value == Carrying(kind, page, p).rows.value;
    }
    if reply == Carrying(kind, page, p) && WholeRows(reply.rows.value, |p.columns|).Some? {
      assert WholeRows(reply.rows.value, |p.columns|).value == p.rows;
    }
  }

  predicate ValidQuery(q: Query) {
    1 <= q.page <= MAX_SAFE && q.pageSize == PAGE_SIZE
  }

  // The page that request p - 1 of an export must bring.
  function ExportPage(q: Query, server: Server, p: nat): Option<Page>
    requires p >= 1
  {
    Checked(server(p - 1, p), q.kind, p)
  }

  // A complete export exists when page 1 passes its checks, is not too large, and every further page passes its
  // own with the same total and columns.
  ghost predicate Exportable(q: Query, server: Server) {
    && ExportPage(q, server, 1).Some?
    && ExportPage(q, server, 1).value.total <= MAX_EXPORT_ROWS
    && forall p: nat :: 2 <= p <= Pages(ExportPage(q, server, 1).value.total) ==> Matching(q, server, p)
  }

  ghost predicate Matching(q: Query, server: Server, p: nat)
    requires p >= 1 && ExportPage(q, server, 1).Some?
  {
    && ExportPage(q, server, p).Some?
    && ExportPage(q, server, p).value.total == ExportPage(q, server, 1).value.total
    && ExportPage(q, server, p).value.columns == ExportPage(q, server, 1).value.columns
  }

  // The first `count` rows of the pages, in order.
  ghost predicate InOrder(rows: seq<Row>, q: Query, server: Server, count: nat) {
    && |rows| == count
    && forall k: nat :: k < count ==>
         ExportPage(q, server, k / PAGE_SIZE + 1).Some?
         && k % PAGE_SIZE < |ExportPage(q, server, k / PAGE_SIZE + 1).value.rows|
         && rows[k] == ExportPage(q, server, k / PAGE_SIZE + 1).value.rows[k % PAGE_SIZE]
  }

  lemma CheckedRows(reply: Reply, kind: string, page: nat)
    requires page >= 1 && Checked(reply, kind, page).Some?
    ensures var p := Checked(reply, kind, page).value;
            |p.rows| == RowsOn(page, p.total) && forall k :: 0 <= k < |p.rows| ==> |p.rows[k]| == |p.columns|
  {}

  lemma RowAddress(base: nat, k: nat)
    requires k < PAGE_SIZE
    ensures (base * PAGE_SIZE + k) / PAGE_SIZE == base && (base * PAGE_SIZE + k) % PAGE_SIZE == k
  {}

  lemma AddPage(rows: seq<Row>, q: Query, server: Server, p: nat, total: nat)
    requires p >= 1 && InOrder(rows, q, server, (p - 1) * PAGE_SIZE)
    requires ExportPage(q, server, p).Some? && ExportPage(q, server, p).value.total == total
    requires (p - 1) * PAGE_SIZE <= total
    ensures InOrder(rows + ExportPage(q, server, p).value.rows, q, server, Min(p * PAGE_SIZE, total))
  {
    var page := ExportPage(q, server, p).value;
    CheckedRows(server(p - 1, p), q.kind, p);
    var more := rows + page.rows;
    forall k: nat | k < |more|
      ensures ExportPage(q, server, k / PAGE_SIZE + 1).Some?
        && k % PAGE_SIZE < |ExportPage(q, server, k / PAGE_SIZE + 1).value.rows|
        && more[k] == ExportPage(q, server, k / PAGE_SIZE + 1).value.rows[k % PAGE_SIZE]
    {
      if k >= |rows| { RowAddress(p - 1, k - |rows|); }
    }
  }

  // The export so far: pages 1 to page - 1 passed, match the first, and their rows are collected in order.
  ghost predicate Collected(
      q: Query, server: Server, rows: seq<Row>, columns: seq<string>, total: nat, page: nat) {
    && page >= 2 && IsFirst(q, server, columns, total)
    && (forall p: nat :: 2 <= p < page ==> Matching(q, server, p))
    && InOrder(rows, q, server, Min((page - 1) * PAGE_SIZE, total))
    && (forall k :: 0 <= k < |rows| ==> |rows[k]| == |columns|)
  }

  ghost predicate IsFirst(q: Query, server: Server, columns: seq<string>, total: nat) {
    && ExportPage(q, server, 1).Some?
    && ExportPage(q, server, 1).value.columns == columns && ExportPage(q, server, 1).value.total == total
  }

  lemma FirstCollected(q: Query, server: Server)
    requires ExportPage(q, server, 1).Some?
    ensures var first := ExportPage(q, server, 1).value;
            Collected(q, server, first.rows, first.columns, first.total, 2)
  {
    var first := ExportPage(q, server, 1).value;
    assert InOrder([], q, server, 0);
    AddPage([], q, server, 1, first.total);
    assert [] + first.rows == first.rows;
    CheckedRows(server(0, 1), q.kind, 1);
  }

  lemma NextCollected(
      q: Query, server: Server, rows: seq<Row>, columns: seq<string>, total: nat, page: nat, next: Page)
    requires Collected(q, server, rows, columns, total, page) && page <= Pages(total)
    requires ExportPage(q, server, page) == Some(next) && next.total == total && next.columns == columns
    ensures Collected(q, server, rows + next.rows, columns, total, page + 1)
  {
    AddPage(rows, q, server, page, total);
    CheckedRows(server(page - 1, page), q.kind, page);
    assert Matching(q, server, page);
  }

  // What a collected export means for the query.
  lemma AllCollected(q: Query, server: Server, rows: seq<Row>, columns: seq<string>, total: nat, page: nat)
    requires Collected(q, server, rows, columns, total, page) && page == Pages(total) + 1 && total <= MAX_EXPORT_ROWS
    ensures Exportable(q, server) && InOrder(rows, q, server, total)
    ensures forall k :: 0 <= k < |rows| ==> |rows[k]| == |columns|
  {}

  lemma MismatchEnds(q: Query, server: Server, columns: seq<string>, total: nat, page: nat, next: Option<Page>)
    requires IsFirst(q, server, columns, total) && 2 <= page <= Pages(total)
    requires next == ExportPage(q, server, page)
    requires next.None? || next.value.total != total || next.value.columns != columns
    ensures !Exportable(q, server)
  {
    assert !Matching(q, server, page);
  }

  method QueryRecords(q: Query, server: Server) returns (result: Option<Records>, fetches: nat)
    ensures q.page < 1 || q.page > 9_007_199_254_740_991 || q.pageSize != 100 ==> result.None? && fetches == 0
    ensures result.Some? ==> 1 <= q.page <= 9_007_199_254_740_991 && q.pageSize == 100
    ensures q.all ==> (result.Some? <==> ValidQuery(q) && Exportable(q, server))
    ensures !q.all ==> (result.Some? <==> ValidQuery(q) && Checked(server(0, q.page), q.kind, q.page).Some?)
    ensures result.Some? && q.all ==>
              var r := result.value;
              && r.page == 1 && r.total == ExportPage(q, server, 1).value.total <= 50_000
              && r.columns == ExportPage(q, server, 1).value.columns
              && InOrder(r.rows, q, server, r.total)
              && (forall k :: 0 <= k < |r.rows| ==> |r.rows[k]| == |r.columns|)
    ensures result.Some? && !q.all ==>
              var page := Checked(server(0, q.page), q.kind, q.page).value;
              result.value == Records(q.page, page.columns, page.rows, page.total)
    ensures result.Some? ==> fetches == if q.all then Pages(result.value.total) else 1
    ensures fetches <= 500
  {
    if q.page < 1 || q.page > MAX_SAFE || q.pageSize != PAGE_SIZE { return None, 0; }
    var start: nat := if q.all then 1 else q.page;
    fetches := 1;
    var first := Checked(server(0, start), q.kind, start);
    if first.None? { return None, fetches; }
    var rows, columns, total := first.value.rows, first.value.columns, first.value.total;
    if !q.all { return Some(Records(start, columns, rows, total)), fetches; }
    if total > MAX_EXPORT_ROWS { return None, fetches; }
    FirstCollected(q, server);
    if total > PAGE_SIZE {
      var page: nat := 2;
      while page <= (total + PAGE_SIZE - 1) / PAGE_SIZE
        invariant 2 <= page <= Pages(total) + 1 && fetches == page - 1
        invariant Collected(q, server, rows, columns, total, page)
      {
        fetches := page;
        var next := Checked(server(page - 1, page), q.kind, page);
        if next.None? || next.value.total != total || next.value.columns != columns {
          MismatchEnds(q, server, columns, total, page, next);
          return None, fetches;
        }
        NextCollected(q, server, rows, columns, total, page, next.value);
        rows := rows + next.value.rows;
        page := page + 1;
      }
    }
    AllCollected(q, server, rows, columns, total, Pages(total) + 1);
    result := Some(Records(1, columns, rows, total));
  }

  // ---------- a server that pages a fixed table ----------

  ghost predicate Serves(server: Server, kind: string, columns: seq<string>, table: seq<Row>) {
    forall n: nat, p: nat :: p >= 1 ==> server(n, p) == PageOf(kind, columns, table, p)
  }

  ghost function PageOf(kind: string, columns: seq<string>, table: seq<Row>, p: nat): Reply
    requires p >= 1
  {
    Carrying(kind, p, Page(PageRows(table, p), columns, |table|))
  }

  ghost function PageRows(table: seq<Row>, p: nat): seq<Row>
    requires p >= 1
  {
    var from := Min((p - 1) * PAGE_SIZE, |table|);
    table[from..from + RowsOn(p, |table|)]
  }

  lemma PagePasses(kind: string, columns: seq<string>, table: seq<Row>, p: nat)
    requires p >= 1 && forall k :: 0 <= k < |table| ==> |table[k]| == |columns|
    ensures var c := Checked(PageOf(kind, columns, table, p), kind, p);
            c.Some? && c.value.columns == columns && c.value.total == |table|
            && (forall k :: 0 <= k < RowsOn(p, |table|) ==> c.value.rows[k] == table[(p - 1) * PAGE_SIZE + k])
  {
    CheckedIff(PageOf(kind, columns, table, p), kind, p, Page(PageRows(table, p), columns, |table|));
  }

  lemma PagesPass(q: Query, server: Server, columns: seq<string>, table: seq<Row>, p: nat)
    requires p >= 1 && forall k :: 0 <= k < |table| ==> |table[k]| == |columns|
    requires Serves(server, q.kind, columns, table)
    ensures var c := ExportPage(q, server, p);
            c.Some? && c.value.columns == columns && c.value.total == |table|
            && (forall k :: 0 <= k < RowsOn(p, |table|) ==> c.value.rows[k] == table[(p - 1) * PAGE_SIZE + k])
  {
    assert server(p - 1, p) == PageOf(q.kind, columns, table, p);
    PagePasses(q.kind, columns, table, p);
  }

  lemma RowOfTable(q: Query, server: Server, columns: seq<string>, table: seq<Row>, k: nat)
    requires k < |table| && forall j :: 0 <= j < |table| ==> |table[j]| == |columns|
    requires Serves(server, q.kind, columns, table)
    ensures var page := ExportPage(q, server, k / PAGE_SIZE + 1);
            page.Some? && (k % PAGE_SIZE < |page.value.rows| ==> page.value.rows[k % PAGE_SIZE] == table[k])
  {
    PagesPass(q, server, columns, table, k / PAGE_SIZE + 1);
    CheckedRows(server(k / PAGE_SIZE, k / PAGE_SIZE + 1), q.kind, k / PAGE_SIZE + 1);
  }

  // An export from such a server is the whole table in order, and it fails only when the table is too long.
  lemma ExportOfTable(q: Query, server: Server, columns: seq<string>, table: seq<Row>, rows: seq<Row>)
    requires forall k :: 0 <= k < |table| ==> |table[k]| == |columns|
    requires Serves(server, q.kind, columns, table)
    ensures Exportable(q, server) <==> |table| <= MAX_EXPORT_ROWS
    ensures InOrder(rows, q, server, |table|) ==> rows == table
  {
    PagesPass(q, server, columns, table, 1);
    forall p: nat | 2 <= p <= Pages(|table|) ensures Matching(q, server, p) { PagesPass(q, server, columns, table, p); }
    if InOrder(rows, q, server, |table|) {
      forall k: nat | k < |table| ensures rows[k] == table[k] { RowOfTable(q, server, columns, table, k); }
    }
  }

  // A reply of another kind or page to any request of an export, or to a request for one page, makes it fail.
  lemma ForeignReplyFails(q: Query, server: Server, p: nat)
    requires p >= 1 && server(p - 1, p).Sent?
    requires server(p - 1, p).kind != q.kind || server(p - 1, p).page != Some(p)
    ensures Checked(server(p - 1, p), q.kind, p).None?
    ensures ExportPage(q, server, 1).None? || p <= Pages(ExportPage(q, server, 1).value.total) ==>
              !Exportable(q, server)
  {
    forall c: Page ensures Checked(server(p - 1, p), q.kind, p) != Some(c) {
      CheckedIff(server(p - 1, p), q.kind, p, c);
    }
    if p >= 2 && ExportPage(q, server, 1).Some? { assert !Matching(q, server, p); }
  }
}
