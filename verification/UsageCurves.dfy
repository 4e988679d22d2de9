/** Collecting the selected rows of a usage chart into one curve per interface, or a single summed curve. */
module UsageCurves {
  import opened Optional
  import opened UsageTotals

  // A place on the chart: a bucket start and a curve.
  datatype Cell = Cell(at: int, id: string)

  // The measured times of the rows in one bucket, from the earliest start to the latest end.
  datatype Span = Span(first: int, last: int)

  datatype Curve = Curve(id: string, points: seq<Option<real>>, spans: seq<Option<Span>>, totalMb: real)

  type Placing = UsagePoint -> Option<Cell>

  ghost function OnCurve(id: string): iset<Cell> {
    iset at: int :: Cell(at, id)
  }

  ghost function InBucket(at: int): iset<Cell> {
    iset id: string :: Cell(at, id)
  }

  ghost const EVERYWHERE: iset<Cell> := iset c: Cell | true

  ghost predicate Increasing(times: seq<int>) {
    forall i, j :: 0 <= i < j < |times| ==> times[i] < times[j]
  }

  predicate Measured(row: UsagePoint) {
    row.startedAt.Some? && row.endedAt.Some? && row.startedAt.value <= row.endedAt.value
  }

  function Widen(span: Option<Span>, row: UsagePoint): Option<Span> {
    if !Measured(row) then span else
      var a, b := row.startedAt.value, row.endedAt.value;
      match span
      case None => Some(Span(a, b))
      case Some(s) => Some(Span(if a < s.first then a else s.first, if b > s.last then b else s.last))
  }

  // ---------- what a curve should hold ----------

  ghost function Point(rows: Rows, place: Placing, cell: Cell): Option<real> {
    if Reaches(rows, place, iset{cell}) then Some(Total(rows, place, iset{cell})) else None
  }

  ghost predicate MeasuredIn(rows: Rows, place: Placing, cell: Cell, row: UsagePoint) {
    row in rows && place(row) == Some(cell) && Measured(row)
  }

  // The span of a bucket is the tightest one around its measured rows.
  ghost predicate IsSpan(rows: Rows, place: Placing, cell: Cell, span: Option<Span>) {
    match span
    case None => forall row :: !MeasuredIn(rows, place, cell, row)
    case Some(s) =>
      && (forall row :: MeasuredIn(rows, place, cell, row) ==>
            s.first <= row.startedAt.value && row.endedAt.value <= s.last)
      && (exists row :: MeasuredIn(rows, place, cell, row) && row.startedAt.value == s.first)
      && (exists row :: MeasuredIn(rows, place, cell, row) && row.endedAt.value == s.last)
  }

  ghost predicate IsCurve(c: Curve, rows: Rows, times: seq<int>, place: Placing) {
    && |c.points| == |c.spans| == |times|
    && (forall i :: 0 <= i < |times| ==> c.points[i] == Point(rows, place, Cell(times[i], c.id)))
    && (forall i :: 0 <= i < |times| ==> IsSpan(rows, place, Cell(times[i], c.id), c.spans[i]))
    && c.totalMb == Total(rows, place, OnCurve(c.id))
  }

  ghost predicate HasCurve(curves: seq<Curve>, id: string) {
    exists k :: 0 <= k < |curves| && curves[k].id == id
  }

  ghost predicate Distinct(curves: seq<Curve>) {
    forall j, k :: 0 <= j < k < |curves| ==> curves[j].id != curves[k].id
  }

  // One curve for each id that some row is placed on, each holding exactly its rows.
  ghost predicate AreCurves(curves: seq<Curve>, rows: Rows, times: seq<int>, place: Placing) {
    && Distinct(curves)
    && (forall k :: 0 <= k < |curves| ==> IsCurve(curves[k], rows, times, place))
    && (forall id :: HasCurve(curves, id) <==> Reaches(rows, place, OnCurve(id)))
  }

  // ---------- one more row ----------

  lemma PointSnoc(rows: Rows, row: UsagePoint, place: Placing, cell: Cell)
    ensures Point(rows + [row], place, cell)
         == if place(row) == Some(cell) then Some(ValueOr(Point(rows, place, cell), 0.0) + row.usedMb)
            else Point(rows, place, cell)
  {
    TotalSnoc(rows, row, place, iset{cell});
    if !Reaches(rows, place, iset{cell}) { TotalOfNone(rows, place, iset{cell}); }
  }

  lemma MeasuredSnoc(rows: Rows, row: UsagePoint, place: Placing, cell: Cell, other: UsagePoint)
    ensures MeasuredIn(rows + [row], place, cell, other)
        <==> (MeasuredIn(rows, place, cell, other) || (other == row && place(row) == Some(cell) && Measured(row)))
  {}

  lemma SpanSnoc(rows: Rows, row: UsagePoint, place: Placing, cell: Cell, span: Option<Span>)
    requires IsSpan(rows, place, cell, span)
    ensures IsSpan(rows + [row], place, cell, if place(row) == Some(cell) then Widen(span, row) else span)
  {
    var more := rows + [row];
    forall other ensures MeasuredIn(more, place, cell, other)
        <==> (MeasuredIn(rows, place, cell, other) || (other == row && place(row) == Some(cell) && Measured(row)))
    {
      MeasuredSnoc(rows, row, place, cell, other);
    }
    if place(row) == Some(cell) && Measured(row) {
      assert MeasuredIn(more, place, cell, row);
    }
    if span.Some? {
      var r0 :| MeasuredIn(rows, place, cell, r0) && r0.startedAt.value == span.value.first;
      var r1 :| MeasuredIn(rows, place, cell, r1) && r1.endedAt.value == span.value.last;
      assert MeasuredIn(more, place, cell, r0) && MeasuredIn(more, place, cell, r1);
    }
  }

  function AddRow(c: Curve, i: nat, row: UsagePoint): Curve
    requires i < |c.points| == |c.spans|
  {
    Curve(c.id, c.points[i := Some(ValueOr(c.points[i], 0.0) + row.usedMb)],
          c.spans[i := Widen(c.spans[i], row)], c.totalMb + row.usedMb)
  }

  lemma CurveGains(c: Curve, rows: Rows, times: seq<int>, place: Placing, row: UsagePoint, i: nat)
    requires IsCurve(c, rows, times, place) && Increasing(times)
    requires i < |times| && place(row) == Some(Cell(times[i], c.id))
    ensures IsCurve(AddRow(c, i, row), rows + [row], times, place)
  {
    var c' := AddRow(c, i, row);
    TotalSnoc(rows, row, place, OnCurve(c.id));
    forall j | 0 <= j < |times|
      ensures c'.points[j] == Point(rows + [row], place, Cell(times[j], c.id))
      ensures IsSpan(rows + [row], place, Cell(times[j], c.id), c'.spans[j])
    {
      PointSnoc(rows, row, place, Cell(times[j], c.id));
      SpanSnoc(rows, row, place, Cell(times[j], c.id), c.spans[j]);
    }
  }

  lemma CurveKeeps(c: Curve, rows: Rows, times: seq<int>, place: Placing, row: UsagePoint)
    requires IsCurve(c, rows, times, place)
    requires place(row).None? || place(row).value.id != c.id
    ensures IsCurve(c, rows + [row], times, place)
  {
    TotalSnoc(rows, row, place, OnCurve(c.id));
    forall j | 0 <= j < |times|
      ensures c.points[j] == Point(rows + [row], place, Cell(times[j], c.id))
      ensures IsSpan(rows + [row], place, Cell(times[j], c.id), c.spans[j])
    {
      PointSnoc(rows, row, place, Cell(times[j], c.id));
      SpanSnoc(rows, row, place, Cell(times[j], c.id), c.spans[j]);
    }
  }

  function BlankCurve(id: string, n: nat): Curve {
    Curve(id, seq(n, _ => None), seq(n, _ => None), 0.0)
  }

  lemma BlankIsCurve(rows: Rows, times: seq<int>, place: Placing, id: string)
    requires !Reaches(rows, place, OnCurve(id))
    ensures IsCurve(BlankCurve(id, |times|), rows, times, place)
  {
    TotalOfNone(rows, place, OnCurve(id));
    forall row | row in rows ensures place(row).None? || place(row).value.id != id {
      assert place(row).None? || place(row).value !in OnCurve(id);
    }
  }

  // ---------- the accumulation loop ----------

  function IndexOf(curves: seq<Curve>, id: string): (k: nat)
    ensures k <= |curves|
    ensures k < |curves| ==> curves[k].id == id
    ensures forall j :: 0 <= j < k ==> curves[j].id != id
  {
    if curves == [] then 0
    else if curves[0].id == id then 0
    else 1 + IndexOf(curves[1..], id)
  }

  function PutRow(curves: seq<Curve>, n: nat, cell: Cell, i: nat, row: UsagePoint): seq<Curve>
    requires i < n && forall k :: 0 <= k < |curves| ==> |curves[k].points| == |curves[k].spans| == n
  {
    var k := IndexOf(curves, cell.id);
    if k < |curves| then curves[k := AddRow(curves[k], i, row)]
    else curves + [AddRow(BlankCurve(cell.id, n), i, row)]
  }

  lemma PutRowIds(curves: seq<Curve>, n: nat, cell: Cell, i: nat, row: UsagePoint)
    requires i < n && forall k :: 0 <= k < |curves| ==> |curves[k].points| == |curves[k].spans| == n
    requires Distinct(curves)
    ensures var more := PutRow(curves, n, cell, i, row);
            && Distinct(more)
            && forall id :: HasCurve(more, id) <==> (HasCurve(curves, id) || id == cell.id)
  {
    var k := IndexOf(curves, cell.id);
    var more := PutRow(curves, n, cell, i, row);
    assert forall j :: 0 <= j < |curves| ==> more[j].id == curves[j].id;
    assert more[k].id == cell.id;
    forall id ensures HasCurve(more, id) <==> (HasCurve(curves, id) || id == cell.id) {
      if HasCurve(curves, id) {
        var j :| 0 <= j < |curves| && curves[j].id == id;
        assert more[j].id == id;
      }
    }
  }

  lemma PutRowCurves(curves: seq<Curve>, rows: Rows, times: seq<int>, place: Placing, row: UsagePoint, i: nat)
    requires Increasing(times) && i < |times|
    requires AreCurves(curves, rows, times, place)
    requires place(row).Some? && place(row).value.at == times[i]
    ensures var more := PutRow(curves, |times|, place(row).value, i, row);
            forall k :: 0 <= k < |more| ==> IsCurve(more[k], rows + [row], times, place)
  {
    var id := place(row).value.id;
    var k := IndexOf(curves, id);
    forall j | 0 <= j < |curves| && j != k ensures IsCurve(curves[j], rows + [row], times, place) {
      assert curves[j].id != id;
      CurveKeeps(curves[j], rows, times, place, row);
    }
    if k < |curves| {
      CurveGains(curves[k], rows, times, place, row, i);
    } else {
      BlankIsCurve(rows, times, place, id);
      CurveGains(BlankCurve(id, |times|), rows, times, place, row, i);
    }
  }

  lemma PlacedRow(curves: seq<Curve>, rows: Rows, times: seq<int>, place: Placing, row: UsagePoint, i: nat)
    requires Increasing(times) && i < |times|
    requires AreCurves(curves, rows, times, place)
    requires place(row).Some? && place(row).value.at == times[i]
    ensures AreCurves(PutRow(curves, |times|, place(row).value, i, row), rows + [row], times, place)
  {
    PutRowCurves(curves, rows, times, place, row, i);
    PutRowIds(curves, |times|, place(row).value, i, row);
    forall id ensures Reaches(rows + [row], place, OnCurve(id))
                 <==> (Reaches(rows, place, OnCurve(id)) || id == place(row).value.id)
    {
      TotalSnoc(rows, row, place, OnCurve(id));
    }
  }

  lemma SkippedRow(curves: seq<Curve>, rows: Rows, times: seq<int>, place: Placing, row: UsagePoint)
    requires AreCurves(curves, rows, times, place)
    requires place(row).None?
    ensures AreCurves(curves, rows + [row], times, place)
  {
    forall k | 0 <= k < |curves| ensures IsCurve(curves[k], rows + [row], times, place) {
      CurveKeeps(curves[k], rows, times, place, row);
    }
    forall id ensures Reaches(rows + [row], place, OnCurve(id)) <==> Reaches(rows, place, OnCurve(id)) {
      TotalSnoc(rows, row, place, OnCurve(id));
    }
  }

  method Accumulate(rows: Rows, times: seq<int>, place: Placing)
    returns (curves: seq<Curve>, samples: nat, totalMb: real)
    requires Increasing(times)
    requires forall row :: row in rows && place(row).Some? ==> place(row).value.at in times
    ensures AreCurves(curves, rows, times, place)
    ensures totalMb == Total(rows, place, EVERYWHERE)
    ensures samples == |Placed(rows, place)|
  {
    var index := map i | 0 <= i < |times| :: times[i] := i;
    curves, samples, totalMb := [], 0, 0.0;
    var n := 0;
    while n < |rows|
      invariant 0 <= n <= |rows|
      invariant AreCurves(curves, rows[..n], times, place)
      invariant totalMb == Total(rows[..n], place, EVERYWHERE)
      invariant samples == |Placed(rows[..n], place)|
    {
      var row := rows[n];
      assert rows[..n + 1] == rows[..n] + [row];
      TotalSnoc(rows[..n], row, place, EVERYWHERE);
      if place(row).Some? {
        var i := index[place(row).value.at];
        PlacedRow(curves, rows[..n], times, place, row, i);
        curves := PutRow(curves, |times|, place(row).value, i, row);
        totalMb := totalMb + row.usedMb;
        samples := samples + 1;
      } else {
        SkippedRow(curves, rows[..n], times, place, row);
      }
      n := n + 1;
    }
    assert rows[..|rows|] == rows;
  }

  function Placed(rows: Rows, place: Placing): Rows {
    if rows == [] then [] else
      var before := Placed(rows[..|rows| - 1], place);
      if place(rows[|rows| - 1]).Some? then before + [rows[|rows| - 1]] else before
  }

  // ---------- conservation ----------

  ghost function SumTotals(curves: seq<Curve>): real {
    if curves == [] then 0.0 else SumTotals(curves[..|curves| - 1]) + curves[|curves| - 1].totalMb
  }

  function SumPoints(points: seq<Option<real>>): real {
    if points == [] then 0.0 else SumPoints(points[..|points| - 1]) + ValueOr(points[|points| - 1], 0.0)
  }

  ghost function SumAt(curves: seq<Curve>, i: nat): real
    requires forall k :: 0 <= k < |curves| ==> i < |curves[k].points|
  {
    if curves == [] then 0.0 else
      SumAt(curves[..|curves| - 1], i) + ValueOr(curves[|curves| - 1].points[i], 0.0)
  }

  ghost function OnCurves(curves: seq<Curve>): iset<Cell> {
    iset c: Cell | HasCurve(curves, c.id)
  }

  lemma SnocCurve(curves: seq<Curve>)
    requires curves != [] && Distinct(curves)
    ensures var (rest, last) := (curves[..|curves| - 1], curves[|curves| - 1]);
            && Distinct(rest) && OnCurves(rest) !! OnCurve(last.id)
            && OnCurves(curves) == OnCurves(rest) + OnCurve(last.id)
  {
    var rest, last := curves[..|curves| - 1], curves[|curves| - 1];
    forall c: Cell ensures c in OnCurves(curves) <==> c in OnCurves(rest) + OnCurve(last.id) {
      if HasCurve(curves, c.id) {
        var k :| 0 <= k < |curves| && curves[k].id == c.id;
        if k < |rest| { assert rest[k].id == c.id; }
      }
      if HasCurve(rest, c.id) {
        var k :| 0 <= k < |rest| && rest[k].id == c.id;
        assert curves[k].id == c.id;
      }
      if c.id == last.id { assert curves[|rest|].id == c.id; }
    }
  }

  lemma {:induction false} SomeTotals(curves: seq<Curve>, rows: Rows, place: Placing)
    requires Distinct(curves)
    requires forall k :: 0 <= k < |curves| ==> curves[k].totalMb == Total(rows, place, OnCurve(curves[k].id))
    ensures SumTotals(curves) == Total(rows, place, OnCurves(curves))
  {
    if curves == [] {
      assert !Reaches(rows, place, OnCurves(curves));
      TotalOfNone(rows, place, OnCurves(curves));
    } else {
      var rest, last := curves[..|curves| - 1], curves[|curves| - 1];
      SnocCurve(curves);
      SomeTotals(rest, rows, place);
      TotalSplits(rows, place, OnCurves(rest), OnCurve(last.id));
    }
  }

  lemma EveryRowHasCurve(curves: seq<Curve>, rows: Rows, place: Placing, row: UsagePoint)
    requires forall id :: HasCurve(curves, id) <==> Reaches(rows, place, OnCurve(id))
    requires row in rows && place(row).Some?
    ensures place(row).value in OnCurves(curves)
  {
    assert place(row).value in OnCurve(place(row).value.id);
  }

  // The curve totals add up to the usage of all placed rows.
  lemma CurveTotalsAddUp(curves: seq<Curve>, rows: Rows, times: seq<int>, place: Placing)
    requires AreCurves(curves, rows, times, place)
    ensures SumTotals(curves) == Total(rows, place, EVERYWHERE)
  {
    SomeTotals(curves, rows, place);
    forall row | row in rows ensures place(row).Some? ==> place(row).value in OnCurves(curves) {
      if place(row).Some? { EveryRowHasCurve(curves, rows, place, row); }
    }
    TotalAgrees(rows, place, OnCurves(curves), place, EVERYWHERE);
  }

  ghost function InBuckets(times: seq<int>, id: string): iset<Cell> {
    iset c: Cell | c.id == id && c.at in times
  }

  lemma {:induction false} SomePoints(
      points: seq<Option<real>>, times: seq<int>, rows: Rows, place: Placing, id: string)
    requires |points| == |times| && Increasing(times)
    requires forall i :: 0 <= i < |times| ==> points[i] == Point(rows, place, Cell(times[i], id))
    ensures SumPoints(points) == Total(rows, place, InBuckets(times, id))
  {
    if points == [] {
      TotalOfNone(rows, place, InBuckets(times, id));
    } else {
      var n := |points| - 1;
      SomePoints(points[..n], times[..n], rows, place, id);
      var a, b := InBuckets(times[..n], id), iset{Cell(times[n], id)};
      assert InBuckets(times, id) == a + b;
      TotalSplits(rows, place, a, b);
      if !Reaches(rows, place, b) { TotalOfNone(rows, place, b); }
    }
  }

  // The points of a curve add up to its total.
  lemma PointsAddUp(c: Curve, rows: Rows, times: seq<int>, place: Placing)
    requires IsCurve(c, rows, times, place) && Increasing(times)
    requires forall row :: row in rows && place(row).Some? ==> place(row).value.at in times
    ensures SumPoints(c.points) == c.totalMb
  {
    SomePoints(c.points, times, rows, place, c.id);
    TotalAgrees(rows, place, InBuckets(times, c.id), place, OnCurve(c.id));
  }

  lemma {:induction false} SomeAt(curves: seq<Curve>, rows: Rows, times: seq<int>, place: Placing, i: nat)
    requires Distinct(curves) && i < |times|
    requires forall k :: 0 <= k < |curves| ==>
               |curves[k].points| == |times| && curves[k].points[i] == Point(rows, place, Cell(times[i], curves[k].id))
    ensures SumAt(curves, i) == Total(rows, place, OnCurves(curves) * InBucket(times[i]))
  {
    if curves == [] {
      assert OnCurves(curves) * InBucket(times[i]) == iset{};
      TotalOfNone(rows, place, OnCurves(curves) * InBucket(times[i]));
    } else {
      var rest, last := curves[..|curves| - 1], curves[|curves| - 1];
      SnocCurve(curves);
      SomeAt(rest, rows, times, place, i);
      var a, b := OnCurves(rest) * InBucket(times[i]), iset{Cell(times[i], last.id)};
      assert OnCurves(curves) * InBucket(times[i]) == a + b;
      TotalSplits(rows, place, a, b);
      if !Reaches(rows, place, b) { TotalOfNone(rows, place, b); }
    }
  }

  // In one bucket the points of all curves add up to the usage of all rows placed in it.
  lemma BucketAddsUp(curves: seq<Curve>, rows: Rows, times: seq<int>, place: Placing, i: nat)
    requires AreCurves(curves, rows, times, place) && i < |times|
    ensures SumAt(curves, i) == Total(rows, place, InBucket(times[i]))
    ensures (exists k :: 0 <= k < |curves| && curves[k].points[i].Some?) <==> Reaches(rows, place, InBucket(times[i]))
  {
    SomeAt(curves, rows, times, place, i);
    forall row | row in rows ensures place(row).Some? ==> place(row).value in OnCurves(curves) {
      if place(row).Some? { EveryRowHasCurve(curves, rows, place, row); }
    }
    TotalAgrees(rows, place, OnCurves(curves) * InBucket(times[i]), place, InBucket(times[i]));
    if Reaches(rows, place, InBucket(times[i])) {
      var row :| row in rows && place(row).Some? && place(row).value in InBucket(times[i]);
      EveryRowHasCurve(curves, rows, place, row);
      var k :| 0 <= k < |curves| && curves[k].id == place(row).value.id;
      assert place(row).value == Cell(times[i], curves[k].id);
      assert place(row).value in iset{Cell(times[i], curves[k].id)};
    }
  }
}
