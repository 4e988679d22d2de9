/** Which rows a usage chart is made of, told row by row: what a point, a curve and the totals are the sum of. */
module UsageRows {
  import opened Optional
  import opened Buckets
  import opened UsageTotals
  import opened UsageCurves
  import opened UsageRunning
  import opened UsageChart
  import opened UsageTheorems

  type Selection = UsagePoint -> bool

  ghost function SumOf(rows: Rows, wanted: Selection): real {
    if rows == [] then 0.0 else
      var n := |rows| - 1;
      SumOf(rows[..n], wanted) + if wanted(rows[n]) then rows[n].usedMb else 0.0
  }

  ghost function CountOf(rows: Rows, wanted: Selection): nat {
    if rows == [] then 0 else
      var n := |rows| - 1;
      CountOf(rows[..n], wanted) + if wanted(rows[n]) then 1 else 0
  }

  // ---------- the reader's view of a row ----------

  // A row the view leaves out altogether, for one of five reasons.
  predicate LeftOut(v: View, row: UsagePoint) {
    || row.at as real > v.now
    || row.usedMb < 0.0
    || row.sampledSeconds <= 0
    || (v.account != "" && row.account != v.account)
    || (v.presentation.Interfaces? && v.interfaces.Some? && row.interfaceId !in v.interfaces.value)
  }

  // The rows a scale is drawn from: days for days and months, hours for hours, minutes for anything finer.
  predicate OfTier(row: UsagePoint, s: Scale) {
    match s
    case Month => row.resolution == 86400
    case Day => row.resolution == 86400
    case Hour => row.resolution == 3600
    case _ => row.resolution == 60
  }

  // A row still being measured at the end of the window, or now, is not drawn yet.
  predicate MeasuredBy(row: UsagePoint, end: real) {
    match row.endedAt
    case None => row.at as real <= end
    case Some(last) => last as real <= end
  }

  predicate DrawnIn(v: View, s: Scale, row: UsagePoint) {
    !LeftOut(v, row) && OfTier(row, s) && MeasuredBy(row, v.now) && MeasuredBy(row, v.end)
  }

  // The rows drawn in one bucket of one curve, on one curve, and in the whole chart.
  function DrawnAt(v: View, s: Scale, t: int, id: string): Selection {
    (row: UsagePoint) =>
      DrawnIn(v, s, row) && Bucket(row.at, s) == t && (v.presentation.Interfaces? ==> row.interfaceId == id)
  }

  function DrawnOn(v: View, s: Scale, times: seq<int>, id: string): Selection {
    (row: UsagePoint) =>
      DrawnIn(v, s, row) && Bucket(row.at, s) in times && (v.presentation.Interfaces? ==> row.interfaceId == id)
  }

  function DrawnAnywhere(v: View, s: Scale, times: seq<int>): Selection {
    (row: UsagePoint) => DrawnIn(v, s, row) && Bucket(row.at, s) in times
  }

  // ---------- the chart's own selection is that one ----------

  lemma AcceptsIff(v: View, row: UsagePoint)
    ensures Accepts(v, row) <==> !LeftOut(v, row)
  {}

  lemma PlacedIff(v: View, s: Scale, times: seq<int>, row: UsagePoint)
    ensures var p := Place(v, s, times)(row);
            && (p.Some? && Accepts(v, row) <==> DrawnAnywhere(v, s, times)(row))
            && (p.Some? ==> p.value.at == Bucket(row.at, s))
            && (p.Some? ==> p.value.id == if v.presentation.Summed? then "sum" else row.interfaceId)
  {}

  lemma {:induction false} AcceptedTotal(rows: Rows, v: View, place: Placing, places: iset<Cell>, wanted: Selection)
    requires forall row :: wanted(row) <==> Accepts(v, row) && place(row).Some? && place(row).value in places
    ensures Total(Accepted(rows, v), place, places) == SumOf(rows, wanted)
  {
    if rows != [] {
      var n := |rows| - 1;
      AcceptedTotal(rows[..n], v, place, places, wanted);
      if Accepts(v, rows[n]) { TotalSnoc(Accepted(rows[..n], v), rows[n], place, places); }
    }
  }

  lemma AcceptedSums(rows: Rows, v: View, place: Placing, places: iset<Cell>, wanted: Selection)
    requires forall row :: wanted(row) <==> Accepts(v, row) && place(row).Some? && place(row).value in places
    ensures Total(Accepted(rows, v), place, places) == SumOf(rows, wanted)
    ensures Reaches(Accepted(rows, v), place, places) <==> exists row :: row in rows && wanted(row)
  {
    AcceptedTotal(rows, v, place, places, wanted);
    forall row ensures row in Accepted(rows, v) <==> row in rows && Accepts(v, row) { AcceptedRows(rows, v, row); }
  }

  lemma {:induction false} AcceptedCounts(rows: Rows, v: View, place: Placing, wanted: Selection)
    requires forall row :: wanted(row) <==> Accepts(v, row) && place(row).Some?
    ensures |Placed(Accepted(rows, v), place)| == CountOf(rows, wanted)
  {
    if rows != [] {
      var n := |rows| - 1;
      AcceptedCounts(rows[..n], v, place, wanted);
      if Accepts(v, rows[n]) {
        var before := Accepted(rows[..n], v);
        assert (before + [rows[n]])[..|before|] == before;
      }
    }
  }

  // A point of the delta view is the usage of exactly the rows drawn in its bucket on its curve, and missing if there
  // is none.
  lemma PointSums(chart: Chart, rows: Rows, v: View, k: nat, i: nat)
    requires IsChart(chart, rows, v) && v.mode.Delta?
    requires k < |chart.lines| && i < |chart.times|
    ensures |chart.lines[k].points| == |chart.times|
    ensures var wanted := DrawnAt(v, chart.scale, chart.times[i], chart.lines[k].curve.id);
            chart.lines[k].points[i]
            == if exists row :: row in rows && wanted(row) then Some(SumOf(rows, wanted)) else None
  {
    var s, times, id := chart.scale, chart.times, chart.lines[k].curve.id;
    var place := Place(v, s, times);
    LineFacts(chart, rows, v, k);
    IdOfLine(chart, rows, v, k);
    forall row ensures DrawnAt(v, s, times[i], id)(row)
        <==> Accepts(v, row) && place(row).Some? && place(row).value in iset{Cell(times[i], id)}
    {
      PlacedIff(v, s, times, row);
    }
    AcceptedSums(rows, v, place, iset{Cell(times[i], id)}, DrawnAt(v, s, times[i], id));
  }

  lemma IdOfLine(chart: Chart, rows: Rows, v: View, k: nat)
    requires IsChart(chart, rows, v) && k < |chart.lines|
    ensures v.presentation.Summed? ==> chart.lines[k].curve.id == "sum"
  {
    if v.presentation.Summed? { SummedId(chart, rows, v, k); }
  }

  // The totals are those of all rows drawn, and there is one curve for each interface some row is drawn of, or one
  // for all.
  lemma TotalSums(chart: Chart, rows: Rows, v: View)
    requires IsChart(chart, rows, v)
    ensures chart.totalMb == SumOf(rows, DrawnAnywhere(v, chart.scale, chart.times))
    ensures chart.samples == CountOf(rows, DrawnAnywhere(v, chart.scale, chart.times))
  {
    var wanted, place := DrawnAnywhere(v, chart.scale, chart.times), Place(v, chart.scale, chart.times);
    forall row ensures wanted(row) <==> Accepts(v, row) && place(row).Some? {
      PlacedIff(v, chart.scale, chart.times, row);
    }
    AcceptedSums(rows, v, place, EVERYWHERE, wanted);
    AcceptedCounts(rows, v, place, wanted);
  }

  lemma CurvesAre(chart: Chart, rows: Rows, v: View, id: string)
    requires IsChart(chart, rows, v) && (v.presentation.Summed? ==> id == "sum")
    ensures HasCurve(CurvesOf(chart.lines), id)
       <==> exists row :: row in rows && DrawnOn(v, chart.scale, chart.times, id)(row)
  {
    var s, times := chart.scale, chart.times;
    var place := Place(v, s, times);
    ChartFacts(chart, rows, v);
    forall row ensures DrawnOn(v, s, times, id)(row)
        <==> Accepts(v, row) && place(row).Some? && place(row).value in OnCurve(id)
    {
      PlacedIff(v, s, times, row);
    }
    AcceptedSums(rows, v, place, OnCurve(id), DrawnOn(v, s, times, id));
  }

  // ---------- which points are joined ----------

  // A row drawn in this bucket of this curve, with a measured time.
  ghost predicate MeasuredAt(rows: Rows, v: View, s: Scale, t: int, id: string, row: UsagePoint) {
    && row in rows && DrawnAt(v, s, t, id)(row)
    && row.startedAt.Some? && row.endedAt.Some? && row.startedAt.value <= row.endedAt.value
  }

  // Some row of the later bucket starts no later than a second after some row of the earlier one ends.
  ghost predicate Touch(rows: Rows, v: View, s: Scale, later: int, earlier: int, id: string) {
    exists a, b :: MeasuredAt(rows, v, s, later, id, a) && MeasuredAt(rows, v, s, earlier, id, b)
                   && a.startedAt.value <= b.endedAt.value + 1
  }

  lemma SpansTouch(rows: Rows, place: Placing, later: Cell, earlier: Cell, x: Option<Span>, y: Option<Span>)
    requires IsSpan(rows, place, later, x) && IsSpan(rows, place, earlier, y)
    ensures (x.Some? && y.Some? && x.value.first <= y.value.last + 1)
       <==> exists a, b :: MeasuredIn(rows, place, later, a) && MeasuredIn(rows, place, earlier, b)
                           && a.startedAt.value <= b.endedAt.value + 1
  {}

  lemma MeasuredIff(rows: Rows, v: View, s: Scale, times: seq<int>, t: int, id: string, row: UsagePoint)
    requires t in times && (v.presentation.Summed? ==> id == "sum")
    ensures MeasuredIn(Accepted(rows, v), Place(v, s, times), Cell(t, id), row)
       <==> MeasuredAt(rows, v, s, t, id, row)
  {
    AcceptedRows(rows, v, row);
    PlacedIff(v, s, times, row);
  }

  lemma TouchIff(rows: Rows, v: View, s: Scale, times: seq<int>, c: Curve, i: nat, p: nat)
    requires IsCurve(c, Accepted(rows, v), times, Place(v, s, times)) && i < |times| && p < |times|
    requires v.presentation.Summed? ==> c.id == "sum"
    ensures (c.spans[i].Some? && c.spans[p].Some? && c.spans[i].value.first <= c.spans[p].value.last + 1)
       <==> Touch(rows, v, s, times[i], times[p], c.id)
  {
    var accepted, place := Accepted(rows, v), Place(v, s, times);
    SpansTouch(accepted, place, Cell(times[i], c.id), Cell(times[p], c.id), c.spans[i], c.spans[p]);
    forall row
      ensures MeasuredIn(accepted, place, Cell(times[i], c.id), row) <==> MeasuredAt(rows, v, s, times[i], c.id, row)
      ensures MeasuredIn(accepted, place, Cell(times[p], c.id), row) <==> MeasuredAt(rows, v, s, times[p], c.id, row)
    {
      MeasuredIff(rows, v, s, times, times[i], c.id, row);
      MeasuredIff(rows, v, s, times, times[p], c.id, row);
    }
  }

  // The nearest point before the i-th is the p-th.
  ghost predicate Nearest(points: seq<Option<real>>, p: int, i: nat)
    requires i < |points|
  {
    0 <= p < i && points[p].Some? && forall j :: p < j < i ==> points[j].None?
  }

  lemma NearestIff(l: Line, v: View, accepted: Rows, times: seq<int>, starts: Clock, p: int, i: nat)
    requires IsLine(l, v, accepted, times, starts) && i < |times|
    ensures Nearest(l.points, p, i) <==> IsPrevious(l.curve.points, p, i)
    ensures l.points[i].Some? <==> l.curve.points[i].Some?
  {
    forall j | 0 <= j < |times| ensures l.points[j].Some? <==> l.curve.points[j].Some? {
      DrawnIff(l, v, accepted, times, starts, j);
    }
  }

  lemma DrawnIff(l: Line, v: View, accepted: Rows, times: seq<int>, starts: Clock, i: nat)
    requires IsLine(l, v, accepted, times, starts) && i < |times|
    ensures l.points[i].Some? <==> l.curve.points[i].Some?
  {}

  predicate Fine(s: Scale) {
    s.Minute? || s.FiveMinutes? || s.FifteenMinutes?
  }

  lemma LineJoined(l: Line, v: View, rows: Rows, times: seq<int>, i: nat)
    requires IsCurve(l.curve, Accepted(rows, v), times, Place(v, ViewScale(v), times))
    requires IsLine(l, v, Accepted(rows, v), times, BeijingStarts) && i < |times|
    requires v.presentation.Summed? ==> l.curve.id == "sum"
    ensures l.joined[i] <==>
              l.points[i].Some? && exists p ::
                Nearest(l.points, p, i)
                && (p == i - 1 || (Fine(ViewScale(v)) && Touch(rows, v, ViewScale(v), times[i], times[p], l.curve.id)))
  {
    var s := ViewScale(v);
    forall p ensures Nearest(l.points, p, i) <==> IsPrevious(l.curve.points, p, i) {
      NearestIff(l, v, Accepted(rows, v), times, BeijingStarts, p, i);
    }
    NearestIff(l, v, Accepted(rows, v), times, BeijingStarts, 0, i);
    forall p | 0 <= p < i
      ensures (l.curve.spans[i].Some? && l.curve.spans[p].Some?
               && l.curve.spans[i].value.first <= l.curve.spans[p].value.last + 1)
         <==> Touch(rows, v, s, times[i], times[p], l.curve.id)
    {
      TouchIff(rows, v, s, times, l.curve, i, p);
    }
    assert Resolution(s) == 60 <==> Fine(s);
  }

  // A point is joined to the nearest one before it exactly if that is in the bucket before, or, on buckets finer than
  // an hour, their rows touch.
  lemma JoinedIff(chart: Chart, rows: Rows, v: View, k: nat, i: nat)
    requires IsChart(chart, rows, v) && k < |chart.lines| && i < |chart.times|
    ensures var l := chart.lines[k];
            && |l.joined| == |l.points| == |chart.times|
            && (l.joined[i] <==>
                  l.points[i].Some? && exists p ::
                    Nearest(l.points, p, i)
                    && (p == i - 1
                        || (Fine(chart.scale)
                            && Touch(rows, v, chart.scale, chart.times[i], chart.times[p], l.curve.id))))
  {
    LineFacts(chart, rows, v, k);
    IdOfLine(chart, rows, v, k);
    LineJoined(chart.lines[k], v, rows, chart.times, i);
  }

  // ---------- rows that do not matter ----------

  lemma {:induction false} AcceptedJoins(a: Rows, b: Rows, v: View)
    ensures Accepted(a + b, v) == Accepted(a, v) + Accepted(b, v)
    decreases |b|
  {
    if b == [] {
      assert a + b == a;
    } else {
      var n := |b| - 1;
      AcceptedJoins(a, b[..n], v);
      assert (a + b)[..|a + b| - 1] == a + b[..n];
    }
  }

  function Without(rows: Rows, i: nat): Rows
    requires i < |rows|
  {
    rows[..i] + rows[i + 1..]
  }

  lemma OneAccepted(row: UsagePoint, v: View)
    ensures Accepted([row], v) == if Accepts(v, row) then [row] else []
  {
    assert [row][..0] == [];
  }

  lemma WithoutAccepted(rows: Rows, v: View, i: nat)
    requires i < |rows| && LeftOut(v, rows[i])
    ensures Accepted(Without(rows, i), v) == Accepted(rows, v)
  {
    var before, after := rows[..i], rows[i + 1..];
    assert rows == before + ([rows[i]] + after);
    AcceptedJoins(before, [rows[i]] + after, v);
    AcceptedJoins([rows[i]], after, v);
    AcceptedJoins(before, after, v);
    OneAccepted(rows[i], v);
    assert [] + Accepted(after, v) == Accepted(after, v);
  }

  lemma SameRowsSameChart(chart: Chart, rows: Rows, others: Rows, v: View)
    requires Accepted(rows, v) == Accepted(others, v)
    ensures IsChart(chart, rows, v) <==> IsChart(chart, others, v)
  {}

  // A row of another account than the one chosen, of an interface that was not selected, later than now, or without
  // sampled time or usage, changes nothing: with it and without it the charts are the same.
  lemma LeftOutRowsDoNotMatter(chart: Chart, rows: Rows, v: View, i: nat)
    requires i < |rows| && LeftOut(v, rows[i])
    ensures IsChart(chart, rows, v) <==> IsChart(chart, Without(rows, i), v)
  {
    WithoutAccepted(rows, v, i);
    SameRowsSameChart(chart, rows, Without(rows, i), v);
  }

  lemma {:induction false} SumJoins(a: Rows, b: Rows, wanted: Selection)
    ensures SumOf(a + b, wanted) == SumOf(a, wanted) + SumOf(b, wanted)
    ensures CountOf(a + b, wanted) == CountOf(a, wanted) + CountOf(b, wanted)
    decreases |b|
  {
    if b == [] {
      assert a + b == a;
    } else {
      var n := |b| - 1;
      SumJoins(a, b[..n], wanted);
      assert (a + b)[..|a + b| - 1] == a + b[..n];
    }
  }

  lemma SumOfOne(row: UsagePoint, wanted: Selection)
    ensures SumOf([row], wanted) == if wanted(row) then row.usedMb else 0.0
    ensures CountOf([row], wanted) == if wanted(row) then 1 else 0
  {
    assert [row][..0] == [];
  }

  lemma SumInside(whole: Rows, rest: Rows, before: Rows, row: UsagePoint, after: Rows, wanted: Selection)
    requires whole == before + ([row] + after) && rest == before + after
    ensures SumOf(whole, wanted) == SumOf(rest, wanted) + if wanted(row) then row.usedMb else 0.0
    ensures CountOf(whole, wanted) == CountOf(rest, wanted) + if wanted(row) then 1 else 0
  {
    SumJoins(before, [row] + after, wanted);
    SumJoins([row], after, wanted);
    SumJoins(before, after, wanted);
    SumOfOne(row, wanted);
  }

  lemma SplitAt(rows: Rows, i: nat)
    requires i < |rows|
    ensures rows == rows[..i] + ([rows[i]] + rows[i + 1..])
  {}

  lemma SumWithout(rows: Rows, i: nat, wanted: Selection)
    requires i < |rows|
    ensures SumOf(rows, wanted) == SumOf(Without(rows, i), wanted) + if wanted(rows[i]) then rows[i].usedMb else 0.0
    ensures CountOf(rows, wanted) == CountOf(Without(rows, i), wanted) + if wanted(rows[i]) then 1 else 0
  {
    SplitAt(rows, i);
    SumInside(rows, Without(rows, i), rows[..i], rows[i], rows[i + 1..], wanted);
  }

  lemma SameWindow(chart: Chart, other: Chart, rows: Rows, others: Rows, v: View)
    requires IsChart(chart, rows, v) && IsChart(other, others, v)
    ensures chart.scale == other.scale && chart.times == other.times
  {}

  // Every other row of the tier that is measured and has its bucket in the grid counts, once and in full.
  lemma DrawnRowsCount(chart: Chart, other: Chart, rows: Rows, v: View, i: nat)
    requires i < |rows| && IsChart(chart, rows, v) && IsChart(other, Without(rows, i), v)
    ensures var drawn := DrawnAnywhere(v, chart.scale, chart.times)(rows[i]);
            && chart.totalMb == other.totalMb + (if drawn then rows[i].usedMb else 0.0)
            && chart.samples == other.samples + if drawn then 1 else 0
  {
    SameWindow(chart, other, rows, Without(rows, i), v);
    TotalSums(chart, rows, v);
    TotalSums(other, Without(rows, i), v);
    SumWithout(rows, i, DrawnAnywhere(v, chart.scale, chart.times));
  }

  // ---------- all accounts, and each by itself ----------

  lemma {:induction false} SumSplits(rows: Rows, whole: Selection, a: Selection, b: Selection)
    requires forall row :: (whole(row) <==> a(row) || b(row)) && !(a(row) && b(row))
    ensures SumOf(rows, whole) == SumOf(rows, a) + SumOf(rows, b)
  {
    if rows != [] { SumSplits(rows[..|rows| - 1], whole, a, b); }
  }

  lemma {:induction false} SumAgrees(rows: Rows, a: Selection, b: Selection)
    requires forall row :: row in rows ==> (a(row) <==> b(row))
    ensures SumOf(rows, a) == SumOf(rows, b)
  {
    if rows != [] {
      var n := |rows| - 1;
      assert forall row :: row in rows[..n] ==> row in rows;
      SumAgrees(rows[..n], a, b);
    }
  }

  function OfAccount(wanted: Selection, name: string): Selection {
    (row: UsagePoint) => wanted(row) && row.account == name
  }

  function OfOthers(wanted: Selection, names: seq<string>): Selection {
    (row: UsagePoint) => wanted(row) && row.account !in names
  }

  ghost function TotalOfEach(charts: seq<Chart>): real {
    if charts == [] then 0.0 else TotalOfEach(charts[..|charts| - 1]) + charts[|charts| - 1].totalMb
  }

  ghost predicate AllDistinct(names: seq<string>) {
    forall j, k :: 0 <= j < k < |names| ==> names[j] != names[k]
  }

  lemma {:induction false} EachAccount(rows: Rows, wanted: Selection, names: seq<string>, charts: seq<Chart>)
    requires |charts| == |names| && AllDistinct(names)
    requires forall k :: 0 <= k < |names| ==> charts[k].totalMb == SumOf(rows, OfAccount(wanted, names[k]))
    ensures SumOf(rows, wanted) == TotalOfEach(charts) + SumOf(rows, OfOthers(wanted, names))
    decreases |names|
  {
    if names == [] {
      SumAgrees(rows, wanted, OfOthers(wanted, names));
    } else {
      var n := |names| - 1;
      EachAccount(rows, wanted, names[..n], charts[..n]);
      forall row ensures OfOthers(wanted, names[..n])(row)
          <==> OfAccount(wanted, names[n])(row) || OfOthers(wanted, names)(row)
      {
        assert names == names[..n] + [names[n]];
      }
      SumSplits(rows, OfOthers(wanted, names[..n]), OfAccount(wanted, names[n]), OfOthers(wanted, names));
    }
  }

  function Others(rows: Rows, names: seq<string>): Rows {
    if rows == [] then [] else
      var n := |rows| - 1;
      Others(rows[..n], names) + if rows[n].account in names then [] else [rows[n]]
  }

  lemma {:induction false} OthersSum(rows: Rows, wanted: Selection, names: seq<string>)
    ensures SumOf(Others(rows, names), wanted) == SumOf(rows, OfOthers(wanted, names))
  {
    if rows != [] {
      var n := |rows| - 1;
      OthersSum(rows[..n], wanted, names);
      if rows[n].account !in names {
        var before := Others(rows[..n], names);
        assert (before + [rows[n]])[..|before|] == before;
      } else {
        assert Others(rows, names) == Others(rows[..n], names);
      }
    }
  }

  lemma AccountWindow(chart: Chart, rows: Rows, v: View, whole: Chart, name: string)
    requires IsChart(whole, rows, v) && IsChart(chart, rows, v.(account := name))
    ensures chart.scale == whole.scale && chart.times == whole.times
  {
    SameScale(v, v.(account := name));
  }

  lemma OfAccountIff(v: View, s: Scale, times: seq<int>, name: string, row: UsagePoint)
    requires v.account == "" && name != ""
    ensures DrawnAnywhere(v.(account := name), s, times)(row) <==> OfAccount(DrawnAnywhere(v, s, times), name)(row)
  {}

  // The chart of an account chosen shows its share of the chart of all.
  lemma AccountTotal(chart: Chart, rows: Rows, v: View, whole: Chart, name: string)
    requires v.account == "" && name != "" && IsChart(whole, rows, v) && IsChart(chart, rows, v.(account := name))
    ensures chart.scale == whole.scale && chart.times == whole.times
    ensures chart.totalMb == SumOf(rows, OfAccount(DrawnAnywhere(v, whole.scale, whole.times), name))
  {
    var s, times := whole.scale, whole.times;
    AccountWindow(chart, rows, v, whole, name);
    TotalSums(chart, rows, v.(account := name));
    forall row ensures DrawnAnywhere(v.(account := name), s, times)(row)
                  <==> OfAccount(DrawnAnywhere(v, s, times), name)(row) {
      OfAccountIff(v, s, times, name, row);
    }
    SumAgrees(rows, DrawnAnywhere(v.(account := name), s, times), OfAccount(DrawnAnywhere(v, s, times), name));
  }

  // Without an account chosen the chart's total is the sum of the totals of the charts of any accounts, each chosen by
  // itself, and of the chart of the remaining rows.
  lemma AccountsAddUp(
      whole: Chart, rows: Rows, v: View, names: seq<string>, charts: seq<Chart>, rest: Chart)
    requires v.account == "" && IsChart(whole, rows, v)
    requires |charts| == |names| && AllDistinct(names) && "" !in names
    requires forall k :: 0 <= k < |names| ==> IsChart(charts[k], rows, v.(account := names[k]))
    requires IsChart(rest, Others(rows, names), v)
    ensures whole.totalMb == TotalOfEach(charts) + rest.totalMb
  {
    var wanted := DrawnAnywhere(v, whole.scale, whole.times);
    forall k | 0 <= k < |names| ensures charts[k].totalMb == SumOf(rows, OfAccount(wanted, names[k])) {
      AccountTotal(charts[k], rows, v, whole, names[k]);
    }
    EachAccount(rows, wanted, names, charts);
    TotalSums(whole, rows, v);
    TotalSums(rest, Others(rows, names), v);
    OthersSum(rows, wanted, names);
  }

  // ---------- the window ----------

  lemma ChartWindow(chart: Chart, rows: Rows, v: View)
    requires IsChart(chart, rows, v)
    ensures chart.scale == ViewScale(v) && chart.times == ViewTimes(v)
  {}

  // This scale shows a stretch of time in 4500 steps.
  predicate Suits(span: real, s: Scale) {
    s.Month? || span <= 4500.0 * Seconds(s) as real
  }

  lemma SuitsIff(span: real, s: Scale)
    ensures Fits(span, s) <==> Suits(span, s)
  {
    if !s.Month? { Quotient(span, Seconds(s)); }
  }

  // The first scale, from s on, that shows the stretch in 4500 steps.
  ghost predicate FirstSuited(span: real, s: Scale, r: Scale) {
    && Rank(s) <= Rank(r) && Suits(span, r)
    && forall t: Scale :: Rank(s) <= Rank(t) < Rank(r) ==> !Suits(span, t)
  }

  lemma FirstThatSuits(span: real, s: Scale)
    ensures FirstSuited(span, s, EffectiveScale(span, s))
  {
    var r := EffectiveScale(span, s);
    SuitsIff(span, r);
    forall t: Scale | Rank(s) <= Rank(t) < Rank(r) ensures !Suits(span, t) {
      SuitsIff(span, t);
      assert !Fits(span, t);
    }
  }

  // The end of the window, or now if that comes first.
  function Latest(v: View): real {
    if v.end < v.now then v.end else v.now
  }

  lemma WindowScale(v: View, span: real)
    requires span == Latest(v) - v.start
    ensures FirstSuited(span, v.scale, ViewScale(v)) && Fits(span, ViewScale(v))
  {
    assert WindowEnd(v) - v.start == span;
    FirstThatSuits(span, v.scale);
  }

  // The chart uses the first scale, from the one asked for on, that shows the window, up to now if it ends later, in
  // 4500 steps.
  lemma ScaleIs(chart: Chart, rows: Rows, v: View)
    requires IsChart(chart, rows, v)
    ensures FirstSuited(Latest(v) - v.start, v.scale, chart.scale)
  {
    ChartWindow(chart, rows, v);
    WindowScale(v, Latest(v) - v.start);
  }

  lemma Quotient(span: real, seconds: nat)
    requires seconds > 0
    ensures span / seconds as real <= 4500.0 <==> span <= 4500.0 * seconds as real
  {}

  // Only a grid of months can run into the cap, or misread or step over years.
  predicate Undisturbed(start: real, s: Scale, times: seq<int>, at: int) {
    && Plain(start.Floor, s) && Plain(at, s) && !SteppedOver(BucketOf(start, s), Bucket(at, s), s)
    && (s.Month? ==> |times| < 5000)
  }

  lemma InstantIsListed(start: real, end: real, s: Scale, times: seq<int>, at: int)
    requires times == GridFrom(BucketOf(start, s), BucketOf(end, s), s, GRID_CAP)
    requires start <= at as real <= end && Fits(end - start, s) && Undisturbed(start, s, times, at)
    ensures Bucket(at, s) in times
  {
    GridPartition(start, end, s, at);
    if !s.Month? { FittingGridIsSmall(start, end, s); }
    BucketMonotone(start.Floor, at, s);
    BucketMonotone(at, end.Floor, s);
  }

  lemma WindowGrid(v: View, s: Scale, end: real)
    requires s == ViewScale(v) && end == Latest(v)
    ensures ViewTimes(v) == GridFrom(BucketOf(v.start, s), BucketOf(end, s), s, GRID_CAP)
  {}

  // Every instant of the window that is not after now has its bucket among the chart's lines.
  lemma InstantIsCharted(chart: Chart, rows: Rows, v: View, at: int)
    requires IsChart(chart, rows, v) && Undisturbed(v.start, chart.scale, chart.times, at)
    requires v.start <= at as real <= Latest(v)
    ensures Bucket(at, chart.scale) in chart.times
  {
    ChartWindow(chart, rows, v);
    WindowScale(v, Latest(v) - v.start);
    WindowGrid(v, chart.scale, Latest(v));
    InstantIsListed(v.start, Latest(v), chart.scale, chart.times, at);
  }

  // No line lies after the bucket of now, nor after that of the window's end, nor before that of its start.
  lemma LinesAreInside(chart: Chart, rows: Rows, v: View, t: int)
    requires IsChart(chart, rows, v) && t in chart.times
    ensures BucketOf(v.start, chart.scale) <= t <= BucketOf(Latest(v), chart.scale)
  {
    ChartWindow(chart, rows, v);
    WindowGrid(v, chart.scale, Latest(v));
    GridIncreases(BucketOf(v.start, chart.scale), BucketOf(Latest(v), chart.scale), chart.scale, GRID_CAP);
  }
}
