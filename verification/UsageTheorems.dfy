/** What every usage chart keeps: conservation, agreement of its presentations, and exact month-to-date readings. */
module UsageTheorems {
  import opened Optional
  import opened Calendar
  import opened Buckets
  import opened UsageTotals
  import opened UsageCurves
  import opened UsageRunning
  import opened UsageChart

  // ---------- conservation ----------

  ghost function SumUsed(rows: Rows): real {
    if rows == [] then 0.0 else SumUsed(rows[..|rows| - 1]) + rows[|rows| - 1].usedMb
  }

  lemma {:induction false} PlacedUsage(rows: Rows, place: Placing)
    ensures SumUsed(Placed(rows, place)) == Total(rows, place, EVERYWHERE)
  {
    if rows != [] {
      var n := |rows| - 1;
      PlacedUsage(rows[..n], place);
      var before := Placed(rows[..n], place);
      if place(rows[n]).Some? { assert (before + [rows[n]])[..|before|] == before; }
    }
  }

  lemma {:induction false} SamePointsSameSum(a: seq<Option<real>>, b: seq<Option<real>>)
    requires |a| == |b| && forall i :: 0 <= i < |a| ==> a[i] == b[i]
    ensures SumPoints(a) == SumPoints(b)
  {
    assert a == b;
  }

  lemma ChartFacts(chart: Chart, rows: Rows, v: View)
    requires IsChart(chart, rows, v)
    ensures Increasing(chart.times)
    ensures AreCurves(CurvesOf(chart.lines), Accepted(rows, v), chart.times, Place(v, chart.scale, chart.times))
    ensures chart.totalMb == Total(Accepted(rows, v), Place(v, chart.scale, chart.times), EVERYWHERE)
  {
    GridIncreases(BucketOf(v.start, chart.scale), BucketOf(WindowEnd(v), chart.scale), chart.scale, GRID_CAP);
  }

  lemma DrawnLine(chart: Chart, v: View, accepted: Rows, place: Placing, k: nat)
    requires Draws(chart, v, accepted, place) && Increasing(chart.times) && k < |chart.lines|
    requires forall row :: place(row).Some? ==> place(row).value.at in chart.times
    ensures IsCurve(chart.lines[k].curve, accepted, chart.times, place)
    ensures IsLine(chart.lines[k], v, accepted, chart.times, BeijingStarts)
    ensures SumPoints(chart.lines[k].curve.points) == chart.lines[k].curve.totalMb
  {
    assert IsCurve(CurvesOf(chart.lines)[k], accepted, chart.times, place);
    PointsAddUp(chart.lines[k].curve, accepted, chart.times, place);
  }

  lemma LineFacts(chart: Chart, rows: Rows, v: View, k: nat)
    requires IsChart(chart, rows, v) && k < |chart.lines|
    ensures IsCurve(chart.lines[k].curve, Accepted(rows, v), chart.times, Place(v, chart.scale, chart.times))
    ensures IsLine(chart.lines[k], v, Accepted(rows, v), chart.times, BeijingStarts)
    ensures SumPoints(chart.lines[k].curve.points) == chart.lines[k].curve.totalMb
  {
    ChartFacts(chart, rows, v);
    PlacedInGrid(v, chart.scale, chart.times);
    DrawnLine(chart, v, Accepted(rows, v), Place(v, chart.scale, chart.times), k);
  }

  // No usage is lost or counted twice: the chart's total is the usage of the drawn rows, the curve totals add up
  // to it, and in the delta view the points of each line add up to that line's total.
  lemma ChartConserves(chart: Chart, rows: Rows, v: View)
    requires IsChart(chart, rows, v)
    ensures chart.totalMb == SumUsed(Placed(Accepted(rows, v), Place(v, chart.scale, chart.times)))
    ensures SumTotals(CurvesOf(chart.lines)) == chart.totalMb
    ensures v.mode.Delta? ==> forall k :: 0 <= k < |chart.lines| ==>
              SumPoints(chart.lines[k].points) == chart.lines[k].curve.totalMb
  {
    var accepted, place := Accepted(rows, v), Place(v, chart.scale, chart.times);
    ChartFacts(chart, rows, v);
    PlacedUsage(accepted, place);
    CurveTotalsAddUp(CurvesOf(chart.lines), accepted, chart.times, place);
    if v.mode.Delta? {
      forall k | 0 <= k < |chart.lines| ensures SumPoints(chart.lines[k].points) == chart.lines[k].curve.totalMb {
        LineFacts(chart, rows, v, k);
        SamePointsSameSum(chart.lines[k].points, chart.lines[k].curve.points);
      }
    }
  }

  // In every mode a point is missing exactly when no row was drawn in its bucket of its curve.
  lemma MissingPoints(chart: Chart, rows: Rows, v: View, k: nat, i: nat)
    requires IsChart(chart, rows, v)
    requires k < |chart.lines| && i < |chart.times|
    ensures |chart.lines[k].points| == |chart.times|
    ensures chart.lines[k].points[i].Some? <==>
            exists row :: row in rows && Accepts(v, row)
              && Place(v, chart.scale, chart.times)(row) == Some(Cell(chart.times[i], chart.lines[k].curve.id))
  {
    var l, accepted, place := chart.lines[k], Accepted(rows, v), Place(v, chart.scale, chart.times);
    LineFacts(chart, rows, v, k);
    PointIff(l, v, accepted, chart.times, BeijingStarts, place, i);
    ReachesIff(rows, v, place, Cell(chart.times[i], l.curve.id));
  }

  lemma PointIff(l: Line, v: View, accepted: Rows, times: seq<int>, starts: Clock, place: Placing, i: nat)
    requires IsCurve(l.curve, accepted, times, place) && IsLine(l, v, accepted, times, starts) && i < |times|
    ensures l.points[i].Some? <==> Reaches(accepted, place, iset{Cell(times[i], l.curve.id)})
  {}

  lemma ReachesIff(rows: Rows, v: View, place: Placing, cell: Cell)
    ensures Reaches(Accepted(rows, v), place, iset{cell})
       <==> exists row :: row in rows && Accepts(v, row) && place(row) == Some(cell)
  {
    forall row ensures row in Accepted(rows, v) <==> row in rows && Accepts(v, row) { AcceptedRows(rows, v, row); }
  }

  // ---------- the two presentations ----------

  lemma {:induction false} SameAccepted(rows: Rows, v: View, w: View)
    requires forall row :: Accepts(v, row) <==> Accepts(w, row)
    ensures Accepted(rows, v) == Accepted(rows, w)
  {
    if rows != [] { SameAccepted(rows[..|rows| - 1], v, w); }
  }

  lemma SamePlaces(v: View, w: View, rows: Rows, s: Scale, times: seq<int>, t: int)
    requires v.presentation.Summed? && w == v.(presentation := Interfaces, interfaces := None)
    ensures Total(rows, Place(v, s, times), InBucket(t)) == Total(rows, Place(w, s, times), InBucket(t))
    ensures Reaches(rows, Place(v, s, times), InBucket(t)) == Reaches(rows, Place(w, s, times), InBucket(t))
    ensures Total(rows, Place(v, s, times), EVERYWHERE) == Total(rows, Place(w, s, times), EVERYWHERE)
    ensures forall row :: row in rows ==> Place(v, s, times)(row).Some? == Place(w, s, times)(row).Some?
  {
    var p, q := Place(v, s, times), Place(w, s, times);
    forall row: UsagePoint ensures p(row).Some? == q(row).Some?
      ensures p(row).Some? ==> p(row).value.at == q(row).value.at {}
    TotalAgrees(rows, p, InBucket(t), q, InBucket(t));
    TotalAgrees(rows, p, EVERYWHERE, q, EVERYWHERE);
  }

  lemma SameViews(rows: Rows, v: View, w: View)
    requires v.presentation.Summed? && w == v.(presentation := Interfaces, interfaces := None)
    ensures ViewScale(v) == ViewScale(w) && ViewTimes(v) == ViewTimes(w)
    ensures Accepted(rows, v) == Accepted(rows, w)
  {
    SameScale(v, w);
    SameAccepted(rows, v, w);
  }

  lemma SameScale(v: View, w: View)
    requires v.now == w.now && v.start == w.start && v.end == w.end && v.scale == w.scale
    ensures ViewScale(v) == ViewScale(w) && ViewTimes(v) == ViewTimes(w)
  {
    assert WindowEnd(v) == WindowEnd(w);
  }

  // One curve at most, which at this bucket is the sum of the others.
  ghost predicate SumsAt(a: seq<Curve>, b: seq<Curve>, times: seq<int>, i: nat)
    requires i < |times|
  {
    && (forall k :: 0 <= k < |a| ==> |a[k].points| == |times|)
    && (forall k :: 0 <= k < |b| ==> |b[k].points| == |times|)
    && |a| <= 1 && (a == [] <==> b == [])
    && (a != [] ==> ValueOr(a[0].points[i], 0.0) == SumAt(b, i))
    && (a != [] ==> (a[0].points[i].Some? <==> exists k :: 0 <= k < |b| && b[k].points[i].Some?))
  }

  // The summed curve is the pointwise sum of the unfiltered interface curves.
  lemma SumOfInterfaces(summed: Chart, single: Chart, rows: Rows, v: View, w: View, i: nat)
    requires v.presentation.Summed? && w == v.(presentation := Interfaces, interfaces := None)
    requires IsChart(summed, rows, v) && IsChart(single, rows, w)
    requires i < |summed.times|
    ensures summed.times == single.times && summed.totalMb == single.totalMb
    ensures SumsAt(CurvesOf(summed.lines), CurvesOf(single.lines), summed.times, i)
  {
    SameViews(rows, v, w);
    AllSummed(summed, rows, v);
    SamePlaces(v, w, Accepted(rows, v), summed.scale, summed.times, summed.times[i]);
    DrawnSums(
      summed, single, v, w, Accepted(rows, v),
      Place(v, summed.scale, summed.times), Place(w, summed.scale, summed.times), i);
  }

  lemma DrawnSums(summed: Chart, single: Chart, v: View, w: View, rows: Rows, p: Placing, q: Placing, i: nat)
    requires Draws(summed, v, rows, p) && Draws(single, w, rows, q)
    requires summed.times == single.times && i < |summed.times|
    requires forall k :: 0 <= k < |summed.lines| ==> CurvesOf(summed.lines)[k].id == SUM_ID
    requires forall row :: row in rows ==> p(row).Some? == q(row).Some?
    requires Total(rows, p, InBucket(summed.times[i])) == Total(rows, q, InBucket(summed.times[i]))
    requires Reaches(rows, p, InBucket(summed.times[i])) == Reaches(rows, q, InBucket(summed.times[i]))
    requires Total(rows, p, EVERYWHERE) == Total(rows, q, EVERYWHERE)
    ensures summed.totalMb == single.totalMb
    ensures SumsAt(CurvesOf(summed.lines), CurvesOf(single.lines), summed.times, i)
  {
    OneCurveForAll(CurvesOf(summed.lines), CurvesOf(single.lines), rows, summed.times, p, q, i);
  }

  lemma AllSummed(chart: Chart, rows: Rows, v: View)
    requires IsChart(chart, rows, v) && v.presentation.Summed?
    ensures forall k :: 0 <= k < |chart.lines| ==> CurvesOf(chart.lines)[k].id == SUM_ID
  {
    forall k | 0 <= k < |chart.lines| ensures CurvesOf(chart.lines)[k].id == SUM_ID {
      SummedId(chart, rows, v, k);
    }
  }

  lemma OneCurveForAll(a: seq<Curve>, b: seq<Curve>, rows: Rows, times: seq<int>, p: Placing, q: Placing, i: nat)
    requires AreCurves(a, rows, times, p) && AreCurves(b, rows, times, q) && i < |times|
    requires forall k :: 0 <= k < |a| ==> a[k].id == SUM_ID
    requires forall row :: row in rows ==> p(row).Some? == q(row).Some?
    requires Total(rows, p, InBucket(times[i])) == Total(rows, q, InBucket(times[i]))
    requires Reaches(rows, p, InBucket(times[i])) == Reaches(rows, q, InBucket(times[i]))
    ensures SumsAt(a, b, times, i)
  {
    BucketAddsUp(a, rows, times, p, i);
    BucketAddsUp(b, rows, times, q, i);
    OneCurveSum(a, i);
    NoCurves(a, rows, p);
    NoCurves(b, rows, q);
  }

  lemma OneCurveSum(curves: seq<Curve>, i: nat)
    requires forall k :: 0 <= k < |curves| ==> i < |curves[k].points|
    ensures |curves| == 1 ==> SumAt(curves, i) == ValueOr(curves[0].points[i], 0.0)
  {
    if |curves| == 1 { assert SumAt(curves[..0], i) == 0.0; }
  }

  // A chart has no curves exactly when no row is drawn.
  lemma NoCurves(curves: seq<Curve>, rows: Rows, place: Placing)
    requires forall id :: HasCurve(curves, id) <==> Reaches(rows, place, OnCurve(id))
    ensures curves == [] <==> forall row :: row in rows ==> place(row).None?
  {
    if curves != [] {
      assert HasCurve(curves, curves[0].id);
      var row :| row in rows && place(row).Some? && place(row).value in OnCurve(curves[0].id);
    }
    forall row | row in rows && place(row).Some? ensures curves != [] {
      EveryRowHasCurve(curves, rows, place, row);
    }
  }

  lemma SummedId(chart: Chart, rows: Rows, v: View, k: nat)
    requires IsChart(chart, rows, v) && v.presentation.Summed? && k < |chart.lines|
    ensures chart.lines[k].curve.id == SUM_ID
  {
    ChartFacts(chart, rows, v);
    var accepted, place := Accepted(rows, v), Place(v, chart.scale, chart.times);
    var id := CurvesOf(chart.lines)[k].id;
    assert HasCurve(CurvesOf(chart.lines), id);
    var row :| row in accepted && place(row).Some? && place(row).value in OnCurve(id);
  }

  // ---------- range totals ----------

  // In the cumulative view values never decrease and the last one is the curve's total.
  lemma CumulativeCurve(chart: Chart, rows: Rows, v: View, k: nat, i: nat, j: nat)
    requires IsChart(chart, rows, v) && v.mode.Cumulative?
    requires k < |chart.lines| && i <= j < |chart.times|
    requires |chart.lines[k].points| == |chart.times|
    requires chart.lines[k].points[i].Some? && chart.lines[k].points[j].Some?
    ensures chart.lines[k].points[i].value <= chart.lines[k].points[j].value
    ensures (forall m :: j < m < |chart.times| ==> chart.lines[k].points[m].None?)
            ==> chart.lines[k].points[j].value == chart.lines[k].curve.totalMb
  {
    var l, accepted, place := chart.lines[k], Accepted(rows, v), Place(v, chart.scale, chart.times);
    LineFacts(chart, rows, v, k);
    forall m | 0 <= m < |l.curve.points| && l.curve.points[m].Some? ensures l.curve.points[m].value >= 0.0 {
      AcceptedNonNegative(rows, v, place, Cell(chart.times[m], l.curve.id));
    }
    RunningSums(l.curve.points, l.points, i, j);
  }

  lemma RunningSums(points: seq<Option<real>>, shown: seq<Option<real>>, i: nat, j: nat)
    requires |points| == |shown| && i <= j < |points|
    requires forall m :: 0 <= m < |points| ==>
               shown[m] == if points[m].None? then None else Some(SumPoints(points[..m + 1]))
    requires forall m :: 0 <= m < |points| && points[m].Some? ==> points[m].value >= 0.0
    requires shown[i].Some? && shown[j].Some?
    ensures shown[i].value <= shown[j].value
    ensures (forall m :: j < m < |points| ==> shown[m].None?) ==> shown[j].value == SumPoints(points)
  {
    SumGrows(points, i + 1, j + 1);
    if forall m :: j < m < |points| ==> shown[m].None? {
      SumOfNone(points, j + 1, |points|);
      assert points[..|points|] == points;
    }
  }

  lemma AcceptedNonNegative(rows: Rows, v: View, place: Placing, cell: Cell)
    ensures Total(Accepted(rows, v), place, iset{cell}) >= 0.0
  {
    forall row | row in Accepted(rows, v) ensures row.usedMb >= 0.0 { AcceptedRows(rows, v, row); }
    TotalNonNegative(Accepted(rows, v), place, iset{cell});
  }
}
