/** The usage chart: from stored rows and view options to a grid of times and its curves. */
module UsageChart {
  import opened Optional
  import opened Buckets
  import opened UsageTotals
  import opened UsageCurves
  import opened UsageRunning

  datatype Mode = Delta | Cumulative | Monthly

  datatype Presentation = Summed | Interfaces

  datatype View = View(
    scale: Scale,
    mode: Mode,
    presentation: Presentation,
    interfaces: Option<set<string>>,
    account: string,
    now: real,
    start: real,
    end: real)

  datatype Line = Line(curve: Curve, points: seq<Option<real>>, joined: seq<bool>)

  datatype Chart = Chart(times: seq<int>, lines: seq<Line>, samples: nat, totalMb: real, scale: Scale)

  const SUM_ID := "sum"

  function WindowEnd(v: View): real {
    if v.now < v.end then v.now else v.end
  }

  function ViewScale(v: View): Scale {
    EffectiveScale(WindowEnd(v) - v.start, v.scale)
  }

  // The tier of rows a scale is drawn from.
  function Resolution(s: Scale): int {
    if s.Month? || Seconds(s) >= 86400 then 86400 else if Seconds(s) >= 3600 then 3600 else 60
  }

  ghost function ViewTimes(v: View): seq<int> {
    GridFrom(BucketOf(v.start, ViewScale(v)), BucketOf(WindowEnd(v), ViewScale(v)), ViewScale(v), GRID_CAP)
  }

  predicate Accepts(v: View, row: UsagePoint) {
    && row.at as real <= v.now
    && row.usedMb >= 0.0
    && row.sampledSeconds > 0
    && (v.account == "" || row.account == v.account)
    && (v.presentation.Summed? || v.interfaces.None? || row.interfaceId in v.interfaces.value)
  }

  function Accepted(rows: Rows, v: View): Rows {
    if rows == [] then [] else
      var before := Accepted(rows[..|rows| - 1], v);
      if Accepts(v, rows[|rows| - 1]) then before + [rows[|rows| - 1]] else before
  }

  lemma {:induction false} AcceptedRows(rows: Rows, v: View, row: UsagePoint)
    ensures row in Accepted(rows, v) <==> row in rows && Accepts(v, row)
  {
    if rows != [] {
      var n := |rows| - 1;
      AcceptedRows(rows[..n], v, row);
      assert rows == rows[..n] + [rows[n]];
    }
  }

  function MeasuredEnd(row: UsagePoint): int {
    ValueOr(row.endedAt, row.at)
  }

  function CurveId(v: View, row: UsagePoint): string {
    if v.presentation.Summed? then SUM_ID else row.interfaceId
  }

  // Where an accepted row is drawn: rows of another tier, rows still being measured at the window's
  // end and rows outside the grid are not drawn.
  function Place(v: View, s: Scale, times: seq<int>): Placing {
    (row: UsagePoint) =>
      if row.resolution != Resolution(s) || MeasuredEnd(row) as real > WindowEnd(v) then None
      else if Bucket(row.at, s) !in times then None
      else Some(Cell(Bucket(row.at, s), CurveId(v, row)))
  }

  // The rows a curve's month-to-date prefix may draw on.
  function TierOf(v: View, id: string): TierPlacing {
    (row: UsagePoint) =>
      if v.presentation.Interfaces? && row.interfaceId != id then None else Some(Tier(row.resolution, row.at))
  }

  function BeijingStarts(at: int): Starts {
    Starts(Bucket(at, Month), Bucket(at, Day), Bucket(at, Hour))
  }

  // What the drawn points of a curve are, given its per-bucket points.
  ghost function Shown(
      v: View, accepted: Rows, id: string, points: seq<Option<real>>, times: seq<int>, starts: Clock,
      i: nat): Option<real>
    requires i < |points| == |times|
  {
    match v.mode
    case Delta => points[i]
    case Cumulative => if points[i].None? then None else Some(SumPoints(points[..i + 1]))
    case Monthly => MonthPoint(points, times, starts, PrefixAt(accepted, TierOf(v, id), starts), i)
  }

  ghost predicate IsLine(l: Line, v: View, accepted: Rows, times: seq<int>, starts: Clock) {
    && |l.curve.points| == |l.curve.spans| == |times| == |l.points| == |l.joined|
    && (forall i :: 0 <= i < |times| ==>
          l.points[i] == Shown(v, accepted, l.curve.id, l.curve.points, times, starts, i))
    && (forall i :: 0 <= i < |times| ==>
          (l.joined[i] <==> Joined(l.curve.points, l.curve.spans, Resolution(ViewScale(v)) == 60, i)))
  }

  function CurvesOf(lines: seq<Line>): seq<Curve> {
    seq(|lines|, i requires 0 <= i < |lines| => lines[i].curve)
  }

  lemma StepGrows(at: int, s: Scale)
    ensures at < Step(at, s)
  {
    if s.Month? {
      Calendar.NextMonthIsLater(BeijingDay(at));
      assert at < DayInstant(BeijingDay(at) + 1);
    }
  }

  lemma GridIncreases(at: int, end: int, s: Scale, room: nat)
    ensures Increasing(GridFrom(at, end, s, room))
    ensures forall t :: t in GridFrom(at, end, s, room) ==> at <= t <= end
  {
    forall t ensures t < StepOf(s)(t) { StepGrows(t, s); }
    GridIsLinks(at, end, s, room);
    LinksIncrease(at, end, StepOf(s), room);
  }

  method Draw(v: View, accepted: Rows, times: seq<int>, curve: Curve, scale: Scale, starts: Clock) returns (line: Line)
    requires |curve.points| == |curve.spans| == |times|
    requires scale == ViewScale(v)
    ensures line.curve == curve
    ensures IsLine(line, v, accepted, times, starts)
  {
    var joined := JoinFlags(curve.points, curve.spans, Resolution(scale) == 60);
    var points := curve.points;
    if v.mode.Cumulative? {
      points := RangeTotals(curve.points);
    } else if v.mode.Monthly? {
      points := MonthTotals(curve.points, times, accepted, TierOf(v, curve.id), starts);
    }
    line := Line(curve, points, joined);
  }

  // The lines and totals of a chart are those of these rows, each put in its place.
  ghost predicate Draws(chart: Chart, v: View, accepted: Rows, place: Placing) {
    && AreCurves(CurvesOf(chart.lines), accepted, chart.times, place)
    && (forall k :: 0 <= k < |chart.lines| ==> IsLine(chart.lines[k], v, accepted, chart.times, BeijingStarts))
    && chart.totalMb == Total(accepted, place, EVERYWHERE)
    && chart.samples == |Placed(accepted, place)|
  }

  // A chart of the stored rows under a view: its grid, one line for each curve some row is drawn on, and its totals.
  ghost predicate IsChart(chart: Chart, rows: Rows, v: View) {
    && chart.scale == ViewScale(v)
    && chart.times == ViewTimes(v)
    && Draws(chart, v, Accepted(rows, v), Place(v, chart.scale, chart.times))
  }

  method DrawAll(
      v: View, accepted: Rows, times: seq<int>, curves: seq<Curve>, scale: Scale, starts: Clock)
      returns (lines: seq<Line>)
    requires forall k :: 0 <= k < |curves| ==> |curves[k].points| == |curves[k].spans| == |times|
    requires scale == ViewScale(v)
    ensures CurvesOf(lines) == curves
    ensures forall k :: 0 <= k < |lines| ==> IsLine(lines[k], v, accepted, times, starts)
  {
    lines := [];
    for k := 0 to |curves|
      invariant |lines| == k
      invariant forall j :: 0 <= j < k ==> lines[j].curve == curves[j] && IsLine(lines[j], v, accepted, times, starts)
    {
      var line := Draw(v, accepted, times, curves[k], scale, starts);
      lines := lines + [line];
    }
  }

  method Assemble(v: View, accepted: Rows, times: seq<int>, scale: Scale, place: Placing) returns (chart: Chart)
    requires Increasing(times) && scale == ViewScale(v)
    requires forall row :: row in accepted && place(row).Some? ==> place(row).value.at in times
    ensures chart.times == times && chart.scale == scale && Draws(chart, v, accepted, place)
  {
    var curves, samples, totalMb := Accumulate(accepted, times, place);
    var lines := DrawAll(v, accepted, times, curves, scale, BeijingStarts);
    chart := Chart(times, lines, samples, totalMb, scale);
  }

  method PlanGrid(v: View) returns (scale: Scale, times: seq<int>)
    ensures scale == ViewScale(v) && times == ViewTimes(v) && Increasing(times)
  {
    var end := WindowEnd(v);
    scale := ChooseScale(end - v.start, v.scale);
    times := BuildGrid(BucketOf(v.start, scale), BucketOf(end, scale), scale);
    GridIncreases(BucketOf(v.start, scale), BucketOf(end, scale), scale, GRID_CAP);
  }

  lemma PlacedInGrid(v: View, s: Scale, times: seq<int>)
    ensures forall row :: Place(v, s, times)(row).Some? ==> Place(v, s, times)(row).value.at in times
  {}

  method BuildChart(rows: Rows, v: View) returns (chart: Chart)
    ensures IsChart(chart, rows, v)
  {
    var scale, times := PlanGrid(v);
    PlacedInGrid(v, scale, times);
    chart := Assemble(v, Accepted(rows, v), times, scale, Place(v, scale, times));
  }
}
