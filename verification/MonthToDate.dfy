/** The month-to-date curve reads exactly what was used since its Beijing month began. */
module MonthToDate {
  import opened Optional
  import opened Calendar
  import opened Buckets
  import opened UsageTotals
  import opened UsageCurves
  import opened UsageRunning
  import opened UsageChart
  import opened UsageTheorems

  // The scale whose buckets the rows of a tier stand for.
  function TierScale(s: Scale): Scale {
    if s.Month? || s.Day? then Day else if s.Hour? then Hour else Minute
  }

  lemma TierScaleFits(s: Scale)
    ensures Seconds(TierScale(s)) == Resolution(s) && IsTier(Resolution(s))
    ensures Rank(TierScale(s)) <= Rank(s)
  {}

  // A row's last measurement was taken before the minute, hour or day it stands for was over.
  predicate EndsInOwnBucket(row: UsagePoint, tier: Scale) {
    MeasuredEnd(row) < Step(Bucket(row.at, tier), tier)
  }

  lemma StartsAligned(at: int, s: Scale)
    requires Bucket(at, s) == at
    ensures Aligned(at, Whole(s))
  {
    StartIsMultiple(at, s);
  }

  // ---------- the three bounds of a prefix ----------

  // From the year 100 on no month is misread.
  predicate Eras(at: int) {
    COMMON_ERA_DAY <= BeijingDay(at)
  }

  lemma EraIsPlainAt(at: int, s: Scale)
    requires Eras(at)
    ensures Plain(at, s) && Plain(at, Month)
  {
    EraIsPlain(BeijingDay(at));
  }

  lemma OrderedStarts(stop: int)
    requires Eras(stop)
    ensures Bucket(stop, Month) <= Bucket(stop, Day) <= Bucket(stop, Hour) <= stop
  {
    EraIsPlainAt(stop, Month);
    BucketsNest(stop, Day, Month);
    MonthToHour(stop);
  }

  lemma MonthToHour(stop: int)
    ensures Bucket(stop, Day) <= Bucket(stop, Hour) <= stop
  {
    BucketsNest(stop, Hour, Day);
  }

  lemma AlignedMonth(stop: int)
    requires Eras(stop)
    ensures Aligned(Bucket(stop, Month), 86400) && Bucket(stop, Month) != -1
  {
    BucketIdempotent(stop, Month);
    StartsAligned(Bucket(stop, Month), Month);
    NotMinusOne(Bucket(stop, Month));
  }

  lemma NotMinusOne(at: int)
    ensures Aligned(at, 86400) ==> at != -1
  {}

  lemma AlignedDayAndHour(stop: int)
    ensures Aligned(Bucket(stop, Day), 86400) && Aligned(Bucket(stop, Hour), 3600)
  {}

  lemma AlignedStop(stop: int, s: Scale)
    requires Bucket(stop, s) == stop
    ensures Aligned(stop, 60) && Aligned(stop, Resolution(s))
  {
    CoarseStartIsFine(stop, Minute, s);
    StartsAligned(stop, Minute);
    TierScaleFits(s);
    CoarseStartIsFine(stop, TierScale(s), s);
    StartsAligned(stop, TierScale(s));
  }

  // ---------- what the store must hold ----------

  // Up to the last grid line, the day rows since the month of the first grid line began, the hour rows since its
  // day began and the minute rows since its hour began record the usage that a meter counted.
  ghost predicate StoreRecords(rows: Rows, place: TierPlacing, first: int, last: int, meter: int -> real) {
    && Records(rows, place, 86400, Bucket(first, Month), last, meter)
    && Records(rows, place, 3600, Bucket(first, Day), last, meter)
    && Records(rows, place, 60, Bucket(first, Hour), last, meter)
  }

  lemma RecordsWithin(
      rows: Rows, place: TierPlacing, resolution: int, lo: int, hi: int, a: int, b: int, meter: int -> real)
    requires IsTier(resolution) && lo <= a && b <= hi
    requires Records(rows, place, resolution, lo, hi, meter)
    ensures Records(rows, place, resolution, a, b, meter)
  {}

  lemma LaterStarts(first: int, stop: int)
    requires Eras(first) && first <= stop
    ensures Bucket(first, Month) <= Bucket(stop, Month)
    ensures Eras(stop)
  {
    DayMonotone(first, stop);
    EraIsPlainAt(first, Month);
    BucketMonotone(first, stop, Month);
  }

  lemma LaterDayAndHour(first: int, stop: int)
    requires first <= stop
    ensures Bucket(first, Day) <= Bucket(stop, Day) && Bucket(first, Hour) <= Bucket(stop, Hour)
  {
    BucketMonotone(first, stop, Day);
    BucketMonotone(first, stop, Hour);
  }

  lemma PrefixReads(rows: Rows, place: TierPlacing, first: int, stop: int, last: int, s: Scale, meter: int -> real)
    requires Eras(first) && first <= stop <= last
    requires Plain(stop, s) && Bucket(stop, s) == stop
    requires StoreRecords(rows, place, first, last, meter)
    ensures PrefixAt(rows, place, BeijingStarts)(stop) == meter(stop) - meter(BeijingStarts(stop).month)
    ensures BeijingStarts(stop).month != -1
  {
    LaterStarts(first, stop);
    LaterDayAndHour(first, stop);
    OrderedStarts(stop);
    AlignedMonth(stop);
    AlignedDayAndHour(stop);
    AlignedStop(stop, s);
    PrefixFromStore(rows, place, first, stop, last, BeijingStarts(stop), BeijingStarts(first), meter);
  }

  lemma PrefixFromStore(
      rows: Rows, place: TierPlacing, first: int, stop: int, last: int, b: Starts, f: Starts, meter: int -> real)
    requires stop <= last && b.month <= b.day <= b.hour <= stop
    requires f.month <= b.month && f.day <= b.day && f.hour <= b.hour
    requires Aligned(b.month, 86400) && Aligned(b.day, 86400) && Aligned(b.hour, 3600) && Aligned(stop, 60)
    requires Records(rows, place, 86400, f.month, last, meter)
    requires Records(rows, place, 3600, f.day, last, meter)
    requires Records(rows, place, 60, f.hour, last, meter)
    ensures Total(rows, place, Prefix(b.month, b.day, b.hour, stop)) == meter(stop) - meter(b.month)
  {
    RecordsWithin(rows, place, 86400, f.month, last, b.month, b.day, meter);
    RecordsWithin(rows, place, 3600, f.day, last, b.day, b.hour, meter);
    RecordsWithin(rows, place, 60, f.hour, last, b.hour, stop, meter);
    PrefixRecords(rows, place, b.month, b.day, b.hour, stop, meter);
  }

  // ---------- a bucket before the last shows all of its usage ----------

  lemma InBucketOf(at: int, t: int, s: Scale)
    requires Bucket(t, s) == t && Plain(at, s)
    ensures Bucket(at, s) == t <==> t <= at < Step(t, s)
  {
    BucketHolds(at, s);
    if t <= at < Step(t, s) { StartShared(t, at, s); }
  }

  lemma EndsBeforeNextLine(row: UsagePoint, s: Scale)
    requires Plain(row.at, s) && EndsInOwnBucket(row, TierScale(s))
    ensures MeasuredEnd(row) < Step(Bucket(row.at, s), s)
  {
    TierScaleFits(s);
    BucketsNest(row.at, TierScale(s), s);
  }

  lemma PlaceIs(v: View, s: Scale, times: seq<int>, t: int, id: string, row: UsagePoint)
    requires t in times
    ensures Place(v, s, times)(row) == Some(Cell(t, id))
       <==> (row.resolution == Resolution(s) && MeasuredEnd(row) as real <= WindowEnd(v)
             && Bucket(row.at, s) == t && CurveId(v, row) == id)
  {}

  lemma TierIs(v: View, id: string, row: UsagePoint, resolution: int, t: int, end: int)
    ensures TierOf(v, id)(row).Some? && TierOf(v, id)(row).value in Range(resolution, t, end)
       <==> (v.presentation.Interfaces? ==> row.interfaceId == id) && row.resolution == resolution && t <= row.at < end
  {}

  lemma CurveIs(v: View, id: string, row: UsagePoint)
    requires v.presentation.Summed? ==> id == SUM_ID
    ensures CurveId(v, row) == id <==> (v.presentation.Interfaces? ==> row.interfaceId == id)
  {}

  // A row of a bucket: of its tier and curve, and at a time within it.
  predicate OfBucket(v: View, s: Scale, t: int, id: string, row: UsagePoint) {
    && (v.presentation.Interfaces? ==> row.interfaceId == id)
    && row.resolution == Resolution(s) && t <= row.at < Step(t, s)
  }

  // Of the rows of a bucket those are drawn in it that were measured by the window's end.
  lemma DrawnIs(v: View, s: Scale, times: seq<int>, t: int, id: string, row: UsagePoint)
    requires t in times && Bucket(t, s) == t && Plain(row.at, s) && (v.presentation.Summed? ==> id == SUM_ID)
    ensures Place(v, s, times)(row) == Some(Cell(t, id))
       <==> OfBucket(v, s, t, id, row) && MeasuredEnd(row) as real <= WindowEnd(v)
  {
    PlaceIs(v, s, times, t, id, row);
    CurveIs(v, id, row);
    InBucketOf(row.at, t, s);
  }

  // In a bucket that the window does not end in, every accepted row of the drawn tier is drawn, and nothing else.
  lemma DrawnInBucket(v: View, s: Scale, times: seq<int>, i: nat, id: string, row: UsagePoint)
    requires i < |times| - 1 && times[i + 1] == Step(times[i], s) && times[i + 1] as real <= WindowEnd(v)
    requires Bucket(times[i], s) == times[i]
    requires Plain(row.at, s)
    requires row.resolution == Resolution(s) ==> EndsInOwnBucket(row, TierScale(s))
    requires v.presentation.Summed? ==> id == SUM_ID
    ensures Place(v, s, times)(row) == Some(Cell(times[i], id))
       <==> TierOf(v, id)(row).Some? && TierOf(v, id)(row).value in Range(Resolution(s), times[i], times[i + 1])
  {
    DrawnIs(v, s, times, times[i], id, row);
    TierIs(v, id, row, Resolution(s), times[i], times[i + 1]);
    if OfBucket(v, s, times[i], id, row) { MeasuredInWindow(v, s, times[i], row); }
  }

  lemma MeasuredInWindow(v: View, s: Scale, t: int, row: UsagePoint)
    requires Bucket(t, s) == t && t <= row.at < Step(t, s) && Step(t, s) as real <= WindowEnd(v)
    requires Plain(row.at, s) && EndsInOwnBucket(row, TierScale(s))
    ensures MeasuredEnd(row) as real <= WindowEnd(v)
  {
    StartShared(t, row.at, s);
    EndsBeforeNextLine(row, s);
  }

  lemma FullBucket(v: View, s: Scale, times: seq<int>, i: nat, id: string, accepted: Rows, meter: int -> real)
    requires i < |times| - 1 && times[i + 1] == Step(times[i], s) && times[i + 1] as real <= WindowEnd(v)
    requires Bucket(times[i], s) == times[i]
    requires Aligned(times[i], Resolution(s)) && Aligned(times[i + 1], Resolution(s)) && times[i] < times[i + 1]
    requires forall row :: row in accepted ==>
               Plain(row.at, s) && (row.resolution == Resolution(s) ==> EndsInOwnBucket(row, TierScale(s)))
    requires v.presentation.Summed? ==> id == SUM_ID
    requires Records(accepted, TierOf(v, id), Resolution(s), times[i], times[i + 1], meter)
    ensures ValueOr(Point(accepted, Place(v, s, times), Cell(times[i], id)), 0.0)
         == meter(times[i + 1]) - meter(times[i])
  {
    var place, tier, cell := Place(v, s, times), TierOf(v, id), Cell(times[i], id);
    var range := Range(Resolution(s), times[i], times[i + 1]);
    forall row | row in accepted
      ensures place(row).Some? && place(row).value in iset{cell} <==> tier(row).Some? && tier(row).value in range
    {
      DrawnInBucket(v, s, times, i, id, row);
    }
    TotalAgrees(accepted, place, iset{cell}, tier, range);
    RangeRecords(accepted, tier, Resolution(s), times[i], times[i + 1], meter);
    if !Reaches(accepted, place, iset{cell}) { TotalOfNone(accepted, place, iset{cell}); }
  }

  // ---------- the theorem ----------

  // Instants before the year 100 are kept out of month arithmetic; everything else is a condition on the rows.
  predicate ModernView(v: View) {
    Eras(v.start.Floor) && Eras(WindowEnd(v).Floor)
  }

  ghost predicate SoundRows(accepted: Rows, s: Scale) {
    forall row :: row in accepted ==>
      Plain(row.at, s) && (row.resolution == Resolution(s) ==> EndsInOwnBucket(row, TierScale(s)))
  }

  lemma EraOfBucket(at: int, s: Scale)
    requires Eras(at)
    ensures Eras(Bucket(at, s)) && Plain(at, s) && Bucket(at, s) <= at
  {
    EraIsPlainAt(at, s);
    EraMonth(BeijingDay(at));
    BucketsNest(at, s, Month);
    DayOfInstant(MonthStart(BeijingDay(at)));
    DayMonotone(Bucket(at, Month), Bucket(at, s));
  }

  lemma EraIsBeyondGap(at: int)
    requires Eras(at)
    ensures GAP < at
  {
    YearZeroStart();
    YearsGrow(0, 100);
  }

  lemma ViewGrid(v: View, s: Scale)
    requires ModernView(v)
    ensures var times := GridFrom(BucketOf(v.start, s), BucketOf(WindowEnd(v), s), s, GRID_CAP);
            && Consecutive(times, s)
            && (times != [] ==> Eras(times[0]))
            && (forall j :: 0 <= j < |times| ==> times[j] as real <= WindowEnd(v))
  {
    EraOfBucket(WindowEnd(v).Floor, s);
    EraGrid(v.start.Floor, BucketOf(WindowEnd(v), s), s);
  }

  lemma EraGrid(start: int, end: int, s: Scale)
    requires Eras(start)
    ensures var times := GridFrom(Bucket(start, s), end, s, GRID_CAP);
            && Consecutive(times, s) && (times != [] ==> Eras(times[0]))
            && (forall j :: 0 <= j < |times| ==> times[j] <= end)
  {
    EraOfBucket(start, s);
    BucketIdempotent(start, s);
    EraIsBeyondGap(Bucket(start, s));
    GridIsConsecutive(Bucket(start, s), end, s, GRID_CAP);
    var times := GridFrom(Bucket(start, s), end, s, GRID_CAP);
    forall j | 0 <= j < |times| ensures times[j] <= end { assert times[j] in times; }
  }

  lemma GridLine(times: seq<int>, s: Scale, i: nat)
    requires Consecutive(times, s) && i < |times|
    ensures Plain(times[i], s) && Bucket(times[i], s) == times[i]
    ensures i + 1 < |times| ==> times[i + 1] == Step(times[i], s)
  {
    assert StartOf(s)(times[i]) && StepOf(s)(times[i]) == Step(times[i], s);
    BucketIdempotent(times[i], s);
  }

  lemma GridOrder(times: seq<int>, i: nat)
    requires Increasing(times) && i < |times|
    ensures times[0] <= times[i] <= times[|times| - 1]
    ensures i + 1 < |times| ==> times[i] < times[i + 1] <= times[|times| - 1]
  {}

  // The drawn tier is one of the three, so the store records it from the first grid line on.
  lemma DrawnTierRecords(
      rows: Rows, place: TierPlacing, s: Scale, first: int, a: int, b: int, last: int, meter: int -> real)
    requires Eras(first) && first <= a && b <= last
    requires StoreRecords(rows, place, first, last, meter)
    ensures IsTier(Resolution(s))
    ensures Records(rows, place, Resolution(s), a, b, meter)
  {
    OrderedStarts(first);
    TierScaleFits(s);
    match TierScale(s) {
      case Day => RecordsWithin(rows, place, 86400, Bucket(first, Month), last, a, b, meter);
      case Hour => RecordsWithin(rows, place, 3600, Bucket(first, Day), last, a, b, meter);
      case _ => RecordsWithin(rows, place, 60, Bucket(first, Hour), last, a, b, meter);
    }
  }

  // What the month loop relies on at one grid line: the prefix is the meter's reading for the month so far.
  ghost predicate Reads(starts: Clock, prefix: int -> real, meter: int -> real, t: int) {
    starts(t).month != -1 && prefix(t) == meter(t) - meter(starts(t).month)
  }

  lemma LineReads(times: seq<int>, s: Scale, tier: TierPlacing, accepted: Rows, meter: int -> real, i: nat)
    requires Consecutive(times, s) && Increasing(times) && i < |times|
    requires Eras(times[0])
    requires StoreRecords(accepted, tier, times[0], times[|times| - 1], meter)
    ensures Reads(BeijingStarts, PrefixAt(accepted, tier, BeijingStarts), meter, times[i])
  {
    GridLine(times, s, i);
    GridOrder(times, i);
    PrefixReads(accepted, tier, times[0], times[i], times[|times| - 1], s, meter);
  }

  lemma BucketReads(v: View, s: Scale, times: seq<int>, id: string, accepted: Rows, meter: int -> real, i: nat)
    requires Consecutive(times, s) && Increasing(times) && i < |times| - 1
    requires Eras(times[0])
    requires times[i + 1] as real <= WindowEnd(v)
    requires v.presentation.Summed? ==> id == SUM_ID
    requires SoundRows(accepted, s)
    requires StoreRecords(accepted, TierOf(v, id), times[0], times[|times| - 1], meter)
    ensures ValueOr(Point(accepted, Place(v, s, times), Cell(times[i], id)), 0.0)
         == meter(times[i + 1]) - meter(times[i])
  {
    GridLine(times, s, i);
    GridLine(times, s, i + 1);
    GridOrder(times, i);
    AlignedStop(times[i], s);
    AlignedStop(times[i + 1], s);
    DrawnTierRecords(accepted, TierOf(v, id), s, times[0], times[i], times[i + 1], times[|times| - 1], meter);
    FullBucket(v, s, times, i, id, accepted, meter);
  }

  lemma MonthlyLineReads(l: Line, v: View, accepted: Rows, times: seq<int>, starts: Clock, meter: int -> real, i: nat)
    requires IsLine(l, v, accepted, times, starts) && v.mode.Monthly?
    requires i < |times| && l.points[i].Some?
    requires forall k :: 0 <= k < |times| ==>
               Reads(starts, PrefixAt(accepted, TierOf(v, l.curve.id), starts), meter, times[k])
    requires forall k :: 0 <= k < |times| - 1 ==>
               ValueOr(l.curve.points[k], 0.0) == meter(times[k + 1]) - meter(times[k])
    ensures l.curve.points[i].Some?
    ensures l.points[i].value == meter(times[i]) - meter(starts(times[i]).month) + l.curve.points[i].value
    ensures i < |times| - 1 ==> l.curve.points[i].value == meter(times[i + 1]) - meter(times[i])
  {
    MonthPointReads(l.curve.points, times, starts, PrefixAt(accepted, TierOf(v, l.curve.id), starts), meter, i);
  }

  lemma LinesRead(times: seq<int>, s: Scale, tier: TierPlacing, accepted: Rows, meter: int -> real)
    requires Consecutive(times, s) && Increasing(times) && (times != [] ==> Eras(times[0]))
    requires times != [] ==> StoreRecords(accepted, tier, times[0], times[|times| - 1], meter)
    ensures forall k :: 0 <= k < |times| ==>
              Reads(BeijingStarts, PrefixAt(accepted, tier, BeijingStarts), meter, times[k])
  {
    forall k | 0 <= k < |times| ensures Reads(BeijingStarts, PrefixAt(accepted, tier, BeijingStarts), meter, times[k]) {
      LineReads(times, s, tier, accepted, meter, k);
    }
  }

  lemma BucketsRead(v: View, s: Scale, times: seq<int>, c: Curve, accepted: Rows, meter: int -> real)
    requires Consecutive(times, s) && Increasing(times) && (times != [] ==> Eras(times[0]))
    requires forall j :: 0 <= j < |times| ==> times[j] as real <= WindowEnd(v)
    requires v.presentation.Summed? ==> c.id == SUM_ID
    requires SoundRows(accepted, s)
    requires times != [] ==> StoreRecords(accepted, TierOf(v, c.id), times[0], times[|times| - 1], meter)
    requires IsCurve(c, accepted, times, Place(v, s, times))
    ensures forall k :: 0 <= k < |times| - 1 ==> ValueOr(c.points[k], 0.0) == meter(times[k + 1]) - meter(times[k])
  {
    forall k | 0 <= k < |times| - 1 ensures ValueOr(c.points[k], 0.0) == meter(times[k + 1]) - meter(times[k]) {
      BucketReads(v, s, times, c.id, accepted, meter, k);
    }
  }

  // A line on its grid, as a chart has it.
  ghost predicate LineSetting(l: Line, v: View, s: Scale, accepted: Rows, times: seq<int>) {
    && IsCurve(l.curve, accepted, times, Place(v, s, times))
    && IsLine(l, v, accepted, times, BeijingStarts)
    && Consecutive(times, s) && Increasing(times) && (times != [] ==> Eras(times[0]))
    && (forall j :: 0 <= j < |times| ==> times[j] as real <= WindowEnd(v))
    && (v.presentation.Summed? ==> l.curve.id == SUM_ID)
  }

  lemma ChartSetting(chart: Chart, rows: Rows, v: View, k: nat)
    requires IsChart(chart, rows, v) && ModernView(v) && k < |chart.lines|
    ensures LineSetting(chart.lines[k], v, chart.scale, Accepted(rows, v), chart.times)
  {
    LineFacts(chart, rows, v, k);
    ChartFacts(chart, rows, v);
    if v.presentation.Summed? { SummedId(chart, rows, v, k); }
    ViewGrid(v, chart.scale);
  }

  // A point is the reading since the month's start to the bucket plus the bucket's own usage; before the last bucket
  // that is the reading through the bucket's end.
  ghost predicate PointReads(l: Line, times: seq<int>, i: nat, meter: int -> real) {
    && i < |times| == |l.points| == |l.curve.points| && l.points[i].Some? && l.curve.points[i].Some?
    && l.points[i].value == meter(times[i]) - meter(Bucket(times[i], Month)) + l.curve.points[i].value
    && (i < |times| - 1 ==> l.points[i].value == meter(times[i + 1]) - meter(Bucket(times[i], Month)))
  }

  lemma SettingReads(l: Line, v: View, s: Scale, accepted: Rows, times: seq<int>, i: nat, meter: int -> real)
    requires LineSetting(l, v, s, accepted, times) && v.mode.Monthly? && SoundRows(accepted, s)
    requires i < |times| && l.points[i].Some?
    requires StoreRecords(accepted, TierOf(v, l.curve.id), times[0], times[|times| - 1], meter)
    ensures PointReads(l, times, i, meter)
  {
    LinesRead(times, s, TierOf(v, l.curve.id), accepted, meter);
    BucketsRead(v, s, times, l.curve, accepted, meter);
    MonthlyLineReads(l, v, accepted, times, BeijingStarts, meter, i);
  }

  // If the store records what a meter counted, each shown point of a month-to-date line is the meter's reading from
  // the Beijing month's start to the bucket plus the bucket's own drawn usage; in every bucket but the last, which
  // may still be filling up, that is the reading through the bucket's end.
  lemma MonthToDateReads(chart: Chart, rows: Rows, v: View, k: nat, l: Line, i: nat, meter: int -> real)
    requires k < |chart.lines| && l == chart.lines[k]
    requires IsChart(chart, rows, v) && v.mode.Monthly? && ModernView(v)
    requires SoundRows(Accepted(rows, v), chart.scale)
    requires i < |chart.times| && i < |l.points| && l.points[i].Some?
    requires StoreRecords(
      Accepted(rows, v), TierOf(v, l.curve.id), chart.times[0], chart.times[|chart.times| - 1], meter)
    ensures PointReads(l, chart.times, i, meter)
  {
    ChartSetting(chart, rows, v, k);
    SettingReads(l, v, chart.scale, Accepted(rows, v), chart.times, i, meter);
  }

  // ---------- rows that nest ----------

  // The usage of a curve's minute rows before an instant.
  ghost function MinuteMeter(rows: Rows, place: TierPlacing): int -> real {
    at => Total(rows, place, iset t: Tier | t.resolution == 60 && t.at < at)
  }

  lemma MinuteMeterGains(rows: Rows, place: TierPlacing, lo: int, hi: int)
    requires lo <= hi
    ensures MinuteMeter(rows, place)(hi) - MinuteMeter(rows, place)(lo) == Total(rows, place, Range(60, lo, hi))
  {
    var before := iset t: Tier | t.resolution == 60 && t.at < lo;
    assert (iset t: Tier | t.resolution == 60 && t.at < hi) == before + Range(60, lo, hi);
    TotalSplits(rows, place, before, Range(60, lo, hi));
  }

  // Every hour's rows are the sum of its minute rows, and every day's rows the sum of its hour rows.
  ghost predicate TiersNest(rows: Rows, place: TierPlacing) {
    && (forall at :: Aligned(at, 3600) ==>
          Total(rows, place, Range(3600, at, at + 3600)) == Total(rows, place, Range(60, at, at + 3600)))
    && (forall at :: Aligned(at, 86400) ==>
          Total(rows, place, Range(86400, at, at + 86400)) == Total(rows, place, Range(3600, at, at + 86400)))
  }

  lemma MinutesAndHoursRecord(rows: Rows, place: TierPlacing, lo: int, hi: int)
    requires TiersNest(rows, place)
    ensures Records(rows, place, 60, lo, hi, MinuteMeter(rows, place))
    ensures Records(rows, place, 3600, lo, hi, MinuteMeter(rows, place))
  {
    forall at | lo <= at < hi && Aligned(at, 60)
      ensures Total(rows, place, Range(60, at, at + 60))
           == MinuteMeter(rows, place)(at + 60) - MinuteMeter(rows, place)(at)
    {
      MinuteMeterGains(rows, place, at, at + 60);
    }
    forall at | lo <= at < hi && Aligned(at, 3600)
      ensures Total(rows, place, Range(3600, at, at + 3600))
           == MinuteMeter(rows, place)(at + 3600) - MinuteMeter(rows, place)(at)
    {
      MinuteMeterGains(rows, place, at, at + 3600);
    }
  }

  lemma DayRecords(rows: Rows, place: TierPlacing, at: int)
    requires TiersNest(rows, place) && Aligned(at, 86400)
    ensures Total(rows, place, Range(86400, at, at + 86400))
         == MinuteMeter(rows, place)(at + 86400) - MinuteMeter(rows, place)(at)
  {
    MinutesAndHoursRecord(rows, place, at, at + 86400);
    AlignedFiner(at);
    AlignedFiner(at + 86400);
    NextDayAligned(at);
    RangeRecords(rows, place, 3600, at, at + 86400, MinuteMeter(rows, place));
  }

  lemma NextDayAligned(at: int)
    ensures Aligned(at, 86400) ==> Aligned(at + 86400, 86400)
  {}

  lemma NestedStoreRecords(rows: Rows, place: TierPlacing, first: int, last: int)
    requires TiersNest(rows, place)
    ensures StoreRecords(rows, place, first, last, MinuteMeter(rows, place))
  {
    MinutesAndHoursRecord(rows, place, Bucket(first, Day), last);
    MinutesAndHoursRecord(rows, place, Bucket(first, Hour), last);
    forall at | Bucket(first, Month) <= at < last && Aligned(at, 86400)
      ensures Total(rows, place, Range(86400, at, at + 86400))
           == MinuteMeter(rows, place)(at + 86400) - MinuteMeter(rows, place)(at)
    {
      DayRecords(rows, place, at);
    }
  }

  // The usage of a curve's minute rows from the start of a bucket's month through the bucket.
  ghost function MonthUsage(rows: Rows, tier: TierPlacing, at: int, end: int): real {
    Total(rows, tier, Range(60, Bucket(at, Month), end))
  }

  lemma MonthStartsBefore(times: seq<int>, s: Scale, i: nat)
    requires Consecutive(times, s) && Increasing(times) && i < |times| && Eras(times[0])
    ensures Eras(times[i]) && Bucket(times[i], Month) <= times[i] < Step(times[i], s)
  {
    GridLine(times, s, i);
    GridOrder(times, i);
    LaterStarts(times[0], times[i]);
    OrderedStarts(times[i]);
    StepIsStart(times[i], s);
  }

  lemma ReadingIsUsage(l: Line, rows: Rows, tier: TierPlacing, times: seq<int>, s: Scale, i: nat)
    requires Consecutive(times, s) && Increasing(times) && i < |times| - 1 && Eras(times[0])
    requires PointReads(l, times, i, MinuteMeter(rows, tier))
    ensures l.points[i].value == MonthUsage(rows, tier, times[i], times[i + 1])
  {
    MonthStartsBefore(times, s, i);
    GridOrder(times, i);
    MinuteMeterGains(rows, tier, Bucket(times[i], Month), times[i + 1]);
  }

  lemma SettingExact(l: Line, v: View, s: Scale, accepted: Rows, times: seq<int>, i: nat)
    requires LineSetting(l, v, s, accepted, times) && v.mode.Monthly? && SoundRows(accepted, s)
    requires i < |times| - 1 && l.points[i].Some? && TiersNest(accepted, TierOf(v, l.curve.id))
    ensures l.points[i].value == MonthUsage(accepted, TierOf(v, l.curve.id), times[i], times[i + 1])
  {
    NestedStoreRecords(accepted, TierOf(v, l.curve.id), times[0], times[|times| - 1]);
    SettingReads(l, v, s, accepted, times, i, MinuteMeter(accepted, TierOf(v, l.curve.id)));
    ReadingIsUsage(l, accepted, TierOf(v, l.curve.id), times, s, i);
  }

  // When the tiers nest, every month-to-date point before the last bucket equals all minute usage of its curve
  // from the start of its Beijing month through its bucket, at every scale.
  lemma MonthToDateExact(chart: Chart, rows: Rows, v: View, k: nat, l: Line, i: nat)
    requires k < |chart.lines| && l == chart.lines[k]
    requires IsChart(chart, rows, v) && v.mode.Monthly? && ModernView(v)
    requires SoundRows(Accepted(rows, v), chart.scale) && TiersNest(Accepted(rows, v), TierOf(v, l.curve.id))
    requires i < |chart.times| - 1 && i < |l.points| && l.points[i].Some?
    ensures l.points[i].value
         == MonthUsage(Accepted(rows, v), TierOf(v, l.curve.id), chart.times[i], chart.times[i + 1])
  {
    ChartSetting(chart, rows, v, k);
    SettingExact(l, v, chart.scale, Accepted(rows, v), chart.times, i);
  }

  // ---------- the bucket the window ends in ----------

  // The accepted rows of a bucket that are not drawn in it: those still being measured at the window's end.
  function Undrawn(v: View, s: Scale, times: seq<int>, t: int, id: string): Placing {
    (row: UsagePoint) =>
      if OfBucket(v, s, t, id, row) && MeasuredEnd(row) as real > WindowEnd(v) then Some(Cell(t, id)) else None
  }

  lemma {:induction false} TotalParts(
    rows: Rows, place: Placing, cells: iset<Cell>, rest: Placing, whole: TierPlacing, range: iset<Tier>)
    requires forall row :: row in rows ==>
      ((whole(row).Some? && whole(row).value in range)
       <==> ((place(row).Some? && place(row).value in cells) || rest(row).Some?))
    requires forall row :: row in rows ==> !(place(row).Some? && place(row).value in cells && rest(row).Some?)
    ensures Total(rows, whole, range) == Total(rows, place, cells) + Total(rows, rest, EVERYWHERE)
  {
    if rows != [] { TotalParts(rows[..|rows| - 1], place, cells, rest, whole, range); }
  }

  // The rows of a bucket are those drawn in it and those that are not.
  lemma BucketParts(v: View, s: Scale, times: seq<int>, t: int, id: string, accepted: Rows)
    requires t in times && Bucket(t, s) == t && (v.presentation.Summed? ==> id == SUM_ID)
    requires forall row :: row in accepted ==> Plain(row.at, s)
    ensures Total(accepted, TierOf(v, id), Range(Resolution(s), t, Step(t, s)))
         == Total(accepted, Place(v, s, times), iset{Cell(t, id)})
            + Total(accepted, Undrawn(v, s, times, t, id), EVERYWHERE)
  {
    var place, tier, rest := Place(v, s, times), TierOf(v, id), Undrawn(v, s, times, t, id);
    var range := Range(Resolution(s), t, Step(t, s));
    forall row | row in accepted
      ensures (tier(row).Some? && tier(row).value in range)
         <==> ((place(row).Some? && place(row).value in iset{Cell(t, id)}) || rest(row).Some?)
      ensures !(place(row).Some? && place(row).value in iset{Cell(t, id)} && rest(row).Some?)
    {
      DrawnIs(v, s, times, t, id, row);
      TierIs(v, id, row, Resolution(s), t, Step(t, s));
    }
    TotalParts(accepted, place, iset{Cell(t, id)}, rest, tier, range);
  }

  lemma TierRecords(rows: Rows, place: TierPlacing, resolution: int, lo: int, hi: int)
    requires TiersNest(rows, place) && IsTier(resolution)
    ensures Records(rows, place, resolution, lo, hi, MinuteMeter(rows, place))
  {
    MinutesAndHoursRecord(rows, place, lo, hi);
    forall at | lo <= at < hi && Aligned(at, 86400)
      ensures Total(rows, place, Range(86400, at, at + 86400))
           == MinuteMeter(rows, place)(at + 86400) - MinuteMeter(rows, place)(at)
    {
      DayRecords(rows, place, at);
    }
  }

  // The rows of a bucket's tier are its minute rows.
  lemma BucketMinutes(rows: Rows, place: TierPlacing, s: Scale, t: int)
    requires TiersNest(rows, place) && Eras(t) && Bucket(t, s) == t
    ensures Total(rows, place, Range(Resolution(s), t, Step(t, s))) == Total(rows, place, Range(60, t, Step(t, s)))
  {
    EraIsBeyondGap(t);
    StepIsStart(t, s);
    AlignedStop(t, s);
    AlignedStop(Step(t, s), s);
    TierScaleFits(s);
    TierRecords(rows, place, Resolution(s), t, Step(t, s));
    RangeRecords(rows, place, Resolution(s), t, Step(t, s), MinuteMeter(rows, place));
    MinuteMeterGains(rows, place, t, Step(t, s));
  }

  lemma ReadingFallsShort(
    l: Line, rows: Rows, tier: TierPlacing, times: seq<int>, s: Scale, i: nat, drawn: real, undrawn: real)
    requires Consecutive(times, s) && Increasing(times) && i < |times| && Eras(times[0]) && TiersNest(rows, tier)
    requires PointReads(l, times, i, MinuteMeter(rows, tier)) && l.curve.points[i].value == drawn
    requires Total(rows, tier, Range(Resolution(s), times[i], Step(times[i], s))) == drawn + undrawn
    ensures l.points[i].value + undrawn == MonthUsage(rows, tier, times[i], Step(times[i], s))
  {
    var t := times[i];
    MonthStartsBefore(times, s, i);
    GridLine(times, s, i);
    BucketMinutes(rows, tier, s, t);
    MinuteMeterGains(rows, tier, Bucket(t, Month), t);
    MinuteMeterGains(rows, tier, Bucket(t, Month), Step(t, s));
    MinuteMeterGains(rows, tier, t, Step(t, s));
  }

  lemma DrawnPoint(c: Curve, rows: Rows, times: seq<int>, place: Placing, i: nat)
    requires IsCurve(c, rows, times, place) && i < |times| && c.points[i].Some?
    ensures c.points[i].value == Total(rows, place, iset{Cell(times[i], c.id)})
  {}

  lemma SettingExactIff(l: Line, v: View, s: Scale, accepted: Rows, times: seq<int>, i: nat)
    requires LineSetting(l, v, s, accepted, times) && v.mode.Monthly? && SoundRows(accepted, s)
    requires i < |times| && l.points[i].Some? && TiersNest(accepted, TierOf(v, l.curve.id))
    ensures l.points[i].value + Total(accepted, Undrawn(v, s, times, times[i], l.curve.id), EVERYWHERE)
         == MonthUsage(accepted, TierOf(v, l.curve.id), times[i], Step(times[i], s))
  {
    NestedStoreRecords(accepted, TierOf(v, l.curve.id), times[0], times[|times| - 1]);
    SettingReads(l, v, s, accepted, times, i, MinuteMeter(accepted, TierOf(v, l.curve.id)));
    GridLine(times, s, i);
    BucketParts(v, s, times, times[i], l.curve.id, accepted);
    DrawnPoint(l.curve, accepted, times, Place(v, s, times), i);
    ReadingFallsShort(
      l, accepted, TierOf(v, l.curve.id), times, s, i,
      Total(accepted, Place(v, s, times), iset{Cell(times[i], l.curve.id)}),
      Total(accepted, Undrawn(v, s, times, times[i], l.curve.id), EVERYWHERE));
  }

  // When the tiers nest, any month-to-date point, that of the last bucket included, falls short of the usage of its
  // month through its bucket by exactly the bucket's accepted rows that are still being measured at the window's end;
  // so it is exact if and only if those have no usage.
  lemma MonthToDateExactIff(chart: Chart, rows: Rows, v: View, k: nat, l: Line, i: nat)
    requires k < |chart.lines| && l == chart.lines[k]
    requires IsChart(chart, rows, v) && v.mode.Monthly? && ModernView(v)
    requires SoundRows(Accepted(rows, v), chart.scale) && TiersNest(Accepted(rows, v), TierOf(v, l.curve.id))
    requires i < |chart.times| && i < |l.points| && l.points[i].Some?
    ensures var id, t := l.curve.id, chart.times[i];
            var missing := Total(Accepted(rows, v), Undrawn(v, chart.scale, chart.times, t, id), EVERYWHERE);
            var usage := MonthUsage(Accepted(rows, v), TierOf(v, id), t, Step(t, chart.scale));
            && l.points[i].value == usage - missing
            && (l.points[i].value == usage <==> missing == 0.0)
  {
    ChartSetting(chart, rows, v, k);
    SettingExactIff(l, v, chart.scale, Accepted(rows, v), chart.times, i);
  }
}
