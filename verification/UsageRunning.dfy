/** The running curves of the chart: joined points, range totals, and the month-to-date prefix over three tiers of
    rows. */
module UsageRunning {
  import opened Optional
  import opened UsageTotals
  import opened UsageCurves

  // ---------- which points are joined to their predecessor ----------

  ghost predicate IsPrevious(points: seq<Option<real>>, p: int, i: int) {
    0 <= p < i <= |points| && points[p].Some? && forall j :: p < j < i ==> points[j].None?
  }

  // A point is joined when the nearest earlier point is adjacent or, at minute resolution, when
  // its first measurement starts no later than a second after that point's last one ended.
  ghost predicate Joined(points: seq<Option<real>>, spans: seq<Option<Span>>, minutes: bool, i: nat)
    requires i < |points| == |spans|
  {
    && points[i].Some?
    && exists p :: IsPrevious(points, p, i)
         && (p == i - 1
             || (minutes && spans[i].Some? && spans[p].Some? && spans[i].value.first <= spans[p].value.last + 1))
  }

  method JoinFlags(points: seq<Option<real>>, spans: seq<Option<Span>>, minutes: bool) returns (flags: seq<bool>)
    requires |points| == |spans|
    ensures |flags| == |points|
    ensures forall i :: 0 <= i < |points| ==> (flags[i] <==> Joined(points, spans, minutes, i))
  {
    flags := [];
    var previous := -1;
    for i := 0 to |points|
      invariant |flags| == i && -1 <= previous < i
      invariant previous >= 0 ==> IsPrevious(points, previous, i)
      invariant previous < 0 ==> forall j :: 0 <= j < i ==> points[j].None?
      invariant forall j :: 0 <= j < i ==> (flags[j] <==> Joined(points, spans, minutes, j))
    {
      var flag := false;
      if points[i].Some? {
        flag := previous >= 0
          && (i == previous + 1
              || (minutes && spans[i].Some? && spans[previous].Some?
                  && spans[i].value.first <= spans[previous].value.last + 1));
        previous := i;
      }
      flags := flags + [flag];
    }
  }

  // ---------- the rows of one curve, by tier ----------

  datatype Tier = Tier(resolution: int, at: int)

  type TierPlacing = UsagePoint -> Option<Tier>

  ghost function Range(resolution: int, lo: int, hi: int): iset<Tier> {
    iset t: Tier | t.resolution == resolution && lo <= t.at < hi
  }

  predicate InPrefix(t: Tier, month: int, day: int, hour: int, stop: int) {
    && month <= t.at < stop
    && (|| (t.resolution == 86400 && t.at < day)
        || (t.resolution == 3600 && day <= t.at < hour)
        || (t.resolution == 60 && hour <= t.at))
  }

  ghost function Prefix(month: int, day: int, hour: int, stop: int): iset<Tier> {
    iset t: Tier | InPrefix(t, month, day, hour, stop)
  }

  // The day rows before the day, the hour rows before the hour and the minute rows before the stop
  // cover the month so far, each stretch of time by one tier only.
  lemma PrefixTiles(rows: Rows, place: TierPlacing, month: int, day: int, hour: int, stop: int)
    requires month <= day <= hour <= stop
    ensures Total(rows, place, Prefix(month, day, hour, stop))
         == Total(rows, place, Range(86400, month, day)) + Total(rows, place, Range(3600, day, hour))
            + Total(rows, place, Range(60, hour, stop))
  {
    var d, h, m := Range(86400, month, day), Range(3600, day, hour), Range(60, hour, stop);
    assert Prefix(month, day, hour, stop) == (d + h) + m;
    TotalSplits(rows, place, d + h, m);
    TotalSplits(rows, place, d, h);
  }

  method PrefixUsage(rows: Rows, place: TierPlacing, month: int, day: int, hour: int, stop: int) returns (sum: real)
    ensures sum == Total(rows, place, Prefix(month, day, hour, stop))
  {
    sum := 0.0;
    var n := 0;
    while n < |rows|
      invariant 0 <= n <= |rows|
      invariant sum == Total(rows[..n], place, Prefix(month, day, hour, stop))
    {
      TotalSnoc(rows[..n], rows[n], place, Prefix(month, day, hour, stop));
      assert rows[..n + 1] == rows[..n] + [rows[n]];
      var t := place(rows[n]);
      if t.Some? && InPrefix(t.value, month, day, hour, stop) {
        sum := sum + rows[n].usedMb;
      }
      n := n + 1;
    }
    assert rows[..|rows|] == rows;
  }

  predicate Aligned(at: int, resolution: int)
    requires resolution != 0
  {
    (at + 28800) % resolution == 0
  }

  predicate IsTier(resolution: int) {
    resolution == 60 || resolution == 3600 || resolution == 86400
  }

  // From `from` up to `to`, the rows of a tier record exactly what a cumulative meter gained in each of their buckets.
  ghost predicate Records(rows: Rows, place: TierPlacing, resolution: int, from: int, to: int, meter: int -> real)
    requires IsTier(resolution)
  {
    forall at :: from <= at < to && Aligned(at, resolution) ==>
      Total(rows, place, Range(resolution, at, at + resolution)) == meter(at + resolution) - meter(at)
  }

  lemma AlignedStep(lo: int, hi: int, resolution: int)
    requires IsTier(resolution) && Aligned(lo, resolution) && Aligned(hi, resolution) && lo < hi
    ensures lo <= hi - resolution && Aligned(hi - resolution, resolution)
  {}

  lemma AlignedFiner(at: int)
    ensures Aligned(at, 86400) ==> Aligned(at, 3600)
    ensures Aligned(at, 3600) ==> Aligned(at, 60)
  {}

  lemma {:induction false} RangeRecords(
      rows: Rows, place: TierPlacing, resolution: int, lo: int, hi: int, meter: int -> real)
    requires IsTier(resolution) && Aligned(lo, resolution) && Aligned(hi, resolution) && lo <= hi
    requires Records(rows, place, resolution, lo, hi, meter)
    ensures Total(rows, place, Range(resolution, lo, hi)) == meter(hi) - meter(lo)
    decreases hi - lo
  {
    if lo == hi {
      TotalOfNone(rows, place, Range(resolution, lo, hi));
    } else {
      AlignedStep(lo, hi, resolution);
      var mid := hi - resolution;
      RangeRecords(rows, place, resolution, lo, mid, meter);
      assert Range(resolution, lo, hi) == Range(resolution, lo, mid) + Range(resolution, mid, hi);
      TotalSplits(rows, place, Range(resolution, lo, mid), Range(resolution, mid, hi));
    }
  }

  // The prefix over three tiers is what the meter gained since the month began.
  lemma PrefixRecords(rows: Rows, place: TierPlacing, month: int, day: int, hour: int, stop: int, meter: int -> real)
    requires month <= day <= hour <= stop
    requires Aligned(month, 86400) && Aligned(day, 86400) && Aligned(hour, 3600) && Aligned(stop, 60)
    requires Records(rows, place, 86400, month, day, meter)
    requires Records(rows, place, 3600, day, hour, meter)
    requires Records(rows, place, 60, hour, stop, meter)
    ensures Total(rows, place, Prefix(month, day, hour, stop)) == meter(stop) - meter(month)
  {
    PrefixTiles(rows, place, month, day, hour, stop);
    AlignedFiner(day);
    AlignedFiner(hour);
    RangeRecords(rows, place, 86400, month, day, meter);
    RangeRecords(rows, place, 3600, day, hour, meter);
    RangeRecords(rows, place, 60, hour, stop, meter);
  }

  // ---------- running totals ----------

  // The starts of the month, the day and the hour that an instant is in.
  datatype Starts = Starts(month: int, day: int, hour: int)

  type Clock = int -> Starts

  ghost function PrefixAt(rows: Rows, place: TierPlacing, starts: Clock): int -> real {
    stop => Total(rows, place, Prefix(starts(stop).month, starts(stop).day, starts(stop).hour, stop))
  }

  // What the running loop holds after some points: the month it is in, with -1 before the first point, and its sum.
  ghost function MonthState(points: seq<Option<real>>, times: seq<int>, starts: Clock, prefix: int -> real): (int, real)
    requires |points| == |times|
  {
    if points == [] then (-1, 0.0) else
      var n := |points| - 1;
      var (month, sum) := MonthState(points[..n], times[..n], starts, prefix);
      if points[n].None? then (month, sum) else
        var current := starts(times[n]).month;
        (current, (if month != current then prefix(times[n]) else sum) + points[n].value)
  }

  ghost function MonthPoint(
      points: seq<Option<real>>, times: seq<int>, starts: Clock, prefix: int -> real, i: nat): Option<real>
    requires |points| == |times| && i < |points|
  {
    if points[i].None? then None else Some(MonthState(points[..i + 1], times[..i + 1], starts, prefix).1)
  }

  // Starting a month at the first point in it with the meter's reading for the month so far, and counting every
  // bucket before the last in full, leaves each point at the reading from the month's start to the bucket's start
  // plus what the bucket itself shows.
  lemma {:induction false} MonthStateReads(
      points: seq<Option<real>>, times: seq<int>, starts: Clock, prefix: int -> real, meter: int -> real, n: nat)
    requires n < |points| == |times|
    requires forall i :: 0 <= i < |points| && points[i].Some? ==>
               starts(times[i]).month != -1 && prefix(times[i]) == meter(times[i]) - meter(starts(times[i]).month)
    requires forall i :: 0 <= i < |points| - 1 ==> ValueOr(points[i], 0.0) == meter(times[i + 1]) - meter(times[i])
    ensures var (month, sum) := MonthState(points[..n], times[..n], starts, prefix);
            month != -1 ==> sum == meter(times[n]) - meter(month)
  {
    if n > 0 {
      assert points[..n][..n - 1] == points[..n - 1] && times[..n][..n - 1] == times[..n - 1];
      MonthStateReads(points, times, starts, prefix, meter, n - 1);
    }
  }

  lemma MonthPointReads(
      points: seq<Option<real>>, times: seq<int>, starts: Clock, prefix: int -> real, meter: int -> real, i: nat)
    requires i < |points| == |times|
    requires forall k :: 0 <= k < |points| && points[k].Some? ==>
               starts(times[k]).month != -1 && prefix(times[k]) == meter(times[k]) - meter(starts(times[k]).month)
    requires forall k :: 0 <= k < |points| - 1 ==> ValueOr(points[k], 0.0) == meter(times[k + 1]) - meter(times[k])
    requires points[i].Some?
    ensures MonthPoint(points, times, starts, prefix, i)
         == Some(meter(times[i]) - meter(starts(times[i]).month) + points[i].value)
  {
    assert points[..i + 1][..i] == points[..i] && times[..i + 1][..i] == times[..i];
    MonthStateReads(points, times, starts, prefix, meter, i);
  }

  method MonthTotals(points: seq<Option<real>>, times: seq<int>, rows: Rows, place: TierPlacing, starts: Clock)
    returns (out: seq<Option<real>>)
    requires |points| == |times|
    ensures |out| == |points|
    ensures forall i :: 0 <= i < |points| ==>
              out[i] == MonthPoint(points, times, starts, PrefixAt(rows, place, starts), i)
  {
    ghost var prefix := PrefixAt(rows, place, starts);
    out := [];
    var month, sum := -1, 0.0;
    for i := 0 to |points|
      invariant |out| == i
      invariant (month, sum) == MonthState(points[..i], times[..i], starts, prefix)
      invariant forall j :: 0 <= j < i ==> out[j] == MonthPoint(points, times, starts, prefix, j)
    {
      assert points[..i + 1][..i] == points[..i] && times[..i + 1][..i] == times[..i];
      if points[i].Some? {
        var s := starts(times[i]);
        if month != s.month {
          month := s.month;
          sum := PrefixUsage(rows, place, s.month, s.day, s.hour, times[i]);
        }
        sum := sum + points[i].value;
        out := out + [Some(sum)];
      } else {
        out := out + [None];
      }
    }
  }

  // Range totals: the sum of the points so far, on the same buckets.
  method RangeTotals(points: seq<Option<real>>) returns (out: seq<Option<real>>)
    ensures |out| == |points|
    ensures forall i :: 0 <= i < |points| ==>
              out[i] == if points[i].None? then None else Some(SumPoints(points[..i + 1]))
  {
    out := [];
    var sum := 0.0;
    for i := 0 to |points|
      invariant |out| == i && sum == SumPoints(points[..i])
      invariant forall j :: 0 <= j < i ==>
                  out[j] == if points[j].None? then None else Some(SumPoints(points[..j + 1]))
    {
      assert points[..i + 1][..i] == points[..i];
      if points[i].Some? {
        sum := sum + points[i].value;
        out := out + [Some(sum)];
      } else {
        out := out + [None];
      }
    }
  }

  lemma {:induction false} SumGrows(points: seq<Option<real>>, i: nat, j: nat)
    requires i <= j <= |points|
    requires forall k :: 0 <= k < |points| && points[k].Some? ==> points[k].value >= 0.0
    ensures SumPoints(points[..i]) <= SumPoints(points[..j])
    decreases j
  {
    if i < j {
      assert points[..j][..j - 1] == points[..j - 1];
      SumGrows(points, i, j - 1);
    }
  }

  lemma {:induction false} SumOfNone(points: seq<Option<real>>, i: nat, j: nat)
    requires i <= j <= |points|
    requires forall k :: i <= k < j ==> points[k].None?
    ensures SumPoints(points[..i]) == SumPoints(points[..j])
    decreases j
  {
    if i < j {
      assert points[..j][..j - 1] == points[..j - 1];
      SumOfNone(points, i, j - 1);
    }
  }
}
