/** The time grid of the usage chart: Beijing-time buckets, the automatic choice of scale, and zooming. */
module Buckets {
  import opened Calendar

  datatype Scale = Minute | FiveMinutes | FifteenMinutes | Hour | Day | Month

  const BEIJING := 28800
  const DAY_SECONDS := 86400
  const GRID_CAP := 5000
  const MAX_ZOOM := 3660.0 * 86400.0

  // The width of a bucket, with 0 for the one scale that has no fixed width.
  function Seconds(s: Scale): nat {
    match s
    case Minute => 60
    case FiveMinutes => 300
    case FifteenMinutes => 900
    case Hour => 3600
    case Day => 86400
    case Month => 0
  }

  // The scales in the order the program lists them.
  function Rank(s: Scale): nat {
    match s
    case Minute => 0
    case FiveMinutes => 1
    case FifteenMinutes => 2
    case Hour => 3
    case Day => 4
    case Month => 5
  }

  function Coarser(s: Scale): Scale {
    match s
    case Minute => FiveMinutes
    case FiveMinutes => FifteenMinutes
    case FifteenMinutes => Hour
    case Hour => Day
    case Day => Month
    case Month => Month
  }

  function BeijingDay(at: int): int {
    (at + BEIJING) / DAY_SECONDS
  }

  function DayInstant(day: int): int {
    day * DAY_SECONDS - BEIJING
  }

  // The start of the bucket an instant falls in.
  function Bucket(at: int, s: Scale): int {
    if s.Month? then DayInstant(MonthStart(BeijingDay(at)))
    else (at + BEIJING) / Seconds(s) * Seconds(s) - BEIJING
  }

  // The grid's step from one bucket start to the next.
  function Step(at: int, s: Scale): int {
    if s.Month? then DayInstant(NextMonth(BeijingDay(at))) else at + Seconds(s)
  }

  // Window bounds may fall between two whole seconds.
  function BucketOf(at: real, s: Scale): int {
    Bucket(at.Floor, s)
  }

  // How long buckets of a fixed width are, and when in the day they begin: the days at midnight in Beijing, eight
  // hours before it in Greenwich.
  lemma BucketWidths(at: int)
    ensures Step(at, Minute) - at == 60 && Step(at, FiveMinutes) - at == 5 * 60
    ensures Step(at, FifteenMinutes) - at == 15 * 60 && Step(at, Hour) - at == 60 * 60
    ensures Step(at, Day) - at == 24 * 60 * 60
    ensures Bucket(-8 * 60 * 60, Day) == -8 * 60 * 60 && Bucket(0, Hour) == 0
  {}

  // The month bucket of an instant is the civil month, in Beijing, that it lies in, outside the years 0..99.
  lemma BucketIsCivilMonth(at: int, y: int, m: int)
    requires 0 <= m < 12 && !(0 <= y <= 99)
    requires 86_400 * MakeDay(y, m) - 8 * 3_600 <= at < 86_400 * MakeDay(y, m + 1) - 8 * 3_600
    ensures Bucket(at, Month) == 86_400 * MakeDay(y, m) - 8 * 3_600
    ensures Step(at, Month) == 86_400 * MakeDay(y, m + 1) - 8 * 3_600
  {
    DayWithin(at, MakeDay(y, m), MakeDay(y, m + 1));
    MonthUnique(BeijingDay(at), y, m);
  }

  lemma DayWithin(at: int, first: int, next: int)
    requires 86_400 * first - 8 * 3_600 <= at < 86_400 * next - 8 * 3_600
    ensures first <= BeijingDay(at) < next
  {}

  // Instants on which the month scale is not upset by two-digit years.
  predicate Plain(at: int, s: Scale) {
    s.Month? ==> !TwoDigitYear(BeijingDay(at))
  }

  // An instant lies in the month bucket computed for it exactly when its Beijing year is not one of 0..99.
  lemma MonthBucketHolds(at: int)
    ensures Bucket(at, Month) <= at < Step(at, Month) <==> !TwoDigitYear(BeijingDay(at))
  {
    var day := BeijingDay(at);
    MonthHoldsDay(day);
    assert DayInstant(day) <= at < DayInstant(day + 1);
  }

  // The month bucket of 1 January of a year from 0 to 99 is that of 1 January 1900 years later.
  lemma TwoDigitYearIsMisplaced(y: int, at: int)
    requires 0 <= y <= 99 && at == DayInstant(MakeDay(y, 0))
    ensures YearFromDay(BeijingDay(at)) == y
    ensures Bucket(at, Month) == DayInstant(MakeDay(1900 + y, 0)) > at
  {
    var day := MakeDay(y, 0);
    FirstDay(y, 0);
    MonthStartsGrow(y, 0, 1900 + y, 0);
    StartsItselfIff(y, 0);
    DayOfInstant(day);
  }

  lemma DayOfInstant(day: int)
    ensures BeijingDay(DayInstant(day)) == day
  {}

  // An instant lies between its bucket's start and the next if and only if its month bucket is not misplaced.
  lemma BucketHolds(at: int, s: Scale)
    ensures Bucket(at, s) <= at < Step(Bucket(at, s), s) <==> Plain(at, s)
  {
    if s.Month? {
      var day := BeijingDay(at);
      MonthHoldsDay(day);
      if TwoDigitYear(day) { TwoDigitBucketIsLate(at); } else { MonthStep(at); }
    }
  }

  lemma TwoDigitBucketIsLate(at: int)
    requires TwoDigitYear(BeijingDay(at))
    ensures Bucket(at, Month) > at
  {
    var day := BeijingDay(at);
    TwoDigitMonthIsLate(YearFromDay(day), MonthFromDay(day));
  }

  // The step from a month bucket's start is the step of every instant in it.
  lemma MonthStep(at: int)
    requires !TwoDigitYear(BeijingDay(at))
    ensures BeijingDay(Bucket(at, Month)) == MonthStart(BeijingDay(at))
    ensures Step(Bucket(at, Month), Month) == DayInstant(NextMonth(BeijingDay(at)))
    ensures Bucket(at, Month) <= at < DayInstant(NextMonth(BeijingDay(at)))
  {
    var day := BeijingDay(at);
    MonthHoldsDay(day);
    SameMonth(day, MonthStart(day));
    DayOfInstant(MonthStart(day));
    assert DayInstant(day) <= at < DayInstant(day + 1);
  }

  // Two instants between the same two grid lines share their bucket.
  lemma BucketShared(at: int, other: int, s: Scale)
    requires Plain(at, s)
    requires Bucket(at, s) <= other < Step(Bucket(at, s), s)
    ensures Bucket(other, s) == Bucket(at, s)
  {
    if s.Month? {
      MonthStep(at);
      SameMonth(BeijingDay(at), BeijingDay(other));
    } else {
      QuotientIs(other + BEIJING, Seconds(s), (at + BEIJING) / Seconds(s));
    }
  }

  // A number is k times n plus less than n exactly when its quotient by n is k.
  lemma QuotientIs(b: int, n: int, k: int)
    requires n > 0
    ensures b / n == k <==> k * n <= b < (k + 1) * n
  {
    var q := b / n;
    assert q * n <= b < (q + 1) * n;
    Scaled(q + 1, k, n);
    Scaled(k + 1, q, n);
  }

  lemma Scaled(a: int, b: int, n: int)
    requires n >= 0
    ensures a <= b ==> a * n <= b * n
  {}

  lemma BucketIdempotent(at: int, s: Scale)
    ensures Bucket(Bucket(at, s), s) == Bucket(at, s) && Plain(Bucket(at, s), s)
  {
    if s.Month? {
      MonthStartIsStart(BeijingDay(at));
      DayOfInstant(MonthStart(BeijingDay(at)));
    } else {
      BucketHolds(at, s);
      BucketShared(at, Bucket(at, s), s);
    }
  }

  lemma PlainMonotone(at: int, other: int, s: Scale)
    requires at <= other && Plain(at, s) && Plain(other, s)
    ensures Bucket(at, s) <= Bucket(other, s)
  {
    BucketHolds(at, s);
    BucketHolds(other, s);
    if Bucket(other, s) < Bucket(at, s) { BucketShared(other, at, s); }
  }

  // A misplaced month bucket lies beyond instants of later years.
  predicate Overtaken(at: int, other: int, s: Scale) {
    !Plain(at, s) && Plain(other, s) && other < Bucket(at, s)
  }

  // A later instant has no earlier bucket, except that a misplaced bucket may lie beyond a later instant.
  lemma BucketMonotone(at: int, other: int, s: Scale)
    requires at <= other
    ensures Bucket(at, s) <= Bucket(other, s) <==> !Overtaken(at, other, s)
  {
    BucketHolds(at, s);
    BucketHolds(other, s);
    if Plain(at, s) && Plain(other, s) {
      PlainMonotone(at, other, s);
    } else if Plain(at, s) {
      TwoDigitBucketIsLate(other);
    } else if !Plain(other, s) {
      DayMonotone(at, other);
      TwoDigitMonthsGrow(BeijingDay(at), BeijingDay(other));
    } else if Bucket(at, s) <= other {
      BucketIdempotent(at, s);
      PlainMonotone(Bucket(at, s), other, s);
    }
  }

  lemma DayMonotone(at: int, other: int)
    requires at <= other
    ensures BeijingDay(at) <= BeijingDay(other)
  {}

  // The instant at which the misread years begin. It is no month bucket's start, and the step from it leads to 1900.
  const GAP := -62_167_248_000

  // 1 January of a misread year.
  predicate MisreadStart(at: int) {
    StartsMisread(BeijingDay(at)) && at == DayInstant(BeijingDay(at))
  }

  lemma GapIsMisread(gap: int)
    requires gap == GAP
    ensures MisreadStart(gap) && gap == DayInstant(YEAR_ZERO)
  {
    YearZeroStartsMisread(YEAR_ZERO);
    DayOfInstant(YEAR_ZERO);
  }

  lemma MonthStepIsStart(at: int)
    requires Bucket(at, Month) == at
    ensures at < Step(at, Month)
    ensures Bucket(Step(at, Month), Month) == Step(at, Month) <==> Step(at, Month) != GAP
  {
    var next := NextMonth(BeijingDay(at));
    NextMonthIsLater(BeijingDay(at));
    NextIsStart(BeijingDay(at));
    StartOfDay(at);
    DayOfInstant(next);
    GapIsMisread(GAP);
  }

  lemma StartOfDay(at: int)
    requires Bucket(at, Month) == at
    ensures at == DayInstant(BeijingDay(at))
  {
    DayOfInstant(MonthStart(BeijingDay(at)));
  }

  lemma FixedStepIsStart(at: int, s: Scale)
    requires !s.Month? && Bucket(at, s) == at
    ensures at < Step(at, s) && Bucket(Step(at, s), s) == Step(at, s)
  {
    QuotientIs(Step(at, s) + BEIJING, Seconds(s), (at + BEIJING) / Seconds(s) + 1);
  }

  // The next grid line is itself a bucket start, unless it is the first of the misread years.
  lemma StepIsStart(at: int, s: Scale)
    requires Bucket(at, s) == at
    ensures at < Step(at, s)
    ensures Bucket(Step(at, s), s) == Step(at, s) <==> !(s.Month? && Step(at, s) == GAP)
  {
    if s.Month? { MonthStepIsStart(at); } else { FixedStepIsStart(at, s); }
  }

  // A start of a coarse bucket is also a start of a bucket of every finer scale.
  lemma CoarseStartIsFine(start: int, fine: Scale, coarse: Scale)
    requires Rank(fine) <= Rank(coarse)
    requires Bucket(start, coarse) == start
    ensures Bucket(start, fine) == start
  {
    if !fine.Month? {
      StartIsMultiple(start, coarse);
      MultipleIsStart(start, fine, coarse);
    }
  }

  lemma MultipleIsStart(start: int, fine: Scale, coarse: Scale)
    requires !fine.Month? && Rank(fine) <= Rank(coarse) && (start + BEIJING) % Whole(coarse) == 0
    ensures Bucket(start, fine) == start
  {
    MultipleOfFiner(start + BEIJING, fine, coarse);
    StartIsMultiple(start, fine);
  }

  // Month starts are starts of days.
  function Whole(s: Scale): nat {
    if s.Month? then DAY_SECONDS else Seconds(s)
  }

  lemma StartIsMultiple(start: int, s: Scale)
    ensures Bucket(start, s) == start ==> (start + BEIJING) % Whole(s) == 0
    ensures !s.Month? && (start + BEIJING) % Whole(s) == 0 ==> Bucket(start, s) == start
  {
    if s.Month? {
      DayInstantIsMultiple(MonthStart(BeijingDay(start)));
    } else {
      WholeQuotient(start + BEIJING, Seconds(s));
    }
  }

  lemma WholeQuotient(x: int, n: int)
    requires n > 0
    ensures x / n * n == x <==> x % n == 0
  {}

  lemma DayInstantIsMultiple(day: int)
    ensures (DayInstant(day) + BEIJING) % DAY_SECONDS == 0
  {}

  lemma MultipleOfFactor(x: int, n: int, k: int)
    requires n > 0 && k > 0 && x % (n * k) == 0
    ensures x % n == 0
  {
    var q := x / (n * k);
    assert x == (q * k) * n;
    WholeQuotient(x, n);
    MultipleDivides(q * k, n);
  }

  lemma MultipleDivides(k: int, n: int)
    requires n > 0
    ensures k * n % n == 0
  {
    QuotientIs(k * n, n, k);
  }

  // How many buckets of a fine fixed width make one of a coarser scale, or a day if that is the month.
  function Ratio(fine: Scale, coarse: Scale): (k: int)
    requires !fine.Month? && Rank(fine) <= Rank(coarse)
    ensures k > 0 && Whole(fine) * k == Whole(coarse)
  {
    Whole(coarse) / Whole(fine)
  }

  lemma MultipleOfFiner(x: int, fine: Scale, coarse: Scale)
    requires !fine.Month? && Rank(fine) <= Rank(coarse)
    requires x % Whole(coarse) == 0
    ensures x % Whole(fine) == 0
  {
    MultipleOfFactor(x, Whole(fine), Ratio(fine, coarse));
  }

  // The end of a coarse bucket is a start on every finer scale, too.
  lemma CoarseStepIsFine(start: int, fine: Scale, coarse: Scale)
    requires !fine.Month? && Rank(fine) <= Rank(coarse) && Bucket(start, coarse) == start
    ensures Bucket(Step(start, coarse), fine) == Step(start, coarse)
  {
    if coarse.Month? {
      DayInstantIsMultiple(NextMonth(BeijingDay(start)));
    } else {
      FixedStepIsStart(start, coarse);
      StartIsMultiple(Step(start, coarse), coarse);
    }
    MultipleIsStart(Step(start, coarse), fine, coarse);
  }

  // A fine bucket lies within its coarse bucket.
  lemma FineWithinCoarse(at: int, fine: Scale, coarse: Scale)
    requires Rank(fine) <= Rank(coarse) && Plain(at, coarse)
    ensures Bucket(at, coarse) <= Bucket(at, fine) <= at
    ensures Step(Bucket(at, fine), fine) <= Step(Bucket(at, coarse), coarse)
  {
    var c := Bucket(at, coarse);
    BucketHolds(at, coarse);
    BucketHolds(at, fine);
    BucketIdempotent(at, coarse);
    if !fine.Month? {
      CoarseStartIsFine(c, fine, coarse);
      PlainMonotone(c, at, fine);
      CoarseStepIsFine(c, fine, coarse);
      if Step(c, coarse) < Step(Bucket(at, fine), fine) { BucketShared(at, Step(c, coarse), fine); }
    }
  }

  lemma SameDay(at: int, fine: Scale)
    requires !fine.Month?
    ensures BeijingDay(Bucket(at, fine)) == BeijingDay(at)
  {
    FineWithinCoarse(at, fine, Day);
    BucketHolds(at, Day);
    BucketShared(at, Bucket(at, fine), Day);
    QuotientIs(at + BEIJING, DAY_SECONDS, BeijingDay(at));
    QuotientIs(Bucket(at, fine) + BEIJING, DAY_SECONDS, BeijingDay(at));
  }

  // Bucketing first at a fine scale and then at a coarser one is bucketing at the coarser one, misplaced or not; and
  // the fine bucket lies within a coarse one that is not misplaced.
  lemma BucketsNest(at: int, fine: Scale, coarse: Scale)
    requires Rank(fine) <= Rank(coarse)
    ensures Bucket(Bucket(at, fine), coarse) == Bucket(at, coarse)
    ensures Plain(at, coarse) ==> Bucket(at, coarse) <= Bucket(at, fine) <= at
    ensures Plain(at, coarse) ==> Step(Bucket(at, fine), fine) <= Step(Bucket(at, coarse), coarse)
  {
    if coarse.Month? {
      if fine.Month? { BucketIdempotent(at, fine); } else { SameDay(at, fine); }
    } else {
      BucketHolds(at, coarse);
      FineWithinCoarse(at, fine, coarse);
      BucketHolds(at, fine);
      BucketShared(at, Bucket(at, fine), coarse);
    }
    if Plain(at, coarse) { FineWithinCoarse(at, fine, coarse); }
  }

  // ---------- the choice of scale ----------

  // Whether a window needs at most 4500 steps of this scale; months always do.
  predicate Fits(span: real, s: Scale) {
    s.Month? || span / Seconds(s) as real <= 4500.0
  }

  // The first listed scale, from the requested one on, that fits.
  function EffectiveScale(span: real, s: Scale): (r: Scale)
    ensures Rank(s) <= Rank(r) && Fits(span, r)
    ensures forall t: Scale :: Rank(s) <= Rank(t) < Rank(r) ==> !Fits(span, t)
    decreases 5 - Rank(s)
  {
    if Fits(span, s) then s else
      assert forall t: Scale :: Rank(s) <= Rank(t) ==> t == s || Rank(Coarser(s)) <= Rank(t);
      EffectiveScale(span, Coarser(s))
  }

  lemma TooFineIsSkipped(span: real, s: Scale)
    ensures !Fits(span, s) ==> EffectiveScale(span, s) == EffectiveScale(span, Coarser(s))
    ensures Fits(span, s) ==> EffectiveScale(span, s) == s
    ensures Fits(span, s) <==> !(Seconds(s) != 0 && span / Seconds(s) as real > 4500.0)
    ensures !s.Month? ==> Rank(Coarser(s)) == Rank(s) + 1 <= 5
  {}

  method ChooseScale(span: real, requested: Scale) returns (scale: Scale)
    ensures scale == EffectiveScale(span, requested)
  {
    scale := requested;
    TooFineIsSkipped(span, scale);
    while Seconds(scale) != 0 && span / Seconds(scale) as real > 4500.0
      invariant EffectiveScale(span, scale) == EffectiveScale(span, requested)
      invariant Fits(span, scale) ==> EffectiveScale(span, scale) == scale
      decreases 5 - Rank(scale)
    {
      TooFineIsSkipped(span, scale);
      scale := Coarser(scale);
      TooFineIsSkipped(span, scale);
    }
  }

  // The zoomed window, and the place of the anchor in it.
  function Zoom(start: real, end: real, anchor: real, factor: real): (real, real) {
    var wanted := (end - start) * factor;
    var capped := if wanted < MAX_ZOOM then wanted else MAX_ZOOM;
    var width := if capped > 60.0 then capped else 60.0;
    var ratio := if end > start then Clamp((anchor - start) / (end - start)) else 0.5;
    (anchor - width * ratio, anchor + width * (1.0 - ratio))
  }

  function Clamp(r: real): real {
    if r < 0.0 then 0.0 else if r > 1.0 then 1.0 else r
  }

  // A zoomed window is as wide as the old one times the factor, within the limits of a minute and 3660 days, and keeps
  // the anchor at its old relative place; an empty window has it in the middle.
  lemma ZoomedWindow(start: real, end: real, anchor: real, factor: real)
    ensures var (a, b) := Zoom(start, end, anchor, factor);
            var wanted := (end - start) * factor;
            && 60.0 <= b - a <= 3660.0 * 86400.0
            && (60.0 <= wanted <= 3660.0 * 86400.0 ==> b - a == wanted)
            && (wanted < 60.0 ==> b - a == 60.0)
            && (wanted > 3660.0 * 86400.0 ==> b - a == 3660.0 * 86400.0)
            && (end <= start ==> anchor - a == b - anchor)
            && (start < end && start <= anchor <= end ==> (anchor - a) * (end - start) == (anchor - start) * (b - a))
            && (start < end && anchor < start ==> a == anchor)
            && (start < end && end < anchor ==> b == anchor)
  {
    var (a, b) := Zoom(start, end, anchor, factor);
    if start < end {
      RatioBounds(anchor - start, end - start);
      Regroup(b - a, (anchor - start) / (end - start), end - start);
    }
  }

  lemma RatioBounds(x: real, y: real)
    requires 0.0 < y
    ensures x / y * y == x
    ensures x < 0.0 <==> x / y < 0.0
    ensures x > y <==> x / y > 1.0
  {
    RealScaled(x / y, 0.0, y);
    RealScaled(1.0, x / y, y);
  }

  lemma RealScaled(a: real, b: real, y: real)
    requires 0.0 < y
    ensures a < b <==> a * y < b * y
  {
    assert (b - a) * y == b * y - a * y;
  }

  lemma Regroup(a: real, b: real, c: real)
    ensures a * b * c == b * c * a
  {}

  // A fixed-width scale chosen for a zoomed window, or for the part of it before now, is never coarser than a day.
  lemma ZoomNeverForcesMonths(start: real, end: real, anchor: real, factor: real, now: real, s: Scale)
    requires !s.Month?
    ensures var (a, b) := Zoom(start, end, anchor, factor);
            !EffectiveScale((if now < b then now else b) - a, s).Month?
  {
    ZoomedWindow(start, end, anchor, factor);
    var (a, b) := Zoom(start, end, anchor, factor);
    assert Fits((if now < b then now else b) - a, Day);
  }

  // ---------- the grid ----------

  function GridFrom(at: int, end: int, s: Scale, room: nat): (times: seq<int>)
    decreases room
  {
    if end < at || room == 0 then [] else [at] + GridFrom(Step(at, s), end, s, room - 1)
  }

  lemma GridUnfolds(times: seq<int>, at: int, end: int, s: Scale, room: nat)
    requires at <= end && room > 0
    ensures times + GridFrom(at, end, s, room) == (times + [at]) + GridFrom(Step(at, s), end, s, room - 1)
  {
    assert (times + [at]) + GridFrom(Step(at, s), end, s, room - 1)
        == times + ([at] + GridFrom(Step(at, s), end, s, room - 1));
  }

  method BuildGrid(start: int, end: int, s: Scale) returns (times: seq<int>)
    ensures times == GridFrom(start, end, s, GRID_CAP)
  {
    times := [];
    var at := start;
    while at <= end && |times| < GRID_CAP
      invariant |times| <= GRID_CAP
      invariant times + GridFrom(at, end, s, GRID_CAP - |times|) == GridFrom(start, end, s, GRID_CAP)
      decreases GRID_CAP - |times|
    {
      GridUnfolds(times, at, end, s, GRID_CAP - |times|);
      times := times + [at];
      at := Step(at, s);
    }
  }

  // A line, and from each line the next.
  ghost predicate Chain(times: seq<int>, line: int -> bool, next: int -> int) {
    && (forall i :: 0 <= i < |times| ==> line(times[i]))
    && (forall i {:trigger next(times[i])} :: 0 <= i < |times| - 1 ==> times[i + 1] == next(times[i]))
  }

  ghost predicate Advances(line: int -> bool, next: int -> int) {
    forall t {:trigger next(t)} :: line(t) ==> t < next(t) && line(next(t))
  }

  ghost function Links(at: int, end: int, next: int -> int, room: nat): seq<int>
    decreases room
  {
    if end < at || room == 0 then [] else [at] + Links(next(at), end, next, room - 1)
  }

  // A chain from one end of a range to the other, or cut at so many lines.
  ghost predicate Covers(times: seq<int>, next: int -> int, at: int, end: int, room: nat) {
    && |times| <= room
    && (forall t :: t in times ==> at <= t <= end)
    && (|times| > 0 ==> times[0] == at)
    && (|times| > 0 && |times| < room ==> end < next(times[|times| - 1]))
    && (at <= end && room > 0 ==> |times| > 0)
  }

  lemma ChainStarts(at: int, rest: seq<int>, line: int -> bool, next: int -> int)
    requires line(at) && Chain(rest, line, next) && (rest != [] ==> rest[0] == next(at))
    ensures Chain([at] + rest, line, next)
  {}

  lemma {:induction false} LinksAreChain(at: int, end: int, line: int -> bool, next: int -> int, room: nat)
    requires line(at) && Advances(line, next)
    ensures var times := Links(at, end, next, room);
            Chain(times, line, next) && Covers(times, next, at, end, room)
    decreases room
  {
    if at <= end && room > 0 {
      LinksAreChain(next(at), end, line, next, room - 1);
      ChainStarts(at, Links(next(at), end, next, room - 1), line, next);
    }
  }

  lemma {:induction false} ChainGrows(times: seq<int>, line: int -> bool, next: int -> int, i: nat, j: nat)
    requires Chain(times, line, next) && Advances(line, next)
    requires i < j < |times|
    ensures times[i] < times[j] && next(times[i]) <= times[j]
    decreases j
  {
    if i < j - 1 { ChainGrows(times, line, next, i, j - 1); }
    assert line(times[j - 1]) && times[j] == next(times[j - 1]);
  }

  // No line lies between a line and the next, one gap apart.
  ghost predicate Sharp(line: int -> bool, next: int -> int, gap: int) {
    forall t, u {:trigger next(t), line(u)} :: line(t) && line(u) && t != gap && t <= u < next(t) ==> u == t
  }

  // Within the range and before the cap.
  predicate Within(times: seq<int>, a: int, b: int, room: nat, t: int) {
    a <= t <= b && (|times| == room > 0 ==> t <= times[room - 1])
  }

  // Beyond a gap that a chain from a steps over.
  predicate Skipped(line: int -> bool, next: int -> int, gap: int, a: int, t: int) {
    line(gap) && a < gap < t < next(gap)
  }

  lemma ListedIsWithin(times: seq<int>, a: int, b: int, line: int -> bool, next: int -> int, room: nat, t: int)
    requires Chain(times, line, next) && Covers(times, next, a, b, room) && Advances(line, next)
    ensures t in times ==> Within(times, a, b, room, t)
  {
    if t in times && |times| == room {
      var i :| 0 <= i < |times| && times[i] == t;
      if i < room - 1 { ChainGrows(times, line, next, i, room - 1); }
    }
  }

  lemma ListedIsNotSkipped(times: seq<int>, line: int -> bool, next: int -> int, gap: int, i: nat)
    requires Chain(times, line, next) && Advances(line, next) && Sharp(line, next, gap) && i < |times|
    ensures !Skipped(line, next, gap, times[0], times[i])
  {
    if line(gap) && times[0] < gap < times[i] {
      assert line(times[i]) && times[i] < next(times[i]);
      var j := ChainLocates(times[..i + 1], line, next, gap);
      assert line(times[j]) && times[j] == gap;
      if j < i { ChainGrows(times, line, next, j, i); }
    }
  }

  lemma WithinIsListed(
    times: seq<int>, a: int, b: int, line: int -> bool, next: int -> int, gap: int, room: nat, t: int)
    requires Chain(times, line, next) && Covers(times, next, a, b, room) && Advances(line, next)
    requires Sharp(line, next, gap) && line(t) && room > 0 && a != gap && t != gap
    ensures Within(times, a, b, room, t) && !Skipped(line, next, gap, a, t) ==> t in times
  {
    if Within(times, a, b, room, t) && !Skipped(line, next, gap, a, t) {
      assert line(times[|times| - 1]) && t < next(times[|times| - 1]);
      var i := ChainLocates(times, line, next, t);
      assert line(times[i]);
      if i > 0 { ChainGrows(times, line, next, 0, i); }
    }
  }

  // A line is listed exactly when it lies within the range, before the cap and not beyond the gap.
  lemma LinksListed(a: int, b: int, line: int -> bool, next: int -> int, gap: int, room: nat, t: int)
    requires line(a) && line(t) && a != gap && t != gap && Advances(line, next) && Sharp(line, next, gap) && room > 0
    ensures var times := Links(a, b, next, room);
            && (t in times <==> Within(times, a, b, room, t) && !Skipped(line, next, gap, a, t))
            && (forall i, j :: 0 <= i < j < |times| ==> times[i] < times[j])
  {
    var times := Links(a, b, next, room);
    LinksAreChain(a, b, line, next, room);
    ListedIsWithin(times, a, b, line, next, room, t);
    WithinIsListed(times, a, b, line, next, gap, room, t);
    ChainIncreases(times, line, next);
    if t in times {
      var i :| 0 <= i < |times| && times[i] == t;
      ListedIsNotSkipped(times, line, next, gap, i);
    }
  }

  lemma {:induction false} ChainApart(times: seq<int>, line: int -> bool, next: int -> int, width: int, i: nat, j: nat)
    requires Chain(times, line, next) && i <= j < |times|
    requires forall t :: line(t) ==> next(t) - t >= width
    ensures times[j] - times[i] >= (j - i) * width
    decreases j
  {
    if i < j {
      ChainApart(times, line, next, width, i, j - 1);
      assert line(times[j - 1]);
      assert (j - i) * width == (j - 1 - i) * width + width;
    }
  }

  lemma {:induction false} ChainLocates(times: seq<int>, line: int -> bool, next: int -> int, at: int) returns (i: nat)
    requires Chain(times, line, next) && |times| > 0
    requires times[0] <= at < next(times[|times| - 1])
    ensures i < |times| && times[i] <= at < next(times[i])
    decreases |times|
  {
    var last := |times| - 1;
    if times[last] <= at { i := last; } else { i := ChainLocates(times[..last], line, next, at); }
  }

  // Lines that only move on give an increasing list, wherever it starts.
  lemma LinksIncrease(at: int, end: int, next: int -> int, room: nat)
    requires forall t {:trigger next(t)} :: t < next(t)
    ensures var times := Links(at, end, next, room);
            && (forall i, j :: 0 <= i < j < |times| ==> times[i] < times[j])
            && (forall t :: t in times ==> at <= t <= end)
  {
    var anywhere := (t: int) => true;
    LinksAreChain(at, end, anywhere, next, room);
    ChainIncreases(Links(at, end, next, room), anywhere, next);
  }

  // ---------- the grid is a chain of bucket starts ----------

  predicate IsStart(t: int, s: Scale) {
    Bucket(t, s) == t
  }

  // The lines a grid may have: starts and, on the month scale, the gap.
  function LineOf(s: Scale): int -> bool {
    (t: int) => IsStart(t, s) || (s.Month? && t == GAP)
  }

  // Those beyond the gap.
  function StartOf(s: Scale): int -> bool {
    (t: int) => IsStart(t, s) && (s.Month? ==> GAP < t)
  }

  function StepOf(s: Scale): int -> int {
    (t: int) => Step(t, s)
  }

  // It is the start of no bucket, and the step from it is as long as January and 1900 years.
  lemma MisreadStep(at: int)
    requires MisreadStart(at)
    ensures Bucket(at, Month) > at && IsStart(Step(at, Month), Month)
    ensures Step(at, Month) - at >= 2419200 + SHIFT * DAY_SECONDS
  {
    var day := BeijingDay(at);
    TwoDigitBucketIsLate(at);
    MisreadJanuary(day, NextMonth(day));
    NextOfMisread(day);
    StepOfDay(at, day);
  }

  lemma StepOfDay(at: int, day: int)
    requires at == DayInstant(day) && day < NextMonth(day)
    ensures Step(at, Month) == DayInstant(NextMonth(day)) > at
    ensures MonthStart(NextMonth(day)) == NextMonth(day) <==> IsStart(Step(at, Month), Month)
  {
    DayOfInstant(day);
    DayOfInstant(NextMonth(day));
  }

  lemma LinesAdvance(s: Scale)
    ensures Advances(LineOf(s), StepOf(s))
  {
    forall t {:trigger StepOf(s)(t)} | LineOf(s)(t) ensures t < StepOf(s)(t) && LineOf(s)(StepOf(s)(t)) {
      if IsStart(t, s) { StepIsStart(t, s); } else { GapIsMisread(t); MisreadStep(t); }
    }
  }

  lemma StartsAdvance(s: Scale)
    ensures Advances(StartOf(s), StepOf(s))
  {
    forall t | IsStart(t, s) && (s.Month? ==> GAP < t) ensures t < Step(t, s) && IsStart(Step(t, s), s) {
      StepIsStart(t, s);
    }
  }

  lemma {:induction false} GridIsLinks(at: int, end: int, s: Scale, room: nat)
    ensures GridFrom(at, end, s, room) == Links(at, end, StepOf(s), room)
    decreases room
  {
    var next := Step(at, s);
    assert StepOf(s)(at) == next;
    if at <= end && room > 0 { GridIsLinks(next, end, s, room - 1); }
  }

  // A run of consecutive bucket starts.
  ghost predicate Consecutive(times: seq<int>, s: Scale) {
    Chain(times, StartOf(s), StepOf(s))
  }

  lemma GridIsConsecutive(at: int, end: int, s: Scale, room: nat)
    requires StartOf(s)(at)
    ensures var times := GridFrom(at, end, s, room);
            && Consecutive(times, s)
            && |times| <= room
            && (forall t :: t in times ==> at <= t <= end)
            && (|times| > 0 ==> times[0] == at)
            && (|times| > 0 && |times| < room ==> end < Step(times[|times| - 1], s))
            && (at <= end && room > 0 ==> |times| > 0)
  {
    StartsAdvance(s);
    GridIsLinks(at, end, s, room);
    LinksAreChain(at, end, StartOf(s), StepOf(s), room);
  }

  lemma StartShared(start: int, at: int, s: Scale)
    requires IsStart(start, s) && start <= at < Step(start, s)
    ensures Bucket(at, s) == start
  {
    BucketIdempotent(start, s);
    BucketShared(start, at, s);
  }

  // An instant between the first grid line and the end of the last bucket lies in exactly one listed bucket.
  lemma LocateBucket(times: seq<int>, s: Scale, at: int) returns (i: nat)
    requires Consecutive(times, s) && |times| > 0
    requires times[0] <= at < Step(times[|times| - 1], s)
    ensures i < |times| && times[i] == Bucket(at, s)
    ensures forall j :: 0 <= j < |times| && times[j] == Bucket(at, s) ==> j == i
  {
    StartsAdvance(s);
    i := ChainLocates(times, StartOf(s), StepOf(s), at);
    StartShared(times[i], at, s);
    OnceOnly(times, StartOf(s), StepOf(s), i);
  }

  lemma OnceOnly(times: seq<int>, line: int -> bool, next: int -> int, i: nat)
    requires Chain(times, line, next) && Advances(line, next) && i < |times|
    ensures forall j :: 0 <= j < |times| && times[j] == times[i] ==> j == i
  {
    forall j | 0 <= j < |times| && times[j] == times[i] ensures j == i {
      if j < i { ChainGrows(times, line, next, j, i); }
      if i < j { ChainGrows(times, line, next, i, j); }
    }
  }

  lemma ChainIncreases(times: seq<int>, line: int -> bool, next: int -> int)
    requires Chain(times, line, next) && Advances(line, next)
    ensures forall i, j :: 0 <= i < j < |times| ==> times[i] < times[j]
  {
    forall i, j | 0 <= i < j < |times| ensures times[i] < times[j] { ChainGrows(times, line, next, i, j); }
  }

  // An instant that starts no bucket of a fixed width, or the gap.
  function Hole(s: Scale): int {
    if s.Month? then GAP else 1 - BEIJING
  }

  lemma HoleIsNoStart(s: Scale)
    ensures !IsStart(Hole(s), s)
  {
    if s.Month? { GapIsMisread(Hole(s)); MisreadStep(Hole(s)); }
  }

  lemma SteppedOverIff(s: Scale, a: int, t: int)
    ensures Skipped(LineOf(s), StepOf(s), Hole(s), a, t) <==> SteppedOver(a, t, s)
  {
    HoleIsNoStart(s);
  }

  lemma LinesAreSharp(s: Scale)
    ensures Sharp(LineOf(s), StepOf(s), Hole(s))
  {
    forall t, u {:trigger StepOf(s)(t), LineOf(s)(u)}
      | LineOf(s)(t) && LineOf(s)(u) && t != Hole(s) && t <= u < StepOf(s)(t)
      ensures u == t
    {
      StartShared(t, u, s);
      if !IsStart(u, s) { GapIsMisread(u); MisreadStep(u); }
    }
  }

  lemma BucketIsStart(at: int, s: Scale)
    ensures IsStart(Bucket(at, s), s)
  {
    BucketIdempotent(at, s);
  }

  // Whether a bucket lies in the years that a grid from an earlier bucket steps over.
  predicate SteppedOver(start: int, t: int, s: Scale) {
    s.Month? && start < GAP < t < Step(GAP, Month)
  }

  lemma StartsListed(a: int, b: int, s: Scale, t: int)
    requires IsStart(a, s) && IsStart(t, s)
    ensures var times := GridFrom(a, b, s, GRID_CAP);
            && (t in times <==> Within(times, a, b, GRID_CAP, t) && !SteppedOver(a, t, s))
            && (forall i, j :: 0 <= i < j < |times| ==> times[i] < times[j])
  {
    LinesAdvance(s);
    LinesAreSharp(s);
    HoleIsNoStart(s);
    SteppedOverIff(s, a, t);
    GridIsLinks(a, b, s, GRID_CAP);
    LinksListed(a, b, LineOf(s), StepOf(s), Hole(s), GRID_CAP, t);
  }

  lemma BucketsListed(start: int, end: int, s: Scale, at: int)
    ensures var times := GridFrom(Bucket(start, s), end, s, GRID_CAP);
            && (Bucket(at, s) in times
                <==> Within(times, Bucket(start, s), end, GRID_CAP, Bucket(at, s))
                     && !SteppedOver(Bucket(start, s), Bucket(at, s), s))
            && (forall i, j :: 0 <= i < j < |times| ==> times[i] < times[j])
  {
    BucketIsStart(start, s);
    BucketIsStart(at, s);
    StartsListed(Bucket(start, s), end, s, Bucket(at, s));
  }

  // The grid of a window is a partition, whatever the window: an instant's bucket is listed, exactly once, when it
  // lies between the buckets of the window's two ends, the cap was not reached before it, and it is not one of the
  // months from the year 100 to January 1900 in a grid that begins before the year 0; otherwise it is not listed.
  lemma GridPartition(start: real, end: real, s: Scale, at: int)
    ensures var times := GridFrom(BucketOf(start, s), BucketOf(end, s), s, GRID_CAP);
            && (Bucket(at, s) in times
                <==> Within(times, BucketOf(start, s), BucketOf(end, s), GRID_CAP, Bucket(at, s))
                     && !SteppedOver(BucketOf(start, s), Bucket(at, s), s))
            && (forall i, j :: 0 <= i < j < |times| ==> times[i] < times[j])
  {
    BucketsListed(start.Floor, BucketOf(end, s), s, at);
  }

  // With a fixed-width scale that fits, the cap of 5000 is never reached: at most 4501 buckets are needed.
  lemma FittingGridIsSmall(start: real, end: real, s: Scale)
    requires !s.Month? && Fits(end - start, s)
    ensures |GridFrom(BucketOf(start, s), BucketOf(end, s), s, GRID_CAP)| <= 4501
  {
    var n := Seconds(s);
    assert end - start <= 4500.0 * n as real;
    assert end.Floor as real - start.Floor as real < 4500.0 * n as real + 1.0;
    assert (end.Floor - start.Floor) as real < (4500 * n + 1) as real;
    FixedGridLength(BucketOf(start, s), BucketOf(end, s), s, GRID_CAP);
  }

  lemma {:induction false} FixedGridLength(at: int, end: int, s: Scale, room: nat)
    requires !s.Month?
    ensures var n := |GridFrom(at, end, s, room)|; n <= 0 || (n - 1) * Seconds(s) <= end - at
    decreases room
  {
    if at <= end && room > 0 {
      FixedGridLength(Step(at, s), end, s, room - 1);
      var rest := GridFrom(Step(at, s), end, s, room - 1);
      assert |GridFrom(at, end, s, room)| == 1 + |rest|;
      assert |rest| * Seconds(s) == (|rest| - 1) * Seconds(s) + Seconds(s);
    }
  }

  // ---------- month grids of zoomed windows ----------

  // Lines whose places are 28 days apart or more are few between two places.
  lemma LongLinksAreFew(
    a: int, b: int, line: int -> bool, next: int -> int, place: int -> int, room: nat, start: int, end: int)
    requires line(a) && Advances(line, next)
    requires forall t {:trigger next(t)} :: line(t) ==> place(next(t)) - place(t) >= 2419200
    requires start < place(next(a)) && end - start <= 3665 * 86400
    requires forall t {:trigger line(t)} :: line(t) && a <= t <= b ==> place(t) <= end
    ensures |Links(a, b, next, room)| <= 132
  {
    var times := Links(a, b, next, room);
    LinksAreChain(a, b, line, next, room);
    if |times| > 132 {
      assert times[132] in times && line(times[132]) && line(times[0]);
      assert times[1] == next(times[0]) && times[0] == a;
      assert a <= times[132] <= b;
      PlacesApart(times, line, next, place, 1, 132);
    }
  }

  lemma {:induction false} PlacesApart(
    times: seq<int>, line: int -> bool, next: int -> int, place: int -> int, i: nat, j: nat)
    requires Chain(times, line, next) && i <= j < |times|
    requires forall t {:trigger next(t)} :: line(t) ==> place(next(t)) - place(t) >= 2419200
    ensures place(times[j]) - place(times[i]) >= (j - i) * 2419200
    decreases j
  {
    if i < j {
      PlacesApart(times, line, next, place, i, j - 1);
      assert line(times[j - 1]) && times[j] == next(times[j - 1]);
    }
  }

  // A line's place is its instant or, in a grid that runs into the misread years, what it was misread from.
  function Unmoved(): int -> int {
    (t: int) => t
  }

  function Moved(from: int): int -> int {
    (t: int) => if t <= from then t else t - SHIFT * DAY_SECONDS
  }

  lemma MonthIsLong(start: int)
    requires Bucket(start, Month) == start
    ensures Step(start, Month) - start >= 2419200
  {
    BucketIdempotent(start, Month);
    MonthHoldsDay(BeijingDay(start));
  }

  // No line before the gap is followed by one beyond it.
  lemma GapIsReached(t: int)
    requires IsStart(t, Month) && t < GAP
    ensures Step(t, Month) <= GAP
  {
    if GAP < Step(t, Month) {
      StartShared(t, GAP, Month);
      GapIsMisread(GAP);
      MisreadStep(GAP);
    }
  }

  lemma UnmovedApart()
    ensures forall t {:trigger StepOf(Month)(t)} :: LineOf(Month)(t)
              ==> Unmoved()(StepOf(Month)(t)) - Unmoved()(t) >= 2419200
  {
    forall t | LineOf(Month)(t) ensures Step(t, Month) - t >= 2419200 {
      if IsStart(t, Month) { MonthIsLong(t); } else { GapIsMisread(t); MisreadStep(t); }
    }
  }

  lemma MovedApart()
    ensures forall t {:trigger StepOf(Month)(t)} :: LineOf(Month)(t)
              ==> Moved(GAP)(StepOf(Month)(t)) - Moved(GAP)(t) >= 2419200
  {
    forall t | LineOf(Month)(t) ensures Moved(GAP)(Step(t, Month)) - Moved(GAP)(t) >= 2419200 {
      if t == GAP {
        GapIsMisread(t);
        MisreadStep(t);
      } else {
        MonthIsLong(t);
        if t < GAP { GapIsReached(t); }
      }
    }
  }

  // A window between two instants whose month buckets hold them.
  lemma PlainMonthGrid(start: int, end: int)
    requires Plain(start, Month) && Plain(end, Month) && end - start <= 3661 * 86400
    ensures |GridFrom(Bucket(start, Month), Bucket(end, Month), Month, GRID_CAP)| <= 132
  {
    var a, b := Bucket(start, Month), Bucket(end, Month);
    BucketHolds(start, Month);
    BucketHolds(end, Month);
    BucketIdempotent(start, Month);
    LinesAdvance(Month);
    UnmovedApart();
    GridIsLinks(a, b, Month, GRID_CAP);
    LongLinksAreFew(a, b, LineOf(Month), StepOf(Month), Unmoved(), GRID_CAP, start, end);
  }

  lemma MisreadBucket(at: int)
    requires !Plain(at, Month)
    ensures DayInstant(BeijingDay(at) - 30 + SHIFT) <= Bucket(at, Month) <= DayInstant(BeijingDay(at) + SHIFT + 1)
    ensures GAP <= at && GAP < Bucket(at, Month)
  {
    TwoDigitStartsNear(BeijingDay(at));
    AfterYearZero(BeijingDay(at));
    TwoDigitBucketIsLate(at);
  }

  lemma AfterYearZero(day: int)
    requires TwoDigitYear(day)
    ensures YEAR_ZERO <= day
  {
    YearZeroStart();
    YearsGrow(0, YearFromDay(day));
  }

  lemma BeforeYearZero(day: int, other: int)
    requires !TwoDigitYear(day) && TwoDigitYear(other) && day <= other
    ensures day < YEAR_ZERO
  {
    YearMonotone(day, other);
    YearZeroStart();
    YearsGrow(YearFromDay(day) + 1, 0);
  }

  lemma DayNumbers(start: int, end: int, days: int)
    requires start <= end <= start + days * DAY_SECONDS
    ensures BeijingDay(start) <= BeijingDay(end) <= BeijingDay(start) + days + 1
  {}

  lemma MovedGrid(a: int, b: int, start: int, end: int)
    requires IsStart(a, Month) && start < Moved(GAP)(Step(a, Month)) && end - start <= 3665 * 86400
    requires GAP <= end && b - SHIFT * DAY_SECONDS <= end
    ensures |GridFrom(a, b, Month, GRID_CAP)| <= 132
  {
    LinesAdvance(Month);
    MovedApart();
    GridIsLinks(a, b, Month, GRID_CAP);
    assert forall t :: t <= b ==> Moved(GAP)(t) <= end;
    LongLinksAreFew(a, b, LineOf(Month), StepOf(Month), Moved(GAP), GRID_CAP, start, end);
  }

  lemma MisreadFirst(start: int)
    requires !Plain(start, Month)
    ensures var a := Bucket(start, Month);
            IsStart(a, Month) && DayInstant(BeijingDay(start) - 2) - 1 < Moved(GAP)(Step(a, Month))
  {
    MisreadBucket(start);
    BucketIdempotent(start, Month);
    MonthIsLong(Bucket(start, Month));
  }

  // A window within the misread years.
  lemma MisreadMonthGrid(start: int, end: int)
    requires !Plain(start, Month) && !Plain(end, Month) && start <= end <= start + 3660 * 86400 + 1
    ensures |GridFrom(Bucket(start, Month), Bucket(end, Month), Month, GRID_CAP)| <= 132
  {
    var d, e := BeijingDay(start), BeijingDay(end);
    MisreadFirst(start);
    MisreadBucket(end);
    DayNumbers(start, end, 3661);
    MovedGrid(Bucket(start, Month), Bucket(end, Month), DayInstant(d - 2) - 1, DayInstant(e + 1));
  }

  // A window that runs into the misread years.
  lemma EnteringMonthGrid(start: int, end: int)
    requires Plain(start, Month) && !Plain(end, Month) && start <= end <= start + 3660 * 86400 + 1
    ensures |GridFrom(Bucket(start, Month), Bucket(end, Month), Month, GRID_CAP)| <= 132
  {
    var a, b, e := Bucket(start, Month), Bucket(end, Month), BeijingDay(end);
    MisreadBucket(end);
    BucketHolds(start, Month);
    BucketIdempotent(start, Month);
    DayMonotone(start, end);
    BeforeYearZero(BeijingDay(start), e);
    GapIsReached(a);
    MovedGrid(a, b, start, DayInstant(e + 1));
  }

  // A window that runs out of the misread years has an empty grid: its first bucket lies beyond its end.
  lemma LeavingMonthGrid(start: int, end: int)
    requires !Plain(start, Month) && Plain(end, Month) && start <= end <= start + 3660 * 86400 + 1
    ensures GridFrom(Bucket(start, Month), Bucket(end, Month), Month, GRID_CAP) == []
  {
    MisreadBucket(start);
    BucketHolds(end, Month);
  }

  // A zoomed window needs at most 132 month buckets, wherever it lies.
  lemma ZoomedMonthGridIsSmall(start: real, end: real)
    requires start <= end <= start + MAX_ZOOM
    ensures |GridFrom(BucketOf(start, Month), BucketOf(end, Month), Month, GRID_CAP)| <= 132
  {
    var a, b := start.Floor, end.Floor;
    assert a <= b <= a + 3660 * 86400 + 1;
    if Plain(a, Month) {
      if Plain(b, Month) { PlainMonthGrid(a, b); } else { EnteringMonthGrid(a, b); }
    } else {
      if Plain(b, Month) { LeavingMonthGrid(a, b); } else { MisreadMonthGrid(a, b); }
    }
  }
}
