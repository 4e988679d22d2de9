/** The suggested top-up: amounts read from text, and the least number of cents that covers the monthly fee. */
module TopUp {
  import opened Optional
  import opened Decimals

  const MAX_SAFE := 9_007_199_254_740_991
  const MAX_CENTS := 50_000

  // ---------- the first number in a text ----------

  // A matched number and the span of the text it was read from.
  datatype Match = Match(negative: bool, whole: string, fraction: string, start: nat, stop: nat)

  function WithoutCommas(text: string): string {
    if text == "" then "" else (if text[0] == ',' then "" else [text[0]]) + WithoutCommas(text[1..])
  }

  // Where the digits that start at i end.
  function DigitsEnd(text: string, i: nat): (end: nat)
    requires i <= |text|
    ensures i <= end <= |text| && AllDigits(text[i..end])
    ensures end < |text| ==> !IsDigit(text[end])
    ensures i < |text| && IsDigit(text[i]) ==> i < end
    decreases |text| - i
  {
    if i < |text| && IsDigit(text[i]) then DigitsEnd(text, i + 1) else i
  }

  // A number can start here: a digit, or a minus sign and a digit.
  predicate StartsAt(text: string, p: nat) {
    p < |text| && (IsDigit(text[p]) || (text[p] == '-' && p + 1 < |text| && IsDigit(text[p + 1])))
  }

  function FirstStart(text: string, p: nat): (start: nat)
    requires p <= |text|
    ensures p <= start <= |text| && (start < |text| ==> StartsAt(text, start))
    ensures forall q :: p <= q < start ==> !StartsAt(text, q)
    decreases |text| - p
  {
    if p == |text| || StartsAt(text, p) then p else FirstStart(text, p + 1)
  }

  function Printed(m: Match): string {
    (if m.negative then "-" else "") + m.whole + if m.fraction == "" then "" else "." + m.fraction
  }

  // Where a number whose digits end at `point` ends: there, or after a point and the digits that follow it.
  function Stop(text: string, point: nat): (stop: nat)
    requires point <= |text| && (point < |text| ==> !IsDigit(text[point]))
    ensures point <= stop <= |text| && stop != point + 1
    ensures stop > point ==> text[point] == '.' && AllDigits(text[point + 1..stop])
    ensures stop < |text| ==> !IsDigit(text[stop])
    ensures stop == point && point + 1 < |text| && text[point] == '.' ==> !IsDigit(text[point + 1])
  {
    if point + 1 < |text| && text[point] == '.' && IsDigit(text[point + 1]) then DigitsEnd(text, point + 1) else point
  }

  // The match is what stands in the text, and no digit is left over at its end.
  function MatchAt(text: string, start: nat): (m: Match)
    requires StartsAt(text, start)
    ensures AllDigits(m.whole) && AllDigits(m.fraction) && m.whole != ""
    ensures m.start == start && m.stop <= |text| && (m.stop < |text| ==> !IsDigit(text[m.stop]))
    ensures start <= m.stop && text[start..m.stop] == Printed(m)
    ensures m.fraction == "" && m.stop + 1 < |text| && text[m.stop] == '.' ==> !IsDigit(text[m.stop + 1])
  {
    var negative := text[start] == '-';
    var from := if negative then start + 1 else start;
    var point := DigitsEnd(text, from);
    var stop := Stop(text, point);
    PartsJoin(text, start, from, point, stop);
    Match(negative, text[from..point], if stop == point then "" else text[point + 1..stop], start, stop)
  }

  lemma PartsJoin(text: string, start: nat, from: nat, point: nat, stop: nat)
    requires start <= from <= point <= stop <= |text|
    ensures text[start..stop] == text[start..from] + text[from..point] + text[point..stop]
    ensures stop > point ==> text[point..stop] == [text[point]] + text[point + 1..stop]
    ensures from == start ==> text[start..from] == ""
    ensures from == start + 1 ==> text[start..from] == [text[start]]
  {
    SliceJoins(text, start, from, point);
    SliceJoins(text, start, point, stop);
    FirstApart(text, point, stop);
    FirstApart(text, start, from);
  }

  lemma FirstApart(text: string, a: nat, b: nat)
    requires a <= b <= |text|
    ensures b > a ==> text[a..b] == [text[a]] + text[a + 1..b]
    ensures b == a ==> text[a..b] == ""
    ensures b == a + 1 ==> text[a..b] == [text[a]]
  {}

  lemma SliceJoins(text: string, a: nat, b: nat, c: nat)
    requires a <= b <= c <= |text|
    ensures text[a..b] + text[b..c] == text[a..c]
  {}

  function FindNumber(text: string): (m: Option<Match>)
    ensures m.Some? ==> AllDigits(m.value.whole) && AllDigits(m.value.fraction) && m.value.whole != ""
  {
    var start := FirstStart(text, 0);
    if start == |text| then None else Some(MatchAt(text, start))
  }

  // There is a number exactly if there is a digit, and it is the first that can start.
  lemma NumberIsFirst(text: string)
    ensures FindNumber(text).None? <==> forall p :: 0 <= p < |text| ==> !IsDigit(text[p])
    ensures FindNumber(text).Some? ==>
              var m := FindNumber(text).value;
              text[m.start..m.stop] == Printed(m) && (forall q :: 0 <= q < m.start ==> !StartsAt(text, q))
  {
    var start := FirstStart(text, 0);
    if start == |text| {
      forall p | 0 <= p < |text| ensures !IsDigit(text[p]) { assert !StartsAt(text, p); }
    }
  }

  // ---------- what the text says, apart from how it is scanned ----------

  // `plain` is what is left of the text without its commas: `places` lists where its characters stand.
  ghost predicate LeavesOut(text: string, plain: string, places: seq<nat>) {
    && |places| == |plain|
    && (forall j, k :: 0 <= j < k < |places| ==> places[j] < places[k])
    && (forall k :: 0 <= k < |places| ==> places[k] < |text| && text[places[k]] == plain[k] != ',')
    && (forall p: nat :: p < |text| && text[p] != ',' ==> p in places)
  }

  // The number's span: an optional minus sign, digits, and a point with further digits, none of which can be longer.
  ghost predicate Spans(text: string, m: Match) {
    && m.start <= m.stop <= |text| && text[m.start..m.stop] == Printed(m)
    && AllDigits(m.whole) && AllDigits(m.fraction) && m.whole != ""
    && (m.stop < |text| ==> !IsDigit(text[m.stop]))
    && (m.fraction == "" && m.stop + 1 < |text| && text[m.stop] == '.' ==> !IsDigit(text[m.stop + 1]))
    && (!m.negative && m.start > 0 ==> text[m.start - 1] != '-')
  }

  // The first number in a text: no digit stands before it.
  ghost predicate IsFirstNumber(text: string, m: Match) {
    Spans(text, m) && forall q :: 0 <= q < m.start ==> !IsDigit(text[q])
  }

  lemma {:induction false} WithoutCommasJoins(a: string, b: string)
    ensures WithoutCommas(a + b) == WithoutCommas(a) + WithoutCommas(b)
  {
    if a == "" {
      assert a + b == b;
    } else {
      assert (a + b)[1..] == a[1..] + b;
      WithoutCommasJoins(a[1..], b);
    }
  }

  lemma OneCharacter(c: char)
    ensures WithoutCommas([c]) == if c == ',' then "" else [c]
  {
    assert [c][1..] == "";
  }

  lemma WithoutCommasSnoc(text: string, n: nat)
    requires |text| == n + 1
    ensures WithoutCommas(text) == WithoutCommas(text[..n]) + if text[n] == ',' then "" else [text[n]]
  {
    assert text == text[..n] + [text[n]];
    WithoutCommasJoins(text[..n], [text[n]]);
    OneCharacter(text[n]);
  }

  lemma LeavesOutMore(text: string, plain: string, places: seq<nat>, n: nat)
    requires |text| == n + 1 && LeavesOut(text[..n], plain, places)
    ensures if text[n] == ',' then LeavesOut(text, plain, places)
            else LeavesOut(text, plain + [text[n]], places + [n])
  {
    forall p: nat | p < |text| && text[p] != ',' ensures p in places + [n] {
      if p < n { assert text[..n][p] == text[p]; } else { assert (places + [n])[|places|] == p; }
    }
  }

  lemma LeavesOutLess(text: string, plain: string, places: seq<nat>, n: nat)
    requires |text| == n + 1 && LeavesOut(text, plain, places)
    ensures text[n] == ',' ==> LeavesOut(text[..n], plain, places)
    ensures text[n] != ',' ==> plain != "" && plain[|plain| - 1] == text[n]
                               && LeavesOut(text[..n], plain[..|plain| - 1], places[..|plain| - 1])
  {
    if text[n] != ',' { LastPlace(text, plain, places, n); }
  }

  lemma LastPlace(text: string, plain: string, places: seq<nat>, n: nat)
    requires |text| == n + 1 && LeavesOut(text, plain, places) && text[n] != ','
    ensures plain != "" && plain[|plain| - 1] == text[n]
    ensures LeavesOut(text[..n], plain[..|plain| - 1], places[..|plain| - 1])
  {
    var k :| 0 <= k < |places| && places[k] == n;
    var last := |places| - 1;
    assert places[last] <= places[k];
    forall p: nat | p < n && text[p] != ',' ensures p in places[..last] {
      var j :| 0 <= j < |places| && places[j] == p;
      assert places[..last][j] == p;
    }
  }

  // The scan for commas leaves out the commas and nothing else, and that is the only way to leave them out.
  lemma {:induction false} CommasLeftOut(text: string) returns (places: seq<nat>)
    ensures LeavesOut(text, WithoutCommas(text), places)
    decreases |text|
  {
    if text == "" { return []; }
    var n := |text| - 1;
    places := CommasLeftOut(text[..n]);
    LeavesOutMore(text, WithoutCommas(text[..n]), places, n);
    WithoutCommasSnoc(text, n);
    if text[n] != ',' { places := places + [n]; }
  }

  lemma {:induction false} OneWayToLeaveOut(text: string, plain: string, places: seq<nat>)
    requires LeavesOut(text, plain, places)
    ensures plain == WithoutCommas(text)
    decreases |text|
  {
    if text != "" {
      var n := |text| - 1;
      LeavesOutLess(text, plain, places, n);
      WithoutCommasSnoc(text, n);
      if text[n] == ',' { OneWayToLeaveOut(text[..n], plain, places); }
      else { OneWayToLeaveOut(text[..n], plain[..|plain| - 1], places[..|plain| - 1]); }
    }
  }

  lemma {:induction false} EndIs(text: string, i: nat, end: nat)
    requires i <= end <= |text| && (end < |text| ==> !IsDigit(text[end]))
    requires forall k :: i <= k < end ==> IsDigit(text[k])
    ensures DigitsEnd(text, i) == end
    decreases end - i
  {
    if i < end { EndIs(text, i + 1, end); }
  }

  function Tail(m: Match): string {
    if m.fraction == "" then "" else "." + m.fraction
  }

  lemma Layout(m: Match)
    requires AllDigits(m.whole) && m.whole != ""
    ensures var text, from := Printed(m), if m.negative then 1 else 0;
            var point := from + |m.whole|;
            && point <= |text| && text[from..point] == m.whole && text[point..] == Tail(m)
            && (text[0] == '-' <==> m.negative)
  {
    var text, from := Printed(m), if m.negative then 1 else 0;
    assert text[from] == m.whole[0];
  }

  function Point(m: Match): nat {
    m.start + (if m.negative then 1 else 0) + |m.whole|
  }

  lemma SpanLayout(text: string, m: Match)
    requires Spans(text, m)
    ensures var from := m.start + if m.negative then 1 else 0;
            && from < Point(m) <= m.stop && text[from..Point(m)] == m.whole && text[Point(m)..m.stop] == Tail(m)
            && (text[m.start] == '-' <==> m.negative)
  {
    Layout(m);
    InnerSlices(text, m.start, m.stop, if m.negative then 1 else 0, Point(m) - m.start, Printed(m));
  }

  lemma InnerSlices(text: string, start: nat, stop: nat, i: nat, j: nat, shown: string)
    requires start <= stop <= |text| && text[start..stop] == shown && i < j <= |shown|
    ensures start + j <= stop && text[start] == shown[0]
    ensures text[start + i..start + j] == shown[i..j] && text[start + j..stop] == shown[j..]
  {
    assert forall k :: start <= k < stop ==> text[k] == text[start..stop][k - start];
  }

  lemma SpanDigits(text: string, from: nat, point: nat, whole: string)
    requires from < point <= |text| && text[from..point] == whole && AllDigits(whole)
    ensures forall k :: from <= k < point ==> IsDigit(text[k])
  {
    forall k | from <= k < point ensures IsDigit(text[k]) { assert text[k] == whole[k - from]; }
  }

  lemma StopIs(text: string, m: Match)
    requires Spans(text, m) && Point(m) <= m.stop && text[Point(m)..m.stop] == Tail(m)
    ensures Point(m) < |text| ==> !IsDigit(text[Point(m)])
    ensures Stop(text, Point(m)) == m.stop
    ensures m.fraction != "" ==> Point(m) < m.stop && text[Point(m) + 1..m.stop] == m.fraction
  {
    var point := Point(m);
    if m.fraction != "" {
      assert text[point] == Tail(m)[0];
      assert text[point + 1..m.stop] == Tail(m)[1..];
      SpanDigits(text, point + 1, m.stop, m.fraction);
      assert IsDigit(text[point + 1]);
      EndIs(text, point + 1, m.stop);
    }
  }

  lemma MatchIs(text: string, m: Match)
    requires Spans(text, m)
    ensures StartsAt(text, m.start) && MatchAt(text, m.start) == m
  {
    var from := m.start + if m.negative then 1 else 0;
    SpanLayout(text, m);
    StopIs(text, m);
    SpanDigits(text, from, Point(m), m.whole);
    assert IsDigit(text[from]);
    EndIs(text, from, Point(m));
  }

  // The scan finds the first number of the text, and no other reading of the text is that.
  lemma FirstIsFound(text: string)
    ensures FindNumber(text).Some? ==> IsFirstNumber(text, FindNumber(text).value)
  {
    NumberIsFirst(text);
    if FindNumber(text).Some? {
      var m := FindNumber(text).value;
      forall q | 0 <= q < m.start ensures !IsDigit(text[q]) { assert !StartsAt(text, q); }
      if !m.negative && m.start > 0 {
        assert text[m.start] == m.whole[0] by { assert text[m.start] == Printed(m)[0]; }
        assert !StartsAt(text, m.start - 1);
      }
    }
  }

  lemma FirstStartIs(text: string, start: nat)
    requires StartsAt(text, start) && forall q :: 0 <= q < start ==> !StartsAt(text, q)
    ensures FirstStart(text, 0) == start
  {}

  lemma NoEarlierStart(text: string, m: Match)
    requires IsFirstNumber(text, m) && m.start < |text| && (text[m.start] == '-' <==> m.negative)
    ensures forall q :: 0 <= q < m.start ==> !StartsAt(text, q)
  {
    forall q | 0 <= q < m.start ensures !StartsAt(text, q) {
      if q + 1 == m.start { assert IsDigit(text[m.start]) ==> !m.negative; }
    }
  }

  lemma OnlyFirstIsFound(text: string, m: Match)
    requires IsFirstNumber(text, m)
    ensures FindNumber(text) == Some(m)
  {
    MatchIs(text, m);
    SpanLayout(text, m);
    NoEarlierStart(text, m);
    FirstStartIs(text, m.start);
  }

  // ---------- ten-thousandths ----------

  function Zeros(n: nat): (s: string)
    ensures |s| == n && AllDigits(s) && Value(s) == 0
  {
    if n == 0 then "" else
      var before := Zeros(n - 1);
      assert (before + "0")[..n - 1] == before;
      before + "0"
  }

  // Filled with zeros up to four digits.
  function Padded(fraction: string): (s: string)
    requires AllDigits(fraction)
    ensures |s| >= 4 && AllDigits(s)
  {
    fraction + Zeros(if |fraction| < 4 then 4 - |fraction| else 0)
  }

  function FirstFour(fraction: string): nat
    requires AllDigits(fraction)
  {
    Value(Padded(fraction)[..4])
  }

  function Magnitude(m: Match): nat
    requires AllDigits(m.whole) && AllDigits(m.fraction)
  {
    Value(m.whole) * 10_000 + FirstFour(m.fraction)
  }

  function Signed(m: Match): int
    requires AllDigits(m.whole) && AllDigits(m.fraction)
  {
    var scaled: int := Magnitude(m);
    if m.negative then -scaled else scaled
  }

  function TenThousandths(text: string): Option<int> {
    match FindNumber(WithoutCommas(text))
    case None => None
    case Some(m) => if Value(m.whole) > MAX_SAFE then None else Some(Signed(m))
  }

  // Digits beyond the fourth that are not all zero.
  predicate Dropped(fraction: string)
    requires AllDigits(fraction)
  {
    |fraction| > 4 && Value(fraction[4..]) != 0
  }

  // The amount the text names, in ten-thousandths, before any digit is dropped.
  function Exact(m: Match): real
    requires AllDigits(m.whole) && AllDigits(m.fraction)
  {
    Power10Positive(|m.fraction|);
    var size :=
      Value(m.whole) as real * 10_000.0 + (Value(m.fraction) * 10_000) as real / Power10(|m.fraction|) as real;
    if m.negative then -size else size
  }

  lemma {:induction false} ValueSplits(a: string, b: string)
    requires AllDigits(a) && AllDigits(b)
    ensures AllDigits(a + b) && Value(a + b) == Value(a) * Power10(|b|) + Value(b)
    ensures Value(b) < Power10(|b|)
    decreases |b|
  {
    if b == "" {
      assert a + b == a;
    } else {
      var n := |b| - 1;
      ValueSplits(a, b[..n]);
      assert (a + b)[..|a + b| - 1] == a + b[..n];
      assert Power10(|b|) == 10 * Power10(n);
      TenTimes(Value(a), Power10(n));
    }
  }

  lemma TenTimes(x: nat, y: nat)
    ensures x * (10 * y) == 10 * (x * y)
  {}

  lemma FrontOf(a: string, b: string)
    ensures |a| >= 4 ==> (a + b)[..4] == a[..4]
    ensures |a| + |b| == 4 ==> (a + b)[..4] == a + b
  {}

  lemma LongFront(fraction: string)
    requires AllDigits(fraction) && |fraction| > 4
    ensures FirstFour(fraction) == Value(fraction[..4]) && fraction == fraction[..4] + fraction[4..]
  {
    FrontOf(fraction, Zeros(0));
  }

  lemma ShortFront(fraction: string)
    requires AllDigits(fraction) && |fraction| <= 4
    ensures FirstFour(fraction) == Value(fraction + Zeros(4 - |fraction|))
  {
    FrontOf(fraction, Zeros(4 - |fraction|));
  }

  lemma LongFraction(head: string, tail: string)
    requires AllDigits(head) && AllDigits(tail) && |head| == 4
    ensures AllDigits(head + tail)
    ensures var p, f, v := Power10(|head + tail|), Value(head), Value(head + tail) * 10_000;
            f * p <= v < f * p + p && (f * p < v <==> Value(tail) != 0)
  {
    ValueSplits(head, tail);
    PowerSplits(4, |tail|);
    PowerOfFour();
    LongArithmetic(Value(head), Value(tail), Power10(|tail|), Power10(|head + tail|), Value(head + tail));
  }

  lemma ShortFraction(fraction: string, zeros: string)
    requires AllDigits(fraction) && AllDigits(zeros) && Value(zeros) == 0 && |fraction| + |zeros| == 4
    ensures AllDigits(fraction + zeros)
    ensures Value(fraction + zeros) * Power10(|fraction|) == Value(fraction) * 10_000
  {
    ValueSplits(fraction, zeros);
    PowerSplits(|fraction|, |zeros|);
    PowerOfFour();
    Exchange(Value(fraction), Power10(|zeros|), Power10(|fraction|), Value(fraction + zeros));
  }

  lemma PowerOfFour()
    ensures Power10(4) == 10_000
  {
    assert Power10(2) == 100;
  }

  lemma FirstFourOfLong(fraction: string)
    requires AllDigits(fraction) && |fraction| > 4
    ensures var p, f, v := Power10(|fraction|), FirstFour(fraction), Value(fraction) * 10_000;
            f * p <= v < f * p + p && (f * p < v <==> Dropped(fraction))
  {
    LongFront(fraction);
    LongFraction(fraction[..4], fraction[4..]);
  }

  lemma FirstFourOfShort(fraction: string)
    requires AllDigits(fraction) && |fraction| <= 4
    ensures FirstFour(fraction) * Power10(|fraction|) == Value(fraction) * 10_000
  {
    ShortFront(fraction);
    ShortFraction(fraction, Zeros(4 - |fraction|));
  }

  // Cutting a fraction to four digits rounds down, and loses something exactly if a dropped digit is not zero.
  lemma FirstFourRoundsDown(fraction: string)
    requires AllDigits(fraction)
    ensures var p, f, v := Power10(|fraction|), FirstFour(fraction), Value(fraction) * 10_000;
            f * p <= v < f * p + p && (f * p < v <==> Dropped(fraction))
  {
    Power10Positive(|fraction|);
    if |fraction| > 4 { FirstFourOfLong(fraction); } else { FirstFourOfShort(fraction); }
  }

  lemma LongArithmetic(h: nat, t: nat, q: nat, p: nat, v: nat)
    requires v == h * q + t && t < q && p == 10_000 * q
    ensures h * p <= v * 10_000 < h * p + p && (h * p < v * 10_000 <==> t != 0)
  {
    assert h * p == 10_000 * (h * q);
  }

  lemma Exchange(v: nat, z: nat, p: nat, f: nat)
    requires p * z == 10_000 && f == v * z
    ensures f * p == v * 10_000
  {
    assert (v * z) * p == v * (p * z);
  }

  lemma {:induction false} ZerosAreZero(s: string)
    requires forall i :: 0 <= i < |s| ==> s[i] == '0'
    ensures AllDigits(s) && Value(s) == 0
  {
    if s != "" { ZerosAreZero(s[..|s| - 1]); }
  }

  lemma {:induction false} PowerSplits(a: nat, b: nat)
    ensures Power10(a + b) == Power10(a) * Power10(b)
    decreases a
  {
    if a > 0 {
      PowerSplits(a - 1, b);
      assert (10 * Power10(a - 1)) * Power10(b) == 10 * (Power10(a - 1) * Power10(b));
    }
  }

  // ---------- the suggestion ----------

  datatype Suggestion = Suggestion(cents: nat, alreadyCovered: bool)

  // Fee and balance in ten-thousandths.
  function Suggest(fee: int, balance: int): Option<Suggestion> {
    var shortfall := fee - balance;
    if shortfall <= 0 then Some(Suggestion(0, true)) else
      var cents := (shortfall + 99) / 100;
      if cents <= 0 || cents > MAX_CENTS then None else Some(Suggestion(cents, false))
  }

  // What the parser keeps of a balance: at most the exact amount, and less than one ten-thousandth below it;
  // for a negative balance the other way round.
  lemma TruncationIsClose(m: Match)
    requires AllDigits(m.whole) && AllDigits(m.fraction)
    ensures var t := Magnitude(m) as real;
            && (!m.negative ==> t <= Exact(m) < t + 1.0)
            && (m.negative ==> -t - 1.0 < Exact(m) <= -t)
            && (Exact(m) == Signed(m) as real <==> !Dropped(m.fraction))
  {
    var p, f, v := Power10(|m.fraction|), FirstFour(m.fraction), Value(m.fraction) * 10_000;
    FirstFourRoundsDown(m.fraction);
    Power10Positive(|m.fraction|);
    Quotient(f, v, p);
  }

  lemma Quotient(f: nat, v: nat, p: nat)
    requires p >= 1 && f * p <= v < f * p + p
    ensures var q := v as real / p as real;
            f as real <= q < f as real + 1.0 && (q == f as real <==> v == f * p)
  {
    var q, fr, pr := v as real / p as real, f as real, p as real;
    assert q * pr == v as real;
    assert (f * p) as real == fr * pr;
    assert (fr + 1.0) * pr == fr * pr + pr;
    RealScaled(q, fr, pr);
    RealScaled(fr, q, pr);
    RealScaled(q, fr + 1.0, pr);
  }

  lemma RealScaled(a: real, b: real, p: real)
    requires p > 0.0
    ensures a < b <==> a * p < b * p
  {
    assert (b - a) * p == b * p - a * p;
  }

  // The number a text names: the first in what is left of the text without its commas. The largest are refused.
  ghost predicate Reads(text: string, m: Match) {
    exists plain, places :: LeavesOut(text, plain, places) && IsFirstNumber(plain, m) && Value(m.whole) <= MAX_SAFE
  }

  // The parser reads exactly the numbers that texts name: cut to four digits, whatever commas stand in between.
  lemma ReadsIff(text: string, m: Match)
    ensures Reads(text, m) <==> FindNumber(WithoutCommas(text)) == Some(m) && Value(m.whole) <= MAX_SAFE
    ensures Reads(text, m) ==> TenThousandths(text) == Some(Signed(m))
  {
    var places := CommasLeftOut(text);
    FirstIsFound(WithoutCommas(text));
    if Reads(text, m) {
      var plain, others :| LeavesOut(text, plain, others) && IsFirstNumber(plain, m) && Value(m.whole) <= MAX_SAFE;
      OneWayToLeaveOut(text, plain, others);
      OnlyFirstIsFound(plain, m);
    }
  }

  // Nothing is read exactly if the text names no number.
  lemma NothingReadIff(text: string)
    ensures TenThousandths(text).None? <==> forall m :: !Reads(text, m)
  {
    forall m ensures Reads(text, m) <==> FindNumber(WithoutCommas(text)) == Some(m) && Value(m.whole) <= MAX_SAFE {
      ReadsIff(text, m);
    }
  }

  lemma CommaVanishes(a: string, b: string)
    ensures WithoutCommas(a + "," + b) == WithoutCommas(a + b)
  {
    WithoutCommasJoins(a + ",", b);
    WithoutCommasJoins(a, ",");
    OneCharacter(',');
    WithoutCommasJoins(a, b);
  }

  lemma SamePlain(text: string, other: string)
    requires WithoutCommas(text) == WithoutCommas(other)
    ensures TenThousandths(text) == TenThousandths(other)
  {}

  // Separators do not matter, wherever they stand.
  lemma CommasDoNotMatter(a: string, b: string)
    ensures TenThousandths(a + "," + b) == TenThousandths(a + b)
  {
    CommaVanishes(a, b);
    SamePlain(a + "," + b, a + b);
  }

  // The suggestion with the exact balance: the amount covers the fee, and one cent less would not.
  ghost predicate Covers(fee: int, exact: real, cents: nat) {
    exact + (100 * cents) as real >= fee as real
  }

  predicate FallsShort(fee: int, m: Match, balance: int)
    requires AllDigits(m.fraction)
  {
    m.negative && Dropped(m.fraction) && balance <= fee && (fee - balance) % 100 == 0
  }

  lemma ReadsSigned(text: string, m: Match)
    requires Reads(text, m)
    ensures AllDigits(m.whole) && AllDigits(m.fraction) && TenThousandths(text) == Some(Signed(m))
  {
    ReadsIff(text, m);
  }

  // What a suggestion for the fee promises of the exact balance.
  ghost predicate IsLeast(fee: int, m: Match, s: Suggestion)
    requires AllDigits(m.whole) && AllDigits(m.fraction)
  {
    && (Covers(fee, Exact(m), s.cents) <==> !FallsShort(fee, m, Signed(m)))
    && (s.cents > 0 ==> !Covers(fee, Exact(m), s.cents - 1))
    && (s.alreadyCovered <==> s.cents == 0)
    && (!m.negative ==> (s.alreadyCovered <==> Covers(fee, Exact(m), 0)))
  }

  lemma LeastFor(m: Match, fee: int)
    requires AllDigits(m.whole) && AllDigits(m.fraction) && Suggest(fee, Signed(m)).Some?
    ensures IsLeast(fee, m, Suggest(fee, Signed(m)).value)
  {
    TruncationIsClose(m);
    if m.negative { LeastCentsBelow(fee, Signed(m), Exact(m)); } else { LeastCents(fee, Signed(m), Exact(m)); }
  }

  // A suggested amount covers the fee unless digits dropped from a negative balance leave a whole number of cents,
  // and never a cent too much: one cent less does not cover it.
  lemma SuggestionIsLeast(text: string, m: Match, fee: int)
    requires Reads(text, m) && TenThousandths(text).Some?
    requires Suggest(fee, TenThousandths(text).value).Some?
    ensures AllDigits(m.whole) && AllDigits(m.fraction) && TenThousandths(text).value == Signed(m)
    ensures IsLeast(fee, m, Suggest(fee, TenThousandths(text).value).value)
  {
    ReadsSigned(text, m);
    LeastFor(m, fee);
  }

  lemma LeastCents(fee: int, balance: int, exact: real)
    requires Suggest(fee, balance).Some? && balance as real <= exact < balance as real + 1.0
    ensures var s := Suggest(fee, balance).value;
            && Covers(fee, exact, s.cents) && (s.cents > 0 ==> !Covers(fee, exact, s.cents - 1))
            && (s.alreadyCovered <==> Covers(fee, exact, 0))
  {
    var s := Suggest(fee, balance).value;
    if s.cents > 0 { assert (balance + 1 + 100 * (s.cents - 1)) <= fee; }
  }

  lemma LeastCentsBelow(fee: int, balance: int, exact: real)
    requires Suggest(fee, balance).Some? && balance as real - 1.0 < exact <= balance as real
    ensures var s := Suggest(fee, balance).value;
            && (Covers(fee, exact, s.cents)
                <==> !(exact < balance as real && balance <= fee && (fee - balance) % 100 == 0))
            && (s.cents > 0 ==> !Covers(fee, exact, s.cents - 1))
  {
    var s := Suggest(fee, balance).value;
    if balance <= fee {
      if (fee - balance) % 100 == 0 { assert 100 * s.cents == fee - balance; }
      else { assert balance + 100 * s.cents >= fee + 1; }
    }
  }

  // Nothing is suggested exactly when the largest amount would not cover the fee, except that it is suggested where
  // only digits dropped from a negative balance keep it from covering.
  lemma NoSuggestion(text: string, m: Match, fee: int)
    requires Reads(text, m) && TenThousandths(text).Some?
    ensures AllDigits(m.whole) && AllDigits(m.fraction)
    ensures Suggest(fee, TenThousandths(text).value).None?
       <==> !Covers(fee, Exact(m), MAX_CENTS) && fee - TenThousandths(text).value != 100 * MAX_CENTS
  {
    ReadsSigned(text, m);
    NoneFor(m, fee);
  }

  lemma NoneFor(m: Match, fee: int)
    requires AllDigits(m.whole) && AllDigits(m.fraction)
    ensures Suggest(fee, Signed(m)).None? <==> !Covers(fee, Exact(m), MAX_CENTS) && fee - Signed(m) != 100 * MAX_CENTS
  {
    TruncationIsClose(m);
    var balance := Signed(m);
    assert Suggest(fee, balance).None? <==> balance + 100 * MAX_CENTS < fee;
    assert balance + 100 * MAX_CENTS < fee <==> balance + 1 + 100 * MAX_CENTS <= fee;
  }

  // ---------- numbers printed and read again ----------

  lemma {:induction false} NothingToRemove(text: string)
    requires ',' !in text
    ensures WithoutCommas(text) == text
  {
    if text != "" { NothingToRemove(text[1..]); }
  }

  // A number printed without separators is found whole.
  lemma PrintedReadsBack(text: string, m: Match)
    requires AllDigits(m.whole) && AllDigits(m.fraction) && m.whole != "" && m.start == 0 && m.stop == |text|
    requires text == Printed(m)
    ensures FindNumber(WithoutCommas(text)) == Some(m)
  {
    NoCommaPrinted(m);
    NothingToRemove(text);
    assert text[..|text|] == text;
    OnlyFirstIsFound(text, m);
  }

  lemma NoCommaPrinted(m: Match)
    requires AllDigits(m.whole) && AllDigits(m.fraction)
    ensures ',' !in Printed(m)
  {
    assert ',' !in m.whole && ',' !in m.fraction;
  }

  // The suggested amount as it is put in the form.
  function Amount(cents: nat): string {
    Decimal(cents / 100) + "." + Cents(cents)
  }

  // A number that stands alone in a text is read as itself.
  lemma PrintedValue(text: string, m: Match)
    requires AllDigits(m.whole) && AllDigits(m.fraction) && m.whole != "" && m.start == 0 && m.stop == |text|
    requires text == Printed(m) && Value(m.whole) <= MAX_SAFE
    ensures Reads(text, m) && TenThousandths(text) == Some(Signed(m))
  {
    PrintedReadsBack(text, m);
    ReadsIff(text, m);
  }

  function Cents(cents: nat): string {
    [DigitOf(cents / 10 % 10), DigitOf(cents % 10)]
  }

  lemma WholePart(cents: nat)
    ensures AllDigits(Decimal(cents / 100)) && Decimal(cents / 100) != "" && Value(Decimal(cents / 100)) == cents / 100
  {
    ValueOfDecimal(cents / 100);
  }

  lemma CentsPart(cents: nat)
    ensures AllDigits(Cents(cents)) && Cents(cents) != ""
    ensures FirstFour(Cents(cents)) == 1000 * (cents / 10 % 10) + 100 * (cents % 10)
  {
    TwoDigits(cents / 10 % 10, cents % 10);
  }

  // Read again, a suggested amount is the amount suggested.
  lemma AmountReadsBack(cents: nat)
    requires cents <= MAX_CENTS
    ensures TenThousandths(Amount(cents)) == Some(100 * cents)
  {
    WholePart(cents);
    CentsPart(cents);
    CentsAddUp(cents);
    var m := Match(false, Decimal(cents / 100), Cents(cents), 0, |Amount(cents)|);
    PrintedPlain(m.whole, m.fraction, m.stop);
    PartsReadBack(Amount(cents), m, cents / 100, 100 * cents - (cents / 100) * 10_000);
  }

  lemma PartsReadBack(text: string, m: Match, units: nat, rest: int)
    requires AllDigits(m.whole) && AllDigits(m.fraction) && m.whole != "" && m.start == 0 && m.stop == |text|
    requires text == Printed(m) && !m.negative
    requires Value(m.whole) == units <= MAX_SAFE && FirstFour(m.fraction) == rest
    ensures TenThousandths(text) == Some(units * 10_000 + rest)
  {
    PrintedValue(text, m);
  }

  lemma PrintedPlain(whole: string, fraction: string, stop: nat)
    requires fraction != ""
    ensures Printed(Match(false, whole, fraction, 0, stop)) == whole + "." + fraction
  {
    assert "" + whole == whole;
    assert whole + ("." + fraction) == whole + "." + fraction;
  }

  lemma CentsAddUp(cents: nat)
    ensures (cents / 100) * 10_000 + 1000 * (cents / 10 % 10) + 100 * (cents % 10) == 100 * cents
  {
    assert cents / 10 == 10 * (cents / 100) + cents / 10 % 10 by { assert cents / 10 / 10 == cents / 100; }
    assert cents == 10 * (cents / 10) + cents % 10;
  }

  lemma ValueOfOne(a: nat)
    requires a < 10
    ensures Value([DigitOf(a)]) == a
  {
    assert [DigitOf(a)][..0] == "";
  }

  lemma TwoDigits(a: nat, b: nat)
    requires a < 10 && b < 10
    ensures AllDigits([DigitOf(a), DigitOf(b)]) && FirstFour([DigitOf(a), DigitOf(b)]) == 1000 * a + 100 * b
  {
    ValueOfOne(a);
    ValueOfOne(b);
    PowersOfTen();
    ValueSplits([DigitOf(a)], [DigitOf(b)]);
    TwoPlaces([DigitOf(a), DigitOf(b)], [DigitOf(a)] + [DigitOf(b)]);
  }

  lemma TwoPlaces(fraction: string, same: string)
    requires fraction == same && |fraction| == 2 && AllDigits(fraction)
    ensures FirstFour(fraction) == 100 * Value(same)
  {
    FirstFourOfShort(fraction);
    PowersOfTen();
  }

  lemma PowersOfTen()
    ensures Power10(1) == 10 && Power10(2) == 100
  {}

  const OWING := Match(true, "5", "00005", 0, 8)

  lemma OwingPrints()
    ensures Printed(OWING) == "-5.00005" && AllDigits(OWING.whole) && AllDigits(OWING.fraction)
  {}

  lemma FiveIsFive()
    ensures Value("5") == 5
  {
    assert "5"[..0] == "";
  }

  lemma OwingKept()
    ensures AllDigits("00005") && FirstFour("00005") == 0 && Dropped("00005")
  {
    FiveIsFive();
    assert "00005"[4..] == "5" && "00005"[..4] == "0000";
    LongFront("00005");
    ZerosAreZero("0000");
  }

  // A balance of -5.00005 and a fee of 10: the suggested 15.00 falls short by five hundred-thousandths.
  lemma FallsShortForInstance(text: string)
    requires text == "-5.00005"
    ensures TenThousandths(text) == Some(-50_000) && Suggest(100_000, -50_000) == Some(Suggestion(1500, false))
    ensures AllDigits(OWING.whole) && AllDigits(OWING.fraction)
    ensures Reads(text, OWING) && !Covers(100_000, Exact(OWING), 1500)
  {
    OwingPrints();
    OwingValue(text, OWING);
  }

  lemma OwingValue(text: string, m: Match)
    requires m == OWING && AllDigits(m.whole) && AllDigits(m.fraction) && text == Printed(m) && |text| == 8
    ensures Reads(text, m) && TenThousandths(text) == Some(-50_000) && !Covers(100_000, Exact(m), 1500)
  {
    FiveIsFive();
    OwingKept();
    PrintedValue(text, m);
    FallsShortOf(m);
  }

  lemma FallsShortOf(m: Match)
    requires AllDigits(m.whole) && AllDigits(m.fraction) && m.negative && Dropped(m.fraction) && Magnitude(m) == 50_000
    ensures !Covers(100_000, Exact(m), 1500)
  {
    TruncationIsClose(m);
  }
}
