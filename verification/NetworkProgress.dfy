/** The progress of a network check: late events are dropped, and the bar does not move back. */
module NetworkProgress {
  import opened Optional

  datatype Progress = Progress(id: int, revision: int, percent: real, complete: bool)

  // `history` lists the progress accepted so far, latest last.
  datatype View = View(current: Option<Progress>, displayed: real, history: seq<Progress>)

  const FRESH := View(None, 0.0, [])

  // How much of the remaining distance is covered after some waiting: 1 - exp(-t / 1800) in the program.
  type Fraction = f: real | 0.0 <= f < 1.0 witness 0.0

  datatype Event = Render(progress: Progress, waited: Fraction) | Tick(waited: Fraction)

  predicate Stale(p: Progress, v: View) {
    && v.current.Some?
    && var shown := v.current.value;
       p.id < shown.id || (p.id == shown.id && p.revision <= shown.revision)
  }

  function Part(distance: real, f: Fraction): real {
    distance * f
  }

  function Toward(a: real, b: real, f: Fraction): real {
    a + Part(b - a, f)
  }

  // Between reports the bar creeps up to 12 beyond what was reported, but no further than 96.
  function Estimate(p: Progress, waited: Fraction): real {
    var ceiling := if 96.0 < p.percent + 12.0 then 96.0 else p.percent + 12.0;
    if p.complete then 100.0 else Toward(p.percent, ceiling, waited)
  }

  function Larger(a: real, b: real): real {
    if a < b then b else a
  }

  function Painted(v: View, waited: Fraction): View {
    if v.current.None? then v else v.(displayed := Larger(v.displayed, Estimate(v.current.value, waited)))
  }

  function Next(v: View, e: Event): View {
    match e
    case Tick(waited) => Painted(v, waited)
    case Render(p, waited) =>
      if Stale(p, v) then v else
        var start := if v.current.Some? && v.current.value.id == p.id then v.displayed else 0.0;
        Painted(View(Some(p), start, v.history + [p]), waited)
  }

  function After(v: View, run: seq<Event>): View {
    if run == [] then v else Next(After(v, run[..|run| - 1]), run[|run| - 1])
  }

  class ProgressView {
    var current: Option<Progress>
    var displayed: real
    ghost var history: seq<Progress>

    ghost function Now(): View
      reads this
    {
      View(current, displayed, history)
    }

    constructor ()
      ensures Now() == FRESH
    {
      current, displayed, history := None, 0.0, [];
    }

    method Paint(waited: Fraction)
      modifies this`displayed
      ensures Now() == Next(old(Now()), Tick(waited))
    {
      if current.None? { return; }
      var value := Estimate(current.value, waited);
      if displayed < value { displayed := value; }
    }

    method RenderProgress(p: Progress, waited: Fraction)
      modifies this
      ensures Now() == Next(old(Now()), Render(p, waited))
    {
      if current.Some?
        && (p.id < current.value.id || (p.id == current.value.id && p.revision <= current.value.revision)) {
        return;
      }
      if current.None? || current.value.id != p.id { displayed := 0.0; }
      current, history := Some(p), history + [p];
      Paint(waited);
    }
  }

  // ---------- every run ----------

  predicate Later(a: Progress, b: Progress) {
    a.id < b.id || (a.id == b.id && a.revision < b.revision)
  }

  ghost predicate Increasing(history: seq<Progress>) {
    forall j, k :: 0 <= j < k < |history| ==> Later(history[j], history[k])
  }

  // The current check was reported complete at some time.
  ghost predicate Finished(v: View) {
    && v.current.Some?
    && exists k :: 0 <= k < |v.history| && v.history[k].complete && v.history[k].id == v.current.value.id
  }

  ghost predicate Inv(v: View) {
    && (v.current.Some? <==> v.history != [])
    && (v.current.Some? ==> v.current.value == v.history[|v.history| - 1])
    && Increasing(v.history)
  }

  ghost predicate BarInv(v: View) {
    && 0.0 <= v.displayed <= 100.0
    && (v.displayed == 100.0 <==> Finished(v))
  }

  // Reported percentages leave 100 to the report of completion.
  ghost predicate BelowHundred(v: View) {
    forall k :: 0 <= k < |v.history| ==> 0.0 <= v.history[k].percent < 100.0
  }

  lemma EstimateBounds(p: Progress, waited: Fraction)
    requires 0.0 <= p.percent < 100.0
    ensures 0.0 <= Estimate(p, waited) <= 100.0 && (Estimate(p, waited) == 100.0 <==> p.complete)
    ensures !p.complete && p.percent <= 96.0 ==> p.percent <= Estimate(p, waited) <= 96.0
  {
    var ceiling := if 96.0 < p.percent + 12.0 then 96.0 else p.percent + 12.0;
    Between(p.percent, ceiling, waited);
  }

  lemma Between(a: real, b: real, f: Fraction)
    ensures a < b ==> a <= Toward(a, b, f) < b
    ensures b <= a ==> b <= Toward(a, b, f) <= a
  {
    PartBounds(b - a, f);
  }

  lemma PartBounds(x: real, f: Fraction)
    ensures x > 0.0 ==> 0.0 <= Part(x, f) < x
    ensures x <= 0.0 ==> x <= Part(x, f) <= 0.0
  {
    var g: real := 1.0 - f;
    if x > 0.0 {
      Product(x, f);
      PositiveProduct(x, g);
    } else {
      Product(0.0 - x, f);
      Product(0.0 - x, g);
    }
    assert x * g == x - x * f;
  }

  lemma Product(x: real, y: real)
    requires x >= 0.0 && y >= 0.0
    ensures x * y >= 0.0
  {}

  lemma PositiveProduct(x: real, y: real)
    requires x > 0.0 && y > 0.0
    ensures x * y > 0.0
  {}

  lemma StepInv(v: View, e: Event)
    requires Inv(v)
    ensures Inv(Next(v, e)) && v.history <= Next(v, e).history
  {}

  lemma RenderFinished(v: View, p: Progress)
    requires Inv(v) && !Stale(p, v)
    ensures var same := v.current.Some? && v.current.value.id == p.id;
            Finished(View(Some(p), 0.0, v.history + [p])) <==> p.complete || (same && Finished(v))
  {
    var h := v.history + [p];
    forall k | 0 <= k < |v.history| ensures h[k] == v.history[k] && (h[k].id == p.id ==> v.current.value.id == p.id) {
      assert v.history[k].id <= v.current.value.id by {
        assert k < |v.history| - 1 ==> Later(v.history[k], v.history[|v.history| - 1]);
      }
    }
    if p.complete { assert h[|h| - 1].complete; }
    if v.current.Some? && v.current.value.id == p.id && Finished(v) {
      var k :| 0 <= k < |v.history| && v.history[k].complete && v.history[k].id == v.current.value.id;
      assert h[k].complete;
    }
  }

  lemma StepBar(v: View, e: Event)
    requires Inv(v) && BarInv(v) && BelowHundred(Next(v, e))
    ensures BarInv(Next(v, e))
  {
    var n := Next(v, e);
    if n.current.Some? { EstimateBounds(n.history[|n.history| - 1], e.waited); }
    if e.Render? && !Stale(e.progress, v) { RenderFinished(v, e.progress); }
  }

  lemma {:induction false} RunsKeep(run: seq<Event>)
    ensures Inv(After(FRESH, run))
    ensures BelowHundred(After(FRESH, run)) ==> BarInv(After(FRESH, run))
  {
    if run != [] {
      var v := After(FRESH, run[..|run| - 1]);
      RunsKeep(run[..|run| - 1]);
      StepInv(v, run[|run| - 1]);
      if BelowHundred(After(FRESH, run)) {
        assert forall k :: 0 <= k < |v.history| ==> v.history[k] == After(FRESH, run).history[k];
        StepBar(v, run[|run| - 1]);
      }
    }
  }

  // In every run what is shown is strictly later each time, and with percentages below 100 the bar is at 100 exactly
  // when the current check has been reported complete.
  lemma ShownInOrder(run: seq<Event>)
    ensures Increasing(After(FRESH, run).history)
    ensures BelowHundred(After(FRESH, run)) ==> (After(FRESH, run).displayed == 100.0 <==> Finished(After(FRESH, run)))
  {
    RunsKeep(run);
  }

  predicate SameCheck(v: View, w: View) {
    v.current.Some? && w.current.Some? && v.current.value.id == w.current.value.id
  }

  // While the same check is on screen the bar never moves back, whatever arrives in between.
  lemma {:induction false} BarNeverMovesBack(v: View, run: seq<Event>)
    requires v.current.Some?
    ensures var w := After(v, run);
            && w.current.Some? && w.current.value.id >= v.current.value.id
            && (SameCheck(v, w) ==> w.displayed >= v.displayed)
  {
    if run != [] { BarNeverMovesBack(v, run[..|run| - 1]); }
  }

  // ---------- what is accepted ----------

  // The progress a run delivers, in order.
  function Delivered(run: seq<Event>): seq<Progress> {
    if run == [] then [] else
      var n := |run| - 1;
      Delivered(run[..n]) + if run[n].Render? then [run[n].progress] else []
  }

  ghost predicate LaterThanAll(p: Progress, earlier: seq<Progress>) {
    forall k :: 0 <= k < |earlier| ==>
      earlier[k].id < p.id || (earlier[k].id == p.id && earlier[k].revision < p.revision)
  }

  // What is shown is delivered, and nothing delivered so far is later.
  lemma {:induction false} ShowsLatest(run: seq<Event>)
    ensures var v, all := After(FRESH, run), Delivered(run);
            && (v.current.Some? <==> all != [])
            && (v.current.Some? ==> v.current.value in all)
            && forall k :: 0 <= k < |all| ==> !Later(v.current.value, all[k])
  {
    if run != [] {
      var n := |run| - 1;
      ShowsLatest(run[..n]);
    }
  }

  // Progress is shown exactly if it is strictly later than everything delivered before it, shown or not; otherwise
  // the view does not change.
  lemma ShownIffLatest(run: seq<Event>, p: Progress, waited: Fraction)
    ensures var v, w := After(FRESH, run), After(FRESH, run + [Render(p, waited)]);
            if LaterThanAll(p, Delivered(run)) then w.current == Some(p) && w.history == v.history + [p] else w == v
  {
    ShowsLatest(run);
    assert (run + [Render(p, waited)])[..|run|] == run;
    var v := After(FRESH, run);
    if Stale(p, v) {
      var k :| 0 <= k < |Delivered(run)| && Delivered(run)[k] == v.current.value;
    }
  }

  // ---------- the bar ----------

  // A check that replaces another, or is the first, starts at what it reported.
  lemma NewCheckStartsAgain(v: View, p: Progress)
    requires v.current.Some? ==> v.current.value.id < p.id
    requires 0.0 <= p.percent
    ensures Next(v, Render(p, 0.0)).displayed == if p.complete then 100.0 else p.percent
  {}

  // Until the next report the bar can come to stand anywhere from what was reported up to 12 beyond, short of 96,
  // and nowhere else.
  lemma CreepsUpToCeiling(p: Progress, x: real)
    requires !p.complete && p.percent < 96.0
    ensures (exists waited: Fraction :: Estimate(p, waited) == x) <==>
              p.percent <= x < p.percent + 12.0 && x < 96.0
  {
    var ceiling := if 96.0 < p.percent + 12.0 then 96.0 else p.percent + 12.0;
    var span := ceiling - p.percent;
    if p.percent <= x < ceiling {
      var waited := (x - p.percent) / span;
      Quotient(x - p.percent, span);
      assert Estimate(p, waited) == x;
    }
    forall waited: Fraction ensures p.percent <= Estimate(p, waited) < ceiling {
      Between(p.percent, ceiling, waited);
    }
  }

  lemma Quotient(a: real, b: real)
    requires 0.0 <= a < b
    ensures 0.0 <= a / b < 1.0 && b * (a / b) == a
  {
    Between01(a / b, a, b);
  }

  lemma Between01(q: real, a: real, b: real)
    requires 0.0 <= a < b && b * q == a
    ensures 0.0 <= q < 1.0
  {
    Signs(b, q);
  }

  lemma Signs(b: real, q: real)
    requires b > 0.0
    ensures q < 0.0 ==> b * q < 0.0
    ensures q >= 1.0 ==> b * q >= b
  {
    if q < 0.0 {
      PositiveProduct(b, 0.0 - q);
      assert b * (0.0 - q) == 0.0 - b * q;
    }
    if q >= 1.0 {
      Product(b, q - 1.0);
      assert b * (q - 1.0) == b * q - b;
    }
  }
}
