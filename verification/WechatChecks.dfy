/** How often a WeChat recharge is checked automatically after the user was sent to the payment app. */
module WechatChecks {
  import opened Optional

  const CHECK_LIMIT := 20

  // The window's variables. `held` says that the timer handle holds a pending timer.
  datatype Desk = Desk(active: Option<nat>, handoff: bool, busy: bool, count: nat, held: bool, prompted: bool)

  // Where a completion waits. Reporting is the closing alert, for which the order has already been cleared.
  datatype Stage = Checking | Prompting | Transferring | Reporting

  datatype Run = Run(order: nat, automatic: bool, stage: Stage)

  // `orphans` counts pending timers whose handle was overwritten; `peak` is the largest number of pending timers so
  // far.
  datatype World = World(desk: Desk, orphans: nat, runs: map<nat, Run>, nextRun: nat, nextOrder: nat, peak: nat)

  const START := World(Desk(None, false, false, 0, false, false), 0, map[], 0, 0, 0)

  datatype Event =
    | Remember
    | Clear
    | Handoff
    | HandoffFails
    | Show(hidden: bool)
    | Focus(hidden: bool)
    | Fire(hidden: bool)
    | Click
    | Answer(r: nat, paid: bool, hidden: bool)
    | Prompted(r: nat)
    | Transferred(r: nat)
    | Ends(r: nat, uncertain: bool)

  function Cleared(d: Desk): Desk {
    Desk(None, false, false, 0, false, false)
  }

  function Remembered(d: Desk, order: nat): Desk {
    d.(active := Some(order), handoff := false, count := 0, prompted := false)
  }

  function HandedOff(d: Desk): Desk {
    if d.active.None? then d else d.(handoff := true, count := 0, prompted := false)
  }

  // Showing the payment code counts as a handoff if there was none.
  function CodeShown(d: Desk): Desk {
    if d.active.None? || d.handoff then d else d.(handoff := true, count := 0)
  }

  // The conditions for a check on returning to the app; its timer replaces the one held.
  predicate MaySchedule(d: Desk, hidden: bool) {
    d.active.Some? && d.handoff && !d.busy && !hidden && d.count < CHECK_LIMIT
  }

  // A timer that fires drops the handle, its own or not, and counts a check if it starts one.
  predicate MayCheck(d: Desk, hidden: bool) {
    d.active.Some? && !d.busy && !hidden
  }

  function Fired(d: Desk, hidden: bool): Desk {
    if MayCheck(d, hidden) then d.(held := false, count := d.count + 1, busy := true) else d.(held := false)
  }

  class WechatWindow {
    var active: Option<nat>
    var handoff: bool
    var busy: bool
    var count: nat
    var held: bool
    var prompted: bool

    ghost function State(): Desk
      reads this
    {
      Desk(active, handoff, busy, count, held, prompted)
    }

    constructor ()
      ensures State() == START.desk
    {
      active, handoff, busy, count, held, prompted := None, false, false, 0, false, false;
    }

    method ClearPayment()
      modifies this
      ensures State() == Cleared(old(State()))
    {
      if held { held := false; }
      active, handoff, count, busy, prompted := None, false, 0, false, false;
    }

    method RememberPayment(order: nat)
      modifies this
      ensures State() == Remembered(old(State()), order)
    {
      active, handoff, count, prompted := Some(order), false, 0, false;
    }

    method OpenPayment()
      modifies this
      ensures State() == HandedOff(old(State()))
    {
      if active.None? { return; }
      handoff, count, prompted := true, 0, false;
    }

    method ShowPayment(hidden: bool) returns (armed: bool)
      modifies this
      ensures var d := CodeShown(old(State()));
              && (armed <==> MaySchedule(d, hidden))
              && State() == if armed then d.(held := true) else d
    {
      if active.None? { return false; }
      if !handoff { handoff, count := true, 0; }
      armed := Schedule(hidden);
    }

    method Schedule(hidden: bool) returns (armed: bool)
      modifies this
      ensures armed <==> MaySchedule(old(State()), hidden)
      ensures State() == if armed then old(State()).(held := true) else old(State())
    {
      if active.None? || !handoff || busy || hidden || count >= CHECK_LIMIT { return false; }
      if held { held := false; }
      held, armed := true, true;
    }

    method TimerFires(hidden: bool) returns (checks: bool)
      modifies this
      ensures checks <==> MayCheck(old(State()), hidden)
      ensures State() == Fired(old(State()), hidden)
    {
      held := false;
      if active.None? || busy || hidden { return false; }
      count, busy, checks := count + 1, true, true;
    }

    // The next check of an automatic run that found the order unpaid; an earlier timer is not cleared.
    method ArmAgain(automatic: bool) returns (armed: bool)
      modifies this
      ensures armed <==> automatic && old(count) < CHECK_LIMIT
      ensures State() == if armed then old(State()).(held := true) else old(State())
    {
      if !automatic || count >= CHECK_LIMIT { return false; }
      held, armed := true, true;
    }
  }

  function Pending(w: World): nat {
    w.orphans + if w.desk.held then 1 else 0
  }

  function Noted(w: World): World {
    w.(peak := if w.peak < Pending(w) then Pending(w) else w.peak)
  }

  function Started(w: World, automatic: bool): World {
    if w.desk.active.None? then w
    else w.(runs := w.runs[w.nextRun := Run(w.desk.active.value, automatic, Checking)], nextRun := w.nextRun + 1)
  }

  function Over(w: World, r: nat): World {
    w.(runs := w.runs - {r}, desk := w.desk.(busy := false))
  }

  // The timer set at the end of an unpaid automatic run joins the one held, if any.
  function Rearmed(w: World, automatic: bool): World {
    if !automatic || w.desk.count >= CHECK_LIMIT then w
    else Noted(w.(orphans := Pending(w), desk := w.desk.(held := true)))
  }

  // The timer that fires leaves the others without a handle, whichever it was.
  function FireStep(w: World, hidden: bool): World {
    var left := Pending(w) - 1;
    var next := w.(orphans := if left < 0 then 0 else left, desk := Fired(w.desk, hidden));
    if MayCheck(w.desk, hidden) then Started(next, true) else next
  }

  function Scheduled(w: World, hidden: bool): World {
    if MaySchedule(w.desk, hidden) then Noted(w.(desk := w.desk.(held := true))) else w
  }

  function PromptStep(w: World, r: nat, hidden: bool): World
    requires r in w.runs
  {
    Scheduled(w.(runs := w.runs[r := w.runs[r].(stage := Prompting)], desk := w.desk.(prompted := true)), hidden)
  }

  function AnswerStep(w: World, r: nat, paid: bool, hidden: bool, android: bool): World
    requires r in w.runs
  {
    var run := w.runs[r];
    if w.desk.active != Some(run.order) then Over(w, r)
    else if paid then w.(runs := w.runs[r := run.(stage := Transferring)])
    else if run.automatic && android && !w.desk.prompted && w.desk.handoff then PromptStep(w, r, hidden)
    else Over(Rearmed(w, run.automatic), r)
  }

  // The order is cleared, which also frees the desk, and the completion still has its closing alert to show.
  function Closed(w: World, r: nat): World
    requires r in w.runs
  {
    w.(runs := w.runs[r := w.runs[r].(stage := Reporting)], desk := Cleared(w.desk))
  }

  // The end of a completion: its error, or the closing of its alert. An uncertain transfer gives the order up, and
  // a completion the user asked for reports that too.
  function EndStep(w: World, r: nat, uncertain: bool): World
    requires r in w.runs
  {
    if !w.runs[r].stage.Transferring? || !uncertain then Over(w, r)
    else if w.runs[r].automatic then Over(w.(desk := Cleared(w.desk)), r)
    else Closed(w, r)
  }

  function Next(w: World, e: Event, android: bool): World {
    match e
    case Remember => w.(desk := Remembered(w.desk, w.nextOrder), nextOrder := w.nextOrder + 1)
    case Clear => w.(desk := Cleared(w.desk))
    case Handoff => w.(desk := HandedOff(w.desk))
    case HandoffFails => w.(desk := w.desk.(handoff := false))
    case Show(hidden) => Scheduled(w.(desk := CodeShown(w.desk)), hidden)
    case Focus(hidden) => Scheduled(w, hidden)
    case Fire(hidden) => FireStep(w, hidden)
    case Click =>
      if w.desk.busy || w.desk.active.None? then w else Started(w.(desk := w.desk.(busy := true)), false)
    case Answer(r, paid, hidden) => if r in w.runs then AnswerStep(w, r, paid, hidden, android) else w
    case Prompted(r) => if r in w.runs then Over(Rearmed(w, w.runs[r].automatic), r) else w
    case Transferred(r) => if r in w.runs then Closed(w, r) else w
    case Ends(r, uncertain) => if r in w.runs then EndStep(w, r, uncertain) else w
  }

  // The guard for remembering an order: the desk is held, or no completion is in flight.
  predicate MayRemember(w: World) {
    w.desk.busy || w.runs == map[]
  }

  // With `guarded`, orders are remembered under that guard only. They may be given up at any time.
  predicate Enabled(w: World, e: Event, guarded: bool) {
    && (e.Remember? && guarded ==> MayRemember(w))
    && (e.Fire? ==> Pending(w) > 0)
    && (e.Answer? ==> e.r in w.runs && w.runs[e.r].stage.Checking?)
    && (e.Prompted? ==> e.r in w.runs && w.runs[e.r].stage.Prompting?)
    && (e.Transferred? ==> e.r in w.runs && w.runs[e.r].stage.Transferring?)
    && (e.Ends? ==> e.r in w.runs)
  }

  function After(w: World, run: seq<Event>, android: bool): World
    decreases |run|
  {
    if run == [] then w else After(Next(w, run[0], android), run[1..], android)
  }

  predicate Possible(w: World, run: seq<Event>, guarded: bool, android: bool)
    decreases |run|
  {
    run != [] ==> Enabled(w, run[0], guarded) && Possible(Next(w, run[0], android), run[1..], guarded, android)
  }

  // ---------- the bound ----------

  ghost predicate Bounded(w: World) {
    Pending(w) <= w.peak && w.desk.count + Pending(w) <= 19 + w.peak
  }

  lemma ScheduledBounded(w: World, hidden: bool)
    requires Bounded(w)
    ensures Bounded(Scheduled(w, hidden))
  {}

  lemma RearmedBounded(w: World, automatic: bool, r: nat)
    requires Bounded(w)
    ensures Bounded(Over(Rearmed(w, automatic), r))
  {}

  lemma StepBounded(w: World, e: Event, guarded: bool, android: bool)
    requires Bounded(w) && Enabled(w, e, guarded)
    ensures Bounded(Next(w, e, android))
  {
    match e {
      case Show(hidden) => ScheduledBounded(w.(desk := CodeShown(w.desk)), hidden);
      case Focus(hidden) => ScheduledBounded(w, hidden);
      case Answer(r, paid, hidden) =>
        RearmedBounded(w, w.runs[r].automatic, r);
        var prompting := w.runs[r := w.runs[r].(stage := Prompting)];
        ScheduledBounded(w.(runs := prompting, desk := w.desk.(prompted := true)), hidden);
      case Prompted(r) => RearmedBounded(w, w.runs[r].automatic, r);
      case _ =>
    }
  }

  // One completion at most. It holds the desk or there is no order, and while an automatic one runs no timer is
  // pending.
  ghost predicate Single(w: World) {
    && (forall r, s :: r in w.runs && s in w.runs ==> r == s)
    && (forall r :: r in w.runs ==> r < w.nextRun)
    && (w.desk.busy ==> w.runs != map[])
    && (w.runs != map[] ==> w.desk.busy || w.desk.active.None?)
    && (forall r :: r in w.runs && w.runs[r].automatic ==> Pending(w) == 0)
    && w.orphans == 0 && w.peak <= 1
  }

  lemma OverSingle(w: World, r: nat)
    requires r in w.runs && w.orphans == 0 && w.peak <= 1 && forall s :: s in w.runs ==> s == r
    ensures Single(Over(w, r))
  {
    assert w.runs - {r} == map[];
  }

  lemma StartedSingle(w: World, automatic: bool)
    requires w.runs == map[] && w.desk.busy && w.desk.active.Some? && w.orphans == 0 && w.peak <= 1
    requires automatic ==> !w.desk.held
    ensures Single(Started(w, automatic))
  {
    assert w.nextRun in Started(w, automatic).runs;
  }

  lemma ClosedSingle(w: World, r: nat)
    requires Single(w) && r in w.runs
    ensures Single(Closed(w, r))
  {
    assert r in Closed(w, r).runs;
  }

  lemma AnswerSingle(w: World, r: nat, paid: bool, hidden: bool, android: bool)
    requires Single(w) && r in w.runs
    ensures Single(AnswerStep(w, r, paid, hidden, android))
  {
    var run := w.runs[r];
    OverSingle(w, r);
    OverSingle(Rearmed(w, run.automatic), r);
    assert r in w.runs[r := run.(stage := Transferring)] && r in w.runs[r := run.(stage := Prompting)];
  }

  lemma EndSingle(w: World, r: nat, uncertain: bool)
    requires Single(w) && r in w.runs
    ensures Single(EndStep(w, r, uncertain))
  {
    OverSingle(w, r);
    OverSingle(w.(desk := Cleared(w.desk)), r);
    ClosedSingle(w, r);
  }

  lemma StepSingle(w: World, e: Event, android: bool)
    requires Single(w) && Enabled(w, e, true)
    ensures Single(Next(w, e, android))
  {
    match e {
      case Answer(r, paid, hidden) => AnswerSingle(w, r, paid, hidden, android);
      case Prompted(r) => OverSingle(Rearmed(w, w.runs[r].automatic), r);
      case Transferred(r) => ClosedSingle(w, r);
      case Ends(r, uncertain) => EndSingle(w, r, uncertain);
      case Fire(hidden) => if MayCheck(w.desk, hidden) { StartedSingle(w.(desk := Fired(w.desk, hidden)), true); }
      case Click =>
        if !w.desk.busy && w.desk.active.Some? { StartedSingle(w.(desk := w.desk.(busy := true)), false); }
      case _ =>
    }
  }

  lemma {:induction false} BoundsKept(w: World, run: seq<Event>, guarded: bool, android: bool)
    requires Possible(w, run, guarded, android) && Bounded(w) && (guarded ==> Single(w))
    ensures Bounded(After(w, run, android)) && (guarded ==> Single(After(w, run, android)))
    decreases |run|
  {
    if run != [] {
      StepBounded(w, run[0], guarded, android);
      if guarded { StepSingle(w, run[0], android); }
      BoundsKept(Next(w, run[0], android), run[1..], guarded, android);
    }
  }

  // In every run, with M the largest number of timers there ever was at once, at most 19 + M automatic checks are
  // made after an order was remembered or handed to the payment app. If orders are remembered under the guard, one
  // timer at most is pending and 20 checks at most are made.
  lemma ChecksAreBounded(run: seq<Event>, guarded: bool, android: bool)
    requires Possible(START, run, guarded, android)
    ensures var w := After(START, run, android);
            && w.desk.count <= 19 + w.peak
            && (guarded ==> w.desk.count <= CHECK_LIMIT && Pending(w) <= 1)
  {
    BoundsKept(START, run, guarded, android);
  }

  // ---------- outside the guard the limit is exceeded ----------

  // A run under the guard from here makes more than 20 checks for one handoff.
  ghost predicate Exceeds(w: World, android: bool) {
    exists run: seq<Event> :: Possible(w, run, true, android) && After(w, run, android).desk.count > CHECK_LIMIT
  }

  lemma Now(w: World, android: bool)
    requires w.desk.count > CHECK_LIMIT
    ensures Exceeds(w, android)
  {
    assert Possible(w, [], true, android) && After(w, [], android) == w;
  }

  lemma Before(w: World, e: Event, next: World, android: bool)
    requires Enabled(w, e, true) && Next(w, e, android) == next && Exceeds(next, android)
    ensures Exceeds(w, android)
  {
    var run: seq<Event> :| Possible(next, run, true, android) && After(next, run, android).desk.count > CHECK_LIMIT;
    assert ([e] + run)[1..] == run;
    assert Possible(w, [e] + run, true, android) && After(w, [e] + run, android) == After(next, run, android);
  }

  // Order p waits for payment after n checks with its next timer armed, while another completion f is in flight.
  predicate Armed(w: World, f: nat, p: nat, n: nat, android: bool) {
    && w.desk == Desk(Some(p), true, false, n, true, w.desk.prompted)
    && w.orphans == 0 && f in w.runs && f < w.nextRun && (android && n > 0 ==> w.desk.prompted)
  }

  // The same order with its check a in flight too.
  predicate InCheck(w: World, f: nat, a: nat, p: nat, n: nat, android: bool) {
    && w.desk == Desk(Some(p), true, true, n, false, w.desk.prompted)
    && w.orphans == 0 && f in w.runs && f != a && f < w.nextRun && (android && n > 1 ==> w.desk.prompted)
    && a in w.runs && w.runs[a] == Run(p, true, Checking)
  }

  lemma Fires(w: World, f: nat, p: nat, n: nat, android: bool)
    requires Armed(w, f, p, n, android)
    ensures Enabled(w, Fire(false), true) && InCheck(Next(w, Fire(false), android), f, w.nextRun, p, n + 1, android)
  {}

  // An unpaid check arms the next one, on Android the first time after a prompt.
  lemma UnpaidArms(w: World, f: nat, a: nat, p: nat, n: nat, android: bool)
    requires InCheck(w, f, a, p, n, android) && n < CHECK_LIMIT && (android ==> w.desk.prompted)
    ensures Enabled(w, Answer(a, false, true), true)
    ensures Armed(Next(w, Answer(a, false, true), android), f, p, n, android)
  {}

  lemma UnpaidPrompts(w: World, f: nat, a: nat, p: nat, n: nat)
    requires InCheck(w, f, a, p, n, true) && n < CHECK_LIMIT && !w.desk.prompted
    ensures var mid := Next(w, Answer(a, false, true), true);
            && Enabled(w, Answer(a, false, true), true) && Enabled(mid, Event.Prompted(a), true)
            && Armed(Next(mid, Event.Prompted(a), true), f, p, n, true)
  {}

  lemma CheckRepeats(w: World, f: nat, p: nat, n: nat, android: bool) returns (next: World)
    requires Armed(w, f, p, n, android) && n < 19
    ensures Armed(next, f, p, n + 1, android) && (Exceeds(next, android) ==> Exceeds(w, android))
  {
    var a, fired := w.nextRun, Next(w, Fire(false), android);
    Fires(w, f, p, n, android);
    var answered := Next(fired, Answer(a, false, true), android);
    if android && !fired.desk.prompted {
      UnpaidPrompts(fired, f, a, p, n + 1);
      next := Next(answered, Event.Prompted(a), android);
      if Exceeds(next, android) { Before(answered, Event.Prompted(a), next, android); }
    } else {
      UnpaidArms(fired, f, a, p, n + 1, android);
      next := answered;
    }
    if Exceeds(next, android) {
      Before(fired, Answer(a, false, true), answered, android);
      Before(w, Fire(false), fired, android);
    }
  }

  // The nineteenth check is in flight on a free desk.
  predicate Freed(w: World, a: nat, p: nat, held: bool, android: bool) {
    && w.desk == Desk(Some(p), true, false, 19, held, w.desk.prompted)
    && w.orphans == 0 && (android ==> w.desk.prompted) && a in w.runs && w.runs[a] == Run(p, true, Checking)
  }

  lemma OtherEnds(w: World, f: nat, a: nat, p: nat, android: bool)
    requires InCheck(w, f, a, p, 19, android)
    ensures Enabled(w, Ends(f, false), true) && Freed(Next(w, Ends(f, false), android), a, p, false, android)
  {}

  lemma ReturnArms(w: World, a: nat, p: nat, android: bool)
    requires Freed(w, a, p, false, android)
    ensures Enabled(w, Focus(false), true) && Freed(Next(w, Focus(false), android), a, p, true, android)
  {}

  // No completion holds the desk, and these timers are pending.
  predicate Waits(w: World, p: nat, n: nat, held: bool, orphans: nat) {
    && w.desk == Desk(Some(p), true, false, n, held, w.desk.prompted) && w.orphans == orphans
  }

  // So a timer was armed while the check was in flight, and another is at its end.
  lemma CheckArmsSecond(w: World, a: nat, p: nat, android: bool)
    requires Freed(w, a, p, true, android)
    ensures Enabled(w, Answer(a, false, true), true)
    ensures Waits(Next(w, Answer(a, false, true), android), p, 19, true, 1)
  {}

  lemma TwentiethEnds(w: World, p: nat, android: bool)
    requires Waits(w, p, 19, true, 1)
    ensures var fired := Next(w, Fire(false), android);
            && Enabled(w, Fire(false), true) && Enabled(fired, Ends(w.nextRun, false), true)
            && Waits(Next(fired, Ends(w.nextRun, false), android), p, 20, false, 1)
  {}

  lemma TwentyFirst(w: World, p: nat, android: bool)
    requires Waits(w, p, 20, false, 1)
    ensures Enabled(w, Fire(false), true) && Next(w, Fire(false), android).desk.count == 21
  {}

  lemma LastChecks(w: World, p: nat, android: bool)
    requires Waits(w, p, 19, true, 1)
    ensures Exceeds(w, android)
  {
    var fired := Next(w, Fire(false), android);
    var ended := Next(fired, Ends(w.nextRun, false), android);
    TwentiethEnds(w, p, android);
    TwentyFirst(ended, p, android);
    Now(Next(ended, Fire(false), android), android);
    Before(ended, Fire(false), Next(ended, Fire(false), android), android);
    Before(fired, Ends(w.nextRun, false), ended, android);
    Before(w, Fire(false), fired, android);
  }

  lemma NineteenthExceeds(w: World, f: nat, a: nat, p: nat, android: bool)
    requires InCheck(w, f, a, p, 19, android)
    ensures Exceeds(w, android)
  {
    var free := Next(w, Ends(f, false), android);
    var armed := Next(free, Focus(false), android);
    var two := Next(armed, Answer(a, false, true), android);
    OtherEnds(w, f, a, p, android);
    ReturnArms(free, a, p, android);
    CheckArmsSecond(armed, a, p, android);
    LastChecks(two, p, android);
    Before(armed, Answer(a, false, true), two, android);
    Before(free, Focus(false), armed, android);
    Before(w, Ends(f, false), free, android);
  }

  lemma {:induction false} ArmedExceeds(w: World, f: nat, p: nat, n: nat, android: bool)
    requires Armed(w, f, p, n, android) && n < 19
    ensures Exceeds(w, android)
    decreases 19 - n
  {
    if n == 18 {
      Fires(w, f, p, n, android);
      NineteenthExceeds(Next(w, Fire(false), android), f, w.nextRun, p, android);
      Before(w, Fire(false), Next(w, Fire(false), android), android);
    } else {
      var next := CheckRepeats(w, f, p, n, android);
      ArmedExceeds(next, f, p, n + 1, android);
    }
  }

  lemma HandedOffArmed(w: World, f: nat, android: bool)
    requires Single(w) && !w.desk.busy && f in w.runs
    ensures var remembered := Next(w, Remember, android);
            var handed := Next(remembered, Handoff, android);
            && Enabled(remembered, Handoff, true) && Enabled(handed, Focus(false), true)
            && Armed(Next(handed, Focus(false), android), f, w.nextOrder, 0, android)
  {}

  // The guard is exact, state by state: remembering an order is followed only by runs within the limit if and only if
  // the desk is held or no completion is in flight.
  lemma RememberingIsSafeIff(w: World, android: bool)
    requires Bounded(w) && Single(w)
    ensures Exceeds(Next(w, Remember, android), android) <==> !MayRemember(w)
  {
    var remembered := Next(w, Remember, android);
    if MayRemember(w) {
      WithinLimit(w, android);
    } else {
      var f :| f in w.runs;
      var handed := Next(remembered, Handoff, android);
      HandedOffArmed(w, f, android);
      ArmedExceeds(Next(handed, Focus(false), android), f, w.nextOrder, 0, android);
      Before(handed, Focus(false), Next(handed, Focus(false), android), android);
      Before(remembered, Handoff, handed, android);
    }
  }

  lemma WithinLimit(w: World, android: bool)
    requires Bounded(w) && Single(w) && MayRemember(w)
    ensures !Exceeds(Next(w, Remember, android), android)
  {
    var remembered := Next(w, Remember, android);
    StepBounded(w, Remember, true, android);
    StepSingle(w, Remember, android);
    forall run: seq<Event> | Possible(remembered, run, true, android)
      ensures After(remembered, run, android).desk.count <= CHECK_LIMIT
    {
      BoundsKept(remembered, run, true, android);
    }
  }

  // The states of a successful completion, from remembering the order to the closing alert.
  const ARMED := World(Desk(Some(0), true, false, 0, true, false), 0, map[], 0, 1, 1)
  const CHECKED := World(Desk(Some(0), true, true, 1, false, false), 0, map[0 := Run(0, true, Checking)], 1, 1, 1)
  const REPORTED := World(Desk(None, false, false, 0, false, false), 0, map[0 := Run(0, true, Reporting)], 1, 1, 1)

  ghost predicate Leads(w: World, next: World, android: bool) {
    exists run: seq<Event> :: Possible(w, run, true, android) && After(w, run, android) == next
  }

  lemma Stays(w: World, android: bool)
    ensures Leads(w, w, android)
  {
    assert Possible(w, [], true, android) && After(w, [], android) == w;
  }

  lemma LeadsBefore(w: World, e: Event, mid: World, next: World, android: bool)
    requires Enabled(w, e, true) && Next(w, e, android) == mid && Leads(mid, next, android)
    ensures Leads(w, next, android)
  {
    var run: seq<Event> :| Possible(mid, run, true, android) && After(mid, run, android) == next;
    assert ([e] + run)[1..] == run;
    assert Possible(w, [e] + run, true, android) && After(w, [e] + run, android) == next;
  }

  lemma OrderArmed(android: bool)
    requires Leads(ARMED, REPORTED, android)
    ensures Leads(START, REPORTED, android)
  {
    var remembered := Next(START, Remember, android);
    var handed := Next(remembered, Handoff, android);
    LeadsBefore(handed, Focus(false), ARMED, REPORTED, android);
    LeadsBefore(remembered, Handoff, handed, REPORTED, android);
    LeadsBefore(START, Remember, remembered, REPORTED, android);
  }

  lemma CheckedReports(android: bool)
    ensures Leads(CHECKED, REPORTED, android)
  {
    var paid := Next(CHECKED, Answer(0, true, false), android);
    Stays(REPORTED, android);
    LeadsBefore(paid, Transferred(0), REPORTED, REPORTED, android);
    LeadsBefore(CHECKED, Answer(0, true, false), paid, REPORTED, android);
  }

  // A completion that succeeds ends in a state where the guard fails: while its closing alert is open the order is
  // cleared and the desk free, and an order remembered then can reach 21 checks.
  lemma ClosingAlertIsOutside(android: bool)
    ensures Leads(START, REPORTED, android) && !MayRemember(REPORTED)
    ensures Exceeds(Next(REPORTED, Remember, android), android)
  {
    CheckedReports(android);
    LeadsBefore(ARMED, Fire(false), CHECKED, REPORTED, android);
    OrderArmed(android);
    assert 0 in REPORTED.runs;
    RememberingIsSafeIff(REPORTED, android);
  }
}
