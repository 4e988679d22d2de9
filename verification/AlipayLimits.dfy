/** Exactly when the limits of 180 automatic checks and 5 automatic transfer attempts hold. */
module AlipayLimits {
  import opened Optional
  import opened AlipayDesk
  import opened AlipayRuns
  import opened AlipayBounds

  predicate Readable(p: Payment) {
    p.amount.Some? && p.balanceBefore.Some?
  }

  // The callbacks already armed or waiting still fit below the limits.
  predicate Room(w: World) {
    && Callbacks(w) <= RETRY_LIMIT
    && (w.desk.active.Some? && !w.desk.arrivalReady ==> w.desk.checks + Callbacks(w) <= CHECK_LIMIT)
    && (w.desk.active.Some? && w.desk.arrivalReady ==> w.desk.retries + Callbacks(w) <= RETRY_LIMIT)
  }

  predicate Arms(w: World, next: World) {
    next.desk.timer && !w.desk.timer
  }

  // A completion not told of the arrival takes the desk although the arrival is known, can be detected again, and an
  // attempt has been counted or is about to be.
  predicate LateEntry(w: World, e: Event) {
    && e.Enter? && !e.background && e.task in w.tasks && w.tasks[e.task].Asking? && !w.tasks[e.task].approved
    && Fires(w.desk) && w.desk.arrivalReady && Readable(w.desk.active.value)
    && (w.desk.retries > 0 || w.probes > 0)
  }

  // The discipline under which the limits hold: orders are remembered under their guard, a callback is armed only
  // while there is room for it, and no completion enters late.
  ghost predicate Kept(w: World, e: Event, android: bool) {
    && Enabled(w, e, true)
    && (Arms(w, Next(w, e, android)) ==> Room(Next(w, e, android)))
    && !LateEntry(w, e)
  }

  ghost predicate AllKept(w: World, run: seq<Event>, android: bool)
    decreases |run|
  {
    run != [] ==> Kept(w, run[0], android) && AllKept(Next(w, run[0], android), run[1..], android)
  }

  // ---------- the limits hold ----------

  // The program's counters are the numbers of attempts.
  predicate Matched(w: World) {
    && (w.desk.arrivalReady ==> w.desk.active.Some?)
    && (w.desk.active.Some? && w.desk.arrivalReady ==> w.autoRetries == w.desk.retries)
    && (w.desk.active.Some? && !w.desk.arrivalReady ==> w.autoRetries == 0 && w.autoChecks == w.desk.checks)
  }

  predicate Limited(w: World) {
    Room(w) && Matched(w) && w.autoChecks <= CHECK_LIMIT && w.autoRetries <= RETRY_LIMIT
  }

  // A completion that could still detect the known arrival again entered before any attempt was counted.
  ghost predicate NoneLate(w: World) {
    forall t :: t in w.tasks && w.tasks[t].Running? && Unaware(w.tasks[t])
                && w.desk.active == Some(w.tasks[t].run.payment) && w.desk.arrivalReady
                && Readable(w.tasks[t].run.payment)
                ==> w.desk.retries == 0 && w.probes == 0
  }

  ghost predicate Within(w: World) {
    SafeInv(w) && Limited(w) && NoneLate(w)
  }

  lemma SteadyMatched(w: World, next: World)
    requires Matched(w) && Steady(w, next.desk)
    requires next.autoChecks == w.autoChecks && next.autoRetries == w.autoRetries
    ensures Matched(next)
  {}

  lemma SteadyRoom(w: World, next: World)
    requires Room(w) && Steady(w, next.desk) && next.probes == w.probes
    ensures Arms(w, next) || Room(next)
  {}

  lemma DetectedMatched(w: World, t: nat, reply: Reply, android: bool)
    requires Within(w) && t in w.tasks && w.tasks[t].Running? && Detects(w.desk, w.tasks[t].run, reply)
    ensures var next := Woken(w, t, reply, android); Matched(next) && Room(next) && !Arms(w, next)
  {
    var d := Resumed(w.desk, w.tasks[t].run, reply, android).desk;
    assert d == w.desk.(checks := CHECK_LIMIT, retries := 0, arrivalReady := true);
  }

  lemma WokenMatched(w: World, t: nat, reply: Reply, android: bool)
    requires Within(w) && t in w.tasks && w.tasks[t].Running?
    ensures var next := Woken(w, t, reply, android); Matched(next) && (Arms(w, next) || Room(next))
  {
    var r := w.tasks[t].run;
    if Detects(w.desk, r, reply) {
      DetectedMatched(w, t, reply, android);
    } else {
      ResumedSteady(w, r, reply, android);
      SteadyMatched(w, Woken(w, t, reply, android));
      SteadyRoom(w, Woken(w, t, reply, android));
    }
  }

  lemma UserMatched(w: World, e: Event, android: bool)
    requires Within(w) && (e.Remember? || e.Restore? || e.Reopen?)
    ensures var next := Next(w, e, android); Matched(next) && (Arms(w, next) || Room(next))
  {}

  lemma DeskMatched(w: World, e: Event, android: bool)
    requires Within(w) && (e.Abandon? || e.Focus?)
    ensures var next := Next(w, e, android); Matched(next) && (Arms(w, next) || Room(next))
  {
    if e.Abandon? { ClearedSteady(w); } else { ScheduledSteady(w); }
    SteadyMatched(w, Next(w, e, android));
    SteadyRoom(w, Next(w, e, android));
  }

  // Whatever a step does, the counters match, and only a step that arms a callback can leave no room.
  lemma MatchedStep(w: World, e: Event, android: bool)
    requires Within(w) && Enabled(w, e, true)
    ensures var next := Next(w, e, android); Matched(next) && (Arms(w, next) || Room(next))
  {
    match e {
      case Remember(_, _) => UserMatched(w, e, android);
      case Restore(_, _) => UserMatched(w, e, android);
      case Reopen => UserMatched(w, e, android);
      case Abandon => DeskMatched(w, e, android);
      case Focus => DeskMatched(w, e, android);
      case Wake(t, reply) => WokenMatched(w, t, reply, android);
      case _ =>
    }
  }

  lemma MatchedLimited(w: World, e: Event, android: bool)
    requires Within(w) && Enabled(w, e, true) && Matched(Next(w, e, android)) && Room(Next(w, e, android))
    ensures Limited(Next(w, e, android))
  {}

  lemma LimitedStep(w: World, e: Event, android: bool)
    requires Within(w) && Kept(w, e, android)
    ensures Limited(Next(w, e, android))
  {
    MatchedStep(w, e, android);
    MatchedLimited(w, e, android);
  }

  lemma WokenNoneLate(w: World, t: nat, reply: Reply, android: bool)
    requires Within(w) && t in w.tasks && w.tasks[t].Running?
    ensures NoneLate(Woken(w, t, reply, android))
  {
    var r := w.tasks[t].run;
    var o := Resumed(w.desk, r, reply, android);
    var next := Woken(w, t, reply, android);
    StretchLeaves(w.desk, r, reply, android);
    StretchReady(w.desk, r, reply, android);
    assert forall u :: u in next.tasks && u != t ==> u in w.tasks && next.tasks[u] == w.tasks[u];
    if Detects(w.desk, r, reply) {
      assert Loose(w.tasks[t]) && HasLoose(w);
      assert forall u :: u in w.tasks && Loose(w.tasks[u]) ==> u == t;
    } else {
      ResumedSteady(w, r, reply, android);
    }
  }

  lemma EnteredNoneLate(w: World, t: nat, background: bool, android: bool)
    requires Within(w) && Kept(w, Enter(t, background), android)
    ensures NoneLate(Next(w, Enter(t, background), android))
  {
    var next := Next(w, Enter(t, background), android);
    assert forall u :: u in next.tasks && u != t ==> u in w.tasks && next.tasks[u] == w.tasks[u];
  }

  lemma CallbackNoneLate(w: World, e: Event, android: bool)
    requires Within(w) && Kept(w, e, android) && (e.TimerFires? || e.ProbeReply? || e.Click?)
    ensures NoneLate(Next(w, e, android))
  {
    var next := Next(w, e, android);
    forall t | t in next.tasks && next.tasks[t].Running? ensures t in w.tasks && next.tasks[t] == w.tasks[t] {}
    forall t | t in w.tasks && w.tasks[t].Running? && Unaware(w.tasks[t]) ensures HasLoose(w) {
      assert Loose(w.tasks[t]);
    }
  }

  lemma NoneLateStep(w: World, e: Event, android: bool)
    requires Within(w) && Kept(w, e, android)
    ensures NoneLate(Next(w, e, android))
  {
    match e {
      case Wake(t, reply) => WokenNoneLate(w, t, reply, android);
      case Enter(t, background) => EnteredNoneLate(w, t, background, android);
      case TimerFires => CallbackNoneLate(w, e, android);
      case ProbeReply(_) => CallbackNoneLate(w, e, android);
      case Click(_) => CallbackNoneLate(w, e, android);
      case Restore(_, _) => assert Next(w, e, android).tasks == w.tasks;
      case _ =>
    }
  }

  lemma KeptStep(w: World, e: Event, android: bool)
    requires Within(w) && Kept(w, e, android)
    ensures Within(Next(w, e, android))
  {
    SafeStep(w, e, android);
    LimitedStep(w, e, android);
    NoneLateStep(w, e, android);
  }

  lemma {:induction false} KeptWithin(w: World, run: seq<Event>, android: bool)
    requires Within(w) && AllKept(w, run, android)
    ensures Within(After(w, run, android))
    decreases |run|
  {
    if run != [] {
      KeptStep(w, run[0], android);
      KeptWithin(Next(w, run[0], android), run[1..], android);
    }
  }

  lemma StartIsWithin()
    ensures Within(START)
  {
    StartIsSafe();
  }

  // Under the discipline at most 180 automatic checks and 5 automatic transfer attempts are made.
  lemma LimitsHold(run: seq<Event>, android: bool)
    requires AllKept(START, run, android)
    ensures var w := After(START, run, android); w.autoChecks <= CHECK_LIMIT && w.autoRetries <= RETRY_LIMIT
  {
    StartIsWithin();
    KeptWithin(START, run, android);
  }

  // ---------- outside the discipline they do not ----------

  predicate UserAct(e: Event) {
    e.Remember? || e.Restore? || e.Abandon? || e.Reopen? || e.Click?
  }

  ghost predicate Unattended(run: seq<Event>) {
    forall k :: 0 <= k < |run| ==> !UserAct(run[k])
  }

  predicate TooMany(w: World) {
    w.autoChecks > CHECK_LIMIT || w.autoRetries > RETRY_LIMIT
  }

  predicate SixTried(w: World) {
    w.autoRetries > RETRY_LIMIT
  }

  // A run under the discipline from here leads to the goal, if `attended` is false without any act of the user.
  ghost predicate Oversteps(w: World, android: bool, attended: bool, goal: World -> bool) {
    exists run: seq<Event> :: AllKept(w, run, android) && goal(After(w, run, android)) && (attended || Unattended(run))
  }

  lemma Now(w: World, android: bool, attended: bool, goal: World -> bool)
    requires goal(w)
    ensures Oversteps(w, android, attended, goal)
  {
    assert AllKept(w, [], android) && After(w, [], android) == w && Unattended([]);
  }

  lemma Before(w: World, e: Event, next: World, android: bool, attended: bool, goal: World -> bool)
    requires Kept(w, e, android) && Next(w, e, android) == next && Oversteps(next, android, attended, goal)
    requires attended || !UserAct(e)
    ensures Oversteps(w, android, attended, goal)
  {
    var run: seq<Event> :|
      AllKept(next, run, android) && goal(After(next, run, android)) && (attended || Unattended(run));
    assert ([e] + run)[1..] == run;
    assert AllKept(w, [e] + run, android) && After(w, [e] + run, android) == After(next, run, android);
    assert attended || Unattended([e] + run);
  }

  // The desk after so many more counted attempts.
  function CountedBy(d: Desk, n: nat): Desk {
    if d.arrivalReady then d.(retries := d.retries + n) else d.(checks := d.checks + n)
  }

  // The same world but for callbacks that were answered, and the completions they started.
  predicate Answered(w: World, next: World, n: nat) {
    && next.desk == CountedBy(w.desk, n)
    && next.autoRetries == w.autoRetries + (if w.desk.arrivalReady then n else 0)
    && next.autoChecks == w.autoChecks + (if w.desk.arrivalReady then 0 else n)
    && next.nextTask >= w.nextTask && next.nextPayment == w.nextPayment
  }

  predicate TasksKept(w: World, next: World) {
    forall t :: t in w.tasks && t < w.nextTask ==> t in next.tasks && next.tasks[t] == w.tasks[t]
  }

  lemma OneAnswered(w: World, android: bool)
    requires w.probes > 0 && w.desk.active.Some?
    ensures var next := Next(w, ProbeReply(false), android);
            && Kept(w, ProbeReply(false), android) && next.probes == w.probes - 1
            && Answered(w, next, 1) && TasksKept(w, next)
  {}

  lemma {:induction false} AllAnswered(w: World, android: bool, attended: bool, goal: World -> bool)
    returns (next: World)
    requires w.desk.active.Some?
    ensures next.probes == 0 && Answered(w, next, w.probes) && TasksKept(w, next)
    ensures Oversteps(next, android, attended, goal) ==> Oversteps(w, android, attended, goal)
    decreases w.probes
  {
    if w.probes == 0 { return w; }
    var mid := Next(w, ProbeReply(false), android);
    OneAnswered(w, android);
    next := AllAnswered(mid, android, attended, goal);
    if Oversteps(next, android, attended, goal) { Before(w, ProbeReply(false), mid, android, attended, goal); }
  }

  lemma TimerAsks(w: World, android: bool)
    requires w.desk.timer && Fires(w.desk)
    ensures Kept(w, TimerFires, android)
    ensures Next(w, TimerFires, android) == w.(desk := w.desk.(timer := false), probes := w.probes + 1)
  {}

  // A callback armed without room for it: when it fires and all are answered, a limit is passed.
  lemma NoRoomOversteps(w: World, android: bool)
    requires w.desk.timer && Fires(w.desk) && Matched(w)
    requires if w.desk.arrivalReady then w.desk.retries + w.probes >= RETRY_LIMIT
             else w.desk.checks + w.probes >= CHECK_LIMIT
    ensures Oversteps(w, android, true, TooMany)
  {
    var fired := Next(w, TimerFires, android);
    TimerAsks(w, android);
    var all := AllAnswered(fired, android, true, TooMany);
    Now(all, android, true, TooMany);
    Before(w, TimerFires, fired, android, true, TooMany);
  }

  // ---------- six callbacks before the arrival ----------

  const TENNER := Remember(Some(10), Some(0))

  // A readable order is remembered in the place of the one there; the callbacks stay.
  lemma TennerRemembered(w: World, android: bool)
    requires SafeInv(w) && Fires(w.desk) && w.desk.timer
    ensures var next := Next(w, TENNER, android);
            && Kept(w, TENNER, android) && Fires(next.desk) && next.desk.timer && !next.desk.arrivalReady
            && next.desk.active == Some(Payment(w.nextPayment, Some(10), Some(0)))
            && next.probes == w.probes && next.autoRetries == 0 && next.desk.retries == 0
  {}

  predicate Clickable(w: World, p: Payment) {
    w.desk.active == Some(p) && !w.desk.busy && !w.desk.timer && !w.desk.arrivalReady && w.autoRetries == 0
  }

  lemma ClickEnters(w: World, p: Payment, android: bool)
    requires Clickable(w, p)
    ensures var clicked := Next(w, Click(false), android);
            && Kept(w, Click(false), android) && Kept(clicked, Enter(w.nextTask, false), android)
            && var next := Next(clicked, Enter(w.nextTask, false), android);
               && next.desk == w.desk.(busy := true) && next.probes == w.probes && next.autoRetries == 0
               && w.nextTask in next.tasks && next.tasks[w.nextTask] == Running(Run(p, false, false, Balances, false))
  {}

  lemma EnteredDetects(w: World, p: Payment, t: nat, android: bool)
    requires w.desk.active == Some(p) && w.desk.busy && !w.desk.timer && !w.desk.arrivalReady && w.autoRetries == 0
    requires p.amount == Some(10) && p.balanceBefore == Some(0)
    requires t in w.tasks && w.tasks[t] == Running(Run(p, false, false, Balances, false))
    ensures var e := Wake(t, Snapshot(true, Some(10)));
            var next := Next(w, e, android);
            && Kept(w, e, android) && next.desk.arrivalReady && next.desk.active == Some(p)
            && next.probes == w.probes && next.autoRetries == 0
  {}

  lemma SixDetected(w: World, p: Payment, android: bool)
    requires Clickable(w, p) && p.amount == Some(10) && p.balanceBefore == Some(0) && w.probes > RETRY_LIMIT
    ensures Oversteps(w, android, true, SixTried)
  {
    var t := w.nextTask;
    var clicked := Next(w, Click(false), android);
    var entered := Next(clicked, Enter(t, false), android);
    var e := Wake(t, Snapshot(true, Some(10)));
    var known := Next(entered, e, android);
    ClickEnters(w, p, android);
    EnteredDetects(entered, p, t, android);
    var all := AllAnswered(known, android, true, SixTried);
    Now(all, android, true, SixTried);
    Before(entered, e, known, android, true, SixTried);
    Before(clicked, Enter(t, false), entered, android, true, SixTried);
    Before(w, Click(false), clicked, android, true, SixTried);
  }

  // Six callbacks before the arrival are six attempts if they are answered after it.
  lemma SixOverstep(w: World, android: bool)
    requires SafeInv(w) && Fires(w.desk) && w.desk.timer && w.probes >= RETRY_LIMIT
    ensures Oversteps(w, android, true, SixTried)
  {
    var next := Next(w, TENNER, android);
    var fired := Next(next, TimerFires, android);
    TennerRemembered(w, android);
    TimerAsks(next, android);
    SixDetected(fired, Payment(w.nextPayment, Some(10), Some(0)), android);
    Before(next, TimerFires, fired, android, true, SixTried);
    Before(w, TENNER, next, android, true, SixTried);
  }

  // ---------- a completion that enters late ----------

  // The arrival is known, i attempts are on the program's counter and more than that were made, and the next is armed.
  predicate Trying(w: World, i: nat) {
    && Fires(w.desk) && w.desk.arrivalReady && w.desk.timer && w.desk.handedOff && w.desk.retries == i
    && w.probes == 0 && w.autoRetries > i
  }

  lemma TryAnswered(w: World, i: nat, android: bool)
    requires Trying(w, i)
    ensures var fired := Next(w, TimerFires, android);
            var next := Next(fired, ProbeReply(false), android);
            && Kept(w, TimerFires, android) && Kept(fired, ProbeReply(false), android)
            && next.desk == w.desk.(timer := false, retries := i + 1) && next.probes == 0
            && next.autoRetries == w.autoRetries + 1
            && w.nextTask in next.tasks && next.tasks[w.nextTask] == Asking(true, true)
  {}

  lemma TryFails(w: World, t: nat, i: nat, android: bool)
    requires Fires(w.desk) && w.desk.arrivalReady && !w.desk.timer && w.desk.handedOff
    requires w.desk.retries == i < RETRY_LIMIT
    requires w.probes == 0 && w.autoRetries > i && t in w.tasks && w.tasks[t] == Asking(true, true)
    ensures var entered := Next(w, Enter(t, false), android);
            var next := Next(entered, Wake(t, Failed), android);
            && Kept(w, Enter(t, false), android) && Kept(entered, Wake(t, Failed), android) && Trying(next, i)
  {}

  lemma {:induction false} TriesOverstep(w: World, i: nat, android: bool, attended: bool)
    requires Trying(w, i) && i < RETRY_LIMIT
    ensures Oversteps(w, android, attended, SixTried)
    decreases RETRY_LIMIT - i
  {
    var fired := Next(w, TimerFires, android);
    var counted := Next(fired, ProbeReply(false), android);
    TryAnswered(w, i, android);
    if i + 1 == RETRY_LIMIT {
      Now(counted, android, attended, SixTried);
    } else {
      var entered := Next(counted, Enter(w.nextTask, false), android);
      var next := Next(entered, Wake(w.nextTask, Failed), android);
      TryFails(counted, w.nextTask, i + 1, android);
      TriesOverstep(next, i + 1, android, attended);
      Before(entered, Wake(w.nextTask, Failed), next, android, attended, SixTried);
      Before(counted, Enter(w.nextTask, false), entered, android, attended, SixTried);
    }
    Before(fired, ProbeReply(false), counted, android, attended, SixTried);
    Before(w, TimerFires, fired, android, attended, SixTried);
  }

  // The program's counter has been reset although attempts were made.
  predicate Reset(w: World) {
    w.desk.active.Some? && w.desk.arrivalReady && w.desk.retries == 0 && w.probes == 0 && w.autoRetries > 0
  }

  predicate InPreparation(w: World, t: nat) {
    t in w.tasks && w.tasks[t].Running? && w.tasks[t].run.stage.Preparing? && !w.tasks[t].run.submitted
  }

  lemma AutomaticFails(w: World, t: nat, android: bool)
    requires Reset(w) && w.desk.busy && InPreparation(w, t)
    requires w.tasks[t].run.automatic
    ensures var next := Next(w, Wake(t, Failed), android);
            && Kept(w, Wake(t, Failed), android) && Reset(next) && Fires(next.desk)
            && next.desk.handedOff == w.desk.handedOff && (w.desk.handedOff ==> next.desk.timer)
  {}

  lemma ClickedFails(w: World, t: nat, android: bool)
    requires Reset(w) && w.desk.busy && InPreparation(w, t)
    requires !w.tasks[t].run.automatic
    ensures var mid := Next(w, Wake(t, Failed), android);
            var next := Next(mid, Wake(t, Done), android);
            && Kept(w, Wake(t, Failed), android) && Kept(mid, Wake(t, Done), android) && Reset(next) && Fires(next.desk)
            && next.desk.handedOff == w.desk.handedOff && (w.desk.handedOff ==> next.desk.timer)
  {}

  lemma ReopenedTries(w: World, android: bool)
    requires Reset(w) && Fires(w.desk)
    ensures Kept(w, Reopen, android) && Trying(Next(w, Reopen, android), 0)
  {}

  // The page was opened again, or the timer is armed anyway: five more attempts follow.
  lemma ResetOversteps(w: World, android: bool, attended: bool)
    requires Reset(w) && Fires(w.desk) && (w.desk.handedOff ==> w.desk.timer) && (attended || w.desk.handedOff)
    ensures Oversteps(w, android, attended, SixTried)
  {
    if w.desk.handedOff {
      TriesOverstep(w, 0, android, attended);
    } else {
      ReopenedTries(w, android);
      TriesOverstep(Next(w, Reopen, android), 0, android, attended);
      Before(w, Reopen, Next(w, Reopen, android), android, attended, SixTried);
    }
  }

  lemma PreparedOversteps(w: World, t: nat, android: bool, attended: bool)
    requires Reset(w) && w.desk.busy && InPreparation(w, t) && (attended || w.desk.handedOff)
    ensures Oversteps(w, android, attended, SixTried)
  {
    var mid := Next(w, Wake(t, Failed), android);
    if w.tasks[t].run.automatic {
      AutomaticFails(w, t, android);
      ResetOversteps(mid, android, attended);
    } else {
      ClickedFails(w, t, android);
      var next := Next(mid, Wake(t, Done), android);
      ResetOversteps(next, android, attended);
      Before(mid, Wake(t, Done), next, android, attended, SixTried);
    }
    Before(w, Wake(t, Failed), mid, android, attended, SixTried);
  }

  // A completion in its balance check that was not told of the arrival, with nothing left to be counted.
  predicate Unaware0(w: World, t: nat) {
    && t in w.tasks && w.tasks[t].Running? && Unaware(w.tasks[t]) && !w.tasks[t].run.submitted
    && w.desk.active == Some(w.tasks[t].run.payment) && Readable(w.tasks[t].run.payment)
  }

  function Exact(p: Payment): Reply
    requires Readable(p)
  {
    Snapshot(true, Some(p.balanceBefore.value + p.amount.value))
  }

  lemma DetectsAgain(w: World, t: nat, android: bool)
    requires Unaware0(w, t) && w.desk.busy && w.desk.arrivalReady && w.probes == 0 && w.autoRetries > 0
    ensures var e := Wake(t, Exact(w.tasks[t].run.payment));
            var next := Next(w, e, android);
            && Kept(w, e, android) && Reset(next) && next.desk.busy && InPreparation(next, t)
            && next.desk.handedOff == w.desk.handedOff
  {}

  lemma EnteredLate(w: World, t: nat, android: bool)
    requires Within(w) && Enabled(w, Enter(t, false), true) && LateEntry(w, Enter(t, false))
    ensures var next := Next(w, Enter(t, false), android);
            && Unaware0(next, t) && next.desk == w.desk.(busy := true) && next.probes == w.probes
            && next.autoRetries == w.desk.retries && t < next.nextTask
  {}

  // A completion that enters late detects the arrival again, after which more than five attempts are made in all;
  // no act of the user is needed unless the payment page could not be opened.
  lemma LateEntryOversteps(w: World, e: Event, android: bool)
    requires Within(w) && Enabled(w, e, true) && LateEntry(w, e)
    ensures Oversteps(Next(w, e, android), android, !w.desk.handedOff, SixTried)
  {
    var t, attended := e.task, !w.desk.handedOff;
    var entered := Next(w, e, android);
    EnteredLate(w, t, android);
    var all := AllAnswered(entered, android, attended, SixTried);
    DetectsAgain(all, t, android);
    var again := Wake(t, Exact(all.tasks[t].run.payment));
    PreparedOversteps(Next(all, again, android), t, android, attended);
    Before(all, again, Next(all, again, android), android, attended, SixTried);
  }

  // ---------- the exact condition ----------

  // A stretch that arms a callback leaves an order waiting on a free desk.
  predicate ArmsFree(d: Desk, next: Desk) {
    next.timer && !d.timer ==> Fires(next)
  }

  lemma ScheduledFree(d: Desk)
    ensures ArmsFree(d, Scheduled(d)) && ArmsFree(d, Released(d))
    ensures ArmsFree(d, Released(Cleared(d))) && ArmsFree(d, Released(d.(promptShown := true)))
  {}

  lemma BalancesFree(d: Desk, r: Run, matches: bool, card: Option<int>, android: bool)
    ensures ArmsFree(d, BalancesRead(d, r, matches, card, android).desk)
  {
    ScheduledFree(d);
  }

  lemma ResumedFree(d: Desk, r: Run, reply: Reply, android: bool)
    ensures ArmsFree(d, Resumed(d, r, reply, android).desk)
  {
    ScheduledFree(d);
    if r.stage.Balances? && reply.Snapshot? { BalancesFree(d, r, reply.matches, reply.card, android); }
  }

  lemma UserFree(w: World, e: Event, android: bool)
    requires e.Remember? || e.Restore? || e.Reopen?
    ensures ArmsFree(w.desk, Next(w, e, android).desk)
  {}

  lemma ArmedIsFree(w: World, e: Event, android: bool)
    requires Enabled(w, e, true)
    ensures ArmsFree(w.desk, Next(w, e, android).desk)
  {
    match e {
      case Remember(_, _) => UserFree(w, e, android);
      case Restore(_, _) => UserFree(w, e, android);
      case Reopen => UserFree(w, e, android);
      case Focus => ScheduledFree(w.desk);
      case Wake(t, reply) => ResumedFree(w.desk, w.tasks[t].run, reply, android);
      case _ =>
    }
  }

  lemma NoRoomAnyway(w: World, android: bool)
    requires SafeInv(w) && Matched(w) && w.desk.timer && Fires(w.desk) && !Room(w)
    ensures Oversteps(w, android, true, TooMany)
  {
    if (w.desk.arrivalReady && w.desk.retries + w.probes >= RETRY_LIMIT)
       || (!w.desk.arrivalReady && w.desk.checks + w.probes >= CHECK_LIMIT) {
      NoRoomOversteps(w, android);
    } else {
      SixOverstep(w, android);
      Attended(w, android, true);
    }
  }

  lemma Attended(w: World, android: bool, attended: bool)
    requires Oversteps(w, android, attended, SixTried)
    ensures Oversteps(w, android, true, TooMany)
  {
    var run: seq<Event> :|
      AllKept(w, run, android) && SixTried(After(w, run, android)) && (attended || Unattended(run));
    assert AllKept(w, run, android) && TooMany(After(w, run, android));
  }

  // The discipline is exact, step by step: after a step that the guard on orders allows, no run under the discipline
  // makes more than 180 automatic checks or 5 automatic attempts, if and only if the step keeps the discipline.
  lemma LimitsHoldIff(w: World, e: Event, android: bool)
    requires Within(w) && Enabled(w, e, true)
    ensures Oversteps(Next(w, e, android), android, true, TooMany) <==> !Kept(w, e, android)
  {
    var next := Next(w, e, android);
    if Kept(w, e, android) {
      KeptStep(w, e, android);
      forall run: seq<Event> | AllKept(next, run, android) ensures !TooMany(After(next, run, android)) {
        KeptWithin(next, run, android);
      }
    } else if LateEntry(w, e) {
      LateEntryOversteps(w, e, android);
      Attended(next, android, !w.desk.handedOff);
    } else {
      ArmedIsFree(w, e, android);
      SafeStep(w, e, android);
      MatchedStep(w, e, android);
      NoRoomAnyway(next, android);
    }
  }

  // ---------- a run that makes six attempts without any act of the user ----------

  const ORDER := Payment(0, Some(10), Some(0))
  const ORDERED := World(Desk(Some(ORDER), false, false, true, true, 0, 0, false), 0, map[], 0, 1, [], 0, 0, 0, 0, 1)

  // Under the discipline and left alone, the first world leads to the second.
  ghost predicate Comes(w: World, next: World, android: bool) {
    exists run: seq<Event> :: AllKept(w, run, android) && Unattended(run) && After(w, run, android) == next
  }

  lemma Stays(w: World, android: bool)
    ensures Comes(w, w, android)
  {
    assert AllKept(w, [], android) && Unattended([]) && After(w, [], android) == w;
  }

  lemma ComesBefore(w: World, e: Event, mid: World, next: World, android: bool)
    requires Kept(w, e, android) && !UserAct(e) && Next(w, e, android) == mid && Comes(mid, next, android)
    ensures Comes(w, next, android)
  {
    var run: seq<Event> :| AllKept(mid, run, android) && Unattended(run) && After(mid, run, android) == next;
    assert ([e] + run)[1..] == run;
    assert AllKept(w, [e] + run, android) && Unattended([e] + run) && After(w, [e] + run, android) == next;
  }

  // A check was counted and waits for its own background question, on the way to the detection or behind it.
  predicate Asked(w: World, checks: nat, tasks: map<nat, Task>) {
    && w.desk == Desk(Some(ORDER), false, false, true, false, checks, 0, false) && w.probes == 0
    && w.tasks == tasks && w.nextTask == checks && w.autoRetries == 0 && w.peak == 1
  }

  predicate Armed(w: World, checks: nat, tasks: map<nat, Task>) {
    && w.desk == Desk(Some(ORDER), false, false, true, true, checks, 0, false) && w.probes == 0
    && w.tasks == tasks && w.nextTask == checks && w.autoRetries == 0 && w.peak == 1
  }

  lemma CheckAsked(w: World, checks: nat, tasks: map<nat, Task>, android: bool)
    requires Armed(w, checks, tasks)
    ensures var fired := Next(w, TimerFires, android);
            && Kept(w, TimerFires, android) && Kept(fired, ProbeReply(false), android)
            && Asked(Next(fired, ProbeReply(false), android), checks + 1, tasks[checks := Asking(true, false)])
  {}

  lemma ReturnArms(w: World, checks: nat, tasks: map<nat, Task>, android: bool)
    requires Asked(w, checks, tasks) && checks < 100
    ensures Kept(w, Focus, android) && Armed(Next(w, Focus, android), checks, tasks)
  {}

  // The first of two checks takes the desk,
  predicate FirstIn(w: World, d: Desk, stage: Stage) {
    && w.desk == d && w.probes == 0 && w.nextTask == 2 && w.autoRetries == 0 && w.peak == 1
    && 1 in w.tasks && w.tasks[1] == Asking(true, false)
    && 0 in w.tasks && w.tasks[0] == Running(Run(ORDER, true, false, stage, false))
  }

  lemma FirstEnters(w: World, android: bool)
    requires Asked(w, 2, map[0 := Asking(true, false), 1 := Asking(true, false)])
    ensures Kept(w, Enter(0, false), android)
    ensures FirstIn(
      Next(w, Enter(0, false), android), Desk(Some(ORDER), false, true, true, false, 2, 0, false), Balances)
  {}

  // finds the arrival,
  lemma FirstFinds(w: World, android: bool)
    requires FirstIn(w, Desk(Some(ORDER), false, true, true, false, 2, 0, false), Balances)
    ensures Kept(w, Wake(0, Snapshot(true, Some(10))), android)
    ensures FirstIn(
      Next(w, Wake(0, Snapshot(true, Some(10))), android),
      Desk(Some(ORDER), true, true, true, false, CHECK_LIMIT, 0, false), Preparing)
  {}

  // and fails to prepare the transfer.
  lemma FirstFails(w: World, android: bool)
    requires FirstIn(w, Desk(Some(ORDER), true, true, true, false, CHECK_LIMIT, 0, false), Preparing)
    ensures var next := Next(w, Wake(0, Failed), android);
            && Kept(w, Wake(0, Failed), android)
            && next.desk == Desk(Some(ORDER), true, false, true, true, CHECK_LIMIT, 0, false) && next.probes == 0
            && next.nextTask == 2 && 1 in next.tasks && next.tasks[1] == Asking(true, false)
            && next.autoRetries == 0 && next.peak == 1
  {}

  lemma FirstAttempt(w: World, android: bool)
    requires w.desk == Desk(Some(ORDER), true, false, true, true, CHECK_LIMIT, 0, false) && w.probes == 0
    requires w.nextTask == 2 && 1 in w.tasks && w.tasks[1] == Asking(true, false) && w.peak == 1
    ensures var fired := Next(w, TimerFires, android);
            var next := Next(fired, ProbeReply(false), android);
            && Kept(w, TimerFires, android) && Kept(fired, ProbeReply(false), android)
            && LateEntry(next, Enter(1, false)) && next.desk.handedOff && next.peak == 1
  {}

  lemma SecondArmed(android: bool) returns (w: World)
    ensures Asked(w, 2, map[0 := Asking(true, false), 1 := Asking(true, false)])
    ensures forall next: World :: Comes(w, next, android) ==> Comes(ORDERED, next, android)
  {
    var fired := Next(ORDERED, TimerFires, android);
    var asked := Next(fired, ProbeReply(false), android);
    var armed := Next(asked, Focus, android);
    var again := Next(armed, TimerFires, android);
    w := Next(again, ProbeReply(false), android);
    CheckAsked(ORDERED, 0, map[], android);
    ReturnArms(asked, 1, map[][0 := Asking(true, false)], android);
    CheckAsked(armed, 1, map[][0 := Asking(true, false)], android);
    forall next: World | Comes(w, next, android) ensures Comes(ORDERED, next, android) {
      ComesBefore(again, ProbeReply(false), w, next, android);
      ComesBefore(armed, TimerFires, again, next, android);
      ComesBefore(asked, Focus, armed, next, android);
      ComesBefore(fired, ProbeReply(false), asked, next, android);
      ComesBefore(ORDERED, TimerFires, fired, next, android);
    }
  }

  lemma LateComes(android: bool) returns (w: World)
    ensures Comes(ORDERED, w, android) && LateEntry(w, Enter(1, false)) && w.desk.handedOff && w.peak == 1
  {
    var start := SecondArmed(android);
    var entered := Next(start, Enter(0, false), android);
    var known := Next(entered, Wake(0, Snapshot(true, Some(10))), android);
    var failed := Next(known, Wake(0, Failed), android);
    var fired := Next(failed, TimerFires, android);
    w := Next(fired, ProbeReply(false), android);
    FirstEnters(start, android);
    FirstFinds(entered, android);
    FirstFails(known, android);
    FirstAttempt(failed, android);
    Stays(w, android);
    ComesBefore(fired, ProbeReply(false), w, w, android);
    ComesBefore(failed, TimerFires, fired, w, android);
    ComesBefore(known, Wake(0, Failed), failed, w, android);
    ComesBefore(entered, Wake(0, Snapshot(true, Some(10))), known, w, android);
    ComesBefore(start, Enter(0, false), entered, w, android);
  }

  lemma OrderedIsWithin(android: bool)
    ensures ORDERED == Next(START, TENNER, android) && Within(ORDERED)
  {
    StartIsWithin();
    KeptStep(START, TENNER, android);
  }

  // One order, never more than one callback, and no act of the user after the order was remembered: a second check
  // enters after the first has found the arrival, and the limit of five attempts is passed.
  lemma SixAttemptsUnattended(android: bool) returns (w: World)
    ensures Comes(ORDERED, w, android) && w.peak == 1 && Within(w) && LateEntry(w, Enter(1, false))
    ensures Oversteps(Next(w, Enter(1, false), android), android, false, SixTried)
  {
    w := LateComes(android);
    OrderedIsWithin(android);
    var run: seq<Event> :| AllKept(ORDERED, run, android) && Unattended(run) && After(ORDERED, run, android) == w;
    KeptWithin(ORDERED, run, android);
    LateEntryOversteps(w, Enter(1, false), android);
  }
}
