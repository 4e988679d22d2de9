/** How often the Alipay recharge acts on its own, in any run at all. */
module AlipayBounds {
  import opened Optional
  import opened AlipayDesk
  import opened AlipayRuns

  // Timer callbacks that are armed or wait for their background question.
  function Callbacks(w: World): nat {
    w.probes + if w.desk.timer then 1 else 0
  }

  // The attempts of one detection, once for the first and once for every later one.
  function Cap(peak: nat, redetected: nat): nat {
    (4 + peak) * (1 + redetected)
  }

  lemma CapGrows(peak: nat, more: nat, redetected: nat, again: nat)
    requires peak <= more && redetected <= again
    ensures Cap(peak, redetected) <= Cap(more, again)
    ensures Cap(more, redetected) + 4 + more == Cap(more, redetected + 1)
  {
    TimesGrows(4 + peak, 4 + more, 1 + redetected);
    TimesGrows(1 + redetected, 1 + again, 4 + more);
    assert (4 + more) * (1 + redetected) + (4 + more) == (4 + more) * (1 + (redetected + 1));
  }

  lemma TimesGrows(a: nat, b: nat, k: nat)
    requires a <= b
    ensures a * k <= b * k && k * a <= k * b
  {
    assert (b - a) * k >= 0;
  }

  // While the arrival is known, the retry counter and the detections before this one cover the attempts.
  ghost predicate Bounded(w: World) {
    && Callbacks(w) <= w.peak
    && w.autoChecks <= 179 + w.peak && w.autoRetries <= Cap(w.peak, w.redetected)
    && (w.desk.arrivalReady ==> w.desk.active.Some?)
    && (w.desk.active.Some? && !w.desk.arrivalReady ==>
          w.autoChecks <= w.desk.checks && w.autoChecks + Callbacks(w) <= 179 + w.peak && w.autoRetries == 0)
    && (w.desk.active.Some? && w.desk.arrivalReady ==>
          w.desk.retries + Callbacks(w) <= 4 + w.peak
          && w.autoRetries + 4 + w.peak <= Cap(w.peak, w.redetected) + w.desk.retries)
  }

  // A new desk that changes the order's state the way the stretches do keeps the bounds: what is counted stays
  // covered by the counters, and a callback is only armed below the limits.
  predicate Steady(w: World, d: Desk) {
    && (d.arrivalReady ==> d.active.Some?)
    && (d.active.Some? ==> d.active == w.desk.active)
    && (d.active.Some? && !d.arrivalReady ==> !w.desk.arrivalReady && d.checks == w.desk.checks)
    && (d.active.Some? && d.arrivalReady ==> w.desk.arrivalReady && d.retries == w.desk.retries)
    && (d.timer && !w.desk.timer ==>
          d.active.Some? && (if d.arrivalReady then d.retries < RETRY_LIMIT else d.checks < CHECK_LIMIT))
  }

  lemma SteadyBounded(w: World, next: World)
    requires Bounded(w) && Steady(w, next.desk)
    requires next.probes == w.probes && next.autoChecks == w.autoChecks && next.autoRetries == w.autoRetries
    requires next.redetected == w.redetected
    requires next.peak == (if next.desk.timer then Max(w.peak, w.probes + 1) else w.peak)
    ensures Bounded(next)
  {
    CapGrows(w.peak, next.peak, w.redetected, w.redetected);
    CapStep(w.peak, next.peak, w.redetected);
  }

  lemma CapStep(peak: nat, more: nat, redetected: nat)
    requires peak <= more
    ensures Cap(more, redetected) - Cap(peak, redetected) >= more - peak
  {
    TimesGrows(1, 1 + redetected, more - peak);
    assert Cap(more, redetected) - Cap(peak, redetected) == (more - peak) * (1 + redetected);
  }

  lemma ScheduledSteady(w: World)
    ensures (w.desk.arrivalReady ==> w.desk.active.Some?) ==> Steady(w, Scheduled(w.desk))
  {}

  lemma ClearedSteady(w: World)
    ensures Steady(w, Cleared(w.desk))
  {}

  lemma ReleasedSteady(w: World, d: Desk)
    requires Steady(w, d) && (d.arrivalReady ==> d.active.Some?)
    ensures Steady(w, Released(d))
  {}

  // The stretches of a completion, except the one that detects an arrival.
  lemma ResumedSteady(w: World, r: Run, reply: Reply, android: bool)
    requires w.desk.arrivalReady ==> w.desk.active.Some?
    requires !Detects(w.desk, r, reply)
    ensures Steady(w, Resumed(w.desk, r, reply, android).desk)
  {
    ReleasedSteady(w, w.desk);
    ReleasedSteady(w, Cleared(w.desk));
    ReleasedSteady(w, w.desk.(promptShown := true));
  }

  // Detecting an arrival restarts the retry count; detecting it again is what can raise the attempts.
  lemma DetectedBounded(w: World, t: nat, reply: Reply, android: bool)
    requires Bounded(w) && t in w.tasks && w.tasks[t].Running? && Detects(w.desk, w.tasks[t].run, reply)
    ensures Bounded(Woken(w, t, reply, android))
  {
    CapGrows(w.peak, w.peak, w.redetected, w.redetected + 1);
    CapGrows(w.peak, w.peak, 0, w.redetected);
    var d := Resumed(w.desk, w.tasks[t].run, reply, android).desk;
    assert d == w.desk.(checks := CHECK_LIMIT, retries := 0, arrivalReady := true);
  }

  lemma UserBounded(w: World, e: Event, android: bool)
    requires Bounded(w) && (e.Remember? || e.Restore? || e.Reopen?)
    ensures Bounded(Next(w, e, android))
  {
    var next := Next(w, e, android);
    CapGrows(w.peak, next.peak, w.redetected, w.redetected);
    CapStep(w.peak, next.peak, w.redetected);
    assert Cap(next.peak, 0) == 4 + next.peak;
  }

  lemma ProbeBounded(w: World, background: bool, android: bool)
    requires Bounded(w) && w.probes > 0
    ensures Bounded(Next(w, ProbeReply(background), android))
  {}

  lemma BoundStep(w: World, e: Event, guarded: bool, android: bool)
    requires Bounded(w) && Enabled(w, e, guarded)
    ensures Bounded(Next(w, e, android))
  {
    match e {
      case Remember(_, _) => UserBounded(w, e, android);
      case Restore(_, _) => UserBounded(w, e, android);
      case Reopen => UserBounded(w, e, android);
      case Abandon => ClearedSteady(w); SteadyBounded(w, Next(w, e, android));
      case Focus => ScheduledSteady(w); SteadyBounded(w, Next(w, e, android));
      case ProbeReply(background) => ProbeBounded(w, background, android);
      case Wake(t, reply) => WakeBounded(w, t, reply, android);
      case _ =>
    }
  }

  lemma WakeBounded(w: World, t: nat, reply: Reply, android: bool)
    requires Bounded(w) && t in w.tasks && w.tasks[t].Running?
    ensures Bounded(Next(w, Wake(t, reply), android))
  {
    var r := w.tasks[t].run;
    if Detects(w.desk, r, reply) {
      DetectedBounded(w, t, reply, android);
    } else {
      ResumedSteady(w, r, reply, android);
      SteadyBounded(w, Next(w, Wake(t, reply), android));
    }
  }

  // ---------- how often an arrival can be detected again ----------

  lemma Smaller(a: set<nat>, b: set<nat>)
    requires a <= b
    ensures |a| <= |b|
  {
    var rest := b - a;
    assert b == a + rest;
  }

  // Each detection after the first uses up a completion that was unaware of the arrival.
  ghost predicate Counted(w: World) {
    && (w.desk.active.Some? && !w.desk.arrivalReady ==> w.redetected == 0)
    && (w.desk.arrivalReady ==> w.desk.active.Some? && w.redetected + |UnawareTasks(w.tasks)| <= w.late)
    && w.redetected <= w.late
  }

  lemma ShrinksCounted(w: World, next: World)
    requires Counted(w) && UnawareTasks(next.tasks) <= UnawareTasks(w.tasks)
    requires next.redetected == w.redetected && next.late == w.late
    requires next.desk.arrivalReady ==> w.desk.arrivalReady && next.desk.active.Some?
    requires next.desk.active.Some? && !next.desk.arrivalReady ==> w.desk.active.Some? && !w.desk.arrivalReady
    ensures Counted(next)
  {
    Smaller(UnawareTasks(next.tasks), UnawareTasks(w.tasks));
  }

  lemma AskedCounted(w: World, automatic: bool, approved: bool)
    requires Counted(w) && (automatic ==> approved == w.desk.arrivalReady)
    ensures Counted(Asks(if automatic then w else AlipayRuns.Clicked(w, approved), automatic, approved))
  {
    if !w.desk.busy {
      var tasks := w.tasks[w.nextTask := Asking(automatic, approved)];
      assert UnawareTasks(tasks) <= UnawareTasks(w.tasks) + {w.nextTask};
      assert approved ==> UnawareTasks(tasks) <= UnawareTasks(w.tasks);
      Smaller(UnawareTasks(tasks), UnawareTasks(w.tasks) + {w.nextTask});
      if approved { Smaller(UnawareTasks(tasks), UnawareTasks(w.tasks)); }
    }
  }

  // A stretch never makes a completion unaware that was not.
  lemma StretchLeaves(d: Desk, r: Run, reply: Reply, android: bool)
    ensures var o := Resumed(d, r, reply, android); o.run.Some? ==> !Unaware(Running(o.run.value))
  {}

  // What it makes of the known arrival.
  predicate ReadyAfter(d: Desk, next: Desk, detects: bool) {
    && (next.active.Some? ==> next.active == d.active && next.arrivalReady == (detects || d.arrivalReady))
    && (next.active.None? && (d.arrivalReady ==> d.active.Some?) ==> !next.arrivalReady)
    && (detects ==> next.active.Some?)
  }

  lemma BalancesReady(d: Desk, r: Run, reply: Reply, android: bool)
    requires r.stage.Balances? && reply.Snapshot?
    ensures ReadyAfter(d, BalancesRead(d, r, reply.matches, reply.card, android).desk, Detects(d, r, reply))
  {
    ReleasedKeeps(d);
    ReleasedKeeps(d.(promptShown := true));
  }

  lemma OthersReady(d: Desk, r: Run, reply: Reply, android: bool)
    requires !(r.stage.Balances? && reply.Snapshot?)
    ensures ReadyAfter(d, Resumed(d, r, reply, android).desk, false)
  {
    ReleasedKeeps(d);
    ReleasedKeeps(Cleared(d));
  }

  lemma StretchReady(d: Desk, r: Run, reply: Reply, android: bool)
    ensures ReadyAfter(d, Resumed(d, r, reply, android).desk, Detects(d, r, reply))
    ensures Detects(d, r, reply) ==> Unaware(Running(r)) || !d.arrivalReady
  {
    if r.stage.Balances? && reply.Snapshot? {
      BalancesReady(d, r, reply, android);
    } else {
      OthersReady(d, r, reply, android);
    }
  }

  lemma SettledUnaware(w: World, t: nat, o: Outcome)
    requires t in w.tasks && (o.run.Some? ==> !Unaware(Running(o.run.value)))
    ensures UnawareTasks(Settled(w, t, o).tasks) <= UnawareTasks(w.tasks) - {t}
  {}

  lemma WokenCounted(w: World, t: nat, reply: Reply, android: bool)
    requires Counted(w) && t in w.tasks && w.tasks[t].Running?
    ensures Counted(Woken(w, t, reply, android))
  {
    var o := Resumed(w.desk, w.tasks[t].run, reply, android);
    var next := Settled(w, t, o);
    StretchLeaves(w.desk, w.tasks[t].run, reply, android);
    StretchReady(w.desk, w.tasks[t].run, reply, android);
    SettledUnaware(w, t, o);
    if Detects(w.desk, w.tasks[t].run, reply) {
      Smaller(UnawareTasks(next.tasks), UnawareTasks(w.tasks) - {t});
    } else {
      ShrinksCounted(w, next);
    }
  }

  lemma EnteredCounted(w: World, t: nat, background: bool, android: bool)
    requires Counted(w) && t in w.tasks && w.tasks[t].Asking?
    ensures Counted(Next(w, Enter(t, background), android))
  {
    var next := Next(w, Enter(t, background), android);
    assert UnawareTasks(next.tasks) <= UnawareTasks(w.tasks);
    ShrinksCounted(w, next);
  }

  lemma CountStep(w: World, e: Event, guarded: bool, android: bool)
    requires Counted(w) && Enabled(w, e, guarded)
    ensures Counted(Next(w, e, android))
  {
    match e {
      case Wake(t, reply) => WokenCounted(w, t, reply, android);
      case Enter(t, background) => EnteredCounted(w, t, background, android);
      case Click(approved) => AskedCounted(w, false, approved);
      case ProbeReply(background) =>
        if !background {
          var probed := Next(w, e, android);
          AskedCounted(probed.(tasks := w.tasks, nextTask := w.nextTask), true, w.desk.arrivalReady);
        }
      case _ =>
    }
  }

  lemma {:induction false} BoundsKept(w: World, run: seq<Event>, guarded: bool, android: bool)
    requires Possible(w, run, guarded, android) && Bounded(w) && Counted(w)
    ensures Bounded(After(w, run, android)) && Counted(After(w, run, android))
    decreases |run|
  {
    if run != [] {
      BoundStep(w, run[0], guarded, android);
      CountStep(w, run[0], guarded, android);
      BoundsKept(Next(w, run[0], android), run[1..], guarded, android);
    }
  }

  // In every run, guarded or not, with M the largest number of timer callbacks there ever was at once: at most 179 + M
  // automatic checks are made between two acts of the user that remember or reopen an order. At most 4 + M automatic
  // transfer attempts are made between two that remember or restore one, and as many again for each time the arrival
  // was detected again; and that is no more often than there were completions not told of it when it was first
  // detected, or clicked for after.
  lemma AutomationIsBounded(run: seq<Event>, guarded: bool, android: bool)
    requires Possible(START, run, guarded, android)
    ensures var w := After(START, run, android);
            && w.autoChecks <= 179 + w.peak
            && w.autoRetries <= (4 + w.peak) * (1 + w.redetected) && w.redetected <= w.late
  {
    BoundsKept(START, run, guarded, android);
  }

  // ---------- the bounds are reached ----------

  ghost predicate Reached(w: World, android: bool) {
    exists run: seq<Event> :: Possible(START, run, true, android) && After(START, run, android) == w
  }

  lemma {:induction false} OneMore(w: World, run: seq<Event>, e: Event, android: bool)
    requires Possible(w, run, true, android) && Enabled(After(w, run, android), e, true)
    ensures Possible(w, run + [e], true, android)
    ensures After(w, run + [e], android) == Next(After(w, run, android), e, android)
    decreases |run|
  {
    if run == [] {
      assert (run + [e])[1..] == [];
    } else {
      assert (run + [e])[1..] == run[1..] + [e];
      OneMore(Next(w, run[0], android), run[1..], e, android);
    }
  }

  lemma Onward(w: World, e: Event, android: bool)
    requires Reached(w, android) && Enabled(w, e, true)
    ensures Reached(Next(w, e, android), android)
  {
    var run: seq<Event> :| Possible(START, run, true, android) && After(START, run, android) == w;
    OneMore(START, run, e, android);
    assert Possible(START, run + [e], true, android);
  }

  // The attempts the program counts now: transfers once the arrival is known, checks before.
  function Attempts(w: World): nat {
    if w.desk.arrivalReady then w.autoRetries else w.autoChecks
  }

  function Limit(w: World): nat {
    if w.desk.arrivalReady then RETRY_LIMIT else CHECK_LIMIT
  }

  // An order waits on a free desk after n attempts, with k callbacks waiting and perhaps one armed.
  predicate Idle(w: World, n: nat, k: nat, timer: bool, ready: bool) {
    && Fires(w.desk) && w.desk.handedOff && w.desk.timer == timer && w.desk.arrivalReady == ready
    && (if ready then w.desk.retries else w.desk.checks) == n == Attempts(w)
    && w.probes == k && w.peak == (if timer then k + 1 else Max(k, 1)) && w.redetected == 0
  }

  lemma FirstArmed(ready: bool, android: bool) returns (w: World)
    ensures Reached(w, android) && Idle(w, 0, 0, true, ready)
  {
    assert Possible(START, [], true, android) && After(START, [], android) == START;
    var e := if ready then Restore(Some(10), Some(0)) else Remember(Some(10), Some(0));
    w := Next(START, e, android);
    Onward(START, e, android);
  }

  lemma TimerWaits(w: World, n: nat, k: nat, ready: bool, android: bool)
    requires Idle(w, n, k, true, ready)
    ensures Enabled(w, TimerFires, true) && Idle(Next(w, TimerFires, android), n, k + 1, false, ready)
  {}

  lemma FocusRearms(w: World, n: nat, k: nat, ready: bool, android: bool)
    requires Idle(w, n, k, false, ready) && n < Limit(w)
    ensures Enabled(w, Focus, true) && Idle(Next(w, Focus, android), n, k, true, ready)
  {}

  lemma AnswerCounts(w: World, n: nat, k: nat, ready: bool, android: bool)
    requires Fires(w.desk) && w.desk.arrivalReady == ready && w.probes == k > 0
    requires (if ready then w.desk.retries else w.desk.checks) == n == Attempts(w)
    ensures var next := Next(w, ProbeReply(false), android);
            && Enabled(w, ProbeReply(false), true) && next.probes == k - 1 && next.peak == w.peak
            && next.desk == (if ready then w.desk.(retries := n + 1) else w.desk.(checks := n + 1))
            && Attempts(next) == n + 1 && next.redetected == w.redetected
  {}

  lemma {:induction false} LimitNears(n: nat, ready: bool, android: bool) returns (w: World)
    requires n < if ready then RETRY_LIMIT else CHECK_LIMIT
    ensures Reached(w, android) && Idle(w, n, 0, true, ready)
  {
    if n == 0 {
      w := FirstArmed(ready, android);
    } else {
      var before := LimitNears(n - 1, ready, android);
      var fired := Next(before, TimerFires, android);
      var counted := Next(fired, ProbeReply(false), android);
      TimerWaits(before, n - 1, 0, ready, android);
      AnswerCounts(fired, n - 1, 1, ready, android);
      FocusRearms(counted, n, 0, ready, android);
      w := Next(counted, Focus, android);
      Onward(before, TimerFires, android);
      Onward(fired, ProbeReply(false), android);
      Onward(counted, Focus, android);
    }
  }

  lemma {:induction false} CallbacksPile(k: nat, ready: bool, android: bool) returns (w: World)
    ensures Reached(w, android) && Idle(w, if ready then RETRY_LIMIT - 1 else CHECK_LIMIT - 1, k, true, ready)
  {
    var n := if ready then RETRY_LIMIT - 1 else CHECK_LIMIT - 1;
    if k == 0 {
      w := LimitNears(n, ready, android);
    } else {
      var before := CallbacksPile(k - 1, ready, android);
      var fired := Next(before, TimerFires, android);
      TimerWaits(before, n, k - 1, ready, android);
      FocusRearms(fired, n, k, ready, android);
      w := Next(fired, Focus, android);
      Onward(before, TimerFires, android);
      Onward(fired, Focus, android);
    }
  }

  lemma {:induction false} AllCounted(w: World, n: nat, ready: bool, android: bool) returns (next: World)
    requires Reached(w, android) && Fires(w.desk) && w.desk.arrivalReady == ready
    requires (if ready then w.desk.retries else w.desk.checks) == n == Attempts(w)
    ensures Reached(next, android) && next.peak == w.peak && next.redetected == w.redetected
    ensures next.desk.arrivalReady == ready && Attempts(next) == n + w.probes
    decreases w.probes
  {
    if w.probes == 0 { return w; }
    AnswerCounts(w, n, w.probes, ready, android);
    Onward(w, ProbeReply(false), android);
    next := AllCounted(Next(w, ProbeReply(false), android), n + 1, ready, android);
  }

  // For every number of callbacks at once, runs in which each bound is reached: the limits of 180 and 5 are looked at
  // only when a callback is armed.
  lemma BoundsAreReached(callbacks: nat, ready: bool, android: bool) returns (w: World)
    requires callbacks >= 1
    ensures Reached(w, android) && w.peak == callbacks && w.redetected == 0 && w.desk.arrivalReady == ready
    ensures if ready then w.autoRetries == 4 + callbacks else w.autoChecks == 179 + callbacks
  {
    var piled := CallbacksPile(callbacks - 1, ready, android);
    var n := if ready then RETRY_LIMIT - 1 else CHECK_LIMIT - 1;
    TimerWaits(piled, n, callbacks - 1, ready, android);
    Onward(piled, TimerFires, android);
    w := AllCounted(Next(piled, TimerFires, android), n, ready, android);
  }
}
