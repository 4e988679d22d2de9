/** When a WeChat order is checked at all: not before it is handed over, not out of sight, not once it is given up, and
    twenty times if it stays unpaid. */
module WechatOrders {
  import opened Optional
  import opened WechatChecks

  // An automatic completion that may still plan another check.
  predicate Checks(r: Run) {
    r.automatic && (r.stage.Checking? || r.stage.Prompting?)
  }

  ghost predicate NoneChecks(w: World) {
    forall r :: r in w.runs ==> !Checks(w.runs[r])
  }

  // ---------- nothing before the handoff ----------

  // No order was handed over or its code shown, and nothing is under way that could check one.
  ghost predicate Quiet(w: World) {
    !w.desk.handoff && Pending(w) == 0 && NoneChecks(w)
  }

  predicate Hands(e: Event) {
    e.Handoff? || e.Show?
  }

  lemma QuietStep(w: World, e: Event, android: bool)
    requires Quiet(w) && Enabled(w, e, false) && !Hands(e)
    ensures Quiet(Next(w, e, android)) && Next(w, e, android).desk.count <= w.desk.count
  {}

  // Without a handoff no automatic check is planned or made, whatever else happens: not for a new order, and not
  // after the payment app could not be opened.
  lemma {:induction false} NoHandoffNoCheck(w: World, run: seq<Event>, android: bool)
    requires Quiet(w) && Possible(w, run, false, android)
    requires forall k :: 0 <= k < |run| ==> !Hands(run[k])
    ensures Quiet(After(w, run, android)) && After(w, run, android).desk.count <= w.desk.count
    decreases |run|
  {
    if run != [] {
      QuietStep(w, run[0], android);
      NoHandoffNoCheck(Next(w, run[0], android), run[1..], android);
    }
  }

  lemma NewOrderIsQuiet(w: World, android: bool)
    requires Pending(w) == 0 && NoneChecks(w)
    ensures Quiet(Next(w, Remember, android)) && Quiet(Next(w, HandoffFails, android)) && Quiet(START)
    ensures Next(w, Remember, android).desk.active == Some(w.nextOrder)
    ensures Next(w, HandoffFails, android).desk.active == w.desk.active
  {}

  // ---------- nothing out of sight ----------

  predicate Unseen(e: Event) {
    match e
    case Show(hidden) => hidden
    case Focus(hidden) => hidden
    case Fire(hidden) => hidden
    case Answer(_, _, hidden) => hidden
    case _ => true
  }

  lemma UnseenStep(w: World, e: Event, android: bool)
    requires NoneChecks(w) && Unseen(e) && Enabled(w, e, false)
    ensures var n := Next(w, e, android);
            NoneChecks(n) && Pending(n) <= Pending(w) && n.desk.count <= w.desk.count
  {}

  // While the app is hidden no automatic check is planned or made, even by timers set before.
  lemma {:induction false} HiddenChecksNothing(w: World, run: seq<Event>, android: bool)
    requires NoneChecks(w) && Possible(w, run, false, android)
    requires forall k :: 0 <= k < |run| ==> Unseen(run[k])
    ensures var a := After(w, run, android);
            NoneChecks(a) && Pending(a) <= Pending(w) && a.desk.count <= w.desk.count
    decreases |run|
  {
    if run != [] {
      UnseenStep(w, run[0], android);
      HiddenChecksNothing(Next(w, run[0], android), run[1..], android);
    }
  }

  // ---------- nothing for an order given up ----------

  predicate StartedSince(before: World, after: World) {
    !(after.runs.Keys <= before.runs.Keys)
  }

  lemma NoOrderDesk(w: World, e: Event, android: bool)
    requires w.desk.active.None? && !e.Remember?
    ensures Next(w, e, android).desk.active.None? && (w.desk.count == 0 ==> Next(w, e, android).desk.count == 0)
  {}

  lemma NoOrderRuns(w: World, e: Event, android: bool)
    requires w.desk.active.None? && !e.Remember?
    ensures Next(w, e, android).runs.Keys <= w.runs.Keys
  {}

  lemma {:induction false} NoOrderNoCheck(w: World, run: seq<Event>, android: bool)
    requires w.desk.active.None? && forall k :: 0 <= k < |run| ==> !run[k].Remember?
    ensures var a := After(w, run, android);
            && a.desk.active.None? && !StartedSince(w, a) && (w.desk.count == 0 ==> a.desk.count == 0)
    decreases |run|
  {
    if run != [] {
      NoOrderDesk(w, run[0], android);
      NoOrderRuns(w, run[0], android);
      NoOrderNoCheck(Next(w, run[0], android), run[1..], android);
    }
  }

  // An order given up is gone, the desk free and its timer cleared, and until another is remembered no completion is
  // started, neither by a click nor by a timer left without a handle.
  lemma GivenUpIsQuiet(w: World, run: seq<Event>, android: bool)
    requires forall k :: 0 <= k < |run| ==> !run[k].Remember?
    ensures var c := Next(w, Clear, android);
            && c.desk == START.desk && c.runs == w.runs && c.orphans == w.orphans
            && After(c, run, android).desk.active.None? && After(c, run, android).desk.count == 0
            && !StartedSince(w, After(c, run, android))
  {
    NoOrderNoCheck(Next(w, Clear, android), run, android);
  }

  // ---------- what an answer and the end of a completion do ----------

  // An answer counts only for the order still active: a paid one goes on to the transfer; an unpaid one frees the
  // desk, and plans another check if it was an automatic one and fewer than twenty were made, on Android after a
  // prompt the first time.
  lemma AnswerDecides(w: World, r: nat, paid: bool, hidden: bool, android: bool)
    requires Enabled(w, Answer(r, paid, hidden), false)
    ensures var n, run := Next(w, Answer(r, paid, hidden), android), w.runs[r];
            var current := w.desk.active == Some(run.order);
            var prompts := current && !paid && run.automatic && android && !w.desk.prompted && w.desk.handoff;
            && (r in n.runs <==> (current && paid) || prompts)
            && (current && paid ==> n.runs == w.runs[r := run.(stage := Transferring)] && n.desk == w.desk)
            && (prompts ==> n.runs == w.runs[r := run.(stage := Prompting)] && n.desk.prompted)
            && (r !in n.runs ==> !n.desk.busy && n.desk.active == w.desk.active && n.desk.prompted == w.desk.prompted)
            && (!current ==> Pending(n) == Pending(w))
            && (current && !paid && !prompts ==>
                  Pending(n) == Pending(w) + if run.automatic && w.desk.count < 20 then 1 else 0)
  {}

  // A completion that ends frees the desk. Only one whose transfer is uncertain gives its order up; if the user asked
  // for it, its alert is still to be closed.
  lemma EndDecides(w: World, r: nat, uncertain: bool, android: bool)
    requires Enabled(w, Ends(r, uncertain), false)
    ensures var n, run := Next(w, Ends(r, uncertain), android), w.runs[r];
            var gives := uncertain && run.stage.Transferring?;
            && !n.desk.busy
            && n.desk == (if gives then START.desk else w.desk.(busy := false))
            && n.runs == if gives && !run.automatic then w.runs[r := run.(stage := Reporting)] else w.runs - {r}
  {}

  // A click starts a completion exactly if there is an order and none holds the desk.
  lemma ClickDecides(w: World, android: bool)
    ensures var n := Next(w, Click, android);
            if w.desk.active.Some? && !w.desk.busy
            then n.runs == w.runs[w.nextRun := Run(w.desk.active.value, false, Checking)] && n.desk.busy
            else n == w
  {}

  // A new order begins without a handoff, a check or a prompt, and takes over the desk and the timers as they are.
  lemma OrderBegins(w: World, android: bool)
    ensures var n := Next(w, Remember, android);
            && n.desk == Desk(Some(w.nextOrder), false, w.desk.busy, 0, w.desk.held, false)
            && n.runs == w.runs && n.orphans == w.orphans && n.nextOrder == w.nextOrder + 1
  {}

  // Without an order there is nothing to hand over, and showing the code of one already handed over does not start
  // its checks anew.
  lemma HandoverOnce(w: World, hidden: bool, android: bool)
    ensures w.desk.active.None? ==> Next(w, Handoff, android) == w
    ensures w.desk.active.None? || w.desk.handoff ==>
              Next(w, Show(hidden), android).desk.(held := w.desk.held) == w.desk
  {}

  // A timer that fires is gone, and with it the handle. It starts a check, and counts it, exactly if there is an order,
  // the desk is free and the app in sight.
  lemma TimerDecides(w: World, hidden: bool, android: bool)
    requires Enabled(w, Fire(hidden), false)
    ensures var n := Next(w, Fire(hidden), android);
            var checks := w.desk.active.Some? && !w.desk.busy && !hidden;
            && Pending(n) == Pending(w) - 1 && !n.desk.held
            && n.desk.count == w.desk.count + (if checks then 1 else 0) && n.desk.busy == (w.desk.busy || checks)
            && n.runs == if checks then w.runs[w.nextRun := Run(w.desk.active.value, true, Checking)] else w.runs
  {}

  // ---------- twenty checks ----------

  // The order waits for its next check, and nothing else is under way.
  predicate Ready(w: World, p: nat, n: nat) {
    w.desk == Desk(Some(p), true, false, n, true, w.desk.prompted) && w.orphans == 0 && w.runs == map[]
  }

  // No further check is planned for the order.
  predicate Spent(w: World, p: nat) {
    w.desk == Desk(Some(p), true, false, 20, false, w.desk.prompted) && w.orphans == 0 && w.runs == map[]
  }

  predicate Unpaid(w: World, a: nat, p: nat, n: nat) {
    && w.desk == Desk(Some(p), true, true, n, false, w.desk.prompted) && w.orphans == 0
    && w.runs == map[a := Run(p, true, Checking)]
  }

  predicate AfterCheck(w: World, p: nat, n: nat) {
    if n < 20 then Ready(w, p, n) else n == 20 && Spent(w, p)
  }

  ghost predicate Leaves(w: World, next: World, android: bool) {
    exists run: seq<Event> :: Possible(w, run, true, android) && After(w, run, android) == next
  }

  lemma AtOnce(w: World, android: bool)
    ensures Leaves(w, w, android)
  {
    assert Possible(w, [], true, android) && After(w, [], android) == w;
  }

  lemma OneStep(w: World, e: Event, mid: World, next: World, android: bool)
    requires Enabled(w, e, true) && Next(w, e, android) == mid && Leaves(mid, next, android)
    ensures Leaves(w, next, android)
  {
    var run: seq<Event> :| Possible(mid, run, true, android) && After(mid, run, android) == next;
    assert ([e] + run)[1..] == run;
    assert Possible(w, [e] + run, true, android) && After(w, [e] + run, android) == next;
  }

  lemma CheckStarts(w: World, p: nat, n: nat, android: bool)
    requires Ready(w, p, n)
    ensures Enabled(w, Fire(false), true) && Unpaid(Next(w, Fire(false), android), w.nextRun, p, n + 1)
  {}

  lemma CheckEnds(w: World, a: nat, p: nat, n: nat, android: bool)
    requires Unpaid(w, a, p, n) && 1 <= n <= 20 && (android ==> w.desk.prompted)
    ensures Enabled(w, Answer(a, false, true), true)
    ensures AfterCheck(Next(w, Answer(a, false, true), android), p, n)
  {
    assert w.runs - {a} == map[];
  }

  lemma PromptEnds(w: World, a: nat, p: nat, n: nat)
    requires Unpaid(w, a, p, n) && 1 <= n <= 20 && !w.desk.prompted
    ensures var mid := Next(w, Answer(a, false, true), true);
            && Enabled(w, Answer(a, false, true), true) && Enabled(mid, Event.Prompted(a), true)
            && AfterCheck(Next(mid, Event.Prompted(a), true), p, n)
  {
    var prompting := map[a := Run(p, true, Prompting)];
    assert w.runs[a := Run(p, true, Prompting)] == prompting && prompting - {a} == map[];
  }

  lemma OneCheck(w: World, p: nat, n: nat, android: bool) returns (next: World)
    requires Ready(w, p, n) && n < 20
    ensures AfterCheck(next, p, n + 1)
    ensures forall last :: Leaves(next, last, android) ==> Leaves(w, last, android)
  {
    var fired := Next(w, Fire(false), android);
    CheckStarts(w, p, n, android);
    var answered := Next(fired, Answer(w.nextRun, false, true), android);
    next := answered;
    if android && !fired.desk.prompted {
      PromptEnds(fired, w.nextRun, p, n + 1);
      next := Next(answered, Event.Prompted(w.nextRun), android);
    } else {
      CheckEnds(fired, w.nextRun, p, n + 1, android);
    }
    forall last | Leaves(next, last, android) ensures Leaves(w, last, android) {
      if next != answered { OneStep(answered, Event.Prompted(w.nextRun), next, last, android); }
      OneStep(fired, Answer(w.nextRun, false, true), answered, last, android);
      OneStep(w, Fire(false), fired, last, android);
    }
  }

  lemma {:induction false} RemainingChecks(w: World, p: nat, n: nat, android: bool) returns (last: World)
    requires AfterCheck(w, p, n)
    ensures Leaves(w, last, android) && Spent(last, p)
    decreases 20 - n
  {
    if n == 20 {
      AtOnce(w, android);
      last := w;
    } else {
      var next := OneCheck(w, p, n, android);
      last := RemainingChecks(next, p, n + 1, android);
    }
  }

  // However many checks were made before: an order handed over, or whose code is shown for the first time, is checked
  // up to twenty times while it stays unpaid, and then no check is planned any more.
  lemma TwentyChecks(w: World, p: nat, android: bool, shown: bool) returns (last: World)
    requires w.desk.active == Some(p) && !w.desk.busy && Pending(w) == 0 && w.runs == map[]
    requires shown ==> !w.desk.handoff
    ensures var handed := Next(w, if shown then Show(true) else Handoff, android);
            Leaves(handed, last, android) && Spent(last, p)
  {
    var handed := Next(w, if shown then Show(true) else Handoff, android);
    var ready := Next(handed, Focus(false), android);
    last := RemainingChecks(ready, p, 0, android);
    OneStep(handed, Focus(false), ready, last, android);
  }

  // On Android the first unpaid check after an order was handed over prompts, whatever was prompted before.
  lemma HandoffPrompts(w: World, hidden: bool, r: nat)
    requires Enabled(w, Answer(r, false, hidden), false)
    requires w.runs[r].automatic && w.desk.active == Some(w.runs[r].order)
    ensures var handed := Next(w, Handoff, true);
            Next(handed, Answer(r, false, hidden), true).runs[r].stage.Prompting?
  {}

  // ---------- the number of timers ----------

  // The peak is the largest number of pending timers so far: never less, and reached.
  lemma {:induction false} PeakIsLargest(w: World, run: seq<Event>, android: bool)
    requires Pending(w) <= w.peak
    ensures var a := After(w, run, android);
            && w.peak <= a.peak && Pending(a) <= a.peak
            && (a.peak == w.peak || exists k :: 0 <= k <= |run| && Pending(After(w, run[..k], android)) == a.peak)
    decreases |run|
  {
    if run != [] {
      var next := Next(w, run[0], android);
      PeakStep(w, run[0], android);
      PeakIsLargest(next, run[1..], android);
      var peak := After(w, run, android).peak;
      if peak != w.peak {
        var j: int :| 0 <= j <= |run| - 1 && Pending(After(next, run[1..][..j], android)) == peak by {
          if peak == next.peak { assert run[1..][..0] == [] && After(next, [], android) == next; }
        }
        assert run[..j + 1][1..] == run[1..][..j];
        assert After(w, run[..j + 1], android) == After(next, run[1..][..j], android);
      }
    }
  }

  lemma PeakStep(w: World, e: Event, android: bool)
    requires Pending(w) <= w.peak
    ensures var n := Next(w, e, android);
            w.peak <= n.peak && Pending(n) <= n.peak && (n.peak == w.peak || Pending(n) == n.peak)
  {}
}
