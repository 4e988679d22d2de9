/** When an Alipay order is checked and transferred at all: not before it is handed over, not in the background, not
    once it is given up; 180 times while no arrival is seen; and when it is, once and to the end. */
module AlipayOrders {
  import opened Optional
  import opened AlipayDesk
  import opened AlipayRuns

  ghost function Underway(w: World): set<nat> {
    set t | t in w.tasks && w.tasks[t].Running?
  }

  // ---------- nothing before the handoff ----------

  ghost predicate Quiet(w: World) {
    !w.desk.handedOff && !w.desk.timer && w.probes == 0
  }

  predicate Hands(e: Event) {
    e.Remember? || e.Restore? || e.Reopen?
  }

  lemma ReleasedQuiet(d: Desk)
    requires !d.handedOff && !d.timer
    ensures !Released(d).handedOff && !Released(d).timer
  {}

  lemma ResumedQuiet(d: Desk, r: Run, reply: Reply, android: bool)
    requires !d.handedOff && !d.timer
    ensures !Resumed(d, r, reply, android).desk.handedOff && !Resumed(d, r, reply, android).desk.timer
  {
    if r.stage.Balances? && reply.Snapshot? { BalancesQuiet(d, r, reply.matches, reply.card, android); }
    ReleasedQuiet(d);
    ReleasedQuiet(Cleared(d));
  }

  lemma BalancesQuiet(d: Desk, r: Run, matches: bool, card: Option<int>, android: bool)
    requires !d.handedOff && !d.timer
    ensures var o := BalancesRead(d, r, matches, card, android); !o.desk.handedOff && !o.desk.timer
  {
    ReleasedQuiet(d);
    ReleasedQuiet(d.(promptShown := true));
  }

  lemma QuietStep(w: World, e: Event, android: bool)
    requires Quiet(w) && Enabled(w, e, false) && !Hands(e)
    ensures var n := Next(w, e, android);
            Quiet(n) && n.autoChecks == w.autoChecks && n.autoRetries == w.autoRetries
  {
    if e.Wake? { ResumedQuiet(w.desk, w.tasks[e.task].run, e.reply, android); }
  }

  // Without a handoff no automatic check or attempt is planned or made, whatever else happens.
  lemma {:induction false} NoHandoffNoCheck(w: World, run: seq<Event>, android: bool)
    requires Quiet(w) && Possible(w, run, false, android)
    requires forall k :: 0 <= k < |run| ==> !Hands(run[k])
    ensures var a := After(w, run, android);
            Quiet(a) && a.autoChecks == w.autoChecks && a.autoRetries == w.autoRetries
    decreases |run|
  {
    if run != [] {
      QuietStep(w, run[0], android);
      NoHandoffNoCheck(Next(w, run[0], android), run[1..], android);
    }
  }

  // So after the payment page could not be opened; the order stays.
  lemma FailedHandoffIsQuiet(w: World, android: bool)
    requires !w.desk.timer && w.probes == 0
    ensures var n := Next(w, OpenFails, android);
            Quiet(n) && n.desk == w.desk.(handedOff := false) && n.tasks == w.tasks
  {}

  // ---------- nothing in the background ----------

  predicate Unseen(e: Event) {
    (e.ProbeReply? || e.Enter?) ==> e.background
  }

  lemma UnseenStep(w: World, e: Event, android: bool)
    requires Unseen(e)
    ensures var n := Next(w, e, android);
            && Underway(n) <= Underway(w) && n.autoChecks <= w.autoChecks && n.autoRetries <= w.autoRetries
  {}

  // While the app is in the background no completion takes the desk and no attempt is counted.
  lemma {:induction false} BackgroundStartsNothing(w: World, run: seq<Event>, android: bool)
    requires forall k :: 0 <= k < |run| ==> Unseen(run[k])
    ensures var a := After(w, run, android);
            && Underway(a) <= Underway(w) && a.autoChecks <= w.autoChecks && a.autoRetries <= w.autoRetries
    decreases |run|
  {
    if run != [] {
      UnseenStep(w, run[0], android);
      BackgroundStartsNothing(Next(w, run[0], android), run[1..], android);
    }
  }

  // ---------- nothing for an order given up ----------

  lemma ResumedIdle(d: Desk, r: Run, reply: Reply, android: bool)
    requires d.active.None?
    ensures Resumed(d, r, reply, android).desk.active.None?
  {}

  lemma NoOrderStep(w: World, e: Event, android: bool)
    requires w.desk.active.None? && !e.Remember? && !e.Restore?
    ensures Next(w, e, android).desk.active.None? && Underway(Next(w, e, android)) <= Underway(w)
  {
    if e.Wake? && e.task in w.tasks && w.tasks[e.task].Running? {
      ResumedIdle(w.desk, w.tasks[e.task].run, e.reply, android);
    }
  }

  lemma {:induction false} NoOrderNothingStarts(w: World, run: seq<Event>, android: bool)
    requires w.desk.active.None? && forall k :: 0 <= k < |run| ==> !run[k].Remember? && !run[k].Restore?
    ensures After(w, run, android).desk.active.None? && Underway(After(w, run, android)) <= Underway(w)
    decreases |run|
  {
    if run != [] {
      NoOrderStep(w, run[0], android);
      NoOrderNothingStarts(Next(w, run[0], android), run[1..], android);
    }
  }

  // An order given up leaves the desk as it was at first, and until another is remembered or restored no completion
  // takes it, whatever was asked before.
  lemma GivenUpIsQuiet(w: World, run: seq<Event>, android: bool)
    requires forall k :: 0 <= k < |run| ==> !run[k].Remember? && !run[k].Restore?
    ensures var c := Next(w, Abandon, android);
            && c.desk == IDLE && c.tasks == w.tasks && c.log == w.log
            && After(c, run, android).desk.active.None? && Underway(After(c, run, android)) <= Underway(w)
  {
    NoOrderNothingStarts(Next(w, Abandon, android), run, android);
  }

  // ---------- what a reply leads to ----------

  // The end of a completion frees the desk, and plans another attempt exactly if there is an order that was handed
  // over and is short of its limit.
  lemma ReleaseIs(d: Desk)
    ensures var plans := d.active.Some? && d.handedOff && (if d.arrivalReady then d.retries < 5 else d.checks < 180);
            Released(d) == d.(busy := false, timer := d.timer || plans)
  {}

  // No arrival: the user is told if he asked, and on Android shown the payment page the first time after a handoff;
  // otherwise the completion ends.
  lemma NoArrivalIs(d: Desk, r: Run, card: Option<int>, android: bool)
    requires r.stage.Balances? && d.active == Some(r.payment) && !(r.approved && d.arrivalReady)
    requires !Exactly(r.payment, card)
    ensures var o := Resumed(d, r, Snapshot(true, card), android);
            var prompts := r.automatic && android && !d.promptShown && d.handedOff;
            && (prompts ==> o.desk == d.(promptShown := true) && o.run == Some(r.(stage := Alerting)))
            && (!r.automatic ==> o.desk == d && o.run == Some(r.(stage := Alerting)))
            && (r.automatic && !prompts ==> o.desk == Released(d) && o.run == None)
  {}

  // An arrival, read now or known to the completion, leads on to the preparation; read now it restarts the count.
  lemma ArrivalIs(d: Desk, r: Run, card: Option<int>, android: bool)
    requires r.stage.Balances? && d.active == Some(r.payment)
    requires Exactly(r.payment, card) || (r.approved && d.arrivalReady)
    ensures var o := Resumed(d, r, Snapshot(true, card), android);
            && o.run == Some(r.(stage := Preparing))
            && o.desk == if r.approved && d.arrivalReady then d
                         else d.(checks := 180, retries := 0, arrivalReady := true)
  {}

  // A failure before the transfer is submitted keeps the order: the user is told if he asked, and otherwise the
  // completion ends.
  lemma FailureIs(d: Desk, r: Run, reply: Reply, android: bool)
    requires !r.submitted
    requires || r.stage.CancellingMismatch?
             || (r.stage.Preparing? && !reply.Preview?)
             || (r.stage.Balances? && !reply.Snapshot?)
             || (r.stage.Balances? && d.active == Some(r.payment) && !reply.matches)
    ensures var o := Resumed(d, r, reply, android);
            && o.entry == None
            && (!r.automatic ==> o.desk == d && o.run == Some(r.(stage := Alerting)))
            && (r.automatic ==> o.desk == Released(d) && o.run == None)
  {}

  // A completion whose order is no longer active ends without a transfer, after cancelling one it has prepared.
  lemma ReplacedIs(d: Desk, r: Run, reply: Reply, android: bool)
    requires d.active != Some(r.payment)
    ensures r.stage.Balances? && reply.Snapshot? ==> Resumed(d, r, reply, android) == Outcome(Released(d), None, None)
    ensures r.stage.Preparing? && reply.Preview? ==>
              Resumed(d, r, reply, android) == Outcome(d, Some(r.(stage := Cancelling)), None)
    ensures r.stage.Cancelling? || r.stage.Alerting? ==>
              Resumed(d, r, reply, android) == Outcome(Released(d), None, None)
  {}

  // Once submitted, a transfer gives its order up whether it succeeds or fails, and is reported if it succeeds or the
  // user asked for it.
  lemma SubmittedIs(d: Desk, r: Run, reply: Reply, android: bool)
    requires r.submitted
    ensures var o := Resumed(d, r, reply, android);
            && (r.stage.Confirming? ==> o.desk == d && o.run.Some?)
            && (r.stage.Confirming? ==> o.run == Some(r.(stage := if reply.Done? then Refreshing else Recording)))
            && (r.stage.Refreshing? ==> o == Outcome(d, Some(r.(stage := Finishing)), None))
            && (r.stage.Finishing? ==> o == Outcome(IDLE, Some(r.(stage := Reporting)), None))
            && (r.stage.Recording? ==> o.desk == IDLE && o.entry == None)
            && (r.stage.Recording? ==> o.run == if r.automatic then None else Some(r.(stage := Reporting)))
            && (r.stage.Reporting? ==> o == Outcome(Released(d), None, None))
  {}

  // ---------- an arrival is transferred ----------

  // The replies of a transfer that goes well, its closing alert included.
  function TransferRun(t: nat, card: Option<int>): seq<Event> {
    [Wake(t, Snapshot(true, card)), Wake(t, Preview(true)), Wake(t, Done), Wake(t, Done), Wake(t, Done), Wake(t, Done)]
  }

  // A completion of the active order at this stage, with what else there is.
  ghost predicate At(w: World, t: nat, r: Run, stage: Stage, log: seq<Entry>, others: map<nat, Task>) {
    && t !in others && w.tasks == others[t := Running(r.(stage := stage))] && w.log == log
    && (stage.Reporting? || w.desk.active == Some(r.payment))
    && (stage.Reporting? ==> w.desk == IDLE)
  }

  lemma ReadsArrival(
      w: World, t: nat, r: Run, card: Option<int>, log: seq<Entry>, others: map<nat, Task>, android: bool)
    requires At(w, t, r, Balances, log, others) && Exactly(r.payment, card)
    ensures At(Next(w, Wake(t, Snapshot(true, card)), android), t, r, Preparing, log + [Saw(r.payment, card)], others)
  {
    ArrivalIs(w.desk, r.(stage := Balances), card, android);
    ArrivalEntry(w.desk, r.(stage := Balances), card, android);
  }

  lemma ArrivalEntry(d: Desk, r: Run, card: Option<int>, android: bool)
    requires r.stage.Balances? && d.active == Some(r.payment) && Exactly(r.payment, card)
    ensures Resumed(d, r, Snapshot(true, card), android).entry == Some(Saw(r.payment, card))
  {}

  lemma Submits(w: World, t: nat, r: Run, log: seq<Entry>, others: map<nat, Task>, android: bool)
    requires At(w, t, r, Preparing, log, others)
    ensures At(Next(w, Wake(t, Preview(true)), android), t, r.(submitted := true), Confirming,
               log + [Confirm(r.payment)], others)
  {}

  lemma Finishes(w: World, t: nat, r: Run, stage: Stage, log: seq<Entry>, others: map<nat, Task>, android: bool)
    requires At(w, t, r, stage, log, others) && (stage.Confirming? || stage.Refreshing? || stage.Finishing?)
    ensures var after := if stage.Confirming? then Refreshing else if stage.Refreshing? then Finishing else Reporting;
            At(Next(w, Wake(t, Done), android), t, r, after, log, others)
  {}

  lemma Closes(w: World, t: nat, r: Run, log: seq<Entry>, others: map<nat, Task>, android: bool)
    requires At(w, t, r, Reporting, log, others)
    ensures var n := Next(w, Wake(t, Done), android); n.desk == IDLE && n.log == log && n.tasks == others
  {
    assert others[t := Running(r.(stage := Reporting))] - {t} == others;
  }

  lemma SixSteps(w: World, run: seq<Event>, w1: World, w2: World, w3: World, w4: World, w5: World, android: bool)
    requires |run| == 6
    requires Enabled(w, run[0], true) && Next(w, run[0], android) == w1
    requires Enabled(w1, run[1], true) && Next(w1, run[1], android) == w2
    requires Enabled(w2, run[2], true) && Next(w2, run[2], android) == w3
    requires Enabled(w3, run[3], true) && Next(w3, run[3], android) == w4
    requires Enabled(w4, run[4], true) && Next(w4, run[4], android) == w5
    requires Enabled(w5, run[5], true)
    ensures Possible(w, run, true, android) && After(w, run, android) == Next(w5, run[5], android)
  {
    var last := run[5..];
    assert last[1..] == [] && run[4..][1..] == last && run[3..][1..] == run[4..];
    assert run[2..][1..] == run[3..] && run[1..][1..] == run[2..];
    assert After(w5, last, android) == Next(w5, run[5], android) && Possible(w5, last, true, android);
    assert After(w4, run[4..], android) == After(w5, last, android) && Possible(w4, run[4..], true, android);
    assert After(w3, run[3..], android) == After(w4, run[4..], android) && Possible(w3, run[3..], true, android);
    assert After(w2, run[2..], android) == After(w3, run[3..], android) && Possible(w2, run[2..], true, android);
    assert After(w1, run[1..], android) == After(w2, run[2..], android) && Possible(w1, run[1..], true, android);
  }

  // The two steps that submit, and the three that finish.
  lemma SubmittingSteps(
      w: World, t: nat, r: Run, card: Option<int>, log: seq<Entry>, others: map<nat, Task>, android: bool)
      returns (w1: World, w2: World)
    requires At(w, t, r, Balances, log, others) && Exactly(r.payment, card)
    ensures Enabled(w, Wake(t, Snapshot(true, card)), true) && Next(w, Wake(t, Snapshot(true, card)), android) == w1
    ensures Enabled(w1, Wake(t, Preview(true)), true) && Next(w1, Wake(t, Preview(true)), android) == w2
    ensures At(w2, t, r.(submitted := true), Confirming, log + [Saw(r.payment, card)] + [Confirm(r.payment)], others)
  {
    w1 := Next(w, Wake(t, Snapshot(true, card)), android);
    ReadsArrival(w, t, r, card, log, others, android);
    w2 := Next(w1, Wake(t, Preview(true)), android);
    Submits(w1, t, r, log + [Saw(r.payment, card)], others, android);
  }

  lemma FinishingSteps(w: World, t: nat, r: Run, log: seq<Entry>, others: map<nat, Task>, android: bool)
      returns (w1: World, w2: World, w3: World)
    requires At(w, t, r, Confirming, log, others)
    ensures Enabled(w, Wake(t, Done), true) && Next(w, Wake(t, Done), android) == w1
    ensures Enabled(w1, Wake(t, Done), true) && Next(w1, Wake(t, Done), android) == w2
    ensures Enabled(w2, Wake(t, Done), true) && Next(w2, Wake(t, Done), android) == w3
    ensures Enabled(w3, Wake(t, Done), true) && At(w3, t, r, Reporting, log, others)
  {
    w1 := Next(w, Wake(t, Done), android);
    Finishes(w, t, r, Confirming, log, others, android);
    w2 := Next(w1, Wake(t, Done), android);
    Finishes(w1, t, r, Refreshing, log, others, android);
    w3 := Next(w2, Wake(t, Done), android);
    Finishes(w2, t, r, Finishing, log, others, android);
  }

  // A completion that reads the exact balance of the active order, and meets no failure, orders its transfer once,
  // gives the order up and frees the desk, whatever else is in flight.
  lemma ArrivalIsTransferred(
      w: World, t: nat, r: Run, card: Option<int>, log: seq<Entry>, others: map<nat, Task>, android: bool)
    requires At(w, t, r, Balances, log, others) && Exactly(r.payment, card)
    ensures var a := After(w, TransferRun(t, card), android);
            && Possible(w, TransferRun(t, card), true, android)
            && a.log == log + [Saw(r.payment, card)] + [Confirm(r.payment)] && a.desk == IDLE && a.tasks == others
  {
    var confirmed := log + [Saw(r.payment, card)] + [Confirm(r.payment)];
    var w1, w2 := SubmittingSteps(w, t, r, card, log, others, android);
    var w3, w4, w5 := FinishingSteps(w2, t, r.(submitted := true), confirmed, others, android);
    Closes(w5, t, r.(submitted := true), confirmed, others, android);
    SixSteps(w, TransferRun(t, card), w1, w2, w3, w4, w5, android);
  }

  // ---------- every attempt is made ----------

  function LimitOf(ready: bool): nat {
    if ready then 5 else 180
  }

  // The order, its arrival known or not, after n attempts, on a desk that is held or not.
  predicate Counts(d: Desk, p: Payment, ready: bool, n: nat) {
    d.active == Some(p) && d.handedOff && d.arrivalReady == ready && (if ready then d.retries else d.checks) == n
  }

  predicate Ready(w: World, p: Payment, ready: bool, n: nat) {
    Counts(w.desk, p, ready, n) && !w.desk.busy && w.desk.timer && w.probes == 0 && w.tasks == map[]
  }

  // No further attempt is planned.
  predicate Spent(w: World, p: Payment, ready: bool) {
    && Counts(w.desk, p, ready, LimitOf(ready)) && !w.desk.busy && !w.desk.timer && w.probes == 0 && w.tasks == map[]
  }

  predicate AfterAttempt(w: World, p: Payment, ready: bool, n: nat) {
    if n < LimitOf(ready) then Ready(w, p, ready, n) else n == LimitOf(ready) && Spent(w, p, ready)
  }

  // An answer that gets an attempt nowhere: an error, or a balance that does not show the arrival.
  predicate Fruitless(reply: Reply, p: Payment, ready: bool) {
    reply.Failed? || (!ready && reply.Snapshot? && reply.matches && !Exactly(p, reply.card))
  }

  predicate Asked(w: World, p: Payment, ready: bool, n: nat) {
    Counts(w.desk, p, ready, n) && !w.desk.busy && !w.desk.timer && w.probes == 1 && w.tasks == map[]
  }

  predicate Queued(w: World, t: nat, p: Payment, ready: bool, n: nat) {
    && Counts(w.desk, p, ready, n) && !w.desk.busy && !w.desk.timer && w.probes == 0
    && w.tasks == map[t := Asking(true, ready)]
  }

  predicate Held(w: World, t: nat, p: Payment, ready: bool, n: nat, stage: Stage) {
    && Counts(w.desk, p, ready, n) && w.desk.busy && !w.desk.timer && w.probes == 0
    && w.tasks == map[t := Running(Run(p, true, ready, stage, false))]
  }

  lemma TimerAsks(w: World, p: Payment, ready: bool, n: nat, android: bool)
    requires Ready(w, p, ready, n)
    ensures Enabled(w, TimerFires, true) && Asked(Next(w, TimerFires, android), p, ready, n)
  {}

  lemma ProbeQueues(w: World, p: Payment, ready: bool, n: nat, android: bool)
    requires Asked(w, p, ready, n)
    ensures Enabled(w, ProbeReply(false), true)
    ensures Queued(Next(w, ProbeReply(false), android), w.nextTask, p, ready, n + 1)
  {}

  lemma EntryHolds(w: World, t: nat, p: Payment, ready: bool, n: nat, android: bool)
    requires Queued(w, t, p, ready, n)
    ensures Enabled(w, Event.Enter(t, false), true)
    ensures Held(Next(w, Event.Enter(t, false), android), t, p, ready, n, Balances)
  {}

  // The reply ends the attempt, unless it first shows the payment page.
  lemma FruitlessReply(d: Desk, r: Run, reply: Reply, ready: bool, n: nat, android: bool)
    requires Counts(d, r.payment, ready, n) && r == Run(r.payment, true, ready, Balances, false)
    requires Fruitless(reply, r.payment, ready)
    ensures var o := Resumed(d, r, reply, android);
            || (o.desk == Released(d) && o.run == None)
            || (o.desk == d.(promptShown := true) && o.run == Some(r.(stage := Alerting)))
    ensures !Detects(d, r, reply)
  {
    if reply.Failed? { FailureIs(d, r, reply, android); } else { NoArrivalIs(d, r, reply.card, android); }
  }

  lemma ReleasedAfter(w: World, t: nat, p: Payment, ready: bool, n: nat, stage: Stage, o: Outcome)
    requires Held(w, t, p, ready, n, stage) && 1 <= n <= LimitOf(ready)
    requires o.desk == Released(w.desk) && o.run == None
    ensures AfterAttempt(Settled(w, t, o), p, ready, n)
  {
    ReleaseIs(w.desk);
    assert w.tasks - {t} == map[];
  }

  lemma AttemptEnds(w: World, t: nat, p: Payment, ready: bool, n: nat, reply: Reply, android: bool)
    requires Held(w, t, p, ready, n, Balances) && 1 <= n <= LimitOf(ready) && Fruitless(reply, p, ready)
    ensures var next := Next(w, Wake(t, reply), android);
            && Enabled(w, Wake(t, reply), true)
            && (AfterAttempt(next, p, ready, n) || Held(next, t, p, ready, n, Alerting))
  {
    var r := w.tasks[t].run;
    var o := Resumed(w.desk, r, reply, android);
    FruitlessReply(w.desk, r, reply, ready, n, android);
    if o.run == None {
      ReleasedAfter(w, t, p, ready, n, Balances, o);
    } else {
      assert w.tasks[t := Running(o.run.value)] == map[t := Running(o.run.value)];
    }
  }

  lemma PromptEnds(w: World, t: nat, p: Payment, ready: bool, n: nat, android: bool)
    requires Held(w, t, p, ready, n, Alerting) && 1 <= n <= LimitOf(ready)
    ensures Enabled(w, Wake(t, Done), true) && AfterAttempt(Next(w, Wake(t, Done), android), p, ready, n)
  {
    ReleasedAfter(w, t, p, ready, n, Alerting, Resumed(w.desk, w.tasks[t].run, Done, android));
  }

  ghost predicate Leaves(w: World, next: World, android: bool) {
    exists run: seq<Event> :: Possible(w, run, true, android) && After(w, run, android) == next
  }

  lemma AtOnce(w: World, android: bool)
    ensures Leaves(w, w, android)
  {
    assert Possible(w, [], true, android) && After(w, [], android) == w;
  }

  lemma OneStep(w: World, e: Event, mid: World, next: World, android: bool)
    requires Enabled(w, e, true) && Next(w, e, android) == mid && Leaves(mid, next, android)
    ensures Leaves(w, next, android)
  {
    var run: seq<Event> :| Possible(mid, run, true, android) && After(mid, run, android) == next;
    assert ([e] + run)[1..] == run;
    assert Possible(w, [e] + run, true, android) && After(w, [e] + run, android) == next;
  }

  lemma ReplyEnds(w: World, t: nat, p: Payment, ready: bool, n: nat, reply: Reply, android: bool) returns (next: World)
    requires Held(w, t, p, ready, n, Balances) && 1 <= n <= LimitOf(ready) && Fruitless(reply, p, ready)
    ensures AfterAttempt(next, p, ready, n) && forall last :: Leaves(next, last, android) ==> Leaves(w, last, android)
  {
    var answered := Next(w, Wake(t, reply), android);
    AttemptEnds(w, t, p, ready, n, reply, android);
    next := answered;
    if Held(answered, t, p, ready, n, Alerting) {
      PromptEnds(answered, t, p, ready, n, android);
      next := Next(answered, Wake(t, Done), android);
    }
    forall last | Leaves(next, last, android) ensures Leaves(w, last, android) {
      if next != answered { OneStep(answered, Wake(t, Done), next, last, android); }
      OneStep(w, Wake(t, reply), answered, last, android);
    }
  }

  lemma OneAttempt(w: World, p: Payment, ready: bool, n: nat, reply: Reply, android: bool) returns (next: World)
    requires Ready(w, p, ready, n) && n < LimitOf(ready) && Fruitless(reply, p, ready)
    ensures AfterAttempt(next, p, ready, n + 1)
    ensures forall last :: Leaves(next, last, android) ==> Leaves(w, last, android)
  {
    var t := w.nextTask;
    var asked := Next(w, TimerFires, android);
    TimerAsks(w, p, ready, n, android);
    var queued := Next(asked, ProbeReply(false), android);
    ProbeQueues(asked, p, ready, n, android);
    var held := Next(queued, Event.Enter(t, false), android);
    EntryHolds(queued, t, p, ready, n + 1, android);
    next := ReplyEnds(held, t, p, ready, n + 1, reply, android);
    forall last | Leaves(next, last, android) ensures Leaves(w, last, android) {
      OneStep(queued, Event.Enter(t, false), held, last, android);
      OneStep(asked, ProbeReply(false), queued, last, android);
      OneStep(w, TimerFires, asked, last, android);
    }
  }

  lemma {:induction false} RemainingAttempts(
      w: World, p: Payment, ready: bool, n: nat, reply: Reply, android: bool) returns (last: World)
    requires AfterAttempt(w, p, ready, n) && Fruitless(reply, p, ready)
    ensures Leaves(w, last, android) && Spent(last, p, ready)
    decreases LimitOf(ready) - n
  {
    if n == LimitOf(ready) {
      AtOnce(w, android);
      last := w;
    } else {
      var next := OneAttempt(w, p, ready, n, reply, android);
      last := RemainingAttempts(next, p, ready, n + 1, reply, android);
    }
  }

  // The act that begins an order.
  function Begins(p: Payment, ready: bool): Event {
    if ready then Restore(p.amount, p.balanceBefore) else Remember(p.amount, p.balanceBefore)
  }

  // An order remembered, or restored as arrived, on a free desk with nothing in flight, is followed without any act of
  // the user by 180 checks while no arrival is seen, or by 5 attempts while the transfer cannot be prepared; then
  // none is planned any more.
  lemma AllAttemptsAreMade(
      w: World, p: Payment, ready: bool, reply: Reply, android: bool) returns (last: World)
    requires !w.desk.busy && !w.desk.timer && w.probes == 0 && w.tasks == map[] && p.serial == w.nextPayment
    requires Fruitless(reply, p, ready)
    ensures Leaves(Next(w, Begins(p, ready), android), last, android) && Spent(last, p, ready)
  {
    last := RemainingAttempts(Next(w, Begins(p, ready), android), p, ready, 0, reply, android);
  }

  // Reopening the payment page allows 180 checks again; the attempts after an arrival it does not.
  lemma ReopeningIs(d: Desk)
    ensures d.active.None? ==> Reopened(d) == d
    ensures d.active.Some? ==>
              Reopened(d) == d.(handedOff := true, checks := 0, promptShown := false,
                                timer := d.timer || (!d.busy && (!d.arrivalReady || d.retries < 5)))
  {}

  // On Android the first unpaid check after an order was begun shows the payment page, whatever was shown before.
  lemma BeginningPrompts(w: World, p: Payment, ready: bool, android: bool)
    ensures !Next(w, Begins(p, ready), android).desk.promptShown && Next(w, Begins(p, ready), android).desk.handedOff
    ensures !Next(w, Reopen, android).desk.promptShown || w.desk.active.None?
  {}

  // ---------- what is counted ----------

  predicate Begun(e: Event) {
    e.Remember? || e.Restore?
  }

  // Automatic checks and attempts are counted when the app turns out to be in the foreground, by whether the arrival
  // was known, and anew for each order begun, the checks also for each page reopened.
  lemma AttemptsCounted(w: World, e: Event, android: bool)
    ensures var n := Next(w, e, android);
            var counts := e == ProbeReply(false) && w.desk.active.Some?;
            && n.autoChecks == (if Begun(e) || (e.Reopen? && w.desk.active.Some?) then 0
                                else w.autoChecks + if counts && !w.desk.arrivalReady then 1 else 0)
            && n.autoRetries == (if Begun(e) then 0
                                 else w.autoRetries + if counts && w.desk.arrivalReady then 1 else 0)
  {}

  // This event makes a completion find the arrival in a balance it reads.
  predicate Finds(w: World, e: Event) {
    && e.Wake? && e.task in w.tasks && w.tasks[e.task].Running?
    && var r := w.tasks[e.task].run;
       && r.stage.Balances? && e.reply.Snapshot? && e.reply.matches && w.desk.active == Some(r.payment)
       && Exactly(r.payment, e.reply.card) && !(r.approved && w.desk.arrivalReady)
  }

  // Later detections are those of an arrival already known. The completions that can make one are counted when the
  // arrival is first known, and with every click after that does not tell of it.
  lemma DetectionsCounted(w: World, e: Event, android: bool)
    ensures var n := Next(w, e, android);
            && n.redetected == (if Begun(e) then 0
                                else w.redetected + if Finds(w, e) && w.desk.arrivalReady then 1 else 0)
            && n.late == (if e.Remember? then 0
                          else if e.Restore? then |UnawareTasks(w.tasks)|
                          else if Finds(w, e) && !w.desk.arrivalReady then |UnawareTasks(n.tasks)|
                          else w.late + if e == Click(false) && !w.desk.busy then 1 else 0)
  {}

  // The peak is the largest number of callbacks, waiting or armed, so far: never less, and reached.
  lemma PeakStep(w: World, e: Event, android: bool)
    requires Armed(w) <= w.peak && Enabled(w, e, false)
    ensures var n := Next(w, e, android);
            w.peak <= n.peak && Armed(n) <= n.peak && (n.peak == w.peak || Armed(n) == n.peak)
  {}

  function Armed(w: World): nat {
    w.probes + if w.desk.timer then 1 else 0
  }

  lemma {:induction false} PeakIsLargest(w: World, run: seq<Event>, android: bool)
    requires Armed(w) <= w.peak && Possible(w, run, false, android)
    ensures var a := After(w, run, android);
            && w.peak <= a.peak && Armed(a) <= a.peak
            && (a.peak == w.peak || exists k :: 0 <= k <= |run| && Armed(After(w, run[..k], android)) == a.peak)
    decreases |run|
  {
    if run != [] {
      var next := Next(w, run[0], android);
      PeakStep(w, run[0], android);
      PeakIsLargest(next, run[1..], android);
      var peak := After(w, run, android).peak;
      if peak != w.peak {
        var j: int :| 0 <= j <= |run| - 1 && Armed(After(next, run[1..][..j], android)) == peak by {
          if peak == next.peak { assert run[1..][..0] == [] && After(next, [], android) == next; }
        }
        assert run[..j + 1][1..] == run[1..][..j];
        assert After(w, run[..j + 1], android) == After(next, run[1..][..j], android);
      }
    }
  }
}
