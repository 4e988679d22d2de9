/** Why the guard for remembering an Alipay order is the exact one: outside it a transfer can be ordered twice. */
module AlipayReplaced {
  import opened Optional
  import opened AlipayDesk
  import opened AlipayRuns

  // A run under the guard from here orders a transfer twice for one payment.
  ghost predicate Doubles(w: World, android: bool) {
    exists run: seq<Event> :: Possible(w, run, true, android) && !Once(After(w, run, android).log)
  }

  lemma Now(w: World, android: bool)
    requires !Once(w.log)
    ensures Doubles(w, android)
  {
    assert Possible(w, [], true, android) && After(w, [], android) == w;
  }

  lemma Before(w: World, e: Event, next: World, android: bool)
    requires Enabled(w, e, true) && Next(w, e, android) == next && Doubles(next, android)
    ensures Doubles(w, android)
  {
    var run: seq<Event> :| Possible(next, run, true, android) && !Once(After(next, run, android).log);
    assert ([e] + run)[1..] == run;
    assert Possible(w, [e] + run, true, android) && After(w, [e] + run, android) == After(next, run, android);
  }

  function Begins(p: Payment, stage: Stage): Task {
    Running(Run(p, false, false, stage, stage.Confirming?))
  }

  // Order p waits on a free desk.
  predicate Waits(w: World, p: Payment) {
    w.desk.active == Some(p) && !w.desk.busy
  }

  // A completion of p has taken the desk.
  predicate Taken(w: World, p: Payment, b: nat) {
    w.desk.active == Some(p) && w.desk.busy && b < w.nextTask && b in w.tasks && w.tasks[b] == Begins(p, Balances)
  }

  // A completion of another payment that will free the desk.
  predicate Stranger(w: World, p: Payment, f: nat) {
    f < w.nextTask && f in w.tasks && Loose(w.tasks[f]) && Honest(w.tasks[f].run) && w.tasks[f].run.payment != p
  }

  lemma Clicked(w: World, p: Payment, android: bool)
    requires Waits(w, p)
    ensures var clicked := Next(w, Click(false), android);
            && Enabled(w, Click(false), true) && Enabled(clicked, Enter(w.nextTask, false), true)
            && var next := Next(clicked, Enter(w.nextTask, false), android);
               && Taken(next, p, w.nextTask) && next.desk == w.desk.(busy := true) && next.nextTask == w.nextTask + 1
               && next.nextPayment == w.nextPayment
               && next.tasks == w.tasks[w.nextTask := Begins(p, Balances)]
  {}

  // The user's click on a free desk, and the completion that follows.
  lemma ClickTakes(w: World, p: Payment, android: bool) returns (next: World)
    requires Waits(w, p)
    ensures Taken(next, p, w.nextTask) && next.desk == w.desk.(busy := true) && next.nextTask == w.nextTask + 1
    ensures next.nextPayment == w.nextPayment
    ensures next.tasks == w.tasks[w.nextTask := Begins(p, Balances)]
    ensures Doubles(next, android) ==> Doubles(w, android)
  {
    Clicked(w, p, android);
    var clicked := Next(w, Click(false), android);
    next := Next(clicked, Enter(w.nextTask, false), android);
    if Doubles(next, android) {
      Before(clicked, Enter(w.nextTask, false), next, android);
      Before(w, Click(false), clicked, android);
    }
  }

  // A desk left by a completion that ended without giving the order up.
  predicate Left(w: World, t: nat, next: World) {
    && next.desk.active == w.desk.active && !next.desk.busy && next.desk.arrivalReady == w.desk.arrivalReady
    && next.tasks == w.tasks - {t} && next.nextTask == w.nextTask && next.nextPayment == w.nextPayment
  }

  lemma EndedLeaves(w: World, t: nat, next: World)
    requires next == Settled(w, t, Ended(w.desk))
    ensures Left(w, t, next)
  {}

  // One more reply leads a completion of another payment to its end.
  predicate AtItsEnd(w: World, f: nat) {
    && f in w.tasks && w.tasks[f].Running?
    && (w.tasks[f].run.stage.Alerting? || w.tasks[f].run.stage.Cancelling? || w.tasks[f].run.stage.Reporting?)
  }

  lemma LastReply(w: World, f: nat, android: bool) returns (next: World)
    requires AtItsEnd(w, f)
    ensures Left(w, f, next) && (Doubles(next, android) ==> Doubles(w, android))
  {
    next := Next(w, Wake(f, Done), android);
    EndedLeaves(w, f, next);
    if Doubles(next, android) { Before(w, Wake(f, Done), next, android); }
  }

  function StrangerReply(stage: Stage): Reply {
    if stage.Balances? then Snapshot(true, None) else if stage.Preparing? then Preview(true) else Done
  }

  // What one reply makes of it: its end, or its last wait.
  lemma StrangerWakes(w: World, p: Payment, f: nat, android: bool)
    requires Stranger(w, p, f) && w.desk.active == Some(p) && !AtItsEnd(w, f)
    ensures var o := Resumed(w.desk, w.tasks[f].run, StrangerReply(w.tasks[f].run.stage), android);
            o == Ended(w.desk)
            || (o.desk == w.desk && o.run.Some? && o.entry.None?
                && (o.run.value.stage.Cancelling? || o.run.value.stage.Alerting?))
    ensures !Detects(w.desk, w.tasks[f].run, StrangerReply(w.tasks[f].run.stage))
  {}

  lemma StrangerEnds(w: World, p: Payment, f: nat, android: bool) returns (next: World)
    requires Stranger(w, p, f) && w.desk.active == Some(p)
    ensures Left(w, f, next) && (Doubles(next, android) ==> Doubles(w, android))
  {
    if AtItsEnd(w, f) {
      next := LastReply(w, f, android);
    } else {
      var e := Wake(f, StrangerReply(w.tasks[f].run.stage));
      var mid := Next(w, e, android);
      StrangerWakes(w, p, f, android);
      if f in mid.tasks {
        next := LastReply(mid, f, android);
        assert mid.tasks - {f} == w.tasks - {f};
      } else {
        next := mid;
        EndedLeaves(w, f, next);
      }
      if Doubles(next, android) { Before(w, e, mid, android); }
    }
  }

  // Two completions of the active order side by side.
  predicate Pair(w: World, p: Payment, b: nat, bs: Stage, c: nat, cs: Stage) {
    && w.desk.active == Some(p) && b != c
    && b in w.tasks && w.tasks[b] == Begins(p, bs) && c in w.tasks && w.tasks[c] == Begins(p, cs)
  }

  predicate Tenner(p: Payment) {
    p.amount == Some(10) && p.balanceBefore == Some(0)
  }

  // Both see the money arrive,
  lemma SeesArrival(w: World, p: Payment, b: nat, c: nat, cs: Stage, android: bool)
    requires Pair(w, p, b, Balances, c, cs) && Tenner(p)
    ensures var e := Wake(b, Snapshot(true, Some(10)));
            Enabled(w, e, true) && Pair(Next(w, e, android), p, b, Preparing, c, cs)
  {}

  // and both order the transfer.
  lemma OrdersTransfer(w: World, p: Payment, b: nat, c: nat, cs: Stage, android: bool)
    requires Pair(w, p, b, Preparing, c, cs)
    ensures var e := Wake(b, Preview(true));
            Enabled(w, e, true) && Pair(Next(w, e, android), p, b, Confirming, c, cs)
            && Next(w, e, android).log == w.log + [Confirm(p)]
  {}

  lemma Swapped(w: World, p: Payment, b: nat, bs: Stage, c: nat, cs: Stage)
    requires Pair(w, p, b, bs, c, cs)
    ensures Pair(w, p, c, cs, b, bs)
  {}

  lemma TwiceOrdered(log: seq<Entry>, p: Payment)
    ensures !Once(log + [Confirm(p)] + [Confirm(p)])
  {
    var twice := log + [Confirm(p)] + [Confirm(p)];
    assert twice[|log|] == Confirm(p) && twice[|log| + 1] == Confirm(p);
  }

  lemma PreparedPairDoubles(w: World, p: Payment, b: nat, c: nat, android: bool)
    requires Pair(w, p, b, Preparing, c, Preparing)
    ensures Doubles(w, android)
  {
    var once := Next(w, Wake(b, Preview(true)), android);
    var twice := Next(once, Wake(c, Preview(true)), android);
    OrdersTransfer(w, p, b, c, Preparing, android);
    Swapped(once, p, b, Confirming, c, Preparing);
    OrdersTransfer(once, p, c, b, Confirming, android);
    TwiceOrdered(w.log, p);
    Now(twice, android);
    Before(once, Wake(c, Preview(true)), twice, android);
    Before(w, Wake(b, Preview(true)), once, android);
  }

  lemma PairDoubles(w: World, p: Payment, b: nat, c: nat, android: bool)
    requires Pair(w, p, b, Balances, c, Balances) && Tenner(p)
    ensures Doubles(w, android)
  {
    var e, f := Wake(b, Snapshot(true, Some(10))), Wake(c, Snapshot(true, Some(10)));
    var first := Next(w, e, android);
    var both := Next(first, f, android);
    SeesArrival(w, p, b, c, Balances, android);
    Swapped(first, p, b, Preparing, c, Balances);
    SeesArrival(first, p, c, b, Preparing, android);
    PreparedPairDoubles(both, p, c, b, android);
    Before(first, f, both, android);
    Before(w, e, first, android);
  }

  // The desk is free, the order can be paid for, and a stranger is in flight: a completion takes the desk, the
  // stranger frees it, and a second completion takes it again.
  lemma ExposedDoubles(w: World, p: Payment, f: nat, android: bool)
    requires Waits(w, p) && Stranger(w, p, f) && Tenner(p)
    ensures Doubles(w, android)
  {
    var taken := ClickTakes(w, p, android);
    var left := StrangerEnds(taken, p, f, android);
    var again := ClickTakes(left, p, android);
    PairDoubles(again, p, w.nextTask, left.nextTask, android);
  }

  // While a completion of p holds the desk another order may be remembered; the completion's end then frees the desk.
  lemma Replaced(w: World, p: Payment, b: nat, f: nat, android: bool)
    requires Taken(w, p, b) && Stranger(w, p, f) && f != b && SafeSerials(w)
    ensures Doubles(w, android)
  {
    var q := Payment(w.nextPayment, Some(10), Some(0));
    var e := Remember(Some(10), Some(0));
    var next := Next(w, e, android);
    assert next.tasks == w.tasks && next.desk.active == Some(q);
    assert Stranger(next, q, b) && Stranger(next, q, f);
    var left := StrangerEnds(next, q, b, android);
    ExposedDoubles(left, q, f, android);
    Before(w, e, next, android);
  }

  predicate SafeSerials(w: World) {
    forall t :: t in w.tasks && w.tasks[t].Running? ==> w.tasks[t].run.payment.serial < w.nextPayment
  }

  lemma RememberedDoubles(w: World, e: Event, android: bool)
    requires SafeInv(w) && !MayRemember(w) && (e.Remember? || e.Restore?)
    ensures Doubles(Next(w, e, android), android)
  {
    var f :| f in w.tasks && Loose(w.tasks[f]);
    var p := NewPayment(w, e);
    var next := Next(w, e, android);
    assert next.tasks == w.tasks && Waits(next, p) && Stranger(next, p, f);
    var taken := ClickTakes(next, p, android);
    Replaced(taken, p, next.nextTask, f, android);
  }

  // The guard is exact, state by state: once an order has been remembered or restored, no run under the guard orders
  // a transfer twice for one payment, if and only if the desk was held, or every completion in flight had submitted
  // its transfer and had yet to give its order up.
  lemma RememberingIsSafeIff(w: World, e: Event, android: bool)
    requires SafeInv(w) && (e.Remember? || e.Restore?)
    ensures Doubles(Next(w, e, android), android) <==> !MayRemember(w)
  {
    if MayRemember(w) {
      SafeStep(w, e, android);
      forall run: seq<Event> | Possible(Next(w, e, android), run, true, android)
        ensures Once(After(Next(w, e, android), run, android).log)
      {
        SafetyKept(Next(w, e, android), run, android);
      }
    } else {
      RememberedDoubles(w, e, android);
    }
  }

  // So replacing an order while its completion has not submitted the transfer, as the program does when the user
  // confirms it, can make a later order be transferred twice.
  lemma ReplacedInFlightDoubles(w: World, amount: Option<int>, before: Option<int>, android: bool)
    requires SafeInv(w) && HasLoose(w)
    ensures Doubles(Next(Next(w, Abandon, android), Remember(amount, before), android), android)
  {
    var given := Next(w, Abandon, android);
    AbandonSafe(w);
    assert given.tasks == w.tasks;
    RememberedDoubles(given, Remember(amount, before), android);
  }
}
