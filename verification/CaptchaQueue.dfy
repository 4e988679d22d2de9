/** The captcha dialogs of concurrent billing queries, chained so that one is shown at a time. */
module CaptchaQueue {
  import opened Optional

  // What a query was started under; it is stale once any part has changed.
  datatype Scope = Scope(generation: nat, router: string, account: string)

  datatype Phase = Waiting | Showing | Done

  // A query that asked for a captcha. Its turn comes when the query that asked before it is done.
  datatype Waiter = Waiter(scope: Scope, phase: Phase)

  datatype Queue = Queue(now: Scope, waiters: seq<Waiter>, cancel: Option<nat>, shown: seq<nat>)

  datatype Event =
    | Ask(scope: Scope)
    | Turn(i: nat)
    | Close(i: nat)
    | Invalidate
    | Switch(router: string, account: string)

  predicate HasTurn(q: Queue, i: nat) {
    i < |q.waiters| && q.waiters[i].phase.Waiting? && (i == 0 || q.waiters[i - 1].phase.Done?)
  }

  predicate Enabled(q: Queue, e: Event) {
    && (e.Turn? ==> HasTurn(q, e.i))
    && (e.Close? ==> e.i < |q.waiters| && q.waiters[e.i].phase.Showing?)
  }

  function SetPhase(q: Queue, i: nat, phase: Phase): Queue {
    if i < |q.waiters| then q.(waiters := q.waiters[i := q.waiters[i].(phase := phase)]) else q
  }

  // Closing a dialog releases its query; the cancel handle is dropped if it was this dialog's.
  function Closed(q: Queue, i: nat): Queue {
    SetPhase(q, i, Done).(cancel := if q.cancel == Some(i) then None else q.cancel)
  }

  function Cancelled(q: Queue): Queue {
    if q.cancel.Some? then Closed(q, q.cancel.value) else q
  }

  // A query whose turn has come gives up if it is stale; otherwise it closes a dialog still open and shows its own.
  function TurnTaken(q: Queue, i: nat): Queue
    requires i < |q.waiters|
  {
    if q.waiters[i].scope != q.now then SetPhase(q, i, Done)
    else SetPhase(Cancelled(q), i, Showing).(cancel := Some(i), shown := q.shown + [i])
  }

  function Next(q: Queue, e: Event): Queue {
    match e
    case Ask(scope) => q.(waiters := q.waiters + [Waiter(scope, Waiting)])
    case Turn(i) => if HasTurn(q, i) then TurnTaken(q, i) else q
    case Close(i) => Closed(q, i)
    case Invalidate => Cancelled(q).(now := q.now.(generation := q.now.generation + 1))
    case Switch(router, account) => q.(now := q.now.(router := router, account := account))
  }

  class CaptchaDesk {
    var now: Scope
    var waiters: seq<Waiter>
    var cancel: Option<nat>
    ghost var shown: seq<nat>

    ghost function State(): Queue
      reads this
    {
      Queue(now, waiters, cancel, shown)
    }

    constructor (now: Scope)
      ensures State() == Queue(now, [], None, [])
    {
      this.now, waiters, cancel, shown := now, [], None, [];
    }

    method Finish(i: nat)
      requires i < |waiters|
      modifies this
      ensures State() == Closed(old(State()), i)
    {
      waiters := waiters[i := waiters[i].(phase := Done)];
      if cancel == Some(i) { cancel := None; }
    }

    method Ask(scope: Scope)
      modifies this
      ensures State() == Next(old(State()), Event.Ask(scope))
    {
      waiters := waiters + [Waiter(scope, Waiting)];
    }

    method TakeTurn(i: nat)
      requires HasTurn(State(), i) && (cancel.Some? ==> cancel.value < |waiters|)
      modifies this
      ensures State() == Next(old(State()), Turn(i))
    {
      if waiters[i].scope != now {
        waiters := waiters[i := waiters[i].(phase := Done)];
        return;
      }
      if cancel.Some? { Finish(cancel.value); }
      waiters := waiters[i := waiters[i].(phase := Showing)];
      cancel := Some(i);
      shown := shown + [i];
    }

    method Invalidate()
      requires cancel.Some? ==> cancel.value < |waiters|
      modifies this
      ensures State() == Next(old(State()), Event.Invalidate)
    {
      var generation := now.generation + 1;
      if cancel.Some? { Finish(cancel.value); }
      now := now.(generation := generation);
    }
  }

  // ---------- every run ----------

  ghost predicate Orderly(q: Queue) {
    && (forall i, j :: 0 <= i < j < |q.waiters| && !q.waiters[j].phase.Waiting? ==> q.waiters[i].phase.Done?)
    && (forall i: nat :: (q.cancel == Some(i) <==> i < |q.waiters| && q.waiters[i].phase.Showing?))
    && (forall k :: 0 <= k < |q.shown| ==> q.shown[k] < |q.waiters| && !q.waiters[q.shown[k]].phase.Waiting?)
    && (forall j, k :: 0 <= j < k < |q.shown| ==> q.shown[j] < q.shown[k])
  }

  // While some query's turn has come, no dialog is open.
  lemma NoneShowing(q: Queue, i: nat)
    requires Orderly(q) && HasTurn(q, i)
    ensures q.cancel.None?
  {
    assert forall c: nat :: c < |q.waiters| && c > i ==> q.waiters[c].phase.Waiting?;
    assert i > 0 ==> q.waiters[i - 1].phase.Done?;
    assert forall c: nat :: c < i - 1 ==> q.waiters[c].phase.Done?;
    assert forall c: nat :: q.cancel != Some(c);
  }

  ghost predicate AtMostOneOpen(q: Queue) {
    forall i, j :: 0 <= i < j < |q.waiters| ==> !(q.waiters[i].phase.Showing? && q.waiters[j].phase.Showing?)
  }

  lemma TurnOrderly(q: Queue, i: nat)
    requires Orderly(q) && HasTurn(q, i)
    ensures Orderly(TurnTaken(q, i)) && q.cancel.None?
  {
    NoneShowing(q, i);
  }

  lemma CloseOrderly(q: Queue, i: nat)
    requires Orderly(q) && i < |q.waiters| && q.waiters[i].phase.Showing?
    ensures Orderly(Closed(q, i)) && Closed(q, i).cancel.None?
  {}

  lemma StepOrderly(q: Queue, e: Event)
    requires Orderly(q) && Enabled(q, e)
    ensures Orderly(Next(q, e))
  {
    match e {
      case Turn(i) => TurnOrderly(q, i);
      case Close(i) => CloseOrderly(q, i);
      case Invalidate => if q.cancel.Some? { CloseOrderly(q, q.cancel.value); }
      case _ =>
    }
  }

  // A query whose turn has come shows its dialog, the only one, if and only if its scope still holds; otherwise it
  // is released and nothing is shown.
  lemma TurnShowsIff(q: Queue, i: nat)
    requires Orderly(q) && HasTurn(q, i)
    ensures var n := Next(q, Turn(i));
            && |n.waiters| == |q.waiters| && n.now == q.now
            && (forall j :: 0 <= j < |q.waiters| && j != i ==> n.waiters[j] == q.waiters[j])
            && n.waiters[i].scope == q.waiters[i].scope
            && if q.waiters[i].scope == q.now
               then n.waiters[i].phase.Showing? && n.cancel == Some(i) && n.shown == q.shown + [i]
               else n.waiters[i].phase.Done? && n.cancel.None? && n.shown == q.shown
  {
    NoneShowing(q, i);
  }

  function After(q: Queue, run: seq<Event>): Queue {
    if run == [] then q else Next(After(q, run[..|run| - 1]), run[|run| - 1])
  }

  ghost predicate Possible(q: Queue, run: seq<Event>) {
    run != [] ==> Possible(q, run[..|run| - 1]) && Enabled(After(q, run[..|run| - 1]), run[|run| - 1])
  }

  // Over any run of concurrent queries at most one dialog is open, and dialogs open in the order of the requests.
  lemma {:induction false} OneDialogInOrder(q: Queue, run: seq<Event>)
    requires Orderly(q) && Possible(q, run)
    ensures Orderly(After(q, run))
    ensures AtMostOneOpen(After(q, run))
  {
    if run != [] {
      OneDialogInOrder(q, run[..|run| - 1]);
      StepOrderly(After(q, run[..|run| - 1]), run[|run| - 1]);
    }
  }

  // The generation never goes back, scopes do not change, and a dialog opens only for a query of the generation
  // current at that moment.
  lemma StepGenerations(q: Queue, e: Event)
    requires Orderly(q)
    ensures var n := Next(q, e);
            && q.now.generation <= n.now.generation
            && |q.waiters| <= |n.waiters| && |q.shown| <= |n.shown| <= |q.shown| + 1
            && (forall i :: 0 <= i < |q.waiters| ==> n.waiters[i].scope == q.waiters[i].scope)
            && n.shown[..|q.shown|] == q.shown
            && (|n.shown| > |q.shown| ==>
                  n.shown[|q.shown|] < |n.waiters| && n.waiters[n.shown[|q.shown|]].scope == q.now)
  {}

  // Once a generation is over, no dialog opens for a query of an earlier one, whatever happens next.
  lemma {:induction false} NoDialogForOldGeneration(q: Queue, run: seq<Event>, k: nat)
    requires Orderly(q) && Possible(q, run)
    ensures var a := After(q, run);
            && Orderly(a) && |q.shown| <= |a.shown| && q.now.generation <= a.now.generation
            && (|q.shown| <= k < |a.shown| ==> a.waiters[a.shown[k]].scope.generation >= q.now.generation)
  {
    if run != [] {
      var init, e := run[..|run| - 1], run[|run| - 1];
      NoDialogForOldGeneration(q, init, k);
      StepGenerations(After(q, init), e);
      StepOrderly(After(q, init), e);
    }
  }

  // ---------- the queue drains ----------

  function Pending(waiters: seq<Waiter>): nat {
    if waiters == [] then 0 else
      Pending(waiters[..|waiters| - 1])
      + match waiters[|waiters| - 1].phase case Waiting => 2 case Showing => 1 case Done => 0
  }

  lemma {:induction false} PendingDrops(waiters: seq<Waiter>, i: nat, phase: Phase)
    requires i < |waiters|
    requires (waiters[i].phase.Waiting? && !phase.Waiting?) || (waiters[i].phase.Showing? && phase.Done?)
    ensures Pending(waiters[i := waiters[i].(phase := phase)]) < Pending(waiters)
    decreases |waiters|
  {
    var n := |waiters| - 1;
    var after := waiters[i := waiters[i].(phase := phase)];
    if i < n {
      assert after[..n] == waiters[..n][i := waiters[i].(phase := phase)];
      PendingDrops(waiters[..n], i, phase);
    } else {
      assert after[..n] == waiters[..n];
    }
  }

  function FirstOpen(waiters: seq<Waiter>): (i: nat)
    ensures i <= |waiters| && (i < |waiters| ==> !waiters[i].phase.Done?)
    ensures forall j :: 0 <= j < i ==> waiters[j].phase.Done?
  {
    if waiters == [] || !waiters[0].phase.Done? then 0 else 1 + FirstOpen(waiters[1..])
  }

  // Whenever a query is unreleased, either its dialog is open and can be closed, or some query's turn has come;
  // both bring the queue strictly closer to empty.
  lemma AlwaysProgress(q: Queue)
    requires Orderly(q) && FirstOpen(q.waiters) < |q.waiters|
    ensures var i := FirstOpen(q.waiters);
            var e := if q.waiters[i].phase.Showing? then Close(i) else Turn(i);
            Enabled(q, e) && Orderly(Next(q, e)) && Pending(Next(q, e).waiters) < Pending(q.waiters)
            && |Next(q, e).waiters| == |q.waiters|
  {
    var i := FirstOpen(q.waiters);
    if q.waiters[i].phase.Showing? {
      StepOrderly(q, Close(i));
      PendingDrops(q.waiters, i, Done);
    } else {
      TurnOrderly(q, i);
      StepOrderly(q, Turn(i));
      PendingDrops(q.waiters, i, if q.waiters[i].scope != q.now then Done else Showing);
    }
  }

  // Letting turns be taken and closing each dialog that opens.
  ghost function DrainRun(q: Queue): seq<Event>
    requires Orderly(q)
    decreases Pending(q.waiters)
  {
    var i := FirstOpen(q.waiters);
    if i == |q.waiters| then [] else
      AlwaysProgress(q);
      var e := if q.waiters[i].phase.Showing? then Close(i) else Turn(i);
      [e] + DrainRun(Next(q, e))
  }

  lemma {:induction false} AfterPrepend(q: Queue, e: Event, run: seq<Event>)
    requires Enabled(q, e) && Possible(Next(q, e), run)
    ensures After(q, [e] + run) == After(Next(q, e), run) && Possible(q, [e] + run)
    decreases |run|
  {
    var whole := [e] + run;
    if run == [] {
      assert whole[..0] == [];
    } else {
      assert whole[..|whole| - 1] == [e] + run[..|run| - 1];
      AfterPrepend(q, e, run[..|run| - 1]);
    }
  }

  ghost predicate AllReleased(q: Queue) {
    forall i :: 0 <= i < |q.waiters| ==> q.waiters[i].phase.Done?
  }

  // The queries from the i-th on whose dialogs are still to come: those waiting under the current scope, in order.
  function Due(waiters: seq<Waiter>, now: Scope, i: nat): seq<nat>
    requires i <= |waiters|
    decreases |waiters| - i
  {
    if i == |waiters| then [] else
      (if waiters[i] == Waiter(now, Waiting) then [i] else []) + Due(waiters, now, i + 1)
  }

  lemma {:induction false} DueIff(waiters: seq<Waiter>, now: Scope, i: nat)
    requires i <= |waiters|
    ensures forall k :: k in Due(waiters, now, i) <==> i <= k < |waiters| && waiters[k] == Waiter(now, Waiting)
    ensures forall j, k :: 0 <= j < k < |Due(waiters, now, i)| ==> Due(waiters, now, i)[j] < Due(waiters, now, i)[k]
    decreases |waiters| - i
  {
    if i < |waiters| {
      DueIff(waiters, now, i + 1);
      var later := Due(waiters, now, i + 1);
      assert forall j :: 0 <= j < |later| ==> later[j] in later;
    }
  }

  lemma {:induction false} NoneDue(waiters: seq<Waiter>, now: Scope, i: nat)
    requires i <= |waiters| && forall j :: i <= j < |waiters| ==> waiters[j] != Waiter(now, Waiting)
    ensures Due(waiters, now, i) == []
    decreases |waiters| - i
  {
    if i < |waiters| { NoneDue(waiters, now, i + 1); }
  }

  lemma {:induction false} DueSkips(waiters: seq<Waiter>, now: Scope, i: nat)
    requires i <= |waiters| && forall j :: 0 <= j < i ==> waiters[j].phase.Done?
    ensures Due(waiters, now, 0) == Due(waiters, now, i)
  {
    if i > 0 { DueSkips(waiters, now, i - 1); }
  }

  lemma {:induction false} DueAgrees(waiters: seq<Waiter>, others: seq<Waiter>, now: Scope, i: nat)
    requires i <= |waiters| == |others| && forall j :: i <= j < |waiters| ==> waiters[j] == others[j]
    ensures Due(waiters, now, i) == Due(others, now, i)
    decreases |waiters| - i
  {
    if i < |waiters| { DueAgrees(waiters, others, now, i + 1); }
  }

  // Once the first unreleased query no longer waits, the others are as due as before.
  lemma DueAfter(waiters: seq<Waiter>, after: seq<Waiter>, now: Scope, i: nat)
    requires i < |waiters| == |after| && forall j :: 0 <= j < |waiters| && j != i ==> waiters[j] == after[j]
    requires (forall j :: 0 <= j < i ==> waiters[j].phase.Done?) && !after[i].phase.Waiting?
    ensures Due(waiters, now, 0) == (if waiters[i] == Waiter(now, Waiting) then [i] else []) + Due(after, now, 0)
  {
    DueSkips(waiters, now, i);
    DueSkips(after, now, i);
    DueAgrees(waiters, after, now, i + 1);
  }

  // One step of draining: a dialog opens exactly if the first unreleased query is due, and it is that query's.
  lemma DrainStep(q: Queue, e: Event)
    requires Orderly(q) && FirstOpen(q.waiters) < |q.waiters|
    requires e == var i := FirstOpen(q.waiters); if q.waiters[i].phase.Showing? then Close(i) else Turn(i)
    ensures Next(q, e).shown + Due(Next(q, e).waiters, Next(q, e).now, 0) == q.shown + Due(q.waiters, q.now, 0)
  {
    var i, next := FirstOpen(q.waiters), Next(q, e);
    if q.waiters[i].phase.Waiting? { TurnShowsIff(q, i); }
    DueAfter(q.waiters, next.waiters, q.now, i);
  }

  // That run is always possible and releases every query; on the way exactly the dialogs open that are due, in order.
  lemma {:induction false} QueueDrains(q: Queue)
    requires Orderly(q)
    ensures Possible(q, DrainRun(q)) && AllReleased(After(q, DrainRun(q)))
    ensures |After(q, DrainRun(q)).waiters| == |q.waiters|
    ensures After(q, DrainRun(q)).shown == q.shown + Due(q.waiters, q.now, 0)
    decreases Pending(q.waiters)
  {
    var i := FirstOpen(q.waiters);
    if i < |q.waiters| {
      AlwaysProgress(q);
      var e := if q.waiters[i].phase.Showing? then Close(i) else Turn(i);
      QueueDrains(Next(q, e));
      AfterPrepend(q, e, DrainRun(Next(q, e)));
      DrainStep(q, e);
    } else {
      DueSkips(q.waiters, q.now, i);
    }
  }

  // A query asked under the current scope gets its dialog, after those of the queries that ask before it.
  lemma AskedIsShown(q: Queue)
    requires Orderly(q)
    ensures var n := Next(q, Ask(q.now));
            && Orderly(n) && Possible(n, DrainRun(n))
            && After(n, DrainRun(n)).shown == q.shown + Due(q.waiters, q.now, 0) + [|q.waiters|]
  {
    var n := Next(q, Ask(q.now));
    StepOrderly(q, Ask(q.now));
    QueueDrains(n);
    DueOfAsked(q.waiters, q.now, 0);
    assert q.shown + (Due(q.waiters, q.now, 0) + [|q.waiters|]) == q.shown + Due(q.waiters, q.now, 0) + [|q.waiters|];
  }

  lemma {:induction false} DueOfAsked(waiters: seq<Waiter>, now: Scope, i: nat)
    requires i <= |waiters|
    ensures Due(waiters + [Waiter(now, Waiting)], now, i) == Due(waiters, now, i) + [|waiters|]
    decreases |waiters| - i
  {
    if i < |waiters| {
      DueOfAsked(waiters, now, i + 1);
    } else {
      assert Due(waiters + [Waiter(now, Waiting)], now, i + 1) == [];
    }
  }

  // An invalidation closes the dialog that is open, and releases no other query.
  lemma InvalidationCloses(q: Queue)
    requires Orderly(q)
    ensures var n := Next(q, Invalidate);
            && |n.waiters| == |q.waiters| && n.cancel.None? && n.shown == q.shown
            && n.now == q.now.(generation := n.now.generation) && q.now.generation < n.now.generation
            && forall i :: 0 <= i < |q.waiters| ==>
                 n.waiters[i] == if q.waiters[i].phase.Showing? then q.waiters[i].(phase := Done) else q.waiters[i]
  {
    if q.cancel.Some? { CloseOrderly(q, q.cancel.value); }
    assert forall i: nat :: i < |q.waiters| && q.waiters[i].phase.Showing? ==> q.cancel == Some(i);
  }

  // After an invalidation the queries asked so far are all released without another dialog.
  lemma InvalidatedQueueDrains(q: Queue)
    requires Orderly(q)
    requires forall i :: 0 <= i < |q.waiters| ==> q.waiters[i].scope.generation <= q.now.generation
    ensures var n := Next(q, Invalidate);
            && Orderly(n) && Possible(n, DrainRun(n))
            && AllReleased(After(n, DrainRun(n)))
            && After(n, DrainRun(n)).shown == q.shown
  {
    var n := Next(q, Invalidate);
    StepOrderly(q, Invalidate);
    InvalidationCloses(q);
    QueueDrains(n);
    NoneDue(n.waiters, n.now, 0);
  }

  // After a change to a router or account that no query so far was asked under, all are released without another
  // dialog, except that one already open stays until it is closed.
  lemma SwitchedQueueDrains(q: Queue, router: string, account: string)
    requires Orderly(q)
    requires forall i :: 0 <= i < |q.waiters| ==>
               q.waiters[i].scope.router != router || q.waiters[i].scope.account != account
    ensures var n := Next(q, Switch(router, account));
            && Orderly(n) && n.waiters == q.waiters && n.cancel == q.cancel
            && Possible(n, DrainRun(n)) && AllReleased(After(n, DrainRun(n)))
            && After(n, DrainRun(n)).shown == q.shown
  {
    var n := Next(q, Switch(router, account));
    StepOrderly(q, Switch(router, account));
    QueueDrains(n);
    NoneDue(n.waiters, n.now, 0);
  }
}
