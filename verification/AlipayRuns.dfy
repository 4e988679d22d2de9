/** Whole runs of the Alipay recharge: timers, focus events, clicks, restored orders and backend replies in any order.
    */
module AlipayRuns {
  import opened Optional
  import opened AlipayDesk

  // A completion waiting for its background question, or one that has taken the desk.
  datatype Task = Asking(automatic: bool, approved: bool) | Running(run: Run)

  // `probes` counts timer callbacks that wait for their background question. The last six fields only record: what
  // was shown to the outside; the automatic checks counted since the user last remembered or reopened an order; the
  // automatic transfer attempts counted since an order was last remembered or restored, how often its arrival was
  // detected again in that time, and how many completions there were that could; and the largest number of timer
  // callbacks, waiting or armed, there ever was at once.
  datatype World = World(
    desk: Desk,
    probes: nat,
    tasks: map<nat, Task>,
    nextTask: nat,
    nextPayment: nat,
    log: seq<Entry>,
    autoChecks: nat,
    autoRetries: nat,
    redetected: nat,
    late: nat,
    peak: nat)

  const START := World(IDLE, 0, map[], 0, 0, [], 0, 0, 0, 0, 0)

  datatype Event =
    | Remember(amount: Option<int>, before: Option<int>)
    | Restore(amount: Option<int>, before: Option<int>)
    | Abandon
    | Reopen
    | OpenFails
    | Focus
    | TimerFires
    | ProbeReply(background: bool)
    | Click(approved: bool)
    | Enter(task: nat, background: bool)
    | Wake(task: nat, reply: Reply)

  predicate AfterSubmit(s: Stage) {
    s.Confirming? || s.Refreshing? || s.Finishing? || s.Recording?
  }

  // A completion in flight that will end by freeing the desk. One that has submitted its transfer will first give
  // its order up.
  predicate Loose(task: Task) {
    task.Running? && !AfterSubmit(task.run.stage)
  }

  ghost predicate HasLoose(w: World) {
    exists t :: t in w.tasks && Loose(w.tasks[t])
  }

  // The guard for remembering or restoring an order: the desk is held, or every completion in flight has submitted
  // its transfer and has yet to give its order up.
  ghost predicate MayRemember(w: World) {
    w.desk.busy || !HasLoose(w)
  }

  // With `guarded`, orders are remembered and restored under that guard only. They may be given up at any time.
  ghost predicate Enabled(w: World, e: Event, guarded: bool) {
    && ((e.Remember? || e.Restore?) && guarded ==> MayRemember(w))
    && (e.TimerFires? ==> w.desk.timer)
    && (e.ProbeReply? ==> w.probes > 0)
    && (e.Enter? ==> e.task in w.tasks && w.tasks[e.task].Asking?)
    && (e.Wake? ==> e.task in w.tasks && w.tasks[e.task].Running?)
  }

  function Max(a: nat, b: nat): nat {
    if a < b then b else a
  }

  // Puts a new desk in place, noting how many callbacks there now are.
  function WithDesk(w: World, d: Desk): World {
    w.(desk := d, peak := if d.timer then Max(w.peak, w.probes + 1) else w.peak)
  }

  function Asks(w: World, automatic: bool, approved: bool): World {
    if w.desk.busy then w
    else w.(tasks := w.tasks[w.nextTask := Asking(automatic, approved)], nextTask := w.nextTask + 1)
  }

  function NewPayment(w: World, e: Event): Payment
    requires e.Remember? || e.Restore?
  {
    Payment(w.nextPayment, e.amount, e.before)
  }

  function Fresh(w: World): World {
    w.(nextPayment := w.nextPayment + 1, autoChecks := 0, autoRetries := 0, redetected := 0, late := 0)
  }

  // A completion that would detect an arrival although it is known: it was not told of it when it was started.
  predicate Unaware(task: Task) {
    match task
    case Asking(_, approved) => !approved
    case Running(run) => !run.approved && run.stage.Balances?
  }

  function UnawareTasks(tasks: map<nat, Task>): set<nat> {
    set t | t in tasks && Unaware(tasks[t])
  }

  function Probed(w: World): World {
    var counted := w.(
      desk := Counted(w.desk),
      autoChecks := if w.desk.active.Some? && !w.desk.arrivalReady then w.autoChecks + 1 else w.autoChecks,
      autoRetries := if w.desk.active.Some? && w.desk.arrivalReady then w.autoRetries + 1 else w.autoRetries);
    Asks(counted, true, w.desk.arrivalReady)
  }

  // Whether this reply makes the completion detect the arrival, rather than rely on an earlier detection.
  predicate Detects(d: Desk, r: Run, reply: Reply) {
    r.stage.Balances? && reply.Snapshot? && d.active == Some(r.payment) && reply.matches
    && Arrived(r.payment, reply.card) && !(r.approved && d.arrivalReady)
  }

  function Settled(w: World, task: nat, o: Outcome): World {
    var tasks := if o.run.Some? then w.tasks[task := Running(o.run.value)] else w.tasks - {task};
    var logged := if o.entry.Some? then w.log + [o.entry.value] else w.log;
    WithDesk(w.(tasks := tasks, log := logged), o.desk)
  }

  // The first detection finds so many completions that could detect the arrival again.
  function Noticed(w: World, next: World): World {
    if w.desk.arrivalReady then next.(redetected := next.redetected + 1) else next.(late := |UnawareTasks(next.tasks)|)
  }

  function Restored(w: World, p: Payment): World {
    Fresh(w).(log := w.log + [Entry.Restored(p)], late := |UnawareTasks(w.tasks)|)
  }

  function Clicked(w: World, approved: bool): World {
    w.(late := if approved || w.desk.busy then w.late else w.late + 1)
  }

  function Woken(w: World, t: nat, reply: Reply, android: bool): World
    requires t in w.tasks && w.tasks[t].Running?
  {
    var next := Settled(w, t, Resumed(w.desk, w.tasks[t].run, reply, android));
    if Detects(w.desk, w.tasks[t].run, reply) then Noticed(w, next) else next
  }

  function Next(w: World, e: Event, android: bool): World {
    match e
    case Remember(_, _) => WithDesk(Fresh(w), Remembered(w.desk, NewPayment(w, e)))
    case Restore(_, _) => WithDesk(Restored(w, NewPayment(w, e)), RestoredConfirmed(w.desk, NewPayment(w, e)))
    case Abandon => WithDesk(w, Cleared(w.desk))
    case Reopen => WithDesk(w.(autoChecks := if w.desk.active.Some? then 0 else w.autoChecks), Reopened(w.desk))
    case OpenFails => w.(desk := w.desk.(handedOff := false))
    case Focus => WithDesk(w, Scheduled(w.desk))
    case TimerFires => w.(desk := w.desk.(timer := false), probes := if Fires(w.desk) then w.probes + 1 else w.probes)
    case ProbeReply(background) =>
      var fewer := w.(probes := if w.probes > 0 then w.probes - 1 else 0);
      if background then fewer else Probed(fewer)
    case Click(approved) => Asks(Clicked(w, approved), false, approved)
    case Enter(t, background) =>
      if t !in w.tasks || !w.tasks[t].Asking? then w
      else if background || !Fires(w.desk) then w.(tasks := w.tasks - {t})
      else Settled(w, t, Begun(w.desk, w.tasks[t].automatic, w.tasks[t].approved))
    case Wake(t, reply) =>
      if t !in w.tasks || !w.tasks[t].Running? then w else Woken(w, t, reply, android)
  }

  // The world after a run of events, and whether each of them could happen when it did.
  function After(w: World, run: seq<Event>, android: bool): World
    decreases |run|
  {
    if run == [] then w else After(Next(w, run[0], android), run[1..], android)
  }

  ghost predicate Possible(w: World, run: seq<Event>, guarded: bool, android: bool)
    decreases |run|
  {
    run != [] ==> Enabled(w, run[0], guarded) && Possible(Next(w, run[0], android), run[1..], guarded, android)
  }

  // ---------- every transfer has a cause ----------

  ghost predicate Caused(log: seq<Entry>, p: Payment) {
    exists k :: 0 <= k < |log| && Cause(log[k], p)
  }

  // The card holds exactly the balance before the payment and its amount.
  predicate Exactly(p: Payment, card: Option<int>) {
    p.balanceBefore.Some? && p.amount.Some? && card == Some(p.balanceBefore.value + p.amount.value)
  }

  predicate Cause(e: Entry, p: Payment) {
    e == Entry.Restored(p) || (e.Saw? && e.payment == p && Exactly(p, e.card))
  }

  // Whether a run at this stage has passed the arrival check.
  predicate PastCheck(s: Stage) {
    s.Preparing? || s.Confirming? || s.Refreshing? || s.Finishing? || s.Recording?
  }

  // The payments that a log shows a cause for.
  ghost function Causes(log: seq<Entry>): iset<Payment> {
    iset p: Payment | Caused(log, p)
  }

  ghost predicate DeskCaused(causes: iset<Payment>, d: Desk) {
    d.arrivalReady ==> d.active.Some? && d.active.value in causes
  }

  ghost predicate TaskCaused(causes: iset<Payment>, task: Task) {
    task.Running? && (PastCheck(task.run.stage) || task.run.submitted) ==> task.run.payment in causes
  }

  ghost predicate ConfirmsCaused(log: seq<Entry>) {
    forall k :: 0 <= k < |log| && log[k].Confirm? ==> Caused(log[..k], log[k].payment)
  }

  ghost predicate CauseInv(w: World) {
    && DeskCaused(Causes(w.log), w.desk)
    && (forall t :: t in w.tasks ==> TaskCaused(Causes(w.log), w.tasks[t]))
    && ConfirmsCaused(w.log)
  }

  function Logged(log: seq<Entry>, entry: Option<Entry>): seq<Entry> {
    if entry.Some? then log + [entry.value] else log
  }

  lemma CausesGrow(log: seq<Entry>, entry: Option<Entry>)
    ensures Causes(log) <= Causes(Logged(log, entry))
    ensures entry.Some? ==> forall p :: Cause(entry.value, p) ==> p in Causes(Logged(log, entry))
  {
    var more := Logged(log, entry);
    forall p | Caused(log, p) ensures Caused(more, p) {
      var k :| 0 <= k < |log| && Cause(log[k], p);
      assert Cause(more[k], p);
    }
    if entry.Some? {
      forall p | Cause(entry.value, p) ensures Caused(more, p) { assert Cause(more[|log|], p); }
    }
  }

  lemma ConfirmsGrow(log: seq<Entry>, entry: Option<Entry>)
    requires ConfirmsCaused(log)
    requires entry.Some? && entry.value.Confirm? ==> Caused(log, entry.value.payment)
    ensures ConfirmsCaused(Logged(log, entry))
  {
    var more := Logged(log, entry);
    forall k | 0 <= k < |more| && more[k].Confirm? ensures Caused(more[..k], more[k].payment) {
      if k < |log| { assert more[..k] == log[..k]; } else { assert more[..k] == log; }
    }
  }

  // What a stretch must show: its new desk and its next wait have their causes, and a transfer it orders had one.
  ghost predicate OutcomeCaused(before: iset<Payment>, after: iset<Payment>, o: Outcome) {
    && DeskCaused(after, o.desk)
    && (o.run.Some? ==> TaskCaused(after, Running(o.run.value)))
    && (o.entry.Some? && o.entry.value.Confirm? ==> o.entry.value.payment in before)
  }

  lemma BalancesCause(
      before: iset<Payment>, after: iset<Payment>, d: Desk, r: Run, matches: bool, card: Option<int>, android: bool)
    requires before <= after
    requires Exactly(r.payment, card) && d.active == Some(r.payment) && matches ==> r.payment in after
    requires DeskCaused(before, d) && TaskCaused(before, Running(r)) && r.stage.Balances?
    ensures OutcomeCaused(before, after, BalancesRead(d, r, matches, card, android))
  {
    ReleasedKeeps(d);
    ReleasedKeeps(d.(promptShown := true));
    CaughtCause(after, d, r);
  }

  lemma ReleasedKeeps(d: Desk)
    ensures Released(d).arrivalReady == d.arrivalReady && Released(d).active == d.active
  {}

  lemma CaughtCause(after: iset<Payment>, d: Desk, r: Run)
    requires DeskCaused(after, d) && (r.submitted ==> r.payment in after)
    ensures OutcomeCaused(after, after, Caught(d, r)) && Caught(d, r).entry.None?
  {
    ReleasedKeeps(d);
  }

  lemma SubmittedCause(before: iset<Payment>, after: iset<Payment>, d: Desk, r: Run, reply: Reply, android: bool)
    requires before <= after && DeskCaused(after, d) && TaskCaused(before, Running(r)) && AfterSubmit(r.stage)
    ensures OutcomeCaused(before, after, Resumed(d, r, reply, android))
  {
    CaughtCause(after, d, r);
    ReleasedKeeps(Cleared(d));
  }

  lemma OtherCause(before: iset<Payment>, after: iset<Payment>, d: Desk, r: Run, reply: Reply, android: bool)
    requires before <= after
    requires DeskCaused(after, d) && TaskCaused(before, Running(r))
    requires !(r.stage.Balances? && reply.Snapshot?)
    ensures OutcomeCaused(before, after, Resumed(d, r, reply, android))
  {
    if AfterSubmit(r.stage) {
      SubmittedCause(before, after, d, r, reply, android);
    } else {
      CaughtCause(after, d, r);
      ReleasedKeeps(d);
    }
  }

  lemma ResumeCauses(log: seq<Entry>, d: Desk, r: Run, reply: Reply, android: bool)
    requires DeskCaused(Causes(log), d) && TaskCaused(Causes(log), Running(r))
    ensures var o := Resumed(d, r, reply, android);
            OutcomeCaused(Causes(log), Causes(Logged(log, o.entry)), o)
  {
    var o := Resumed(d, r, reply, android);
    CausesGrow(log, o.entry);
    if r.stage.Balances? && reply.Snapshot? {
      BalancesEntry(d, r, reply.matches, reply.card, android);
      BalancesCause(Causes(log), Causes(Logged(log, o.entry)), d, r, reply.matches, reply.card, android);
    } else {
      OtherCause(Causes(log), Causes(Logged(log, o.entry)), d, r, reply, android);
    }
  }

  lemma BalancesEntry(d: Desk, r: Run, matches: bool, card: Option<int>, android: bool)
    ensures BalancesRead(d, r, matches, card, android).entry
         == if d.active == Some(r.payment) && matches then Some(Saw(r.payment, card)) else None
  {}

  lemma SettledCauses(w: World, t: nat, o: Outcome)
    requires CauseInv(w) && t in w.tasks
    requires OutcomeCaused(Causes(w.log), Causes(Logged(w.log, o.entry)), o)
    ensures CauseInv(Settled(w, t, o))
  {
    CausesGrow(w.log, o.entry);
    ConfirmsGrow(w.log, o.entry);
    var next := Settled(w, t, o);
    assert forall u :: u in next.tasks && u != t ==> u in w.tasks && w.tasks[u] == next.tasks[u];
  }

  lemma RestoreCauses(w: World, e: Event, android: bool)
    requires CauseInv(w) && e.Restore?
    ensures CauseInv(Next(w, e, android))
  {
    var entry := Some(Entry.Restored(NewPayment(w, e)));
    CausesGrow(w.log, entry);
    ConfirmsGrow(w.log, entry);
    assert Cause(entry.value, NewPayment(w, e));
  }

  lemma CauseStep(w: World, e: Event, android: bool)
    requires CauseInv(w)
    ensures CauseInv(Next(w, e, android))
  {
    match e {
      case Restore(_, _) => RestoreCauses(w, e, android);
      case Enter(t, background) =>
        if t in w.tasks && w.tasks[t].Asking? && !background && Fires(w.desk) {
          SettledCauses(w, t, Begun(w.desk, w.tasks[t].automatic, w.tasks[t].approved));
        }
      case Wake(t, reply) =>
        if t in w.tasks && w.tasks[t].Running? {
          ResumeCauses(w.log, w.desk, w.tasks[t].run, reply, android);
          SettledCauses(w, t, Resumed(w.desk, w.tasks[t].run, reply, android));
        }
      case _ =>
    }
  }

  lemma {:induction false} CausesKept(w: World, run: seq<Event>, android: bool)
    requires CauseInv(w)
    ensures CauseInv(After(w, run, android))
    decreases |run|
  {
    if run != [] {
      CauseStep(w, run[0], android);
      CausesKept(Next(w, run[0], android), run[1..], android);
    }
  }

  // In every run, guarded or not, a transfer is ordered for a payment only after that payment was restored as
  // confirmed, or a card balance read for it exceeded the balance before it by exactly its amount.
  lemma TransfersAreCaused(run: seq<Event>, android: bool)
    ensures ConfirmsCaused(After(START, run, android).log)
  {
    CausesKept(START, run, android);
  }

  // A matching balance of the active order, unless its arrival is known to the completion that reads it, is taken for
  // the arrival if and only if the card gained exactly the amount; only then does the completion go on to a transfer.
  lemma ArrivalIsExact(d: Desk, r: Run, card: Option<int>, android: bool)
    requires r.stage.Balances? && d.active == Some(r.payment) && !(r.approved && d.arrivalReady)
    ensures var o := Resumed(d, r, Snapshot(true, card), android);
            && (o.run.Some? && o.run.value.stage.Preparing? <==> Exactly(r.payment, card))
            && (o.desk.arrivalReady <==> d.arrivalReady || Exactly(r.payment, card))
            && o.desk.active == d.active && o.entry == Some(Saw(r.payment, card))
  {
    ReleasedKeeps(d);
    ReleasedKeeps(d.(promptShown := true));
  }

  // The reply that an entry in the log stands for.
  predicate Answers(e: Event, entry: Entry) {
    match entry
    case Restored(p) => e == Restore(p.amount, p.balanceBefore)
    case Saw(_, card) => e.Wake? && e.reply == Snapshot(true, card)
    case Confirm(_) => e.Wake? && e.reply == Preview(true)
  }

  lemma ResumedEntry(d: Desk, r: Run, reply: Reply, android: bool)
    ensures var o := Resumed(d, r, reply, android);
            && (o.entry.Some? && o.entry.value.Saw? ==> reply == Snapshot(true, o.entry.value.card))
            && (o.entry.Some? && o.entry.value.Confirm? ==> reply == Preview(true))
            && (o.entry.Some? ==> !o.entry.value.Restored?)
  {}

  lemma StepEntry(w: World, e: Event, android: bool)
    ensures var log := Next(w, e, android).log;
            log == w.log || (|log| == |w.log| + 1 && log[..|w.log|] == w.log && Answers(e, log[|w.log|]))
  {
    if e.Wake? && e.task in w.tasks && w.tasks[e.task].Running? {
      ResumedEntry(w.desk, w.tasks[e.task].run, e.reply, android);
    }
  }

  lemma {:induction false} EntriesAnswered(w: World, run: seq<Event>, android: bool)
    ensures w.log <= After(w, run, android).log
    ensures forall k :: |w.log| <= k < |After(w, run, android).log| ==>
              exists j :: 0 <= j < |run| && Answers(run[j], After(w, run, android).log[k])
    decreases |run|
  {
    if run != [] {
      var next, a := Next(w, run[0], android), After(w, run, android);
      StepEntry(w, run[0], android);
      EntriesAnswered(next, run[1..], android);
      forall k | |w.log| <= k < |a.log| ensures exists j :: 0 <= j < |run| && Answers(run[j], a.log[k]) {
        if k < |next.log| {
          assert Answers(run[0], a.log[k]);
        } else {
          var j :| 0 <= j < |run[1..]| && Answers(run[1..][j], a.log[k]);
          assert Answers(run[j + 1], a.log[k]);
        }
      }
    }
  }

  // What the outside did before a transfer could be ordered: the user restored the payment as confirmed, or the
  // backend answered for its accounts with the balance before it plus exactly its amount.
  predicate Releases(e: Event, p: Payment) {
    || e == Restore(p.amount, p.balanceBefore)
    || (e.Wake? && e.reply.Snapshot? && e.reply.matches && p.balanceBefore.Some? && p.amount.Some?
        && e.reply.card == Some(p.balanceBefore.value + p.amount.value))
  }

  lemma TransfersAreReleased(run: seq<Event>, android: bool, k: nat)
    requires k < |After(START, run, android).log| && After(START, run, android).log[k].Confirm?
    ensures exists j :: 0 <= j < |run| && Releases(run[j], After(START, run, android).log[k].payment)
  {
    var log := After(START, run, android).log;
    var p := log[k].payment;
    TransfersAreCaused(run, android);
    EntriesAnswered(START, run, android);
    assert Caused(log[..k], p);
    var i :| 0 <= i < |log[..k]| && Cause(log[..k][i], p);
    var j :| 0 <= j < |run| && Answers(run[j], log[i]);
    assert Releases(run[j], p);
  }

  // ---------- at most one transfer for each payment ----------

  ghost predicate Once(log: seq<Entry>) {
    forall j, k :: 0 <= j < k < |log| && log[j].Confirm? && log[k].Confirm? ==> log[j].payment != log[k].payment
  }

  ghost predicate Confirmed(log: seq<Entry>, p: Payment) {
    exists k :: 0 <= k < |log| && log[k] == Confirm(p)
  }

  // Except while it reports its end, a completion has submitted its transfer exactly if its stage says so.
  predicate Honest(r: Run) {
    r.stage.Reporting? || (r.submitted <==> AfterSubmit(r.stage))
  }

  // The completions that will free the desk are none while an order waits on a free desk, and one at most while the
  // desk is held; there is none once the transfer of the active order was ordered, and then the desk is held.
  ghost predicate SafeInv(w: World) {
    && (w.desk.active.None? ==> !w.desk.busy)
    && (w.desk.active.Some? ==> w.desk.active.value.serial < w.nextPayment)
    && (forall t :: t in w.tasks ==> t < w.nextTask)
    && (forall t :: t in w.tasks && w.tasks[t].Running? ==> Honest(w.tasks[t].run))
    && (forall t :: t in w.tasks && w.tasks[t].Running? ==> w.tasks[t].run.payment.serial < w.nextPayment)
    && (w.desk.active.Some? && !w.desk.busy ==> !HasLoose(w))
    && (w.desk.busy ==>
          forall t, u :: t in w.tasks && u in w.tasks && Loose(w.tasks[t]) && Loose(w.tasks[u]) ==> t == u)
    && (forall k :: 0 <= k < |w.log| && w.log[k].Confirm? ==> w.log[k].payment.serial < w.nextPayment)
    && (w.desk.active.Some? && Confirmed(w.log, w.desk.active.value) ==> w.desk.busy && !HasLoose(w))
    && Once(w.log)
  }

  lemma StartIsSafe()
    ensures SafeInv(START)
  {}

  // A stretch of a completion that has submitted its transfer: it goes on, or gives the order up.
  lemma SubmittedResumes(d: Desk, r: Run, reply: Reply, android: bool)
    requires Honest(r) && AfterSubmit(r.stage)
    ensures var o := Resumed(d, r, reply, android);
            && (o.run.Some? ==> o.run.value.payment == r.payment && Honest(o.run.value))
            && o.entry.None?
            && ((o.desk == d && o.run.Some? && AfterSubmit(o.run.value.stage)) || (o.desk.active.None? && !o.desk.busy))
  {}

  // A stretch of one that has not: it keeps the active order, holds the desk until it ends, and submits only for
  // the active order.
  predicate LooseStretch(d: Desk, r: Run, o: Outcome) {
    && o.desk.active == d.active
    && (o.run.Some? ==> o.run.value.payment == r.payment && Honest(o.run.value) && o.desk.busy == d.busy)
    && (o.run.None? ==> !o.desk.busy)
    && (o.run.Some? && AfterSubmit(o.run.value.stage)
        ==> o.entry == Some(Confirm(r.payment)) && d.active == Some(r.payment))
    && (o.entry.Some? && o.entry.value.Confirm? ==> o.run.Some? && AfterSubmit(o.run.value.stage))
  }

  lemma CaughtIsLoose(d: Desk, r: Run)
    requires !r.submitted
    ensures LooseStretch(d, r, Caught(d, r)) && LooseStretch(d, r, Ended(d))
  {}

  lemma BalancesAreLoose(d: Desk, r: Run, matches: bool, card: Option<int>, android: bool)
    requires !r.submitted
    ensures LooseStretch(d, r, BalancesRead(d, r, matches, card, android))
  {
    CaughtIsLoose(d, r);
  }

  lemma LooseResumes(d: Desk, r: Run, reply: Reply, android: bool)
    requires Honest(r) && !AfterSubmit(r.stage)
    ensures LooseStretch(d, r, Resumed(d, r, reply, android))
  {
    if !r.stage.Reporting? {
      CaughtIsLoose(d, r);
      if r.stage.Balances? && reply.Snapshot? { BalancesAreLoose(d, r, reply.matches, reply.card, android); }
    }
  }

  // The log gained one entry, or none.
  lemma ConfirmedGrows(log: seq<Entry>, entry: Option<Entry>, p: Payment)
    ensures Confirmed(Logged(log, entry), p) <==> Confirmed(log, p) || entry == Some(Confirm(p))
  {
    var more := Logged(log, entry);
    if Confirmed(log, p) {
      var k :| 0 <= k < |log| && log[k] == Confirm(p);
      assert more[k] == Confirm(p);
    }
    if entry == Some(Confirm(p)) { assert more[|log|] == Confirm(p); }
  }

  lemma OnceGrows(log: seq<Entry>, entry: Option<Entry>)
    requires Once(log) && (entry.Some? && entry.value.Confirm? ==> !Confirmed(log, entry.value.payment))
    ensures Once(Logged(log, entry))
  {
    if entry.Some? && entry.value.Confirm? {
      forall k | 0 <= k < |log| && log[k].Confirm? ensures log[k].payment != entry.value.payment {
        assert log[k] == Confirm(log[k].payment);
      }
    }
  }

  // A new order is not yet in the log, so remembering it under the guard keeps everything.
  lemma NewPaymentIsNew(w: World, amount: Option<int>, before: Option<int>)
    requires SafeInv(w)
    ensures !Confirmed(w.log, Payment(w.nextPayment, amount, before))
    ensures !Confirmed(w.log + [Entry.Restored(Payment(w.nextPayment, amount, before))],
                       Payment(w.nextPayment, amount, before))
  {
    var p := Payment(w.nextPayment, amount, before);
    ConfirmedGrows(w.log, Some(Entry.Restored(p)), p);
  }

  lemma RememberSafe(w: World, e: Event, android: bool)
    requires SafeInv(w) && MayRemember(w) && (e.Remember? || e.Restore?)
    ensures SafeInv(Next(w, e, android))
  {
    var next := Next(w, e, android);
    NewPaymentIsNew(w, e.amount, e.before);
    assert next.tasks == w.tasks;
    assert HasLoose(next) ==> HasLoose(w);
  }

  lemma AbandonSafe(w: World)
    requires SafeInv(w)
    ensures SafeInv(WithDesk(w, Cleared(w.desk)))
  {}

  // Steps that touch neither the completions in flight nor the active order.
  lemma QuietSafe(w: World, next: World)
    requires SafeInv(w)
    requires next.desk.active == w.desk.active && next.desk.busy == w.desk.busy
    requires next.nextPayment == w.nextPayment && next.log == w.log && next.nextTask >= w.nextTask
    requires forall t :: t in next.tasks ==> t < next.nextTask
    requires forall t :: t in next.tasks && next.tasks[t].Running? ==> t in w.tasks && w.tasks[t] == next.tasks[t]
    ensures SafeInv(next)
  {
    assert HasLoose(next) ==> HasLoose(w);
  }

  lemma EnterSafe(w: World, t: nat)
    requires SafeInv(w) && t in w.tasks && w.tasks[t].Asking? && Fires(w.desk)
    ensures SafeInv(Settled(w, t, Begun(w.desk, w.tasks[t].automatic, w.tasks[t].approved)))
  {
    var next := Settled(w, t, Begun(w.desk, w.tasks[t].automatic, w.tasks[t].approved));
    assert forall u :: u in next.tasks && u != t ==> u in w.tasks && w.tasks[u] == next.tasks[u];
    assert !HasLoose(w);
  }

  // What every stretch keeps, whatever it does to the desk.
  lemma SettledTasks(w: World, t: nat, o: Outcome)
    requires SafeInv(w) && t in w.tasks && w.tasks[t].Running?
    requires o.run.Some? ==> o.run.value.payment == w.tasks[t].run.payment && Honest(o.run.value)
    requires o.entry.Some? && o.entry.value.Confirm? ==> o.entry.value.payment == w.tasks[t].run.payment
    ensures var next := Settled(w, t, o);
            && (forall u :: u in next.tasks ==> u < next.nextTask)
            && (forall u :: u in next.tasks && u != t ==> u in w.tasks && next.tasks[u] == w.tasks[u])
            && (forall u :: u in next.tasks && next.tasks[u].Running? ==> Honest(next.tasks[u].run))
            && (forall u :: u in next.tasks && next.tasks[u].Running?
                  ==> next.tasks[u].run.payment.serial < next.nextPayment)
            && (forall k :: 0 <= k < |next.log| && next.log[k].Confirm?
                  ==> next.log[k].payment.serial < next.nextPayment)
            && next.log == Logged(w.log, o.entry) && next.desk == o.desk && next.nextPayment == w.nextPayment
  {}

  lemma SubmittedSafe(w: World, t: nat, o: Outcome)
    requires SafeInv(w) && t in w.tasks && w.tasks[t].Running? && AfterSubmit(w.tasks[t].run.stage)
    requires o.run.Some? ==> o.run.value.payment == w.tasks[t].run.payment && Honest(o.run.value)
    requires o.entry.None?
    requires (o.desk == w.desk && o.run.Some? && AfterSubmit(o.run.value.stage))
          || (o.desk.active.None? && !o.desk.busy)
    ensures SafeInv(Settled(w, t, o))
  {
    var next := Settled(w, t, o);
    SettledTasks(w, t, o);
    if o.desk == w.desk && o.run.Some? && AfterSubmit(o.run.value.stage) {
      forall u | u in next.tasks && Loose(next.tasks[u]) ensures u in w.tasks && Loose(w.tasks[u]) {}
      assert HasLoose(next) ==> HasLoose(w);
    }
  }

  lemma LooseSafe(w: World, t: nat, o: Outcome)
    requires SafeInv(w) && t in w.tasks && w.tasks[t].Running? && !AfterSubmit(w.tasks[t].run.stage)
    requires LooseStretch(w.desk, w.tasks[t].run, o)
    ensures SafeInv(Settled(w, t, o))
  {
    var next := Settled(w, t, o);
    assert Loose(w.tasks[t]);
    SettledTasks(w, t, o);
    forall u | u in next.tasks && Loose(next.tasks[u]) ensures u in w.tasks && Loose(w.tasks[u]) {}
    OnceGrows(w.log, o.entry);
    if w.desk.active.Some? {
      assert HasLoose(w);
      ConfirmedGrows(w.log, o.entry, w.desk.active.value);
      forall u | u in next.tasks && Loose(next.tasks[u])
        ensures u == t && o.run.Some? && !AfterSubmit(o.run.value.stage) {}
    }
  }

  lemma WokenSafe(w: World, t: nat, reply: Reply, android: bool)
    requires SafeInv(w) && t in w.tasks && w.tasks[t].Running?
    ensures SafeInv(Settled(w, t, Resumed(w.desk, w.tasks[t].run, reply, android)))
  {
    var r := w.tasks[t].run;
    if AfterSubmit(r.stage) {
      SubmittedResumes(w.desk, r, reply, android);
      SubmittedSafe(w, t, Resumed(w.desk, r, reply, android));
    } else {
      LooseResumes(w.desk, r, reply, android);
      LooseSafe(w, t, Resumed(w.desk, r, reply, android));
    }
  }

  lemma OtherSafe(w: World, e: Event, android: bool)
    requires SafeInv(w) && (e.Reopen? || e.OpenFails? || e.Focus? || e.TimerFires? || e.ProbeReply? || e.Click?)
    ensures SafeInv(Next(w, e, android))
  {
    QuietSafe(w, Next(w, e, android));
  }

  lemma AskedSafe(w: World, t: nat, background: bool, android: bool)
    requires SafeInv(w) && t in w.tasks && w.tasks[t].Asking?
    ensures SafeInv(Next(w, Enter(t, background), android))
  {
    if background || !Fires(w.desk) { QuietSafe(w, w.(tasks := w.tasks - {t})); } else { EnterSafe(w, t); }
  }

  lemma SafeStep(w: World, e: Event, android: bool)
    requires SafeInv(w) && Enabled(w, e, true)
    ensures SafeInv(Next(w, e, android))
  {
    if e.Remember? || e.Restore? {
      RememberSafe(w, e, android);
    } else if e.Abandon? {
      AbandonSafe(w);
    } else if e.Wake? {
      WokenSafe(w, e.task, e.reply, android);
    } else if e.Enter? {
      AskedSafe(w, e.task, e.background, android);
    } else {
      OtherSafe(w, e, android);
    }
  }

  lemma {:induction false} SafetyKept(w: World, run: seq<Event>, android: bool)
    requires SafeInv(w) && Possible(w, run, true, android)
    ensures SafeInv(After(w, run, android))
    decreases |run|
  {
    if run != [] {
      SafeStep(w, run[0], android);
      SafetyKept(Next(w, run[0], android), run[1..], android);
    }
  }

  // With orders remembered and restored under the guard only, no run orders a transfer twice for one payment.
  lemma AtMostOneTransfer(run: seq<Event>, android: bool)
    requires Possible(START, run, true, android)
    ensures SafeInv(After(START, run, android)) && Once(After(START, run, android).log)
  {
    StartIsSafe();
    SafetyKept(START, run, android);
  }
}
