/** The Alipay recharge state of the main window and the synchronous stretches of code that change it.
    Every `await` of the program is the end of one stretch; what a suspended call still knows is its `Run`. */
module AlipayDesk {
  import opened Optional

  const CHECK_LIMIT := 180
  const RETRY_LIMIT := 5

  // Amounts are in cents, and None when the text could not be read as a number.
  datatype Payment = Payment(serial: nat, amount: Option<int>, balanceBefore: Option<int>)

  datatype Desk = Desk(
    active: Option<Payment>,
    arrivalReady: bool,
    busy: bool,
    handedOff: bool,
    timer: bool,
    checks: nat,
    retries: nat,
    promptShown: bool)

  const IDLE := Desk(None, false, false, false, false, 0, 0, false)

  // Where a completion that holds the busy flag is waiting.
  datatype Stage =
    | Balances | Alerting | Preparing | Cancelling | CancellingMismatch
    | Confirming | Refreshing | Finishing | Recording | Reporting

  datatype Run = Run(payment: Payment, automatic: bool, approved: bool, stage: Stage, submitted: bool)

  // What the backend or the user answers; any other answer than the one awaited is an error.
  datatype Reply = Failed | Snapshot(matches: bool, card: Option<int>) | Preview(matches: bool) | Done

  // What a stretch showed to the outside: a card balance read for a payment, or a transfer ordered for it.
  datatype Entry = Restored(payment: Payment) | Saw(payment: Payment, card: Option<int>) | Confirm(payment: Payment)

  predicate Arrived(p: Payment, card: Option<int>) {
    p.balanceBefore.Some? && p.amount.Some? && card.Some? && card.value - p.balanceBefore.value == p.amount.value
  }

  // ---------- the stretches, as functions of the state ----------

  function Cleared(d: Desk): Desk {
    Desk(None, false, false, false, false, 0, 0, false)
  }

  function Scheduled(d: Desk): Desk {
    if d.active.None? || !d.handedOff || d.busy
       || (!d.arrivalReady && d.checks >= CHECK_LIMIT)
       || (d.arrivalReady && d.retries >= RETRY_LIMIT) then d
    else d.(timer := true)
  }

  function Remembered(d: Desk, p: Payment): Desk {
    Scheduled(d.(
      active := Some(p), arrivalReady := false, handedOff := true, checks := 0, retries := 0, promptShown := false))
  }

  function RestoredConfirmed(d: Desk, p: Payment): Desk {
    Scheduled(Remembered(d, p).(arrivalReady := true))
  }

  function Reopened(d: Desk): Desk {
    if d.active.None? then d else Scheduled(d.(handedOff := true, checks := 0, promptShown := false))
  }

  // The end of every completion: free the desk and plan the next automatic attempt.
  function Released(d: Desk): Desk {
    var free := d.(busy := false);
    if free.active.None? then free
    else if free.arrivalReady && free.retries < RETRY_LIMIT then Scheduled(free)
    else if !free.arrivalReady && free.checks < CHECK_LIMIT then Scheduled(free)
    else free
  }

  // The timer's callback goes on to ask whether the app is in the background only if there is something to check.
  function Fires(d: Desk): bool {
    d.active.Some? && !d.busy
  }

  // The callback counts one automatic attempt once it learns that the app is in the foreground.
  function Counted(d: Desk): Desk {
    if d.arrivalReady then d.(retries := d.retries + 1) else d.(checks := d.checks + 1)
  }

  datatype Outcome = Outcome(desk: Desk, run: Option<Run>, entry: Option<Entry>)

  function Ended(d: Desk): Outcome {
    Outcome(Released(d), None, None)
  }

  function Waits(d: Desk, r: Run, stage: Stage): Outcome {
    Outcome(d, Some(r.(stage := stage)), None)
  }

  // The catch block: after a submitted transfer the order is given up for good, otherwise it stays.
  function Caught(d: Desk, r: Run): Outcome {
    if r.submitted then Waits(d, r, Recording)
    else if !r.automatic then Waits(d, r, Alerting)
    else Ended(d)
  }

  function Begun(d: Desk, automatic: bool, approved: bool): Outcome
    requires !d.busy && d.active.Some?
  {
    Outcome(d.(busy := true), Some(Run(d.active.value, automatic, approved, Balances, false)), None)
  }

  function BalancesRead(d: Desk, r: Run, matches: bool, card: Option<int>, android: bool): Outcome {
    if d.active != Some(r.payment) then Ended(d)
    else if !matches then Caught(d, r)
    else
      var arrived := Arrived(r.payment, card);
      var known := r.approved && d.arrivalReady;
      if !arrived && !known then
        var prompts := r.automatic && android && !d.promptShown && d.handedOff;
        var shown := if prompts then d.(promptShown := true) else d;
        var next := if prompts || !r.automatic then Waits(shown, r, Alerting) else Ended(shown);
        next.(entry := Some(Saw(r.payment, card)))
      else
        var ready := if known then d else d.(checks := CHECK_LIMIT, retries := 0, arrivalReady := true);
        Waits(ready, r, Preparing).(entry := Some(Saw(r.payment, card)))
  }

  function PreviewRead(d: Desk, r: Run, matches: bool): Outcome {
    if d.active != Some(r.payment) then Waits(d, r, Cancelling)
    else if !matches then Waits(d, r, CancellingMismatch)
    else Outcome(d, Some(r.(stage := Confirming, submitted := true)), Some(Confirm(r.payment)))
  }

  function Resumed(d: Desk, r: Run, reply: Reply, android: bool): Outcome {
    match r.stage
    case Balances => if reply.Snapshot? then BalancesRead(d, r, reply.matches, reply.card, android) else Caught(d, r)
    case Alerting => Ended(d)
    case Preparing => if reply.Preview? then PreviewRead(d, r, reply.matches) else Caught(d, r)
    case Cancelling => Ended(d)
    case CancellingMismatch => Caught(d, r)
    case Confirming => if reply.Done? then Waits(d, r, Refreshing) else Caught(d, r)
    case Refreshing => Waits(d, r, Finishing)
    case Finishing => Waits(Cleared(d), r, Reporting)
    case Recording => if r.automatic then Ended(Cleared(d)) else Waits(Cleared(d), r, Reporting)
    case Reporting => Ended(d)
  }

  // ---------- the same stretches as the program runs them, on its module-level variables ----------

  class AlipayWindow {
    const android: bool
    var active: Option<Payment>
    var arrivalReady: bool
    var busy: bool
    var handedOff: bool
    var timer: bool
    var checks: nat
    var retries: nat
    var promptShown: bool

    ghost function State(): Desk
      reads this
    {
      Desk(active, arrivalReady, busy, handedOff, timer, checks, retries, promptShown)
    }

    constructor (android: bool)
      ensures State() == IDLE && this.android == android
    {
      this.android := android;
      active, arrivalReady, busy, handedOff := None, false, false, false;
      timer, checks, retries, promptShown := false, 0, 0, false;
    }

    method Clear()
      modifies this
      ensures State() == Cleared(old(State()))
    {
      timer := false;
      active := None;
      arrivalReady := false;
      handedOff := false;
      checks := 0;
      retries := 0;
      promptShown := false;
      busy := false;
    }

    method Schedule()
      modifies this
      ensures State() == Scheduled(old(State()))
    {
      if active.None? || !handedOff || busy { return; }
      if !arrivalReady && checks >= CHECK_LIMIT { return; }
      if arrivalReady && retries >= RETRY_LIMIT { return; }
      timer := true;
    }

    method Remember(p: Payment)
      modifies this
      ensures State() == Remembered(old(State()), p)
    {
      active := Some(p);
      arrivalReady := false;
      handedOff := true;
      checks := 0;
      retries := 0;
      promptShown := false;
      Schedule();
    }

    method RestoreConfirmed(p: Payment)
      modifies this
      ensures State() == RestoredConfirmed(old(State()), p)
    {
      Remember(p);
      arrivalReady := true;
      Schedule();
    }

    method Reopen()
      modifies this
      ensures State() == Reopened(old(State()))
    {
      if active.None? { return; }
      handedOff := true;
      checks := 0;
      promptShown := false;
      Schedule();
    }

    method FireTimer() returns (asks: bool)
      modifies this
      ensures State() == old(State()).(timer := false) && asks == Fires(State())
    {
      timer := false;
      asks := active.Some? && !busy;
    }

    method CountAttempt()
      modifies this
      ensures State() == Counted(old(State()))
    {
      if arrivalReady { retries := retries + 1; } else { checks := checks + 1; }
    }

    // The stretch of a completion after its own background question.
    method Enter(automatic: bool, approved: bool) returns (next: Option<Run>)
      modifies this
      ensures old(Fires(State())) ==> Outcome(State(), next, None) == Begun(old(State()), automatic, approved)
      ensures !old(Fires(State())) ==> State() == old(State()) && next == None
    {
      if busy || active.None? { return None; }
      busy := true;
      next := Some(Run(active.value, automatic, approved, Balances, false));
    }

    method Release()
      modifies this
      ensures State() == Released(old(State()))
    {
      busy := false;
      if active.Some? {
        if arrivalReady && retries < RETRY_LIMIT {
          Schedule();
        } else if !arrivalReady && checks < CHECK_LIMIT {
          Schedule();
        }
      }
    }

    method Catch(r: Run) returns (next: Option<Run>)
      modifies this
      ensures Outcome(State(), next, None) == Caught(old(State()), r)
    {
      if r.submitted { return Some(r.(stage := Recording)); }
      if !r.automatic { return Some(r.(stage := Alerting)); }
      Release();
      next := None;
    }

    method ReadBalances(r: Run, matches: bool, card: Option<int>) returns (next: Option<Run>, entry: Option<Entry>)
      modifies this
      ensures Outcome(State(), next, entry) == BalancesRead(old(State()), r, matches, card, android)
    {
      entry := None;
      if active != Some(r.payment) {
        Release();
        return None, None;
      }
      if !matches {
        next := Catch(r);
        return;
      }
      entry := Some(Saw(r.payment, card));
      var known := r.approved && arrivalReady;
      if !Arrived(r.payment, card) && !known {
        if r.automatic && android && !promptShown && handedOff {
          promptShown := true;
          return Some(r.(stage := Alerting)), entry;
        }
        if !r.automatic { return Some(r.(stage := Alerting)), entry; }
        Release();
        return None, entry;
      }
      if !known {
        checks := CHECK_LIMIT;
        retries := 0;
        arrivalReady := true;
      }
      next := Some(r.(stage := Preparing));
    }

    method ReadPreview(r: Run, matches: bool) returns (next: Option<Run>, entry: Option<Entry>)
      ensures Outcome(State(), next, entry) == PreviewRead(State(), r, matches)
    {
      if active != Some(r.payment) { return Some(r.(stage := Cancelling)), None; }
      if !matches { return Some(r.(stage := CancellingMismatch)), None; }
      next, entry := Some(r.(stage := Confirming, submitted := true)), Some(Confirm(r.payment));
    }

    // One stretch of `completeAlipayNetworkRecharge`, from the reply that wakes it to its next await or its end.
    method Resume(r: Run, reply: Reply) returns (next: Option<Run>, entry: Option<Entry>)
      modifies this
      ensures Outcome(State(), next, entry) == Resumed(old(State()), r, reply, android)
    {
      entry := None;
      match r.stage {
        case Balances =>
          if reply.Snapshot? { next, entry := ReadBalances(r, reply.matches, reply.card); } else { next := Catch(r); }
        case Preparing =>
          if reply.Preview? { next, entry := ReadPreview(r, reply.matches); } else { next := Catch(r); }
        case Confirming =>
          if reply.Done? { next := Some(r.(stage := Refreshing)); } else { next := Catch(r); }
        case CancellingMismatch =>
          next := Catch(r);
        case Refreshing =>
          next := Some(r.(stage := Finishing));
        case Finishing =>
          Clear();
          next := Some(r.(stage := Reporting));
        case Recording =>
          Clear();
          if r.automatic { Release(); next := None; } else { next := Some(r.(stage := Reporting)); }
        case _ =>
          Release();
          next := None;
      }
    }
  }
}
