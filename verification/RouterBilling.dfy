/** The billing centre as an object whose methods update its fields, proved against the functions of RouterScope. */
module RouterBilling {
  import opened Optional
  import opened RouterScope

  // The part of an effect that is not the request itself.
  ghost function Written(c: Center, i: nat, e: Effect): Center {
    c.(data := e.data, log := c.log + Entries(i, c.generation, e.names))
  }

  class RouterBillingCenter {
    var generation: nat
    var account: string
    var uplink: string
    var snapshot: Option<Snapshot>
    var shown: bool
    var data: Data
    var refreshRequest: Option<nat>
    var requests: seq<Request>
    ghost var log: seq<Published>

    ghost function State(): Center
      reads this
    {
      Center(generation, account, uplink, snapshot, shown, data, refreshRequest, requests, log)
    }

    predicate AssertScope(scope: Scope)
      reads this
      ensures AssertScope(scope) <==> Holds(State(), scope)
    {
      && scope.generation == generation
      && snapshot.Some? && snapshot.value.router == scope.router && account == scope.account
    }

    function Surrounding(scope: Scope): (s: Surroundings)
      reads this
      ensures s == Around(State(), scope)
    {
      Surroundings(shown, UserOf(snapshot, account), AccountOfUplink(snapshot, scope.uplink))
    }

    constructor (snapshot: Option<Snapshot>, shown: bool)
      ensures State() == Center(0, "", "", snapshot, shown, EMPTY, None, [], [])
    {
      this.snapshot, this.shown := snapshot, shown;
      generation, account, uplink, data, refreshRequest := 0, "", "", EMPTY, None;
      requests, log := [], [];
    }

    method EnsureAccount()
      modifies this
      ensures State() == Repicked(old(State()))
    {
      if account in Choices(snapshot) { return; }
      var configured := if snapshot.None? then None else Configured(snapshot.value);
      account :=
        if configured.Some? && configured.value.id in Choices(snapshot) then configured.value.id else "current";
    }

    method CaptureScope() returns (ok: bool)
      modifies this
      ensures State() == Captured(old(State()))
      ensures ok <==> snapshot.Some? && uplink != ""
    {
      EnsureAccount();
      uplink := UplinkFor(snapshot, account);
      ok := snapshot.Some? && uplink != "";
    }

    method Invalidate()
      modifies this
      ensures State() == Next(old(State()), Event.Invalidate)
    {
      generation, refreshRequest, data := generation + 1, None, EMPTY;
    }

    method Refresh()
      modifies this
      ensures State() == Next(old(State()), Event.Refresh)
    {
      if refreshRequest.Some? { return; }
      var ok := CaptureScope();
      if !ok { return; }
      data := EMPTY;
      var request := RequestFor(snapshot.value, generation, account, uplink);
      refreshRequest, requests := Some(|requests|), requests + [request];
    }

    method SelectAccount(value: string)
      modifies this
      ensures State() == Next(old(State()), Select(value))
    {
      if value !in Choices(snapshot) { return; }
      Invalidate();
      account, uplink := value, UplinkFor(snapshot, value);
      data := EMPTY;
      Refresh();
    }

    method Publish(i: nat, s: Surroundings)
      modifies this`log
      ensures log == old(log) + Entries(i, generation, Names(data, s))
    {
      if s.shown { log := log + [Published(i, generation, Name(data, s.user))]; }
    }

    method SettlePart(i: nat, r: Request, s: Surroundings, k: nat) returns (next: Request)
      modifies this
      ensures var e := PartSettled(r, old(data), s, k); State() == Written(old(State()), i, e) && next == e.request
    {
      Publish(i, s);
      if k < 3 { next := r.(stage := PartStart(k + 1), pause := Polled); return; }
      Publish(i, s);
      next := r.(stage := Over);
    }

    method Fail(i: nat, r: Request, s: Surroundings) returns (next: Request)
      modifies this
      ensures var e := FailedStep(r, old(data), s); State() == Written(old(State()), i, e) && next == e.request
    {
      if r.stage.PartStart? || r.stage.PartPoll? {
        data := data.(warnings := data.warnings + [r.stage.k]);
        next := SettlePart(i, r, s, r.stage.k);
      } else {
        next := r.(stage := if r.stage.Cached? then Start else Over);
      }
    }

    method ReadCache(i: nat, r: Request, s: Surroundings, items: seq<Part>) returns (next: Request)
      modifies this
      ensures var e := CachedStep(r, old(data), s, items); State() == Written(old(State()), i, e) && next == e.request
    {
      var expected := if r.scope.expected != "" then r.scope.expected else s.uplinkAccount;
      var item := First(items, (p: Part) => p.account == expected && p.state.Ready?);
      if item.Some? {
        data := data.(overview := Some(Overview(item.value.account, item.value.body)));
        Publish(i, s);
      }
      next := r.(stage := Start);
    }

    // The four parts of an answer, in order, until one names another account.
    method ReadParts(parts: map<nat, Part>, expected: string) returns (ok: bool)
      modifies this`data
      ensures (data, ok) == PartsRead(parts, expected, old(data), 0)
    {
      var k := 0;
      while k < 4
        invariant k <= 4
        invariant PartsRead(parts, expected, data, k) == PartsRead(parts, expected, old(data), 0)
      {
        if k in parts {
          if parts[k].account != "" && parts[k].account != expected { return false; }
          data := PartTaken(data, k, parts[k]);
        }
        k := k + 1;
      }
      ok := true;
    }

    method TakeUpdate(i: nat, r: Request, s: Surroundings, a: Answer) returns (next: Request, ok: bool)
      modifies this
      ensures var (e, good) := Update(r, old(data), s, a);
              State() == Written(old(State()), i, e) && next == e.request && ok == good
    {
      next, ok := r, true;
      if a.overview.None? || a.overview.value.account == "" { return; }
      var name := a.overview.value.account;
      if (r.scope.expected != "" && name != r.scope.expected) || name != a.account { ok := false; return; }
      if r.stamp == Some(StampOf(a)) { return; }
      next := r.(stamp := Some(StampOf(a)), scope := r.scope.(expected := name));
      data := Data(a.overview, a.sessions, data.parts, [], r.ticket);
      ok := ReadParts(a.parts, name);
      if ok { Publish(i, s); }
    }

    method Complete(i: nat, r: Request, s: Surroundings, a: Answer) returns (next: Request)
      modifies this
      ensures var e := Completed(r, old(data), s, a); State() == Written(old(State()), i, e) && next == e.request
    {
      match r.stage {
        case Poll =>
          data := Opened(data, Overview(a.account, a.body), a.sessions, r.ticket);
          next := r.(stage := PartStart(0), scope := r.scope.(expected := a.account));
          Publish(i, s);
        case PartPoll(k) =>
          data := data.(parts := data.parts[k := Part(a.account, Ready, a.body)]);
          next := SettlePart(i, r, s, k);
        case _ =>
          next := r.(stage := Over);
      }
    }

    method SettlePoll(i: nat, r: Request, s: Surroundings, a: Answer) returns (next: Request)
      modifies this
      ensures var e := PollSettled(r, old(data), s, a); State() == Written(old(State()), i, e) && next == e.request
    {
      if a.state.Loading? { next := r.(pause := Sleeping); }
      else if a.state.Captcha? && r.captchas < 6 { next := r.(pause := Dialog, captchas := r.captchas + 1); }
      else if a.state.Success? && a.account != "" { next := Complete(i, r, s, a); }
      else { next := Fail(i, r, s); }
    }

    method ReadPolled(i: nat, r: Request, s: Surroundings, a: Answer) returns (next: Request)
      modifies this
      ensures var e := PolledStep(r, old(data), s, a); State() == Written(old(State()), i, e) && next == e.request
    {
      var ok := true;
      next := r;
      if r.stage.CenterPoll? { next, ok := TakeUpdate(i, r, s, a); }
      if ok { next := SettlePoll(i, next, s, a); } else { next := Fail(i, next, s); }
    }

    method ReadPoll(i: nat, r: Request, s: Surroundings, a: Answer) returns (next: Request)
      modifies this
      ensures var e := PollStep(r, old(data), s, a); State() == Written(old(State()), i, e) && next == e.request
    {
      if a.account != "" && r.scope.expected != "" && a.account != r.scope.expected {
        next := Fail(i, r, s);
      } else {
        next := ReadPolled(i, r, s, a);
      }
    }

    method ReadReply(i: nat, r: Request, s: Surroundings, reply: Reply) returns (next: Request)
      modifies this
      ensures var e := DeliverStep(r, old(data), s, reply); State() == Written(old(State()), i, e) && next == e.request
    {
      if reply.Rejected? { next := Fail(i, r, s); return; }
      match r.stage {
        case Cached => next := ReadCache(i, r, s, reply.answer.items);
        case CenterPoll => next := ReadPoll(i, r, s, reply.answer);
        case Poll => next := ReadPoll(i, r, s, reply.answer);
        case PartPoll(_) => next := ReadPoll(i, r, s, reply.answer);
        case _ =>
          if reply.answer.ticket == "" { next := Fail(i, r, s); } else { next := Ticketed(r, reply.answer.ticket); }
      }
    }

    // The request goes on as `next`; if that is its end, a refresh of the current generation stops being shared.
    method Settle(i: nat, next: Request)
      requires i < |requests|
      modifies this`requests, this`refreshRequest
      ensures State() == Applied(old(State()), i, Effect(next, data, []))
    {
      requests := requests[i := next];
      if next.stage.Over? && next.scope.generation == generation { refreshRequest := None; }
    }

    method Deliver(i: nat, reply: Reply)
      requires Enabled(State(), Event.Deliver(i, reply))
      modifies this
      ensures State() == Next(old(State()), Event.Deliver(i, reply))
    {
      var r := requests[i];
      if !AssertScope(r.scope) { Settle(i, r.(stage := Over)); return; }
      var next := ReadReply(i, r, Surrounding(r.scope), reply);
      Settle(i, next);
    }

    method Resume(i: nat, ok: bool)
      requires Enabled(State(), Event.Resume(i, ok))
      modifies this
      ensures State() == Next(old(State()), Event.Resume(i, ok))
    {
      var r := requests[i];
      if !AssertScope(r.scope) { Settle(i, r.(stage := Over)); return; }
      var next;
      if ok { next := r.(pause := if r.pause.Dialog? then Answering else Polled); }
      else { next := Fail(i, r, Surrounding(r.scope)); }
      Settle(i, next);
    }
  }
}
