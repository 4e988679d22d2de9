/** What the replies put on screen: overview, sessions, ticket, the four parts, and warnings for those that failed. */
module RouterScreen {
  import opened Optional
  import opened RouterScope
  import opened RouterRuns

  // ---------- the parts of one update ----------

  predicate Foreign(parts: map<nat, Part>, name: string, k: nat) {
    k in parts && parts[k].account != "" && parts[k].account != name
  }

  // The first part from the k-th on that names another account, or 4.
  function FirstForeign(parts: map<nat, Part>, name: string, k: nat): (stop: nat)
    requires k <= 4
    ensures k <= stop <= 4 && (stop < 4 ==> Foreign(parts, name, stop))
    ensures forall j :: k <= j < stop ==> !Foreign(parts, name, j)
    decreases 4 - k
  {
    if k == 4 || Foreign(parts, name, k) then k else FirstForeign(parts, name, k + 1)
  }

  ghost predicate SamePart(before: Data, after: Data, k: nat) {
    (k in after.parts <==> k in before.parts) && (k in before.parts ==> after.parts[k] == before.parts[k])
  }

  // A part that is ready is on screen, one that failed is among the warnings, and unless it is ready the part shown
  // before stays.
  ghost predicate PartShown(parts: map<nat, Part>, before: Data, after: Data, k: nat) {
    && (k in parts && parts[k].state.Ready? ==> k in after.parts && after.parts[k] == parts[k])
    && (k in parts && parts[k].state.Broken? ==> k in after.warnings)
    && (!(k in parts && parts[k].state.Ready?) ==> SamePart(before, after, k))
  }

  // Warnings in order, each for a part below `stop` that failed.
  ghost predicate WarningsOf(warnings: seq<nat>, parts: map<nat, Part>, stop: nat) {
    && (forall i, j :: 0 <= i < j < |warnings| ==> warnings[i] < warnings[j])
    && (forall k :: k in warnings ==> k < stop && k in parts && parts[k].state.Broken?)
  }

  lemma TakenShows(parts: map<nat, Part>, d: Data, k: nat)
    requires k in parts && WarningsOf(d.warnings, parts, k)
    ensures var after := PartTaken(d, k, parts[k]);
            && after == d.(parts := after.parts, warnings := after.warnings)
            && PartShown(parts, d, after, k) && WarningsOf(after.warnings, parts, k + 1)
            && (forall j: nat :: j != k ==> SamePart(d, after, j))
            && (forall j :: j in d.warnings ==> j in after.warnings)
  {
    assert forall i :: 0 <= i < |d.warnings| ==> d.warnings[i] in d.warnings;
  }

  // What reading the parts from the k-th on leaves: those before the first foreign one are shown, the others not.
  ghost predicate PartsShown(parts: map<nat, Part>, name: string, before: Data, after: Data, k: nat)
    requires k <= 4
  {
    var stop := FirstForeign(parts, name, k);
    && after == before.(parts := after.parts, warnings := after.warnings)
    && (forall j :: k <= j < stop ==> PartShown(parts, before, after, j))
    && (forall j: nat :: j < k || j >= stop ==> SamePart(before, after, j))
    && WarningsOf(after.warnings, parts, stop)
    && (forall j :: j in before.warnings ==> j in after.warnings)
  }

  lemma PartsShownStep(parts: map<nat, Part>, name: string, d: Data, mid: Data, after: Data, k: nat)
    requires k < 4 && !Foreign(parts, name, k)
    requires PartsShown(parts, name, mid, after, k + 1)
    requires mid == d.(parts := mid.parts, warnings := mid.warnings)
    requires PartShown(parts, d, mid, k)
    requires forall j: nat :: j != k ==> SamePart(d, mid, j)
    requires forall j :: j in d.warnings ==> j in mid.warnings
    ensures PartsShown(parts, name, d, after, k)
  {
    var stop := FirstForeign(parts, name, k);
    assert stop == FirstForeign(parts, name, k + 1);
    assert SamePart(mid, after, k);
    forall j | k < j < stop ensures PartShown(parts, d, after, j) {
      assert SamePart(d, mid, j) && PartShown(parts, mid, after, j);
    }
    forall j: nat | j < k || j >= stop ensures SamePart(d, after, j) {
      assert SamePart(d, mid, j) && SamePart(mid, after, j);
    }
  }

  lemma {:induction false} PartsReadShows(parts: map<nat, Part>, name: string, d: Data, k: nat)
    requires k <= 4 && WarningsOf(d.warnings, parts, k)
    ensures var (after, ok) := PartsRead(parts, name, d, k);
            PartsShown(parts, name, d, after, k) && (ok <==> FirstForeign(parts, name, k) == 4)
    decreases 4 - k
  {
    if k < 4 && !Foreign(parts, name, k) {
      var mid := if k in parts then PartTaken(d, k, parts[k]) else d;
      if k in parts { TakenShows(parts, d, k); }
      PartsReadShows(parts, name, mid, k + 1);
      PartsShownStep(parts, name, d, mid, PartsRead(parts, name, mid, k + 1).0, k);
    }
  }

  // ---------- one reply ----------

  // The answer names one account throughout, the one expected if that is known.
  predicate NamesAccount(a: Answer, expected: string) {
    a.overview.Some? && a.overview.value.account == a.account != "" && (expected == "" || expected == a.account)
  }

  // An update of the billing centre that is new: overview, sessions and ticket are on screen, with every part before
  // the first foreign one; it is published exactly if there is none such and billing data are shown.
  lemma UpdateShows(r: Request, d: Data, s: Surroundings, a: Answer)
    requires NamesAccount(a, r.scope.expected) && r.stamp != Some(StampOf(a))
    ensures var (e, ok) := Update(r, d, s, a);
            && (ok <==> FirstForeign(a.parts, a.account, 0) == 4)
            && e.data.overview == a.overview && e.data.sessions == a.sessions && e.data.ticket == r.ticket
            && PartsShown(a.parts, a.account, Data(a.overview, a.sessions, d.parts, [], r.ticket), e.data, 0)
            && e.names == (if ok && s.shown then [a.account] else [])
            && e.request == r.(stamp := Some(StampOf(a)), scope := r.scope.(expected := a.account))
  {
    PartsReadShows(a.parts, a.account, Opened(d.(warnings := []), a.overview.value, a.sessions, r.ticket), 0);
  }

  // Any other update leaves the screen as it is; it is refused exactly if its overview names an account that is not
  // the answer's or not the one expected.
  lemma OtherUpdateShowsNothing(r: Request, d: Data, s: Surroundings, a: Answer)
    requires !(NamesAccount(a, r.scope.expected) && r.stamp != Some(StampOf(a)))
    ensures var (e, ok) := Update(r, d, s, a);
            && e == Effect(r, d, [])
            && (!ok <==> a.overview.Some? && a.overview.value.account != "" && !NamesAccount(a, r.scope.expected))
  {}

  predicate Expected(r: Request, a: Answer) {
    a.account == "" || r.scope.expected == "" || a.account == r.scope.expected
  }

  // A reply to the billing centre's query puts its update on screen and nothing else; the query goes on exactly if
  // the update was not refused and the answer is still loading or asks for one of the first six captchas.
  lemma CenterReply(r: Request, d: Data, s: Surroundings, a: Answer)
    requires r.stage.CenterPoll? && Expected(r, a)
    ensures var (u, ok) := Update(r, d, s, a);
            var e := DeliverStep(r, d, s, Answered(a));
            && e.data == u.data && e.names == u.names
            && e.request.stamp == u.request.stamp && e.request.scope == u.request.scope
            && (e.request.stage == r.stage || e.request.stage.Over?)
            && (e.request.stage == r.stage <==> ok && (a.state.Loading? || (a.state.Captcha? && r.captchas < 6)))
            && (e.request.stage == r.stage ==> e.request.pause == if a.state.Loading? then Sleeping else Dialog)
            && (e.request.stage == r.stage ==> e.request.captchas == r.captchas + if a.state.Loading? then 0 else 1)
  {}

  // A reply that names another account than the one expected puts nothing on screen; where a part was asked for it
  // counts as failed, and otherwise the refresh ends.
  lemma UnexpectedReply(r: Request, d: Data, s: Surroundings, a: Answer)
    requires (r.stage.CenterPoll? || r.stage.Poll? || r.stage.PartPoll?) && !Expected(r, a)
    ensures var e := DeliverStep(r, d, s, Answered(a));
            && e.data == (if r.stage.PartPoll? then d.(warnings := d.warnings + [r.stage.k]) else d)
            && (!r.stage.PartPoll? ==> e.request.stage.Over? && e.names == [])
  {}

  // The overview asked for without the billing centre.
  lemma OverviewShows(r: Request, d: Data, s: Surroundings, a: Answer)
    requires r.stage.Poll? && Expected(r, a) && a.state.Success? && a.account != ""
    ensures var e := DeliverStep(r, d, s, Answered(a));
            && e.data == Data(Some(Overview(a.account, a.body)), a.sessions, d.parts, d.warnings, r.ticket)
            && e.request == r.(stage := PartStart(0), scope := r.scope.(expected := a.account))
            && e.names == if s.shown then [a.account] else []
  {}

  // A part that was asked for: it is on screen if it is ready, and warned of if it failed; the next one is asked for,
  // and after the last the refresh is over and published once more.
  lemma PartShows(r: Request, d: Data, s: Surroundings, reply: Reply)
    requires r.stage.PartPoll?
    ensures var e, k := DeliverStep(r, d, s, reply), r.stage.k;
            var ready := reply.Answered? && reply.answer.state.Success? && Expected(r, reply.answer)
                         && reply.answer.account != "";
            var waits := reply.Answered? && Expected(r, reply.answer)
                         && (reply.answer.state.Loading? || (reply.answer.state.Captcha? && r.captchas < 6));
            && (waits ==> e.data == d && e.names == [] && e.request.stage == r.stage)
            && (ready ==> e.data == d.(parts := d.parts[k := Part(reply.answer.account, Ready, reply.answer.body)]))
            && (!ready && !waits ==> e.data == d.(warnings := d.warnings + [k]))
            && (!waits ==> e.request.stage == (if k < 3 then PartStart(k + 1) else Over))
            && (!waits && k < 3 ==> e.request.pause.Polled?)
            && (!waits ==> |e.names| == if !s.shown then 0 else if k < 3 then 1 else 2)
  {}

  // A query that has no ticket yet waits for one, and with it starts polling with no captcha shown so far; without
  // one it fails like a query that was rejected. Either way nothing is put on screen but the warning of a part.
  lemma TicketStarts(r: Request, d: Data, s: Surroundings, a: Answer)
    requires r.stage.CenterStart? || r.stage.Start? || r.stage.PartStart?
    ensures var e := DeliverStep(r, d, s, Answered(a));
            && (a.ticket == "" ==> e == DeliverStep(r, d, s, Rejected))
            && (a.ticket != "" ==>
                  && e.data == d && e.names == []
                  && e.request.pause.Polled? && e.request.captchas == 0 && e.request.scope == r.scope
                  && (r.stage.CenterStart? ==> e.request.stage == CenterPoll && e.request.ticket == a.ticket)
                  && (r.stage.Start? ==> e.request.stage == Poll && e.request.ticket == a.ticket)
                  && (r.stage.PartStart? ==> e.request.stage == PartPoll(r.stage.k) && e.request.ticket == r.ticket))
  {}

  // A captcha is shown for the first six times a query asks for one, and counted; the seventh time the query fails.
  lemma CaptchaShown(r: Request, d: Data, s: Surroundings, a: Answer)
    requires r.stage.Poll? || r.stage.PartPoll?
    requires Expected(r, a) && a.state.Captcha?
    ensures var e := DeliverStep(r, d, s, Answered(a));
            if r.captchas < 6 then e == Effect(r.(pause := Dialog, captchas := r.captchas + 1), d, [])
            else e == DeliverStep(r, d, s, Rejected)
  {}

  // After a dialog its answer is sent, and after that or a pause the query polls again; one cancelled, refused or out
  // of time fails like a query that was rejected.
  lemma ResumptionIs(r: Request, d: Data, s: Surroundings, ok: bool)
    requires !r.stage.Over? && !r.pause.Polled?
    ensures var e := ResumeStep(r, d, s, ok);
            if ok then e == Effect(r.(pause := if r.pause.Dialog? then Answering else Polled), d, [])
            else e == DeliverStep(r, d, s, Rejected)
  {}

  // A rejected query: a missing cache is ignored, a part leaves a warning and is published as settled, and anything
  // else ends the refresh as it is.
  lemma RejectionIs(r: Request, d: Data, s: Surroundings)
    requires !r.stage.Over?
    ensures var e := DeliverStep(r, d, s, Rejected);
            && (r.stage.Cached? ==> e == Effect(r.(stage := Start), d, []))
            && (r.stage.PartStart? || r.stage.PartPoll? ==>
                  && e.data == d.(warnings := d.warnings + [r.stage.k])
                  && e.request.stage == (if r.stage.k < 3 then PartStart(r.stage.k + 1) else Over)
                  && |e.names| == if !s.shown then 0 else if r.stage.k < 3 then 1 else 2)
            && (r.stage.CenterStart? || r.stage.CenterPoll? || r.stage.Start? || r.stage.Poll? ==>
                  e == Effect(r.(stage := Over), d, []))
  {}

  // A cached overview that may be shown: it is ready, and of the account expected, or of the uplink's where none is.
  function Usable(r: Request, s: Surroundings): Part -> bool {
    var wanted := if r.scope.expected != "" then r.scope.expected else s.uplinkAccount;
    (p: Part) => p.account == wanted && p.state.Ready?
  }

  // The first such overview is shown; whatever the cache answers, the query itself follows.
  lemma CachedShows(r: Request, d: Data, s: Surroundings, a: Answer, j: nat)
    requires r.stage.Cached? && IsFirst(a.items, Usable(r, s), j)
    ensures var e := DeliverStep(r, d, s, Answered(a));
            && e.request == r.(stage := Start)
            && e.data == d.(overview := Some(Overview(a.items[j].account, a.items[j].body)))
            && (e.names != [] <==> s.shown)
  {
    FirstIs(a.items, Usable(r, s), j);
  }

  lemma NothingCached(r: Request, d: Data, s: Surroundings, reply: Reply)
    requires r.stage.Cached?
    requires reply.Answered? ==> forall p :: p in reply.answer.items ==> !Usable(r, s)(p)
    ensures DeliverStep(r, d, s, reply) == Effect(r.(stage := Start), d, [])
  {}

  // ---------- every run ----------

  // What is on screen is at least what the last new update of the request said, its parts up to the first foreign one.
  predicate StampShown(d: Data, r: Request) {
    r.stamp.Some? ==>
      && (r.stage.CenterPoll? || r.stage.Over?)
      && d.overview == r.stamp.value.overview && d.sessions == r.stamp.value.sessions && d.ticket == r.ticket
      && forall k :: 0 <= k < FirstForeign(r.stamp.value.parts, r.scope.expected, 0) ==>
           PartOnScreen(r.stamp.value.parts, d, k)
  }

  predicate PartOnScreen(parts: map<nat, Part>, d: Data, k: nat) {
    && (k in parts && parts[k].state.Ready? ==> k in d.parts && d.parts[k] == parts[k])
    && (k in parts && parts[k].state.Broken? ==> k in d.warnings)
  }

  // Every part asked for so far is on screen or warned of.
  predicate PartsSoFar(d: Data, count: nat) {
    forall k :: 0 <= k < count ==> k in d.parts || k in d.warnings
  }

  predicate Filled(d: Data, r: Request) {
    && StampShown(d, r)
    && (r.stage.PartStart? || r.stage.PartPoll? ==> r.stage.k < 4 && PartsSoFar(d, r.stage.k))
    && (r.stage.CenterStart? || r.stage.CenterPoll? ==> r.path.FromCenter?)
  }

  // A refresh part by part that ends with an overview has all four parts on screen or warned of.
  predicate Ended(d: Data, r: Request) {
    r.stage.Over? && !r.path.FromCenter? && d.ticket != "" ==> PartsSoFar(d, 4)
  }

  predicate Fills(r: Request, e: Effect) {
    Filled(e.data, e.request) && Ended(e.data, e.request)
  }

  lemma SettledFills(r: Request, d: Data, s: Surroundings, k: nat)
    requires Filled(d, r) && (r.stage.PartStart? || r.stage.PartPoll?) && k == r.stage.k && PartsSoFar(d, k + 1)
    ensures Fills(r, PartSettled(r, d, s, k))
  {}

  lemma FailureFills(r: Request, d: Data, s: Surroundings)
    requires Filled(d, r) && DataOf(d, r) && RequestOk(r) && !r.stage.Over?
    ensures Fills(r, FailedStep(r, d, s))
  {
    if r.stage.PartStart? || r.stage.PartPoll? {
      var k := r.stage.k;
      var warned := d.(warnings := d.warnings + [k]);
      assert warned.warnings[|d.warnings|] == k;
      assert forall j :: j in d.warnings ==> j in warned.warnings;
      SettledFills(r, warned, s, k);
    }
  }

  lemma OnScreen(parts: map<nat, Part>, name: string, before: Data, after: Data)
    requires PartsShown(parts, name, before, after, 0)
    ensures forall k :: 0 <= k < FirstForeign(parts, name, 0) ==> PartOnScreen(parts, after, k)
  {
    forall k | 0 <= k < FirstForeign(parts, name, 0) ensures PartOnScreen(parts, after, k) {
      assert PartShown(parts, before, after, k);
    }
  }

  lemma NewStampShown(d: Data, r: Request, a: Answer, before: Data)
    requires r.stage.CenterPoll? && r.stamp == Some(StampOf(a)) && r.scope.expected == a.account
    requires d.overview == a.overview && d.sessions == a.sessions && d.ticket == r.ticket
    requires PartsShown(a.parts, a.account, before, d, 0)
    ensures StampShown(d, r)
  {
    OnScreen(a.parts, a.account, before, d);
  }

  lemma NewUpdateFills(r: Request, d: Data, s: Surroundings, a: Answer)
    requires r.stage.CenterPoll? && NamesAccount(a, r.scope.expected) && r.stamp != Some(StampOf(a))
    ensures StampShown(Update(r, d, s, a).0.data, Update(r, d, s, a).0.request)
    ensures Update(r, d, s, a).0.request.stage == r.stage && Update(r, d, s, a).0.request.path == r.path
  {
    UpdateShows(r, d, s, a);
    var u := Update(r, d, s, a).0;
    NewStampShown(u.data, u.request, a, Data(a.overview, a.sessions, d.parts, [], r.ticket));
  }

  lemma UpdateFills(r: Request, d: Data, s: Surroundings, a: Answer)
    requires Filled(d, r) && r.stage.CenterPoll?
    ensures var u := Update(r, d, s, a).0;
            Filled(u.data, u.request) && u.request.stage == r.stage && u.request.path == r.path
  {
    if NamesAccount(a, r.scope.expected) && r.stamp != Some(StampOf(a)) {
      NewUpdateFills(r, d, s, a);
    } else {
      OtherUpdateShowsNothing(r, d, s, a);
    }
  }

  lemma CenterFills(r: Request, d: Data, s: Surroundings, a: Answer)
    requires Filled(d, r) && r.stage.CenterPoll?
    ensures Fills(r, DeliverStep(r, d, s, Answered(a)))
  {
    if Expected(r, a) {
      UpdateFills(r, d, s, a);
      CenterReply(r, d, s, a);
      StampKept(Update(r, d, s, a).0, DeliverStep(r, d, s, Answered(a)));
    }
  }

  lemma StampKept(u: Effect, e: Effect)
    requires Filled(u.data, u.request) && u.request.stage.CenterPoll? && u.request.path == e.request.path
    requires e.data == u.data && e.request.stamp == u.request.stamp && e.request.scope == u.request.scope
    requires e.request.ticket == u.request.ticket
    requires e.request.stage.CenterPoll? || e.request.stage.Over?
    ensures Fills(u.request, e)
  {}

  lemma ReadyFills(r: Request, d: Data, s: Surroundings, part: Part)
    requires Filled(d, r) && r.stage.PartPoll?
    ensures Fills(r, PartSettled(r, d.(parts := d.parts[r.stage.k := part]), s, r.stage.k))
  {
    SettledFills(r, d.(parts := d.parts[r.stage.k := part]), s, r.stage.k);
  }

  lemma PolledFills(r: Request, d: Data, s: Surroundings, a: Answer)
    requires Filled(d, r) && DataOf(d, r) && RequestOk(r) && r.stage.PartPoll?
    ensures Fills(r, PollSettled(r, d, s, a))
  {
    FailureFills(r, d, s);
    ReadyFills(r, d, s, Part(a.account, Ready, a.body));
  }

  lemma PartFills(r: Request, d: Data, s: Surroundings, a: Answer)
    requires Filled(d, r) && DataOf(d, r) && RequestOk(r) && r.stage.PartPoll?
    ensures Fills(r, PollStep(r, d, s, a))
  {
    FailureFills(r, d, s);
    PolledFills(r, d, s, a);
    assert CenterUpdate(r, d, s, a) == (Effect(r, d, []), true);
  }

  lemma DeliverFills(r: Request, d: Data, s: Surroundings, reply: Reply)
    requires Filled(d, r) && DataOf(d, r) && RequestOk(r) && !r.stage.Over?
    ensures Fills(r, DeliverStep(r, d, s, reply))
  {
    FailureFills(r, d, s);
    if r.stage.PartPoll? && reply.Answered? {
      PartFills(r, d, s, reply.answer);
    } else if r.stage.CenterPoll? && reply.Answered? {
      CenterFills(r, d, s, reply.answer);
    }
  }

  lemma ResumeFills(r: Request, d: Data, s: Surroundings, ok: bool)
    requires Filled(d, r) && DataOf(d, r) && RequestOk(r) && !r.stage.Over?
    ensures Fills(r, ResumeStep(r, d, s, ok))
  {
    FailureFills(r, d, s);
  }

  predicate LastFilled(c: Center) {
    CurrentLast(c) ==> Filled(c.data, c.requests[|c.requests| - 1])
  }

  lemma AppliedFills(c: Center, i: nat, e: Effect)
    requires i == |c.requests| - 1 && Fills(c.requests[i], e)
    ensures LastFilled(Applied(c, i, e))
  {}

  lemma RefreshedFills(c: Center)
    requires Inv(c) && LastFilled(c)
    ensures LastFilled(Refreshed(c))
  {}

  lemma StepFills(c: Center, e: Event)
    requires Inv(c) && LastFilled(c) && Enabled(c, e)
    ensures LastFilled(Next(c, e))
  {
    match e {
      case Select(value) => SelectedFills(c, value);
      case Refresh => RefreshedFills(c);
      case Deliver(i, reply) =>
        var r := c.requests[i];
        if Holds(c, r.scope) {
          LiveScreen(c, i);
          DeliverFills(r, c.data, Around(c, r.scope), reply);
          AppliedFills(c, i, DeliverStep(r, c.data, Around(c, r.scope), reply));
        }
      case Resume(i, ok) =>
        var r := c.requests[i];
        if Holds(c, r.scope) {
          LiveScreen(c, i);
          ResumeFills(r, c.data, Around(c, r.scope), ok);
          AppliedFills(c, i, ResumeStep(r, c.data, Around(c, r.scope), ok));
        }
      case _ =>
    }
  }

  lemma SelectedFills(c: Center, value: string)
    requires Inv(c)
    ensures LastFilled(Selected(c, value)) || Selected(c, value) == c
  {
    if value in Choices(c.snapshot) {
      InvalidatedKeeps(c);
      var chosen := Invalidated(c).(account := value, uplink := UplinkFor(c.snapshot, value));
      Elsewhere(Invalidated(c), value, UplinkFor(c.snapshot, value), c.snapshot, c.shown);
      RefreshedFills(chosen);
    }
  }

  lemma {:induction false} RunsFill(c: Center, run: seq<Event>)
    requires Fresh(c) && Possible(c, run)
    ensures Inv(After(c, run)) && LastFilled(After(c, run))
    decreases |run|
  {
    RunsKeep(c, run);
    if run != [] {
      RunsFill(c, run[..|run| - 1]);
      StepFills(After(c, run[..|run| - 1]), run[|run| - 1]);
    }
  }

  // The screen shows this update of the request, and of its parts the k-th: as it is if ready, as a warning if failed.
  predicate Shows(d: Data, r: Request, update: Stamp, k: nat) {
    && d.overview == update.overview && d.sessions == update.sessions && d.ticket == r.ticket
    && (k in update.parts && k < FirstForeign(update.parts, r.scope.expected, 0) ==>
          && (update.parts[k].state.Ready? ==> k in d.parts && d.parts[k] == update.parts[k])
          && (update.parts[k].state.Broken? ==> k in d.warnings))
  }

  lemma StampShows(d: Data, r: Request, k: nat)
    requires Filled(d, r) && r.stamp.Some?
    ensures Shows(d, r, r.stamp.value, k)
  {
    if k < FirstForeign(r.stamp.value.parts, r.scope.expected, 0) {
      assert PartOnScreen(r.stamp.value.parts, d, k);
    }
  }

  lemma CurrentShows(c: Center, k: nat)
    requires LastFilled(c) && CurrentLast(c)
    ensures var r := c.requests[|c.requests| - 1]; r.stamp.Some? ==> Shows(c.data, r, r.stamp.value, k)
  {
    var r := c.requests[|c.requests| - 1];
    if r.stamp.Some? { StampShows(c.data, r, k); }
  }

  lemma RunsFillLast(c: Center, run: seq<Event>)
    requires Fresh(c) && Possible(c, run)
    ensures LastFilled(After(c, run))
  {
    RunsFill(c, run);
  }

  // In every run the screen shows what the last new update of the current refresh said: overview, sessions, and each
  // part that is ready, up to the first that names another account.
  lemma LastUpdateIsShown(c: Center, run: seq<Event>, k: nat)
    requires Fresh(c) && Possible(c, run) && CurrentLast(After(c, run))
    ensures var a := After(c, run);
            var r := a.requests[|a.requests| - 1];
            r.stamp.Some? ==> Shows(a.data, r, r.stamp.value, k)
  {
    RunsFillLast(c, run);
    CurrentShows(After(c, run), k);
  }

  // In every run a reply with a new update whose scope still holds becomes that last update, and is published if it
  // names no foreign part and billing data are shown.
  lemma NewUpdateArrives(c: Center, run: seq<Event>, i: nat, a: Answer)
    requires Fresh(c) && Possible(c, run)
    requires var now := After(c, run);
             && Enabled(now, Deliver(i, Answered(a))) && Holds(now, now.requests[i].scope)
             && now.requests[i].stage.CenterPoll? && NamesAccount(a, now.requests[i].scope.expected)
             && now.requests[i].stamp != Some(StampOf(a))
    ensures var now := After(c, run);
            var next := Next(now, Deliver(i, Answered(a)));
            && CurrentLast(next) && i == |next.requests| - 1
            && next.requests[i].stamp == Some(StampOf(a)) && next.requests[i].scope.expected == a.account
            && next.log == now.log + if FirstForeign(a.parts, a.account, 0) == 4 && now.shown
                                     then [Published(i, now.generation, a.account)] else []
  {
    RunsFill(c, run);
    var now := After(c, run);
    var r := now.requests[i];
    LiveScreen(now, i);
    UpdateShows(r, now.data, Around(now, r.scope), a);
    CenterReply(r, now.data, Around(now, r.scope), a);
  }

  // A step that ends a refresh part by part which has got its overview, under a scope that holds.
  predicate EndsRefresh(c: Center, e: Event) {
    && (e.Deliver? || e.Resume?) && Enabled(c, e) && Holds(c, c.requests[e.i].scope)
    && EndedByParts(Next(c, e), e.i)
  }

  predicate EndedByParts(c: Center, i: nat) {
    i < |c.requests| && c.requests[i].stage.Over? && !c.requests[i].path.FromCenter? && c.data.ticket != ""
  }

  lemma AppliedEnds(c: Center, i: nat, e: Effect)
    requires i < |c.requests| && Ended(e.data, e.request)
    ensures EndedByParts(Applied(c, i, e), i) ==> PartsSoFar(Applied(c, i, e).data, 4)
  {}

  lemma DeliveryEnds(c: Center, i: nat, reply: Reply)
    requires Inv(c) && LastFilled(c) && Live(c, i) && Holds(c, c.requests[i].scope)
    ensures EndedByParts(Delivered(c, i, reply), i) ==> PartsSoFar(Delivered(c, i, reply).data, 4)
  {
    var r := c.requests[i];
    LiveScreen(c, i);
    DeliverFills(r, c.data, Around(c, r.scope), reply);
    AppliedEnds(c, i, DeliverStep(r, c.data, Around(c, r.scope), reply));
  }

  lemma ResumptionEnds(c: Center, i: nat, ok: bool)
    requires Inv(c) && LastFilled(c) && Live(c, i) && Holds(c, c.requests[i].scope)
    ensures EndedByParts(Resumed(c, i, ok), i) ==> PartsSoFar(Resumed(c, i, ok).data, 4)
  {
    var r := c.requests[i];
    LiveScreen(c, i);
    ResumeFills(r, c.data, Around(c, r.scope), ok);
    AppliedEnds(c, i, ResumeStep(r, c.data, Around(c, r.scope), ok));
  }

  // In every run such a refresh ends with each of the four parts on screen or warned of.
  lemma RefreshEndsComplete(c: Center, run: seq<Event>, e: Event)
    requires Fresh(c) && Possible(c, run) && EndsRefresh(After(c, run), e)
    ensures var d := Next(After(c, run), e).data; forall k :: 0 <= k < 4 ==> k in d.parts || k in d.warnings
  {
    RunsFill(c, run);
    if e.Deliver? { DeliveryEnds(After(c, run), e.i, e.reply); } else { ResumptionEnds(After(c, run), e.i, e.ok); }
  }
}
