/** What the scopes guarantee over every interleaving of refreshes, replies, invalidations and changes of router. */
module RouterRuns {
  import opened Optional
  import opened RouterScope

  // Every publication of this request names one account, the one it expects. Only a cached overview shown while the
  // account is unknown can break that.
  predicate Named(r: Request) {
    r.path.FromCache? ==> r.user != ""
  }

  predicate RequestOk(r: Request) {
    && (r.user != "" ==> r.scope.expected == r.user)
    && (r.stage.Cached? ==> r.path.FromCache?)
    && (r.stage.CenterPoll? || r.stage.Poll? ==> r.ticket != "")
    && (r.stage.PartStart? || r.stage.PartPoll? ==> r.ticket != "" && r.scope.expected != "")
  }

  predicate PartsName(parts: map<nat, Part>, account: string) {
    forall k :: k in parts && parts[k].account != "" ==> parts[k].account == account
  }

  // The data on screen come from this one request: the ticket is its own, and with the ticket on screen the overview
  // and every part name the account it expects.
  predicate DataOf(d: Data, r: Request) {
    && PartsName(d.parts, r.scope.expected)
    && (d.ticket == "" ==> d.parts == map[])
    && (d.ticket != "" ==> d.ticket == r.ticket && d.overview.Some?)
    && (d.ticket != "" ==> d.overview.value.account == r.scope.expected != "")
    && (r.stage.PartStart? || r.stage.PartPoll? ==> d.ticket != "")
    && (r.stage.CenterStart? || r.stage.Cached? || r.stage.Start? || r.stage.Poll? ==> d.ticket == "")
    && (d.overview.Some? && r.user != "" ==> d.overview.value.account == r.user)
  }

  // The requests a step may turn r into.
  predicate Continues(r: Request, next: Request) {
    && next.scope == r.scope.(expected := next.scope.expected)
    && next.user == r.user && next.path == r.path
    && (r.scope.expected != "" ==> next.scope.expected == r.scope.expected)
  }

  predicate AllNamed(names: seq<string>, account: string) {
    forall k :: 0 <= k < |names| ==> names[k] == account
  }

  predicate EffectOk(r: Request, e: Effect) {
    && Continues(r, e.request) && RequestOk(e.request) && DataOf(e.data, e.request)
    && (Named(r) && e.names != [] ==> e.request.scope.expected != "")
    && (Named(r) ==> AllNamed(e.names, e.request.scope.expected))
  }

  lemma SettledOk(r: Request, d: Data, s: Surroundings, k: nat)
    requires RequestOk(r) && DataOf(d, r) && (r.stage.PartPoll? || r.stage.PartStart?)
    ensures EffectOk(r, PartSettled(r, d, s, k))
  {}

  lemma FailureOk(r: Request, d: Data, s: Surroundings)
    requires RequestOk(r) && DataOf(d, r)
    ensures EffectOk(r, FailedStep(r, d, s))
  {
    match r.stage {
      case PartStart(k) => SettledOk(r, d.(warnings := d.warnings + [k]), s, k);
      case PartPoll(k) => SettledOk(r, d.(warnings := d.warnings + [k]), s, k);
      case _ =>
    }
  }

  lemma CachedOk(r: Request, d: Data, s: Surroundings, items: seq<Part>)
    requires RequestOk(r) && DataOf(d, r) && r.stage.Cached?
    ensures EffectOk(r, CachedStep(r, d, s, items))
  {}

  lemma {:induction false} PartsReadKeeps(parts: map<nat, Part>, expected: string, d: Data, k: nat)
    requires k <= 4
    requires PartsName(d.parts, expected)
    ensures var read := PartsRead(parts, expected, d, k).0;
            && read.overview == d.overview && read.ticket == d.ticket && read.sessions == d.sessions
            && PartsName(read.parts, expected)
    decreases 4 - k
  {
    if k < 4 {
      if k !in parts { PartsReadKeeps(parts, expected, d, k + 1); }
      else if parts[k].account == "" || parts[k].account == expected {
        PartsReadKeeps(parts, expected, PartTaken(d, k, parts[k]), k + 1);
      }
    }
  }

  lemma TakenOk(r: Request, d: Data, s: Surroundings, a: Answer, overview: Overview)
    requires RequestOk(r) && DataOf(d, r) && r.stage.CenterPoll? && overview.account != ""
    requires r.scope.expected == "" || overview.account == r.scope.expected
    ensures EffectOk(r, Taken(r, d, s, a, overview).0) && Taken(r, d, s, a, overview).0.request.stage == r.stage
  {
    PartsReadKeeps(a.parts, overview.account, Opened(d.(warnings := []), overview, a.sessions, r.ticket), 0);
  }

  lemma UpdateOk(r: Request, d: Data, s: Surroundings, a: Answer)
    requires RequestOk(r) && DataOf(d, r) && r.stage.CenterPoll?
    ensures EffectOk(r, Update(r, d, s, a).0) && Update(r, d, s, a).0.request.stage == r.stage
  {
    if a.overview.Some? {
      var name := a.overview.value.account;
      if name != "" && (r.scope.expected == "" || name == r.scope.expected) { TakenOk(r, d, s, a, a.overview.value); }
    }
  }

  lemma CompletedOk(r: Request, d: Data, s: Surroundings, a: Answer)
    requires RequestOk(r) && DataOf(d, r) && a.account != ""
    requires r.stage.CenterPoll? || r.stage.Poll? || r.stage.PartPoll?
    requires !r.stage.CenterPoll? && r.scope.expected != "" ==> a.account == r.scope.expected
    ensures EffectOk(r, Completed(r, d, s, a))
  {
    match r.stage {
      case PartPoll(k) => SettledOk(r, d.(parts := d.parts[k := Part(a.account, Ready, a.body)]), s, k);
      case _ =>
    }
  }

  lemma PollSettledOk(r: Request, d: Data, s: Surroundings, a: Answer)
    requires RequestOk(r) && DataOf(d, r)
    requires r.stage.CenterPoll? || r.stage.Poll? || r.stage.PartPoll?
    requires !r.stage.CenterPoll? && a.account != "" && r.scope.expected != "" ==> a.account == r.scope.expected
    ensures EffectOk(r, PollSettled(r, d, s, a))
  {
    FailureOk(r, d, s);
    if a.state.Success? && a.account != "" { CompletedOk(r, d, s, a); }
  }

  lemma ThenOk(r: Request, mid: Effect, e: Effect)
    requires EffectOk(r, mid) && EffectOk(mid.request, e)
    ensures EffectOk(r, Then(mid.names, e))
  {}

  lemma PollOk(r: Request, d: Data, s: Surroundings, a: Answer)
    requires RequestOk(r) && DataOf(d, r)
    requires r.stage.CenterPoll? || r.stage.Poll? || r.stage.PartPoll?
    ensures EffectOk(r, PollStep(r, d, s, a))
  {
    FailureOk(r, d, s);
    var (update, ok) := CenterUpdate(r, d, s, a);
    if r.stage.CenterPoll? { UpdateOk(r, d, s, a); }
    FailureOk(update.request, update.data, s);
    if a.account == "" || r.scope.expected == "" || a.account == r.scope.expected {
      PollSettledOk(update.request, update.data, s, a);
      ThenOk(r, update, PollSettled(update.request, update.data, s, a));
      ThenOk(r, update, FailedStep(update.request, update.data, s));
    }
  }

  lemma DeliverOk(r: Request, d: Data, s: Surroundings, reply: Reply)
    requires RequestOk(r) && DataOf(d, r)
    ensures EffectOk(r, DeliverStep(r, d, s, reply))
  {
    FailureOk(r, d, s);
    if reply.Answered? {
      if r.stage.Cached? { CachedOk(r, d, s, reply.answer.items); }
      if r.stage.CenterPoll? || r.stage.Poll? || r.stage.PartPoll? { PollOk(r, d, s, reply.answer); }
    }
  }

  lemma ResumeOk(r: Request, d: Data, s: Surroundings, ok: bool)
    requires RequestOk(r) && DataOf(d, r)
    ensures EffectOk(r, ResumeStep(r, d, s, ok))
  {
    FailureOk(r, d, s);
  }

  // ---------- every run ----------

  ghost predicate InOrder(c: Center) {
    && (forall k :: 0 <= k < |c.log| ==> c.log[k].request < |c.requests|)
    && (forall j, k :: 0 <= j <= k < |c.log| ==> c.log[j].request <= c.log[k].request)
    && (forall k :: 0 <= k < |c.log| ==> c.log[k].generation == c.requests[c.log[k].request].scope.generation)
  }

  ghost predicate Attributed(c: Center, k: nat)
    requires k < |c.log| && c.log[k].request < |c.requests|
  {
    var r := c.requests[c.log[k].request];
    Named(r) ==> c.log[k].account == r.scope.expected != ""
  }

  ghost predicate Generations(c: Center) {
    && (forall i :: 0 <= i < |c.requests| ==> c.requests[i].scope.generation <= c.generation)
    && (forall i, j :: 0 <= i <= j < |c.requests| ==> c.requests[i].scope.generation <= c.requests[j].scope.generation)
  }

  // A refresh that is running and of the current generation is the one new callers share, and the latest to start.
  ghost predicate Sole(c: Center) {
    && (c.refresh.Some? ==> c.refresh.value == |c.requests| - 1 && Live(c, c.refresh.value))
    && (c.refresh.Some? ==> c.requests[c.refresh.value].scope.generation == c.generation)
    && (forall i: nat :: Live(c, i) && c.requests[i].scope.generation == c.generation ==> c.refresh == Some(i))
  }

  // What is on screen comes from the latest refresh, and only if that was started in the current generation.
  ghost predicate Screen(c: Center) {
    if CurrentLast(c) then DataOf(c.data, c.requests[|c.requests| - 1]) else c.data == EMPTY
  }

  predicate CurrentLast(c: Center) {
    c.requests != [] && c.requests[|c.requests| - 1].scope.generation == c.generation
  }

  ghost predicate AllOk(c: Center) {
    forall i :: 0 <= i < |c.requests| ==> RequestOk(c.requests[i])
  }

  ghost predicate AllAttributed(c: Center)
    requires InOrder(c)
  {
    forall k :: 0 <= k < |c.log| ==> Attributed(c, k)
  }

  ghost predicate Inv(c: Center) {
    && Generations(c) && Sole(c) && Screen(c) && AllOk(c)
    && InOrder(c) && AllAttributed(c)
  }

  lemma BegunKeeps(c: Center)
    requires Inv(c) && c.refresh.None? && c.snapshot.Some?
    ensures Inv(Begun(c))
  {
    var next := Begun(c);
    assert AllAttributed(next) by {
      forall k | 0 <= k < |next.log| ensures Attributed(next, k) { assert Attributed(c, k); }
    }
  }

  lemma InvalidatedKeeps(c: Center)
    requires Inv(c)
    ensures Inv(Invalidated(c))
  {
    var next := Invalidated(c);
    assert AllAttributed(next) by {
      forall k | 0 <= k < |next.log| ensures Attributed(next, k) { assert Attributed(c, k); }
    }
  }

  // The invariant does not speak of the account, the uplink, the router or whether billing data are shown.
  lemma Elsewhere(c: Center, account: string, uplink: string, snapshot: Option<Snapshot>, shown: bool)
    requires Inv(c)
    ensures Inv(c.(account := account, uplink := uplink, snapshot := snapshot, shown := shown))
  {
    var next := c.(account := account, uplink := uplink, snapshot := snapshot, shown := shown);
    assert AllAttributed(next) by {
      forall k | 0 <= k < |next.log| ensures Attributed(next, k) { assert Attributed(c, k); }
    }
  }

  lemma DroppedKeepsLog(c: Center, i: nat)
    requires Inv(c) && Live(c, i)
    ensures InOrder(Dropped(c, i)) && AllAttributed(Dropped(c, i)) && Generations(Dropped(c, i))
  {
    var next := Dropped(c, i);
    assert InOrder(next);
    forall k | 0 <= k < |next.log| ensures Attributed(next, k) { assert Attributed(c, k); }
  }

  lemma DroppedKeeps(c: Center, i: nat)
    requires Inv(c) && Live(c, i)
    ensures Inv(Dropped(c, i))
  {
    DroppedKeepsLog(c, i);
    assert Screen(Dropped(c, i)) by { assert Screen(c); }
  }

  lemma AppliedKeepsLog(c: Center, i: nat, e: Effect)
    requires Inv(c) && i == |c.requests| - 1 && EffectOk(c.requests[i], e)
    requires c.requests[i].scope.generation == c.generation
    ensures InOrder(Applied(c, i, e)) && AllAttributed(Applied(c, i, e))
  {
    var next := Applied(c, i, e);
    assert InOrder(next);
    forall k | 0 <= k < |next.log| ensures Attributed(next, k) {
      if k < |c.log| { assert Attributed(c, k); }
    }
  }

  lemma AppliedKeeps(c: Center, i: nat, e: Effect)
    requires Inv(c) && Live(c, i) && EffectOk(c.requests[i], e)
    requires c.requests[i].scope.generation == c.generation
    ensures Inv(Applied(c, i, e))
  {
    AppliedKeepsLog(c, i, e);
  }

  lemma LiveScreen(c: Center, i: nat)
    requires Inv(c) && Live(c, i) && c.requests[i].scope.generation == c.generation
    ensures i == |c.requests| - 1 && RequestOk(c.requests[i]) && DataOf(c.data, c.requests[i])
  {}

  lemma RefreshedKeeps(c: Center)
    requires Inv(c)
    ensures Inv(Refreshed(c))
  {
    var captured := Captured(c);
    Elsewhere(c, captured.account, captured.uplink, c.snapshot, c.shown);
    if c.refresh.None? && captured.snapshot.Some? { BegunKeeps(captured); }
  }

  lemma SelectedKeeps(c: Center, value: string)
    requires Inv(c)
    ensures Inv(Selected(c, value))
  {
    InvalidatedKeeps(c);
    Elsewhere(Invalidated(c), value, UplinkFor(c.snapshot, value), c.snapshot, c.shown);
    RefreshedKeeps(Invalidated(c).(account := value, uplink := UplinkFor(c.snapshot, value)));
  }

  lemma StepKeeps(c: Center, e: Event)
    requires Inv(c) && Enabled(c, e)
    ensures Inv(Next(c, e))
  {
    match e {
      case Invalidate => InvalidatedKeeps(c);
      case Select(value) => SelectedKeeps(c, value);
      case Refresh => RefreshedKeeps(c);
      case Repick => Elsewhere(c, Picked(c.snapshot, c.account), c.uplink, c.snapshot, c.shown);
      case Connect(snapshot) => Elsewhere(c, c.account, c.uplink, snapshot, c.shown);
      case Show(shown) => Elsewhere(c, c.account, c.uplink, c.snapshot, shown);
      case Deliver(i, reply) => DeliveredKeeps(c, i, reply);
      case Resume(i, ok) => ResumedKeeps(c, i, ok);
    }
  }

  lemma DeliveredKeeps(c: Center, i: nat, reply: Reply)
    requires Inv(c) && Live(c, i)
    ensures Inv(Delivered(c, i, reply))
  {
    var r := c.requests[i];
    if Holds(c, r.scope) {
      LiveScreen(c, i);
      DeliverOk(r, c.data, Around(c, r.scope), reply);
      AppliedKeeps(c, i, DeliverStep(r, c.data, Around(c, r.scope), reply));
    } else {
      DroppedKeeps(c, i);
    }
  }

  lemma ResumedKeeps(c: Center, i: nat, ok: bool)
    requires Inv(c) && Live(c, i)
    ensures Inv(Resumed(c, i, ok))
  {
    var r := c.requests[i];
    if Holds(c, r.scope) {
      LiveScreen(c, i);
      ResumeOk(r, c.data, Around(c, r.scope), ok);
      AppliedKeeps(c, i, ResumeStep(r, c.data, Around(c, r.scope), ok));
    } else {
      DroppedKeeps(c, i);
    }
  }

  function Stepped(c: Center, e: Event): Center {
    if Enabled(c, e) then Next(c, e) else c
  }

  function After(c: Center, run: seq<Event>): Center {
    if run == [] then c else Stepped(After(c, run[..|run| - 1]), run[|run| - 1])
  }

  predicate Possible(c: Center, run: seq<Event>) {
    run != [] ==> Possible(c, run[..|run| - 1]) && Enabled(After(c, run[..|run| - 1]), run[|run| - 1])
  }

  lemma {:induction false} RunsKeep(c: Center, run: seq<Event>)
    requires Inv(c) && Possible(c, run)
    ensures Inv(After(c, run))
    decreases |run|
  {
    if run != [] {
      RunsKeep(c, run[..|run| - 1]);
      StepKeeps(After(c, run[..|run| - 1]), run[|run| - 1]);
    }
  }

  // A billing centre just created, with any account chosen and any router connected or none.
  predicate Fresh(c: Center) {
    c.requests == [] && c.log == [] && c.refresh.None? && c.data == EMPTY
  }

  predicate UnderWay(c: Center, i: nat) {
    Live(c, i) && c.requests[i].scope.generation == c.generation
  }

  // In every run no two refreshes of the current generation are under way, and a shared one is current.
  lemma OneLiveRefresh(c: Center, run: seq<Event>, i: nat, j: nat)
    requires Fresh(c) && Possible(c, run)
    ensures var a := After(c, run);
            && (a.refresh.Some? ==> UnderWay(a, a.refresh.value))
            && (UnderWay(a, i) && UnderWay(a, j) ==> i == j)
  {
    RunsKeep(c, run);
  }

  // In every run the publications of an earlier refresh come before those of a later one, each is of the generation
  // current when it was made, and all publications of one named refresh name the same account.
  lemma PublicationsInOrder(c: Center, run: seq<Event>, j: nat, k: nat)
    requires Fresh(c) && Possible(c, run) && j <= k < |After(c, run).log|
    ensures var log := After(c, run).log;
            && log[j].request <= log[k].request < |After(c, run).requests|
            && log[j].generation <= log[k].generation
            && (log[j].request == log[k].request && Named(After(c, run).requests[log[k].request])
                ==> log[j].account == log[k].account != "")
  {
    RunsKeep(c, run);
    assert Attributed(After(c, run), j) && Attributed(After(c, run), k);
  }

  // In every run what is on screen is of the current generation: with an action ticket, the ticket, the overview and
  // every part that names an account are those of the latest refresh and the account it expects.
  lemma ScreenIsCurrent(c: Center, run: seq<Event>)
    requires Fresh(c) && Possible(c, run)
    ensures var a := After(c, run);
            a.data != EMPTY ==> CurrentLast(a) && DataOf(a.data, a.requests[|a.requests| - 1])
  {
    RunsKeep(c, run);
  }

  predicate WriterHolds(c: Center, e: Event) {
    && (e.Deliver? || e.Resume?)
    && Live(c, e.i) && Holds(c, c.requests[e.i].scope) && c.refresh == Some(e.i)
  }

  // Only a reply to the shared refresh, under an unchanged generation, router and account, writes or publishes;
  // any other step leaves the screen as it is or clears it, and publishes nothing.
  lemma OnlyCurrentWrites(c: Center, e: Event)
    requires Inv(c) && Enabled(c, e)
    ensures !WriterHolds(c, e) ==> Next(c, e).log == c.log
    ensures !WriterHolds(c, e) ==> Next(c, e).data == c.data || Next(c, e).data == EMPTY
  {
    if e.Deliver? || e.Resume? {
      if Holds(c, c.requests[e.i].scope) { LiveScreen(c, e.i); }
    }
  }

  // ---------- a cached overview of an unknown account ----------

  function Blank(): Answer {
    Answer("", "", Loading, 0, None, map[], [], [])
  }

  function CachedItem(account: string): Answer {
    Blank().(items := [Part(account, Ready, 0)])
  }

  function CachedName(c: Center): string {
    AccountOfUplink(c.snapshot, c.uplink)
  }

  // The cache answers for the uplink's account, and the query that follows for another.
  function MixedRun(i: nat, name: string): seq<Event> {
    [Refresh, Deliver(i, Answered(CachedItem(name))), Deliver(i, Answered(Blank().(ticket := "t"))),
     Deliver(i, Answered(Blank().(account := name + "2", state := Success)))]
  }

  // The state in which a refresh would start from the cache without knowing the account.
  predicate Unsure(c: Center) {
    var captured := Captured(c);
    && c.refresh.None? && c.shown && captured.snapshot.Some? && captured.uplink != ""
    && !Named(NewRequest(captured))
  }

  lemma MixedCached(c: Center)
    requires Unsure(c)
    ensures var i, n := |c.requests|, CachedName(Captured(c));
            var b := Begun(Captured(c));
            && Refreshed(c) == b && Live(b, i) && Holds(b, b.requests[i].scope) && b.requests[i].pause.Polled?
            && DeliverStep(b.requests[i], EMPTY, Around(b, b.requests[i].scope), Answered(CachedItem(n)))
               == Effect(b.requests[i].(stage := Start), EMPTY.(overview := Some(Overview(n, 0))), [n])
  {
    var b := Begun(Captured(c));
    var items := CachedItem(CachedName(Captured(c))).items;
    assert items == [Part(CachedName(Captured(c)), Ready, 0)];
    assert b.requests[|c.requests|] == NewRequest(Captured(c));
  }

  // A refresh of an unknown account that has got its cached overview: two more replies publish a second name.
  lemma MixedPoll(b: Center, i: nat, name: string)
    requires Live(b, i) && Holds(b, b.requests[i].scope) && b.requests[i].pause.Polled? && b.requests[i].stage.Start?
    requires b.requests[i].scope.expected == "" && b.shown && name != ""
    ensures var ticketed := Delivered(b, i, Answered(Blank().(ticket := "t")));
            var reply := Answered(Blank().(account := name, state := Success));
            && Enabled(ticketed, Deliver(i, reply)) && ticketed.log == b.log
            && Delivered(ticketed, i, reply).log == b.log + [Published(i, b.generation, name)]
  {
    var r := b.requests[i];
    var s := Around(b, r.scope);
    var ticketed := Delivered(b, i, Answered(Blank().(ticket := "t")));
    assert ticketed.requests[i] == r.(stage := Poll, ticket := "t", captchas := 0);
    assert Around(ticketed, r.scope) == s;
    var a := Blank().(account := name, state := Success);
    assert PollStep(ticketed.requests[i], b.data, s, a).names == [name];
    assert DeliverStep(ticketed.requests[i], b.data, s, Answered(a)).names == [name];
  }

  predicate MixReady(c: Center, i: nat, name: string, b: Center, cached: Center) {
    && Refreshed(c) == b && Enabled(b, Deliver(i, Answered(CachedItem(name))))
    && cached == Delivered(b, i, Answered(CachedItem(name)))
    && Live(cached, i) && Holds(cached, cached.requests[i].scope) && cached.requests[i].pause.Polled?
    && cached.requests[i].stage.Start? && cached.requests[i].scope.expected == "" && cached.shown
  }

  lemma MixedStart(c: Center) returns (name: string, b: Center, cached: Center)
    requires Unsure(c)
    ensures name == CachedName(Captured(c))
    ensures MixReady(c, |c.requests|, name, b, cached)
    ensures cached.log == c.log + [Published(|c.requests|, c.generation, name)] && cached.generation == c.generation
  {
    name, b := CachedName(Captured(c)), Begun(Captured(c));
    MixedCached(c);
    cached := Delivered(b, |c.requests|, Answered(CachedItem(name)));
  }

  lemma FourSteps(c: Center, run: seq<Event>, c1: Center, c2: Center, c3: Center)
    requires |run| == 4
    requires Enabled(c, run[0]) && Next(c, run[0]) == c1 && Enabled(c1, run[1]) && Next(c1, run[1]) == c2
    requires Enabled(c2, run[2]) && Next(c2, run[2]) == c3 && Enabled(c3, run[3])
    ensures Possible(c, run) && After(c, run) == Next(c3, run[3])
  {
    assert run[..3][..2] == run[..2] && run[..2][..1] == run[..1];
    assert After(c, run[..1]) == c1 && Possible(c, run[..1]);
    assert After(c, run[..2]) == c2 && Possible(c, run[..2]);
  }

  lemma MixedChain(c: Center, i: nat, name: string, b: Center, cached: Center)
    requires MixReady(c, i, name, b, cached)
    ensures Possible(c, MixedRun(i, name))
    ensures After(c, MixedRun(i, name)).log == cached.log + [Published(i, cached.generation, name + "2")]
  {
    MixedPoll(cached, i, name + "2");
    FourSteps(c, MixedRun(i, name), b, cached, Delivered(cached, i, Answered(Blank().(ticket := "t"))));
  }

  // From every such state a run makes that one refresh publish two different accounts: first the one the uplink is
  // logged in with, or none if it has none, then another.
  lemma UnsureRefreshMixes(c: Center) returns (run: seq<Event>, name: string, other: string)
    requires Unsure(c)
    ensures Possible(c, run) && name == CachedName(Captured(c)) && other != name && other != ""
    ensures After(c, run).log
         == c.log + [Published(|c.requests|, c.generation, name)] + [Published(|c.requests|, c.generation, other)]
  {
    var b, cached;
    name, b, cached := MixedStart(c);
    run, other := MixedRun(|c.requests|, name), name + "2";
    MixedChain(c, |c.requests|, name, b, cached);
    assert |other| > |name|;
  }
}
