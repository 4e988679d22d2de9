/** Refreshing the billing data through a router: concurrent queries guarded by the scope they were started under. */
module RouterScope {
  import opened Optional

  datatype Account = Account(id: string, user: string, hasPassword: bool)

  datatype Uplink = Uplink(id: string, account: string)

  datatype Snapshot = Snapshot(
    router: string, center: bool, background: bool, accounts: seq<Account>, uplinks: seq<Uplink>)

  // `expected` is the account every answer must name, or empty while it is unknown.
  datatype Scope = Scope(generation: nat, router: string, account: string, uplink: string, expected: string)

  datatype PartState = Ready | Broken | Pending

  // One of the four parts (services, devices, security, history), or an item of the router's cache.
  datatype Part = Part(account: string, state: PartState, body: int)

  datatype Overview = Overview(account: string, body: int)

  datatype PollState = Loading | Captcha | Failure | Success | Unknown

  // An empty account or ticket stands for a missing one.
  datatype Answer = Answer(
    ticket: string, account: string, state: PollState, body: int, overview: Option<Overview>,
    parts: map<nat, Part>, sessions: seq<int>, items: seq<Part>)

  datatype Reply = Rejected | Answered(answer: Answer)

  // What is on screen, and the ticket that authorises actions on it.
  datatype Data = Data(
    overview: Option<Overview>, sessions: seq<int>, parts: map<nat, Part>, warnings: seq<nat>, ticket: string)

  const EMPTY := Data(None, [], map[], [], "")

  datatype Stage = Cached | CenterStart | CenterPoll | Start | Poll | PartStart(k: nat) | PartPoll(k: nat) | Over

  // What a polling query is waiting for.
  datatype Pause = Polled | Sleeping | Dialog | Answering

  datatype Stamp = Stamp(state: PollState, overview: Option<Overview>, parts: map<nat, Part>, sessions: seq<int>)

  // Whether the router answers whole updates, may have a cached overview, or is asked part by part from the start.
  datatype Path = FromCenter | FromCache | FromStart

  // `user` is the account the scope named when it was captured.
  datatype Request = Request(
    scope: Scope, user: string, path: Path, stage: Stage, pause: Pause, captchas: nat, ticket: string,
    stamp: Option<Stamp>)

  datatype Published = Published(request: nat, generation: nat, account: string)

  // What a step of one request reads besides its own state.
  datatype Surroundings = Surroundings(shown: bool, user: string, uplinkAccount: string)

  datatype Effect = Effect(request: Request, data: Data, names: seq<string>)

  datatype Center = Center(
    generation: nat, account: string, uplink: string, snapshot: Option<Snapshot>, shown: bool, data: Data,
    refresh: Option<nat>, requests: seq<Request>, log: seq<Published>)

  datatype Event =
    | Invalidate
    | Select(value: string)
    | Refresh
    | Repick
    | Connect(snapshot: Option<Snapshot>)
    | Show(shown: bool)
    | Deliver(i: nat, reply: Reply)
    | Resume(i: nat, ok: bool)

  // ---------- accounts and uplinks ----------

  function First<T>(items: seq<T>, wanted: T -> bool): (found: Option<T>)
    ensures found.Some? ==> found.value in items && wanted(found.value)
    ensures found.None? ==> forall x :: x in items ==> !wanted(x)
  {
    if items == [] then None else if wanted(items[0]) then Some(items[0]) else First(items[1..], wanted)
  }

  // The first item that is wanted is the k-th.
  ghost predicate IsFirst<T(!new)>(items: seq<T>, wanted: T -> bool, k: nat) {
    k < |items| && wanted(items[k]) && forall j :: 0 <= j < k ==> !wanted(items[j])
  }

  lemma {:induction false} FirstIs<T(!new)>(items: seq<T>, wanted: T -> bool, k: nat)
    requires IsFirst(items, wanted, k)
    ensures First(items, wanted) == Some(items[k])
    decreases k
  {
    if k > 0 {
      assert !wanted(items[0]);
      FirstIs(items[1..], wanted, k - 1);
    }
  }

  function WithPassword(accounts: seq<Account>): seq<string> {
    if accounts == [] then []
    else (if accounts[0].hasPassword then [accounts[0].id] else []) + WithPassword(accounts[1..])
  }

  function Choices(snapshot: Option<Snapshot>): seq<string> {
    ["current"] + if snapshot.None? then [] else WithPassword(snapshot.value.accounts)
  }

  function Configured(s: Snapshot): Option<Account> {
    var used := First(s.uplinks, (u: Uplink) => u.account != "");
    if used.None? then None else First(s.accounts, (a: Account) => a.user == used.value.account)
  }

  function Picked(snapshot: Option<Snapshot>, account: string): string {
    if account in Choices(snapshot) || snapshot.None? then
      if account in Choices(snapshot) then account else "current"
    else
      var configured := Configured(snapshot.value);
      if configured.Some? && configured.value.id in Choices(snapshot) then configured.value.id else "current"
  }

  function UplinkFor(snapshot: Option<Snapshot>, account: string): string {
    if snapshot.None? || snapshot.value.uplinks == [] then "" else
      var s := snapshot.value;
      var selected := First(s.accounts, (a: Account) => a.id == account);
      var matching :=
        if selected.Some? then First(s.uplinks, (u: Uplink) => u.account == selected.value.user)
        else First(s.uplinks, (u: Uplink) => u.account != "");
      if matching.Some? && matching.value.id != "" then matching.value.id else s.uplinks[0].id
  }

  function UserOf(snapshot: Option<Snapshot>, account: string): string {
    if snapshot.None? then "" else
      var found := First(snapshot.value.accounts, (a: Account) => a.id == account);
      if found.Some? then found.value.user else ""
  }

  function AccountOfUplink(snapshot: Option<Snapshot>, uplink: string): string {
    if snapshot.None? then "" else
      var found := First(snapshot.value.uplinks, (u: Uplink) => u.id == uplink);
      if found.Some? then found.value.account else ""
  }

  // ---------- one request ----------

  // The account a publication names.
  function Name(d: Data, user: string): string {
    if d.overview.Some? && d.overview.value.account != "" then d.overview.value.account else user
  }

  function Names(d: Data, s: Surroundings): seq<string> {
    if s.shown then [Name(d, s.user)] else []
  }

  // Part k is settled; the refresh publishes, goes on with the next part, and publishes once more after the last.
  function PartSettled(r: Request, d: Data, s: Surroundings, k: nat): Effect {
    if k < 3 then Effect(r.(stage := PartStart(k + 1), pause := Polled), d, Names(d, s))
    else Effect(r.(stage := Over), d, Names(d, s) + Names(d, s))
  }

  // A failure in a scope that still holds: a missing cache is ignored, a part leaves a warning, anything else ends it.
  function FailedStep(r: Request, d: Data, s: Surroundings): Effect {
    match r.stage
    case Cached => Effect(r.(stage := Start), d, [])
    case PartStart(k) => PartSettled(r, d.(warnings := d.warnings + [k]), s, k)
    case PartPoll(k) => PartSettled(r, d.(warnings := d.warnings + [k]), s, k)
    case _ => Effect(r.(stage := Over), d, [])
  }

  function CachedStep(r: Request, d: Data, s: Surroundings, items: seq<Part>): Effect {
    var expected := if r.scope.expected != "" then r.scope.expected else s.uplinkAccount;
    var item := First(items, (p: Part) => p.account == expected && p.state.Ready?);
    var next := r.(stage := Start);
    if item.None? then Effect(next, d, [])
    else
      var shown := d.(overview := Some(Overview(item.value.account, item.value.body)));
      Effect(next, shown, Names(shown, s))
  }

  // Parts k.. of an answer, in order; a part that names another account stops the reading.
  function PartsRead(parts: map<nat, Part>, expected: string, d: Data, k: nat): (Data, bool)
    requires k <= 4
    decreases 4 - k
  {
    if k == 4 then (d, true)
    else if k !in parts then PartsRead(parts, expected, d, k + 1)
    else if parts[k].account != "" && parts[k].account != expected then (d, false)
    else PartsRead(parts, expected, PartTaken(d, k, parts[k]), k + 1)
  }

  function PartTaken(d: Data, k: nat, part: Part): Data {
    match part.state
    case Ready => d.(parts := d.parts[k := part])
    case Broken => d.(warnings := d.warnings + [k])
    case Pending => d
  }

  function StampOf(a: Answer): Stamp {
    Stamp(a.state, a.overview, a.parts, a.sessions)
  }

  function Opened(d: Data, overview: Overview, sessions: seq<int>, ticket: string): Data {
    Data(Some(overview), sessions, d.parts, d.warnings, ticket)
  }

  // An overview that passed its checks is written, then the parts up to the first that names another account.
  function Taken(r: Request, d: Data, s: Surroundings, a: Answer, overview: Overview): (Effect, bool) {
    var name := overview.account;
    var opening := Opened(d.(warnings := []), overview, a.sessions, r.ticket);
    var (shown, ok) := PartsRead(a.parts, name, opening, 0);
    var next := r.(stamp := Some(StampOf(a)), scope := r.scope.(expected := name));
    (Effect(next, shown, if ok then Names(shown, s) else []), ok)
  }

  // The update of the billing centre: what changed is shown at once. The flag is false if the answer is refused.
  function Update(r: Request, d: Data, s: Surroundings, a: Answer): (Effect, bool) {
    if a.overview.None? || a.overview.value.account == "" then (Effect(r, d, []), true)
    else
      var name := a.overview.value.account;
      if (r.scope.expected != "" && name != r.scope.expected) || name != a.account then (Effect(r, d, []), false)
      else if r.stamp == Some(StampOf(a)) then (Effect(r, d, []), true)
      else Taken(r, d, s, a, a.overview.value)
  }

  function CenterUpdate(r: Request, d: Data, s: Surroundings, a: Answer): (Effect, bool) {
    if r.stage.CenterPoll? then Update(r, d, s, a) else (Effect(r, d, []), true)
  }

  // What a query does when its ticket is ready.
  function Completed(r: Request, d: Data, s: Surroundings, a: Answer): Effect {
    match r.stage
    case Poll =>
      var shown := Opened(d, Overview(a.account, a.body), a.sessions, r.ticket);
      Effect(r.(stage := PartStart(0), scope := r.scope.(expected := a.account)), shown, Names(shown, s))
    case PartPoll(k) => PartSettled(r, d.(parts := d.parts[k := Part(a.account, Ready, a.body)]), s, k)
    case _ => Effect(r.(stage := Over), d, [])
  }

  function Then(before: seq<string>, e: Effect): Effect {
    e.(names := before + e.names)
  }

  // What a poll does with the state of the answer, after the update.
  function PollSettled(r: Request, d: Data, s: Surroundings, a: Answer): Effect {
    match a.state
    case Loading => Effect(r.(pause := Sleeping), d, [])
    case Captcha =>
      if r.captchas >= 6 then FailedStep(r, d, s)
      else Effect(r.(pause := Dialog, captchas := r.captchas + 1), d, [])
    case Success => if a.account == "" then FailedStep(r, d, s) else Completed(r, d, s, a)
    case Failure => FailedStep(r, d, s)
    case Unknown => FailedStep(r, d, s)
  }

  function PolledStep(r: Request, d: Data, s: Surroundings, a: Answer): Effect {
    var (update, ok) := CenterUpdate(r, d, s, a);
    Then(update.names,
         if ok then PollSettled(update.request, update.data, s, a) else FailedStep(update.request, update.data, s))
  }

  function PollStep(r: Request, d: Data, s: Surroundings, a: Answer): Effect {
    if a.account != "" && r.scope.expected != "" && a.account != r.scope.expected then FailedStep(r, d, s)
    else PolledStep(r, d, s, a)
  }

  function Ticketed(r: Request, ticket: string): Request {
    match r.stage
    case CenterStart => r.(stage := CenterPoll, ticket := ticket, pause := Polled, captchas := 0)
    case Start => r.(stage := Poll, ticket := ticket, pause := Polled, captchas := 0)
    case PartStart(k) => r.(stage := PartPoll(k), pause := Polled, captchas := 0)
    case _ => r
  }

  function DeliverStep(r: Request, d: Data, s: Surroundings, reply: Reply): Effect {
    if reply.Rejected? then FailedStep(r, d, s)
    else if r.stage.Cached? then CachedStep(r, d, s, reply.answer.items)
    else if r.stage.CenterPoll? || r.stage.Poll? || r.stage.PartPoll? then PollStep(r, d, s, reply.answer)
    else if reply.answer.ticket == "" then FailedStep(r, d, s)
    else Effect(Ticketed(r, reply.answer.ticket), d, [])
  }

  // The end of a pause: the timer fired before the deadline, the dialog was answered, or the code was accepted.
  function ResumeStep(r: Request, d: Data, s: Surroundings, ok: bool): Effect {
    if !ok then FailedStep(r, d, s)
    else Effect(r.(pause := if r.pause.Dialog? then Answering else Polled), d, [])
  }

  // ---------- the centre ----------

  predicate Holds(c: Center, scope: Scope) {
    && scope.generation == c.generation
    && c.snapshot.Some? && c.snapshot.value.router == scope.router
    && c.account == scope.account
  }

  function Around(c: Center, scope: Scope): Surroundings {
    Surroundings(c.shown, UserOf(c.snapshot, c.account), AccountOfUplink(c.snapshot, scope.uplink))
  }

  function Entries(i: nat, generation: nat, names: seq<string>): (entries: seq<Published>)
    ensures |entries| == |names|
  {
    seq(|names|, k requires 0 <= k < |names| => Published(i, generation, names[k]))
  }

  function Applied(c: Center, i: nat, e: Effect): Center
    requires i < |c.requests|
  {
    c.(requests := c.requests[i := e.request], data := e.data, log := c.log + Entries(i, c.generation, e.names),
       refresh := if e.request.stage.Over? && e.request.scope.generation == c.generation then None else c.refresh)
  }

  // A request whose scope is over ends without touching anything on screen.
  function Dropped(c: Center, i: nat): Center
    requires i < |c.requests|
  {
    Applied(c, i, Effect(c.requests[i].(stage := Over), c.data, []))
  }

  function Invalidated(c: Center): Center {
    c.(generation := c.generation + 1, refresh := None, data := EMPTY)
  }

  function Repicked(c: Center): Center {
    c.(account := Picked(c.snapshot, c.account))
  }

  function Captured(c: Center): Center {
    var picked := Repicked(c);
    picked.(uplink := UplinkFor(c.snapshot, picked.account))
  }

  function RequestFor(s: Snapshot, generation: nat, account: string, uplink: string): Request {
    var user := UserOf(Some(s), account);
    var path := if s.center then FromCenter else if s.background then FromCache else FromStart;
    var stage := match path case FromCenter => CenterStart case FromCache => Cached case FromStart => Start;
    Request(Scope(generation, s.router, account, uplink, user), user, path, stage, Polled, 0, "", None)
  }

  function NewRequest(c: Center): Request
    requires c.snapshot.Some?
  {
    RequestFor(c.snapshot.value, c.generation, c.account, c.uplink)
  }

  function Begun(c: Center): Center
    requires c.snapshot.Some?
  {
    c.(requests := c.requests + [NewRequest(c)], refresh := Some(|c.requests|), data := EMPTY)
  }

  // A refresh already running is shared; without a router or an uplink nothing starts.
  function Refreshed(c: Center): Center {
    if c.refresh.Some? then c else
      var captured := Captured(c);
      if captured.snapshot.None? || captured.uplink == "" then captured else Begun(captured)
  }

  function Selected(c: Center, value: string): Center {
    if value !in Choices(c.snapshot) then c
    else Refreshed(Invalidated(c).(account := value, uplink := UplinkFor(c.snapshot, value)))
  }

  predicate Live(c: Center, i: nat) {
    i < |c.requests| && !c.requests[i].stage.Over?
  }

  function Delivered(c: Center, i: nat, reply: Reply): Center
    requires Live(c, i)
  {
    var r := c.requests[i];
    if Holds(c, r.scope) then Applied(c, i, DeliverStep(r, c.data, Around(c, r.scope), reply)) else Dropped(c, i)
  }

  function Resumed(c: Center, i: nat, ok: bool): Center
    requires Live(c, i)
  {
    var r := c.requests[i];
    if Holds(c, r.scope) then Applied(c, i, ResumeStep(r, c.data, Around(c, r.scope), ok)) else Dropped(c, i)
  }

  predicate Enabled(c: Center, e: Event) {
    match e
    case Deliver(i, _) => Live(c, i) && c.requests[i].pause.Polled?
    case Resume(i, _) => Live(c, i) && !c.requests[i].pause.Polled?
    case _ => true
  }

  function Next(c: Center, e: Event): Center
    requires Enabled(c, e)
  {
    match e
    case Invalidate => Invalidated(c)
    case Select(value) => Selected(c, value)
    case Refresh => Refreshed(c)
    case Repick => Repicked(c)
    case Connect(snapshot) => c.(snapshot := snapshot)
    case Show(shown) => c.(shown := shown)
    case Deliver(i, reply) => Delivered(c, i, reply)
    case Resume(i, ok) => Resumed(c, i, ok)
  }
}
