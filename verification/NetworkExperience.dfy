/** Which connectivity report is on screen when reports arrive late, twice or out of order. */
module NetworkExperience {
  import opened Optional

  // A missing generation or probe counts as zero when compared with the view's own, but not with another report's.
  // A time that cannot be read is missing, and compares with nothing.
  datatype Report = Report(
    generation: Option<nat>, probe: Option<nat>, time: Option<int>, adapter: string, addresses: seq<string>)

  datatype View = View(generation: nat, probe: nat, health: Option<Report>, identity: string)

  const FRESH := View(0, 0, None, "")

  datatype Event =
    | Arrive(report: Report)
    | Reset(generation: nat, probe: nat)
    | Clear
    | State(adapter: string, address: string)

  function Generation(r: Report): nat {
    ValueOr(r.generation, 0)
  }

  function Probe(r: Report): nat {
    ValueOr(r.probe, 0)
  }

  predicate Behind(generation: nat, probe: nat, v: View) {
    generation < v.generation || (generation == v.generation && probe < v.probe)
  }

  // The report shown is of the same probe and of a later time.
  predicate Superseded(r: Report, v: View) {
    && v.health.Some?
    && v.health.value.generation == Some(Generation(r)) && v.health.value.probe == Some(Probe(r))
    && r.time.Some? && v.health.value.time.Some? && r.time.value < v.health.value.time.value
  }

  function Rendered(v: View, r: Report): View {
    if Behind(Generation(r), Probe(r), v) || Superseded(r, v) then v
    else v.(generation := Generation(r), probe := Probe(r), health := Some(r))
  }

  function ResetTo(v: View, generation: nat, probe: nat): View {
    if Behind(generation, probe, v) then v else v.(generation := generation, probe := probe, health := None)
  }

  predicate Matches(health: Option<Report>, adapter: string, address: string) {
    health.Some? && health.value.adapter == adapter && address in health.value.addresses
  }

  function StateRendered(v: View, adapter: string, address: string): View {
    var identity := adapter + "|" + address;
    var changed := v.identity != "" && identity != v.identity;
    v.(health := if changed && !Matches(v.health, adapter, address) then None else v.health, identity := identity)
  }

  function Next(v: View, e: Event): View {
    match e
    case Arrive(report) => Rendered(v, report)
    case Reset(generation, probe) => ResetTo(v, generation, probe)
    case Clear => v.(health := None)
    case State(adapter, address) => StateRendered(v, adapter, address)
  }

  function After(v: View, run: seq<Event>): View {
    if run == [] then v else Next(After(v, run[..|run| - 1]), run[|run| - 1])
  }

  class HealthPanel {
    var generation: nat
    var probe: nat
    var health: Option<Report>
    var identity: string

    ghost function Now(): View
      reads this
    {
      View(generation, probe, health, identity)
    }

    constructor ()
      ensures Now() == FRESH
    {
      generation, probe, health, identity := 0, 0, None, "";
    }

    method ClearHealth()
      modifies this
      ensures Now() == Next(old(Now()), Clear)
    {
      health := None;
    }

    method ResetGeneration(generation: nat, probe: nat)
      modifies this
      ensures Now() == Next(old(Now()), Reset(generation, probe))
    {
      if generation < this.generation || (generation == this.generation && probe < this.probe) { return; }
      this.generation, this.probe := generation, probe;
      ClearHealth();
    }

    method RenderHealth(r: Report)
      modifies this
      ensures Now() == Next(old(Now()), Arrive(r))
    {
      var g, p := ValueOr(r.generation, 0), ValueOr(r.probe, 0);
      if g < generation || (g == generation && p < probe) { return; }
      if health.Some? && health.value.generation == Some(g) && health.value.probe == Some(p)
        && r.time.Some? && health.value.time.Some? && r.time.value < health.value.time.value { return; }
      generation, probe, health := g, p, Some(r);
    }

    method RenderState(adapter: string, address: string)
      modifies this
      ensures Now() == Next(old(Now()), State(adapter, address))
    {
      var next := adapter + "|" + address;
      if identity != "" && next != identity && !Matches(health, adapter, address) { ClearHealth(); }
      identity := next;
    }
  }

  // ---------- every run ----------

  // What is shown is of the view's own generation and probe.
  predicate Current(v: View) {
    v.health.Some? ==> Generation(v.health.value) == v.generation && Probe(v.health.value) == v.probe
  }

  predicate NotBefore(v: View, w: View) {
    w.generation > v.generation || (w.generation == v.generation && w.probe >= v.probe)
  }

  // Whatever happens, generation and probe never go back, so once a later probe has begun no report of an earlier
  // one is shown again.
  lemma {:induction false} NeverBack(v: View, run: seq<Event>, more: seq<Event>)
    requires Current(v)
    ensures Current(After(v, run)) && NotBefore(After(v, run), After(v, run + more))
    ensures Current(After(v, run + more))
    decreases |run| + |more|
  {
    if more != [] {
      assert (run + more)[..|run + more| - 1] == run + more[..|more| - 1];
      NeverBack(v, run, more[..|more| - 1]);
    } else {
      assert run + more == run;
      if run != [] { NeverBack(v, run[..|run| - 1], []); assert run[..|run| - 1] + [] == run[..|run| - 1]; }
    }
  }

  // ---------- delivery order ----------

  predicate Complete(r: Report) {
    r.generation.Some? && r.probe.Some? && r.time.Some?
  }

  // Lexicographic order of generation, probe and time.
  predicate AtMost(a: Report, b: Report)
    requires Complete(a) && Complete(b)
  {
    || Generation(a) < Generation(b)
    || (Generation(a) == Generation(b) && Probe(a) < Probe(b))
    || (Generation(a) == Generation(b) && Probe(a) == Probe(b) && a.time.value <= b.time.value)
  }

  function Deliveries(reports: seq<Report>): seq<Event> {
    if reports == [] then [] else Deliveries(reports[..|reports| - 1]) + [Arrive(reports[|reports| - 1])]
  }

  function Shown(reports: seq<Report>): Option<Report> {
    After(FRESH, Deliveries(reports)).health
  }

  ghost predicate AllComplete(reports: seq<Report>) {
    forall i :: 0 <= i < |reports| ==> Complete(reports[i])
  }

  lemma StepTakesGreater(v: View, r: Report)
    requires Current(v) && Complete(r) && v.health.Some? && Complete(v.health.value)
    ensures Current(Rendered(v, r))
    ensures Rendered(v, r).health == if AtMost(v.health.value, r) then Some(r) else v.health
  {}

  // Delivered in any order and any number of times, complete reports leave on screen one that none exceeds.
  lemma {:induction false} ShowsGreatest(reports: seq<Report>)
    requires AllComplete(reports) && reports != []
    ensures Shown(reports).Some? && Shown(reports).value in reports && Complete(Shown(reports).value)
    ensures Current(After(FRESH, Deliveries(reports)))
    ensures forall i :: 0 <= i < |reports| ==> AtMost(reports[i], Shown(reports).value)
    decreases |reports|
  {
    var n := |reports| - 1;
    DeliveredStep(reports);
    if n > 0 {
      ShowsGreatest(reports[..n]);
      StepTakesGreater(After(FRESH, Deliveries(reports[..n])), reports[n]);
      forall i | 0 <= i < n ensures AtMost(reports[i], Shown(reports).value) { assert reports[..n][i] == reports[i]; }
    } else {
      assert Deliveries(reports[..0]) == [];
    }
  }

  lemma DeliveredStep(reports: seq<Report>)
    requires reports != []
    ensures var n := |reports| - 1;
            After(FRESH, Deliveries(reports)) == Rendered(After(FRESH, Deliveries(reports[..n])), reports[n])
  {
    var before := Deliveries(reports[..|reports| - 1]);
    assert Deliveries(reports)[..|before|] == before;
  }

  // The generation, probe and time on screen do not depend on the order or the repetitions.
  lemma OrderDoesNotMatter(a: seq<Report>, b: seq<Report>)
    requires AllComplete(a) && a != [] && b != []
    requires forall r :: r in a <==> r in b
    ensures Shown(a).Some? && Shown(b).Some? && Complete(Shown(a).value) && Complete(Shown(b).value)
    ensures AtMost(Shown(a).value, Shown(b).value) && AtMost(Shown(b).value, Shown(a).value)
  {
    assert forall i :: 0 <= i < |b| ==> b[i] in a;
    ShowsGreatest(a);
    ShowsGreatest(b);
    assert Shown(a).value in b && Shown(b).value in a;
  }

  // The time shown goes back within one probe exactly when the report shown lacks its generation or its probe.
  lemma GoesBackIff(v: View, r: Report)
    requires Current(v) && v.health.Some? && v.health.value.time.Some? && r.time.Some?
    requires Generation(r) == v.generation && Probe(r) == v.probe && r.time.value < v.health.value.time.value
    ensures Rendered(v, r).health == Some(r) <==> v.health.value.generation.None? || v.health.value.probe.None?
  {}

  // A report without its generation counts as one of generation zero, and likewise one without its probe.
  lemma MissingIsZero(v: View, r: Report)
    requires r.generation.None? || r.probe.None?
    ensures r.generation.None? && v.generation > 0 ==> Rendered(v, r) == v
    ensures r.probe.None? && v.generation >= ValueOr(r.generation, v.generation) && v.probe > 0 ==> Rendered(v, r) == v
    ensures v.generation == 0 && v.probe == 0 && v.health.None?
            ==> Rendered(v, r) == View(ValueOr(r.generation, 0), ValueOr(r.probe, 0), Some(r), v.identity)
  {}

  // ---------- what is still shown ----------

  // This event takes a report of that generation and probe off the screen.
  predicate Removes(e: Event, r: Report) {
    match e
    case Clear => true
    case Reset(g, p) => g > ValueOr(r.generation, 0) || (g == ValueOr(r.generation, 0) && p >= ValueOr(r.probe, 0))
    case _ => false
  }

  ghost predicate DeliveredAndKept(run: seq<Event>, r: Report) {
    exists k :: 0 <= k < |run| && run[k] == Arrive(r) && forall j :: k < j < |run| ==> !Removes(run[j], r)
  }

  // Over any events: a report on screen was delivered, and since then neither cleared nor overtaken by a reset.
  lemma {:induction false} ShownWasDelivered(run: seq<Event>)
    ensures Current(After(FRESH, run))
    ensures After(FRESH, run).health.Some? ==> DeliveredAndKept(run, After(FRESH, run).health.value)
  {
    if run != [] {
      var n := |run| - 1;
      ShownWasDelivered(run[..n]);
      var before, after := After(FRESH, run[..n]), After(FRESH, run);
      if after.health.Some? {
        var r := after.health.value;
        if run[n] != Arrive(r) {
          assert before.health == Some(r) && !Removes(run[n], r);
          var k :| 0 <= k < n && run[..n][k] == Arrive(r) && forall j :: k < j < n ==> !Removes(run[..n][j], r);
          assert forall j :: k < j < n ==> run[j] == run[..n][j];
          assert run[k] == Arrive(r);
        }
      }
    }
  }

  // After a reset nothing is shown, and nothing earlier is shown later.
  lemma ResetIsFloor(v: View, generation: nat, probe: nat, more: seq<Event>)
    requires Current(v)
    ensures var a := After(v, [Reset(generation, probe)] + more);
            && Current(a) && (a.generation > generation || (a.generation == generation && a.probe >= probe))
  {
    var reset := [Reset(generation, probe)];
    assert reset[..0] == [];
    NeverBack(v, reset, more);
  }

  // ---------- a change of network ----------

  ghost predicate NoState(run: seq<Event>) {
    forall k :: 0 <= k < |run| ==> !run[k].State?
  }

  lemma {:induction false} IdentityStays(v: View, run: seq<Event>)
    requires NoState(run)
    ensures After(v, run).identity == v.identity
  {
    if run != [] { IdentityStays(v, run[..|run| - 1]); }
  }

  // When the network told is another than the one told before, a report stays exactly if it is of the new adapter and
  // lists the new address; when it is the same, whatever is shown stays.
  lemma NetworkChange(v: View, adapter: string, address: string, run: seq<Event>, next: string, at: string)
    requires NoState(run)
    ensures var w := After(Next(v, State(adapter, address)), run);
            var n := Next(w, State(next, at));
            && n.generation == w.generation && n.probe == w.probe
            && (adapter + "|" + address == next + "|" + at ==> n.health == w.health)
            && (adapter + "|" + address != next + "|" + at ==>
                  n.health == if w.health.Some? && w.health.value.adapter == next && at in w.health.value.addresses
                              then w.health else None)
  {
    IdentityStays(Next(v, State(adapter, address)), run);
    assert |adapter + "|" + address| > 0;
  }

  // The first network told takes nothing off the screen.
  lemma FirstNetworkKeeps(run: seq<Event>, adapter: string, address: string)
    requires NoState(run)
    ensures Next(After(FRESH, run), State(adapter, address)).health == After(FRESH, run).health
  {
    IdentityStays(FRESH, run);
  }
}
