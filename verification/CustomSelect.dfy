/** A select control: which options are marked, kept by an index from values to options. */
module CustomSelectIndex {
  datatype Choice = Choice(value: string, text: string)

  // The options a linear scan finds for a value, in order.
  function Scan(choices: seq<Choice>, value: string): seq<nat> {
    if choices == [] then [] else
      var n := |choices| - 1;
      Scan(choices[..n], value) + if choices[n].value == value then [n] else []
  }

  lemma {:induction false} ScanFinds(choices: seq<Choice>, value: string, i: nat)
    ensures i in Scan(choices, value) <==> i < |choices| && choices[i].value == value
    decreases |choices|
  {
    if choices != [] { ScanFinds(choices[..|choices| - 1], value, i); }
  }

  lemma {:induction false} ScanIsSorted(choices: seq<Choice>, value: string, j: nat, k: nat)
    requires j < k < |Scan(choices, value)|
    ensures Scan(choices, value)[j] < Scan(choices, value)[k] < |choices|
    decreases |choices|
  {
    var n := |choices| - 1;
    var before := Scan(choices[..n], value);
    if k < |before| {
      ScanIsSorted(choices[..n], value, j, k);
    } else {
      ScanFinds(choices[..n], value, before[j]);
    }
  }

  predicate Offers(choices: seq<Choice>, value: string) {
    exists i :: 0 <= i < |choices| && choices[i].value == value
  }

  // The value a new list of options leaves selected.
  function Kept(choices: seq<Choice>, value: string): string {
    if Offers(choices, value) then value else if choices == [] then "" else choices[0].value
  }

  // The text of the trigger: that of the last option with the value, or the value itself.
  function Label(choices: seq<Choice>, value: string): string {
    var found := Scan(choices, value);
    if found == [] then value else
      ScanFinds(choices, value, found[|found| - 1]);
      var text := choices[found[|found| - 1]].text;
      if text == "" then value else text
  }

  // A new list keeps the value selected if some option still has it, and otherwise selects its first option.
  lemma KeptIs(choices: seq<Choice>, value: string)
    ensures (exists i :: 0 <= i < |choices| && choices[i].value == value) ==> Kept(choices, value) == value
    ensures choices != [] && (forall i :: 0 <= i < |choices| ==> choices[i].value != value) ==>
              Kept(choices, value) == choices[0].value
    ensures choices == [] ==> Kept(choices, value) == ""
    ensures choices != [] ==> exists i :: 0 <= i < |choices| && choices[i].value == Kept(choices, value)
  {
    if choices != [] { assert choices[0].value == choices[0].value; }
  }

  ghost predicate IsLast(choices: seq<Choice>, value: string, i: int) {
    && 0 <= i < |choices| && choices[i].value == value
    && forall j :: i < j < |choices| ==> choices[j].value != value
  }

  // Of several options with one value the last gives the trigger its text; a value no option has, or one whose option
  // has no text, is shown itself.
  lemma LabelIs(choices: seq<Choice>, value: string)
    ensures (forall i :: 0 <= i < |choices| ==> choices[i].value != value) ==> Label(choices, value) == value
    ensures forall i :: IsLast(choices, value, i) ==>
              Label(choices, value) == if choices[i].text == "" then value else choices[i].text
  {
    var found := Scan(choices, value);
    AllScanned(choices, value);
    if found != [] {
      assert found[|found| - 1] in found;
      forall i | i in found ensures i <= found[|found| - 1] {
        var k :| 0 <= k < |found| && found[k] == i;
        if k < |found| - 1 { ScanIsSorted(choices, value, k, |found| - 1); }
      }
    }
  }

  ghost predicate Indexed(choices: seq<Choice>, index: map<string, seq<nat>>) {
    forall v :: Lookup(index, v) == Scan(choices, v)
  }

  ghost predicate Marks(choices: seq<Choice>, marked: seq<bool>, value: string) {
    |marked| == |choices| && forall i :: 0 <= i < |choices| ==> (marked[i] <==> choices[i].value == value)
  }

  function Lookup(index: map<string, seq<nat>>, value: string): seq<nat> {
    if value in index then index[value] else []
  }

  lemma ScanGrows(before: seq<Choice>, c: Choice, value: string)
    ensures Scan(before + [c], value) == Scan(before, value) + if c.value == value then [|before|] else []
  {
    assert (before + [c])[..|before|] == before;
  }

  lemma IndexGrows(before: seq<Choice>, c: Choice, index: map<string, seq<nat>>)
    requires Indexed(before, index)
    ensures Indexed(before + [c], index[c.value := Lookup(index, c.value) + [|before|]])
  {
    var after := index[c.value := Lookup(index, c.value) + [|before|]];
    forall v ensures Lookup(after, v) == Scan(before + [c], v) {
      ScanGrows(before, c, v);
      assert Lookup(index, v) == Scan(before, v);
    }
  }

  ghost predicate Prepared(
      choices: seq<Choice>, index: map<string, seq<nat>>, marked: seq<bool>, selected: seq<nat>, value: string) {
    Indexed(choices, index) && Marks(choices, marked, value) && selected == Scan(choices, value)
  }

  lemma OptionPrepared(
    choices: seq<Choice>, n: nat, index: map<string, seq<nat>>, marked: seq<bool>, selected: seq<nat>, value: string)
    requires n < |choices| && Prepared(choices[..n], index, marked, selected, value)
    ensures var v := choices[n].value;
            Prepared(choices[..n + 1], index[v := Lookup(index, v) + [n]], marked + [v == value],
                     selected + (if v == value then [n] else []), value)
  {
    assert choices[..n + 1] == choices[..n] + [choices[n]];
    IndexGrows(choices[..n], choices[n], index);
    ScanGrows(choices[..n], choices[n], value);
  }

  ghost predicate AllBelow(items: seq<nat>, bound: nat) {
    forall k :: 0 <= k < |items| ==> items[k] < bound
  }

  class CustomSelect {
    var value: string
    var choices: seq<Choice>
    var marked: seq<bool>
    var optionsByValue: map<string, seq<nat>>
    var selectedOptions: seq<nat>
    var caption: string

    // The index agrees with a linear scan, and exactly the options with the current value are marked.
    ghost predicate Valid()
      reads this
    {
      Prepared(choices, optionsByValue, marked, selectedOptions, value)
    }

    // The options found in the page, of which one may be marked.
    constructor (choices: seq<Choice>, selected: nat, text: string)
      ensures Valid() && this.choices == choices
      ensures value == if selected < |choices| then choices[selected].value else ""
    {
      this.choices := choices;
      value, caption := "", text;
      marked, optionsByValue, selectedOptions := [], map[], [];
      new;
      if selected < |choices| { value, caption := choices[selected].value, choices[selected].text; }
      PrepareOptions();
    }

    method PrepareOptions()
      modifies this
      ensures Valid() && value == old(value) && choices == old(choices) && caption == old(caption)
    {
      optionsByValue, selectedOptions, marked := map[], [], [];
      for n := 0 to |choices|
        invariant value == old(value) && choices == old(choices) && caption == old(caption)
        invariant Prepared(choices[..n], optionsByValue, marked, selectedOptions, value)
      {
        var v := choices[n].value;
        OptionPrepared(choices, n, optionsByValue, marked, selectedOptions, value);
        optionsByValue := optionsByValue[v := Lookup(optionsByValue, v) + [n]];
        marked := marked + [v == value];
        if v == value { selectedOptions := selectedOptions + [n]; }
      }
      assert choices[..|choices|] == choices;
    }

    // Changes the mark of the options listed, except those also listed elsewhere.
    method SetMarks(items: seq<nat>, except: seq<nat>, on: bool)
      requires AllBelow(items, |marked|)
      modifies this`marked
      ensures |marked| == old(|marked|)
      ensures forall i :: 0 <= i < |marked| ==> (marked[i] == if i in items && i !in except then on else old(marked[i]))
    {
      for k := 0 to |items|
        invariant |marked| == old(|marked|)
        invariant forall i :: 0 <= i < |marked|
                    ==> (marked[i] == if i in items[..k] && i !in except then on else old(marked[i]))
      {
        if items[k] !in except { marked := marked[items[k] := on]; }
      }
    }

    // Only options that are in one of the two lists and not in the other are touched.
    method MoveMarks(selected: seq<nat>, next: string)
      requires Valid() && selected == Scan(choices, next)
      modifies this`marked
      ensures Marks(choices, marked, next)
    {
      ghost var was := marked;
      ScannedBelow(choices, value);
      ScannedBelow(choices, next);
      SetMarks(selectedOptions, selected, false);
      SetMarks(selected, selectedOptions, true);
      Remarked(choices, was, marked, value, next);
    }

    method SetValue(next: string)
      requires Valid()
      modifies this
      ensures Valid() && value == next && choices == old(choices) && caption == Label(choices, next)
    {
      var selected := Lookup(optionsByValue, next);
      MoveMarks(selected, next);
      value, selectedOptions := next, selected;
      ScannedBelow(choices, next);
      var last := |selected| - 1;
      caption := if selected == [] || choices[selected[last]].text == "" then next else choices[selected[last]].text;
    }

    // Whether the list is rebuilt or found unchanged, the options, the value and the marks come out the same.
    method SetOptions(options: seq<Choice>) returns (rebuilt: bool)
      requires Valid()
      modifies this
      ensures Valid() && choices == options && value == Kept(options, old(value)) && caption == Label(options, value)
      ensures rebuilt <==> options != old(choices)
      ensures options != [] ==> exists i :: 0 <= i < |options| && options[i].value == value && marked[i]
    {
      var next := Kept(options, value);
      KeptIs(options, value);
      if options == choices {
        SetValue(next);
        return false;
      }
      choices := options;
      PrepareOptions();
      SetValue(next);
      rebuilt := true;
    }
  }

  lemma ScannedBelow(choices: seq<Choice>, value: string)
    ensures AllBelow(Scan(choices, value), |choices|)
  {
    AllScanned(choices, value);
  }

  // Clearing the marks of one value and setting those of another, except for options in both.
  lemma Remarked(choices: seq<Choice>, was: seq<bool>, marked: seq<bool>, value: string, next: string)
    requires Marks(choices, was, value) && |marked| == |was|
    requires var (before, after) := (Scan(choices, value), Scan(choices, next));
             forall i :: 0 <= i < |marked| ==>
               marked[i] == if i in after && i !in before then true
                            else if i in before && i !in after then false else was[i]
    ensures Marks(choices, marked, next)
  {
    AllScanned(choices, value);
    AllScanned(choices, next);
  }

  lemma AllScanned(choices: seq<Choice>, value: string)
    ensures AllBelow(Scan(choices, value), |choices|)
    ensures forall i :: 0 <= i < |choices| ==> (i in Scan(choices, value) <==> choices[i].value == value)
  {
    forall i | 0 <= i < |choices| ensures i in Scan(choices, value) <==> choices[i].value == value {
      ScanFinds(choices, value, i);
    }
    forall k | 0 <= k < |Scan(choices, value)| ensures Scan(choices, value)[k] < |choices| {
      ScanFinds(choices, value, Scan(choices, value)[k]);
    }
  }
}

/** The menus of all controls on the page, of which one at most is open. */
module CustomSelectMenus {
  import opened Optional

  // Closing leaves the list visible until the transition's timer has fired.
  datatype Menu = Menu(disabled: bool, expanded: bool, hidden: bool, closing: bool)

  datatype Page = Page(menus: seq<Menu>, openInstance: Option<nat>)

  // Choosing an option, leaving the control and rebuilding its options close it.
  datatype Event = Toggle(i: nat) | Close(i: nat) | Outside | Disable(i: nat, disabled: bool) | Elapsed(i: nat)

  const CLOSED := Menu(false, false, true, false)

  function Closed(p: Page, i: nat): Page
    requires i < |p.menus|
  {
    var instance := if p.openInstance == Some(i) then None else p.openInstance;
    var m := p.menus[i];
    Page(if m.expanded then p.menus[i := m.(expanded := false, closing := true)] else p.menus, instance)
  }

  function CurrentClosed(p: Page): Page {
    if p.openInstance.Some? && p.openInstance.value < |p.menus| then Closed(p, p.openInstance.value) else p
  }

  function Opened(p: Page, i: nat): Page
    requires i < |p.menus|
  {
    if p.menus[i].disabled then p else
      Page(CurrentClosed(p).menus[i := Menu(false, true, false, false)], Some(i))
  }

  function Next(p: Page, e: Event): Page {
    match e
    case Outside => CurrentClosed(p)
    case Toggle(i) =>
      if i >= |p.menus| || p.menus[i].disabled then p else if p.menus[i].expanded then Closed(p, i) else Opened(p, i)
    case Close(i) => if i >= |p.menus| then p else Closed(p, i)
    case Disable(i, disabled) =>
      if i >= |p.menus| then p else
        var q := p.(menus := p.menus[i := p.menus[i].(disabled := disabled)]);
        if disabled then Closed(q, i) else q
    case Elapsed(i) =>
      if i >= |p.menus| || !p.menus[i].closing then p else
        var m := p.menus[i];
        p.(menus := p.menus[i := m.(closing := false, hidden := if m.expanded then m.hidden else true)])
  }

  // The open menus are exactly the recorded one; it is enabled and visible with no timer that would hide it,
  // and a closed menu is hidden or about to be.
  ghost predicate Exclusive(p: Page) {
    && (p.openInstance.Some? ==> p.openInstance.value < |p.menus|)
    && (forall i :: 0 <= i < |p.menus| ==> (p.menus[i].expanded <==> p.openInstance == Some(i)))
    && (forall i :: 0 <= i < |p.menus| && p.menus[i].expanded ==> p.menus[i] == Menu(false, true, false, false))
    && (forall i :: 0 <= i < |p.menus| && !p.menus[i].expanded ==> p.menus[i].hidden || p.menus[i].closing)
  }

  class SelectPage {
    var menus: seq<Menu>
    var openInstance: Option<nat>

    ghost function State(): Page
      reads this
    {
      Page(menus, openInstance)
    }

    constructor (count: nat)
      ensures State() == Page(seq(count, _ => CLOSED), None) && Exclusive(State())
    {
      menus, openInstance := seq(count, _ => CLOSED), None;
    }

    method CloseMenu(i: nat)
      requires i < |menus|
      modifies this
      ensures State() == Next(old(State()), Close(i))
    {
      if openInstance == Some(i) { openInstance := None; }
      if !menus[i].expanded { return; }
      menus := menus[i := menus[i].(expanded := false, closing := true)];
    }

    method CloseCurrent()
      modifies this
      ensures State() == Next(old(State()), Outside)
    {
      if openInstance.Some? && openInstance.value < |menus| { CloseMenu(openInstance.value); }
    }

    method Open(i: nat)
      requires i < |menus|
      modifies this
      ensures State() == Opened(old(State()), i)
    {
      if menus[i].disabled { return; }
      CloseCurrent();
      openInstance := Some(i);
      menus := menus[i := menus[i].(closing := false)];
      menus := menus[i := menus[i].(hidden := false)];
      menus := menus[i := menus[i].(expanded := true)];
    }

    method Click(i: nat)
      requires i < |menus|
      modifies this
      ensures State() == Next(old(State()), Toggle(i))
    {
      if menus[i].disabled { return; }
      if menus[i].expanded { CloseMenu(i); } else { Open(i); }
    }

    method SetDisabled(i: nat, disabled: bool)
      requires i < |menus|
      modifies this
      ensures State() == Next(old(State()), Disable(i, disabled))
    {
      menus := menus[i := menus[i].(disabled := disabled)];
      if disabled { CloseMenu(i); }
    }

    method TimerFires(i: nat)
      requires i < |menus| && menus[i].closing
      modifies this
      ensures State() == Next(old(State()), Elapsed(i))
    {
      menus := menus[i := menus[i].(closing := false)];
      if !menus[i].expanded { menus := menus[i := menus[i].(hidden := true)]; }
    }
  }

  function After(p: Page, run: seq<Event>): Page {
    if run == [] then p else Next(After(p, run[..|run| - 1]), run[|run| - 1])
  }

  lemma CurrentClosedKeeps(p: Page)
    requires Exclusive(p)
    ensures Exclusive(CurrentClosed(p)) && CurrentClosed(p).openInstance.None?
  {}

  lemma StepKeeps(p: Page, e: Event)
    requires Exclusive(p)
    ensures Exclusive(Next(p, e))
  {
    if e.Outside? || e.Toggle? { CurrentClosedKeeps(p); }
  }

  // After any sequence of clicks, closings, outside clicks, disablings and timers, whatever the controls, at most one
  // menu is open and it is the recorded one.
  lemma {:induction false} RunsKeepExclusive(p: Page, run: seq<Event>)
    requires Exclusive(p)
    ensures Exclusive(After(p, run))
  {
    if run != [] {
      RunsKeepExclusive(p, run[..|run| - 1]);
      StepKeeps(After(p, run[..|run| - 1]), run[|run| - 1]);
    }
  }

  // A click on an enabled control opens its menu if that is closed and closes it if it is open, and whichever other
  // menu was open is closed; a click on a disabled control does nothing.
  lemma ClickToggles(p: Page, i: nat)
    requires Exclusive(p) && i < |p.menus|
    ensures var n := Next(p, Toggle(i));
            && (p.menus[i].disabled ==> n == p)
            && (!p.menus[i].disabled ==> n.openInstance == if p.openInstance == Some(i) then None else Some(i))
            && |n.menus| == |p.menus| && n.menus[i].disabled == p.menus[i].disabled
            && forall j :: 0 <= j < |p.menus| && j != i ==>
                 n.menus[j] == if p.openInstance == Some(j) && !p.menus[i].disabled
                               then p.menus[j].(expanded := false, closing := true) else p.menus[j]
  {}

  // Closing a menu, or disabling its control, closes it if it was open and leaves every other menu as it was; an
  // outside click closes the open one.
  lemma ClosingCloses(p: Page, i: nat)
    requires Exclusive(p) && i < |p.menus|
    ensures var closed := if p.openInstance == Some(i) then None else p.openInstance;
            var n := Next(p, Close(i));
            && n.openInstance == closed && Next(p, Disable(i, true)).openInstance == closed
            && Next(p, Outside).openInstance == None
            && (p.openInstance != Some(i) ==> n == p)
            && forall j :: 0 <= j < |p.menus| && j != i ==> n.menus[j] == p.menus[j]
  {}

  // A control is disabled exactly when last told so.
  lemma DisableSets(p: Page, i: nat, disabled: bool)
    requires Exclusive(p) && i < |p.menus|
    ensures var n := Next(p, Disable(i, disabled));
            && |n.menus| == |p.menus| && n.menus[i].disabled == disabled
            && (!disabled ==> n == p.(menus := n.menus) && n.menus[i] == p.menus[i].(disabled := false))
            && forall j :: 0 <= j < |p.menus| && j != i ==> n.menus[j] == p.menus[j]
  {}

  // The timers of the first n menus, fired in turn.
  function Timers(n: nat): seq<Event> {
    if n == 0 then [] else Timers(n - 1) + [Elapsed(n - 1)]
  }

  // Timers hide the menus that are closing and change nothing else.
  lemma {:induction false} TimersHide(p: Page, n: nat)
    requires Exclusive(p) && n <= |p.menus|
    ensures var q := After(p, Timers(n));
            && q.openInstance == p.openInstance && |q.menus| == |p.menus|
            && (forall i :: n <= i < |p.menus| ==> q.menus[i] == p.menus[i])
            && (forall i :: 0 <= i < n ==>
                  q.menus[i]
                  == if p.menus[i].closing then p.menus[i].(closing := false, hidden := true) else p.menus[i])
  {
    if n > 0 {
      TimersHide(p, n - 1);
      assert Timers(n)[..|Timers(n)| - 1] == Timers(n - 1);
    }
  }

  // Once every timer has fired, exactly the open menu is visible.
  lemma OnlyOpenIsVisible(p: Page, run: seq<Event>, i: nat)
    requires Exclusive(p) && i < |After(p, run).menus|
    ensures var q := After(p, run);
            var settled := After(q, Timers(|q.menus|));
            |settled.menus| == |q.menus| && (settled.menus[i].hidden <==> settled.openInstance != Some(i))
  {
    RunsKeepExclusive(p, run);
    TimersHide(After(p, run), |After(p, run).menus|);
  }
}
