/** Which account and uplink a refresh is for: the choices on offer, and what is picked when one is no longer there. */
module RouterChoice {
  import opened Optional
  import opened RouterScope

  lemma {:induction false} WithPasswordHas(accounts: seq<Account>, id: string)
    ensures id in WithPassword(accounts)
       <==> exists k :: 0 <= k < |accounts| && accounts[k].hasPassword && accounts[k].id == id
  {
    if accounts != [] {
      WithPasswordHas(accounts[1..], id);
      assert forall k :: 0 < k < |accounts| ==> accounts[k] == accounts[1..][k - 1];
      if id in WithPassword(accounts[1..]) {
        var k :| 0 <= k < |accounts[1..]| && accounts[1..][k].hasPassword && accounts[1..][k].id == id;
        assert accounts[k + 1].hasPassword;
      }
    }
  }

  // On offer are the account in use and every account of the router with a password.
  lemma ChoicesAre(snapshot: Option<Snapshot>, id: string)
    ensures id in Choices(snapshot) <==>
              || id == "current"
              || (snapshot.Some? && exists k ::
                    0 <= k < |snapshot.value.accounts|
                    && snapshot.value.accounts[k].hasPassword && snapshot.value.accounts[k].id == id)
  {
    if snapshot.Some? { WithPasswordHas(snapshot.value.accounts, id); }
  }

  // The account of the first uplink that has one, as the router knows it.
  ghost predicate InUse(s: Snapshot, u: nat, k: nat) {
    && IsFirst(s.uplinks, (x: Uplink) => x.account != "", u)
    && IsFirst(s.accounts, (a: Account) => a.user == s.uplinks[u].account, k)
  }

  lemma ConfiguredIs(s: Snapshot, u: nat, k: nat)
    requires InUse(s, u, k)
    ensures Configured(s) == Some(s.accounts[k])
  {
    FirstIs(s.uplinks, (x: Uplink) => x.account != "", u);
    var used := s.uplinks[u];
    FirstIs(s.accounts, (a: Account) => a.user == used.account, k);
  }

  // What is picked is always on offer: the account chosen if it still is, otherwise the one the router uses, if that
  // is on offer.
  lemma PickedIsOffered(snapshot: Option<Snapshot>, account: string)
    ensures Picked(snapshot, account) in Choices(snapshot)
    ensures account in Choices(snapshot) ==> Picked(snapshot, account) == account
    ensures account !in Choices(snapshot) && snapshot.Some? ==>
              forall u: nat, k: nat :: InUse(snapshot.value, u, k) ==>
                var used := snapshot.value.accounts[k].id;
                Picked(snapshot, account) == if used in Choices(snapshot) then used else "current"
  {
    if account !in Choices(snapshot) && snapshot.Some? {
      forall u: nat, k: nat | InUse(snapshot.value, u, k)
        ensures Configured(snapshot.value) == Some(snapshot.value.accounts[k])
      {
        ConfiguredIs(snapshot.value, u, k);
      }
    }
  }

  // The account of that id, as the router knows it.
  ghost predicate Selected(s: Snapshot, account: string, k: nat) {
    IsFirst(s.accounts, (a: Account) => a.id == account, k)
  }

  lemma SelectedIs(s: Snapshot, account: string, k: nat)
    requires Selected(s, account, k)
    ensures First(s.accounts, (a: Account) => a.id == account) == Some(s.accounts[k])
    ensures UserOf(Some(s), account) == s.accounts[k].user
  {
    FirstIs(s.accounts, (a: Account) => a.id == account, k);
  }

  // The uplink of a known account is the first that is logged in with its user, and the first of all if none is.
  lemma UplinkOfAccount(s: Snapshot, account: string, k: nat, u: nat)
    requires Selected(s, account, k) && u < |s.uplinks| && s.uplinks[u].id != ""
    requires || IsFirst(s.uplinks, (x: Uplink) => x.account == s.accounts[k].user, u)
             || (u == 0 && forall j :: 0 <= j < |s.uplinks| ==> s.uplinks[j].account != s.accounts[k].user)
    ensures UplinkFor(Some(s), account) == s.uplinks[u].id
  {
    var selected := s.accounts[k];
    SelectedIs(s, account, k);
    var wanted := (x: Uplink) => x.account == selected.user;
    if IsFirst(s.uplinks, wanted, u) { FirstIs(s.uplinks, wanted, u); }
  }

  // Without a known account, as for the one in use, it is the first uplink that has an account, and the first of all
  // if none has.
  lemma UplinkOfNobody(s: Snapshot, account: string, u: nat)
    requires u < |s.uplinks| && s.uplinks[u].id != ""
    requires forall k :: 0 <= k < |s.accounts| ==> s.accounts[k].id != account
    requires || IsFirst(s.uplinks, (x: Uplink) => x.account != "", u)
             || (u == 0 && forall j :: 0 <= j < |s.uplinks| ==> s.uplinks[j].account == "")
    ensures UplinkFor(Some(s), account) == s.uplinks[u].id && UserOf(Some(s), account) == ""
  {
    var wanted := (x: Uplink) => x.account != "";
    if IsFirst(s.uplinks, wanted, u) { FirstIs(s.uplinks, wanted, u); }
  }

  // An uplink without an id counts as none.
  lemma UplinkWithoutId(s: Snapshot, account: string, k: nat, u: nat)
    requires Selected(s, account, k) && IsFirst(s.uplinks, (x: Uplink) => x.account == s.accounts[k].user, u)
    requires s.uplinks[u].id == ""
    ensures UplinkFor(Some(s), account) == s.uplinks[0].id
  {
    var selected := s.accounts[k];
    SelectedIs(s, account, k);
    FirstIs(s.uplinks, (x: Uplink) => x.account == selected.user, u);
  }

  // The account that the first uplink of that id is logged in with.
  lemma AccountOfUplinkIs(s: Snapshot, uplink: string)
    ensures forall u: nat :: IsFirst(s.uplinks, (x: Uplink) => x.id == uplink, u) ==>
              AccountOfUplink(Some(s), uplink) == s.uplinks[u].account
    ensures (forall u :: 0 <= u < |s.uplinks| ==> s.uplinks[u].id != uplink) ==> AccountOfUplink(Some(s), uplink) == ""
  {
    var wanted := (x: Uplink) => x.id == uplink;
    forall u: nat | IsFirst(s.uplinks, wanted, u)
      ensures AccountOfUplink(Some(s), uplink) == s.uplinks[u].account
    {
      FirstIs(s.uplinks, wanted, u);
    }
  }

  lemma NoUplinks(snapshot: Option<Snapshot>, account: string)
    requires snapshot.None? || snapshot.value.uplinks == []
    ensures UplinkFor(snapshot, account) == ""
  {}

  // ---------- what a refresh is started for ----------

  // The request that a refresh of this account through this uplink starts: its scope, the user every answer must
  // name, and the way the router is asked.
  ghost predicate IsRequestFor(r: Request, s: Snapshot, generation: nat, account: string, uplink: string) {
    && r.scope == Scope(generation, s.router, account, uplink, UserOf(Some(s), account))
    && r.user == UserOf(Some(s), account) && r.pause.Polled? && r.captchas == 0 && r.ticket == "" && r.stamp.None?
    && (s.center ==> r.path.FromCenter? && r.stage.CenterStart?)
    && (!s.center && s.background ==> r.path.FromCache? && r.stage.Cached?)
    && (!s.center && !s.background ==> r.path.FromStart? && r.stage.Start?)
  }

  // A refresh is shared with one that runs. Otherwise account and uplink are picked anew, and one request is started
  // for them, on an empty screen, exactly if there is a router with an uplink.
  lemma RefreshStarts(c: Center)
    ensures c.refresh.Some? ==> Next(c, Refresh) == c
    ensures c.refresh.None? ==>
              var n := Next(c, Refresh);
              var started := c.snapshot.Some? && n.uplink != "";
              && n.account == Picked(c.snapshot, c.account) && n.uplink == UplinkFor(c.snapshot, n.account)
              && n.generation == c.generation && n.log == c.log && n.snapshot == c.snapshot && n.shown == c.shown
              && (!started ==> n.requests == c.requests && n.refresh.None? && n.data == c.data)
              && (started ==> n.refresh == Some(|c.requests|) && n.data == EMPTY && |n.requests| == |c.requests| + 1)
              && (started ==> n.requests[..|c.requests|] == c.requests)
              && (started ==>
                    IsRequestFor(n.requests[|c.requests|], c.snapshot.value, c.generation, n.account, n.uplink))
  {}

  // Choosing an account that is offered begins a new generation, which no request so far belongs to, and refreshes for
  // that account; choosing any other does nothing.
  lemma SelectionIs(c: Center, value: string)
    ensures value !in Choices(c.snapshot) ==> Next(c, Select(value)) == c
    ensures value in Choices(c.snapshot) ==>
              var n := Next(c, Select(value));
              && n.generation > c.generation && n.account == value && n.uplink == UplinkFor(c.snapshot, value)
              && n.data == EMPTY && n.log == c.log && |c.requests| <= |n.requests| <= |c.requests| + 1
              && n.requests[..|c.requests|] == c.requests
              && (n.refresh.Some? <==> c.snapshot.Some? && n.uplink != "")
              && (n.refresh.Some? ==> n.refresh == Some(|c.requests|) && |n.requests| == |c.requests| + 1)
              && (n.refresh.Some? ==>
                    IsRequestFor(n.requests[|c.requests|], c.snapshot.value, n.generation, value, n.uplink))
  {
    if value in Choices(c.snapshot) {
      var cleared := Invalidated(c).(account := value, uplink := UplinkFor(c.snapshot, value));
      PickedIsOffered(c.snapshot, value);
      RefreshStarts(cleared);
      assert Next(c, Select(value)) == Next(cleared, Refresh);
    }
  }

  // A reply to a request whose generation, router or account is no longer the current one ends it and does nothing
  // else; if it was the shared one, the next refresh starts afresh.
  lemma StaleReplyEnds(c: Center, e: Event)
    requires (e.Deliver? || e.Resume?) && Enabled(c, e)
    requires var scope := c.requests[e.i].scope;
             || scope.generation != c.generation || c.account != scope.account
             || c.snapshot.None? || c.snapshot.value.router != scope.router
    ensures var n, r := Next(c, e), c.requests[e.i];
            && n.requests == c.requests[e.i := r.(stage := Over)]
            && n.data == c.data && n.log == c.log && n.account == c.account && n.generation == c.generation
            && n.refresh == if r.scope.generation == c.generation then None else c.refresh
  {}
}
