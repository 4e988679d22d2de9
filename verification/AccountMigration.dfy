/** Accounts of an earlier version merged into the current list. */
module AccountMigration {
  // An empty password stands for none in memory; `hasPassword` says that one is kept in the system's own store.
  datatype Account = Account(user: string, pass: string, hasPassword: bool, isDefault: bool, isDisabled: bool)

  datatype Legacy = Legacy(user: string, pass: string, isDefault: bool, isDisabled: bool)

  function IndexOf(accounts: seq<Account>, user: string): (i: nat)
    ensures i <= |accounts| && (i < |accounts| ==> accounts[i].user == user)
    ensures forall j :: 0 <= j < i ==> accounts[j].user != user
  {
    if accounts == [] || accounts[0].user == user then 0 else 1 + IndexOf(accounts[1..], user)
  }

  predicate HasDefault(accounts: seq<Account>) {
    exists i :: 0 <= i < |accounts| && accounts[i].isDefault
  }

  function Admitted(accounts: seq<Account>, l: Legacy): Account {
    Account(l.user, l.pass, l.pass != "", if HasDefault(accounts) then false else l.isDefault, l.isDisabled)
  }

  predicate Empty(a: Account) {
    !a.hasPassword && a.pass == ""
  }

  // One legacy account: admitted if unknown, otherwise its password fills an empty place.
  function Absorbed(accounts: seq<Account>, l: Legacy): seq<Account> {
    var i := IndexOf(accounts, l.user);
    if i == |accounts| then accounts + [Admitted(accounts, l)]
    else if Empty(accounts[i]) && l.pass != "" then accounts[i := accounts[i].(pass := l.pass)]
    else accounts
  }

  function AllAbsorbed(accounts: seq<Account>, legacy: seq<Legacy>): seq<Account> {
    if legacy == [] then accounts else Absorbed(AllAbsorbed(accounts, legacy[..|legacy| - 1]), legacy[|legacy| - 1])
  }

  // A list without a default account gets its first as the default.
  function Promoted(accounts: seq<Account>): seq<Account> {
    if accounts != [] && !HasDefault(accounts) then accounts[0 := accounts[0].(isDefault := true)] else accounts
  }

  function Merged(current: seq<Account>, legacy: seq<Legacy>): seq<Account> {
    Promoted(AllAbsorbed(current, legacy))
  }

  // The flag tells exactly whether the list differs from the one given.
  method MergeLegacyAccounts(current: seq<Account>, legacy: seq<Legacy>) returns (accounts: seq<Account>, changed: bool)
    ensures accounts == Merged(current, legacy)
    ensures changed <==> accounts != current
  {
    accounts, changed := current, false;
    for k := 0 to |legacy|
      invariant accounts == AllAbsorbed(current, legacy[..k])
      invariant Keeps(current, accounts)
      invariant changed <==> accounts != current
    {
      assert legacy[..k + 1][..k] == legacy[..k];
      var l := legacy[k];
      AbsorbedKeeps(accounts, l);
      KeepsTrans(current, accounts, Absorbed(accounts, l));
      StaysChanged(current, accounts, Absorbed(accounts, l));
      var i := IndexOf(accounts, l.user);
      if i == |accounts| {
        accounts, changed := accounts + [Admitted(accounts, l)], true;
      } else if Empty(accounts[i]) && l.pass != "" {
        accounts, changed := accounts[i := accounts[i].(pass := l.pass)], true;
      }
    }
    assert legacy[..|legacy|] == legacy;
    if accounts != [] && !HasDefault(accounts) {
      assert !accounts[0].isDefault && (current != [] ==> Grown(current[0], accounts[0]));
      accounts, changed := accounts[0 := accounts[0].(isDefault := true)], true;
    }
  }

  // ---------- what is kept ----------

  // The earlier list is the start of the later one, except that an empty place may have got a password.
  ghost predicate Keeps(before: seq<Account>, after: seq<Account>) {
    && |before| <= |after|
    && forall i :: 0 <= i < |before| ==> Grown(before[i], after[i])
  }

  predicate Grown(a: Account, b: Account) {
    b == a || (Empty(a) && b == a.(pass := b.pass))
  }

  lemma KeepsTrans(a: seq<Account>, b: seq<Account>, c: seq<Account>)
    requires Keeps(a, b) && Keeps(b, c)
    ensures Keeps(a, c)
  {
    forall i | 0 <= i < |a| ensures Grown(a[i], c[i]) { assert Grown(a[i], b[i]) && Grown(b[i], c[i]); }
  }

  lemma AbsorbedKeeps(accounts: seq<Account>, l: Legacy)
    ensures Keeps(accounts, Absorbed(accounts, l))
    ensures Absorbed(accounts, l) != accounts
        <==> (var i := IndexOf(accounts, l.user); i == |accounts| || (Empty(accounts[i]) && l.pass != ""))
  {}

  // A list that has changed never changes back.
  lemma StaysChanged(a: seq<Account>, b: seq<Account>, c: seq<Account>)
    requires Keeps(a, b) && Keeps(b, c)
    ensures b != a ==> c != a
  {
    if b != a && |b| == |a| {
      var i :| 0 <= i < |a| && a[i] != b[i];
      assert Grown(a[i], b[i]) && Grown(b[i], c[i]);
    }
  }

  lemma {:induction false} AllAbsorbedKeeps(current: seq<Account>, legacy: seq<Legacy>)
    ensures Keeps(current, AllAbsorbed(current, legacy))
  {
    if legacy != [] {
      var before := AllAbsorbed(current, legacy[..|legacy| - 1]);
      AllAbsorbedKeeps(current, legacy[..|legacy| - 1]);
      AbsorbedKeeps(before, legacy[|legacy| - 1]);
      KeepsTrans(current, before, AllAbsorbed(current, legacy));
    }
  }

  // The current accounts stay in place as a prefix, no password of theirs is overwritten, and nothing else of them
  // changes except that the first account of a list without a default becomes the default.
  lemma CurrentIsKept(current: seq<Account>, legacy: seq<Legacy>, i: nat)
    requires i < |current|
    ensures var r := Merged(current, legacy);
            && |current| <= |r|
            && (Grown(current[i], r[i].(isDefault := current[i].isDefault)))
            && (r[i].isDefault != current[i].isDefault ==> i == 0 && !HasDefault(AllAbsorbed(current, legacy)))
  {
    AllAbsorbedKeeps(current, legacy);
    assert Grown(current[i], AllAbsorbed(current, legacy)[i]);
  }

  // ---------- users ----------

  ghost predicate Distinct(accounts: seq<Account>) {
    forall i, j :: 0 <= i < j < |accounts| ==> accounts[i].user != accounts[j].user
  }

  predicate Known(accounts: seq<Account>, user: string) {
    IndexOf(accounts, user) < |accounts|
  }

  lemma KnownIff(accounts: seq<Account>, user: string)
    ensures Known(accounts, user) <==> exists i :: 0 <= i < |accounts| && accounts[i].user == user
  {}

  lemma {:induction false} IndexStays(before: seq<Account>, after: seq<Account>, user: string)
    requires Keeps(before, after) && Known(before, user)
    ensures IndexOf(after, user) == IndexOf(before, user)
  {
    var i := IndexOf(before, user);
    assert forall j :: 0 <= j <= i ==> Grown(before[j], after[j]);
    assert after[i].user == user;
  }

  lemma {:induction false} PromotedUsers(accounts: seq<Account>, user: string)
    ensures IndexOf(Promoted(accounts), user) == IndexOf(accounts, user)
  {
    var i, j := IndexOf(accounts, user), IndexOf(Promoted(accounts), user);
    assert forall k :: 0 <= k < |accounts| ==> Promoted(accounts)[k].user == accounts[k].user;
  }

  // Nothing is left for this legacy account to give.
  ghost predicate Settled(accounts: seq<Account>, l: Legacy) {
    Known(accounts, l.user) && (Empty(accounts[IndexOf(accounts, l.user)]) ==> l.pass == "")
  }

  lemma SettledStays(before: seq<Account>, after: seq<Account>, l: Legacy)
    requires Keeps(before, after) && Settled(before, l)
    ensures Settled(after, l)
  {
    var i := IndexOf(before, l.user);
    IndexStays(before, after, l.user);
    assert Grown(before[i], after[i]);
  }

  lemma AbsorbedSettles(accounts: seq<Account>, l: Legacy)
    ensures Settled(Absorbed(accounts, l), l)
    ensures Settled(accounts, l) <==> Absorbed(accounts, l) == accounts
  {
    var i := IndexOf(accounts, l.user);
    if i < |accounts| {
      AbsorbedKeeps(accounts, l);
      IndexStays(accounts, Absorbed(accounts, l), l.user);
    } else {
      IndexIs(Absorbed(accounts, l), l.user, i);
    }
  }

  lemma {:induction false} IndexIs(accounts: seq<Account>, user: string, i: nat)
    requires i < |accounts| && accounts[i].user == user && forall j :: 0 <= j < i ==> accounts[j].user != user
    ensures IndexOf(accounts, user) == i
  {
    assert IndexOf(accounts, user) >= |accounts| || accounts[IndexOf(accounts, user)].user == user;
  }

  lemma {:induction false} AllSettled(current: seq<Account>, legacy: seq<Legacy>, k: nat)
    requires k < |legacy|
    ensures Settled(AllAbsorbed(current, legacy), legacy[k])
  {
    var n := |legacy| - 1;
    var before := AllAbsorbed(current, legacy[..n]);
    AbsorbedSettles(before, legacy[n]);
    if k < n {
      AllSettled(current, legacy[..n], k);
      AbsorbedKeeps(before, legacy[n]);
      SettledStays(before, AllAbsorbed(current, legacy), legacy[k]);
    }
  }

  // Every legacy user is in the merged list.
  lemma LegacyIsPresent(current: seq<Account>, legacy: seq<Legacy>, k: nat)
    requires k < |legacy|
    ensures Settled(Merged(current, legacy), legacy[k])
  {
    AllSettled(current, legacy, k);
    PromotedUsers(AllAbsorbed(current, legacy), legacy[k].user);
  }

  ghost predicate FromEither(current: seq<Account>, legacy: seq<Legacy>, user: string) {
    || (exists i :: 0 <= i < |current| && current[i].user == user)
    || (exists k :: 0 <= k < |legacy| && legacy[k].user == user)
  }

  lemma {:induction false} AbsorbedUsers(current: seq<Account>, legacy: seq<Legacy>, j: nat)
    requires j < |AllAbsorbed(current, legacy)|
    ensures FromEither(current, legacy, AllAbsorbed(current, legacy)[j].user)
    decreases |legacy|
  {
    if legacy != [] {
      var n := |legacy| - 1;
      var before := AllAbsorbed(current, legacy[..n]);
      AbsorbedKeeps(before, legacy[n]);
      if j < |before| {
        AbsorbedUsers(current, legacy[..n], j);
        assert Grown(before[j], AllAbsorbed(current, legacy)[j]);
      } else {
        assert legacy[n].user == AllAbsorbed(current, legacy)[j].user;
      }
    }
  }

  lemma {:induction false} AbsorbedDistinct(current: seq<Account>, legacy: seq<Legacy>)
    requires Distinct(current)
    ensures Distinct(AllAbsorbed(current, legacy))
  {
    if legacy != [] { AbsorbedDistinct(current, legacy[..|legacy| - 1]); }
  }

  // Users of the merged list are distinct if the current ones were, and none comes from elsewhere; so with distinct
  // current users every legacy user is there exactly once.
  lemma UsersOnce(current: seq<Account>, legacy: seq<Legacy>, j: nat)
    requires Distinct(current) && j < |Merged(current, legacy)|
    ensures Distinct(Merged(current, legacy)) && FromEither(current, legacy, Merged(current, legacy)[j].user)
  {
    AbsorbedDistinct(current, legacy);
    AbsorbedUsers(current, legacy, j);
  }

  // ---------- the default account ----------

  ghost predicate AtMostOneDefault(accounts: seq<Account>) {
    forall i, j :: 0 <= i < j < |accounts| ==> !(accounts[i].isDefault && accounts[j].isDefault)
  }

  lemma {:induction false} AbsorbedDefaults(current: seq<Account>, legacy: seq<Legacy>)
    requires AtMostOneDefault(current)
    ensures AtMostOneDefault(AllAbsorbed(current, legacy))
  {
    if legacy != [] { AbsorbedDefaults(current, legacy[..|legacy| - 1]); }
  }

  // A merged list that is not empty has exactly one default account.
  lemma OneDefault(current: seq<Account>, legacy: seq<Legacy>)
    requires AtMostOneDefault(current)
    ensures AtMostOneDefault(Merged(current, legacy))
    ensures HasDefault(Merged(current, legacy)) <==> Merged(current, legacy) != []
  {
    AbsorbedDefaults(current, legacy);
    var a := AllAbsorbed(current, legacy);
    if a != [] && !HasDefault(a) { assert Promoted(a)[0].isDefault; }
  }

  // The first entry of a user that the current list does not have.
  ghost predicate IsNew(current: seq<Account>, legacy: seq<Legacy>, k: nat) {
    && k < |legacy| && (forall i :: 0 <= i < |current| ==> current[i].user != legacy[k].user)
    && forall j :: 0 <= j < k ==> legacy[j].user != legacy[k].user
  }

  // The new entry that asks first to be the default.
  ghost predicate AsksFirst(current: seq<Account>, legacy: seq<Legacy>, k: nat) {
    && IsNew(current, legacy, k) && legacy[k].isDefault
    && forall j :: 0 <= j < k && legacy[j].isDefault ==> !IsNew(current, legacy, j)
  }

  ghost predicate NoneAsks(current: seq<Account>, legacy: seq<Legacy>) {
    forall k :: 0 <= k < |legacy| && legacy[k].isDefault ==> !IsNew(current, legacy, k)
  }

  // Who is the default before a missing one is made up for.
  ghost predicate DefaultsOf(current: seq<Account>, legacy: seq<Legacy>, accounts: seq<Account>) {
    && (HasDefault(current) ==>
          forall i :: 0 <= i < |accounts| ==> (accounts[i].isDefault <==> i < |current| && current[i].isDefault))
    && (!HasDefault(current) && NoneAsks(current, legacy) ==> !HasDefault(accounts))
    && (!HasDefault(current) ==>
          forall k: nat :: AsksFirst(current, legacy, k) ==> OnlyDefault(accounts, legacy[k].user))
  }

  ghost predicate OnlyDefault(accounts: seq<Account>, user: string) {
    HasDefault(accounts) && forall i :: 0 <= i < |accounts| ==> (accounts[i].isDefault <==> accounts[i].user == user)
  }

  lemma NewIffUnknown(current: seq<Account>, legacy: seq<Legacy>, n: nat)
    requires n < |legacy|
    ensures IsNew(current, legacy, n) <==> !Known(AllAbsorbed(current, legacy[..n]), legacy[n].user)
  {
    var a, user := AllAbsorbed(current, legacy[..n]), legacy[n].user;
    KnownIff(a, user);
    AllAbsorbedKeeps(current, legacy[..n]);
    if Known(a, user) {
      AbsorbedUsers(current, legacy[..n], IndexOf(a, user));
    } else {
      forall i | 0 <= i < |current| ensures current[i].user != user { assert Grown(current[i], a[i]); }
      forall j | 0 <= j < n ensures legacy[j].user != user {
        AllSettled(current, legacy[..n], j);
        assert legacy[..n][j] == legacy[j];
      }
    }
  }

  lemma NewEarlier(current: seq<Account>, legacy: seq<Legacy>, n: nat, k: nat)
    requires |legacy| == n + 1 && k < n
    ensures IsNew(current, legacy[..n], k) <==> IsNew(current, legacy, k)
  {
    assert forall j :: 0 <= j <= k ==> legacy[..n][j] == legacy[j];
  }

  lemma AsksEarlier(current: seq<Account>, legacy: seq<Legacy>, n: nat)
    requires |legacy| == n + 1
    ensures forall k: nat :: k < n ==> (AsksFirst(current, legacy[..n], k) <==> AsksFirst(current, legacy, k))
    ensures AsksFirst(current, legacy, n)
       <==> NoneAsks(current, legacy[..n]) && IsNew(current, legacy, n) && legacy[n].isDefault
    ensures NoneAsks(current, legacy)
       <==> NoneAsks(current, legacy[..n]) && !(IsNew(current, legacy, n) && legacy[n].isDefault)
  {
    forall k: nat | k < n ensures IsNew(current, legacy[..n], k) <==> IsNew(current, legacy, k) {
      NewEarlier(current, legacy, n, k);
    }
    assert forall k :: 0 <= k < n ==> legacy[..n][k] == legacy[k];
  }

  // An account that gets a password, or nothing, changes no default.
  lemma SameDefaults(before: seq<Account>, after: seq<Account>)
    requires |before| == |after| && Keeps(before, after)
    ensures HasDefault(after) <==> HasDefault(before)
    ensures forall i :: 0 <= i < |before| ==>
              after[i].isDefault == before[i].isDefault && after[i].user == before[i].user
    ensures forall user :: OnlyDefault(before, user) ==> OnlyDefault(after, user)
  {
    forall i | 0 <= i < |before|
      ensures after[i].isDefault == before[i].isDefault && after[i].user == before[i].user
    {
      assert Grown(before[i], after[i]);
    }
  }

  // A new account is the default exactly if it asks to be and there is none.
  lemma DefaultsWithNew(before: seq<Account>, l: Legacy)
    requires forall i :: 0 <= i < |before| ==> before[i].user != l.user
    ensures var after := before + [Admitted(before, l)];
            && (HasDefault(after) <==> HasDefault(before) || l.isDefault)
            && (!HasDefault(before) && l.isDefault ==> OnlyDefault(after, l.user))
            && forall user :: OnlyDefault(before, user) && user != l.user ==> OnlyDefault(after, user)
  {
    var after := before + [Admitted(before, l)];
    assert after[|before|] == Admitted(before, l);
    assert forall i :: 0 <= i < |before| ==> after[i] == before[i];
  }

  lemma DefaultsStep(current: seq<Account>, legacy: seq<Legacy>, n: nat, before: seq<Account>)
    requires |legacy| == n + 1 && DefaultsOf(current, legacy[..n], before) && Keeps(current, before)
    requires IsNew(current, legacy, n) <==> !Known(before, legacy[n].user)
    ensures DefaultsOf(current, legacy, Absorbed(before, legacy[n]))
  {
    AsksEarlier(current, legacy, n);
    KnownIff(before, legacy[n].user);
    if IsNew(current, legacy, n) {
      DefaultsWithNew(before, legacy[n]);
    } else {
      AbsorbedKeeps(before, legacy[n]);
      SameDefaults(before, Absorbed(before, legacy[n]));
    }
  }

  lemma {:induction false} AbsorbedDefaultsAre(current: seq<Account>, legacy: seq<Legacy>)
    ensures DefaultsOf(current, legacy, AllAbsorbed(current, legacy))
  {
    if legacy != [] {
      var n := |legacy| - 1;
      AbsorbedDefaultsAre(current, legacy[..n]);
      NewIffUnknown(current, legacy, n);
      AllAbsorbedKeeps(current, legacy[..n]);
      DefaultsStep(current, legacy, n, AllAbsorbed(current, legacy[..n]));
    }
  }

  // The default account after the merge: the one there was; without one, the first new entry that asks for it; if
  // none asks, the first account of the list.
  lemma DefaultIs(current: seq<Account>, legacy: seq<Legacy>, i: nat)
    requires i < |Merged(current, legacy)|
    ensures var r := Merged(current, legacy);
            && (HasDefault(current) ==> (r[i].isDefault <==> i < |current| && current[i].isDefault))
            && (!HasDefault(current) && NoneAsks(current, legacy) ==> (r[i].isDefault <==> i == 0))
            && (!HasDefault(current) ==> forall k: nat :: AsksFirst(current, legacy, k) ==>
                  (r[i].isDefault <==> r[i].user == legacy[k].user))
  {
    var a := AllAbsorbed(current, legacy);
    AbsorbedDefaultsAre(current, legacy);
    AllAbsorbedKeeps(current, legacy);
    if HasDefault(current) {
      var j :| 0 <= j < |current| && current[j].isDefault;
      assert a[j].isDefault;
    }
  }

  // A user's first entry, if the user is new, says what the new account is like; its password is the first the list
  // has for the user.
  lemma NewAccountIs(current: seq<Account>, legacy: seq<Legacy>, k: nat)
    requires IsNew(current, legacy, k)
    ensures var l, r := legacy[k], Merged(current, legacy);
            && Known(r, l.user)
            && var a := r[IndexOf(r, l.user)];
               && a.pass == FirstPassword(legacy, l.user) && a.isDisabled == l.isDisabled
               && (a.hasPassword <==> l.pass != "")
  {
    var user := legacy[k].user;
    AllFilled(current, legacy, user);
    KnownIff(current, user);
    NewAbsorbed(current, legacy, k);
    PromotedUsers(AllAbsorbed(current, legacy), user);
  }

  lemma {:induction false} NewAbsorbed(current: seq<Account>, legacy: seq<Legacy>, k: nat)
    requires IsNew(current, legacy, k)
    ensures var l, r := legacy[k], AllAbsorbed(current, legacy);
            && Known(r, l.user)
            && var a := r[IndexOf(r, l.user)]; a.isDisabled == l.isDisabled && (a.hasPassword <==> l.pass != "")
    decreases |legacy|
  {
    var n := |legacy| - 1;
    var before := AllAbsorbed(current, legacy[..n]);
    OwnAbsorbed(before, legacy[n]);
    if k == n {
      NewIffUnknown(current, legacy, n);
    } else {
      NewEarlier(current, legacy, n, k);
      NewAbsorbed(current, legacy[..n], k);
      if legacy[n].user != legacy[k].user { OthersStay(before, legacy[n], legacy[k].user); }
    }
  }

  // ---------- merging again ----------

  lemma {:induction false} SettledIsAbsorbed(accounts: seq<Account>, legacy: seq<Legacy>)
    requires forall k :: 0 <= k < |legacy| ==> Settled(accounts, legacy[k])
    ensures AllAbsorbed(accounts, legacy) == accounts
  {
    if legacy != [] {
      var n := |legacy| - 1;
      assert forall k :: 0 <= k < n ==> legacy[..n][k] == legacy[k];
      SettledIsAbsorbed(accounts, legacy[..n]);
      AbsorbedSettles(accounts, legacy[n]);
    }
  }

  // Merging the same legacy accounts again changes nothing.
  lemma MergeTwice(current: seq<Account>, legacy: seq<Legacy>)
    ensures Merged(Merged(current, legacy), legacy) == Merged(current, legacy)
  {
    var r := Merged(current, legacy);
    forall k | 0 <= k < |legacy| ensures Settled(r, legacy[k]) { LegacyIsPresent(current, legacy, k); }
    SettledIsAbsorbed(r, legacy);
    var a := AllAbsorbed(current, legacy);
    if a != [] && !HasDefault(a) { assert r[0].isDefault; }
  }

  // ---------- passwords ----------

  // The conflict the program warns about before it merges.
  predicate Conflicts(current: seq<Account>, l: Legacy) {
    var i := IndexOf(current, l.user);
    && l.pass != "" && i < |current|
    && (current[i].hasPassword || (current[i].pass != "" && current[i].pass != l.pass))
  }

  ghost predicate HasConflict(current: seq<Account>, legacy: seq<Legacy>) {
    exists k :: 0 <= k < |legacy| && Conflicts(current, legacy[k])
  }

  // The account of that user carries this password.
  ghost predicate Carries(accounts: seq<Account>, user: string, pass: string) {
    Known(accounts, user) && accounts[IndexOf(accounts, user)].pass == pass
  }

  // The first password, not empty, that the legacy list has for a user.
  function FirstPassword(legacy: seq<Legacy>, user: string): string {
    if legacy == [] then "" else
      var n := |legacy| - 1;
      var earlier := FirstPassword(legacy[..n], user);
      if earlier == "" && legacy[n].user == user then legacy[n].pass else earlier
  }

  lemma {:induction false} FirstPasswordIs(legacy: seq<Legacy>, user: string, k: nat)
    requires k < |legacy| && legacy[k].user == user && legacy[k].pass != ""
    requires forall j :: 0 <= j < k && legacy[j].user == user ==> legacy[j].pass == ""
    ensures FirstPassword(legacy, user) == legacy[k].pass
    decreases |legacy|
  {
    var n := |legacy| - 1;
    if k < n {
      FirstPasswordIs(legacy[..n], user, k);
    } else {
      NoPassword(legacy[..n], user);
    }
  }

  lemma {:induction false} NoPassword(legacy: seq<Legacy>, user: string)
    requires forall j :: 0 <= j < |legacy| && legacy[j].user == user ==> legacy[j].pass == ""
    ensures FirstPassword(legacy, user) == ""
  {
    if legacy != [] { NoPassword(legacy[..|legacy| - 1], user); }
  }

  // Whether the account of that user, if there is one, has no password yet.
  predicate Vacant(accounts: seq<Account>, user: string) {
    Known(accounts, user) ==> Empty(accounts[IndexOf(accounts, user)])
  }

  // The state of one user's account in terms of the list before and the legacy password that came first.
  ghost predicate FilledBy(current: seq<Account>, after: seq<Account>, user: string, pass: string) {
    && (Known(current, user) ==> Known(after, user))
    && (!Vacant(current, user) ==> after[IndexOf(after, user)] == current[IndexOf(current, user)])
    && (Vacant(current, user) && Known(after, user) ==> after[IndexOf(after, user)].pass == pass)
    && (Vacant(current, user) && Known(after, user) ==> (after[IndexOf(after, user)].hasPassword ==> pass != ""))
    && (Vacant(current, user) && !Known(after, user) ==> pass == "")
  }

  // An account of another user is not touched.
  lemma OthersStay(accounts: seq<Account>, l: Legacy, user: string)
    requires user != l.user
    ensures var after := Absorbed(accounts, l);
            && (Known(after, user) <==> Known(accounts, user))
            && (Known(after, user) ==> after[IndexOf(after, user)] == accounts[IndexOf(accounts, user)])
  {
    var after := Absorbed(accounts, l);
    AbsorbedKeeps(accounts, l);
    if Known(accounts, user) {
      IndexStays(accounts, after, user);
    } else {
      KnownIff(accounts, user);
      KnownIff(after, user);
    }
  }

  lemma OwnAbsorbed(accounts: seq<Account>, l: Legacy)
    ensures var after, i := Absorbed(accounts, l), IndexOf(accounts, l.user);
            && Known(after, l.user) && IndexOf(after, l.user) == i
            && (i == |accounts| ==> after[i].pass == l.pass && (after[i].hasPassword <==> l.pass != ""))
            && (i == |accounts| ==> after[i].isDisabled == l.isDisabled)
            && (i < |accounts| ==> after[i] == accounts[i].(pass := after[i].pass))
            && (i < |accounts| && !Empty(accounts[i]) ==> after[i] == accounts[i])
            && (i < |accounts| && Empty(accounts[i]) ==> after[i].pass == l.pass && !after[i].hasPassword)
  {
    var i := IndexOf(accounts, l.user);
    if i < |accounts| {
      AbsorbedKeeps(accounts, l);
      IndexStays(accounts, Absorbed(accounts, l), l.user);
    } else {
      IndexIs(Absorbed(accounts, l), l.user, i);
    }
  }

  lemma FilledStep(current: seq<Account>, before: seq<Account>, l: Legacy, user: string, pass: string)
    requires FilledBy(current, before, user, pass)
    ensures FilledBy(current, Absorbed(before, l), user, if pass == "" && l.user == user then l.pass else pass)
  {
    if l.user == user { OwnAbsorbed(before, l); } else { OthersStay(before, l, user); }
  }

  lemma {:induction false} AllFilled(current: seq<Account>, legacy: seq<Legacy>, user: string)
    ensures FilledBy(current, AllAbsorbed(current, legacy), user, FirstPassword(legacy, user))
  {
    if legacy != [] {
      var n := |legacy| - 1;
      AllFilled(current, legacy[..n], user);
      FilledStep(current, AllAbsorbed(current, legacy[..n]), legacy[n], user, FirstPassword(legacy[..n], user));
    }
  }

  // Whatever the legacy list, repeated users included: a legacy password is carried over exactly if the account had
  // it already, or had none and this is the password that came first for its user.
  lemma PasswordsSurvive(current: seq<Account>, legacy: seq<Legacy>, k: nat)
    requires k < |legacy| && legacy[k].pass != ""
    ensures var l := legacy[k];
            Carries(Merged(current, legacy), l.user, l.pass)
            <==> (if Vacant(current, l.user) then FirstPassword(legacy, l.user) == l.pass
                  else Carries(current, l.user, l.pass))
  {
    AllFilled(current, legacy, legacy[k].user);
    AllSettled(current, legacy, k);
    PromotedUsers(AllAbsorbed(current, legacy), legacy[k].user);
  }

  // A conflict is reported for an entry exactly if it has a password, and the account of its user either keeps one in
  // the system's store or has one that the merge will not give up for it.
  lemma ConflictIff(current: seq<Account>, legacy: seq<Legacy>, k: nat)
    requires k < |legacy|
    ensures var l := legacy[k];
            Conflicts(current, l)
            <==> l.pass != "" && !Vacant(current, l.user)
                 && (current[IndexOf(current, l.user)].hasPassword || !Carries(Merged(current, legacy), l.user, l.pass))
  {
    if legacy[k].pass != "" { PasswordsSurvive(current, legacy, k); }
  }

  // Without a reported conflict a password is lost exactly if the account had none and the password of another entry
  // for the same user came first.
  lemma LostWithoutConflictIff(current: seq<Account>, legacy: seq<Legacy>, k: nat)
    requires k < |legacy| && legacy[k].pass != "" && !HasConflict(current, legacy)
    ensures !Carries(Merged(current, legacy), legacy[k].user, legacy[k].pass)
       <==> Vacant(current, legacy[k].user) && FirstPassword(legacy, legacy[k].user) != legacy[k].pass
  {
    PasswordsSurvive(current, legacy, k);
    assert !Conflicts(current, legacy[k]);
  }

  // For instance, of two passwords for one new user the second is lost, and no conflict is reported.
  lemma DuplicateLosesPassword()
    ensures var first, second := Legacy("a", "1", true, false), Legacy("a", "2", false, false);
            !HasConflict([], [first, second]) && !Carries(Merged([], [first, second]), "a", "2")
  {
    var legacy := [Legacy("a", "1", true, false), Legacy("a", "2", false, false)];
    FirstPasswordIs(legacy, "a", 0);
    LostWithoutConflictIff([], legacy, 1);
  }
}
