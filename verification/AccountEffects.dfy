/** What each account operation leaves at every place of the document (src/accounts/mod.rs). */
module AccountEffects {
  import opened Fingerprint
  import opened Results
  import opened Accounts

  /** The account with this id is at place `k`. */
  predicate At(d: Doc, id: Id, k: nat) {
    k < |d.accounts| && d.accounts[k].id == id
  }

  predicate Missing(d: Doc, id: Id) {
    forall i :: 0 <= i < |d.accounts| ==> d.accounts[i].id != id
  }

  // ------------------------------------------------------------------ labels

  /** A label is what stands between the white space around a name. */
  lemma {:induction false} TrimmedIs(s: string) returns (i: nat, j: nat)
    ensures i <= j <= |s| && TrimEnd(TrimStart(s)) == s[i..j]
    ensures (forall k :: 0 <= k < i ==> IsWhitespace(s[k])) && (forall k :: j <= k < |s| ==> IsWhitespace(s[k]))
    ensures i < j ==> !IsWhitespace(s[i]) && !IsWhitespace(s[j - 1])
  {
    if s != "" && IsWhitespace(s[0]) {
      var a, b := TrimmedIs(s[1..]);
      i, j := a + 1, b + 1;
      assert s[i..j] == s[1..][a..b];
    } else {
      i := 0;
      j := EndTrimmedIs(s);
    }
  }

  lemma {:induction false} EndTrimmedIs(s: string) returns (j: nat)
    ensures j <= |s| && TrimEnd(s) == s[..j]
    ensures forall k :: j <= k < |s| ==> IsWhitespace(s[k])
    ensures j > 0 ==> !IsWhitespace(s[j - 1])
  {
    if s != "" && IsWhitespace(s[|s| - 1]) {
      j := EndTrimmedIs(s[..|s| - 1]);
      assert s[..|s| - 1][..j] == s[..j];
    } else {
      j := |s|;
    }
  }

  /** The label is accepted exactly when one to eighty characters are left and none is a control character. */
  lemma LabelIs(name: string) returns (i: nat, j: nat)
    ensures i <= j <= |name|
    ensures (forall k :: 0 <= k < i ==> IsWhitespace(name[k]))
    ensures (forall k :: j <= k < |name| ==> IsWhitespace(name[k]))
    ensures i < j ==> !IsWhitespace(name[i]) && !IsWhitespace(name[j - 1])
    ensures ValidateLabel(name) ==
            if 1 <= j - i <= 80 && (forall k :: i <= k < j ==> !IsControl(name[k])) then Success(name[i..j])
            else Failure(Label)
  {
    i, j := TrimmedIs(name);
    assert forall k :: i <= k < j ==> name[i..j][k - i] == name[k];
    assert forall c :: c in name[i..j] ==> exists k :: i <= k < j && name[k] == c;
  }

  // ------------------------------------------------------------------ add

  /** Somebody else's account of the provider has the name or the identity. */
  predicate Clashes(d: Doc, provider: string, name: string, identity: string) {
    exists i :: 0 <= i < |d.accounts| && d.accounts[i].provider == provider
                && (d.accounts[i].name == name || d.accounts[i].identity == identity)
  }

  /** The document version a new credential asks for; zero if any will do. */
  function VersionFor(c: Credential): nat {
    match c
    case Fenced(Factory, _, _, _, _, _) => 5
    case Fenced(Claude, _, _, _, _, _) => 6
    case Fenced(Kiro, _, _, _, _, _) => 7
    case Fenced(Antigravity, _, _, _, _, _) => 8
    case CopilotOAuth(_, _) => 6
    case AmpNative(_, _) => 3
    case Native(_) => 3
    case _ => 0
  }

  function OwnersWith(d: Doc, c: Credential, id: Id): map<OwnerKey, Id> {
    if c.Fenced? && !c.kind.Grok? then d.owners[KeyOf(c) := id] else d.owners
  }

  function AtLeast(version: nat, level: nat): nat {
    if version < level then level else version
  }

  /**
    An add is refused for its label, or for a name, identity or token that is taken; otherwise it
    appends one enabled account, which is active exactly if its provider had no active one.
   */
  lemma AddEffect(d: Doc, provider: string, name: string, identity: string, c: Credential, id: Id)
    ensures match ValidateLabel(name)
      case Failure(_) => Perform(d, OpAdd(provider, name, identity, c, id)) == Failure(Label)
      case Success(trimmed) =>
        Perform(d, OpAdd(provider, name, identity, c, id)) ==
        if Clashes(d, provider, trimmed, identity) || Taken(d, id, c) then Failure(Duplicate)
        else
          Success(Doc(
            AtLeast(d.version, VersionFor(c)),
            d.accounts + [Account(id, provider, trimmed, identity, !HasActive(d.accounts, provider), true, c)],
            d.receipts,
            OwnersWith(d, c, id)))
  {
    hide Taken;
    if ValidateLabel(name).Success? {
      var trimmed := ValidateLabel(name).value;
      assert Clashes(d, provider, trimmed, identity) <==>
             NameTaken(d.accounts, provider, trimmed) || IdentityTaken(d.accounts, provider, identity);
    }
  }

  // ------------------------------------------------------------------ select

  /** Selecting makes the account, of all those of its provider, the active one, and changes nothing else. */
  lemma SelectEffect(d: Doc, id: Id, k: nat)
    requires DistinctIds(d.accounts) && At(d, id, k)
    ensures Perform(d, OpSelect(id)).Success?
    ensures var next := Perform(d, OpSelect(id)).value;
      && next == Doc(d.version, next.accounts, d.receipts, d.owners) && |next.accounts| == |d.accounts|
      && forall i :: 0 <= i < |d.accounts| ==>
           next.accounts[i] == d.accounts[i].(active :=
             if d.accounts[i].provider == d.accounts[k].provider then i == k else d.accounts[i].active)
  {
    FindIs(d.accounts, k);
  }

  lemma MissingFails(d: Doc, id: Id, name: string)
    requires Missing(d, id)
    ensures Perform(d, OpSelect(id)) == Failure(NotFound) && Perform(d, OpRemove(id)) == Failure(NotFound)
    ensures Perform(d, OpRename(id, name)) == if ValidateLabel(name).Success? then Failure(NotFound) else Failure(Label)
  {
  }

  // ------------------------------------------------------------------ remove

  /** The account at place `i` once the one at `k` is gone. */
  function Left(d: Doc, k: nat, i: nat): Account
    requires k < |d.accounts| && i < |d.accounts| - 1
  {
    d.accounts[if i < k then i else i + 1]
  }

  /** The provider's first account once the one at `k` is gone. */
  predicate FirstLeft(d: Doc, k: nat, i: nat)
    requires k < |d.accounts| && i < |d.accounts| - 1
  {
    && Left(d, k, i).provider == d.accounts[k].provider
    && forall j :: 0 <= j < i ==> Left(d, k, j).provider != d.accounts[k].provider
  }

  /**
    Removing takes away that one account; if it was active its provider's first remaining account takes
    over; its token stays reserved for it, and the others keep their places and everything they hold.
   */
  lemma RemoveEffect(d: Doc, id: Id, k: nat)
    requires DistinctIds(d.accounts) && At(d, id, k)
    ensures Perform(d, OpRemove(id)).Success? <==> !Taken(d, id, d.accounts[k].credential)
    ensures Perform(d, OpRemove(id)).Failure? ==> Perform(d, OpRemove(id)) == Failure(Duplicate)
    ensures Perform(d, OpRemove(id)).Success? ==>
      var next := Perform(d, OpRemove(id)).value;
      && next.receipts == d.receipts && next.owners == OwnersWith(d, d.accounts[k].credential, id)
      && next.version == AtLeast(d.version, if d.accounts[k].credential.Fenced? then
                                              VersionFor(d.accounts[k].credential) else 0)
      && |next.accounts| == |d.accounts| - 1
      && forall i :: 0 <= i < |d.accounts| - 1 ==>
           next.accounts[i] == Left(d, k, i).(active :=
             Left(d, k, i).active || (d.accounts[k].active && FirstLeft(d, k, i)))
  {
    hide Taken, KeyOf;
    FindIs(d.accounts, k);
    if Perform(d, OpRemove(id)).Success? {
      var next := Perform(d, OpRemove(id)).value;
      assert next.accounts == Without(d.accounts, k);
      RemovedPlaces(d, k);
    }
  }

  lemma RemovedPlaces(d: Doc, k: nat)
    requires k < |d.accounts|
    ensures |Without(d.accounts, k)| == |d.accounts| - 1
    ensures forall i :: 0 <= i < |d.accounts| - 1 ==>
      Without(d.accounts, k)[i] == Left(d, k, i).(active :=
        Left(d, k, i).active || (d.accounts[k].active && FirstLeft(d, k, i)))
  {
    var provider := d.accounts[k].provider;
    var rest := d.accounts[..k] + d.accounts[k + 1..];
    assert forall i :: 0 <= i < |rest| ==> rest[i] == Left(d, k, i);
    var next := FindProvider(rest, provider);
    forall i | 0 <= i < |rest| ensures FirstLeft(d, k, i) <==> i == next {
      if next < i {
        assert Left(d, k, next).provider == provider;
      }
    }
  }

  // ------------------------------------------------------------------ rename

  predicate TakenElsewhere(d: Doc, k: nat, name: string)
    requires k < |d.accounts|
  {
    exists i :: 0 <= i < |d.accounts| && i != k && d.accounts[i].provider == d.accounts[k].provider
                && d.accounts[i].name == name
  }

  lemma TakenElsewhereIs(d: Doc, k: nat, name: string)
    requires DistinctIds(d.accounts) && k < |d.accounts|
    ensures NameTakenByOther(d.accounts, d.accounts[k].provider, name, d.accounts[k].id) <==> TakenElsewhere(d, k, name)
  {
  }

  /** Renaming stores the trimmed name and changes nothing else. */
  lemma RenameEffect(d: Doc, id: Id, k: nat, name: string)
    requires DistinctIds(d.accounts) && At(d, id, k)
    ensures Perform(d, OpRename(id, name)) ==
      match ValidateLabel(name)
      case Failure(_) => Failure(Label)
      case Success(trimmed) =>
        if TakenElsewhere(d, k, trimmed) then Failure(Duplicate)
        else Success(Doc(d.version, d.accounts[k := d.accounts[k].(name := trimmed)], d.receipts, d.owners))
  {
    hide NameTakenByOther, TakenElsewhere;
    FindIs(d.accounts, k);
    if ValidateLabel(name).Success? {
      TakenElsewhereIs(d, k, ValidateLabel(name).value);
    }
  }

  // ------------------------------------------------------------------ patch

  /** What a patch stores at place `i` when the account it is for is at place `k`. */
  function Patched(d: Doc, k: nat, i: nat, name: string, active: Option<bool>, enabled: Option<bool>): Account
    requires k < |d.accounts| && i < |d.accounts|
  {
    var a := d.accounts[i];
    var selects := active == Some(true) && a.provider == d.accounts[k].provider;
    if i != k then a.(active := a.active && !selects)
    else
      Account(a.id, a.provider, name, a.identity, a.active || selects,
              if enabled.Some? then enabled.value else a.enabled,
              if enabled.Some? && a.credential.AmpNative? then a.credential.(sourceEnabled := enabled.value)
              else a.credential)
  }

  /**
    A patch of a stored account fails if it asks to make it inactive, or for a bad or taken name;
    otherwise it stores the trimmed name, the flag and the selection it asks for, and nothing else.
   */
  lemma PatchEffect(d: Doc, id: Id, k: nat, name: Option<string>, active: Option<bool>, enabled: Option<bool>)
    requires DistinctIds(d.accounts) && At(d, id, k)
    ensures var result := Perform(d, OpPatch(id, name, active, enabled));
      if active == Some(false) then result == Failure(Unsupported)
      else if name.Some? && ValidateLabel(name.value).Failure? then result == Failure(Label)
      else
        var stored := if name.Some? then ValidateLabel(name.value).value else d.accounts[k].name;
        if name.Some? && TakenElsewhere(d, k, stored) then result == Failure(Duplicate)
        else
          && result.Success?
          && result.value == Doc(if enabled.Some? then AtLeast(d.version, 4) else d.version,
                                 result.value.accounts, d.receipts, d.owners)
          && |result.value.accounts| == |d.accounts|
          && forall i :: 0 <= i < |d.accounts| ==>
               result.value.accounts[i] == Patched(d, k, i, stored, active, enabled)
  {
    hide Perform, TakenElsewhere, WithName, Switched, ValidateLabel, Patched;
    var d1 := Switched(d, k, enabled);
    SwitchEffect(d, id, k, enabled);
    PatchIs(d, id, k, name, active, enabled);
    if active != Some(false) {
      if name.Some? {
        RenameEffect(d1, id, k, name.value);
        if ValidateLabel(name.value).Success? {
          SwitchKeepsNames(d, k, enabled, ValidateLabel(name.value).value);
        }
      }
      if name.None? || (ValidateLabel(name.value).Success? && !TakenElsewhere(d, k, ValidateLabel(name.value).value)) {
        var stored := if name.Some? then ValidateLabel(name.value).value else d.accounts[k].name;
        var d2 := WithName(d1, k, stored);
        NameEffect(d, id, k, enabled, stored);
        SelectEffect(d2, id, k);
        SelectStays(d2, id);
        if active == Some(true) {
          SelectedPlaces(d, k, stored, enabled, Perform(d2, OpSelect(id)).value);
        } else {
          ThreeWays(active);
          NamedPlaces(d, k, stored, enabled);
        }
      }
    }
  }

  /** A patch is its parts, one after the other. */
  lemma PatchIs(d: Doc, id: Id, k: nat, name: Option<string>, active: Option<bool>, enabled: Option<bool>)
    requires DistinctIds(d.accounts) && At(d, id, k)
    ensures var d1 := Switched(d, k, enabled);
      Perform(d, OpPatch(id, name, active, enabled)) ==
      if active == Some(false) then Failure(Unsupported)
      else
        match (if name.Some? then Perform(d1, OpRename(id, name.value)) else Success(d1))
        case Failure(error) => Failure(error)
        case Success(d2) =>
          match (if active.Some? then Perform(d2, OpSelect(id)) else Success(d2))
          case Failure(error) => Failure(error)
          case Success(d3) => if Has(d3, id) then Success(d3) else Failure(NotFound)
  {
    hide Rename, Select, SetEnabled, Switched;
    SwitchEffect(d, id, k, enabled);
    if enabled.None? {
      UnswitchedIs(d, k, enabled);
    }
    ThreeWays(active);
  }

  lemma ThreeWays(wish: Option<bool>)
    ensures wish == None || wish == Some(true) || wish == Some(false)
  {
    if wish.Some? {
      if wish.value {
        assert wish == Some(true);
      } else {
        assert wish == Some(false);
      }
    }
  }

  lemma UnswitchedIs(d: Doc, k: nat, enabled: Option<bool>)
    requires k < |d.accounts| && enabled.None?
    ensures Switched(d, k, enabled) == d
  {
  }

  lemma SelectStays(d: Doc, id: Id)
    requires Has(d, id)
    ensures Perform(d, OpSelect(id)).Success? && Has(Perform(d, OpSelect(id)).value, id)
  {
    SelectHas(d, id);
  }

  /** The document after the first part of a patch, and after the second. */
  function Switched(d: Doc, k: nat, enabled: Option<bool>): Doc
    requires k < |d.accounts|
  {
    if enabled.None? then d
    else
      d.(version := AtLeast(d.version, 4), accounts := d.accounts[k := WithEnabled(d.accounts[k], enabled.value)])
  }

  function WithName(d: Doc, k: nat, name: string): Doc
    requires k < |d.accounts|
  {
    d.(accounts := d.accounts[k := d.accounts[k].(name := name)])
  }

  lemma SwitchEffect(d: Doc, id: Id, k: nat, enabled: Option<bool>)
    requires DistinctIds(d.accounts) && At(d, id, k)
    ensures Has(d, id) && (enabled.Some? ==> SetEnabled(d, id, enabled.value) == Switched(d, k, enabled))
    ensures var d1 := Switched(d, k, enabled); DistinctIds(d1.accounts) && At(d1, id, k) && Has(d1, id)
  {
    FindIs(d.accounts, k);
    FindIs(Switched(d, k, enabled).accounts, k);
  }

  lemma NameEffect(d: Doc, id: Id, k: nat, enabled: Option<bool>, name: string)
    requires DistinctIds(d.accounts) && At(d, id, k)
    ensures var d1 := Switched(d, k, enabled);
      var d2 := WithName(d1, k, name);
      && DistinctIds(d2.accounts) && At(d2, id, k) && Has(d2, id)
      && (name == d.accounts[k].name ==> d2 == d1)
      && d2 == Doc(d1.version, d1.accounts[k := d1.accounts[k].(name := name)], d1.receipts, d1.owners)
  {
    var d1 := Switched(d, k, enabled);
    FindIs(WithName(d1, k, name).accounts, k);
    if name == d.accounts[k].name {
      assert d1.accounts[k := d1.accounts[k].(name := name)] == d1.accounts;
    }
  }

  lemma SwitchKeepsNames(d: Doc, k: nat, enabled: Option<bool>, name: string)
    requires k < |d.accounts|
    ensures TakenElsewhere(Switched(d, k, enabled), k, name) <==> TakenElsewhere(d, k, name)
  {
    var d1 := Switched(d, k, enabled);
    forall i | 0 <= i < |d.accounts|
      ensures d1.accounts[i].name == d.accounts[i].name && d1.accounts[i].provider == d.accounts[i].provider
    {
    }
  }

  lemma NamedPlaces(d: Doc, k: nat, name: string, enabled: Option<bool>)
    requires k < |d.accounts|
    ensures var next := WithName(Switched(d, k, enabled), k, name);
      && next == Doc(if enabled.Some? then AtLeast(d.version, 4) else d.version, next.accounts, d.receipts, d.owners)
      && |next.accounts| == |d.accounts|
      && forall i :: 0 <= i < |d.accounts| ==> next.accounts[i] == Patched(d, k, i, name, None, enabled)
  {
  }

  lemma {:induction false} SelectedPlaces(d: Doc, k: nat, name: string, enabled: Option<bool>, next: Doc)
    requires k < |d.accounts|
    requires var d2 := WithName(Switched(d, k, enabled), k, name);
      && next == Doc(d2.version, next.accounts, d2.receipts, d2.owners) && |next.accounts| == |d2.accounts|
      && forall i :: 0 <= i < |d2.accounts| ==>
           next.accounts[i] == d2.accounts[i].(active :=
             if d2.accounts[i].provider == d2.accounts[k].provider then i == k else d2.accounts[i].active)
    ensures next == Doc(if enabled.Some? then AtLeast(d.version, 4) else d.version, next.accounts, d.receipts, d.owners)
    ensures |next.accounts| == |d.accounts|
    ensures forall i :: 0 <= i < |d.accounts| ==> next.accounts[i] == Patched(d, k, i, name, Some(true), enabled)
  {
    var d2 := WithName(Switched(d, k, enabled), k, name);
    NamedPlaces(d, k, name, enabled);
    hide WithName, Switched;
    forall i | 0 <= i < |d.accounts| ensures next.accounts[i] == Patched(d, k, i, name, Some(true), enabled) {
      assert d2.accounts[i] == Patched(d, k, i, name, None, enabled);
      assert d2.accounts[k] == Patched(d, k, k, name, None, enabled);
    }
  }

  /** A patch of an account that is not stored fails, as an unknown one unless something else is wrong first. */
  lemma PatchMissing(d: Doc, id: Id, name: Option<string>, active: Option<bool>, enabled: Option<bool>)
    requires Missing(d, id)
    ensures Perform(d, OpPatch(id, name, active, enabled)) ==
            if enabled.Some? then Failure(NotFound)
            else if active == Some(false) then Failure(Unsupported)
            else if name.Some? && ValidateLabel(name.value).Failure? then Failure(Label)
            else Failure(NotFound)
  {
  }
}
