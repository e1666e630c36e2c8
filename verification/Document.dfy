/** The in-memory document a transaction changes in place, proved against `Accounts`. */
module Documents {
  import opened Fingerprint
  import opened Results
  import opened Accounts

  class Document {
    var version: nat
    var accounts: seq<Account>
    var receipts: map<Digest, Receipt>
    var owners: map<OwnerKey, Id>

    function Value(): Doc
      reads this
    {
      Doc(version, accounts, receipts, owners)
    }

    constructor Empty()
      ensures Value() == EMPTY
    {
      version, accounts, receipts, owners := 1, [], map[], map[];
    }

    /** The document a transaction decodes from the vault. */
    constructor (d: Doc)
      ensures Value() == d
    {
      version, accounts, receipts, owners := d.version, d.accounts, d.receipts, d.owners;
    }

    method Position(id: Id) returns (index: nat)
      ensures index == Find(accounts, id)
    {
      index := 0;
      while index < |accounts| && accounts[index].id != id
        invariant index <= |accounts|
        invariant forall j :: 0 <= j < index ==> accounts[j].id != id
      {
        index := index + 1;
      }
      assert index <= Find(accounts, id);
    }

    method ReserveRefresh(id: Id, credential: Credential) returns (error: Option<AccountError>)
      modifies this
      ensures Taken(old(Value()), id, credential) ==> error == Some(Duplicate) && Value() == old(Value())
      ensures !Taken(old(Value()), id, credential) ==>
        error == None && Value() == Reserve(old(Value()), id, credential)
    {
      error := None;
      if credential.HasLineage() {
        if Taken(Value(), id, credential) {
          error := Some(Duplicate);
          return;
        }
        owners := owners[KeyOf(credential) := id];
        version := Max(version, OwnerLevel(credential.kind));
      }
    }

    /** `id` is the random string the call draws. */
    method AddAccount(provider: string, name: string, identity: string, credential: Credential, id: Id)
      returns (error: Option<AccountError>)
      modifies this
      ensures match Add(old(Value()), provider, name, identity, credential, id)
        case Success(next) => error == None && Value() == next
        case Failure(e) => error == Some(e) && Value() == old(Value())
    {
      var trimmed := ValidateLabel(name);
      if trimmed.Failure? {
        return Some(trimmed.error);
      }
      if NameTaken(accounts, provider, trimmed.value) || IdentityTaken(accounts, provider, identity) {
        return Some(Duplicate);
      }
      error := ReserveRefresh(id, credential);
      if error.Some? {
        return;
      }
      var active := !HasActive(accounts, provider);
      if credential.AmpNative? || credential.Native? {
        version := Max(version, 3);
      }
      if credential.CopilotOAuth? {
        version := Max(version, 6);
      }
      accounts := accounts + [Account(id, provider, trimmed.value, identity, active, true, credential)];
    }

    method SelectAccount(id: Id) returns (error: Option<AccountError>)
      modifies this
      ensures match Select(old(Value()), id)
        case Success(next) => error == None && Value() == next
        case Failure(e) => error == Some(e) && Value() == old(Value())
    {
      var index := Position(id);
      if index == |accounts| {
        return Some(NotFound);
      }
      var provider := accounts[index].provider;
      var all := accounts;
      var i := 0;
      while i < |all|
        invariant i <= |all| && |accounts| == |all|
        invariant forall k :: 0 <= k < i ==> accounts[k] == Activate(all, provider, id)[k]
        invariant forall k :: i <= k < |all| ==> accounts[k] == all[k]
        invariant version == old(version) && receipts == old(receipts) && owners == old(owners)
      {
        if accounts[i].provider == provider {
          accounts := accounts[i := accounts[i].(active := accounts[i].id == id)];
        }
        i := i + 1;
      }
      assert accounts == Activate(all, provider, id);
      error := None;
    }

    method RemoveAccount(id: Id) returns (error: Option<AccountError>)
      modifies this
      ensures match Remove(old(Value()), id)
        case Success(next) => error == None && Value() == next
        case Failure(e) => error == Some(e) && Value() == old(Value())
    {
      var index := Position(id);
      if index == |accounts| {
        return Some(NotFound);
      }
      var removed := accounts[index];
      error := ReserveRefresh(removed.id, removed.credential);
      if error.Some? {
        return;
      }
      accounts := accounts[..index] + accounts[index + 1..];
      if removed.active {
        Promote(removed.provider);
      }
    }

    /** The provider's first remaining account becomes the active one. */
    method Promote(provider: string)
      modifies this`accounts
      ensures var first := FindProvider(old(accounts), provider);
        accounts == if first < |old(accounts)| then old(accounts)[first := old(accounts)[first].(active := true)]
                    else old(accounts)
    {
      var next := 0;
      while next < |accounts| && accounts[next].provider != provider
        invariant next <= |accounts|
        invariant forall j :: 0 <= j < next ==> accounts[j].provider != provider
      {
        next := next + 1;
      }
      assert next <= FindProvider(accounts, provider);
      if next < |accounts| {
        accounts := accounts[next := accounts[next].(active := true)];
      }
    }

    method RenameAccount(id: Id, name: string) returns (error: Option<AccountError>)
      modifies this
      ensures match Rename(old(Value()), id, name)
        case Success(next) => error == None && Value() == next
        case Failure(e) => error == Some(e) && Value() == old(Value())
    {
      var trimmed := ValidateLabel(name);
      if trimmed.Failure? {
        return Some(trimmed.error);
      }
      var index := Position(id);
      if index == |accounts| {
        return Some(NotFound);
      }
      if NameTakenByOther(accounts, accounts[index].provider, trimmed.value, id) {
        return Some(Duplicate);
      }
      accounts := accounts[index := accounts[index].(name := trimmed.value)];
      error := None;
    }

    method Enable(id: Id, enabled: bool) returns (error: Option<AccountError>)
      modifies this
      ensures Has(old(Value()), id) ==> error == None && Value() == SetEnabled(old(Value()), id, enabled)
      ensures !Has(old(Value()), id) ==> error == Some(NotFound) && Value() == old(Value())
    {
      var index := Position(id);
      if index == |accounts| {
        return Some(NotFound);
      }
      accounts := accounts[index := WithEnabled(accounts[index], enabled)];
      version := Max(version, 4);
      error := None;
    }

    /** On an error the document keeps the changes made so far; its caller never commits it. */
    method PatchAccount(id: Id, name: Option<string>, active: Option<bool>, enabled: Option<bool>)
      returns (error: Option<AccountError>)
      modifies this
      ensures (Value(), error) == Patch(old(Value()), id, name, active, enabled)
    {
      hide Rename, Select;
      if enabled.Some? {
        error := Enable(id, enabled.value);
        if error.Some? {
          return;
        }
      }
      if active == Some(false) {
        return Some(Unsupported);
      }
      if name.Some? {
        error := RenameAccount(id, name.value);
        if error.Some? {
          return;
        }
      }
      if active == Some(true) {
        error := SelectAccount(id);
        if error.Some? {
          return;
        }
      }
      var index := Position(id);
      error := if index < |accounts| then None else Some(NotFound);
    }

    /** The operation behind a service call. */
    method Run(op: Op) returns (error: Option<AccountError>)
      modifies this
      ensures (Value(), error) == Attempt(old(Value()), op)
    {
      hide Add, Select, Remove, Rename, Patch;
      match op {
        case OpAdd(provider, name, identity, credential, id) =>
          error := AddAccount(provider, name, identity, credential, id);
        case OpSelect(id) => error := SelectAccount(id);
        case OpRemove(id) => error := RemoveAccount(id);
        case OpRename(id, name) => error := RenameAccount(id, name);
        case OpPatch(id, name, active, enabled) => error := PatchAccount(id, name, active, enabled);
      }
    }

    /** The receipt of a keyed mutation, and the version that keeps older builds from dropping it. */
    method AddReceipt(key: Digest, receipt: Receipt)
      modifies this
      ensures Value() == old(Value()).(receipts := old(receipts)[key := receipt], version := Max(old(version), 2))
    {
      receipts := receipts[key := receipt];
      version := Max(version, 2);
    }
  }
}
