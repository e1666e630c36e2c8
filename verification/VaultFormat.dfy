/** Which stored documents a vault accepts and what a commit writes (src/accounts/vault.rs). */
module VaultFormat {
  import opened Fingerprint
  import opened Results
  import opened Accounts

  const MAX_BYTES: nat := 0x10_0000

  predicate Fences(d: Doc, kind: FencedKind) {
    || (exists key :: key in d.owners && key.kind == kind)
    || (exists i :: 0 <= i < |d.accounts| && d.accounts[i].credential.Fenced? && d.accounts[i].credential.kind == kind)
  }

  predicate Reserves(d: Doc, kind: FencedKind) {
    exists key :: key in d.owners && key.kind == kind
  }

  /** The format check of `Vault::begin`; Factory reservations predate it and carry no check. */
  predicate Accepted(d: Doc) {
    && 1 <= d.version <= 8
    && (d.version < 8 ==> !Fences(d, Antigravity))
    && (d.version < 7 ==> !Fences(d, Kiro))
    && (d.version < 6 ==>
          && !Fences(d, Claude)
          && !exists i :: 0 <= i < |d.accounts| && d.accounts[i].credential.CopilotOAuth?)
    && (d.version == 1 ==> d.receipts == map[])
    && (d.version < 3 ==>
          !exists i :: 0 <= i < |d.accounts|
                       && (d.accounts[i].credential.AmpNative? || d.accounts[i].credential.Native?))
    && (d.version < 4 ==> !exists i :: 0 <= i < |d.accounts| && !d.accounts[i].enabled)
    && |d.receipts| <= MAX_RECEIPTS
  }

  function Raise(version: nat, when: bool, level: nat): nat {
    if when then Max(version, level) else version
  }

  /** The version `Transaction::commit` writes. */
  function Upgrade(d: Doc): Doc {
    var v1 := Raise(d.version, Reserves(d, Factory), 5);
    var v2 := Raise(v1, Reserves(d, Antigravity), 8);
    var v3 := Raise(v2, Reserves(d, Kiro), 7);
    d.(version := Raise(v3, Reserves(d, Claude), 6))
  }

  /** A document written from `EMPTY` is accepted by the next `begin`. */
  lemma FormatAccepted(d: Doc)
    requires Format(d)
    ensures Accepted(d)
  {
  }

  /** Committing never rewrites a document whose version already covers its features. */
  lemma UpgradeIdentity(d: Doc)
    requires Format(d)
    ensures Upgrade(d) == d
  {
  }

  /** A reservation left by an older build is raised to its level, and the result stays acceptable. */
  lemma {:induction false} UpgradeCoversOwners(d: Doc)
    requires Accepted(d)
    requires forall key :: key in d.owners ==> key.kind != Grok
    ensures Accepted(Upgrade(d)) && d.version <= Upgrade(d).version
    ensures Upgrade(d).(version := d.version) == d
    ensures forall key :: key in d.owners ==> OwnerLevel(key.kind) <= Upgrade(d).version
  {
  }

  /** The JSON encoding, known only by its round trip. */
  datatype Codec = Codec(encode: Doc -> seq<Byte>, decode: seq<Byte> -> Option<Doc>) {
    ghost predicate Lawful() {
      forall d :: decode(encode(d)) == Some(d)
    }
  }

  function Begin(codec: Codec, stored: Option<seq<Byte>>): Result<Doc, AccountError> {
    match stored
    case None => Success(EMPTY)
    case Some(bytes) =>
      if |bytes| > MAX_BYTES then Failure(Corrupt)
      else
        match codec.decode(bytes)
        case None => Failure(Corrupt)
        case Some(d) => if Accepted(d) then Success(d) else Failure(Corrupt)
  }

  function Encode(codec: Codec, d: Doc): Result<seq<Byte>, AccountError> {
    var bytes := codec.encode(Upgrade(d));
    if |bytes| > MAX_BYTES then Failure(Input) else Success(bytes)
  }

  /**
    A commit refuses exactly the documents over a mebibyte; the next `begin` starts from the empty document
    where nothing is stored, and otherwise from one within the limit that decodes and passes every check.
   */
  lemma StoredExactly(codec: Codec, d: Doc, bytes: seq<Byte>)
    ensures Encode(codec, d) ==
      if |codec.encode(Upgrade(d))| <= 1_048_576 then Success(codec.encode(Upgrade(d))) else Failure(Input)
    ensures Begin(codec, None) == Success(Doc(1, [], map[], map[]))
    ensures Begin(codec, Some(bytes)) == Success(d) <==>
      |bytes| <= 1_048_576 && codec.decode(bytes) == Some(d) && Accepted(d)
    ensures Begin(codec, Some(bytes)).Failure? ==> Begin(codec, Some(bytes)).error == Corrupt
  {
    hide Accepted, Upgrade;
  }

  /** What a commit encodes, the next `begin` reads back. */
  lemma CommitThenBegin(codec: Codec, d: Doc)
    requires codec.Lawful() && Accepted(Upgrade(d)) && Encode(codec, d).Success?
    ensures Begin(codec, Some(Encode(codec, d).value)) == Success(Upgrade(d))
  {
  }

  // ------------------------------------------------------------------ documents of any age

  /** The lowest version `begin` accepts for a kind of reservation; Factory's carry no check. */
  function CheckedLevel(kind: FencedKind): nat {
    match kind
    case Factory => 1
    case Grok => 1
    case _ => OwnerLevel(kind)
  }

  function CheckedAccountLevel(account: Account): nat {
    var credential := account.credential;
    var level := if credential.Fenced? then CheckedLevel(credential.kind) else CredentialLevel(credential);
    Max(level, if account.enabled then 1 else 4)
  }

  ghost predicate AccountsWithin(accounts: seq<Account>, version: nat) {
    forall i :: 0 <= i < |accounts| ==> CheckedAccountLevel(accounts[i]) <= version
  }

  ghost predicate OwnersWithin(owners: map<OwnerKey, Id>, version: nat) {
    forall key :: key in owners ==> CheckedLevel(key.kind) <= version
  }

  /** The checks of `begin` are one comparison per account, per reservation and for the receipts. */
  lemma AcceptedLevels(d: Doc)
    ensures Accepted(d) <==>
      && 1 <= d.version <= 8
      && AccountsWithin(d.accounts, d.version)
      && OwnersWithin(d.owners, d.version)
      && (d.version == 1 ==> d.receipts == map[])
      && |d.receipts| <= MAX_RECEIPTS
  {
  }

  lemma ReserveWithin(d: Doc, id: Id, c: Credential)
    requires Accepted(d)
    ensures Accepted(Reserve(d, id, c)) && d.version <= Reserve(d, id, c).version
    ensures c.HasLineage() ==> OwnerLevel(c.kind) <= Reserve(d, id, c).version
  {
  }

  /** Replacing the accounts by ones that need no more than the version. */
  lemma AccountsReplaced(d: Doc, accounts: seq<Account>, version: nat)
    requires Accepted(d) && d.version <= version <= 8 && AccountsWithin(accounts, version)
    ensures Accepted(d.(accounts := accounts, version := version))
  {
  }

  lemma WithinNow(d: Doc)
    requires Accepted(d)
    ensures AccountsWithin(d.accounts, d.version) && d.version <= 8
  {
  }

  lemma AddAccepted(d: Doc, provider: string, name: string, identity: string, c: Credential, id: Id)
    requires Accepted(d) && Add(d, provider, name, identity, c, id).Success?
    ensures var next := Add(d, provider, name, identity, c, id).value;
      Accepted(next) && d.version <= next.version && next.receipts == d.receipts
  {
    ReserveWithin(d, id, c);
    WithinNow(d);
    hide Accepted, KeyOf, Taken, NameTaken, IdentityTaken, HasActive, ValidateLabel;
    var next := Add(d, provider, name, identity, c, id).value;
    AccountsReplaced(Reserve(d, id, c), next.accounts, next.version);
  }

  lemma SelectAccepted(d: Doc, id: Id)
    requires Accepted(d) && Select(d, id).Success?
    ensures Accepted(Select(d, id).value) && Select(d, id).value.version == d.version
        && Select(d, id).value.receipts == d.receipts
  {
  }

  lemma WithoutWithin(accounts: seq<Account>, index: nat, version: nat)
    requires index < |accounts| && AccountsWithin(accounts, version)
    ensures AccountsWithin(Without(accounts, index), version)
  {
  }

  lemma RemoveAccepted(d: Doc, id: Id)
    requires Accepted(d) && Remove(d, id).Success?
    ensures var next := Remove(d, id).value; Accepted(next) && d.version <= next.version && next.receipts == d.receipts
  {
    var next := Remove(d, id).value;
    ReserveWithin(d, id, Get(d, id).credential);
    WithinNow(d);
    assert AccountsWithin(d.accounts, next.version);
    hide Accepted, KeyOf, Taken, AccountsWithin, Without;
    WithoutWithin(d.accounts, Find(d.accounts, id), next.version);
    AccountsReplaced(Reserve(d, id, Get(d, id).credential), next.accounts, next.version);
  }

  lemma UpdateAccepted(d: Doc, account: Account, version: nat)
    requires Accepted(d) && Has(d, account.id) && d.version <= version <= 8 && CheckedAccountLevel(account) <= version
    ensures Accepted(Update(d, account).(version := version))
  {
  }

  lemma RenameAccepted(d: Doc, id: Id, name: string)
    requires Accepted(d) && Rename(d, id, name).Success?
    ensures var next := Rename(d, id, name).value;
      Accepted(next) && next.version == d.version && next.receipts == d.receipts
  {
  }

  lemma PatchAccepted(d: Doc, id: Id, name: Option<string>, active: Option<bool>, enabled: Option<bool>)
    requires Accepted(d) && Patch(d, id, name, active, enabled).1.None?
    ensures var next := Patch(d, id, name, active, enabled).0;
      Accepted(next) && d.version <= next.version && next.receipts == d.receipts
  {
    hide Accepted, Rename, Select, ValidateLabel;
    WithinNow(d);
    var d1 := if enabled.Some? then SetEnabled(d, id, enabled.value) else d;
    if enabled.Some? {
      UpdateAccepted(d, WithEnabled(Get(d, id), enabled.value), Max(d.version, 4));
    }
    var d2 := if name.Some? then Rename(d1, id, name.value).value else d1;
    if name.Some? {
      RenameAccepted(d1, id, name.value);
    }
    if active == Some(true) {
      SelectAccepted(d2, id);
    }
  }

  /** Whatever accepted document it starts from, an operation leaves one that is accepted again. */
  lemma {:induction false} PerformAccepted(d: Doc, op: Op)
    requires Accepted(d) && Perform(d, op).Success?
    ensures var next := Perform(d, op).value; Accepted(next) && d.version <= next.version && next.receipts == d.receipts
  {
    hide Accepted, Add, Select, Remove, Rename, Patch;
    match op
    case OpAdd(provider, name, identity, credential, id) => AddAccepted(d, provider, name, identity, credential, id);
    case OpSelect(id) => SelectAccepted(d, id);
    case OpRemove(id) => RemoveAccepted(d, id);
    case OpRename(id, name) => RenameAccepted(d, id, name);
    case OpPatch(id, name, active, enabled) => PatchAccepted(d, id, name, active, enabled);
  }

  lemma UpgradeAccepted(d: Doc)
    requires Accepted(d)
    ensures Accepted(Upgrade(d)) && d.version <= Upgrade(d).version
  {
  }
}
