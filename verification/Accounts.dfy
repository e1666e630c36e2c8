/**
  The account document (src/accounts/mod.rs) as a value: what each `Document` operation
  computes, and the invariants every sequence of operations keeps.
 */
module Accounts {
  import opened Fingerprint
  import opened Results

  type Id = string

  datatype AccountError =
    | Storage
    | CommitUncertain
    | SourceDisabled
    | IdempotencyConflict
    | IdempotencyFull
    | Corrupt
    | Busy
    | NotFound
    | Duplicate
    | Label
    | Unsupported
    | Input
    | Provider
    | Cancelled

  /** The OAuth credentials whose single-use refresh token is fenced by `refresh_pending`. */
  datatype FencedKind = Factory | Claude | Kiro | Antigravity | Grok

  /**
    `Fenced` stands for the five fenced OAuth variants; `rest` holds the remaining serialized
    fields (organization, e-mail, region, client id).  `Native` stands for the ten borrowed
    references other than Amp's, and `Plain` for keys and bare access tokens.
   */
  datatype Credential =
    | Fenced(kind: FencedKind, access: Text, refresh: Text, expiresAt: int, pending: bool, rest: Text)
    | CodexOAuth(access: Text, refresh: Text, expiresAt: int, rest: Text)
    | CopilotOAuth(access: Text, rest: Text)
    | AmpNative(source: Text, sourceEnabled: bool)
    | Native(source: Text)
    | Plain(secret: Text)
  {
    predicate Pending() { Fenced? && pending }
    predicate Refreshable() { Fenced? || CodexOAuth? }
    /** Grok is fenced but keeps no token lineage. */
    predicate HasLineage() { Fenced? && kind != Grok }
  }

  datatype Account = Account(
    id: Id, provider: string, name: string, identity: string,
    active: bool, enabled: bool, credential: Credential)
  {
    predicate Enabled() {
      enabled && (credential.AmpNative? ==> credential.sourceEnabled)
    }
  }

  datatype Receipt = Receipt(fingerprint: Digest, accountId: Id)

  /** A key of one of the four owner maps: the map it belongs to and the token's fingerprint. */
  datatype OwnerKey = OwnerKey(kind: FencedKind, fingerprint: Digest)

  datatype Doc = Doc(
    version: nat,
    accounts: seq<Account>,
    receipts: map<Digest, Receipt>,
    owners: map<OwnerKey, Id>)

  const EMPTY: Doc := Doc(1, [], map[], map[])
  const MAX_RECEIPTS: nat := 4096

  function Max(a: nat, b: nat): nat {
    if a < b then b else a
  }

  function Domain(kind: FencedKind): Text {
    match kind
    case Factory => Ascii("factory_owned")
    case Claude => Ascii("claude_owned")
    case Kiro => Ascii("kiro_owned")
    case Antigravity => Ascii("antigravity_owned")
    case Grok => []
  }

  function KeyOf(credential: Credential): OwnerKey
    requires credential.Fenced?
  {
    OwnerKey(credential.kind, Fingerprint.Of([Domain(credential.kind), credential.refresh]))
  }

  /** The owner map's keys identify (kind, token) pairs exactly. */
  lemma KeyInjective(a: Credential, b: Credential)
    requires a.Fenced? && b.Fenced?
    ensures KeyOf(a) == KeyOf(b) <==> a.kind == b.kind && a.refresh == b.refresh
  {
    var pa, pb := [Domain(a.kind), a.refresh], [Domain(b.kind), b.refresh];
    Fingerprint.Injective(pa, pb);
    if KeyOf(a) == KeyOf(b) {
      assert pa[1] == pb[1];
    }
  }

  // ------------------------------------------------------------------ format levels

  function OwnerLevel(kind: FencedKind): nat {
    match kind
    case Factory => 5
    case Claude => 6
    case Kiro => 7
    case Antigravity => 8
    case Grok => 1
  }

  /** The document format that introduced the most recent feature a credential uses. */
  function CredentialLevel(credential: Credential): nat {
    match credential
    case Fenced(kind, _, _, _, _, _) => OwnerLevel(kind)
    case CopilotOAuth(_, _) => 6
    case AmpNative(_, _) => 3
    case Native(_) => 3
    case _ => 1
  }

  function AccountLevel(account: Account): nat {
    Max(CredentialLevel(account.credential), if account.enabled then 1 else 4)
  }

  // ------------------------------------------------------------------ operations

  /** The index of the first account with this id, or the number of accounts. */
  function Find(accounts: seq<Account>, id: Id): (i: nat)
    ensures i <= |accounts|
    ensures i < |accounts| ==> accounts[i].id == id
    ensures forall j :: 0 <= j < i ==> accounts[j].id != id
  {
    if accounts == [] then 0
    else if accounts[0].id == id then 0
    else 1 + Find(accounts[1..], id)
  }

  function FindProvider(accounts: seq<Account>, provider: string): (i: nat)
    ensures i <= |accounts|
    ensures i < |accounts| ==> accounts[i].provider == provider
    ensures forall j :: 0 <= j < i ==> accounts[j].provider != provider
  {
    if accounts == [] then 0
    else if accounts[0].provider == provider then 0
    else 1 + FindProvider(accounts[1..], provider)
  }

  predicate Has(d: Doc, id: Id) {
    Find(d.accounts, id) < |d.accounts|
  }

  function Get(d: Doc, id: Id): Account
    requires Has(d, id)
  {
    d.accounts[Find(d.accounts, id)]
  }

  /** Another account already holds the token, or it was reserved for another account. */
  predicate Taken(d: Doc, id: Id, credential: Credential) {
    && credential.HasLineage()
    && ((KeyOf(credential) in d.owners && d.owners[KeyOf(credential)] != id)
        || exists i :: 0 <= i < |d.accounts| && d.accounts[i].id != id
                       && d.accounts[i].credential.Fenced?
                       && d.accounts[i].credential.kind == credential.kind
                       && d.accounts[i].credential.refresh == credential.refresh)
  }

  function Reserve(d: Doc, id: Id, credential: Credential): Doc {
    if credential.HasLineage() then
      d.(owners := d.owners[KeyOf(credential) := id],
         version := Max(d.version, OwnerLevel(credential.kind)))
    else
      d
  }

  /** Unicode `White_Space`. */
  predicate IsWhitespace(c: char) {
    var n := c as int;
    9 <= n <= 13 || n == 32 || n == 0x85 || n == 0xA0 || n == 0x1680 || 0x2000 <= n <= 0x200A
    || n == 0x2028 || n == 0x2029 || n == 0x202F || n == 0x205F || n == 0x3000
  }

  /** Unicode category Cc. */
  predicate IsControl(c: char) {
    (c as int) < 0x20 || 0x7F <= (c as int) <= 0x9F
  }

  function TrimStart(s: string): string {
    if s != "" && IsWhitespace(s[0]) then TrimStart(s[1..]) else s
  }

  function TrimEnd(s: string): string {
    if s != "" && IsWhitespace(s[|s| - 1]) then TrimEnd(s[..|s| - 1]) else s
  }

  function ValidateLabel(name: string): Result<string, AccountError> {
    var trimmed := TrimEnd(TrimStart(name));
    if trimmed == "" || |trimmed| > 80 || exists c :: c in trimmed && IsControl(c) then Failure(Label)
    else Success(trimmed)
  }

  predicate NameTaken(accounts: seq<Account>, provider: string, name: string) {
    exists i :: 0 <= i < |accounts| && accounts[i].provider == provider && accounts[i].name == name
  }

  predicate IdentityTaken(accounts: seq<Account>, provider: string, identity: string) {
    exists i :: 0 <= i < |accounts| && accounts[i].provider == provider && accounts[i].identity == identity
  }

  predicate NameTakenByOther(accounts: seq<Account>, provider: string, name: string, id: Id) {
    exists i :: 0 <= i < |accounts| && accounts[i].id != id && accounts[i].provider == provider
                && accounts[i].name == name
  }

  predicate HasActive(accounts: seq<Account>, provider: string) {
    exists i :: 0 <= i < |accounts| && accounts[i].provider == provider && accounts[i].active
  }

  function Add(d: Doc, provider: string, name: string, identity: string, credential: Credential, id: Id)
    : Result<Doc, AccountError>
  {
    match ValidateLabel(name)
    case Failure(error) => Failure(error)
    case Success(trimmed) =>
      if NameTaken(d.accounts, provider, trimmed) || IdentityTaken(d.accounts, provider, identity)
      then Failure(Duplicate)
      else if Taken(d, id, credential) then Failure(Duplicate)
      else
        var reserved := Reserve(d, id, credential);
        var active := !HasActive(d.accounts, provider);
        var native := if credential.AmpNative? || credential.Native? then 3 else 0;
        var copilot := if credential.CopilotOAuth? then 6 else 0;
        Success(reserved.(
          version := Max(Max(reserved.version, native), copilot),
          accounts := d.accounts + [Account(id, provider, trimmed, identity, active, true, credential)]))
  }

  function Activate(accounts: seq<Account>, provider: string, id: Id): (r: seq<Account>)
    ensures |r| == |accounts|
  {
    seq(|accounts|, i requires 0 <= i < |accounts| =>
      if accounts[i].provider == provider then accounts[i].(active := accounts[i].id == id) else accounts[i])
  }

  function Select(d: Doc, id: Id): Result<Doc, AccountError> {
    if !Has(d, id) then Failure(NotFound)
    else Success(d.(accounts := Activate(d.accounts, Get(d, id).provider, id)))
  }

  function Without(accounts: seq<Account>, index: nat): seq<Account>
    requires index < |accounts|
  {
    var rest := accounts[..index] + accounts[index + 1..];
    var next := FindProvider(rest, accounts[index].provider);
    if accounts[index].active && next < |rest| then rest[next := rest[next].(active := true)] else rest
  }

  function Remove(d: Doc, id: Id): Result<Doc, AccountError> {
    if !Has(d, id) then Failure(NotFound)
    else if Taken(d, id, Get(d, id).credential) then Failure(Duplicate)
    else
      Success(Reserve(d, id, Get(d, id).credential).(accounts := Without(d.accounts, Find(d.accounts, id))))
  }

  function Update(d: Doc, account: Account): Doc
    requires Has(d, account.id)
  {
    d.(accounts := d.accounts[Find(d.accounts, account.id) := account])
  }

  function Rename(d: Doc, id: Id, name: string): Result<Doc, AccountError> {
    match ValidateLabel(name)
    case Failure(error) => Failure(error)
    case Success(trimmed) =>
      if !Has(d, id) then Failure(NotFound)
      else if NameTakenByOther(d.accounts, Get(d, id).provider, trimmed, id) then Failure(Duplicate)
      else Success(Update(d, Get(d, id).(name := trimmed)))
  }

  function WithEnabled(account: Account, enabled: bool): Account {
    var credential :=
      if account.credential.AmpNative? then account.credential.(sourceEnabled := enabled)
      else account.credential;
    account.(enabled := enabled, credential := credential)
  }

  function SetEnabled(d: Doc, id: Id, enabled: bool): Doc
    requires Has(d, id)
  {
    Update(d, WithEnabled(Get(d, id), enabled)).(version := Max(d.version, 4))
  }

  /** `patch` changes its in-memory document step by step, so a failure carries what it did so far. */
  function Patch(d: Doc, id: Id, name: Option<string>, active: Option<bool>, enabled: Option<bool>)
    : (Doc, Option<AccountError>)
  {
    if enabled.Some? && !Has(d, id) then (d, Some(NotFound))
    else
      var d1 := if enabled.Some? then SetEnabled(d, id, enabled.value) else d;
      if active == Some(false) then (d1, Some(Unsupported))
      else
        var renamed := if name.Some? then Rename(d1, id, name.value) else Success(d1);
        match renamed
        case Failure(error) => (d1, Some(error))
        case Success(d2) =>
          var selected := if active == Some(true) then Select(d2, id) else Success(d2);
          match selected
          case Failure(error) => (d2, Some(error))
          case Success(d3) => (d3, if Has(d3, id) then None else Some(NotFound))
  }

  datatype Op =
    | OpAdd(provider: string, name: string, identity: string, credential: Credential, id: Id)
    | OpSelect(id: Id)
    | OpRemove(id: Id)
    | OpRename(id: Id, name: string)
    | OpPatch(id: Id, newName: Option<string>, active: Option<bool>, enabled: Option<bool>)

  /** A service call up to its commit: the document it would write, or the error it returns. */
  function Perform(d: Doc, op: Op): Result<Doc, AccountError> {
    match op
    case OpAdd(provider, name, identity, credential, id) => Add(d, provider, name, identity, credential, id)
    case OpSelect(id) => Select(d, id)
    case OpRemove(id) => Remove(d, id)
    case OpRename(id, name) => Rename(d, id, name)
    case OpPatch(id, name, active, enabled) =>
      var (d', error) := Patch(d, id, name, active, enabled);
      if error.Some? then Failure(error.value) else Success(d')
  }

  /** What a call leaves in its in-memory document, with the error it returns. */
  function Attempt(d: Doc, op: Op): (Doc, Option<AccountError>) {
    if op.OpPatch? then Patch(d, op.id, op.newName, op.active, op.enabled)
    else
      match Perform(d, op)
      case Success(next) => (next, None)
      case Failure(error) => (d, Some(error))
  }

  lemma UpdateHas(d: Doc, account: Account)
    requires Has(d, account.id)
    ensures Has(Update(d, account), account.id)
  {
    assert Update(d, account).accounts[Find(d.accounts, account.id)].id == account.id;
  }

  lemma SelectHas(d: Doc, id: Id)
    requires Has(d, id)
    ensures Select(d, id).Success? && Has(Select(d, id).value, id)
  {
    var accounts := Select(d, id).value.accounts;
    assert accounts[Find(d.accounts, id)].id == id;
  }

  /** A failing patch of an existing account has changed its enabled flag and nothing else. */
  lemma FailedPatch(d: Doc, id: Id, name: Option<string>, active: Option<bool>, enabled: Option<bool>)
    requires Patch(d, id, name, active, enabled).1.Some?
    ensures Patch(d, id, name, active, enabled).0 ==
            if enabled.Some? && Has(d, id) then SetEnabled(d, id, enabled.value) else d
  {
    if Has(d, id) {
      var d1 := if enabled.Some? then SetEnabled(d, id, enabled.value) else d;
      if enabled.Some? {
        UpdateHas(d, WithEnabled(Get(d, id), enabled.value));
      }
      assert Has(d1, id);
      if name.Some? && Rename(d1, id, name.value).Success? {
        UpdateHas(d1, Get(d1, id).(name := ValidateLabel(name.value).value));
      }
      var d2 := if name.Some? && Rename(d1, id, name.value).Success? then Rename(d1, id, name.value).value else d1;
      SelectHas(d2, id);
    }
  }

  lemma SetEnabledChanges(d: Doc, id: Id, enabled: bool)
    requires Has(d, id)
    ensures SetEnabled(d, id, enabled) != d <==> d.version < 4 || WithEnabled(Get(d, id), enabled) != Get(d, id)
  {
    var k := Find(d.accounts, id);
    assert SetEnabled(d, id, enabled).accounts[k] == WithEnabled(Get(d, id), enabled);
    if WithEnabled(Get(d, id), enabled) == Get(d, id) {
      assert SetEnabled(d, id, enabled).accounts == d.accounts;
    }
  }

  /**
    Exactly when a failing call leaves its in-memory document changed: a patch that switched an
    existing account, or raised the version to do so, before a later part of it was refused.
   */
  lemma FailedCallChanges(d: Doc, op: Op)
    requires Perform(d, op).Failure?
    ensures Attempt(d, op).1 == Some(Perform(d, op).error)
    ensures Attempt(d, op).0 != d <==>
      && op.OpPatch? && op.enabled.Some? && Has(d, op.id)
      && (d.version < 4 || WithEnabled(Get(d, op.id), op.enabled.value) != Get(d, op.id))
  {
    hide Select, Rename, Remove, Add, SetEnabled;
    if op.OpPatch? {
      FailedPatch(d, op.id, op.newName, op.active, op.enabled);
      if op.enabled.Some? && Has(d, op.id) {
        SetEnabledChanges(d, op.id, op.enabled.value);
      }
    }
  }

  /** The usual one: an account is switched, and then refused as an account cannot be made inactive. */
  lemma RefusedPatchChanges(d: Doc, id: Id, name: Option<string>, enabled: bool)
    requires Has(d, id) && WithEnabled(Get(d, id), enabled) != Get(d, id)
    ensures var (left, error) := Attempt(d, OpPatch(id, name, Some(false), Some(enabled)));
      error == Some(Unsupported) && left == SetEnabled(d, id, enabled) && left != d
  {
    SetEnabledChanges(d, id, enabled);
  }

  // ------------------------------------------------------------------ invariants

  ghost predicate DistinctIds(accounts: seq<Account>) {
    forall i, j :: 0 <= i < j < |accounts| ==> accounts[i].id != accounts[j].id
  }

  ghost predicate DistinctNames(accounts: seq<Account>) {
    forall i, j :: 0 <= i < j < |accounts| && accounts[i].provider == accounts[j].provider ==>
      accounts[i].name != accounts[j].name && accounts[i].identity != accounts[j].identity
  }

  /** Exactly one active account for each provider that has any. */
  ghost predicate OneActive(accounts: seq<Account>) {
    && (forall i, j :: 0 <= i < j < |accounts| && accounts[i].active && accounts[j].active ==>
          accounts[i].provider != accounts[j].provider)
    && (forall i :: 0 <= i < |accounts| ==> HasActive(accounts, accounts[i].provider))
  }

  /** Every stored lineage token is reserved for the account that stores it. */
  ghost predicate Lineage(d: Doc) {
    forall i :: 0 <= i < |d.accounts| && d.accounts[i].credential.HasLineage() ==>
      && KeyOf(d.accounts[i].credential) in d.owners
      && d.owners[KeyOf(d.accounts[i].credential)] == d.accounts[i].id
  }

  /** The version covers every feature the document contains. */
  ghost predicate Format(d: Doc) {
    && 1 <= d.version <= 8
    && (forall i :: 0 <= i < |d.accounts| ==> AccountLevel(d.accounts[i]) <= d.version)
    && (forall key :: key in d.owners ==> OwnerLevel(key.kind) <= d.version)
    && (d.receipts != map[] ==> 2 <= d.version)
    && |d.receipts| <= MAX_RECEIPTS
  }

  ghost predicate Directory(accounts: seq<Account>) {
    && DistinctIds(accounts)
    && DistinctNames(accounts)
    && OneActive(accounts)
  }

  ghost predicate Sound(d: Doc) {
    && Directory(d.accounts)
    && Lineage(d)
    && Format(d)
  }

  /** Owner entries are write-once: none disappears and none changes owner. */
  ghost predicate OwnersKept(d: Doc, d': Doc) {
    forall key :: key in d.owners ==> key in d'.owners && d'.owners[key] == d.owners[key]
  }

  ghost predicate Unused(d: Doc, id: Id) {
    && (forall i :: 0 <= i < |d.accounts| ==> d.accounts[i].id != id)
    && (forall key :: key in d.owners ==> d.owners[key] != id)
  }

  /** The random id an `add` draws has never been used. */
  ghost predicate Fresh(d: Doc, op: Op) {
    op.OpAdd? ==> Unused(d, op.id)
  }

  /** What one committed operation may do to lineage and version. */
  ghost predicate Follows(d: Doc, d': Doc) {
    && OwnersKept(d, d')
    && d.version <= d'.version
  }

  lemma FindIs(accounts: seq<Account>, i: nat)
    requires i < |accounts| && DistinctIds(accounts)
    ensures Find(accounts, accounts[i].id) == i
  {
  }

  /** In a sound document no two accounts share a lineage token. */
  lemma NoSharedToken(d: Doc, i: nat, j: nat)
    requires Sound(d) && i < |d.accounts| && j < |d.accounts|
    requires d.accounts[i].credential.HasLineage() && d.accounts[j].credential.HasLineage()
    requires d.accounts[i].credential.kind == d.accounts[j].credential.kind
    requires d.accounts[i].credential.refresh == d.accounts[j].credential.refresh
    ensures i == j
  {
  }

  /** In a sound document the reservation check fails exactly when the token has another owner. */
  lemma TakenMeansOwned(d: Doc, id: Id, credential: Credential)
    requires Lineage(d) && credential.HasLineage()
    ensures Taken(d, id, credential) <==> KeyOf(credential) in d.owners && d.owners[KeyOf(credential)] != id
  {
  }

  /** A stored token is never taken from its own account, so `remove` fails only for a missing account. */
  lemma RemoveSucceeds(d: Doc, id: Id)
    requires Lineage(d)
    ensures Remove(d, id).Success? <==> Has(d, id)
    ensures Remove(d, id).Failure? ==> Remove(d, id).error == NotFound
  {
  }

  /** A reserved token can never be added under a new id. */
  lemma ReservedNeverReadded(d: Doc, provider: string, name: string, identity: string, c: Credential, id: Id)
    requires Unused(d, id) && c.HasLineage() && KeyOf(c) in d.owners
    ensures Add(d, provider, name, identity, c, id).Failure?
  {
  }

  lemma EmptySound()
    ensures Sound(EMPTY)
  {
  }

  // ------------------------------------------------------------------ add

  lemma AppendActive(accounts: seq<Account>, last: Account)
    requires OneActive(accounts) && (last.active <==> !HasActive(accounts, last.provider))
    ensures OneActive(accounts + [last])
  {
    var all := accounts + [last];
    forall i | 0 <= i < |all| ensures HasActive(all, all[i].provider) {
      if HasActive(accounts, all[i].provider) {
        var k :| 0 <= k < |accounts| && accounts[k].provider == all[i].provider && accounts[k].active;
        assert all[k].active;
      } else {
        assert i == |accounts| && all[i].active;
      }
    }
  }

  lemma {:induction false} AppendDistinct(accounts: seq<Account>, last: Account)
    requires DistinctIds(accounts) && DistinctNames(accounts)
    requires forall i :: 0 <= i < |accounts| ==> accounts[i].id != last.id
    requires !NameTaken(accounts, last.provider, last.name)
    requires !IdentityTaken(accounts, last.provider, last.identity)
    ensures DistinctIds(accounts + [last]) && DistinctNames(accounts + [last])
  {
  }

  lemma ReserveFollows(d: Doc, id: Id, c: Credential)
    requires Lineage(d) && Format(d) && !Taken(d, id, c)
    ensures Lineage(Reserve(d, id, c)) && Format(Reserve(d, id, c)) && Follows(d, Reserve(d, id, c))
  {
  }

  lemma AddSound(d: Doc, provider: string, name: string, identity: string, c: Credential, id: Id)
    requires Sound(d) && Unused(d, id)
    requires Add(d, provider, name, identity, c, id).Success?
    ensures Sound(Add(d, provider, name, identity, c, id).value)
    ensures Follows(d, Add(d, provider, name, identity, c, id).value)
  {
    var d' := Add(d, provider, name, identity, c, id).value;
    var account := d'.accounts[|d.accounts|];
    assert Directory(d'.accounts) by {
      AppendActive(d.accounts, account);
      AppendDistinct(d.accounts, account);
    }
    AddStored(d, provider, name, identity, c, id);
  }

  lemma AddStored(d: Doc, provider: string, name: string, identity: string, c: Credential, id: Id)
    requires Lineage(d) && Format(d) && Unused(d, id)
    requires Add(d, provider, name, identity, c, id).Success?
    ensures var d' := Add(d, provider, name, identity, c, id).value; Lineage(d') && Format(d') && Follows(d, d')
  {
    hide KeyOf;
    ReserveFollows(d, id, c);
    var reserved := Reserve(d, id, c);
    var d' := Add(d, provider, name, identity, c, id).value;
    forall i | 0 <= i < |d'.accounts| && d'.accounts[i].credential.HasLineage()
      ensures KeyOf(d'.accounts[i].credential) in d'.owners
      ensures d'.owners[KeyOf(d'.accounts[i].credential)] == d'.accounts[i].id
    {
      if i < |d.accounts| {
        assert reserved.accounts[i] == d'.accounts[i];
      }
    }
  }

  // ------------------------------------------------------------------ select

  lemma ActivateActive(accounts: seq<Account>, k: nat)
    requires k < |accounts| && DistinctIds(accounts) && OneActive(accounts)
    ensures OneActive(Activate(accounts, accounts[k].provider, accounts[k].id))
  {
    var result := Activate(accounts, accounts[k].provider, accounts[k].id);
    forall i | 0 <= i < |result| ensures HasActive(result, result[i].provider) {
      if accounts[i].provider == accounts[k].provider {
        assert result[k].active;
      } else {
        var j :| 0 <= j < |accounts| && accounts[j].provider == accounts[i].provider && accounts[j].active;
        assert result[j].active;
      }
    }
  }

  lemma SelectSound(d: Doc, id: Id)
    requires Sound(d) && Has(d, id)
    ensures Sound(Select(d, id).value) && Follows(d, Select(d, id).value)
  {
    hide KeyOf;
    var accounts := Select(d, id).value.accounts;
    ActivateActive(d.accounts, Find(d.accounts, id));
    assert DistinctIds(accounts) && DistinctNames(accounts) by {
      SameNames(d.accounts, accounts);
    }
  }

  lemma {:induction false} SameNames(accounts: seq<Account>, accounts': seq<Account>)
    requires DistinctIds(accounts) && DistinctNames(accounts) && |accounts'| == |accounts|
    requires forall i :: 0 <= i < |accounts| ==>
      accounts'[i].(active := false, enabled := false) == accounts[i].(active := false, enabled := false)
    ensures DistinctIds(accounts') && DistinctNames(accounts')
  {
  }

  // ------------------------------------------------------------------ remove

  /** Where the account at `i` was before the account at `index` was removed. */
  function Before(i: nat, index: nat): nat {
    if i < index then i else i + 1
  }

  lemma WithoutIs(accounts: seq<Account>, index: nat, i: nat)
    requires index < |accounts| && i < |accounts| - 1
    ensures |Without(accounts, index)| == |accounts| - 1
    ensures Without(accounts, index)[i].(active := false) == accounts[Before(i, index)].(active := false)
    ensures accounts[Before(i, index)].active ==> Without(accounts, index)[i].active
    ensures accounts[index].active && accounts[Before(i, index)].provider == accounts[index].provider ==>
      exists k :: 0 <= k < |accounts| - 1 && Without(accounts, index)[k].active
                  && Without(accounts, index)[k].provider == accounts[index].provider
    ensures Without(accounts, index)[i].active && !accounts[Before(i, index)].active ==>
      && accounts[index].active
      && Without(accounts, index)[i].provider == accounts[index].provider
      && i == FindProvider(accounts[..index] + accounts[index + 1..], accounts[index].provider)
  {
    var rest := accounts[..index] + accounts[index + 1..];
    assert rest[i] == accounts[Before(i, index)];
    var next := FindProvider(rest, accounts[index].provider);
    if accounts[index].active && accounts[Before(i, index)].provider == accounts[index].provider {
      assert Without(accounts, index)[next].active;
    }
  }

  lemma WithoutHasActive(accounts: seq<Account>, index: nat, i: nat)
    requires index < |accounts| && i < |accounts| - 1 && OneActive(accounts)
    ensures HasActive(Without(accounts, index), Without(accounts, index)[i].provider)
  {
    hide Without;
    var result := Without(accounts, index);
    WithoutIs(accounts, index, i);
    var b := Before(i, index);
    var k :| 0 <= k < |accounts| && accounts[k].provider == accounts[b].provider && accounts[k].active;
    if k != index {
      var after := if k < index then k else k - 1;
      WithoutIs(accounts, index, after);
      assert result[after].active;
    }
  }

  lemma WithoutActive(accounts: seq<Account>, index: nat)
    requires index < |accounts| && OneActive(accounts)
    ensures OneActive(Without(accounts, index))
  {
    var result := Without(accounts, index);
    forall i | 0 <= i < |result| ensures HasActive(result, result[i].provider) {
      WithoutHasActive(accounts, index, i);
    }
    forall i, j | 0 <= i < j < |result| && result[i].active && result[j].active
      ensures result[i].provider != result[j].provider
    {
      WithoutOneActive(accounts, index, i, j);
    }
  }

  lemma {:induction false} WithoutOneActive(accounts: seq<Account>, index: nat, i: nat, j: nat)
    requires index < |accounts| && i < j < |accounts| - 1
    requires forall i, j :: 0 <= i < j < |accounts| && accounts[i].active && accounts[j].active ==>
      accounts[i].provider != accounts[j].provider
    requires |Without(accounts, index)| == |accounts| - 1
    requires Without(accounts, index)[i].active && Without(accounts, index)[j].active
    ensures Without(accounts, index)[i].provider != Without(accounts, index)[j].provider
  {
  }

  lemma WithoutDistinct(accounts: seq<Account>, index: nat)
    requires index < |accounts| && DistinctIds(accounts) && DistinctNames(accounts)
    ensures DistinctIds(Without(accounts, index)) && DistinctNames(Without(accounts, index))
  {
    var result := Without(accounts, index);
    forall i, j | 0 <= i < j < |result|
      ensures result[i].id != result[j].id
      ensures result[i].provider == result[j].provider ==>
        result[i].name != result[j].name && result[i].identity != result[j].identity
    {
      WithoutIs(accounts, index, i);
      WithoutIs(accounts, index, j);
      assert Before(i, index) < Before(j, index);
    }
  }

  lemma {:induction false} RemoveSound(d: Doc, id: Id)
    requires Sound(d) && Has(d, id)
    ensures Remove(d, id).Success?
    ensures Sound(Remove(d, id).value) && Follows(d, Remove(d, id).value)
  {
    RemoveSucceeds(d, id);
    WithoutActive(d.accounts, Find(d.accounts, id));
    WithoutDistinct(d.accounts, Find(d.accounts, id));
    RemoveStored(d, id);
  }

  lemma RemoveStored(d: Doc, id: Id)
    requires Lineage(d) && Format(d) && Has(d, id) && Remove(d, id).Success?
    ensures var d' := Remove(d, id).value; Lineage(d') && Format(d') && Follows(d, d')
  {
    hide KeyOf;
    var reserved := Reserve(d, id, Get(d, id).credential);
    ReserveFollows(d, id, Get(d, id).credential);
    var k := Find(d.accounts, id);
    var d' := Remove(d, id).value;
    forall i | 0 <= i < |d'.accounts|
      ensures AccountLevel(d'.accounts[i]) <= d'.version
      ensures d'.accounts[i].credential.HasLineage() ==>
        && KeyOf(d'.accounts[i].credential) in d'.owners
        && d'.owners[KeyOf(d'.accounts[i].credential)] == d'.accounts[i].id
    {
      WithoutIs(d.accounts, k, i);
      assert reserved.accounts[Before(i, k)] == d.accounts[Before(i, k)];
    }
  }

  // ------------------------------------------------------------------ rename, enable and patch

  lemma UpdateDirectory(d: Doc, account: Account)
    requires Directory(d.accounts) && Has(d, account.id)
    requires var a := Get(d, account.id);
      && a.provider == account.provider && a.identity == account.identity && a.active == account.active
    requires !NameTakenByOther(d.accounts, account.provider, account.name, account.id)
    ensures Directory(Update(d, account).accounts)
  {
    var accounts := Update(d, account).accounts;
    forall i | 0 <= i < |accounts| ensures HasActive(accounts, accounts[i].provider) {
      assert HasActive(d.accounts, d.accounts[i].provider);
      var j :| 0 <= j < |d.accounts| && d.accounts[j].provider == d.accounts[i].provider && d.accounts[j].active;
      assert accounts[j].active && accounts[j].provider == accounts[i].provider;
    }
  }

  lemma UpdateStored(d: Doc, account: Account)
    requires Lineage(d) && Format(d) && Has(d, account.id)
    requires account.credential.HasLineage() ==>
      KeyOf(account.credential) in d.owners && d.owners[KeyOf(account.credential)] == account.id
    requires AccountLevel(account) <= d.version
    ensures Lineage(Update(d, account)) && Format(Update(d, account))
  {
  }

  lemma UpdateFinds(d: Doc, account: Account)
    requires Has(d, account.id) && DistinctIds(d.accounts)
    ensures Has(Update(d, account), account.id) && Get(Update(d, account), account.id) == account
    ensures forall id :: id != account.id ==>
      Has(Update(d, account), id) == Has(d, id) && (Has(d, id) ==> Get(Update(d, account), id) == Get(d, id))
  {
    var k := Find(d.accounts, account.id);
    var updated := Update(d, account);
    assert DistinctIds(updated.accounts);
    FindIs(updated.accounts, k);
    forall id | id != account.id
      ensures Has(updated, id) == Has(d, id) && (Has(d, id) ==> Get(updated, id) == Get(d, id))
    {
      if Has(d, id) {
        FindIs(updated.accounts, Find(d.accounts, id));
      }
    }
  }

  lemma OwnNameFree(accounts: seq<Account>, k: nat)
    requires k < |accounts| && Directory(accounts)
    ensures !NameTakenByOther(accounts, accounts[k].provider, accounts[k].name, accounts[k].id)
  {
  }

  lemma RenameSound(d: Doc, id: Id, name: string)
    requires Sound(d) && Rename(d, id, name).Success?
    ensures Sound(Rename(d, id, name).value) && Follows(d, Rename(d, id, name).value)
    ensures Has(Rename(d, id, name).value, id)
  {
    var account := Get(d, id).(name := ValidateLabel(name).value);
    UpdateDirectory(d, account);
    UpdateStored(d, account);
    UpdateFinds(d, account);
  }

  lemma SetEnabledSound(d: Doc, id: Id, enabled: bool)
    requires Sound(d) && Has(d, id)
    ensures Sound(SetEnabled(d, id, enabled)) && Follows(d, SetEnabled(d, id, enabled))
    ensures Has(SetEnabled(d, id, enabled), id)
  {
    var raised := d.(version := Max(d.version, 4));
    var changed := WithEnabled(Get(d, id), enabled);
    OwnNameFree(d.accounts, Find(d.accounts, id));
    UpdateDirectory(raised, changed);
    UpdateStored(raised, changed);
    UpdateFinds(raised, changed);
    assert Update(raised, changed) == SetEnabled(d, id, enabled);
  }

  /** Every intermediate document of `patch` is sound, whether or not the call succeeds. */
  lemma {:induction false} PatchSound(d: Doc, id: Id, name: Option<string>, active: Option<bool>, enabled: Option<bool>)
    requires Sound(d)
    ensures var (d', error) := Patch(d, id, name, active, enabled); Sound(d') && Follows(d, d')
  {
    if enabled.Some? && Has(d, id) {
      SetEnabledSound(d, id, enabled.value);
    }
    if !(enabled.Some? && !Has(d, id)) && active != Some(false) {
      var d1 := if enabled.Some? then SetEnabled(d, id, enabled.value) else d;
      if name.Some? && Rename(d1, id, name.value).Success? {
        RenameSound(d1, id, name.value);
      }
      var renamed := if name.Some? then Rename(d1, id, name.value) else Success(d1);
      if renamed.Success? && active == Some(true) && Has(renamed.value, id) {
        SelectSound(renamed.value, id);
      }
    }
  }

  /** Every operation keeps a sound document sound, its lineage entries and its version. */
  lemma {:induction false} PerformSound(d: Doc, op: Op)
    requires Sound(d) && Fresh(d, op) && Perform(d, op).Success?
    ensures Sound(Perform(d, op).value) && Follows(d, Perform(d, op).value)
  {
    match op
    case OpAdd(provider, name, identity, credential, id) =>
      AddSound(d, provider, name, identity, credential, id);
    case OpSelect(id) => SelectSound(d, id);
    case OpRemove(id) => RemoveSound(d, id);
    case OpRename(id, name) => RenameSound(d, id, name);
    case OpPatch(id, name, active, enabled) => PatchSound(d, id, name, active, enabled);
  }

  // ------------------------------------------------------------------ what operations leave alone

  /** Equal, or two views of one Amp reference, whose switch `patch` flips. */
  predicate SameSecret(a: Credential, b: Credential) {
    a == b || (a.AmpNative? && b.AmpNative? && a.source == b.source)
  }

  /** `d'` holds no credential that `d` did not hold for the same account, except under `newId`. */
  ghost predicate SecretsFrom(d: Doc, d': Doc, newId: Option<Id>) {
    forall id :: Has(d', id) && newId != Some(id) ==>
      Has(d, id) && SameSecret(Get(d, id).credential, Get(d', id).credential)
  }

  /** Each account of `d'` continues an account of `d`, other than one with id `newId`. */
  ghost predicate Continues(d: Doc, d': Doc, newId: Option<Id>) {
    forall i :: 0 <= i < |d'.accounts| && newId != Some(d'.accounts[i].id) ==>
      exists j :: 0 <= j < |d.accounts| && d.accounts[j].id == d'.accounts[i].id
                  && SameSecret(d.accounts[j].credential, d'.accounts[i].credential)
  }

  lemma ContinuesSecrets(d: Doc, d': Doc, newId: Option<Id>)
    requires DistinctIds(d.accounts) && Continues(d, d', newId)
    ensures SecretsFrom(d, d', newId)
  {
  }

  /** The same accounts in the same places, each with its own secret. */
  ghost predicate SamePlaces(d: Doc, d': Doc) {
    && d'.receipts == d.receipts && d'.owners == d.owners
    && |d'.accounts| == |d.accounts|
    && forall i :: 0 <= i < |d.accounts| ==>
         d'.accounts[i].id == d.accounts[i].id && SameSecret(d.accounts[i].credential, d'.accounts[i].credential)
  }

  lemma SamePlacesSecrets(d: Doc, d': Doc)
    requires DistinctIds(d.accounts) && SamePlaces(d, d')
    ensures SecretsFrom(d, d', None)
  {
  }

  lemma RenameSamePlaces(d: Doc, id: Id, name: string)
    requires Rename(d, id, name).Success?
    ensures SamePlaces(d, Rename(d, id, name).value)
  {
  }

  lemma SelectSamePlaces(d: Doc, id: Id)
    requires Has(d, id)
    ensures SamePlaces(d, Select(d, id).value)
  {
  }

  lemma SetEnabledSamePlaces(d: Doc, id: Id, enabled: bool)
    requires Has(d, id)
    ensures SamePlaces(d, SetEnabled(d, id, enabled))
  {
  }

  lemma SamePlacesTransitive(d: Doc, d1: Doc, d2: Doc)
    requires SamePlaces(d, d1) && SamePlaces(d1, d2)
    ensures SamePlaces(d, d2)
  {
  }

  lemma PatchSamePlaces(d: Doc, id: Id, name: Option<string>, active: Option<bool>, enabled: Option<bool>)
    ensures SamePlaces(d, Patch(d, id, name, active, enabled).0)
  {
    if enabled.Some? && !Has(d, id) {
      return;
    }
    var d1 := if enabled.Some? then SetEnabled(d, id, enabled.value) else d;
    if enabled.Some? {
      SetEnabledSamePlaces(d, id, enabled.value);
    }
    var d2 := d1;
    if active != Some(false) && name.Some? && Rename(d1, id, name.value).Success? {
      d2 := Rename(d1, id, name.value).value;
      RenameSamePlaces(d1, id, name.value);
      SamePlacesTransitive(d, d1, d2);
    }
    if active == Some(true) && Has(d2, id) {
      SelectSamePlaces(d2, id);
      SamePlacesTransitive(d, d2, Select(d2, id).value);
    }
  }

  lemma AddSecrets(d: Doc, provider: string, name: string, identity: string, c: Credential, id: Id)
    requires DistinctIds(d.accounts) && Add(d, provider, name, identity, c, id).Success?
    ensures var d' := Add(d, provider, name, identity, c, id).value;
      d'.receipts == d.receipts && SecretsFrom(d, d', Some(id))
  {
    hide KeyOf, Taken, NameTaken, IdentityTaken, HasActive, ValidateLabel;
    var d' := Add(d, provider, name, identity, c, id).value;
    forall i | 0 <= i < |d'.accounts| && d'.accounts[i].id != id
      ensures exists j :: 0 <= j < |d.accounts| && d.accounts[j].id == d'.accounts[i].id
                          && SameSecret(d.accounts[j].credential, d'.accounts[i].credential)
    {
      assert d.accounts[i] == d'.accounts[i];
    }
    ContinuesSecrets(d, d', Some(id));
  }

  lemma RemoveSecrets(d: Doc, id: Id)
    requires DistinctIds(d.accounts) && Remove(d, id).Success?
    ensures Remove(d, id).value.receipts == d.receipts && SecretsFrom(d, Remove(d, id).value, None)
  {
    hide KeyOf, Taken;
    var d' := Remove(d, id).value;
    var k := Find(d.accounts, id);
    forall i | 0 <= i < |d'.accounts|
      ensures exists j :: 0 <= j < |d.accounts| && d.accounts[j].id == d'.accounts[i].id
                          && SameSecret(d.accounts[j].credential, d'.accounts[i].credential)
    {
      WithoutIs(d.accounts, k, i);
      assert d.accounts[Before(i, k)].id == d'.accounts[i].id;
    }
    ContinuesSecrets(d, d', None);
  }

  lemma PatchSecrets(d: Doc, id: Id, name: Option<string>, active: Option<bool>, enabled: Option<bool>)
    requires DistinctIds(d.accounts) && Patch(d, id, name, active, enabled).1.None?
    ensures var d' := Patch(d, id, name, active, enabled).0; d'.receipts == d.receipts && SecretsFrom(d, d', None)
  {
    PatchSamePlaces(d, id, name, active, enabled);
    SamePlacesSecrets(d, Patch(d, id, name, active, enabled).0);
    hide Rename, Select, SecretsFrom, SamePlaces, WithEnabled;
    RenameReceipts(if enabled.Some? && Has(d, id) then SetEnabled(d, id, enabled.value) else d, id);
  }

  lemma RenameReceipts(d: Doc, id: Id)
    ensures forall name :: Rename(d, id, name).Success? ==> Rename(d, id, name).value.receipts == d.receipts
    ensures forall d' :: Select(d', id).Success? ==> Select(d', id).value.receipts == d'.receipts
  {
  }

  lemma {:induction false} PerformSecrets(d: Doc, op: Op)
    requires DistinctIds(d.accounts) && Perform(d, op).Success?
    ensures Perform(d, op).value.receipts == d.receipts
    ensures SecretsFrom(d, Perform(d, op).value, if op.OpAdd? then Some(op.id) else None)
  {
    hide Add, Remove, Patch, SecretsFrom, KeyOf;
    var d' := Perform(d, op).value;
    match op
    case OpAdd(provider, name, identity, credential, id) => AddSecrets(d, provider, name, identity, credential, id);
    case OpRemove(id) => RemoveSecrets(d, id);
    case OpSelect(id) =>
      SelectSamePlaces(d, id);
      SamePlacesSecrets(d, d');
    case OpRename(id, name) =>
      RenameSamePlaces(d, id, name);
      SamePlacesSecrets(d, d');
    case OpPatch(id, name, active, enabled) => PatchSecrets(d, id, name, active, enabled);
  }
}
