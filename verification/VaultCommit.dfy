/**
  Keyed mutations against the encrypted file (src/accounts/service.rs, `commit_once`): one transaction
  from the stored bytes to the stored bytes, and its retry.
 */
module VaultCommits {
  import opened Fingerprint
  import opened Results
  import opened Accounts
  import opened VaultFormat
  import opened VaultProtocol
  import opened EncryptedFiles
  import opened Documents

  /** The document the next transaction would begin with. */
  function Stored(codec: Codec, cipher: Cipher, file: Option<seq<Byte>>): Result<Doc, AccountError> {
    match Contents(cipher, file)
    case Failure(error) => Failure(error)
    case Success(bytes) => Begin(codec, bytes)
  }

  /** An operation that fails before its commit never claims an uncertain one. */
  lemma PerformErrors(d: Doc, op: Op)
    ensures Perform(d, op).Failure? ==> Perform(d, op).error != CommitUncertain
  {
  }

  lemma BeginAccepts(codec: Codec, stored: Option<seq<Byte>>)
    ensures Begin(codec, stored).Success? ==> Accepted(Begin(codec, stored).value)
    ensures Begin(codec, stored).Failure? ==> Begin(codec, stored).error == Corrupt
  {
  }

  /** The document `commit_once` would write is one that `begin` accepts. */
  lemma {:induction false} OnceAccepted(d: Doc, key: Digest, fingerprint: Digest, op: Op)
    requires Accepted(d) && CommitOnce(d, key, fingerprint, op).Success?
        && CommitOnce(d, key, fingerprint, op).value.Commit?
    ensures Accepted(Upgrade(CommitOnce(d, key, fingerprint, op).value.next))
    ensures CommitOnce(d, key, fingerprint, op).value.next.receipts == d.receipts[key := Receipt(fingerprint, op.id)]
  {
    PerformAccepted(d, op);
    var next := CommitOnce(d, key, fingerprint, op).value.next;
    AcceptedLevels(Perform(d, op).value);
    AcceptedLevels(next);
    OneMoreReceipt(d.receipts, key, Receipt(fingerprint, op.id));
    hide Accepted, Perform, Upgrade;
    UpgradeAccepted(next);
  }

  lemma OneMoreReceipt(receipts: map<Digest, Receipt>, key: Digest, receipt: Receipt)
    ensures |receipts[key := receipt]| <= |receipts| + 1
  {
  }

  /** A transaction begins with its own copy of the stored document. */
  method Load(vault: EncryptedFile, codec: Codec, works: EncryptedFiles.Stage -> bool)
    returns (result: Result<Document, AccountError>)
    ensures result.Success? ==>
      && fresh(result.value)
      && Stored(codec, vault.cipher, vault.file) == Success(result.value.Value())
      && Accepted(result.value.Value())
    ensures result.Failure? ==> result.error != CommitUncertain
    ensures (forall stage :: works(stage)) ==>
      match Stored(codec, vault.cipher, vault.file)
      case Failure(error) => result == Failure(error)
      case Success(_) => result.Success?
  {
    hide Accepted;
    var stored := vault.Read(works);
    if stored.Failure? {
      return Failure(stored.error);
    }
    BeginAccepts(codec, stored.value);
    var begun := Begin(codec, stored.value);
    if begun.Failure? {
      return Failure(begun.error);
    }
    var document := new Document(begun.value);
    result := Success(document);
  }

  /**
    A service call: decode the vault into memory, change that copy in place, and write it back only
    if the operation succeeded.  `copy` is what was in memory at the end.  An operation that fails
    leaves the file byte for byte, whatever it did to the copy first.
   */
  method CallIn(vault: EncryptedFile, codec: Codec, op: Op, nonce: seq<Byte>, works: EncryptedFiles.Stage -> bool)
    returns (error: Option<AccountError>, copy: Option<Document>)
    requires vault.cipher.Lawful() && codec.Lawful() && |nonce| == NONCE
    modifies vault
    ensures copy.Some? ==>
      && Stored(codec, vault.cipher, old(vault.file)).Success?
      && var (next, failure) := Attempt(Stored(codec, vault.cipher, old(vault.file)).value, op);
         && copy.value.Value() == next
         && (failure.Some? ==> error == failure && vault.file == old(vault.file))
    ensures error.Some? && error != Some(CommitUncertain) ==> vault.file == old(vault.file)
    ensures error.None? || error == Some(CommitUncertain) ==>
      copy.Some? && Stored(codec, vault.cipher, vault.file) == Success(Upgrade(copy.value.Value()))
    ensures (forall stage :: works(stage)) ==>
      match Stored(codec, vault.cipher, old(vault.file))
      case Failure(e) => error == Some(e)
      case Success(d) =>
        copy.Some?
        && error == match Perform(d, op)
                    case Failure(e) => Some(e)
                    case Success(next) => if Encode(codec, next).Success? then None else Some(Input)
  {
    hide Accepted, Upgrade, Perform, Patch;
    copy := None;
    var begun := Load(vault, codec, works);
    if begun.Failure? {
      return Some(begun.error), None;
    }
    var document := begun.value;
    ghost var d := document.Value();
    AttemptPerforms(d, op);
    error := document.Run(op);
    copy := Some(document);
    if error.Some? {
      return;
    }
    CallAccepted(d, op);
    error := vault.Commit(codec, document.Value(), nonce, works);
  }

  lemma AttemptPerforms(d: Doc, op: Op)
    ensures Perform(d, op) == match Attempt(d, op).1
                              case None => Success(Attempt(d, op).0)
                              case Some(error) => Failure(error)
    ensures Attempt(d, op).1 != Some(CommitUncertain)
  {
    PerformErrors(d, op);
  }

  lemma CallAccepted(d: Doc, op: Op)
    requires Accepted(d) && Perform(d, op).Success?
    ensures Accepted(Upgrade(Perform(d, op).value))
  {
    hide Accepted, Perform, Upgrade;
    PerformAccepted(d, op);
    UpgradeAccepted(Perform(d, op).value);
  }

  /**
    Commit a mutation once.  A success or an uncertain commit leaves the mutation and its receipt
    stored together; any other error leaves the file as it was; a known key changes nothing.
   */
  method CommitOnceIn(vault: EncryptedFile, codec: Codec, key: Digest, fingerprint: Digest, op: Op,
                      nonce: seq<Byte>, works: EncryptedFiles.Stage -> bool)
    returns (result: Result<Id, AccountError>)
    requires vault.cipher.Lawful() && codec.Lawful() && |nonce| == NONCE
    modifies vault
    ensures result.Failure? && result.error != CommitUncertain ==> vault.file == old(vault.file)
    ensures result.Success? || result.error == CommitUncertain ==>
      && Stored(codec, vault.cipher, old(vault.file)).Success?
      && CommitOnce(Stored(codec, vault.cipher, old(vault.file)).value, key, fingerprint, op).Success?
      && match CommitOnce(Stored(codec, vault.cipher, old(vault.file)).value, key, fingerprint, op).value
         case Replay(account) => result == Success(account) && vault.file == old(vault.file)
         case Commit(next) =>
           && Stored(codec, vault.cipher, vault.file) == Success(Upgrade(next))
           && key in next.receipts && next.receipts[key] == Receipt(fingerprint, op.id)
           && (result.Success? ==> result.value == op.id)
    ensures (forall stage :: works(stage)) && Stored(codec, vault.cipher, old(vault.file)).Success? ==>
      match CommitOnce(Stored(codec, vault.cipher, old(vault.file)).value, key, fingerprint, op)
      case Failure(error) => result == Failure(error)
      case Success(Replay(account)) => result == Success(account)
      case Success(Commit(next)) => result == if Encode(codec, next).Success? then Success(op.id) else Failure(Input)
  {
    hide Accepted, Upgrade, Perform, Attempt;
    var begun := Load(vault, codec, works);
    if begun.Failure? {
      return Failure(begun.error);
    }
    var document := begun.value;
    ghost var d := document.Value();
    if key in document.receipts {
      var receipt := document.receipts[key];
      result := if receipt.fingerprint == fingerprint then Success(receipt.accountId) else Failure(IdempotencyConflict);
      return;
    }
    if |document.receipts| >= MAX_RECEIPTS {
      return Failure(IdempotencyFull);
    }
    AttemptPerforms(d, op);
    var failure := document.Run(op);
    if failure.Some? {
      return Failure(failure.value);
    }
    document.AddReceipt(key, Receipt(fingerprint, op.id));
    OnceAccepted(d, key, fingerprint, op);
    var error := vault.Commit(codec, document.Value(), nonce, works);
    result := if error.Some? then Failure(error.value) else Success(op.id);
  }

  /**
    Retrying a call that succeeded, or whose commit was uncertain, returns its account and changes
    nothing, even though the first call may never have been answered.
   */
  method CommitThenRetry(vault: EncryptedFile, codec: Codec, key: Digest, fingerprint: Digest, op: Op, again: Op,
                         nonce: seq<Byte>, works: EncryptedFiles.Stage -> bool)
    returns (first: Result<Id, AccountError>, second: Result<Id, AccountError>)
    requires vault.cipher.Lawful() && codec.Lawful() && |nonce| == NONCE
    modifies vault
    ensures first.Success? ==> second == first
    ensures first == Failure(CommitUncertain) ==> second == Success(op.id)
    ensures first.Success? || first.error == CommitUncertain ==>
      && Stored(codec, vault.cipher, vault.file).Success?
      && var d := Stored(codec, vault.cipher, vault.file).value;
         key in d.receipts && d.receipts[key].fingerprint == fingerprint
  {
    hide Accepted, Perform;
    first := CommitOnceIn(vault, codec, key, fingerprint, op, nonce, works);
    second := CommitOnceIn(vault, codec, key, fingerprint, again, nonce, (stage: EncryptedFiles.Stage) => true);
  }
}
