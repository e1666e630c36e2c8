/** The encrypted vault file (src/accounts/encrypted_file.rs) and what a failed replacement leaves. */
module EncryptedFiles {
  import opened Fingerprint
  import opened Results
  import opened Accounts
  import opened VaultFormat
  import opened VaultProtocol

  const HEADER: seq<Byte> := [113, 117, 111, 116, 105, 111, 45, 118, 97, 117, 108, 116, 0, 1]
  const NONCE: nat := 12
  const TAG: nat := 16
  const OVERHEAD: nat := |HEADER| + NONCE + TAG

  /** An authenticated cipher under one key, with the header as associated data. */
  datatype Cipher = Cipher(
    seal: (seq<Byte>, seq<Byte>) -> seq<Byte>,
    open: (seq<Byte>, seq<Byte>) -> Option<seq<Byte>>)
  {
    ghost predicate Lawful() {
      forall nonce, plain ::
        |seal(nonce, plain)| == |plain| + TAG && open(nonce, seal(nonce, plain)) == Some(plain)
    }
  }

  /** The points at which the operating system may refuse. */
  datatype Stage =
    | Inspect | Open | Draw | Seal | Name | Directory | Create | WriteHeader | WriteNonce | WriteBody
    | SyncFile | Rename | SyncDirectory | RemoveTemp

  function Envelope(cipher: Cipher, nonce: seq<Byte>, plain: seq<Byte>): seq<Byte> {
    HEADER + nonce + cipher.seal(nonce, plain)
  }

  /** What the stored bytes decrypt to. */
  function Unseal(cipher: Cipher, bytes: seq<Byte>): Result<seq<Byte>, AccountError> {
    if |bytes| < OVERHEAD || |bytes| > MAX_BYTES + OVERHEAD || !(HEADER <= bytes) then Failure(Corrupt)
    else
      match cipher.open(bytes[|HEADER|..|HEADER| + NONCE], bytes[|HEADER| + NONCE..])
      case None => Failure(Corrupt)
      case Some(plain) => Success(plain)
  }

  function Contents(cipher: Cipher, file: Option<seq<Byte>>): Result<Option<seq<Byte>>, AccountError> {
    match file
    case None => Success(None)
    case Some(bytes) =>
      match Unseal(cipher, bytes)
      case Failure(error) => Failure(error)
      case Success(plain) => Success(Some(plain))
  }

  /** Any document within the limit survives the envelope, whatever the nonce. */
  lemma EnvelopeRoundTrip(cipher: Cipher, nonce: seq<Byte>, plain: seq<Byte>)
    requires cipher.Lawful() && |nonce| == NONCE
    ensures Unseal(cipher, Envelope(cipher, nonce, plain)) ==
            if |plain| <= MAX_BYTES then Success(plain) else Failure(Corrupt)
  {
  }

  /** Reading at most `limit` bytes decides like reading all of them: a long file is never cut down to a valid one. */
  lemma BoundedReadExact(cipher: Cipher, bytes: seq<Byte>, limit: nat)
    requires MAX_BYTES + OVERHEAD < limit
    ensures Unseal(cipher, if |bytes| > limit then bytes[..limit] else bytes) == Unseal(cipher, bytes)
  {
  }

  /** How a transaction sees the error of a replacement. */
  function Classify(error: Option<AccountError>): Outcome {
    if error == None then Written else if error == Some(CommitUncertain) then Unconfirmed else Kept
  }

  class EncryptedFile {
    const cipher: Cipher
    /** The file at the vault's path, and the temporary file beside it. */
    var file: Option<seq<Byte>>
    var temp: Option<seq<Byte>>
    /** Every state the vault's path has been in. */
    ghost var seen: seq<Option<seq<Byte>>>

    constructor (cipher: Cipher, existing: Option<seq<Byte>>)
      ensures this.cipher == cipher && file == existing && seen == [existing]
    {
      this.cipher, file, temp, seen := cipher, existing, None, [existing];
    }

    /** `works` says which system calls succeed. */
    method Read(works: Stage -> bool) returns (result: Result<Option<seq<Byte>>, AccountError>)
      ensures works(Inspect) && (file.Some? ==> works(Open)) ==> result == Contents(cipher, file)
      ensures !(works(Inspect) && (file.Some? ==> works(Open))) ==> result == Failure(Storage)
    {
      if !works(Inspect) {
        return Failure(Storage);
      }
      if file.None? {
        return Success(None);
      }
      if !works(Open) {
        return Failure(Storage);
      }
      var limit := MAX_BYTES + 128;
      var bytes := if |file.value| > limit then file.value[..limit] else file.value;
      BoundedReadExact(cipher, file.value, limit);
      var plain := Unseal(cipher, bytes);
      result := if plain.Failure? then Failure(plain.error) else Success(Some(plain.value));
    }

    /**
      Write the temporary file, rename it over the vault and sync both.
      `renamed` is what tells an old file from a new one when a step fails.
     */
    method Install(sealed: seq<Byte>, nonce: seq<Byte>, works: Stage -> bool)
      returns (done: bool, renamed: bool)
      modifies this
      ensures done ==> renamed
      ensures file == if renamed then Some(HEADER + nonce + sealed) else old(file)
      ensures seen == if renamed then old(seen) + [file] else old(seen)
      ensures renamed ==> temp == None
      ensures (forall stage :: works(stage)) ==> done
    {
      done, renamed := false, false;
      if !works(Directory) || !works(Create) {
        return;
      }
      temp := Some([]);
      if !works(WriteHeader) {
        return;
      }
      temp := Some(HEADER);
      if !works(WriteNonce) {
        return;
      }
      temp := Some(temp.value + nonce);
      if !works(WriteBody) {
        return;
      }
      temp := Some(temp.value + sealed);
      if !works(SyncFile) || !works(Rename) {
        return;
      }
      file, temp := temp, None;
      seen := seen + [file];
      renamed := true;
      done := works(SyncDirectory);
    }

    /**
      Replace the stored document.  Success and `CommitUncertain` leave the new document readable;
      every other error leaves the file byte for byte, and no other content is ever at the path.
     */
    method Replace(bytes: seq<Byte>, nonce: seq<Byte>, works: Stage -> bool) returns (error: Option<AccountError>)
      requires cipher.Lawful() && |nonce| == NONCE
      modifies this
      ensures Classify(error) == Kept ==> file == old(file) && seen == old(seen)
      ensures Classify(error) != Kept ==>
        && Contents(cipher, file) == Success(Some(bytes))
        && Contents(cipher, old(file)).Success?
        && seen == old(seen) + [file]
      ensures |bytes| > MAX_BYTES ==> error == Some(Input)
      ensures |bytes| <= MAX_BYTES && (forall stage :: works(stage)) ==>
        error == (match Contents(cipher, old(file)) case Success(_) => None case Failure(e) => Some(e))
    {
      if |bytes| > MAX_BYTES {
        return Some(Input);
      }
      var existing := Read(works);
      if existing.Failure? {
        return Some(existing.error);
      }
      if !works(Draw) || !works(Seal) || !works(Name) {
        return Some(Storage);
      }
      var sealed := cipher.seal(nonce, bytes);
      var done, renamed := Install(sealed, nonce, works);
      if renamed {
        EnvelopeRoundTrip(cipher, nonce, bytes);
      }
      if done {
        return None;
      }
      if works(RemoveTemp) {
        temp := None;
      }
      error := if renamed then Some(CommitUncertain) else Some(Storage);
    }

    /** A whole commit, as the next transaction sees it: the new document, or the one before. */
    method Commit(codec: Codec, next: Doc, nonce: seq<Byte>, works: Stage -> bool)
      returns (error: Option<AccountError>)
      requires cipher.Lawful() && codec.Lawful() && |nonce| == NONCE && Accepted(Upgrade(next))
      modifies this
      ensures Classify(error) == Kept ==> file == old(file)
      ensures Classify(error) != Kept ==>
        && Contents(cipher, file).Success?
        && Begin(codec, Contents(cipher, file).value) == Success(Upgrade(next))
      ensures (forall stage :: works(stage)) && Contents(cipher, old(file)).Success? ==>
        error == if Encode(codec, next).Success? then None else Some(Input)
    {
      var bytes := Encode(codec, next);
      if bytes.Failure? {
        return Some(bytes.error);
      }
      error := Replace(bytes.value, nonce, works);
      if Classify(error) != Kept {
        CommitThenBegin(codec, next);
      }
    }
  }
}
