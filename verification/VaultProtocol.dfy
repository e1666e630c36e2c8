/**
  The vault under concurrency: readers that refresh single-use tokens, account operations and
  keyed mutations, in any interleaving (src/accounts/service.rs).

  Every lock region is one step.  A write is two steps: `begin` builds the next document and
  takes the vault lock, `Write` resolves it.  A reader that stops in between leaves its write in
  flight, as the detached blocking commit does.  A reader holds its refresh lock exactly while it
  is between taking it and dropping the guard, so stopping releases it.
 */
module VaultProtocol {
  import opened Fingerprint
  import opened Results
  import opened Accounts
  import opened VaultFormat

  type ReaderId = nat

  /** What a backend write reports: done, refused with the old document intact, or visible but unconfirmed. */
  datatype Outcome = Written | Kept | Unconfirmed

  datatype Pc =
    | Starting
    | BeforeQuota(credential: Credential, seen: nat, retry: bool)
    | InQuota(credential: Credential, call: nat, retry: bool)
    | Verifying(credential: Credential, call: nat)
    | WantsLock(credential: Credential)
    | HasLock(credential: Credential)
    | BeforeFence(credential: Credential)
    | FenceInFlight(latest: Credential)
    | BeforeSend(latest: Credential)
    | AwaitingResponse(latest: Credential, send: nat)
    | BeforeInstall(latest: Credential, send: nat, updated: Credential)
    | InstallInFlight(latest: Credential, send: nat, updated: Credential, failure: Option<AccountError>)
    | Finished(error: Option<AccountError>)
  {
    /** The reader holds its account's refresh lock. */
    predicate Locked() {
      HasLock? || BeforeFence? || FenceInFlight? || BeforeSend? || AwaitingResponse? || BeforeInstall?
      || InstallInFlight?
    }
  }

  datatype Reader = Reader(id: Id, provider: string, pc: Pc)

  datatype Purpose =
    | FenceWrite(reader: ReaderId, account: Id, latest: Credential)
    | InstallWrite(reader: ReaderId, account: Id, send: nat, updated: Credential, installs: bool)
    | OpWrite(op: Op)
    | KeyedWrite(key: Digest, fingerprint: Digest, op: Op)

  /** A document on its way to the backend, under the vault lock. */
  datatype Flight = Flight(next: Doc, purpose: Purpose)

  datatype Send = Send(reader: ReaderId, id: Id, credential: Credential)
  datatype Install = Install(at: nat, sendsBefore: nat, updated: Credential)
  datatype Call = Call(reader: ReaderId, id: Id, credential: Credential, at: nat)
  datatype Reading = Reading(call: nat, at: nat)
  datatype Applied = Applied(key: Digest, fingerprint: Digest, op: Op, at: nat)
  datatype Answer = Answer(key: Digest, fingerprint: Digest, account: Id)

  /**
    `docs` lists every document that became visible, the current one last.  `sends`, `calls`,
    `readings`, `applied` and `answers` record what happened.  `installs[k]` says which document
    first stored the response to send `k`, and how many sends had been made by then.
   */
  datatype Store = Store(
    docs: seq<Doc>,
    flight: Option<Flight>,
    used: set<Id>,
    sends: seq<Send>,
    installs: map<nat, Install>,
    calls: seq<Call>,
    readings: seq<Reading>,
    applied: seq<Applied>,
    answers: seq<Answer>)

  datatype State = State(store: Store, readers: map<ReaderId, Reader>)

  const INITIAL: State := State(Store([EMPTY], None, {}, [], map[], [], [], [], []), map[])

  function Durable(docs: seq<Doc>): Doc {
    if docs == [] then EMPTY else docs[|docs| - 1]
  }

  /** The index of the current document. */
  function Latest(docs: seq<Doc>): nat {
    if docs == [] then 0 else |docs| - 1
  }

  datatype QuotaResult = Usage | Unauthorized | OtherError

  /** What a reader does next, whenever it is its turn. */
  datatype Action =
    | ReadAccount(now: int)
    | CallQuota
    | QuotaAnswers(result: QuotaResult)
    | Verify
    | TakeLock
    | Compare
    | BeginFence
    | SendRefresh
    | Respond(response: Option<Credential>)
    | BeginInstall
    | Cancel

  datatype Step =
    | StartRead(r: ReaderId, id: Id, provider: string)
    | Act(r: ReaderId, action: Action)
    | BeginOp(op: Op)
    | BeginKeyed(key: Digest, fingerprint: Digest, op: Op)
    | Write(outcome: Outcome)

  /** Where an action leaves the store and the reader's program counter. */
  datatype Move = Move(store: Store, pc: Pc)

  // ------------------------------------------------------------------ ManagedProvider::read

  function Fail(v: Store, error: AccountError): Move {
    Move(v, Finished(Some(error)))
  }

  function Lookup(d: Doc, id: Id, provider: string): Option<Account> {
    if Has(d, id) && Get(d, id).provider == provider then Some(Get(d, id)) else None
  }

  function RefreshMargin(provider: string): int {
    if provider == "grok" then 300 else 60
  }

  function DoReadAccount(v: Store, reader: Reader, now: int): Move
    requires reader.pc.Starting?
  {
    match Lookup(Durable(v.docs), reader.id, reader.provider)
    case None => Fail(v, NotFound)
    case Some(account) =>
      var credential := account.credential;
      if !account.Enabled() then Fail(v, SourceDisabled)
      else if credential.Pending() then Fail(v, CommitUncertain)
      else if !credential.Refreshable() then Move(v, BeforeQuota(credential, Latest(v.docs), false))
      else if credential.expiresAt <= now + RefreshMargin(reader.provider) then Move(v, WantsLock(credential))
      else Move(v, BeforeQuota(credential, Latest(v.docs), true))
  }

  /** `scoped` refuses a fenced credential before any request is made. */
  function DoCallQuota(v: Store, r: ReaderId, reader: Reader): Move
    requires reader.pc.BeforeQuota?
  {
    if reader.pc.credential.Pending() then Fail(v, CommitUncertain)
    else
      Move(v.(calls := v.calls + [Call(r, reader.id, reader.pc.credential, Latest(v.docs))]),
           InQuota(reader.pc.credential, |v.calls|, reader.pc.retry))
  }

  function DoQuotaAnswers(v: Store, reader: Reader, result: QuotaResult): Move
    requires reader.pc.InQuota?
  {
    match result
    case Usage => Move(v, Verifying(reader.pc.credential, reader.pc.call))
    case Unauthorized => if reader.pc.retry then Move(v, WantsLock(reader.pc.credential)) else Fail(v, Provider)
    case OtherError => Fail(v, Provider)
  }

  function DoVerify(v: Store, reader: Reader): Move
    requires reader.pc.Verifying?
  {
    match Lookup(Durable(v.docs), reader.id, reader.provider)
    case None => Fail(v, NotFound)
    case Some(current) =>
      if !current.Enabled() || current.credential != reader.pc.credential then Fail(v, Busy)
      else Move(v.(readings := v.readings + [Reading(reader.pc.call, Latest(v.docs))]), Finished(None))
  }

  function DoCompare(v: Store, reader: Reader): Move
    requires reader.pc.HasLock?
  {
    match Lookup(Durable(v.docs), reader.id, reader.provider)
    case None => Fail(v, NotFound)
    case Some(account) =>
      if !account.Enabled() then Fail(v, SourceDisabled)
      else if account.credential != reader.pc.credential then
        Move(v, BeforeQuota(account.credential, Latest(v.docs), false))
      else if account.credential.Fenced? then Move(v, BeforeFence(account.credential))
      else Move(v, BeforeSend(account.credential))
  }

  function DoBeginFence(v: Store, r: ReaderId, reader: Reader): Move
    requires reader.pc.BeforeFence? && reader.pc.credential.Fenced?
  {
    var id := reader.id;
    var latest := reader.pc.credential.(pending := true);
    var d := Durable(v.docs);
    if Taken(d, id, latest) then Fail(v, Duplicate)
    else if !Has(d, id) then Fail(v, NotFound)
    else if !Get(d, id).Enabled() || Get(d, id).credential != reader.pc.credential then Fail(v, Busy)
    else
      var next := Update(Reserve(d, id, latest), Get(d, id).(credential := latest));
      Move(v.(flight := Some(Flight(Upgrade(next), FenceWrite(r, id, latest)))), FenceInFlight(latest))
  }

  function DoSend(v: Store, r: ReaderId, reader: Reader): Move
    requires reader.pc.BeforeSend?
  {
    Move(v.(sends := v.sends + [Send(r, reader.id, reader.pc.latest)]),
         AwaitingResponse(reader.pc.latest, |v.sends|))
  }

  /** A refresh returns the variant it was given, no longer fenced. */
  predicate Rotates(latest: Credential, updated: Credential) {
    || (latest.Fenced? && updated.Fenced? && updated.kind == latest.kind && !updated.pending)
    || (latest.CodexOAuth? && updated.CodexOAuth?)
  }

  function DoRespond(v: Store, reader: Reader, response: Option<Credential>): Move
    requires reader.pc.AwaitingResponse?
  {
    if response.Some? && Rotates(reader.pc.latest, response.value) then
      Move(v, BeforeInstall(reader.pc.latest, reader.pc.send, response.value))
    else Fail(v, Provider)
  }

  /** The returned token's lineage is written even when the credential cannot be installed. */
  function DoBeginInstall(v: Store, r: ReaderId, reader: Reader): Move
    requires reader.pc.BeforeInstall?
  {
    var pc := reader.pc;
    var d := Durable(v.docs);
    if Taken(d, reader.id, pc.updated) then Fail(v, Duplicate)
    else
      var reserved := Reserve(d, reader.id, pc.updated);
      var found := Lookup(d, reader.id, reader.provider);
      var installs := found.Some? && found.value.credential == pc.latest;
      var next := if installs then Update(reserved, found.value.(credential := pc.updated)) else reserved;
      var failure :=
        if found.None? then Some(NotFound)
        else if !installs then Some(Busy)
        else if found.value.(credential := pc.updated).Enabled() then None
        else Some(SourceDisabled);
      Move(v.(flight := Some(Flight(Upgrade(next), InstallWrite(r, reader.id, pc.send, pc.updated, installs)))),
           InstallInFlight(pc.latest, pc.send, pc.updated, failure))
  }

  /** The refresh lock of an account is free. */
  predicate LockFree(readers: map<ReaderId, Reader>, id: Id) {
    forall q :: q in readers && readers[q].id == id ==> !readers[q].pc.Locked()
  }

  /** An action that cannot happen at this point leaves everything as it is. */
  function DoAction(s: State, r: ReaderId, action: Action): Move
    requires r in s.readers
  {
    var reader := s.readers[r];
    var idle := s.store.flight.None?;
    var stay := Move(s.store, reader.pc);
    match action
    case ReadAccount(now) => if reader.pc.Starting? && idle then DoReadAccount(s.store, reader, now) else stay
    case CallQuota => if reader.pc.BeforeQuota? then DoCallQuota(s.store, r, reader) else stay
    case QuotaAnswers(result) => if reader.pc.InQuota? then DoQuotaAnswers(s.store, reader, result) else stay
    case Verify => if reader.pc.Verifying? && idle then DoVerify(s.store, reader) else stay
    case TakeLock =>
      if reader.pc.WantsLock? && LockFree(s.readers, reader.id)
      then Move(s.store, HasLock(reader.pc.credential)) else stay
    case Compare => if reader.pc.HasLock? && idle then DoCompare(s.store, reader) else stay
    case BeginFence =>
      if reader.pc.BeforeFence? && reader.pc.credential.Fenced? && idle
      then DoBeginFence(s.store, r, reader) else stay
    case SendRefresh => if reader.pc.BeforeSend? then DoSend(s.store, r, reader) else stay
    case Respond(response) => if reader.pc.AwaitingResponse? then DoRespond(s.store, reader, response) else stay
    case BeginInstall => if reader.pc.BeforeInstall? && idle then DoBeginInstall(s.store, r, reader) else stay
    case Cancel => if reader.pc.Finished? then stay else Fail(s.store, Cancelled)
  }

  // ------------------------------------------------------------------ account operations

  /** Ids are drawn at random, so an `add` never draws one that was used before. */
  predicate DrawsFresh(v: Store, op: Op) {
    op.OpAdd? ==> op.id !in v.used
  }

  function TakeOff(v: Store, op: Op, next: Doc, purpose: Purpose): Store {
    v.(flight := Some(Flight(Upgrade(next), purpose)), used := if op.OpAdd? then v.used + {op.id} else v.used)
  }

  function DoBeginOp(v: Store, op: Op): Store {
    match Perform(Durable(v.docs), op)
    case Failure(_) => v
    case Success(next) => TakeOff(v, op, next, OpWrite(op))
  }

  /** A retry is answered from its receipt; a first call has a document to commit. */
  datatype Once = Replay(account: Id) | Commit(next: Doc)

  /** `commit_once` up to its commit. */
  function CommitOnce(d: Doc, key: Digest, fingerprint: Digest, op: Op): Result<Once, AccountError> {
    if key in d.receipts then
      if d.receipts[key].fingerprint == fingerprint then Success(Replay(d.receipts[key].accountId))
      else Failure(IdempotencyConflict)
    else if |d.receipts| >= MAX_RECEIPTS then Failure(IdempotencyFull)
    else
      match Perform(d, op)
      case Failure(error) => Failure(error)
      case Success(next) =>
        Success(Commit(next.(receipts := next.receipts[key := Receipt(fingerprint, op.id)],
                             version := Max(next.version, 2))))
  }

  function DoBeginKeyed(v: Store, key: Digest, fingerprint: Digest, op: Op): Store {
    match CommitOnce(Durable(v.docs), key, fingerprint, op)
    case Failure(_) => v
    case Success(Replay(account)) => v.(answers := v.answers + [Answer(key, fingerprint, account)])
    case Success(Commit(next)) => TakeOff(v, op, next, KeyedWrite(key, fingerprint, op))
  }

  // ------------------------------------------------------------------ resolving a write

  /** The in-flight document becomes the visible one. */
  function Show(v: Store, flight: Flight): Store {
    var shown := v.(docs := v.docs + [flight.next]);
    match flight.purpose
    case FenceWrite(_, _, _) => shown
    case InstallWrite(_, _, send, updated, installs) =>
      if installs then shown.(installs := v.installs[send := Install(|v.docs|, |v.sends|, updated)]) else shown
    case OpWrite(_) => shown
    case KeyedWrite(key, fingerprint, op) =>
      shown.(applied := v.applied + [Applied(key, fingerprint, op, |v.docs|)])
  }

  function Resolve(v: Store, flight: Flight, outcome: Outcome): Store {
    var resolved := (if outcome == Kept then v else Show(v, flight)).(flight := None);
    if outcome == Written && flight.purpose.KeyedWrite? then
      resolved.(answers := v.answers + [Answer(flight.purpose.key, flight.purpose.fingerprint, flight.purpose.op.id)])
    else resolved
  }

  /** The reader waiting for its own write learns the outcome; `at` is the document it then sees. */
  function Deliver(pc: Pc, outcome: Outcome, at: nat): Pc {
    if !pc.FenceInFlight? && !pc.InstallInFlight? then pc
    else if outcome == Kept then Finished(Some(Storage))
    else if outcome == Unconfirmed then Finished(Some(CommitUncertain))
    else if pc.FenceInFlight? then BeforeSend(pc.latest)
    else if pc.failure.Some? then Finished(pc.failure)
    else BeforeQuota(pc.updated, at, false)
  }

  function DoWrite(s: State, outcome: Outcome): State
    requires s.store.flight.Some?
  {
    var flight := s.store.flight.value;
    var store := Resolve(s.store, flight, outcome);
    if !flight.purpose.FenceWrite? && !flight.purpose.InstallWrite? then s.(store := store)
    else
      var r := flight.purpose.reader;
      if r !in s.readers then s.(store := store)
      else State(store, s.readers[r := s.readers[r].(pc := Deliver(s.readers[r].pc, outcome, Latest(store.docs)))])
  }

  function Apply(s: State, step: Step): State {
    match step
    case StartRead(r, id, provider) =>
      if r in s.readers || id !in s.store.used then s
      else s.(readers := s.readers[r := Reader(id, provider, Starting)])
    case Act(r, action) =>
      if r !in s.readers then s
      else
        var move := DoAction(s, r, action);
        State(move.store, s.readers[r := s.readers[r].(pc := move.pc)])
    case BeginOp(op) =>
      if s.store.flight.None? && DrawsFresh(s.store, op) then s.(store := DoBeginOp(s.store, op)) else s
    case BeginKeyed(key, fingerprint, op) =>
      if s.store.flight.None? && DrawsFresh(s.store, op)
      then s.(store := DoBeginKeyed(s.store, key, fingerprint, op)) else s
    case Write(outcome) =>
      if s.store.flight.Some? then DoWrite(s, outcome) else s
  }

  /** The state after any sequence of attempted steps; a step that cannot happen yet changes nothing. */
  function Run(steps: seq<Step>): State {
    if steps == [] then INITIAL else Apply(Run(steps[..|steps| - 1]), steps[|steps| - 1])
  }
}
