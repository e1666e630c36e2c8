/** Invariants of the vault protocol and the safety theorems they give. */
module VaultSafety {
  import opened Fingerprint
  import opened Results
  import opened Accounts
  import opened VaultFormat
  import opened VaultProtocol

  // ------------------------------------------------------------------ the invariant

  ghost predicate DocsOk(docs: seq<Doc>, flight: Option<Flight>) {
    && |docs| > 0
    && (forall m :: 0 <= m < |docs| ==> Sound(docs[m]))
    && (forall m, n :: 0 <= m <= n < |docs| ==> Follows(docs[m], docs[n]))
    && (flight.Some? ==> Sound(flight.value.next) && Follows(Durable(docs), flight.value.next))
  }

  /** Every id a document mentions has been drawn. */
  ghost predicate Known(d: Doc, used: set<Id>) {
    && (forall i :: 0 <= i < |d.accounts| ==> d.accounts[i].id in used)
    && (forall key :: key in d.owners ==> d.owners[key] in used)
  }

  ghost predicate UsedOk(docs: seq<Doc>, flight: Option<Flight>, used: set<Id>, sends: seq<Send>) {
    && Known(Durable(docs), used)
    && (flight.Some? ==> Known(flight.value.next, used))
    && (forall k :: 0 <= k < |sends| ==> sends[k].id in used)
  }

  /** The document gives the account no credential other than `c`. */
  predicate Stuck(d: Doc, id: Id, c: Credential) {
    Has(d, id) ==> Get(d, id).credential == c
  }

  predicate Owned(d: Doc, id: Id, c: Credential) {
    c.HasLineage() ==> KeyOf(c) in d.owners && d.owners[KeyOf(c)] == id
  }

  /** A fenced token was sent and the response was not stored. */
  predicate Open(sends: seq<Send>, installs: map<nat, Install>, k: nat) {
    k < |sends| && sends[k].credential.Fenced? && k !in installs
  }

  ghost predicate NoneOpen(sends: seq<Send>, installs: map<nat, Install>, id: Id) {
    forall k: nat :: Open(sends, installs, k) ==> sends[k].id != id
  }

  /** Response `k` was stored after send `k` and before send `j`. */
  predicate InstalledBetween(installs: map<nat, Install>, k: nat, j: nat) {
    k in installs && k < installs[k].sendsBefore <= j
  }

  /** Document `at` stores the response to the send. */
  predicate Stores(docs: seq<Doc>, send: Send, install: Install) {
    && install.at < |docs|
    && Has(docs[install.at], send.id)
    && Get(docs[install.at], send.id).credential == install.updated
    && Rotates(send.credential, install.updated)
  }

  ghost predicate SentOk(docs: seq<Doc>, sends: seq<Send>) {
    forall k :: 0 <= k < |sends| ==>
      && (sends[k].credential.Fenced? ==> sends[k].credential.pending)
      && Owned(Durable(docs), sends[k].id, sends[k].credential)
  }

  ghost predicate InstalledOk(docs: seq<Doc>, sends: seq<Send>, installs: map<nat, Install>) {
    forall k :: k in installs ==>
      k < |sends| && k < installs[k].sendsBefore <= |sends| && Stores(docs, sends[k], installs[k])
  }

  ghost predicate Separated(sends: seq<Send>, installs: map<nat, Install>) {
    forall i, j :: 0 <= i < j < |sends| && SameAccount(sends[i], sends[j]) ==> InstalledBetween(installs, i, j)
  }

  predicate SameAccount(a: Send, b: Send) {
    a.id == b.id && a.credential.Fenced? && b.credential.Fenced?
  }

  ghost predicate SendsOk(docs: seq<Doc>, sends: seq<Send>, installs: map<nat, Install>) {
    SentOk(docs, sends) && InstalledOk(docs, sends, installs) && Separated(sends, installs)
  }

  /** An account whose token is out keeps the fenced credential until that response is stored. */
  ghost predicate OpenOk(docs: seq<Doc>, flight: Option<Flight>, sends: seq<Send>, installs: map<nat, Install>) {
    forall k: nat :: Open(sends, installs, k) ==>
      && Stuck(Durable(docs), sends[k].id, sends[k].credential)
      && (flight.Some? && !Installs(flight.value.purpose, k) ==>
            Stuck(flight.value.next, sends[k].id, sends[k].credential))
  }

  predicate Installs(purpose: Purpose, k: nat) {
    purpose.InstallWrite? && purpose.send == k && purpose.installs
  }

  ghost predicate FlightOk(flight: Option<Flight>, sends: seq<Send>, installs: map<nat, Install>) {
    flight.Some? ==>
      match flight.value.purpose
      case FenceWrite(_, id, latest) =>
        && latest.Fenced? && latest.pending
        && Stuck(flight.value.next, id, latest) && Owned(flight.value.next, id, latest)
      case InstallWrite(r, id, send, updated, installing) =>
        && send < |sends| && sends[send].reader == r && sends[send].id == id && send !in installs
        && Owned(flight.value.next, id, updated)
        && (installing ==>
              && Rotates(sends[send].credential, updated)
              && Has(flight.value.next, id) && Get(flight.value.next, id).credential == updated)
      case _ => true
  }

  ghost predicate Holds(d: Doc, id: Id, c: Credential) {
    Has(d, id) && Get(d, id).Enabled() && Get(d, id).credential == c
  }

  ghost predicate HeldBy(docs: seq<Doc>, at: nat, id: Id, c: Credential) {
    exists m :: 0 <= m <= at && m < |docs| && Holds(docs[m], id, c)
  }

  ghost predicate CallsOk(docs: seq<Doc>, calls: seq<Call>, readings: seq<Reading>) {
    && (forall i :: 0 <= i < |calls| ==>
          && calls[i].at < |docs|
          && !calls[i].credential.Pending()
          && HeldBy(docs, calls[i].at, calls[i].id, calls[i].credential))
    && (forall i :: 0 <= i < |readings| ==>
          && readings[i].call < |calls|
          && calls[readings[i].call].at <= readings[i].at < |docs|
          && Holds(docs[readings[i].at], calls[readings[i].call].id, calls[readings[i].call].credential))
  }

  ghost predicate FencePc(
    docs: seq<Doc>, flight: Option<Flight>, sends: seq<Send>, installs: map<nat, Install>, r: ReaderId, id: Id, pc: Pc)
  {
    match pc
    case WantsLock(c) => !c.Pending()
    case HasLock(c) => !c.Pending()
    case BeforeFence(c) => c.Fenced? && !c.pending
    case FenceInFlight(latest) =>
      && flight.Some? && flight.value.purpose == FenceWrite(r, id, latest)
      && NoneOpen(sends, installs, id)
    case BeforeSend(latest) =>
      latest.Fenced? ==>
        && latest.pending
        && NoneOpen(sends, installs, id)
        && Owned(Durable(docs), id, latest)
        && Stuck(Durable(docs), id, latest)
        && (flight.Some? ==> Stuck(flight.value.next, id, latest))
    case AwaitingResponse(latest, send) =>
      Sender(sends, installs, r, id, latest, send) && !Installing(flight, send)
    case BeforeInstall(latest, send, updated) =>
      Sender(sends, installs, r, id, latest, send) && !Installing(flight, send) && Rotates(latest, updated)
    case InstallInFlight(latest, send, updated, failure) =>
      && Sender(sends, installs, r, id, latest, send)
      && flight.Some? && flight.value.purpose.InstallWrite?
      && flight.value.purpose == InstallWrite(r, id, send, updated, flight.value.purpose.installs)
      && (failure.None? ==> Holds(flight.value.next, id, updated) && !updated.Pending())
    case _ => true
  }

  predicate Installing(flight: Option<Flight>, send: nat) {
    flight.Some? && flight.value.purpose.InstallWrite? && flight.value.purpose.send == send
  }

  predicate Sender(sends: seq<Send>, installs: map<nat, Install>, r: ReaderId, id: Id, latest: Credential, send: nat) {
    send < |sends| && sends[send] == Send(r, id, latest) && send !in installs
  }

  ghost predicate QuotaPc(docs: seq<Doc>, calls: seq<Call>, id: Id, pc: Pc) {
    match pc
    case BeforeQuota(c, seen, retry) =>
      && seen < |docs| && Holds(docs[seen], id, c)
      && (retry ==> !c.Pending())
    case InQuota(c, call, _) => call < |calls| && calls[call].id == id && calls[call].credential == c
    case Verifying(c, call) => call < |calls| && calls[call].id == id && calls[call].credential == c
    case _ => true
  }

  ghost predicate PcOk(v: Store, r: ReaderId, id: Id, pc: Pc) {
    && id in v.used
    && FencePc(v.docs, v.flight, v.sends, v.installs, r, id, pc)
    && QuotaPc(v.docs, v.calls, id, pc)
  }

  predicate Contend(a: Reader, b: Reader) {
    a.id == b.id && a.pc.Locked() && b.pc.Locked()
  }

  /** At most one reader is inside an account's refresh lock. */
  ghost predicate Exclusive(readers: map<ReaderId, Reader>) {
    forall q, r :: q in readers && r in readers && Contend(readers[q], readers[r]) ==> q == r
  }

  ghost predicate ReadersOk(s: State) {
    forall r :: r in s.readers ==> PcOk(s.store, r, s.readers[r].id, s.readers[r].pc)
  }

  ghost predicate StoreOk(v: Store) {
    && DocsOk(v.docs, v.flight)
    && UsedOk(v.docs, v.flight, v.used, v.sends)
    && SendsOk(v.docs, v.sends, v.installs)
    && OpenOk(v.docs, v.flight, v.sends, v.installs)
    && FlightOk(v.flight, v.sends, v.installs)
    && CallsOk(v.docs, v.calls, v.readings)
  }

  ghost predicate Inv(s: State) {
    StoreOk(s.store) && ReadersOk(s) && Exclusive(s.readers)
  }

  // ------------------------------------------------------------------ documents a reader writes

  lemma LevelKept(d: Doc, id: Id, c: Credential, version: nat)
    requires Format(d) && Has(d, id) && d.version <= version && CredentialLevel(c) <= version
    ensures AccountLevel(Get(d, id).(credential := c)) <= version
  {
    assert AccountLevel(Get(d, id)) <= d.version;
  }

  /** `Reserve` then store: sound, and only this account's credential changes. */
  lemma StoreSound(d: Doc, id: Id, c: Credential)
    requires Sound(d) && Has(d, id) && !Taken(d, id, c)
    requires CredentialLevel(c) <= Reserve(d, id, c).version
    ensures var next := Update(Reserve(d, id, c), Get(d, id).(credential := c));
      && Sound(next) && Follows(d, next) && next.receipts == d.receipts && Upgrade(next) == next
      && Owned(next, id, c) && Has(next, id) && Get(next, id) == Get(d, id).(credential := c)
      && (forall other :: other != id ==>
            Has(next, other) == Has(d, other) && (Has(d, other) ==> Get(next, other) == Get(d, other)))
  {
    hide KeyOf, Find, Format, Lineage, AccountLevel, CredentialLevel, Taken;
    var reserved := Reserve(d, id, c);
    ReserveFollows(d, id, c);
    assert reserved.accounts == d.accounts;
    var account := Get(d, id).(credential := c);
    OwnNameFree(d.accounts, Find(d.accounts, id));
    UpdateDirectory(reserved, account);
    LevelKept(d, id, c, reserved.version);
    UpdateStored(reserved, account);
    UpdateFinds(reserved, account);
    UpgradeIdentity(Update(reserved, account));
  }

  /** A fenced credential or its rotation needs no newer format than the stored one. */
  lemma RotationLevel(d: Doc, id: Id, c: Credential)
    requires Sound(d) && Has(d, id)
    requires var stored := Get(d, id).credential;
      Rotates(stored, c) || (stored.Fenced? && stored.(pending := true) == c)
    ensures CredentialLevel(c) <= Reserve(d, id, c).version
  {
  }

  // ------------------------------------------------------------------ moves that change no store

  lemma ReaderMoved(s: State, r: ReaderId, pc: Pc)
    requires Inv(s) && r in s.readers && PcOk(s.store, r, s.readers[r].id, pc)
    requires pc.Locked() ==> s.readers[r].pc.Locked() || LockFree(s.readers, s.readers[r].id)
    ensures Inv(State(s.store, s.readers[r := s.readers[r].(pc := pc)]))
  {
  }

  lemma ReadAccountOk(v: Store, r: ReaderId, reader: Reader, now: int)
    requires StoreOk(v) && PcOk(v, r, reader.id, reader.pc) && reader.pc.Starting?
    ensures PcOk(v, r, reader.id, DoReadAccount(v, reader, now).pc)
  {
    hide KeyOf, Find, Sound, SendsOk, OpenOk, FlightOk;
  }

  lemma CompareOk(v: Store, r: ReaderId, reader: Reader)
    requires StoreOk(v) && PcOk(v, r, reader.id, reader.pc) && reader.pc.HasLock?
    ensures PcOk(v, r, reader.id, DoCompare(v, reader).pc)
  {
    hide KeyOf, Find, Sound, SendsOk, OpenOk, FlightOk;
  }

  lemma QuotaAnswersOk(v: Store, r: ReaderId, reader: Reader, result: QuotaResult)
    requires StoreOk(v) && PcOk(v, r, reader.id, reader.pc) && reader.pc.InQuota?
    ensures PcOk(v, r, reader.id, DoQuotaAnswers(v, reader, result).pc)
  {
  }

  lemma RespondOk(v: Store, r: ReaderId, reader: Reader, response: Option<Credential>)
    requires PcOk(v, r, reader.id, reader.pc) && reader.pc.AwaitingResponse?
    ensures PcOk(v, r, reader.id, DoRespond(v, reader, response).pc)
  {
  }

  // ------------------------------------------------------------------ calls, readings and sends

  lemma RecordCall(docs: seq<Doc>, calls: seq<Call>, readings: seq<Reading>, call: Call)
    requires CallsOk(docs, calls, readings) && call.at < |docs| && !call.credential.Pending()
    requires HeldBy(docs, call.at, call.id, call.credential)
    ensures CallsOk(docs, calls + [call], readings)
  {
  }

  lemma RecordReading(docs: seq<Doc>, calls: seq<Call>, readings: seq<Reading>, reading: Reading)
    requires CallsOk(docs, calls, readings) && reading.call < |calls|
    requires calls[reading.call].at <= reading.at < |docs|
    requires Holds(docs[reading.at], calls[reading.call].id, calls[reading.call].credential)
    ensures CallsOk(docs, calls, readings + [reading])
  {
  }

  lemma SomeDocument(docs: seq<Doc>, flight: Option<Flight>)
    requires DocsOk(docs, flight)
    ensures |docs| > 0
  {
  }

  lemma CallInTime(docs: seq<Doc>, calls: seq<Call>, readings: seq<Reading>, i: nat)
    requires CallsOk(docs, calls, readings) && i < |calls|
    ensures calls[i].at < |docs|
  {
  }

  lemma CallQuotaOk(v: Store, r: ReaderId, reader: Reader)
    requires StoreOk(v) && PcOk(v, r, reader.id, reader.pc) && reader.pc.BeforeQuota?
    ensures var move := DoCallQuota(v, r, reader); StoreOk(move.store) && PcOk(move.store, r, reader.id, move.pc)
  {
    hide KeyOf, Find, DocsOk, SendsOk, OpenOk, FlightOk, UsedOk, CallsOk;
    SomeDocument(v.docs, v.flight);
    if !reader.pc.credential.Pending() {
      var call := Call(r, reader.id, reader.pc.credential, Latest(v.docs));
      assert HeldBy(v.docs, call.at, call.id, call.credential);
      RecordCall(v.docs, v.calls, v.readings, call);
    }
  }

  lemma VerifyOk(v: Store, r: ReaderId, reader: Reader)
    requires StoreOk(v) && PcOk(v, r, reader.id, reader.pc) && reader.pc.Verifying?
    ensures var move := DoVerify(v, reader); StoreOk(move.store) && PcOk(move.store, r, reader.id, move.pc)
  {
    hide KeyOf, Find, DocsOk, SendsOk, OpenOk, FlightOk, UsedOk, CallsOk;
    SomeDocument(v.docs, v.flight);
    CallInTime(v.docs, v.calls, v.readings, reader.pc.call);
    var reading := Reading(reader.pc.call, Latest(v.docs));
    if DoVerify(v, reader).store != v {
      RecordReading(v.docs, v.calls, v.readings, reading);
    }
  }

  /** A send is made only when every earlier send of the account has its response stored. */
  lemma SendOk(v: Store, r: ReaderId, reader: Reader)
    requires StoreOk(v) && PcOk(v, r, reader.id, reader.pc) && reader.pc.BeforeSend?
    ensures var move := DoSend(v, r, reader); StoreOk(move.store) && PcOk(move.store, r, reader.id, move.pc)
  {
    hide KeyOf, Find, Sound, DocsOk, CallsOk;
    var latest := reader.pc.latest;
    var sends' := v.sends + [Send(r, reader.id, latest)];
    forall i | 0 <= i < |v.sends| && v.sends[i].id == reader.id && v.sends[i].credential.Fenced? && latest.Fenced?
      ensures InstalledBetween(v.installs, i, |v.sends|)
    {
      assert !Open(v.sends, v.installs, i);
    }
    forall k: nat | Open(sends', v.installs, k)
      ensures Open(v.sends, v.installs, k) || k == |v.sends|
    {
    }
  }

  lemma OthersAfterSend(s: State, r: ReaderId, q: ReaderId)
    requires Inv(s) && r in s.readers && q in s.readers && q != r && s.readers[r].pc.BeforeSend?
    ensures PcOk(DoSend(s.store, r, s.readers[r]).store, q, s.readers[q].id, s.readers[q].pc)
  {
  }

  // ------------------------------------------------------------------ taking off

  /** `next` stores, for every drawn account but `except`, nothing new in place of a fenced credential. */
  ghost predicate Carries(d: Doc, next: Doc, used: set<Id>, except: Option<Id>) {
    forall id :: id in used && Has(next, id) && except != Some(id) ==>
      && Has(d, id)
      && (Get(d, id).credential.Fenced? ==> Get(next, id).credential == Get(d, id).credential)
  }

  ghost predicate GoodFlight(v: Store, used: set<Id>, flight: Flight, except: Option<Id>) {
    && v.flight.None? && v.used <= used
    && Sound(flight.next) && Follows(Durable(v.docs), flight.next)
    && Known(flight.next, used)
    && FlightOk(Some(flight), v.sends, v.installs)
    && Carries(Durable(v.docs), flight.next, v.used, except)
    && (except.Some? ==>
          forall k: nat :: Open(v.sends, v.installs, k) && v.sends[k].id == except.value ==>
              Installs(flight.purpose, k))
  }

  lemma TakenOffStore(v: Store, used: set<Id>, flight: Flight, except: Option<Id>)
    requires StoreOk(v) && GoodFlight(v, used, flight, except)
    ensures StoreOk(v.(flight := Some(flight), used := used))
  {
  }

  lemma TakenOffReader(v: Store, used: set<Id>, flight: Flight, except: Option<Id>, q: ReaderId, id: Id, pc: Pc)
    requires StoreOk(v) && GoodFlight(v, used, flight, except) && PcOk(v, q, id, pc)
    requires except == Some(id) ==> !pc.BeforeSend?
    requires flight.purpose.InstallWrite? ==> flight.purpose.reader != q
    ensures PcOk(v.(flight := Some(flight), used := used), q, id, pc)
  {
  }

  lemma ReserveKnown(d: Doc, id: Id, c: Credential, used: set<Id>)
    requires Known(d, used) && id in used
    ensures Known(Reserve(d, id, c), used)
  {
  }

  /** What a reader's write does to the rest of the document. */
  lemma StoreCarries(d: Doc, id: Id, c: Credential, used: set<Id>)
    requires Sound(d) && Has(d, id) && !Taken(d, id, c) && Known(d, used) && id in used
    requires CredentialLevel(c) <= Reserve(d, id, c).version
    ensures var next := Update(Reserve(d, id, c), Get(d, id).(credential := c));
      && Upgrade(next) == next && Known(next, used) && Carries(d, next, used, Some(id))
  {
    hide KeyOf, Find;
    StoreSound(d, id, c);
    ReserveKnown(d, id, c, used);
    var reserved := Reserve(d, id, c);
    var next := Update(reserved, Get(d, id).(credential := c));
    forall i | 0 <= i < |next.accounts| ensures next.accounts[i].id in used {
      assert reserved.accounts[i].id in used;
    }
    assert next.owners == reserved.owners;
  }

  lemma FenceOk(v: Store, r: ReaderId, reader: Reader)
    requires StoreOk(v) && PcOk(v, r, reader.id, reader.pc) && reader.pc.BeforeFence? && v.flight.None?
    ensures var move := DoBeginFence(v, r, reader);
      && PcOk(move.store, r, reader.id, move.pc)
      && (move.store != v ==>
            && move.store.flight.Some? && move.store == v.(flight := move.store.flight)
            && GoodFlight(v, v.used, move.store.flight.value, Some(reader.id)))
  {
    var id := reader.id;
    var c := reader.pc.credential;
    var latest := c.(pending := true);
    var d := Durable(v.docs);
    if !Taken(d, id, latest) && Has(d, id) && Get(d, id).Enabled() && Get(d, id).credential == c {
      RotationLevel(d, id, latest);
      StoreSound(d, id, latest);
      StoreCarries(d, id, latest, v.used);
      forall k: nat | Open(v.sends, v.installs, k)
        ensures v.sends[k].id != id
      {
        assert Stuck(d, v.sends[k].id, v.sends[k].credential);
      }
    }
  }

  lemma OneOpen(sends: seq<Send>, installs: map<nat, Install>, docs: seq<Doc>, j: nat, k: nat)
    requires SendsOk(docs, sends, installs)
    requires Open(sends, installs, j) && Open(sends, installs, k) && sends[j].id == sends[k].id
    ensures j == k
  {
  }

  /** Recording lineage without installing leaves every account as it is. */
  lemma LineageOnlyOk(v: Store, r: ReaderId, id: Id, send: nat, c: Credential)
    requires StoreOk(v) && v.flight.None? && id in v.used && !Taken(Durable(v.docs), id, c)
    requires send < |v.sends| && v.sends[send].id == id && v.sends[send].reader == r && send !in v.installs
    ensures var next := Upgrade(Reserve(Durable(v.docs), id, c));
      GoodFlight(v, v.used, Flight(next, InstallWrite(r, id, send, c, false)), None)
  {
    var d := Durable(v.docs);
    ReserveFollows(d, id, c);
    UpgradeIdentity(Reserve(d, id, c));
    ReserveKnown(d, id, c, v.used);
    assert Reserve(d, id, c).accounts == d.accounts;
  }

  /** While an account stores the credential that was sent, no other send of it is open. */
  lemma OnlyOwnOpen(v: Store, r: ReaderId, id: Id, latest: Credential, send: nat)
    requires SendsOk(v.docs, v.sends, v.installs) && OpenOk(v.docs, v.flight, v.sends, v.installs)
    requires Sender(v.sends, v.installs, r, id, latest, send)
    requires Has(Durable(v.docs), id) && Get(Durable(v.docs), id).credential == latest
    ensures forall k: nat :: Open(v.sends, v.installs, k) && v.sends[k].id == id ==> k == send
  {
  }

  lemma InstallingOk(v: Store, r: ReaderId, reader: Reader)
    requires StoreOk(v) && PcOk(v, r, reader.id, reader.pc) && reader.pc.BeforeInstall? && v.flight.None?
    requires !Taken(Durable(v.docs), reader.id, reader.pc.updated)
    requires Has(Durable(v.docs), reader.id) && Get(Durable(v.docs), reader.id).credential == reader.pc.latest
    ensures
      var d := Durable(v.docs);
      var c := reader.pc.updated;
      var next := Update(Reserve(d, reader.id, c), Get(d, reader.id).(credential := c));
      var flight := Flight(Upgrade(next), InstallWrite(r, reader.id, reader.pc.send, c, true));
      && GoodFlight(v, v.used, flight, Some(reader.id))
      && Has(Upgrade(next), reader.id) && Get(Upgrade(next), reader.id) == Get(d, reader.id).(credential := c)
  {
    var d := Durable(v.docs);
    var id, latest, updated := reader.id, reader.pc.latest, reader.pc.updated;
    assert Sound(d) && Known(d, v.used);
    RotationLevel(d, id, updated);
    StoreSound(d, id, updated);
    StoreCarries(d, id, updated, v.used);
    OnlyOwnOpen(v, r, id, latest, reader.pc.send);
  }

  lemma InstallOk(v: Store, r: ReaderId, reader: Reader)
    requires StoreOk(v) && PcOk(v, r, reader.id, reader.pc) && reader.pc.BeforeInstall? && v.flight.None?
    ensures var move := DoBeginInstall(v, r, reader);
      && PcOk(move.store, r, reader.id, move.pc)
      && (move.store != v ==>
            && move.store.flight.Some? && move.store == v.(flight := move.store.flight)
            && (|| GoodFlight(v, v.used, move.store.flight.value, Some(reader.id))
                || GoodFlight(v, v.used, move.store.flight.value, None)))
  {
    hide KeyOf, Find, StoreOk, GoodFlight, Taken, Upgrade, Reserve, Update, Get;
    var d := Durable(v.docs);
    if !Taken(d, reader.id, reader.pc.updated) {
      var found := Lookup(d, reader.id, reader.provider);
      if found.Some? && found.value.credential == reader.pc.latest {
        InstallingOk(v, r, reader);
      } else {
        LineageOnlyOk(v, r, reader.id, reader.pc.send, reader.pc.updated);
      }
    }
  }

  // ------------------------------------------------------------------ account operations

  lemma PerformOwners(d: Doc, op: Op)
    requires Perform(d, op).Success?
    ensures forall key :: key in Perform(d, op).value.owners ==>
      || Perform(d, op).value.owners[key] == op.id
      || (key in d.owners && Perform(d, op).value.owners[key] == d.owners[key])
    ensures !op.OpAdd? && Perform(d, op).value.owners != d.owners ==> Has(d, op.id)
  {
    if op.OpPatch? {
      PatchSamePlaces(d, op.id, op.newName, op.active, op.enabled);
    }
  }

  lemma PerformKnown(d: Doc, op: Op, used: set<Id>)
    requires Known(d, used) && Perform(d, op).Success? && Sound(d)
    ensures Known(Perform(d, op).value, if op.OpAdd? then used + {op.id} else used)
  {
    var next := Perform(d, op).value;
    var used' := if op.OpAdd? then used + {op.id} else used;
    PerformSecrets(d, op);
    PerformOwners(d, op);
    hide Perform, Sound, KeyOf;
    forall i | 0 <= i < |next.accounts| ensures next.accounts[i].id in used' {
      var id := next.accounts[i].id;
      assert Has(next, id);
      if !(op.OpAdd? && id == op.id) {
        assert Has(d, id) && Get(d, id).id == id;
      }
    }
    if Has(d, op.id) {
      assert Get(d, op.id).id in used;
    }
  }

  /** `next` is what the operation computes, with or without a receipt. */
  predicate Computes(d: Doc, op: Op, next: Doc) {
    && Perform(d, op).Success?
    && next.(receipts := Perform(d, op).value.receipts, version := Perform(d, op).value.version)
         == Perform(d, op).value
    && Perform(d, op).value.version <= next.version
  }

  lemma OpCarries(d: Doc, op: Op, next: Doc, used: set<Id>)
    requires Sound(d) && Computes(d, op, next) && (op.OpAdd? ==> op.id !in used)
    ensures Carries(d, next, used, None)
  {
    hide KeyOf, Find;
    var plain := Perform(d, op).value;
    PerformSecrets(d, op);
    assert next.accounts == plain.accounts;
    forall id | id in used && Has(next, id)
      ensures Has(d, id) && (Get(d, id).credential.Fenced? ==> Get(next, id).credential == Get(d, id).credential)
    {
      assert Has(plain, id) && Get(plain, id) == Get(next, id);
    }
  }

  lemma OpSound(d: Doc, op: Op, next: Doc)
    requires Sound(d) && Fresh(d, op) && Computes(d, op, next) && Format(next)
    ensures Sound(next) && Follows(d, next) && Upgrade(next) == next
  {
    hide KeyOf, Find;
    PerformSound(d, op);
    UpgradeIdentity(next);
    var plain := Perform(d, op).value;
    assert next.accounts == plain.accounts && next.owners == plain.owners;
    assert Lineage(plain) && Directory(plain.accounts);
  }

  lemma OpOk(v: Store, op: Op, next: Doc, purpose: Purpose)
    requires StoreOk(v) && v.flight.None? && DrawsFresh(v, op) && Computes(Durable(v.docs), op, next)
    requires Format(next) && (purpose.OpWrite? || purpose.KeyedWrite?)
    ensures Upgrade(next) == next
    ensures GoodFlight(v, if op.OpAdd? then v.used + {op.id} else v.used, Flight(next, purpose), None)
  {
    var d := Durable(v.docs);
    assert Known(d, v.used) && Sound(d);
    assert Fresh(d, op);
    OpSound(d, op, next);
    PerformKnown(d, op, v.used);
    assert next.accounts == Perform(d, op).value.accounts && next.owners == Perform(d, op).value.owners;
    OpCarries(d, op, next, v.used);
  }

  lemma ReceiptFormat(d: Doc, key: Digest, fingerprint: Digest, op: Op)
    requires Sound(d) && Fresh(d, op)
    requires CommitOnce(d, key, fingerprint, op).Success? && CommitOnce(d, key, fingerprint, op).value.Commit?
    ensures Format(CommitOnce(d, key, fingerprint, op).value.next)
  {
    PerformSound(d, op);
    PerformSecrets(d, op);
  }

  // ------------------------------------------------------------------ resolving a write

  lemma ShownDocs(docs: seq<Doc>, flight: Flight)
    requires DocsOk(docs, Some(flight))
    ensures DocsOk(docs + [flight.next], None)
  {
  }

  lemma ShownSeparated(v: Store, flight: Flight)
    requires Separated(v.sends, v.installs) && FlightOk(Some(flight), v.sends, v.installs)
    ensures Separated(v.sends, Show(v, flight).installs)
  {
  }

  lemma ShownSent(docs: seq<Doc>, next: Doc, sends: seq<Send>)
    requires SentOk(docs, sends) && Follows(Durable(docs), next)
    ensures SentOk(docs + [next], sends)
  {
  }

  lemma ShownInstalled(v: Store, flight: Flight)
    requires InstalledOk(v.docs, v.sends, v.installs) && FlightOk(Some(flight), v.sends, v.installs)
    ensures InstalledOk(Show(v, flight).docs, v.sends, Show(v, flight).installs)
  {
    hide KeyOf, Find;
  }

  lemma ShownOpen(v: Store, flight: Flight)
    requires OpenOk(v.docs, Some(flight), v.sends, v.installs)
    ensures OpenOk(v.docs + [flight.next], None, v.sends, Show(v, flight).installs)
  {
  }

  lemma ShownCalls(docs: seq<Doc>, next: Doc, calls: seq<Call>, readings: seq<Reading>)
    requires CallsOk(docs, calls, readings)
    ensures CallsOk(docs + [next], calls, readings)
  {
    forall i | 0 <= i < |calls| ensures HeldBy(docs + [next], calls[i].at, calls[i].id, calls[i].credential) {
      var m :| 0 <= m <= calls[i].at && m < |docs| && Holds(docs[m], calls[i].id, calls[i].credential);
      assert Holds((docs + [next])[m], calls[i].id, calls[i].credential);
    }
  }

  lemma ShownStore(v: Store, flight: Flight)
    requires StoreOk(v) && v.flight == Some(flight)
    ensures StoreOk(Show(v, flight).(flight := None))
  {
    var next := flight.next;
    assert Follows(Durable(v.docs), next);
    assert UsedOk(v.docs + [next], None, v.used, v.sends);
    hide DocsOk, SentOk, InstalledOk, Separated, OpenOk, CallsOk, UsedOk;
    ShownDocs(v.docs, flight);
    ShownSent(v.docs, next, v.sends);
    ShownInstalled(v, flight);
    ShownSeparated(v, flight);
    ShownOpen(v, flight);
    ShownCalls(v.docs, next, v.calls, v.readings);
  }

  lemma ResolvedStore(v: Store, flight: Flight, outcome: Outcome)
    requires StoreOk(v) && v.flight == Some(flight)
    ensures StoreOk(Resolve(v, flight, outcome))
  {
    if outcome != Kept {
      ShownStore(v, flight);
    }
  }

  /** A reader that is not waiting for this write keeps its place. */
  lemma BystanderOk(v: Store, flight: Flight, outcome: Outcome, q: ReaderId, id: Id, pc: Pc)
    requires StoreOk(v) && v.flight == Some(flight) && PcOk(v, q, id, pc)
    requires !pc.FenceInFlight? && !pc.InstallInFlight?
    ensures PcOk(Resolve(v, flight, outcome), q, id, pc)
  {
    hide Sound, StoreOk, Follows;
    var v' := Resolve(v, flight, outcome);
    if outcome != Kept {
      BystanderFence(v, flight, q, id, pc);
      BystanderQuota(v, flight, id, pc);
    }
    var shown := if outcome == Kept then v else Show(v, flight);
    assert v'.docs == shown.docs && v'.sends == shown.sends && v'.installs == shown.installs;
  }

  lemma BystanderFence(v: Store, flight: Flight, q: ReaderId, id: Id, pc: Pc)
    requires StoreOk(v) && v.flight == Some(flight) && PcOk(v, q, id, pc)
    requires !pc.FenceInFlight? && !pc.InstallInFlight?
    ensures var v' := Show(v, flight); FencePc(v'.docs, None, v'.sends, v'.installs, q, id, pc)
  {
    hide KeyOf, Sound, SendsOk, OpenOk, CallsOk, UsedOk;
    var v' := Show(v, flight);
    assert Durable(v'.docs) == flight.next;
    assert Follows(Durable(v.docs), flight.next);
    forall k: nat | Open(v'.sends, v'.installs, k) ensures Open(v.sends, v.installs, k) {
    }
  }

  lemma BystanderQuota(v: Store, flight: Flight, id: Id, pc: Pc)
    requires QuotaPc(v.docs, v.calls, id, pc)
    ensures QuotaPc(Show(v, flight).docs, v.calls, id, pc)
  {
  }

  lemma WaiterOk(v: Store, flight: Flight, outcome: Outcome, r: ReaderId, id: Id, pc: Pc)
    requires StoreOk(v) && v.flight == Some(flight) && PcOk(v, r, id, pc)
    requires pc.FenceInFlight? || pc.InstallInFlight?
    ensures var v' := Resolve(v, flight, outcome);
      PcOk(v', r, id, Deliver(pc, outcome, Latest(v'.docs)))
  {
    hide KeyOf, Find, Sound, SendsOk, OpenOk, CallsOk;
    var v' := Resolve(v, flight, outcome);
    if outcome == Written {
      assert Durable(v'.docs) == flight.next;
      assert NoneOpen(v.sends, v.installs, id) ==> NoneOpen(v'.sends, v'.installs, id);
    }
  }

  // ------------------------------------------------------------------ every step

  lemma StayingPc(s: State, r: ReaderId, action: Action)
    requires StoreOk(s.store) && r in s.readers && PcOk(s.store, r, s.readers[r].id, s.readers[r].pc)
    requires !action.CallQuota? && !action.Verify? && !action.SendRefresh?
    requires !action.BeginFence? && !action.BeginInstall?
    ensures var move := DoAction(s, r, action);
      && move.store == s.store
      && PcOk(s.store, r, s.readers[r].id, move.pc)
      && (move.pc.Locked() ==> s.readers[r].pc.Locked() || LockFree(s.readers, s.readers[r].id))
  {
    hide Sound, SendsOk, OpenOk, FlightOk, CallsOk;
    var reader := s.readers[r];
    match action
    case ReadAccount(now) =>
      if reader.pc.Starting? && s.store.flight.None? {
        ReadAccountOk(s.store, r, reader, now);
      }
    case QuotaAnswers(result) =>
      if reader.pc.InQuota? {
        QuotaAnswersOk(s.store, r, reader, result);
      }
    case TakeLock =>
    case Compare =>
      if reader.pc.HasLock? && s.store.flight.None? {
        CompareOk(s.store, r, reader);
      }
    case Respond(response) =>
      if reader.pc.AwaitingResponse? {
        RespondOk(s.store, r, reader, response);
      }
    case Cancel =>
  }

  /** Reassembles the invariant after reader `r` moved and the store changed. */
  lemma {:induction false} Moved(s: State, r: ReaderId, move: Move)
    requires Inv(s) && r in s.readers && StoreOk(move.store)
    requires PcOk(move.store, r, s.readers[r].id, move.pc)
    requires move.pc.Locked() ==> s.readers[r].pc.Locked()
    requires forall q :: q in s.readers && q != r ==> PcOk(move.store, q, s.readers[q].id, s.readers[q].pc)
    ensures Inv(State(move.store, s.readers[r := s.readers[r].(pc := move.pc)]))
  {
  }

  /** A call or a reading is recorded: nothing the other readers rely on changes. */
  lemma Recorded(s: State, r: ReaderId, move: Move)
    requires Inv(s) && r in s.readers && StoreOk(move.store) && !move.pc.Locked()
    requires move.store == s.store.(calls := move.store.calls, readings := move.store.readings)
    requires s.store.calls <= move.store.calls
    requires PcOk(move.store, r, s.readers[r].id, move.pc)
    ensures Inv(State(move.store, s.readers[r := s.readers[r].(pc := move.pc)]))
  {
  }

  lemma ActSending(s: State, r: ReaderId)
    requires Inv(s) && r in s.readers && s.readers[r].pc.BeforeSend?
    ensures Inv(Apply(s, Act(r, SendRefresh)))
  {
    SendOk(s.store, r, s.readers[r]);
    var move := DoSend(s.store, r, s.readers[r]);
    forall q | q in s.readers && q != r ensures PcOk(move.store, q, s.readers[q].id, s.readers[q].pc) {
      OthersAfterSend(s, r, q);
    }
    Moved(s, r, move);
  }

  /** Reader `r`, holding its account's refresh lock, hands a document to the backend. */
  lemma TookOff(s: State, r: ReaderId, move: Move, flight: Flight, except: Option<Id>)
    requires Inv(s) && r in s.readers && s.readers[r].pc.Locked()
    requires move.store == s.store.(flight := Some(flight))
    requires GoodFlight(s.store, s.store.used, flight, except) && (except.Some? ==> except.value == s.readers[r].id)
    requires flight.purpose.InstallWrite? ==> flight.purpose.reader == r
    requires PcOk(move.store, r, s.readers[r].id, move.pc)
    ensures Inv(State(move.store, s.readers[r := s.readers[r].(pc := move.pc)]))
  {
    hide PcOk, StoreOk, GoodFlight;
    TakenOffStore(s.store, s.store.used, flight, except);
    forall q | q in s.readers && q != r ensures PcOk(move.store, q, s.readers[q].id, s.readers[q].pc) {
      assert !Contend(s.readers[q], s.readers[r]);
      TakenOffReader(s.store, s.store.used, flight, except, q, s.readers[q].id, s.readers[q].pc);
    }
    hide Exclusive;
    Moved(s, r, move);
  }

  lemma ActFencing(s: State, r: ReaderId)
    requires Inv(s) && r in s.readers && s.readers[r].pc.BeforeFence? && s.store.flight.None?
    ensures Inv(Apply(s, Act(r, BeginFence)))
  {
    hide KeyOf, Find, PcOk, StoreOk, GoodFlight, Exclusive, Reserve, Update, Taken;
    var reader := s.readers[r];
    var move := DoAction(s, r, BeginFence);
    FenceOk(s.store, r, reader);
    if move.store != s.store {
      TookOff(s, r, move, move.store.flight.value, Some(reader.id));
    } else {
      Moved(s, r, move);
    }
  }

  lemma ActInstalling(s: State, r: ReaderId)
    requires Inv(s) && r in s.readers && s.readers[r].pc.BeforeInstall? && s.store.flight.None?
    ensures Inv(Apply(s, Act(r, BeginInstall)))
  {
    hide KeyOf, Find, PcOk, StoreOk, GoodFlight, Exclusive, Reserve, Update, Taken;
    var reader := s.readers[r];
    var move := DoAction(s, r, BeginInstall);
    InstallOk(s.store, r, reader);
    if move.store != s.store {
      var flight := move.store.flight.value;
      var except := if GoodFlight(s.store, s.store.used, flight, None) then None else Some(reader.id);
      TookOff(s, r, move, flight, except);
    } else {
      Moved(s, r, move);
    }
  }

  lemma OperationInv(s: State, op: Op, next: Doc, purpose: Purpose)
    requires Inv(s) && s.store.flight.None? && DrawsFresh(s.store, op)
    requires Computes(Durable(s.store.docs), op, next) && Format(next)
    requires (purpose.OpWrite? || purpose.KeyedWrite?)
    ensures Inv(s.(store := TakeOff(s.store, op, next, purpose)))
  {
    var v := s.store;
    var used := if op.OpAdd? then v.used + {op.id} else v.used;
    OpOk(v, op, next, purpose);
    TakenOffStore(v, used, Flight(next, purpose), None);
    forall q | q in s.readers
      ensures PcOk(TakeOff(v, op, next, purpose), q, s.readers[q].id, s.readers[q].pc)
    {
      TakenOffReader(v, used, Flight(next, purpose), None, q, s.readers[q].id, s.readers[q].pc);
    }
  }

  lemma BeginOpInv(s: State, op: Op)
    requires Inv(s)
    ensures Inv(Apply(s, BeginOp(op)))
  {
    hide KeyOf, Find;
    var d := Durable(s.store.docs);
    if s.store.flight.None? && DrawsFresh(s.store, op) && Perform(d, op).Success? {
      assert Fresh(d, op);
      PerformSound(d, op);
      OperationInv(s, op, Perform(d, op).value, OpWrite(op));
    }
  }

  lemma BeginKeyedInv(s: State, key: Digest, fingerprint: Digest, op: Op)
    requires Inv(s)
    ensures Inv(Apply(s, BeginKeyed(key, fingerprint, op)))
  {
    hide KeyOf, Find;
    var d := Durable(s.store.docs);
    if s.store.flight.None? && DrawsFresh(s.store, op) {
      var once := CommitOnce(d, key, fingerprint, op);
      if once.Success? && once.value.Commit? {
        assert Fresh(d, op);
        ReceiptFormat(d, key, fingerprint, op);
        OperationInv(s, op, once.value.next, KeyedWrite(key, fingerprint, op));
      } else {
        forall q | q in s.readers
          ensures PcOk(Apply(s, BeginKeyed(key, fingerprint, op)).store, q, s.readers[q].id, s.readers[q].pc)
        {
        }
      }
    }
  }

  lemma WriteExclusive(s: State, outcome: Outcome)
    requires Exclusive(s.readers) && s.store.flight.Some?
    ensures Exclusive(DoWrite(s, outcome).readers)
  {
  }

  lemma WriteReaders(s: State, outcome: Outcome)
    requires Inv(s) && s.store.flight.Some?
    ensures ReadersOk(DoWrite(s, outcome))
  {
    hide StoreOk, QuotaPc;
    var flight := s.store.flight.value;
    var s' := DoWrite(s, outcome);
    forall q | q in s'.readers ensures PcOk(s'.store, q, s'.readers[q].id, s'.readers[q].pc) {
      var reader := s.readers[q];
      if reader.pc.FenceInFlight? || reader.pc.InstallInFlight? {
        WaiterOk(s.store, flight, outcome, q, reader.id, reader.pc);
      } else {
        BystanderOk(s.store, flight, outcome, q, reader.id, reader.pc);
      }
    }
  }

  lemma ActInv(s: State, r: ReaderId, action: Action)
    requires Inv(s) && r in s.readers
    ensures Inv(Apply(s, Act(r, action)))
  {
    hide KeyOf, PcOk, StoreOk, Exclusive;
    var pc := s.readers[r].pc;
    if action.CallQuota? && pc.BeforeQuota? {
      CallQuotaOk(s.store, r, s.readers[r]);
      Recorded(s, r, DoCallQuota(s.store, r, s.readers[r]));
    } else if action.Verify? && pc.Verifying? && s.store.flight.None? {
      VerifyOk(s.store, r, s.readers[r]);
      Recorded(s, r, DoVerify(s.store, s.readers[r]));
    } else if action.SendRefresh? && pc.BeforeSend? {
      ActSending(s, r);
    } else if action.CallQuota? || action.Verify? || action.SendRefresh? {
      ReaderMoved(s, r, pc);
    } else if action.BeginFence? && pc.BeforeFence? && s.store.flight.None? {
      ActFencing(s, r);
    } else if action.BeginInstall? && pc.BeforeInstall? && s.store.flight.None? {
      ActInstalling(s, r);
    } else if action.BeginFence? || action.BeginInstall? {
      ReaderMoved(s, r, pc);
    } else {
      StayingPc(s, r, action);
      ReaderMoved(s, r, DoAction(s, r, action).pc);
    }
  }

  lemma WriteInv(s: State, outcome: Outcome)
    requires Inv(s) && s.store.flight.Some?
    ensures Inv(DoWrite(s, outcome))
  {
    ResolvedStore(s.store, s.store.flight.value, outcome);
    WriteReaders(s, outcome);
    WriteExclusive(s, outcome);
    assert DoWrite(s, outcome).store == Resolve(s.store, s.store.flight.value, outcome);
  }

  lemma StartReadInv(s: State, r: ReaderId, id: Id, provider: string)
    requires Inv(s)
    ensures Inv(Apply(s, StartRead(r, id, provider)))
  {
    hide StoreOk;
  }

  lemma {:induction false} StepInv(s: State, step: Step)
    requires Inv(s)
    ensures Inv(Apply(s, step))
  {
    match step
    case StartRead(r, id, provider) => StartReadInv(s, r, id, provider);
    case Act(r, action) =>
      if r in s.readers {
        ActInv(s, r, action);
      }
    case BeginOp(op) => BeginOpInv(s, op);
    case BeginKeyed(key, fingerprint, op) => BeginKeyedInv(s, key, fingerprint, op);
    case Write(outcome) =>
      if s.store.flight.Some? {
        WriteInv(s, outcome);
      }
  }

  lemma {:induction false} RunInv(steps: seq<Step>)
    ensures Inv(Run(steps))
  {
    if steps == [] {
      EmptySound();
    } else {
      RunInv(steps[..|steps| - 1]);
      StepInv(Run(steps[..|steps| - 1]), steps[|steps| - 1]);
    }
  }
}
