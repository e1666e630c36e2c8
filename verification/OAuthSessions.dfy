/**
  The sign-in session table (src/accounts/oauth.rs): what each region under the table's lock does,
  as a function on the table and as a method that changes it in place.
 */
module OAuthSessions {
  import opened Results
  import opened Accounts

  type SessionId = string
  type Key = string

  const CAPACITY: nat := 128
  /** Seconds a finished session stays readable after its lifetime. */
  const LINGER: nat := 720

  datatype Mode = Relay | Loopback
  datatype Workflow = BrowserCallback | ManualCode | DeviceCode
  datatype Status = Waiting | Processing | Completed | Failed | Cancelled | Expired

  /** What a caller asks to begin. */
  datatype Request = Request(provider: string, name: Option<string>, mode: Mode)

  /** `authorized` says that the session still holds its one-time authorization. */
  datatype Session = Session(
    provider: string, workflow: Workflow, lifetime: nat, authorized: bool, name: Option<string>,
    created: nat, status: Status, accountId: Option<Id>, errorCode: Option<string>)

  datatype Claim = Claim(request: Request, session: Option<SessionId>)

  datatype Table = Table(sessions: map<SessionId, Session>, begins: map<Key, Claim>)

  const EMPTY_TABLE: Table := Table(map[], map[])

  /** The sign-in flow a request leads to, if it is supported. */
  function WorkflowOf(request: Request): Option<Workflow> {
    if request.provider == "copilot" then (if request.mode.Relay? then Some(DeviceCode) else None)
    else if request.provider == "codex" then Some(BrowserCallback)
    else if request.provider == "claude" && request.mode.Relay? then Some(ManualCode)
    else None
  }

  predicate NameAllowed(request: Request) {
    request.name.Some? ==> ValidateLabel(request.name.value).Success?
  }

  // ------------------------------------------------------------------ prune

  function Expire(session: Session, now: int): Session {
    if session.status == Waiting && now - session.created >= session.lifetime
    then session.(status := Expired, authorized := false) else session
  }

  predicate Retained(session: Session, now: int) {
    session.status == Processing || now - session.created <= session.lifetime + LINGER
  }

  function PrunedSessions(sessions: map<SessionId, Session>, now: int): map<SessionId, Session> {
    map id | id in sessions && Retained(sessions[id], now) :: Expire(sessions[id], now)
  }

  function PrunedBegins(begins: map<Key, Claim>, sessions: map<SessionId, Session>): map<Key, Claim> {
    map key | key in begins && (begins[key].session.None? || begins[key].session.value in sessions) :: begins[key]
  }

  /** A pruned table within capacity; larger ones are trimmed too, but no reachable table is larger. */
  function Pruned(t: Table, now: int): Table {
    var sessions := PrunedSessions(t.sessions, now);
    Table(sessions, PrunedBegins(t.begins, sessions))
  }

  predicate Finished(session: Session) {
    session.status != Waiting && session.status != Processing
  }

  // ------------------------------------------------------------------ lock regions

  function With(t: Table, id: SessionId, session: Session): Table {
    t.(sessions := t.sessions[id := session])
  }

  function GetSession(t: Table, id: SessionId, now: int): (Table, Result<Session, AccountError>) {
    var p := Pruned(t, now);
    if id in p.sessions then (p, Success(p.sessions[id])) else (p, Failure(NotFound))
  }

  function Cancel(t: Table, id: SessionId, now: int): (Table, Result<Session, AccountError>) {
    var p := Pruned(t, now);
    if id !in p.sessions then (p, Failure(NotFound))
    else if p.sessions[id].status != Waiting then (p, Failure(Busy))
    else
      var session := p.sessions[id].(status := Status.Cancelled, authorized := false);
      (With(p, id, session), Success(session))
  }

  /** Taking the authorization is what lets one caller, and no other, go on to finish. */
  function ClaimCode(t: Table, id: SessionId, now: int): (Table, Result<Session, AccountError>) {
    var p := Pruned(t, now);
    if id !in p.sessions then (p, Failure(NotFound))
    else if p.sessions[id].status != Waiting then (p, Failure(Busy))
    else
      var session := p.sessions[id].(status := Processing, authorized := false);
      (With(p, id, session), if p.sessions[id].authorized then Success(session) else Failure(Busy))
  }

  function ClaimDevice(t: Table, id: SessionId, now: int): (Table, Result<Session, AccountError>) {
    var p := Pruned(t, now);
    if id !in p.sessions then (p, Failure(NotFound))
    else if p.sessions[id].status != Waiting then (p, Failure(Busy))
    else
      var session := p.sessions[id].(status := Processing);
      (With(p, id, session), Success(session))
  }

  function EndDevice(t: Table, id: SessionId, status: Status, errorCode: Option<string>): Table {
    if id in t.sessions && t.sessions[id].status == Waiting
    then With(t, id, t.sessions[id].(status := status, errorCode := errorCode)) else t
  }

  function EndLoopback(t: Table, id: SessionId): Table {
    if id in t.sessions && t.sessions[id].status == Waiting
    then With(t, id, t.sessions[id].(status := Expired, authorized := false)) else t
  }

  function HasRoom(t: Table): bool {
    |t.sessions| < CAPACITY
  }

  function Insert(t: Table, id: SessionId, session: Session, now: int): (Table, bool) {
    var p := Pruned(t, now);
    if HasRoom(p) then (With(p, id, session), true) else (p, false)
  }

  datatype Begun = Existing(session: Session) | Started | Refused(error: AccountError)

  function BeginKeyed(t: Table, key: Key, request: Request, now: int): (Table, Begun) {
    var p := Pruned(t, now);
    if key in p.begins then
      var claim := p.begins[key];
      if claim.request != request then (p, Refused(IdempotencyConflict))
      else if claim.session.Some? && claim.session.value in p.sessions
      then (p, Existing(p.sessions[claim.session.value]))
      else (p, Refused(Busy))
    else if |p.begins| >= CAPACITY || |p.sessions| >= CAPACITY then (p, Refused(Busy))
    else (p.(begins := p.begins[key := Claim(request, None)]), Started)
  }

  /** The detached begin is over: bind its claim to the session, or give the key back. */
  function RecordBegin(t: Table, key: Key, result: Option<SessionId>): Table {
    if key !in t.begins then t
    else if result.Some? then t.(begins := t.begins[key := t.begins[key].(session := result)])
    else t.(begins := t.begins - {key})
  }

  function FailureCode(error: AccountError): string {
    match error
    case Storage => "credential_storage_unavailable"
    case CommitUncertain => "credential_commit_uncertain"
    case Busy => "account_busy"
    case Cancelled => "cancelled"
    case Provider => "validation_failed"
    case _ => "oauth_failed"
  }

  function Settle(t: Table, id: SessionId, result: Result<Id, AccountError>): (Table, Result<Session, AccountError>) {
    if id !in t.sessions then (t, Failure(NotFound))
    else
      match result
      case Success(account) =>
        var session := t.sessions[id].(status := Completed, accountId := Some(account));
        (With(t, id, session), Success(session))
      case Failure(error) =>
        (With(t, id, t.sessions[id].(status := Failed, errorCode := Some(FailureCode(error)))), Failure(error))
  }

  // ------------------------------------------------------------------ the table in place

  class SessionTable {
    var sessions: map<SessionId, Session>
    var begins: map<Key, Claim>

    function Value(): Table
      reads this
    {
      Table(sessions, begins)
    }

    constructor ()
      ensures Value() == EMPTY_TABLE
    {
      sessions, begins := map[], map[];
    }

    method ExpireAll(now: int)
      modifies this`sessions
      ensures sessions == map id | id in old(sessions) :: Expire(old(sessions)[id], now)
    {
      var pending := sessions.Keys;
      while pending != {}
        invariant pending <= sessions.Keys == old(sessions).Keys
        invariant forall id :: id in sessions ==>
          sessions[id] == if id in pending then old(sessions)[id] else Expire(old(sessions)[id], now)
        decreases |pending|
      {
        var id :| id in pending;
        pending := pending - {id};
        if sessions[id].status == Waiting && now - sessions[id].created >= sessions[id].lifetime {
          sessions := sessions[id := sessions[id].(status := Expired, authorized := false)];
        }
      }
    }

    /** Over capacity, the oldest finished sessions go first, and only finished ones go. */
    method Trim()
      modifies this`sessions
      ensures |old(sessions)| <= CAPACITY ==> sessions == old(sessions)
      ensures sessions.Keys <= old(sessions).Keys && forall id :: id in sessions ==> sessions[id] == old(sessions)[id]
      ensures forall id :: id in old(sessions) && id !in sessions ==> Finished(old(sessions)[id])
      ensures forall gone, kept ::
        gone in old(sessions) && gone !in sessions && kept in sessions && Finished(sessions[kept]) ==>
          old(sessions)[gone].created <= sessions[kept].created
      ensures |sessions| <= CAPACITY || forall id :: id in sessions ==> !Finished(sessions[id])
      ensures |old(sessions)| > CAPACITY ==> |sessions| >= CAPACITY
    {
      while |sessions| > CAPACITY
        invariant |old(sessions)| <= CAPACITY ==> sessions == old(sessions)
        invariant sessions.Keys <= old(sessions).Keys && forall id :: id in sessions ==>
            sessions[id] == old(sessions)[id]
        invariant forall id :: id in old(sessions) && id !in sessions ==> Finished(old(sessions)[id])
        invariant forall gone, kept ::
          gone in old(sessions) && gone !in sessions && kept in sessions && Finished(sessions[kept]) ==>
            old(sessions)[gone].created <= sessions[kept].created
        invariant |old(sessions)| > CAPACITY ==> |sessions| >= CAPACITY
        decreases |sessions|
      {
        var oldest := Oldest();
        if oldest.None? {
          return;
        }
        assert (sessions - {oldest.value}).Keys == sessions.Keys - {oldest.value};
        sessions := sessions - {oldest.value};
      }
    }

    method Oldest() returns (oldest: Option<SessionId>)
      ensures oldest.None? ==> forall id :: id in sessions ==> !Finished(sessions[id])
      ensures oldest.Some? ==> oldest.value in sessions && Finished(sessions[oldest.value])
      ensures oldest.Some? ==>
        forall id :: id in sessions && Finished(sessions[id]) ==> sessions[oldest.value].created <= sessions[id].created
    {
      oldest := None;
      var pending := sessions.Keys;
      while pending != {}
        invariant pending <= sessions.Keys
        invariant oldest.None? ==> forall id :: id in sessions && id !in pending ==> !Finished(sessions[id])
        invariant oldest.Some? ==> oldest.value in sessions && Finished(sessions[oldest.value])
        invariant oldest.Some? ==>
          forall id :: id in sessions && id !in pending && Finished(sessions[id]) ==>
            sessions[oldest.value].created <= sessions[id].created
        decreases |pending|
      {
        var id :| id in pending;
        pending := pending - {id};
        if Finished(sessions[id]) && (oldest.None? || sessions[id].created < sessions[oldest.value].created) {
          oldest := Some(id);
        }
      }
    }

    method Prune(now: int)
      modifies this
      ensures |PrunedSessions(old(sessions), now)| <= CAPACITY ==> Value() == Pruned(old(Value()), now)
      ensures sessions.Keys <= PrunedSessions(old(sessions), now).Keys
      ensures forall key :: key in begins && begins[key].session.Some? ==> begins[key].session.value in sessions
    {
      ExpireAll(now);
      sessions := map id | id in sessions && Retained(sessions[id], now) :: sessions[id];
      assert sessions == PrunedSessions(old(sessions), now);
      Trim();
      begins := map key | key in begins
          && (begins[key].session.None? || begins[key].session.value in sessions) :: begins[key];
    }

    method CancelSession(id: SessionId, now: int) returns (result: Result<Session, AccountError>)
      requires |sessions| <= CAPACITY
      modifies this
      ensures (Value(), result) == Cancel(old(Value()), id, now)
    {
      SmallerPruned(sessions, now);
      Prune(now);
      if id !in sessions {
        return Failure(NotFound);
      }
      if sessions[id].status != Waiting {
        return Failure(Busy);
      }
      sessions := sessions[id := sessions[id].(status := Status.Cancelled, authorized := false)];
      result := Success(sessions[id]);
    }

    method ClaimSession(id: SessionId, now: int) returns (result: Result<Session, AccountError>)
      requires |sessions| <= CAPACITY
      modifies this
      ensures (Value(), result) == ClaimCode(old(Value()), id, now)
    {
      SmallerPruned(sessions, now);
      Prune(now);
      if id !in sessions {
        return Failure(NotFound);
      }
      if sessions[id].status != Waiting {
        return Failure(Busy);
      }
      var authorized := sessions[id].authorized;
      sessions := sessions[id := sessions[id].(status := Processing, authorized := false)];
      result := if authorized then Success(sessions[id]) else Failure(Busy);
    }

    method ClaimDeviceSession(id: SessionId, now: int) returns (result: Result<Session, AccountError>)
      requires |sessions| <= CAPACITY
      modifies this
      ensures (Value(), result) == ClaimDevice(old(Value()), id, now)
    {
      SmallerPruned(sessions, now);
      Prune(now);
      if id !in sessions {
        return Failure(NotFound);
      }
      if sessions[id].status != Waiting {
        return Failure(Busy);
      }
      sessions := sessions[id := sessions[id].(status := Processing)];
      result := Success(sessions[id]);
    }

    method InsertSession(id: SessionId, session: Session, now: int) returns (inserted: bool)
      requires |sessions| <= CAPACITY
      modifies this
      ensures (Value(), inserted) == Insert(old(Value()), id, session, now)
    {
      SmallerPruned(sessions, now);
      Prune(now);
      inserted := |sessions| < CAPACITY;
      if inserted {
        sessions := sessions[id := session];
      }
    }

    method SettleSession(id: SessionId, outcome: Result<Id, AccountError>) returns (result: Result<Session,
        AccountError>)
      modifies this`sessions
      ensures (Value(), result) == Settle(old(Value()), id, outcome)
    {
      if id !in sessions {
        return Failure(NotFound);
      }
      match outcome {
        case Success(account) =>
          sessions := sessions[id := sessions[id].(status := Completed, accountId := Some(account))];
          result := Success(sessions[id]);
        case Failure(error) =>
          sessions := sessions[id := sessions[id].(status := Failed, errorCode := Some(FailureCode(error)))];
          result := Failure(error);
      }
    }

    /** Reserve the key, or say what it already stands for. */
    method Begin(key: Key, request: Request, now: int) returns (begun: Begun)
      requires |sessions| <= CAPACITY
      modifies this
      ensures (Value(), begun) == BeginKeyed(old(Value()), key, request, now)
    {
      SmallerPruned(sessions, now);
      Prune(now);
      if key in begins {
        var claim := begins[key];
        if claim.request != request {
          return Refused(IdempotencyConflict);
        }
        if claim.session.None? {
          return Refused(Busy);
        }
        return Existing(sessions[claim.session.value]);
      }
      if |begins| >= CAPACITY || |sessions| >= CAPACITY {
        return Refused(Busy);
      }
      begins := begins[key := Claim(request, None)];
      begun := Started;
    }
  }

  /** Pruning never adds a session. */
  lemma SmallerPruned(sessions: map<SessionId, Session>, now: int)
    ensures |PrunedSessions(sessions, now)| <= |sessions|
  {
    var pruned := PrunedSessions(sessions, now);
    assert pruned.Keys <= sessions.Keys;
    SubsetSize(pruned.Keys, sessions.Keys);
  }

  lemma {:induction false} SubsetSize<T>(a: set<T>, b: set<T>)
    requires a <= b
    ensures |a| <= |b|
  {
    assert b == a + (b - a);
  }

  lemma SmallerBegins(begins: map<Key, Claim>, sessions: map<SessionId, Session>)
    ensures |PrunedBegins(begins, sessions)| <= |begins|
  {
    var pruned := PrunedBegins(begins, sessions);
    assert pruned.Keys <= begins.Keys;
    SubsetSize(pruned.Keys, begins.Keys);
  }

  // ------------------------------------------------------------------ what every region keeps

  predicate Moves(a: Status, b: Status) {
    match a
    case Waiting => b != Completed
    case Processing => b == Processing || b == Completed || b == Failed
    case _ => b == a
  }

  /** A session keeps what it was begun with and moves only forward; a finished one is never touched again. */
  predicate Transition(a: Session, b: Session) {
    && b.provider == a.provider && b.workflow == a.workflow && b.lifetime == a.lifetime
    && b.name == a.name && b.created == a.created
    && Moves(a.status, b.status)
    && (b.status == Waiting ==> b == a)
    && (Finished(a) ==> b == a)
  }

  /** From one table to the next: forward moves, and removal only of sessions well past their lifetime. */
  ghost predicate TableStep(t: Table, t': Table, now: int) {
    && (forall id :: id in t.sessions && id in t'.sessions ==> Transition(t.sessions[id], t'.sessions[id]))
    && (forall id :: id in t.sessions && id !in t'.sessions ==>
          t.sessions[id].status != Processing && now - t.sessions[id].created > t.sessions[id].lifetime + LINGER)
  }

  /**
    Pruning removes only sessions that are finished, or that were waiting and ran out of time more than
    twelve minutes ago; and a claim only together with its session.
   */
  lemma PruneRemovesOnlyFinished(t: Table, now: int)
    ensures TableStep(t, Pruned(t, now), now)
    ensures forall id :: id in t.sessions && id !in Pruned(t, now).sessions ==> Finished(Expire(t.sessions[id], now))
    ensures forall key :: key in t.begins && key !in Pruned(t, now).begins ==>
      t.begins[key].session.Some? && t.begins[key].session.value !in Pruned(t, now).sessions
    ensures forall key :: key in Pruned(t, now).begins ==>
      key in t.begins && Pruned(t, now).begins[key] == t.begins[key]
      && (t.begins[key].session.Some? ==> t.begins[key].session.value in Pruned(t, now).sessions)
    ensures |Pruned(t, now).sessions| <= |t.sessions| && |Pruned(t, now).begins| <= |t.begins|
  {
    SmallerPruned(t.sessions, now);
    SmallerBegins(t.begins, PrunedSessions(t.sessions, now));
  }
}
