/**
  What the ordinary calls of the sign-in table come to (src/accounts/oauth.rs): a free key starts a
  begin, a begun one leads to its session, and a waiting session is cancelled, claimed and settled.
 */
module OAuthOutcomes {
  import opened Results
  import opened Accounts
  import opened OAuthSessions
  import opened OAuthProtocol
  import opened OAuthSafety

  // ------------------------------------------------------------------ one call on the table

  /** The session is out of time but has not been told so. */
  predicate TimedOut(session: Session, now: int) {
    session.status == Waiting && now >= session.created + session.lifetime
  }

  /** The session may still be asked about: it is being processed, or less than twelve minutes over its time. */
  predicate Kept(session: Session, now: int) {
    session.status == Processing || now <= session.created + session.lifetime + 720
  }

  /** The session waits and has time left. */
  predicate Waits(t: Table, id: SessionId, now: int) {
    id in t.sessions && t.sessions[id].status == Waiting && now < t.sessions[id].created + t.sessions[id].lifetime
  }

  /** Pruning tells sessions that are out of time, forgets old ones, and releases the claims of those forgotten. */
  lemma PrunedIs(t: Table, now: int)
    ensures forall id :: id in Pruned(t, now).sessions <==> id in t.sessions && Kept(t.sessions[id], now)
    ensures forall id :: id in Pruned(t, now).sessions ==>
      Pruned(t, now).sessions[id] ==
        if TimedOut(t.sessions[id], now) then t.sessions[id].(status := Expired, authorized := false)
        else t.sessions[id]
    ensures forall key :: key in Pruned(t, now).begins <==>
      key in t.begins && (t.begins[key].session.Some? ==>
        t.begins[key].session.value in t.sessions && Kept(t.sessions[t.begins[key].session.value], now))
    ensures forall key :: key in Pruned(t, now).begins ==> Pruned(t, now).begins[key] == t.begins[key]
  {
  }

  lemma WaitsPruned(t: Table, id: SessionId, now: int)
    ensures Waits(t, id, now) <==>
            id in Pruned(t, now).sessions && Pruned(t, now).sessions[id].status == Waiting
    ensures Waits(t, id, now) ==> Pruned(t, now).sessions[id] == t.sessions[id]
  {
    PrunedIs(t, now);
  }

  /**
    A keyed begin starts exactly when no claim holds the key and both tables have room; all it then
    changes, beside pruning, is the new claim.  Otherwise it changes nothing more and says which it is.
   */
  lemma BeginOutcome(t: Table, key: Key, request: Request, now: int)
    ensures var p := Pruned(t, now);
      BeginKeyed(t, key, request, now) ==
      if key in p.begins then
        (p, if p.begins[key].request != request then Refused(IdempotencyConflict)
            else if p.begins[key].session.None? then Refused(Busy)
            else Existing(p.sessions[p.begins[key].session.value]))
      else if |p.begins| < 128 && |p.sessions| < 128 then
        (Table(p.sessions, p.begins[key := Claim(request, None)]), Started)
      else (p, Refused(Busy))
  {
    BoundIsRetained(t, now, key);
    hide Pruned;
  }

  /** Asking about a session returns it as long as it is kept, told if its time is out. */
  lemma GetOutcome(t: Table, id: SessionId, now: int)
    ensures GetSession(t, id, now) == (Pruned(t, now),
      if id !in t.sessions || !Kept(t.sessions[id], now) then Failure(NotFound)
      else if TimedOut(t.sessions[id], now) then
        Success(t.sessions[id].(status := Expired, authorized := false))
      else Success(t.sessions[id]))
  {
    PrunedIs(t, now);
    hide Pruned;
  }

  /** How a call about a session that does not wait ends. */
  function NotWaiting(t: Table, id: SessionId, now: int): AccountError {
    if id in t.sessions && Kept(t.sessions[id], now) then Busy else NotFound
  }

  /** Cancelling ends exactly a waiting session, and takes its authorization. */
  lemma CancelOutcome(t: Table, id: SessionId, now: int)
    ensures var p := Pruned(t, now);
      Cancel(t, id, now) ==
      if Waits(t, id, now) then
        var ended := t.sessions[id].(status := Status.Cancelled, authorized := false);
        (Table(p.sessions[id := ended], p.begins), Success(ended))
      else (p, Failure(NotWaiting(t, id, now)))
  {
    WaitsPruned(t, id, now);
    PrunedIs(t, now);
    hide Pruned;
  }

  /** A claim takes exactly a waiting session into processing, and a code claim its authorization with it. */
  lemma ClaimOutcome(t: Table, id: SessionId, now: int)
    ensures var p := Pruned(t, now);
      ClaimCode(t, id, now) ==
      if Waits(t, id, now) then
        var taken := t.sessions[id].(status := Processing, authorized := false);
        (Table(p.sessions[id := taken], p.begins), if t.sessions[id].authorized then Success(taken) else Failure(Busy))
      else (p, Failure(NotWaiting(t, id, now)))
    ensures var p := Pruned(t, now);
      ClaimDevice(t, id, now) ==
      if Waits(t, id, now) then
        var taken := t.sessions[id].(status := Processing);
        (Table(p.sessions[id := taken], p.begins), Success(taken))
      else (p, Failure(NotWaiting(t, id, now)))
  {
    WaitsPruned(t, id, now);
    PrunedIs(t, now);
    hide Pruned;
  }

  /** Settling completes the session with its account, or fails it with a code; every other one stays as it is. */
  lemma SettleOutcome(t: Table, id: SessionId, result: Result<Id, AccountError>)
    requires id in t.sessions
    ensures match result
      case Success(account) =>
        var done := t.sessions[id].(status := Completed, accountId := Some(account));
        Settle(t, id, result) == (Table(t.sessions[id := done], t.begins), Success(done))
      case Failure(error) =>
        exists code ::
          Settle(t, id, result) == (Table(t.sessions[id := t.sessions[id].(status := Failed, errorCode := Some(code))],
                                          t.begins), Failure(error))
          && (code == "credential_commit_uncertain" <==> error == CommitUncertain)
          && (code == "credential_storage_unavailable" <==> error == Storage)
          && (code == "account_busy" <==> error == Busy)
          && (code == "cancelled" <==> error == AccountError.Cancelled)
          && (code == "validation_failed" <==> error == Provider)
          && (code == "oauth_failed" <==>
                error !in {CommitUncertain, Storage, Busy, AccountError.Cancelled, Provider})
  {
    if result.Failure? {
      CodesDiffer();
      var code := FailureCode(result.error);
      assert Settle(t, id, result) == (Table(t.sessions[id := t.sessions[id].(status := Failed,
          errorCode := Some(code))], t.begins), Failure(result.error));
    }
  }

  lemma CodesDiffer()
    ensures var a, b, c, d, e, f := "credential_storage_unavailable", "credential_commit_uncertain", "account_busy",
                                    "cancelled", "validation_failed", "oauth_failed";
      && a != b && a != c && a != d && a != e && a != f && b != c && b != d && b != e && b != f
      && c != d && c != e && c != f && d != e && d != f && e != f
  {
    assert |"credential_storage_unavailable"| == 30 && |"credential_commit_uncertain"| == 27;
    assert |"account_busy"| == 12 && |"cancelled"| == 9 && |"validation_failed"| == 17;
    assert |"oauth_failed"| == 12 && "account_busy"[0] != "oauth_failed"[0];
  }

  /** A poller ends its session only while that waits; a browser sign-in's listener expires it likewise. */
  lemma EndOutcome(t: Table, id: SessionId, status: Status, errorCode: Option<string>)
    ensures var waits := id in t.sessions && t.sessions[id].status == Waiting;
      && EndDevice(t, id, status, errorCode) == (
           if waits then
             Table(t.sessions[id := t.sessions[id].(status := status, errorCode := errorCode)], t.begins)
           else t)
      && EndLoopback(t, id) == (
           if waits then
             Table(t.sessions[id := t.sessions[id].(status := Expired, authorized := false)], t.begins)
           else t)
  {
  }

  /** A session is stored exactly if, after pruning, fewer than 128 are. */
  lemma InsertOutcome(t: Table, id: SessionId, session: Session, now: int)
    ensures var p := Pruned(t, now);
      Insert(t, id, session, now) ==
      if |p.sessions| < 128 then (Table(p.sessions[id := session], p.begins), true) else (p, false)
  {
    hide Pruned;
  }

  // ------------------------------------------------------------------ a keyed begin, undisturbed

  /** A begin for a free key, with room for it. */
  predicate CanBegin(s: State, b: TaskId, key: Key, request: Request, now: nat) {
    && b !in s.tasks && s.now <= now && NameAllowed(request)
    && key !in Pruned(s.table, now).begins
    && |Pruned(s.table, now).begins| < 128 && |Pruned(s.table, now).sessions| < 128
  }

  /** Where it leaves the begin: its task, the new claim, and nothing else beside pruning. */
  lemma BeginsWell(s: State, b: TaskId, key: Key, request: Request, now: nat)
    requires CanBegin(s, b, key, request, now)
    ensures var p := Pruned(s.table, now);
      Apply(s, BeginKeyedCall(b, key, request, now)) == s.(
        now := now,
        table := Table(p.sessions, p.begins[key := Claim(request, None)]),
        starts := s.starts + [Start(key, request, Outcome.Pending)],
        latest := s.latest[key := |s.starts|],
        tasks := s.tasks[b := BeginTask(request, Some(|s.starts|), FirstPc(request))])
  {
    BeginOutcome(s.table, key, request, now);
    hide Pruned, FirstPc, BeginKeyed, NameAllowed;
  }

  /** A ready begin stores its session under the new id, if there is room, and goes on to record it. */
  lemma InsertsWell(s: State, b: TaskId, id: SessionId, now: nat, workflow: Workflow)
    requires b in s.tasks && s.tasks[b].pc.Ready? && id !in s.used && s.now <= now
    requires WorkflowOf(s.tasks[b].request) == Some(workflow)
    requires |Pruned(s.table, now).sessions| < 128
    ensures var p := Pruned(s.table, now);
      var task := s.tasks[b];
      var draft := task.pc.draft;
      var session := Session(task.request.provider, workflow, draft.lifetime, !workflow.DeviceCode?, task.request.name,
        if draft.started.Some? then draft.started.value else now, Waiting, None, None);
      Apply(s, InsertSession(b, id, now)) == s.(
        now := now, table := Table(p.sessions[id := session], p.begins), used := s.used + {id},
        tasks := s.tasks[b := task.(pc := Recording(Some(id)))])
  {
    hide Pruned, WorkflowOf;
  }

  /** Recording binds the key's claim to the session and answers the caller. */
  lemma RecordsWell(s: State, b: TaskId, id: SessionId)
    requires b in s.tasks && s.tasks[b].pc == Recording(Some(id))
    requires s.tasks[b].start.Some? && s.tasks[b].start.value < |s.starts|
    requires s.starts[s.tasks[b].start.value].key in s.table.begins
    ensures var i := s.tasks[b].start.value;
      var key := s.starts[i].key;
      Apply(s, Record(b)) == s.(
        table := Table(s.table.sessions, s.table.begins[key := s.table.begins[key].(session := Some(id))]),
        starts := s.starts[i := s.starts[i].(outcome := Bound(id))], answers := s.answers + [Answer(i, id)],
        tasks := s.tasks[b := s.tasks[b].(pc := Ended)])
  {
  }

  /** The claim of a begin at work is never pruned, and pruning makes no table larger. */
  lemma ClaimWaits(t: Table, key: Key, request: Request, now: nat)
    ensures var p := Pruned(Table(t.sessions, t.begins[key := Claim(request, None)]), now);
      && key in p.begins && p.begins[key] == Claim(request, None) && |p.sessions| <= |t.sessions|
  {
    SmallerPruned(t.sessions, now);
  }

  /** What a retry of the key is told later: its session, as long as that is kept. */
  lemma RetryFinds(t: Table, key: Key, request: Request, id: SessionId, now: nat)
    requires key in t.begins && t.begins[key] == Claim(request, Some(id)) && id in t.sessions
    requires Kept(t.sessions[id], now)
    ensures BeginKeyed(t, key, request, now).1 == Existing(
      if TimedOut(t.sessions[id], now) then t.sessions[id].(status := Expired, authorized := false) else t.sessions[id])
  {
    PrunedIs(t, now);
    hide Pruned;
  }

  /**
    A keyed begin of a browser or code sign-in, undisturbed: its session waits under the new id for
    three minutes, and every equal retry is told that session for as long as it is kept.
   */
  lemma CodeBeginRetried(s: State, b: TaskId, key: Key, request: Request, now: nat, id: SessionId, later: nat,
                         retry: nat)
    requires CanBegin(s, b, key, request, now) && id !in s.used && now <= later <= retry
    requires WorkflowOf(request).Some? && !WorkflowOf(request).value.DeviceCode?
    ensures var s1 := Apply(s, BeginKeyedCall(b, key, request, now));
      var s2 := Apply(s1, InsertSession(b, id, later));
      var s3 := Apply(s2, Record(b));
      var session := Session(request.provider, WorkflowOf(request).value, 180, true, request.name, later, Waiting,
                             None, None);
      && id in s3.table.sessions && s3.table.sessions[id] == session
      && s3.answers == s.answers + [Answer(|s.starts|, id)]
      && (retry < later + 180 ==> BeginKeyed(s3.table, key, request, retry).1 == Existing(session))
      && (later + 180 <= retry <= later + 900 ==>
            BeginKeyed(s3.table, key, request, retry).1
            == Existing(session.(status := Expired, authorized := false)))
  {
    BeginsWell(s, b, key, request, now);
    hide CanBegin, Pruned, WorkflowOf, BeginKeyed;
    var p := Pruned(s.table, now);
    var s1 := Apply(s, BeginKeyedCall(b, key, request, now));
    RoomLeft(s, b, key, request, now);
    ClaimWaits(p, key, request, later);
    CodeReady(request);
    InsertsWell(s1, b, id, later, WorkflowOf(request).value);
    var s2 := Apply(s1, InsertSession(b, id, later));
    RecordsWell(s2, b, id);
    hide Apply;
    var s3 := Apply(s2, Record(b));
    if retry <= later + 900 {
      RetryFinds(s3.table, key, request, id, retry);
    }
  }

  lemma RoomLeft(s: State, b: TaskId, key: Key, request: Request, now: nat)
    requires CanBegin(s, b, key, request, now)
    ensures |Pruned(s.table, now).sessions| < 128
  {
  }

  lemma CodeReady(request: Request)
    requires WorkflowOf(request).Some? && !WorkflowOf(request).value.DeviceCode?
    ensures FirstPc(request) == Ready(Draft(None, 180))
  {
  }

  lemma DeviceChecks(request: Request)
    requires WorkflowOf(request) == Some(DeviceCode)
    ensures FirstPc(request) == Checking
  {
  }

  /** A begin without a key, of a supported sign-in with an acceptable name, gets its session the same way. */
  lemma PlainBegins(s: State, b: TaskId, request: Request, id: SessionId, now: nat)
    requires b !in s.tasks && NameAllowed(request) && id !in s.used && s.now <= now
    requires WorkflowOf(request).Some? && !WorkflowOf(request).value.DeviceCode?
    requires |Pruned(s.table, now).sessions| < 128
    ensures var p := Pruned(s.table, now);
      var s1 := Apply(s, BeginCall(b, request));
      && Apply(s1, InsertSession(b, id, now)).table == Table(
           p.sessions[id := Session(request.provider, WorkflowOf(request).value, 180, true, request.name, now, Waiting,
                                    None, None)], p.begins)
      && s1.table == s.table
  {
    hide Pruned, WorkflowOf, NameAllowed;
    CodeReady(request);
    var s1 := Apply(s, BeginCall(b, request));
    assert s1 == s.(tasks := s.tasks[b := BeginTask(request, None, Ready(Draft(None, 180)))]);
    InsertsWell(s1, b, id, now, WorkflowOf(request).value);
  }

  /** Which sign-in a request leads to. */
  lemma WorkflowIs(request: Request)
    ensures WorkflowOf(request) == (
      if request.provider == "codex" then Some(BrowserCallback)
      else if request.mode.Loopback? then None
      else if request.provider == "copilot" then Some(DeviceCode)
      else if request.provider == "claude" then Some(ManualCode)
      else None)
  {
  }

  /** With room left the provider is asked, and its answer in time makes the begin ready. */
  lemma AsksWell(s: State, b: TaskId, asked: nat, lifetime: nat, answered: nat)
    requires b in s.tasks && s.tasks[b].pc.Checking? && s.tasks[b].start.Some?
    requires s.now <= asked <= answered < asked + lifetime && 1 <= lifetime <= 3600
    requires |Pruned(s.table, asked).sessions| < 128
    ensures Apply(Apply(s, CheckRoom(b, asked)), ProviderAnswers(b, Some(lifetime), answered)) == s.(
      now := answered, table := Pruned(s.table, asked), asked := s.asked + multiset{s.tasks[b].start.value},
      tasks := s.tasks[b := s.tasks[b].(pc := Ready(Draft(Some(asked), lifetime)))])
  {
    hide Pruned;
  }

  lemma PrunedSmaller(t: Table, key: Key, request: Request, now: nat)
    requires key in t.begins && t.begins[key] == Claim(request, None)
    ensures var p := Pruned(t, now);
      key in p.begins && p.begins[key] == Claim(request, None) && |p.sessions| <= |t.sessions|
  {
    SmallerPruned(t.sessions, now);
  }

  /**
    A keyed begin of a device sign-in, undisturbed: the provider is asked once, the session lives from
    then on as long as the provider said, and every equal retry is told that session while it waits.
   */
  lemma DeviceBeginRetried(s: State, b: TaskId, key: Key, request: Request, now: nat, asked: nat, lifetime: nat,
                           answered: nat, id: SessionId, later: nat, retry: nat)
    requires CanBegin(s, b, key, request, now) && id !in s.used && WorkflowOf(request) == Some(DeviceCode)
    requires now <= asked <= answered <= later <= retry && answered < asked + lifetime && 1 <= lifetime <= 3600
    ensures var s1 := Apply(s, BeginKeyedCall(b, key, request, now));
      var s2 := Apply(Apply(s1, CheckRoom(b, asked)), ProviderAnswers(b, Some(lifetime), answered));
      var s3 := Apply(Apply(s2, InsertSession(b, id, later)), Record(b));
      var session := Session(request.provider, DeviceCode, lifetime, false, request.name, asked, Waiting, None, None);
      && id in s3.table.sessions && s3.table.sessions[id] == session
      && s3.asked == s.asked + multiset{|s.starts|} && s3.answers == s.answers + [Answer(|s.starts|, id)]
      && (retry < asked + lifetime ==> BeginKeyed(s3.table, key, request, retry).1 == Existing(session))
  {
    BeginsWell(s, b, key, request, now);
    RoomLeft(s, b, key, request, now);
    hide CanBegin, Pruned, WorkflowOf, BeginKeyed;
    var p := Pruned(s.table, now);
    var s1 := Apply(s, BeginKeyedCall(b, key, request, now));
    DeviceChecks(request);
    PrunedSmaller(s1.table, key, request, asked);
    AsksWell(s1, b, asked, lifetime, answered);
    var s2 := Apply(Apply(s1, CheckRoom(b, asked)), ProviderAnswers(b, Some(lifetime), answered));
    PrunedSmaller(s2.table, key, request, later);
    InsertsWell(s2, b, id, later, DeviceCode);
    RecordsWell(Apply(s2, InsertSession(b, id, later)), b, id);
    hide Apply;
    var s3 := Apply(Apply(s2, InsertSession(b, id, later)), Record(b));
    if retry < asked + lifetime {
      RetryFinds(s3.table, key, request, id, retry);
    }
  }

  /** A begin that fails on the way goes on to give its key back. */
  lemma FailsWell(s: State, b: TaskId, answered: nat)
    requires b in s.tasks && s.now <= answered
    ensures s.tasks[b].pc.Ready? ==>
      Apply(s, FailBegin(b)) == s.(tasks := s.tasks[b := s.tasks[b].(pc := Recording(None))])
    ensures s.tasks[b].pc.Asking? ==>
      Apply(s, ProviderAnswers(b, None, answered))
      == s.(now := answered, tasks := s.tasks[b := s.tasks[b].(pc := Recording(None))])
  {
  }

  /** After a failed begin its key can be started again, with any request, as soon as there is room for a session. */
  lemma FailedBeginsAgain(steps: seq<Step>, b: TaskId, again: TaskId, request: Request, now: nat)
    requires var s := Run(steps);
      && b in s.tasks && s.tasks[b].pc == Recording(None) && s.tasks[b].start.Some?
      && again !in s.tasks && s.now <= now && NameAllowed(request)
      && |Pruned(s.table, now).sessions| < 128
    ensures var s := Run(steps);
      && s.tasks[b].start.value < |s.starts|
      && var key := s.starts[s.tasks[b].start.value].key;
         var ended := Apply(s, Record(b));
         && key in s.table.begins && ended.table == Table(s.table.sessions, s.table.begins - {key})
         && BeginKeyed(ended.table, key, request, now).1 == Started
         && CanBegin(ended, again, key, request, now)
  {
    var s := Run(steps);
    hide Run, NameAllowed, Pruned, BeginKeyed;
    KeyIsHeld(steps, b);
    var key := s.starts[s.tasks[b].start.value].key;
    var ended := Apply(s, Record(b));
    GivesBack(s, b);
    hide Apply;
    GivenBack(s.table, key, now);
    BeginOutcome(ended.table, key, request, now);
  }

  lemma KeyIsHeld(steps: seq<Step>, b: TaskId)
    requires b in Run(steps).tasks && Keyed(Run(steps).tasks[b])
    ensures var s := Run(steps);
      && s.tasks[b].start.value < |s.starts| && |s.table.begins| <= 128
      && s.starts[s.tasks[b].start.value].key in s.table.begins
  {
    hide Run, Known, ClaimsKept, Finishing, StartsKnown, Answered;
    RunInv(steps);
    ClaimIsHeld(Run(steps), b);
  }

  lemma GivesBack(s: State, b: TaskId)
    requires b in s.tasks && s.tasks[b].pc == Recording(None) && s.tasks[b].start.Some?
    requires s.tasks[b].start.value < |s.starts| && s.starts[s.tasks[b].start.value].key in s.table.begins
    ensures var key := s.starts[s.tasks[b].start.value].key;
      var ended := Apply(s, Record(b));
      && ended.table == Table(s.table.sessions, s.table.begins - {key})
      && ended.tasks.Keys == s.tasks.Keys && ended.now == s.now
  {
  }

  lemma GivenBack(t: Table, key: Key, now: nat)
    requires key in t.begins && |t.begins| <= 128
    ensures var p := Pruned(Table(t.sessions, t.begins - {key}), now);
      key !in p.begins && |p.begins| < 128 && p.sessions == Pruned(t, now).sessions
  {
    var less := Table(t.sessions, t.begins - {key});
    assert less.begins.Keys == t.begins.Keys - {key};
    SmallerBegins(less.begins, PrunedSessions(t.sessions, now));
  }

  // ------------------------------------------------------------------ a sign-in, undisturbed

  function ClaimStep(f: TaskId, id: SessionId, device: bool, now: nat): Step {
    if device then ClaimDeviceCall(f, id, now) else ClaimCodeCall(f, id, now)
  }

  /** A claimed session's finisher saves and settles it: completed with the account, or failed with a code. */
  lemma {:induction false} SignInSettles(steps: seq<Step>, f: TaskId, id: SessionId, device: bool, now: nat, later: nat,
                                         result: Result<Id, AccountError>)
    requires var s := Run(steps);
      && f !in s.finishers && s.now <= now <= later && Waits(s.table, id, now)
      && (device <==> s.table.sessions[id].workflow.DeviceCode?)
    ensures var s := Run(steps);
      var s1 := Apply(s, ClaimStep(f, id, device, now));
      var s2 := Apply(Apply(s1, LookUp(f, later)), Save(f, result));
      var s3 := Apply(s2, SettleCall(f));
      var before := s.table.sessions[id].(authorized := s.table.sessions[id].authorized && device);
      && s1.claims == s.claims + multiset{id} && id in s1.table.sessions
      && s1.table.sessions[id] == before.(status := Processing)
      && s3.adds == (if result.Success? || result.error == CommitUncertain then s.adds + multiset{id} else s.adds)
      && id in s3.table.sessions
      && match result
         case Success(account) =>
           && s3.table.sessions[id] == before.(status := Completed, accountId := Some(account))
           && s3.saved == s.saved[id := account]
         case Failure(error) =>
           s3.saved == s.saved && s3.table.sessions[id].errorCode.Some?
           && s3.table.sessions[id] == before.(status := Failed, errorCode := s3.table.sessions[id].errorCode)
  {
    hide Run, Apply, ClaimStep, Pruned, Waits;
    var s := Run(steps);
    ReachedAuthorized(steps, id, now);
    ClaimsWell(s, f, id, device, now);
    SavesWell(Apply(s, ClaimStep(f, id, device, now)), f, id, later, result);
  }

  lemma ReachedAuthorized(steps: seq<Step>, id: SessionId, now: nat)
    requires Waits(Run(steps).table, id, now)
    ensures id in Run(steps).table.sessions
    ensures Run(steps).table.sessions[id].workflow.DeviceCode? || Run(steps).table.sessions[id].authorized
  {
    hide Run, ClaimsKept, Finishing, Linked, Working, StartsKnown, Answered;
    RunInv(steps);
    WaitingIsAuthorized(Run(steps).table, Run(steps).used, id);
  }

  lemma ClaimsWell(s: State, f: TaskId, id: SessionId, device: bool, now: nat)
    requires f !in s.finishers && s.now <= now && Waits(s.table, id, now)
    requires device <==> s.table.sessions[id].workflow.DeviceCode?
    requires device || s.table.sessions[id].authorized
    ensures var p := Pruned(s.table, now);
      var session := s.table.sessions[id];
      Apply(s, ClaimStep(f, id, device, now)) == s.(
        now := now, claims := s.claims + multiset{id}, finishers := s.finishers[f := Finisher(id, Holding)],
        table := Table(p.sessions[id := session.(status := Processing, authorized := session.authorized && device)],
                       p.begins))
  {
    hide Pruned, Waits;
    ClaimOutcome(s.table, id, now);
    WaitsThere(s.table, id, now);
    hide ClaimCode, ClaimDevice;
  }

  lemma WaitsThere(t: Table, id: SessionId, now: nat)
    requires Waits(t, id, now)
    ensures id in t.sessions && t.sessions[id].status == Waiting
  {
  }

  lemma SavesWell(s: State, f: TaskId, id: SessionId, later: nat, result: Result<Id, AccountError>)
    requires f in s.finishers && s.finishers[f] == Finisher(id, Holding) && s.now <= later
    requires id in s.table.sessions && s.table.sessions[id].status == Processing
    ensures var s2 := Apply(Apply(s, LookUp(f, later)), Save(f, result));
      var s3 := Apply(s2, SettleCall(f));
      && s3.adds == (if result.Success? || result.error == CommitUncertain then s.adds + multiset{id} else s.adds)
      && id in s3.table.sessions
      && match result
         case Success(account) =>
           && s3.table.sessions[id] == s.table.sessions[id].(status := Completed, accountId := Some(account))
           && s3.saved == s.saved[id := account]
         case Failure(error) =>
           && s3.saved == s.saved && s3.table.sessions[id].errorCode.Some?
           && s3.table.sessions[id] ==
              s.table.sessions[id].(status := Failed, errorCode := s3.table.sessions[id].errorCode)
  {
    hide Apply, Pruned;
    LooksUpWell(s, f, id, later);
    var s1 := Apply(s, LookUp(f, later));
    SavesOnce(s1, f, id, result);
    SettlesWell(Apply(s1, Save(f, result)), f, id, result);
  }

  lemma LooksUpWell(s: State, f: TaskId, id: SessionId, later: nat)
    requires f in s.finishers && s.finishers[f] == Finisher(id, Holding) && s.now <= later
    requires id in s.table.sessions && s.table.sessions[id].status == Processing
    ensures var p := Pruned(s.table, later);
      && id in p.sessions && p.sessions[id] == s.table.sessions[id]
      && Apply(s, LookUp(f, later))
         == s.(now := later, table := p, finishers := s.finishers[f := Finisher(id, LookedUp)])
  {
    PrunedIs(s.table, later);
    hide Pruned;
  }

  lemma SavesOnce(s: State, f: TaskId, id: SessionId, result: Result<Id, AccountError>)
    requires f in s.finishers && s.finishers[f] == Finisher(id, LookedUp)
    ensures Apply(s, Save(f, result)) == s.(
      finishers := s.finishers[f := Finisher(id, Settling(result))],
      adds := if result.Success? || result.error == CommitUncertain then s.adds + multiset{id} else s.adds,
      saved := if result.Success? then s.saved[id := result.value] else s.saved)
  {
  }

  lemma SettlesWell(s: State, f: TaskId, id: SessionId, result: Result<Id, AccountError>)
    requires f in s.finishers && s.finishers[f] == Finisher(id, Settling(result)) && id in s.table.sessions
    ensures var next := Apply(s, SettleCall(f));
      && next.adds == s.adds && next.saved == s.saved && id in next.table.sessions
      && match result
         case Success(account) =>
           next.table.sessions[id] == s.table.sessions[id].(status := Completed, accountId := Some(account))
         case Failure(error) =>
           && next.table.sessions[id].errorCode.Some?
           && next.table.sessions[id] ==
              s.table.sessions[id].(status := Failed, errorCode := next.table.sessions[id].errorCode)
  {
    SettleOutcome(s.table, id, result);
    hide Settle;
  }
}
