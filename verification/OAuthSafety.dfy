/** Every step of the sign-in protocol keeps its invariant. */
module OAuthSafety {
  import opened Results
  import opened Accounts
  import opened OAuthSessions
  import opened OAuthProtocol

  // ------------------------------------------------------------------ quiet changes of the table

  /** A session that ends without being claimed. */
  predicate EndsUnclaimed(a: Session, b: Session) {
    a.status == Waiting && (b.status == Status.Cancelled || b.status == Expired || b.status == Failed)
    && b.workflow == a.workflow && b.lifetime == a.lifetime
  }

  /** Sessions end unclaimed or are forgotten when finished; claims go only with their sessions. */
  ghost predicate Quiet(t: Table, t': Table) {
    && (forall id :: id in t'.sessions ==>
          id in t.sessions && (t'.sessions[id] == t.sessions[id] || EndsUnclaimed(t.sessions[id], t'.sessions[id])))
    && (forall id :: id in t.sessions && id !in t'.sessions ==> t.sessions[id].status != Processing)
    && (forall key :: key in t'.begins ==> key in t.begins && t'.begins[key] == t.begins[key])
    && (forall key :: key in t.begins && key !in t'.begins ==>
          t.begins[key].session.Some? && t.begins[key].session.value !in t'.sessions)
    && |t'.sessions| <= |t.sessions| && |t'.begins| <= |t.begins|
  }

  lemma PruneQuiet(t: Table, now: int)
    ensures Quiet(t, Pruned(t, now))
  {
    PruneRemovesOnlyFinished(t, now);
  }

  lemma EndsQuiet(t: Table, id: SessionId, session: Session)
    requires id in t.sessions && EndsUnclaimed(t.sessions[id], session)
    ensures Quiet(t, With(t, id, session))
  {
  }

  lemma OverLater(starts: seq<Start>, latest: map<Key, nat>, t: Table, t': Table)
    requires Linked(t, starts, latest) && Quiet(t, t')
    ensures Linked(t', starts, latest)
  {
    forall i | 0 <= i < |starts| && Over(starts[i], t.sessions) ensures Over(starts[i], t'.sessions) {
    }
    forall i | 0 <= i < |starts| && !Over(starts[i], t'.sessions)
      ensures starts[i].key in t'.begins && starts[i].key in latest && latest[starts[i].key] == i
    {
      assert !Over(starts[i], t.sessions);
      assert Stands(t.begins[starts[i].key], starts[i]);
    }
  }

  lemma ClaimsStay(t: Table, t': Table, s: State)
    requires ClaimsKept(t.sessions, s.used, s.claims, s.adds, s.saved) && Quiet(t, t')
    ensures ClaimsKept(t'.sessions, s.used, s.claims, s.adds, s.saved)
  {
  }

  lemma WorkStays(t: Table, t': Table, s: State)
    requires Finishing(t.sessions, s.finishers, s.adds, s.saved) && Quiet(t, t')
    ensures Finishing(t'.sessions, s.finishers, s.adds, s.saved)
  {
  }

  lemma QuietKeeps(s: State, t': Table)
    requires Inv(s) && Quiet(s.table, t')
    ensures Inv(s.(table := t'))
  {
    OverLater(s.starts, s.latest, s.table, t');
    ClaimsStay(s.table, t', s);
    WorkStays(s.table, t', s);
    hide Linked, ClaimsKept, Finishing, Working, Answered;
  }

  lemma PruneKeeps(s: State)
    requires Inv(s)
    ensures Inv(s.(table := Pruned(s.table, s.now)))
  {
    hide Inv, Quiet, Pruned;
    PruneQuiet(s.table, s.now);
    QuietKeeps(s, Pruned(s.table, s.now));
  }

  lemma EndKeeps(s: State, id: SessionId, session: Session)
    requires Inv(s) && id in s.table.sessions && EndsUnclaimed(s.table.sessions[id], session)
    ensures Inv(s.(table := With(s.table, id, session)))
  {
    hide Inv, Quiet, With;
    EndsQuiet(s.table, id, session);
    QuietKeeps(s, With(s.table, id, session));
  }

  // ------------------------------------------------------------------ begins

  lemma TaskWorks(tasks: map<TaskId, BeginTask>, starts: seq<Start>, used: set<SessionId>, asked: multiset<nat>,
      b: TaskId, pc: BeginPc)
    requires Working(tasks, starts, used, asked) && b in tasks && !tasks[b].pc.Ended?
    requires !pc.Checking? && (pc.Recording? && pc.result.Some? ==> pc.result.value in used)
    requires pc.Ready? ==> 1 <= pc.draft.lifetime <= HOUR
    ensures Working(tasks[b := tasks[b].(pc := pc)], starts, used, asked)
  {
  }

  /** A begin that moves on without finishing or asking. */
  lemma TaskKeeps(s: State, b: TaskId, pc: BeginPc)
    requires Inv(s) && b in s.tasks && !s.tasks[b].pc.Ended?
    requires !pc.Checking? && (pc.Recording? && pc.result.Some? ==> pc.result.value in s.used)
    requires pc.Ready? ==> 1 <= pc.draft.lifetime <= HOUR
    ensures Inv(SetPc(s, b, pc))
  {
  }

  lemma NewTaskKeeps(s: State, b: TaskId, request: Request)
    requires Inv(s) && b !in s.tasks
    ensures Inv(s.(tasks := s.tasks[b := BeginTask(request, None, FirstPc(request))]))
  {
    hide Sized, Known, ClaimsKept, Finishing, Linked, StartsKnown, Answered;
  }

  /** The key's earlier begins are all over when it is free again. */
  lemma NewStartLinked(t: Table, starts: seq<Start>, latest: map<Key, nat>, key: Key, request: Request)
    requires Linked(t, starts, latest) && key !in t.begins
    ensures Linked(t.(begins := t.begins[key := Claim(request, None)]),
                   starts + [Start(key, request, Pending)], latest[key := |starts|])
  {
  }

  lemma NewStartWorks(tasks: map<TaskId, BeginTask>, starts: seq<Start>, used: set<SessionId>, asked: multiset<nat>,
      b: TaskId, key: Key, request: Request)
    requires Working(tasks, starts, used, asked) && StartsKnown(starts, used, asked) && b !in tasks
    ensures var starts' := starts + [Start(key, request, Pending)];
      && Working(tasks[b := BeginTask(request, Some(|starts|), FirstPc(request))], starts', used, asked)
      && StartsKnown(starts', used, asked)
  {
  }

  lemma AnsweredLater(answers: seq<Answer>, starts: seq<Start>, start: Start)
    requires Answered(answers, starts)
    ensures Answered(answers, starts + [start])
  {
  }

  /** A retry that finds its session is told the one its begin was bound to. */
  lemma AnswerStands(t: Table, starts: seq<Start>, latest: map<Key, nat>, answers: seq<Answer>, key: Key)
    requires Linked(t, starts, latest) && Answered(answers, starts) && key in t.begins
    ensures key in latest
    ensures t.begins[key].session.Some? ==>
        Answered(answers + [Answer(latest[key], t.begins[key].session.value)], starts)
  {
  }

  lemma RetryKeeps(s: State, b: TaskId, key: Key, request: Request)
    requires Inv(s) && key in Pruned(s.table, s.now).begins
    ensures Inv(DoBeginKeyed(s, b, key, request))
  {
    var p := s.(table := Pruned(s.table, s.now));
    PruneKeeps(s);
    BoundIsRetained(s.table, s.now, key);
    AnswerStands(p.table, s.starts, s.latest, s.answers, key);
    hide Pruned, Sized, Known, ClaimsKept, Finishing, Linked, Working, StartsKnown, Answered;
    var next := DoBeginKeyed(s, b, key, request);
    assert BeginKeyed(s.table, key, request, s.now).0 == p.table;
    hide BeginKeyed;
    assert next == p.(answers := next.answers);
  }

  lemma StartKeeps(s: State, b: TaskId, key: Key, request: Request)
    requires Inv(s) && b !in s.tasks && key !in Pruned(s.table, s.now).begins
    ensures Inv(DoBeginKeyed(s, b, key, request))
  {
    var p := s.(table := Pruned(s.table, s.now));
    PruneKeeps(s);
    hide Pruned, Sized, Known, ClaimsKept, Finishing, Linked, Working, StartsKnown, Answered, FirstPc;
    if |p.table.begins| < CAPACITY && |p.table.sessions| < CAPACITY {
      ClaimSized(p.table, key, Claim(request, None));
      NewStartLinked(p.table, s.starts, s.latest, key, request);
      NewStartWorks(s.tasks, s.starts, s.used, s.asked, b, key, request);
      AnsweredLater(s.answers, s.starts, Start(key, request, Pending));
    }
  }

  /** The first lookup that cannot fail: a pruned claim's session is still there. */
  lemma BoundIsRetained(t: Table, now: int, key: Key)
    ensures var p := Pruned(t, now);
      key in p.begins && p.begins[key].session.Some? ==> p.begins[key].session.value in p.sessions
  {
  }

  lemma AskingWorks(tasks: map<TaskId, BeginTask>, starts: seq<Start>, used: set<SessionId>, asked: multiset<nat>,
      b: TaskId, now: nat)
    requires Working(tasks, starts, used, asked) && StartsKnown(starts, used, asked) && b in tasks
        && tasks[b].pc.Checking?
    ensures var start := tasks[b].start;
      var asked' := if start.Some? then asked + multiset{start.value} else asked;
      && Working(tasks[b := tasks[b].(pc := Asking(now))], starts, used, asked')
      && StartsKnown(starts, used, asked')
  {
  }

  lemma CheckRoomKeeps(s: State, b: TaskId)
    requires Inv(s) && b in s.tasks && s.tasks[b].pc.Checking?
    ensures Inv(DoCheckRoom(s, b))
  {
    PruneKeeps(s);
    var p := s.(table := Pruned(s.table, s.now));
    hide Pruned, Sized, Known, ClaimsKept, Finishing, Linked, Working, StartsKnown, Answered;
    if HasRoom(p.table) {
      AskingWorks(s.tasks, s.starts, s.used, s.asked, b, s.now);
    } else {
      TaskKeeps(p, b, Recording(None));
    }
  }

  /** A session under a new id that waits to be claimed. */
  lemma FreshSession(t: Table, s: State, id: SessionId, session: Session)
    requires Known(t.sessions, s.used) && ClaimsKept(t.sessions, s.used, s.claims, s.adds, s.saved)
    requires Finishing(t.sessions, s.finishers, s.adds, s.saved)
    requires id !in s.used && session.status == Waiting && Fit(session)
    ensures var sessions := With(t, id, session).sessions;
      && Known(sessions, s.used + {id})
      && ClaimsKept(sessions, s.used + {id}, s.claims, s.adds, s.saved)
      && Finishing(sessions, s.finishers, s.adds, s.saved)
  {
  }

  lemma FreshLinked(t: Table, starts: seq<Start>, latest: map<Key, nat>, used: set<SessionId>, asked: multiset<nat>,
      id: SessionId, session: Session)
    requires Linked(t, starts, latest) && StartsKnown(starts, used, asked) && id !in used
    ensures Linked(With(t, id, session), starts, latest) && StartsKnown(starts, used + {id}, asked)
  {
  }

  lemma FreshSized(t: Table, id: SessionId, session: Session)
    requires Sized(t) && HasRoom(t)
    ensures Sized(With(t, id, session))
  {
  }

  lemma ClaimSized(t: Table, key: Key, claim: Claim)
    requires Sized(t) && |t.begins| < CAPACITY
    ensures Sized(t.(begins := t.begins[key := claim]))
  {
  }

  lemma UsedGrows(tasks: map<TaskId, BeginTask>, starts: seq<Start>, used: set<SessionId>, asked: multiset<nat>,
      id: SessionId)
    requires Working(tasks, starts, used, asked)
    ensures Working(tasks, starts, used + {id}, asked)
  {
  }

  lemma DraftFits(s: State, b: TaskId)
    requires Working(s.tasks, s.starts, s.used, s.asked) && b in s.tasks && s.tasks[b].pc.Ready?
    requires WorkflowOf(s.tasks[b].request).Some?
    ensures Fit(SessionOf(s.tasks[b].request, s.tasks[b].pc.draft, s.now))
  {
    assert Fits(s.tasks[b], s.starts, s.used, s.asked);
  }

  lemma InsertKeeps(s: State, b: TaskId, id: SessionId)
    requires Inv(s) && b in s.tasks && s.tasks[b].pc.Ready? && WorkflowOf(s.tasks[b].request).Some? && id !in s.used
    ensures Inv(DoInsert(s, b, id))
  {
    PruneKeeps(s);
    var t := Pruned(s.table, s.now);
    DraftFits(s, b);
    hide Pruned, Sized, Known, ClaimsKept, Finishing, Linked, Working, StartsKnown, Answered, HasRoom;
    if HasRoom(t) {
      var session := SessionOf(s.tasks[b].request, s.tasks[b].pc.draft, s.now);
      FreshSized(t, id, session);
      FreshSession(t, s, id, session);
      FreshLinked(t, s.starts, s.latest, s.used, s.asked, id, session);
      hide With, SessionOf;
      UsedGrows(s.tasks, s.starts, s.used, s.asked, id);
      TaskWorks(s.tasks, s.starts, s.used + {id}, s.asked, b, Recording(Some(id)));
    } else {
      TaskKeeps(s.(table := t), b, Recording(None));
    }
  }

  /** A running keyed begin still holds its key: the second lookup that cannot fail. */
  lemma ClaimIsHeld(s: State, b: TaskId)
    requires Inv(s) && b in s.tasks && Keyed(s.tasks[b])
    ensures var i := s.tasks[b].start.value;
      && i < |s.starts| && s.starts[i].outcome.Pending?
      && s.starts[i].key in s.table.begins && s.starts[i].key in s.latest && s.latest[s.starts[i].key] == i
  {
  }

  function OutcomeOf(result: Option<SessionId>): Outcome {
    if result.Some? then Bound(result.value) else Unsuccessful
  }

  lemma RecordLinked(t: Table, starts: seq<Start>, latest: map<Key, nat>, i: nat, result: Option<SessionId>)
    requires Linked(t, starts, latest) && i < |starts| && starts[i].outcome.Pending?
    ensures Linked(RecordBegin(t, starts[i].key, result), starts[i := starts[i].(outcome := OutcomeOf(result))], latest)
  {
  }

  lemma RecordWorks(tasks: map<TaskId, BeginTask>, starts: seq<Start>, used: set<SessionId>, asked: multiset<nat>,
      b: TaskId)
    requires Working(tasks, starts, used, asked) && StartsKnown(starts, used, asked)
    requires b in tasks && Keyed(tasks[b]) && tasks[b].pc.Recording? && tasks[b].start.value < |starts|
    ensures var i := tasks[b].start.value;
      var starts' := starts[i := starts[i].(outcome := OutcomeOf(tasks[b].pc.result))];
      && Working(tasks[b := tasks[b].(pc := Ended)], starts', used, asked)
      && StartsKnown(starts', used, asked)
  {
  }

  lemma RecordAnswered(answers: seq<Answer>, starts: seq<Start>, i: nat, result: Option<SessionId>)
    requires Answered(answers, starts) && i < |starts| && starts[i].outcome.Pending?
    ensures Answered(if result.Some? then answers + [Answer(i, result.value)] else answers,
                     starts[i := starts[i].(outcome := OutcomeOf(result))])
  {
  }

  lemma RecordSized(t: Table, key: Key, result: Option<SessionId>)
    requires Sized(t)
    ensures Sized(RecordBegin(t, key, result)) && RecordBegin(t, key, result).sessions == t.sessions
  {
  }

  lemma RecordKeeps(s: State, b: TaskId)
    requires Inv(s) && b in s.tasks && s.tasks[b].pc.Recording?
    ensures Inv(DoRecord(s, b))
  {
    var task := s.tasks[b];
    hide Sized, Known, ClaimsKept, Finishing, Linked, Working, StartsKnown, Answered, RecordBegin;
    if task.start.Some? {
      var i, result := task.start.value, task.pc.result;
      ClaimIsHeld(s, b);
      RecordLinked(s.table, s.starts, s.latest, i, result);
      RecordWorks(s.tasks, s.starts, s.used, s.asked, b);
      RecordAnswered(s.answers, s.starts, i, result);
      RecordSized(s.table, s.starts[i].key, result);
    } else {
      TaskWorks(s.tasks, s.starts, s.used, s.asked, b, Ended);
    }
  }

  // ------------------------------------------------------------------ finishers

  lemma ClaimsCounted(t: Table, s: State, id: SessionId, session: Session)
    requires Known(t.sessions, s.used) && ClaimsKept(t.sessions, s.used, s.claims, s.adds, s.saved)
    requires id in t.sessions && t.sessions[id].status == Waiting && session.status == Processing
    requires session.lifetime == t.sessions[id].lifetime
    ensures ClaimsKept(With(t, id, session).sessions, s.used, s.claims + multiset{id}, s.adds, s.saved)
    ensures id !in s.adds
  {
  }

  lemma ClaimerWorks(t: Table, s: State, f: TaskId, id: SessionId, session: Session)
    requires Finishing(t.sessions, s.finishers, s.adds, s.saved)
    requires id in t.sessions && t.sessions[id].status == Waiting && session.status == Processing && id !in s.adds
    ensures Finishing(With(t, id, session).sessions, s.finishers[f := Finisher(id, Holding)], s.adds, s.saved)
  {
  }

  /** A waiting session becomes its claimer's, which no one else works on. */
  lemma ClaimsOnce(t: Table, s: State, f: TaskId, id: SessionId, session: Session)
    requires Known(t.sessions, s.used) && ClaimsKept(t.sessions, s.used, s.claims, s.adds, s.saved)
    requires Finishing(t.sessions, s.finishers, s.adds, s.saved)
    requires id in t.sessions && t.sessions[id].status == Waiting && session.status == Processing
    requires session.lifetime == t.sessions[id].lifetime
    ensures var sessions := With(t, id, session).sessions;
      && Known(sessions, s.used)
      && ClaimsKept(sessions, s.used, s.claims + multiset{id}, s.adds, s.saved)
      && Finishing(sessions, s.finishers[f := Finisher(id, Holding)], s.adds, s.saved)
  {
    hide ClaimsKept, Finishing;
    ClaimsCounted(t, s, id, session);
    ClaimerWorks(t, s, f, id, session);
  }

  /** Replacing a session under its own id leaves the keyed begins as they are. */
  lemma SameIdsLinked(t: Table, starts: seq<Start>, latest: map<Key, nat>, id: SessionId, session: Session)
    requires Linked(t, starts, latest) && Sized(t) && id in t.sessions
    ensures Linked(With(t, id, session), starts, latest) && Sized(With(t, id, session))
  {
  }

  /** The third lookup that cannot fail: a waiting code session has its authorization. */
  lemma WaitingIsAuthorized(t: Table, used: set<SessionId>, id: SessionId)
    requires Known(t.sessions, used) && id in t.sessions && t.sessions[id].status == Waiting
    ensures t.sessions[id].workflow.DeviceCode? || t.sessions[id].authorized
  {
  }

  lemma PrunedFlow(t: Table, now: int, id: SessionId)
    ensures id in Pruned(t, now).sessions ==>
      id in t.sessions && Pruned(t, now).sessions[id].workflow == t.sessions[id].workflow
  {
  }

  lemma ClaimKeeps(s: State, f: TaskId, id: SessionId, device: bool)
    requires Inv(s) && f !in s.finishers && (device <==> Flows(s, id, DeviceCode))
    ensures Inv(DoClaim(s, f, id, device))
  {
    var p := s.(table := Pruned(s.table, s.now));
    PruneKeeps(s);
    PrunedFlow(s.table, s.now, id);
    hide Pruned, Sized, Known, ClaimsKept, Finishing, Linked, Working, StartsKnown, Answered;
    if id in p.table.sessions && p.table.sessions[id].status == Waiting {
      WaitingIsAuthorized(p.table, s.used, id);
      var session := if device then p.table.sessions[id].(status := Processing)
                     else p.table.sessions[id].(status := Processing, authorized := false);
      ClaimsOnce(p.table, s, f, id, session);
      SameIdsLinked(p.table, s.starts, s.latest, id, session);
    }
  }

  lemma StopKeeps(s: State, f: TaskId)
    requires Inv(s) && f in s.finishers
    ensures Inv(SetFinisher(s, f, Gone))
  {
  }

  /** The last lookups that cannot fail: a session being processed is never pruned. */
  lemma WorkRemains(t: Table, s: State, f: TaskId)
    requires Finishing(t.sessions, s.finishers, s.adds, s.saved) && f in s.finishers && !s.finishers[f].pc.Gone?
    ensures s.finishers[f].session in t.sessions && t.sessions[s.finishers[f].session].status == Processing
  {
  }

  lemma LookUpKeeps(s: State, f: TaskId)
    requires Inv(s) && f in s.finishers && s.finishers[f].pc.Holding?
    ensures Inv(DoLookUp(s, f))
  {
    hide Pruned;
    var p := s.(table := Pruned(s.table, s.now));
    PruneKeeps(s);
    WorkRemains(p.table, s, f);
    assert Finishing(p.table.sessions, SetFinisher(s, f, LookedUp).finishers, s.adds, s.saved);
    hide Sized, Known, ClaimsKept, Finishing, Linked, Working, StartsKnown, Answered;
  }

  lemma SaveCounted(t: Table, s: State, f: TaskId, result: Result<Id, AccountError>)
    requires ClaimsKept(t.sessions, s.used, s.claims, s.adds, s.saved)
    requires f in s.finishers && s.finishers[f].session in t.sessions
    requires t.sessions[s.finishers[f].session].status == Processing && s.finishers[f].session !in s.adds
    ensures var next := DoSave(s, f, result); ClaimsKept(t.sessions, s.used, s.claims, next.adds, next.saved)
  {
  }

  lemma SaverWorks(t: Table, s: State, f: TaskId, result: Result<Id, AccountError>)
    requires Finishing(t.sessions, s.finishers, s.adds, s.saved) && f in s.finishers && s.finishers[f].pc.LookedUp?
    ensures var next := DoSave(s, f, result); Finishing(t.sessions, next.finishers, next.adds, next.saved)
  {
    var id := s.finishers[f].session;
    assert AtWork(t.sessions, s.finishers[f], s.adds, s.saved);
    var next := DoSave(s, f, result);
    forall g | g in next.finishers && g != f && !next.finishers[g].pc.Gone?
      ensures next.finishers[g].session != id && AtWork(t.sessions, next.finishers[g], next.adds, next.saved)
    {
      assert AtWork(t.sessions, s.finishers[g], s.adds, s.saved);
      assert WorkOn(s.finishers[f], s.finishers[g]) ==> f == g;
    }
  }

  lemma SaveFits(t: Table, s: State, f: TaskId, result: Result<Id, AccountError>)
    requires ClaimsKept(t.sessions, s.used, s.claims, s.adds, s.saved)
    requires Finishing(t.sessions, s.finishers, s.adds, s.saved) && f in s.finishers && s.finishers[f].pc.LookedUp?
    ensures var next := DoSave(s, f, result);
      && ClaimsKept(t.sessions, s.used, s.claims, next.adds, next.saved)
      && Finishing(t.sessions, next.finishers, next.adds, next.saved)
  {
    WorkRemains(t, s, f);
    assert AtWork(t.sessions, s.finishers[f], s.adds, s.saved);
    hide ClaimsKept, Finishing, DoSave;
    SaveCounted(t, s, f, result);
    SaverWorks(t, s, f, result);
  }

  lemma SaveKeeps(s: State, f: TaskId, result: Result<Id, AccountError>)
    requires Inv(s) && f in s.finishers && s.finishers[f].pc.LookedUp?
    ensures Inv(DoSave(s, f, result))
  {
    hide Sized, Known, ClaimsKept, Finishing, Linked, Working, StartsKnown, Answered;
    SaveFits(s.table, s, f, result);
  }

  lemma SettleFits(t: Table, s: State, f: TaskId, session: Session)
    requires Known(t.sessions, s.used) && ClaimsKept(t.sessions, s.used, s.claims, s.adds, s.saved)
    requires Finishing(t.sessions, s.finishers, s.adds, s.saved) && f in s.finishers && s.finishers[f].pc.Settling?
    requires s.finishers[f].session in t.sessions ==> session.lifetime == t.sessions[s.finishers[f].session].lifetime
    requires match s.finishers[f].pc.result
      case Success(account) => session.status == Completed && session.accountId == Some(account)
      case Failure(_) => session.status == Failed
    ensures var id := s.finishers[f].session;
      && Known(With(t, id, session).sessions, s.used + {id})
      && ClaimsKept(With(t, id, session).sessions, s.used, s.claims, s.adds, s.saved)
      && Finishing(With(t, id, session).sessions, SetFinisher(s, f, Gone).finishers, s.adds, s.saved)
  {
    var id := s.finishers[f].session;
    WorkRemains(t, s, f);
    assert AtWork(t.sessions, s.finishers[f], s.adds, s.saved);
    var finishers' := SetFinisher(s, f, Gone).finishers;
    forall g | g in finishers' && !finishers'[g].pc.Gone? ensures finishers'[g].session != id && g != f {
      assert g != f && finishers'[g] == s.finishers[g];
      assert WorkOn(s.finishers[f], s.finishers[g]) ==> f == g;
    }
  }

  lemma SettleKeeps(s: State, f: TaskId)
    requires Inv(s) && f in s.finishers && s.finishers[f].pc.Settling?
    ensures Inv(DoSettle(s, f))
  {
    var id := s.finishers[f].session;
    WorkRemains(s.table, s, f);
    assert id in s.used;
    hide Sized, Known, ClaimsKept, Finishing, Linked, Working, StartsKnown, Answered;
    var session := DoSettle(s, f).table.sessions[id];
    SettleFits(s.table, s, f, session);
    SameIdsLinked(s.table, s.starts, s.latest, id, session);
    assert s.used + {id} == s.used;
  }

  // ------------------------------------------------------------------ every step

  lemma CancelKeeps(s: State, id: SessionId)
    requires Inv(s)
    ensures Inv(s.(table := Cancel(s.table, id, s.now).0))
  {
    var p := s.(table := Pruned(s.table, s.now));
    PruneKeeps(s);
    hide Inv, Pruned;
    if id in p.table.sessions && p.table.sessions[id].status == Waiting {
      EndKeeps(p, id, p.table.sessions[id].(status := Status.Cancelled, authorized := false));
    }
  }

  lemma EndDeviceKeeps(s: State, id: SessionId, status: Status, errorCode: Option<string>)
    requires Inv(s) && (status == Expired || status == Status.Cancelled || status == Failed)
    ensures Inv(s.(table := EndDevice(s.table, id, status, errorCode)))
  {
    hide Inv;
    if id in s.table.sessions && s.table.sessions[id].status == Waiting {
      EndKeeps(s, id, s.table.sessions[id].(status := status, errorCode := errorCode));
    }
  }

  lemma EndLoopbackKeeps(s: State, id: SessionId)
    requires Inv(s)
    ensures Inv(s.(table := EndLoopback(s.table, id)))
  {
    hide Inv;
    if id in s.table.sessions && s.table.sessions[id].status == Waiting {
      EndKeeps(s, id, s.table.sessions[id].(status := Expired, authorized := false));
    }
  }

  lemma AnswersKeep(s: State, b: TaskId, lifetime: Option<nat>)
    requires Inv(s) && b in s.tasks && s.tasks[b].pc.Asking?
    ensures Inv(DoProviderAnswers(s, b, lifetime))
  {
    hide Inv;
    TaskKeeps(s, b, DoProviderAnswers(s, b, lifetime).tasks[b].pc);
  }

  lemma LaterKeeps(s: State, now: nat)
    requires Inv(s)
    ensures Inv(s.(now := now))
  {
  }

  lemma ActKeeps(s: State, step: Step)
    requires Inv(s)
    ensures Inv(Act(s, step))
  {
    hide Inv, DoBeginKeyed, DoCheckRoom, DoProviderAnswers, DoInsert, DoRecord, DoClaim, DoLookUp, DoSave, DoSettle,
         Cancel, EndDevice, EndLoopback, SetPc, SetFinisher, FirstPc, Pruned;
    match step
    case BeginCall(b, request) => if b !in s.tasks { NewTaskKeeps(s, b, request); }
    case BeginKeyedCall(b, key, request, _) =>
      if b !in s.tasks {
        if key in Pruned(s.table, s.now).begins { RetryKeeps(s, b, key, request); } else { StartKeeps(s, b, key,
            request); }
      }
    case CheckRoom(b, _) => if b in s.tasks && s.tasks[b].pc.Checking? { CheckRoomKeeps(s, b); }
    case ProviderAnswers(b, lifetime, _) => if b in s.tasks && s.tasks[b].pc.Asking? { AnswersKeep(s, b, lifetime); }
    case FailBegin(b) => if b in s.tasks && s.tasks[b].pc.Ready? { TaskKeeps(s, b, Recording(None)); }
    case InsertSession(b, id, _) =>
      if b in s.tasks && s.tasks[b].pc.Ready? && WorkflowOf(s.tasks[b].request).Some?
          && id !in s.used { InsertKeeps(s, b, id); }
    case Record(b) => if b in s.tasks && s.tasks[b].pc.Recording? { RecordKeeps(s, b); }
    case GetCall(id, _) => PruneKeeps(s);
    case CancelCall(id, _) => CancelKeeps(s, id);
    case ClaimCodeCall(f, id, _) => if f !in s.finishers && !Flows(s, id, DeviceCode) { ClaimKeeps(s, f, id, false); }
    case ClaimDeviceCall(f, id, _) => if f !in s.finishers && Flows(s, id, DeviceCode) { ClaimKeeps(s, f, id, true); }
    case EndDeviceCall(id, status, errorCode) =>
      if status == Expired || status == Status.Cancelled || status == Failed { EndDeviceKeeps(s, id, status,
          errorCode); }
    case EndLoopbackCall(id) => EndLoopbackKeeps(s, id);
    case LookUp(f, _) => if f in s.finishers && s.finishers[f].pc.Holding? { LookUpKeeps(s, f); }
    case Save(f, result) => if f in s.finishers && s.finishers[f].pc.LookedUp? { SaveKeeps(s, f, result); }
    case SettleCall(f) => if f in s.finishers && s.finishers[f].pc.Settling? { SettleKeeps(s, f); }
    case Stop(f) => if f in s.finishers { StopKeeps(s, f); }
  }

  lemma StepKeeps(s: State, step: Step)
    requires Inv(s)
    ensures Inv(Apply(s, step))
  {
    hide Inv, Act;
    var now := Moment(step, s);
    LaterKeeps(s, now);
    if now >= s.now {
      ActKeeps(s.(now := now), step);
    }
  }

  lemma {:induction false} RunInv(steps: seq<Step>)
    ensures Inv(Run(steps))
  {
    if steps != [] {
      hide Apply;
      RunInv(steps[..|steps| - 1]);
      StepKeeps(Run(steps[..|steps| - 1]), steps[|steps| - 1]);
    }
  }
}
