/** What every run of the sign-in protocol guarantees (src/accounts/oauth.rs). */
module OAuthTheorems {
  import opened Results
  import opened Accounts
  import opened OAuthSessions
  import opened OAuthProtocol
  import opened OAuthSafety

  /** Both tables stay within capacity, so the trimming branch of `prune` is never taken. */
  lemma {:induction false} TablesBounded(steps: seq<Step>)
    ensures |Run(steps).table.sessions| <= CAPACITY && |Run(steps).table.begins| <= CAPACITY
  {
    hide Run;
    RunInv(steps);
  }

  /**
    No lookup that the code relies on ever fails: a keyed retry finds its retained session, a begin
    finds its claim, a claimed code session has its authorization, and a finisher finds its session.
   */
  lemma {:induction false} LookupsNeverFail(steps: seq<Step>)
    ensures !Run(steps).broken
  {
    hide Run;
    RunInv(steps);
  }

  /** No session is meant to live longer than an hour, the lifetime device polling relies on. */
  lemma LifetimesBounded(steps: seq<Step>, id: SessionId)
    requires id in Run(steps).table.sessions
    ensures 1 <= Run(steps).table.sessions[id].lifetime <= HOUR
  {
    hide Run, ClaimsKept, Finishing, Linked, Working;
    RunInv(steps);
  }

  /** A session is claimed at most once, adds at most one account, and adds none unless claimed. */
  lemma {:induction false} ClaimedAtMostOnce(steps: seq<Step>, id: SessionId)
    ensures Run(steps).adds[id] <= Run(steps).claims[id] <= 1
  {
    hide Run;
    RunInv(steps);
  }

  /** A completed session names the account its finisher added. */
  lemma {:induction false} CompletedAdded(steps: seq<Step>, id: SessionId)
    requires id in Run(steps).table.sessions
    ensures Run(steps).table.sessions[id].status == Completed ==>
      && id in Run(steps).adds && id in Run(steps).saved
      && Run(steps).table.sessions[id].accountId == Some(Run(steps).saved[id])
  {
    hide Run, Linked, Working, Finishing;
    RunInv(steps);
    assert StatusFits(id, Run(steps).table.sessions[id], Run(steps).claims, Run(steps).adds, Run(steps).saved);
  }

  // ------------------------------------------------------------------ status moves

  lemma PruneThen(t: Table, id: SessionId, session: Session, now: int)
    requires id in Pruned(t, now).sessions ==> Transition(Pruned(t, now).sessions[id], session)
    requires id !in Pruned(t, now).sessions ==> id !in t.sessions
    ensures TableStep(t, With(Pruned(t, now), id, session), now)
  {
  }

  lemma JustPrunes(t: Table, now: int)
    ensures TableStep(t, Pruned(t, now), now)
  {
  }

  lemma SameSessions(t: Table, t': Table, now: int)
    requires t'.sessions == t.sessions
    ensures TableStep(t, t', now)
  {
  }

  lemma ClaimMoves(s: State, f: TaskId, id: SessionId, device: bool)
    ensures TableStep(s.table, DoClaim(s, f, id, device).table, s.now)
  {
    hide Pruned, TableStep;
    var p := Pruned(s.table, s.now);
    JustPrunes(s.table, s.now);
    var table := if device then ClaimDevice(s.table, id, s.now).0 else ClaimCode(s.table, id, s.now).0;
    if id in p.sessions && p.sessions[id].status == Waiting {
      PruneThen(s.table, id, table.sessions[id], s.now);
    }
    assert TableStep(s.table, table, s.now);
    hide ClaimDevice, ClaimCode;
  }

  lemma CancelMoves(t: Table, id: SessionId, now: int)
    ensures TableStep(t, Cancel(t, id, now).0, now)
  {
    var p := Pruned(t, now);
    JustPrunes(t, now);
    hide Pruned, TableStep;
    if id in p.sessions && p.sessions[id].status == Waiting {
      PruneThen(t, id, Cancel(t, id, now).0.sessions[id], now);
    }
  }

  lemma InsertMoves(s: State, b: TaskId, id: SessionId)
    requires b in s.tasks && s.tasks[b].pc.Ready? && WorkflowOf(s.tasks[b].request).Some?
    requires Known(s.table.sessions, s.used) && id !in s.used
    ensures TableStep(s.table, DoInsert(s, b, id).table, s.now)
  {
    JustPrunes(s.table, s.now);
    PruneThen(s.table, id, SessionOf(s.tasks[b].request, s.tasks[b].pc.draft, s.now), s.now);
    hide Pruned, TableStep, Known, SessionOf, HasRoom;
  }

  lemma LikeSessions(t: Table, a: Table, b: Table, now: int)
    requires TableStep(t, a, now) && b.sessions == a.sessions
    ensures TableStep(t, b, now)
  {
  }

  lemma BeginPrunes(t: Table, key: Key, request: Request, now: int)
    ensures BeginKeyed(t, key, request, now).0.sessions == Pruned(t, now).sessions
  {
  }

  lemma BeginMoves(s: State, b: TaskId, key: Key, request: Request)
    ensures TableStep(s.table, DoBeginKeyed(s, b, key, request).table, s.now)
  {
    hide Pruned, BeginKeyed, TableStep, FirstPc;
    JustPrunes(s.table, s.now);
    BeginPrunes(s.table, key, request, s.now);
    LikeSessions(s.table, Pruned(s.table, s.now), BeginKeyed(s.table, key, request, s.now).0, s.now);
  }

  lemma RecordMoves(s: State, b: TaskId)
    requires b in s.tasks && s.tasks[b].pc.Recording?
    ensures TableStep(s.table, DoRecord(s, b).table, s.now)
  {
  }

  lemma SettleMoves(s: State, f: TaskId)
    requires Finishing(s.table.sessions, s.finishers, s.adds, s.saved) && f in s.finishers
        && s.finishers[f].pc.Settling?
    ensures TableStep(s.table, DoSettle(s, f).table, s.now)
  {
  }

  lemma EndMoves(t: Table, id: SessionId, status: Status, errorCode: Option<string>, now: int)
    requires status == Expired || status == Status.Cancelled || status == Failed
    ensures TableStep(t, EndDevice(t, id, status, errorCode), now)
  {
  }

  lemma EndLoopbackMoves(t: Table, id: SessionId, now: int)
    ensures TableStep(t, EndLoopback(t, id), now)
  {
  }

  /** Steps that only prune the table, or leave it alone. */
  lemma QuietMoves(s: State, step: Step)
    requires step.CheckRoom? || step.GetCall? || step.LookUp?
    ensures TableStep(s.table, Act(s, step).table, s.now)
  {
    hide Pruned, TableStep, HasRoom;
    SameSessions(s.table, s.table, s.now);
    JustPrunes(s.table, s.now);
  }

  lemma TableUntouched(s: State, step: Step)
    requires step.BeginCall? || step.ProviderAnswers? || step.FailBegin? || step.Save? || step.Stop?
    ensures TableStep(s.table, Act(s, step).table, s.now)
  {
    hide TableStep, WorkflowOf, NameAllowed, FirstPc;
    SameSessions(s.table, s.table, s.now);
  }

  lemma ActInsert(s: State, b: TaskId, id: SessionId, at: nat)
    requires Known(s.table.sessions, s.used)
    ensures TableStep(s.table, Act(s, InsertSession(b, id, at)).table, s.now)
  {
    hide TableStep, DoInsert, Known, WorkflowOf;
    SameSessions(s.table, s.table, s.now);
    if b in s.tasks && s.tasks[b].pc.Ready? && WorkflowOf(s.tasks[b].request).Some? && id !in s.used {
      InsertMoves(s, b, id);
    }
  }

  lemma ActRecord(s: State, b: TaskId)
    ensures TableStep(s.table, Act(s, Record(b)).table, s.now)
  {
    hide TableStep, DoRecord;
    SameSessions(s.table, s.table, s.now);
    if b in s.tasks && s.tasks[b].pc.Recording? {
      RecordMoves(s, b);
    }
  }

  lemma ActBeginKeyed(s: State, b: TaskId, key: Key, request: Request, at: nat)
    ensures TableStep(s.table, Act(s, BeginKeyedCall(b, key, request, at)).table, s.now)
  {
    hide TableStep, DoBeginKeyed, NameAllowed;
    SameSessions(s.table, s.table, s.now);
    BeginMoves(s, b, key, request);
  }

  lemma ActSettle(s: State, f: TaskId)
    requires Finishing(s.table.sessions, s.finishers, s.adds, s.saved)
    ensures TableStep(s.table, Act(s, SettleCall(f)).table, s.now)
  {
    hide TableStep, DoSettle, Finishing;
    SameSessions(s.table, s.table, s.now);
    if f in s.finishers && s.finishers[f].pc.Settling? {
      SettleMoves(s, f);
    }
  }

  lemma ActCancel(s: State, id: SessionId, at: nat)
    ensures TableStep(s.table, Act(s, CancelCall(id, at)).table, s.now)
  {
    hide TableStep, Cancel;
    CancelMoves(s.table, id, s.now);
  }

  lemma ActClaim(s: State, f: TaskId, id: SessionId, at: nat)
    ensures TableStep(s.table, Act(s, ClaimCodeCall(f, id, at)).table, s.now)
    ensures TableStep(s.table, Act(s, ClaimDeviceCall(f, id, at)).table, s.now)
  {
    hide TableStep, DoClaim, Flows;
    SameSessions(s.table, s.table, s.now);
    ClaimMoves(s, f, id, false);
    ClaimMoves(s, f, id, true);
  }

  lemma ActEnd(s: State, id: SessionId, status: Status, errorCode: Option<string>)
    ensures TableStep(s.table, Act(s, EndDeviceCall(id, status, errorCode)).table, s.now)
    ensures TableStep(s.table, Act(s, EndLoopbackCall(id)).table, s.now)
  {
    hide TableStep, EndDevice, EndLoopback, Flows;
    SameSessions(s.table, s.table, s.now);
    EndLoopbackMoves(s.table, id, s.now);
    if status == Expired || status == Status.Cancelled || status == Failed {
      EndMoves(s.table, id, status, errorCode, s.now);
    }
  }

  lemma ActMoves(s: State, step: Step)
    requires Inv(s)
    ensures TableStep(s.table, Act(s, step).table, s.now)
  {
    assert Known(s.table.sessions, s.used) && Finishing(s.table.sessions, s.finishers, s.adds, s.saved);
    hide Act, Inv, TableStep, Known, Finishing;
    match step
    case InsertSession(b, id, at) => ActInsert(s, b, id, at);
    case Record(b) => ActRecord(s, b);
    case BeginKeyedCall(b, key, request, at) => ActBeginKeyed(s, b, key, request, at);
    case SettleCall(f) => ActSettle(s, f);
    case CancelCall(id, at) => ActCancel(s, id, at);
    case ClaimCodeCall(f, id, at) => ActClaim(s, f, id, at);
    case ClaimDeviceCall(f, id, at) => ActClaim(s, f, id, at);
    case EndDeviceCall(id, status, errorCode) => ActEnd(s, id, status, errorCode);
    case EndLoopbackCall(id) => ActEnd(s, id, Expired, None);
    case CheckRoom(_, _) => QuietMoves(s, step);
    case GetCall(_, _) => QuietMoves(s, step);
    case LookUp(_, _) => QuietMoves(s, step);
    case _ => TableUntouched(s, step);
  }

  lemma MovesForward(s: State, step: Step)
    requires Inv(s)
    ensures TableStep(s.table, Apply(s, step).table, Moment(step, s))
  {
    hide Act, TableStep, Inv;
    var now := Moment(step, s);
    SameSessions(s.table, s.table, now);
    if now >= s.now {
      LaterKeeps(s, now);
      ActMoves(s.(now := now), step);
    }
  }

  /** Every step of every run: sessions only move forward, and none is removed while it is being processed. */
  lemma {:induction false} StatusMovesForward(steps: seq<Step>, step: Step)
    ensures TableStep(Run(steps).table, Apply(Run(steps), step).table, Moment(step, Run(steps)))
  {
    hide Run, Inv, TableStep, Apply;
    RunInv(steps);
    MovesForward(Run(steps), step);
  }

  // ------------------------------------------------------------------ ended before being claimed

  /** A session that was never claimed and no longer waits, or is gone. */
  predicate Closed(s: State, id: SessionId) {
    id in s.used && id !in s.claims && (id in s.table.sessions ==> s.table.sessions[id].status != Waiting)
  }

  lemma StaysClosed(s: State, step: Step, id: SessionId)
    requires Inv(s) && Closed(s, id)
    ensures Closed(Apply(s, step), id)
  {
    hide Inv, Apply, Moment;
    MovesForward(s, step);
    OnlyWaitingClaimed(s, step, id);
  }

  /** Ids are never drawn again, and only a waiting session is claimed. */
  lemma OnlyWaitingClaimed(s: State, step: Step, id: SessionId)
    requires Closed(s, id)
    ensures Unrevived(s, Apply(s, step), id)
  {
    var now := Moment(step, s);
    if now >= s.now {
      ClaimsOfAct(s.(now := now), step, id);
    }
    hide Act;
  }

  /** Nothing about an id is new: it stays drawn, unclaimed, and out of the table if it was. */
  predicate Unrevived(s: State, next: State, id: SessionId) {
    id in next.used && id !in next.claims && (id in next.table.sessions ==> id in s.table.sessions)
  }

  lemma PrunedNotWaiting(t: Table, now: int, id: SessionId)
    ensures id in Pruned(t, now).sessions ==> id in t.sessions
    ensures id in Pruned(t, now).sessions && t.sessions[id].status != Waiting ==>
      Pruned(t, now).sessions[id].status != Waiting
  {
  }

  lemma ClaimUnrevived(s: State, f: TaskId, other: SessionId, device: bool, id: SessionId)
    requires Closed(s, id)
    ensures Unrevived(s, DoClaim(s, f, other, device), id)
  {
    PrunedNotWaiting(s.table, s.now, id);
    var p := Pruned(s.table, s.now);
    hide Pruned;
    var table := if device then ClaimDevice(s.table, other, s.now).0 else ClaimCode(s.table, other, s.now).0;
    assert table.sessions.Keys == p.sessions.Keys;
  }

  lemma BeginUnrevived(s: State, b: TaskId, key: Key, request: Request, id: SessionId)
    requires Closed(s, id)
    ensures Unrevived(s, DoBeginKeyed(s, b, key, request), id)
  {
    hide Pruned, FirstPc, BeginKeyed;
    PrunedNotWaiting(s.table, s.now, id);
    BeginPrunes(s.table, key, request, s.now);
  }

  lemma TaskUnrevived(s: State, step: Step, id: SessionId)
    requires Closed(s, id)
    requires step.BeginCall? || step.CheckRoom? || step.ProviderAnswers? || step.FailBegin?
    ensures Unrevived(s, Act(s, step), id)
  {
    hide Pruned, FirstPc, WorkflowOf, NameAllowed, HasRoom;
    PrunedNotWaiting(s.table, s.now, id);
  }

  lemma EndUnrevived(s: State, step: Step, id: SessionId)
    requires Closed(s, id) && (step.InsertSession? || step.Record?)
    ensures Unrevived(s, Act(s, step), id)
  {
    hide Pruned, WorkflowOf, SessionOf, HasRoom;
    PrunedNotWaiting(s.table, s.now, id);
  }

  lemma FinishUnrevived(s: State, step: Step, id: SessionId)
    requires Closed(s, id)
    requires step.LookUp? || step.Save? || step.Stop?
    ensures Unrevived(s, Act(s, step), id)
  {
    hide Pruned;
    PrunedNotWaiting(s.table, s.now, id);
  }

  lemma SettleUnrevived(s: State, f: TaskId, id: SessionId)
    requires Closed(s, id)
    ensures Unrevived(s, Act(s, SettleCall(f)), id)
  {
    hide Settle;
    if f in s.finishers && s.finishers[f].pc.Settling? {
      SettleKeys(s.table, s.finishers[f].session, s.finishers[f].pc.result);
    }
  }

  lemma SettleKeys(t: Table, id: SessionId, result: Result<Id, AccountError>)
    ensures Settle(t, id, result).0.sessions.Keys == t.sessions.Keys
  {
  }

  lemma TableUnrevived(s: State, step: Step, id: SessionId)
    requires Closed(s, id)
    requires step.GetCall? || step.CancelCall? || step.EndDeviceCall? || step.EndLoopbackCall?
    ensures Unrevived(s, Act(s, step), id)
  {
    hide Pruned;
    PrunedNotWaiting(s.table, s.now, id);
  }

  lemma ClaimsOfAct(s: State, step: Step, id: SessionId)
    requires Closed(s, id)
    ensures Unrevived(s, Act(s, step), id)
  {
    if step.ClaimCodeCall? {
      ClaimUnrevived(s, step.f, step.id, false, id);
    } else if step.ClaimDeviceCall? {
      ClaimUnrevived(s, step.f, step.id, true, id);
    } else if step.BeginKeyedCall? {
      BeginUnrevived(s, step.b, step.key, step.request, id);
    } else if step.SettleCall? {
      SettleUnrevived(s, step.f, id);
    } else if step.LookUp? || step.Save? || step.Stop? {
      FinishUnrevived(s, step, id);
    } else if step.GetCall? || step.CancelCall? || step.EndDeviceCall? || step.EndLoopbackCall? {
      TableUnrevived(s, step, id);
    } else if step.InsertSession? || step.Record? {
      EndUnrevived(s, step, id);
    } else {
      TaskUnrevived(s, step, id);
    }
    hide DoClaim, DoBeginKeyed, DoLookUp, DoSave, DoSettle, DoCheckRoom, DoInsert, DoRecord, DoProviderAnswers, Pruned,
         Cancel, EndDevice, EndLoopback, WorkflowOf, NameAllowed;
  }

  lemma {:induction false} ClosedForever(steps: seq<Step>, more: seq<Step>, id: SessionId)
    requires Closed(Run(steps), id)
    ensures Closed(Run(steps + more), id)
  {
    hide Closed, Inv, Apply;
    if more == [] {
      assert steps + more == steps;
    } else {
      var n := |more| - 1;
      ClosedForever(steps, more[..n], id);
      assert (steps + more)[..|steps + more| - 1] == steps + more[..n];
      RunInv(steps + more[..n]);
      StaysClosed(Run(steps + more[..n]), more[n], id);
    }
  }

  /** A session cancelled or expired before it was claimed never adds an account, however the run goes on. */
  lemma {:induction false} UnclaimedNeverAdds(steps: seq<Step>, more: seq<Step>, id: SessionId)
    requires id in Run(steps).table.sessions
    requires Run(steps).table.sessions[id].status == Status.Cancelled || Run(steps).table.sessions[id].status == Expired
    ensures id !in Run(steps + more).claims && id !in Run(steps + more).adds
  {
    hide Run, Linked, Working, Finishing;
    RunInv(steps);
    assert StatusFits(id, Run(steps).table.sessions[id], Run(steps).claims, Run(steps).adds, Run(steps).saved);
    ClosedForever(steps, more, id);
    ClaimedAtMostOnce(steps + more, id);
  }

  // ------------------------------------------------------------------ keyed begins

  /**
    For one key, a later begin exists only if the earlier one failed or its session is gone from the
    table; and each begin asks the provider at most once.
   */
  lemma {:induction false} SecondBeginNeedsFirstOver(steps: seq<Step>, i: nat, j: nat)
    requires i < j < |Run(steps).starts| && Run(steps).starts[i].key == Run(steps).starts[j].key
    ensures Over(Run(steps).starts[i], Run(steps).table.sessions)
    ensures Run(steps).asked[i] <= 1 && Run(steps).asked[j] <= 1
  {
    hide Run, Over, ClaimsKept, Working, Finishing;
    RunInv(steps);
  }

  /** Two sessions handed out for one begin are one session; for one key, a different one means the first is gone. */
  lemma {:induction false} SameSessionForKey(steps: seq<Step>, k: nat, l: nat)
    requires k < |Run(steps).answers| && l < |Run(steps).answers|
    ensures var s := Run(steps);
      && s.answers[k].start < |s.starts| && s.answers[l].start < |s.starts|
      && (s.starts[s.answers[k].start].key == s.starts[s.answers[l].start].key ==>
            || s.answers[k].session == s.answers[l].session
            || s.answers[k].session !in s.table.sessions
            || s.answers[l].session !in s.table.sessions)
  {
    hide Run, ClaimsKept, Working, Finishing;
    RunInv(steps);
    var s := Run(steps);
    var a, b := s.answers[k], s.answers[l];
    if s.starts[a.start].key == s.starts[b.start].key && a.start != b.start {
      assert Over(s.starts[if a.start < b.start then a.start else b.start], s.table.sessions);
    }
  }

  /** A retry while the key's begin stands is never started again: it is told to wait, given the session, or refused. */
  lemma {:induction false} RetryNeverStarts(steps: seq<Step>, key: Key, request: Request, i: nat)
    requires i < |Run(steps).starts| && Run(steps).starts[i].key == key
    requires !Over(Run(steps).starts[i], Pruned(Run(steps).table, Run(steps).now).sessions)
    ensures var begun := BeginKeyed(Run(steps).table, key, request, Run(steps).now).1;
      && (request != Run(steps).starts[i].request <==> begun == Refused(IdempotencyConflict))
      && (request == Run(steps).starts[i].request && Run(steps).starts[i].outcome.Pending? ==> begun == Refused(Busy))
      && (request == Run(steps).starts[i].request && Run(steps).starts[i].outcome.Bound? ==>
            begun == Existing(Pruned(Run(steps).table, Run(steps).now).sessions[Run(steps).starts[i].outcome.session]))
  {
    hide Run, ClaimsKept, Working, Finishing, Pruned, Known, Sized;
    RunInv(steps);
    var s := Run(steps);
    PruneKeeps(s);
    var p := s.(table := Pruned(s.table, s.now));
    assert key in p.table.begins && s.latest[key] == i;
    assert Stands(p.table.begins[key], s.starts[i]);
  }
}
