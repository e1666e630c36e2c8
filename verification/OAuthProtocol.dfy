/**
  Sign-in sessions under concurrency (src/accounts/oauth.rs): callers, detached begins, device pollers
  and finishers interleave at every lock region of the session table.  A finisher or a begin may stop
  anywhere; time moves forward.
 */
module OAuthProtocol {
  import opened Results
  import opened Accounts
  import opened OAuthSessions

  type TaskId = nat

  /** A session about to be inserted; a device session's time runs from before its provider request. */
  datatype Draft = Draft(started: Option<nat>, lifetime: nat)

  datatype BeginPc =
    | Checking
    | Asking(started: nat)
    | Ready(draft: Draft)
    | Recording(result: Option<SessionId>)
    | Ended

  /** `start` is the keyed begin this task works for, if any. */
  datatype BeginTask = BeginTask(request: Request, start: Option<nat>, pc: BeginPc)

  datatype FinishPc = Holding | LookedUp | Settling(result: Result<Id, AccountError>) | Gone
  datatype Finisher = Finisher(session: SessionId, pc: FinishPc)

  /** What a keyed begin came to. */
  datatype Outcome = Pending | Unsuccessful | Bound(session: SessionId)
  datatype Start = Start(key: Key, request: Request, outcome: Outcome)
  datatype Answer = Answer(start: nat, session: SessionId)

  /**
    `starts`, `latest`, `asked`, `claims`, `adds`, `saved` and `answers` record what happened: keyed
    begins and the latest one per key, provider requests, claims and account additions per session,
    and sessions handed to keyed callers.  `broken` tells that some lookup that cannot fail did.
   */
  datatype State = State(
    now: nat, table: Table, tasks: map<TaskId, BeginTask>, finishers: map<TaskId, Finisher>,
    used: set<SessionId>, starts: seq<Start>, latest: map<Key, nat>, asked: multiset<nat>,
    claims: multiset<SessionId>, adds: multiset<SessionId>, saved: map<SessionId, Id>,
    answers: seq<Answer>, broken: bool)

  const INITIAL: State :=
    State(0, EMPTY_TABLE, map[], map[], {}, [], map[], multiset{}, multiset{}, multiset{}, map[], [], false)

  datatype Step =
    | BeginCall(b: TaskId, request: Request)
    | BeginKeyedCall(b: TaskId, key: Key, request: Request, now: nat)
    | CheckRoom(b: TaskId, now: nat)
    | ProviderAnswers(b: TaskId, lifetime: Option<nat>, now: nat)
    | FailBegin(b: TaskId)
    | InsertSession(b: TaskId, id: SessionId, now: nat)
    | Record(b: TaskId)
    | GetCall(id: SessionId, now: nat)
    | CancelCall(id: SessionId, now: nat)
    | ClaimCodeCall(f: TaskId, id: SessionId, now: nat)
    | ClaimDeviceCall(f: TaskId, id: SessionId, now: nat)
    | EndDeviceCall(id: SessionId, status: Status, errorCode: Option<string>)
    | EndLoopbackCall(id: SessionId)
    | LookUp(f: TaskId, now: nat)
    | Save(f: TaskId, result: Result<Id, AccountError>)
    | SettleCall(f: TaskId)
    | Stop(f: TaskId)

  function Moment(step: Step, s: State): nat {
    match step
    case BeginKeyedCall(_, _, _, now) => now
    case CheckRoom(_, now) => now
    case ProviderAnswers(_, _, now) => now
    case InsertSession(_, _, now) => now
    case GetCall(_, now) => now
    case CancelCall(_, now) => now
    case ClaimCodeCall(_, _, now) => now
    case ClaimDeviceCall(_, _, now) => now
    case LookUp(_, now) => now
    case _ => s.now
  }

  // ------------------------------------------------------------------ begins

  function FirstPc(request: Request): BeginPc {
    match WorkflowOf(request)
    case None => Recording(None)
    case Some(workflow) => if workflow.DeviceCode? then Checking else Ready(Draft(None, 180))
  }

  function SetPc(s: State, b: TaskId, pc: BeginPc): State
    requires b in s.tasks
  {
    s.(tasks := s.tasks[b := s.tasks[b].(pc := pc)])
  }

  function DoBeginKeyed(s: State, b: TaskId, key: Key, request: Request): State {
    var (table, begun) := BeginKeyed(s.table, key, request, s.now);
    var p := Pruned(s.table, s.now);
    var broken := key in p.begins && p.begins[key].session.Some? && p.begins[key].session.value !in p.sessions;
    var next := s.(table := table, broken := s.broken || broken);
    match begun
    case Refused(_) => next
    case Existing(_) =>
      if key in p.begins && p.begins[key].session.Some? && key in s.latest
      then next.(answers := s.answers + [Answer(s.latest[key], p.begins[key].session.value)]) else next
    case Started =>
      next.(starts := s.starts + [Start(key, request, Pending)],
            latest := s.latest[key := |s.starts|],
            tasks := s.tasks[b := BeginTask(request, Some(|s.starts|), FirstPc(request))])
  }

  function DoCheckRoom(s: State, b: TaskId): State
    requires b in s.tasks
  {
    var p := s.(table := Pruned(s.table, s.now));
    if !HasRoom(p.table) then SetPc(p, b, Recording(None))
    else
      var start := s.tasks[b].start;
      SetPc(p, b, Asking(s.now)).(asked := if start.Some? then s.asked + multiset{start.value} else s.asked)
  }

  /** The device flow's lifetime is at most an hour, and what the request took is already gone from it. */
  function DoProviderAnswers(s: State, b: TaskId, lifetime: Option<nat>): State
    requires b in s.tasks && s.tasks[b].pc.Asking?
  {
    var started := s.tasks[b].pc.started;
    if lifetime.Some? && 1 <= lifetime.value <= HOUR && s.now - started < lifetime.value
    then SetPc(s, b, Ready(Draft(Some(started), lifetime.value)))
    else SetPc(s, b, Recording(None))
  }

  function SessionOf(request: Request, draft: Draft, now: nat): Session
    requires WorkflowOf(request).Some?
  {
    var workflow := WorkflowOf(request).value;
    var created := if draft.started.Some? then draft.started.value else now;
    Session(request.provider, workflow, draft.lifetime, !workflow.DeviceCode?, request.name, created, Waiting, None,
        None)
  }

  function DoInsert(s: State, b: TaskId, id: SessionId): State
    requires b in s.tasks && s.tasks[b].pc.Ready? && WorkflowOf(s.tasks[b].request).Some?
  {
    var session := SessionOf(s.tasks[b].request, s.tasks[b].pc.draft, s.now);
    var (table, inserted) := Insert(s.table, id, session, s.now);
    if inserted then SetPc(s, b, Recording(Some(id))).(table := table, used := s.used + {id})
    else SetPc(s, b, Recording(None)).(table := table)
  }

  function DoRecord(s: State, b: TaskId): State
    requires b in s.tasks && s.tasks[b].pc.Recording?
  {
    var task := s.tasks[b];
    var ended := SetPc(s, b, Ended);
    if task.start.None? || task.start.value >= |s.starts| then ended
    else
      var i := task.start.value;
      var key := s.starts[i].key;
      var result := task.pc.result;
      var outcome := if result.Some? then Bound(result.value) else Unsuccessful;
      ended.(table := RecordBegin(s.table, key, result),
             starts := s.starts[i := s.starts[i].(outcome := outcome)],
             answers := if result.Some? then s.answers + [Answer(i, result.value)] else s.answers,
             broken := s.broken || key !in s.table.begins)
  }

  // ------------------------------------------------------------------ finishers

  function DoClaim(s: State, f: TaskId, id: SessionId, device: bool): State {
    var p := Pruned(s.table, s.now);
    var (table, result) := if device then ClaimDevice(s.table, id, s.now) else ClaimCode(s.table, id, s.now);
    if result.Success? then
      s.(table := table, claims := s.claims + multiset{id}, finishers := s.finishers[f := Finisher(id, Holding)])
    else
      s.(table := table, broken := s.broken || (id in p.sessions && p.sessions[id].status == Waiting))
  }

  function SetFinisher(s: State, f: TaskId, pc: FinishPc): State
    requires f in s.finishers
  {
    s.(finishers := s.finishers[f := s.finishers[f].(pc := pc)])
  }

  function DoLookUp(s: State, f: TaskId): State
    requires f in s.finishers
  {
    var (table, result) := GetSession(s.table, s.finishers[f].session, s.now);
    var next := s.(table := table);
    if result.Success? then SetFinisher(next, f, LookedUp) else SetFinisher(next, f, Gone).(broken := true)
  }

  /** An uncertain save may have added the account too. */
  function DoSave(s: State, f: TaskId, result: Result<Id, AccountError>): State
    requires f in s.finishers
  {
    var id := s.finishers[f].session;
    var added := result.Success? || result.error == CommitUncertain;
    SetFinisher(s, f, Settling(result)).(
      adds := if added then s.adds + multiset{id} else s.adds,
      saved := if result.Success? then s.saved[id := result.value] else s.saved)
  }

  function DoSettle(s: State, f: TaskId): State
    requires f in s.finishers && s.finishers[f].pc.Settling?
  {
    var (table, result) := Settle(s.table, s.finishers[f].session, s.finishers[f].pc.result);
    SetFinisher(s, f, Gone).(table := table, broken := s.broken || s.finishers[f].session !in s.table.sessions)
  }

  predicate Flows(s: State, id: SessionId, workflow: Workflow) {
    id in s.table.sessions && s.table.sessions[id].workflow == workflow
  }

  /** A step at the current moment. */
  function Act(s: State, step: Step): State {
    match step
    case BeginCall(b, request) =>
      if b in s.tasks || !NameAllowed(request) || WorkflowOf(request).None? then s
      else s.(tasks := s.tasks[b := BeginTask(request, None, FirstPc(request))])
    case BeginKeyedCall(b, key, request, _) =>
      if b in s.tasks || !NameAllowed(request) then s else DoBeginKeyed(s, b, key, request)
    case CheckRoom(b, _) => if b in s.tasks && s.tasks[b].pc.Checking? then DoCheckRoom(s, b) else s
    case ProviderAnswers(b, lifetime, _) =>
      if b in s.tasks && s.tasks[b].pc.Asking? then DoProviderAnswers(s, b, lifetime) else s
    case FailBegin(b) => if b in s.tasks && s.tasks[b].pc.Ready? then SetPc(s, b, Recording(None)) else s
    case InsertSession(b, id, _) =>
      if b in s.tasks && s.tasks[b].pc.Ready? && WorkflowOf(s.tasks[b].request).Some? && id !in s.used
      then DoInsert(s, b, id) else s
    case Record(b) => if b in s.tasks && s.tasks[b].pc.Recording? then DoRecord(s, b) else s
    case GetCall(id, _) => s.(table := GetSession(s.table, id, s.now).0)
    case CancelCall(id, _) => s.(table := Cancel(s.table, id, s.now).0)
    case ClaimCodeCall(f, id, _) =>
      if f in s.finishers || Flows(s, id, DeviceCode) then s else DoClaim(s, f, id, false)
    case ClaimDeviceCall(f, id, _) =>
      if f in s.finishers || !Flows(s, id, DeviceCode) then s else DoClaim(s, f, id, true)
    case EndDeviceCall(id, status, errorCode) =>
      if Flows(s, id, DeviceCode) && (status == Expired || status == Status.Cancelled || status == Failed)
      then s.(table := EndDevice(s.table, id, status, errorCode)) else s
    case EndLoopbackCall(id) =>
      if Flows(s, id, BrowserCallback) then s.(table := EndLoopback(s.table, id)) else s
    case LookUp(f, _) => if f in s.finishers && s.finishers[f].pc.Holding? then DoLookUp(s, f) else s
    case Save(f, result) => if f in s.finishers && s.finishers[f].pc.LookedUp? then DoSave(s, f, result) else s
    case SettleCall(f) => if f in s.finishers && s.finishers[f].pc.Settling? then DoSettle(s, f) else s
    case Stop(f) => if f in s.finishers then SetFinisher(s, f, Gone) else s
  }

  function Apply(s: State, step: Step): State {
    var now := Moment(step, s);
    if now < s.now then s else Act(s.(now := now), step)
  }

  function Run(steps: seq<Step>): State {
    if steps == [] then INITIAL else Apply(Run(steps[..|steps| - 1]), steps[|steps| - 1])
  }

  // ------------------------------------------------------------------ invariant

  predicate Sized(t: Table) {
    |t.sessions| <= CAPACITY && |t.begins| <= CAPACITY
  }

  const HOUR: nat := 3600

  /** Ids are drawn once. */
  predicate Known(sessions: map<SessionId, Session>, used: set<SessionId>) {
    forall id :: id in sessions ==> id in used && Fit(sessions[id])
  }

  /** No session is meant to live longer than an hour, and a code session that waits has its authorization. */
  predicate Fit(session: Session) {
    && 1 <= session.lifetime <= HOUR
    && (session.status == Waiting && !session.workflow.DeviceCode? ==> session.authorized)
  }

  /** A session is claimed exactly while or after it is being processed, and adds nothing before. */
  ghost predicate ClaimsKept(sessions: map<SessionId, Session>, used: set<SessionId>, claims: multiset<SessionId>,
      adds: multiset<SessionId>, saved: map<SessionId, Id>) {
    && (forall id :: adds[id] <= claims[id] <= 1)
    && (forall id :: id in claims ==> id in used)
    && (forall id :: id in sessions ==> StatusFits(id, sessions[id], claims, adds, saved))
  }

  predicate StatusFits(id: SessionId, session: Session, claims: multiset<SessionId>, adds: multiset<SessionId>,
      saved: map<SessionId, Id>) {
    match session.status
    case Waiting => id !in claims
    case Cancelled => id !in claims
    case Expired => id !in claims
    case Processing => id in claims
    case Completed => id in adds && id in saved && session.accountId == Some(saved[id])
    case Failed => true
  }

  /** Every finisher at work has its session to itself, still being processed. */
  ghost predicate Finishing(sessions: map<SessionId, Session>, finishers: map<TaskId, Finisher>,
      adds: multiset<SessionId>, saved: map<SessionId, Id>) {
    && (forall f :: f in finishers && !finishers[f].pc.Gone? ==> AtWork(sessions, finishers[f], adds, saved))
    && (forall f, g :: f in finishers && g in finishers && WorkOn(finishers[f], finishers[g]) ==> f == g)
  }

  predicate WorkOn(a: Finisher, b: Finisher) {
    !a.pc.Gone? && !b.pc.Gone? && a.session == b.session
  }

  predicate AtWork(sessions: map<SessionId, Session>, finisher: Finisher, adds: multiset<SessionId>,
      saved: map<SessionId, Id>) {
    && finisher.session in sessions && sessions[finisher.session].status == Processing
    && (finisher.pc.Holding? || finisher.pc.LookedUp? ==> finisher.session !in adds)
    && (finisher.pc.Settling? && finisher.pc.result.Success? ==>
          finisher.session in adds && finisher.session in saved && saved[finisher.session] == finisher.pc.result.value)
  }

  /** A keyed begin that can no longer hand out a session. */
  predicate Over(start: Start, sessions: map<SessionId, Session>) {
    start.outcome.Unsuccessful? || (start.outcome.Bound? && start.outcome.session !in sessions)
  }

  predicate Stands(claim: Claim, start: Start) {
    && claim.request == start.request
    && (claim.session.None? <==> start.outcome.Pending?)
    && (claim.session.Some? ==> start.outcome == Bound(claim.session.value))
  }

  /** The claims are the keyed begins that are not over, at most one to a key. */
  ghost predicate Linked(t: Table, starts: seq<Start>, latest: map<Key, nat>) {
    && (forall key :: key in t.begins ==> key in latest && latest[key] < |starts| && starts[latest[key]].key == key
                                           && Stands(t.begins[key], starts[latest[key]]))
    && (forall i :: 0 <= i < |starts| && !Over(starts[i], t.sessions) ==>
          starts[i].key in t.begins && starts[i].key in latest && latest[starts[i].key] == i)
    && (forall i, j :: 0 <= i < j < |starts| && starts[i].key == starts[j].key ==> Over(starts[i], t.sessions))
  }

  predicate Keyed(task: BeginTask) {
    !task.pc.Ended? && task.start.Some?
  }

  /** A keyed begin works for a pending start, which has asked the provider only if it got that far. */
  predicate Fits(task: BeginTask, starts: seq<Start>, used: set<SessionId>, asked: multiset<nat>) {
    && (Keyed(task) ==>
          && task.start.value < |starts|
          && starts[task.start.value].outcome.Pending? && starts[task.start.value].request == task.request
          && (task.pc.Checking? ==> task.start.value !in asked))
    && (task.pc.Recording? && task.pc.result.Some? ==> task.pc.result.value in used)
    && (task.pc.Ready? ==> 1 <= task.pc.draft.lifetime <= HOUR)
  }

  predicate SameStart(a: BeginTask, b: BeginTask) {
    Keyed(a) && Keyed(b) && a.start == b.start
  }

  ghost predicate Working(tasks: map<TaskId, BeginTask>, starts: seq<Start>, used: set<SessionId>,
      asked: multiset<nat>) {
    && (forall b :: b in tasks ==> Fits(tasks[b], starts, used, asked))
    && (forall b, c :: b in tasks && c in tasks && SameStart(tasks[b], tasks[c]) ==> b == c)
  }

  /** Sessions of keyed begins were drawn, and each begin asked the provider at most once. */
  ghost predicate StartsKnown(starts: seq<Start>, used: set<SessionId>, asked: multiset<nat>) {
    && (forall i :: 0 <= i < |starts| && starts[i].outcome.Bound? ==> starts[i].outcome.session in used)
    && (forall i :: asked[i] <= 1)
    && (forall i :: i in asked ==> i < |starts|)
  }

  ghost predicate Answered(answers: seq<Answer>, starts: seq<Start>) {
    forall k :: 0 <= k < |answers| ==>
      answers[k].start < |starts| && starts[answers[k].start].outcome == Bound(answers[k].session)
  }

  ghost predicate Inv(s: State) {
    && Sized(s.table)
    && Known(s.table.sessions, s.used)
    && ClaimsKept(s.table.sessions, s.used, s.claims, s.adds, s.saved)
    && Finishing(s.table.sessions, s.finishers, s.adds, s.saved)
    && Linked(s.table, s.starts, s.latest)
    && Working(s.tasks, s.starts, s.used, s.asked)
    && StartsKnown(s.starts, s.used, s.asked)
    && Answered(s.answers, s.starts)
    && !s.broken
  }
}
