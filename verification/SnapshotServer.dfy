/**
  The server's snapshot under concurrency (src/server.rs): refreshes publish optimistically against a
  generation counter, and every mutation commits and bumps the counter under one guard.

  A mutation is a settings patch, an account mutation or the save that completes a sign-in.  When its
  commit is uncertain the guard is dropped first and the counter is bumped afterwards.
 */
module SnapshotServer {
  import opened Results
  import opened Reports
  import opened Collection
  import opened RefreshScope
  import opened SnapshotMerge
  import UsageCache
  import Listing = AdapterListing

  type TaskId = nat

  /** A mutation's commit: made and confirmed, visible but unconfirmed, or not made. */
  datatype Outcome = Saved | Uncertain | Refused

  datatype Task =
    // a mutation
    | WantsGuard
    | Guarded
    | Committed(commit: nat)
    | Bumped
    | Unguarded(commit: nat)
    | BumpedLate
    // a refresh; `seen` is how many commits had been made when it captured the generation
    | Captured(generation: nat, seen: nat, scope: Scope, enabled: seq<string>)
    | Collected(generation: nat, seen: nat, refresh: Refresh)
    | Publishing(generation: nat, seen: nat, refresh: Refresh)
    | Publishable(generation: nat, seen: nat, refresh: Refresh)
    | Done
  {
    /** The task holds the commit guard. */
    predicate Guards() {
      Guarded? || Committed? || Bumped? || Publishing? || Publishable?
    }
    /** The task holds the refresh lock. */
    predicate Refreshing() {
      Captured? || Collected? || Publishing? || Publishable?
    }
  }

  /** A commit, and whether the counter has been bumped for it yet. */
  datatype Commit = Commit(outcome: Outcome, bumped: bool)

  /** A refresh merged into the snapshot, and how many commits it may have missed none of. */
  datatype Source = Source(refresh: Refresh, seen: nat)

  /** A response that was served: the report, what it was merged from, and the commits made by then. */
  datatype Response = Response(generation: nat, report: Report, sources: seq<Source>, commits: seq<Commit>)

  /** `sources` lists the refreshes behind the snapshot. */
  datatype State = State(
    generation: nat, snapshot: Option<Snapshot>, sources: seq<Source>, tasks: map<TaskId, Task>,
    commits: seq<Commit>, served: seq<Response>)

  const INITIAL: State := State(0, None, [], map[], [], [])

  datatype Step =
    | StartMutation(t: TaskId)
    | StartRefresh(t: TaskId, scope: Scope, enabled: seq<string>)
    | TakeGuard(t: TaskId)
    | CommitMutation(t: TaskId, outcome: Outcome)
    | Bump(t: TaskId)
    | ClearSnapshot(t: TaskId)
    | Collect(t: TaskId, gathering: Gathering)
    | CheckGeneration(t: TaskId)
    | Publish(t: TaskId)
    | Abandon(t: TaskId)
    | Serve

  predicate GuardFree(tasks: map<TaskId, Task>) {
    forall t :: t in tasks ==> !tasks[t].Guards()
  }

  predicate RefreshFree(tasks: map<TaskId, Task>) {
    forall t :: t in tasks ==> !tasks[t].Refreshing()
  }

  function SetTask(s: State, t: TaskId, task: Task): State {
    s.(tasks := s.tasks[t := task])
  }

  function Mark(commits: seq<Commit>, k: nat): (r: seq<Commit>)
    ensures |r| == |commits|
  {
    if k < |commits| then commits[k := commits[k].(bumped := true)] else commits
  }

  /** The refresh that makes these requests, whatever they come to. */
  function RefreshOf(scope: Scope, enabled: seq<string>, gathering: Gathering): Refresh {
    Refresh(scope, enabled, gathering.requests, gathering.Report())
  }

  function DoPublish(s: State, t: TaskId): State
    requires t in s.tasks && s.tasks[t].Publishable?
  {
    var task := s.tasks[t];
    var r := task.refresh;
    var (snapshot, merged) := Merge(s.snapshot, task.generation, r.scope, r.enabled, r.report);
    var source := Source(r, task.seen);
    SetTask(s, t, Done).(
      snapshot := snapshot,
      sources := if !merged then s.sources else if r.scope.Full(r.enabled) then [source] else s.sources + [source])
  }

  function Apply(s: State, step: Step): State {
    match step
    case StartMutation(t) => if t in s.tasks then s else SetTask(s, t, WantsGuard)
    case StartRefresh(t, scope, enabled) =>
      if t in s.tasks || !RefreshFree(s.tasks) then s
      else SetTask(s, t, Captured(s.generation, |s.commits|, scope, enabled))
    case TakeGuard(t) =>
      if t !in s.tasks || !GuardFree(s.tasks) then s
      else if s.tasks[t].WantsGuard? then SetTask(s, t, Guarded)
      else if s.tasks[t].Collected? then
        SetTask(s, t, Publishing(s.tasks[t].generation, s.tasks[t].seen, s.tasks[t].refresh))
      else s
    case CommitMutation(t, outcome) =>
      if t !in s.tasks || !s.tasks[t].Guarded? then s
      else
        (match outcome
         case Refused => SetTask(s, t, Done)
         case Saved => SetTask(s, t, Committed(|s.commits|)).(commits := s.commits + [Commit(Saved, false)])
         case Uncertain => SetTask(s, t, Unguarded(|s.commits|)).(commits := s.commits + [Commit(Uncertain, false)]))
    case Bump(t) =>
      if t !in s.tasks then s
      else if s.tasks[t].Committed? then
        SetTask(s, t, Bumped).(generation := s.generation + 1, commits := Mark(s.commits, s.tasks[t].commit))
      else if s.tasks[t].Unguarded? then
        SetTask(s, t, BumpedLate).(generation := s.generation + 1, commits := Mark(s.commits, s.tasks[t].commit))
      else s
    case ClearSnapshot(t) =>
      if t in s.tasks && (s.tasks[t].Bumped? || s.tasks[t].BumpedLate?)
      then SetTask(s, t, Done).(snapshot := None, sources := []) else s
    case Collect(t, gathering) =>
      if t in s.tasks && s.tasks[t].Captured? then
        SetTask(s, t, Collected(s.tasks[t].generation, s.tasks[t].seen,
                                RefreshOf(s.tasks[t].scope, s.tasks[t].enabled, gathering)))
      else s
    case CheckGeneration(t) =>
      if t !in s.tasks || !s.tasks[t].Publishing? then s
      else if s.tasks[t].generation != s.generation then SetTask(s, t, Done)
      else SetTask(s, t, Publishable(s.tasks[t].generation, s.tasks[t].seen, s.tasks[t].refresh))
    case Publish(t) => if t in s.tasks && s.tasks[t].Publishable? then DoPublish(s, t) else s
    case Abandon(t) =>
      // A mutation is only abandoned where it holds nothing to complete: before its commit, or after its bump.
      if t in s.tasks && !s.tasks[t].Committed? && !s.tasks[t].Unguarded? then SetTask(s, t, Done) else s
    case Serve =>
      if GuardFree(s.tasks) && s.snapshot.Some? && s.snapshot.value.generation == s.generation then
        s.(served := s.served + [Response(s.generation, s.snapshot.value.report, s.sources, s.commits)])
      else s
  }

  function Run(steps: seq<Step>): State {
    if steps == [] then INITIAL else Apply(Run(steps[..|steps| - 1]), steps[|steps| - 1])
  }

  // ------------------------------------------------------------------ invariant

  /** Every commit from `seen` on still awaits its bump. */
  predicate Pending(commits: seq<Commit>, seen: nat) {
    forall k :: seen <= k < |commits| ==> !commits[k].bumped
  }

  /** A task that captured the current generation has missed only commits that await their bump. */
  ghost predicate CapturesValid(generation: nat, commits: seq<Commit>, tasks: map<TaskId, Task>) {
    forall t :: t in tasks && tasks[t].Refreshing() ==>
      && tasks[t].seen <= |commits| && tasks[t].generation <= generation
      && (tasks[t].generation == generation ==> Pending(commits, tasks[t].seen))
      && (!tasks[t].Captured? ==> InScope(tasks[t].refresh.report, tasks[t].refresh.requests))
  }

  ghost predicate SourcesValid(generation: nat, commits: seq<Commit>, snapshot: Option<Snapshot>,
      sources: seq<Source>) {
    snapshot.Some? ==>
      && snapshot.value.generation <= generation
      && (forall i :: 0 <= i < |sources| ==> sources[i].seen <= |commits|)
      && (snapshot.value.generation == generation ==>
            forall i :: 0 <= i < |sources| ==> Pending(commits, sources[i].seen))
  }

  function Refreshes(sources: seq<Source>): (r: seq<Refresh>)
    ensures |r| == |sources|
  {
    seq(|sources|, i requires 0 <= i < |sources| => sources[i].refresh)
  }

  /** The snapshot is the merge of its sources, all in one generation and each about its requests. */
  ghost predicate SnapshotMerged(snapshot: Option<Snapshot>, sources: seq<Source>) {
    && (forall i :: 0 <= i < |sources| ==> InScope(sources[i].refresh.report, sources[i].refresh.requests))
    && (snapshot.Some? ==> snapshot == Merged(snapshot.value.generation, Refreshes(sources)))
  }

  /** One holder of the guard; a confirmed commit that awaits its bump holds it. */
  ghost predicate GuardHeld(commits: seq<Commit>, tasks: map<TaskId, Task>) {
    && (forall t, u :: t in tasks && u in tasks && tasks[t].Guards() && tasks[u].Guards() ==> t == u)
    && (forall k :: 0 <= k < |commits| && commits[k].outcome == Saved && !commits[k].bumped ==>
          exists t :: t in tasks && tasks[t] == Committed(k))
    && (forall k :: 0 <= k < |commits| ==> commits[k].outcome != Refused)
    && (forall t :: t in tasks && tasks[t].Committed? ==>
          tasks[t].commit < |commits| && commits[tasks[t].commit].outcome == Saved)
    && (forall t :: t in tasks && tasks[t].Unguarded? ==>
          tasks[t].commit < |commits| && commits[tasks[t].commit].outcome == Uncertain)
  }

  /** A refresh about to publish is no older than the snapshot it finds. */
  ghost predicate PublishOrdered(snapshot: Option<Snapshot>, tasks: map<TaskId, Task>) {
    forall t :: t in tasks && tasks[t].Publishable? && snapshot.Some? ==>
      snapshot.value.generation <= tasks[t].generation
  }

  /** What a response leaves out: only uncertain commits whose bump was still to come. */
  predicate Current(response: Response) {
    && (forall i :: 0 <= i < |response.sources| ==>
          && response.sources[i].seen <= |response.commits|
          && forall k :: response.sources[i].seen <= k < |response.commits| ==>
               response.commits[k] == Commit(Uncertain, false))
    && (forall i :: 0 <= i < |response.sources| ==>
          InScope(response.sources[i].refresh.report, response.sources[i].refresh.requests))
    && Merged(response.generation, Refreshes(response.sources)) == Some(Snapshot(response.generation, response.report))
  }

  ghost predicate AllCurrent(served: seq<Response>) {
    forall i :: 0 <= i < |served| ==> Current(served[i])
  }

  ghost predicate Inv(s: State) {
    && CapturesValid(s.generation, s.commits, s.tasks)
    && SourcesValid(s.generation, s.commits, s.snapshot, s.sources)
    && SnapshotMerged(s.snapshot, s.sources)
    && GuardHeld(s.commits, s.tasks)
    && PublishOrdered(s.snapshot, s.tasks)
    && AllCurrent(s.served)
  }

  // ------------------------------------------------------------------ what a step keeps

  /** A step that neither commits nor bumps keeps what the tasks and the snapshot know. */
  lemma TaskMoves(s: State, t: TaskId, task: Task)
    requires Inv(s)
    requires task.Guards() ==> GuardFree(s.tasks) || (t in s.tasks && s.tasks[t].Guards())
    requires !task.Committed? && !task.Unguarded?
    requires t in s.tasks ==> !s.tasks[t].Committed?
    requires task.Refreshing() ==>
      && task.seen <= |s.commits| && task.generation <= s.generation
      && (task.generation == s.generation ==> Pending(s.commits, task.seen))
      && (!task.Captured? ==> InScope(task.refresh.report, task.refresh.requests))
    requires task.Publishable? && s.snapshot.Some? ==> s.snapshot.value.generation <= task.generation
    ensures Inv(SetTask(s, t, task))
  {
    hide SourcesValid, SnapshotMerged, AllCurrent, Pending, InScope;
    var tasks' := s.tasks[t := task];
    forall k | 0 <= k < |s.commits| && s.commits[k].outcome == Saved && !s.commits[k].bumped
      ensures exists u :: u in tasks' && tasks'[u] == Committed(k)
    {
      var u :| u in s.tasks && s.tasks[u] == Committed(k);
      assert tasks'[u] == Committed(k);
    }
  }

  lemma CommitKeeps(s: State, t: TaskId, outcome: Outcome)
    requires Inv(s) && t in s.tasks && s.tasks[t].Guarded? && outcome != Refused
    ensures Inv(Apply(s, CommitMutation(t, outcome)))
  {
    hide SnapshotMerged, AllCurrent, InScope;
    var next := Apply(s, CommitMutation(t, outcome));
    var n := |s.commits|;
    assert forall u :: u in s.tasks && u != t ==> !s.tasks[u].Guards();
    forall k | 0 <= k < |next.commits| && next.commits[k].outcome == Saved && !next.commits[k].bumped
      ensures exists u :: u in next.tasks && next.tasks[u] == Committed(k)
    {
      if k == n {
        assert next.tasks[t] == Committed(k);
      }
    }
  }

  lemma BumpKeeps(s: State, t: TaskId)
    requires Inv(s) && t in s.tasks && (s.tasks[t].Committed? || s.tasks[t].Unguarded?)
    ensures Inv(Apply(s, Bump(t)))
  {
    hide SnapshotMerged, AllCurrent;
    var next := Apply(s, Bump(t));
    assert CapturesValid(next.generation, next.commits, next.tasks) by {
      hide GuardHeld, SourcesValid, Pending, InScope;
    }
    assert SourcesValid(next.generation, next.commits, next.snapshot, next.sources) by {
      hide GuardHeld, CapturesValid, Pending;
    }
    BumpGuards(s, t);
    hide CapturesValid, SourcesValid, GuardHeld;
  }

  lemma BumpGuards(s: State, t: TaskId)
    requires GuardHeld(s.commits, s.tasks) && t in s.tasks && (s.tasks[t].Committed? || s.tasks[t].Unguarded?)
    ensures GuardHeld(Apply(s, Bump(t)).commits, Apply(s, Bump(t)).tasks)
  {
    var next := Apply(s, Bump(t));
    forall k | 0 <= k < |next.commits| && next.commits[k].outcome == Saved && !next.commits[k].bumped
      ensures exists u :: u in next.tasks && next.tasks[u] == Committed(k)
    {
      var u :| u in s.tasks && s.tasks[u] == Committed(k);
      assert next.tasks[u] == Committed(k);
    }
  }

  lemma PublishKeeps(s: State, t: TaskId)
    requires Inv(s) && t in s.tasks && s.tasks[t].Publishable?
    ensures Inv(DoPublish(s, t))
  {
    TaskMoves(s, t, Done);
    var task := s.tasks[t];
    var next := DoPublish(s, t);
    PublishMerges(s, t);
    assert PublishOrdered(next.snapshot, next.tasks);
    hide SnapshotMerged, AllCurrent, GuardHeld, Pending, InScope, PublishOrdered;
  }

  lemma PublishMerges(s: State, t: TaskId)
    requires SnapshotMerged(s.snapshot, s.sources) && t in s.tasks && s.tasks[t].Publishable?
    requires InScope(s.tasks[t].refresh.report, s.tasks[t].refresh.requests)
    ensures SnapshotMerged(DoPublish(s, t).snapshot, DoPublish(s, t).sources)
  {
    hide InScope;
    var task := s.tasks[t];
    var r, source := task.refresh, Source(task.refresh, task.seen);
    var all := Refreshes(s.sources + [source]);
    assert all[..|s.sources|] == Refreshes(s.sources);
    var one := Refreshes([source]);
    assert one[..0] == [];
  }

  lemma ServeKeeps(s: State)
    requires Inv(s) && GuardFree(s.tasks) && s.snapshot.Some? && s.snapshot.value.generation == s.generation
    ensures Inv(Apply(s, Serve))
  {
  }

  /** The refresh's own steps up to publishing. */
  lemma RefreshKeeps(s: State, t: TaskId, step: Step)
    requires Inv(s) && t in s.tasks
    requires step == TakeGuard(t) || step == CheckGeneration(t) || (step.Collect? && step.t == t)
    ensures Inv(Apply(s, step))
  {
    assert CapturesValid(s.generation, s.commits, s.tasks);
    assert SourcesValid(s.generation, s.commits, s.snapshot, s.sources);
    hide Inv, InScope, Pending, DoPublish;
    var next := Apply(s, step);
    if step.Collect? {
      GatheredInScope(step.gathering);
    }
    hide Gathering.Report;
    if next != s {
      TaskMoves(s, t, next.tasks[t]);
    }
  }

  lemma StepKeeps(s: State, step: Step)
    requires Inv(s)
    ensures Inv(Apply(s, step))
  {
    hide Inv, DoPublish, Mark;
    match step
    case StartMutation(t) => if t !in s.tasks { TaskMoves(s, t, WantsGuard); }
    case StartRefresh(t, scope, enabled) =>
      if t !in s.tasks && RefreshFree(s.tasks) { TaskMoves(s, t, Captured(s.generation, |s.commits|, scope, enabled)); }
    case TakeGuard(t) => if t in s.tasks { RefreshKeeps(s, t, step); }
    case CommitMutation(t, outcome) =>
      if t in s.tasks && s.tasks[t].Guarded? {
        if outcome == Refused { TaskMoves(s, t, Done); } else { CommitKeeps(s, t, outcome); }
      }
    case Bump(t) => if t in s.tasks && (s.tasks[t].Committed? || s.tasks[t].Unguarded?) { BumpKeeps(s, t); }
    case ClearSnapshot(t) =>
      if t in s.tasks && (s.tasks[t].Bumped? || s.tasks[t].BumpedLate?) {
        TaskMoves(s, t, Done);
        ClearKeeps(SetTask(s, t, Done));
      }
    case Collect(t, _) => if t in s.tasks { RefreshKeeps(s, t, step); }
    case CheckGeneration(t) => if t in s.tasks { RefreshKeeps(s, t, step); }
    case Publish(t) => if t in s.tasks && s.tasks[t].Publishable? { PublishKeeps(s, t); }
    case Abandon(t) => if t in s.tasks && !s.tasks[t].Committed? && !s.tasks[t].Unguarded? { TaskMoves(s, t, Done); }
    case Serve =>
      if GuardFree(s.tasks) && s.snapshot.Some? && s.snapshot.value.generation == s.generation { ServeKeeps(s); }
  }

  lemma ClearKeeps(s: State)
    requires Inv(s)
    ensures Inv(s.(snapshot := None, sources := []))
  {
  }

  lemma {:induction false} RunInv(steps: seq<Step>)
    ensures Inv(Run(steps))
  {
    if steps != [] {
      RunInv(steps[..|steps| - 1]);
      StepKeeps(Run(steps[..|steps| - 1]), steps[|steps| - 1]);
    }
  }

  // ------------------------------------------------------------------ theorems

  /**
    If a report is served, then of the commits made since the generation capture of any refresh merged
    into it, every one is uncertain and still awaits its bump.  In particular no confirmed settings
    patch, account mutation or sign-in committed in between.
   */
  lemma ServedIsCurrent(steps: seq<Step>, i: nat)
    requires i < |Run(steps).served|
    ensures Current(Run(steps).served[i])
  {
    hide Run, CapturesValid, SourcesValid, SnapshotMerged, GuardHeld, Current;
    RunInv(steps);
  }

  /** Exactly when a served report is up to date with every commit: no uncertain one awaits its bump. */
  lemma UpToDateIff(steps: seq<Step>, i: nat, source: nat)
    requires i < |Run(steps).served| && source < |Run(steps).served[i].sources|
    ensures var response := Run(steps).served[i];
      response.sources[source].seen == |response.commits| <==>
      !exists k :: response.sources[source].seen <= k < |response.commits|
                   && response.commits[k].outcome == Uncertain && !response.commits[k].bumped
  {
    hide Run, Merged, InScope;
    ServedIsCurrent(steps, i);
    var response := Run(steps).served[i];
    var seen := response.sources[source].seen;
    if seen < |response.commits| {
      assert response.commits[seen] == Commit(Uncertain, false);
    }
  }

  /** Each refresh behind the response that was merged into a snapshot made requests its scope covers. */
  predicate KeptToScope(response: Response) {
    forall i :: 0 <= i < |response.sources| ==>
      var refresh := response.sources[i].refresh;
      refresh.scope.Full(refresh.enabled) || AllMatch(refresh.requests, refresh.scope)
  }

  lemma KeptMeansWithin(response: Response)
    requires Current(response) && KeptToScope(response)
    ensures AllWithin(response.generation, Refreshes(response.sources))
  {
    hide Merged, InScope, AllMatch, Within;
    var refreshes := Refreshes(response.sources);
    forall j | MergedInto(response.generation, refreshes, j)
      ensures Within(refreshes[j].report, refreshes[j].scope)
    {
      InScopeWithin(refreshes[j].report, refreshes[j].requests, refreshes[j].scope);
    }
  }

  /** Each account's part of a served report is what the latest refresh covering it collected. */
  lemma ServedCells(steps: seq<Step>, i: nat, cell: Cell) returns (latest: int)
    requires i < |Run(steps).served| && KeptToScope(Run(steps).served[i])
    ensures var response := Run(steps).served[i];
      && Latest(Refreshes(response.sources), cell, latest)
      && PartOf(response.report, cell) == PartOf(response.sources[latest].refresh.report, cell)
  {
    hide Run, Merged, InScope, Latest, PartOf, AllWithin, KeptToScope;
    ServedIsCurrent(steps, i);
    var response := Run(steps).served[i];
    KeptMeansWithin(response);
    latest := LatestReportWins(response.generation, Refreshes(response.sources), cell);
    ServedLatest(response, cell, latest);
  }

  /** The refresh makes the requests that listing the adapters for its scope gives. */
  ghost predicate AsListed(refresh: Refresh) {
    exists host, saved, vault ::
      Listing.RefreshRequests(host, refresh.scope, saved, vault) == Some(refresh.requests)
  }

  predicate AsksForDemo(response: Response) {
    exists k :: 0 <= k < |response.sources| && Listing.MockLocal(response.sources[k].refresh.scope)
  }

  lemma {:induction false} ListedMeansKept(response: Response)
    requires forall k :: 0 <= k < |response.sources| ==> AsListed(response.sources[k].refresh)
    requires !AsksForDemo(response)
    ensures KeptToScope(response)
  {
    hide AllMatch, Listing.RefreshRequests, Listing.MockLocal, Scope.Full;
    forall k | 0 <= k < |response.sources|
      ensures AllMatch(response.sources[k].refresh.requests, response.sources[k].refresh.scope)
    {
      var refresh := response.sources[k].refresh;
      var host, saved, vault :|
        Listing.RefreshRequests(host, refresh.scope, saved, vault) == Some(refresh.requests);
      Listing.ListedMatchesIff(host, refresh.scope, saved, vault);
    }
  }

  /**
    So with the requests that listing gives, each account's part of a served report is what the latest
    refresh covering it collected, unless one behind it was for the demo provider's local account.
   */
  lemma {:induction false} ServedListed(steps: seq<Step>, i: nat, cell: Cell) returns (latest: int)
    requires i < |Run(steps).served| && !AsksForDemo(Run(steps).served[i])
    requires forall k :: 0 <= k < |Run(steps).served[i].sources| ==>
      AsListed(Run(steps).served[i].sources[k].refresh)
    ensures var response := Run(steps).served[i];
      && Latest(Refreshes(response.sources), cell, latest)
      && PartOf(response.report, cell) == PartOf(response.sources[latest].refresh.report, cell)
  {
    hide Run, AsListed, AsksForDemo, KeptToScope, Latest, PartOf;
    ListedMeansKept(Run(steps).served[i]);
    latest := ServedCells(steps, i, cell);
  }

  /**
    For every served report: its cells were what the latest covering refresh collected, after each of
    the refreshes behind it, exactly when every merged report stayed within its scope.
   */
  lemma ServedRefinedIff(steps: seq<Step>, i: nat)
    requires i < |Run(steps).served|
    ensures var response := Run(steps).served[i];
      (forall n :: 0 <= n <= |response.sources| ==> Refined(response.generation, Refreshes(response.sources)[..n]))
      <==> AllWithin(response.generation, Refreshes(response.sources))
  {
    hide Run, Refined, AllWithin, Merged;
    var response := Run(steps).served[i];
    RefinementIff(response.generation, Refreshes(response.sources));
  }

  lemma ServedLatest(response: Response, cell: Cell, latest: int)
    requires Latest(Refreshes(response.sources), cell, latest)
    ensures 0 <= latest < |response.sources|
    ensures Refreshes(response.sources)[latest] == response.sources[latest].refresh
  {
  }

  /** Publishing never puts an older generation's snapshot in the place of a newer one. */
  lemma SnapshotNeverGoesBack(steps: seq<Step>, step: Step)
    requires Run(steps).snapshot.Some? && Apply(Run(steps), step).snapshot.Some?
    ensures Run(steps).snapshot.value.generation <= Apply(Run(steps), step).snapshot.value.generation
  {
    hide Run, CapturesValid, SourcesValid, SnapshotMerged, GuardHeld, AllCurrent, InScope;
    RunInv(steps);
  }

  lemma RunThen(steps: seq<Step>, step: Step)
    ensures Run(steps + [step]) == Apply(Run(steps), step)
  {
  }

  /** The example: the demo provider is refreshed, a commit turns out uncertain, a report is served. */
  const DEMO: Usage :=
    Usage("mock", None, AccountIdentity("demo", "Demo", None), [QuotaWindow("weekly", true, 0)], None, [])
  const DEMO_SCOPE: Scope := Scope(["mock"], None)
  const DEMO_REPORT: Report := Report(0, [DEMO], [])
  const DEMO_CACHE: UsageCache.Config :=
    UsageCache.Config(60, (u: Usage) => false, (w: QuotaWindow) => true, (text: string) => [])
  const DEMO_GATHERING: Gathering :=
    Gathering(DEMO_CACHE, (provider: string) => false, MOCK_REQUESTS,
              (i: nat) => Answer(None, false, Success(DEMO), false, 0), 0)
  const DEMO_REFRESH: Refresh := Refresh(DEMO_SCOPE, ["mock"], MOCK_REQUESTS, DEMO_REPORT)

  lemma DemoReport()
    ensures DEMO_GATHERING.Report() == DEMO_REPORT
  {
    DemoGathered(DEMO_CACHE, (provider: string) => false, 0, DEMO);
  }

  function Example(): seq<Step> {
    [StartRefresh(0, DEMO_SCOPE, ["mock"]), Collect(0, DEMO_GATHERING), TakeGuard(0), CheckGeneration(0), Publish(0),
     StartMutation(1), TakeGuard(1), CommitMutation(1, Uncertain), Serve]
  }

  /** Where the first `n` steps lead. */
  function ExampleState(n: nat): State {
    var published := Some(Snapshot(0, DEMO_REPORT));
    var sources := [Source(DEMO_REFRESH, 0)];
    match n
    case 0 => INITIAL
    case 1 => State(0, None, [], map[0 := Captured(0, 0, DEMO_SCOPE, ["mock"])], [], [])
    case 2 => State(0, None, [], map[0 := Collected(0, 0, DEMO_REFRESH)], [], [])
    case 3 => State(0, None, [], map[0 := Publishing(0, 0, DEMO_REFRESH)], [], [])
    case 4 => State(0, None, [], map[0 := Publishable(0, 0, DEMO_REFRESH)], [], [])
    case 5 => State(0, published, sources, map[0 := Done], [], [])
    case 6 => State(0, published, sources, map[0 := Done, 1 := WantsGuard], [], [])
    case 7 => State(0, published, sources, map[0 := Done, 1 := Guarded], [], [])
    case 8 => State(0, published, sources, map[0 := Done, 1 := Unguarded(0)], [Commit(Uncertain, false)], [])
    case _ => State(0, published, sources, map[0 := Done, 1 := Unguarded(0)], [Commit(Uncertain, false)],
                    [Response(0, DEMO_REPORT, sources, [Commit(Uncertain, false)])])
  }

  lemma ExampleRefreshes(n: nat)
    requires n < 5
    ensures Apply(ExampleState(n), Example()[n]) == ExampleState(n + 1)
  {
    DemoReport();
    hide Gathering.Report;
  }

  lemma ExampleMutates(n: nat)
    requires 5 <= n < 9
    ensures Apply(ExampleState(n), Example()[n]) == ExampleState(n + 1)
  {
    hide Gathering.Report, Merge;
  }

  lemma {:induction false} ExampleRuns(n: nat)
    requires n <= 9
    ensures Run(Example()[..n]) == ExampleState(n)
  {
    if n > 0 {
      hide Apply, ExampleState;
      ExampleRuns(n - 1);
      assert Example()[..n] == Example()[..n - 1] + [Example()[n - 1]];
      RunThen(Example()[..n - 1], Example()[n - 1]);
      if n <= 5 { ExampleRefreshes(n - 1); } else { ExampleMutates(n - 1); }
    }
  }

  /** An uncertain commit can be missing from a response: one served between the guard's release and the bump. */
  lemma UncertainCommitMissed()
    ensures var response := Response(0, DEMO_REPORT, [Source(DEMO_REFRESH, 0)], [Commit(Uncertain, false)]);
      Run(Example()).served == [response] && response.sources[0].seen < |response.commits|
  {
    ExampleRuns(9);
    assert Example()[..9] == Example();
  }
}
