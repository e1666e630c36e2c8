/**
  What undisturbed refreshes and mutations of the server come to (src/server.rs): a refresh is published
  and served, and a mutation makes the snapshot before it unservable.
 */
module SnapshotRuns {
  import opened Results
  import opened Reports
  import opened Collection
  import opened RefreshScope
  import opened SnapshotMerge
  import opened SnapshotServer

  /** The task got this far, and nothing else changed. */
  function At(s: State, t: TaskId, task: Task): State {
    s.(tasks := s.tasks[t := task])
  }

  function Snapshots(s: State, t: TaskId, snapshot: Option<Snapshot>, sources: seq<Source>): State {
    At(s, t, Done).(snapshot := snapshot, sources := sources)
  }

  /** The refresh has its report and the guard, in the generation it started in. */
  lemma Publishes(s: State, t: TaskId, scope: Scope, enabled: seq<string>, gathering: Gathering)
    requires t !in s.tasks && RefreshFree(s.tasks) && GuardFree(s.tasks)
    ensures var refresh := Refresh(scope, enabled, gathering.requests, gathering.Report());
      var s1 := Apply(Apply(s, StartRefresh(t, scope, enabled)), Collect(t, gathering));
      Apply(Apply(s1, TakeGuard(t)), CheckGeneration(t))
      == At(s, t, Publishable(s.generation, |s.commits|, refresh))
  {
    hide Gathering.Report;
    var refresh := Refresh(scope, enabled, gathering.requests, gathering.Report());
    var s1 := Apply(s, StartRefresh(t, scope, enabled));
    assert s1 == At(s, t, Captured(s.generation, |s.commits|, scope, enabled));
    var s2 := Apply(s1, Collect(t, gathering));
    assert s2 == At(s, t, Task.Collected(s.generation, |s.commits|, refresh));
    assert GuardFree(s2.tasks);
    var s3 := Apply(s2, TakeGuard(t));
    assert s3 == At(s, t, Publishing(s.generation, |s.commits|, refresh));
  }

  lemma PublishIs(s: State, t: TaskId, refresh: Refresh)
    ensures var (snapshot, merged) :=
        Merge(s.snapshot, s.generation, refresh.scope, refresh.enabled, refresh.report);
      var source := Source(refresh, |s.commits|);
      Apply(At(s, t, Publishable(s.generation, |s.commits|, refresh)), Publish(t))
      == Snapshots(s, t, snapshot,
                   if !merged then s.sources
                   else if refresh.scope.Full(refresh.enabled) then [source] else s.sources + [source])
  {
    hide Merge, Scope.Full;
  }

  /** A response is served exactly from a snapshot of the current generation, while nobody has the guard. */
  lemma ServeIs(s: State)
    ensures Apply(s, Serve) ==
      if s.snapshot.Some? && s.snapshot.value.generation == s.generation
         && forall t :: t in s.tasks ==> !s.tasks[t].Guards()
      then s.(served := s.served + [Response(s.generation, s.snapshot.value.report, s.sources, s.commits)])
      else s
  {
  }

  lemma DoneIsFree(s: State, t: TaskId)
    requires GuardFree(s.tasks)
    ensures GuardFree(At(s, t, Done).tasks)
  {
  }

  /**
    An undisturbed refresh of everything that is enabled becomes the snapshot, and the next response
    serves exactly its report.
   */
  lemma {:induction false} FullRefreshServed(
    s: State, t: TaskId, scope: Scope, enabled: seq<string>, gathering: Gathering)
    requires t !in s.tasks && RefreshFree(s.tasks) && GuardFree(s.tasks)
    requires scope.account.None? && |scope.selected| == |enabled|
    requires forall i :: 0 <= i < |scope.selected| ==> scope.selected[i] in enabled
    ensures var source := Source(Refresh(scope, enabled, gathering.requests, gathering.Report()), |s.commits|);
      var s1 := Apply(Apply(s, StartRefresh(t, scope, enabled)), Collect(t, gathering));
      var s2 := Apply(Apply(Apply(s1, TakeGuard(t)), CheckGeneration(t)), Publish(t));
      && s2 == Snapshots(s, t, Some(Snapshot(s.generation, gathering.Report())), [source])
      && Apply(s2, Serve) == s2.(
           served := s.served + [Response(s.generation, gathering.Report(), [source], s.commits)])
  {
    Publishes(s, t, scope, enabled, gathering);
    MergedExactly(s.snapshot, s.generation, scope, enabled, gathering.Report());
    hide Gathering.Report, Merge, Apply;
    var refresh := Refresh(scope, enabled, gathering.requests, gathering.Report());
    var next := Snapshots(s, t, Some(Snapshot(s.generation, refresh.report)), [Source(refresh, |s.commits|)]);
    PublishIs(s, t, refresh);
    DoneIsFree(s, t);
    ServeIs(next);
  }

  /**
    An undisturbed refresh of part of it, over a snapshot of the same generation, replaces what its scope
    matches and keeps the rest; the next response serves the result.  Over an older snapshot, or none, it
    leaves the snapshot alone.
   */
  lemma {:induction false} PartialRefreshServed(s: State, t: TaskId, scope: Scope, enabled: seq<string>,
                                                gathering: Gathering)
    requires t !in s.tasks && RefreshFree(s.tasks) && GuardFree(s.tasks)
    requires scope.account.Some? || |scope.selected| != |enabled|
    requires forall i :: 0 <= i < |scope.selected| ==> scope.selected[i] in enabled
    ensures var report := gathering.Report();
      var source := Source(Refresh(scope, enabled, gathering.requests, report), |s.commits|);
      var s1 := Apply(Apply(s, StartRefresh(t, scope, enabled)), Collect(t, gathering));
      var s2 := Apply(Apply(Apply(s1, TakeGuard(t)), CheckGeneration(t)), Publish(t));
      if s.snapshot.Some? && s.snapshot.value.generation == s.generation then
        var kept := s.snapshot.value.report;
        var merged := Report(
          report.generatedAt,
          Filter((u: Usage) => !(u.provider in scope.selected
                                 && (scope.account.None? || IdOf(u.accountRef) == scope.account)),
                 kept.providers) + report.providers,
          Filter((f: ReportFailure) => !(f.provider in scope.selected
                                         && (scope.account.None? || IdOf(f.accountRef) == scope.account)),
                 kept.failures) + report.failures);
        && s2 == Snapshots(s, t, Some(Snapshot(s.generation, merged)), s.sources + [source])
        && Apply(s2, Serve) == s2.(
             served := s.served + [Response(s.generation, merged, s.sources + [source], s.commits)])
      else s2 == At(s, t, Done) && Apply(s2, Serve) == s2
  {
    Publishes(s, t, scope, enabled, gathering);
    MergedExactly(s.snapshot, s.generation, scope, enabled, gathering.Report());
    hide Gathering.Report, Merge, Apply;
    var refresh := Refresh(scope, enabled, gathering.requests, gathering.Report());
    PublishIs(s, t, refresh);
    DoneIsFree(s, t);
    var merged := Merge(s.snapshot, s.generation, scope, enabled, refresh.report);
    ServeIs(Snapshots(s, t, merged.0, if merged.1 then s.sources + [Source(refresh, |s.commits|)] else s.sources));
  }

  /** A refresh that collected before the generation changed publishes nothing. */
  lemma LateRefreshDropped(s: State, t: TaskId)
    requires t in s.tasks && s.tasks[t].Publishing? && s.tasks[t].generation != s.generation
    ensures Apply(s, CheckGeneration(t)) == At(s, t, Done)
    ensures Apply(Apply(s, CheckGeneration(t)), Publish(t)) == At(s, t, Done)
  {
  }

  /**
    An undisturbed mutation, confirmed or uncertain, ends in a new generation with no snapshot, so that
    nothing is served until a refresh has been published; a refused one changes nothing.
   */
  lemma MutationClears(s: State, t: TaskId, outcome: SnapshotServer.Outcome)
    requires t !in s.tasks && GuardFree(s.tasks)
    ensures var s1 := Apply(Apply(Apply(s, StartMutation(t)), TakeGuard(t)), CommitMutation(t, outcome));
      if outcome == Refused then s1 == At(s, t, Done)
      else
        var s2 := Apply(Apply(s1, Bump(t)), ClearSnapshot(t));
        && s2 == Snapshots(s, t, None, []).(
             generation := s.generation + 1, commits := s.commits + [Commit(outcome, true)])
        && Apply(s2, Serve) == s2
  {
    StartsMutation(s, t);
    MutationCommits(s, t, outcome);
    if outcome != Refused {
      MutationBumps(s, t, outcome);
      hide Apply;
      DoneIsFree(s, t);
      ServeIs(Snapshots(s, t, None, []).(
        generation := s.generation + 1, commits := s.commits + [Commit(outcome, true)]));
    }
  }

  lemma StartsMutation(s: State, t: TaskId)
    requires t !in s.tasks && GuardFree(s.tasks)
    ensures Apply(Apply(s, StartMutation(t)), TakeGuard(t)) == At(s, t, Guarded)
  {
    var s1 := Apply(s, StartMutation(t));
    assert s1 == At(s, t, WantsGuard) && GuardFree(s1.tasks);
  }

  lemma MutationCommits(s: State, t: TaskId, outcome: SnapshotServer.Outcome)
    ensures Apply(At(s, t, Guarded), CommitMutation(t, outcome)) ==
      if outcome == Refused then At(s, t, Done)
      else At(s, t, if outcome == Saved then Committed(|s.commits|) else Unguarded(|s.commits|)).(
             commits := s.commits + [Commit(outcome, false)])
  {
  }

  lemma MutationBumps(s: State, t: TaskId, outcome: SnapshotServer.Outcome)
    requires outcome != Refused
    ensures var committed := At(s, t, if outcome == Saved then Committed(|s.commits|) else Unguarded(|s.commits|)).(
        commits := s.commits + [Commit(outcome, false)]);
      Apply(Apply(committed, Bump(t)), ClearSnapshot(t)) == Snapshots(s, t, None, []).(
        generation := s.generation + 1, commits := s.commits + [Commit(outcome, true)])
  {
    var k := |s.commits|;
    var committed := At(s, t, if outcome == Saved then Committed(k) else Unguarded(k)).(
      commits := s.commits + [Commit(outcome, false)]);
    assert Mark(committed.commits, k) == s.commits + [Commit(outcome, true)];
    var s1 := Apply(committed, Bump(t));
    assert s1 == At(s, t, if outcome == Saved then Bumped else BumpedLate).(
      generation := s.generation + 1, commits := s.commits + [Commit(outcome, true)]);
  }
}
