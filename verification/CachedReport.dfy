/**
  What the cached layer reports (src/cache.rs): which parts come from disk, whose diagnostics are noted,
  and when joining the parts adds a failure that none of them has.
 */
module CachedReports {
  import opened Results
  import opened Reports
  import opened Collection
  import opened RefreshScope
  import Cache = UsageCache

  /** The run returns what it read back, as fresh. */
  predicate ServesFresh(c: Cache.Config, request: Request, a: Answer) {
    a.recent && Usable(c, request, a).Some?
  }

  /** The run falls back on what it read back, because its fetch failed. */
  predicate ServesStale(c: Cache.Config, request: Request, a: Answer) {
    && !ServesFresh(c, request, a) && a.confirmed && Usable(c, request, a).Some?
    && Checked(request, a.outcome).Failure?
  }

  predicate FromDisk(c: Cache.Config, request: Request, a: Answer) {
    ServesFresh(c, request, a) || ServesStale(c, request, a)
  }

  /** The usage a run returns from disk. */
  function DiskUsage(c: Cache.Config, request: Request, a: Answer): Usage
    requires Usable(c, request, a).Some?
  {
    Cache.Restored(Usable(c, request, a).value, Cache.Adapter(request.provider, request.accountRef),
                   !ServesFresh(c, request, a))
  }

  function FailureOf(request: Request, code: ErrorCode): ReportFailure {
    ReportFailure(request.provider, request.accountRef, code)
  }

  /** One run's report, case by case. */
  function RunReport(c: Cache.Config, request: Request, a: Answer): Report {
    if ServesFresh(c, request, a) then Report(a.at, [DiskUsage(c, request, a)], [])
    else
      match Checked(request, a.outcome)
      case Success(usage) => Report(a.at, [usage], Included([], [usage]))
      case Failure(code) =>
        Report(a.at, if ServesStale(c, request, a) then [DiskUsage(c, request, a)] else [], [FailureOf(request, code)])
  }

  lemma OneReportIs(c: Cache.Config, keyed: string -> bool, request: Request, a: Answer)
    ensures OneReport(c, keyed, request, a) == RunReport(c, request, a)
  {
    hide Cache.Restored, Cache.Acceptable, Reconciled;
    var checked := Checked(request, a.outcome);
    assert [request][1..] == [] && [a.outcome][1..] == [];
    hide Checked;
    assert Usages([request], [a.outcome]) == if checked.Success? then [checked.value] else [];
    assert Failures([request], [a.outcome]) == if checked.Success? then [] else [FailureOf(request, checked.error)];
    if checked.Success? {
      AloneIsKept(keyed, checked.value);
    } else {
      NoneKept(keyed);
    }
  }

  lemma NoneKept(keyed: string -> bool)
    ensures Reconciled(keyed, []) == []
  {
  }

  /** A run that does not return from disk has noted the diagnostics of what it returns. */
  lemma FetchedIsNoted(c: Cache.Config, request: Request, a: Answer)
    requires !FromDisk(c, request, a)
    ensures var part := RunReport(c, request, a); AllCovered(part.failures, part.providers)
  {
    hide AllCovered, Checked;
    if Checked(request, a.outcome).Success? {
      IncludedCoversAll([], [Checked(request, a.outcome).value]);
    } else {
      NothingToCover(RunReport(c, request, a).failures);
    }
  }

  lemma NothingToCover(failures: seq<ReportFailure>)
    ensures AllCovered(failures, [])
  {
  }

  // ------------------------------------------------------------------ every diagnostic is noted

  /**
    Wherever its usages come from, a cached report has every diagnostic among its failures; all the
    parts' failures are there in order, and nothing is added twice.
   */
  lemma GatheredCovered(g: Gathering)
    ensures Grows(AllFailures(g.Parts()), g.Report().failures) && AllCovered(g.Report().failures, g.Report().providers)
  {
    hide Grows, AllCovered, Reconciled;
    IncludedCoversAll(AllFailures(g.Parts()), g.Report().providers);
  }

  /** Every request's run is in the report: its failures, and its usage or a managed entry for the same account. */
  lemma GatheredAnswers(g: Gathering, i: nat)
    requires i < |g.requests|
    ensures var part := RunReport(g.config, g.requests[i], g.answers(i));
      && (part.providers != [] || part.failures != [])
      && (forall u :: u in part.providers ==> Accounted(g.Report().providers, DropExpired(u, g.now)))
      && (forall f :: f in part.failures ==> f in g.Report().failures)
  {
    hide Accounted, DropExpired, Checked;
    OneReportIs(g.config, g.keyed, g.requests[i], g.answers(i));
    assert g.Parts()[i] == RunReport(g.config, g.requests[i], g.answers(i));
    hide OneReport;
    CachedAnswers(g.keyed, g.now, g.Parts(), i);
  }

  // ------------------------------------------------------------------ when joining adds a failure

  /** Run `i` returned its usage from disk, and it is still there after reconciling. */
  predicate Survives(g: Gathering, i: nat)
    requires i < |g.requests|
  {
    && FromDisk(g.config, g.requests[i], g.answers(i))
    && DropExpired(DiskUsage(g.config, g.requests[i], g.answers(i)), g.now) in g.Report().providers
  }

  predicate CoveredByParts(g: Gathering, i: nat)
    requires i < |g.requests| && FromDisk(g.config, g.requests[i], g.answers(i))
  {
    UsageCovered(AllFailures(g.Parts()), DiskUsage(g.config, g.requests[i], g.answers(i)))
  }

  lemma SameUsageCovered(failures: seq<ReportFailure>, a: Usage, b: Usage)
    requires SameDiagnostics(a, b)
    ensures UsageCovered(failures, a) <==> UsageCovered(failures, b)
  {
  }

  lemma PartIs(g: Gathering, i: nat)
    requires i < |g.requests|
    ensures g.Parts()[i] == RunReport(g.config, g.requests[i], g.answers(i))
  {
    OneReportIs(g.config, g.keyed, g.requests[i], g.answers(i));
  }

  /** A surviving usage is a fetched one, or a surviving one from disk. */
  lemma {:induction false} SurvivorOrNoted(g: Gathering, usage: Usage)
    requires usage in g.Report().providers
    requires forall i: nat :: i < |g.requests| && Survives(g, i) ==> CoveredByParts(g, i)
    ensures FromNoted(g.Parts(), usage) || UsageCovered(AllFailures(g.Parts()), usage)
  {
    hide UsageCovered, AllCovered, Reconciled;
    var parts := g.Parts();
    var i := SourceOf(g, usage);
    var request, a := g.requests[i], g.answers(i);
    PartIs(g, i);
    if FromDisk(g.config, request, a) {
      assert Survives(g, i);
      SameUsageCovered(AllFailures(parts), DiskUsage(g.config, request, a), usage);
    } else {
      FetchedIsNoted(g.config, request, a);
      assert Represented(parts[i].providers, usage);
    }
  }

  /** The run a surviving usage came from. */
  lemma SourceOf(g: Gathering, usage: Usage) returns (i: nat)
    requires usage in g.Report().providers
    ensures i < |g.requests|
    ensures exists u :: u in g.Parts()[i].providers && DropExpired(u, g.now) == usage
  {
    var parts := g.Parts();
    var all := AllProviders(parts);
    var current := DropAllExpired(all, g.now);
    Filtered((u: Usage) => !Redundant(g.keyed, current, u), current, usage);
    var k :| 0 <= k < |current| && current[k] == usage;
    i := PartOfUsage(parts, k);
    assert all[k] in parts[i].providers;
  }

  lemma {:induction false} PartOfUsage(reports: seq<Report>, k: nat) returns (i: nat)
    requires k < |AllProviders(reports)|
    ensures i < |reports| && AllProviders(reports)[k] in reports[i].providers
  {
    var first := reports[0].providers;
    if k < |first| {
      i := 0;
    } else {
      var rest := PartOfUsage(reports[1..], k - |first|);
      i := rest + 1;
    }
  }

  /**
    Joining the parts adds no failure exactly when every surviving usage from disk has its diagnostics
    covered by the parts' failures.
   */
  lemma GatheredAddsNothingIff(g: Gathering)
    ensures g.Report().failures == AllFailures(g.Parts()) <==>
            forall i: nat :: i < |g.requests| && Survives(g, i) ==> CoveredByParts(g, i)
  {
    hide UsageCovered, FromNoted, Reconciled, FromDisk, DropExpired;
    var parts, report := g.Parts(), g.Report();
    CachedAddsNothing(g.keyed, g.now, parts);
    if report.failures == AllFailures(parts) {
      forall i: nat | i < |g.requests| && Survives(g, i) ensures CoveredByParts(g, i) {
        SurvivorCovered(g, i);
      }
    }
    if forall i: nat :: i < |g.requests| && Survives(g, i) ==> CoveredByParts(g, i) {
      forall k | 0 <= k < |report.providers|
        ensures FromNoted(parts, report.providers[k]) || UsageCovered(AllFailures(parts), report.providers[k])
      {
        SurvivorOrNoted(g, report.providers[k]);
      }
    }
  }

  lemma SurvivorCovered(g: Gathering, i: nat)
    requires i < |g.requests| && Survives(g, i) && g.Report().failures == AllFailures(g.Parts())
    ensures CoveredByParts(g, i)
  {
    hide UsageCovered, Reconciled;
    var usage := DiskUsage(g.config, g.requests[i], g.answers(i));
    var kept := g.Report().providers;
    IncludedIdleIff(AllFailures(g.Parts()), kept);
    var k :| 0 <= k < |kept| && kept[k] == DropExpired(usage, g.now);
    SameUsageCovered(AllFailures(g.Parts()), usage, kept[k]);
  }

  /** No two requests are for the same account of a provider. */
  predicate DistinctRequests(requests: seq<Request>) {
    forall i, j :: 0 <= i < j < |requests| ==>
      requests[i].provider != requests[j].provider || IdOf(requests[i].accountRef) != IdOf(requests[j].accountRef)
  }

  /** The run's own failure says what every diagnostic says; a fresh usage comes with no failure. */
  predicate Explained(c: Cache.Config, request: Request, a: Answer)
    requires FromDisk(c, request, a)
  {
    var diagnostics := DiskUsage(c, request, a).diagnostics;
    if ServesFresh(c, request, a) then diagnostics == []
    else forall j :: 0 <= j < |diagnostics| ==> diagnostics[j].code == Checked(request, a.outcome).error
  }

  lemma ExplainedIffOwn(c: Cache.Config, request: Request, a: Answer)
    requires FromDisk(c, request, a)
    ensures Explained(c, request, a) <==> UsageCovered(RunReport(c, request, a).failures, DiskUsage(c, request, a))
  {
    hide Checked;
    var own, usage := RunReport(c, request, a).failures, DiskUsage(c, request, a);
    forall j | 0 <= j < |usage.diagnostics|
      ensures Covered(own, usage, usage.diagnostics[j].code) <==>
              ServesStale(c, request, a) && usage.diagnostics[j].code == Checked(request, a.outcome).error
    {
      if ServesStale(c, request, a) {
        assert own[0] == FailureOf(request, Checked(request, a.outcome).error);
      }
    }
    if usage.diagnostics != [] && UsageCovered(own, usage) {
      assert Covered(own, usage, usage.diagnostics[0].code);
    }
  }

  lemma {:induction false} FailureInPart(reports: seq<Report>, failure: ReportFailure) returns (i: nat)
    requires failure in AllFailures(reports)
    ensures i < |reports| && failure in reports[i].failures
  {
    if failure in reports[0].failures {
      i := 0;
    } else {
      var rest := FailureInPart(reports[1..], failure);
      i := rest + 1;
    }
  }

  lemma PartFailure(g: Gathering, i: nat, failure: ReportFailure)
    requires i < |g.requests| && failure in g.Parts()[i].failures
    ensures failure.provider == g.requests[i].provider && failure.accountRef == g.requests[i].accountRef
  {
    hide OneReport;
    OneInScope(g.config, g.keyed, g.requests[i], g.answers(i));
    var failures := g.Parts()[i].failures;
    var k :| 0 <= k < |failures| && failures[k] == failure;
    assert Asked([g.requests[i]], failures[k].provider, failures[k].accountRef);
  }

  /** Another account's failures cover nothing of this one. */
  lemma CoveredByOwn(g: Gathering, i: nat, code: ErrorCode)
    requires DistinctRequests(g.requests) && i < |g.requests| && FromDisk(g.config, g.requests[i], g.answers(i))
    requires Covered(AllFailures(g.Parts()), DiskUsage(g.config, g.requests[i], g.answers(i)), code)
    ensures Covered(g.Parts()[i].failures, DiskUsage(g.config, g.requests[i], g.answers(i)), code)
  {
    hide OneReport, Checked;
    var usage := DiskUsage(g.config, g.requests[i], g.answers(i));
    var all := AllFailures(g.Parts());
    var k :| 0 <= k < |all| && Covers(all[k], usage, code);
    var m := FailureInPart(g.Parts(), all[k]);
    PartFailure(g, m, all[k]);
    assert m == i;
    var own := g.Parts()[i].failures;
    var j :| 0 <= j < |own| && own[j] == all[k];
  }

  lemma CoveredIffExplained(g: Gathering, i: nat)
    requires DistinctRequests(g.requests) && i < |g.requests| && FromDisk(g.config, g.requests[i], g.answers(i))
    ensures CoveredByParts(g, i) <==> Explained(g.config, g.requests[i], g.answers(i))
  {
    hide DistinctRequests, Checked, OneReport, RunReport, Explained, Covered;
    var request, a := g.requests[i], g.answers(i);
    var usage := DiskUsage(g.config, request, a);
    var own := g.Parts()[i].failures;
    PartIs(g, i);
    ExplainedIffOwn(g.config, request, a);
    if CoveredByParts(g, i) {
      forall j | 0 <= j < |usage.diagnostics| ensures Covered(own, usage, usage.diagnostics[j].code) {
        CoveredByOwn(g, i, usage.diagnostics[j].code);
      }
    } else if UsageCovered(own, usage) {
      CoveredByPart(g.Parts(), i, usage);
    }
  }

  /**
    With requests for distinct accounts: joining adds no failure exactly when every surviving fresh usage
    has no diagnostic, and every surviving stale one none but the error its fetch failed with.
   */
  lemma JoiningAddsNothingIff(g: Gathering)
    requires DistinctRequests(g.requests)
    ensures g.Report().failures == AllFailures(g.Parts()) <==>
            forall i: nat :: i < |g.requests| && Survives(g, i) ==>
              Explained(g.config, g.requests[i], g.answers(i))
  {
    hide Explained, CoveredByParts, DistinctRequests, DropExpired, Reconciled, OneReport;
    GatheredAddsNothingIff(g);
    forall i: nat | i < |g.requests| && Survives(g, i)
      ensures CoveredByParts(g, i) <==> Explained(g.config, g.requests[i], g.answers(i))
    {
      CoveredIffExplained(g, i);
    }
  }

  /** The input at which it does add one: a fresh usage from disk that carries a diagnostic. */
  lemma FreshDiagnosticAdds(c: Cache.Config, keyed: string -> bool, now: int, request: Request, usage: Usage)
    requires Cache.Acceptable(c, Cache.Adapter(request.provider, request.accountRef), usage)
    requires |usage.diagnostics| == 1
    ensures var answer := Answer(Some(usage), true, Failure(Internal), true, now);
      var g := Gathering(c, keyed, [request], (i: nat) => answer, now);
      && AllFailures(g.Parts()) == []
      && g.Report().failures == [FailureOf(request, usage.diagnostics[0].code)]
  {
    var answer := Answer(Some(usage), true, Failure(Internal), true, now);
    var g := Gathering(c, keyed, [request], (i: nat) => answer, now);
    var restored := DiskUsage(c, request, answer);
    OneReportIs(c, keyed, request, answer);
    assert g.Parts() == [Report(now, [restored], [])];
    OneJoined(keyed, now, restored);
  }

  /** A single part with one diagnostic that nothing covers. */
  lemma OneJoined(keyed: string -> bool, now: int, usage: Usage)
    requires |usage.diagnostics| == 1
    ensures var parts := [Report(now, [usage], [])];
      && AllFailures(parts) == []
      && CollectedCached(keyed, now, parts).failures
         == [ReportFailure(usage.provider, usage.accountRef, usage.diagnostics[0].code)]
  {
    var parts := [Report(now, [usage], [])];
    var current := DropExpired(usage, now);
    assert parts[1..] == [] && AllFailures(parts[1..]) == [] && AllProviders(parts[1..]) == [];
    assert AllProviders(parts) == [usage];
    assert DropAllExpired([usage], now) == [current];
    AloneIsKept(keyed, current);
    hide Reconciled;
    assert usage.diagnostics[1..] == [] && [current][1..] == [];
    var noted := Note([], current, usage.diagnostics[0].code);
    assert Included([], [current]) == Included(NoteAll([], current, current.diagnostics), []);
    assert NoteAll([], current, current.diagnostics) == NoteAll(noted, current, []) == noted;
  }
}
