/**
  What a refresh may report (src/server.rs, src/cache.rs): the report is computed from the requests to
  adapters and their answers, and stays within the refreshed scope exactly when the requests do.
 */
module RefreshScope {
  import opened Results
  import opened Reports
  import opened Collection
  import opened SnapshotMerge
  import Cache = UsageCache

  /**
    How one adapter's run ends: what it read back, whether it serves that as fresh, what a fetch comes
    to, and whether its identity is confirmed afterwards.  A run that panics comes to `Internal`.
   */
  datatype Answer = Answer(
    stored: Option<Usage>, recent: bool, outcome: Result<Usage, ErrorCode>, confirmed: bool, at: int)

  /** What was read back, if it passes the filter. */
  function Usable(c: Cache.Config, request: Request, a: Answer): Option<Usage> {
    var adapter := Cache.Adapter(request.provider, request.accountRef);
    if a.stored.Some? && Cache.Acceptable(c, adapter, a.stored.value) then a.stored else None
  }

  /** The report of one cached run. */
  function OneReport(c: Cache.Config, keyed: string -> bool, request: Request, a: Answer): Report {
    var adapter := Cache.Adapter(request.provider, request.accountRef);
    var snapshot := Usable(c, request, a);
    if a.recent && snapshot.Some? then Report(a.at, [Cache.Restored(snapshot.value, adapter, false)], [])
    else
      var fetched := Collected(keyed, a.at, [request], [a.outcome]);
      if a.confirmed && fetched.providers == [] && snapshot.Some?
      then fetched.(providers := [Cache.Restored(snapshot.value, adapter, true)]) else fetched
  }

  /**
    One refresh's work: the requests made and how each run ends.  A refresh whose adapters cannot be
    listed reports as if it had made one failing request without account to each selected provider.
   */
  datatype Gathering = Gathering(
    config: Cache.Config, keyed: string -> bool, requests: seq<Request>, answers: nat -> Answer, now: int)
  {
    function Parts(): (parts: seq<Report>)
      ensures |parts| == |requests|
    {
      seq(|requests|, i requires 0 <= i < |requests| => OneReport(config, keyed, requests[i], answers(i)))
    }

    function Report(): Reports.Report {
      CollectedCached(keyed, now, Parts())
    }
  }

  /** Every request is for something the scope covers. */
  predicate AllMatch(requests: seq<Request>, scope: Scope) {
    forall i :: 0 <= i < |requests| ==> scope.Matches(requests[i].provider, requests[i].accountRef)
  }

  // ------------------------------------------------------------------ reports speak of their requests

  lemma OneInScope(c: Cache.Config, keyed: string -> bool, request: Request, a: Answer)
    ensures InScope(OneReport(c, keyed, request, a), [request])
  {
    CollectedInScope(keyed, a.at, [request], [a.outcome]);
    assert [request][0] == Request(request.provider, request.accountRef);
    assert Asked([request], request.provider, request.accountRef);
    hide Collected, Asked, Cache.Valid;
  }

  lemma AskedOfOne(requests: seq<Request>, i: nat, provider: string, accountRef: Option<AccountRef>)
    requires i < |requests| && Asked([requests[i]], provider, accountRef)
    ensures Asked(requests, provider, accountRef)
  {
  }

  ghost predicate PartsInScope(parts: seq<Report>, requests: seq<Request>) {
    |parts| == |requests| && forall i :: 0 <= i < |parts| ==> InScope(parts[i], [requests[i]])
  }

  predicate UsagesAsked(usages: seq<Usage>, requests: seq<Request>) {
    forall i :: 0 <= i < |usages| ==> Asked(requests, usages[i].provider, usages[i].accountRef)
  }

  lemma {:induction false} PartAsked(part: Report, requests: seq<Request>, i: nat)
    requires i < |requests| && InScope(part, [requests[i]])
    ensures UsagesAsked(part.providers, requests) && FailuresAsked(part.failures, requests)
  {
    hide Asked;
    forall k | 0 <= k < |part.providers|
      ensures Asked(requests, part.providers[k].provider, part.providers[k].accountRef)
    {
      AskedOfOne(requests, i, part.providers[k].provider, part.providers[k].accountRef);
    }
    forall k | 0 <= k < |part.failures|
      ensures Asked(requests, part.failures[k].provider, part.failures[k].accountRef)
    {
      AskedOfOne(requests, i, part.failures[k].provider, part.failures[k].accountRef);
    }
  }

  lemma {:induction false} JoinedAsked(parts: seq<Report>, requests: seq<Request>)
    requires forall i :: 0 <= i < |parts| ==>
      UsagesAsked(parts[i].providers, requests) && FailuresAsked(parts[i].failures, requests)
    ensures UsagesAsked(AllProviders(parts), requests) && FailuresAsked(AllFailures(parts), requests)
  {
    hide Asked;
    if parts != [] {
      JoinedAsked(parts[1..], requests);
    }
  }

  /** The joined report speaks only of the requests, because each part does of its own. */
  lemma {:induction false} CachedInScope(keyed: string -> bool, now: int, requests: seq<Request>, parts: seq<Report>)
    requires PartsInScope(parts, requests)
    ensures InScope(CollectedCached(keyed, now, parts), requests)
  {
    forall i | 0 <= i < |parts|
      ensures UsagesAsked(parts[i].providers, requests) && FailuresAsked(parts[i].failures, requests)
    {
      PartAsked(parts[i], requests, i);
    }
    JoinedAsked(parts, requests);
    hide Asked, UsagesAsked, FailuresAsked, Reconciled;
    var kept := CollectedCached(keyed, now, parts).providers;
    assert UsagesAsked(kept, requests) by { KeptAsked(keyed, now, AllProviders(parts), requests); }
    UsagesEachAsked(kept, requests);
    IncludedAsked(AllFailures(parts), kept, requests);
  }

  lemma {:induction false} UsagesEachAsked(usages: seq<Usage>, requests: seq<Request>)
    requires UsagesAsked(usages, requests)
    ensures forall i :: 0 <= i < |usages| ==> Asked(requests, usages[i].provider, usages[i].accountRef)
  {
  }

  lemma {:induction false} KeptAsked(keyed: string -> bool, now: int, all: seq<Usage>, requests: seq<Request>)
    requires UsagesAsked(all, requests)
    ensures UsagesAsked(Reconciled(keyed, DropAllExpired(all, now)), requests)
  {
    hide Asked, Reconciled;
    var kept := Reconciled(keyed, DropAllExpired(all, now));
    forall i | 0 <= i < |kept| ensures Asked(requests, kept[i].provider, kept[i].accountRef) {
      KeptIsKnown(keyed, now, all, kept[i]);
      var k :| 0 <= k < |all| && SameDiagnostics(all[k], kept[i]);
    }
  }

  /** Whatever the runs read, serve, fetch or fail with, a refresh reports only what it requested. */
  lemma GatheredInScope(g: Gathering)
    ensures InScope(g.Report(), g.requests)
  {
    forall i | 0 <= i < |g.requests| ensures InScope(g.Parts()[i], [g.requests[i]]) {
      OneInScope(g.config, g.keyed, g.requests[i], g.answers(i));
    }
    CachedInScope(g.keyed, g.now, g.requests, g.Parts());
  }

  lemma AskedMatches(requests: seq<Request>, scope: Scope, provider: string, accountRef: Option<AccountRef>)
    requires AllMatch(requests, scope) && Asked(requests, provider, accountRef)
    ensures scope.Matches(provider, accountRef)
  {
  }

  lemma InScopeWithin(report: Report, requests: seq<Request>, scope: Scope)
    requires InScope(report, requests) && AllMatch(requests, scope)
    ensures Within(report, scope)
  {
    hide Asked, AllMatch, Scope.Matches;
    forall i | 0 <= i < |report.providers|
      ensures scope.Matches(report.providers[i].provider, report.providers[i].accountRef)
    {
      AskedMatches(requests, scope, report.providers[i].provider, report.providers[i].accountRef);
    }
    forall i | 0 <= i < |report.failures|
      ensures scope.Matches(report.failures[i].provider, report.failures[i].accountRef)
    {
      AskedMatches(requests, scope, report.failures[i].provider, report.failures[i].accountRef);
    }
  }

  // ------------------------------------------------------------------ exactly when reports stay within scope

  function Fails(n: nat): (outcomes: seq<Result<Usage, ErrorCode>>)
    ensures |outcomes| == n
  {
    seq(n, i => Failure(Internal))
  }

  /** If every request fails, the report is one failure per request. */
  lemma {:induction false} AllFail(requests: seq<Request>)
    ensures Usages(requests, Fails(|requests|)) == []
    ensures |Failures(requests, Fails(|requests|))| == |requests|
    ensures forall i :: 0 <= i < |requests| ==>
      Failures(requests, Fails(|requests|))[i] == ReportFailure(requests[i].provider, requests[i].accountRef, Internal)
  {
    if requests != [] {
      AllFail(requests[1..]);
      assert Fails(|requests|)[1..] == Fails(|requests| - 1);
    }
  }

  /**
    The collector's report stays within the scope for all answers exactly when the scope covers every
    request.
   */
  lemma {:induction false} CollectedWithinIff(keyed: string -> bool, now: int, requests: seq<Request>, scope: Scope)
    ensures (forall outcomes :: |outcomes| == |requests| ==> Within(Collected(keyed, now, requests, outcomes), scope))
            <==> AllMatch(requests, scope)
  {
    if AllMatch(requests, scope) {
      forall outcomes | |outcomes| == |requests|
        ensures Within(Collected(keyed, now, requests, outcomes), scope)
      {
        CollectedInScope(keyed, now, requests, outcomes);
        InScopeWithin(Collected(keyed, now, requests, outcomes), requests, scope);
      }
    } else {
      AllFail(requests);
      var report := Collected(keyed, now, requests, Fails(|requests|));
      assert report.failures == Failures(requests, Fails(|requests|));
      var i :| 0 <= i < |requests| && !scope.Matches(requests[i].provider, requests[i].accountRef);
      assert !scope.Matches(report.failures[i].provider, report.failures[i].accountRef);
    }
  }

  const REFUSED: Answer := Answer(None, false, Failure(Internal), false, 0)

  function Refused(c: Cache.Config, keyed: string -> bool, requests: seq<Request>, now: int): Gathering {
    Gathering(c, keyed, requests, (i: nat) => REFUSED, now)
  }

  lemma RefusedPart(c: Cache.Config, keyed: string -> bool, request: Request)
    ensures OneReport(c, keyed, request, REFUSED) ==
            Report(0, [], [ReportFailure(request.provider, request.accountRef, Internal)])
  {
    AllFail([request]);
    assert Fails(1) == [Failure(Internal)];
  }

  lemma {:induction false} SingleFailures(parts: seq<Report>, requests: seq<Request>)
    requires |parts| == |requests|
    requires forall i :: 0 <= i < |parts| ==>
      parts[i] == Report(0, [], [ReportFailure(requests[i].provider, requests[i].accountRef, Internal)])
    ensures AllProviders(parts) == [] && |AllFailures(parts)| == |requests|
    ensures forall i :: 0 <= i < |requests| ==>
      AllFailures(parts)[i] == ReportFailure(requests[i].provider, requests[i].accountRef, Internal)
  {
    if parts != [] {
      SingleFailures(parts[1..], requests[1..]);
    }
  }

  lemma {:induction false} RefusedReport(c: Cache.Config, keyed: string -> bool, requests: seq<Request>, now: int)
    ensures |Refused(c, keyed, requests, now).Report().failures| == |requests|
    ensures forall i :: 0 <= i < |requests| ==>
      Refused(c, keyed, requests, now).Report().failures[i] ==
        ReportFailure(requests[i].provider, requests[i].accountRef, Internal)
  {
    var g := Refused(c, keyed, requests, now);
    forall i | 0 <= i < |requests|
      ensures g.Parts()[i] == Report(0, [], [ReportFailure(requests[i].provider, requests[i].accountRef, Internal)])
    {
      RefusedPart(c, keyed, requests[i]);
    }
    SingleFailures(g.Parts(), requests);
    assert DropAllExpired([], now) == [];
  }

  /** The same with the cache between: exactly when the scope covers every request, for all runs. */
  lemma {:induction false} GatheredWithinIff(
    c: Cache.Config, keyed: string -> bool, requests: seq<Request>, now: int, scope: Scope)
    ensures (forall answers :: Within(Gathering(c, keyed, requests, answers, now).Report(), scope))
            <==> AllMatch(requests, scope)
  {
    hide Gathering.Report, Within;
    if AllMatch(requests, scope) {
      forall answers ensures Within(Gathering(c, keyed, requests, answers, now).Report(), scope) {
        var g := Gathering(c, keyed, requests, answers, now);
        GatheredInScope(g);
        InScopeWithin(g.Report(), requests, scope);
      }
    } else {
      RefusedReport(c, keyed, requests, now);
      StrayFailure(Refused(c, keyed, requests, now).Report(), requests, scope);
    }
  }

  lemma {:induction false} StrayFailure(report: Report, requests: seq<Request>, scope: Scope)
    requires |report.failures| == |requests| && !AllMatch(requests, scope)
    requires forall i :: 0 <= i < |requests| ==>
      report.failures[i] == ReportFailure(requests[i].provider, requests[i].accountRef, Internal)
    ensures !Within(report, scope)
  {
    var i :| 0 <= i < |requests| && !scope.Matches(requests[i].provider, requests[i].accountRef);
    assert !scope.Matches(report.failures[i].provider, report.failures[i].accountRef);
  }

  /**
    A scoped refresh gives every cell its new content or leaves it alone, whatever its runs come to and
    whatever the snapshot held, exactly when the scope covers every request it makes.
   */
  lemma {:induction false} RefreshFitsIff(
    c: Cache.Config, keyed: string -> bool, requests: seq<Request>, now: int, scope: Scope, previous: Report)
    ensures (forall answers, cell ::
              PartFits(previous, scope, Gathering(c, keyed, requests, answers, now).Report(), cell))
            <==> AllMatch(requests, scope)
  {
    hide Gathering.Report, Within, PartFits, AllMatch;
    GatheredWithinIff(c, keyed, requests, now, scope);
    forall answers
      ensures (forall cell :: PartFits(previous, scope, Gathering(c, keyed, requests, answers, now).Report(), cell))
              <==> Within(Gathering(c, keyed, requests, answers, now).Report(), scope)
    {
      FitsIffWithin(previous, scope, Gathering(c, keyed, requests, answers, now).Report());
    }
  }

  // ------------------------------------------------------------------ the adapter without an account

  /** The demo provider's adapter names no account, so a refresh of its "local" account reaches past its scope. */
  const MOCK_REQUESTS: seq<Request> := [Request("mock", None)]
  const MOCK_LOCAL: Scope := Scope(["mock"], Some("local"))

  /** Refreshing the demo provider's "local" account leaves the old entry and appends the new one. */
  lemma {:induction false} MockLocalAppends(
    c: Cache.Config, keyed: string -> bool, now: int, generation: nat, enabled: seq<string>,
    before: Usage, after: Usage)
    requires "mock" in enabled && before.provider == after.provider == "mock" && before.accountRef == None
    requires after.windows != [] && forall i :: 0 <= i < |after.windows| ==> after.windows[i].wellFormed
    requires after.resetCredits == None && after.diagnostics == []
    ensures !AllMatch(MOCK_REQUESTS, MOCK_LOCAL)
    ensures var answer := Answer(None, false, Success(after), false, now);
      var report := Gathering(c, keyed, MOCK_REQUESTS, (i: nat) => answer, now).Report();
      Merge(Some(Snapshot(generation, Report(0, [before], []))), generation, MOCK_LOCAL, enabled, report)
      == (Some(Snapshot(generation, Report(now, [before, after.(accountRef := None)], []))), true)
  {
    assert !MOCK_LOCAL.Matches(MOCK_REQUESTS[0].provider, MOCK_REQUESTS[0].accountRef);
    DemoGathered(c, keyed, now, after);
    MockMerged(now, before, after.(accountRef := None));
  }

  /** A fetched usage of the demo provider is the whole report. */
  lemma {:induction false} DemoGathered(c: Cache.Config, keyed: string -> bool, now: int, usage: Usage)
    requires usage.provider == "mock" && usage.resetCredits == None && usage.diagnostics == []
    requires usage.windows != [] && forall i :: 0 <= i < |usage.windows| ==> usage.windows[i].wellFormed
    ensures var answer := Answer(None, false, Success(usage), false, now);
      var gathering := Gathering(c, keyed, MOCK_REQUESTS, (i: nat) => answer, now);
      gathering.Report() == Report(now, [usage.(accountRef := None)], [])
  {
    var answer := Answer(None, false, Success(usage), false, now);
    var g := Gathering(c, keyed, MOCK_REQUESTS, (i: nat) => answer, now);
    var named := usage.(accountRef := None);
    MockCollected(keyed, now, usage);
    assert [MOCK_REQUESTS[0]] == MOCK_REQUESTS;
    assert g.Parts()[0] == OneReport(c, keyed, MOCK_REQUESTS[0], answer) == Report(now, [named], []);
    assert g.Parts() == [Report(now, [named], [])];
    MockJoined(keyed, now, named);
  }

  lemma {:induction false} MockCollected(keyed: string -> bool, now: int, after: Usage)
    requires after.provider == "mock" && after.diagnostics == []
    requires after.windows != [] && forall i :: 0 <= i < |after.windows| ==> after.windows[i].wellFormed
    ensures Collected(keyed, now, MOCK_REQUESTS, [Success(after)]) == Report(now, [after.(accountRef := None)], [])
  {
    var named := after.(accountRef := None);
    assert Checked(MOCK_REQUESTS[0], Success(after)) == Success(named);
    assert Usages(MOCK_REQUESTS, [Success(after)]) == [named];
    assert Failures(MOCK_REQUESTS, [Success(after)]) == [];
    MockKept(keyed, named);
  }

  lemma MockKept(keyed: string -> bool, usage: Usage)
    requires usage.accountRef == None && usage.diagnostics == []
    ensures Reconciled(keyed, [usage]) == [usage] && Included([], [usage]) == []
  {
    AloneIsKept(keyed, usage);
  }

  lemma MockJoined(keyed: string -> bool, now: int, usage: Usage)
    requires usage.accountRef == None && usage.diagnostics == [] && usage.resetCredits == None
    ensures CollectedCached(keyed, now, [Report(now, [usage], [])]) == Report(now, [usage], [])
  {
    var parts := [Report(now, [usage], [])];
    assert parts[0].providers == [usage] && parts[0].failures == [] && parts[1..] == [];
    assert AllProviders(parts[1..]) == [] && AllFailures(parts[1..]) == [];
    assert AllProviders(parts) == [usage] && AllFailures(parts) == [];
    assert DropAllExpired([usage], now) == [usage];
    MockKept(keyed, usage);
  }

  lemma MockMerged(now: int, before: Usage, after: Usage)
    requires before.accountRef == None
    ensures Replaced(Report(0, [before], []), MOCK_LOCAL, Report(now, [after], [])) == Report(now, [before, after], [])
  {
    FilterAll(MatchingUsage(MOCK_LOCAL, false), [before]);
    assert Filter(MatchingFailure(MOCK_LOCAL, false), []) == [];
  }
}
