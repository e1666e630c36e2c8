/**
  Merging refresh reports into the server's snapshot (src/server.rs, `merge_refresh_report`): within
  one generation, every part of the snapshot is what the latest refresh that covered it reported.
 */
module SnapshotMerge {
  import opened Results
  import opened Reports
  import opened Collection

  datatype Scope = Scope(selected: seq<string>, account: Option<string>) {
    predicate Matches(provider: string, accountRef: Option<AccountRef>) {
      provider in selected && (account.None? || IdOf(accountRef) == account)
    }

    /** A refresh of this scope is to replace the cell. */
    predicate Reaches(cell: Cell) {
      cell.provider in selected && (account.None? || cell.account == account)
    }

    /** The request asks for everything that is enabled. */
    predicate Full(enabled: seq<string>) {
      account.None? && |selected| == |enabled| && Allowed(enabled)
    }

    predicate Allowed(enabled: seq<string>) {
      forall i :: 0 <= i < |selected| ==> selected[i] in enabled
    }
  }

  datatype Snapshot = Snapshot(generation: nat, report: Report)

  function MatchingUsage(scope: Scope, matching: bool): Usage -> bool {
    (u: Usage) => scope.Matches(u.provider, u.accountRef) == matching
  }

  function MatchingFailure(scope: Scope, matching: bool): ReportFailure -> bool {
    (f: ReportFailure) => scope.Matches(f.provider, f.accountRef) == matching
  }

  /** Out-of-scope entries first, as they were; then the new report. */
  function Replaced(previous: Report, scope: Scope, report: Report): Report {
    Report(report.generatedAt,
           Filter(MatchingUsage(scope, false), previous.providers) + report.providers,
           Filter(MatchingFailure(scope, false), previous.failures) + report.failures)
  }

  function Merge(snapshot: Option<Snapshot>, generation: nat, scope: Scope, enabled: seq<string>, report: Report)
    : (Option<Snapshot>, bool)
  {
    if !scope.Allowed(enabled) then (snapshot, false)
    else if scope.Full(enabled) then (Some(Snapshot(generation, report)), true)
    else if snapshot.None? || snapshot.value.generation != generation then (snapshot, false)
    else (Some(Snapshot(generation, Replaced(snapshot.value.report, scope, report))), true)
  }

  class SnapshotCell {
    var snapshot: Option<Snapshot>

    constructor ()
      ensures snapshot == None
    {
      snapshot := None;
    }

    method MergeRefreshReport(generation: nat, scope: Scope, enabled: seq<string>,
        report: Report) returns (merged: bool)
      modifies this
      ensures (snapshot, merged) == Merge(old(snapshot), generation, scope, enabled, report)
    {
      for i := 0 to |scope.selected|
        invariant forall k :: 0 <= k < i ==> scope.selected[k] in enabled
        invariant snapshot == old(snapshot)
      {
        if scope.selected[i] !in enabled {
          return false;
        }
      }
      if scope.account.None? && |scope.selected| == |enabled| {
        snapshot := Some(Snapshot(generation, report));
        return true;
      }
      if snapshot.None? || snapshot.value.generation != generation {
        return false;
      }
      var previous := snapshot.value.report;
      var providers := RetainUsages(previous.providers, scope);
      var failures := RetainFailures(previous.failures, scope);
      snapshot := Some(Snapshot(generation,
        Report(report.generatedAt, providers + report.providers, failures + report.failures)));
      merged := true;
    }

    static method RetainUsages(usages: seq<Usage>, scope: Scope) returns (kept: seq<Usage>)
      ensures kept == Filter(MatchingUsage(scope, false), usages)
    {
      kept := [];
      for i := 0 to |usages|
        invariant Filter(MatchingUsage(scope, false), usages) == kept + Filter(MatchingUsage(scope, false), usages[i..])
      {
        assert usages[i..][1..] == usages[i + 1..];
        if !scope.Matches(usages[i].provider, usages[i].accountRef) {
          kept := kept + [usages[i]];
        }
      }
      assert kept + [] == kept;
    }

    static method RetainFailures(failures: seq<ReportFailure>, scope: Scope) returns (kept: seq<ReportFailure>)
      ensures kept == Filter(MatchingFailure(scope, false), failures)
    {
      kept := [];
      for i := 0 to |failures|
        invariant Filter(MatchingFailure(scope, false), failures) == kept + Filter(MatchingFailure(scope, false),
            failures[i..])
      {
        assert failures[i..][1..] == failures[i + 1..];
        if !scope.Matches(failures[i].provider, failures[i].accountRef) {
          kept := kept + [failures[i]];
        }
      }
      assert kept + [] == kept;
    }
  }

  // ------------------------------------------------------------------ refinement

  /**
    Exactly when a report gets into the snapshot: everything selected is enabled, and either it is a full
    refresh, which replaces the snapshot, or the snapshot is of the same generation, which then keeps its
    entries out of scope before the new ones.
   */
  lemma MergedExactly(snapshot: Option<Snapshot>, generation: nat, scope: Scope, enabled: seq<string>, report: Report)
    ensures var allowed := forall i :: 0 <= i < |scope.selected| ==> scope.selected[i] in enabled;
      var full := scope.account.None? && |scope.selected| == |enabled|;
      Merge(snapshot, generation, scope, enabled, report) ==
      if allowed && full then (Some(Snapshot(generation, report)), true)
      else if allowed && snapshot.Some? && snapshot.value.generation == generation then
        (Some(Snapshot(generation, Report(
           report.generatedAt,
           Filter((u: Usage) => !(u.provider in scope.selected
                                  && (scope.account.None? || IdOf(u.accountRef) == scope.account)),
                  snapshot.value.report.providers) + report.providers,
           Filter((f: ReportFailure) => !(f.provider in scope.selected
                                          && (scope.account.None? || IdOf(f.accountRef) == scope.account)),
                  snapshot.value.report.failures) + report.failures))), true)
      else (snapshot, false)
  {
    if snapshot.Some? {
      SameFilter(MatchingUsage(scope, false),
                 (u: Usage) => !(u.provider in scope.selected
                                 && (scope.account.None? || IdOf(u.accountRef) == scope.account)),
                 snapshot.value.report.providers);
      SameFilter(MatchingFailure(scope, false),
                 (f: ReportFailure) => !(f.provider in scope.selected
                                         && (scope.account.None? || IdOf(f.accountRef) == scope.account)),
                 snapshot.value.report.failures);
    }
  }

  lemma {:induction false} SameFilter<T>(p: T -> bool, q: T -> bool, s: seq<T>)
    requires forall i :: 0 <= i < |s| ==> p(s[i]) == q(s[i])
    ensures Filter(p, s) == Filter(q, s)
  {
    if s != [] {
      SameFilter(p, q, s[1..]);
    }
  }

  /** The smallest part of a snapshot a refresh can replace: one account of one provider. */
  datatype Cell = Cell(provider: string, account: Option<string>)

  datatype Part = Part(providers: seq<Usage>, failures: seq<ReportFailure>)

  function UsageIn(cell: Cell): Usage -> bool {
    (u: Usage) => u.provider == cell.provider && IdOf(u.accountRef) == cell.account
  }

  function FailureIn(cell: Cell): ReportFailure -> bool {
    (f: ReportFailure) => f.provider == cell.provider && IdOf(f.accountRef) == cell.account
  }

  function PartOf(report: Report, cell: Cell): Part {
    Part(Filter(UsageIn(cell), report.providers), Filter(FailureIn(cell), report.failures))
  }

  /** A report speaks only of what its scope matches. */
  predicate Within(report: Report, scope: Scope) {
    && (forall i :: 0 <= i < |report.providers| ==> scope.Matches(report.providers[i].provider,
        report.providers[i].accountRef))
    && (forall i :: 0 <= i < |report.failures| ==> scope.Matches(report.failures[i].provider,
        report.failures[i].accountRef))
  }

  /** A refresh: what it was asked for, the requests it made of adapters, and what they came to. */
  datatype Refresh = Refresh(scope: Scope, enabled: seq<string>, requests: seq<Request>, report: Report)

  predicate Covers(refresh: Refresh, cell: Cell) {
    refresh.scope.Full(refresh.enabled) || (refresh.scope.Allowed(refresh.enabled) && refresh.scope.Reaches(cell))
  }

  /** The snapshot after these refreshes of one generation, starting without one. */
  function Merged(generation: nat, refreshes: seq<Refresh>): Option<Snapshot> {
    if refreshes == [] then None
    else
      var last := refreshes[|refreshes| - 1];
      Merge(Merged(generation, refreshes[..|refreshes| - 1]), generation, last.scope, last.enabled, last.report).0
  }

  /** `i` is the latest refresh that covers the cell. */
  predicate Latest(refreshes: seq<Refresh>, cell: Cell, i: int) {
    && 0 <= i < |refreshes| && Covers(refreshes[i], cell)
    && forall j :: i < j < |refreshes| ==> !Covers(refreshes[j], cell)
  }

  lemma {:induction false} FilterConcat<T>(p: T -> bool, a: seq<T>, b: seq<T>)
    ensures Filter(p, a + b) == Filter(p, a) + Filter(p, b)
  {
    if a == [] {
      assert a + b == b;
    } else {
      assert (a + b)[0] == a[0] && (a + b)[1..] == a[1..] + b;
      FilterConcat(p, a[1..], b);
    }
  }

  lemma {:induction false} FilterNone<T>(p: T -> bool, s: seq<T>)
    requires forall i :: 0 <= i < |s| ==> !p(s[i])
    ensures Filter(p, s) == []
  {
    if s != [] {
      FilterNone(p, s[1..]);
    }
  }

  lemma {:induction false} FilterFiltered<T>(p: T -> bool, q: T -> bool, s: seq<T>)
    ensures (forall x :: x in s && q(x) ==> p(x)) ==> Filter(q, Filter(p, s)) == Filter(q, s)
    ensures (forall x :: x in s && q(x) ==> !p(x)) ==> Filter(q, Filter(p, s)) == []
  {
    if forall x :: x in s && q(x) ==> p(x) {
      FilterThrough(p, q, s);
    }
    if forall x :: x in s && q(x) ==> !p(x) {
      var kept := Filter(p, s);
      forall i | 0 <= i < |kept| ensures !q(kept[i]) {
        Filtered(p, s, kept[i]);
        assert kept[i] in kept;
      }
      FilterNone(q, kept);
    }
  }

  /** A scoped merge gives the cell the report's content if it reaches it, and leaves it alone if not. */
  predicate PartFits(previous: Report, scope: Scope, report: Report, cell: Cell) {
    PartOf(Replaced(previous, scope, report), cell) == PartOf(if scope.Reaches(cell) then report else previous, cell)
  }

  lemma ReplacedPart(previous: Report, scope: Scope, report: Report, cell: Cell)
    requires Within(report, scope)
    ensures PartFits(previous, scope, report, cell)
  {
    var u, f := UsageIn(cell), FailureIn(cell);
    ReplacedConcat(previous, scope, report, cell);
    if !scope.Reaches(cell) {
      FilterNone(u, report.providers);
      FilterNone(f, report.failures);
    }
  }

  /** What a scoped merge leaves in a cell: the old content if the cell is out of reach, then the report's. */
  lemma ReplacedConcat(previous: Report, scope: Scope, report: Report, cell: Cell)
    ensures var former, latest := PartOf(previous, cell), PartOf(report, cell);
      PartOf(Replaced(previous, scope, report), cell) ==
      if scope.Reaches(cell) then latest
      else Part(former.providers + latest.providers, former.failures + latest.failures)
  {
    var u, f := UsageIn(cell), FailureIn(cell);
    var outU, outF := MatchingUsage(scope, false), MatchingFailure(scope, false);
    FilterConcat(u, Filter(outU, previous.providers), report.providers);
    FilterConcat(f, Filter(outF, previous.failures), report.failures);
    FilterFiltered(outU, u, previous.providers);
    FilterFiltered(outF, f, previous.failures);
  }

  /** A scoped merge fits every cell, whatever was there before, exactly when the report stays within the scope. */
  lemma FitsIffWithin(previous: Report, scope: Scope, report: Report)
    ensures (forall cell :: PartFits(previous, scope, report, cell)) <==> Within(report, scope)
  {
    hide PartFits, PartOf, Replaced;
    if Within(report, scope) {
      forall cell ensures PartFits(previous, scope, report, cell) {
        ReplacedPart(previous, scope, report, cell);
      }
    } else if i :| 0 <= i < |report.providers|
                   && !scope.Matches(report.providers[i].provider, report.providers[i].accountRef) {
      StrayUsageMisfits(previous, scope, report, i);
    } else {
      var j :| 0 <= j < |report.failures|
               && !scope.Matches(report.failures[j].provider, report.failures[j].accountRef);
      StrayFailureMisfits(previous, scope, report, j);
    }
  }

  lemma StrayUsageMisfits(previous: Report, scope: Scope, report: Report, i: nat)
    requires i < |report.providers|
    requires !scope.Matches(report.providers[i].provider, report.providers[i].accountRef)
    ensures !PartFits(previous, scope, report,
                      Cell(report.providers[i].provider, IdOf(report.providers[i].accountRef)))
  {
    var usage := report.providers[i];
    var cell := Cell(usage.provider, IdOf(usage.accountRef));
    hide Replaced;
    ReplacedConcat(previous, scope, report, cell);
    Filtered(UsageIn(cell), report.providers, usage);
    assert usage in PartOf(report, cell).providers && !scope.Reaches(cell);
    assert |PartOf(Replaced(previous, scope, report), cell).providers| > |PartOf(previous, cell).providers|;
  }

  lemma StrayFailureMisfits(previous: Report, scope: Scope, report: Report, j: nat)
    requires j < |report.failures|
    requires !scope.Matches(report.failures[j].provider, report.failures[j].accountRef)
    ensures !PartFits(previous, scope, report,
                      Cell(report.failures[j].provider, IdOf(report.failures[j].accountRef)))
  {
    var failure := report.failures[j];
    var cell := Cell(failure.provider, IdOf(failure.accountRef));
    hide Replaced;
    ReplacedConcat(previous, scope, report, cell);
    Filtered(FailureIn(cell), report.failures, failure);
    assert failure in PartOf(report, cell).failures && !scope.Reaches(cell);
    assert |PartOf(Replaced(previous, scope, report), cell).failures| > |PartOf(previous, cell).failures|;
  }

  /** The refresh is merged into a snapshot that keeps something of its own. */
  predicate MergedInto(generation: nat, refreshes: seq<Refresh>, j: int) {
    && 0 <= j < |refreshes|
    && refreshes[j].scope.Allowed(refreshes[j].enabled)
    && !refreshes[j].scope.Full(refreshes[j].enabled)
    && Merged(generation, refreshes[..j]).Some?
  }

  ghost predicate AllWithin(generation: nat, refreshes: seq<Refresh>) {
    forall j :: MergedInto(generation, refreshes, j) ==> Within(refreshes[j].report, refreshes[j].scope)
  }

  lemma WithinBefore(generation: nat, refreshes: seq<Refresh>, n: nat)
    requires AllWithin(generation, refreshes) && n <= |refreshes|
    ensures AllWithin(generation, refreshes[..n])
  {
    hide Within, Merged;
    forall j | MergedInto(generation, refreshes[..n], j)
      ensures Within(refreshes[..n][j].report, refreshes[..n][j].scope)
    {
      assert refreshes[..n][..j] == refreshes[..j];
      assert MergedInto(generation, refreshes, j);
    }
  }

  lemma LastWithin(generation: nat, refreshes: seq<Refresh>)
    requires AllWithin(generation, refreshes) && refreshes != [] && MergedInto(generation, refreshes, |refreshes| - 1)
    ensures Within(refreshes[|refreshes| - 1].report, refreshes[|refreshes| - 1].scope)
  {
    hide MergedInto, Within;
  }

  /** Once there is a snapshot, every cell has a latest refresh that covers it. */
  lemma {:induction false} LatestExists(generation: nat, refreshes: seq<Refresh>, cell: Cell) returns (i: int)
    requires Merged(generation, refreshes).Some?
    ensures Latest(refreshes, cell, i)
    ensures Merged(generation, refreshes).value.generation == generation
  {
    hide Replaced;
    var n := |refreshes| - 1;
    var before, last := refreshes[..n], refreshes[n];
    if Merged(generation, before).Some? {
      i := LatestExists(generation, before, cell);
    }
    if Covers(last, cell) {
      i := n;
    }
  }

  /**
    Within one generation, after any sequence of full, provider and account refreshes whose merged
    reports stay within their scopes, every cell of the snapshot is what the latest refresh covering
    it reported; and there is such a refresh.
   */
  lemma {:induction false} LatestReportWins(generation: nat, refreshes: seq<Refresh>, cell: Cell) returns (i: int)
    requires AllWithin(generation, refreshes) && Merged(generation, refreshes).Some?
    ensures Latest(refreshes, cell, i)
    ensures Merged(generation, refreshes).value.generation == generation
    ensures PartOf(Merged(generation, refreshes).value.report, cell) == PartOf(refreshes[i].report, cell)
  {
    hide PartOf, Within, Replaced, AllWithin;
    var n := |refreshes| - 1;
    var before, last := refreshes[..n], refreshes[n];
    WithinBefore(generation, refreshes, n);
    if last.scope.Full(last.enabled) {
      i := n;
    } else {
      var k := LatestReportWins(generation, before, cell);
      i := if Covers(last, cell) then n else k;
      if last.scope.Allowed(last.enabled) {
        LastWithin(generation, refreshes);
        ReplacedPart(Merged(generation, before).value.report, last.scope, last.report, cell);
      }
    }
  }

  /** The snapshot's cells are what the latest refreshes covering them reported. */
  ghost predicate Refined(generation: nat, refreshes: seq<Refresh>) {
    Merged(generation, refreshes).Some? ==>
      forall cell, i :: Latest(refreshes, cell, i) ==>
        PartOf(Merged(generation, refreshes).value.report, cell) == PartOf(refreshes[i].report, cell)
  }

  lemma WithinRefined(generation: nat, refreshes: seq<Refresh>)
    requires AllWithin(generation, refreshes)
    ensures Refined(generation, refreshes)
  {
    hide AllWithin, PartOf, Merged;
    if Merged(generation, refreshes).Some? {
      forall cell, i | Latest(refreshes, cell, i)
        ensures PartOf(Merged(generation, refreshes).value.report, cell) == PartOf(refreshes[i].report, cell)
      {
        var k := LatestReportWins(generation, refreshes, cell);
        assert k == i;
      }
    }
  }

  /** A scoped merge between two refined snapshots fits every cell. */
  lemma RefinedFits(generation: nat, refreshes: seq<Refresh>, j: nat, cell: Cell)
    requires MergedInto(generation, refreshes, j)
    requires Refined(generation, refreshes[..j]) && Refined(generation, refreshes[..j + 1])
    ensures PartFits(Merged(generation, refreshes[..j]).value.report, refreshes[j].scope, refreshes[j].report, cell)
  {
    var before, upTo := refreshes[..j], refreshes[..j + 1];
    assert upTo[..j] == before;
    var i := LatestExists(generation, before, cell);
    hide PartOf;
    assert Merged(generation, upTo).value.report ==
           Replaced(Merged(generation, before).value.report, refreshes[j].scope, refreshes[j].report);
    hide Merged, Replaced;
    assert Latest(upTo, cell, if refreshes[j].scope.Reaches(cell) then j else i);
  }

  /**
    The refinement holds after every one of a sequence of refreshes exactly when each report that is
    merged into a snapshot stays within its scope.
   */
  lemma RefinementIff(generation: nat, refreshes: seq<Refresh>)
    ensures (forall n :: 0 <= n <= |refreshes| ==> Refined(generation, refreshes[..n])) <==>
            AllWithin(generation, refreshes)
  {
    hide Refined, Within, Merged;
    if AllWithin(generation, refreshes) {
      forall n | 0 <= n <= |refreshes| ensures Refined(generation, refreshes[..n]) {
        WithinBefore(generation, refreshes, n);
        WithinRefined(generation, refreshes[..n]);
      }
    }
    if forall n :: 0 <= n <= |refreshes| ==> Refined(generation, refreshes[..n]) {
      forall j | MergedInto(generation, refreshes, j) ensures Within(refreshes[j].report, refreshes[j].scope) {
        var previous := Merged(generation, refreshes[..j]).value.report;
        forall cell ensures PartFits(previous, refreshes[j].scope, refreshes[j].report, cell) {
          RefinedFits(generation, refreshes, j, cell);
        }
        FitsIffWithin(previous, refreshes[j].scope, refreshes[j].report);
      }
    }
  }

  /** Entries outside the scope keep their content and order exactly when the report adds none of its own there. */
  lemma OutOfScopeUntouched(previous: Report, scope: Scope, report: Report)
    ensures Filter(MatchingUsage(scope, false), Replaced(previous, scope, report).providers) ==
            Filter(MatchingUsage(scope, false), previous.providers)
            && Filter(MatchingFailure(scope, false), Replaced(previous, scope, report).failures) ==
               Filter(MatchingFailure(scope, false), previous.failures)
            <==> Within(report, scope)
  {
    var outU, outF := MatchingUsage(scope, false), MatchingFailure(scope, false);
    FilterConcat(outU, Filter(outU, previous.providers), report.providers);
    FilterConcat(outF, Filter(outF, previous.failures), report.failures);
    FilterFiltered(outU, outU, previous.providers);
    FilterFiltered(outF, outF, previous.failures);
    NoneOutside(outU, report.providers);
    NoneOutside(outF, report.failures);
  }

  lemma NoneOutside<T>(out: T -> bool, s: seq<T>)
    ensures Filter(out, s) == [] <==> forall i :: 0 <= i < |s| ==> !out(s[i])
  {
    if Filter(out, s) == [] {
      forall i | 0 <= i < |s| ensures !out(s[i]) {
        Filtered(out, s, s[i]);
      }
    } else if forall i :: 0 <= i < |s| ==> !out(s[i]) {
      FilterNone(out, s);
    }
  }

  predicate Distinct(s: seq<string>) {
    forall i, j :: 0 <= i < j < |s| ==> s[i] != s[j]
  }

  function Names(s: seq<string>): set<string> {
    set x | x in s
  }

  lemma NamesAdd(s: seq<string>)
    ensures s == [] ==> Names(s) == {}
    ensures s != [] ==> Names(s) == Names(s[..|s| - 1]) + {s[|s| - 1]}
  {
  }

  lemma {:induction false} DistinctSize(s: seq<string>)
    requires Distinct(s)
    ensures |Names(s)| == |s|
  {
    NamesAdd(s);
    if s != [] {
      var n := |s| - 1;
      DistinctSize(s[..n]);
      assert s[n] !in Names(s[..n]);
    }
  }

  /** A selection that repeats none and passes the length test asks for exactly the enabled providers. */
  lemma FullAsksForAll(scope: Scope, enabled: seq<string>, provider: string)
    requires scope.Full(enabled) && Distinct(scope.selected)
    ensures provider in scope.selected <==> provider in enabled
  {
    var a, b := Names(scope.selected), Names(enabled);
    DistinctSize(scope.selected);
    SizeAtMost(enabled);
    assert a <= b;
    assert b == a + (b - a);
    assert |b - a| == 0;
    assert provider in a <==> provider in b;
  }

  lemma {:induction false} SizeAtMost(s: seq<string>)
    ensures |Names(s)| <= |s|
    ensures !Distinct(s) ==> |Names(s)| < |s|
  {
    hide Names, Distinct;
    NamesAdd(s);
    if s == [] {
      NoneRepeats(s);
    } else {
      SizeAtMost(s[..|s| - 1]);
      if !Distinct(s) && Distinct(s[..|s| - 1]) {
        LastRepeats(s);
      }
    }
  }

  lemma NoneRepeats(s: seq<string>)
    requires s == []
    ensures Distinct(s)
  {
  }

  lemma LastRepeats(s: seq<string>)
    requires s != [] && !Distinct(s) && Distinct(s[..|s| - 1])
    ensures Names(s[..|s| - 1]) + {s[|s| - 1]} == Names(s[..|s| - 1])
  {
    var n := |s| - 1;
    var i :| 0 <= i < n && s[i] == s[n];
    assert s[n] == s[..n][i];
  }

  /** Of selections that pass the length test, exactly those that repeat none ask for every enabled provider. */
  lemma FullIffDistinct(scope: Scope, enabled: seq<string>)
    requires scope.Full(enabled) && Distinct(enabled)
    ensures (forall i :: 0 <= i < |enabled| ==> enabled[i] in scope.selected) <==> Distinct(scope.selected)
  {
    if Distinct(scope.selected) {
      forall i | 0 <= i < |enabled| ensures enabled[i] in scope.selected {
        FullAsksForAll(scope, enabled, enabled[i]);
      }
    } else {
      var a, b := Names(scope.selected), Names(enabled);
      SizeAtMost(scope.selected);
      DistinctSize(enabled);
      assert b <= a ==> a == b + (a - b);
      assert !(b <= a);
    }
  }
}
