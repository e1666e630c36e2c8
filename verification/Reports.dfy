/** Usage reports (src/domain.rs) and the diagnostics they carry as failures. */
module Reports {
  import opened Results

  datatype ErrorCode = Transient | Cancelled | Timeout | Internal | InvalidData | Authentication | Coded(number: nat)

  datatype AccountRef = AccountRef(id: string, title: string)
  datatype AccountIdentity = AccountIdentity(id: string, title: string, plan: Option<string>)
  datatype UsageDiagnostic = UsageDiagnostic(source: string, code: ErrorCode)
  datatype ResetCredits = ResetCredits(count: nat, earliestExpiry: Option<int>, fetchedAt: int)
  {
    /** Observed in the past, and no counted credit has expired since. */
    predicate ValidAt(now: int) {
      now >= fetchedAt && (earliestExpiry.None? || earliestExpiry.value > now)
    }
  }

  /** `content` is what identifies a window; `wellFormed` is the check on its quota and amounts. */
  datatype QuotaWindow = QuotaWindow(content: string, wellFormed: bool, fetchedAt: int)

  datatype Usage = Usage(
    provider: string, accountRef: Option<AccountRef>, account: AccountIdentity,
    windows: seq<QuotaWindow>, resetCredits: Option<ResetCredits>, diagnostics: seq<UsageDiagnostic>)

  datatype ReportFailure = ReportFailure(provider: string, accountRef: Option<AccountRef>, code: ErrorCode)
  datatype Report = Report(generatedAt: int, providers: seq<Usage>, failures: seq<ReportFailure>)

  function IdOf(ref: Option<AccountRef>): Option<string> {
    if ref.Some? then Some(ref.value.id) else None
  }

  predicate Covers(failure: ReportFailure, usage: Usage, code: ErrorCode) {
    failure.provider == usage.provider && IdOf(failure.accountRef) == IdOf(usage.accountRef) && failure.code == code
  }

  predicate Covered(failures: seq<ReportFailure>, usage: Usage, code: ErrorCode) {
    exists i :: 0 <= i < |failures| && Covers(failures[i], usage, code)
  }

  predicate AllCovered(failures: seq<ReportFailure>, usages: seq<Usage>) {
    forall i, j :: 0 <= i < |usages| && 0 <= j < |usages[i].diagnostics| ==>
      Covered(failures, usages[i], usages[i].diagnostics[j].code)
  }

  function Note(failures: seq<ReportFailure>, usage: Usage, code: ErrorCode): seq<ReportFailure> {
    if Covered(failures, usage, code) then failures
    else failures + [ReportFailure(usage.provider, usage.accountRef, code)]
  }

  function NoteAll(failures: seq<ReportFailure>, usage: Usage, diagnostics: seq<UsageDiagnostic>): seq<ReportFailure>
    decreases |diagnostics|
  {
    if diagnostics == [] then failures
    else NoteAll(Note(failures, usage, diagnostics[0].code), usage, diagnostics[1..])
  }

  /** The failures of a report after every diagnostic of its usages has been noted. */
  function Included(failures: seq<ReportFailure>, usages: seq<Usage>): seq<ReportFailure>
    decreases |usages|
  {
    if usages == [] then failures
    else Included(NoteAll(failures, usages[0], usages[0].diagnostics), usages[1..])
  }

  class UsageReport {
    var generatedAt: int
    var providers: seq<Usage>
    var failures: seq<ReportFailure>

    constructor (report: Report)
      ensures generatedAt == report.generatedAt && providers == report.providers && failures == report.failures
    {
      generatedAt, providers, failures := report.generatedAt, report.providers, report.failures;
    }

    method IncludeDiagnostics()
      modifies this`failures
      ensures failures == Included(old(failures), providers)
    {
      for i := 0 to |providers|
        invariant Included(old(failures), providers) == Included(failures, providers[i..])
      {
        var usage := providers[i];
        assert providers[i..][0] == usage && providers[i..][1..] == providers[i + 1..];
        ghost var before := failures;
        for j := 0 to |usage.diagnostics|
          invariant NoteAll(before, usage, usage.diagnostics) == NoteAll(failures, usage, usage.diagnostics[j..])
        {
          var code := usage.diagnostics[j].code;
          assert usage.diagnostics[j..][1..] == usage.diagnostics[j + 1..];
          if !Covered(failures, usage, code) {
            failures := failures + [ReportFailure(usage.provider, usage.accountRef, code)];
          }
        }
      }
    }
  }

  // ------------------------------------------------------------------ properties

  predicate SameFailure(a: ReportFailure, b: ReportFailure) {
    a.provider == b.provider && IdOf(a.accountRef) == IdOf(b.accountRef) && a.code == b.code
  }

  /** `after` extends `before` with failures that differ from each other and from those already there. */
  ghost predicate Grows(before: seq<ReportFailure>, after: seq<ReportFailure>) {
    && before <= after
    && forall i, j :: 0 <= i < j < |after| && |before| <= j ==> !SameFailure(after[i], after[j])
  }

  lemma GrowsTransitive(a: seq<ReportFailure>, b: seq<ReportFailure>, c: seq<ReportFailure>)
    requires Grows(a, b) && Grows(b, c)
    ensures Grows(a, c)
  {
  }

  lemma CoverGrows(a: seq<ReportFailure>, b: seq<ReportFailure>, usage: Usage, code: ErrorCode)
    requires a <= b && Covered(a, usage, code)
    ensures Covered(b, usage, code)
  {
  }

  lemma NoteGrows(failures: seq<ReportFailure>, usage: Usage, code: ErrorCode)
    ensures Grows(failures, Note(failures, usage, code)) && Covered(Note(failures, usage, code), usage, code)
  {
    if !Covered(failures, usage, code) {
      assert Covers(Note(failures, usage, code)[|failures|], usage, code);
    }
  }

  lemma {:induction false} NoteAllGrows(failures: seq<ReportFailure>, usage: Usage, diagnostics: seq<UsageDiagnostic>)
    ensures var noted := NoteAll(failures, usage, diagnostics);
      && Grows(failures, noted)
      && forall j :: 0 <= j < |diagnostics| ==> Covered(noted, usage, diagnostics[j].code)
    decreases |diagnostics|
  {
    hide Grows, Covered, Note;
    if diagnostics == [] {
      GrowsNot(failures);
    } else {
      var first := Note(failures, usage, diagnostics[0].code);
      var noted := NoteAll(failures, usage, diagnostics);
      NoteGrows(failures, usage, diagnostics[0].code);
      NoteAllGrows(first, usage, diagnostics[1..]);
      GrowsTransitive(failures, first, noted);
      GrowsPrefix(first, noted);
      CoverGrows(first, noted, usage, diagnostics[0].code);
      forall j | 0 <= j < |diagnostics| ensures Covered(noted, usage, diagnostics[j].code) {
        assert j > 0 ==> diagnostics[j] == diagnostics[1..][j - 1];
      }
    }
  }

  lemma GrowsNot(failures: seq<ReportFailure>)
    ensures Grows(failures, failures)
  {
  }

  lemma GrowsPrefix(a: seq<ReportFailure>, b: seq<ReportFailure>)
    requires Grows(a, b)
    ensures a <= b
  {
  }

  /** Every diagnostic ends up covered, nothing is removed or reordered, and nothing is added twice. */
  lemma {:induction false} IncludedCoversAll(failures: seq<ReportFailure>, usages: seq<Usage>)
    ensures Grows(failures, Included(failures, usages)) && AllCovered(Included(failures, usages), usages)
    decreases |usages|
  {
    hide Grows, Covered;
    if usages == [] {
      GrowsNot(failures);
    } else {
      var usage, included := usages[0], Included(failures, usages);
      var noted := NoteAll(failures, usage, usage.diagnostics);
      NoteAllGrows(failures, usage, usage.diagnostics);
      IncludedCoversAll(noted, usages[1..]);
      GrowsTransitive(failures, noted, included);
      GrowsPrefix(noted, included);
      forall i, j | 0 <= i < |usages| && 0 <= j < |usages[i].diagnostics|
        ensures Covered(included, usages[i], usages[i].diagnostics[j].code)
      {
        if i == 0 {
          CoverGrows(noted, included, usage, usage.diagnostics[j].code);
        } else {
          assert usages[i] == usages[1..][i - 1];
        }
      }
    }
  }

  /** The failure says what some diagnostic of one of the usages says. */
  ghost predicate Says(usages: seq<Usage>, failure: ReportFailure) {
    exists i, j :: 0 <= i < |usages| && 0 <= j < |usages[i].diagnostics|
                   && failure == ReportFailure(usages[i].provider, usages[i].accountRef, usages[i].diagnostics[j].code)
  }

  /** Every failure that is added says what a diagnostic says. */
  lemma {:induction false} IncludedOnlyDiagnostics(failures: seq<ReportFailure>, usages: seq<Usage>)
    ensures |failures| <= |Included(failures, usages)|
    ensures forall k :: |failures| <= k < |Included(failures, usages)| ==> Says(usages, Included(failures, usages)[k])
    decreases |usages|
  {
    if usages != [] {
      var usage := usages[0];
      var noted := NoteAll(failures, usage, usage.diagnostics);
      NotedOnly(failures, usage, usage.diagnostics, usages, 0);
      IncludedCoversAll(noted, usages[1..]);
      IncludedOnlyDiagnostics(noted, usages[1..]);
      var included := Included(failures, usages);
      forall k | |failures| <= k < |included| ensures Says(usages, included[k]) {
        if k < |noted| {
          assert included[k] == noted[k];
        } else {
          SaysMore(usages, included[k]);
        }
      }
    }
  }

  lemma SaysMore(usages: seq<Usage>, failure: ReportFailure)
    requires usages != [] && Says(usages[1..], failure)
    ensures Says(usages, failure)
  {
    var rest := usages[1..];
    var i, j :| 0 <= i < |rest| && 0 <= j < |rest[i].diagnostics|
      && failure == ReportFailure(rest[i].provider, rest[i].accountRef, rest[i].diagnostics[j].code);
    assert usages[i + 1] == rest[i] && usages[i + 1].diagnostics[j].code == failure.code;
  }

  lemma {:induction false} NotedOnly(failures: seq<ReportFailure>, usage: Usage, diagnostics: seq<UsageDiagnostic>,
                                     usages: seq<Usage>, from: nat)
    requires usages != [] && usages[0] == usage
    requires from <= |usage.diagnostics| && diagnostics == usage.diagnostics[from..]
    ensures var noted := NoteAll(failures, usage, diagnostics);
      failures <= noted && forall k :: |failures| <= k < |noted| ==> Says(usages, noted[k])
    decreases |diagnostics|
  {
    if diagnostics != [] {
      assert usages[0].diagnostics[from].code == diagnostics[0].code;
      NotedOnly(Note(failures, usage, diagnostics[0].code), usage, diagnostics[1..], usages, from + 1);
    }
  }

  lemma {:induction false} NoteAllIdle(failures: seq<ReportFailure>, usage: Usage, diagnostics: seq<UsageDiagnostic>)
    requires forall j :: 0 <= j < |diagnostics| ==> Covered(failures, usage, diagnostics[j].code)
    ensures NoteAll(failures, usage, diagnostics) == failures
  {
    if diagnostics != [] {
      NoteAllIdle(failures, usage, diagnostics[1..]);
    }
  }

  /** Nothing is added to a report whose diagnostics are covered. */
  lemma {:induction false} IncludedIdle(failures: seq<ReportFailure>, usages: seq<Usage>)
    requires AllCovered(failures, usages)
    ensures Included(failures, usages) == failures
  {
    hide Covered;
    if usages != [] {
      NoteAllIdle(failures, usages[0], usages[0].diagnostics);
      forall i, j | 0 <= i < |usages[1..]| && 0 <= j < |usages[1..][i].diagnostics|
        ensures Covered(failures, usages[1..][i], usages[1..][i].diagnostics[j].code)
      {
        assert usages[1..][i] == usages[i + 1];
      }
      IncludedIdle(failures, usages[1..]);
    }
  }

  lemma IncludeTwice(failures: seq<ReportFailure>, usages: seq<Usage>)
    ensures Included(Included(failures, usages), usages) == Included(failures, usages)
  {
    IncludedCoversAll(failures, usages);
    IncludedIdle(Included(failures, usages), usages);
  }

  function AllProviders(reports: seq<Report>): seq<Usage> {
    if reports == [] then [] else reports[0].providers + AllProviders(reports[1..])
  }

  function AllFailures(reports: seq<Report>): seq<ReportFailure> {
    if reports == [] then [] else reports[0].failures + AllFailures(reports[1..])
  }

  /** Joined reports keep their order: part `i` begins where the parts before it end. */
  lemma {:induction false} PartsInOrder(reports: seq<Report>, i: nat)
    requires i < |reports|
    ensures AllProviders(reports) ==
            AllProviders(reports[..i]) + reports[i].providers + AllProviders(reports[i + 1..])
    ensures AllFailures(reports) == AllFailures(reports[..i]) + reports[i].failures + AllFailures(reports[i + 1..])
  {
    if i > 0 {
      PartsInOrder(reports[1..], i - 1);
      assert reports[..i][1..] == reports[1..][..i - 1];
      assert reports[1..][i..] == reports[i + 1..];
    }
  }

  lemma CoverSuffix(a: seq<ReportFailure>, b: seq<ReportFailure>, usage: Usage, code: ErrorCode)
    requires Covered(b, usage, code)
    ensures Covered(a + b, usage, code)
  {
    var i :| 0 <= i < |b| && Covers(b[i], usage, code);
    assert Covers((a + b)[|a| + i], usage, code);
  }

  lemma SameCover(failures: seq<ReportFailure>, a: Usage, b: Usage, code: ErrorCode)
    requires SameDiagnostics(a, b) && Covered(failures, a, code)
    ensures Covered(failures, b, code)
  {
  }

  predicate SameDiagnostics(a: Usage, b: Usage) {
    a.provider == b.provider && a.accountRef == b.accountRef && a.diagnostics == b.diagnostics
  }

  /** One of these usages is for the same account and carries the same diagnostics. */
  predicate Represented(all: seq<Usage>, usage: Usage) {
    exists k :: 0 <= k < |all| && SameDiagnostics(all[k], usage)
  }

  predicate UsageCovered(failures: seq<ReportFailure>, usage: Usage) {
    forall j :: 0 <= j < |usage.diagnostics| ==> Covered(failures, usage, usage.diagnostics[j].code)
  }

  /** Noting the diagnostics of these usages adds nothing exactly when all are covered. */
  lemma {:induction false} IncludedIdleIff(failures: seq<ReportFailure>, usages: seq<Usage>)
    ensures Included(failures, usages) == failures <==>
            forall i :: 0 <= i < |usages| ==> UsageCovered(failures, usages[i])
  {
    hide Covered;
    if Included(failures, usages) == failures {
      IncludedCoversAll(failures, usages);
    } else if forall i :: 0 <= i < |usages| ==> UsageCovered(failures, usages[i]) {
      IncludedIdle(failures, usages);
    }
  }

  /** The usage is, but for its balance, from a part that noted its own diagnostics. */
  predicate FromNoted(reports: seq<Report>, usage: Usage) {
    exists i :: 0 <= i < |reports| && AllCovered(reports[i].failures, reports[i].providers)
                && Represented(reports[i].providers, usage)
  }

  lemma RepresentedCovered(failures: seq<ReportFailure>, all: seq<Usage>, usage: Usage)
    requires AllCovered(failures, all) && Represented(all, usage)
    ensures UsageCovered(failures, usage)
  {
    hide Covered;
    var k :| 0 <= k < |all| && SameDiagnostics(all[k], usage);
    forall j | 0 <= j < |usage.diagnostics| ensures Covered(failures, usage, usage.diagnostics[j].code) {
      SameCover(failures, all[k], usage, all[k].diagnostics[j].code);
    }
  }

  lemma {:induction false} CoveredByPart(reports: seq<Report>, i: nat, usage: Usage)
    requires i < |reports| && UsageCovered(reports[i].failures, usage)
    ensures UsageCovered(AllFailures(reports), usage)
  {
    hide Covered;
    var first, rest := reports[0].failures, AllFailures(reports[1..]);
    if i > 0 {
      CoveredByPart(reports[1..], i - 1, usage);
    }
    forall j | 0 <= j < |usage.diagnostics| ensures Covered(first + rest, usage, usage.diagnostics[j].code) {
      if i == 0 {
        CoverGrows(first, first + rest, usage, usage.diagnostics[j].code);
      } else {
        CoverSuffix(first, rest, usage, usage.diagnostics[j].code);
      }
    }
  }

  lemma FromNotedCovered(reports: seq<Report>, usage: Usage)
    requires FromNoted(reports, usage)
    ensures UsageCovered(AllFailures(reports), usage)
  {
    hide AllCovered, Represented, UsageCovered;
    var i :| 0 <= i < |reports| && AllCovered(reports[i].failures, reports[i].providers)
             && Represented(reports[i].providers, usage);
    RepresentedCovered(reports[i].failures, reports[i].providers, usage);
    CoveredByPart(reports, i, usage);
  }

  /**
    Noting diagnostics again in the whole, whatever is dropped between, adds nothing exactly when every
    usage kept is from a part that noted its own or has all of its diagnostics covered already.
   */
  lemma IncludeAtBothLayers(reports: seq<Report>, kept: seq<Usage>)
    ensures Included(AllFailures(reports), kept) == AllFailures(reports) <==>
            forall i :: 0 <= i < |kept| ==>
              FromNoted(reports, kept[i]) || UsageCovered(AllFailures(reports), kept[i])
  {
    hide FromNoted, UsageCovered;
    IncludedIdleIff(AllFailures(reports), kept);
    forall i | 0 <= i < |kept| && FromNoted(reports, kept[i]) ensures UsageCovered(AllFailures(reports), kept[i]) {
      FromNotedCovered(reports, kept[i]);
    }
  }

  /** What is in the whole is in one of its parts. */
  lemma {:induction false} RepresentedInPart(reports: seq<Report>, usage: Usage) returns (i: nat)
    requires Represented(AllProviders(reports), usage)
    ensures i < |reports| && Represented(reports[i].providers, usage)
  {
    var all, first := AllProviders(reports), reports[0].providers;
    var k :| 0 <= k < |all| && SameDiagnostics(all[k], usage);
    if k < |first| {
      assert SameDiagnostics(first[k], usage);
      i := 0;
    } else {
      assert SameDiagnostics(AllProviders(reports[1..])[k - |first|], usage);
      var rest := RepresentedInPart(reports[1..], usage);
      i := rest + 1;
    }
  }
}
