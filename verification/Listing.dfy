/**
  Which adapters a refresh runs (src/accounts/service.rs, `adapters_with_vault` and `choose`), and so
  which requests it makes.
 */
module AdapterListing {
  import opened Results
  import opened Accounts
  import opened Reports
  import opened Collection
  import opened SnapshotMerge
  import opened RefreshScope
  import opened CachedReports
  import Cache = UsageCache

  /** What the listing asks of the machine and the catalog. */
  datatype Host = Host(
    supportsAccounts: string -> bool,
    keepsAccounts: bool,
    replacesLocal: (string, Credential) -> bool,
    stateDb: Credential -> bool,
    localSources: set<string>,
    title: string -> string)

  const NATIVE: set<string> :=
    {"codex", "antigravity", "factory", "amp", "cursor", "grok", "claude", "copilot", "devin-desktop", "kiro"}
  const SAVED: AccountRef := AccountRef("saved", "Saved accounts")

  /** A provider's own adapter names its local account; the demo provider's names none. */
  function LocalAdapter(host: Host, provider: string): Request {
    Request(provider, if provider == "mock" then None else Some(AccountRef("local", host.title(provider))))
  }

  function SavedAdapter(account: Account): Request {
    Request(account.provider, Some(AccountRef(account.id, account.name)))
  }

  function AccountsOf(accounts: seq<Account>, provider: string): seq<Account> {
    Filter((a: Account) => a.provider == provider, accounts)
  }

  predicate Replaced(host: Host, provider: string, accounts: seq<Account>) {
    exists i :: 0 <= i < |accounts| && host.replacesLocal(provider, accounts[i].credential)
  }

  predicate KeepsLocal(host: Host, provider: string, matching: seq<Account>) {
    && (|| provider in host.localSources
        || matching == []
        || (provider == "antigravity" && exists i :: 0 <= i < |matching| && host.stateDb(matching[i].credential)))
    && !Replaced(host, provider, matching)
  }

  function SavedAdapters(accounts: seq<Account>): (r: seq<Request>)
    ensures |r| == |accounts|
  {
    seq(|accounts|, i requires 0 <= i < |accounts| => SavedAdapter(accounts[i]))
  }

  /** One provider's adapters in a refresh without account. */
  function AdaptersOf(host: Host, provider: string, accounts: Result<seq<Account>, AccountError>): seq<Request> {
    if !host.supportsAccounts(provider) then [LocalAdapter(host, provider)]
    else
      match accounts
      case Success(all) =>
        var matching := AccountsOf(all, provider);
        (if KeepsLocal(host, provider, matching) then [LocalAdapter(host, provider)] else []) + SavedAdapters(matching)
      case Failure(_) =>
        (if provider in host.localSources then [LocalAdapter(host, provider)] else [])
        + [Request(provider, Some(SAVED))]
  }

  function AllAdapters(host: Host, providers: seq<string>, accounts: Result<seq<Account>, AccountError>): seq<Request> {
    if providers == [] then []
    else AdaptersOf(host, providers[0], accounts) + AllAdapters(host, providers[1..], accounts)
  }

  function LocalAdapters(host: Host, providers: seq<string>): (r: seq<Request>)
    ensures |r| == |providers|
  {
    seq(|providers|, i requires 0 <= i < |providers| => LocalAdapter(host, providers[i]))
  }

  function FindAccount(accounts: seq<Account>, id: string, providers: seq<string>): (r: Option<Account>)
    ensures r.Some? ==> r.value in accounts && r.value.id == id && r.value.provider in providers
  {
    if accounts == [] then None
    else if accounts[0].id == id && accounts[0].provider in providers then Some(accounts[0])
    else FindAccount(accounts[1..], id, providers)
  }

  function Choose(host: Host, providers: seq<string>, filter: Option<string>,
                  accounts: Result<seq<Account>, AccountError>): Result<seq<Request>, AccountError>
  {
    match filter
    case None => Success(AllAdapters(host, providers, accounts))
    case Some(id) =>
      match accounts
      case Failure(error) => Failure(error)
      case Success(all) =>
        var found := FindAccount(all, id, providers);
        if found.None? then Failure(NotFound) else Success([SavedAdapter(found.value)])
  }

  /** `vault` is the error of opening it, or what discovering its accounts comes to. */
  function Listed(host: Host, providers: seq<string>, saved: bool, filter: Option<string>,
                  vault: Result<Result<seq<Account>, AccountError>, AccountError>): Result<seq<Request>, AccountError>
  {
    if filter.Some? && |providers| != 1 then Failure(Unsupported)
    else if filter == Some("local") then
      if saved && providers[0] in NATIVE then
        if vault.Failure? then Failure(vault.error)
        else if vault.value.Failure? then Failure(vault.value.error)
        else if Replaced(host, providers[0], AccountsOf(vault.value.value, providers[0])) then Failure(Unsupported)
        else Success(LocalAdapters(host, providers))
      else Success(LocalAdapters(host, providers))
    else if !saved || !host.keepsAccounts then
      if filter.Some? then Failure(Unsupported) else Success(LocalAdapters(host, providers))
    else if forall i :: 0 <= i < |providers| ==> !host.supportsAccounts(providers[i]) then
      if filter.Some? then Failure(NotFound) else Success(LocalAdapters(host, providers))
    else if vault.Failure? then Failure(vault.error)
    else Choose(host, providers, filter, vault.value)
  }

  /**
    The requests of a refresh, if it makes any: when its adapters cannot be listed, one with an account
    ends in an error, and one without reports a failure for each provider.
   */
  function RefreshRequests(host: Host, scope: Scope, saved: bool,
                           vault: Result<Result<seq<Account>, AccountError>, AccountError>): Option<seq<Request>>
  {
    match Listed(host, scope.selected, saved, scope.account, vault)
    case Success(requests) => Some(requests)
    case Failure(_) =>
      if scope.account.Some? then None
      else Some(seq(|scope.selected|, i requires 0 <= i < |scope.selected| => Request(scope.selected[i], None)))
  }

  lemma AdaptersNext(host: Host, providers: seq<string>, accounts: Result<seq<Account>, AccountError>, i: nat)
    requires i <= |providers|
    ensures AllAdapters(host, providers[i..], accounts) ==
            if i == |providers| then []
            else AdaptersOf(host, providers[i], accounts) + AllAdapters(host, providers[i + 1..], accounts)
  {
    hide AdaptersOf;
    if i < |providers| {
      assert providers[i..][1..] == providers[i + 1..];
    }
  }

  /** The adapters of a refresh without account, pushed one after the other. */
  method Select(host: Host, providers: seq<string>, accounts: Result<seq<Account>, AccountError>)
    returns (selected: seq<Request>)
    ensures selected == AllAdapters(host, providers, accounts)
  {
    hide AdaptersOf, AllAdapters;
    selected := [];
    assert providers[0..] == providers;
    for i := 0 to |providers|
      invariant AllAdapters(host, providers, accounts) == selected + AllAdapters(host, providers[i..], accounts)
    {
      AdaptersNext(host, providers, accounts, i);
      var own := SelectOne(host, providers[i], accounts);
      selected := selected + own;
    }
    AdaptersNext(host, providers, accounts, |providers|);
  }

  method SelectOne(host: Host, provider: string, accounts: Result<seq<Account>, AccountError>)
    returns (selected: seq<Request>)
    ensures selected == AdaptersOf(host, provider, accounts)
  {
    if !host.supportsAccounts(provider) {
      return [LocalAdapter(host, provider)];
    }
    selected := [];
    match accounts {
      case Success(all) =>
        var matching := AccountsOf(all, provider);
        if KeepsLocal(host, provider, matching) {
          selected := selected + [LocalAdapter(host, provider)];
        }
        ghost var first := selected;
        for i := 0 to |matching|
          invariant selected == first + SavedAdapters(matching)[..i]
        {
          selected := selected + [SavedAdapter(matching[i])];
        }
      case Failure(_) =>
        if provider in host.localSources {
          selected := selected + [LocalAdapter(host, provider)];
        }
        selected := selected + [Request(provider, Some(SAVED))];
    }
  }

  // ------------------------------------------------------------------ which adapters are listed

  /** Saved accounts of the provider take the place of its local one, unless that has a source of its own. */
  ghost predicate RunsLocal(host: Host, provider: string, accounts: Result<seq<Account>, AccountError>) {
    || !host.supportsAccounts(provider)
    || match accounts
       case Failure(_) => provider in host.localSources
       case Success(all) =>
         && (|| provider in host.localSources
             || (forall i :: 0 <= i < |all| ==> all[i].provider != provider)
             || (provider == "antigravity"
                 && exists i :: 0 <= i < |all| && all[i].provider == provider && host.stateDb(all[i].credential)))
         && forall i :: 0 <= i < |all| && all[i].provider == provider ==>
              !host.replacesLocal(provider, all[i].credential)
  }

  /** What a provider's adapters are: its local one or not, each saved account, and one failure if none can be read. */
  lemma ProviderListed(host: Host, provider: string, accounts: Result<seq<Account>, AccountError>, request: Request)
    ensures request in AdaptersOf(host, provider, accounts) <==>
      || (request == LocalAdapter(host, provider) && RunsLocal(host, provider, accounts))
      || (host.supportsAccounts(provider) &&
          match accounts
          case Failure(_) => request == Request(provider, Some(AccountRef("saved", "Saved accounts")))
          case Success(all) =>
            exists i :: 0 <= i < |all| && all[i].provider == provider
                        && request == Request(provider, Some(AccountRef(all[i].id, all[i].name))))
  {
    if host.supportsAccounts(provider) && accounts.Success? {
      var matching := AccountsOf(accounts.value, provider);
      MatchingIs(accounts.value, provider);
      LocalIs(host, provider, accounts.value);
      SavedHas(matching, request);
      SavedListed(accounts.value, provider, request);
    }
  }

  lemma SavedHas(accounts: seq<Account>, request: Request)
    ensures request in SavedAdapters(accounts) <==>
            exists i :: 0 <= i < |accounts| && request == SavedAdapter(accounts[i])
  {
    if i :| 0 <= i < |accounts| && request == SavedAdapter(accounts[i]) {
      assert SavedAdapters(accounts)[i] == request;
    }
  }

  lemma MatchingIs(accounts: seq<Account>, provider: string)
    ensures forall a :: a in AccountsOf(accounts, provider) <==> a in accounts && a.provider == provider
  {
    forall a ensures a in AccountsOf(accounts, provider) <==> a in accounts && a.provider == provider {
      Filtered((a: Account) => a.provider == provider, accounts, a);
    }
  }

  lemma LocalIs(host: Host, provider: string, all: seq<Account>)
    requires host.supportsAccounts(provider)
    ensures KeepsLocal(host, provider, AccountsOf(all, provider)) <==> RunsLocal(host, provider, Success(all))
  {
    var matching := AccountsOf(all, provider);
    MatchingIs(all, provider);
    hide AccountsOf;
    assert matching == [] <==> forall a :: a in all ==> a.provider != provider by {
      if matching != [] {
        assert matching[0] in matching;
      }
      if a :| a in all && a.provider == provider {
        assert a in matching;
      }
    }
    assert Replaced(host, provider, matching) <==>
           exists a :: a in matching && host.replacesLocal(provider, a.credential);
  }

  lemma SavedListed(all: seq<Account>, provider: string, request: Request)
    ensures var matching := AccountsOf(all, provider);
      (exists i :: 0 <= i < |matching| && request == SavedAdapter(matching[i])) <==>
      exists i :: 0 <= i < |all| && all[i].provider == provider
                  && request == Request(provider, Some(AccountRef(all[i].id, all[i].name)))
  {
    var matching := AccountsOf(all, provider);
    MatchingIs(all, provider);
    hide AccountsOf;
    if i :| 0 <= i < |matching| && request == SavedAdapter(matching[i]) {
      assert matching[i] in all;
      var j :| 0 <= j < |all| && all[j] == matching[i];
      assert request == Request(provider, Some(AccountRef(all[j].id, all[j].name)));
    }
    if i :| 0 <= i < |all| && all[i].provider == provider
            && request == Request(provider, Some(AccountRef(all[i].id, all[i].name))) {
      assert all[i] in matching;
    }
  }

  /** A refresh without account runs the adapters of each selected provider in turn. */
  lemma {:induction false} ProvidersInOrder(
    host: Host, providers: seq<string>, accounts: Result<seq<Account>, AccountError>, i: nat)
    requires i < |providers|
    ensures AllAdapters(host, providers, accounts) ==
            AllAdapters(host, providers[..i], accounts) + AdaptersOf(host, providers[i], accounts)
            + AllAdapters(host, providers[i + 1..], accounts)
  {
    hide AdaptersOf;
    if i > 0 {
      ProvidersInOrder(host, providers[1..], accounts, i - 1);
      assert providers[..i][1..] == providers[1..][..i - 1] && providers[1..][i..] == providers[i + 1..];
    }
  }

  /**
    A refresh of the local account, or one that looks at no saved accounts, runs the providers' own
    adapters; the former is refused while a saved account stands for the local one.
   */
  lemma LocalListed(host: Host, providers: seq<string>, saved: bool, accounts: seq<Account>)
    ensures !saved || !host.keepsAccounts ==>
      Listed(host, providers, saved, None, Success(Success(accounts)))
      == Success(seq(|providers|, i requires 0 <= i < |providers| => LocalAdapter(host, providers[i])))
    ensures |providers| == 1 ==>
      Listed(host, providers, saved, Some("local"), Success(Success(accounts))) ==
      if saved && providers[0] in NATIVE
         && exists i :: 0 <= i < |accounts| && accounts[i].provider == providers[0]
                        && host.replacesLocal(providers[0], accounts[i].credential)
      then Failure(Unsupported) else Success([LocalAdapter(host, providers[0])])
  {
    assert LocalAdapters(host, providers)
           == seq(|providers|, i requires 0 <= i < |providers| => LocalAdapter(host, providers[i]));
    if |providers| == 1 {
      assert LocalAdapters(host, providers) == [LocalAdapter(host, providers[0])];
      ReplacedIs(host, providers[0], accounts);
    }
  }

  lemma ReplacedIs(host: Host, provider: string, accounts: seq<Account>)
    ensures Replaced(host, provider, AccountsOf(accounts, provider)) <==>
            exists i :: 0 <= i < |accounts| && accounts[i].provider == provider
                        && host.replacesLocal(provider, accounts[i].credential)
  {
    var matching := AccountsOf(accounts, provider);
    MatchingIs(accounts, provider);
    hide AccountsOf;
    if i :| 0 <= i < |accounts| && accounts[i].provider == provider
            && host.replacesLocal(provider, accounts[i].credential) {
      assert accounts[i] in matching;
    }
    if i :| 0 <= i < |matching| && host.replacesLocal(provider, matching[i].credential) {
      assert matching[i] in accounts;
    }
  }

  /** A refresh of a saved account runs that account's adapter, if it is stored under the selected provider. */
  lemma {:induction false} AccountListed(host: Host, provider: string, id: string, accounts: seq<Account>)
    requires id != "local" && host.keepsAccounts && host.supportsAccounts(provider)
    ensures match Listed(host, [provider], true, Some(id), Success(Success(accounts)))
      case Failure(error) => error == NotFound && forall i :: 0 <= i < |accounts| ==>
          accounts[i].id != id || accounts[i].provider != provider
      case Success(requests) =>
        exists i :: 0 <= i < |accounts| && accounts[i].id == id && accounts[i].provider == provider
                    && requests == [Request(provider, Some(AccountRef(id, accounts[i].name)))]
  {
    assert !(forall i :: 0 <= i < |[provider]| ==> !host.supportsAccounts([provider][i])) by {
      assert [provider][0] == provider;
    }
    AccountFound(accounts, id, provider);
  }

  lemma {:induction false} AccountFound(accounts: seq<Account>, id: string, provider: string)
    ensures match FindAccount(accounts, id, [provider])
      case None => forall i :: 0 <= i < |accounts| ==> accounts[i].id != id || accounts[i].provider != provider
      case Some(a) => exists i :: 0 <= i < |accounts| && accounts[i] == a && a.id == id && a.provider == provider
  {
    if accounts != [] && !(accounts[0].id == id && accounts[0].provider in [provider]) {
      AccountFound(accounts[1..], id, provider);
      if FindAccount(accounts, id, [provider]).Some? {
        var i :| 0 <= i < |accounts[1..]| && accounts[1..][i] == FindAccount(accounts, id, [provider]).value;
        assert accounts[i + 1] == accounts[1..][i];
      } else {
        forall i | 0 <= i < |accounts| ensures accounts[i].id != id || accounts[i].provider != provider {
          if i > 0 {
            assert accounts[i] == accounts[1..][i - 1];
          }
        }
      }
    }
  }

  // ------------------------------------------------------------------ which refreshes go out of scope

  predicate AllOf(requests: seq<Request>, provider: string) {
    forall i :: 0 <= i < |requests| ==> requests[i].provider == provider
  }

  lemma AccountsOfProvider(accounts: seq<Account>, provider: string, i: nat)
    requires i < |AccountsOf(accounts, provider)|
    ensures AccountsOf(accounts, provider)[i].provider == provider && AccountsOf(accounts, provider)[i] in accounts
  {
    Filtered((a: Account) => a.provider == provider, accounts, AccountsOf(accounts, provider)[i]);
  }

  lemma AdaptersOfProvider(host: Host, provider: string, accounts: Result<seq<Account>, AccountError>)
    ensures AllOf(AdaptersOf(host, provider, accounts), provider)
  {
    if accounts.Success? {
      var matching := AccountsOf(accounts.value, provider);
      forall i | 0 <= i < |matching| ensures SavedAdapters(matching)[i].provider == provider {
        AccountsOfProvider(accounts.value, provider, i);
      }
    }
  }

  lemma {:induction false} AllAdaptersSelected(
    host: Host, providers: seq<string>, accounts: Result<seq<Account>, AccountError>)
    ensures forall r :: r in AllAdapters(host, providers, accounts) ==> r.provider in providers
  {
    hide AdaptersOf;
    if providers != [] {
      AdaptersOfProvider(host, providers[0], accounts);
      AllAdaptersSelected(host, providers[1..], accounts);
    }
  }

  /** The refresh asks for the demo provider's local account. */
  predicate MockLocal(scope: Scope) {
    scope.account == Some("local") && "mock" in scope.selected
  }

  lemma {:induction false} EachMatches(requests: seq<Request>, scope: Scope)
    requires forall r :: r in requests ==> scope.Matches(r.provider, r.accountRef)
    ensures AllMatch(requests, scope)
  {
    forall i | 0 <= i < |requests| ensures scope.Matches(requests[i].provider, requests[i].accountRef) {
      assert requests[i] in requests;
    }
  }

  /** Whatever is stored and however the machine is set up, only the demo provider's local account is missed. */
  lemma {:induction false} ListedMatchesIff(host: Host, scope: Scope, saved: bool,
                         vault: Result<Result<seq<Account>, AccountError>, AccountError>)
    requires RefreshRequests(host, scope, saved, vault).Some?
    ensures AllMatch(RefreshRequests(host, scope, saved, vault).value, scope) <==> !MockLocal(scope)
  {
    hide AllAdapters, Replaced, AllMatch;
    var requests := RefreshRequests(host, scope, saved, vault).value;
    if scope.account == Some("local") {
      LocalMatchesIff(host, scope);
    } else {
      if scope.account.None? && vault.Success? {
        AllAdaptersSelected(host, scope.selected, vault.value);
      }
      EachMatches(requests, scope);
    }
  }

  lemma LocalMatchesIff(host: Host, scope: Scope)
    requires scope.account == Some("local") && |scope.selected| == 1
    ensures AllMatch(LocalAdapters(host, scope.selected), scope) <==> !MockLocal(scope)
  {
    var requests := LocalAdapters(host, scope.selected);
    assert scope.selected[0] in scope.selected;
    assert requests[0] == LocalAdapter(host, scope.selected[0]);
  }

  /** Listing the demo provider's local account gives its one adapter, which names none. */
  lemma MockLocalListed(host: Host, saved: bool, vault: Result<Result<seq<Account>, AccountError>, AccountError>)
    ensures RefreshRequests(host, MOCK_LOCAL, saved, vault) == Some(MOCK_REQUESTS)
  {
    assert LocalAdapters(host, MOCK_LOCAL.selected) == MOCK_REQUESTS;
  }

  /**
    A listed refresh replaces what it asks for and nothing else, whatever its runs come to and whatever
    the snapshot held, exactly when it is not for the demo provider's local account.
   */
  lemma ListedRefreshFitsIff(c: Cache.Config, keyed: string -> bool, now: int, host: Host, scope: Scope, saved: bool,
                             vault: Result<Result<seq<Account>, AccountError>, AccountError>, previous: Report)
    requires RefreshRequests(host, scope, saved, vault).Some?
    ensures var requests := RefreshRequests(host, scope, saved, vault).value;
      (forall answers, cell ::
         PartFits(previous, scope, Gathering(c, keyed, requests, answers, now).Report(), cell))
      <==> !MockLocal(scope)
  {
    hide RefreshRequests, AllMatch, PartFits, Gathering.Report, MockLocal;
    ListedMatchesIff(host, scope, saved, vault);
    RefreshFitsIff(c, keyed, RefreshRequests(host, scope, saved, vault).value, now, scope, previous);
  }

  // ------------------------------------------------------------------ no account twice

  /** Stored ids are drawn at random, so none is the name of the local account. */
  ghost predicate Ordinary(accounts: seq<Account>) {
    DistinctIds(accounts) && forall i :: 0 <= i < |accounts| ==> accounts[i].id != "local"
  }

  lemma {:induction false} OrdinaryPart(accounts: seq<Account>, provider: string)
    requires Ordinary(accounts)
    ensures Ordinary(AccountsOf(accounts, provider))
  {
    if accounts != [] {
      var part := AccountsOf(accounts[1..], provider);
      OrdinaryPart(accounts[1..], provider);
      forall i | 0 <= i < |part| ensures part[i].id != accounts[0].id {
        AccountsOfProvider(accounts[1..], provider, i);
        var k :| 0 <= k < |accounts[1..]| && accounts[1..][k] == part[i];
        assert accounts[k + 1] == part[i];
      }
    }
  }

  lemma {:induction false} DistinctJoined(a: seq<Request>, b: seq<Request>)
    requires DistinctRequests(a) && DistinctRequests(b)
    requires forall r, q :: r in a && q in b ==>
      r.provider != q.provider || IdOf(r.accountRef) != IdOf(q.accountRef)
    ensures DistinctRequests(a + b)
  {
    var all := a + b;
    forall i, j | 0 <= i < j < |all|
      ensures all[i].provider != all[j].provider || IdOf(all[i].accountRef) != IdOf(all[j].accountRef)
    {
      if i < |a| <= j {
        assert all[i] in a && all[j] in b;
      }
    }
  }

  lemma SavedDistinct(accounts: seq<Account>)
    requires DistinctIds(accounts)
    ensures DistinctRequests(SavedAdapters(accounts))
  {
  }

  lemma AdaptersOfDistinct(host: Host, provider: string, accounts: Result<seq<Account>, AccountError>)
    requires accounts.Success? ==> Ordinary(accounts.value)
    ensures DistinctRequests(AdaptersOf(host, provider, accounts))
  {
    if accounts.Success? {
      var matching := AccountsOf(accounts.value, provider);
      OrdinaryPart(accounts.value, provider);
      SavedDistinct(matching);
      DistinctJoined([LocalAdapter(host, provider)], SavedAdapters(matching));
      assert [] + SavedAdapters(matching) == SavedAdapters(matching);
    }
  }

  lemma {:induction false} AllAdaptersDistinct(
    host: Host, providers: seq<string>, accounts: Result<seq<Account>, AccountError>)
    requires Distinct(providers) && (accounts.Success? ==> Ordinary(accounts.value))
    ensures DistinctRequests(AllAdapters(host, providers, accounts))
  {
    hide AdaptersOf, Ordinary;
    if providers != [] {
      var first, rest := AdaptersOf(host, providers[0], accounts), AllAdapters(host, providers[1..], accounts);
      AdaptersOfDistinct(host, providers[0], accounts);
      AdaptersOfProvider(host, providers[0], accounts);
      AllAdaptersDistinct(host, providers[1..], accounts);
      AllAdaptersSelected(host, providers[1..], accounts);
      assert providers[0] !in providers[1..];
      DistinctJoined(first, rest);
    }
  }

  /** A refresh that names no provider twice asks for no account twice. */
  lemma ListedDistinct(host: Host, scope: Scope, saved: bool,
                       vault: Result<Result<seq<Account>, AccountError>, AccountError>)
    requires RefreshRequests(host, scope, saved, vault).Some? && Distinct(scope.selected)
    requires vault.Success? && vault.value.Success? ==> Ordinary(vault.value.value)
    ensures DistinctRequests(RefreshRequests(host, scope, saved, vault).value)
  {
    hide AllAdapters, Replaced, Ordinary;
    if scope.account.None? && vault.Success? {
      AllAdaptersDistinct(host, scope.selected, vault.value);
    }
  }

  /**
    The report of a listed refresh says nothing beyond its parts exactly when every surviving fresh usage
    has no diagnostic and every surviving stale one none but the error its fetch failed with.
   */
  lemma ListedAddsNothingIff(g: Gathering, host: Host, scope: Scope, saved: bool,
                             vault: Result<Result<seq<Account>, AccountError>, AccountError>)
    requires RefreshRequests(host, scope, saved, vault) == Some(g.requests) && Distinct(scope.selected)
    requires vault.Success? && vault.value.Success? ==> Ordinary(vault.value.value)
    ensures g.Report().failures == AllFailures(g.Parts()) <==>
            forall i: nat :: i < |g.requests| && Survives(g, i) ==>
              Explained(g.config, g.requests[i], g.answers(i))
  {
    hide RefreshRequests, DistinctRequests, Survives, Explained, Gathering.Report;
    ListedDistinct(host, scope, saved, vault);
    JoiningAddsNothingIff(g);
  }
}
