/**
  Collecting usage (src/fetch.rs and the collecting layer of src/cache.rs): tasks finish in any
  order, reports come out in request order, and local duplicates of managed accounts are dropped.
 */
module Collection {
  import opened Results
  import opened Reports

  datatype Request = Request(provider: string, accountRef: Option<AccountRef>)

  // ------------------------------------------------------------------ retries

  /** The answers an adapter would give to successive fetches; only as many are asked for as needed. */
  method Fetch(answers: seq<Result<Usage, ErrorCode>>, idempotent: bool)
    returns (result: Result<Usage, ErrorCode>, fetches: nat)
    requires |answers| == 3
    ensures 1 <= fetches <= 3 && result == answers[fetches - 1]
    ensures fetches > 1 ==> idempotent
    ensures forall k :: 0 <= k < fetches - 1 ==> answers[k] == Failure(Transient)
    ensures result == Failure(Transient) && idempotent ==> fetches == 3
  {
    fetches := 0;
    var attempt := 0;
    while true
      invariant 0 <= attempt <= 2 && fetches == attempt
      invariant attempt > 0 ==> idempotent
      invariant forall k :: 0 <= k < attempt ==> answers[k] == Failure(Transient)
      decreases 2 - attempt
    {
      result := answers[attempt];
      fetches := fetches + 1;
      if !(result == Failure(Transient) && idempotent && attempt < 2) {
        return;
      }
      attempt := attempt + 1;
    }
  }

  // ------------------------------------------------------------------ completion order

  datatype Completion<T> = Completion(index: nat, value: T)

  function InOrder<T>(values: seq<T>): (r: seq<Completion<T>>)
    ensures |r| == |values|
  {
    seq(|values|, i requires 0 <= i < |values| => Completion(i, values[i]))
  }

  /** The tasks' completions, each once, in whatever order they finished. */
  ghost predicate Completes<T>(completions: seq<Completion<T>>, values: seq<T>) {
    multiset(completions) == multiset(InOrder(values))
  }

  predicate Sorted<T>(results: seq<Completion<T>>) {
    forall i, j :: 0 <= i < j < |results| ==> results[i].index <= results[j].index
  }

  function Insert<T>(sorted: seq<Completion<T>>, result: Completion<T>): seq<Completion<T>> {
    if sorted == [] || sorted[|sorted| - 1].index <= result.index then sorted + [result]
    else Insert(sorted[..|sorted| - 1], result) + [sorted[|sorted| - 1]]
  }

  /** The stable sort by task index. */
  function SortByIndex<T>(results: seq<Completion<T>>): seq<Completion<T>> {
    if results == [] then [] else Insert(SortByIndex(results[..|results| - 1]), results[|results| - 1])
  }

  lemma {:induction false} InsertAdds<T>(sorted: seq<Completion<T>>, result: Completion<T>)
    ensures multiset(Insert(sorted, result)) == multiset(sorted) + multiset{result}
  {
    if sorted != [] && sorted[|sorted| - 1].index > result.index {
      var n := |sorted| - 1;
      InsertAdds(sorted[..n], result);
      assert sorted == sorted[..n] + [sorted[n]];
    }
  }

  predicate AtMost<T>(results: seq<Completion<T>>, bound: nat) {
    forall i :: 0 <= i < |results| ==> results[i].index <= bound
  }

  lemma {:induction false} InsertBelow<T>(sorted: seq<Completion<T>>, result: Completion<T>, bound: nat)
    requires result.index <= bound && AtMost(sorted, bound)
    ensures AtMost(Insert(sorted, result), bound)
  {
    if sorted != [] && sorted[|sorted| - 1].index > result.index {
      var n := |sorted| - 1;
      InsertBelow(sorted[..n], result, bound);
      assert Insert(sorted, result) == Insert(sorted[..n], result) + [sorted[n]];
    }
  }

  lemma SortedFront<T>(results: seq<Completion<T>>)
    requires Sorted(results) && results != []
    ensures var n := |results| - 1; Sorted(results[..n]) && AtMost(results, results[n].index)
  {
  }

  lemma SortedAppend<T>(front: seq<Completion<T>>, last: Completion<T>)
    requires Sorted(front) && AtMost(front, last.index)
    ensures Sorted(front + [last])
  {
  }

  lemma {:induction false} InsertSorts<T>(sorted: seq<Completion<T>>, result: Completion<T>)
    requires Sorted(sorted)
    ensures Sorted(Insert(sorted, result))
  {
    if sorted != [] {
      SortedFront(sorted);
    }
    if sorted != [] && sorted[|sorted| - 1].index > result.index {
      hide Sorted;
      var n := |sorted| - 1;
      InsertSorts(sorted[..n], result);
      InsertBelow(sorted[..n], result, sorted[n].index);
      SortedAppend(Insert(sorted[..n], result), sorted[n]);
    } else {
      hide Sorted;
      SortedAppend(sorted, result);
    }
  }

  lemma {:induction false} SortSorts<T>(results: seq<Completion<T>>)
    ensures Sorted(SortByIndex(results)) && multiset(SortByIndex(results)) == multiset(results)
  {
    if results != [] {
      var n := |results| - 1;
      SortSorts(results[..n]);
      InsertSorts(SortByIndex(results[..n]), results[n]);
      InsertAdds(SortByIndex(results[..n]), results[n]);
      assert results == results[..n] + [results[n]];
    }
  }

  lemma LastIsLargest<T>(sorted: seq<Completion<T>>, values: seq<T>)
    requires Completes(sorted, values) && Sorted(sorted) && values != []
    ensures |sorted| == |values| && sorted[|values| - 1] == InOrder(values)[|values| - 1]
  {
    var n := |values| - 1;
    var all := InOrder(values);
    assert |sorted| == |multiset(sorted)| == |multiset(all)| == |values|;
    assert all[n] in multiset(all);
    assert all[n] in multiset(sorted);
    assert sorted[n] in multiset(sorted);
    assert sorted[n] in multiset(all);
  }

  /** Sorting completions by task index leaves only request order. */
  lemma {:induction false} SortedIsInOrder<T>(sorted: seq<Completion<T>>, values: seq<T>)
    requires Completes(sorted, values) && Sorted(sorted)
    ensures sorted == InOrder(values)
  {
    if values == [] {
      assert |multiset(sorted)| == 0;
    } else {
      LastIsLargest(sorted, values);
      var n := |values| - 1;
      assert sorted == sorted[..n] + [sorted[n]];
      assert InOrder(values) == InOrder(values[..n]) + [sorted[n]];
      assert multiset(sorted[..n]) == multiset(sorted) - multiset{sorted[n]};
      assert multiset(InOrder(values[..n])) == multiset(InOrder(values)) - multiset{sorted[n]};
      SortedIsInOrder(sorted[..n], values[..n]);
    }
  }

  /** Every order of completion sorts to the same results. */
  lemma CompletionOrderIrrelevant<T>(completions: seq<Completion<T>>, values: seq<T>)
    requires Completes(completions, values)
    ensures SortByIndex(completions) == InOrder(values)
  {
    SortSorts(completions);
    SortedIsInOrder(SortByIndex(completions), values);
  }

  // ------------------------------------------------------------------ reconcile_accounts

  function Lower(c: char): char {
    if 'A' <= c <= 'Z' then ((c as int) + 32) as char else c
  }

  predicate EqualIgnoringCase(a: string, b: string) {
    |a| == |b| && forall i :: 0 <= i < |a| ==> Lower(a[i]) == Lower(b[i])
  }

  predicate Personal(usage: Usage) {
    usage.account.plan.Some? && usage.account.plan.value in {"free", "plus", "pro", "go"}
  }

  predicate IsLocal(usage: Usage) {
    IdOf(usage.accountRef) == Some("local")
  }

  predicate ManagedFor(usage: Usage, provider: string) {
    usage.provider == provider && usage.accountRef.Some? && usage.accountRef.value.id != "local"
  }

  function Filter<T>(p: T -> bool, s: seq<T>): seq<T> {
    if s == [] then [] else if p(s[0]) then [s[0]] + Filter(p, s[1..]) else Filter(p, s[1..])
  }

  lemma {:induction false} Filtered<T>(p: T -> bool, s: seq<T>, x: T)
    ensures x in Filter(p, s) <==> x in s && p(x)
  {
    if s != [] {
      Filtered(p, s[1..], x);
    }
  }

  function Managed(providers: seq<Usage>, provider: string): seq<Usage> {
    Filter((u: Usage) => ManagedFor(u, provider), providers)
  }

  function Contents(windows: seq<QuotaWindow>): seq<string> {
    seq(|windows|, i requires 0 <= i < |windows| => windows[i].content)
  }

  predicate SameId(local: Usage, saved: Usage) {
    local.account.id != "" && saved.account.id == local.account.id
  }

  predicate SameAmpAccount(local: Usage, saved: Usage) {
    && local.account.id != ""
    && EqualIgnoringCase(local.account.id, saved.account.id)
    && Contents(local.windows) == Contents(saved.windows)
  }

  function SameEmail(local: Usage, managed: seq<Usage>): seq<Usage> {
    Filter((u: Usage) => EqualIgnoringCase(u.account.title, local.account.title), managed)
  }

  predicate SamePersonal(local: Usage, managed: seq<Usage>) {
    && Personal(local)
    && '@' in local.account.title
    && |SameEmail(local, managed)| == 1
    && Personal(SameEmail(local, managed)[0])
  }

  /** Which entry shows that a local one repeats a managed account; `keyed` says which catalog providers use a key. */
  predicate Duplicates(keyed: string -> bool, local: Usage, managed: seq<Usage>) {
    && (local.provider in {"codex", "amp", "synthetic", "openrouter", "zai", "minimax"} || keyed(local.provider))
    && IsLocal(local)
    && match local.provider
       case "amp" => exists i :: 0 <= i < |managed| && SameAmpAccount(local, managed[i])
       case "codex" => (exists i :: 0 <= i < |managed| && SameId(local, managed[i])) || SamePersonal(local, managed)
       case _ => exists i :: 0 <= i < |managed| && SameId(local, managed[i])
  }

  predicate Redundant(keyed: string -> bool, providers: seq<Usage>, usage: Usage) {
    Duplicates(keyed, usage, Managed(providers, usage.provider))
  }

  function Reconciled(keyed: string -> bool, providers: seq<Usage>): seq<Usage> {
    Filter((u: Usage) => !Redundant(keyed, providers, u), providers)
  }

  method ReconcileAccounts(keyed: string -> bool, providers: seq<Usage>) returns (kept: seq<Usage>)
    ensures kept == Reconciled(keyed, providers)
  {
    var remove: seq<nat> := [];
    for index := 0 to |providers|
      invariant forall k :: k in remove <==> 0 <= k < index && Redundant(keyed, providers, providers[k])
    {
      var local := providers[index];
      if Duplicates(keyed, local, Managed(providers, local.provider)) {
        remove := remove + [index];
      }
    }
    kept := Retain(providers, remove, (u: Usage) => !Redundant(keyed, providers, u));
  }

  /** `retain` with a running index. */
  method Retain(providers: seq<Usage>, remove: seq<nat>, ghost keep: Usage -> bool) returns (kept: seq<Usage>)
    requires forall k :: 0 <= k < |providers| ==> (k in remove <==> !keep(providers[k]))
    ensures kept == Filter(keep, providers)
  {
    kept := [];
    for index := 0 to |providers|
      invariant Filter(keep, providers) == kept + Filter(keep, providers[index..])
    {
      assert providers[index..][1..] == providers[index + 1..];
      if index !in remove {
        kept := kept + [providers[index]];
      }
    }
  }

  lemma {:induction false} FilterAll<T>(p: T -> bool, s: seq<T>)
    requires forall x :: x in s ==> p(x)
    ensures Filter(p, s) == s
  {
    if s != [] {
      FilterAll(p, s[1..]);
    }
  }

  /** An entry on its own repeats nothing. */
  lemma AloneIsKept(keyed: string -> bool, usage: Usage)
    ensures Reconciled(keyed, [usage]) == [usage]
  {
    var managed := (u: Usage) => ManagedFor(u, usage.provider);
    assert [usage][1..] == [];
    assert !managed(usage) ==> Filter(managed, [usage]) == Filter(managed, []) == [];
    FilterAll((u: Usage) => !Redundant(keyed, [usage], u), [usage]);
  }

  lemma {:induction false} FilterThrough<T>(p: T -> bool, q: T -> bool, s: seq<T>)
    requires forall x :: x in s && q(x) ==> p(x)
    ensures Filter(q, Filter(p, s)) == Filter(q, s)
  {
    if s != [] {
      FilterThrough(p, q, s[1..]);
      var rest := Filter(p, s[1..]);
      if p(s[0]) {
        assert ([s[0]] + rest)[1..] == rest;
      }
    }
  }

  /** `part` is `whole` with some entries left out. */
  ghost predicate Sublist<T(!new)>(part: seq<T>, whole: seq<T>) {
    exists at: seq<nat> :: Places(part, whole, at)
  }

  ghost predicate Places<T(!new)>(part: seq<T>, whole: seq<T>, at: seq<nat>) {
    && |at| == |part|
    && (forall i :: 0 <= i < |at| ==> at[i] < |whole| && whole[at[i]] == part[i])
    && (forall i, j :: 0 <= i < j < |at| ==> at[i] < at[j])
  }

  lemma {:induction false} FilterIsSublist<T(!new)>(p: T -> bool, s: seq<T>)
    ensures Sublist(Filter(p, s), s)
  {
    hide Places;
    if s == [] {
      PlacesOfNone(s);
    } else {
      FilterIsSublist(p, s[1..]);
      var at :| Places(Filter(p, s[1..]), s[1..], at);
      PlacesShifted(Filter(p, s[1..]), s, at);
    }
  }

  lemma PlacesOfNone<T(!new)>(whole: seq<T>)
    ensures Places([], whole, [])
  {
  }

  lemma PlacesShifted<T(!new)>(part: seq<T>, whole: seq<T>, at: seq<nat>)
    requires whole != [] && Places(part, whole[1..], at)
    ensures Sublist(part, whole) && Sublist([whole[0]] + part, whole)
  {
    var shifted := seq(|at|, i requires 0 <= i < |at| => at[i] + 1);
    assert Places(part, whole, shifted);
    assert Places([whole[0]] + part, whole, [0] + shifted);
  }

  /** Dropping redundant entries leaves every managed one where it was. */
  lemma ManagedSurvives(keyed: string -> bool, providers: seq<Usage>, provider: string)
    ensures Managed(Reconciled(keyed, providers), provider) == Managed(providers, provider)
  {
    FilterThrough((u: Usage) => !Redundant(keyed, providers, u), (u: Usage) => ManagedFor(u, provider), providers);
  }

  /** Entries come out in order, none invented, and every entry that is not local is kept. */
  lemma ReconcileKeepsOrder(keyed: string -> bool, providers: seq<Usage>)
    ensures Sublist(Reconciled(keyed, providers), providers)
    ensures Filter((u: Usage) => !IsLocal(u), Reconciled(keyed, providers)) == Filter((u: Usage) => !IsLocal(u),
        providers)
  {
    var keep := (u: Usage) => !Redundant(keyed, providers, u);
    FilterIsSublist(keep, providers);
    FilterThrough(keep, (u: Usage) => !IsLocal(u), providers);
  }

  /** The account an entry is about, as far as two reports of it can tell. */
  predicate SameAccount(local: Usage, saved: Usage) {
    || SameId(local, saved)
    || SameAmpAccount(local, saved)
    || (Personal(local) && Personal(saved) && EqualIgnoringCase(saved.account.title, local.account.title))
  }

  /** A dropped entry is local, and a managed entry for the same account survives. */
  lemma RemovedHasWitness(keyed: string -> bool, providers: seq<Usage>, usage: Usage)
    requires usage in providers && usage !in Reconciled(keyed, providers)
    ensures IsLocal(usage)
    ensures exists saved ::
      saved in Reconciled(keyed, providers) && ManagedFor(saved, usage.provider) && SameAccount(usage, saved)
  {
    var managed := Managed(providers, usage.provider);
    ManagedSurvives(keyed, providers, usage.provider);
    Filtered((u: Usage) => !Redundant(keyed, providers, u), providers, usage);
    assert Duplicates(keyed, usage, managed);
    var k := Witness(keyed, usage, managed);
    Filtered((u: Usage) => ManagedFor(u, usage.provider), Reconciled(keyed, providers), managed[k]);
  }

  lemma Witness(keyed: string -> bool, local: Usage, managed: seq<Usage>) returns (k: nat)
    requires Duplicates(keyed, local, managed)
    ensures k < |managed| && SameAccount(local, managed[k])
  {
    if local.provider == "amp" {
      k :| 0 <= k < |managed| && SameAmpAccount(local, managed[k]);
    } else if local.provider == "codex" && SamePersonal(local, managed) {
      var saved := SameEmail(local, managed)[0];
      Filtered((u: Usage) => EqualIgnoringCase(u.account.title, local.account.title), managed, saved);
      k :| 0 <= k < |managed| && managed[k] == saved;
    } else {
      k :| 0 <= k < |managed| && SameId(local, managed[k]);
    }
  }

  /** Reconciling a reconciled list changes nothing. */
  lemma ReconcileTwice(keyed: string -> bool, providers: seq<Usage>)
    ensures Reconciled(keyed, Reconciled(keyed, providers)) == Reconciled(keyed, providers)
  {
    var once := Reconciled(keyed, providers);
    forall u | u in once ensures !Redundant(keyed, once, u) {
      Filtered((u: Usage) => !Redundant(keyed, providers, u), providers, u);
      ManagedSurvives(keyed, providers, u.provider);
    }
    FilterAll((u: Usage) => !Redundant(keyed, once, u), once);
  }

  /** A managed entry of the provider that is not local. */
  predicate ManagedAt(providers: seq<Usage>, provider: string, i: nat) {
    && i < |providers| && providers[i].provider == provider
    && providers[i].accountRef.Some? && providers[i].accountRef.value.id != "local"
  }

  /** A managed entry has the local one's account id. */
  ghost predicate SameIdThere(providers: seq<Usage>, local: Usage) {
    exists i: nat :: ManagedAt(providers, local.provider, i)
      && local.account.id != "" && providers[i].account.id == local.account.id
  }

  /** A managed entry has the local one's account id but for case, and the same windows. */
  ghost predicate SameWindowsThere(providers: seq<Usage>, local: Usage) {
    exists i: nat :: ManagedAt(providers, local.provider, i)
      && local.account.id != "" && EqualIgnoringCase(local.account.id, providers[i].account.id)
      && Contents(local.windows) == Contents(providers[i].windows)
  }

  lemma ManagedHas(providers: seq<Usage>, provider: string, usage: Usage)
    ensures usage in Managed(providers, provider) <==>
            exists i: nat :: ManagedAt(providers, provider, i) && providers[i] == usage
  {
    Filtered((u: Usage) => ManagedFor(u, provider), providers, usage);
    if usage in Managed(providers, provider) {
      var i :| 0 <= i < |providers| && providers[i] == usage;
      assert ManagedAt(providers, provider, i);
    }
  }

  /**
    Exactly which entries are dropped: local ones, of Codex if a managed entry has its account id or it
    is the same personal account, of Amp if one has its id and windows, and of the providers that use a
    key if one has its account id.
   */
  lemma DroppedIff(keyed: string -> bool, providers: seq<Usage>, usage: Usage)
    requires usage in providers
    ensures usage !in Reconciled(keyed, providers) <==>
      && usage.accountRef.Some? && usage.accountRef.value.id == "local"
      && if usage.provider == "codex" then
           SameIdThere(providers, usage) || SamePersonal(usage, Managed(providers, "codex"))
         else if usage.provider == "amp" then SameWindowsThere(providers, usage)
         else (usage.provider in {"synthetic", "openrouter", "zai", "minimax"} || keyed(usage.provider))
              && SameIdThere(providers, usage)
  {
    hide SamePersonal, EqualIgnoringCase, Managed;
    Filtered((u: Usage) => !Redundant(keyed, providers, u), providers, usage);
    SameIdIs(providers, usage);
    SameWindowsIs(providers, usage);
  }

  lemma SameIdIs(providers: seq<Usage>, local: Usage)
    ensures var managed := Managed(providers, local.provider);
      SameIdThere(providers, local) <==> exists i :: 0 <= i < |managed| && SameId(local, managed[i])
  {
    hide Managed;
    var managed := Managed(providers, local.provider);
    if SameIdThere(providers, local) {
      var i: nat :| ManagedAt(providers, local.provider, i)
        && local.account.id != "" && providers[i].account.id == local.account.id;
      ManagedHas(providers, local.provider, providers[i]);
      var j :| 0 <= j < |managed| && managed[j] == providers[i];
      assert SameId(local, managed[j]);
    }
    if j :| 0 <= j < |managed| && SameId(local, managed[j]) {
      ManagedHas(providers, local.provider, managed[j]);
    }
  }

  lemma SameWindowsIs(providers: seq<Usage>, local: Usage)
    ensures var managed := Managed(providers, local.provider);
      SameWindowsThere(providers, local) <==> exists i :: 0 <= i < |managed| && SameAmpAccount(local, managed[i])
  {
    hide Managed, EqualIgnoringCase, Contents;
    var managed := Managed(providers, local.provider);
    if SameWindowsThere(providers, local) {
      var i: nat :| ManagedAt(providers, local.provider, i)
        && local.account.id != "" && EqualIgnoringCase(local.account.id, providers[i].account.id)
        && Contents(local.windows) == Contents(providers[i].windows);
      ManagedHas(providers, local.provider, providers[i]);
      var j :| 0 <= j < |managed| && managed[j] == providers[i];
      assert SameAmpAccount(local, managed[j]);
    }
    if j :| 0 <= j < |managed| && SameAmpAccount(local, managed[j]) {
      ManagedHas(providers, local.provider, managed[j]);
    }
  }

  /** What makes two personal entries the same account: one e-mail address, and only one managed entry has it. */
  lemma SamePersonalIs(local: Usage, managed: seq<Usage>)
    ensures SamePersonal(local, managed) <==>
      && Personal(local) && '@' in local.account.title
      && exists k :: 0 <= k < |managed| && Personal(managed[k])
           && OnlyAt((u: Usage) => EqualIgnoringCase(u.account.title, local.account.title), managed, k)
  {
    hide EqualIgnoringCase, Personal, OnlyAt;
    var same := (u: Usage) => EqualIgnoringCase(u.account.title, local.account.title);
    if SamePersonal(local, managed) {
      var k := OneFiltered(same, managed);
      assert Personal(managed[k]);
    }
    if k :| 0 <= k < |managed| && Personal(managed[k]) && OnlyAt(same, managed, k) {
      OnlyFiltered(same, managed, k);
    }
  }

  predicate OnlyAt<T>(p: T -> bool, s: seq<T>, k: int) {
    forall j :: 0 <= j < |s| ==> (p(s[j]) <==> j == k)
  }

  lemma OnlyAtRest<T>(p: T -> bool, s: seq<T>, k: int)
    requires s != []
    ensures OnlyAt(p, s, k) <==> (p(s[0]) <==> k == 0) && OnlyAt(p, s[1..], k - 1)
  {
    if (p(s[0]) <==> k == 0) && OnlyAt(p, s[1..], k - 1) {
      forall j | 0 <= j < |s| ensures p(s[j]) <==> j == k {
        if j > 0 {
          assert s[j] == s[1..][j - 1];
        }
      }
    }
  }

  /** One element passes a filter exactly if it is the only one that does. */
  lemma {:induction false} OnlyFiltered<T>(p: T -> bool, s: seq<T>, k: int)
    requires OnlyAt(p, s, k)
    ensures Filter(p, s) == if 0 <= k < |s| then [s[k]] else []
  {
    hide OnlyAt;
    if s != [] {
      OnlyAtRest(p, s, k);
      OnlyFiltered(p, s[1..], k - 1);
    }
  }

  lemma {:induction false} OneFiltered<T>(p: T -> bool, s: seq<T>) returns (k: int)
    requires |Filter(p, s)| <= 1
    ensures OnlyAt(p, s, k) && -1 <= k < |s|
    ensures |Filter(p, s)| == 1 ==> 0 <= k && Filter(p, s)[0] == s[k]
  {
    hide OnlyAt;
    if s == [] {
      NoneAt(p, s);
      k := -1;
    } else {
      var rest := OneFiltered(p, s[1..]);
      if p(s[0]) {
        assert rest == -1 by {
          OnlyFiltered(p, s[1..], rest);
        }
        k := 0;
      } else {
        k := if rest < 0 then -1 else rest + 1;
      }
      if rest < 0 {
        OnlyNegative(p, s[1..], rest, k - 1);
      }
      OnlyAtRest(p, s, k);
    }
  }

  lemma NoneAt<T>(p: T -> bool, s: seq<T>)
    requires s == []
    ensures OnlyAt(p, s, -1)
  {
  }

  lemma OnlyNegative<T>(p: T -> bool, s: seq<T>, a: int, b: int)
    requires OnlyAt(p, s, a) && a < 0 && b < 0
    ensures OnlyAt(p, s, b)
  {
  }

  // ------------------------------------------------------------------ Collector::collect

  /** An answer counts only if it is the requested provider's and every window is well-formed. */
  function Checked(request: Request, outcome: Result<Usage, ErrorCode>): Result<Usage, ErrorCode> {
    match outcome
    case Failure(code) => Failure(code)
    case Success(usage) =>
      if usage.provider != request.provider || usage.windows == []
        || exists i :: 0 <= i < |usage.windows| && !usage.windows[i].wellFormed
      then Failure(InvalidData)
      else Success(usage.(accountRef := request.accountRef))
  }

  function Usages(requests: seq<Request>, outcomes: seq<Result<Usage, ErrorCode>>): seq<Usage>
    requires |requests| == |outcomes|
  {
    if requests == [] then []
    else
      var checked := Checked(requests[0], outcomes[0]);
      (if checked.Success? then [checked.value] else []) + Usages(requests[1..], outcomes[1..])
  }

  function Failures(requests: seq<Request>, outcomes: seq<Result<Usage, ErrorCode>>): seq<ReportFailure>
    requires |requests| == |outcomes|
  {
    if requests == [] then []
    else
      var checked := Checked(requests[0], outcomes[0]);
      (if checked.Success? then [] else [ReportFailure(requests[0].provider, requests[0].accountRef, checked.error)])
      + Failures(requests[1..], outcomes[1..])
  }

  /** The report, as a function of what each request came to. */
  function Collected(keyed: string -> bool, now: int, requests: seq<Request>, outcomes: seq<Result<Usage,
      ErrorCode>>): Report
    requires |requests| == |outcomes|
  {
    var providers := Reconciled(keyed, Usages(requests, outcomes));
    Report(now, providers, Included(Failures(requests, outcomes), providers))
  }

  /** Whatever order the tasks finish in, the report is the one in request order. */
  method Collect(keyed: string -> bool, now: int, requests: seq<Request>,
                 completions: seq<Completion<Result<Usage, ErrorCode>>>, ghost outcomes: seq<Result<Usage, ErrorCode>>)
    returns (report: Report)
    requires |requests| == |outcomes| && Completes(completions, outcomes)
    ensures report == Collected(keyed, now, requests, outcomes)
  {
    CompletionOrderIrrelevant(completions, outcomes);
    var providers, failures := Separate(requests, SortByIndex(completions), outcomes);
    report := Finish(keyed, now, providers, failures);
  }

  /** The outcome at `i` is next on its list. */
  lemma OutcomeNext(requests: seq<Request>, outcomes: seq<Result<Usage, ErrorCode>>, i: nat)
    requires i < |requests| == |outcomes|
    ensures Usages(requests[i..], outcomes[i..]) ==
            (if Checked(requests[i], outcomes[i]).Success? then [Checked(requests[i], outcomes[i]).value] else [])
            + Usages(requests[i + 1..], outcomes[i + 1..])
    ensures Failures(requests[i..], outcomes[i..]) ==
            (match Checked(requests[i], outcomes[i])
             case Success(_) => []
             case Failure(code) => [ReportFailure(requests[i].provider, requests[i].accountRef, code)])
            + Failures(requests[i + 1..], outcomes[i + 1..])
  {
    hide Checked;
    assert requests[i..][1..] == requests[i + 1..] && outcomes[i..][1..] == outcomes[i + 1..];
  }

  method Separate(requests: seq<Request>, results: seq<Completion<Result<Usage, ErrorCode>>>,
                  ghost outcomes: seq<Result<Usage, ErrorCode>>)
    returns (providers: seq<Usage>, failures: seq<ReportFailure>)
    requires |requests| == |outcomes| && results == InOrder(outcomes)
    ensures providers == Usages(requests, outcomes) && failures == Failures(requests, outcomes)
  {
    providers, failures := [], [];
    hide Checked, Usages, Failures;
    for i := 0 to |results|
      invariant Usages(requests, outcomes) == providers + Usages(requests[i..], outcomes[i..])
      invariant Failures(requests, outcomes) == failures + Failures(requests[i..], outcomes[i..])
    {
      var index := results[i].index;
      OutcomeNext(requests, outcomes, i);
      match Checked(requests[index], results[i].value) {
        case Success(usage) => providers := providers + [usage];
        case Failure(code) =>
          failures := failures + [ReportFailure(requests[index].provider, requests[index].accountRef, code)];
      }
    }
    NoOutcomes(requests[|results|..], outcomes[|results|..]);
  }

  lemma NoOutcomes(requests: seq<Request>, outcomes: seq<Result<Usage, ErrorCode>>)
    requires |requests| == |outcomes| == 0
    ensures Usages(requests, outcomes) == [] && Failures(requests, outcomes) == []
  {
  }

  /** The last steps of both layers, on the report in place. */
  method Finish(keyed: string -> bool, now: int, providers: seq<Usage>, failures: seq<ReportFailure>)
    returns (report: Report)
    ensures report == Report(now, Reconciled(keyed, providers), Included(failures, Reconciled(keyed, providers)))
  {
    var kept := ReconcileAccounts(keyed, providers);
    var whole := new UsageReport(Report(now, kept, failures));
    whole.IncludeDiagnostics();
    report := Report(now, whole.providers, whole.failures);
  }

  predicate Asked(requests: seq<Request>, provider: string, accountRef: Option<AccountRef>) {
    exists i :: 0 <= i < |requests| && requests[i] == Request(provider, accountRef)
  }

  /** Every entry of a report is for one of its requests. */
  predicate InScope(report: Report, requests: seq<Request>) {
    && (forall i :: 0 <= i < |report.providers| ==> Asked(requests, report.providers[i].provider,
        report.providers[i].accountRef))
    && FailuresAsked(report.failures, requests)
  }

  lemma {:induction false} PartsAsked(requests: seq<Request>, outcomes: seq<Result<Usage, ErrorCode>>)
    requires |requests| == |outcomes|
    ensures InScope(Report(0, Usages(requests, outcomes), Failures(requests, outcomes)), requests)
  {
    if requests != [] {
      PartsAsked(requests[1..], outcomes[1..]);
      var usages, failures := Usages(requests, outcomes), Failures(requests, outcomes);
      var restUsages, restFailures := Usages(requests[1..], outcomes[1..]), Failures(requests[1..], outcomes[1..]);
      assert requests[0] == Request(requests[0].provider, requests[0].accountRef);
      forall i | 0 <= i < |usages| ensures Asked(requests, usages[i].provider, usages[i].accountRef) {
        var k := i - (|usages| - |restUsages|);
        if k >= 0 {
          assert usages[i] == restUsages[k];
          AskedLater(requests, restUsages[k].provider, restUsages[k].accountRef);
        }
      }
      forall i | 0 <= i < |failures| ensures Asked(requests, failures[i].provider, failures[i].accountRef) {
        var k := i - (|failures| - |restFailures|);
        if k >= 0 {
          assert failures[i] == restFailures[k];
          AskedLater(requests, restFailures[k].provider, restFailures[k].accountRef);
        }
      }
    }
  }

  lemma AskedLater(requests: seq<Request>, provider: string, accountRef: Option<AccountRef>)
    requires requests != [] && Asked(requests[1..], provider, accountRef)
    ensures Asked(requests, provider, accountRef)
  {
  }

  predicate FailuresAsked(failures: seq<ReportFailure>, requests: seq<Request>) {
    forall i :: 0 <= i < |failures| ==> Asked(requests, failures[i].provider, failures[i].accountRef)
  }

  lemma {:induction false} NoteAllAsked(failures: seq<ReportFailure>, usage: Usage,
      diagnostics: seq<UsageDiagnostic>, requests: seq<Request>)
    requires Asked(requests, usage.provider, usage.accountRef) && FailuresAsked(failures, requests)
    ensures FailuresAsked(NoteAll(failures, usage, diagnostics), requests)
    decreases |diagnostics|
  {
    hide Asked, Covered;
    if diagnostics != [] {
      NoteAllAsked(Note(failures, usage, diagnostics[0].code), usage, diagnostics[1..], requests);
    }
  }

  lemma {:induction false} IncludedAsked(failures: seq<ReportFailure>, usages: seq<Usage>, requests: seq<Request>)
    requires forall i :: 0 <= i < |usages| ==> Asked(requests, usages[i].provider, usages[i].accountRef)
    requires FailuresAsked(failures, requests)
    ensures FailuresAsked(Included(failures, usages), requests)
    decreases |usages|
  {
    hide Asked, FailuresAsked;
    if usages != [] {
      NoteAllAsked(failures, usages[0], usages[0].diagnostics, requests);
      IncludedAsked(NoteAll(failures, usages[0], usages[0].diagnostics), usages[1..], requests);
    }
  }

  /** A report speaks only of what was asked for, and notes every diagnostic of its usages. */
  lemma CollectedInScope(keyed: string -> bool, now: int, requests: seq<Request>, outcomes: seq<Result<Usage,
      ErrorCode>>)
    requires |requests| == |outcomes|
    ensures var report := Collected(keyed, now, requests, outcomes);
      InScope(report, requests) && AllCovered(report.failures, report.providers)
  {
    hide Asked, AllCovered;
    var usages, failures := Usages(requests, outcomes), Failures(requests, outcomes);
    var kept := Reconciled(keyed, usages);
    PartsAsked(requests, outcomes);
    forall i | 0 <= i < |kept| ensures Asked(requests, kept[i].provider, kept[i].accountRef) {
      Filtered((u: Usage) => !Redundant(keyed, usages, u), usages, kept[i]);
      var k :| 0 <= k < |usages| && usages[k] == kept[i];
    }
    IncludedAsked(failures, kept, requests);
    IncludedCoversAll(failures, kept);
  }

  /** The usage is in the list, or it is local and a managed entry for the same account is. */
  predicate Accounted(usages: seq<Usage>, usage: Usage) {
    || usage in usages
    || (IsLocal(usage)
        && exists i :: 0 <= i < |usages| && ManagedFor(usages[i], usage.provider) && SameAccount(usage, usages[i]))
  }

  lemma ReconciledAccounts(keyed: string -> bool, usages: seq<Usage>, usage: Usage)
    requires usage in usages
    ensures Accounted(Reconciled(keyed, usages), usage)
  {
    hide Reconciled, ManagedFor, SameAccount, IsLocal;
    var kept := Reconciled(keyed, usages);
    if usage !in kept {
      RemovedHasWitness(keyed, usages, usage);
      var saved :| saved in kept && ManagedFor(saved, usage.provider) && SameAccount(usage, saved);
      var i :| 0 <= i < |kept| && kept[i] == saved;
    }
  }

  /** Usages and failures stand in request order: those of the requests before `i`, then request `i`'s own. */
  lemma {:induction false} OutcomesInOrder(requests: seq<Request>, outcomes: seq<Result<Usage, ErrorCode>>, i: nat)
    requires i < |requests| == |outcomes|
    ensures Usages(requests, outcomes) == Usages(requests[..i], outcomes[..i])
      + (if Checked(requests[i], outcomes[i]).Success? then [Checked(requests[i], outcomes[i]).value] else [])
      + Usages(requests[i + 1..], outcomes[i + 1..])
    ensures Failures(requests, outcomes) == Failures(requests[..i], outcomes[..i])
      + (match Checked(requests[i], outcomes[i])
         case Success(_) => []
         case Failure(code) => [ReportFailure(requests[i].provider, requests[i].accountRef, code)])
      + Failures(requests[i + 1..], outcomes[i + 1..])
  {
    hide Checked, Usages, Failures;
    OutcomeNext(requests, outcomes, 0);
    assert requests[0..] == requests && outcomes[0..] == outcomes;
    if i > 0 {
      OutcomesInOrder(requests[1..], outcomes[1..], i - 1);
      FrontNext(requests, outcomes, i);
      assert requests[1..][i..] == requests[i + 1..] && outcomes[1..][i..] == outcomes[i + 1..];
    } else {
      NoOutcomes(requests[..0], outcomes[..0]);
    }
  }

  lemma FrontNext(requests: seq<Request>, outcomes: seq<Result<Usage, ErrorCode>>, i: nat)
    requires 0 < i < |requests| == |outcomes|
    ensures Usages(requests[..i], outcomes[..i]) ==
            (if Checked(requests[0], outcomes[0]).Success? then [Checked(requests[0], outcomes[0]).value] else [])
            + Usages(requests[1..][..i - 1], outcomes[1..][..i - 1])
    ensures Failures(requests[..i], outcomes[..i]) ==
            (match Checked(requests[0], outcomes[0])
             case Success(_) => []
             case Failure(code) => [ReportFailure(requests[0].provider, requests[0].accountRef, code)])
            + Failures(requests[1..][..i - 1], outcomes[1..][..i - 1])
  {
    hide Checked;
    assert requests[..i][1..] == requests[1..][..i - 1] && outcomes[..i][1..] == outcomes[1..][..i - 1];
  }

  /** An answer counts exactly if it is the requested provider's, has windows, and all are well-formed. */
  lemma AnswerCounts(request: Request, outcome: Result<Usage, ErrorCode>)
    ensures Checked(request, outcome) ==
      match outcome
      case Failure(code) => Failure(code)
      case Success(usage) =>
        if usage.provider == request.provider && |usage.windows| >= 1
           && forall i :: 0 <= i < |usage.windows| ==> usage.windows[i].wellFormed
        then
          Success(Usage(request.provider, request.accountRef, usage.account, usage.windows, usage.resetCredits,
                        usage.diagnostics))
        else Failure(InvalidData)
  {
  }

  lemma {:induction false} OutcomeKept(requests: seq<Request>, outcomes: seq<Result<Usage, ErrorCode>>, i: nat)
    requires i < |requests| == |outcomes|
    ensures match Checked(requests[i], outcomes[i])
      case Success(usage) => usage in Usages(requests, outcomes)
      case Failure(code) =>
        ReportFailure(requests[i].provider, requests[i].accountRef, code) in Failures(requests, outcomes)
  {
    if i > 0 {
      OutcomeKept(requests[1..], outcomes[1..], i - 1);
    }
  }

  /**
    Every request's own answer is in the report: its failure, or its usage, or for a local one dropped as
    a duplicate a managed entry for the same account.
   */
  lemma CollectedAnswers(keyed: string -> bool, now: int, requests: seq<Request>, outcomes: seq<Result<Usage,
      ErrorCode>>, i: nat)
    requires |requests| == |outcomes| && i < |requests|
    ensures var report := Collected(keyed, now, requests, outcomes);
      match Checked(requests[i], outcomes[i])
      case Success(usage) => Accounted(report.providers, usage)
      case Failure(code) => ReportFailure(requests[i].provider, requests[i].accountRef, code) in report.failures
  {
    hide Reconciled, Usages, Failures, Accounted, Checked;
    OutcomeKept(requests, outcomes, i);
    if Checked(requests[i], outcomes[i]).Success? {
      ReconciledAccounts(keyed, Usages(requests, outcomes), Checked(requests[i], outcomes[i]).value);
    }
    IncludedCoversAll(Failures(requests, outcomes), Collected(keyed, now, requests, outcomes).providers);
  }

  // ------------------------------------------------------------------ UsageCache::collect

  /** Banked resets are reported only while they are current. */
  function DropExpired(usage: Usage, now: int): Usage {
    if usage.resetCredits.Some? && !usage.resetCredits.value.ValidAt(now) then usage.(resetCredits := None) else usage
  }

  function DropAllExpired(usages: seq<Usage>, now: int): (r: seq<Usage>)
    ensures |r| == |usages|
  {
    seq(|usages|, i requires 0 <= i < |usages| => DropExpired(usages[i], now))
  }

  function CollectedCached(keyed: string -> bool, now: int, reports: seq<Report>): Report {
    var providers := Reconciled(keyed, DropAllExpired(AllProviders(reports), now));
    Report(now, providers, Included(AllFailures(reports), providers))
  }

  /** The cached layer runs one task per adapter and joins their reports in request order. */
  method CollectCached(keyed: string -> bool, now: int, completions: seq<Completion<Report>>,
      ghost reports: seq<Report>)
    returns (report: Report)
    requires Completes(completions, reports)
    ensures report == CollectedCached(keyed, now, reports)
  {
    CompletionOrderIrrelevant(completions, reports);
    var providers, failures := Concatenate(SortByIndex(completions), reports);
    providers := ExpireCredits(providers, now);
    report := Finish(keyed, now, providers, failures);
  }

  method ExpireCredits(usages: seq<Usage>, now: int) returns (providers: seq<Usage>)
    ensures providers == DropAllExpired(usages, now)
  {
    providers := usages;
    for i := 0 to |providers|
      invariant |providers| == |usages|
      invariant forall k :: 0 <= k < i ==> providers[k] == DropExpired(usages[k], now)
      invariant forall k :: i <= k < |usages| ==> providers[k] == usages[k]
    {
      if providers[i].resetCredits.Some? && !providers[i].resetCredits.value.ValidAt(now) {
        providers := providers[i := providers[i].(resetCredits := None)];
      }
    }
  }

  method Concatenate(results: seq<Completion<Report>>, ghost reports: seq<Report>)
    returns (providers: seq<Usage>, failures: seq<ReportFailure>)
    requires results == InOrder(reports)
    ensures providers == AllProviders(reports) && failures == AllFailures(reports)
  {
    providers, failures := [], [];
    for i := 0 to |results|
      invariant AllProviders(reports) == providers + AllProviders(reports[i..])
      invariant AllFailures(reports) == failures + AllFailures(reports[i..])
    {
      assert reports[i..][1..] == reports[i + 1..];
      providers := providers + results[i].value.providers;
      failures := failures + results[i].value.failures;
    }
    assert providers + [] == providers && failures + [] == failures;
  }

  /** What the last steps keep are collected usages, at most without their expired balance. */
  lemma {:induction false} KeptIsKnown(keyed: string -> bool, now: int, all: seq<Usage>, usage: Usage)
    requires usage in Reconciled(keyed, DropAllExpired(all, now))
    ensures Represented(all, usage)
  {
    var current := DropAllExpired(all, now);
    Filtered((u: Usage) => !Redundant(keyed, current, u), current, usage);
    var k :| 0 <= k < |current| && current[k] == usage;
    assert SameDiagnostics(all[k], usage);
  }

  lemma {:induction false} PartKept(reports: seq<Report>, i: nat)
    requires i < |reports|
    ensures forall u :: u in reports[i].providers ==> u in AllProviders(reports)
    ensures forall f :: f in reports[i].failures ==> f in AllFailures(reports)
  {
    if i > 0 {
      PartKept(reports[1..], i - 1);
    }
  }

  lemma ExpiredKept(usages: seq<Usage>, now: int, usage: Usage)
    requires usage in usages
    ensures DropExpired(usage, now) in DropAllExpired(usages, now)
  {
    var k :| 0 <= k < |usages| && usages[k] == usage;
    assert DropAllExpired(usages, now)[k] == DropExpired(usage, now);
  }

  /** The same for the joined report: every part's usages, at most without their balance, and failures. */
  lemma CachedAnswers(keyed: string -> bool, now: int, reports: seq<Report>, i: nat)
    requires i < |reports|
    ensures var report := CollectedCached(keyed, now, reports);
      && (forall u :: u in reports[i].providers ==> Accounted(report.providers, DropExpired(u, now)))
      && (forall f :: f in reports[i].failures ==> f in report.failures)
  {
    hide Reconciled, Accounted, DropExpired;
    var report := CollectedCached(keyed, now, reports);
    PartKept(reports, i);
    forall u | u in reports[i].providers ensures Accounted(report.providers, DropExpired(u, now)) {
      ExpiredKept(AllProviders(reports), now, u);
      ReconciledAccounts(keyed, DropAllExpired(AllProviders(reports), now), DropExpired(u, now));
    }
    IncludedCoversAll(AllFailures(reports), report.providers);
  }

  /**
    Joining reports adds no failure exactly when every usage that survives is from a part that noted its
    diagnostics or has them covered by the parts' failures.
   */
  lemma CachedAddsNothing(keyed: string -> bool, now: int, reports: seq<Report>)
    ensures var report := CollectedCached(keyed, now, reports);
      report.failures == AllFailures(reports) <==>
      forall k :: 0 <= k < |report.providers| ==>
        FromNoted(reports, report.providers[k]) || UsageCovered(AllFailures(reports), report.providers[k])
  {
    hide FromNoted, UsageCovered, Reconciled;
    IncludeAtBothLayers(reports, CollectedCached(keyed, now, reports).providers);
  }

  /** Dropping an expired balance changes nothing else, and keeps one that is current. */
  lemma CurrentCreditsKept(usage: Usage, now: int)
    ensures DropExpired(usage, now).(resetCredits := usage.resetCredits) == usage
    ensures DropExpired(usage, now) == usage <==>
      (usage.resetCredits.Some? ==>
         && usage.resetCredits.value.fetchedAt <= now
         && (usage.resetCredits.value.earliestExpiry.Some? ==> now < usage.resetCredits.value.earliestExpiry.value))
    ensures DropExpired(usage, now).resetCredits in {usage.resetCredits, None}
  {
  }

  /** No report advertises a balance that has expired or comes from the future. */
  lemma CachedCreditsCurrent(keyed: string -> bool, now: int, reports: seq<Report>, usage: Usage)
    requires usage in CollectedCached(keyed, now, reports).providers && usage.resetCredits.Some?
    ensures usage.resetCredits.value.ValidAt(now)
  {
    var current := DropAllExpired(AllProviders(reports), now);
    Filtered((u: Usage) => !Redundant(keyed, current, u), current, usage);
  }
}
