/**
  What an undisturbed run of the disk cache comes to (src/cache.rs, `UsageCache::one`): a fetched usage
  is stored, a fresh one is served without a fetch, and a stale one stands in for a failed fetch.
 */
module CacheRuns {
  import opened Fingerprint
  import opened Results
  import opened Reports
  import opened UsageCache

  /** The state after further steps. */
  function After(c: Config, s: State, steps: seq<Step>): State {
    if steps == [] then s else Apply(c, After(c, s, steps[..|steps| - 1]), steps[|steps| - 1])
  }

  lemma AfterNext(c: Config, s: State, steps: seq<Step>, step: Step)
    ensures After(c, s, steps + [step]) == Apply(c, After(c, s, steps), step)
  {
    assert (steps + [step])[..|steps|] == steps;
  }

  lemma {:induction false} AfterBoth(c: Config, s: State, first: seq<Step>, second: seq<Step>)
    ensures After(c, s, first + second) == After(c, After(c, s, first), second)
  {
    hide Apply;
    if second == [] {
      assert first + second == first;
    } else {
      var n := |second| - 1;
      AfterBoth(c, s, first, second[..n]);
      assert first + second == first + second[..n] + [second[n]];
      AfterNext(c, s, first + second[..n], second[n]);
    }
  }

  lemma {:induction false} RunThen(c: Config, steps: seq<Step>, more: seq<Step>)
    ensures RunAll(c, steps + more) == After(c, RunAll(c, steps), more)
  {
    hide Apply;
    if more == [] {
      assert steps + more == steps;
    } else {
      var n := |more| - 1;
      RunThen(c, steps, more[..n]);
      assert (steps + more)[..|steps + more| - 1] == steps + more[..n];
    }
  }

  // ------------------------------------------------------------------ the disk

  /** The step that puts a usage on disk: the identity confirmed, the usage cacheable, the rename done. */
  predicate Stores(c: Config, s: State, step: Step) {
    && step.Act? && step.action == Settle(true)
    && step.r in s.runs && s.runs[step.r].pc.Confirmed?
    && var pc := s.runs[step.r].pc;
       pc.same && pc.entry.Some? && pc.result.Some? && c.cacheable(pc.result.value)
  }

  /**
    In every run, that step stores exactly the fetched usage, with the identity its run saw three times,
    under the entry of its adapter and that identity; no other step changes the disk.
   */
  lemma {:induction false} DiskStep(c: Config, steps: seq<Step>, step: Step)
    requires c.Lawful()
    ensures var s, next := RunAll(c, steps), RunAll(c, steps + [step]);
      if Stores(c, s, step) then
        var run := s.runs[step.r];
        var identity := run.pc.entry.value.identity;
        && next.disk == s.disk[KeyOf(c, run.adapter, identity) := Stored(run.pc.result.value, |s.writes|)]
        && next.writes == s.writes + [Written(run.adapter, [Some(identity), Some(identity), Some(identity)],
                                              run.pc.result.value)]
      else next.disk == s.disk && next.writes == s.writes
  {
    hide Inv, DoAct;
    var s := RunAll(c, steps);
    RunInv(c, steps);
    assert (steps + [step])[..|steps|] == steps;
    hide RunAll;
    if step.Act? && step.r in s.runs {
      CurrentOf(c, s, step.r);
      ActDisk(c, s, step.r, step.action);
    }
  }

  lemma ActDisk(c: Config, s: State, r: RunId, action: Action)
    requires r in s.runs && Observed(c, s.runs[r])
    ensures var next := DoAct(c, s, r, action);
      if Stores(c, s, Act(r, action)) then
        var run := s.runs[r];
        var identity := run.pc.entry.value.identity;
        && next.disk == s.disk[KeyOf(c, run.adapter, identity) := Stored(run.pc.result.value, |s.writes|)]
        && next.writes == s.writes + [Written(run.adapter, [Some(identity), Some(identity), Some(identity)],
                                              run.pc.result.value)]
      else next.disk == s.disk && next.writes == s.writes
  {
    hide KeyOf, Snapshot, Fresh;
    if Stores(c, s, Act(r, action)) {
      var run := s.runs[r];
      var identity := run.pc.entry.value.identity;
      assert Steady(run.observed, identity, 3);
      assert run.observed == [Some(identity), Some(identity), Some(identity)];
    }
  }

  // ------------------------------------------------------------------ one run, undisturbed

  /** From its start to holding what its entry has, under an identity that stays the same. */
  function Opening(r: RunId, adapter: Adapter, force: bool, identity: string): seq<Step> {
    [Start(r, adapter, force), Act(r, Identify(Some(identity))), Act(r, OpenEntry), Act(r, ReadEntry(true)),
     Act(r, Recheck(Some(identity)))]
  }

  /** Run `r` gets this far, under these locks, and nothing else changes. */
  function With(s: State, r: RunId, run: Run, locks: map<Digest, RunId>): State {
    s.(runs := s.runs[r := run], locks := locks)
  }

  /** Where that leaves a run. */
  function Opened(c: Config, s: State, r: RunId, adapter: Adapter, force: bool, identity: string): State {
    var key := KeyOf(c, adapter, identity);
    With(s, r, Run(adapter, force, [Some(identity), Some(identity)],
                   Rechecked(Some(Access(identity, key)), true, Snapshot(c, s.disk, adapter, key), true)),
         s.locks[key := r])
  }

  lemma Identifies(c: Config, s: State, r: RunId, adapter: Adapter, force: bool, identity: string)
    ensures Apply(c, With(s, r, Run(adapter, force, [], Identifying), s.locks), Act(r, Identify(Some(identity))))
            == With(s, r, Run(adapter, force, [Some(identity)],
                              WantsEntry(Access(identity, KeyOf(c, adapter, identity)))), s.locks)
  {
    hide KeyOf, DoDecide, DoSettle;
    assert [] + [Some(identity)] == [Some(identity)];
  }

  lemma Opens(c: Config, s: State, r: RunId, adapter: Adapter, force: bool, access: Access)
    requires access.key !in s.locks
    ensures Apply(c, With(s, r, Run(adapter, force, [Some(access.identity)], WantsEntry(access)), s.locks),
                  Act(r, OpenEntry))
            == With(s, r, Run(adapter, force, [Some(access.identity)], HasEntry(access)), s.locks[access.key := r])
  {
    hide KeyOf, DoDecide, DoSettle;
  }

  lemma Reads(c: Config, s: State, r: RunId, adapter: Adapter, force: bool, access: Access, locks: map<Digest, RunId>)
    ensures Apply(c, With(s, r, Run(adapter, force, [Some(access.identity)], HasEntry(access)), locks),
                  Act(r, ReadEntry(true)))
            == With(s, r, Run(adapter, force, [Some(access.identity)],
                              HasSnapshot(access, Snapshot(c, s.disk, adapter, access.key), true)), locks)
  {
    hide KeyOf, DoDecide, DoSettle, Snapshot;
  }

  lemma Rechecks(c: Config, s: State, r: RunId, adapter: Adapter, force: bool, access: Access,
                 locks: map<Digest, RunId>, snapshot: Option<Usage>)
    ensures Apply(c, With(s, r, Run(adapter, force, [Some(access.identity)], HasSnapshot(access, snapshot, true)),
                          locks), Act(r, Recheck(Some(access.identity))))
            == With(s, r, Run(adapter, force, [Some(access.identity), Some(access.identity)],
                              Rechecked(Some(access), true, snapshot, true)), locks)
  {
    hide KeyOf, DoDecide, DoSettle;
    assert [Some(access.identity)] + [Some(access.identity)] == [Some(access.identity), Some(access.identity)];
  }

  lemma OpeningIs(c: Config, s: State, r: RunId, adapter: Adapter, force: bool, identity: string)
    requires r !in s.runs && KeyOf(c, adapter, identity) !in s.locks
    ensures After(c, s, Opening(r, adapter, force, identity)) == Opened(c, s, r, adapter, force, identity)
  {
    var all := Opening(r, adapter, force, identity);
    var access := Access(identity, KeyOf(c, adapter, identity));
    var locks := s.locks[access.key := r];
    assert Apply(c, s, all[0]) == With(s, r, Run(adapter, force, [], Identifying), s.locks);
    hide Apply, KeyOf, Snapshot;
    Identifies(c, s, r, adapter, force, identity);
    Opens(c, s, r, adapter, force, access);
    Reads(c, s, r, adapter, force, access, locks);
    Rechecks(c, s, r, adapter, force, access, locks, Snapshot(c, s.disk, adapter, access.key));
    FiveSteps(c, s, all);
  }

  lemma FiveSteps(c: Config, s: State, all: seq<Step>)
    requires |all| == 5
    ensures After(c, s, all) ==
            Apply(c, Apply(c, Apply(c, Apply(c, Apply(c, s, all[0]), all[1]), all[2]), all[3]), all[4])
  {
    hide Apply;
    AfterNext(c, s, all[..4], all[4]);
    AfterNext(c, s, all[..3], all[3]);
    AfterNext(c, s, all[..2], all[2]);
    AfterNext(c, s, all[..1], all[1]);
    AfterNext(c, s, [], all[0]);
    assert all == all[..4] + [all[4]] && all[..4] == all[..3] + [all[3]] && all[..3] == all[..2] + [all[2]];
    assert all[..2] == all[..1] + [all[1]] && all[..1] == [] + [all[0]];
  }

  /** The rest of a run that fetches: its decision, the answer, its identity again, and the end. */
  function Fetching(r: RunId, identity: string, now: int, inTime: bool, usage: Option<Usage>, renamed: bool)
    : seq<Step>
  {
    [Act(r, Decide(now, inTime)), Act(r, Respond(usage)), Act(r, Confirm(Some(identity))), Act(r, Settle(renamed))]
  }

  /** The run is over and gave its lock back. */
  function Ended(s: State, r: RunId, adapter: Adapter, force: bool, observed: seq<Option<string>>): State {
    s.(runs := s.runs[r := Run(adapter, force, observed, Done)])
  }

  /** The usage may be served: it is the adapter's, well-formed, cacheable. */
  ghost predicate Servable(c: Config, adapter: Adapter, usage: Usage) {
    && usage.provider == adapter.provider && IdOf(usage.accountRef) == IdOf(adapter.accountRef)
    && usage.windows != [] && c.cacheable(usage)
    && forall i :: 0 <= i < |usage.windows| ==> usage.windows[i].wellFormed && c.finiteAmounts(usage.windows[i])
  }

  /** Every part of it was fetched within the age limit, and its banked resets are current. */
  ghost predicate Young(c: Config, usage: Usage, now: int) {
    && (forall i :: 0 <= i < |usage.windows| ==> 0 <= now - usage.windows[i].fetchedAt < c.ttl)
    && match usage.resetCredits
       case None => true
       case Some(credits) =>
         && 0 <= now - credits.fetchedAt < c.ttl
         && (credits.earliestExpiry.Some? ==> now < credits.earliestExpiry.value)
  }

  /** What is stored for the adapter under the identity, if it may be served. */
  ghost predicate Holds(c: Config, s: State, adapter: Adapter, identity: string, stored: Stored) {
    && KeyOf(c, adapter, identity) in s.disk && s.disk[KeyOf(c, adapter, identity)] == stored
    && Servable(c, adapter, stored.usage)
  }

  lemma ServableIs(c: Config, adapter: Adapter, usage: Usage, now: int)
    ensures Acceptable(c, adapter, usage) <==> Servable(c, adapter, usage)
    ensures usage.windows != [] ==> (Fresh(c, usage, now) <==> Young(c, usage, now))
  {
  }

  lemma SnapshotIs(c: Config, s: State, adapter: Adapter, identity: string, stored: Stored)
    requires Holds(c, s, adapter, identity, stored)
    ensures Snapshot(c, s.disk, adapter, KeyOf(c, adapter, identity)) == Some(stored.usage)
  {
    hide KeyOf;
    ServableIs(c, adapter, stored.usage, 0);
  }

  lemma LocksBack(locks: map<Digest, RunId>, key: Digest, r: RunId)
    requires key !in locks
    ensures locks[key := r] - {key} == locks
  {
  }

  /**
    A run that is not forced, has time left and finds a fresh usage serves it under its own reference,
    and neither fetches nor writes.
   */
  lemma FreshIsServed(c: Config, s: State, r: RunId, adapter: Adapter, identity: string, now: int, stored: Stored)
    requires r !in s.runs && KeyOf(c, adapter, identity) !in s.locks
    requires Holds(c, s, adapter, identity, stored) && Young(c, stored.usage, now)
    ensures After(c, s, Opening(r, adapter, false, identity) + [Act(r, Decide(now, true))]) ==
      Ended(s, r, adapter, false, [Some(identity), Some(identity)]).(
        served := s.served + [Served(adapter, [Some(identity), Some(identity)],
          stored.usage.(accountRef := adapter.accountRef), false, now, stored.write)])
  {
    hide KeyOf, Snapshot, Fresh, Acceptable, Holds;
    OpeningIs(c, s, r, adapter, false, identity);
    AfterNext(c, s, Opening(r, adapter, false, identity), Act(r, Decide(now, true)));
    SnapshotIs(c, s, adapter, identity, stored);
    HoldsMore(c, s, adapter, identity, stored);
    ServableIs(c, adapter, stored.usage, now);
    LocksBack(s.locks, KeyOf(c, adapter, identity), r);
    hide After, Young, Servable;
  }

  lemma HoldsMore(c: Config, s: State, adapter: Adapter, identity: string, stored: Stored)
    requires Holds(c, s, adapter, identity, stored)
    ensures KeyOf(c, adapter, identity) in s.disk && s.disk[KeyOf(c, adapter, identity)] == stored
    ensures stored.usage.windows != []
  {
  }

  // ------------------------------------------------------------------ a run that fetches

  /** What the run would serve instead of fetching. */
  ghost predicate Serves(c: Config, s: State, adapter: Adapter, force: bool, identity: string, now: int, inTime: bool) {
    && !force && inTime && KeyOf(c, adapter, identity) in s.disk
    && Servable(c, adapter, s.disk[KeyOf(c, adapter, identity)].usage)
    && Young(c, s.disk[KeyOf(c, adapter, identity)].usage, now)
  }

  /** The run with its answer, its identity confirmed, about to settle. */
  function Answered(c: Config, s: State, r: RunId, adapter: Adapter, force: bool, identity: string, now: int,
                    inTime: bool, usage: Option<Usage>): State
  {
    var key := KeyOf(c, adapter, identity);
    With(s, r, Run(adapter, force, [Some(identity), Some(identity), Some(identity)],
                   Confirmed(Some(Access(identity, key)), true, Snapshot(c, s.disk, adapter, key), usage)),
         s.locks[key := r]).(
      fetches := s.fetches + [Fetch(adapter, force, true, true, inTime, now, Lookup(s.disk, key))])
  }

  lemma Decides(c: Config, s: State, r: RunId, adapter: Adapter, force: bool, identity: string, now: int, inTime: bool)
    requires !Serves(c, s, adapter, force, identity, now, inTime)
    ensures var key := KeyOf(c, adapter, identity);
      Apply(c, Opened(c, s, r, adapter, force, identity), Act(r, Decide(now, inTime)))
      == With(s, r, Run(adapter, force, [Some(identity), Some(identity)],
                        Pc.Fetching(Some(Access(identity, key)), true, Snapshot(c, s.disk, adapter, key))),
              s.locks[key := r]).(
           fetches := s.fetches + [Fetch(adapter, force, true, true, inTime, now, Lookup(s.disk, key))])
  {
    hide KeyOf, Young, Servable, Fresh, Acceptable, DoSettle;
    var key := KeyOf(c, adapter, identity);
    if key in s.disk {
      ServableIs(c, adapter, s.disk[key].usage, now);
      ServableWindows(c, adapter, s.disk[key].usage);
    }
  }

  lemma ServableWindows(c: Config, adapter: Adapter, usage: Usage)
    ensures Servable(c, adapter, usage) ==> usage.windows != []
  {
  }

  lemma Confirms(c: Config, s: State, r: RunId, adapter: Adapter, force: bool, identity: string,
                 locks: map<Digest, RunId>, snapshot: Option<Usage>, usage: Option<Usage>)
    requires usage.Some? ==> usage.value.provider == adapter.provider && usage.value.accountRef == adapter.accountRef
    ensures var access := Access(identity, KeyOf(c, adapter, identity));
      Apply(c, Apply(c, With(s, r, Run(adapter, force, [Some(identity), Some(identity)],
                                       Pc.Fetching(Some(access), true, snapshot)), locks),
                     Act(r, Respond(usage))), Act(r, Confirm(Some(identity))))
      == With(s, r, Run(adapter, force, [Some(identity), Some(identity), Some(identity)],
                        Confirmed(Some(access), true, snapshot, usage)), locks)
  {
    hide KeyOf, DoDecide, DoSettle;
    assert [Some(identity), Some(identity)] + [Some(identity)] == [Some(identity), Some(identity), Some(identity)];
  }

  lemma FourSteps(c: Config, s: State, before: seq<Step>, all: seq<Step>)
    requires |all| == 4
    ensures After(c, s, before + all) ==
            Apply(c, Apply(c, Apply(c, Apply(c, After(c, s, before), all[0]), all[1]), all[2]), all[3])
  {
    hide Apply;
    AfterNext(c, s, before + all[..3], all[3]);
    AfterNext(c, s, before + all[..2], all[2]);
    AfterNext(c, s, before + all[..1], all[1]);
    AfterNext(c, s, before, all[0]);
    assert before + all == before + all[..3] + [all[3]] && before + all[..3] == before + all[..2] + [all[2]];
    assert before + all[..2] == before + all[..1] + [all[1]] && before + all[..1] == before + [all[0]];
  }

  /** A whole run that fetches. */
  function Whole(r: RunId, adapter: Adapter, force: bool, identity: string, now: int, inTime: bool,
                 usage: Option<Usage>, renamed: bool): seq<Step>
  {
    Opening(r, adapter, force, identity) + Fetching(r, identity, now, inTime, usage, renamed)
  }

  lemma WholeIs(c: Config, s: State, r: RunId, adapter: Adapter, force: bool, identity: string, now: int,
                inTime: bool, usage: Option<Usage>, renamed: bool)
    requires r !in s.runs && KeyOf(c, adapter, identity) !in s.locks
    requires !Serves(c, s, adapter, force, identity, now, inTime)
    requires usage.Some? ==> usage.value.provider == adapter.provider && usage.value.accountRef == adapter.accountRef
    ensures After(c, s, Whole(r, adapter, force, identity, now, inTime, usage, renamed)) ==
      Apply(c, Answered(c, s, r, adapter, force, identity, now, inTime, usage), Act(r, Settle(renamed)))
  {
    hide KeyOf, Apply, Snapshot, Serves, Opened, After, Lookup;
    var key := KeyOf(c, adapter, identity);
    OpeningIs(c, s, r, adapter, force, identity);
    FourSteps(c, s, Opening(r, adapter, force, identity), Fetching(r, identity, now, inTime, usage, renamed));
    Decides(c, s, r, adapter, force, identity, now, inTime);
    var fetched := s.(fetches := s.fetches + [Fetch(adapter, force, true, true, inTime, now, Lookup(s.disk, key))]);
    Confirms(c, fetched, r, adapter, force, identity, s.locks[key := r], Snapshot(c, s.disk, adapter, key), usage);
  }

  /**
    A run with nothing fresh to serve fetches once, and stores a cacheable answer under its entry if the
    rename succeeds.  It serves nothing from disk and gives its lock back.
   */
  lemma FetchedIsStored(c: Config, s: State, r: RunId, adapter: Adapter, force: bool, identity: string, now: int,
                        inTime: bool, usage: Usage, renamed: bool)
    requires r !in s.runs && KeyOf(c, adapter, identity) !in s.locks
    requires !Serves(c, s, adapter, force, identity, now, inTime)
    requires usage.provider == adapter.provider && usage.accountRef == adapter.accountRef
    ensures var key := KeyOf(c, adapter, identity);
      var thrice := [Some(identity), Some(identity), Some(identity)];
      var stores := c.cacheable(usage) && renamed;
      After(c, s, Whole(r, adapter, force, identity, now, inTime, Some(usage), renamed)) ==
      Ended(s, r, adapter, force, thrice).(
        fetches := s.fetches + [Fetch(adapter, force, true, true, inTime, now, Lookup(s.disk, key))],
        disk := if stores then s.disk[key := Stored(usage, |s.writes|)] else s.disk,
        writes := if stores then s.writes + [Written(adapter, thrice, usage)] else s.writes)
  {
    hide KeyOf, Snapshot, Serves, After, Lookup, DoDecide;
    WholeIs(c, s, r, adapter, force, identity, now, inTime, Some(usage), renamed);
    LocksBack(s.locks, KeyOf(c, adapter, identity), r);
  }

  /** A run whose fetch fails serves what is stored, however old, without its banked resets. */
  lemma StaleStandsIn(c: Config, s: State, r: RunId, adapter: Adapter, force: bool, identity: string, now: int,
                      inTime: bool, stored: Stored, renamed: bool)
    requires r !in s.runs && KeyOf(c, adapter, identity) !in s.locks
    requires Holds(c, s, adapter, identity, stored) && !Serves(c, s, adapter, force, identity, now, inTime)
    ensures var thrice := [Some(identity), Some(identity), Some(identity)];
      After(c, s, Whole(r, adapter, force, identity, now, inTime, None, renamed)) ==
      Ended(s, r, adapter, force, thrice).(
        fetches := s.fetches + [Fetch(adapter, force, true, true, inTime, now, Some(stored.usage))],
        served := s.served + [Served(adapter, thrice,
          stored.usage.(accountRef := adapter.accountRef, resetCredits := None), true, 0, stored.write)])
  {
    hide KeyOf, Snapshot, Serves, After, DoDecide, Holds;
    WholeIs(c, s, r, adapter, force, identity, now, inTime, None, renamed);
    LocksBack(s.locks, KeyOf(c, adapter, identity), r);
    SnapshotIs(c, s, adapter, identity, stored);
    HoldsMore(c, s, adapter, identity, stored);
  }

  /** With nothing usable stored, a failed fetch serves nothing and stores nothing. */
  lemma NothingStandsIn(c: Config, s: State, r: RunId, adapter: Adapter, force: bool, identity: string, now: int,
                        inTime: bool, renamed: bool)
    requires r !in s.runs && KeyOf(c, adapter, identity) !in s.locks
    requires KeyOf(c, adapter, identity) in s.disk ==>
      !Servable(c, adapter, s.disk[KeyOf(c, adapter, identity)].usage)
    ensures After(c, s, Whole(r, adapter, force, identity, now, inTime, None, renamed)) ==
      Ended(s, r, adapter, force, [Some(identity), Some(identity), Some(identity)]).(
        fetches := s.fetches + [Fetch(adapter, force, true, true, inTime, now,
                                      Lookup(s.disk, KeyOf(c, adapter, identity)))])
  {
    hide KeyOf, After, DoDecide, Servable, Acceptable, Fresh, Young;
    var key := KeyOf(c, adapter, identity);
    WholeIs(c, s, r, adapter, force, identity, now, inTime, None, renamed);
    LocksBack(s.locks, key, r);
    if key in s.disk {
      ServableIs(c, adapter, s.disk[key].usage, now);
    }
  }

  /**
    Two runs one after the other, under one identity and within the age limit: the first stores what it
    fetched, and the second serves exactly that without a fetch of its own.
   */
  lemma SecondRunServes(c: Config, s: State, q: RunId, r: RunId, adapter: Adapter, force: bool, identity: string,
                        now: int, inTime: bool, usage: Usage, later: int)
    requires q !in s.runs && r !in s.runs && q != r && KeyOf(c, adapter, identity) !in s.locks
    requires !Serves(c, s, adapter, force, identity, now, inTime)
    requires usage.provider == adapter.provider && usage.accountRef == adapter.accountRef
    requires Servable(c, adapter, usage) && Young(c, usage, later)
    ensures var next := After(c, s, Whole(q, adapter, force, identity, now, inTime, Some(usage), true)
                                    + (Opening(r, adapter, false, identity) + [Act(r, Decide(later, true))]));
      && next.disk == s.disk[KeyOf(c, adapter, identity) := Stored(usage, |s.writes|)]
      && |next.fetches| == |s.fetches| + 1 && |next.served| == |s.served| + 1
      && next.served[|s.served|] ==
         Served(adapter, [Some(identity), Some(identity)], usage, false, later, |s.writes|)
  {
    hide KeyOf, After, Serves, Servable, Young, Apply;
    var first := Whole(q, adapter, force, identity, now, inTime, Some(usage), true);
    var second := Opening(r, adapter, false, identity) + [Act(r, Decide(later, true))];
    AfterBoth(c, s, first, second);
    FetchedIsStored(c, s, q, adapter, force, identity, now, inTime, usage, true);
    ServableCacheable(c, adapter, usage);
    FreshIsServed(c, After(c, s, first), r, adapter, identity, later, Stored(usage, |s.writes|));
    hide Whole, Opening;
    assert usage.(accountRef := adapter.accountRef) == usage;
  }

  lemma ServableCacheable(c: Config, adapter: Adapter, usage: Usage)
    requires Servable(c, adapter, usage)
    ensures c.cacheable(usage)
  {
  }

  // ------------------------------------------------------------------ a run without an entry it may use

  lemma DecidesToFetch(c: Config, s: State, r: RunId, adapter: Adapter, force: bool, observed: seq<Option<string>>,
                       entry: Option<Access>, same: bool, snapshot: Option<Usage>, readable: bool,
                       locks: map<Digest, RunId>, now: int, inTime: bool)
    requires snapshot == None
    ensures Apply(c, With(s, r, Run(adapter, force, observed, Rechecked(entry, same, snapshot, readable)), locks),
                  Act(r, Decide(now, inTime)))
      == With(s, r, Run(adapter, force, observed, Pc.Fetching(entry, same, snapshot)), locks).(
           fetches := s.fetches + [Fetch(adapter, force, same, readable, inTime, now,
                                         if entry.Some? then Lookup(s.disk, entry.value.key) else None)])
  {
    hide KeyOf, Fresh, Lookup, DoSettle;
  }

  lemma AnswersAndConfirms(c: Config, s: State, r: RunId, adapter: Adapter, force: bool,
                           observed: seq<Option<string>>, entry: Option<Access>, same: bool,
                           snapshot: Option<Usage>, locks: map<Digest, RunId>, usage: Option<Usage>,
                           again: Option<string>)
    requires usage.Some? ==> usage.value.provider == adapter.provider && usage.value.accountRef == adapter.accountRef
    ensures Apply(c, Apply(c, With(s, r, Run(adapter, force, observed, Pc.Fetching(entry, same, snapshot)), locks),
                           Act(r, Respond(usage))), Act(r, Confirm(again)))
      == With(s, r, Run(adapter, force, observed + [again],
                        Confirmed(entry, same && entry.Some? && again == Some(entry.value.identity), snapshot, usage)),
              locks)
  {
    hide KeyOf, DoDecide, DoSettle;
  }

  lemma SettlesNothing(c: Config, s: State, r: RunId, adapter: Adapter, force: bool, observed: seq<Option<string>>,
                       entry: Option<Access>, snapshot: Option<Usage>, usage: Option<Usage>, renamed: bool)
    requires entry.Some? ==> entry.value.key !in s.locks
    ensures Apply(c, With(s, r, Run(adapter, force, observed, Confirmed(entry, false, snapshot, usage)),
                          if entry.Some? then s.locks[entry.value.key := r] else s.locks), Act(r, Settle(renamed)))
      == Ended(s, r, adapter, force, observed)
  {
    hide KeyOf, DoDecide, Serve;
    if entry.Some? {
      LocksBack(s.locks, entry.value.key, r);
    }
  }

  /** The rest of a run that has nothing to serve: it fetches, looks at its identity again, and ends. */
  function Rest(c: Config, start: State, r: RunId, now: int, inTime: bool, usage: Option<Usage>,
                again: Option<string>, renamed: bool): State
  {
    Apply(c, Apply(c, Apply(c, Apply(c, start, Act(r, Decide(now, inTime))), Act(r, Respond(usage))),
                   Act(r, Confirm(again))), Act(r, Settle(renamed)))
  }

  /** A run with no identity, or that could not get its entry, fetches all the same and leaves the cache alone. */
  lemma WithoutEntry(c: Config, s: State, r: RunId, adapter: Adapter, force: bool, observed: seq<Option<string>>,
                     now: int, inTime: bool, usage: Option<Usage>, again: Option<string>, renamed: bool)
    requires usage.Some? ==> usage.value.provider == adapter.provider && usage.value.accountRef == adapter.accountRef
    ensures Rest(c, With(s, r, Run(adapter, force, observed, Rechecked(None, false, None, false)), s.locks), r, now,
                 inTime, usage, again, renamed)
      == Ended(s, r, adapter, force, observed + [again]).(
           fetches := s.fetches + [Fetch(adapter, force, false, false, inTime, now, None)])
  {
    hide Apply;
    var fetched := s.(fetches := s.fetches + [Fetch(adapter, force, false, false, inTime, now, None)]);
    DecidesToFetch(c, s, r, adapter, force, observed, None, false, None, false, s.locks, now, inTime);
    AnswersAndConfirms(c, fetched, r, adapter, force, observed, None, false, None, s.locks, usage, again);
    SettlesNothing(c, fetched, r, adapter, force, observed + [again], None, None, usage, renamed);
  }

  /** Getting there: without an identity at once, and otherwise when the entry cannot be opened. */
  lemma GivesUp(c: Config, s: State, r: RunId, adapter: Adapter, force: bool, identity: string)
    ensures Apply(c, With(s, r, Run(adapter, force, [], Identifying), s.locks), Act(r, Identify(None)))
            == With(s, r, Run(adapter, force, [None], Rechecked(None, false, None, false)), s.locks)
    ensures var access := Access(identity, KeyOf(c, adapter, identity));
      Apply(c, With(s, r, Run(adapter, force, [Some(identity)], WantsEntry(access)), s.locks), Act(r, GiveUp))
      == With(s, r, Run(adapter, force, [Some(identity)], Rechecked(None, false, None, false)), s.locks)
  {
    hide KeyOf, DoDecide, DoSettle, Snapshot;
    var none: seq<Option<string>> := [];
    assert none + [None] == [None];
  }

  /**
    A run whose identity is another one when it looks again, before or after its fetch, serves nothing
    from disk and stores nothing.
   */
  lemma ChangedIdentity(c: Config, s: State, r: RunId, adapter: Adapter, force: bool, access: Access,
                        snapshot: Option<Usage>, before: Option<string>, now: int, inTime: bool,
                        usage: Option<Usage>, after: Option<string>, renamed: bool)
    requires access.key !in s.locks && (before != Some(access.identity) || after != Some(access.identity))
    requires usage.Some? ==> usage.value.provider == adapter.provider && usage.value.accountRef == adapter.accountRef
    requires before == Some(access.identity) ==> snapshot == None
    ensures var start := With(s, r, Run(adapter, force, [Some(access.identity)], HasSnapshot(access, snapshot, true)),
                              s.locks[access.key := r]);
      Rest(c, Apply(c, start, Act(r, Recheck(before))), r, now, inTime, usage, after, renamed)
      == Ended(s, r, adapter, force, [Some(access.identity), before, after]).(
           fetches := s.fetches + [Fetch(adapter, force, before == Some(access.identity), true, inTime, now,
                                         Lookup(s.disk, access.key))])
  {
    hide Apply, Lookup;
    var same := before == Some(access.identity);
    var seen := [Some(access.identity), before];
    var locks := s.locks[access.key := r];
    var fetched := s.(fetches := s.fetches + [Fetch(adapter, force, same, true, inTime, now,
                                                    Lookup(s.disk, access.key))]);
    ChecksAgain(c, s, r, adapter, force, access, snapshot, before, locks);
    DecidesToFetch(c, s, r, adapter, force, seen, Some(access), same, None, true, locks, now, inTime);
    AnswersAndConfirms(c, fetched, r, adapter, force, seen, Some(access), same, None, locks, usage, after);
    SettlesNothing(c, fetched, r, adapter, force, seen + [after], Some(access), None, usage, renamed);
    assert seen + [after] == [Some(access.identity), before, after];
  }

  lemma ChecksAgain(c: Config, s: State, r: RunId, adapter: Adapter, force: bool, access: Access,
                    snapshot: Option<Usage>, before: Option<string>, locks: map<Digest, RunId>)
    ensures var same := before == Some(access.identity);
      Apply(c, With(s, r, Run(adapter, force, [Some(access.identity)], HasSnapshot(access, snapshot, true)), locks),
            Act(r, Recheck(before)))
      == With(s, r, Run(adapter, force, [Some(access.identity), before],
                        Rechecked(Some(access), same, if same then snapshot else None, true)), locks)
  {
    hide KeyOf, DoDecide, DoSettle;
    assert [Some(access.identity)] + [before] == [Some(access.identity), before];
  }
}
