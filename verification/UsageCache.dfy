/**
  The disk cache of usage (src/cache.rs, `UsageCache::one`) under any interleaving of runs, in one
  process or several.  A run takes the lock of its entry, reads it, checks its identity, and either
  serves what it read or fetches and writes back; the identity may change at any moment.
 */
module UsageCache {
  import opened Fingerprint
  import opened Results
  import opened Reports

  type RunId = nat

  datatype Adapter = Adapter(provider: string, accountRef: Option<AccountRef>)

  /** What the cache is configured with, and the adapters' own judgement of a usage. */
  datatype Config = Config(ttl: int, cacheable: Usage -> bool, finiteAmounts: QuotaWindow -> bool,
      utf8: string -> Text) {
    ghost predicate Lawful() {
      forall a, b :: utf8(a) == utf8(b) ==> a == b
    }
  }

  /** The identity a run acts for, and the entry it may use. */
  datatype Access = Access(identity: string, key: Digest)

  datatype Pc =
    | Identifying
    | WantsEntry(access: Access)
    | HasEntry(access: Access)
    | HasSnapshot(access: Access, snapshot: Option<Usage>, readable: bool)
    | Rechecked(entry: Option<Access>, same: bool, snapshot: Option<Usage>, readable: bool)
    | Fetching(entry: Option<Access>, same: bool, snapshot: Option<Usage>)
    | Fetched(entry: Option<Access>, same: bool, snapshot: Option<Usage>, result: Option<Usage>)
    | Confirmed(entry: Option<Access>, same: bool, snapshot: Option<Usage>, result: Option<Usage>)
    | Done
  {
    /** The entry whose lock is held here. */
    function Held(): Option<Access> {
      match this
      case HasEntry(access) => Some(access)
      case HasSnapshot(access, _, _) => Some(access)
      case Rechecked(entry, _, _, _) => entry
      case Fetching(entry, _, _) => entry
      case Fetched(entry, _, _, _) => entry
      case Confirmed(entry, _, _, _) => entry
      case _ => None
    }
  }

  /** `observed` lists the identities the run has seen, in order. */
  datatype Run = Run(adapter: Adapter, force: bool, observed: seq<Option<string>>, pc: Pc)

  /** A stored usage and the write it came from. */
  datatype Stored = Stored(usage: Usage, write: nat)

  /** A write, with the identities its run had observed: two before its fetch and one after. */
  datatype Written = Written(adapter: Adapter, observed: seq<Option<string>>, usage: Usage)
  datatype Served = Served(adapter: Adapter, observed: seq<Option<string>>, usage: Usage, stale: bool, at: int,
      write: nat)

  /** A fetch that began: under which conditions, and what the entry held then. */
  datatype Fetch = Fetch(adapter: Adapter, force: bool, confirmed: bool, readable: bool, inTime: bool, at: int,
      stored: Option<Usage>)

  datatype State = State(
    disk: map<Digest, Stored>, locks: map<Digest, RunId>, runs: map<RunId, Run>,
    writes: seq<Written>, served: seq<Served>, fetches: seq<Fetch>)

  const INITIAL: State := State(map[], map[], map[], [], [], [])

  datatype Action =
    | Identify(observed: Option<string>)
    | OpenEntry
    | GiveUp
    | ReadEntry(readable: bool)
    | Recheck(observed: Option<string>)
    | Decide(now: int, inTime: bool)
    | Respond(usage: Option<Usage>)
    | Confirm(observed: Option<string>)
    | Settle(renamed: bool)
    | Crash

  datatype Step = Start(r: RunId, adapter: Adapter, force: bool) | Act(r: RunId, action: Action)

  // ------------------------------------------------------------------ what a run reads

  function AccountText(adapter: Adapter): string {
    if adapter.accountRef.Some? then adapter.accountRef.value.id else ""
  }

  function KeyOf(c: Config, adapter: Adapter, identity: string): Digest {
    Fingerprint.Of([Ascii("usage-v1"), c.utf8(adapter.provider), c.utf8(AccountText(adapter)), c.utf8(identity)])
  }

  predicate Valid(c: Config, usage: Usage) {
    usage.windows != [] && forall i :: 0 <= i < |usage.windows| ==>
      usage.windows[i].wellFormed && c.finiteAmounts(usage.windows[i])
  }

  /** The filter on what is read back; only it tells no account from one with an empty id. */
  predicate Acceptable(c: Config, adapter: Adapter, usage: Usage) {
    && usage.provider == adapter.provider
    && IdOf(usage.accountRef) == IdOf(adapter.accountRef)
    && Valid(c, usage)
    && c.cacheable(usage)
  }

  /** Every part of the usage is younger than the limit and not from the future. */
  predicate Fresh(c: Config, usage: Usage, now: int) {
    && usage.windows != []
    && (usage.resetCredits.Some? ==>
          usage.resetCredits.value.ValidAt(now) && now - usage.resetCredits.value.fetchedAt < c.ttl)
    && forall i :: 0 <= i < |usage.windows| ==> 0 <= now - usage.windows[i].fetchedAt < c.ttl
  }

  function Lookup(disk: map<Digest, Stored>, key: Digest): Option<Usage> {
    if key in disk then Some(disk[key].usage) else None
  }

  function Snapshot(c: Config, disk: map<Digest, Stored>, adapter: Adapter, key: Digest): Option<Usage> {
    match Lookup(disk, key)
    case None => None
    case Some(usage) => if Acceptable(c, adapter, usage) then Some(usage) else None
  }

  /** What a run returns from disk: under its own reference, and a stale one without banked resets. */
  function Restored(usage: Usage, adapter: Adapter, stale: bool): Usage {
    var named := usage.(accountRef := adapter.accountRef);
    if stale then named.(resetCredits := None) else named
  }

  // ------------------------------------------------------------------ steps

  function WithPc(s: State, r: RunId, pc: Pc): State
    requires r in s.runs
  {
    s.(runs := s.runs[r := s.runs[r].(pc := pc)])
  }

  function Observing(s: State, r: RunId, observed: Option<string>, pc: Pc): State
    requires r in s.runs
  {
    s.(runs := s.runs[r := s.runs[r].(observed := s.runs[r].observed + [observed], pc := pc)])
  }

  /** The run ends; its entry's lock goes with it. */
  function Finish(s: State, r: RunId): State
    requires r in s.runs
  {
    var held := s.runs[r].pc.Held();
    WithPc(s, r, Done).(locks := if held.Some? && held.value.key in s.locks && s.locks[held.value.key] == r
                                 then s.locks - {held.value.key} else s.locks)
  }

  function Serve(s: State, run: Run, access: Access, usage: Usage, stale: bool, now: int): State
    requires access.key in s.disk
  {
    s.(served := s.served + [Served(run.adapter, run.observed, Restored(usage, run.adapter, stale), stale, now,
                                    s.disk[access.key].write)])
  }

  function DoDecide(c: Config, s: State, r: RunId, now: int, inTime: bool): State
    requires r in s.runs && s.runs[r].pc.Rechecked?
  {
    var run := s.runs[r];
    var pc := run.pc;
    if !run.force && inTime && pc.snapshot.Some? && pc.entry.Some? && pc.entry.value.key in s.disk
      && Fresh(c, pc.snapshot.value, now)
    then Finish(Serve(s, run, pc.entry.value, pc.snapshot.value, false, now), r)
    else
      var stored := if pc.entry.Some? then Lookup(s.disk, pc.entry.value.key) else None;
      WithPc(s, r, Fetching(pc.entry, pc.same, pc.snapshot)).(
        fetches := s.fetches + [Fetch(run.adapter, run.force, pc.same, pc.readable, inTime, now, stored)])
  }

  /** A collected usage is the adapter's own, under its reference. */
  predicate Collects(adapter: Adapter, usage: Option<Usage>) {
    usage.Some? ==> usage.value.provider == adapter.provider && usage.value.accountRef == adapter.accountRef
  }

  /** After the fetch: write back under an unchanged identity, or fall back on the snapshot. */
  function DoSettle(c: Config, s: State, r: RunId, renamed: bool): State
    requires r in s.runs && s.runs[r].pc.Confirmed?
  {
    var run := s.runs[r];
    var pc := run.pc;
    if !pc.same || pc.entry.None? then Finish(s, r)
    else
      var access := pc.entry.value;
      match pc.result
      case Some(usage) =>
        if !c.cacheable(usage) || !renamed then Finish(s, r)
        else
          Finish(s.(disk := s.disk[access.key := Stored(usage, |s.writes|)],
                    writes := s.writes + [Written(run.adapter, run.observed, usage)]), r)
      case None =>
        if pc.snapshot.Some? && access.key in s.disk
        then Finish(Serve(s, run, access, pc.snapshot.value, true, 0), r)
        else Finish(s, r)
  }

  function DoAct(c: Config, s: State, r: RunId, action: Action): State
    requires r in s.runs
  {
    var run := s.runs[r];
    var pc := run.pc;
    match action
    case Identify(observed) =>
      if !pc.Identifying? then s
      else if observed.None? then Observing(s, r, None, Rechecked(None, false, None, false))
      else Observing(s, r, observed, WantsEntry(Access(observed.value, KeyOf(c, run.adapter, observed.value))))
    case OpenEntry =>
      if !pc.WantsEntry? || pc.access.key in s.locks then s
      else WithPc(s, r, HasEntry(pc.access)).(locks := s.locks[pc.access.key := r])
    case GiveUp => if pc.WantsEntry? then WithPc(s, r, Rechecked(None, false, None, false)) else s
    case ReadEntry(readable) =>
      if !pc.HasEntry? then s
      else
        var snapshot := if readable then Snapshot(c, s.disk, run.adapter, pc.access.key) else None;
        WithPc(s, r, HasSnapshot(pc.access, snapshot, readable))
    case Recheck(observed) =>
      if !pc.HasSnapshot? then s
      else
        var same := observed == Some(pc.access.identity);
        Observing(s, r, observed, Rechecked(Some(pc.access), same, if same then pc.snapshot else None, pc.readable))
    case Decide(now, inTime) => if pc.Rechecked? then DoDecide(c, s, r, now, inTime) else s
    case Respond(usage) =>
      if pc.Fetching? && Collects(run.adapter, usage) then WithPc(s, r, Fetched(pc.entry, pc.same, pc.snapshot, usage))
      else s
    case Confirm(observed) =>
      if !pc.Fetched? then s
      else
        var same := pc.same && pc.entry.Some? && observed == Some(pc.entry.value.identity);
        Observing(s, r, observed, Confirmed(pc.entry, same, pc.snapshot, pc.result))
    case Settle(renamed) => if pc.Confirmed? then DoSettle(c, s, r, renamed) else s
    case Crash => Finish(s, r)
  }

  function Apply(c: Config, s: State, step: Step): State {
    match step
    case Start(r, adapter, force) =>
      if r in s.runs then s else s.(runs := s.runs[r := Run(adapter, force, [], Identifying)])
    case Act(r, action) => if r in s.runs then DoAct(c, s, r, action) else s
  }

  function RunAll(c: Config, steps: seq<Step>): State {
    if steps == [] then INITIAL else Apply(c, RunAll(c, steps[..|steps| - 1]), steps[|steps| - 1])
  }

  // ------------------------------------------------------------------ invariant

  /** What a run has observed so far, by where it is. */
  predicate Observed(c: Config, run: Run) {
    match run.pc
    case Identifying => run.observed == []
    case WantsEntry(access) => Acts(c, run, access, 1)
    case HasEntry(access) => Acts(c, run, access, 1)
    case HasSnapshot(access, _, _) => Acts(c, run, access, 1)
    case Rechecked(entry, same, _, _) => entry.Some? && same ==> Acts(c, run, entry.value, 2)
    case Fetching(entry, same, _) => entry.Some? && same ==> Acts(c, run, entry.value, 2)
    case Fetched(entry, same, _, _) => entry.Some? && same ==> Acts(c, run, entry.value, 2)
    case Confirmed(entry, same, _, _) => entry.Some? && same ==> Acts(c, run, entry.value, 3)
    case Done => true
  }

  /** The run has seen its identity `times` times and no other, and uses that identity's entry. */
  predicate Acts(c: Config, run: Run, access: Access, times: nat) {
    access.key == KeyOf(c, run.adapter, access.identity) && Steady(run.observed, access.identity, times)
  }

  predicate Steady(observed: seq<Option<string>>, identity: string, times: nat) {
    |observed| == times && forall i :: 0 <= i < times ==> observed[i] == Some(identity)
  }

  /** Every entry on disk is some write of a run that kept one identity throughout. */
  predicate WellWritten(c: Config, key: Digest, stored: Stored, writes: seq<Written>) {
    && stored.write < |writes|
    && var w := writes[stored.write];
       && w.usage == stored.usage
       && |w.observed| == 3 && w.observed[0].Some? && Steady(w.observed, w.observed[0].value, 3)
       && key == KeyOf(c, w.adapter, w.observed[0].value)
       && w.usage.provider == w.adapter.provider && w.usage.accountRef == w.adapter.accountRef
       && c.cacheable(w.usage)
  }

  ghost predicate DiskWritten(c: Config, disk: map<Digest, Stored>, writes: seq<Written>) {
    forall key :: key in disk ==> WellWritten(c, key, disk[key], writes)
  }

  ghost predicate LocksHeld(locks: map<Digest, RunId>, runs: map<RunId, Run>) {
    forall r :: r in runs && runs[r].pc.Held().Some? ==>
      runs[r].pc.Held().value.key in locks && locks[runs[r].pc.Held().value.key] == r
  }

  /** A snapshot held under the lock is still what the disk holds, and none means nothing usable was readable. */
  predicate Current(c: Config, disk: map<Digest, Stored>, adapter: Adapter, pc: Pc) {
    match pc
    case HasSnapshot(access, snapshot, readable) =>
      snapshot == if readable then Snapshot(c, disk, adapter, access.key) else None
    case Rechecked(entry, same, snapshot, readable) => Kept(c, disk, adapter, entry, same, snapshot, readable)
    case Fetching(entry, same, snapshot) => Remembers(c, disk, adapter, entry, same, snapshot)
    case Fetched(entry, same, snapshot, result) => Remembers(c, disk, adapter, entry, same, snapshot)
        && Collects(adapter, result)
    case Confirmed(entry, same, snapshot, result) =>
      (same ==> Remembers(c, disk, adapter, entry, same, snapshot)) && Collects(adapter, result)
    case _ => true
  }

  predicate Kept(c: Config, disk: map<Digest, Stored>, adapter: Adapter, entry: Option<Access>, same: bool,
      snapshot: Option<Usage>, readable: bool) {
    && (entry.None? || !same ==> snapshot.None?)
    && (entry.None? ==> !same)
    && (entry.Some? && same && readable ==> snapshot == Snapshot(c, disk, adapter, entry.value.key))
    && (snapshot.Some? ==> readable)
  }

  predicate Remembers(c: Config, disk: map<Digest, Stored>, adapter: Adapter, entry: Option<Access>, same: bool,
      snapshot: Option<Usage>) {
    snapshot.Some? ==> entry.Some? && same && snapshot == Snapshot(c, disk, adapter, entry.value.key)
  }

  ghost predicate RunsCurrent(c: Config, disk: map<Digest, Stored>, runs: map<RunId, Run>) {
    forall r :: r in runs ==> Observed(c, runs[r]) && Current(c, disk, runs[r].adapter, runs[r].pc)
  }

  /** What a served usage says about the write it came from. */
  predicate Vouched(c: Config, served: Served, writes: seq<Written>) {
    && served.write < |writes|
    && var w := writes[served.write];
       && w.adapter.provider == served.adapter.provider
       && IdOf(w.adapter.accountRef) == IdOf(served.adapter.accountRef)
       && |w.observed| == 3 && w.observed[0].Some?
       && Steady(w.observed, w.observed[0].value, 3)
       && Steady(served.observed, w.observed[0].value, if served.stale then 3 else 2)
       && served.usage == Restored(w.usage, served.adapter, served.stale)
       && Valid(c, w.usage) && c.cacheable(w.usage)
       && (!served.stale ==> Fresh(c, w.usage, served.at))
  }

  /** A run that could have served what was stored did not fetch instead. */
  predicate Justified(c: Config, fetch: Fetch) {
    !fetch.force && fetch.confirmed && fetch.readable && fetch.inTime && fetch.stored.Some? ==>
      !(Acceptable(c, fetch.adapter, fetch.stored.value) && Fresh(c, fetch.stored.value, fetch.at))
  }

  ghost predicate Logged(c: Config, served: seq<Served>, fetches: seq<Fetch>, writes: seq<Written>) {
    && (forall i :: 0 <= i < |served| ==> Vouched(c, served[i], writes))
    && (forall i :: 0 <= i < |fetches| ==> Justified(c, fetches[i]))
  }

  ghost predicate Inv(c: Config, s: State) {
    && DiskWritten(c, s.disk, s.writes)
    && LocksHeld(s.locks, s.runs)
    && RunsCurrent(c, s.disk, s.runs)
    && Logged(c, s.served, s.fetches, s.writes)
  }

  // ------------------------------------------------------------------ proofs

  /** Two runs share an entry exactly when they agree on provider, account id and identity. */
  lemma KeyDetermines(c: Config, a: Adapter, i: string, b: Adapter, j: string)
    requires c.Lawful()
    ensures KeyOf(c, a, i) == KeyOf(c, b, j) <==>
            a.provider == b.provider && AccountText(a) == AccountText(b) && i == j
  {
    var pa := [Ascii("usage-v1"), c.utf8(a.provider), c.utf8(AccountText(a)), c.utf8(i)];
    var pb := [Ascii("usage-v1"), c.utf8(b.provider), c.utf8(AccountText(b)), c.utf8(j)];
    Fingerprint.Injective(pa, pb);
    if pa == pb {
      assert pa[1] == pb[1] && pa[2] == pb[2] && pa[3] == pb[3];
    }
  }

  /** What a confirmed snapshot says about the write behind it. */
  lemma SnapshotVouched(c: Config, s: State, run: Run, access: Access, stale: bool, now: int)
    requires c.Lawful() && DiskWritten(c, s.disk, s.writes)
    requires Acts(c, run, access, if stale then 3 else 2)
    requires Snapshot(c, s.disk, run.adapter, access.key).Some?
    requires !stale ==> Fresh(c, s.disk[access.key].usage, now)
    ensures var served := Served(run.adapter, run.observed, Restored(s.disk[access.key].usage, run.adapter, stale),
        stale, now,
                                 s.disk[access.key].write);
      Vouched(c, served, s.writes)
  {
    var w := s.writes[s.disk[access.key].write];
    assert WellWritten(c, access.key, s.disk[access.key], s.writes);
    KeyDetermines(c, w.adapter, w.observed[0].value, run.adapter, access.identity);
  }

  /** Locks follow what is held: unchanged, taken while free, or given up with the last hold. */
  predicate LockStep(before: map<Digest, RunId>, after: map<Digest, RunId>, r: RunId, was: Option<Access>,
      now: Option<Access>) {
    || (after == before && (now.Some? ==> now == was))
    || (now.Some? && now.value.key !in before && after == before[now.value.key := r])
    || (now.None? && was.Some? && after == before - {was.value.key})
  }

  lemma LocksMove(locks: map<Digest, RunId>, locks': map<Digest, RunId>, runs: map<RunId, Run>, r: RunId, run: Run)
    requires LocksHeld(locks, runs) && r in runs
    requires LockStep(locks, locks', r, runs[r].pc.Held(), run.pc.Held())
    ensures LocksHeld(locks', runs[r := run])
  {
  }

  /** A run that moves on within its own entry disturbs nobody. */
  lemma Moves(c: Config, s: State, r: RunId, run: Run, locks: map<Digest, RunId>)
    requires Inv(c, s) && r in s.runs
    requires Observed(c, run) && Current(c, s.disk, run.adapter, run.pc)
    requires LockStep(s.locks, locks, r, s.runs[r].pc.Held(), run.pc.Held())
    ensures Inv(c, s.(runs := s.runs[r := run], locks := locks))
  {
    hide Observed, Current, LockStep, DiskWritten, Logged, LocksHeld;
    LocksMove(s.locks, locks, s.runs, r, run);
  }

  lemma Finishes(c: Config, s: State, r: RunId)
    requires Inv(c, s) && r in s.runs
    ensures Inv(c, Finish(s, r))
  {
  }

  lemma Serves(c: Config, s: State, r: RunId, access: Access, stale: bool, now: int)
    requires c.Lawful() && Inv(c, s) && r in s.runs && s.runs[r].pc.Held() == Some(access)
    requires Acts(c, s.runs[r], access, if stale then 3 else 2)
    requires Snapshot(c, s.disk, s.runs[r].adapter, access.key).Some?
    requires !stale ==> Fresh(c, s.disk[access.key].usage, now)
    ensures Inv(c, Serve(s, s.runs[r], access, s.disk[access.key].usage, stale, now))
  {
    hide LocksHeld, DiskWritten, Observed, Current, Acts, Vouched, Justified, Snapshot, Fresh, Restored;
    SnapshotVouched(c, s, s.runs[r], access, stale, now);
  }

  /** What other runs remember is of other entries, so one entry's new content leaves it true. */
  lemma OthersRemember(c: Config, disk: map<Digest, Stored>, key: Digest, stored: Stored, run: Run)
    requires Current(c, disk, run.adapter, run.pc)
    requires run.pc.Held().Some? ==> run.pc.Held().value.key != key
    ensures Current(c, disk[key := stored], run.adapter, run.pc)
  {
  }

  lemma VouchedLater(c: Config, served: Served, writes: seq<Written>, write: Written)
    requires Vouched(c, served, writes)
    ensures Vouched(c, served, writes + [write])
  {
  }

  lemma WrittenLater(c: Config, key: Digest, stored: Stored, writes: seq<Written>, write: Written)
    requires WellWritten(c, key, stored, writes)
    ensures WellWritten(c, key, stored, writes + [write])
  {
  }

  lemma OwnWritten(c: Config, run: Run, access: Access, usage: Usage, writes: seq<Written>)
    requires Acts(c, run, access, 3) && Collects(run.adapter, Some(usage)) && c.cacheable(usage)
    ensures WellWritten(c, access.key, Stored(usage, |writes|), writes + [Written(run.adapter, run.observed, usage)])
  {
  }

  /** A run writes its own entry, which no other run holds. */
  lemma Writes(c: Config, s: State, r: RunId, access: Access, usage: Usage)
    requires Inv(c, s) && r in s.runs && s.runs[r].pc.Confirmed? && s.runs[r].pc.entry == Some(access)
    requires Acts(c, s.runs[r], access, 3) && Collects(s.runs[r].adapter, Some(usage)) && c.cacheable(usage)
    ensures Inv(c, Finish(s.(disk := s.disk[access.key := Stored(usage, |s.writes|)],
                             writes := s.writes + [Written(s.runs[r].adapter, s.runs[r].observed, usage)]), r))
  {
    var run := s.runs[r];
    var write := Written(run.adapter, run.observed, usage);
    var stored := Stored(usage, |s.writes|);
    var done := Finish(s, r);
    hide Acts, Observed, Vouched, Justified, WellWritten, Current, KeyOf;
    Finishes(c, s, r);
    OwnWritten(c, run, access, usage, s.writes);
    forall key | key in s.disk ensures WellWritten(c, key, s.disk[key], s.writes + [write]) {
      WrittenLater(c, key, s.disk[key], s.writes, write);
    }
    forall i | 0 <= i < |s.served| ensures Vouched(c, s.served[i], s.writes + [write]) {
      VouchedLater(c, s.served[i], s.writes, write);
    }
    forall q | q in done.runs
      ensures Current(c, s.disk[access.key := stored], done.runs[q].adapter, done.runs[q].pc)
    {
      OthersRemember(c, s.disk, access.key, stored, done.runs[q]);
    }
  }

  lemma FetchLogged(c: Config, s: State, fetch: Fetch)
    requires Inv(c, s) && Justified(c, fetch)
    ensures Inv(c, s.(fetches := s.fetches + [fetch]))
  {
  }

  /** The snapshot a run decides on is what the disk holds, so passing it over has a reason. */
  lemma FetchJustified(c: Config, disk: map<Digest, Stored>, run: Run, now: int, inTime: bool)
    requires run.pc.Rechecked? && Current(c, disk, run.adapter, run.pc)
    requires !(!run.force && inTime && run.pc.snapshot.Some? && run.pc.entry.Some? && run.pc.entry.value.key in disk
               && Fresh(c, run.pc.snapshot.value, now))
    ensures var stored := if run.pc.entry.Some? then Lookup(disk, run.pc.entry.value.key) else None;
      Justified(c, Fetch(run.adapter, run.force, run.pc.same, run.pc.readable, inTime, now, stored))
  {
  }

  lemma DecideKeeps(c: Config, s: State, r: RunId, now: int, inTime: bool)
    requires c.Lawful() && Inv(c, s) && r in s.runs && s.runs[r].pc.Rechecked?
    ensures Inv(c, DoDecide(c, s, r, now, inTime))
  {
    var run := s.runs[r];
    var pc := run.pc;
    CurrentOf(c, s, r);
    hide Inv, Acts, Vouched, WellWritten, Fresh, Acceptable, Justified, Finish, KeyOf;
    if !run.force && inTime && pc.snapshot.Some? && pc.entry.Some? && pc.entry.value.key in s.disk
      && Fresh(c, pc.snapshot.value, now)
    {
      Serves(c, s, r, pc.entry.value, false, now);
      Finishes(c, Serve(s, run, pc.entry.value, pc.snapshot.value, false, now), r);
    } else {
      var next := run.(pc := Fetching(pc.entry, pc.same, pc.snapshot));
      Moves(c, s, r, next, s.locks);
      FetchJustified(c, s.disk, run, now, inTime);
      var stored := if pc.entry.Some? then Lookup(s.disk, pc.entry.value.key) else None;
      FetchLogged(c, s.(runs := s.runs[r := next]),
        Fetch(run.adapter, run.force, pc.same, pc.readable, inTime, now, stored));
    }
  }

  lemma SettleKeeps(c: Config, s: State, r: RunId, renamed: bool)
    requires c.Lawful() && Inv(c, s) && r in s.runs && s.runs[r].pc.Confirmed?
    ensures Inv(c, DoSettle(c, s, r, renamed))
  {
    var run := s.runs[r];
    var pc := run.pc;
    assert Observed(c, run) && Current(c, s.disk, run.adapter, pc);
    hide Inv, Acts, Finish, Valid;
    Finishes(c, s, r);
    if pc.same && pc.entry.Some? {
      var access := pc.entry.value;
      if pc.result.Some? && c.cacheable(pc.result.value) {
        Writes(c, s, r, access, pc.result.value);
      } else if pc.result.None? && pc.snapshot.Some? && access.key in s.disk {
        Serves(c, s, r, access, true, 0);
        Finishes(c, Serve(s, run, access, pc.snapshot.value, true, 0), r);
      }
    }
  }

  lemma IdentifyKeeps(c: Config, s: State, r: RunId, observed: Option<string>)
    requires Inv(c, s) && r in s.runs
    ensures Inv(c, DoAct(c, s, r, Identify(observed)))
  {
    hide Inv, DoDecide, DoSettle, KeyOf, Snapshot, Finish, Acceptable;
    CurrentOf(c, s, r);
    var next := DoAct(c, s, r, Identify(observed));
    Moves(c, s, r, next.runs[r], next.locks);
  }

  lemma OpensKeeps(c: Config, s: State, r: RunId)
    requires Inv(c, s) && r in s.runs
    ensures Inv(c, DoAct(c, s, r, OpenEntry))
  {
    hide Inv, DoDecide, DoSettle, KeyOf, Snapshot, Finish, Acceptable;
    CurrentOf(c, s, r);
    var opens := DoAct(c, s, r, OpenEntry);
    Moves(c, s, r, opens.runs[r], opens.locks);
  }

  lemma GivesUpKeeps(c: Config, s: State, r: RunId)
    requires Inv(c, s) && r in s.runs
    ensures Inv(c, DoAct(c, s, r, GiveUp))
  {
    hide Inv, DoDecide, DoSettle, KeyOf, Snapshot, Finish, Acceptable;
    CurrentOf(c, s, r);
    var gives := DoAct(c, s, r, GiveUp);
    Moves(c, s, r, gives.runs[r], gives.locks);
  }

  lemma CurrentOf(c: Config, s: State, r: RunId)
    requires Inv(c, s) && r in s.runs
    ensures Current(c, s.disk, s.runs[r].adapter, s.runs[r].pc) && Observed(c, s.runs[r])
  {
  }

  lemma ReadKeeps(c: Config, s: State, r: RunId, action: Action)
    requires Inv(c, s) && r in s.runs && (action.ReadEntry? || action.Recheck?)
    ensures Inv(c, DoAct(c, s, r, action))
  {
    hide Inv, DoDecide, DoSettle, KeyOf, Snapshot, Finish, Acceptable, Valid, Fresh, Serve;
    CurrentOf(c, s, r);
    var next := DoAct(c, s, r, action);
    Moves(c, s, r, next.runs[r], next.locks);
  }

  lemma RespondKeeps(c: Config, s: State, r: RunId, usage: Option<Usage>)
    requires Inv(c, s) && r in s.runs
    ensures Inv(c, DoAct(c, s, r, Respond(usage)))
  {
    hide Inv, DoDecide, DoSettle, KeyOf, Snapshot, Finish, Acceptable, Valid, Fresh, Serve, Collects;
    CurrentOf(c, s, r);
    var next := DoAct(c, s, r, Respond(usage));
    Moves(c, s, r, next.runs[r], next.locks);
  }

  lemma ConfirmKeeps(c: Config, s: State, r: RunId, observed: Option<string>)
    requires Inv(c, s) && r in s.runs
    ensures Inv(c, DoAct(c, s, r, Confirm(observed)))
  {
    hide Inv, DoDecide, DoSettle, KeyOf, Snapshot, Finish, Acceptable, Valid, Fresh, Serve, Collects;
    CurrentOf(c, s, r);
    var next := DoAct(c, s, r, Confirm(observed));
    Moves(c, s, r, next.runs[r], next.locks);
  }

  lemma ActKeeps(c: Config, s: State, r: RunId, action: Action)
    requires c.Lawful() && Inv(c, s) && r in s.runs
    ensures Inv(c, DoAct(c, s, r, action))
  {
    hide Inv, DoDecide, DoSettle, KeyOf, Snapshot, Finish;
    match action
    case Identify(observed) => IdentifyKeeps(c, s, r, observed);
    case OpenEntry => OpensKeeps(c, s, r);
    case GiveUp => GivesUpKeeps(c, s, r);
    case ReadEntry(_) => ReadKeeps(c, s, r, action);
    case Recheck(_) => ReadKeeps(c, s, r, action);
    case Respond(usage) => RespondKeeps(c, s, r, usage);
    case Confirm(observed) => ConfirmKeeps(c, s, r, observed);
    case Decide(now, inTime) => if s.runs[r].pc.Rechecked? { DecideKeeps(c, s, r, now, inTime); }
    case Settle(renamed) => if s.runs[r].pc.Confirmed? { SettleKeeps(c, s, r, renamed); }
    case Crash => Finishes(c, s, r);
  }

  lemma StartKeeps(c: Config, s: State, r: RunId, adapter: Adapter, force: bool)
    requires Inv(c, s)
    ensures Inv(c, Apply(c, s, Start(r, adapter, force)))
  {
    hide DiskWritten, Logged;
  }

  lemma StartsWell(c: Config)
    ensures Inv(c, INITIAL)
  {
  }

  lemma {:induction false} RunInv(c: Config, steps: seq<Step>)
    requires c.Lawful()
    ensures Inv(c, RunAll(c, steps))
  {
    hide Inv, DoAct;
    if steps == [] {
      StartsWell(c);
    } else {
      var s := RunAll(c, steps[..|steps| - 1]);
      RunInv(c, steps[..|steps| - 1]);
      match steps[|steps| - 1]
      case Start(r, adapter, force) => StartKeeps(c, s, r, adapter, force);
      case Act(r, action) => if r in s.runs { ActKeeps(c, s, r, action); }
    }
  }

  // ------------------------------------------------------------------ theorems

  /**
    Any usage a run returns from disk was written by a run for the same provider and account, which
    observed one identity before and after its fetch: the identity this run observed too.  A fresh one
    is within the age limit; a stale one carries no banked resets.
   */
  lemma {:induction false} ServedWasWritten(c: Config, steps: seq<Step>, i: nat)
    requires c.Lawful() && i < |RunAll(c, steps).served|
    ensures Vouched(c, RunAll(c, steps).served[i], RunAll(c, steps).writes)
    ensures RunAll(c, steps).served[i].stale ==> RunAll(c, steps).served[i].usage.resetCredits == None
  {
    hide RunAll, DiskWritten, LocksHeld, RunsCurrent;
    RunInv(c, steps);
  }

  /** A non-forced run with its entry, its identity confirmed and time left fetches only if nothing fresh is stored. */
  lemma FetchesOnlyWhenNeeded(c: Config, steps: seq<Step>, i: nat)
    requires c.Lawful() && i < |RunAll(c, steps).fetches|
    ensures Justified(c, RunAll(c, steps).fetches[i])
  {
    hide RunAll, DiskWritten, LocksHeld, RunsCurrent;
    RunInv(c, steps);
  }

  /** Two runs never hold one entry, from reading it to writing it back. */
  lemma {:induction false} OneRunPerEntry(c: Config, steps: seq<Step>, q: RunId, r: RunId)
    requires c.Lawful() && q in RunAll(c, steps).runs && r in RunAll(c, steps).runs
    requires RunAll(c, steps).runs[q].pc.Held().Some? && RunAll(c, steps).runs[r].pc.Held().Some?
    requires RunAll(c, steps).runs[q].pc.Held().value.key == RunAll(c, steps).runs[r].pc.Held().value.key
    ensures q == r
  {
    hide RunAll, DiskWritten, RunsCurrent, Logged;
    RunInv(c, steps);
  }
}
