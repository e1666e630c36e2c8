/**
  What a read of an account comes to when nobody disturbs it (src/accounts/service.rs,
  `ManagedProvider::read`): which requests it makes, what it stores, and that it returns a usage.
 */
module VaultReads {
  import opened Fingerprint
  import opened Results
  import opened Accounts
  import opened AccountEffects
  import opened VaultFormat
  import opened VaultProtocol
  import opened VaultSafety

  /** The reader got this far and the store looks like this; nothing else changed. */
  function Go(s: State, r: ReaderId, id: Id, provider: string, store: Store, pc: Pc): State {
    State(store, s.readers[r := Reader(id, provider, pc)])
  }

  /** The account counts as a source: it is switched on, and so is the native source it borrows. */
  predicate SwitchedOn(a: Account) {
    a.enabled && (a.credential.AmpNative? ==> a.credential.sourceEnabled)
  }

  /** The account is stored at place `k` under its provider. */
  predicate StoredAt(d: Doc, id: Id, provider: string, k: nat) {
    At(d, id, k) && d.accounts[k].provider == provider
  }

  ghost predicate NotStored(d: Doc, id: Id, provider: string) {
    forall k: nat :: !StoredAt(d, id, provider, k)
  }

  lemma LookupIs(d: Doc, id: Id, provider: string, k: nat)
    requires DistinctIds(d.accounts)
    ensures StoredAt(d, id, provider, k) ==>
      Lookup(d, id, provider) == Some(d.accounts[k]) && Has(d, id) && Get(d, id) == d.accounts[k]
    ensures NotStored(d, id, provider) ==> Lookup(d, id, provider) == None
  {
    if StoredAt(d, id, provider, k) {
      FindIs(d.accounts, k);
    }
    if NotStored(d, id, provider) && Has(d, id) {
      assert At(d, id, Find(d.accounts, id));
      assert !StoredAt(d, id, provider, Find(d.accounts, id));
    }
  }

  // ------------------------------------------------------------------ the last check

  /**
    A measured usage is returned exactly if the account is still stored, switched on, with the
    credential it was measured with; it is recorded then, and refused as busy or missing otherwise.
   */
  lemma VerifyIs(s: State, r: ReaderId, k: nat)
    requires r in s.readers && s.readers[r].pc.Verifying? && s.store.flight.None?
    requires DistinctIds(Durable(s.store.docs).accounts)
    ensures var reader := s.readers[r];
      var d := Durable(s.store.docs);
      var next := Apply(s, Act(r, Verify));
      var reading := Reading(reader.pc.call, Latest(s.store.docs));
      && (StoredAt(d, reader.id, reader.provider, k) ==>
            if SwitchedOn(d.accounts[k]) && d.accounts[k].credential == reader.pc.credential
            then next == Go(s, r, reader.id, reader.provider, s.store.(readings := s.store.readings + [reading]),
                            Finished(None))
            else next == Go(s, r, reader.id, reader.provider, s.store, Finished(Some(Busy))))
      && (NotStored(d, reader.id, reader.provider) ==>
            next == Go(s, r, reader.id, reader.provider, s.store, Finished(Some(NotFound))))
  {
    hide Lookup, DistinctIds, StoredAt, NotStored;
    LookupIs(Durable(s.store.docs), s.readers[r].id, s.readers[r].provider, k);
    PlaceOf(Durable(s.store.docs), s.readers[r].id, s.readers[r].provider, k);
  }

  lemma PlaceOf(d: Doc, id: Id, provider: string, k: nat)
    ensures StoredAt(d, id, provider, k) ==> k < |d.accounts|
  {
  }

  /** A read of an account that is missing, switched off, or still fenced ends at once, without a request. */
  lemma ReadRefused(s: State, r: ReaderId, k: nat, now: int)
    requires r in s.readers && s.readers[r].pc.Starting? && s.store.flight.None?
    requires DistinctIds(Durable(s.store.docs).accounts)
    ensures var reader := s.readers[r];
      var d := Durable(s.store.docs);
      var next := Apply(s, Act(r, ReadAccount(now)));
      && (NotStored(d, reader.id, reader.provider) ==>
            next == Go(s, r, reader.id, reader.provider, s.store, Finished(Some(NotFound))))
      && (StoredAt(d, reader.id, reader.provider, k) && !SwitchedOn(d.accounts[k]) ==>
            next == Go(s, r, reader.id, reader.provider, s.store, Finished(Some(SourceDisabled))))
      && (StoredAt(d, reader.id, reader.provider, k) && SwitchedOn(d.accounts[k])
          && d.accounts[k].credential.Fenced? && d.accounts[k].credential.pending ==>
            next == Go(s, r, reader.id, reader.provider, s.store, Finished(Some(CommitUncertain))))
  {
    hide Lookup, DistinctIds, StoredAt, NotStored;
    LookupIs(Durable(s.store.docs), s.readers[r].id, s.readers[r].provider, k);
    PlaceOf(Durable(s.store.docs), s.readers[r].id, s.readers[r].provider, k);
  }

  /**
    Under the refresh lock the stored credential is compared with the one read before: if another reader
    has rotated it, that one is used and nothing is refreshed.
   */
  lemma CompareIs(s: State, r: ReaderId, k: nat)
    requires r in s.readers && s.readers[r].pc.HasLock? && s.store.flight.None?
    requires DistinctIds(Durable(s.store.docs).accounts)
    ensures var reader := s.readers[r];
      var d := Durable(s.store.docs);
      var next := Apply(s, Act(r, Compare));
      && (NotStored(d, reader.id, reader.provider) ==>
            next == Go(s, r, reader.id, reader.provider, s.store, Finished(Some(NotFound))))
      && (StoredAt(d, reader.id, reader.provider, k) ==>
            var c := d.accounts[k].credential;
            next == Go(s, r, reader.id, reader.provider, s.store,
              if !SwitchedOn(d.accounts[k]) then Finished(Some(SourceDisabled))
              else if c != reader.pc.credential then BeforeQuota(c, Latest(s.store.docs), false)
              else if c.Fenced? then BeforeFence(c)
              else BeforeSend(c)))
  {
    hide Lookup, DistinctIds, StoredAt, NotStored;
    LookupIs(Durable(s.store.docs), s.readers[r].id, s.readers[r].provider, k);
    PlaceOf(Durable(s.store.docs), s.readers[r].id, s.readers[r].provider, k);
  }

  /** A reader whose write is refused or unconfirmed ends there: after a lost fence it sends nothing. */
  lemma WriteNotConfirmed(s: State, r: ReaderId, outcome: Outcome)
    requires r in s.readers && (s.readers[r].pc.FenceInFlight? || s.readers[r].pc.InstallInFlight?)
    requires s.store.flight.Some? && outcome != Written
    requires var purpose := s.store.flight.value.purpose;
      (purpose.FenceWrite? || purpose.InstallWrite?) && purpose.reader == r
    ensures var next := Apply(s, Write(outcome));
      && next.readers == s.readers[r := s.readers[r].(pc :=
           Finished(Some(if outcome == Kept then Storage else CommitUncertain)))]
      && next.store.sends == s.store.sends && next.store.flight.None?
      && next.store.docs == if outcome == Kept then s.store.docs else s.store.docs + [s.store.flight.value.next]
  {
  }

  // ------------------------------------------------------------------ a quota call and its check

  /** The call with the stored credential, and the usage it measures, found still current. */
  function Measured(v: Store, r: ReaderId, id: Id, credential: Credential): Store
    requires |v.docs| > 0
  {
    v.(calls := v.calls + [Call(r, id, credential, |v.docs| - 1)],
       readings := v.readings + [Reading(|v.calls|, |v.docs| - 1)])
  }

  lemma Asks(s: State, r: ReaderId, id: Id, provider: string, v: Store, k: nat, seen: nat, retry: bool)
    requires v.flight.None? && |v.docs| > 0 && DistinctIds(Durable(v.docs).accounts)
    requires StoredAt(Durable(v.docs), id, provider, k) && SwitchedOn(Durable(v.docs).accounts[k])
    requires !Durable(v.docs).accounts[k].credential.Pending()
    ensures var c := Durable(v.docs).accounts[k].credential;
      Apply(Apply(Apply(Go(s, r, id, provider, v, BeforeQuota(c, seen, retry)), Act(r, CallQuota)),
                  Act(r, QuotaAnswers(Usage))), Act(r, Verify))
      == Go(s, r, id, provider, Measured(v, r, id, c), Finished(None))
  {
    hide DistinctIds, StoredAt, SwitchedOn;
    PlaceOf(Durable(v.docs), id, provider, k);
    var c := Durable(v.docs).accounts[k].credential;
    var called := v.(calls := v.calls + [Call(r, id, c, |v.docs| - 1)]);
    CallsIt(s, r, id, provider, v, c, seen, retry);
    MeasuresIt(s, r, id, provider, called, c, |v.calls|, retry);
    hide Apply;
    VerifyIs(Go(s, r, id, provider, called, Verifying(c, |v.calls|)), r, k);
  }

  lemma CallsIt(s: State, r: ReaderId, id: Id, provider: string, v: Store, c: Credential, seen: nat, retry: bool)
    requires !c.Pending() && |v.docs| > 0
    ensures Apply(Go(s, r, id, provider, v, BeforeQuota(c, seen, retry)), Act(r, CallQuota))
      == Go(s, r, id, provider, v.(calls := v.calls + [Call(r, id, c, |v.docs| - 1)]), InQuota(c, |v.calls|, retry))
  {
  }

  lemma MeasuresIt(s: State, r: ReaderId, id: Id, provider: string, v: Store, c: Credential, call: nat, retry: bool)
    ensures Apply(Go(s, r, id, provider, v, InQuota(c, call, retry)), Act(r, QuotaAnswers(Usage)))
      == Go(s, r, id, provider, v, Verifying(c, call))
    ensures Apply(Go(s, r, id, provider, v, InQuota(c, call, retry)), Act(r, QuotaAnswers(Unauthorized)))
      == Go(s, r, id, provider, v, if retry then WantsLock(c) else Finished(Some(Provider)))
    ensures Apply(Go(s, r, id, provider, v, InQuota(c, call, retry)), Act(r, QuotaAnswers(OtherError)))
      == Go(s, r, id, provider, v, Finished(Some(Provider)))
  {
  }

  // ------------------------------------------------------------------ a refresh

  /** The document with another credential for the account at place `k`, and its token reserved for it. */
  function WithCredential(d: Doc, id: Id, k: nat, c: Credential): Doc
    requires k < |d.accounts|
  {
    Doc(AtLeast(d.version, if c.Fenced? then VersionFor(c) else 0),
        d.accounts[k := d.accounts[k].(credential := c)], d.receipts, OwnersWith(d, c, id))
  }

  /** The token is not reserved for another account. */
  predicate TokenFree(d: Doc, id: Id, c: Credential) {
    c.Fenced? && !c.kind.Grok? && KeyOf(c) in d.owners ==> d.owners[KeyOf(c)] == id
  }

  lemma FreeNotTaken(d: Doc, id: Id, c: Credential)
    requires Sound(d) && TokenFree(d, id, c)
    ensures !Taken(d, id, c)
  {
    if c.HasLineage() {
      TakenMeansOwned(d, id, c);
    }
  }

  lemma OwnTokenFree(d: Doc, id: Id, k: nat)
    requires Sound(d) && At(d, id, k)
    ensures TokenFree(d, id, d.accounts[k].credential)
    ensures d.accounts[k].credential.Fenced? ==> TokenFree(d, id, d.accounts[k].credential.(pending := true))
  {
  }

  lemma WithCredentialIs(d: Doc, id: Id, k: nat, c: Credential)
    requires Sound(d) && At(d, id, k) && TokenFree(d, id, c)
    requires CredentialLevel(c) <= Reserve(d, id, c).version && (c.Fenced? || c.CodexOAuth?)
    ensures Has(d, id) && Get(d, id) == d.accounts[k]
    ensures Upgrade(Update(Reserve(d, id, c), Get(d, id).(credential := c))) == WithCredential(d, id, k, c)
    ensures Sound(WithCredential(d, id, k, c))
    ensures At(WithCredential(d, id, k, c), id, k)
  {
    FindIs(d.accounts, k);
    FreeNotTaken(d, id, c);
    StoreSound(d, id, c);
    hide Sound, Taken, KeyOf, Upgrade;
    assert Reserve(d, id, c).accounts == d.accounts;
  }

  /** A rotated credential keeps its variant and is not fenced. */
  predicate RotationOf(latest: Credential, updated: Credential) {
    || (latest.Fenced? && updated.Fenced? && updated.kind == latest.kind && !updated.pending)
    || (latest.CodexOAuth? && updated.CodexOAuth?)
  }

  /** The stored account a reader works on. */
  ghost predicate Source(d: Doc, id: Id, provider: string, k: nat, c: Credential) {
    Sound(d) && StoredAt(d, id, provider, k) && SwitchedOn(d.accounts[k]) && d.accounts[k].credential == c
  }

  lemma Levels(d: Doc, id: Id, provider: string, k: nat, c: Credential, other: Credential)
    requires Source(d, id, provider, k, c)
    requires RotationOf(c, other) || (c.Fenced? && c.(pending := true) == other)
    ensures CredentialLevel(other) <= Reserve(d, id, other).version
  {
    FindIs(d.accounts, k);
    RotationLevel(d, id, other);
  }

  lemma {:induction false} Locks(s: State, r: ReaderId, id: Id, provider: string, v: Store, c: Credential)
    requires forall q :: q in s.readers && q != r && s.readers[q].id == id ==> !s.readers[q].pc.Locked()
    ensures Apply(Go(s, r, id, provider, v, WantsLock(c)), Act(r, TakeLock)) == Go(s, r, id, provider, v, HasLock(c))
  {
  }

  lemma Compares(s: State, r: ReaderId, id: Id, provider: string, v: Store, k: nat, c: Credential)
    requires v.flight.None? && Source(Durable(v.docs), id, provider, k, c)
    ensures Apply(Go(s, r, id, provider, v, HasLock(c)), Act(r, Compare))
            == Go(s, r, id, provider, v, if c.Fenced? then BeforeFence(c) else BeforeSend(c))
  {
    hide Lookup, DistinctIds, Source;
    SourceFound(Durable(v.docs), id, provider, k, c);
    SourceAt(Durable(v.docs), id, provider, k, c);
  }

  lemma Fences(s: State, r: ReaderId, id: Id, provider: string, v: Store, k: nat, c: Credential)
    requires v.flight.None? && Source(Durable(v.docs), id, provider, k, c) && c.Fenced?
    ensures var latest := c.(pending := true);
      Apply(Go(s, r, id, provider, v, BeforeFence(c)), Act(r, BeginFence))
      == Go(s, r, id, provider, v.(flight := Some(Flight(WithCredential(Durable(v.docs), id, k, latest),
                                                         FenceWrite(r, id, latest)))), FenceInFlight(latest))
    ensures Sound(WithCredential(Durable(v.docs), id, k, c.(pending := true)))
  {
    hide Sound, Source, Taken, KeyOf, Find, Upgrade, Reserve, Update, WithCredential, CredentialLevel, TokenFree;
    var d := Durable(v.docs);
    var latest := c.(pending := true);
    Levels(d, id, provider, k, c, latest);
    SourceAt(d, id, provider, k, c);
    OwnTokenFree(d, id, k);
    WithCredentialIs(d, id, k, latest);
    FreeNotTaken(d, id, latest);
  }

  lemma SourceAt(d: Doc, id: Id, provider: string, k: nat, c: Credential)
    requires Source(d, id, provider, k, c)
    ensures Sound(d) && At(d, id, k) && d.accounts[k].credential == c && d.accounts[k].Enabled()
    ensures d.accounts[k].provider == provider
  {
  }

  lemma FenceWritten(s: State, r: ReaderId, id: Id, provider: string, v: Store, next: Doc, latest: Credential)
    requires v.flight == Some(Flight(next, FenceWrite(r, id, latest)))
    ensures Apply(Go(s, r, id, provider, v, FenceInFlight(latest)), Write(Written))
            == Go(s, r, id, provider, v.(docs := v.docs + [next], flight := None), BeforeSend(latest))
  {
  }

  lemma SendsOnce(s: State, r: ReaderId, id: Id, provider: string, v: Store, latest: Credential, updated: Credential)
    requires RotationOf(latest, updated)
    ensures Apply(Apply(Go(s, r, id, provider, v, BeforeSend(latest)), Act(r, SendRefresh)),
                  Act(r, Respond(Some(updated))))
            == Go(s, r, id, provider, v.(sends := v.sends + [Send(r, id, latest)]),
                  BeforeInstall(latest, |v.sends|, updated))
  {
  }

  lemma Installs(s: State, r: ReaderId, id: Id, provider: string, v: Store, k: nat, latest: Credential, send: nat,
                 updated: Credential)
    requires v.flight.None? && Source(Durable(v.docs), id, provider, k, latest) && RotationOf(latest, updated)
    requires TokenFree(Durable(v.docs), id, updated)
    ensures var next := WithCredential(Durable(v.docs), id, k, updated);
      Apply(Go(s, r, id, provider, v, BeforeInstall(latest, send, updated)), Act(r, BeginInstall))
      == Go(s, r, id, provider, v.(flight := Some(Flight(next, InstallWrite(r, id, send, updated, true)))),
            InstallInFlight(latest, send, updated, None))
    ensures Source(WithCredential(Durable(v.docs), id, k, updated), id, provider, k, updated)
  {
    hide Sound, Source, Taken, KeyOf, Find, Upgrade, Reserve, Update, WithCredential, CredentialLevel, TokenFree,
         Lookup, DistinctIds;
    var d := Durable(v.docs);
    Levels(d, id, provider, k, latest, updated);
    SourceAt(d, id, provider, k, latest);
    SourceFound(d, id, provider, k, latest);
    WithCredentialIs(d, id, k, updated);
    FreeNotTaken(d, id, updated);
    StillSource(d, id, provider, k, latest, updated);
  }

  lemma SourceFound(d: Doc, id: Id, provider: string, k: nat, c: Credential)
    requires Source(d, id, provider, k, c)
    ensures Lookup(d, id, provider) == Some(d.accounts[k]) && Has(d, id) && Get(d, id) == d.accounts[k]
  {
    LookupIs(d, id, provider, k);
  }

  lemma StillSource(d: Doc, id: Id, provider: string, k: nat, c: Credential, other: Credential)
    requires Source(d, id, provider, k, c) && (other.Fenced? || other.CodexOAuth?)
    requires Sound(WithCredential(d, id, k, other))
    ensures Source(WithCredential(d, id, k, other), id, provider, k, other)
    ensures d.accounts[k].(credential := other).Enabled()
  {
    hide Sound;
  }

  lemma InstallWritten(s: State, r: ReaderId, id: Id, provider: string, v: Store, next: Doc, latest: Credential,
                       send: nat, updated: Credential)
    requires v.flight == Some(Flight(next, InstallWrite(r, id, send, updated, true)))
    ensures Apply(Go(s, r, id, provider, v, InstallInFlight(latest, send, updated, None)), Write(Written))
            == Go(s, r, id, provider,
                  v.(docs := v.docs + [next], flight := None,
                     installs := v.installs[send := Install(|v.docs|, |v.sends|, updated)]),
                  BeforeQuota(updated, |v.docs|, false))
  {
  }

  // ------------------------------------------------------------------ sequences of steps

  /** The state after further steps. */
  function After(s: State, steps: seq<Step>): State {
    if steps == [] then s else Apply(After(s, steps[..|steps| - 1]), steps[|steps| - 1])
  }

  lemma AfterNext(s: State, steps: seq<Step>, step: Step)
    ensures After(s, steps + [step]) == Apply(After(s, steps), step)
  {
    hide Apply;
    assert (steps + [step])[..|steps|] == steps;
  }

  lemma {:induction false} AfterBoth(s: State, first: seq<Step>, second: seq<Step>)
    ensures After(s, first + second) == After(After(s, first), second)
  {
    hide Apply;
    if second == [] {
      assert first + second == first;
    } else {
      var n := |second| - 1;
      AfterBoth(s, first, second[..n]);
      assert first + second == first + second[..n] + [second[n]];
      AfterNext(s, first + second[..n], second[n]);
    }
  }

  lemma {:induction false} RunThen(steps: seq<Step>, more: seq<Step>)
    ensures Run(steps + more) == After(Run(steps), more)
  {
    hide Apply;
    if more == [] {
      assert steps + more == steps;
    } else {
      var n := |more| - 1;
      RunThen(steps, more[..n]);
      assert (steps + more)[..|steps + more| - 1] == steps + more[..n];
    }
  }

  lemma FewSteps(s: State, a: Step, b: Step, c: Step, d: Step)
    ensures After(s, [a, b]) == Apply(Apply(s, a), b)
    ensures After(s, [a, b, c]) == Apply(Apply(Apply(s, a), b), c)
    ensures After(s, [a, b, c, d]) == Apply(Apply(Apply(Apply(s, a), b), c), d)
  {
    hide Apply;
    AfterNext(s, [], a);
    AfterNext(s, [a], b);
    AfterNext(s, [a, b], c);
    AfterNext(s, [a, b, c], d);
    assert [] + [a] == [a] && [a] + [b] == [a, b] && [a, b] + [c] == [a, b, c] && [a, b, c] + [d] == [a, b, c, d];
  }

  // ------------------------------------------------------------------ a whole refresh

  /** A credential that can be refreshed, with its fence up if it has one. */
  function FenceUp(c: Credential): Credential {
    if c.Fenced? then c.(pending := true) else c
  }

  function Refreshing(r: ReaderId, c: Credential, updated: Credential): seq<Step> {
    (if c.Fenced? then [Act(r, TakeLock), Act(r, Compare), Act(r, BeginFence), Write(Written)]
     else [Act(r, TakeLock), Act(r, Compare)])
    + [Act(r, SendRefresh), Act(r, Respond(Some(updated))), Act(r, BeginInstall), Write(Written)]
  }

  /** The documents a refresh makes visible: the fenced one, if there is a fence, and the rotated one. */
  function RefreshDocs(d: Doc, id: Id, k: nat, c: Credential, updated: Credential): seq<Doc>
    requires k < |d.accounts|
  {
    if c.Fenced? then
      var fenced := WithCredential(d, id, k, FenceUp(c));
      [fenced, WithCredential(fenced, id, k, updated)]
    else [WithCredential(d, id, k, updated)]
  }

  /** One fence write if there is a fence, one send of the fenced credential, and one install of its response. */
  function Refreshed(v: Store, r: ReaderId, id: Id, k: nat, c: Credential, updated: Credential): Store
    requires |v.docs| > 0 && k < |v.docs[|v.docs| - 1].accounts|
  {
    var docs := v.docs + RefreshDocs(v.docs[|v.docs| - 1], id, k, c, updated);
    v.(docs := docs, sends := v.sends + [Send(r, id, FenceUp(c))],
       installs := v.installs[|v.sends| := Install(|docs| - 1, |v.sends| + 1, updated)])
  }

  lemma FencedSource(d: Doc, id: Id, provider: string, k: nat, c: Credential, updated: Credential)
    requires Source(d, id, provider, k, c) && c.Fenced? && TokenFree(d, id, updated)
    requires Sound(WithCredential(d, id, k, FenceUp(c)))
    ensures var fenced := WithCredential(d, id, k, FenceUp(c));
      Source(fenced, id, provider, k, FenceUp(c)) && TokenFree(fenced, id, updated)
  {
    hide Sound, KeyOf;
  }

  lemma {:induction false} FencesWell(s: State, r: ReaderId, id: Id, provider: string, v: Store, k: nat, c: Credential)
    requires forall q :: q in s.readers && q != r && s.readers[q].id == id ==> !s.readers[q].pc.Locked()
    requires v.flight.None? && |v.docs| > 0 && Source(Durable(v.docs), id, provider, k, c) && c.Fenced?
    ensures After(Go(s, r, id, provider, v, WantsLock(c)),
                  [Act(r, TakeLock), Act(r, Compare), Act(r, BeginFence), Write(Written)])
      == Go(s, r, id, provider, v.(docs := v.docs + [WithCredential(Durable(v.docs), id, k, FenceUp(c))]),
            BeforeSend(FenceUp(c)))
    ensures Sound(WithCredential(Durable(v.docs), id, k, FenceUp(c)))
  {
    hide Apply, Source, Sound, WithCredential, Durable;
    SourceAtPlace(v.docs, id, provider, k, c);
    var next := WithCredential(Durable(v.docs), id, k, FenceUp(c));
    var up := v.(flight := Some(Flight(next, FenceWrite(r, id, FenceUp(c)))));
    Locks(s, r, id, provider, v, c);
    Compares(s, r, id, provider, v, k, c);
    Fences(s, r, id, provider, v, k, c);
    FenceWritten(s, r, id, provider, up, next, FenceUp(c));
    FewSteps(Go(s, r, id, provider, v, WantsLock(c)), Act(r, TakeLock), Act(r, Compare), Act(r, BeginFence),
             Write(Written));
  }

  lemma SourceAtPlace(docs: seq<Doc>, id: Id, provider: string, k: nat, c: Credential)
    requires Source(Durable(docs), id, provider, k, c) && |docs| > 0
    ensures k < |Durable(docs).accounts| && Durable(docs) == docs[|docs| - 1]
  {
  }

  lemma SendsWell(s: State, r: ReaderId, id: Id, provider: string, v: Store, k: nat, latest: Credential,
                  updated: Credential)
    requires v.flight.None? && |v.docs| > 0 && Source(Durable(v.docs), id, provider, k, latest)
    requires RotationOf(latest, updated) && TokenFree(Durable(v.docs), id, updated)
    ensures var next := WithCredential(Durable(v.docs), id, k, updated);
      && Source(next, id, provider, k, updated)
      && After(Go(s, r, id, provider, v, BeforeSend(latest)),
               [Act(r, SendRefresh), Act(r, Respond(Some(updated))), Act(r, BeginInstall), Write(Written)])
         == Go(s, r, id, provider,
               v.(docs := v.docs + [next], sends := v.sends + [Send(r, id, latest)],
                  installs := v.installs[|v.sends| := Install(|v.docs|, |v.sends| + 1, updated)]),
               BeforeQuota(updated, |v.docs|, false))
  {
    hide Apply, Source, Sound, WithCredential, Durable, TokenFree;
    SourceAtPlace(v.docs, id, provider, k, latest);
    var next := WithCredential(Durable(v.docs), id, k, updated);
    var sent := v.(sends := v.sends + [Send(r, id, latest)]);
    var up := sent.(flight := Some(Flight(next, InstallWrite(r, id, |v.sends|, updated, true))));
    SendsOnce(s, r, id, provider, v, latest, updated);
    Installs(s, r, id, provider, sent, k, latest, |v.sends|, updated);
    InstallWritten(s, r, id, provider, up, next, latest, |v.sends|, updated);
    FewSteps(Go(s, r, id, provider, v, BeforeSend(latest)), Act(r, SendRefresh), Act(r, Respond(Some(updated))),
             Act(r, BeginInstall), Write(Written));
  }

  lemma {:induction false} RefreshesWell(
    s: State, r: ReaderId, id: Id, provider: string, v: Store, k: nat, c: Credential, updated: Credential)
    requires forall q :: q in s.readers && q != r && s.readers[q].id == id ==> !s.readers[q].pc.Locked()
    requires v.flight.None? && |v.docs| > 0 && Source(Durable(v.docs), id, provider, k, c)
    requires RotationOf(c, updated) && TokenFree(Durable(v.docs), id, updated)
    ensures k < |v.docs[|v.docs| - 1].accounts|
    ensures var next := Refreshed(v, r, id, k, c, updated);
      && Source(Durable(next.docs), id, provider, k, updated)
      && After(Go(s, r, id, provider, v, WantsLock(c)), Refreshing(r, c, updated))
         == Go(s, r, id, provider, next, BeforeQuota(updated, |next.docs| - 1, false))
  {
    hide Apply, Source, Sound, WithCredential, TokenFree, After;
    SourceAtPlace(v.docs, id, provider, k, c);
    var d := Durable(v.docs);
    if c.Fenced? {
      FencesWell(s, r, id, provider, v, k, c);
      FencedSource(d, id, provider, k, c, updated);
      var fenced := v.(docs := v.docs + [WithCredential(d, id, k, FenceUp(c))]);
      SamePlaces(d, id, k, FenceUp(c));
      SendsWell(s, r, id, provider, fenced, k, FenceUp(c), updated);
      assert fenced.docs + [WithCredential(Durable(fenced.docs), id, k, updated)]
             == v.docs + RefreshDocs(d, id, k, c, updated);
    } else {
      LocksOnly(s, r, id, provider, v, k, c);
      SendsWell(s, r, id, provider, v, k, c, updated);
    }
    AfterBoth(Go(s, r, id, provider, v, WantsLock(c)),
              if c.Fenced? then [Act(r, TakeLock), Act(r, Compare), Act(r, BeginFence), Write(Written)]
              else [Act(r, TakeLock), Act(r, Compare)],
              [Act(r, SendRefresh), Act(r, Respond(Some(updated))), Act(r, BeginInstall), Write(Written)]);
  }

  lemma SamePlaces(d: Doc, id: Id, k: nat, c: Credential)
    requires k < |d.accounts|
    ensures |WithCredential(d, id, k, c).accounts| == |d.accounts|
  {
  }

  lemma {:induction false} LocksOnly(s: State, r: ReaderId, id: Id, provider: string, v: Store, k: nat, c: Credential)
    requires forall q :: q in s.readers && q != r && s.readers[q].id == id ==> !s.readers[q].pc.Locked()
    requires v.flight.None? && |v.docs| > 0 && Source(Durable(v.docs), id, provider, k, c) && !c.Fenced?
    ensures After(Go(s, r, id, provider, v, WantsLock(c)), [Act(r, TakeLock), Act(r, Compare)])
            == Go(s, r, id, provider, v, BeforeSend(c))
  {
    hide Apply, Source, Durable, After;
    Locks(s, r, id, provider, v, c);
    Compares(s, r, id, provider, v, k, c);
    FewSteps(Go(s, r, id, provider, v, WantsLock(c)), Act(r, TakeLock), Act(r, Compare), Act(r, BeginFence),
             Write(Written));
  }

  // ------------------------------------------------------------------ a whole read

  /** A reader that has not started, an idle vault, and an account that is stored and switched on. */
  ghost predicate Ready(s: State, r: ReaderId, id: Id, provider: string, k: nat) {
    && r !in s.readers && s.store.flight.None? && |s.store.docs| > 0
    && StoredAt(Durable(s.store.docs), id, provider, k) && SwitchedOn(Durable(s.store.docs).accounts[k])
  }

  lemma ReadyAt(s: State, r: ReaderId, id: Id, provider: string, k: nat)
    requires Ready(s, r, id, provider, k)
    ensures r !in s.readers && s.store.flight.None? && |s.store.docs| > 0
    ensures k < |s.store.docs[|s.store.docs| - 1].accounts|
    ensures Durable(s.store.docs) == s.store.docs[|s.store.docs| - 1]
  {
  }

  function Entering(r: ReaderId, id: Id, provider: string, now: int): seq<Step> {
    [StartRead(r, id, provider), Act(r, ReadAccount(now))]
  }

  function Asking(r: ReaderId, result: QuotaResult): seq<Step> {
    if result == Usage then [Act(r, CallQuota), Act(r, QuotaAnswers(Usage)), Act(r, Verify)]
    else [Act(r, CallQuota), Act(r, QuotaAnswers(result))]
  }

  /** The seconds before its expiry at which a credential is refreshed. */
  function Margin(provider: string): int {
    if provider == "grok" then 300 else 60
  }

  /** A reachable document is sound, and the ids in it were drawn. */
  lemma ReachedSource(steps: seq<Step>, r: ReaderId, id: Id, provider: string, k: nat)
    requires Ready(Run(steps), r, id, provider, k)
    ensures var s := Run(steps);
      && k < |Durable(s.store.docs).accounts| && id in s.store.used
      && Source(Durable(s.store.docs), id, provider, k, Durable(s.store.docs).accounts[k].credential)
  {
    hide Run, ReadersOk, Exclusive, SendsOk, OpenOk, FlightOk, CallsOk;
    RunInv(steps);
    assert Durable(Run(steps).store.docs).accounts[k].id in Run(steps).store.used;
  }

  lemma Enters(s: State, r: ReaderId, id: Id, provider: string, k: nat, now: int)
    requires Ready(s, r, id, provider, k) && id in s.store.used
    requires Source(Durable(s.store.docs), id, provider, k, Durable(s.store.docs).accounts[k].credential)
    requires !Durable(s.store.docs).accounts[k].credential.Pending()
    ensures var c := Durable(s.store.docs).accounts[k].credential;
      After(s, Entering(r, id, provider, now)) == Go(s, r, id, provider, s.store,
        if !c.Fenced? && !c.CodexOAuth? then BeforeQuota(c, |s.store.docs| - 1, false)
        else if c.expiresAt <= now + Margin(provider) then WantsLock(c)
        else BeforeQuota(c, |s.store.docs| - 1, true))
  {
    hide Source, Lookup, After, DistinctIds, Sound;
    SourceAt(Durable(s.store.docs), id, provider, k, Durable(s.store.docs).accounts[k].credential);
    SourceFound(Durable(s.store.docs), id, provider, k, Durable(s.store.docs).accounts[k].credential);
    FewSteps(s, StartRead(r, id, provider), Act(r, ReadAccount(now)), Act(r, CallQuota), Act(r, Verify));
  }

  lemma AsksWell(s: State, r: ReaderId, id: Id, provider: string, v: Store, k: nat, c: Credential, seen: nat,
                 retry: bool)
    requires v.flight.None? && |v.docs| > 0 && Source(Durable(v.docs), id, provider, k, c) && !c.Pending()
    ensures After(Go(s, r, id, provider, v, BeforeQuota(c, seen, retry)), Asking(r, Usage))
            == Go(s, r, id, provider, Measured(v, r, id, c), Finished(None))
  {
    hide Apply, After, Durable;
    Asks(s, r, id, provider, v, k, seen, retry);
    FewSteps(Go(s, r, id, provider, v, BeforeQuota(c, seen, retry)), Act(r, CallQuota), Act(r, QuotaAnswers(Usage)),
             Act(r, Verify), Act(r, Verify));
  }

  lemma AsksInVain(s: State, r: ReaderId, id: Id, provider: string, v: Store, c: Credential, seen: nat)
    requires |v.docs| > 0 && !c.Pending()
    ensures After(Go(s, r, id, provider, v, BeforeQuota(c, seen, true)), Asking(r, Unauthorized))
            == Go(s, r, id, provider, v.(calls := v.calls + [Call(r, id, c, |v.docs| - 1)]), WantsLock(c))
  {
    hide Apply, After;
    CallsIt(s, r, id, provider, v, c, seen, true);
    MeasuresIt(s, r, id, provider, v.(calls := v.calls + [Call(r, id, c, |v.docs| - 1)]), c, |v.calls|, true);
    FewSteps(Go(s, r, id, provider, v, BeforeQuota(c, seen, true)), Act(r, CallQuota),
             Act(r, QuotaAnswers(Unauthorized)), Act(r, Verify), Act(r, Verify));
  }

  /**
    An undisturbed read of an account whose credential is not fenced, and cannot be refreshed or has time
    left, makes one quota call with that credential and returns its usage; it sends and stores nothing.
   */
  lemma {:induction false} UnexpiredReadReturns(
    steps: seq<Step>, r: ReaderId, id: Id, provider: string, k: nat, now: int)
    requires Ready(Run(steps), r, id, provider, k)
    requires var c := Durable(Run(steps).store.docs).accounts[k].credential;
      && !c.Pending()
      && (c.Fenced? || c.CodexOAuth? ==> now + (if provider == "grok" then 300 else 60) < c.expiresAt)
    ensures var s := Run(steps);
      var c := Durable(s.store.docs).accounts[k].credential;
      Run(steps + (Entering(r, id, provider, now) + Asking(r, Usage)))
      == Go(s, r, id, provider, Measured(s.store, r, id, c), Finished(None))
  {
    hide Run, Ready, Source, After, Durable, Entering, Asking;
    var s := Run(steps);
    ReadyAt(s, r, id, provider, k);
    ReachedSource(steps, r, id, provider, k);
    var c := Durable(s.store.docs).accounts[k].credential;
    Enters(s, r, id, provider, k, now);
    RunThen(steps, Entering(r, id, provider, now) + Asking(r, Usage));
    AfterBoth(s, Entering(r, id, provider, now), Asking(r, Usage));
    AsksWell(s, r, id, provider, s.store, k, c, |s.store.docs| - 1, c.Fenced? || c.CodexOAuth?);
  }

  lemma {:induction false} RefreshesAndAsks(
    s: State, r: ReaderId, id: Id, provider: string, v: Store, k: nat, c: Credential, updated: Credential)
    requires forall q :: q in s.readers && q != r && s.readers[q].id == id ==> !s.readers[q].pc.Locked()
    requires v.flight.None? && |v.docs| > 0 && Source(Durable(v.docs), id, provider, k, c)
    requires RotationOf(c, updated) && TokenFree(Durable(v.docs), id, updated)
    ensures k < |v.docs[|v.docs| - 1].accounts|
    ensures After(Go(s, r, id, provider, v, WantsLock(c)), Refreshing(r, c, updated) + Asking(r, Usage))
            == Go(s, r, id, provider, Measured(Refreshed(v, r, id, k, c, updated), r, id, updated), Finished(None))
  {
    hide After, Source, TokenFree, Refreshing, Asking, Durable;
    var start := Go(s, r, id, provider, v, WantsLock(c));
    RefreshesWell(s, r, id, provider, v, k, c, updated);
    var next := Refreshed(v, r, id, k, c, updated);
    AsksWell(s, r, id, provider, next, k, updated, |next.docs| - 1, false);
    AfterBoth(start, Refreshing(r, c, updated), Asking(r, Usage));
  }

  /**
    An undisturbed read of an account whose refreshable credential has run out, with its refresh lock
    free and a rotation whose token is not someone else's: one fence write if there is a fence, one
    send, one install of the response, one quota call with it, and its usage is returned.
   */
  lemma {:induction false} ExpiredReadRefreshes(
    steps: seq<Step>, r: ReaderId, id: Id, provider: string, k: nat, now: int, updated: Credential)
    requires Ready(Run(steps), r, id, provider, k)
    requires forall q :: q in Run(steps).readers && Run(steps).readers[q].id == id ==>
      !Run(steps).readers[q].pc.Locked()
    requires var d := Durable(Run(steps).store.docs);
      var c := d.accounts[k].credential;
      && !c.Pending() && (c.Fenced? || c.CodexOAuth?) && c.expiresAt <= now + (if provider == "grok" then 300 else 60)
      && RotationOf(c, updated) && TokenFree(d, id, updated)
    ensures var s := Run(steps);
      var c := Durable(s.store.docs).accounts[k].credential;
      Run(steps + (Entering(r, id, provider, now) + (Refreshing(r, c, updated) + Asking(r, Usage))))
      == Go(s, r, id, provider, Measured(Refreshed(s.store, r, id, k, c, updated), r, id, updated), Finished(None))
  {
    hide Run, Ready, Source, After, Durable, Entering, Asking, Refreshing, TokenFree, Refreshed;
    var s := Run(steps);
    ReadyAt(s, r, id, provider, k);
    ReachedSource(steps, r, id, provider, k);
    var c := Durable(s.store.docs).accounts[k].credential;
    Enters(s, r, id, provider, k, now);
    var rest := Refreshing(r, c, updated) + Asking(r, Usage);
    RunThen(steps, Entering(r, id, provider, now) + rest);
    AfterBoth(s, Entering(r, id, provider, now), rest);
    RefreshesAndAsks(s, r, id, provider, s.store, k, c, updated);
  }

  /** The same after a first call that was not authorized, though the credential had time left. */
  lemma {:induction false} RefusedReadRefreshes(
    steps: seq<Step>, r: ReaderId, id: Id, provider: string, k: nat, now: int, updated: Credential)
    requires Ready(Run(steps), r, id, provider, k)
    requires forall q :: q in Run(steps).readers && Run(steps).readers[q].id == id ==>
      !Run(steps).readers[q].pc.Locked()
    requires var d := Durable(Run(steps).store.docs);
      var c := d.accounts[k].credential;
      && !c.Pending() && (c.Fenced? || c.CodexOAuth?) && now + (if provider == "grok" then 300 else 60) < c.expiresAt
      && RotationOf(c, updated) && TokenFree(d, id, updated)
    ensures var s := Run(steps);
      var c := Durable(s.store.docs).accounts[k].credential;
      var called := s.store.(calls := s.store.calls + [Call(r, id, c, |s.store.docs| - 1)]);
      Run(steps + ((Entering(r, id, provider, now) + Asking(r, Unauthorized))
                   + (Refreshing(r, c, updated) + Asking(r, Usage))))
      == Go(s, r, id, provider, Measured(Refreshed(called, r, id, k, c, updated), r, id, updated), Finished(None))
  {
    hide Run, Ready, Source, After, Durable, Entering, Asking, Refreshing, TokenFree, Refreshed;
    var s := Run(steps);
    ReadyAt(s, r, id, provider, k);
    ReachedSource(steps, r, id, provider, k);
    var c := Durable(s.store.docs).accounts[k].credential;
    var called := s.store.(calls := s.store.calls + [Call(r, id, c, |s.store.docs| - 1)]);
    var first, rest := Entering(r, id, provider, now) + Asking(r, Unauthorized),
                       Refreshing(r, c, updated) + Asking(r, Usage);
    Enters(s, r, id, provider, k, now);
    AfterBoth(s, Entering(r, id, provider, now), Asking(r, Unauthorized));
    AsksInVain(s, r, id, provider, s.store, c, |s.store.docs| - 1);
    RunThen(steps, first + rest);
    AfterBoth(s, first, rest);
    RefreshesAndAsks(s, r, id, provider, called, k, c, updated);
  }
}
