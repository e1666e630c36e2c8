/** What every run of the vault protocol guarantees. */
module VaultTheorems {
  import opened Fingerprint
  import opened Results
  import opened Accounts
  import opened VaultFormat
  import opened VaultProtocol
  import opened VaultSafety

  // ------------------------------------------------------------------ single-use tokens

  /** Two sends of one token: by the same account, or by any two accounts of a lineage kind. */
  predicate SameToken(a: Send, b: Send) {
    && a.credential.Fenced? && b.credential.Fenced?
    && a.credential.kind == b.credential.kind && a.credential.refresh == b.credential.refresh
    && (a.credential.HasLineage() || a.id == b.id)
  }

  /**
    Between two sends of a token, the response to the first was stored: some visible document
    held the rotated credential for that account, and it appeared before the second send.
   */
  lemma SendsSeparated(steps: seq<Step>, i: nat, j: nat)
    requires var v := Run(steps).store; i < j < |v.sends| && SameToken(v.sends[i], v.sends[j])
    ensures var v := Run(steps).store;
      && v.sends[i].id == v.sends[j].id
      && InstalledBetween(v.installs, i, j)
      && Stores(v.docs, v.sends[i], v.installs[i])
  {
    RunInv(steps);
    var v := Run(steps).store;
    var a, b := v.sends[i], v.sends[j];
    if a.credential.HasLineage() {
      KeyInjective(a.credential, b.credential);
      assert Owned(Durable(v.docs), a.id, a.credential) && Owned(Durable(v.docs), b.id, b.credential);
    }
    assert SameAccount(a, b);
  }

  /** One account never has two unanswered sends, whatever the tokens. */
  lemma OneSendAtATime(steps: seq<Step>, i: nat, j: nat)
    requires var v := Run(steps).store; Open(v.sends, v.installs, i) && Open(v.sends, v.installs, j)
    requires var v := Run(steps).store; v.sends[i].id == v.sends[j].id
    ensures i == j
  {
    RunInv(steps);
    var v := Run(steps).store;
    OneOpen(v.sends, v.installs, v.docs, i, j);
  }

  /** While a response is missing, the account's stored credential is the fenced one that was sent. */
  lemma FenceStays(steps: seq<Step>, k: nat)
    requires var v := Run(steps).store; Open(v.sends, v.installs, k)
    ensures var v := Run(steps).store;
      && v.sends[k].credential.pending
      && Stuck(Durable(v.docs), v.sends[k].id, v.sends[k].credential)
  {
    RunInv(steps);
  }

  // ------------------------------------------------------------------ lineage

  lemma {:induction false} RunGrows(steps: seq<Step>, more: seq<Step>)
    ensures Run(steps).store.docs <= Run(steps + more).store.docs
    ensures Run(steps).store.used <= Run(steps + more).store.used
  {
    hide Apply;
    if more == [] {
      assert steps + more == steps;
    } else {
      var front := more[..|more| - 1];
      RunGrows(steps, front);
      assert (steps + more)[..|steps + more| - 1] == steps + front;
      StepGrows(Run(steps + front), more[|more| - 1]);
    }
  }

  lemma ActGrows(s: State, r: ReaderId, action: Action)
    requires r in s.readers
    ensures s.store.docs == DoAction(s, r, action).store.docs && s.store.used == DoAction(s, r, action).store.used
  {
    hide Find, KeyOf, Perform, Taken, Upgrade, Reserve, Update, Get, LockFree, Lookup, Rotates;
  }

  lemma OpGrows(s: State, op: Op)
    ensures s.store.docs == DoBeginOp(s.store, op).docs && s.store.used <= DoBeginOp(s.store, op).used
  {
    hide Perform, Upgrade;
  }

  lemma KeyedGrows(s: State, key: Digest, fingerprint: Digest, op: Op)
    ensures s.store.docs == DoBeginKeyed(s.store, key, fingerprint, op).docs
    ensures s.store.used <= DoBeginKeyed(s.store, key, fingerprint, op).used
  {
    hide CommitOnce, Upgrade;
  }

  lemma WriteGrows(s: State, outcome: Outcome)
    requires s.store.flight.Some?
    ensures s.store.docs <= DoWrite(s, outcome).store.docs && s.store.used <= DoWrite(s, outcome).store.used
  {
    hide Deliver;
  }

  lemma StepGrows(s: State, step: Step)
    ensures s.store.docs <= Apply(s, step).store.docs
    ensures s.store.used <= Apply(s, step).store.used
  {
    hide DoAction, DoBeginOp, DoBeginKeyed, DoWrite, DrawsFresh;
    match step
    case StartRead(_, _, _) =>
    case Act(r, action) => if r in s.readers { ActGrows(s, r, action); }
    case BeginOp(op) => OpGrows(s, op);
    case BeginKeyed(key, fingerprint, op) => KeyedGrows(s, key, fingerprint, op);
    case Write(outcome) => if s.store.flight.Some? { WriteGrows(s, outcome); }
  }

  /** Owner entries are write-once across the documents of a run, and the version never decreases. */
  lemma {:induction false} LineageWriteOnce(steps: seq<Step>, m: nat, n: nat)
    requires m <= n < |Run(steps).store.docs|
    ensures OwnersKept(Run(steps).store.docs[m], Run(steps).store.docs[n])
    ensures Run(steps).store.docs[m].version <= Run(steps).store.docs[n].version
  {
    RunInv(steps);
    var docs := Run(steps).store.docs;
    assert Follows(docs[m], docs[n]);
  }

  /** A token reserved at any point of a run is refused under a new id ever after. */
  lemma {:induction false} ReservedForever(steps: seq<Step>, more: seq<Step>, op: Op)
    requires op.OpAdd? && op.credential.HasLineage()
    requires KeyOf(op.credential) in Durable(Run(steps).store.docs).owners
    requires DrawsFresh(Run(steps + more).store, op)
    ensures Perform(Durable(Run(steps + more).store.docs), op).Failure?
    ensures Apply(Run(steps + more), BeginOp(op)) == Run(steps + more)
  {
    RunInv(steps);
    RunInv(steps + more);
    RunGrows(steps, more);
    var m := Latest(Run(steps).store.docs);
    var docs := Run(steps + more).store.docs;
    LineageWriteOnce(steps + more, m, Latest(docs));
    assert docs[m] == Durable(Run(steps).store.docs);
    var d := Durable(docs);
    assert Unused(d, op.id);
    ReservedNeverReadded(d, op.provider, op.name, op.identity, op.credential, op.id);
  }

  lemma WriteReserves(s: State, outcome: Outcome)
    requires Inv(s) && s.store.flight.Some? && s.store.flight.value.purpose.InstallWrite? && outcome != Kept
    ensures var purpose := s.store.flight.value.purpose;
      Owned(Durable(Apply(s, Write(outcome)).store.docs), purpose.account, purpose.updated)
  {
    hide Deliver, ReadersOk, DocsOk, SendsOk, OpenOk, CallsOk, UsedOk, Exclusive;
    assert Durable(DoWrite(s, outcome).store.docs) == s.store.flight.value.next;
  }

  /** A response that arrives after its account was removed or replaced still reserves its token. */
  lemma {:induction false} ResponsesReserved(steps: seq<Step>, outcome: Outcome)
    requires var v := Run(steps).store; v.flight.Some? && v.flight.value.purpose.InstallWrite?
    requires outcome != Kept
    ensures var purpose := Run(steps).store.flight.value.purpose;
      Owned(Durable(Run(steps + [Write(outcome)]).store.docs), purpose.account, purpose.updated)
  {
    hide Inv;
    RunInv(steps);
    assert (steps + [Write(outcome)])[..|steps|] == steps;
    assert Run(steps + [Write(outcome)]) == Apply(Run(steps), Write(outcome));
    hide Run;
    WriteReserves(Run(steps), outcome);
  }

  // ------------------------------------------------------------------ documents

  /** Every document that becomes visible is sound, and the next `begin` accepts it. */
  lemma DocumentsSound(steps: seq<Step>, m: nat)
    requires m < |Run(steps).store.docs|
    ensures Sound(Run(steps).store.docs[m]) && Accepted(Run(steps).store.docs[m])
  {
    RunInv(steps);
    FormatAccepted(Run(steps).store.docs[m]);
  }

  // ------------------------------------------------------------------ readings

  /**
    A returned usage was measured with a credential that, after its quota call began, a visible
    document stored for the enabled account.
   */
  lemma {:induction false} UsageIsCurrent(steps: seq<Step>, i: nat)
    requires i < |Run(steps).store.readings|
    ensures var v := Run(steps).store; var reading := v.readings[i];
      && reading.call < |v.calls|
      && v.calls[reading.call].at <= reading.at < |v.docs|
      && Holds(v.docs[reading.at], v.calls[reading.call].id, v.calls[reading.call].credential)
  {
    RunInv(steps);
  }

  /** No quota call uses a credential that is fenced or that was not already durable. */
  lemma QuotaUsesDurableCredentials(steps: seq<Step>, i: nat)
    requires i < |Run(steps).store.calls|
    ensures var v := Run(steps).store; var call := v.calls[i];
      && !call.credential.Pending()
      && call.at < |v.docs|
      && HeldBy(v.docs, call.at, call.id, call.credential)
  {
    RunInv(steps);
  }

  // ------------------------------------------------------------------ keyed mutations

  ghost predicate Wrote(a: Applied, d: Doc) {
    a.key in d.receipts && d.receipts[a.key] == Receipt(a.fingerprint, a.op.id)
  }

  ghost predicate Answered(applied: seq<Applied>, answer: Answer) {
    exists i :: 0 <= i < |applied| && applied[i].key == answer.key
                && applied[i].fingerprint == answer.fingerprint && applied[i].op.id == answer.account
  }

  ghost predicate HasReceiptFrom(applied: seq<Applied>, key: Digest, m: nat) {
    exists i :: 0 <= i < |applied| && applied[i].key == key && applied[i].at <= m
  }

  ghost predicate DistinctKeys(applied: seq<Applied>) {
    forall i, j :: 0 <= i < j < |applied| ==> applied[i].key != applied[j].key
  }

  /** The documents before and after entry `a` are related by its mutation and receipt. */
  predicate Mutates(docs: seq<Doc>, a: Applied) {
    && 1 <= a.at < |docs|
    && CommitOnce(docs[a.at - 1], a.key, a.fingerprint, a.op) == Success(Commit(docs[a.at]))
  }

  ghost predicate AllMutate(docs: seq<Doc>, applied: seq<Applied>) {
    forall i :: 0 <= i < |applied| ==> Mutates(docs, applied[i])
  }

  ghost predicate AllWritten(docs: seq<Doc>, applied: seq<Applied>) {
    forall i, m :: 0 <= i < |applied| && applied[i].at <= m < |docs| ==> Wrote(applied[i], docs[m])
  }

  ghost predicate AllAccounted(docs: seq<Doc>, applied: seq<Applied>) {
    forall m, key :: 0 <= m < |docs| && key in docs[m].receipts ==> HasReceiptFrom(applied, key, m)
  }

  ghost predicate AppliedOk(docs: seq<Doc>, applied: seq<Applied>) {
    DistinctKeys(applied) && AllMutate(docs, applied) && AllWritten(docs, applied) && AllAccounted(docs, applied)
  }

  ghost predicate ReceiptFlight(docs: seq<Doc>, flight: Option<Flight>) {
    flight.Some? ==>
      if flight.value.purpose.KeyedWrite? then
        CommitOnce(Durable(docs), flight.value.purpose.key, flight.value.purpose.fingerprint, flight.value.purpose.op)
          == Success(Commit(flight.value.next))
      else flight.value.next.receipts == Durable(docs).receipts
  }

  ghost predicate KeyedInv(v: Store) {
    && AppliedOk(v.docs, v.applied)
    && ReceiptFlight(v.docs, v.flight)
    && (forall a :: 0 <= a < |v.answers| ==> Answered(v.applied, v.answers[a]))
  }

  lemma ActReceipts(s: State, r: ReaderId, action: Action)
    requires ReceiptFlight(s.store.docs, s.store.flight) && r in s.readers
    ensures var v' := DoAction(s, r, action).store;
      && v'.docs == s.store.docs && v'.applied == s.store.applied && v'.answers == s.store.answers
      && ReceiptFlight(v'.docs, v'.flight)
  {
    hide Find, KeyOf, CommitOnce, Has, Upgrade, Taken, Reserve, Update, Get, Lookup, LockFree, Rotates;
    var reader := s.readers[r];
    if action.BeginFence? && reader.pc.BeforeFence? && reader.pc.credential.Fenced? {
      FenceReceipts(s.store, r, reader);
    } else if action.BeginInstall? && reader.pc.BeforeInstall? {
      InstallReceipts(s.store, r, reader);
    }
    hide DoBeginFence, DoBeginInstall;
  }

  lemma FenceReceipts(v: Store, r: ReaderId, reader: Reader)
    requires ReceiptFlight(v.docs, v.flight) && reader.pc.BeforeFence? && reader.pc.credential.Fenced?
    ensures ReceiptFlight(v.docs, DoBeginFence(v, r, reader).store.flight)
    ensures DoBeginFence(v, r, reader).store == v.(flight := DoBeginFence(v, r, reader).store.flight)
  {
    hide Find, KeyOf, CommitOnce, Taken;
  }

  lemma InstallReceipts(v: Store, r: ReaderId, reader: Reader)
    requires ReceiptFlight(v.docs, v.flight) && reader.pc.BeforeInstall?
    ensures ReceiptFlight(v.docs, DoBeginInstall(v, r, reader).store.flight)
    ensures DoBeginInstall(v, r, reader).store == v.(flight := DoBeginInstall(v, r, reader).store.flight)
  {
    hide Find, KeyOf, CommitOnce, Taken;
  }

  lemma InvSound(s: State)
    requires Inv(s)
    ensures |s.store.docs| > 0 && Sound(Durable(s.store.docs))
  {
  }

  lemma CommittedOnce(s: State, key: Digest, fingerprint: Digest, op: Op)
    requires Inv(s) && s.store.flight.None? && DrawsFresh(s.store, op)
    ensures var once := CommitOnce(Durable(s.store.docs), key, fingerprint, op);
      once.Success? && once.value.Commit? ==> Upgrade(once.value.next) == once.value.next
  {
    var d := Durable(s.store.docs);
    var once := CommitOnce(d, key, fingerprint, op);
    if once.Success? && once.value.Commit? {
      assert Fresh(d, op);
      ReceiptFormat(d, key, fingerprint, op);
      UpgradeIdentity(once.value.next);
    }
  }

  lemma ReceiptAnswers(docs: seq<Doc>, applied: seq<Applied>, key: Digest)
    requires |docs| > 0 && AllWritten(docs, applied) && AllAccounted(docs, applied) && key in Durable(docs).receipts
    ensures var receipt := Durable(docs).receipts[key];
      Answered(applied, Answer(key, receipt.fingerprint, receipt.accountId))
  {
    var m := Latest(docs);
    assert HasReceiptFrom(applied, key, m);
    var i :| 0 <= i < |applied| && applied[i].key == key && applied[i].at <= m;
    assert Wrote(applied[i], docs[m]);
  }

  lemma OkAnswers(docs: seq<Doc>, applied: seq<Applied>, key: Digest)
    requires |docs| > 0 && AppliedOk(docs, applied) && key in Durable(docs).receipts
    ensures var receipt := Durable(docs).receipts[key];
      Answered(applied, Answer(key, receipt.fingerprint, receipt.accountId))
  {
    hide AllWritten, AllAccounted, Answered;
    ReceiptAnswers(docs, applied, key);
  }

  lemma KeyedReceipts(s: State, key: Digest, fingerprint: Digest, op: Op)
    requires Inv(s) && KeyedInv(s.store)
    ensures KeyedInv(Apply(s, BeginKeyed(key, fingerprint, op)).store)
  {
    hide Inv, AppliedOk, Sound, Perform, Upgrade;
    var v := s.store;
    InvSound(s);
    if v.flight.None? && DrawsFresh(v, op) {
      CommittedOnce(s, key, fingerprint, op);
      if key in Durable(v.docs).receipts {
        OkAnswers(v.docs, v.applied, key);
      }
    }
  }

  lemma UpgradeReceipts(d: Doc)
    ensures Upgrade(d).receipts == d.receipts
  {
  }

  lemma OpReceipts(s: State, op: Op)
    requires Inv(s) && KeyedInv(s.store)
    ensures KeyedInv(Apply(s, BeginOp(op)).store)
  {
    hide Inv, AppliedOk, Lineage, Format, Perform, Upgrade, Answered;
    var d := Durable(s.store.docs);
    if s.store.flight.None? && DrawsFresh(s.store, op) && Perform(d, op).Success? {
      InvSound(s);
      PerformSecrets(d, op);
      UpgradeReceipts(Perform(d, op).value);
    }
  }

  /** Receipts are never dropped or changed by the next document. */
  lemma NextKeepsReceipts(docs: seq<Doc>, flight: Flight)
    requires ReceiptFlight(docs, Some(flight)) && Sound(Durable(docs))
    ensures forall key :: key in Durable(docs).receipts ==>
      key in flight.next.receipts && flight.next.receipts[key] == Durable(docs).receipts[key]
    ensures forall key :: key in flight.next.receipts && key !in Durable(docs).receipts ==>
      flight.purpose.KeyedWrite? && key == flight.purpose.key
    ensures flight.purpose.KeyedWrite? ==>
      && flight.purpose.key !in Durable(docs).receipts
      && flight.purpose.key in flight.next.receipts
      && flight.next.receipts[flight.purpose.key] == Receipt(flight.purpose.fingerprint, flight.purpose.op.id)
  {
    if flight.purpose.KeyedWrite? && Perform(Durable(docs), flight.purpose.op).Success? {
      PerformSecrets(Durable(docs), flight.purpose.op);
    }
    hide Perform, Sound;
  }

  lemma ShownMutate(v: Store, flight: Flight)
    requires |v.docs| > 0 && v.flight == Some(flight)
    requires AllMutate(v.docs, v.applied) && ReceiptFlight(v.docs, v.flight)
    ensures AllMutate(Show(v, flight).docs, Show(v, flight).applied)
  {
  }

  lemma ShownDistinct(v: Store, flight: Flight)
    requires |v.docs| > 0 && v.flight == Some(flight) && Sound(Durable(v.docs))
    requires AppliedOk(v.docs, v.applied) && ReceiptFlight(v.docs, v.flight)
    ensures DistinctKeys(Show(v, flight).applied)
  {
    hide Sound, ReceiptFlight, AllAccounted, AllMutate, AllWritten;
    NextKeepsReceipts(v.docs, flight);
    forall i | 0 <= i < |v.applied| && flight.purpose.KeyedWrite?
      ensures v.applied[i].key != flight.purpose.key
    {
      ShownBefore(v, i);
    }
  }

  lemma ShownWritten(v: Store, flight: Flight)
    requires |v.docs| > 0 && v.flight == Some(flight) && Sound(Durable(v.docs))
    requires AppliedOk(v.docs, v.applied) && ReceiptFlight(v.docs, v.flight)
    ensures AllWritten(Show(v, flight).docs, Show(v, flight).applied)
  {
    hide Sound, ReceiptFlight, AllAccounted, AllMutate, DistinctKeys;
    NextKeepsReceipts(v.docs, flight);
    var docs, applied := Show(v, flight).docs, Show(v, flight).applied;
    forall i, m | 0 <= i < |applied| && applied[i].at <= m < |docs| ensures Wrote(applied[i], docs[m]) {
      if i < |v.applied| {
        ShownBefore(v, i);
        assert applied[i] == v.applied[i];
      }
    }
  }

  lemma ShownAccounted(v: Store, flight: Flight)
    requires |v.docs| > 0 && v.flight == Some(flight) && Sound(Durable(v.docs))
    requires AllAccounted(v.docs, v.applied) && ReceiptFlight(v.docs, v.flight)
    ensures AllAccounted(Show(v, flight).docs, Show(v, flight).applied)
  {
    hide Sound, ReceiptFlight;
    NextKeepsReceipts(v.docs, flight);
    var docs, applied := Show(v, flight).docs, Show(v, flight).applied;
    var n := |v.docs|;
    forall m, key | 0 <= m < |docs| && key in docs[m].receipts
      ensures HasReceiptFrom(applied, key, m)
    {
      if m == n && key !in Durable(v.docs).receipts {
        assert applied[|v.applied|].key == key;
      } else {
        var k := if m == n then n - 1 else m;
        assert HasReceiptFrom(v.applied, key, k);
        var i :| 0 <= i < |v.applied| && v.applied[i].key == key && v.applied[i].at <= k;
        assert applied[i] == v.applied[i];
      }
    }
  }

  /** A visible keyed write adds its entry; any other visible document has the same receipts. */
  lemma ShownReceipts(v: Store, flight: Flight)
    requires |v.docs| > 0 && v.flight == Some(flight) && Sound(Durable(v.docs))
    requires AppliedOk(v.docs, v.applied) && ReceiptFlight(v.docs, v.flight)
    ensures AppliedOk(Show(v, flight).docs, Show(v, flight).applied)
  {
    ShownMutate(v, flight);
    ShownDistinct(v, flight);
    ShownWritten(v, flight);
    ShownAccounted(v, flight);
    hide Sound, ReceiptFlight, AllMutate, AllWritten, AllAccounted, DistinctKeys;
  }

  lemma ShownBefore(v: Store, i: nat)
    requires AllMutate(v.docs, v.applied) && AllWritten(v.docs, v.applied) && i < |v.applied| && |v.docs| > 0
    ensures Wrote(v.applied[i], Durable(v.docs))
  {
  }

  lemma AnsweredMore(applied: seq<Applied>, more: seq<Applied>, answer: Answer)
    requires Answered(applied, answer) && applied <= more
    ensures Answered(more, answer)
  {
  }

  lemma {:induction false} WriteAnswers(v: Store, flight: Flight, outcome: Outcome)
    requires forall a :: 0 <= a < |v.answers| ==> Answered(v.applied, v.answers[a])
    ensures var v' := Resolve(v, flight, outcome);
      forall a :: 0 <= a < |v'.answers| ==> Answered(v'.applied, v'.answers[a])
  {
    var v' := Resolve(v, flight, outcome);
    forall a | 0 <= a < |v'.answers| ensures Answered(v'.applied, v'.answers[a]) {
      if a < |v.answers| {
        AnsweredMore(v.applied, v'.applied, v.answers[a]);
      } else {
        assert v'.applied[|v.applied|].key == v'.answers[a].key;
      }
    }
  }

  lemma WriteReceipts(s: State, outcome: Outcome)
    requires Inv(s) && KeyedInv(s.store) && s.store.flight.Some?
    ensures KeyedInv(DoWrite(s, outcome).store)
  {
    hide Inv, AppliedOk, Sound, Answered, CommitOnce;
    var v := s.store;
    var flight := v.flight.value;
    InvSound(s);
    ShownReceipts(v, flight);
    WriteAnswers(v, flight, outcome);
    assert DoWrite(s, outcome).store == Resolve(v, flight, outcome);
  }

  lemma StepKeyed(s: State, step: Step)
    requires Inv(s) && KeyedInv(s.store)
    ensures KeyedInv(Apply(s, step).store)
  {
    match step
    case StartRead(_, _, _) =>
    case Act(r, action) =>
      if r in s.readers {
        ActReceipts(s, r, action);
        hide Inv, AppliedOk, ReceiptFlight, DoAction;
      }
    case BeginOp(op) => OpReceipts(s, op);
    case BeginKeyed(key, fingerprint, op) => KeyedReceipts(s, key, fingerprint, op);
    case Write(outcome) =>
      if s.store.flight.Some? {
        WriteReceipts(s, outcome);
      }
  }

  lemma {:induction false} RunKeyed(steps: seq<Step>)
    ensures KeyedInv(Run(steps).store)
  {
    hide Inv, KeyedInv, Apply;
    if steps == [] {
      assert KeyedInv(INITIAL.store) by {
        InitialKeyed();
      }
    } else {
      RunKeyed(steps[..|steps| - 1]);
      RunInv(steps[..|steps| - 1]);
      StepKeyed(Run(steps[..|steps| - 1]), steps[|steps| - 1]);
    }
  }

  lemma InitialKeyed()
    ensures KeyedInv(INITIAL.store)
  {
  }

  /** Over any run, a key's mutation becomes visible at most once. */
  lemma AppliedAtMostOnce(steps: seq<Step>, i: nat, j: nat)
    requires var applied := Run(steps).store.applied;
      i < |applied| && j < |applied| && applied[i].key == applied[j].key
    ensures i == j
  {
    RunKeyed(steps);
  }

  /** Every answer a key ever gets names the fingerprint and account of its one mutation. */
  lemma AnswersAgree(steps: seq<Step>, a: nat, b: nat)
    requires var answers := Run(steps).store.answers;
      a < |answers| && b < |answers| && answers[a].key == answers[b].key
    ensures Run(steps).store.answers[a] == Run(steps).store.answers[b]
  {
    RunKeyed(steps);
    var v := Run(steps).store;
    assert Answered(v.applied, v.answers[a]) && Answered(v.applied, v.answers[b]);
  }

  /**
    A receipt and its mutation are visible together: a document has the key's receipt exactly from
    the document on that performs the mutation.
   */
  lemma {:induction false} ReceiptWithMutation(steps: seq<Step>, key: Digest, m: nat)
    requires m < |Run(steps).store.docs|
    ensures var v := Run(steps).store;
      key in v.docs[m].receipts <==> HasReceiptFrom(v.applied, key, m)
    ensures var v := Run(steps).store;
      forall i :: 0 <= i < |v.applied| ==>
        && 1 <= v.applied[i].at < |v.docs|
        && CommitOnce(v.docs[v.applied[i].at - 1], v.applied[i].key, v.applied[i].fingerprint, v.applied[i].op)
             == Success(Commit(v.docs[v.applied[i].at]))
  {
    hide Run, CommitOnce, Inv;
    RunKeyed(steps);
    var v := Run(steps).store;
    if i :| 0 <= i < |v.applied| && v.applied[i].key == key && v.applied[i].at <= m {
      assert Wrote(v.applied[i], v.docs[m]);
    }
  }
}
