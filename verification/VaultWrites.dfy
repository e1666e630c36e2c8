/**
  What account operations and keyed mutations come to when nobody disturbs them (src/accounts/service.rs):
  one commit of exactly the operation's document, and one answer for every retry.
 */
module VaultWrites {
  import opened Fingerprint
  import opened Results
  import opened Accounts
  import opened AccountEffects
  import opened VaultFormat
  import opened VaultProtocol
  import opened VaultSafety
  import VaultTheorems

  /** The vault is idle, and an add draws an id that was never used. */
  predicate Free(s: State, op: Op) {
    s.store.flight.None? && (op.OpAdd? ==> op.id !in s.store.used)
  }

  function Drawn(v: Store, op: Op): set<Id> {
    if op.OpAdd? then v.used + {op.id} else v.used
  }

  /** A committed document of a sound one needs no raise. */
  lemma {:induction false} CommittedAsIs(steps: seq<Step>, op: Op)
    requires Free(Run(steps), op)
    ensures var d := Durable(Run(steps).store.docs);
      Perform(d, op).Success? ==> Upgrade(Perform(d, op).value) == Perform(d, op).value
  {
    hide Run, Perform, ReadersOk, Exclusive, SendsOk, OpenOk, FlightOk, CallsOk;
    RunInv(steps);
    var d := Durable(Run(steps).store.docs);
    if Perform(d, op).Success? {
      assert Fresh(d, op);
      PerformSound(d, op);
      UpgradeIdentity(Perform(d, op).value);
    }
  }

  lemma TakesOff(s: State, op: Op, next: Doc)
    requires Free(s, op) && Perform(Durable(s.store.docs), op) == Success(next) && Upgrade(next) == next
    ensures Apply(s, BeginOp(op)) ==
      s.(store := s.store.(flight := Some(Flight(next, OpWrite(op))), used := Drawn(s.store, op)))
  {
    hide Perform, Upgrade;
  }

  lemma Resolves(s: State, op: Op, next: Doc, outcome: Outcome)
    requires s.store.flight == Some(Flight(next, OpWrite(op)))
    ensures Apply(s, Write(outcome)) == s.(store := s.store.(
      flight := None, docs := if outcome == Kept then s.store.docs else s.store.docs + [next]))
  {
  }

  /**
    An operation that succeeds commits exactly its document, unless the write is refused, and nothing
    else; one that fails commits nothing.
   */
  lemma {:induction false} OperationCommits(steps: seq<Step>, op: Op, outcome: Outcome)
    requires Free(Run(steps), op)
    ensures var s := Run(steps);
      match Perform(Durable(s.store.docs), op)
      case Failure(_) => Apply(s, BeginOp(op)) == s
      case Success(next) =>
        Apply(Apply(s, BeginOp(op)), Write(outcome)) == s.(store := s.store.(
          used := Drawn(s.store, op), docs := if outcome == Kept then s.store.docs else s.store.docs + [next]))
  {
    hide Run, Perform, Upgrade;
    var s := Run(steps);
    var result := Perform(Durable(s.store.docs), op);
    if result.Success? {
      CommittedAsIs(steps, op);
      TakesOff(s, op, result.value);
      hide Apply;
      Resolves(Apply(s, BeginOp(op)), op, result.value, outcome);
    }
  }

  /** The operation's document with the key's receipt. */
  function WithReceipt(next: Doc, key: Digest, fingerprint: Digest, op: Op): Doc {
    Doc(AtLeast(next.version, 2), next.accounts, next.receipts[key := Receipt(fingerprint, op.id)], next.owners)
  }

  /** A first call of a key is an operation whose document carries the key's receipt; nothing stands in its way but
      the receipt limit. */
  lemma OnceIs(d: Doc, key: Digest, fingerprint: Digest, op: Op)
    ensures key in d.receipts ==>
      CommitOnce(d, key, fingerprint, op) ==
      if d.receipts[key].fingerprint == fingerprint then Success(Replay(d.receipts[key].accountId))
      else Failure(IdempotencyConflict)
    ensures key !in d.receipts ==>
      CommitOnce(d, key, fingerprint, op) ==
      if |d.receipts| >= 4096 then Failure(IdempotencyFull)
      else
        match Perform(d, op)
        case Failure(error) => Failure(error)
        case Success(next) => Success(Commit(WithReceipt(next, key, fingerprint, op)))
  {
    hide Perform;
  }

  lemma KeyedTakesOff(s: State, key: Digest, fingerprint: Digest, op: Op, next: Doc)
    requires Free(s, op) && CommitOnce(Durable(s.store.docs), key, fingerprint, op) == Success(Commit(next))
    requires Upgrade(next) == next
    ensures Apply(s, BeginKeyed(key, fingerprint, op)) == s.(store := s.store.(
      flight := Some(Flight(next, KeyedWrite(key, fingerprint, op))), used := Drawn(s.store, op)))
  {
    hide CommitOnce, Upgrade;
  }

  lemma KeyedResolves(s: State, key: Digest, fingerprint: Digest, op: Op, next: Doc, outcome: Outcome)
    requires s.store.flight == Some(Flight(next, KeyedWrite(key, fingerprint, op)))
    ensures var v := s.store;
      Apply(s, Write(outcome)) == s.(store := v.(
        flight := None,
        docs := if outcome == Kept then v.docs else v.docs + [next],
        applied := if outcome == Kept then v.applied else v.applied + [Applied(key, fingerprint, op, |v.docs|)],
        answers := if outcome == Written then v.answers + [Answer(key, fingerprint, op.id)] else v.answers))
  {
  }

  /**
    The first call of a key commits its operation's document with the receipt.  The caller is answered if
    the commit is confirmed; otherwise, as long as it is visible, the next call with the key and
    fingerprint is, and neither that nor any later one commits anything.
   */
  lemma {:induction false} KeyedCommits(steps: seq<Step>, key: Digest, fingerprint: Digest, op: Op, outcome: Outcome,
                                        again: Op)
    requires Free(Run(steps), op) && (again.OpAdd? ==> again.id !in Drawn(Run(steps).store, op))
    requires var d := Durable(Run(steps).store.docs);
      key !in d.receipts && |d.receipts| < 4096 && Perform(d, op).Success?
    ensures var s := Run(steps);
      var v := s.store;
      var next := WithReceipt(Perform(Durable(v.docs), op).value, key, fingerprint, op);
      var s1 := Apply(Apply(s, BeginKeyed(key, fingerprint, op)), Write(outcome));
      && s1 == s.(store := v.(
           used := Drawn(v, op),
           docs := if outcome == Kept then v.docs else v.docs + [next],
           applied := if outcome == Kept then v.applied else v.applied + [Applied(key, fingerprint, op, |v.docs|)],
           answers := if outcome == Written then v.answers + [Answer(key, fingerprint, op.id)] else v.answers))
      && (outcome != Kept ==>
            Apply(s1, BeginKeyed(key, fingerprint, again))
            == s1.(store := s1.store.(answers := s1.store.answers + [Answer(key, fingerprint, op.id)])))
  {
    hide Run, Perform, Upgrade, CommitOnce, Durable;
    var s := Run(steps);
    var d := Durable(s.store.docs);
    var next := WithReceipt(Perform(d, op).value, key, fingerprint, op);
    OnceIs(d, key, fingerprint, op);
    KeyedAsIs(steps, key, fingerprint, op);
    KeyedTakesOff(s, key, fingerprint, op, next);
    hide Apply;
    var flying := Apply(s, BeginKeyed(key, fingerprint, op));
    KeyedResolves(flying, key, fingerprint, op, next, outcome);
    if outcome != Kept {
      DurableNext(s.store.docs, next);
      Retried(Apply(flying, Write(outcome)), key, fingerprint, again);
    }
  }

  lemma DurableNext(docs: seq<Doc>, next: Doc)
    ensures Durable(docs + [next]) == next
  {
  }

  lemma {:induction false} KeyedAsIs(steps: seq<Step>, key: Digest, fingerprint: Digest, op: Op)
    requires Free(Run(steps), op)
    ensures var once := CommitOnce(Durable(Run(steps).store.docs), key, fingerprint, op);
      once.Success? && once.value.Commit? ==> Upgrade(once.value.next) == once.value.next
  {
    hide Run, CommitOnce, Inv;
    RunInv(steps);
    VaultTheorems.CommittedOnce(Run(steps), key, fingerprint, op);
  }

  /** A call whose key has a receipt answers from it, or conflicts, and commits nothing. */
  lemma Retried(s: State, key: Digest, fingerprint: Digest, op: Op)
    requires Free(s, op) && key in Durable(s.store.docs).receipts
    ensures var receipt := Durable(s.store.docs).receipts[key];
      Apply(s, BeginKeyed(key, fingerprint, op)) ==
      if receipt.fingerprint == fingerprint then
        s.(store := s.store.(answers := s.store.answers + [Answer(key, fingerprint, receipt.accountId)]))
      else s
  {
    OnceIs(Durable(s.store.docs), key, fingerprint, op);
    hide CommitOnce, Durable;
  }

  /** A first call whose operation fails, or that finds 4096 receipts, leaves everything as it is. */
  lemma KeyedFails(s: State, key: Digest, fingerprint: Digest, op: Op)
    requires Free(s, op) && key !in Durable(s.store.docs).receipts
    requires |Durable(s.store.docs).receipts| >= 4096 || Perform(Durable(s.store.docs), op).Failure?
    ensures Apply(s, BeginKeyed(key, fingerprint, op)) == s
  {
    OnceIs(Durable(s.store.docs), key, fingerprint, op);
    hide CommitOnce, Durable, Perform;
  }
}
