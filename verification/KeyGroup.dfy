/**
  Trying a group of keys within one budget (src/accounts/service.rs, `validate_credentials`).
  Time is in nanoseconds.  Clocks, timers and requests behave as the world lets them.
 */
module KeyGroup {
  import opened Results

  datatype Code = Timeout | Authentication | Code(number: nat)
  datatype KeyError = Input | Provider(code: Code) | Other(kind: string)
  datatype Diagnostic = Diagnostic(source: string, code: Code)
  datatype Usage = Usage(content: string, diagnostics: seq<Diagnostic>)

  type Outcome = Result<Usage, KeyError>

  /**
    What happens to one key: how long the clock is read after the remaining time was computed, how
    long the request would take and what it would return, and how late a timer fires.
   */
  datatype Attempt = Attempt(gap: nat, took: nat, late: nat, result: Outcome)

  /** One key's window and what came of it. */
  datatype Turn = Turn(start: nat, window: nat, finish: nat, late: nat, outcome: Outcome)

  const MILLISECOND: nat := 1_000_000

  function Min(a: nat, b: nat): nat { if a < b then a else b }

  /** What is left of a budget for the keys. */
  function Usable(budget: nat): (usable: nat)
    ensures usable <= budget && budget * 9 <= usable * 10
    ensures budget <= usable + 100 * MILLISECOND
  {
    budget - Min(budget / 10, 100 * MILLISECOND)
  }

  lemma Division(a: nat, b: nat)
    requires b > 0
    ensures b * (a / b) <= a < b * (a / b) + b
  {
  }

  lemma Monotone(a: nat, b: nat, c: nat)
    requires a <= b
    ensures a * c <= b * c
  {
  }

  /** An even share of an amount, in whole nanoseconds. */
  function Share(amount: nat, among: nat): (share: nat)
    requires among > 0
    ensures share * among <= amount < share * among + among
    ensures share <= amount
  {
    Division(amount, among);
    Monotone(1, among, amount / among);
    amount / among
  }

  // ------------------------------------------------------------------ labels

  function Decimal(n: nat): (digits: string)
    ensures digits != "" && forall i :: 0 <= i < |digits| ==> '0' <= digits[i] <= '9'
  {
    var digit := [(('0' as int) + n % 10) as char];
    if n < 10 then digit else Decimal(n / 10) + digit
  }

  lemma {:induction false} DecimalInjective(m: nat, n: nat)
    requires Decimal(m) == Decimal(n)
    ensures m == n
  {
    var a, b := Decimal(m), Decimal(n);
    assert a[|a| - 1] == b[|b| - 1];
    if m >= 10 && n >= 10 {
      assert a[..|a| - 1] == Decimal(m / 10) && b[..|b| - 1] == Decimal(n / 10);
      DecimalInjective(m / 10, n / 10);
    }
  }

  /** The source of a failing key's diagnostic; keys are numbered from one. */
  function KeySource(provider: string, index: nat): string {
    provider + "_key_" + Decimal(index + 1)
  }

  lemma SourcesDistinct(provider: string, i: nat, j: nat, inner: string)
    ensures KeySource(provider, i) == KeySource(provider, j) <==> i == j
    ensures KeySource(provider, i) != KeySource(provider, j) + ":" + inner
  {
    var p := provider + "_key_";
    var a, b := Decimal(i + 1), Decimal(j + 1);
    if KeySource(provider, i) == KeySource(provider, j) {
      assert (p + a)[|p|..] == a && (p + b)[|p|..] == b;
      DecimalInjective(i + 1, j + 1);
    }
    var labelled := KeySource(provider, j) + ":" + inner;
    assert labelled[|p| + |b|] == ':';
    assert forall k :: |p| <= k < |p + a| ==> (p + a)[k] == a[k - |p|] != ':';
  }

  function ErrorCode(error: KeyError): Code {
    if error.Provider? then error.code else Authentication
  }

  function Relabelled(provider: string, index: nat, diagnostics: seq<Diagnostic>): (r: seq<Diagnostic>)
    ensures |r| == |diagnostics|
  {
    seq(|diagnostics|, k requires 0 <= k < |diagnostics| =>
      diagnostics[k].(source := KeySource(provider, index) + ":" + diagnostics[k].source))
  }

  /** What a key adds to the group's diagnostics. */
  function Contribution(provider: string, index: nat, outcome: Outcome): seq<Diagnostic> {
    match outcome
    case Success(usage) => Relabelled(provider, index, usage.diagnostics)
    case Failure(error) => [Diagnostic(KeySource(provider, index), ErrorCode(error))]
  }

  function Diagnostics(provider: string, outcomes: seq<Outcome>): seq<Diagnostic> {
    if outcomes == [] then []
    else
      var last := |outcomes| - 1;
      Diagnostics(provider, outcomes[..last]) + Contribution(provider, last, outcomes[last])
  }

  function Count(diagnostics: seq<Diagnostic>, source: string): nat {
    if diagnostics == [] then 0
    else
      var last := |diagnostics| - 1;
      Count(diagnostics[..last], source) + if diagnostics[last].source == source then 1 else 0
  }

  lemma {:induction false} CountAppend(a: seq<Diagnostic>, b: seq<Diagnostic>, source: string)
    ensures Count(a + b, source) == Count(a, source) + Count(b, source)
  {
    if b == [] {
      assert a + b == a;
    } else {
      var last := |b| - 1;
      assert (a + b)[..|a + b| - 1] == a + b[..last];
      CountAppend(a, b[..last], source);
    }
  }

  lemma {:induction false} CountNone(diagnostics: seq<Diagnostic>, source: string)
    requires forall k :: 0 <= k < |diagnostics| ==> diagnostics[k].source != source
    ensures Count(diagnostics, source) == 0
  {
    if diagnostics != [] {
      CountNone(diagnostics[..|diagnostics| - 1], source);
    }
  }

  lemma ContributionCount(provider: string, index: nat, outcome: Outcome, key: nat)
    ensures Count(Contribution(provider, index, outcome), KeySource(provider, key)) ==
            if outcome.Failure? && index == key then 1 else 0
  {
    hide KeySource;
    var source := KeySource(provider, key);
    match outcome
    case Success(usage) =>
      var added := Relabelled(provider, index, usage.diagnostics);
      forall k | 0 <= k < |added| ensures added[k].source != source {
        SourcesDistinct(provider, key, index, usage.diagnostics[k].source);
      }
      CountNone(added, source);
    case Failure(error) =>
      SourcesDistinct(provider, index, key, "");
      var only := Contribution(provider, index, outcome);
      assert only[..0] == [];
  }

  /** Every failing key has exactly one diagnostic under its own number, and a working key none. */
  lemma {:induction false} OneDiagnosticPerFailure(provider: string, outcomes: seq<Outcome>, key: nat)
    ensures Count(Diagnostics(provider, outcomes), KeySource(provider, key)) ==
            if key < |outcomes| && outcomes[key].Failure? then 1 else 0
  {
    hide KeySource, Contribution;
    if outcomes != [] {
      var last := |outcomes| - 1;
      OneDiagnosticPerFailure(provider, outcomes[..last], key);
      ContributionCount(provider, last, outcomes[last], key);
      CountAppend(Diagnostics(provider, outcomes[..last]), Contribution(provider, last, outcomes[last]),
        KeySource(provider, key));
    }
  }

  // ------------------------------------------------------------------ windows

  function SumLate(turns: seq<Turn>): nat {
    if turns == [] then 0 else SumLate(turns[..|turns| - 1]) + turns[|turns| - 1].late
  }

  /** A turn gets an even share of what is left, and overruns it only by what the timer is late. */
  predicate Opened(turn: Turn, left: int, deadline: nat) {
    && left > 0
    && turn.window == (if turn.start < deadline then Share(deadline - turn.start, left) else 0)
    && turn.start <= turn.finish <= turn.start + turn.window + turn.late
  }

  function Ended(turns: seq<Turn>, start: nat): nat {
    if turns == [] then start else turns[|turns| - 1].finish
  }

  /** Turns of a group of `n` keys that started at `start` with `usable` time. */
  predicate Scheduled(turns: seq<Turn>, n: nat, start: nat, usable: nat) {
    forall i :: 0 <= i < |turns| ==>
      Opened(turns[i], n - i, start + usable) && turns[i].start == Ended(turns[..i], start)
  }

  lemma ScheduledPrefix(turns: seq<Turn>, n: nat, start: nat, usable: nat, k: nat)
    requires Scheduled(turns, n, start, usable) && k <= |turns|
    ensures Scheduled(turns[..k], n, start, usable)
  {
  }

  /** An even share among `left` keys is at least `q` each, and leaves `q` for each of the others. */
  lemma ShareLeaves(remaining: nat, left: nat, q: nat)
    requires left >= 1 && remaining >= left * q
    ensures Share(remaining, left) >= q
    ensures remaining - Share(remaining, left) >= (left - 1) * q
  {
    hide Share;
    var share := Share(remaining, left);
    if share < q {
      Monotone(share + 1, q, left);
    } else {
      Monotone(q, share, left - 1);
    }
  }

  lemma LateLeaves(left: nat, q: nat, late: nat, rest: int)
    requires left >= 2 && late <= q && rest >= (left - 1) * q
    ensures rest - late >= (left - 1) * (q - late)
    ensures left * q >= q
  {
  }

  /** After any number of turns, the keys still to come keep their even share, less what timers were late. */
  lemma {:induction false} FairShareRemains(turns: seq<Turn>, n: nat, start: nat, usable: nat)
    requires Scheduled(turns, n, start, usable) && |turns| < n && SumLate(turns) < Share(usable, n)
    ensures start + usable - Ended(turns, start) >= (n - |turns|) * (Share(usable, n) - SumLate(turns))
  {
    hide Share, Scheduled;
    if turns != [] {
      var k := |turns| - 1;
      var before, turn := turns[..k], turns[k];
      ScheduledPrefix(turns, n, start, usable, k);
      TurnOpened(turns, n, start, usable, k);
      FairShareRemains(before, n, start, usable);
      var left := n - k;
      var q := Share(usable, n) - SumLate(before);
      var remaining := start + usable - turn.start;
      assert remaining >= left * q;
      LateLeaves(left, q, turn.late, (left - 1) * q);
      ShareLeaves(remaining, left, q);
    }
  }

  lemma TurnOpened(turns: seq<Turn>, n: nat, start: nat, usable: nat, k: nat)
    requires Scheduled(turns, n, start, usable) && k < |turns|
    ensures Opened(turns[k], n - k, start + usable) && turns[k].start == Ended(turns[..k], start)
  {
  }

  /**
    Whatever the earlier keys did, each key's window is at least an even share of the budget less the
    total lateness of the timers before it: a full even share when timers are punctual.
   */
  lemma {:induction false} FairWindow(turns: seq<Turn>, n: nat, start: nat, usable: nat, key: nat)
    requires Scheduled(turns, n, start, usable) && key < |turns| <= n
    ensures turns[key].window >= Share(usable, n) - SumLate(turns[..key])
  {
    hide Share, Scheduled, SumLate;
    var before := turns[..key];
    if SumLate(before) < Share(usable, n) {
      ScheduledPrefix(turns, n, start, usable, key);
      TurnOpened(turns, n, start, usable, key);
      FairShareRemains(before, n, start, usable);
      var left, q := n - key, Share(usable, n) - SumLate(before);
      Monotone(1, left, q);
      ShareLeaves(start + usable - turns[key].start, left, q);
    }
  }

  /** No window reaches past the group's deadline, and with punctual timers neither does a key. */
  lemma {:induction false} WindowsEndInTime(turns: seq<Turn>, n: nat, start: nat, usable: nat, key: nat)
    requires Scheduled(turns, n, start, usable) && key < |turns|
    ensures turns[key].start < start + usable ==> turns[key].start + turns[key].window <= start + usable
    ensures SumLate(turns[..key + 1]) == 0 ==> turns[key].finish <= start + usable
  {
    hide Share;
    assert turns[..key + 1][..key] == turns[..key];
    if key > 0 {
      WindowsEndInTime(turns, n, start, usable, key - 1);
    }
  }

  // ------------------------------------------------------------------ validate_credentials

  /** One attempt from an instant on: it is cut off when its timer fires first. */
  function Take(attempt: Attempt, now: nat, window: nat): (turn: Turn)
    ensures turn.start == now && turn.window == window
    ensures turn.start <= turn.finish <= turn.start + turn.window + turn.late
  {
    var overrun := if attempt.took <= window then 0 else Min(attempt.took - window, attempt.late);
    if attempt.took <= window + attempt.late then
      Turn(now, window, now + attempt.gap + attempt.took, attempt.gap + overrun, attempt.result)
    else
      Turn(now, window, now + attempt.gap + window + overrun, attempt.gap + overrun, Failure(Provider(Timeout)))
  }

  /** An answer within the window counts, and one that comes after the timer has fired does not. */
  lemma InTimeCounts(attempt: Attempt, now: nat, window: nat)
    ensures attempt.took <= window ==>
      Take(attempt, now, window).outcome == attempt.result
      && Take(attempt, now, window).finish == now + attempt.gap + attempt.took
    ensures attempt.took > window + attempt.late ==>
      Take(attempt, now, window).outcome == Failure(Provider(Timeout))
      && Take(attempt, now, window).finish == now + attempt.gap + window + attempt.late
  {
  }

  /** If all timers and clocks are on time, a key that works within an even share makes the group succeed. */
  lemma {:induction false} WorkingKeyWins(provider: string, attempts: seq<Attempt>, start: nat, budget: nat,
                                          turns: seq<Turn>, result: Outcome, i: nat)
    requires |turns| == |attempts| && Scheduled(turns, |attempts|, start, Usable(budget))
    requires forall j :: 0 <= j < |turns| ==> turns[j] == Take(attempts[j], turns[j].start, turns[j].window)
    requires Chosen(provider, Outcomes(turns), result)
    requires forall j :: 0 <= j < |attempts| ==> attempts[j].gap == 0 && attempts[j].late == 0
    requires i < |attempts| && attempts[i].result.Success? && attempts[i].took <= Share(Usable(budget), |attempts|)
    ensures result.Success?
  {
    hide Scheduled, Diagnostics, Usable, Share;
    NothingLate(attempts, turns, i);
    FairWindow(turns, |attempts|, start, Usable(budget), i);
    InTimeCounts(attempts[i], turns[i].start, turns[i].window);
    assert Outcomes(turns)[i].Success?;
  }

  lemma {:induction false} NothingLate(attempts: seq<Attempt>, turns: seq<Turn>, i: nat)
    requires i <= |turns| == |attempts|
    requires forall j :: 0 <= j < |turns| ==> turns[j] == Take(attempts[j], turns[j].start, turns[j].window)
    requires forall j :: 0 <= j < |attempts| ==> attempts[j].gap == 0 && attempts[j].late == 0
    ensures SumLate(turns[..i]) == 0
  {
    if i > 0 {
      NothingLate(attempts, turns, i - 1);
      assert turns[..i][..i - 1] == turns[..i - 1];
      assert turns[i - 1].late == 0;
    }
  }

  function Outcomes(turns: seq<Turn>): (r: seq<Outcome>)
    ensures |r| == |turns|
  {
    seq(|turns|, i requires 0 <= i < |turns| => turns[i].outcome)
  }

  /** The last usage wins and carries what every key had to say; without one, the last error does. */
  predicate Chosen(provider: string, outcomes: seq<Outcome>, result: Outcome) {
    match result
    case Success(usage) =>
      && usage.diagnostics == Diagnostics(provider, outcomes)
      && exists i :: 0 <= i < |outcomes| && outcomes[i].Success? && outcomes[i].value.content == usage.content
                     && forall j :: i < j < |outcomes| ==> outcomes[j].Failure?
    case Failure(error) =>
      && (forall i :: 0 <= i < |outcomes| ==> outcomes[i].Failure?)
      && error == if outcomes == [] then Input else outcomes[|outcomes| - 1].error
  }

  /** What the group returns with the last usage, the diagnostics and the last error so far. */
  function Selected(selected: Option<Usage>, failures: seq<Diagnostic>, lastError: KeyError): Outcome {
    if selected.Some? then Success(Usage(selected.value.content, failures)) else Failure(lastError)
  }

  lemma NothingTried(provider: string, n: nat, start: nat, usable: nat)
    ensures Scheduled([], n, start, usable) && Outcomes([]) == [] && Diagnostics(provider, []) == []
    ensures Chosen(provider, [], Failure(Input))
  {
  }

  lemma Schedules(turns: seq<Turn>, n: nat, start: nat, usable: nat, turn: Turn, attempt: Attempt)
    requires Scheduled(turns, n, start, usable) && |turns| < n
    requires turn.start == Ended(turns, start)
    requires var remaining := if turn.start < start + usable then start + usable - turn.start else 0;
      turn == Take(attempt, turn.start, Share(remaining, n - |turns|))
    ensures Scheduled(turns + [turn], n, start, usable)
  {
  }

  lemma Chooses(provider: string, outcomes: seq<Outcome>, outcome: Outcome, result: Outcome)
    requires Chosen(provider, outcomes, result)
    ensures Diagnostics(provider, outcomes + [outcome]) ==
            Diagnostics(provider, outcomes) + Contribution(provider, |outcomes|, outcome)
    ensures var diagnostics := Diagnostics(provider, outcomes + [outcome]);
      Chosen(provider, outcomes + [outcome],
        match outcome
        case Success(usage) => Success(Usage(usage.content, diagnostics))
        case Failure(error) =>
          if result.Success? then Success(Usage(result.value.content, diagnostics)) else Failure(error))
  {
  }

  /** `attempts[i]` is what happens when key `i` is tried; `budget` is the time the caller has left. */
  method ValidateCredentials(provider: string, attempts: seq<Attempt>, start: nat, budget: nat)
    returns (result: Outcome, ghost turns: seq<Turn>)
    ensures |attempts| == 1 ==> result == attempts[0].result
    ensures |attempts| != 1 ==>
      && |turns| == |attempts|
      && Scheduled(turns, |attempts|, start, Usable(budget))
      && (forall i :: 0 <= i < |turns| ==> turns[i] == Take(attempts[i], turns[i].start, turns[i].window))
      && Chosen(provider, Outcomes(turns), result)
  {
    hide Scheduled, Diagnostics, Chosen, Relabelled, KeySource, Share, Take;
    turns := [];
    var n := |attempts|;
    if n == 1 {
      return attempts[0].result, [];
    }
    var deadline, now := start + Usable(budget), start;
    NothingTried(provider, n, start, Usable(budget));
    var selected: Option<Usage>, failures, lastError := None, [], Input;
    for index := 0 to n
      invariant |turns| == index && now == Ended(turns, start)
      invariant Scheduled(turns, n, start, Usable(budget))
      invariant forall i :: 0 <= i < index ==> turns[i] == Take(attempts[i], turns[i].start, turns[i].window)
      invariant failures == Diagnostics(provider, Outcomes(turns))
      invariant Chosen(provider, Outcomes(turns), Selected(selected, failures, lastError))
    {
      var remaining := if now < deadline then deadline - now else 0;
      var turn := Take(attempts[index], now, Share(remaining, n - index));
      Schedules(turns, n, start, Usable(budget), turn, attempts[index]);
      Chooses(provider, Outcomes(turns), turn.outcome, Selected(selected, failures, lastError));
      assert Outcomes(turns + [turn]) == Outcomes(turns) + [turn.outcome];
      turns := turns + [turn];
      now := turn.finish;
      match turn.outcome {
        case Success(usage) =>
          failures := failures + Relabelled(provider, index, usage.diagnostics);
          selected := Some(Usage(usage.content, []));
        case Failure(error) =>
          failures := failures + [Diagnostic(KeySource(provider, index), ErrorCode(error))];
          lastError := error;
      }
    }
    result := Selected(selected, failures, lastError);
  }
}
