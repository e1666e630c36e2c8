/**
  Polling for a device authorization (src/accounts/oauth.rs, `poll_device`), after section 3.5 of
  RFC 8628.  Time is in nanoseconds; a sleep or a request takes as long as the world lets it.
 */
module DevicePolling {
  const SECOND: nat := 1_000_000_000
  const LONGEST: nat := 3600

  datatype Response = Pending | SlowDown | TimedOut | ExpiredToken | Denied | Token | Error

  /** The `k`-th round: how late the sleep ends, how long the request takes, what it answers. */
  datatype Round = Round(late: nat, took: nat, response: Response, deadlineWins: bool, cancelled: Cancellation)

  /** Whether the session is cancelled in a round, and whether a request was out by then. */
  datatype Cancellation = NotCancelled | WhileAsleep | WhileWaiting

  datatype Ending = Cancelled | Expired | Refused | Failed | Authorized

  /** A request that was sent: when, after waiting how many seconds, and when and what it answered. */
  datatype Sent = Sent(at: nat, interval: nat, answered: nat, response: Response)

  function Min(a: nat, b: nat): nat { if a < b then a else b }

  predicate Continues(response: Response) {
    response.Pending? || response.SlowDown? || response.TimedOut?
  }

  /** The interval after a response. */
  function NextInterval(interval: nat, response: Response): nat {
    match response
    case TimedOut => Min(interval * 2, LONGEST)
    case SlowDown => interval + 5
    case _ => interval
  }

  /** The cap shortens an interval exactly when the interval is already above it. */
  lemma CapShortens(interval: nat, response: Response)
    ensures NextInterval(interval, response) < interval <==> response.TimedOut? && interval > 3600
    ensures response.TimedOut? && interval > 1800 ==> NextInterval(interval, response) == 3600
  {
  }

  predicate Follows(earlier: Sent, later: Sent) {
    && Continues(earlier.response)
    && later.interval == NextInterval(earlier.interval, earlier.response)
    && earlier.answered + later.interval * SECOND <= later.at
  }

  /** A sequence of requests as section 3.5 of RFC 8628 asks for, all before the deadline. */
  ghost predicate WellSpaced(sent: seq<Sent>, begun: nat, deadline: nat, interval: nat) {
    && (forall k :: 0 <= k < |sent| ==> sent[k].at < deadline && sent[k].at <= sent[k].answered)
    && (|sent| > 0 ==> sent[0].interval == interval && begun + interval * SECOND <= sent[0].at)
    && (forall j, k :: 0 <= j < k < |sent| && k == j + 1 ==> Follows(sent[j], sent[k]))
  }

  lemma Extends(sent: seq<Sent>, begun: nat, deadline: nat, interval: nat, next: Sent)
    requires WellSpaced(sent, begun, deadline, interval) && next.at < deadline && next.at <= next.answered
    requires sent == [] ==> next.interval == interval && begun + interval * SECOND <= next.at
    requires sent != [] ==> Follows(sent[|sent| - 1], next)
    ensures WellSpaced(sent + [next], begun, deadline, interval)
  {
  }

  /** Every request waits at least the interval in force; each one is `k` intervals of five seconds in. */
  lemma {:induction false} SpacedLater(sent: seq<Sent>, begun: nat, deadline: nat, interval: nat, k: nat)
    requires WellSpaced(sent, begun, deadline, interval)
    requires 5 <= interval && deadline <= begun + LONGEST * SECOND && k < |sent|
    ensures begun + 5 * (k + 1) * SECOND <= sent[k].at
    ensures 5 <= sent[k].interval < LONGEST
  {
    if k > 0 {
      SpacedLater(sent, begun, deadline, interval, k - 1);
      assert Follows(sent[k - 1], sent[k]);
    }
  }

  /** The interval never decreases while the session lives, and a `slow_down` adds its five seconds. */
  lemma IntervalNeverDecreases(sent: seq<Sent>, begun: nat, deadline: nat, interval: nat, k: nat)
    requires WellSpaced(sent, begun, deadline, interval)
    requires 5 <= interval && deadline <= begun + LONGEST * SECOND && 0 < k < |sent|
    ensures sent[k - 1].interval <= sent[k].interval
    ensures sent[k - 1].response.Pending? ==> sent[k].interval == sent[k - 1].interval
    ensures sent[k - 1].response.SlowDown? ==> sent[k].interval == sent[k - 1].interval + 5
    ensures sent[k - 1].response.TimedOut? ==> sent[k].interval == 2 * sent[k - 1].interval
    ensures sent[k - 1].at + sent[k - 1].interval * SECOND <= sent[k].at
  {
    SpacedLater(sent, begun, deadline, interval, k - 1);
    SpacedLater(sent, begun, deadline, interval, k);
    assert Follows(sent[k - 1], sent[k]);
  }

  /** Fewer than one request per five seconds of the lifetime. */
  lemma FewPolls(sent: seq<Sent>, begun: nat, deadline: nat, lifetime: nat, interval: nat)
    requires WellSpaced(sent, begun, deadline, interval) && deadline <= begun + lifetime * SECOND
    requires 5 <= interval && lifetime <= LONGEST
    ensures sent != [] ==> 5 * |sent| < lifetime
  {
    if sent != [] {
      SpacedLater(sent, begun, deadline, interval, |sent| - 1);
    }
  }

  lemma NothingSent(begun: nat, deadline: nat, interval: nat)
    ensures WellSpaced([], begun, deadline, interval)
  {
  }

  // ------------------------------------------------------------------ what the world makes of a session

  /** When the request before the `k`-th was answered, or the loop began. */
  function AnswerBefore(sent: seq<Sent>, begun: nat, k: nat): nat
    requires k <= |sent|
  {
    if k == 0 then begun else sent[k - 1].answered
  }

  /** When a request is sent and answered, from the end of the one before it. */
  predicate Timed(sent: seq<Sent>, begun: nat, world: nat -> Round) {
    forall k :: 0 <= k < |sent| ==> OnTime(sent, begun, world, k)
  }

  predicate OnTime(sent: seq<Sent>, begun: nat, world: nat -> Round, k: nat)
    requires k < |sent|
  {
    && sent[k].at == AnswerBefore(sent, begun, k) + sent[k].interval * 1_000_000_000 + world(k).late
    && sent[k].answered == sent[k].at + world(k).took
    && sent[k].response == world(k).response
  }

  function LastAnswer(sent: seq<Sent>, begun: nat): nat {
    AnswerBefore(sent, begun, |sent|)
  }

  function IntervalNow(sent: seq<Sent>, first: nat): nat {
    if sent == [] then first else NextInterval(sent[|sent| - 1].interval, sent[|sent| - 1].response)
  }

  /** When the sleep after these requests ends. */
  function WakesAt(sent: seq<Sent>, begun: nat, first: nat, world: nat -> Round): nat {
    LastAnswer(sent, begun) + IntervalNow(sent, first) * 1_000_000_000 + world(|sent|).late
  }

  /** The session is cancelled neither while asleep nor while waiting, nor overtaken by its deadline. */
  predicate Undisturbed(sent: Sent, round: Round, deadline: nat) {
    round.cancelled == NotCancelled && !(deadline <= sent.answered && round.deadlineWins)
  }

  /** Every request but perhaps the last was answered with leave to go on. */
  predicate GoesOn(sent: seq<Sent>, n: nat, deadline: nat, world: nat -> Round)
    requires n <= |sent|
  {
    forall k :: 0 <= k < n ==> Undisturbed(sent[k], world(k), deadline) && Continues(sent[k].response)
  }

  /** How the last round ends the session, with nothing left open. */
  predicate Ends(ending: Ending, sent: seq<Sent>, now: nat, begun: nat, deadline: nat, first: nat,
                 world: nat -> Round)
  {
    var n := |sent|;
    var asleep := GoesOn(sent, n, deadline, world);
    var answered := n > 0 && now == sent[n - 1].answered && GoesOn(sent, n - 1, deadline, world);
    var heard := answered && Undisturbed(sent[n - 1], world(n - 1), deadline);
    match ending
    case Cancelled =>
      || (asleep && now == LastAnswer(sent, begun) && world(n).cancelled == WhileAsleep)
      || (answered && world(n - 1).cancelled == WhileWaiting)
    case Expired =>
      || (asleep && world(n).cancelled != WhileAsleep && now == WakesAt(sent, begun, first, world) && deadline <= now)
      || (answered && world(n - 1).cancelled == NotCancelled && deadline <= now && world(n - 1).deadlineWins)
      || (heard && sent[n - 1].response.ExpiredToken?)
    case Refused => heard && sent[n - 1].response.Denied?
    case Failed => heard && sent[n - 1].response.Error?
    case Authorized => heard && sent[n - 1].response.Token?
  }

  function EndingOf(response: Response): (e: Ending)
    requires !Continues(response)
  {
    match response
    case Token => Authorized
    case Denied => Refused
    case Error => Failed
    case ExpiredToken => Expired
  }

  // ------------------------------------------------------------------ the schedule without a session

  /** The interval of round `k`, if every earlier one continues. */
  function IntervalAt(first: nat, world: nat -> Round, k: nat): nat {
    if k == 0 then first else NextInterval(IntervalAt(first, world, k - 1), world(k - 1).response)
  }

  /** When round `k` is answered, if every earlier one continues; it is sent `took` before. */
  function AnsweredAt(begun: nat, first: nat, world: nat -> Round, k: nat): nat {
    SentAt(begun, first, world, k) + world(k).took
  }

  function SentAt(begun: nat, first: nat, world: nat -> Round, k: nat): nat
    decreases k, 0
  {
    (if k == 0 then begun else SentAt(begun, first, world, k - 1) + world(k - 1).took)
    + IntervalAt(first, world, k) * 1_000_000_000 + world(k).late
  }

  lemma {:induction false} SentLater(begun: nat, first: nat, world: nat -> Round, j: nat, k: nat)
    requires j <= k
    ensures SentAt(begun, first, world, j) <= SentAt(begun, first, world, k)
    ensures j < k ==> AnsweredAt(begun, first, world, j) <= SentAt(begun, first, world, k)
  {
    if j < k {
      SentLater(begun, first, world, j, k - 1);
    }
  }

  /** The requests a session made are the first ones of the schedule. */
  lemma {:induction false} OnSchedule(sent: seq<Sent>, begun: nat, deadline: nat, first: nat, world: nat -> Round,
                                      k: nat)
    requires Timed(sent, begun, world) && WellSpaced(sent, begun, deadline, first) && k < |sent|
    ensures sent[k].interval == IntervalAt(first, world, k)
    ensures sent[k].at == SentAt(begun, first, world, k) && sent[k].answered == AnsweredAt(begun, first, world, k)
  {
    hide NextInterval;
    if k > 0 {
      OnSchedule(sent, begun, deadline, first, world, k - 1);
      assert Follows(sent[k - 1], sent[k]) && OnTime(sent, begun, world, k - 1);
    }
    assert OnTime(sent, begun, world, k);
    assert sent[k].interval == IntervalAt(first, world, k);
  }

  lemma NextOnSchedule(sent: seq<Sent>, begun: nat, deadline: nat, first: nat, world: nat -> Round)
    requires Timed(sent, begun, world) && WellSpaced(sent, begun, deadline, first)
    ensures WakesAt(sent, begun, first, world) == SentAt(begun, first, world, |sent|)
  {
    if sent != [] {
      OnSchedule(sent, begun, deadline, first, world, |sent| - 1);
      assert OnTime(sent, begun, world, |sent| - 1);
    }
  }

  /**
    If nothing is cancelled up to round `k`, every round before it lets the session go on, and it is
    sent and answered in time with an answer that does not, the session makes exactly `k + 1` requests
    and ends as that answer says.
   */
  lemma {:induction false} PolledToTheEnd(ending: Ending, sent: seq<Sent>, now: nat, begun: nat, deadline: nat,
                                          first: nat, world: nat -> Round, k: nat)
    requires Timed(sent, begun, world) && WellSpaced(sent, begun, deadline, first)
    requires Ends(ending, sent, now, begun, deadline, first, world)
    requires forall j :: 0 <= j <= k ==> world(j).cancelled == NotCancelled
    requires forall j :: 0 <= j < k ==> Continues(world(j).response)
    requires AnsweredAt(begun, first, world, k) < deadline && !Continues(world(k).response)
    ensures |sent| == k + 1 && now == AnsweredAt(begun, first, world, k)
    ensures ending == EndingOf(world(k).response)
  {
    hide WellSpaced, WakesAt, SentAt, NextInterval;
    var n := |sent|;
    NextOnSchedule(sent, begun, deadline, first, world);
    if n <= k {
      SentLater(begun, first, world, n, k);
      if n > 0 {
        OnSchedule(sent, begun, deadline, first, world, n - 1);
        assert OnTime(sent, begun, world, n - 1);
        SentLater(begun, first, world, n - 1, k);
      }
      assert false;
    } else {
      assert OnTime(sent, begun, world, k);
      OnSchedule(sent, begun, deadline, first, world, k);
    }
  }

  lemma TimedMore(sent: seq<Sent>, begun: nat, world: nat -> Round, next: Sent)
    requires Timed(sent, begun, world) && OnTime(sent + [next], begun, world, |sent|)
    ensures Timed(sent + [next], begun, world)
  {
    var all := sent + [next];
    forall k | 0 <= k < |all| ensures OnTime(all, begun, world, k) {
      if k < |sent| {
        assert OnTime(sent, begun, world, k);
      }
    }
  }

  /**
    The polling loop.  `advertised` is the server's interval, `begun` the instant the loop starts,
    and `world` whatever happens in each round.  Remaining time is what makes it end.
   */
  method PollDevice(begun: nat, deadline: nat, advertised: nat, world: nat -> Round)
    returns (ending: Ending, sent: seq<Sent>, now: nat)
    ensures WellSpaced(sent, begun, deadline, if advertised < 5 then 5 else advertised)
    ensures Timed(sent, begun, world)
    ensures Ends(ending, sent, now, begun, deadline, if advertised < 5 then 5 else advertised, world)
  {
    hide WellSpaced, Timed;
    var first := if advertised < 5 then 5 else advertised;
    sent, now := [], begun;
    NothingSent(begun, deadline, first);
    assert Timed(sent, begun, world) by { NothingTimed(begun, world); }
    var interval := first;
    while true
      invariant begun <= now == LastAnswer(sent, begun) && 5 <= interval == IntervalNow(sent, first)
      invariant WellSpaced(sent, begun, deadline, first) && Timed(sent, begun, world)
      invariant GoesOn(sent, |sent|, deadline, world)
      decreases deadline - now
    {
      var round := world(|sent|);
      if round.cancelled == WhileAsleep {
        return Cancelled, sent, now;
      }
      var woken := now + interval * SECOND + round.late;
      if woken >= deadline {
        return Expired, sent, woken;
      }
      var answered := woken + round.took;
      var next := Sent(woken, interval, answered, round.response);
      Extends(sent, begun, deadline, first, next);
      TimedMore(sent, begun, world, next);
      sent := sent + [next];
      now := answered;
      if round.cancelled == WhileWaiting {
        return Cancelled, sent, now;
      }
      if now >= deadline && round.deadlineWins {
        return Expired, sent, now;
      }
      match round.response {
        case TimedOut => interval := Min(interval * 2, LONGEST);
        case Pending =>
        case SlowDown => interval := interval + 5;
        case ExpiredToken => return Expired, sent, now;
        case Denied => return Refused, sent, now;
        case Token => return Authorized, sent, now;
        case Error => return Failed, sent, now;
      }
    }
  }

  lemma NothingTimed(begun: nat, world: nat -> Round)
    ensures Timed([], begun, world)
  {
  }
}
