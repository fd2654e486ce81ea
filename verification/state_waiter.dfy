/** The fixed-interval polling loop of `waitForLambda`, on a logical clock.
    Each poll consumes one `getFunction` answer, which arrives after its own
    latency; a poll that sees neither `Active` nor `Failed` is followed by a
    sleep of `intervalMs`. Polling continues while the elapsed time is below
    `timeoutMs`. */
module StateWaiter {
  import opened Common
  import opened Cloud

  /** How a wait ends. `NoAnswer` means the supplied answers ran out before
      the deadline; the code itself would keep polling. */
  datatype WaitEnd =
    | Ready
    | StateFailed(message: string)
    | TimedOut(message: string)
    | Errored(error: Error)
    | NoAnswer

  /** A wait's end, how many answers it consumed and the time it took. */
  datatype PollRun = PollRun(end: WaitEnd, polls: nat, elapsed: nat)

  const DefaultTimeoutMs: nat := 300000
  const DefaultIntervalMs: nat := 5000

  function FailedMessage(name: string, reason: string): string {
    "Lambda function " + name + " failed to be ready. Reason: " + reason
  }

  function TimeoutMessage(name: string, timeoutMs: nat): string {
    "Lambda function " + name + " did not become ready within " + NatToString(timeoutMs) + "ms."
  }

  /** An answer after which polling stops. */
  predicate Terminal(o: Observation) {
    o.ProbeError? || o.state == Active || o.state == Failed
  }

  function Latency(o: Observation): nat {
    match o
    case Seen(_, _, l) => l
    case ProbeError(_, l) => l
  }

  /** The reference definition of the wait, started at time `elapsed`. */
  function Poll(name: string, obs: seq<Observation>, timeoutMs: nat, intervalMs: nat, elapsed: nat): (r: PollRun)
    ensures r.polls <= |obs| && r.elapsed >= elapsed
    decreases |obs|
  {
    if elapsed >= timeoutMs then PollRun(TimedOut(TimeoutMessage(name, timeoutMs)), 0, elapsed)
    else if |obs| == 0 then PollRun(NoAnswer, 0, elapsed)
    else
      var o := obs[0];
      var t := elapsed + Latency(o);
      match o
      case ProbeError(e, _) => PollRun(Errored(e), 1, t)
      case Seen(state, reason, _) =>
        if state == Active then PollRun(Ready, 1, t)
        else if state == Failed then PollRun(StateFailed(FailedMessage(name, reason)), 1, t)
        else
          var rest := Poll(name, obs[1..], timeoutMs, intervalMs, t + intervalMs);
          PollRun(rest.end, rest.polls + 1, rest.elapsed)
  }

  /** How the wait ends: every answer before the last one consumed was
      non-terminal; it is ready exactly on an `Active` answer, fails exactly
      on a `Failed` one (naming its reason) or on a probe error, and times
      out only once the deadline is reached. */
  lemma {:induction false} PollOutcome(name: string, obs: seq<Observation>, timeoutMs: nat, intervalMs: nat, elapsed: nat)
    ensures var r := Poll(name, obs, timeoutMs, intervalMs, elapsed);
            && (forall j :: 0 <= j < r.polls - 1 ==> !Terminal(obs[j]))
            && (r.end.Ready? <==> r.polls >= 1 && obs[r.polls - 1].Seen? && obs[r.polls - 1].state == Active)
            && (r.end.StateFailed? <==> r.polls >= 1 && obs[r.polls - 1].Seen? && obs[r.polls - 1].state == Failed)
            && (r.end.StateFailed? ==> r.end.message == FailedMessage(name, obs[r.polls - 1].reason))
            && (r.end.Errored? <==> r.polls >= 1 && obs[r.polls - 1].ProbeError?)
            && (r.end.Errored? ==> r.end.error == obs[r.polls - 1].error)
            && (r.end.TimedOut? ==> r.elapsed >= timeoutMs && r.end.message == TimeoutMessage(name, timeoutMs))
            && (r.end.NoAnswer? ==> r.polls == |obs| && r.elapsed < timeoutMs)
            && ((r.end.TimedOut? || r.end.NoAnswer?) ==> r.polls == 0 || !Terminal(obs[r.polls - 1]))
    decreases |obs|
  {
    if elapsed < timeoutMs && |obs| > 0 && !Terminal(obs[0]) {
      var t := elapsed + Latency(obs[0]) + intervalMs;
      PollOutcome(name, obs[1..], timeoutMs, intervalMs, t);
      var rest := Poll(name, obs[1..], timeoutMs, intervalMs, t);
      var r := Poll(name, obs, timeoutMs, intervalMs, elapsed);
      assert r == Shifted(rest, 1);
      assert forall j :: 1 <= j < r.polls ==> obs[j] == obs[1..][j - 1];
    }
  }

  /** `waitForLambda(name, waitFor, timeoutMs, intervalMs)` as a loop over the
      answers `obs`, with `clock` the elapsed time since the start. */
  method WaitForLambda(name: string, obs: seq<Observation>, timeoutMs: nat, intervalMs: nat)
    returns (end: WaitEnd, polls: nat, elapsed: nat)
    ensures PollRun(end, polls, elapsed) == Poll(name, obs, timeoutMs, intervalMs, 0)
  {
    var clock: nat := 0;
    var i: nat := 0;
    while clock < timeoutMs
      invariant i <= |obs|
      invariant Poll(name, obs, timeoutMs, intervalMs, 0) == Shifted(Poll(name, obs[i..], timeoutMs, intervalMs, clock), i)
      decreases |obs| - i
    {
      if i == |obs| {
        return NoAnswer, i, clock;
      }
      var o := obs[i];
      if Terminal(o) {
        PollStep(name, obs[i..], timeoutMs, intervalMs, clock);
        i, clock := i + 1, clock + Latency(o);
        if o.ProbeError? {
          return Errored(o.error), i, clock;
        }
        if o.state == Active {
          return Ready, i, clock;
        }
        return StateFailed(FailedMessage(name, o.reason)), i, clock;
      }
      PollContinue(name, obs, i, timeoutMs, intervalMs, clock);
      i, clock := i + 1, clock + Latency(o) + intervalMs;
    }
    PollAtDeadline(name, obs[i..], timeoutMs, intervalMs, clock);
    return TimedOut(TimeoutMessage(name, timeoutMs)), i, clock;
  }

  /** A non-terminal answer before the deadline moves the wait one answer
      and one interval on. */
  lemma PollContinue(name: string, obs: seq<Observation>, i: nat, timeoutMs: nat, intervalMs: nat, clock: nat)
    requires i < |obs| && clock < timeoutMs && !Terminal(obs[i])
    ensures Shifted(Poll(name, obs[i..], timeoutMs, intervalMs, clock), i) ==
            Shifted(Poll(name, obs[i + 1..], timeoutMs, intervalMs, clock + Latency(obs[i]) + intervalMs), i + 1)
  {
    PollStep(name, obs[i..], timeoutMs, intervalMs, clock);
    assert obs[i..][1..] == obs[i + 1..];
  }

  function Shifted(r: PollRun, k: nat): PollRun {
    r.(polls := r.polls + k)
  }

  /** One poll before the deadline: what the first answer decides. */
  lemma PollStep(name: string, obs: seq<Observation>, timeoutMs: nat, intervalMs: nat, elapsed: nat)
    requires elapsed < timeoutMs && |obs| > 0
    ensures var r := Poll(name, obs, timeoutMs, intervalMs, elapsed);
            var t := elapsed + Latency(obs[0]);
            && (obs[0].ProbeError? ==> r == PollRun(Errored(obs[0].error), 1, t))
            && (obs[0].Seen? && obs[0].state == Active ==> r == PollRun(Ready, 1, t))
            && (obs[0].Seen? && obs[0].state == Failed ==> r == PollRun(StateFailed(FailedMessage(name, obs[0].reason)), 1, t))
            && (!Terminal(obs[0]) ==> r == Shifted(Poll(name, obs[1..], timeoutMs, intervalMs, t + intervalMs), 1))
  {
  }

  lemma PollAtDeadline(name: string, obs: seq<Observation>, timeoutMs: nat, intervalMs: nat, elapsed: nat)
    requires elapsed >= timeoutMs
    ensures Poll(name, obs, timeoutMs, intervalMs, elapsed) == PollRun(TimedOut(TimeoutMessage(name, timeoutMs)), 0, elapsed)
  {
  }

  // ---------------------------------------------------------------------------
  // Properties of the cadence
  // ---------------------------------------------------------------------------

  /** Each poll after the first is preceded by a full interval, and polls
      only start before the deadline: a wait started at `elapsed` makes at
      most as many polls as fit, one per interval, before `timeoutMs`. */
  lemma {:induction false} PollCadence(name: string, obs: seq<Observation>, timeoutMs: nat, intervalMs: nat, elapsed: nat)
    ensures var r := Poll(name, obs, timeoutMs, intervalMs, elapsed);
            r.polls >= 1 ==> elapsed + (r.polls - 1) * intervalMs < timeoutMs
    decreases |obs|
  {
    var r := Poll(name, obs, timeoutMs, intervalMs, elapsed);
    if elapsed < timeoutMs && |obs| > 0 && !Terminal(obs[0]) {
      var t := elapsed + Latency(obs[0]) + intervalMs;
      PollCadence(name, obs[1..], timeoutMs, intervalMs, t);
      var rest := Poll(name, obs[1..], timeoutMs, intervalMs, t);
      assert r.polls == rest.polls + 1;
      if rest.polls >= 1 {
        assert elapsed + (r.polls - 1) * intervalMs <= t + (rest.polls - 1) * intervalMs;
      }
    }
  }

  /** Polls that fit before the deadline when answers arrive instantly. */
  function PollsUntilDeadline(timeoutMs: nat, intervalMs: nat, elapsed: nat): nat
    requires intervalMs > 0
    decreases timeoutMs - elapsed
  {
    if elapsed >= timeoutMs then 0 else 1 + PollsUntilDeadline(timeoutMs, intervalMs, elapsed + intervalMs)
  }

  /** With instant answers that never become terminal, the wait times out
      after exactly the polls that fit before the deadline. */
  lemma {:induction false} InstantPendingTimesOut(name: string, obs: seq<Observation>, timeoutMs: nat, intervalMs: nat, elapsed: nat)
    requires intervalMs > 0
    requires forall j :: 0 <= j < |obs| ==> obs[j].Seen? && !Terminal(obs[j]) && obs[j].latency == 0
    requires |obs| >= PollsUntilDeadline(timeoutMs, intervalMs, elapsed)
    ensures Poll(name, obs, timeoutMs, intervalMs, elapsed).end == TimedOut(TimeoutMessage(name, timeoutMs))
    ensures Poll(name, obs, timeoutMs, intervalMs, elapsed).polls == PollsUntilDeadline(timeoutMs, intervalMs, elapsed)
    decreases timeoutMs - elapsed
  {
    if elapsed < timeoutMs {
      assert Latency(obs[0]) == 0;
      InstantPendingTimesOut(name, obs[1..], timeoutMs, intervalMs, elapsed + intervalMs);
    }
  }

  /** A never-ready function with `timeoutMs = 50` and `intervalMs = 10`
      is polled five times before the timeout is thrown. */
  lemma FiftyByTenPollsFiveTimes(name: string, obs: seq<Observation>)
    requires forall j :: 0 <= j < |obs| ==> obs[j] == Seen(Pending, "", 0)
    requires |obs| >= 5
    ensures Poll(name, obs, 50, 10, 0).end.TimedOut?
    ensures Poll(name, obs, 50, 10, 0).polls == 5
  {
    assert PollsUntilDeadline(50, 10, 50) == 0;
    assert PollsUntilDeadline(50, 10, 40) == 1;
    assert PollsUntilDeadline(50, 10, 20) == 3;
    assert PollsUntilDeadline(50, 10, 0) == 5;
    InstantPendingTimesOut(name, obs, 50, 10, 0);
  }

  /** `[Pending, Pending, Active]` with no interval: ready after three polls. */
  lemma {:induction false} PendingPendingActive(name: string, timeoutMs: nat, reason: string)
    requires timeoutMs > 0
    ensures var r := Poll(name, [Seen(Pending, reason, 0), Seen(Pending, reason, 0), Seen(Active, reason, 0)], timeoutMs, 0, 0);
            r.end == Ready && r.polls == 3 && r.elapsed < timeoutMs
  {
    var obs := [Seen(Pending, reason, 0), Seen(Pending, reason, 0), Seen(Active, reason, 0)];
    assert obs[1..] == [Seen(Pending, reason, 0), Seen(Active, reason, 0)];
    assert obs[1..][1..] == [Seen(Active, reason, 0)];
    PollStep(name, obs[1..][1..], timeoutMs, 0, 0);
    PollStep(name, obs[1..], timeoutMs, 0, 0);
    PollStep(name, obs, timeoutMs, 0, 0);
  }

  /** A first answer of `Failed` ends the wait at once, and the error
      carries the reported reason at its end. */
  lemma FailedFirstStopsAtOnce(name: string, reason: string, latency: nat, rest: seq<Observation>, timeoutMs: nat, intervalMs: nat)
    requires timeoutMs > 0
    ensures var r := Poll(name, [Seen(Failed, reason, latency)] + rest, timeoutMs, intervalMs, 0);
            r.polls == 1 && r.end.StateFailed? &&
            |r.end.message| >= |reason| && r.end.message[|r.end.message| - |reason|..] == reason
  {
    var m := FailedMessage(name, reason);
    assert m == ("Lambda function " + name + " failed to be ready. Reason: ") + reason;
  }

  /** The timeout error names the function and determines the bound. */
  lemma TimeoutMessageNamesBound(name: string, a: nat, b: nat)
    requires TimeoutMessage(name, a) == TimeoutMessage(name, b)
    ensures a == b
  {
    var p := "Lambda function " + name + " did not become ready within ";
    var ma := TimeoutMessage(name, a);
    var mb := TimeoutMessage(name, b);
    assert ma == p + (NatToString(a) + "ms.");
    assert mb == p + (NatToString(b) + "ms.");
    assert ma[|p|..] == NatToString(a) + "ms.";
    assert mb[|p|..] == NatToString(b) + "ms.";
    var sa := NatToString(a) + "ms.";
    var sb := NatToString(b) + "ms.";
    assert |sa| == |sb|;
    assert sa[..|sa| - 3] == NatToString(a);
    assert sb[..|sb| - 3] == NatToString(b);
    NatToStringInjective(a, b);
  }
}
