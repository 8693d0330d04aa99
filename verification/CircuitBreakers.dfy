/**
  The circuit breaker. Calls run outside the lock, so any interleaving of admissions and reports is
  possible: a call admitted while the circuit was closed may report long after it opened.
 */
module CircuitBreakers {
  import opened Wrappers

  datatype State = Closed | Open | HalfOpen

  datatype Config = Config(threshold: int, recovery: int)

  datatype Breaker = Breaker(state: State, failures: nat, openedAt: Option<int>, probeInFlight: bool)

  predicate ValidConfig(c: Config) {
    1 <= c.threshold && 0 < c.recovery
  }

  // A breaker is configured with a threshold of at least one and a recovery time, or not at all.
  method Configure(threshold: int, recovery: int) returns (r: Result<Config, ()>)
    ensures r.Ok? <==> 0 < threshold && 0 < recovery
    ensures r.Ok? ==> r.value == Config(threshold, recovery) && ValidConfig(r.value)
  {
    if threshold < 1 || recovery <= 0 {
      return Err(());
    }
    return Ok(Config(threshold, recovery));
  }

  function Initial(): Breaker {
    Breaker(Closed, 0, None, false)
  }

  /// The lock-protected sections

  function Refreshed(c: Config, b: Breaker, now: int): Breaker {
    if b.state == Open && b.openedAt.Some? && now - b.openedAt.value >= c.recovery
    then b.(state := HalfOpen, probeInFlight := false) else b
  }

  // Whether a call may start now.
  predicate Admits(c: Config, b: Breaker, now: int) {
    var r := Refreshed(c, b, now);
    r.state == Closed || (r.state == HalfOpen && !r.probeInFlight)
  }

  function AfterBegin(c: Config, b: Breaker, now: int): Breaker {
    var r := Refreshed(c, b, now);
    if r.state == HalfOpen then r.(probeInFlight := true) else r
  }

  function AfterFailure(c: Config, b: Breaker, now: int): Breaker {
    var counted := b.(probeInFlight := false, failures := b.failures + 1);
    if b.state == HalfOpen || counted.failures >= c.threshold
    then counted.(state := Open, openedAt := Some(now)) else counted
  }

  class CircuitBreaker {
    const config: Config
    var state: State
    var failures: nat
    var openedAt: Option<int>
    var probeInFlight: bool

    function Abstract(): Breaker
      reads this
    {
      Breaker(state, failures, openedAt, probeInFlight)
    }

    constructor (config: Config)
      requires ValidConfig(config)
      ensures this.config == config && Abstract() == Initial()
    {
      this.config := config;
      state, failures, openedAt, probeInFlight := Closed, 0, None, false;
    }

    method RefreshLocked(now: int)
      modifies this
      ensures Abstract() == Refreshed(config, old(Abstract()), now)
    {
      if state == Open && openedAt.Some? {
        if now - openedAt.value >= config.recovery {
          state, probeInFlight := HalfOpen, false;
        }
      }
    }

    // Refuses while the circuit is open or its probe is in flight.
    method BeforeCall(now: int) returns (admitted: bool)
      modifies this
      ensures admitted == Admits(config, old(Abstract()), now)
      ensures Abstract() == AfterBegin(config, old(Abstract()), now)
    {
      RefreshLocked(now);
      if state == Open {
        return false;
      }
      if state == HalfOpen {
        if probeInFlight {
          return false;
        }
        probeInFlight := true;
      }
      return true;
    }

    method Success()
      modifies this
      ensures Abstract() == Initial()
    {
      state, failures, openedAt, probeInFlight := Closed, 0, None, false;
    }

    method Failure(now: int)
      modifies this
      ensures Abstract() == AfterFailure(config, old(Abstract()), now)
    {
      probeInFlight := false;
      failures := failures + 1;
      if state == HalfOpen || failures >= config.threshold {
        state, openedAt := Open, Some(now);
      }
    }
  }

  /// Interleavings

  datatype Step =
    | Observe(now: int)
    | Begin(now: int)
    | ReportSuccess(now: int)
    | ReportFailure(now: int)

  function Next(c: Config, b: Breaker, step: Step): Breaker {
    match step
    case Observe(now) => Refreshed(c, b, now)
    case Begin(now) => AfterBegin(c, b, now)
    case ReportSuccess(_) => Initial()
    case ReportFailure(now) => AfterFailure(c, b, now)
  }

  function Run(c: Config, b: Breaker, steps: seq<Step>): Breaker
    decreases |steps|
  {
    if steps == [] then b else Run(c, Next(c, b, steps[0]), steps[1..])
  }

  // Failures reported since the last success, `streak` of them before the run.
  function FailureStreak(streak: nat, steps: seq<Step>): nat
    decreases |steps|
  {
    if steps == [] then streak
    else
      var next := match steps[0] case ReportSuccess(_) => 0 case ReportFailure(_) => streak + 1 case _ => streak;
      FailureStreak(next, steps[1..])
  }

  ghost predicate Inv(c: Config, b: Breaker) {
    && (b.state == Closed <==> b.failures < c.threshold)
    && (b.state != Closed ==> b.openedAt.Some?)
  }

  lemma {:induction false} EveryRunKeepsInv(c: Config, b: Breaker, steps: seq<Step>)
    requires ValidConfig(c) && Inv(c, b)
    ensures Inv(c, Run(c, b, steps)) && Run(c, b, steps).failures == FailureStreak(b.failures, steps)
    decreases |steps|
  {
    if steps != [] {
      EveryRunKeepsInv(c, Next(c, b, steps[0]), steps[1..]);
    }
  }

  // The circuit is closed exactly when fewer than `threshold` failures were reported since the last
  // success, whenever the failed calls began.
  lemma {:induction false} ClosedIffShortStreak(c: Config, steps: seq<Step>)
    requires ValidConfig(c)
    ensures Run(c, Initial(), steps).state == Closed <==> FailureStreak(0, steps) < c.threshold
  {
    EveryRunKeepsInv(c, Initial(), steps);
  }

  // How many calls a run admits.
  function Admissions(c: Config, b: Breaker, steps: seq<Step>): nat
    decreases |steps|
  {
    if steps == [] then 0
    else
      var first := if steps[0].Begin? && Admits(c, b, steps[0].now) then 1 else 0;
      first + Admissions(c, Next(c, b, steps[0]), steps[1..])
  }

  // Until some call reports back, a circuit that is not closed admits at most one call: the probe.
  lemma {:induction false} OneProbeBetweenReports(c: Config, b: Breaker, steps: seq<Step>)
    requires ValidConfig(c) && Inv(c, b) && b.state != Closed
    requires forall i | 0 <= i < |steps| :: steps[i].Begin? || steps[i].Observe?
    ensures Admissions(c, b, steps) <= if b.state == HalfOpen && b.probeInFlight then 0 else 1
    decreases |steps|
  {
    if steps != [] {
      OneProbeBetweenReports(c, Next(c, b, steps[0]), steps[1..]);
    }
  }

  // Clock readings never go back.
  ghost predicate InOrder(from: int, steps: seq<Step>)
    decreases |steps|
  {
    steps == [] || (from <= steps[0].now && InOrder(steps[0].now, steps[1..]))
  }

  // A half-open circuit has waited out its recovery time by `clock`.
  ghost predicate Waited(c: Config, b: Breaker, clock: int) {
    && Inv(c, b)
    && (b.state == HalfOpen ==> b.openedAt.Some? && b.openedAt.value + c.recovery <= clock)
    && (b.state != Closed ==> b.openedAt.Some? && b.openedAt.value <= clock)
  }

  // From an opening on, and until a success, a call is admitted only `recovery` after that opening and
  // after every failure reported since.
  lemma {:induction false} NoCallUntilRecovery(c: Config, b: Breaker, clock: int, steps: seq<Step>, now: int)
    requires ValidConfig(c) && Waited(c, b, clock) && b.state != Closed
    requires InOrder(clock, steps + [Begin(now)])
    requires forall i | 0 <= i < |steps| :: !steps[i].ReportSuccess?
    requires Admits(c, Run(c, b, steps), now)
    ensures b.openedAt.value + c.recovery <= now
    ensures forall i | 0 <= i < |steps| && steps[i].ReportFailure? :: steps[i].now + c.recovery <= now
    decreases |steps|
  {
    if steps == [] {
      assert steps + [Begin(now)] == [Begin(now)];
    } else {
      var b' := Next(c, b, steps[0]);
      assert (steps + [Begin(now)])[1..] == steps[1..] + [Begin(now)];
      NoCallUntilRecovery(c, b', steps[0].now, steps[1..], now);
      forall i | 0 <= i < |steps| && steps[i].ReportFailure?
        ensures steps[i].now + c.recovery <= now
      {
        if i != 0 {
          assert steps[1..][i - 1].now + c.recovery <= now;
        }
      }
    }
  }

  // The opening itself, in a run from the start: once enough failures are reported, later calls wait.
  lemma {:induction false} OpeningHoldsCallsBack(c: Config, start: int, before: seq<Step>, failedAt: int,
                                                 steps: seq<Step>, now: int)
    requires ValidConfig(c)
    requires InOrder(start, before + [ReportFailure(failedAt)] + steps + [Begin(now)])
    requires c.threshold <= FailureStreak(0, before + [ReportFailure(failedAt)])
    requires forall i | 0 <= i < |steps| :: !steps[i].ReportSuccess?
    requires Admits(c, Run(c, Initial(), before + [ReportFailure(failedAt)] + steps), now)
    ensures failedAt + c.recovery <= now
    ensures forall i | 0 <= i < |steps| && steps[i].ReportFailure? :: steps[i].now + c.recovery <= now
  {
    var opening := before + [ReportFailure(failedAt)];
    var b0, b := Run(c, Initial(), before), Run(c, Initial(), opening);
    EveryRunKeepsInv(c, Initial(), opening);
    RunsCompose(c, Initial(), before, [ReportFailure(failedAt)]);
    assert Run(c, b0, [ReportFailure(failedAt)]) == Next(c, b0, ReportFailure(failedAt)) by {
      assert [ReportFailure(failedAt)][1..] == [];
    }
    EveryRunKeepsInv(c, Initial(), before);
    RunsCompose(c, Initial(), opening, steps);
    assert before + [ReportFailure(failedAt)] + steps + [Begin(now)]
        == before + ([ReportFailure(failedAt)] + (steps + [Begin(now)]));
    OrderOfTheRest(start, before, [ReportFailure(failedAt)] + (steps + [Begin(now)]));
    assert ([ReportFailure(failedAt)] + (steps + [Begin(now)]))[1..] == steps + [Begin(now)];
    NoCallUntilRecovery(c, b, failedAt, steps, now);
  }

  lemma {:induction false} RunsCompose(c: Config, b: Breaker, first: seq<Step>, second: seq<Step>)
    ensures Run(c, b, first + second) == Run(c, Run(c, b, first), second)
    decreases |first|
  {
    if first == [] {
      assert first + second == second;
    } else {
      RunsCompose(c, Next(c, b, first[0]), first[1..], second);
      assert (first + second)[1..] == first[1..] + second;
    }
  }

  lemma {:induction false} OrderOfTheRest(from: int, first: seq<Step>, second: seq<Step>)
    requires second != [] && InOrder(from, first + second)
    ensures InOrder(second[0].now, second[1..])
    decreases |first|
  {
    if first == [] {
      assert first + second == second;
    } else {
      assert (first + second)[1..] == first[1..] + second;
      OrderOfTheRest(first[0].now, first[1..], second);
    }
  }

  /// The whole history decides

  // What reports and calls so far amount to: failures since the last success, when the last of them was
  // reported, and whether a call has been let through as a probe since.
  datatype Story = Story(streak: nat, failedAt: int, probed: bool)

  function Tell(c: Config, story: Story, step: Step): Story {
    match step
    case Observe(_) => story
    case Begin(now) =>
      story.(probed := story.probed || (c.threshold <= story.streak && story.failedAt + c.recovery <= now))
    case ReportSuccess(_) => Story(0, story.failedAt, false)
    case ReportFailure(now) => Story(story.streak + 1, now, false)
  }

  function TellAll(c: Config, story: Story, steps: seq<Step>): Story
    decreases |steps|
  {
    if steps == [] then story else TellAll(c, Tell(c, story, steps[0]), steps[1..])
  }

  // The breaker is what the story makes of it at `clock`.
  ghost predicate Fits(c: Config, b: Breaker, story: Story, clock: int) {
    && Inv(c, b) && b.failures == story.streak
    && (b.state == Closed ==> !story.probed)
    && (b.state != Closed ==> b.openedAt == Some(story.failedAt) && story.failedAt <= clock)
    && (b.state == HalfOpen ==> story.failedAt + c.recovery <= clock)
    && (story.probed <==> b.state == HalfOpen && b.probeInFlight)
  }

  lemma StepKeepsFit(c: Config, b: Breaker, story: Story, clock: int, step: Step)
    requires 1 <= c.threshold && 0 < c.recovery && Fits(c, b, story, clock) && clock <= step.now
    ensures Fits(c, Next(c, b, step), Tell(c, story, step), step.now)
  {
  }

  // Under a clock that never goes back, a call is let through exactly when fewer than `threshold` failures
  // were reported since the last success, or the last of them was reported at least the recovery time ago
  // and no probe has been let through since: an open circuit recovers, for one call.
  lemma {:induction false} AdmitsIff(c: Config, b: Breaker, story: Story, clock: int, steps: seq<Step>, now: int)
    requires 1 <= c.threshold && 0 < c.recovery && Fits(c, b, story, clock) && InOrder(clock, steps + [Begin(now)])
    ensures var end := TellAll(c, story, steps);
      Admits(c, Run(c, b, steps), now) <==>
        end.streak < c.threshold || (end.failedAt + c.recovery <= now && !end.probed)
    decreases |steps|
  {
    if steps == [] {
      assert steps + [Begin(now)] == [Begin(now)];
    } else {
      assert (steps + [Begin(now)])[1..] == steps[1..] + [Begin(now)];
      StepKeepsFit(c, b, story, clock, steps[0]);
      AdmitsIff(c, Next(c, b, steps[0]), Tell(c, story, steps[0]), steps[0].now, steps[1..], now);
    }
  }

  lemma StartFits(c: Config, clock: int)
    requires 1 <= c.threshold && 0 < c.recovery
    ensures Fits(c, Initial(), Story(0, 0, false), clock)
  {
  }

  // In particular, after an opening and until a call begins or reports, a call is let through exactly from
  // the recovery time on.
  lemma {:induction false} RecoversOnTime(c: Config, b: Breaker, failedAt: int, steps: seq<Step>, now: int)
    requires 1 <= c.threshold && 0 < c.recovery && Inv(c, b) && c.threshold <= b.failures + 1
    requires InOrder(failedAt, steps + [Begin(now)]) && forall i | 0 <= i < |steps| :: steps[i].Observe?
    ensures Admits(c, Run(c, Next(c, b, ReportFailure(failedAt)), steps), now) <==> failedAt + c.recovery <= now
  {
    var story := Story(b.failures + 1, failedAt, false);
    AdmitsIff(c, Next(c, b, ReportFailure(failedAt)), story, failedAt, steps, now);
    OnlyObserving(c, story, steps);
  }

  lemma {:induction false} OnlyObserving(c: Config, story: Story, steps: seq<Step>)
    requires forall i | 0 <= i < |steps| :: steps[i].Observe?
    ensures TellAll(c, story, steps) == story
    decreases |steps|
  {
    if steps != [] {
      OnlyObserving(c, story, steps[1..]);
    }
  }

  // A probe that succeeds closes the circuit, and one that fails opens it for another recovery time.
  lemma ProbeDecides(c: Config, b: Breaker, at: int, now: int)
    requires 1 <= c.threshold && 0 < c.recovery && Inv(c, b) && b.state != Closed
    ensures Admits(c, Next(c, b, ReportSuccess(at)), now)
    ensures Admits(c, Next(c, b, ReportFailure(at)), now) <==> at + c.recovery <= now
  {
  }
}
