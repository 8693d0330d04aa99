/** Pausing and resuming the SLA clock of a case, and what whole runs of it measure. */
module CaseOperations {
  import opened BusinessCalendars
  import opened Counting
  import opened ReviewSla
  import opened Wrappers

  datatype ClockError = AlreadyPaused | NotPaused

  // The SLA fields of a case: when the open pause began, and the business time of the closed ones.
  datatype Clock = Clock(pausedAt: Option<int>, pausedTime: int)

  datatype ClockEvent = PauseAt(at: int) | ResumeAt(at: int)

  function InitialClock(): Clock {
    Clock(None, 0)
  }

  function Pause(clock: Clock, at: int): Result<Clock, ClockError> {
    if clock.pausedAt.Some? then Err(AlreadyPaused) else Ok(clock.(pausedAt := Some(at)))
  }

  function Resume(cal: Calendar, clock: Clock, now: int): Result<Clock, ClockError> {
    if clock.pausedAt.None? then Err(NotPaused)
    else Ok(Clock(None, clock.pausedTime + BusinessTime(cal, clock.pausedAt.value, now)))
  }

  // A refused operation leaves the clock alone.
  function Apply(cal: Calendar, clock: Clock, event: ClockEvent): Clock {
    var outcome := match event case PauseAt(at) => Pause(clock, at) case ResumeAt(at) => Resume(cal, clock, at);
    if outcome.Ok? then outcome.value else clock
  }

  function Run(cal: Calendar, events: seq<ClockEvent>): Clock {
    if events == [] then InitialClock()
    else Apply(cal, Run(cal, events[..|events| - 1]), events[|events| - 1])
  }

  // The case record as the service mutates it.
  class CaseRecord {
    var slaPausedAt: Option<int>
    var slaPausedTime: int
    var slaPauseReason: Option<string>

    constructor ()
      ensures SlaClock() == InitialClock() && Valid()
    {
      slaPausedAt, slaPausedTime, slaPauseReason := None, 0, None;
    }

    function SlaClock(): Clock
      reads this
    {
      Clock(slaPausedAt, slaPausedTime)
    }

    // A reason is on record exactly during a pause.
    ghost predicate Valid()
      reads this
    {
      slaPausedAt.Some? <==> slaPauseReason.Some?
    }

    method PauseSla(reason: string, at: int) returns (r: Result<(), ClockError>)
      requires Valid()
      modifies this
      ensures Valid()
      ensures r == if old(slaPausedAt).Some? then Err(AlreadyPaused) else Ok(())
      ensures r.Ok? ==> Ok(SlaClock()) == Pause(old(SlaClock()), at) && slaPauseReason == Some(reason)
      ensures r.Err? ==> unchanged(this)
    {
      if slaPausedAt.Some? {
        return Err(AlreadyPaused);
      }
      slaPausedAt := Some(at);
      slaPauseReason := Some(reason);
      return Ok(());
    }

    method ResumeSla(cal: Calendar, now: int) returns (r: Result<int, ClockError>)
      requires Valid()
      requires BusinessCalendars.Valid(cal)
      modifies this
      ensures Valid()
      ensures r == if old(slaPausedAt).None? then Err(NotPaused) else Ok(slaPausedTime)
      ensures r.Ok? <==> Resume(cal, old(SlaClock()), now).Ok?
      ensures r.Ok? ==> Ok(SlaClock()) == Resume(cal, old(SlaClock()), now) && slaPauseReason.None?
      ensures r.Err? ==> unchanged(this)
    {
      if slaPausedAt.None? {
        return Err(NotPaused);
      }
      var pause := BusinessSecondsBetween(cal, slaPausedAt.value, now);
      slaPausedTime := slaPausedTime + pause;
      slaPausedAt := None;
      slaPauseReason := None;
      return Ok(slaPausedTime);
    }
  }

  /// What a run measures

  // Events in time order, none before `from` or after `until`.
  ghost predicate InOrder(events: seq<ClockEvent>, from: int, until: int) {
    && from <= until
    && (forall i | 0 <= i < |events| :: from <= events[i].at <= until)
    && (forall i, j | 0 <= i < j < |events| :: events[i].at <= events[j].at)
  }

  // Whether the last request at or before t was a pause.
  predicate FrozenAt(events: seq<ClockEvent>, t: int) {
    if events == [] then false
    else
      var last := events[|events| - 1];
      if last.at <= t then last.PauseAt? else FrozenAt(events[..|events| - 1], t)
  }

  function FrozenBusiness(cal: Calendar, events: seq<ClockEvent>): int -> bool {
    t => IsBusinessInstant(cal, t) && FrozenAt(events, t)
  }

  function RunningBusiness(cal: Calendar, events: seq<ClockEvent>): int -> bool {
    t => IsBusinessInstant(cal, t) && !FrozenAt(events, t)
  }

  ghost predicate PausedLast(events: seq<ClockEvent>) {
    events != [] && events[|events| - 1].PauseAt?
  }

  // A case is paused exactly when the last request was a pause; an open pause began during the run.
  lemma {:induction false} PausedIffLastRequestPauses(cal: Calendar, events: seq<ClockEvent>, from: int, until: int)
    requires InOrder(events, from, until)
    ensures var clock := Run(cal, events);
      && (clock.pausedAt.Some? <==> PausedLast(events))
      && (clock.pausedAt.Some? ==> from <= clock.pausedAt.value <= events[|events| - 1].at)
      && 0 <= clock.pausedTime
  {
    if events != [] {
      PausedIffLastRequestPauses(cal, events[..|events| - 1], from, until);
    }
  }

  // The clock's paused total is the business time during which the case was frozen.
  lemma {:induction false} PausedTotalCountsFrozenTime(cal: Calendar, events: seq<ClockEvent>, created: int, now: int)
    requires InOrder(events, created, now)
    ensures var clock := Run(cal, events);
      PausedBusinessTime(cal, clock.pausedAt, clock.pausedTime, now)
      == CountIf(FrozenBusiness(cal, events), created, now)
  {
    if events == [] {
      CountNone(FrozenBusiness(cal, events), created, now);
    } else {
      var front, last := events[..|events| - 1], events[|events| - 1];
      PausedTotalCountsFrozenTime(cal, front, created, last.at);
      PausedIffLastRequestPauses(cal, front, created, last.at);
      CountSplits(FrozenBusiness(cal, events), created, last.at, now);
      CountAgrees(FrozenBusiness(cal, events), FrozenBusiness(cal, front), created, last.at);
      if last.PauseAt? {
        CountAgrees(FrozenBusiness(cal, events), BusinessInstants(cal), last.at, now);
        var pausedAt := Run(cal, front).pausedAt;
        if pausedAt.Some? {
          CountSplits(BusinessInstants(cal), pausedAt.value, last.at, now);
        }
      } else {
        CountNone(FrozenBusiness(cal, events), last.at, now);
      }
    }
  }

  lemma {:induction false} FrozenPlusRunning(cal: Calendar, events: seq<ClockEvent>, lo: int, hi: int)
    ensures CountIf(FrozenBusiness(cal, events), lo, hi) + CountIf(RunningBusiness(cal, events), lo, hi)
         == BusinessTime(cal, lo, hi)
    decreases hi - lo
  {
    if lo < hi {
      FrozenPlusRunning(cal, events, lo, hi - 1);
    }
  }

  ghost function Report(cal: Calendar, priority: string, created: int, events: seq<ClockEvent>, now: int): SlaStatus
    requires Valid(cal)
  {
    var clock := Run(cal, events);
    CalculateSla(priority, Some(created), now, clock.pausedAt, clock.pausedTime, Some(cal))
  }

  lemma RemainingIsTargetLessActive(cal: Calendar, priority: string, created: int, now: int, pausedAt: Option<int>,
                                    pausedTime: int)
    requires Valid(cal)
    ensures CalculateSla(priority, Some(created), now, pausedAt, pausedTime, Some(cal)).remaining
         == Some(Target(priority) - ActiveTime(cal, created, pausedAt, pausedTime, now))
  {
  }

  // Along every run, paused time never exceeds business time since creation, and the remaining time
  // reported is the target less the business time during which the case was not frozen.
  lemma {:induction false} RemainingCountsRunningTime(cal: Calendar, priority: string, created: int,
                                                      events: seq<ClockEvent>, now: int)
    requires Valid(cal)
    requires InOrder(events, created, now)
    ensures var clock := Run(cal, events);
      PausedBusinessTime(cal, clock.pausedAt, clock.pausedTime, now) <= BusinessTime(cal, created, now)
    ensures Report(cal, priority, created, events, now).remaining
         == Some(Target(priority) - CountIf(RunningBusiness(cal, events), created, now))
  {
    var clock := Run(cal, events);
    PausedTotalCountsFrozenTime(cal, events, created, now);
    FrozenPlusRunning(cal, events, created, now);
    RemainingIsTargetLessActive(cal, priority, created, now, clock.pausedAt, clock.pausedTime);
  }

  // Later requests do not change what was frozen before them.
  lemma {:induction false} LaterRequestsKeepThePast(events: seq<ClockEvent>, more: seq<ClockEvent>, now: int, t: int)
    requires forall i | 0 <= i < |more| :: now <= more[i].at
    requires t < now
    ensures FrozenAt(events + more, t) == FrozenAt(events, t)
  {
    if more == [] {
      assert events + more == events;
    } else {
      LaterRequestsKeepThePast(events, more[..|more| - 1], now, t);
      assert (events + more)[..|events + more| - 1] == events + more[..|more| - 1];
    }
  }

  // Remaining time after more requests and more time: it falls by the business time that ran meanwhile.
  lemma {:induction false} RemainingFallsByRunningTime(cal: Calendar, priority: string, created: int,
                                                       events: seq<ClockEvent>, now: int, more: seq<ClockEvent>,
                                                       later: int)
    requires Valid(cal)
    requires InOrder(events, created, now) && InOrder(events + more, created, later)
    requires now <= later && forall i | 0 <= i < |more| :: now <= more[i].at
    ensures Report(cal, priority, created, events, now).remaining.Some?
    ensures Report(cal, priority, created, events + more, later).remaining
         == Some(Report(cal, priority, created, events, now).remaining.value
                 - CountIf(RunningBusiness(cal, events + more), now, later))
  {
    RemainingCountsRunningTime(cal, priority, created, events, now);
    RemainingCountsRunningTime(cal, priority, created, events + more, later);
    CountSplits(RunningBusiness(cal, events + more), created, now, later);
    forall t | created <= t < now
      ensures RunningBusiness(cal, events + more)(t) == RunningBusiness(cal, events)(t)
    {
      LaterRequestsKeepThePast(events, more, now, t);
    }
    CountAgrees(RunningBusiness(cal, events + more), RunningBusiness(cal, events), created, now);
  }

  // Nothing runs while the case stays paused, and a pause or resume costs nothing at its own instant.
  lemma RemainingStandsStill(cal: Calendar, priority: string, created: int,
                             events: seq<ClockEvent>, now: int, more: seq<ClockEvent>, later: int)
    requires Valid(cal)
    requires InOrder(events, created, now) && InOrder(events + more, created, later)
    requires now <= later && forall i | 0 <= i < |more| :: now <= more[i].at
    requires (more == [] && PausedLast(events)) || now == later
    ensures Report(cal, priority, created, events + more, later).remaining
         == Report(cal, priority, created, events, now).remaining
  {
    RemainingFallsByRunningTime(cal, priority, created, events, now, more, later);
    if now < later {
      assert events + more == events;
      CountNone(RunningBusiness(cal, events), now, later);
    }
  }

  function EscalationRank(escalation: Escalation): int {
    match escalation case NotEscalated => 0 case EscalatedDue => 1 case EscalatedCritical => 2
  }

  function StatusRank(status: Status): int {
    match status case Unknown => 0 case Paused => 0 case OnTrack => 1 case DueSoon => 2 case Overdue => 3
  }

  // Along every run, whatever the pauses, escalation never goes back and neither does the status
  // reported while running.
  lemma EscalationNeverGoesBack(cal: Calendar, priority: string, created: int,
                                events: seq<ClockEvent>, now: int, more: seq<ClockEvent>, later: int)
    requires Valid(cal)
    requires InOrder(events, created, now) && InOrder(events + more, created, later)
    requires now <= later && forall i | 0 <= i < |more| :: now <= more[i].at
    ensures var before := Report(cal, priority, created, events, now);
            var after := Report(cal, priority, created, events + more, later);
      && EscalationRank(before.escalation) <= EscalationRank(after.escalation)
      && (!before.paused && !after.paused ==> 0 < StatusRank(before.status) <= StatusRank(after.status))
  {
    RemainingFallsByRunningTime(cal, priority, created, events, now, more, later);
  }

  // Along every run the due instant of a case that is running now is its deadline, as long as it has not passed.
  lemma {:induction false} RunKeepsDeadline(cal: Calendar, priority: string, created: int, events: seq<ClockEvent>,
                                            now: int)
    requires Valid(cal)
    requires InOrder(events, created, now) && !PausedLast(events)
    ensures var deadline := Deadline(cal, priority, created, Run(cal, events).pausedTime);
      Report(cal, priority, created, events, now).dueAt == Some(deadline) <==> OnlyBusiness(cal, deadline, now)
  {
    PausedIffLastRequestPauses(cal, events, created, now);
    RemainingCountsRunningTime(cal, priority, created, events, now);
    DueAtIsDeadlineIff(cal, priority, created, now, Run(cal, events).pausedTime);
  }

  /// What a pause does to the due instant

  // A pause moves the deadline by the business time it lasted, wherever the deadline lies.
  lemma PauseMovesDeadline(cal: Calendar, priority: string, created: int, clock: Clock, now: int)
    requires Valid(cal) && clock.pausedAt.Some? && 0 <= clock.pausedTime
    ensures var resumed := Resume(cal, clock, now);
      && resumed.Ok?
      && Deadline(cal, priority, created, resumed.value.pausedTime)
         == DueInstant(cal, Deadline(cal, priority, created, clock.pausedTime),
                       BusinessTime(cal, clock.pausedAt.value, now))
  {
    BudgetsAdd(cal, created, Target(priority) + clock.pausedTime, BusinessTime(cal, clock.pausedAt.value, now));
  }

  // Counting the remaining time from now is counting target and paused time from creation.
  lemma RemainingFromNow(cal: Calendar, priority: string, created: int, now: int, pausedTime: nat, remaining: int)
    requires Valid(cal) && created <= now && 0 < remaining
    requires remaining == Target(priority) + pausedTime - BusinessTime(cal, created, now)
    ensures DueInstant(cal, now, remaining) == Deadline(cal, priority, created, pausedTime)
  {
    var budget := Target(priority) + pausedTime;
    DueByIffElapsed(cal, created, budget, now);
    DueFromLaterStart(cal, created, now, budget);
  }

  // What is reported with time remaining is that time, counted from now.
  lemma DueAtCountsRemaining(cal: Calendar, priority: string, created: int, now: int, pausedAt: Option<int>,
                             pausedTime: int,
                             remaining: int)
    requires Valid(cal)
    requires remaining == Target(priority) - ActiveTime(cal, created, pausedAt, pausedTime, now)
    ensures CalculateSla(priority, Some(created), now, pausedAt, pausedTime, Some(cal)).dueAt
         == Some(if remaining > 0 then DueInstant(cal, now, remaining) else now + remaining)
  {
  }

  lemma {:induction false} ResumedClock(cal: Calendar, events: seq<ClockEvent>, now: int)
    requires Run(cal, events).pausedAt.Some? && 0 <= Run(cal, events).pausedTime
    ensures Run(cal, events + [ResumeAt(now)])
         == Clock(None, PausedBusinessTime(cal, Run(cal, events).pausedAt, Run(cal, events).pausedTime, now))
  {
    assert (events + [ResumeAt(now)])[..|events|] == events;
  }

  // While a case with time remaining is paused, the due instant reported is the one a resume at this very
  // instant would set as the deadline: the remaining time, counted from now.
  lemma {:induction false} PausedReportIsDeadlineOfResume(cal: Calendar, priority: string, created: int,
                                                          events: seq<ClockEvent>, now: int)
    requires Valid(cal)
    requires InOrder(events, created, now) && PausedLast(events)
    requires Report(cal, priority, created, events, now).remaining.value > 0
    ensures var report := Report(cal, priority, created, events, now);
      && report.paused
      && report.dueAt == Some(DueInstant(cal, now, report.remaining.value))
      && report.dueAt == Some(Deadline(cal, priority, created, Run(cal, events + [ResumeAt(now)]).pausedTime))
  {
    var clock := Run(cal, events);
    var paused := PausedBusinessTime(cal, clock.pausedAt, clock.pausedTime, now);
    var remaining := Target(priority) - ActiveTime(cal, created, clock.pausedAt, clock.pausedTime, now);
    PausedIffLastRequestPauses(cal, events, created, now);
    RemainingCountsRunningTime(cal, priority, created, events, now);
    RemainingIsTargetLessActive(cal, priority, created, now, clock.pausedAt, clock.pausedTime);
    DueAtCountsRemaining(cal, priority, created, now, clock.pausedAt, clock.pausedTime, remaining);
    RemainingFromNow(cal, priority, created, now, paused, remaining);
    ResumedClock(cal, events, now);
  }

  // So it moves along: as long as the pause lasts, a later report is the earlier one moved by the business
  // time in between, or by the wall-clock time in between once no time remains.
  lemma PausedReportMovesAlong(cal: Calendar, priority: string, created: int, events: seq<ClockEvent>, now: int,
                               later: int)
    requires Valid(cal)
    requires InOrder(events, created, now) && PausedLast(events) && now <= later
    ensures var report := Report(cal, priority, created, events, now);
            var due' := Report(cal, priority, created, events, later).dueAt;
      && report.dueAt.Some?
      && due' == Some(if report.remaining.value > 0
                      then DueInstant(cal, report.dueAt.value, BusinessTime(cal, now, later))
                      else report.dueAt.value + (later - now))
  {
    var remaining := Report(cal, priority, created, events, now).remaining.value;
    assert events + [] == events;
    RemainingStandsStill(cal, priority, created, events, now, [], later);
    if remaining > 0 {
      PausedReportIsDeadlineOfResume(cal, priority, created, events, now);
      PausedReportIsDeadlineOfResume(cal, priority, created, events, later);
      BudgetsAdd(cal, now, remaining, BusinessTime(cal, now, later));
      DueFromMovedStart(cal, now, later, remaining);
    }
  }

  // Counting a positive budget from a later start is counting it, together with the business time passed
  // meanwhile, from the earlier one.
  lemma DueFromMovedStart(cal: Calendar, start: int, later: int, budget: nat)
    requires Valid(cal) && start <= later && 0 < budget
    ensures DueInstant(cal, later, budget) == DueInstant(cal, start, BusinessTime(cal, start, later) + budget)
  {
    DueByIffElapsed(cal, start, BusinessTime(cal, start, later) + budget, later);
    DueFromLaterStart(cal, start, later, BusinessTime(cal, start, later) + budget);
  }
}
