/** The SLA of a case: active business time, due instant, status and escalation. */
module ReviewSla {
  import opened BusinessCalendars
  import opened Counting
  import opened Wrappers

  datatype Status = Unknown | OnTrack | DueSoon | Overdue | Paused

  datatype Escalation = NotEscalated | EscalatedDue | EscalatedCritical

  // Durations are microseconds; `remaining` is negative once the target is exceeded.
  datatype SlaStatus = SlaStatus(
    dueAt: Option<int>, status: Status, remaining: Option<int>, slaHours: int, escalation: Escalation,
    paused: bool, businessCalendar: bool)

  function SlaHours(priority: string): int {
    match priority
    case "CRITICAL" => 4
    case "HIGH" => 12
    case "LOW" => 72
    case _ => 24
  }

  // The business time a case of this priority may take.
  function Target(priority: string): int {
    Hours(SlaHours(priority))
  }

  // A quarter of the target: the margin of a critical escalation.
  function Quarter(priority: string): int {
    Target(priority) / 4
  }

  // Business time spent paused: the closed pauses and, while paused, the open one.
  function PausedBusinessTime(cal: Calendar, pausedAt: Option<int>, pausedTime: int, now: int): int {
    Max(0, pausedTime) + (if pausedAt.Some? then BusinessTime(cal, pausedAt.value, now) else 0)
  }

  function ActiveTime(cal: Calendar, created: int, pausedAt: Option<int>, pausedTime: int, now: int): int {
    Max(0, BusinessTime(cal, created, now) - PausedBusinessTime(cal, pausedAt, pausedTime, now))
  }

  ghost function CalculateSla(priority: string, createdAt: Option<int>, now: int,
                              pausedAt: Option<int>, pausedTime: int, calendar: Option<Calendar>): SlaStatus
    requires calendar.Some? ==> Valid(calendar.value)
  {
    var cal := if calendar.Some? then calendar.value else DefaultCalendar();
    match createdAt
    case None =>
      SlaStatus(None, Unknown, None, SlaHours(priority), NotEscalated, pausedAt.Some?, cal != DefaultCalendar())
    case Some(created) =>
      var active := ActiveTime(cal, created, pausedAt, pausedTime, now);
      var remaining := Target(priority) - active;
      var due :=
        if active >= Target(priority) then now - (active - Target(priority))
        else DueInstant(cal, now, remaining);
      var status :=
        if pausedAt.Some? then Paused
        else if remaining < 0 then Overdue
        else if remaining <= Max(Hours(1), Quarter(priority)) then DueSoon
        else OnTrack;
      var escalation :=
        if remaining < -Quarter(priority) then EscalatedCritical
        else if remaining < 0 then EscalatedDue
        else NotEscalated;
      SlaStatus(Some(due), status, Some(remaining), SlaHours(priority), escalation, pausedAt.Some?,
                cal != DefaultCalendar())
  }

  // The instant a running case falls due: the least one at which business time since creation
  // reaches the target plus the time it was paused.
  ghost function Deadline(cal: Calendar, priority: string, created: int, pausedTime: int): int
    requires Valid(cal)
  {
    DueInstant(cal, created, Target(priority) + pausedTime)
  }

  // Business time from now until the deadline, negative once business time has passed since it.
  ghost function BusinessDistance(cal: Calendar, now: int, deadline: int): int {
    BusinessTime(cal, now, deadline) - BusinessTime(cal, deadline, now)
  }

  lemma DistanceToDeadline(cal: Calendar, priority: string, created: int, now: int, pausedTime: nat)
    requires Valid(cal)
    requires created <= now
    ensures BusinessDistance(cal, now, Deadline(cal, priority, created, pausedTime))
         == Target(priority) + pausedTime - BusinessTime(cal, created, now)
  {
    var deadline := Deadline(cal, priority, created, pausedTime);
    AddingAndMeasuringInvert(cal, created, Target(priority) + pausedTime, now);
    if now <= deadline {
      CountSplits(BusinessInstants(cal), created, now, deadline);
    } else {
      CountSplits(BusinessInstants(cal), created, deadline, now);
    }
  }

  // Up to the deadline the report is the deadline; afterwards it is the overrun subtracted from now.
  lemma DueAtValue(cal: Calendar, priority: string, created: int, now: int, pausedTime: nat)
    requires Valid(cal)
    requires created <= now && pausedTime <= BusinessTime(cal, created, now)
    ensures var deadline := Deadline(cal, priority, created, pausedTime);
            CalculateSla(priority, Some(created), now, None, pausedTime, Some(cal)).dueAt
            == Some(if now <= deadline then deadline else now - BusinessTime(cal, deadline, now))
  {
    var budget := Target(priority) + pausedTime;
    DistanceToDeadline(cal, priority, created, now, pausedTime);
    DueByIffElapsed(cal, created, budget, now);
    if BusinessTime(cal, created, now) < budget {
      DueFromLaterStart(cal, created, now, budget);
    }
  }

  // For a running case the reported due instant is the deadline exactly while no idle instant has
  // passed since the deadline: always up to the deadline, and afterwards only through business time.
  lemma DueAtIsDeadlineIff(cal: Calendar, priority: string, created: int, now: int, pausedTime: nat)
    requires Valid(cal)
    requires created <= now && pausedTime <= BusinessTime(cal, created, now)
    ensures CalculateSla(priority, Some(created), now, None, pausedTime, Some(cal)).dueAt
         == Some(Deadline(cal, priority, created, pausedTime))
       <==> OnlyBusiness(cal, Deadline(cal, priority, created, pausedTime), now)
  {
    var deadline := Deadline(cal, priority, created, pausedTime);
    DueAtValue(cal, priority, created, now, pausedTime);
    if deadline <= now {
      BusinessTimeIsWallClockIff(cal, deadline, now);
    }
  }

  // Without a configured calendar the due instant never moves.
  lemma DefaultDueAtNeverMoves(priority: string, created: int, now: int, pausedTime: nat)
    requires created <= now && pausedTime <= now - created
    ensures CalculateSla(priority, Some(created), now, None, pausedTime, None).dueAt
         == Some(created + Target(priority) + pausedTime)
  {
    var cal := DefaultCalendar();
    DefaultCalendarIsWallClock(created, now, Target(priority) + pausedTime);
    var deadline := Deadline(cal, priority, created, pausedTime);
    DueAtIsDeadlineIff(cal, priority, created, now, pausedTime);
    DefaultCalendarIsNeverIdle(deadline, now);
  }

  // The hours each priority may take, and what they make of the due instant without a configured calendar.
  lemma DueHoursByPriority(created: int, now: int)
    requires created <= now
    ensures CalculateSla("CRITICAL", Some(created), now, None, 0, None).dueAt == Some(created + Hours(4))
    ensures CalculateSla("HIGH", Some(created), now, None, 0, None).dueAt == Some(created + Hours(12))
    ensures CalculateSla("NORMAL", Some(created), now, None, 0, None).dueAt == Some(created + Hours(24))
    ensures CalculateSla("LOW", Some(created), now, None, 0, None).dueAt == Some(created + Hours(72))
    ensures CalculateSla("CRITICAL", Some(created), now, None, 0, None).slaHours == 4
    ensures CalculateSla("HIGH", Some(created), now, None, 0, None).slaHours == 12
    ensures CalculateSla("NORMAL", Some(created), now, None, 0, None).slaHours == 24
    ensures CalculateSla("LOW", Some(created), now, None, 0, None).slaHours == 72
  {
    DefaultDueAtNeverMoves("CRITICAL", created, now, 0);
    DefaultDueAtNeverMoves("HIGH", created, now, 0);
    DefaultDueAtNeverMoves("NORMAL", created, now, 0);
    DefaultDueAtNeverMoves("LOW", created, now, 0);
  }

  // Every other priority is treated as NORMAL.
  lemma OtherPrioritiesAreNormal(priority: string, createdAt: Option<int>, now: int, pausedAt: Option<int>,
                                 pausedTime: int, calendar: Option<Calendar>)
    requires priority !in {"CRITICAL", "HIGH", "NORMAL", "LOW"}
    requires calendar.Some? ==> Valid(calendar.value)
    ensures CalculateSla(priority, createdAt, now, pausedAt, pausedTime, calendar)
         == CalculateSla("NORMAL", createdAt, now, pausedAt, pausedTime, calendar)
  {
  }

  // How the labels of a running case change as time passes without a configured calendar: due soon from
  // `soon` on, overdue after `due`, critical after `critical`.
  ghost predicate LabelsChangeAt(priority: string, created: int, now: int, soon: int, due: int, critical: int) {
    var sla := CalculateSla(priority, Some(created), now, None, 0, None);
    && sla.status == (if now < soon then OnTrack else if now <= due then DueSoon else Overdue)
    && sla.escalation == (if now <= due then NotEscalated
                          else if now <= critical then EscalatedDue else EscalatedCritical)
    && !sla.paused && !sla.businessCalendar
  }

  lemma LabelsByPriority(created: int, now: int)
    requires created <= now
    ensures LabelsChangeAt("CRITICAL", created, now, created + Hours(3), created + Hours(4), created + Hours(5))
    ensures LabelsChangeAt("HIGH", created, now, created + Hours(9), created + Hours(12), created + Hours(15))
    ensures LabelsChangeAt("NORMAL", created, now, created + Hours(18), created + Hours(24), created + Hours(30))
    ensures LabelsChangeAt("LOW", created, now, created + Hours(54), created + Hours(72), created + Hours(90))
  {
    DefaultCalendarIsWallClock(created, now, 0);
  }

  // A paused total below zero counts as none.
  lemma NegativePausesCountNothing(priority: string, createdAt: Option<int>, now: int, pausedAt: Option<int>,
                                   pausedTime: int, calendar: Option<Calendar>)
    requires calendar.Some? ==> Valid(calendar.value)
    requires pausedTime <= 0
    ensures CalculateSla(priority, createdAt, now, pausedAt, pausedTime, calendar)
         == CalculateSla(priority, createdAt, now, pausedAt, 0, calendar)
  {
  }

  // A case without a creation instant is reported as unknown, and a paused one as paused, whatever the clock.
  lemma LabelsOutsideTheClock(priority: string, createdAt: Option<int>, now: int, pausedAt: Option<int>,
                              pausedTime: int, calendar: Option<Calendar>)
    requires calendar.Some? ==> Valid(calendar.value)
    ensures var sla := CalculateSla(priority, createdAt, now, pausedAt, pausedTime, calendar);
      && (sla.status == Unknown <==> createdAt.None?) && (sla.dueAt.None? <==> createdAt.None?)
      && (sla.remaining.None? <==> createdAt.None?) && (createdAt.None? ==> sla.escalation == NotEscalated)
      && sla.slaHours == SlaHours(priority)
      && (sla.status == Paused <==> createdAt.Some? && pausedAt.Some?)
      && (sla.paused <==> pausedAt.Some?)
      && (sla.businessCalendar <==> calendar.Some? && calendar.value != DefaultCalendar())
  {
  }

  function OfficeHours(): Calendar {
    Calendar([0, 1, 2, 3, 4], 9, 17, [])
  }

  // On every weekday, a critical case opened at 9 falls due at 13, and at 18 the report says 14.
  lemma DueAtDriftsAfterHours(day: int)
    requires day % 7 < 5
    ensures var nine := Midnight(day) + Hours(9);
      && Deadline(OfficeHours(), "CRITICAL", nine, 0) == nine + Hours(4)
      && CalculateSla("CRITICAL", Some(nine), nine + Hours(9), None, 0, Some(OfficeHours())).dueAt
         == Some(nine + Hours(5))
  {
    var cal := OfficeHours();
    var nine := Midnight(day) + Hours(9);
    BusinessTimeWithinDay(cal, day, nine, nine + Hours(4));
    BusinessTimeWithinDay(cal, day, nine, nine + Hours(9));
    BusinessTimeWithinDay(cal, day, nine + Hours(4), nine + Hours(9));
    BusinessInstantsOfDay(cal, day, nine + Hours(4) - 1);
    DueWhenLastInstantCounts(cal, nine, Hours(4), nine + Hours(4));
    DueAtValue(cal, "CRITICAL", nine, nine + Hours(9), 0);
  }

  // What the reported numbers and labels of a running case mean in terms of its deadline.
  lemma ReportMeasuresDistance(cal: Calendar, priority: string, created: int, now: int, pausedTime: nat)
    requires Valid(cal)
    requires created <= now && pausedTime <= BusinessTime(cal, created, now)
    ensures var sla := CalculateSla(priority, Some(created), now, None, pausedTime, Some(cal));
            var deadline := Deadline(cal, priority, created, pausedTime);
            && sla.remaining == Some(BusinessDistance(cal, now, deadline))
            && (sla.status == Overdue <==> 0 < BusinessTime(cal, deadline, now))
            && (sla.status == OnTrack <==> Max(Hours(1), Quarter(priority)) < BusinessTime(cal, now, deadline))
            && (sla.escalation == NotEscalated <==> BusinessTime(cal, deadline, now) == 0)
            && (sla.escalation == EscalatedCritical <==> Quarter(priority) < BusinessTime(cal, deadline, now))
  {
    DistanceToDeadline(cal, priority, created, now, pausedTime);
  }
}
