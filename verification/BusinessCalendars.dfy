/**
  Business calendars and business-hour arithmetic.

  Instants are integer microseconds on one fixed-offset local timeline whose origin is the
  midnight that starts day 0, a Monday. Durations are microseconds too.
 */
module BusinessCalendars {
  import opened Counting

  function Hours(n: int): int {
    n * 3_600_000_000
  }

  // The instant that starts a day.
  function Midnight(day: int): int {
    day * 86_400_000_000
  }

  function DayOf(t: int): int {
    t / 86_400_000_000
  }

  datatype Calendar = Calendar(workdays: seq<int>, startHour: int, endHour: int, holidays: seq<int>)

  // What `validate` accepts.
  predicate Valid(cal: Calendar) {
    && cal.workdays != []
    && (forall i | 0 <= i < |cal.workdays| :: 0 <= cal.workdays[i] <= 6)
    && 0 <= cal.startHour < cal.endHour <= 24
  }

  // Refuses a calendar without workdays, with a weekday that does not exist, or with hours out of order.
  method Validate(cal: Calendar) returns (ok: bool)
    ensures ok <==> Valid(cal)
    ensures ok <==> |cal.workdays| > 0 && (forall day | day in cal.workdays :: day in {0, 1, 2, 3, 4, 5, 6})
                    && 0 <= cal.startHour && cal.startHour + 1 <= cal.endHour && cal.endHour < 25
  {
    if cal.workdays == [] {
      return false;
    }
    for i := 0 to |cal.workdays|
      invariant forall j | 0 <= j < i :: 0 <= cal.workdays[j] <= 6
    {
      if cal.workdays[i] < 0 || 6 < cal.workdays[i] {
        assert cal.workdays[i] in cal.workdays;
        return false;
      }
    }
    return 0 <= cal.startHour < cal.endHour <= 24;
  }

  predicate IsBusinessDay(cal: Calendar, day: int) {
    day % 7 in cal.workdays && day !in cal.holidays
  }

  function WindowStart(cal: Calendar, day: int): int {
    Midnight(day) + Hours(cal.startHour)
  }

  // A window that closes at hour 24 closes at the next midnight.
  function WindowEnd(cal: Calendar, day: int): int {
    if cal.endHour == 24 then Midnight(day + 1) else Midnight(day) + Hours(cal.endHour)
  }

  function DefaultCalendar(): Calendar {
    Calendar([0, 1, 2, 3, 4, 5, 6], 0, 24, [])
  }

  /// Reference semantics: business time is a count of business instants.

  predicate IsBusinessInstant(cal: Calendar, t: int) {
    IsBusinessDay(cal, DayOf(t)) && Hours(cal.startHour) <= t - Midnight(DayOf(t)) < Hours(cal.endHour)
  }

  function BusinessInstants(cal: Calendar): int -> bool {
    t => IsBusinessInstant(cal, t)
  }

  // Business time elapsed in [from, to).
  function BusinessTime(cal: Calendar, from: int, until: int): nat {
    CountIf(BusinessInstants(cal), from, until)
  }

  // t is the least instant from `from` on at which `budget` of business time has elapsed.
  ghost predicate RunsOutAt(cal: Calendar, from: int, budget: int, t: int) {
    && from <= t
    && budget <= BusinessTime(cal, from, t)
    && forall u | from <= u < t :: BusinessTime(cal, from, u) < budget
  }

  /// The instants of one day

  lemma DayContains(t: int)
    ensures Midnight(DayOf(t)) <= t < Midnight(DayOf(t) + 1)
  {
  }

  lemma BusinessInstantsOfDay(cal: Calendar, day: int, t: int)
    requires Valid(cal)
    requires Midnight(day) <= t < Midnight(day + 1)
    ensures IsBusinessInstant(cal, t) <==> IsBusinessDay(cal, day) && WindowStart(cal, day) <= t < WindowEnd(cal, day)
  {
    assert DayOf(t) == day;
    assert t - Midnight(DayOf(t)) == t - Midnight(day);
  }

  function Max(a: int, b: int): int {
    if a < b then b else a
  }

  function Min(a: int, b: int): int {
    if a < b then a else b
  }

  function WindowOverlap(cal: Calendar, day: int, from: int, until: int): int {
    if !IsBusinessDay(cal, day) then 0
    else Max(0, Min(until, WindowEnd(cal, day)) - Max(from, WindowStart(cal, day)))
  }

  // Within one day, business time is the overlap with that day's window.
  lemma {:induction false} BusinessTimeWithinDay(cal: Calendar, day: int, from: int, until: int)
    requires Valid(cal)
    requires Midnight(day) <= from <= until <= Midnight(day + 1)
    ensures BusinessTime(cal, from, until) == WindowOverlap(cal, day, from, until)
    decreases until - from
  {
    if from < until {
      BusinessTimeWithinDay(cal, day, from, until - 1);
      BusinessInstantsOfDay(cal, day, until - 1);
    }
  }

  /// business_seconds_between

  // How far the count has got when the day loop reaches `day`.
  function Progress(start: int, end: int, day: int): int {
    Max(start, Min(Midnight(day), end))
  }

  lemma OneDayOfTheLoop(cal: Calendar, start: int, end: int, day: int)
    requires Valid(cal)
    requires start < end && start < Midnight(day + 1) && Midnight(day) <= end
    ensures BusinessTime(cal, start, Progress(start, end, day + 1))
         == BusinessTime(cal, start, Progress(start, end, day)) + WindowOverlap(cal, day, start, end)
  {
    var from, until := Progress(start, end, day), Progress(start, end, day + 1);
    CountSplits(BusinessInstants(cal), start, from, until);
    BusinessTimeWithinDay(cal, day, from, until);
  }

  method BusinessSecondsBetween(cal: Calendar, start: int, end: int) returns (total: int)
    requires Valid(cal)
    ensures total == BusinessTime(cal, start, end)
  {
    if end <= start {
      return 0;
    }
    total := 0;
    var cursor := DayOf(start);
    while cursor <= DayOf(end)
      invariant DayOf(start) <= cursor <= DayOf(end) + 1
      invariant total == BusinessTime(cal, start, Progress(start, end, cursor))
    {
      DayContains(start);
      DayContains(end);
      OneDayOfTheLoop(cal, start, end, cursor);
      if IsBusinessDay(cal, cursor) {
        var left, right := Max(start, WindowStart(cal, cursor)), Min(end, WindowEnd(cal, cursor));
        if right > left {
          total := total + (right - left);
        }
      }
      cursor := cursor + 1;
    }
  }

  /// What the calendar says, day by day and hour by hour

  // A whole day counts its office hours on a working day that is not a holiday, and nothing otherwise.
  lemma BusinessTimeOfDay(cal: Calendar, day: int)
    requires Valid(cal)
    ensures BusinessTime(cal, Midnight(day), Midnight(day + 1))
         == if day % 7 in cal.workdays && day !in cal.holidays then Hours(cal.endHour - cal.startHour) else 0
  {
    BusinessTimeWithinDay(cal, day, Midnight(day), Midnight(day + 1));
  }

  // Each hour of it counts wholly or not at all.
  lemma BusinessTimeOfHour(cal: Calendar, day: int, hour: int)
    requires Valid(cal) && 0 <= hour < 24
    ensures BusinessTime(cal, Midnight(day) + Hours(hour), Midnight(day) + Hours(hour + 1))
         == if day % 7 in cal.workdays && day !in cal.holidays && cal.startHour <= hour < cal.endHour
            then Hours(1) else 0
  {
    BusinessTimeWithinDay(cal, day, Midnight(day) + Hours(hour), Midnight(day) + Hours(hour + 1));
  }

  /// Every budget of business time runs out

  // A bound above every holiday.
  function AfterHolidays(holidays: seq<int>): (bound: int)
    ensures forall h | h in holidays :: h < bound
  {
    if holidays == [] then 0
    else
      assert holidays == [holidays[0]] + holidays[1..];
      Max(holidays[0] + 1, AfterHolidays(holidays[1..]))
  }

  lemma NextBusinessInstant(cal: Calendar, t: int) returns (next: int)
    requires Valid(cal)
    ensures t <= next && IsBusinessInstant(cal, next)
  {
    var free := Max(DayOf(t) + 1, AfterHolidays(cal.holidays));
    var day := free + (cal.workdays[0] - free) % 7;
    assert day % 7 == cal.workdays[0];
    next := WindowStart(cal, day);
    assert next < Midnight(day + 1);
    BusinessInstantsOfDay(cal, day, next);
  }

  lemma {:induction false} BudgetIsReached(cal: Calendar, from: int, budget: int) returns (t: int)
    requires Valid(cal)
    ensures from <= t && budget <= BusinessTime(cal, from, t)
    decreases budget
  {
    if budget <= 0 {
      t := from;
    } else {
      var before := BudgetIsReached(cal, from, budget - 1);
      var next := NextBusinessInstant(cal, before);
      CountGrows(BusinessInstants(cal), from, before, next);
      t := next + 1;
    }
  }

  lemma {:induction false} LeastInstant(cal: Calendar, from: int, budget: int, bound: int)
    requires from <= bound && budget <= BusinessTime(cal, from, bound)
    ensures exists t :: RunsOutAt(cal, from, budget, t)
    decreases bound - from
  {
    if from < bound && budget <= BusinessTime(cal, from, bound - 1) {
      LeastInstant(cal, from, budget, bound - 1);
    } else {
      forall u | from <= u < bound
        ensures BusinessTime(cal, from, u) < budget
      {
        CountGrows(BusinessInstants(cal), from, u, bound - 1);
      }
      assert RunsOutAt(cal, from, budget, bound);
    }
  }

  lemma BudgetRunsOut(cal: Calendar, from: int, budget: int)
    requires Valid(cal)
    ensures exists t :: RunsOutAt(cal, from, budget, t)
  {
    var bound := BudgetIsReached(cal, from, budget);
    LeastInstant(cal, from, budget, bound);
  }

  // The instant at which a budget of business time runs out; the start itself for an empty budget.
  ghost function DueInstant(cal: Calendar, from: int, budget: int): (t: int)
    requires Valid(cal)
    ensures RunsOutAt(cal, from, budget, t)
  {
    BudgetRunsOut(cal, from, budget);
    var t :| RunsOutAt(cal, from, budget, t);
    t
  }

  lemma DueInstantIsUnique(cal: Calendar, from: int, budget: int, t: int)
    requires Valid(cal)
    requires RunsOutAt(cal, from, budget, t)
    ensures t == DueInstant(cal, from, budget)
  {
    var due := DueInstant(cal, from, budget);
    assert t < due ==> BusinessTime(cal, from, t) < budget;
    assert due < t ==> BusinessTime(cal, from, due) < budget;
  }

  // The budget has run out by t exactly when that much business time has elapsed by t.
  lemma DueByIffElapsed(cal: Calendar, from: int, budget: int, t: int)
    requires Valid(cal)
    requires from <= t
    ensures DueInstant(cal, from, budget) <= t <==> budget <= BusinessTime(cal, from, t)
  {
    var due := DueInstant(cal, from, budget);
    if due <= t {
      CountGrows(BusinessInstants(cal), from, due, t);
    }
  }

  // The due instant is where the count reaches the budget on a business instant.
  lemma DueWhenLastInstantCounts(cal: Calendar, from: int, budget: int, t: int)
    requires Valid(cal)
    requires from < t && IsBusinessInstant(cal, t - 1)
    requires BusinessTime(cal, from, t) == budget
    ensures DueInstant(cal, from, budget) == t
  {
    DueByIffElapsed(cal, from, budget, t);
    DueByIffElapsed(cal, from, budget, t - 1);
  }

  /// add_business_hours

  lemma BudgetRunsOutInWindow(cal: Calendar, start: int, day: int, from: int, cursor: int, remaining: int)
    requires Valid(cal)
    requires start <= from && Midnight(day) <= from && cursor == Max(from, WindowStart(cal, day))
    requires IsBusinessDay(cal, day)
    requires 0 < remaining <= WindowEnd(cal, day) - cursor
    ensures DueInstant(cal, start, BusinessTime(cal, start, from) + remaining) == cursor + remaining
  {
    var due := cursor + remaining;
    assert due <= Midnight(day + 1);
    BusinessTimeWithinDay(cal, day, from, due);
    BusinessInstantsOfDay(cal, day, due - 1);
    CountSplits(BusinessInstants(cal), start, from, due);
    DueWhenLastInstantCounts(cal, start, BusinessTime(cal, start, from) + remaining, due);
  }

  // What passing the next midnight adds to the business time since `start`.
  lemma RestOfDay(cal: Calendar, start: int, day: int, from: int)
    requires Valid(cal)
    requires start <= from && Midnight(day) <= from < Midnight(day + 1)
    ensures BusinessTime(cal, start, Midnight(day + 1))
         == BusinessTime(cal, start, from) + WindowOverlap(cal, day, from, WindowEnd(cal, day))
  {
    BusinessTimeWithinDay(cal, day, from, Midnight(day + 1));
    CountSplits(BusinessInstants(cal), start, from, Midnight(day + 1));
  }

  // Terminates for every valid calendar, whatever its holidays.
  method AddBusinessHours(cal: Calendar, start: int, budget: int) returns (due: int)
    requires Valid(cal)
    ensures due == DueInstant(cal, start, budget)
  {
    if budget <= 0 {
      return start;
    }
    var cursor, remaining := start, budget;
    due := start;
    ghost var goal := DueInstant(cal, start, budget);
    while true
      invariant start <= cursor < goal
      invariant 0 < remaining
      invariant BusinessTime(cal, start, cursor) + remaining == budget
      decreases goal - cursor
    {
      var day := DayOf(cursor);
      var midnight := Midnight(day + 1);
      DayContains(cursor);
      RestOfDay(cal, start, day, cursor);
      DueByIffElapsed(cal, start, budget, midnight);
      if IsBusinessDay(cal, day) {
        ghost var from := cursor;
        var ws, we := WindowStart(cal, day), WindowEnd(cal, day);
        if cursor < ws {
          cursor := ws;
        }
        if ws <= cursor < we {
          var available := we - cursor;
          if remaining <= available {
            BudgetRunsOutInWindow(cal, start, day, from, cursor, remaining);
            due := cursor + remaining;
            break;
          }
          remaining := remaining - available;
        }
      }
      cursor := midnight;
    }
  }

  /// The two loops as inverses, and the algebra of deadlines

  // Measuring up to the due instant gives the budget back. Adding what was measured up to t gives t
  // back exactly when t closes a business instant; otherwise it gives an earlier instant.
  lemma AddingAndMeasuringInvert(cal: Calendar, start: int, budget: int, t: int)
    requires Valid(cal)
    requires start <= t
    ensures BusinessTime(cal, start, DueInstant(cal, start, budget)) == Max(0, budget)
    ensures DueInstant(cal, start, BusinessTime(cal, start, t)) <= t
    ensures DueInstant(cal, start, BusinessTime(cal, start, t)) == t <==> t == start || IsBusinessInstant(cal, t - 1)
  {
    var due := DueInstant(cal, start, budget);
    if start < due {
      assert BusinessTime(cal, start, due - 1) < budget;
    }
    DueByIffElapsed(cal, start, BusinessTime(cal, start, t), t);
    if start < t {
      DueByIffElapsed(cal, start, BusinessTime(cal, start, t), t - 1);
    }
  }

  // Before the due instant, restarting the walk at a later instant with what is left changes nothing.
  lemma DueFromLaterStart(cal: Calendar, start: int, later: int, budget: int)
    requires Valid(cal)
    requires start <= later && BusinessTime(cal, start, later) <= budget
    requires later <= DueInstant(cal, start, budget)
    ensures DueInstant(cal, later, budget - BusinessTime(cal, start, later)) == DueInstant(cal, start, budget)
  {
    var due := DueInstant(cal, start, budget);
    forall u | later <= u <= due
      ensures BusinessTime(cal, later, u) == BusinessTime(cal, start, u) - BusinessTime(cal, start, later)
    {
      CountSplits(BusinessInstants(cal), start, later, u);
    }
    DueInstantIsUnique(cal, later, budget - BusinessTime(cal, start, later), due);
  }

  // Spending one budget after another is spending their sum.
  lemma BudgetsAdd(cal: Calendar, start: int, first: nat, second: nat)
    requires Valid(cal)
    ensures DueInstant(cal, DueInstant(cal, start, first), second) == DueInstant(cal, start, first + second)
  {
    var middle, due := DueInstant(cal, start, first), DueInstant(cal, start, first + second);
    AddingAndMeasuringInvert(cal, start, first, start);
    AddingAndMeasuringInvert(cal, start, first + second, start);
    DueByIffElapsed(cal, start, first, due);
    DueFromLaterStart(cal, start, middle, first + second);
  }

  // No instant of [from, until) is idle.
  ghost predicate OnlyBusiness(cal: Calendar, from: int, until: int) {
    forall t | from <= t < until :: IsBusinessInstant(cal, t)
  }

  // Business time is wall-clock time exactly over stretches without an idle instant.
  lemma BusinessTimeIsWallClockIff(cal: Calendar, from: int, until: int)
    requires from <= until
    ensures BusinessTime(cal, from, until) <= until - from
    ensures BusinessTime(cal, from, until) == until - from <==> OnlyBusiness(cal, from, until)
  {
    CountFull(BusinessInstants(cal), from, until);
    if OnlyBusiness(cal, from, until) {
      forall x | from <= x < until
        ensures BusinessInstants(cal)(x)
      {
        assert IsBusinessInstant(cal, x);
      }
    }
    if forall x | from <= x < until :: BusinessInstants(cal)(x) {
      forall t | from <= t < until
        ensures IsBusinessInstant(cal, t)
      {
        assert BusinessInstants(cal)(t);
      }
    }
  }

  lemma DefaultCalendarIsNeverIdle(from: int, until: int)
    ensures OnlyBusiness(DefaultCalendar(), from, until)
  {
    forall t | from <= t < until
      ensures IsBusinessInstant(DefaultCalendar(), t)
    {
      assert DayOf(t) % 7 in DefaultCalendar().workdays;
    }
  }

  // Under the default calendar every instant is business time, so adding is plain addition.
  lemma DefaultCalendarIsWallClock(start: int, end: int, budget: nat)
    requires start <= end
    ensures BusinessTime(DefaultCalendar(), start, end) == end - start
    ensures DueInstant(DefaultCalendar(), start, budget) == start + budget
  {
    var cal := DefaultCalendar();
    var due := DueInstant(cal, start, budget);
    DefaultCalendarIsNeverIdle(start, end);
    BusinessTimeIsWallClockIff(cal, start, end);
    DefaultCalendarIsNeverIdle(start, due);
    BusinessTimeIsWallClockIff(cal, start, due);
    AddingAndMeasuringInvert(cal, start, budget, start);
  }
}
