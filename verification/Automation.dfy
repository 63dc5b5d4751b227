/** When an automation runs next (packages/contracts/src/automation.ts), on a clock eight hours ahead of UTC. */
module Automation {
  import opened Prelude
  import opened Calendar

  datatype Schedule =
    | Every(minutes: int)
    | Daily(hour: int, minute: int)
    | Weekly(weekday: int, hour: int, minute: int)

  const SHANGHAI_OFFSET_MS: int := 8 * 60 * 60 * 1000

  datatype Wall = Wall(date: Date, hour: int, minute: int, weekday: int)

  function ShanghaiWall(t: int): Wall {
    var shifted := t + SHANGHAI_OFFSET_MS;
    Wall(DateFromDay(Day(shifted)), HourFromTime(shifted), MinuteFromTime(shifted), WeekDay(Day(shifted)))
  }

  function FromShanghaiWall(date: Date, hour: int, minute: int): int {
    DateUtc(date.year, date.month, date.date, hour, minute) - SHANGHAI_OFFSET_MS
  }

  /** Monday is 1 and Sunday 7 in a schedule; Sunday is 0 in a date. */
  function JsWeekday(weekday: int): int { if weekday == 7 then 0 else weekday }

  function NextAutomationRunAt(schedule: Schedule, from: int): int {
    match schedule
    case Every(minutes) => from + minutes * MS_PER_MINUTE
    case Daily(hour, minute) =>
      var candidate := FromShanghaiWall(ShanghaiWall(from).date, hour, minute);
      if candidate <= from then candidate + MS_PER_DAY else candidate
    case Weekly(weekday, hour, minute) =>
      var wall := ShanghaiWall(from);
      var daysAhead := (JsWeekday(weekday) - wall.weekday + 7) % 7;
      var candidate := FromShanghaiWall(wall.date.(date := wall.date.date + daysAhead), hour, minute);
      if candidate <= from then candidate + 7 * MS_PER_DAY else candidate
  }

  // ---- parseAutomationSchedule ----

  /** A field of the request: missing, or what `Number` makes of it, `None` unless finite. */
  datatype Field = Missing | Number(value: Option<real>)

  datatype Request = Request(kind: string, minutes: Field, hour: Field, minute: Field, weekday: Field)

  function Finite(field: Field): Option<real> {
    if field.Number? then field.value else None
  }

  /** The field as an integer from `low` to `high`. */
  function Integer(field: Field, low: int, high: int): Option<int> {
    match Finite(field)
    case Some(x) => if x == x.Floor as real && low <= x.Floor <= high then Some(x.Floor) else None
    case None => None
  }

  function Minute(field: Field): Option<int> {
    if field.Missing? then Some(0) else Integer(field, 0, 59)
  }

  /** The schedule, or None where the source throws. */
  function ParseAutomationSchedule(request: Request): (r: Option<Schedule>)
    ensures r.Some? ==> ValidSchedule(r.value)
  {
    if request.kind == "every" then
      match Finite(request.minutes)
      case Some(minutes) =>
        if minutes < 5.0 || minutes > (60 * 24 * 30) as real then None else Some(Every((minutes + 0.5).Floor))
      case None => None
    else if request.kind == "daily" then
      match (Integer(request.hour, 0, 23), Minute(request.minute))
      case (Some(hour), Some(minute)) => Some(Daily(hour, minute))
      case _ => None
    else if request.kind == "weekly" then
      match (Integer(request.weekday, 1, 7), Integer(request.hour, 0, 23), Minute(request.minute))
      case (Some(weekday), Some(hour), Some(minute)) => Some(Weekly(weekday, hour, minute))
      case _ => None
    else None
  }

  predicate ValidSchedule(schedule: Schedule) {
    match schedule
    case Every(minutes) => 5 <= minutes <= 43200
    case Daily(hour, minute) => 0 <= hour < 24 && 0 <= minute < 60
    case Weekly(weekday, hour, minute) => 1 <= weekday <= 7 && 0 <= hour < 24 && 0 <= minute < 60
  }

  /** The request's own words for a schedule. */
  predicate Asks(request: Request, schedule: Schedule) {
    match schedule
    case Every(minutes) =>
      && request.kind == "every" && request.minutes.Number? && request.minutes.value.Some?
      && var asked := request.minutes.value.value;
         5.0 <= asked <= 43200.0 && minutes as real <= asked + 0.5 < minutes as real + 1.0
    case Daily(hour, minute) =>
      request.kind == "daily" && 0 <= hour <= 23 && Says(request.hour, hour) && SaysMinute(request.minute, minute)
    case Weekly(weekday, hour, minute) =>
      && request.kind == "weekly" && 1 <= weekday <= 7 && 0 <= hour <= 23
      && Says(request.weekday, weekday) && Says(request.hour, hour) && SaysMinute(request.minute, minute)
  }

  predicate Says(field: Field, n: int) {
    field == Number(Some(n as real))
  }

  predicate SaysMinute(field: Field, minute: int) {
    (field.Missing? && minute == 0) || (Says(field, minute) && 0 <= minute <= 59)
  }

  /** A request parses to a schedule exactly if it asks for it; any other request is refused. */
  lemma ParsesWhatIsAsked(request: Request)
    ensures forall schedule :: ParseAutomationSchedule(request) == Some(schedule) <==> Asks(request, schedule)
    ensures ParseAutomationSchedule(request).None? <==> forall schedule :: !Asks(request, schedule)
  {
    forall schedule
      ensures ParseAutomationSchedule(request) == Some(schedule) <==> Asks(request, schedule)
    {
      ParsesOne(request, schedule);
    }
  }

  lemma ParsesOne(request: Request, schedule: Schedule)
    ensures ParseAutomationSchedule(request) == Some(schedule) <==> Asks(request, schedule)
  {
    IntegerSays(request.hour, 0, 23);
    IntegerSays(request.minute, 0, 59);
    IntegerSays(request.weekday, 1, 7);
  }

  lemma IntegerSays(field: Field, low: int, high: int)
    ensures forall n :: Integer(field, low, high) == Some(n) <==> Says(field, n) && low <= n <= high
  {
    forall n
      ensures Integer(field, low, high) == Some(n) <==> Says(field, n) && low <= n <= high
    {
      assert (n as real).Floor == n;
    }
  }

  /** A schedule as a request, the minute left out when it is zero. */
  function AsRequest(schedule: Schedule): Request {
    match schedule
    case Every(minutes) => Request("every", Whole(minutes), Missing, Missing, Missing)
    case Daily(hour, minute) => Request("daily", Missing, Whole(hour), WholeMinute(minute), Missing)
    case Weekly(weekday, hour, minute) => Request("weekly", Missing, Whole(hour), WholeMinute(minute), Whole(weekday))
  }

  function Whole(n: int): Field { Number(Some(n as real)) }

  function WholeMinute(minute: int): Field { if minute == 0 then Missing else Whole(minute) }

  /** Every valid schedule can be asked for, and only valid ones. */
  lemma ScheduleRoundTrip(schedule: Schedule)
    ensures ParseAutomationSchedule(AsRequest(schedule)) == Some(schedule) <==> ValidSchedule(schedule)
  {
    if schedule.Every? {
      assert (schedule.minutes as real + 0.5).Floor == schedule.minutes;
    }
  }

  // ---- the next run is the least ----

  /** Eight hours on, so many hours and minutes of the day have passed, to the millisecond, and the day is a Monday for 1
      up to a Sunday for 7: the first day of 1970 was a Thursday. */
  predicate Fires(schedule: Schedule, t: int)
    requires !schedule.Every?
  {
    var wall := t + 28_800_000;
    && wall % 86_400_000 == schedule.hour * 3_600_000 + schedule.minute * 60_000
    && (schedule.Weekly? ==> (wall / 86_400_000 + 3) % 7 + 1 == schedule.weekday)
  }

  /** The wall clock the source reads says so too. */
  lemma FiresOnTheWall(schedule: Schedule, t: int)
    requires !schedule.Every? && ValidSchedule(schedule)
    ensures var wall := ShanghaiWall(t);
      Fires(schedule, t) <==>
        && wall.hour == schedule.hour && wall.minute == schedule.minute && (t + SHANGHAI_OFFSET_MS) % MS_PER_MINUTE == 0
        && (schedule.Weekly? ==> wall.weekday == JsWeekday(schedule.weekday))
  {
    hide DateFromDay;
    TimeOfDay(t + SHANGHAI_OFFSET_MS, schedule.hour, schedule.minute);
    DayParts(t + SHANGHAI_OFFSET_MS, schedule.hour * 3_600_000 + schedule.minute * 60_000);
    if schedule.Weekly? {
      WeekdayNumber(Day(t + SHANGHAI_OFFSET_MS), schedule.weekday);
    }
  }

  lemma DayParts(t: int, into: int)
    requires 0 <= into < MS_PER_DAY
    ensures t % MS_PER_DAY == into <==> t == Day(t) * MS_PER_DAY + into
  {
  }

  lemma WeekdayNumber(day: int, weekday: int)
    requires 1 <= weekday <= 7
    ensures (day + 3) % 7 + 1 == weekday <==> WeekDay(day) == JsWeekday(weekday)
  {
  }

  function PeriodDays(schedule: Schedule): int {
    if schedule.Weekly? then 7 else 1
  }

  /** The first time after `from` that the schedule fires, at most one period on. */
  ghost predicate IsNext(schedule: Schedule, from: int, t: int)
    requires !schedule.Every?
  {
    && from < t <= from + PeriodDays(schedule) * MS_PER_DAY
    && Fires(schedule, t)
    && forall earlier | from < earlier < t :: !Fires(schedule, earlier)
  }

  /** The clock shows hh:mm:00.000 exactly `hour` hours and `minute` minutes into the day. */
  lemma TimeOfDay(t: int, hour: int, minute: int)
    requires 0 <= hour < 24 && 0 <= minute < 60
    ensures HourFromTime(t) == hour && MinuteFromTime(t) == minute && t % MS_PER_MINUTE == 0
      <==> t == Day(t) * MS_PER_DAY + hour * MS_PER_HOUR + minute * MS_PER_MINUTE
  {
    InMinutes(t);
    ClockFace(t / MS_PER_MINUTE, hour, minute);
  }

  lemma InMinutes(t: int)
    ensures t / MS_PER_HOUR == t / MS_PER_MINUTE / 60 && Day(t) == t / MS_PER_MINUTE / 1440
    ensures t == t / MS_PER_MINUTE * MS_PER_MINUTE + t % MS_PER_MINUTE
  {
  }

  lemma ClockFace(minutes: int, hour: int, minute: int)
    requires 0 <= hour < 24 && 0 <= minute < 60
    ensures minutes / 60 % 24 == hour && minutes % 60 == minute <==> minutes == minutes / 1440 * 1440 + hour * 60 + minute
  {
    assert minutes / 60 / 24 == minutes / 1440;
  }

  predicate OnDay(schedule: Schedule, day: int) {
    schedule.Weekly? ==> WeekDay(day) == JsWeekday(schedule.weekday)
  }

  /** The schedule's time on a day. */
  function Instant(schedule: Schedule, day: int): int
    requires !schedule.Every?
  {
    day * MS_PER_DAY + schedule.hour * MS_PER_HOUR + schedule.minute * MS_PER_MINUTE - SHANGHAI_OFFSET_MS
  }

  function ShanghaiDay(t: int): int { Day(t + SHANGHAI_OFFSET_MS) }

  lemma FiresIff(schedule: Schedule, t: int)
    requires !schedule.Every? && ValidSchedule(schedule)
    ensures Fires(schedule, t) <==> t == Instant(schedule, ShanghaiDay(t)) && OnDay(schedule, ShanghaiDay(t))
  {
    DayParts(t + SHANGHAI_OFFSET_MS, schedule.hour * 3_600_000 + schedule.minute * 60_000);
    if schedule.Weekly? {
      WeekdayNumber(Day(t + SHANGHAI_OFFSET_MS), schedule.weekday);
    }
  }

  lemma InstantOnDay(schedule: Schedule, day: int)
    requires !schedule.Every? && ValidSchedule(schedule)
    ensures ShanghaiDay(Instant(schedule, day)) == day
  {
    var into := schedule.hour * MS_PER_HOUR + schedule.minute * MS_PER_MINUTE;
    assert 0 <= into < MS_PER_DAY;
    assert Day(day * MS_PER_DAY + into) == day;
  }

  /** Today, or the next day with the schedule's weekday. */
  function TargetDay(schedule: Schedule, today: int): int {
    if schedule.Weekly? then today + (JsWeekday(schedule.weekday) - WeekDay(today) + 7) % 7 else today
  }

  /** The target is the first day of the schedule from today on, and the one after it is a period later. */
  lemma TargetIsFirst(schedule: Schedule, today: int)
    requires ValidSchedule(schedule)
    ensures var target, days := TargetDay(schedule, today), PeriodDays(schedule);
      && today <= target < today + days && OnDay(schedule, target) && OnDay(schedule, target + days)
      && forall day | today <= day < target + days && OnDay(schedule, day) :: day == target
  {
    var target, days := TargetDay(schedule, today), PeriodDays(schedule);
    if schedule.Weekly? {
      WeekdayAhead(today, JsWeekday(schedule.weekday));
      forall day | today <= day < target + days && OnDay(schedule, day)
        ensures day == target
      {
        hide TargetDay, WeekDay;
        WeekApart(target, day);
      }
    }
  }

  lemma WeekdayAhead(today: int, weekday: int)
    requires 0 <= weekday < 7
    ensures var ahead := (weekday - WeekDay(today) + 7) % 7;
      0 <= ahead < 7 && WeekDay(today + ahead) == weekday && WeekDay(today + ahead + 7) == weekday
  {
  }

  lemma WeekApart(a: int, b: int)
    requires WeekDay(a) == WeekDay(b) && -7 < a - b < 7
    ensures a == b
  {
    assert (a + 4) - (b + 4) == 7 * ((a + 4) / 7 - (b + 4) / 7);
  }

  /** Counting in days alone: the next instant is on the target day, or a period later when that one has passed. */
  lemma NextInstant(schedule: Schedule, from: int)
    requires !schedule.Every? && ValidSchedule(schedule)
    ensures var candidate := Instant(schedule, TargetDay(schedule, ShanghaiDay(from)));
      IsNext(schedule, from, if candidate <= from then candidate + PeriodDays(schedule) * MS_PER_DAY else candidate)
  {
    hide Fires, TargetDay, ShanghaiDay, OnDay;
    var today := ShanghaiDay(from);
    var target, days := TargetDay(schedule, today), PeriodDays(schedule);
    var day := if Instant(schedule, target) <= from then target + days else target;
    TargetIsFirst(schedule, today);
    InstantOnDay(schedule, day);
    FiresIff(schedule, Instant(schedule, day));
    DayBounds(from);
    forall t | from < t < Instant(schedule, day)
      ensures !Fires(schedule, t)
    {
      FiresIff(schedule, t);
      DayBounds(t);
    }
  }

  lemma DayBounds(t: int)
    ensures ShanghaiDay(t) * MS_PER_DAY <= t + SHANGHAI_OFFSET_MS < (ShanghaiDay(t) + 1) * MS_PER_DAY
  {
  }

  /** Date.UTC takes the years 0 to 99 for 1900 to 1999. */
  predicate TwoDigitYear(from: int) {
    0 <= ShanghaiWall(from).date.year <= 99
  }

  /** That is one century of days, as counted from the first of 1970. */
  lemma TwoDigitCentury(from: int)
    ensures TwoDigitYear(from) <==> -719_528 <= (from + 28_800_000) / 86_400_000 < -683_003
  {
    assert DayFromYear(0) == -719_528 && DayFromYear(100) == -683_003;
    hide DayFromYear;
    var year := YearFromDay(ShanghaiDay(from));
    if year < 0 { YearsApart(year + 1, 0); } else { YearsApart(0, year); }
    if year < 100 { YearsApart(year + 1, 100); } else { YearsApart(100, year); }
  }

  lemma CandidateIsInstant(schedule: Schedule, from: int)
    requires !schedule.Every? && !TwoDigitYear(from)
    ensures var today := ShanghaiWall(from).date;
      FromShanghaiWall(today.(date := today.date + (TargetDay(schedule, ShanghaiDay(from)) - ShanghaiDay(from))),
                       schedule.hour, schedule.minute)
      == Instant(schedule, TargetDay(schedule, ShanghaiDay(from)))
  {
    hide TargetDay, DateFromDay, MakeDay;
    MakeDayCounts(ShanghaiDay(from), TargetDay(schedule, ShanghaiDay(from)) - ShanghaiDay(from));
  }

  /** Nineteen centuries too late. */
  lemma TwoDigitYearIsLate(schedule: Schedule, from: int)
    requires !schedule.Every? && ValidSchedule(schedule) && TwoDigitYear(from)
    ensures NextAutomationRunAt(schedule, from) > from + 1899 * 365 * MS_PER_DAY
  {
    hide DateFromDay, DayFromYear, MonthFrom, IsLeap, WeekDay;
    var today := ShanghaiDay(from);
    var d := DateFromDay(today);
    MakeDayCounts(today, 0);
    YearsApart(d.year, d.year + 1900);
    DayBounds(from);
  }

  /** The next run is the first time the schedule fires, unless the year on the wall is one of 0 to 99. */
  lemma NextRunIsLeast(schedule: Schedule, from: int)
    requires !schedule.Every? && ValidSchedule(schedule)
    ensures IsNext(schedule, from, NextAutomationRunAt(schedule, from)) <==> !TwoDigitYear(from)
  {
    hide Fires, FromShanghaiWall, TwoDigitYear;
    if TwoDigitYear(from) {
      TwoDigitYearIsLate(schedule, from);
    } else {
      CandidateIsInstant(schedule, from);
      NextInstant(schedule, from);
      var date := ShanghaiWall(from).date;
      assert date.(date := date.date + 0) == date;
    }
  }

  /** From one run to the next, a daily schedule moves by a day and a weekly one by a week. */
  lemma RunsArePeriodic(schedule: Schedule, from: int)
    requires !schedule.Every? && ValidSchedule(schedule)
    requires Fires(schedule, from) && !TwoDigitYear(from)
    ensures NextAutomationRunAt(schedule, from) == from + PeriodDays(schedule) * MS_PER_DAY
  {
    hide Fires, TwoDigitYear, ShanghaiDay, NextAutomationRunAt;
    var next, later := NextAutomationRunAt(schedule, from), from + PeriodDays(schedule) * MS_PER_DAY;
    NextRunIsLeast(schedule, from);
    FiresIff(schedule, from);
    FiresIff(schedule, next);
    if next < later && schedule.Weekly? {
      WeekApart(ShanghaiDay(next), ShanghaiDay(from));
    }
  }

  // ---- every so many minutes ----

  /** The run that comes `n` runs after `from`. */
  function RunAfter(schedule: Schedule, from: int, n: nat): int {
    if n == 0 then from else NextAutomationRunAt(schedule, RunAfter(schedule, from, n - 1))
  }

  /** Such runs are so many minutes apart. */
  lemma {:induction false} RunsApart(minutes: int, from: int, n: nat)
    ensures RunAfter(Every(minutes), from, n) == from + n * (minutes * 60_000)
  {
    if n > 0 {
      RunsApart(minutes, from, n - 1);
    }
  }
}
