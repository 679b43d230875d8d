/**
 * Time units, their one-letter names, the fixed seconds-per-unit constants,
 * the integer duration helpers and the unit conversion of the Moment
 * library, plus the by-name forms of get/add/subtract/startOf/endOf.
 *
 * A moment is its date, as whole seconds, with the identifiers of its time
 * zone and locale. What needs a calendar (the calendar fields of a date,
 * calendar arithmetic, rebuilding a date from fields) is not part of this
 * model: the by-unit operations that use it are parameters of the by-name
 * forms, and `startOf` is modelled on the date fields it edits.
 */
module MomentUnits {
  import opened Wrappers

  datatype TimeUnit = Years | Quarters | Months | Weeks | Days | Hours | Minutes | Seconds

  /** The raw name of each unit. */
  function RawValue(u: TimeUnit): string {
    match u
    case Years => "y"
    case Quarters => "Q"
    case Months => "M"
    case Weeks => "w"
    case Days => "d"
    case Hours => "H"
    case Minutes => "m"
    case Seconds => "s"
  }

  /** `TimeUnit(rawValue:)`: the unit with that raw name, if any. */
  function TimeUnitFromRaw(name: string): (r: Option<TimeUnit>)
    ensures r.Some? ==> RawValue(r.value) == name
    ensures r.None? ==> forall u :: RawValue(u) != name
  {
    if name == "y" then Some(Years)
    else if name == "Q" then Some(Quarters)
    else if name == "M" then Some(Months)
    else if name == "w" then Some(Weeks)
    else if name == "d" then Some(Days)
    else if name == "H" then Some(Hours)
    else if name == "m" then Some(Minutes)
    else if name == "s" then Some(Seconds)
    else None
  }

  /** Every unit's raw name parses back to that unit. */
  lemma RawValueRoundTrip(u: TimeUnit)
    ensures TimeUnitFromRaw(RawValue(u)) == Some(u)
  {
  }

  // The seconds-per-unit constants of a moment.
  const MinuteInSeconds: int := 60
  const HourInSeconds: int := 3600
  const DayInSeconds: int := 86400
  const WeekInSeconds: int := 604800
  const MonthInSeconds: int := 2592000
  const YearInSeconds: int := 31536000

  /** The constants are a 60-second minute, 60-minute hour, 24-hour day,
      7-day week, 30-day month and 365-day year. */
  lemma ConstantsAgree()
    ensures HourInSeconds == 60 * MinuteInSeconds && DayInSeconds == 24 * HourInSeconds
    ensures WeekInSeconds == 7 * DayInSeconds && MonthInSeconds == 30 * DayInSeconds
    ensures YearInSeconds == 365 * DayInSeconds
  {
  }

  /** A length of time in seconds. */
  datatype Duration = Duration(interval: int)

  // The `Int` duration extensions: `n.seconds`, `n.minutes`, ... There is no `weeks`.
  function SecondsDuration(n: int): (d: Duration)
    ensures d.interval == n
  {
    Duration(n)
  }

  function MinutesDuration(n: int): (d: Duration)
    ensures d.interval == n * MinuteInSeconds
  {
    Duration(n * 60)
  }

  function HoursDuration(n: int): (d: Duration)
    ensures d.interval == n * HourInSeconds
  {
    Duration(n * 3600)
  }

  function DaysDuration(n: int): (d: Duration)
    ensures d.interval == n * DayInSeconds
  {
    Duration(n * 86400)
  }

  function MonthsDuration(n: int): (d: Duration)
    ensures d.interval == n * MonthInSeconds
  {
    Duration(n * 2592000)
  }

  /** A quarter is three 30-day months. */
  function QuartersDuration(n: int): (d: Duration)
    ensures d.interval == 3 * n * MonthInSeconds
  {
    Duration(n * 7776000)
  }

  function YearsDuration(n: int): (d: Duration)
    ensures d.interval == n * YearInSeconds
  {
    Duration(n * 31536000)
  }

  /** `convert` exactly as written: every factor is the unit's constant (a quarter
      being three months) except the week factor, 605800, which is 1000 more than
      the week constant. */
  function ConvertAsWritten(value: int, unit: TimeUnit): (r: int)
    ensures unit == Seconds ==> r == value
    ensures unit == Minutes ==> r == value * MinuteInSeconds
    ensures unit == Hours ==> r == value * HourInSeconds
    ensures unit == Days ==> r == value * DayInSeconds
    ensures unit == Weeks ==> r == value * WeekInSeconds + 1000 * value
    ensures unit == Months ==> r == value * MonthInSeconds
    ensures unit == Quarters ==> r == 3 * value * MonthInSeconds
    ensures unit == Years ==> r == value * YearInSeconds
  {
    match unit
    case Seconds => value
    case Minutes => value * 60
    case Hours => value * 3600
    case Days => value * 86400
    case Weeks => value * 605800
    case Months => value * 2592000
    case Quarters => value * 7776000
    case Years => value * 31536000
  }

  /** `convert` with the week factor the code intends: seven days. */
  function Convert(value: int, unit: TimeUnit): (r: int)
    ensures unit != Weeks ==> r == ConvertAsWritten(value, unit)
    ensures unit == Weeks ==> r == ConvertAsWritten(value, unit) - 1000 * value
  {
    match unit
    case Seconds => value
    case Minutes => value * MinuteInSeconds
    case Hours => value * HourInSeconds
    case Days => value * DayInSeconds
    case Weeks => value * WeekInSeconds
    case Months => value * MonthInSeconds
    case Quarters => value * 3 * MonthInSeconds
    case Years => value * YearInSeconds
  }

  /** As written, a week converts to 1000 seconds more than seven days. */
  lemma ConvertAsWrittenWeekIsOff(value: int)
    ensures ConvertAsWritten(value, Weeks) == 7 * ConvertAsWritten(value, Days) + 1000 * value
    ensures ConvertAsWritten(1, Weeks) != WeekInSeconds
  {
  }

  /** Corrected, a week converts to seven days, and each unit's factor is the one
      built from the constants. */
  lemma ConvertAgreesWithConstants(value: int)
    ensures Convert(value, Weeks) == 7 * Convert(value, Days)
    ensures Convert(value, Minutes) == 60 * Convert(value, Seconds)
    ensures Convert(value, Hours) == 60 * Convert(value, Minutes)
    ensures Convert(value, Days) == 24 * Convert(value, Hours)
    ensures Convert(value, Months) == 30 * Convert(value, Days)
    ensures Convert(value, Quarters) == 3 * Convert(value, Months)
    ensures Convert(value, Years) == 365 * Convert(value, Days)
  {
  }

  /** Each `Int` duration extension has the factor `convert` uses for its unit. */
  lemma ExtensionsAgreeWithConvert(n: int)
    ensures SecondsDuration(n).interval == Convert(n, Seconds)
    ensures MinutesDuration(n).interval == Convert(n, Minutes)
    ensures HoursDuration(n).interval == Convert(n, Hours)
    ensures DaysDuration(n).interval == Convert(n, Days)
    ensures MonthsDuration(n).interval == Convert(n, Months)
    ensures QuartersDuration(n).interval == Convert(n, Quarters)
    ensures YearsDuration(n).interval == Convert(n, Years)
  {
  }

  /** A moment: a date in whole seconds, with its time zone and locale identifiers. */
  datatype Moment = Moment(date: int, timeZone: string, locale: string)

  /** The process's default time zone and current locale, which a moment built
      from a bare date receives. */
  datatype Defaults = Defaults(timeZone: string, locale: string)

  /** `add(value: NSTimeInterval, unit)`: shift the date by the interval `convert`
      gives, week factor as written; the result carries the default time zone
      and locale. */
  function AddInterval(m: Moment, value: int, unit: TimeUnit, env: Defaults): (r: Moment)
    ensures r.date - m.date == ConvertAsWritten(value, unit)
    ensures r.timeZone == env.timeZone && r.locale == env.locale
  {
    Moment(m.date + ConvertAsWritten(value, unit), env.timeZone, env.locale)
  }

  /** `subtract(value: NSTimeInterval, unit)` is adding the negated value. */
  function SubtractInterval(m: Moment, value: int, unit: TimeUnit, env: Defaults): (r: Moment)
    ensures m.date - r.date == ConvertAsWritten(value, unit)
    ensures r == AddInterval(m, -value, unit, env)
  {
    AddInterval(m, -value, unit, env)
  }

  /** Adding or subtracting an interval moves the date by the corrected conversion for
      every unit but weeks; a week moves it 1000 seconds further than seven days. */
  lemma IntervalShiftAgainstConvert(m: Moment, value: int, unit: TimeUnit, env: Defaults)
    ensures AddInterval(m, value, unit, env).date - m.date
         == Convert(value, unit) + (if unit == Weeks then 1000 * value else 0)
    ensures m.date - SubtractInterval(m, value, unit, env).date
         == Convert(value, unit) + (if unit == Weeks then 1000 * value else 0)
    ensures AddInterval(m, 1, Weeks, env).date - m.date == WeekInSeconds + 1000
  {
  }

  /** `add(duration)`: shift the date by the duration's seconds. */
  function AddDuration(m: Moment, d: Duration, env: Defaults): (r: Moment)
    ensures r.date - m.date == d.interval
    ensures r.timeZone == env.timeZone && r.locale == env.locale
  {
    AddInterval(m, d.interval, Seconds, env)
  }

  /** `subtract(duration)`: shift the date back by the duration's seconds. */
  function SubtractDuration(m: Moment, d: Duration, env: Defaults): (r: Moment)
    ensures m.date - r.date == d.interval
    ensures r.timeZone == env.timeZone && r.locale == env.locale
  {
    SubtractInterval(m, d.interval, Seconds, env)
  }

  /** Subtracting a duration undoes adding it, and adding undoes subtracting;
      the zone and locale become the defaults either way. */
  lemma DurationRoundTrip(m: Moment, d: Duration, env: Defaults)
    ensures SubtractDuration(AddDuration(m, d, env), d, env) == Moment(m.date, env.timeZone, env.locale)
    ensures AddDuration(SubtractDuration(m, d, env), d, env) == Moment(m.date, env.timeZone, env.locale)
  {
  }

  /** `get(unitName)`: the calendar field for a known unit name, nothing otherwise. */
  function GetByName(m: Moment, unitName: string, get: (Moment, TimeUnit) -> int): (r: Option<int>)
    ensures r.None? <==> TimeUnitFromRaw(unitName).None?
    ensures r.Some? ==> r.value == get(m, TimeUnitFromRaw(unitName).value)
  {
    match TimeUnitFromRaw(unitName)
    case Some(unit) => Some(get(m, unit))
    case None => None
  }

  /** `add(value, unitName)`: calendar addition for a known unit name; the moment itself otherwise. */
  function AddByName(m: Moment, value: int, unitName: string, add: (Moment, int, TimeUnit) -> Moment): (r: Moment)
    ensures TimeUnitFromRaw(unitName).None? ==> r == m
    ensures TimeUnitFromRaw(unitName).Some? ==> r == add(m, value, TimeUnitFromRaw(unitName).value)
  {
    match TimeUnitFromRaw(unitName)
    case Some(unit) => add(m, value, unit)
    case None => m
  }

  /** `subtract(value: Int, unit)`: calendar addition of the negated value. */
  function SubtractByUnit(m: Moment, value: int, unit: TimeUnit, add: (Moment, int, TimeUnit) -> Moment): (r: Moment)
    ensures r == add(m, -value, unit)
  {
    add(m, -value, unit)
  }

  /** `subtract(value, unitName)`: subtraction for a known unit name; the moment itself otherwise. */
  function SubtractByName(m: Moment, value: int, unitName: string, add: (Moment, int, TimeUnit) -> Moment): (r: Moment)
    ensures TimeUnitFromRaw(unitName).None? ==> r == m
    ensures TimeUnitFromRaw(unitName).Some? ==> r == add(m, -value, TimeUnitFromRaw(unitName).value)
  {
    match TimeUnitFromRaw(unitName)
    case Some(unit) => SubtractByUnit(m, value, unit, add)
    case None => m
  }

  /** `startOf(unitName)`: start of the named unit; the moment itself for an unknown name. */
  function StartOfByName(m: Moment, unitName: string, startOf: (Moment, TimeUnit) -> Moment): (r: Moment)
    ensures TimeUnitFromRaw(unitName).None? ==> r == m
    ensures TimeUnitFromRaw(unitName).Some? ==> r == startOf(m, TimeUnitFromRaw(unitName).value)
  {
    match TimeUnitFromRaw(unitName)
    case Some(unit) => startOf(m, unit)
    case None => m
  }

  /** `endOf(unit)`: the start of the unit, plus one unit by the calendar, minus one second. */
  function EndOf(m: Moment, unit: TimeUnit, startOf: (Moment, TimeUnit) -> Moment,
                 add: (Moment, int, TimeUnit) -> Moment, env: Defaults): (r: Moment)
    ensures r.date == add(startOf(m, unit), 1, unit).date - 1
    ensures r.timeZone == env.timeZone && r.locale == env.locale
  {
    SubtractDuration(add(startOf(m, unit), 1, unit), SecondsDuration(1), env)
  }

  /** `endOf(unitName)`: end of the named unit; the moment itself for an unknown name. */
  function EndOfByName(m: Moment, unitName: string, startOf: (Moment, TimeUnit) -> Moment,
                       add: (Moment, int, TimeUnit) -> Moment, env: Defaults): (r: Moment)
    ensures TimeUnitFromRaw(unitName).None? ==> r == m
    ensures TimeUnitFromRaw(unitName).Some? ==> r == EndOf(m, TimeUnitFromRaw(unitName).value, startOf, add, env)
  {
    match TimeUnitFromRaw(unitName)
    case Some(unit) => EndOf(m, unit, startOf, add, env)
    case None => m
  }

  /** The calendar fields of a date that `startOf` edits before rebuilding the date
      (`weekday` counts from Sunday = 1). */
  datatype DateFields = DateFields(year: int, month: int, day: int, hour: int, minute: int, second: int, weekday: int)

  /** How coarse a unit is for `startOf`: it clears every field finer than itself. */
  function Coarseness(u: TimeUnit): nat {
    match u
    case Seconds => 0
    case Minutes => 1
    case Hours => 2
    case Days => 3
    case Weeks => 4
    case Months => 4
    case Quarters => 4
    case Years => 5
  }

  /**
   * The field edits of `startOf(unit)`, a chain of fall-through cases: seconds
   * leave the date alone; from minutes up the second is cleared, from hours up
   * the minute, from days up the hour; weeks set the day to `day - (weekday - 2)`
   * (Monday of the week for Monday to Saturday, the next day for a Sunday), months
   * and quarters (and years) set day 1, and years also set month 1.
   */
  method StartOfFields(f: DateFields, unit: TimeUnit) returns (r: DateFields)
    ensures r.year == f.year && r.weekday == f.weekday
    ensures r.month == if unit == Years then 1 else f.month
    ensures r.day == if Coarseness(unit) < 4 then f.day
                     else if unit == Weeks then f.day - (f.weekday - 2)
                     else 1
    ensures r.hour == if Coarseness(unit) >= 3 then 0 else f.hour
    ensures r.minute == if Coarseness(unit) >= 2 then 0 else f.minute
    ensures r.second == if Coarseness(unit) >= 1 then 0 else f.second
  {
    r := f;
    if unit == Seconds {
      return;
    }
    if unit == Years {
      r := r.(month := 1);
    }
    if unit in {Years, Quarters, Months, Weeks} {
      if unit == Weeks {
        r := r.(day := r.day - (r.weekday - 2));
      } else {
        r := r.(day := 1);
      }
    }
    if unit in {Years, Quarters, Months, Weeks, Days} {
      r := r.(hour := 0);
    }
    if unit != Minutes {
      r := r.(minute := 0);
    }
    r := r.(second := 0);
  }
}
