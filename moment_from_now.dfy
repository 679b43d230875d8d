/**
 * `fromNow`: the elapsed time since a moment, in whole seconds, sorted into
 * one of fourteen "time ago" buckets, and the Russian plural suffix used to
 * pick the localized format of a counted bucket. The localized strings
 * themselves come from a resource bundle, which is not part of this model:
 * a bucket stands for the string, and the language code is an input.
 */
module MomentFromNow {
  import opened Wrappers
  import opened MomentUnits

  /** What `fromNow` reports; the counted buckets carry the number it formats. */
  datatype TimeAgo =
    | JustNow
    | SecondsAgo(count: int)
    | AMinuteAgo
    | MinutesAgo(count: int)
    | AnHourAgo
    | HoursAgo(count: int)
    | Yesterday
    | DaysAgo(count: int)
    | LastWeek
    | WeeksAgo(count: int)
    | LastMonth
    | MonthsAgo(count: int)
    | LastYear
    | YearsAgo(count: int)

  /** The lower bounds of buckets 1 to 13, ascending; bucket 0 has no lower bound. */
  const Thresholds: seq<int> := [
    5, 60, 120, 3600, 7200, 86400, 172800, 604800, 1209600, 2592000, 61 * 86400, 31536000, 63072000
  ]

  /** The position of a bucket in ascending order of elapsed time. */
  function Ordinal(t: TimeAgo): nat {
    match t
    case JustNow => 0
    case SecondsAgo(_) => 1
    case AMinuteAgo => 2
    case MinutesAgo(_) => 3
    case AnHourAgo => 4
    case HoursAgo(_) => 5
    case Yesterday => 6
    case DaysAgo(_) => 7
    case LastWeek => 8
    case WeeksAgo(_) => 9
    case LastMonth => 10
    case MonthsAgo(_) => 11
    case LastYear => 12
    case YearsAgo(_) => 13
  }

  /** The number of seconds a counted bucket counts in. */
  function CountUnit(t: TimeAgo): int
    requires t.SecondsAgo? || t.MinutesAgo? || t.HoursAgo? || t.DaysAgo? || t.WeeksAgo? || t.MonthsAgo? || t.YearsAgo?
  {
    match t
    case SecondsAgo(_) => 1
    case MinutesAgo(_) => MinuteInSeconds
    case HoursAgo(_) => HourInSeconds
    case DaysAgo(_) => DayInSeconds
    case WeeksAgo(_) => WeekInSeconds
    case MonthsAgo(_) => MonthInSeconds
    case YearsAgo(_) => YearInSeconds
  }

  /** Bucket `k` is the range from threshold `k - 1` (inclusive) to threshold `k` (exclusive). */
  predicate InBucket(delta: int, k: nat) {
    k <= |Thresholds|
    && (k == 0 || Thresholds[k - 1] <= delta)
    && (k == |Thresholds| || delta < Thresholds[k])
  }

  /** The thresholds ascend, so no elapsed time lies in two buckets. */
  lemma BucketsDisjoint(delta: int, j: nat, k: nat)
    requires InBucket(delta, j) && InBucket(delta, k)
    ensures j == k
  {
  }

  /** `fromNow` for an elapsed time of `deltaSeconds` (negative for a future moment). */
  function FromNow(deltaSeconds: int): (r: TimeAgo)
    ensures InBucket(deltaSeconds, Ordinal(r))
    ensures r.SecondsAgo? || r.MinutesAgo? || r.HoursAgo? || r.DaysAgo? || r.WeeksAgo? || r.MonthsAgo? || r.YearsAgo?
            ==> r.count == deltaSeconds / CountUnit(r)
  {
    if deltaSeconds < 5 then JustNow
    else if deltaSeconds < MinuteInSeconds then SecondsAgo(deltaSeconds)
    else if deltaSeconds < MinuteInSeconds * 2 then AMinuteAgo
    else if deltaSeconds < HourInSeconds then MinutesAgo(deltaSeconds / MinuteInSeconds)
    else if deltaSeconds < HourInSeconds * 2 then AnHourAgo
    else if deltaSeconds < DayInSeconds then HoursAgo(deltaSeconds / HourInSeconds)
    else if deltaSeconds < DayInSeconds * 2 then Yesterday
    else if deltaSeconds < WeekInSeconds then DaysAgo(deltaSeconds / DayInSeconds)
    else if deltaSeconds < WeekInSeconds * 2 then LastWeek
    else if deltaSeconds < MonthInSeconds then WeeksAgo(deltaSeconds / WeekInSeconds)
    else if deltaSeconds < DayInSeconds * 61 then LastMonth
    else if deltaSeconds < YearInSeconds then MonthsAgo(deltaSeconds / MonthInSeconds)
    else if deltaSeconds < YearInSeconds * 2 then LastYear
    else YearsAgo(deltaSeconds / YearInSeconds)
  }

  /** Every elapsed time falls in exactly one bucket, the one `fromNow` picks. */
  lemma FromNowExactlyOneBucket(deltaSeconds: int, k: nat)
    ensures InBucket(deltaSeconds, k) <==> k == Ordinal(FromNow(deltaSeconds))
  {
    if InBucket(deltaSeconds, k) {
      BucketsDisjoint(deltaSeconds, k, Ordinal(FromNow(deltaSeconds)));
    }
  }

  /** A longer elapsed time never lands in an earlier bucket. */
  lemma FromNowMonotonic(d1: int, d2: int)
    requires d1 <= d2
    ensures Ordinal(FromNow(d1)) <= Ordinal(FromNow(d2))
  {
  }

  /** Anything under five seconds, a future moment included, is "just now". */
  lemma FromNowJustNow(deltaSeconds: int)
    requires deltaSeconds < 5
    ensures FromNow(deltaSeconds) == JustNow
  {
  }

  /** The elapsed times of the English `fromNow` test and what it expects. */
  lemma FromNowExamples()
    ensures FromNow(0) == JustNow && FromNow(50) == SecondsAgo(50) && FromNow(90) == AMinuteAgo
    ensures FromNow(500) == MinutesAgo(8) && FromNow(5400) == AnHourAgo && FromNow(21600) == HoursAgo(6)
    ensures FromNow(25 * 3600) == Yesterday && FromNow(48 * 3600) == DaysAgo(2)
    ensures FromNow(7 * 86400) == LastWeek && FromNow(14 * 86400) == WeeksAgo(2)
    ensures FromNow(50 * 86400) == LastMonth && FromNow(70 * 86400) == MonthsAgo(2)
    ensures FromNow(420 * 86400) == LastYear && FromNow(1120 * 86400) == YearsAgo(3)
  {
  }

  /** Swift's `%`: the remainder takes the sign of the dividend. */
  function SwiftRemainder(a: int, b: int): (r: int)
    requires b > 0
    ensures a >= 0 ==> r == a % b
    ensures -b < r < b && (a < 0 ==> r <= 0)
  {
    if a >= 0 then a % b else -((-a) % b)
  }

  /**
   * The plural suffix for a count in the preferred language `localeCode` (none
   * when there is no preferred language): only Russian has one, "__" for the
   * singular-like forms and "_" for the few-forms.
   */
  function PluralSuffix(localeCode: Option<string>, value: int): (r: string)
    ensures localeCode != Some("ru") ==> r == ""
    ensures value < 0 ==> r == ""
    ensures r == "" || r == "_" || r == "__"
  {
    match localeCode
    case None => ""
    case Some(code) =>
      if code == "ru" then
        var xy := SwiftRemainder(value, 100);
        var y := SwiftRemainder(value, 10);
        if y == 0 || y > 4 || (xy > 10 && xy < 15) then ""
        else if y > 1 && y < 5 && (xy < 10 || xy > 20) then "_"
        else if y == 1 && xy != 11 then "__"
        else ""
      else ""
  }

  /** The last digit of `v` is the last digit of its last two digits. */
  lemma LastDigits(v: nat) returns (tens: nat)
    ensures tens < 10 && v % 100 == 10 * tens + v % 10
  {
    var q, r := v / 100, v % 100;
    tens := r / 10;
    var b := r % 10;
    assert r == 10 * tens + b;
    assert v == 10 * (10 * q + tens) + b;
  }

  /** For Russian and a count of zero or more: "__" exactly when the count ends in 1
      but not in 11, "_" exactly when it ends in 2, 3 or 4 but not in 12, 13 or 14,
      and no suffix otherwise. */
  lemma PluralSuffixRussian(value: nat)
    ensures PluralSuffix(Some("ru"), value) == "__" <==> value % 10 == 1 && value % 100 != 11
    ensures PluralSuffix(Some("ru"), value) == "_" <==> 2 <= value % 10 <= 4 && !(12 <= value % 100 <= 14)
  {
    var tens := LastDigits(value);
    assert SwiftRemainder(value, 100) == value % 100 && SwiftRemainder(value, 10) == value % 10;
  }

  /** Russian examples: 1 and 21 take "__", 2 and 24 take "_", 5, 11 and 12 take nothing. */
  lemma PluralSuffixExamples()
    ensures PluralSuffix(Some("ru"), 1) == "__" && PluralSuffix(Some("ru"), 21) == "__"
    ensures PluralSuffix(Some("ru"), 2) == "_" && PluralSuffix(Some("ru"), 24) == "_"
    ensures PluralSuffix(Some("ru"), 5) == "" && PluralSuffix(Some("ru"), 11) == ""
    ensures PluralSuffix(Some("ru"), 12) == "" && PluralSuffix(Some("en"), 1) == ""
  {
  }
}
