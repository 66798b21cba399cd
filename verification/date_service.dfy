/**
  `services/date_service.py`: the shape of a parsed date, the 120-day
  booking-window check, the day-range listing, and duration wording.

  Time is explicit. A `Clock` holds the current instant in microseconds
  since the Unix epoch (`arrow.now`) and the server's local calendar day
  (`datetime.now()`, whose time zone the code does not fix). The
  natural-language parser (`dateparser.parse` with its Indian settings) is a
  function parameter that answers with an India-local day and time, with
  no answer, or with the message of the exception it raised.
*/
module DateService {
  import opened Wrappers
  import opened Text
  import opened Json
  import opened Calendar
  import Constants
  import Duration

  /** `INDIA_TZ`; India keeps UTC+05:30 all year. */
  const IndiaTz := "Asia/Kolkata"
  const IndiaOffsetMicros := 19_800_000_000
  const MicrosPerDay := 86_400_000_000
  /** The ordinal of 1970-01-01. */
  const UnixEpochOrdinal := 719163

  /** The calendar day in India at instant `now`. */
  function IndiaDay(now: int): int {
    (now + IndiaOffsetMicros) / MicrosPerDay + UnixEpochOrdinal
  }

  /** The calendar day in UTC at instant `now`. */
  function UtcDay(now: int): int {
    now / MicrosPerDay + UnixEpochOrdinal
  }

  /** `arrow.get(date)` for a `datetime.date`: that day's midnight in UTC. */
  function MidnightUtc(day: int): int {
    (day - UnixEpochOrdinal) * MicrosPerDay
  }

  /** The environment's view of time. */
  datatype Clock = Clock(now: int, localToday: int) {
    /** Every day the code derives from the clock, up to the end of the
        booking window, is a day Python's `date` can hold. */
    predicate Valid() {
      && 1 <= IndiaDay(now) && IndiaDay(now) + Constants.MaxFutureDays <= MaxOrdinal
      && 1 <= localToday < MaxOrdinal
    }
  }

  type Hour = h: int | 0 <= h < 24
  type Minute = m: int | 0 <= m < 60

  /** A wall-clock moment in India. */
  datatype LocalDateTime = LocalDateTime(day: Ordinal, hour: Hour, minute: Minute)

  /** What the natural-language parser does with a string. */
  datatype ParserOutcome =
    | Parsed(at: LocalDateTime)
    | NotParsed
    | Raised(message: string)

  /** The `formatted` sub-dictionary. */
  datatype Formatted = Formatted(apiFormat: string, displayFormat: string, fullDisplay: string, dayOfWeek: string)

  /** The dictionary `parse_date_time` returns: `success` is the constructor. */
  datatype DateInfo =
    | DateOk(date: Ordinal, at: LocalDateTime, formatted: Formatted, isWeekend: bool)
    | DateFailed(error: string, input: Value)

  /** The dictionary itself. The `datetime`, `timestamp` and `relative`
      entries (an aware `datetime`, epoch seconds, and `humanize` text) are
      not carried. */
  function DateInfoValue(info: DateInfo): (v: Value)
    ensures v.Obj? && "success" in v.fields && v.fields["success"] == Bool(info.DateOk?)
  {
    match info
    case DateOk(date, _, f, w) =>
      Obj(map[
        "success" := Bool(true),
        "date" := DateObj(date),
        "formatted" := Obj(map[
          "api_format" := Str(f.apiFormat),
          "display_format" := Str(f.displayFormat),
          "full_display" := Str(f.fullDisplay),
          "day_of_week" := Str(f.dayOfWeek)]),
        "is_weekend" := Bool(w),
        "timezone" := Str(IndiaTz)])
    case DateFailed(e, input) =>
      Obj(map["success" := Bool(false), "error" := Str(e), "input" := input])
  }

  /** The four renderings of a moment. */
  function FormatMoment(at: LocalDateTime): Formatted {
    Formatted(IsoFormat(at.day), DisplayFormat(at.day), FullDisplay(at.day, at.hour, at.minute), DayName(at.day))
  }

  /** `parse_date_time`: never raises; a failure carries the argument back. */
  function ParseDateTime(dateString: Value, parse: string -> ParserOutcome): (r: DateInfo)
    ensures !dateString.Str? ==> r == DateFailed("Input type must be str", dateString)
    ensures dateString.Str? && parse(dateString.s).NotParsed? ==> r == DateFailed("Could not parse date", dateString)
    ensures dateString.Str? && parse(dateString.s).Raised? ==> r == DateFailed(parse(dateString.s).message, dateString)
    ensures r.DateFailed? ==> r.input == dateString
    ensures r.DateOk? <==> dateString.Str? && parse(dateString.s).Parsed?
    ensures r.DateOk? ==> r.date == r.at.day && r.at == parse(dateString.s).at
    ensures r.DateOk? ==> ParseIsoDate(r.formatted.apiFormat) == Some(r.date)
    ensures r.DateOk? ==> (r.isWeekend <==> Weekday(r.date) == 5 || Weekday(r.date) == 6)
  {
    match dateString
    case Str(s) =>
      (match parse(s)
       case Parsed(at) =>
         IsoFormatRoundTrip(at.day);
         DateOk(at.day, at, FormatMoment(at), IsWeekend(at.day))
       case NotParsed => DateFailed("Could not parse date", dateString)
       case Raised(m) => DateFailed(m, dateString))
    case _ => DateFailed("Input type must be str", dateString)
  }

  /** `is_valid_travel_date`: the day's UTC midnight lies between now and
      now shifted by 120 days, both ends included. */
  function IsValidTravelDate(info: DateInfo, clock: Clock): (ok: bool)
    requires clock.Valid()
    ensures info.DateFailed? ==> !ok
    ensures info.DateOk? ==>
      (ok <==> clock.now <= MidnightUtc(info.date) <= clock.now + Constants.MaxFutureDays * MicrosPerDay)
  {
    match info
    case DateFailed(_, _) => false
    case DateOk(date, _, _, _) =>
      var instant := MidnightUtc(date);
      if instant < clock.now then false
      else if instant > clock.now + Constants.MaxFutureDays * MicrosPerDay then false
      else true
  }

  lemma MidnightUtcOfUtcDay(now: int)
    ensures MidnightUtc(UtcDay(now)) <= now < MidnightUtc(UtcDay(now) + 1)
  {
  }

  lemma MidnightUtcShift(day: int, k: int)
    ensures MidnightUtc(day + k) == MidnightUtc(day) + k * MicrosPerDay
  {
  }

  lemma MidnightUtcMonotone(a: int, b: int)
    requires a < b
    ensures MidnightUtc(a) + MicrosPerDay <= MidnightUtc(b)
  {
    MidnightUtcShift(a, b - a);
  }

  /** The booking window in whole days. With `u` the UTC day of now: every
      day after `u` up to `u + 120` is bookable, nothing outside `u .. u + 120`
      is, and `u` itself only at the exact instant of UTC midnight. */
  lemma TravelWindowInDays(date: Ordinal, at: LocalDateTime, f: Formatted, w: bool, clock: Clock)
    requires clock.Valid()
    ensures var u := UtcDay(clock.now);
      var ok := IsValidTravelDate(DateOk(date, at, f, w), clock);
      && (u < date <= u + Constants.MaxFutureDays ==> ok)
      && (ok ==> u <= date <= u + Constants.MaxFutureDays)
      && (ok && date == u ==> clock.now == MidnightUtc(u))
  {
    var u := UtcDay(clock.now);
    MidnightUtcOfUtcDay(clock.now);
    MidnightUtcShift(u, Constants.MaxFutureDays);
    if date < u {
      MidnightUtcMonotone(date, u);
    }
    if date > u + Constants.MaxFutureDays {
      MidnightUtcMonotone(u + 1, date);
      MidnightUtcShift(u + 1, Constants.MaxFutureDays);
    }
    if u < date {
      MidnightUtcMonotone(u, date);
    }
    if date <= u + Constants.MaxFutureDays && date > u {
      assert MidnightUtc(date) <= MidnightUtc(u + Constants.MaxFutureDays) by {
        if date < u + Constants.MaxFutureDays { MidnightUtcMonotone(date, u + Constants.MaxFutureDays); }
      }
    }
  }

  /** Today's date in India is accepted only while India is already on a
      later calendar day than UTC (before 05:30 in India), or at the
      instant of UTC midnight. */
  lemma IndiaTodayAccepted(at: LocalDateTime, f: Formatted, w: bool, clock: Clock)
    requires clock.Valid()
    requires at.day == IndiaDay(clock.now)
    ensures IsValidTravelDate(DateOk(at.day, at, f, w), clock) <==>
      IndiaDay(clock.now) != UtcDay(clock.now) || clock.now == MidnightUtc(UtcDay(clock.now))
  {
    var u := UtcDay(clock.now);
    assert u <= IndiaDay(clock.now) <= u + 1;
    TravelWindowInDays(at.day, at, f, w, clock);
    MidnightUtcOfUtcDay(clock.now);
  }

  /** One entry of `get_date_range`. */
  datatype DayEntry = DayEntry(date: string, display: string, day: string, isWeekend: bool)

  /** `e` names the day `day`: its `date` reads back as that day, and its
      weekend flag is set exactly on Saturdays and Sundays. */
  predicate Describes(e: DayEntry, day: int) {
    && 1 <= day <= MaxOrdinal
    && ParseIsoDate(e.date) == Some(day)
    && (e.isWeekend <==> Weekday(day) == 5 || Weekday(day) == 6)
  }

  /** The entry of one day. */
  function EntryFor(day: Ordinal): DayEntry {
    DayEntry(IsoFormat(day), DisplayFormat(day), DayName(day), IsWeekend(day))
  }

  lemma EntryForDescribes(day: Ordinal)
    ensures Describes(EntryFor(day), day)
  {
    IsoFormatRoundTrip(day);
  }

  /** `get_date_range`: `days` consecutive days from the parsed date. A
      failed parse, a non-positive count, or a range running past the last
      representable day (the shift raises, and the handler returns `[]`)
      give no entries. */
  function GetDateRange(start: DateInfo, days: int): (dates: seq<DayEntry>)
    ensures start.DateFailed? ==> dates == []
    ensures start.DateOk? && days > 0 && start.date + days - 1 > MaxOrdinal ==> dates == []
    ensures start.DateOk? && start.date + days - 1 <= MaxOrdinal ==> |dates| == if days > 0 then days else 0
    ensures forall i :: 0 <= i < |dates| ==>
      start.DateOk? && start.date + i <= MaxOrdinal && dates[i] == EntryFor(start.date + i)
  {
    if start.DateFailed? || days <= 0 || start.date + days - 1 > MaxOrdinal then []
    else
      var first := start.date;
      seq(days, k requires 0 <= k < days => EntryFor(first + k))
  }

  /** Consecutive entries name consecutive days. */
  lemma DateRangeConsecutive(start: DateInfo, days: int, i: int)
    requires 0 <= i < |GetDateRange(start, days)| - 1
    ensures var dates := GetDateRange(start, days);
      && ParseIsoDate(dates[i].date).Some? && ParseIsoDate(dates[i + 1].date).Some?
      && ParseIsoDate(dates[i + 1].date).value == ParseIsoDate(dates[i].date).value + 1
  {
    var dates := GetDateRange(start, days);
    assert dates[i] == EntryFor(start.date + i) && dates[i + 1] == EntryFor(start.date + i + 1);
    EntryForDescribes(start.date + i);
    EntryForDescribes(start.date + i + 1);
  }

  /** The weekend flags repeat every seven entries. */
  lemma WeekendEveryWeek(d: int)
    ensures IsWeekend(d + 7) == IsWeekend(d)
  {
  }

  /** `format_duration` of the date service, on the value it is given:
      integers (and booleans, which are integers in Python) are rendered as
      hours and minutes; any other value `Json.Value` can hold makes `//`
      raise, and the handler answers `str(minutes) + " minutes"`. Floats
      are not values of the model. */
  function FormatDuration(minutes: Value, reprContainer: Value -> string): (r: string)
    ensures minutes.Int? && minutes.i >= 0 ==> Duration.Read(r, " hours", " minutes") == Some(minutes.i)
    ensures minutes.Int? && minutes.i < 0 ==> |r| > 0 && r[0] == '-'
    ensures minutes.Bool? ==> Duration.Read(r, " hours", " minutes") == Some(if minutes.b then 1 else 0)
    ensures !(minutes.Int? || minutes.Bool?) ==> r == Show(minutes, reprContainer) + " minutes"
  {
    match minutes
    case Int(i) =>
      assert Duration.ReadableUnits(" hours", " minutes");
      if i >= 0 then
        Duration.RenderRoundTrip(i, " hours", " minutes");
        Duration.Render(i, " hours", " minutes")
      else
        Duration.RenderNegative(i, " hours", " minutes");
        Duration.Render(i, " hours", " minutes")
    case Bool(b) =>
      var n := if b then 1 else 0;
      assert Duration.ReadableUnits(" hours", " minutes");
      Duration.RenderRoundTrip(n, " hours", " minutes");
      Duration.Render(n, " hours", " minutes")
    case _ => Show(minutes, reprContainer) + " minutes"
  }
}
