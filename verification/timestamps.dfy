/** `absence_ftime`: the serialisation of dates and datetimes that the service's
    API expects, `YYYY-MM-DD` for a date and `YYYY-MM-DDTHH:MM:SS.mmmZ` for a
    datetime. The fields are printed as the value holds them: no conversion to
    UTC takes place, so the trailing `Z` is only correct when the caller passes
    a UTC datetime. */
module Timestamps {
  import opened Wrappers
  import opened Decimal
  import opened Calendar

  /** A naive-or-aware `datetime` reduced to the fields that are printed. */
  datatype DateTime = DateTime(date: Date, hour: int, minute: int, second: int, microsecond: int)

  predicate ValidDateTime(dt: DateTime) {
    && Valid(dt.date)
    && 0 <= dt.hour < 24
    && 0 <= dt.minute < 60
    && 0 <= dt.second < 60
    && 0 <= dt.microsecond < 1000000
  }

  /** Microseconds since 0001-01-01T00:00:00 on the datetime's own clock. */
  function ToInstant(dt: DateTime): int
    requires ValidDateTime(dt)
  {
    (ToOrdinal(dt.date) - 1) * 86400000000
      + ((dt.hour * 60 + dt.minute) * 60 + dt.second) * 1000000
      + dt.microsecond
  }

  /** The kinds of value `absence_ftime` distinguishes; `Other` is anything
      that is neither a `datetime` nor a `date` (a string, `None`, ...). */
  datatype Argument<T> = DateTimeValue(dt: DateTime) | DateValue(d: Date) | Other(x: T)

  /** What `absence_ftime` returns: a formatted string, or its argument untouched. */
  datatype Serialized<T> = Text(s: string) | Unchanged(x: T)

  predicate WellFormed<T>(v: Argument<T>) {
    match v
    case DateTimeValue(dt) => ValidDateTime(dt)
    case DateValue(d) => Valid(d)
    case Other(_) => true
  }

  /** The fields a serialised datetime carries, at millisecond precision. */
  datatype Stamp = Stamp(date: Date, hour: int, minute: int, second: int, millisecond: int)

  /** The part of a datetime that survives serialisation: `int(microsecond / 1000)`
      truncates to whole milliseconds. */
  function StampOf(dt: DateTime): Stamp {
    Stamp(dt.date, dt.hour, dt.minute, dt.second, dt.microsecond / 1000)
  }

  function FormatDate(d: Date): string
    requires Valid(d)
  {
    ZeroPad(d.year, 4) + "-" + ZeroPad(d.month, 2) + "-" + ZeroPad(d.day, 2)
  }

  /** `HH:MM:SS.mmm`, the clock part of a serialised datetime. */
  function FormatTime(dt: DateTime): string
    requires ValidDateTime(dt)
  {
    ZeroPad(dt.hour, 2) + ":" + ZeroPad(dt.minute, 2) + ":" + ZeroPad(dt.second, 2) + "."
      + ZeroPad(dt.microsecond / 1000, 3)
  }

  function FormatDateTime(dt: DateTime): string
    requires ValidDateTime(dt)
  {
    FormatDate(dt.date) + "T" + FormatTime(dt) + "Z"
  }

  /** Reads back a `YYYY-MM-DD` string; `None` for anything not of that shape. */
  function ParseDate(s: string): Option<Date> {
    if |s| == 10 && s[4] == '-' && s[7] == '-'
       && AllDigits(s[..4]) && AllDigits(s[5..7]) && AllDigits(s[8..])
    then Some(Date(Value(s[..4]), Value(s[5..7]), Value(s[8..])))
    else None
  }

  /** The clock fields of a serialised datetime: hour, minute, second, millisecond. */
  datatype Time = Time(hour: int, minute: int, second: int, millisecond: int)

  /** Reads back an `HH:MM:SS.mmm` string; `None` for anything not of that shape. */
  function ParseTime(s: string): Option<Time> {
    if |s| == 12 && s[2] == ':' && s[5] == ':' && s[8] == '.'
       && AllDigits(s[..2]) && AllDigits(s[3..5]) && AllDigits(s[6..8]) && AllDigits(s[9..])
    then Some(Time(Value(s[..2]), Value(s[3..5]), Value(s[6..8]), Value(s[9..])))
    else None
  }

  /** Reads back a `YYYY-MM-DDTHH:MM:SS.mmmZ` string; `None` for anything not of that shape. */
  function ParseStamp(s: string): Option<Stamp> {
    if |s| == 24 && s[10] == 'T' && s[23] == 'Z' && ParseDate(s[..10]).Some? && ParseTime(s[11..23]).Some?
    then
      var t := ParseTime(s[11..23]).value;
      Some(Stamp(ParseDate(s[..10]).value, t.hour, t.minute, t.second, t.millisecond))
    else None
  }

  /** Reading back a date assembled from three digit fields of the right widths. */
  lemma {:induction false} DateFields(y: string, m: string, dd: string)
    requires |y| == 4 && |m| == 2 && |dd| == 2
    requires AllDigits(y) && AllDigits(m) && AllDigits(dd)
    ensures ParseDate(y + "-" + m + "-" + dd) == Some(Date(Value(y), Value(m), Value(dd)))
  {
    var s := y + "-" + m + "-" + dd;
    assert s[..4] == y;
    assert s[5..7] == m;
    assert s[8..] == dd;
  }

  lemma {:induction false} Middle(a: string, b: string, c: string)
    ensures (a + b + c)[|a|..|a| + |b|] == b
  {
  }

  /** Where the fields of an `HH:MM:SS.mmm` string sit. */
  lemma {:induction false} TimeSlices(h: string, mi: string, se: string, ms: string)
    requires |h| == 2 && |mi| == 2 && |se| == 2 && |ms| == 3
    ensures var s := h + ":" + mi + ":" + se + "." + ms;
      && |s| == 12 && s[2] == ':' && s[5] == ':' && s[8] == '.'
      && s[..2] == h && s[3..5] == mi && s[6..8] == se && s[9..] == ms
  {
    var s := h + ":" + mi + ":" + se + "." + ms;
    assert s[..2] == h;
    assert s == (h + ":") + mi + (":" + se + "." + ms);
    Middle(h + ":", mi, ":" + se + "." + ms);
    assert s == (h + ":" + mi + ":") + se + ("." + ms);
    Middle(h + ":" + mi + ":", se, "." + ms);
    assert s[9..] == ms;
  }

  /** Reading back a clock assembled from four digit fields of the right widths. */
  lemma {:induction false} TimeFields(h: string, mi: string, se: string, ms: string)
    requires |h| == 2 && |mi| == 2 && |se| == 2 && |ms| == 3
    requires AllDigits(h) && AllDigits(mi) && AllDigits(se) && AllDigits(ms)
    ensures ParseTime(h + ":" + mi + ":" + se + "." + ms) == Some(Time(Value(h), Value(mi), Value(se), Value(ms)))
  {
    TimeSlices(h, mi, se, ms);
  }

  /** Reading back a datetime assembled from a serialised date and clock. */
  lemma {:induction false} StampFields(d: string, t: string)
    requires |d| == 10 && ParseDate(d).Some?
    requires |t| == 12 && ParseTime(t).Some?
    ensures ParseStamp(d + "T" + t + "Z")
         == Some(Stamp(ParseDate(d).value, ParseTime(t).value.hour, ParseTime(t).value.minute,
                       ParseTime(t).value.second, ParseTime(t).value.millisecond))
  {
    var s := d + "T" + t + "Z";
    assert s[..10] == d;
    assert s[11..23] == t;
  }

  lemma {:induction false} DateRoundTrip(d: Date)
    requires Valid(d)
    ensures |FormatDate(d)| == 10
    ensures ParseDate(FormatDate(d)) == Some(d)
  {
    ZeroPadSpec(d.year, 4);
    ZeroPadSpec(d.month, 2);
    ZeroPadSpec(d.day, 2);
    DateFields(ZeroPad(d.year, 4), ZeroPad(d.month, 2), ZeroPad(d.day, 2));
  }

  lemma {:induction false} DateTimeRoundTrip(dt: DateTime)
    requires ValidDateTime(dt)
    ensures |FormatDateTime(dt)| == 24
    ensures ParseStamp(FormatDateTime(dt)) == Some(StampOf(dt))
  {
    DateRoundTrip(dt.date);
    ZeroPadSpec(dt.hour, 2);
    ZeroPadSpec(dt.minute, 2);
    ZeroPadSpec(dt.second, 2);
    ZeroPadSpec(dt.microsecond / 1000, 3);
    TimeFields(ZeroPad(dt.hour, 2), ZeroPad(dt.minute, 2), ZeroPad(dt.second, 2), ZeroPad(dt.microsecond / 1000, 3));
    StampFields(FormatDate(dt.date), FormatTime(dt));
  }

  /** `absence_ftime(dt)`. The `datetime` case is checked first because every
      `datetime` is also a `date` to Python's `isinstance`. */
  function Ftime<T>(v: Argument<T>): (r: Serialized<T>)
    requires WellFormed(v)
    ensures v.DateTimeValue? ==> r.Text? && |r.s| == 24 && ParseStamp(r.s) == Some(StampOf(v.dt))
    ensures v.DateValue? ==> r.Text? && |r.s| == 10 && ParseDate(r.s) == Some(v.d)
    ensures v.Other? ==> r == Unchanged(v.x)
  {
    match v
    case DateTimeValue(dt) =>
      DateTimeRoundTrip(dt);
      Text(FormatDateTime(dt))
    case DateValue(d) =>
      DateRoundTrip(d);
      Text(FormatDate(d))
    case Other(x) => Unchanged(x)
  }
}
