/** One run of the widget, without its I/O: the action token, the start/stop
    guard over the state inferred from today's timespans, the mutation it
    issues, and the "today" total shown in the menu bar. The working state is
    never stored; it is recomputed from the list the service returned. */
module Control {
  import opened Wrappers
  import opened Decimal
  import opened Calendar
  import opened Timestamps
  import opened Timespans
  import opened HoursMinutes
  import opened Api

  /** What the run reads from its environment: the current UTC datetime, the
      local date (`local_now().date()`), and the local timezone's name (`%Z`)
      and offset (`%z`). The local date is given, not derived from the UTC
      datetime and the offset. */
  datatype Clock = Clock(utcNow: DateTime, localToday: Date, timezoneName: string, timezoneOffset: string)

  predicate ValidClock(c: Clock) {
    ValidDateTime(c.utcNow) && Valid(c.localToday)
  }

  /** The current instant, used as the end of an open session. */
  function Now(c: Clock): int
    requires ValidClock(c)
  {
    ToInstant(c.utcNow)
  }

  /** The at-most-one write a run performs. */
  datatype Mutation = NoMutation | StartWork(request: Request) | StopWork(request: Request)

  /** `sys.argv[1]` when present. */
  function ActionOf(argv: seq<string>): (action: Option<string>)
    ensures action.Some? <==> |argv| > 1
    ensures action.Some? ==> action.value == argv[1]
  {
    if |argv| > 1 then Some(argv[1]) else None
  }

  /** `start_working`: create an open work timespan starting now. */
  function StartRequest(userId: string, clock: Clock): (r: Request)
    requires ValidClock(clock)
    ensures r.verb == POST && r.endpoint == "/timespans/create"
    ensures r.body.JObj? && r.body.fields.Keys == {UserId, Start, TimezoneName, Timezone, End, Type}
    ensures Lookup(r.body, UserId) == Some(JStr(userId))
    ensures Lookup(r.body, Start) == Some(JStr(FormatDateTime(clock.utcNow)))
    ensures Lookup(r.body, End) == Some(JNull)
    ensures Lookup(r.body, TimezoneName) == Some(JStr(clock.timezoneName))
    ensures Lookup(r.body, Timezone) == Some(JStr(clock.timezoneOffset))
    ensures Lookup(r.body, Type) == Some(JStr("work"))
  {
    var start := JStr(FormatDateTime(clock.utcNow));
    var fields := map[UserId := JStr(userId), Start := start, TimezoneName := JStr(clock.timezoneName),
                      Timezone := JStr(clock.timezoneOffset), End := JNull, Type := JStr("work")];
    Request(POST, "/timespans/create", JObj(fields))
  }

  /** `stop_working`: close `last` by giving it an end of now, resending its
      original `start` unchanged. */
  function StopRequest(last: Timespan, clock: Clock): (r: Request)
    requires ValidClock(clock)
    ensures r.verb == PUT && r.endpoint == "/timespans/" + last.id
    ensures r.body.JObj? && r.body.fields.Keys == {Start, End, TimezoneName, Timezone}
    ensures Lookup(r.body, Start) == Some(JStr(last.start))
    ensures Lookup(r.body, End) == Some(JStr(FormatDateTime(clock.utcNow)))
    ensures Lookup(r.body, TimezoneName) == Some(JStr(clock.timezoneName))
    ensures Lookup(r.body, Timezone) == Some(JStr(clock.timezoneOffset))
  {
    var end := JStr(FormatDateTime(clock.utcNow));
    var fields := map[Start := JStr(last.start), End := end, TimezoneName := JStr(clock.timezoneName),
                      Timezone := JStr(clock.timezoneOffset)];
    Request(PUT, "/timespans/" + last.id, JObj(fields))
  }

  /** The new session's `start` is an absence.io timestamp that reads back as
      the clock's UTC time, to the millisecond. */
  lemma {:induction false} StartStampReadsBack(userId: string, clock: Clock)
    requires ValidClock(clock)
    ensures var start := Lookup(StartRequest(userId, clock).body, Start);
      && start.Some? && start.value.JStr? && |start.value.s| == 24
      && ParseStamp(start.value.s) == Some(StampOf(clock.utcNow))
  {
    DateTimeRoundTrip(clock.utcNow);
  }

  /** The closing `end` is an absence.io timestamp that reads back as the
      clock's UTC time, to the millisecond. */
  lemma {:induction false} StopStampReadsBack(last: Timespan, clock: Clock)
    requires ValidClock(clock)
    ensures var end := Lookup(StopRequest(last, clock).body, End);
      && end.Some? && end.value.JStr? && |end.value.s| == 24
      && ParseStamp(end.value.s) == Some(StampOf(clock.utcNow))
  {
    DateTimeRoundTrip(clock.utcNow);
  }

  /** Both timestamps sent are what `absence_ftime(utc_now())` yields. */
  lemma {:induction false} RequestsUseFtime(userId: string, last: Timespan, clock: Clock)
    requires ValidClock(clock)
    ensures Lookup(StartRequest(userId, clock).body, Start) == Some(JStr(Ftime<Json>(DateTimeValue(clock.utcNow)).s))
    ensures Lookup(StopRequest(last, clock).body, End) == Some(JStr(Ftime<Json>(DateTimeValue(clock.utcNow)).s))
  {
  }

  /** The guard of the main block: `start` only when not working, `stop` only
      when working, and nothing for any other token or state. */
  function Decide(action: Option<string>, spans: seq<Timespan>, userId: string, clock: Clock): (m: Mutation)
    requires ValidClock(clock)
    ensures m.StartWork? <==> action == Some("start") && !CheckWorking(spans)
    ensures m.StopWork? <==> action == Some("stop") && CheckWorking(spans)
    ensures m.NoMutation? <==> !(action == Some("start") && !CheckWorking(spans))
                               && !(action == Some("stop") && CheckWorking(spans))
    ensures m.StartWork? ==> m.request == StartRequest(userId, clock)
    ensures m.StopWork? ==> |spans| > 0 && m.request == StopRequest(spans[|spans| - 1], clock)
  {
    var working := CheckWorking(spans);
    if action == Some("start") && !working then StartWork(StartRequest(userId, clock))
    else if action == Some("stop") && working then StopWork(StopRequest(spans[|spans| - 1], clock))
    else NoMutation
  }

  /** The three lists a run asks for: today's sessions, this week's (from
      Monday) and this month's (from the 1st), all dated by the local day. */
  datatype Fetches = Fetches(today: Request, week: Request, month: Request)

  function FetchesOf(userId: string, clock: Clock): (f: Fetches)
    requires ValidClock(clock)
    ensures SinceDate(f.today) == Some(clock.localToday)
    ensures SinceDate(f.week).Some? && Valid(SinceDate(f.week).value)
    ensures var monday := SinceDate(f.week).value;
      Valid(monday) && Weekday(monday) == 0
      && ToOrdinal(clock.localToday) - 6 <= ToOrdinal(monday) <= ToOrdinal(clock.localToday)
    ensures SinceDate(f.month) == Some(Date(clock.localToday.year, clock.localToday.month, 1))
    ensures f.today == TimespansQuery(userId, SinceDate(f.today).value)
    ensures f.week == TimespansQuery(userId, SinceDate(f.week).value)
    ensures f.month == TimespansQuery(userId, SinceDate(f.month).value)
  {
    var today := clock.localToday;
    QuerySinceReadsBack(userId, today);
    QuerySinceReadsBack(userId, WeekStart(today));
    QuerySinceReadsBack(userId, MonthStart(today));
    WeekQuery(userId, today);
    MonthQuery(userId, today);
    Fetches(TimespansQuery(userId, today), TimespansQuery(userId, WeekStart(today)),
            TimespansQuery(userId, MonthStart(today)))
  }

  /** "This week" asks for sessions from a date that reads back as the Monday
      of the current week: a Monday at most six days before today. */
  lemma {:induction false} WeekQuery(userId: string, today: Date)
    requires Valid(today)
    ensures SinceDate(TimespansQuery(userId, WeekStart(today))).Some?
    ensures var monday := SinceDate(TimespansQuery(userId, WeekStart(today))).value;
      Valid(monday) && Weekday(monday) == 0
      && ToOrdinal(today) - 6 <= ToOrdinal(monday) <= ToOrdinal(today)
  {
    QuerySinceReadsBack(userId, WeekStart(today));
  }

  /** "This month" asks for sessions from a date that reads back as the first
      day of today's month. */
  lemma {:induction false} MonthQuery(userId: string, today: Date)
    requires Valid(today)
    ensures SinceDate(TimespansQuery(userId, MonthStart(today))) == Some(Date(today.year, today.month, 1))
  {
    QuerySinceReadsBack(userId, MonthStart(today));
  }

  /** What a run determines before printing: the lists it fetches, the state
      inferred from today's list, the write it issues and the "today" total,
      which is computed from the list fetched before the write. */
  datatype Outcome = Outcome(fetches: Fetches, working: bool, mutation: Mutation, today: string)

  /** One run, given `todaySpans`, the list the service returns for the
      "today" fetch. */
  function Run(argv: seq<string>, userId: string, clock: Clock, todaySpans: seq<Timespan>): (o: Outcome)
    requires ValidClock(clock)
    ensures o.fetches == FetchesOf(userId, clock)
    ensures SinceDate(o.fetches.today) == Some(clock.localToday)
    ensures o.working == CheckWorking(todaySpans)
    ensures o.mutation == Decide(ActionOf(argv), todaySpans, userId, clock)
    ensures ParseRendered(o.today) == Some((TotalSeconds(todaySpans, Now(clock)) / 3600,
                                            (TotalSeconds(todaySpans, Now(clock)) % 3600) / 60))
    ensures |o.today| == 5 + Max(2, |Digits(TotalSeconds(todaySpans, Now(clock)) / 3600)|)
  {
    Outcome(FetchesOf(userId, clock), CheckWorking(todaySpans), Decide(ActionOf(argv), todaySpans, userId, clock),
            SumTotalWorkingHoursAndMinutes(todaySpans, Now(clock)))
  }

  /** A morning session 09:00-12:00 and an open session from 13:00 on
      2024-03-01, given the instant of that day's midnight. */
  function ScenarioSpans(midnight: int): seq<Timespan> {
    [Timespan("a", "2024-03-01T09:00:00.000Z", midnight + 9 * 3600 * MicrosPerSecond,
              Some(midnight + 12 * 3600 * MicrosPerSecond)),
     Timespan("b", "2024-03-01T13:00:00.000Z", midnight + 13 * 3600 * MicrosPerSecond, None)]
  }

  function ScenarioClock(): Clock {
    Clock(DateTime(Date(2024, 3, 1), 13, 30, 0, 0), Date(2024, 3, 1), "CET", "+0100")
  }

  /** Stopping at 13:30: the run is working, and closes the second session with
      the end stamp `2024-03-01T13:30:00.000Z`. */
  lemma {:induction false} StopScenarioMutation(midnight: int)
    ensures
      var o := Run(["absence.30s.py", "stop"], "user", ScenarioClock(), ScenarioSpans(midnight));
      && o.working
      && o.mutation == StopWork(StopRequest(ScenarioSpans(midnight)[1], ScenarioClock()))
      && o.mutation.request.endpoint == "/timespans/b"
      && Lookup(o.mutation.request.body, End) == Some(JStr("2024-03-01T13:30:00.000Z"))
  {
    var o := Run(["absence.30s.py", "stop"], "user", ScenarioClock(), ScenarioSpans(midnight));
    assert ActionOf(["absence.30s.py", "stop"]) == Some("stop");
    assert o.mutation == Decide(Some("stop"), ScenarioSpans(midnight), "user", ScenarioClock());
    StopScenarioDecide(midnight);
  }

  lemma {:induction false} StopScenarioDecide(midnight: int)
    ensures
      var m := Decide(Some("stop"), ScenarioSpans(midnight), "user", ScenarioClock());
      && m == StopWork(StopRequest(ScenarioSpans(midnight)[1], ScenarioClock()))
      && m.request.endpoint == "/timespans/b"
      && Lookup(m.request.body, End) == Some(JStr("2024-03-01T13:30:00.000Z"))
  {
    assert CheckWorking(ScenarioSpans(midnight));
    ScenarioStopStamp();
  }

  /** The same run shows 3h30m for today: three hours closed, thirty minutes open. */
  lemma {:induction false} StopScenarioToday(midnight: int)
    requires midnight == ToInstant(DateTime(Date(2024, 3, 1), 0, 0, 0, 0))
    ensures Run(["absence.30s.py", "stop"], "user", ScenarioClock(), ScenarioSpans(midnight)).today == "03h 30m"
  {
    var spans := ScenarioSpans(midnight);
    var now := Now(ScenarioClock());
    assert now == midnight + (13 * 3600 + 30 * 60) * MicrosPerSecond;
    assert Contribution(spans[0], now) == 3 * 3600 by {
      ContributionWithinDay(spans[0], now);
    }
    assert Contribution(spans[1], now) == 30 * 60 by {
      ContributionWithinDay(spans[1], now);
    }
    assert TotalSeconds(spans, now) == 12600 by {
      assert spans[1..][1..] == [];
    }
    ScenarioTotalText();
  }

  lemma {:induction false} ScenarioTotalText()
    ensures Render(12600) == "03h 30m"
  {
  }

  lemma {:induction false} ScenarioStopStamp()
    ensures FormatDateTime(DateTime(Date(2024, 3, 1), 13, 30, 0, 0)) == "2024-03-01T13:30:00.000Z"
  {
    ScenarioDate();
    ScenarioTime();
    assert "2024-03-01" + "T" + "13:30:00.000" + "Z" == "2024-03-01T13:30:00.000Z";
  }

  lemma {:induction false} ScenarioDate()
    ensures FormatDate(Date(2024, 3, 1)) == "2024-03-01"
  {
    assert ZeroPad(2024, 4) == "2024";
    assert ZeroPad(3, 2) == "03";
    assert ZeroPad(1, 2) == "01";
  }

  lemma {:induction false} ScenarioTime()
    ensures FormatTime(DateTime(Date(2024, 3, 1), 13, 30, 0, 0)) == "13:30:00.000"
  {
    ScenarioClockFields();
    ScenarioZeroFields();
  }

  // The four concrete pads of the clock part are evaluated in two lemmas of
  // two each: evaluating all four in one proof exceeds the solver's budget.
  lemma {:induction false} ScenarioClockFields()
    ensures ZeroPad(13, 2) == "13" && ZeroPad(30, 2) == "30"
  {
    assert ZeroPad(13, 2) == "13";
  }

  lemma {:induction false} ScenarioZeroFields()
    ensures ZeroPad(0, 2) == "00" && ZeroPad(0, 3) == "000"
  {
    assert ZeroPad(0, 2) == "00";
  }
}
