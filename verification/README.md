# absence.io menu-bar widget — a Dafny model of its core

`absence.30s.py` is a BitBar/xbar plugin. On every refresh it:

- fetches today's work timespans from the absence.io time-tracking API;
- decides whether the user is currently working, meaning today's last timespan has no `effectiveEnd`;
- on `start` or `stop` in `argv[1]`, opens or closes a work session, but only when that makes sense in the current state;
- prints the hours worked today, this week (from Monday) and this month (from the 1st) as `HHh MMm`.

This project models the logic of that program without its I/O:

| module | file | what it models |
|---|---|---|
| `Wrappers` | wrappers.dfy | `Option` |
| `Decimal` | decimal.dfy | zero-padded decimal fields (`:02d`, `:03d`, `%Y`), and reading them back |
| `Calendar` | calendar.dfy | proleptic Gregorian dates as Python's `datetime.date` numbers them (ordinal 1 is 0001-01-01, a Monday); the Monday of the current week; the first of the current month |
| `Timestamps` | timestamps.dfy | `absence_ftime`: the `YYYY-MM-DD` / `YYYY-MM-DDTHH:MM:SS.mmmZ` serialisation, and a parser that reads it back |
| `Timespans` | timespans.dfy | timespan records; `check_working`; `timedelta` normal form; each record's `.seconds` contribution and their sum |
| `HoursMinutes` | hours.dfy | `relativedelta(seconds=…)` normalisation and the `HHh MMm` text |
| `Api` | api.dfy | request bodies as JSON data; the `get_timespans_from` query |
| `Control` | control.dfy | the action token, the start/stop guard, the `start_working` and `stop_working` requests, and one run's outcome |

Instants are integers counting microseconds since 0001-01-01T00:00:00. A
timespan carries `effectiveStart` and `effectiveEnd` already converted to
such instants. The clock is a parameter. It carries the UTC datetime, which
stands for every "now" of a run, the local date, which dates the three
fetches, and the timezone name and offset. The local date is given
independently of the UTC datetime.

## Model

| member | source | states |
|---|---|---|
| Timespans.CheckWorking | absence.30s.py:101-104 | an empty list is never "working"; for a non-empty list, working holds exactly when the last record has no `effectiveEnd` |
| Timespans.WorkingIffSomeOpen | absence.30s.py:101-104 | for lists where at most the last record is open, working is equivalent to "some record is open", in both directions |
| Timespans.Delta | absence.30s.py:93-96 | subtracting two datetimes yields a timedelta in normal form: seconds in [0, 86400), microseconds in [0, 10^6), and the same total length |
| Timespans.DeltaUnique | absence.30s.py:93-96 | any normalised timedelta of a given length is the one `Delta` yields, so `.seconds` is well defined |
| Timespans.Contribution | absence.30s.py:93-96 | a record adds `(end - effectiveStart).seconds`: whole seconds, floored, reduced modulo one day, always in [0, 86400); an open record ends at "now" |
| Timespans.ContributionWithinDay | absence.30s.py:93-96 | a non-negative span shorter than a day contributes its exact length in whole seconds |
| Timespans.TotalSeconds | absence.30s.py:91-96 | the summed seconds are non-negative and below 86400 times the number of records |
| Timespans.TotalAppend | absence.30s.py:91-96 | the total of a concatenation is the sum of the totals of its parts |
| Timespans.TotalPermutation | absence.30s.py:91-96 | the total depends only on the multiset of records, not their order |
| Timespans.TotalSwap | absence.30s.py:91-96 | concatenating two lists in either order gives the same total |
| Timespans.SumSeconds | absence.30s.py:90-96 | the accumulation loop returns exactly the sum of the contributions |
| HoursMinutes.FromSeconds | absence.30s.py:97 | `relativedelta(seconds=s)` carries into fields with seconds and minutes below 60, hours below 24 and days unbounded, and the fields add back to `s` |
| HoursMinutes.ShownFields | absence.30s.py:97-98 | `days*24 + hours` equals `s / 3600`, and `minutes` equals `(s % 3600) / 60` |
| HoursMinutes.RenderRoundTrip | absence.30s.py:98 | the `HHh MMm` text reads back as the whole hours (days included, never wrapping at 24) and the minutes past the hour; its length is 5 plus the width of the hour field, which is two digits or the number's own digit count if that is larger |
| HoursMinutes.SumTotalWorkingHoursAndMinutes | absence.30s.py:90-98 | the text of a list reads back as the hours and minutes of its summed seconds, with the hour field padded to exactly two digits, or no padding when the hours have more digits |
| HoursMinutes.OrderIrrelevant | absence.30s.py:90-98 | two lists holding the same records in any order render the same text |
| HoursMinutes.EmptyIsZero | absence.30s.py:97-98 | an empty list renders as `00h 00m` |
| Decimal.ZeroPadSpec | absence.30s.py:42 | a zero-padded field consists only of digits, keeps its value, is never truncated, and has exactly the requested width whenever the number fits |
| Timestamps.DateRoundTrip | absence.30s.py:43-44 | a formatted date has 10 characters and parses back to the same date |
| Timestamps.DateTimeRoundTrip | absence.30s.py:41-42 | a formatted datetime has 24 characters and parses back to its date, hour, minute, second and truncated millisecond |
| Timestamps.Ftime | absence.30s.py:40-45 | a datetime yields its 24-character stamp, a date yields its 10-character date (the datetime test comes first), and anything else is returned unchanged |
| Calendar.Weekday | absence.30s.py:179 | `weekday()` is in 0..6 and is the ordinal minus one, modulo 7, so 0 is Monday |
| Calendar.FirstDayIsMonday | absence.30s.py:179 | 0001-01-01 has weekday 0 (Monday) |
| Calendar.WeekdayOfPrevDay | absence.30s.py:179 | the day before a date has the previous weekday in the Monday-to-Sunday cycle |
| Calendar.PrevDay | absence.30s.py:179 | the previous calendar day is a valid date whose ordinal is one less, across month and year boundaries and leap days |
| Calendar.MinusDays | absence.30s.py:179 | subtracting `n` days gives a valid date whose ordinal is `n` less |
| Calendar.WeekStart | absence.30s.py:179 | the week starts on a Monday, at most six days before today |
| Calendar.MonthStart | absence.30s.py:184 | `replace(day=1)` keeps year and month, sets day 1, and lies `day - 1` days before today |
| Api.TimespansQuery | absence.30s.py:73-85 | the query is a POST to `https://app.absence.io/api/v2/timespans`. Its body has exactly the keys `filter`, `type` (`work`), `limit` (100) and `skip` (0). `filter` has exactly `userId` and `start`, and `start` has exactly `$gte`, holding the date |
| Api.KeyNameInjective | absence.30s.py:74-84 | distinct body keys have distinct wire names (`userId`, `$gte`, `timezoneName`, …) |
| Api.QueryUsesFtime | absence.30s.py:78 | the `$gte` string is exactly what `absence_ftime` yields for the start date |
| Api.QuerySinceReadsBack | absence.30s.py:78 | the `$gte` value is a 10-character date string that parses back to the requested day |
| Control.ActionOf | absence.30s.py:134-136 | the action is present exactly when `argv` has a second element, and it is that element |
| Control.StartRequest | absence.30s.py:107-116 | `start_working` POSTs to `/timespans/create` with exactly the keys user id, start (now), timezone name, timezone offset, `end: null` and type `work` |
| Control.StartStampReadsBack | absence.30s.py:110 | the `start` sent parses back as the clock's UTC time to the millisecond |
| Control.StopRequest | absence.30s.py:120-129 | `stop_working` PUTs to `/timespans/<_id of the last record>` with exactly four keys: that record's `start` unchanged, `end` set to now, and the timezone name and offset |
| Control.RequestsUseFtime | absence.30s.py:110-124 | the `start` of a new session and the `end` of a closed one are exactly what `absence_ftime(utc_now())` yields |
| Control.StopStampReadsBack | absence.30s.py:124 | the `end` sent parses back as the clock's UTC time to the millisecond |
| Control.Decide | absence.30s.py:143-146 | a start request is issued exactly for `start` while not working; a stop request, which closes the last record, exactly for `stop` while working; and nothing otherwise |
| Control.FetchesOf | absence.30s.py:138-186 | each of the run's three fetches is the `get_timespans_from` query for the user. They start on the local date, on the Monday at most six days before it, and on the first of its month |
| Control.Run | absence.30s.py:133-148 | a run fetches today's list from the local date and reports the state from `check_working`. It performs at most the write `Decide` chooses. It shows today's total from the list fetched before that write, padded as `:02d` pads |
| Control.WeekQuery | absence.30s.py:179-181 | the "this week" query starts on a date that parses back as a Monday at most six days before today |
| Control.MonthQuery | absence.30s.py:184-186 | the "this month" query starts on a date that parses back as the first of today's month |
| Control.StopScenarioMutation | absence.30s.py:121-129 | with a closed 09:00-12:00 record and an open 13:00 record, `stop` at 13:30 closes the second record with end `2024-03-01T13:30:00.000Z` |
| Control.StopScenarioToday | absence.30s.py:90-98 | in the same run, today's total renders as `03h 30m` |

## Left out

- Hawk request signing with `mohawk` (absence.30s.py:53-61). It is cryptography over the serialised body, and the body's content is modelled without it.
- HTTP transport (absence.30s.py:63-70): choosing `requests.<verb>`, headers, `response.ok` and `response.json()['data']`. Responses are inputs: the lists of timespans are parameters.
- Reading `~/.absence.cfg` (absence.30s.py:12-21). The user id is a parameter. The user key is used only for signing.
- Clock reads (`local_now`, `utc_now`, absence.30s.py:32-37) and the `%Z`/`%z` timezone strings. The clock is a `Clock` parameter. Its UTC datetime stands for every "now" of a run, both the end of an open record and the stamp of a start or stop. The source reads the clock several times, and the model does not reproduce the microseconds that pass between those reads.
- The local date (`local_now().date()`, absence.30s.py:138) is an independent field of `Clock`. It is not derived from the UTC datetime and the offset, because timezone conversion is not modelled.
- Parsing the service's ISO strings with `dateutil.parser` (absence.30s.py:93-96). Records arrive with `effectiveStart` and `effectiveEnd` already converted to instants. The fallback `local_now().isoformat()` for an open record becomes the `now` parameter.
- Timezone conversion: `absence_ftime` prints a datetime's own fields followed by `Z`. The model likewise formats the clock's UTC datetime without converting it.
- The printed menu (absence.30s.py:149-190): symbols, menu lines, per-record lines with local `%H:%M` times, and the link. The week and month totals are modelled as the query they send (`FetchesOf`, `WeekQuery`, `MonthQuery`) plus `SumTotalWorkingHoursAndMinutes` applied to the returned list.
- Pagination: only the first page of 100 records is requested, exactly as in the source. Later pages are not fetched by the source either.
- JSON serialisation (`json.dumps`): key order and escaping. Bodies are modelled as maps from keys to values.
- `%Y` for years below 1000 (the C library may print fewer than four digits). The model always pads to four digits.
- Dates before 0001-01-01 or after 9999-12-31 (`MinusDays` requires that the result stays in range). Python raises `OverflowError` there, and no week start or month start of a valid date reaches it.
