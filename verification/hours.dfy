/** The `HHh MMm` text of `sum_total_working_hours_and_minutes_from`: the summed
    seconds go through `relativedelta(seconds=...)`, whose normalisation carries
    seconds into minutes, minutes into hours and hours into days, and the days
    are folded back into the hour field, which therefore never wraps at 24. */
module HoursMinutes {
  import opened Wrappers
  import opened Decimal
  import opened Timespans

  /** The fields of a `relativedelta` that a count of seconds can populate. */
  datatype RelativeDelta = RelativeDelta(days: int, hours: int, minutes: int, seconds: int)

  /** `relativedelta(seconds=s)` for `s >= 0`, following the carry steps of its
      normalisation: a field is carried only once it exceeds its range. */
  function FromSeconds(s: nat): (r: RelativeDelta)
    ensures 0 <= r.seconds < 60 && 0 <= r.minutes < 60 && 0 <= r.hours < 24 && 0 <= r.days
    ensures ((r.days * 24 + r.hours) * 60 + r.minutes) * 60 + r.seconds == s
  {
    var minutes := if s > 59 then s / 60 else 0;
    var seconds := if s > 59 then s % 60 else s;
    var hours := if minutes > 59 then minutes / 60 else 0;
    var minutes' := if minutes > 59 then minutes % 60 else minutes;
    var days := if hours > 23 then hours / 24 else 0;
    var hours' := if hours > 23 then hours % 24 else hours;
    RelativeDelta(days, hours', minutes', seconds)
  }

  /** The hour and minute fields shown for a total of `s` seconds. */
  lemma {:induction false} ShownFields(s: nat)
    ensures FromSeconds(s).days * 24 + FromSeconds(s).hours == s / 3600
    ensures FromSeconds(s).minutes == (s % 3600) / 60
  {
    var r := FromSeconds(s);
    var h := r.days * 24 + r.hours;
    assert s == h * 3600 + (r.minutes * 60 + r.seconds);
    assert 0 <= r.minutes * 60 + r.seconds < 3600;
  }

  /** `f'{total.days * 24 + total.hours:02d}h {total.minutes:02d}m'`. */
  function Render(s: nat): string {
    var r := FromSeconds(s);
    ZeroPad(r.days * 24 + r.hours, 2) + "h " + ZeroPad(r.minutes, 2) + "m"
  }

  /** Reads back a rendered total as (hours, minutes): everything before the
      final `h MMm` is the hour field. */
  function ParseRendered(text: string): Option<(nat, nat)> {
    if |text| >= 7 && text[|text| - 5..|text| - 3] == "h " && text[|text| - 1] == 'm'
       && AllDigits(text[..|text| - 5]) && AllDigits(text[|text| - 3..|text| - 1])
    then Some((Value(text[..|text| - 5]), Value(text[|text| - 3..|text| - 1])))
    else None
  }

  /** Where the fields of an `HHh MMm` string sit. */
  lemma {:induction false} RenderedSlices(hh: string, mm: string)
    requires |mm| == 2
    ensures var text := hh + "h " + mm + "m";
      && |text| == |hh| + 5
      && text[..|hh|] == hh && text[|hh|..|hh| + 2] == "h " && text[|hh| + 2..|hh| + 4] == mm
      && text[|hh| + 4] == 'm'
  {
    var text := hh + "h " + mm + "m";
    assert text == hh + ("h " + mm + "m");
    assert text == (hh + "h ") + mm + "m";
  }

  /** Reading back a text assembled from an hour field of at least two digits
      and a minute field of exactly two. */
  lemma {:induction false} RenderedFields(hh: string, mm: string)
    requires |hh| >= 2 && |mm| == 2
    requires AllDigits(hh) && AllDigits(mm)
    ensures ParseRendered(hh + "h " + mm + "m") == Some((Value(hh), Value(mm)))
  {
    RenderedSlices(hh, mm);
  }

  /** The rendered text carries the whole hours of the total, days included, and
      the whole minutes past the hour; leftover seconds are dropped. */
  lemma {:induction false} RenderRoundTrip(s: nat)
    ensures |Render(s)| == 5 + Max(2, |Digits(s / 3600)|)
    ensures ParseRendered(Render(s)) == Some((s / 3600, (s % 3600) / 60))
  {
    ShownFields(s);
    var r := FromSeconds(s);
    ZeroPadSpec(r.days * 24 + r.hours, 2);
    ZeroPadSpec(r.minutes, 2);
    assert r.minutes < Pow10(2);
    RenderedFields(ZeroPad(r.days * 24 + r.hours, 2), ZeroPad(r.minutes, 2));
  }

  /** `sum_total_working_hours_and_minutes_from(timespans)` with the clock read
      replaced by `now`. */
  function SumTotalWorkingHoursAndMinutes(spans: seq<Timespan>, now: int): (text: string)
    ensures ParseRendered(text) == Some((TotalSeconds(spans, now) / 3600, (TotalSeconds(spans, now) % 3600) / 60))
    ensures |text| == 5 + Max(2, |Digits(TotalSeconds(spans, now) / 3600)|)
    ensures text[|text| - 5..|text| - 3] == "h " && text[|text| - 1] == 'm'
  {
    var total := TotalSeconds(spans, now);
    RenderRoundTrip(total);
    Render(total)
  }

  /** An empty list renders as zero hours and zero minutes. */
  lemma {:induction false} EmptyIsZero(now: int)
    ensures SumTotalWorkingHoursAndMinutes([], now) == "00h 00m"
  {
  }

  /** The text depends only on the multiset of records, not on their order. */
  lemma {:induction false} OrderIrrelevant(a: seq<Timespan>, b: seq<Timespan>, now: int)
    requires multiset(a) == multiset(b)
    ensures SumTotalWorkingHoursAndMinutes(a, now) == SumTotalWorkingHoursAndMinutes(b, now)
  {
    TotalPermutation(a, b, now);
  }
}
