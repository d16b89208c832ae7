/** Work sessions as the service returns them, the "currently working" test and
    the per-session contributions that `sum_total_working_hours_and_minutes_from`
    adds up. Instants are microseconds since 0001-01-01T00:00:00 UTC, already
    parsed from the service's strings. */
module Timespans {
  import opened Wrappers

  const MicrosPerSecond: int := 1000000
  const SecondsPerDay: int := 86400
  const MicrosPerDay: int := 86400000000

  /** One timespan record: `_id`, the raw `start` string (sent back unchanged
      when the session is stopped), `effectiveStart`, and `effectiveEnd`, whose
      absence marks a session that is still open. */
  datatype Timespan = Timespan(id: string, start: string, effectiveStart: int, effectiveEnd: Option<int>)

  predicate IsOpen(t: Timespan) {
    t.effectiveEnd.None?
  }

  /** `check_working`: the user is working when the list is non-empty and its
      last record has no `effectiveEnd`. */
  function CheckWorking(spans: seq<Timespan>): (working: bool)
    ensures working ==> |spans| > 0
    ensures |spans| > 0 ==> (working <==> IsOpen(spans[|spans| - 1]))
  {
    if |spans| == 0 then false else IsOpen(spans[|spans| - 1])
  }

  /** Only the last record decides: whatever precedes it is irrelevant. */
  lemma {:induction false} WorkingIgnoresEarlier(earlier: seq<Timespan>, last: Timespan)
    ensures CheckWorking(earlier + [last]) <==> IsOpen(last)
    ensures CheckWorking(earlier + [last]) == CheckWorking([last])
  {
  }

  /** The service's ordering promise: at most one open record, and it is the last. */
  predicate OpenOnlyLast(spans: seq<Timespan>) {
    forall i :: 0 <= i < |spans| - 1 ==> !IsOpen(spans[i])
  }

  /** On lists that keep the service's ordering promise, "working" means exactly
      "some session is open". */
  lemma {:induction false} WorkingIffSomeOpen(spans: seq<Timespan>)
    requires OpenOnlyLast(spans)
    ensures CheckWorking(spans) <==> exists i :: 0 <= i < |spans| && IsOpen(spans[i])
  {
    if exists i :: 0 <= i < |spans| && IsOpen(spans[i]) {
      var i :| 0 <= i < |spans| && IsOpen(spans[i]);
      assert i == |spans| - 1;
    }
  }

  /** A `datetime.timedelta` in Python's normal form. */
  datatype TimeDelta = TimeDelta(days: int, seconds: int, microseconds: int)

  predicate Normalised(t: TimeDelta) {
    0 <= t.seconds < SecondsPerDay && 0 <= t.microseconds < MicrosPerSecond
  }

  function TotalMicros(t: TimeDelta): int {
    (t.days * SecondsPerDay + t.seconds) * MicrosPerSecond + t.microseconds
  }

  /** The timedelta that `a - b` yields for two datetimes `us` microseconds apart. */
  function Delta(us: int): (t: TimeDelta)
    ensures Normalised(t)
    ensures TotalMicros(t) == us
  {
    var rest := us % MicrosPerDay;
    TimeDelta(us / MicrosPerDay, rest / MicrosPerSecond, rest % MicrosPerSecond)
  }

  /** The normal form is unique: any normalised timedelta of the same length is `Delta`'s. */
  lemma {:induction false} DeltaUnique(us: int, t: TimeDelta)
    requires Normalised(t)
    requires TotalMicros(t) == us
    ensures t == Delta(us)
  {
    var r := t.seconds * MicrosPerSecond + t.microseconds;
    assert 0 <= r < MicrosPerDay;
    assert us == t.days * MicrosPerDay + r;
    assert us / MicrosPerDay == t.days && us % MicrosPerDay == r;
  }

  /** `effectiveEnd` when present, the caller's "now" otherwise. */
  function EndOr(t: Timespan, now: int): int {
    match t.effectiveEnd
    case Some(e) => e
    case None => now
  }

  /** One record's share of the total: `(end - effectiveStart).seconds`, that
      is whole seconds (sub-second parts dropped toward minus infinity) reduced
      modulo a day. Spans of a day or more, and negative spans, wrap. */
  function Contribution(t: Timespan, now: int): (c: int)
    ensures 0 <= c < SecondsPerDay
    ensures c == ((EndOr(t, now) - t.effectiveStart) / MicrosPerSecond) % SecondsPerDay
  {
    Delta(EndOr(t, now) - t.effectiveStart).seconds
  }

  /** A span shorter than a day and not negative contributes its exact length in whole seconds. */
  lemma {:induction false} ContributionWithinDay(t: Timespan, now: int)
    requires 0 <= EndOr(t, now) - t.effectiveStart < MicrosPerDay
    ensures Contribution(t, now) == (EndOr(t, now) - t.effectiveStart) / MicrosPerSecond
  {
  }

  /** The sum of the contributions of all records, in list order. */
  function TotalSeconds(spans: seq<Timespan>, now: int): (total: int)
    ensures 0 <= total
    ensures total < SecondsPerDay * |spans| || (|spans| == 0 && total == 0)
  {
    if |spans| == 0 then 0 else Contribution(spans[0], now) + TotalSeconds(spans[1..], now)
  }

  lemma {:induction false} TotalAppend(a: seq<Timespan>, b: seq<Timespan>, now: int)
    ensures TotalSeconds(a + b, now) == TotalSeconds(a, now) + TotalSeconds(b, now)
    decreases |a|
  {
    if |a| == 0 {
      assert a + b == b;
    } else {
      assert (a + b)[1..] == a[1..] + b;
      TotalAppend(a[1..], b, now);
    }
  }

  /** Reordering the records does not change the total. */
  lemma {:induction false} TotalPermutation(a: seq<Timespan>, b: seq<Timespan>, now: int)
    requires multiset(a) == multiset(b)
    ensures TotalSeconds(a, now) == TotalSeconds(b, now)
    decreases |a|
  {
    if |a| == 0 {
      assert |b| == |multiset(b)| == 0;
    } else {
      var x := a[0];
      assert x in multiset(b);
      var i :| 0 <= i < |b| && b[i] == x;
      var rest := b[..i] + b[i + 1..];
      assert b == b[..i] + ([x] + b[i + 1..]);
      assert a == [x] + a[1..];
      assert multiset(a[1..]) == multiset(rest) by {
        assert multiset(rest) == multiset(b[..i]) + multiset(b[i + 1..]);
        assert multiset(b) == multiset(b[..i]) + multiset([x]) + multiset(b[i + 1..]);
        assert multiset(a) == multiset([x]) + multiset(a[1..]);
        assert multiset(a[1..]) == multiset(a) - multiset([x]);
        assert multiset(rest) == multiset(b) - multiset([x]);
      }
      TotalPermutation(a[1..], rest, now);
      TotalAppend(b[..i], [x] + b[i + 1..], now);
      TotalAppend([x], b[i + 1..], now);
      TotalAppend(b[..i], b[i + 1..], now);
      assert TotalSeconds([x], now) == Contribution(x, now);
    }
  }

  /** Concatenation in either order gives the same total. */
  lemma {:induction false} TotalSwap(a: seq<Timespan>, b: seq<Timespan>, now: int)
    ensures TotalSeconds(a + b, now) == TotalSeconds(b + a, now)
  {
    TotalAppend(a, b, now);
    TotalAppend(b, a, now);
  }

  /** The accumulation loop of `sum_total_working_hours_and_minutes_from`. */
  method SumSeconds(spans: seq<Timespan>, now: int) returns (seconds: int)
    ensures seconds == TotalSeconds(spans, now)
    ensures 0 <= seconds
  {
    seconds := 0;
    var i := 0;
    while i < |spans|
      invariant 0 <= i <= |spans|
      invariant seconds == TotalSeconds(spans[..i], now)
    {
      TotalAppend(spans[..i], [spans[i]], now);
      assert spans[..i + 1] == spans[..i] + [spans[i]];
      seconds := seconds + Contribution(spans[i], now);
      i := i + 1;
    }
    assert spans[..i] == spans;
  }
}
