/** The times at which line items may be stamped: never around the top of the hour. */
module SafeTimes {
  import opened Calendar
  import opened Wrappers

  /** The guard of the loop in `_get_safe_now`. */
  predicate Unsafe(t: Time) {
    || (t / MINUTE % 60 == 59 && t / SECOND % 60 >= 58)
    || (t / MINUTE % 60 == 0 && t / SECOND % 60 == 0 && t % SECOND < 10)
  }

  // Microseconds into the hour.
  const OPEN := 10
  const CLOSE := 3_598_000_000 // HOUR - 2 * SECOND

  lemma HourHands(t: Time)
    ensures t % HOUR == (t / MINUTE % 60) * MINUTE + (t / SECOND % 60) * SECOND + t % SECOND
  {
    var micros, seconds := t % SECOND, t / SECOND;
    var s, minutes := seconds % 60, seconds / 60;
    var m, hours := minutes % 60, minutes / 60;
    Quotient(t, MINUTE, minutes, s * SECOND + micros);
    Quotient(t, HOUR, hours, m * MINUTE + s * SECOND + micros);
  }

  /** Safe times are those at least ten microseconds into the hour and more than two seconds from its end. */
  lemma SafeIff(t: Time)
    ensures !Unsafe(t) <==> OPEN <= t % HOUR < CLOSE
  {
    HourHands(t);
  }

  // `_get_safe_now` holding `now`, with the clock readings still to come; none when it is left waiting.
  function SafeNow(now: Time, readings: seq<Time>): (safe: Option<Time>)
    ensures safe.Some? ==> !Unsafe(safe.value)
    decreases |readings|
  {
    if !Unsafe(now) then Some(now)
    else if |readings| == 0 then None
    else SafeNow(Next(now, readings[0]), readings[1..])
  }

  // A clock that stands still is taken to have moved on by a second.
  function Next(now: Time, reading: Time): Time {
    if reading == now then now + SECOND else reading
  }

  /** `_get_safe_now`. */
  method GetSafeNow(readings: seq<Time>) returns (safe: Option<Time>)
    requires readings != []
    ensures safe == SafeNow(readings[0], readings[1..])
  {
    var now, read := readings[0], 1;
    while Unsafe(now)
      invariant 1 <= read <= |readings|
      invariant SafeNow(now, readings[read..]) == SafeNow(readings[0], readings[1..])
      decreases |readings| - read
    {
      if read == |readings| {
        return None;
      }
      assert readings[read..][1..] == readings[read + 1..];
      now := Next(now, readings[read]);
      read := read + 1;
    }
    return Some(now);
  }

  // ------------------------------------------------------------ a clock that runs

  predicate Running(now: Time, readings: seq<Time>) {
    && (|readings| > 0 ==> now < readings[0])
    && (forall i :: 0 < i < |readings| ==> readings[i - 1] < readings[i])
  }

  /** While the clock runs, what is returned is the first reading that is safe. */
  lemma {:induction false} RunningClock(now: Time, readings: seq<Time>) returns (k: nat)
    requires Running(now, readings)
    ensures k <= |readings| + 1
    ensures forall i :: 0 <= i < k ==> Unsafe(([now] + readings)[i])
    ensures SafeNow(now, readings) == if k <= |readings| then Some(([now] + readings)[k]) else None
    decreases |readings|
  {
    var all := [now] + readings;
    if !Unsafe(now) {
      k := 0;
    } else if |readings| == 0 {
      k := 1;
    } else {
      var rest := RunningClock(readings[0], readings[1..]);
      assert [readings[0]] + readings[1..] == readings;
      k := rest + 1;
      forall i | 0 <= i < k ensures Unsafe(all[i]) {
        if i > 0 { assert all[i] == readings[i - 1]; }
      }
    }
  }

  // ------------------------------------------------------------ a clock that stands still

  lemma {:induction false} FrozenClock(c: Time, readings: seq<Time>)
    requires forall i :: 0 <= i < |readings| ==> readings[i] == c
    ensures Unsafe(c) && Unsafe(c + SECOND) ==> SafeNow(c, readings).None? && SafeNow(c + SECOND, readings).None?
    decreases |readings|
  {
    if |readings| > 0 {
      FrozenClock(c, readings[1..]);
    }
  }

  /** With a clock that stands still the wait ends, at the first reading already, exactly when the time or
      the time a second later is safe; otherwise no number of readings ends it. */
  lemma FrozenClockEndsIff(c: Time, readings: seq<Time>)
    requires readings != [] && forall i :: 0 <= i < |readings| ==> readings[i] == c
    ensures SafeNow(c, readings).Some? <==> !(CLOSE <= c % HOUR < CLOSE + SECOND + OPEN)
    ensures SafeNow(c, readings).Some? ==> SafeNow(c, readings) == SafeNow(c, readings[..1])
  {
    SafeIff(c);
    SafeIff(c + SECOND);
    SecondLater(c);
    if Unsafe(c) && Unsafe(c + SECOND) {
      FrozenClock(c, readings);
    }
  }

  /** From the first microsecond of the second but last second of an hour, `_get_safe_now` waits for ever. */
  lemma FrozenBeforeTheHour(hour: int, readings: seq<Time>)
    requires readings != [] && forall i :: 0 <= i < |readings| ==> readings[i] == hour * HOUR + CLOSE
    ensures SafeNow(hour * HOUR + CLOSE, readings).None?
  {
    var c := hour * HOUR + CLOSE;
    Quotient(c, HOUR, hour, CLOSE);
    FrozenClockEndsIff(c, readings);
  }

  lemma SecondLater(c: Time)
    ensures (c + SECOND) % HOUR == if c % HOUR + SECOND < HOUR then c % HOUR + SECOND else c % HOUR + SECOND - HOUR
  {
  }

  // ------------------------------------------------------------ two readings in the same hour

  // `now2.hour == now.hour`: the hour of the day, not the hour.
  predicate SameHourOfDay(a: Time, b: Time) {
    HourOf(a) % 24 == HourOf(b) % 24
  }

  // The longest time between two readings for which the hour of the day tells the hour.
  const MAX_GAP := 82_802_000_010 // 23 * HOUR + 2 * SECOND + 10

  lemma HoursApart(a: Time, b: Time)
    requires a <= b < a + DAY && SameHourOfDay(a, b) && HourOf(a) != HourOf(b)
    ensures HourOf(b) == HourOf(a) + 24
  {
  }

  lemma SameHour(a: Time, b: Time)
    requires !Unsafe(a) && !Unsafe(b) && a <= b <= a + MAX_GAP && SameHourOfDay(a, b)
    ensures HourOf(a) == HourOf(b)
  {
    SafeIff(a);
    SafeIff(b);
    HourWithinDay(a);
    HourWithinDay(b);
    if HourOf(a) != HourOf(b) {
      HoursApart(a, b);
      assert false;
    }
  }

  ghost predicate TellsTheHour(gap: Time) {
    forall a: Time :: !Unsafe(a) && !Unsafe(a + gap) && SameHourOfDay(a, a + gap) ==> HourOf(a) == HourOf(a + gap)
  }

  /** Readings less than a day apart do not suffice: half past ten and twenty past ten the next day are the
      same hour of the day. Comparing the hour of the day tells whether two safe readings fall in the same
      hour exactly when they are at most 23 hours, two seconds and ten microseconds apart. */
  lemma GapTellsTheHourIff(gap: Time)
    requires 0 <= gap < DAY
    ensures TellsTheHour(gap) <==> gap <= MAX_GAP
  {
    if gap <= MAX_GAP {
      forall a: Time | !Unsafe(a) && !Unsafe(a + gap) && SameHourOfDay(a, a + gap)
        ensures HourOf(a) == HourOf(a + gap)
      {
        SameHour(a, a + gap);
      }
    } else {
      var a := CLOSE - 1;
      SafeIff(a);
      SafeIff(a + gap);
      assert HourOf(a) == 0 && HourOf(a + gap) == 24;
      assert !TellsTheHour(gap);
    }
  }

  // ------------------------------------------------------------ how late a write may land

  ghost predicate KeepsTheHour(delay: Time) {
    forall last: Time :: !Unsafe(last) ==> HourOf(last + delay) == HourOf(last)
  }

  /** A write that follows a safe reading lands in the same hour, whichever the reading, exactly when it
      follows by at most two seconds. */
  lemma DelayKeepsTheHourIff(delay: Time)
    requires 0 <= delay < HOUR
    ensures KeepsTheHour(delay) <==> delay <= 2 * SECOND
  {
    if delay <= 2 * SECOND {
      forall last: Time | !Unsafe(last) ensures HourOf(last + delay) == HourOf(last) {
        SafeIff(last);
      }
    } else {
      var last := CLOSE - 1;
      SafeIff(last);
      assert HourOf(last) == 0 && HourOf(last + delay) == 1;
      assert !KeepsTheHour(delay);
    }
  }
}
