/**
 * The time arithmetic of the `data_saver` loop: when the snapshot is
 * flushed, when an hourly summary follows the flush, and which UTC hour
 * that summary covers. Clock readings are POSIX timestamps in seconds.
 */
module Schedule {

  /** `int(x)`: conversion to an integer by truncation toward zero. */
  function Trunc(x: real): (n: int)
    ensures 0.0 <= x ==> n as real <= x < n as real + 1.0
    ensures x < 0.0 ==> n as real - 1.0 < x <= n as real
  {
    if 0.0 <= x then x.Floor else -((-x).Floor)
  }

  /** `now - start > save_interval`: the snapshot is due to be flushed. */
  predicate FlushDue(now: real, start: real, interval: int) {
    now - start > interval as real
  }

  /** `int(now) % 3600 < save_interval`: a flush is followed by a summary. */
  predicate SummaryDue(now: real, interval: int) {
    Trunc(now) % 3600 < interval
  }

  /** `math.floor(now)`: the whole second recorded as the new start. */
  function Restart(clock: real): (s: real)
    ensures s <= clock < s + 1.0
    ensures s == s.Floor as real
    ensures 0.0 <= clock ==> 0.0 <= s
  {
    clock.Floor as real
  }

  /**
   * The start of the UTC hour containing `t`, as
   * `replace(minute=0, second=0, microsecond=0)` computes it.
   */
  function HourStart(t: real): (h: int)
    ensures h % 3600 == 0
    ensures h as real <= t < h as real + 3600.0
  {
    var q := t.Floor / 3600;
    assert q * 3600 <= t.Floor < q * 3600 + 3600;
    q * 3600
  }

  /** An hour boundary at or below `t` and less than an hour away is `HourStart(t)`. */
  lemma HourStartUnique(t: real, h: int)
    requires h % 3600 == 0
    requires h as real <= t < h as real + 3600.0
    ensures HourStart(t) == h
  {
    var g := HourStart(t);
    assert g == (g / 3600) * 3600 && h == (h / 3600) * 3600;
    assert g - 3600 < h < g + 3600;
    assert g / 3600 - 1 < h / 3600 < g / 3600 + 1;
  }

  /** Later clock readings never fall in an earlier hour. */
  lemma HourStartMonotone(a: real, b: real)
    requires a <= b
    ensures HourStart(a) <= HourStart(b)
  {
  }

  /** The whole second kept by `Restart` lies in the same hour as the clock reading. */
  lemma RestartSameHour(clock: real)
    ensures HourStart(Restart(clock)) == HourStart(clock)
  {
    var h := HourStart(clock);
    assert h as real <= Restart(clock) by {
      assert h <= clock.Floor;
    }
    HourStartUnique(Restart(clock), h);
  }

  /**
   * For a clock past the epoch, the summary test holds exactly when fewer
   * than `interval` whole seconds have passed since the top of the hour.
   */
  lemma SummaryDueIff(now: real, interval: int)
    requires 0.0 <= now
    ensures SummaryDue(now, interval) <==> now.Floor - HourStart(now) < interval
  {
    var h := HourStart(now);
    assert h <= now.Floor < h + 3600;
    assert Trunc(now) == now.Floor;
    assert now.Floor % 3600 == now.Floor - h by {
      assert now.Floor == h + (now.Floor - h);
      assert h == (h / 3600) * 3600;
    }
  }

  /**
   * A summary is only written by a flush that happens in a later hour
   * than the start of the interval it closes.
   */
  lemma {:induction false} FlushedSummaryIsNewHour(start: real, now: real, interval: int)
    requires 0.0 <= start
    requires FlushDue(now, start, interval)
    requires SummaryDue(now, interval)
    ensures HourStart(start) < HourStart(now)
  {
    var h := HourStart(now);
    SummaryDueIff(now, interval);
    assert h >= now.Floor - interval + 1;
    assert (now.Floor + 1) as real > now;
    assert start < h as real;
  }
}
