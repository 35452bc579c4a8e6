/** The clock-window calendar of src/daynight.c: what schedule mode follows, and what the
    heartbeat is pulled in by. Instants are seconds since local midnight; days have no
    clock change in them.
  */
module Calendar {
  import opened DayNight

  const DAY_S: int := 86400
  const DAY_MIN: int := 24 * 60

  /** dn_time_target: night from minute n until minute d, maybe over midnight. */
  function TimeTarget(n: int, d: int, cur: int): Mode {
    if n < 0 || d < 0 || n == d then Unknown
    else if (if n > d then cur >= n || cur < d else n <= cur < d) then Night else Day
  }

  /** dn_secs_to_dawn for the clock window. */
  function SecsToDawn(d: int, t: int): int {
    var mins := if d - t / 60 <= 0 then d - t / 60 + DAY_MIN else d - t / 60;
    mins * 60 - t % 60
  }

  function TargetAt(n: int, d: int, t: int): Mode {
    TimeTarget(n, d, (t % DAY_S) / 60)
  }

  predicate Minute(x: int) { 0 <= x < DAY_MIN }

  /** The next day edge lies within a day ahead, falls on the minute, and none is nearer. */
  lemma DawnIsNext(d: int, t: int, x: int)
    requires Minute(d) && 0 <= t < DAY_S && 0 < x
    ensures var s := SecsToDawn(d, t);
            0 < s <= DAY_S && (t + s) % DAY_S == d * 60
            && (x < s ==> (t + x) % DAY_S != d * 60)
  {
    var s := SecsToDawn(d, t);
    assert t + s == d * 60 || t + s == d * 60 + DAY_S;
  }

  /** The two calendar functions agree: what is night stays night up to the announced dawn,
      and at the dawn it is day, exactly when the window is not empty. */
  lemma NightLastsUntilDawn(n: int, d: int, t: int, x: int)
    requires Minute(n) && Minute(d) && 0 <= t < DAY_S && 0 <= x < SecsToDawn(d, t)
    ensures TargetAt(n, d, t + SecsToDawn(d, t)) == Day <==> n != d
    ensures TargetAt(n, d, t) == Night ==> TargetAt(n, d, t + x) == Night
  {
    DawnIsNext(d, t, 1);
    assert (d * 60) / 60 == d;
    assert t % DAY_S == t;
    if t + x < DAY_S {
      assert (t + x) % DAY_S == t + x && t / 60 <= (t + x) / 60;
    } else {
      assert (t + x) % DAY_S == t + x - DAY_S;
    }
  }
}
