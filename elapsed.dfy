/**
 The hours/minutes/seconds split of the elapsed whole seconds printed on a
 progress line: whole hours, the minutes left within the hour, and the
 seconds left within the minute. Reading the clock
 is left to the caller, who passes the elapsed seconds in. For the
 non-negative operands used here Python's floor division and modulo agree
 with Dafny's `/` and `%`.
 */
module Elapsed {

  datatype Clock = Clock(hours: nat, minutes: nat, seconds: nat)

  predicate Normal(c: Clock) { c.minutes < 60 && c.seconds < 60 }

  function ToSeconds(c: Clock): nat
  {
    c.hours * 3600 + c.minutes * 60 + c.seconds
  }

  function Split(et: nat): (c: Clock)
    ensures Normal(c)
    ensures ToSeconds(c) == et
  {
    var c := Clock(et / 3600, et % 3600 / 60, et % 60);
    assert et % 3600 == (et % 3600 / 60) * 60 + et % 60 by {
      DivModStep(et);
    }
    c
  }

  /** Splitting digits at 60 inside the hour: (et % 3600) % 60 == et % 60. */
  lemma DivModStep(et: nat)
    ensures et % 3600 == (et % 3600 / 60) * 60 + et % 60
  {
    var h, r := et / 3600, et % 3600;
    assert et == h * 3600 + r;
    var q, s := r / 60, r % 60;
    assert r == q * 60 + s;
    assert et == (h * 60 + q) * 60 + s;
    ModUnique(et, h * 60 + q, s, 60);
  }

  lemma ModUnique(n: nat, q: nat, s: nat, d: nat)
    requires 0 < d && s < d && n == q * d + s
    ensures n % d == s && n / d == q
  {
    var q', s' := n / d, n % d;
    assert n == q' * d + s';
    if q > q' {
      assert q * d == (q - q') * d + q' * d;
      MulAtLeast(q - q', d);
    } else if q < q' {
      assert q' * d == (q' - q) * d + q * d;
      MulAtLeast(q' - q, d);
    }
  }

  lemma MulAtLeast(x: int, d: nat)
    requires x >= 1
    ensures x * d >= d
  {
  }

  /** The split is the only normal clock reading with that many seconds, so
      formatting and reading back agree. */
  lemma SplitOfToSeconds(c: Clock)
    requires Normal(c)
    ensures Split(ToSeconds(c)) == c
  {
    var et := ToSeconds(c);
    var m := c.minutes * 60 + c.seconds;
    assert m < 3600;
    ModUnique(et, c.hours, m, 3600);
    ModUnique(m, c.minutes, c.seconds, 60);
    ModUnique(et, c.hours * 60 + c.minutes, c.seconds, 60);
  }
}
