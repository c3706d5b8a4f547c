/** The rotation schedule (rotate/logger.go:49-53, 154, 231-239).

    An instant is a count of nanoseconds since Go's zero time, the origin
    Go's Time.Truncate rounds towards; a period is a positive duration in
    nanoseconds. */
module Clock {

  /** One minute in nanoseconds: the shortest rotation period. */
  const Minute: nat := 60_000_000_000

  /** `t` falls on a period boundary. */
  predicate Aligned(t: nat, p: nat)
    requires p > 0
  {
    t % p == 0
  }

  /** Time.Truncate for a positive duration: `t` rounded down to a multiple of `p`. */
  function Truncate(t: nat, p: nat): (r: nat)
    requires p > 0
    ensures Aligned(r, p)
    ensures r <= t < r + p
  {
    DivModUnique(t - t % p, p, t / p, 0);
    t - t % p
  }

  /** A multiple of `p` that is within one period below `t` is `Truncate(t, p)`:
      the two ensures of Truncate pin its result down. */
  lemma TruncateUnique(t: nat, p: nat, m: nat)
    requires p > 0
    requires Aligned(m, p) && m <= t < m + p
    ensures m == Truncate(t, p)
  {
    assert m == (m / p) * p;
    DivModUnique(t, p, m / p, t - m);
  }

  /** The first switch time, `Truncate(now) + period` (rotate/logger.go:53):
      the end of the window `now` falls in. */
  function InitialSwitch(now: nat, p: nat): (r: nat)
    requires p > 0
    ensures Aligned(r, p)
    ensures now < r <= now + p
  {
    ShiftAligned(Truncate(now, p), p);
    Truncate(now, p) + p
  }

  /** The first switch time is the earliest period boundary strictly after `now`. */
  lemma InitialSwitchIsEarliest(now: nat, p: nat, m: nat)
    requires p > 0
    requires Aligned(m, p) && now < m
    ensures InitialSwitch(now, p) <= m
  {
    var tr := Truncate(now, p);
    var i, j := tr / p, m / p;
    assert tr == i * p && m == j * p;
    if j <= i {
      MulMonotone(j, i, p);
    }
    assert j >= i + 1;
    MulMonotone(i + 1, j, p);
    assert (i + 1) * p == tr + p;
  }

  /** Adding a period keeps a time on a boundary. */
  lemma ShiftAligned(t: nat, p: nat)
    requires p > 0 && Aligned(t, p)
    ensures Aligned(t + p, p)
  {
    var k := t / p;
    assert t == k * p;
    assert t + p == (k + 1) * p;
    DivModUnique(t + p, p, k + 1, 0);
  }

  lemma MulMonotone(a: int, b: int, p: int)
    requires p > 0 && a <= b
    ensures a * p <= b * p
  {
    var d := b - a;
    assert b * p == a * p + d * p;
    assert d * p >= 0;
  }

  lemma MulAtLeast(d: int, p: int)
    requires p > 0 && d >= 1
    ensures d * p >= p
  {
    MulMonotone(1, d, p);
  }

  /** Euclidean division is unique: a quotient and a remainder in range are the ones. */
  lemma DivModUnique(t: int, p: int, q: int, r: int)
    requires p > 0 && 0 <= r < p && t == q * p + r
    ensures t % p == r && t / p == q
  {
    var q0, r0 := t / p, t % p;
    assert t == q0 * p + r0;
    var d := q - q0;
    assert d * p == q * p - q0 * p;
    assert d * p == r0 - r;
    if d >= 1 {
      MulAtLeast(d, p);
    } else if d <= -1 {
      MulAtLeast(-d, p);
    }
  }

  /** Rotation is due once the clock is strictly after the switch time
      (Time.After, rotate/logger.go:154). */
  predicate Due(now: nat, switchTime: nat)
  {
    now > switchTime
  }

  /** The next switch time once a rotation has happened (rotate/logger.go:234-239).
      The schedule keeps its cadence, one period on, unless the logger was idle
      for more than a period; then it re-anchors on the window of `now` exactly
      as construction does, so missed windows are not replayed. */
  function Advance(last: nat, now: nat, p: nat): (r: nat)
    requires p > 0
    ensures r > last && r >= now
    ensures r == last + p <==> now <= last + p
    ensures now > last + p ==> r == InitialSwitch(now, p)
    ensures Due(now, last) ==> r <= now + p
    ensures Aligned(last, p) ==> Aligned(r, p)
  {
    if last + p < now then
      InitialSwitch(now, p)
    else
      assert Aligned(last, p) ==> Aligned(last + p, p) by {
        if Aligned(last, p) { ShiftAligned(last, p); }
      }
      last + p
  }
}
