/**
  Pure arithmetic of one wavetable oscillator: the C++ conversions and `std::fmod`
  the oscillator relies on, the phase state, one phase step and linear interpolation
  into the wave table. Samples and phases are modelled as mathematical reals.
 */
module OscillatorMath {

  /** `static_cast<int>(x)` on a floating-point value: truncation toward zero. */
  function Trunc(x: real): (t: int)
    ensures x >= 0.0 ==> t >= 0 && t as real <= x < t as real + 1.0
    ensures x < 0.0 ==> t <= 0 && t as real - 1.0 < x <= t as real
  {
    if x >= 0.0 then x.Floor else -((-x).Floor)
  }

  lemma MulNonneg(u: real, v: real)
    requires u >= 0.0 && v >= 0.0
    ensures u * v >= 0.0
  {
  }

  lemma MulPos(u: real, v: real)
    requires u > 0.0 && v > 0.0
    ensures u * v > 0.0
  {
  }

  /**
    `std::fmod(x, y)`: x minus the quotient x / y truncated toward zero, times y.
    The result has the sign of x, is smaller than y in magnitude, and differs
    from x by a whole multiple of y.
   */
  function Fmod(x: real, y: real): (r: real)
    requires y > 0.0
    ensures x >= 0.0 ==> 0.0 <= r < y
    ensures x < 0.0 ==> -y < r <= 0.0
    ensures ((x - r) / y).Floor as real == (x - r) / y
    ensures 0.0 <= x < y ==> r == x
    ensures y <= x < 2.0 * y ==> r == x - y
  {
    FmodBounds(x, y);
    x - y * Trunc(x / y) as real
  }

  lemma FmodBounds(x: real, y: real)
    requires y > 0.0
    ensures var r := x - y * Trunc(x / y) as real;
            && (x >= 0.0 ==> 0.0 <= r < y)
            && (x < 0.0 ==> -y < r <= 0.0)
            && ((x - r) / y).Floor as real == (x - r) / y
            && (0.0 <= x < y ==> r == x)
            && (y <= x < 2.0 * y ==> r == x - y)
  {
    var r := x - y * Trunc(x / y) as real;
    FmodNonnegative(x, y, r);
    FmodNegative(x, y, r);
    FmodMultiple(x, y, r);
    if 0.0 <= x < y {
      QuotientBounds(x, y, 0.0, 1.0);
    }
    if y <= x < 2.0 * y {
      QuotientBounds(x, y, 1.0, 2.0);
    }
  }

  lemma FmodNonnegative(x: real, y: real, r: real)
    requires y > 0.0 && r == x - y * Trunc(x / y) as real
    ensures x >= 0.0 ==> 0.0 <= r < y
  {
    QuotientTimesDivisor(x, y);
    if x >= 0.0 {
      RemainderBounds(x, y, x / y, Trunc(x / y) as real, Trunc(x / y) as real + 1.0);
    }
  }

  lemma FmodNegative(x: real, y: real, r: real)
    requires y > 0.0 && r == x - y * Trunc(x / y) as real
    ensures x < 0.0 ==> -y < r <= 0.0
  {
    QuotientTimesDivisor(x, y);
    if x < 0.0 {
      RemainderBounds(x, y, x / y, Trunc(x / y) as real - 1.0, Trunc(x / y) as real);
    }
  }

  /** x / y times y is x again, and x / y has the sign of x. */
  lemma QuotientTimesDivisor(x: real, y: real)
    requires y > 0.0
    ensures (x / y) * y == x
    ensures x >= 0.0 <==> x / y >= 0.0
  {
  }

  /**
    If x = q * y with lo <= q <= hi = lo + 1 and y positive, then x lies between
    the multiples y * lo and y * hi, strictly where q does.
   */
  lemma RemainderBounds(x: real, y: real, q: real, lo: real, hi: real)
    requires y > 0.0 && q * y == x && lo <= q <= hi && hi == lo + 1.0
    ensures 0.0 <= x - y * lo <= y && -y <= x - y * hi <= 0.0
    ensures q < hi ==> x - y * lo < y
    ensures lo < q ==> -y < x - y * hi
  {
    AboveMultiple(x, y, q, lo);
    BelowMultiple(x, y, q, hi);
    assert y * hi == y * lo + y;
  }

  /** x = q * y with lo <= q and y positive is at least y * lo, strictly when lo < q. */
  lemma AboveMultiple(x: real, y: real, q: real, lo: real)
    requires y > 0.0 && q * y == x && lo <= q
    ensures y * lo <= x && (lo < q ==> y * lo < x)
  {
    assert (q - lo) * y == x - y * lo;
    if lo < q {
      MulPos(q - lo, y);
    } else {
      MulNonneg(q - lo, y);
    }
  }

  /** x = q * y with q <= hi and y positive is at most y * hi, strictly when q < hi. */
  lemma BelowMultiple(x: real, y: real, q: real, hi: real)
    requires y > 0.0 && q * y == x && q <= hi
    ensures x <= y * hi && (q < hi ==> x < y * hi)
  {
    assert (hi - q) * y == y * hi - x;
    if q < hi {
      MulPos(hi - q, y);
    } else {
      MulNonneg(hi - q, y);
    }
  }

  lemma FmodMultiple(x: real, y: real, r: real)
    requires y > 0.0 && r == x - y * Trunc(x / y) as real
    ensures ((x - r) / y).Floor as real == (x - r) / y
  {
    var t := Trunc(x / y);
    assert x - r == y * t as real;
    assert (y * t as real) / y == t as real;
  }

  /** Dividing lo * y <= x < hi * y by a positive y. */
  lemma QuotientBounds(x: real, y: real, lo: real, hi: real)
    requires y > 0.0 && lo * y <= x < hi * y
    ensures lo <= x / y < hi
  {
    var q := x / y;
    assert (x - lo * y) / y == q - lo;
    assert (hi * y - x) / y == hi - q;
  }

  /**
    The phase increment that runs through a table of `size` entries `frequency`
    times per second at `sampleRate` samples per second.
   */
  function IncrementFor(frequency: real, size: nat, sampleRate: real): (inc: real)
    requires sampleRate > 0.0
    ensures frequency >= 0.0 ==> inc >= 0.0
    ensures inc != 0.0 <==> frequency != 0.0 && size > 0
  {
    IncrementSign(frequency, size as real, sampleRate);
    frequency * size as real / sampleRate
  }

  lemma IncrementSign(f: real, n: real, r: real)
    requires r > 0.0 && n >= 0.0
    ensures f >= 0.0 ==> f * n / r >= 0.0
    ensures f * n / r != 0.0 <==> f != 0.0 && n > 0.0
  {
    if f > 0.0 && n > 0.0 {
      MulPos(f, n);
    } else if f < 0.0 && n > 0.0 {
      MulPos(-f, n);
    }
  }

  /** The phase state of one oscillator: `index` and `indexIncrement`. */
  datatype OscState = OscState(index: real, increment: real) {
    /** The oscillator's only notion of "playing": a non-zero increment. */
    predicate Playing() {
      increment != 0.0
    }
  }

  /** The state of a freshly constructed or stopped oscillator. */
  const Stopped := OscState(0.0, 0.0)

  /**
    The states the oscillator stays in: a non-negative increment and a phase in
    [0, size). An oscillator over an empty table never takes a sample and its
    phase stays 0; the bound is then 1 so that phase 0 is admitted.
   */
  predicate InRange(s: OscState, size: nat) {
    0.0 <= s.increment && 0.0 <= s.index < (if size == 0 then 1.0 else size as real)
  }

  /** The phase update of one `getSample()` call: add the increment, wrap with fmod. */
  function Step(s: OscState, size: nat): (r: OscState)
    requires size > 0 && InRange(s, size)
    ensures InRange(r, size) && r.increment == s.increment
    ensures ((s.index + s.increment - r.index) / size as real).Floor as real
            == (s.index + s.increment - r.index) / size as real
    ensures s.index + s.increment < size as real ==> r.index == s.index + s.increment
  {
    OscState(Fmod(s.index + s.increment, size as real), s.increment)
  }

  /** The state after n successive `getSample()` calls. */
  function StepN(s: OscState, size: nat, n: nat): (r: OscState)
    requires size > 0 && InRange(s, size)
    ensures InRange(r, size) && r.increment == s.increment
    decreases n
  {
    if n == 0 then s else Step(StepN(s, size, n - 1), size)
  }

  /** The first table entry used by the interpolation: the phase truncated to an int. */
  function TruncatedIndex(index: real, size: nat): (t: nat)
    requires 0.0 <= index < size as real
    ensures t < size
    ensures t as real <= index < t as real + 1.0
  {
    Trunc(index)
  }

  /** The second table entry used: the successor of the truncated index, modulo the table size. */
  function NextIndex(index: real, size: nat): (n: nat)
    requires 0.0 <= index < size as real
    ensures n < size
    ensures n == 0 <==> index >= (size - 1) as real
    ensures n != 0 ==> n == TruncatedIndex(index, size) + 1
  {
    var t := TruncatedIndex(index, size);
    WrapSuccessor(t, size);
    assert t + 1 == size <==> index >= (size - 1) as real;
    (t + 1) % size
  }

  /** The successor of t < size, modulo size: t + 1, or 0 when t is the last position. */
  lemma WrapSuccessor(t: nat, size: nat)
    requires t < size
    ensures (t + 1) % size == if t + 1 == size then 0 else t + 1
  {
  }

  /**
    Linear interpolation between the entries at the truncated and the next index,
    weighted by the fractional part of the phase. The result lies between the
    two entries.
   */
  function Interpolate(table: seq<real>, index: real): (r: real)
    requires 0.0 <= index < |table| as real
    ensures var a, b := table[TruncatedIndex(index, |table|)], table[NextIndex(index, |table|)];
            (a <= r <= b) || (b <= r <= a)
  {
    var truncatedIndex := TruncatedIndex(index, |table|);
    var nextIndex := NextIndex(index, |table|);
    var nextIndexWeight := index - truncatedIndex as real;
    var truncatedIndexWeight := 1.0 - nextIndexWeight;
    WeightedSumBetween(table[truncatedIndex], table[nextIndex], nextIndexWeight);
    truncatedIndexWeight * table[truncatedIndex] + nextIndexWeight * table[nextIndex]
  }

  /** (1 - w) * a + w * b lies between a and b for a weight w in [0, 1). */
  lemma WeightedSumBetween(a: real, b: real, w: real)
    requires 0.0 <= w < 1.0
    ensures var r := (1.0 - w) * a + w * b; (a <= r <= b) || (b <= r <= a)
  {
    var r := (1.0 - w) * a + w * b;
    assert r == a + w * (b - a);
    if a <= b {
      MulNonneg(w, b - a);
      MulNonneg(1.0 - w, b - a);
      assert (1.0 - w) * (b - a) == (b - a) - w * (b - a);
    } else {
      MulNonneg(w, a - b);
      MulNonneg(1.0 - w, a - b);
      assert w * (b - a) == -(w * (a - b));
      assert (1.0 - w) * (a - b) == (a - b) - w * (a - b);
    }
  }

  /** At an integer phase k the interpolation returns exactly table[k] (weights 1 and 0). */
  lemma InterpolateAtInteger(table: seq<real>, k: nat)
    requires k < |table|
    ensures Interpolate(table, k as real) == table[k]
  {
    assert TruncatedIndex(k as real, |table|) == k;
  }

  /** A stopped oscillator stays at phase 0 and keeps yielding table[0]. */
  lemma StoppedIsFixed(table: seq<real>, n: nat)
    requires |table| > 0
    ensures StepN(Stopped, |table|, n) == Stopped
    ensures Interpolate(table, StepN(Stopped, |table|, n).index) == table[0]
  {
    NotPlayingIsFixed(Stopped, |table|, n);
    InterpolateAtInteger(table, 0);
  }

  /**
    An oscillator that is not playing does not loop over its table: however many
    `getSample()` calls are made, its phase stays where it is.
   */
  lemma {:induction false} NotPlayingIsFixed(s: OscState, size: nat, n: nat)
    requires size > 0 && InRange(s, size) && !s.Playing()
    ensures StepN(s, size, n) == s
  {
    if n > 0 {
      NotPlayingIsFixed(s, size, n - 1);
    }
  }

  /**
    With an increment of exactly 1 starting from phase 0, the phase after k < size
    steps is k, and after size steps it is back at 0: one full cycle of the table.
   */
  lemma {:induction false} UnitIncrementCycle(size: nat, k: nat)
    requires 0 < size && k <= size
    ensures StepN(OscState(0.0, 1.0), size, k) == OscState(if k == size then 0.0 else k as real, 1.0)
  {
    if k > 0 {
      UnitIncrementCycle(size, k - 1);
      var s := OscState((k - 1) as real, 1.0);
      assert StepN(OscState(0.0, 1.0), size, k) == Step(s, size);
      FmodBounds(k as real, size as real);
    }
  }
}
