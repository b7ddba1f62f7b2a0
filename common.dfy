/** Building blocks shared by the three sensor-system variants: alarm
    severities, the `max(min, min(max, v))` clamp and the bounded FIFO
    history buffer (`append` followed by `pop(0)` past a capacity). */
module Common {

  datatype Option<T> = None | Some(value: T)

  /** Alarm severities, in escalation order. */
  datatype Severity = Medium | High | Critical

  function Min(a: real, b: real): (r: real)
    ensures r <= a && r <= b && (r == a || r == b)
  {
    if a <= b then a else b
  }

  function Max(a: real, b: real): (r: real)
    ensures r >= a && r >= b && (r == a || r == b)
  {
    if a >= b then a else b
  }

  function Abs(x: real): (r: real)
    ensures r >= 0.0 && (r == x || r == -x)
  {
    if x >= 0.0 then x else -x
  }

  /** Python's `max(lo, min(hi, v))`: the value pulled into `[lo, hi]`. */
  function Clamp(v: real, lo: real, hi: real): (r: real)
    ensures lo <= hi ==> lo <= r <= hi
    ensures lo <= v <= hi ==> r == v
    ensures lo <= hi && v < lo ==> r == lo
    ensures lo <= hi && v > hi ==> r == hi
  {
    Max(lo, Min(hi, v))
  }

  /** Python's `int(x)` on a float: truncation toward zero. */
  function Truncate(x: real): (r: int)
    ensures x >= 0.0 ==> r as real <= x < r as real + 1.0
    ensures x < 0.0 ==> r as real - 1.0 < x <= r as real
  {
    if x >= 0.0 then x.Floor else -((-x).Floor)
  }

  /** Python's `x % m` for a positive float modulus: the remainder takes the
      sign of the divisor, so it lies in `[0, m)`. */
  function FloorMod(x: real, m: real): (r: real)
    requires m > 0.0
    ensures 0.0 <= r < m
    ensures 0.0 <= x < m ==> r == x
  {
    FloorBounds(x, m);
    x - (x / m).Floor as real * m
  }

  /** Adding one modulus does not change the remainder. */
  lemma FloorModShift(x: real, m: real)
    requires m > 0.0
    ensures FloorMod(x + m, m) == FloorMod(x, m)
  {
    var q := x / m;
    var r := (x + m) / m;
    assert q * m == x && r * m == x + m;
    var e := r - q - 1.0;
    assert e * m == r * m - q * m - m == 0.0;
    ProductSign(e, m);
    ProductSign(-e, m);
    assert (-e) * m == -(e * m);
    assert r == q + 1.0;
    assert r.Floor == q.Floor + 1;
  }

  /** `k = floor(x / m)` is the multiple of `m` just below `x`. */
  lemma FloorBounds(x: real, m: real)
    requires m > 0.0
    ensures (x / m).Floor as real * m <= x < (x / m).Floor as real * m + m
    ensures 0.0 <= x < m ==> (x / m).Floor == 0
  {
    var q := x / m;
    ScaledBounds(x, m, q, q.Floor as real);
    if 0.0 <= x < m {
      assert 0.0 <= q < 1.0 by { QuotientInUnit(x, m, q); }
    }
  }

  lemma ScaledBounds(x: real, m: real, q: real, k: real)
    requires m > 0.0 && x == q * m
    ensures k <= q ==> k * m <= x
    ensures q < k + 1.0 ==> x < k * m + m
  {
    var below := q - k;
    assert below * m == x - k * m;
    if k <= q {
      assert below * m >= 0.0;
    }
    var above := k + 1.0 - q;
    assert above * m == k * m + m - x;
    if q < k + 1.0 {
      assert above * m > 0.0;
    }
  }

  lemma QuotientInUnit(x: real, m: real, q: real)
    requires m > 0.0 && x == q * m
    ensures 0.0 <= x < m ==> 0.0 <= q < 1.0
  {
    ProductSign(q, m);
  }

  lemma ProductSign(q: real, m: real)
    requires m > 0.0
    ensures q < 0.0 ==> q * m < 0.0
    ensures q >= 1.0 ==> q * m >= m
  {
    var over := q - 1.0;
    assert over * m == q * m - m;
    if q >= 1.0 {
      assert over * m >= 0.0;
    }
  }

  /** The `n` most recent elements of `s` (all of `s` when it is shorter);
      Python's `s[-n:]` for `n > 0`. Python's `s[-0:]` is all of `s`, which
      differs at `n == 0`; every caller trims to a positive size. */
  function Newest<T>(s: seq<T>, n: nat): (r: seq<T>)
    ensures |r| == if |s| <= n then |s| else n
    ensures r == s[|s| - |r|..]
  {
    if |s| <= n then s else s[|s| - n..]
  }

  /** One history update: append `x`, then drop the oldest entry when the
      buffer has grown past `cap`. */
  function Push<T>(h: seq<T>, x: T, cap: nat): (r: seq<T>)
    requires cap > 0
    ensures |h| < cap ==> r == h + [x]
    ensures |h| >= cap ==> r == h[1..] + [x]
    ensures |h| <= cap ==> |r| <= cap && r == Newest(h + [x], cap)
  {
    var appended := h + [x];
    if |appended| > cap then appended[1..] else appended
  }

  /** The buffer after pushing every element of `xs` in order. */
  function PushAll<T>(h: seq<T>, xs: seq<T>, cap: nat): seq<T>
    requires cap > 0
    decreases |xs|
  {
    if xs == [] then h else PushAll(Push(h, xs[0], cap), xs[1..], cap)
  }

  /** However many readings are pushed, a buffer that starts within its
      capacity holds exactly the `cap` most recent ones, oldest first. */
  lemma {:induction false} PushAllKeepsNewest<T>(h: seq<T>, xs: seq<T>, cap: nat)
    requires cap > 0 && |h| <= cap
    ensures PushAll(h, xs, cap) == Newest(h + xs, cap)
    decreases |xs|
  {
    if xs == [] {
      assert h + xs == h;
    } else {
      var h1 := Push(h, xs[0], cap);
      PushAllKeepsNewest(h1, xs[1..], cap);
      NewestOfNewest(h + [xs[0]], xs[1..], cap);
      assert (h + [xs[0]]) + xs[1..] == h + xs;
    }
  }

  /** Trimming to the newest `n` before appending more does not change the
      newest `n` of the whole. */
  lemma NewestOfNewest<T>(s: seq<T>, t: seq<T>, n: nat)
    ensures Newest(Newest(s, n) + t, n) == Newest(s + t, n)
  {
    var u := Newest(s, n);
    var a := Newest(u + t, n);
    var b := Newest(s + t, n);
    assert |a| == |b|;
    forall k | 0 <= k < |a| ensures a[k] == b[k] {
      var ia := |u + t| - |a| + k;
      var ib := |s + t| - |b| + k;
      if ib < |s| {
        assert (s + t)[ib] == s[ib];
        assert (u + t)[ia] == u[ia];
      } else {
        assert (s + t)[ib] == t[ib - |s|];
        assert (u + t)[ia] == t[ia - |u|];
      }
    }
  }
}
