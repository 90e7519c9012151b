/** The key pool both scrapers rotate. `deque.rotate(-1)` moves the front key to
    the back; the scraper's current key is then the new front. */
module KeyRotation {

  /** One left rotation. An empty pool stays empty, as `deque.rotate` leaves it. */
  function RotateLeft<T>(s: seq<T>): (r: seq<T>)
    ensures |r| == |s|
  {
    if s == [] then s else s[1..] + [s[0]]
  }

  /** The pool after `m` rotations. */
  function Rotated<T>(s: seq<T>, m: nat): (r: seq<T>)
    ensures |r| == |s|
  {
    if m == 0 then s else RotateLeft(Rotated(s, m - 1))
  }

  lemma MulAtLeast(a: int, n: int)
    requires a >= 1 && n > 0
    ensures a * n >= n
  {
    assert a * n == (a - 1) * n + n;
    assert (a - 1) * n >= 0;
  }

  /** The remainder is the only `r` in `[0, n)` with `m == d * n + r`. */
  lemma ModUnique(m: nat, n: nat, d: int, r: int)
    requires n > 0 && 0 <= r < n && m == d * n + r
    ensures m % n == r
  {
    assert m == (m / n) * n + m % n;
    assert (d - m / n) * n == d * n - (m / n) * n;
    if d > m / n {
      MulAtLeast(d - m / n, n);
    } else if d < m / n {
      MulAtLeast(m / n - d, n);
    }
  }

  /** Removing one `n` keeps the remainder. */
  lemma ModShift(m: nat, n: nat)
    requires 0 < n <= m
    ensures m % n == (m - n) % n
  {
    var d, r := (m - n) / n, (m - n) % n;
    assert m - n == d * n + r;
    assert (d + 1) * n == d * n + n;
    ModUnique(m, n, d + 1, r);
  }

  /** Fewer than `n` is its own remainder. */
  lemma ModSmall(m: nat, n: nat)
    requires m < n
    ensures m % n == m
  {
    ModUnique(m, n, 0, m);
  }

  /** One more rotation of a pool split at `q` splits it at `q + 1`. */
  lemma RotateSplitOnce<T>(s: seq<T>, q: nat)
    requires q < |s|
    ensures RotateLeft(s[q..] + s[..q]) == s[q + 1..] + s[..q + 1]
  {
    var t := s[q..] + s[..q];
    assert t[0] == s[q];
    assert t[1..] == s[q + 1..] + s[..q];
    assert s[..q + 1] == s[..q] + [s[q]];
  }

  /** Fewer than a full cycle of rotations split the pool at the count. */
  lemma {:induction false} RotatedPrefix<T>(s: seq<T>, k: nat)
    requires k <= |s|
    ensures Rotated(s, k) == s[k..] + s[..k]
  {
    if k == 0 {
      assert s[0..] + s[..0] == s;
    } else {
      RotatedPrefix(s, k - 1);
      RotateSplitOnce(s, k - 1);
    }
  }

  /** Rotations compose by adding their counts. */
  lemma {:induction false} RotatedCompose<T>(s: seq<T>, a: nat, b: nat)
    ensures Rotated(s, a + b) == Rotated(Rotated(s, a), b)
  {
    if b > 0 {
      RotatedCompose(s, a, b - 1);
      assert Rotated(s, a + b) == RotateLeft(Rotated(s, a + b - 1));
    }
  }

  /** After `m` rotations the pool starts at the key `m mod |s|` of the original. */
  lemma {:induction false} RotatedSplit<T>(s: seq<T>, m: nat)
    requires |s| > 0
    ensures Rotated(s, m) == s[m % |s|..] + s[..m % |s|]
    decreases m
  {
    var n := |s|;
    if m < n {
      ModSmall(m, n);
      RotatedPrefix(s, m);
    } else {
      RotatedSplit(s, m - n);
      RotatedPrefix(s, n);
      assert Rotated(s, n) == s by { assert s[n..] + s[..n] == s; }
      RotatedCompose(s, n, m - n);
      ModShift(m, n);
    }
  }

  /** The current key after `m` rotations, and the pool keeps its size and keys. */
  lemma {:induction false} RotatedFront<T>(s: seq<T>, m: nat)
    requires |s| > 0
    ensures |Rotated(s, m)| == |s|
    ensures multiset(Rotated(s, m)) == multiset(s)
    ensures Rotated(s, m)[0] == s[m % |s|]
  {
    RotatedSplit(s, m);
    var q := m % |s|;
    var front, back := s[q..], s[..q];
    assert Rotated(s, m) == front + back;
    assert (front + back)[0] == front[0] == s[q];
    calc {
      multiset(front + back);
      multiset(front) + multiset(back);
      multiset(back + front);
      { assert back + front == s; }
      multiset(s);
    }
  }

  /** `len(pool)` rotations give back the original order. */
  lemma RotatedFullCycle<T>(s: seq<T>)
    ensures Rotated(s, |s|) == s
  {
    if |s| > 0 {
      RotatedSplit(s, |s|);
      assert s[0..] + s[..0] == s;
    }
  }

  /** Rotating first and then `m` times is `m + 1` rotations. */
  lemma {:induction false} RotatedShift<T>(s: seq<T>, m: nat)
    ensures Rotated(RotateLeft(s), m) == Rotated(s, m + 1)
  {
    if m > 0 {
      RotatedShift(s, m - 1);
    }
  }
}
