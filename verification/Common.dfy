/** Small shared vocabulary: optional values and integer arithmetic as the source writes it. */
module Common {

  datatype Option<+T> = None | Some(value: T)

  function Max(a: int, b: int): int { if a >= b then a else b }

  function Min(a: int, b: int): int { if a <= b then a else b }

  /** `math.ceil(a / b)` on naturals. */
  function CeilDiv(a: nat, b: nat): nat
    requires b > 0
  {
    (a + b - 1) / b
  }

  lemma CeilDivCovers(a: nat, b: nat)
    requires b > 0
    ensures a <= CeilDiv(a, b) * b
  {
    var x := a + b - 1;
    assert x == x / b * b + x % b;
  }

  lemma BelowOne(x: int, b: nat)
    requires x * b < b
    ensures x < 1
  {
  }

  lemma QuotientGrows(a: nat, a': nat, b: nat)
    requires b > 0 && a <= a'
    ensures a / b <= a' / b
  {
    var q, q' := a / b, a' / b;
    assert a == q * b + a % b && a' == q' * b + a' % b;
    assert (q - q') * b == q * b - q' * b < b;
    BelowOne(q - q', b);
  }

  /** `a < n / b` without the division. */
  lemma BelowQuotient(a: int, n: nat, b: nat)
    requires b > 0
    ensures a < n / b <==> (a + 1) * b <= n
  {
    var q := n / b;
    assert n == q * b + n % b;
    assert (a + 1 - q) * b == (a + 1) * b - q * b;
    if (a + 1) * b <= n {
      BelowOne(a + 1 - q, b);
    } else if a < q {
      AtMost(a + 1, q, b);
    }
  }

  lemma AtMost(a: int, q: int, b: nat)
    requires a <= q
    ensures a * b <= q * b
  {
  }

  /** A share of at most one grows no faster than the whole. */
  lemma ShareSlope(b: nat, b': nat, n: nat, d: nat)
    requires d > 0 && n <= d && b <= b'
    ensures b * n / d <= b' * n / d <= b * n / d + (b' - b)
  {
    ShareBounds(b, b' - b, n, d);
    SlopeOf(b * n, b' * n, b' - b, d);
  }

  lemma ShareBounds(b: nat, k: nat, n: nat, d: nat)
    requires n <= d
    ensures b * n <= (b + k) * n <= b * n + k * d
  {
    assert (b + k) * n == b * n + k * n;
    assert k * n <= k * d;
  }

  lemma SlopeOf(x: nat, y: nat, k: nat, d: nat)
    requires d > 0 && x <= y <= x + k * d
    ensures x / d <= y / d <= x / d + k
  {
    QuotientGrows(x, y, d);
    QuotientGrows(y, x + k * d, d);
    QuotientShift(x, k, d);
  }

  lemma QuotientShift(x: nat, k: nat, d: nat)
    requires d > 0
    ensures (x + k * d) / d == x / d + k
  {
    var q, p := x / d, (x + k * d) / d;
    assert x == q * d + x % d && x + k * d == p * d + (x + k * d) % d;
    assert (p - q - k) * d == p * d - q * d - k * d;
    assert (q + k - p) * d == q * d + k * d - p * d;
    BelowOne(p - q - k, d);
    BelowOne(q + k - p, d);
  }

  lemma CeilDivLeast(a: nat, b: nat, n: nat)
    requires b > 0 && a <= n * b
    ensures CeilDiv(a, b) <= n
  {
    var q := CeilDiv(a, b);
    assert a + b - 1 == q * b + (a + b - 1) % b;
    assert (q - n) * b == q * b - n * b < b;
    BelowOne(q - n, b);
  }

  lemma CeilDivGrows(a: nat, a': nat, b: nat)
    requires b > 0 && a <= a'
    ensures CeilDiv(a, b) <= CeilDiv(a', b)
  {
    QuotientGrows(a + b - 1, a' + b - 1, b);
  }
}

/** The Redis list commands that the control plane uses, on values. */
module RedisLists {

  /** `LREM key 1 x`: remove the first occurrence. */
  function LRem<T(==)>(xs: seq<T>, x: T): seq<T> {
    if xs == [] then []
    else if xs[0] == x then xs[1..]
    else [xs[0]] + LRem(xs[1..], x)
  }

  /** LREM takes away exactly one occurrence, and none when there is none. */
  lemma {:induction false} LRemCounts<T>(xs: seq<T>, x: T)
    ensures multiset(LRem(xs, x)) == multiset(xs) - multiset{x}
    ensures |LRem(xs, x)| == if x in xs then |xs| - 1 else |xs|
  {
    if xs != [] {
      assert xs == [xs[0]] + xs[1..];
      if xs[0] != x {
        LRemCounts(xs[1..], x);
      }
    }
  }
}
