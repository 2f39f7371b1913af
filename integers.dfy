/** Integer helpers shared by the catalogue, the distance and the annealing counters:
    absolute value, the sum of a list, and the facts about `%` that the proofs need.
    Dafny's `%` on `int` with a positive modulus is never negative, as Python's is. */
module Integers {

  function Abs(x: int): (r: nat)
    ensures r == x || r == -x
  {
    if x < 0 then -x else x
  }

  /** Python's `sum` of a list of integers. */
  function Sum(s: seq<int>): int
  {
    if s == [] then 0 else s[0] + Sum(s[1..])
  }

  /** Replacing one element changes the sum by exactly the difference. */
  lemma {:induction false} SumUpdate(s: seq<int>, k: nat, v: int)
    requires k < |s|
    ensures Sum(s[k := v]) == Sum(s) - s[k] + v
  {
    if k == 0 {
      assert s[k := v][1..] == s[1..];
    } else {
      assert s[k := v][1..] == s[1..][k - 1 := v];
      SumUpdate(s[1..], k - 1, v);
    }
  }

  /** A positive multiple of a positive number is at least that number. */
  lemma {:induction false} MulAtLeast(a: int, n: int)
    requires a >= 1 && n > 0
    ensures a * n >= n
  {
    if a > 1 {
      MulAtLeast(a - 1, n);
      assert a * n == (a - 1) * n + n;
    }
  }

  /** `%` is determined by any quotient/remainder pair with the remainder in range. */
  lemma {:induction false} ModUnique(x: int, n: int, q: int, r: int)
    requires n > 0 && 0 <= r < n && x == q * n + r
    ensures x % n == r && x / n == q
  {
    var d, m := x / n, x % n;
    assert x == d * n + m;
    assert (q - d) * n == q * n - d * n;
    if q > d {
      MulAtLeast(q - d, n);
    } else if q < d {
      MulAtLeast(d - q, n);
    }
  }

  /** Python's `%`: the remainder takes the sign of the modulus. It is Dafny's `%` for a
      positive modulus, and lies in (m, 0] for a negative one. */
  function PyMod(x: int, m: int): (r: int)
    requires m != 0
    ensures m > 0 ==> r == x % m
    ensures m < 0 ==> m < r <= 0 && (x - r) % -m == 0
  {
    if m > 0 then x % m
    else
      var p, y := -m, -x;
      assert x + y % p == -(y / p) * p;
      ModUnique(x + y % p, p, -(y / p), 0);
      -(y % p)
  }

  /** Adding a multiple of the modulus does not change the remainder. */
  lemma {:induction false} ModAddMultiple(x: int, k: int, n: int)
    requires n > 0
    ensures (x + k * n) % n == x % n
  {
    ModUnique(x + k * n, n, x / n + k, x % n);
  }

  /** Reducing an operand first does not change the remainder of a sum. */
  lemma {:induction false} ModOfReduced(x: int, y: int, n: int)
    requires n > 0
    ensures (x % n + y) % n == (x + y) % n
  {
    ModAddMultiple(x % n + y, x / n, n);
  }

  /** `a` and `b` leave the same remainder modulo `m`. */
  predicate Congruent(a: int, b: int, m: int)
    requires m > 0
  {
    (a - b) % m == 0
  }

  /** Congruent numbers leave the same remainder. */
  lemma CongruentSameRemainder(a: int, b: int, m: int)
    requires m > 0 && Congruent(a, b, m)
    ensures a % m == b % m
  {
    var k := (a - b) / m;
    assert a - b == k * m;
    assert a == (b / m + k) * m + b % m;
    ModUnique(a, m, b / m + k, b % m);
  }

  /** A number differs from its remainder by a multiple of the modulus. */
  lemma CongruentReduced(x: int, m: int)
    requires m > 0
    ensures Congruent(x % m, x, m)
  {
    ModUnique(x % m - x, m, -(x / m), 0);
  }

  /** Congruence is kept by sums and differences of congruent pairs. */
  lemma CongruentAddSub(a: int, b: int, c: int, d: int, m: int)
    requires m > 0 && Congruent(a, b, m) && Congruent(c, d, m)
    ensures Congruent(a + c, b + d, m) && Congruent(a - c, b - d, m)
  {
    var q1, q2 := (a - b) / m, (c - d) / m;
    assert a - b == q1 * m && c - d == q2 * m;
    assert (a + c) - (b + d) == (q1 + q2) * m;
    assert (a - c) - (b - d) == (q1 - q2) * m;
    ModUnique((a + c) - (b + d), m, q1 + q2, 0);
    ModUnique((a - c) - (b - d), m, q1 - q2, 0);
  }

  lemma CongruentTrans(a: int, b: int, c: int, m: int)
    requires m > 0 && Congruent(a, b, m) && Congruent(b, c, m)
    ensures Congruent(a, c, m)
  {
    CongruentAddSub(a, b, b, c, m);
    assert (a + b) - (b + c) == a - c;
  }

  /** Taking congruent parts from congruent totals leaves congruent remainders. */
  lemma CongruentRemainder(total1: int, part1: int, x: int, total2: int, part2: int, y: int, m: int)
    requires m > 0 && Congruent(total1, total2, m) && Congruent(part1, part2, m)
    requires total1 == part1 + x && total2 == part2 + y
    ensures Congruent(x, y, m)
  {
    CongruentAddSub(total1, total2, part1, part2, m);
    assert total1 - part1 == x && total2 - part2 == y;
  }

  /** A shift `s` followed by a shift `d` that cancels it ends congruent to the start. */
  lemma CongruentCancel(x: int, y: int, z: int, s: int, d: int, m: int)
    requires m > 0 && s + d == 0 && Congruent(y, z + s, m) && Congruent(x, y + d, m)
    ensures Congruent(x, z, m)
  {
    CongruentAddSub(y, z + s, d, d, m);
    assert z + s + d == z;
    CongruentTrans(x, y + d, z, m);
  }

  /** The sum of a list is the sum of all but its last element plus that element. */
  lemma {:induction false} SumLast(s: seq<int>)
    requires s != []
    ensures Sum(s) == Sum(s[..|s| - 1]) + s[|s| - 1]
  {
    if |s| > 1 {
      assert s[1..][..|s[1..]| - 1] == s[..|s| - 1][1..];
      SumLast(s[1..]);
    }
  }

  /** Lists congruent position by position have congruent sums. */
  lemma {:induction false} SumCongruent(u: seq<int>, v: seq<int>, m: int)
    requires m > 0 && |u| == |v|
    requires forall k :: 0 <= k < |u| ==> Congruent(u[k], v[k], m)
    ensures Congruent(Sum(u), Sum(v), m)
  {
    if u == [] {
      assert Sum(u) - Sum(v) == 0;
    } else {
      SumCongruent(u[1..], v[1..], m);
      CongruentAddSub(u[0], v[0], Sum(u[1..]), Sum(v[1..]), m);
    }
  }
}
