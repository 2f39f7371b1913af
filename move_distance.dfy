/** The move distance of the cost analysis (`distance` in cost-analysis/analysis.py): the first
    knot's angles are aligned with the second knot's one position at a time, each time by the
    shortest turn modulo 16, the next angle taking the opposite turn, and the sizes of the turns
    are added up. */
module MoveDistance {
  import opened Integers
  import opened KnotCatalogue

  /** The turn that aligns one angle: the raw difference, brought into [-8, 8] by one
      correction of 16 in either direction. */
  function Normalise(raw: int): (s: int)
    ensures Congruent(s, raw, DEFAULT_PARITY)
    ensures -24 <= raw <= 24 ==> -8 <= s <= 8
    ensures -8 <= raw <= 8 ==> s == raw
  {
    var s := if raw > 8 then raw - 16 else raw;
    if s < -8 then s + 16 else s
  }

  /** The loop of `distance` from position `i` on, over the working copy `c` and the target
      angles `t`: the number of moves it adds up and the copy it leaves. The loop stops before
      the last position of the copy. */
  function Sweep(c: seq<int>, t: seq<int>, i: nat, n: int): (r: (int, seq<int>))
    requires |c| <= |t| + 1 && (|c| >= 2 ==> n != 0)
    decreases |c| - i
    ensures r.0 >= 0 && |r.1| == |c|
  {
    if i + 1 >= |c| then (0, c)
    else
      var s := Normalise(t[i] - c[i]);
      var next := c[i := c[i] + s][i + 1 := PyMod(c[i + 1] - s, n)];
      var rest := Sweep(next, t, i + 1, n);
      (Abs(s) + rest.0, rest.1)
  }

  /** `distance`: -1 for knots of different parities, otherwise the number of moves the sweep
      counts. When the first knot has two or more angles, the second needs all but at most one
      of them, and the catalogue's parity count must not be 0 (the source reduces by it with
      Python's `%`, which takes the sign of a negative count). */
  method Distance(knot1: Knot, knot2: Knot, knotset: KnotSet) returns (moves: int)
    requires knot1.parity == knot2.parity && |knot1.angles| >= 2 ==>
               |knot2.angles| >= |knot1.angles| - 1 && knotset.totalParity != 0
    ensures knot1.parity != knot2.parity ==> moves == -1
    ensures knot1.parity == knot2.parity ==>
              moves == Sweep(knot1.angles, knot2.angles, 0, knotset.totalParity).0
  {
    if knot1.parity != knot2.parity {
      return -1;
    }
    var n := knotset.totalParity;
    var target := knot2.angles;
    var copy := knot1.angles;
    moves := 0;
    var i := 0;
    while i + 1 < |knot1.angles|
      invariant |copy| == |knot1.angles|
      invariant moves + Sweep(copy, target, i, n).0 == Sweep(knot1.angles, target, 0, n).0
      decreases |knot1.angles| - i
    {
      var shift := target[i] - copy[i];
      if shift > 8 {
        shift := shift - 16;
      }
      if shift < -8 {
        shift := shift + 16;
      }
      copy := copy[i := copy[i] + shift];
      if i < |knot1.angles| - 1 {
        copy := copy[i + 1 := PyMod(copy[i + 1] - shift, n)];
      }
      moves := moves + Abs(shift);
      i := i + 1;
    }
  }

  /** Angles at positions `from` up to (not including) `to` lie in [0, bound). */
  predicate InAngleRange(a: seq<int>, from: nat, to: int, bound: int)
  {
    forall k :: from <= k < to && k < |a| ==> 0 <= a[k] < bound
  }

  /** With angles in [0, 16) and a parity count of at most 16, every turn is at most 8, so the
      distance is at most 8 per aligned position. */
  lemma {:induction false} SweepBound(c: seq<int>, t: seq<int>, i: nat, n: int)
    requires |c| <= |t| + 1 && (|c| >= 2 ==> 0 < n <= DEFAULT_PARITY)
    requires InAngleRange(c, i, |c|, DEFAULT_PARITY) && InAngleRange(t, i, |c| - 1, DEFAULT_PARITY)
    ensures 0 <= Sweep(c, t, i, n).0
    ensures i < |c| ==> Sweep(c, t, i, n).0 <= 8 * (|c| - 1 - i)
    decreases |c| - i
  {
    if i + 1 < |c| {
      var s := Normalise(t[i] - c[i]);
      var next := c[i := c[i] + s][i + 1 := (c[i + 1] - s) % n];
      assert -8 <= s <= 8;
      assert InAngleRange(next, i + 1, |next|, DEFAULT_PARITY);
      SweepBound(next, t, i + 1, n);
    }
  }

  /** The copy the sweep leaves has the same length, is untouched before `i`, and agrees with
      the target modulo 16 at every aligned position. */
  lemma {:induction false} SweepAligns(c: seq<int>, t: seq<int>, i: nat, n: int)
    requires |c| <= |t| + 1 && (|c| >= 2 ==> n > 0)
    ensures forall k :: 0 <= k < i && k < |c| ==> Sweep(c, t, i, n).1[k] == c[k]
    ensures forall k :: i <= k < |c| - 1 ==> Congruent(Sweep(c, t, i, n).1[k], t[k], DEFAULT_PARITY)
    decreases |c| - i
  {
    if i + 1 < |c| {
      var s := Normalise(t[i] - c[i]);
      var next := c[i := c[i] + s][i + 1 := (c[i + 1] - s) % n];
      SweepAligns(next, t, i + 1, n);
      var f := Sweep(c, t, i, n).1;
      assert f == Sweep(next, t, i + 1, n).1;
      assert f[i] == c[i] + s;
      CongruentAddSub(s, t[i] - c[i], c[i], c[i], DEFAULT_PARITY);
    }
  }

  /** Each step adds a turn at one position and takes it away, reduced modulo `n`, at the
      next: the angle sum of the copy is kept modulo `n`. */
  lemma {:induction false} SweepKeepsSum(c: seq<int>, t: seq<int>, i: nat, n: int)
    requires |c| <= |t| + 1 && |c| >= 2 && n > 0
    ensures Congruent(Sum(Sweep(c, t, i, n).1), Sum(c), n)
    decreases |c| - i
  {
    if i + 1 < |c| {
      var s := Normalise(t[i] - c[i]);
      var b := c[i := c[i] + s];
      var next := b[i + 1 := (c[i + 1] - s) % n];
      SumUpdate(c, i, c[i] + s);
      SumUpdate(b, i + 1, (c[i + 1] - s) % n);
      CongruentReduced(c[i + 1] - s, n);
      assert Sum(next) - Sum(c) == (c[i + 1] - s) % n - (c[i + 1] - s);
      SweepKeepsSum(next, t, i + 1, n);
      CongruentTrans(Sum(Sweep(next, t, i + 1, n).1), Sum(next), Sum(c), n);
    } else {
      assert Sum(c) - Sum(c) == 0;
    }
  }

  /** Only the target's angles at aligned positions (all but the copy's last) matter: two
      targets that agree there give the same moves and the same copy. */
  lemma {:induction false} SweepOnlyPrefix(c: seq<int>, t: seq<int>, u: seq<int>, i: nat, n: int)
    requires |c| <= |t| + 1 && |c| <= |u| + 1 && (|c| >= 2 ==> n > 0)
    requires forall k :: i <= k < |c| - 1 ==> t[k] == u[k]
    ensures Sweep(c, t, i, n) == Sweep(c, u, i, n)
    decreases |c| - i
  {
    if i + 1 < |c| {
      var s := Normalise(t[i] - c[i]);
      var next := c[i := c[i] + s][i + 1 := (c[i + 1] - s) % n];
      SweepOnlyPrefix(next, t, u, i + 1, n);
    }
  }

  /** For two knots of the same length whose angle sums agree modulo 16, reducing modulo 16
      brings the sweep's copy onto the target everywhere, the last position included although
      the loop never aligns it. */
  lemma SweepReachesTarget(c: seq<int>, t: seq<int>)
    requires |c| == |t| >= 2 && Congruent(Sum(c), Sum(t), DEFAULT_PARITY)
    ensures forall k :: 0 <= k < |c| ==>
              Congruent(Sweep(c, t, 0, DEFAULT_PARITY).1[k], t[k], DEFAULT_PARITY)
  {
    var m := DEFAULT_PARITY;
    var f := Sweep(c, t, 0, m).1;
    var last := |c| - 1;
    var fp, tp := f[..last], t[..last];
    SweepAligns(c, t, 0, m);
    forall k | 0 <= k < |fp|
      ensures Congruent(fp[k], tp[k], m)
    {
      assert fp[k] == f[k] && tp[k] == t[k];
    }
    SumCongruent(fp, tp, m);
    SweepKeepsSum(c, t, 0, m);
    CongruentTrans(Sum(f), Sum(c), Sum(t), m);
    SumLast(f);
    SumLast(t);
    CongruentRemainder(Sum(f), Sum(fp), f[last], Sum(t), Sum(tp), t[last], m);
  }

  /** Lists that agree at every aligned position are distance zero apart under any positive
      parity count, and the sweep leaves the copy as it was: every turn is 0 and the reduced
      next angle is already in [0, n). */
  lemma {:induction false} SweepIdentical(c: seq<int>, t: seq<int>, i: nat, n: int)
    requires |c| <= |t| + 1 && n > 0
    requires InAngleRange(c, i, |c|, n)
    requires forall k :: i <= k < |c| - 1 ==> c[k] == t[k]
    ensures Sweep(c, t, i, n).0 == 0 && Sweep(c, t, i, n).1 == c
    decreases |c| - i
  {
    if i + 1 < |c| {
      ModUnique(c[i + 1], n, 0, c[i + 1]);
      assert c[i := c[i] + 0][i + 1 := c[i + 1] % n] == c;
      SweepIdentical(c, t, i + 1, n);
    }
  }

  /** With the first list's angles in [0, n), the target's in [0, 16) and a parity count of at
      most 16, the distance is zero exactly when the two lists agree at every aligned position
      (all but the last). */
  lemma {:induction false} SweepZeroIff(c: seq<int>, t: seq<int>, i: nat, n: int)
    requires |c| <= |t| + 1 && 0 < n <= DEFAULT_PARITY
    requires InAngleRange(c, i, |c|, n) && InAngleRange(t, i, |c| - 1, DEFAULT_PARITY)
    ensures Sweep(c, t, i, n).0 == 0 <==> forall k :: i <= k < |c| - 1 ==> c[k] == t[k]
    decreases |c| - i
  {
    if i + 1 < |c| {
      var s := Normalise(t[i] - c[i]);
      var next := c[i := c[i] + s][i + 1 := (c[i + 1] - s) % n];
      assert InAngleRange(next, i + 1, |next|, n);
      SweepBound(next, t, i + 1, n);
      SweepZeroIff(next, t, i + 1, n);
      if s == 0 {
        ModUnique(c[i + 1], n, 0, c[i + 1]);
        assert next == c;
      }
    }
  }
}
