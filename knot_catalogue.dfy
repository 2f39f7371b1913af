/** The discrete knot catalogue of the cost analysis (cost-analysis/knot.py).
    A knot is a list of integer angles taken modulo the catalogue's parity count; the catalogue
    keeps its knots in one bucket per parity, finds a knot by its exact angle list, and lists the
    knots one "move" away from a given knot: +-1 at one angle and the opposite at the next one,
    cyclically. */
module KnotCatalogue {
  import opened Integers

  datatype Option<T> = None | Some(value: T)

  /** Bucket count of a catalogue built without a file. The default parity of a lookup and the
      angle comparison of `within_one` use this modulus too, whatever the catalogue's own count. */
  const DEFAULT_PARITY: int := 16

  /** Cost given to a neighbour that the catalogue does not hold. */
  const PLACEHOLDER_COST: real := 3.0

  /** Ranking given to a neighbour that the catalogue does not hold. */
  const PLACEHOLDER_RANKING: int := -1

  // ---------------------------------------------------------------------------------------
  // Angle lists
  // ---------------------------------------------------------------------------------------

  /** Two angles are within one step when they differ by 0, 1 or 15 modulo 16. */
  predicate StepWithinOne(x: int, y: int)
  {
    var diff := Abs(x - y) % DEFAULT_PARITY;
    diff == 0 || diff == 1 || diff == 15
  }

  /** What `within_one` decides: the lists differ, yet every position of the first is within
      one step of the same position of the second (which therefore has that position). */
  predicate AnglesWithinOne(a: seq<int>, b: seq<int>)
  {
    a != b && |a| <= |b| && forall i :: 0 <= i < |a| ==> StepWithinOne(a[i], b[i])
  }

  /** The inputs on which `within_one` indexes past the end of the second list: it is shorter,
      and every position it has passes the test, so the scan reaches its end. */
  predicate WithinOneOverruns(a: seq<int>, b: seq<int>)
  {
    |b| < |a| && forall i :: 0 <= i < |b| ==> StepWithinOne(a[i], b[i])
  }

  /** Position after `i` in a cyclic list of length `len`. */
  function Next(i: nat, len: nat): (j: nat)
    requires i < len
    ensures j < len && (j == 0 <==> i + 1 == len)
  {
    if i + 1 == len then 0 else i + 1
  }

  /** One move on an angle list: angle `i` gains `shift`, the next angle (cyclically) loses it,
      both reduced modulo `n`. */
  function Move(a: seq<int>, i: nat, shift: int, n: int): (r: seq<int>)
    requires i < |a| && n > 0
    ensures |r| == |a|
    ensures forall k :: 0 <= k < |a| && k != i && k != Next(i, |a|) ==> r[k] == a[k]
    ensures |a| >= 2 ==> r[i] == (a[i] + shift) % n && r[Next(i, |a|)] == (a[Next(i, |a|)] - shift) % n
  {
    var b := a[i := (a[i] + shift) % n];
    if i + 1 == |a| then b[0 := (b[0] - shift) % n] else b[i + 1 := (b[i + 1] - shift) % n]
  }

  /** The shift of the `j`-th neighbour: +1 first, then -1, for each position. */
  function ShiftOf(j: nat): int
  {
    if j % 2 == 0 then 1 else -1
  }

  /** The angles of the `j`-th neighbour in the order `adjacent_knots` lists them. */
  function MoveAt(a: seq<int>, j: nat, n: int): seq<int>
    requires j < 2 * |a| && n > 0
  {
    Move(a, j / 2, ShiftOf(j), n)
  }

  predicate InRange(a: seq<int>, n: int)
  {
    forall k :: 0 <= k < |a| ==> 0 <= a[k] < n
  }

  /** Replacing `x` in a total `t` by `(x + s) % n` changes the total by `s`, modulo `n`. */
  lemma ReplaceByReduced(t: int, x: int, s: int, n: int, r: int)
    requires n > 0 && r == t - x + (x + s) % n
    ensures Congruent(r, t + s, n)
  {
    CongruentReduced(x + s, n);
    CongruentAddSub((x + s) % n, x + s, t - x, t - x, n);
  }

  /** A move keeps the angle sum modulo `n`. */
  lemma {:induction false} MovePreservesSum(a: seq<int>, i: nat, shift: int, n: int)
    requires i < |a| && n > 0
    ensures Sum(Move(a, i, shift, n)) % n == Sum(a) % n
  {
    var j := Next(i, |a|);
    var b := a[i := (a[i] + shift) % n];
    var c := b[j := (b[j] - shift) % n];
    if i + 1 == |a| {
      assert c == b[0 := (b[0] - shift) % n];
    } else {
      assert c == b[i + 1 := (b[i + 1] - shift) % n];
    }
    SumUpdate(a, i, (a[i] + shift) % n);
    SumUpdate(b, j, (b[j] - shift) % n);
    var sa, sb, sc := Sum(a), Sum(b), Sum(c);
    ReplaceByReduced(sa, a[i], shift, n, sb);
    ReplaceByReduced(sb, b[j], -shift, n, sc);
    CongruentCancel(sc, sb, sa, shift, -shift, n);
    CongruentSameRemainder(sc, sa, n);
  }

  /** Reducing `x + s` and then adding `d = -s` and reducing again gives back a reduced `x`. */
  lemma {:induction false} ReduceCancel(x: int, s: int, d: int, n: int, y: int, z: int)
    requires 0 <= x < n && s + d == 0 && y == (x + s) % n && z == (y + d) % n
    ensures z == x
  {
    ModOfReduced(x + s, d, n);
    assert x + s + d == x;
    ModUnique(x, n, 0, x);
  }

  /** On a knot of a single angle the two updates fall on the same angle, so every move
      gives back the (reduced) knot itself. */
  lemma {:induction false} MoveOnSingleAngle(x: int, shift: int, n: int)
    requires 0 <= x < n
    ensures Move([x], 0, shift, n) == [x]
  {
    var y := (x + shift) % n;
    var back := (y - shift) % n;
    assert Move([x], 0, shift, n) == [back];
    ReduceCancel(x, shift, -shift, n, y, back);
  }

  /** The opposite move at the same position undoes a move on a reduced list of two or more
      angles. */
  lemma {:induction false} MoveInverse(a: seq<int>, i: nat, shift: int, n: int)
    requires i < |a| && |a| >= 2 && n > 0 && InRange(a, n)
    ensures Move(Move(a, i, shift, n), i, -shift, n) == a
  {
    var b := Move(a, i, shift, n);
    var c := Move(b, i, -shift, n);
    var j := Next(i, |a|);
    ReduceCancel(a[i], shift, -shift, n, b[i], c[i]);
    ReduceCancel(a[j], -shift, shift, n, b[j], c[j]);
    forall k | 0 <= k < |a|
      ensures c[k] == a[k]
    {
      if k != i && k != j {
        assert c[k] == b[k];
      }
    }
  }

  /** On a list of two or more angles in [0, 16), every move yields a different list that is
      within one step of the original at every position. */
  lemma {:induction false} MoveIsWithinOne(a: seq<int>, i: nat, shift: int)
    requires i < |a| && |a| >= 2 && InRange(a, DEFAULT_PARITY) && (shift == 1 || shift == -1)
    ensures Move(a, i, shift, DEFAULT_PARITY) != a
    ensures forall k :: 0 <= k < |a| ==> StepWithinOne(a[k], Move(a, i, shift, DEFAULT_PARITY)[k])
  {
    var b := Move(a, i, shift, DEFAULT_PARITY);
    var j := Next(i, |a|);
    StepReduced(a[i], shift, b[i]);
    StepReduced(a[j], -shift, b[j]);
    forall k | 0 <= k < |a|
      ensures StepWithinOne(a[k], b[k])
    {
      if k != i && k != j {
        assert b[k] == a[k];
      }
    }
  }

  /** An angle in [0, 16) turned by one step and reduced is a different angle one step away. */
  lemma StepReduced(x: int, shift: int, y: int)
    requires 0 <= x < DEFAULT_PARITY && (shift == 1 || shift == -1) && y == (x + shift) % DEFAULT_PARITY
    ensures y != x && StepWithinOne(x, y)
  {
    if x + shift == DEFAULT_PARITY {
      ModUnique(x + shift, DEFAULT_PARITY, 1, 0);
    } else if x + shift == -1 {
      ModUnique(x + shift, DEFAULT_PARITY, -1, DEFAULT_PARITY - 1);
    } else {
      ModUnique(x + shift, DEFAULT_PARITY, 0, x + shift);
    }
  }

  // ---------------------------------------------------------------------------------------
  // Knots
  // ---------------------------------------------------------------------------------------

  /** The first knot of `s`, from position `from` on, whose angle list is `a`. */
  function FindAngles(s: seq<Knot>, a: seq<int>, from: nat): (r: Option<nat>)
    requires from <= |s|
    decreases |s| - from
    ensures r.Some? ==> from <= r.value < |s| && s[r.value].angles == a
                        && forall k :: from <= k < r.value ==> s[k].angles != a
    ensures r.None? <==> forall k :: from <= k < |s| ==> s[k].angles != a
  {
    if from == |s| then None
    else if s[from].angles == a then Some(from)
    else FindAngles(s, a, from + 1)
  }

  /** A search from `from` stops at the first match. */
  lemma {:induction false} FindFirst(s: seq<Knot>, a: seq<int>, j: nat)
    requires j < |s| && s[j].angles == a
    requires forall k :: 0 <= k < j ==> s[k].angles != a
    ensures FindAngles(s, a, 0) == Some(j)
  {
    var r := FindAngles(s, a, 0);
    assert r.Some?;
  }

  /** The fundamental knot object. Its angle list, cost, parity and ranking never change once
      built; only the list of neighbours is filled in later, by `KnotSet.AdjacentKnots`. */
  class Knot {
    const angles: seq<int>
    const cost: real
    const parity: int
    const ranking: int
    var adjacent: seq<Knot>

    constructor (angles: seq<int>, cost: real, parity: int, ranking: int)
      ensures this.angles == angles && this.cost == cost && this.parity == parity
      ensures this.ranking == ranking && adjacent == []
    {
      this.angles := angles;
      this.cost := cost;
      this.parity := parity;
      this.ranking := ranking;
      adjacent := [];
    }

    /** `is_adjacent`: some recorded neighbour has the other knot's angles. */
    method IsAdjacent(other: Knot) returns (r: bool)
      ensures r <==> exists j :: 0 <= j < |adjacent| && adjacent[j].angles == other.angles
    {
      var candidate := other.angles;
      for j := 0 to |adjacent|
        invariant forall k :: 0 <= k < j ==> adjacent[k].angles != candidate
      {
        if candidate == adjacent[j].angles {
          return true;
        }
      }
      return false;
    }

    /** `in_set`: some member of the collection has this knot's angles. */
    method InSet(s: seq<Knot>) returns (r: bool)
      ensures r <==> exists j :: 0 <= j < |s| && s[j].angles == angles
    {
      for j := 0 to |s|
        invariant forall k :: 0 <= k < j ==> s[k].angles != angles
      {
        if s[j].angles == angles {
          return true;
        }
      }
      return false;
    }

    /** `within_one`. The scan must not run past the end of the other list; a shorter other
        list is fine when some position it has fails the test first. */
    method WithinOne(other: Knot) returns (r: bool)
      requires !WithinOneOverruns(angles, other.angles)
      ensures r <==> AnglesWithinOne(angles, other.angles)
    {
      if angles == other.angles {
        return false;
      }
      for i := 0 to |angles|
        invariant forall k :: 0 <= k < i ==> k < |other.angles| && StepWithinOne(angles[k], other.angles[k])
      {
        var diff := Abs(angles[i] - other.angles[i]) % DEFAULT_PARITY;
        if diff != 0 && diff != 1 && diff != 15 {
          return false;
        }
      }
      return true;
    }
  }

  /** `within_one` does not depend on the order of two equally long knots. */
  lemma {:induction false} WithinOneSymmetric(a: seq<int>, b: seq<int>)
    requires |a| == |b|
    ensures AnglesWithinOne(a, b) == AnglesWithinOne(b, a)
  {
    forall i | 0 <= i < |a|
      ensures StepWithinOne(a[i], b[i]) == StepWithinOne(b[i], a[i])
    {
      assert Abs(a[i] - b[i]) == Abs(b[i] - a[i]);
    }
  }

  /** A knot whose neighbour list is its moves (as `AdjacentKnots` leaves it) is adjacent to
      exactly the knots whose angles are one move away. */
  lemma {:induction false} IsAdjacentIffOneMove(knot: Knot, other: Knot, n: int)
    requires n > 0 && |knot.adjacent| == 2 * |knot.angles|
    requires forall j :: 0 <= j < |knot.adjacent| ==> knot.adjacent[j].angles == MoveAt(knot.angles, j, n)
    ensures (exists j :: 0 <= j < |knot.adjacent| && knot.adjacent[j].angles == other.angles) <==>
            exists i, shift :: 0 <= i < |knot.angles| && (shift == 1 || shift == -1) && Move(knot.angles, i, shift, n) == other.angles
  {
    if exists j :: 0 <= j < |knot.adjacent| && knot.adjacent[j].angles == other.angles {
      var j :| 0 <= j < |knot.adjacent| && knot.adjacent[j].angles == other.angles;
      assert Move(knot.angles, j / 2, ShiftOf(j), n) == other.angles;
    }
    if exists i, shift :: 0 <= i < |knot.angles| && (shift == 1 || shift == -1) && Move(knot.angles, i, shift, n) == other.angles {
      var i, shift :| 0 <= i < |knot.angles| && (shift == 1 || shift == -1) && Move(knot.angles, i, shift, n) == other.angles;
      var j := if shift == 1 then 2 * i else 2 * i + 1;
      assert j / 2 == i && ShiftOf(j) == shift;
      assert knot.adjacent[j].angles == other.angles;
    }
  }

  // ---------------------------------------------------------------------------------------
  // Loading
  // ---------------------------------------------------------------------------------------

  /** One parsed knot record of a catalogue file. */
  datatype Record = Record(angles: seq<int>, finalAngle: real, totalCost: real, angleParity: int)

  /** Python's `round` on a float: to the nearest integer, ties to the even one. */
  function Round(x: real): (r: int)
    ensures -0.5 <= x - r as real <= 0.5
    ensures (x - r as real == 0.5 || x - r as real == -0.5) ==> r % 2 == 0
  {
    var f := x.Floor;
    var frac := x - f as real;
    if frac < 0.5 then f
    else if frac > 0.5 then f + 1
    else if f % 2 == 0 then f
    else f + 1
  }

  /** Round-half-even has one answer: any integer nearest to `x`, the even one on a tie, is `Round(x)`. */
  lemma {:induction false} RoundUnique(x: real, k: int)
    requires -0.5 <= x - k as real <= 0.5
    requires (x - k as real == 0.5 || x - k as real == -0.5) ==> k % 2 == 0
    ensures Round(x) == k
  {
  }

  /** `b` can be obtained from `s` by deleting elements: its elements appear in `s` in the
      same order. */
  predicate Subsequence<T(==)>(b: seq<T>, s: seq<T>)
    decreases |s|
  {
    if b == [] then true
    else if s == [] then false
    else if b[|b| - 1] == s[|s| - 1] then Subsequence(b[..|b| - 1], s[..|s| - 1])
    else Subsequence(b, s[..|s| - 1])
  }

  /** The records of parity `p`, in file order. `BucketCounts` and `BucketInOrder` show it
      holds every record of that parity, as often as the file does, in the order of the file. */
  function Bucket(records: seq<Record>, p: int): (b: seq<Record>)
    ensures |b| <= |records|
    ensures forall j :: 0 <= j < |b| ==> b[j].angleParity == p && b[j] in records
  {
    if records == [] then []
    else
      var last := records[|records| - 1];
      Bucket(records[..|records| - 1], p) + (if last.angleParity == p then [last] else [])
  }

  /** Bucket `p` holds each record of parity `p` as many times as the file does, and no other
      record. */
  lemma {:induction false} BucketCounts(records: seq<Record>, p: int)
    ensures forall x :: multiset(Bucket(records, p))[x] == if x.angleParity == p then multiset(records)[x] else 0
  {
    if records != [] {
      var init, last := records[..|records| - 1], records[|records| - 1];
      BucketCounts(init, p);
      assert records == init + [last];
    }
  }

  /** Every record of parity `p` lands in bucket `p`. */
  lemma {:induction false} BucketHoldsAll(records: seq<Record>, p: int)
    ensures forall r :: r in records && r.angleParity == p ==> r in Bucket(records, p)
  {
    if records != [] {
      var init, last := records[..|records| - 1], records[|records| - 1];
      BucketHoldsAll(init, p);
      assert forall r :: r in records ==> r in init || r == last;
    }
  }

  /** A bucket keeps the file order of its records. */
  lemma {:induction false} BucketInOrder(records: seq<Record>, p: int)
    ensures Subsequence(Bucket(records, p), records)
  {
    if records != [] {
      var init, last := records[..|records| - 1], records[|records| - 1];
      var b := Bucket(init, p);
      BucketInOrder(init, p);
      if last.angleParity == p {
        assert (b + [last])[..|b|] == b;
      } else {
        assert Bucket(records, p) == b;
        assert b == [] || b[|b| - 1] != last;
      }
    }
  }

  /** The knot built from a record: the final angle, rounded, is appended to the angle list. */
  ghost predicate Loaded(k: Knot, rec: Record)
    reads k
  {
    k.angles == rec.angles + [Round(rec.finalAngle)] && k.cost == rec.totalCost
    && k.parity == rec.angleParity && k.adjacent == []
  }

  /** Concatenation of a list of lists, in order. */
  function Flatten<T>(ss: seq<seq<T>>): seq<T>
  {
    if ss == [] then [] else Flatten(ss[..|ss| - 1]) + ss[|ss| - 1]
  }

  /** The total number of elements of a list of lists. */
  function TotalSize<T>(ss: seq<seq<T>>): nat
  {
    if ss == [] then 0 else |ss[0]| + TotalSize(ss[1..])
  }

  lemma {:induction false} TotalSizeLast<T>(ss: seq<seq<T>>)
    requires ss != []
    ensures TotalSize(ss) == TotalSize(ss[..|ss| - 1]) + |ss[|ss| - 1]|
  {
    if |ss| > 1 {
      assert ss[1..][..|ss[1..]| - 1] == ss[..|ss| - 1][1..];
      TotalSizeLast(ss[1..]);
    }
  }

  /** The flattened list is as long as all the lists together. */
  lemma {:induction false} FlattenLength<T>(ss: seq<seq<T>>)
    ensures |Flatten(ss)| == TotalSize(ss)
  {
    if ss != [] {
      FlattenLength(ss[..|ss| - 1]);
      TotalSizeLast(ss);
    }
  }

  /** An element is in the flattened list exactly when it is in one of the lists. */
  lemma {:induction false} FlattenMembers<T>(ss: seq<seq<T>>, x: T)
    ensures x in Flatten(ss) <==> exists p :: 0 <= p < |ss| && x in ss[p]
  {
    if ss != [] {
      var init := ss[..|ss| - 1];
      FlattenMembers(init, x);
      if x in Flatten(ss) && x !in ss[|ss| - 1] {
        var p :| 0 <= p < |init| && x in init[p];
        assert ss[p] == init[p];
      }
      if exists p :: 0 <= p < |ss| && x in ss[p] {
        var p :| 0 <= p < |ss| && x in ss[p];
        if p < |ss| - 1 {
          assert init[p] == ss[p];
        }
      }
    }
  }

  // ---------------------------------------------------------------------------------------
  // The catalogue
  // ---------------------------------------------------------------------------------------

  /** A neighbour is the stored knot that was found, or else a placeholder of the parent's
      parity with the placeholder cost and ranking and no neighbours of its own. */
  ghost predicate Resolves(k: Knot, found: Option<Knot>, parity: int)
  {
    match found
    case Some(f) => k == f
    case None => k.cost == PLACEHOLDER_COST && k.parity == parity && k.ranking == PLACEHOLDER_RANKING
  }

  /** The first knot of a bucket with the angle list, if any. */
  ghost function Found(bucket: seq<Knot>, a: seq<int>): Option<Knot>
  {
    match FindAngles(bucket, a, 0)
    case Some(j) => Some(bucket[j])
    case None => None
  }

  /** `k` is the `j`-th entry `adjacent_knots` lists for `knot` against the knot's bucket
      `bucket` in a catalogue of `n` parities. `KnotSet.IsNeighbour` is this relation on the
      catalogue's own bucket; this heap-free form lets the loop of `AdjacentKnots` state it
      over a snapshot of the bucket, so it survives the assignment to `knot.adjacent`. */
  ghost predicate NeighbourIn(bucket: seq<Knot>, n: int, knot: Knot, j: nat, k: Knot)
  {
    n > 0 && j < 2 * |knot.angles|
    && k.angles == MoveAt(knot.angles, j, n)
    && Resolves(k, Found(bucket, k.angles), knot.parity)
  }

  /** Every entry of `adj` is the entry `NeighbourIn` describes at its position. */
  ghost predicate NeighboursIn(bucket: seq<Knot>, n: int, knot: Knot, adj: seq<Knot>)
  {
    forall m :: 0 <= m < |adj| ==> NeighbourIn(bucket, n, knot, m, adj[m])
  }

  /** Appending the next entry extends the list of neighbours. */
  lemma NeighboursInSnoc(bucket: seq<Knot>, n: int, knot: Knot, adj: seq<Knot>, next: Knot)
    requires NeighboursIn(bucket, n, knot, adj)
    requires n > 0 && |adj| < 2 * |knot.angles| && next.angles == MoveAt(knot.angles, |adj|, n)
    requires Resolves(next, Found(bucket, next.angles), knot.parity)
    ensures NeighboursIn(bucket, n, knot, adj + [next])
  {
    assert forall m :: 0 <= m < |adj| ==> (adj + [next])[m] == adj[m];
  }

  /** Set of knots, bucketed by parity. */
  class KnotSet {
    var totalParity: int
    var knots: seq<seq<Knot>>

    /** One bucket per parity; each knot sits in the bucket of its own parity, and its ranking
        is its position in that bucket, counted from 1. */
    ghost predicate Valid()
      reads this
    {
      totalParity == |knots|
      && forall p, j :: 0 <= p < |knots| && 0 <= j < |knots[p]| ==>
           knots[p][j].parity == p && knots[p][j].ranking == j + 1
    }

    /** A catalogue without a file: 16 empty buckets. */
    constructor ()
      ensures Valid() && totalParity == DEFAULT_PARITY
      ensures |knots| == DEFAULT_PARITY && forall p :: 0 <= p < |knots| ==> knots[p] == []
    {
      totalParity := DEFAULT_PARITY;
      knots := seq(DEFAULT_PARITY, _ => []);
    }

    /** A catalogue from a parsed file: `numAngles` buckets, and each record, in file order,
        appended as a knot to the bucket of its parity, ranked by the bucket's size before. */
    constructor Load(numAngles: nat, records: seq<Record>)
      requires forall k :: 0 <= k < |records| ==> 0 <= records[k].angleParity < numAngles
      ensures Valid() && totalParity == numAngles
      ensures forall p :: 0 <= p < numAngles ==> |knots[p]| == |Bucket(records, p)|
      ensures forall p, j :: 0 <= p < numAngles && 0 <= j < |knots[p]| ==>
                fresh(knots[p][j]) && Loaded(knots[p][j], Bucket(records, p)[j])
    {
      totalParity := numAngles;
      knots := seq(numAngles, _ => []);
      new;
      for k := 0 to |records|
        invariant totalParity == numAngles == |knots|
        invariant forall p :: 0 <= p < numAngles ==> |knots[p]| == |Bucket(records[..k], p)|
        invariant forall p, j :: 0 <= p < numAngles && 0 <= j < |knots[p]| ==>
                    fresh(knots[p][j]) && Loaded(knots[p][j], Bucket(records[..k], p)[j])
                    && knots[p][j].ranking == j + 1
      {
        var rec := records[k];
        var p := rec.angleParity;
        var knot := new Knot(rec.angles + [Round(rec.finalAngle)], rec.totalCost, p, |knots[p]| + 1);
        knots := knots[p := knots[p] + [knot]];
        assert records[..k + 1][..k] == records[..k];
      }
      assert records[..|records|] == records;
    }

    /** The bucket a lookup searches: the given parity, or by default the angle sum modulo 16. */
    function LookupBucket(angleSet: seq<int>, parity: int): int
    {
      if parity == -1 then Sum(angleSet) % DEFAULT_PARITY else parity
    }

    /** The knot a lookup finds: the first knot of the bucket whose angle list is `angleSet`. */
    ghost function Match(angleSet: seq<int>, parity: int): Option<Knot>
      reads this
      requires 0 <= LookupBucket(angleSet, parity) < |knots|
    {
      Found(knots[LookupBucket(angleSet, parity)], angleSet)
    }

    /** What a lookup finds is the first knot of the bucket with the angle list, and it finds
        nothing exactly when no knot of the bucket has that list. */
    lemma MatchIsFirst(angleSet: seq<int>, parity: int)
      requires 0 <= LookupBucket(angleSet, parity) < |knots|
      ensures var bucket := knots[LookupBucket(angleSet, parity)];
              var r := Match(angleSet, parity);
              (r.Some? ==>
                 r.value.angles == angleSet
                 && exists j :: 0 <= j < |bucket| && bucket[j] == r.value
                      && forall k :: 0 <= k < j ==> bucket[k].angles != angleSet)
              && (r.None? <==> forall k :: 0 <= k < |bucket| ==> bucket[k].angles != angleSet)
    {
      var bucket := knots[LookupBucket(angleSet, parity)];
      var found := FindAngles(bucket, angleSet, 0);
      if found.Some? {
        assert bucket[found.value] == Found(bucket, angleSet).value;
      }
    }

    /** `retrieve_from_angles`: scans the bucket for the angle list. */
    method RetrieveFromAngles(angleSet: seq<int>, parity: int) returns (r: Option<Knot>)
      requires 0 <= LookupBucket(angleSet, parity) < |knots|
      ensures r == Match(angleSet, parity)
    {
      var p := parity;
      if p == -1 {
        p := Sum(angleSet) % DEFAULT_PARITY;
      }
      var bucket := knots[p];
      for k := 0 to |bucket|
        invariant forall m :: 0 <= m < k ==> bucket[m].angles != angleSet
      {
        if bucket[k].angles == angleSet {
          FindFirst(bucket, angleSet, k);
          return Some(bucket[k]);
        }
      }
      return None;
    }

    /** One entry of `adjacent_knots`: the move of `shift` at position `i`, looked up in the
        knot's own bucket, or a fresh placeholder with those angles. */
    method Neighbour(knot: Knot, i: nat, shift: int) returns (k: Knot)
      requires totalParity == |knots| && 0 <= knot.parity < |knots| && i < |knot.angles|
      ensures k.angles == Move(knot.angles, i, shift, totalParity)
      ensures Resolves(k, Match(k.angles, knot.parity), knot.parity)
      ensures Match(k.angles, knot.parity).None? ==> fresh(k) && k.adjacent == []
    {
      var newAngles := knot.angles;
      newAngles := newAngles[i := (newAngles[i] + shift) % totalParity];
      if i + 1 == |knot.angles| {
        newAngles := newAngles[0 := (newAngles[0] - shift) % totalParity];
      } else {
        newAngles := newAngles[i + 1 := (newAngles[i + 1] - shift) % totalParity];
      }
      var found := RetrieveFromAngles(newAngles, knot.parity);
      if found.None? {
        k := new Knot(newAngles, PLACEHOLDER_COST, knot.parity, PLACEHOLDER_RANKING);
      } else {
        k := found.value;
      }
    }

    /** `k` is the `j`-th entry `adjacent_knots` lists for `knot`: its angles are the move, and
        it is what the lookup of those angles in the knot's bucket resolves to. */
    ghost predicate IsNeighbour(knot: Knot, j: nat, k: Knot)
      reads this
    {
      0 <= knot.parity < |knots| && NeighbourIn(knots[knot.parity], |knots|, knot, j, k)
    }

    /** In a valid catalogue every neighbour, stored or placeholder, has the parity of its knot,
        and a stored neighbour ranks from 1. */
    lemma NeighbourParity(knot: Knot, j: nat, k: Knot)
      requires Valid() && IsNeighbour(knot, j, k)
      ensures k.parity == knot.parity
      ensures k.ranking == PLACEHOLDER_RANKING <==> Match(k.angles, knot.parity).None?
    {
      var found := Match(k.angles, knot.parity);
      MatchIsFirst(k.angles, knot.parity);
      if found.Some? {
        var bucket := knots[knot.parity];
        var m :| 0 <= m < |bucket| && bucket[m] == found.value;
        assert k == bucket[m];
      }
    }

    /** `adjacent_knots`: for each position, the +1 move and then the -1 move; each is the
        stored knot with those angles if the knot's bucket holds one, else a fresh placeholder.
        The list is also recorded as the knot's neighbours. */
    method AdjacentKnots(knot: Knot) returns (adj: seq<Knot>)
      requires totalParity == |knots| && 0 <= knot.parity < |knots|
      modifies knot
      ensures |adj| == 2 * |knot.angles| && knot.adjacent == adj
      ensures forall j :: 0 <= j < |adj| ==> IsNeighbour(knot, j, adj[j])
      ensures forall j :: 0 <= j < |adj| && Match(adj[j].angles, knot.parity).None? ==>
                fresh(adj[j]) && adj[j].adjacent == []
    {
      adj := [];
      ghost var bucket, n := knots[knot.parity], |knots|;
      // The source's two nested loops (each position, then the shifts +1 and -1) visit the
      // entries in the order of j = 2 * position + (0 for +1, 1 for -1).
      for j := 0 to 2 * |knot.angles|
        invariant |adj| == j
        invariant NeighboursIn(bucket, n, knot, adj)
        invariant forall m :: 0 <= m < j && Found(bucket, adj[m].angles).None? ==> fresh(adj[m]) && adj[m].adjacent == []
      {
        var next := Neighbour(knot, j / 2, ShiftOf(j));
        NeighboursInSnoc(bucket, n, knot, adj, next);
        ghost var prev := adj;
        adj := adj + [next];
        assert forall m :: 0 <= m < j ==> adj[m] == prev[m];
      }
      knot.adjacent := adj;
    }

    /** `one_d_knot_list`: the buckets concatenated in parity order. */
    method OneDKnotList() returns (list: seq<Knot>)
      ensures list == Flatten(knots)
      ensures |list| == TotalSize(knots)
    {
      list := [];
      for p := 0 to |knots|
        invariant list == Flatten(knots[..p])
      {
        assert knots[..p + 1][..p] == knots[..p];
        list := list + knots[p];
      }
      assert knots[..|knots|] == knots;
      FlattenLength(knots);
    }
  }
}
