/** The simulated-annealing driver (knot/src/bin/control_simulated_annealing.rs): starting
    from an optimised chain of joints, each epoch turns a window of two or three joints by a
    sixteenth of a turn, re-optimises, and keeps the trial when the cooling schedule accepts
    it, tracking the best cost seen, the epoch that reached it, the log of accepted steps and
    four acceptance counters.

    The joints are values of an arbitrary type `Pose`; the quaternion rotation, the chain's
    descent, repulsion and return-to-initial steps and the exponential are functions the
    driver is given (`Numerics`), and every random draw of an epoch is passed in (`Draw`). */
module Annealing {
  import opened Integers

  /** A full turn, 2 * PI, as the source's double. */
  const TAU: real := 6.283185307179586

  /** Probability threshold above which the window has three joints rather than two. */
  const TWO_WEIGHT: real := 0.5

  const EPOCHS: int := 1000

  /** The constant factor of the cooling exponent. */
  const COOLING_FACTOR: real := 50.0

  /** The numeric operations of the chain that this driver only calls. */
  datatype Numerics<!Pose(!new)> = Numerics(
    rotate: (Pose, real) -> Pose,            // a joint times the rotation by an angle about y
    descend: seq<Pose> -> (seq<Pose>, real),  // one optimisation step: new joints and their cost
    repulse: seq<Pose> -> seq<Pose>,
    returnToInitial: seq<Pose> -> seq<Pose>,
    exp: real -> real)                        // e to the given power
  {
    /** What the driver relies on: the chain steps keep the number of joints, and e^0 = 1. */
    ghost predicate Valid()
    {
      exp(0.0) == 1.0
      && (forall js: seq<Pose> :: |descend(js).0| == |js|)
      && (forall js: seq<Pose> :: |repulse(js)| == |js|)
      && (forall js: seq<Pose> :: |returnToInitial(js)| == |js|)
    }
  }

  /** The compile-time switches and step count of the optimiser. */
  datatype Config = Config(steps: nat, repulsion: bool, returnToInitial: bool)

  /** The random draws of one epoch, in the order the source makes them: a byte, a sign, the
      window coin and the acceptance draw. */
  datatype Draw = Draw(x: nat, positive: bool, windowCoin: real, acceptDraw: real)
  {
    predicate Valid()
    {
      x < 256 && 0.0 <= windowCoin < 1.0 && 0.0 <= acceptDraw < 1.0
    }
  }

  // ---------------------------------------------------------------------------------------
  // Cooling schedule and optimiser
  // ---------------------------------------------------------------------------------------

  /** `cooling_schedule`: accept an improvement, otherwise accept when the draw falls below
      e^(costDiff * epoch * 50 / EPOCHS). */
  function CoolingSchedule(epoch: int, costDiff: real, draw: real, exp: real -> real): (accept: bool)
    ensures costDiff > 0.0 ==> accept
    ensures epoch == 0 && exp(0.0) == 1.0 && draw < 1.0 ==> accept
    ensures !accept ==> costDiff <= 0.0 && draw >= exp(costDiff * (epoch as real) * COOLING_FACTOR / (EPOCHS as real))
    ensures costDiff <= 0.0 && draw >= exp(costDiff * (epoch as real) * COOLING_FACTOR / (EPOCHS as real)) ==> !accept
  {
    if costDiff > 0.0 then true
    else draw < exp(costDiff * (epoch as real) * COOLING_FACTOR / (EPOCHS as real))
  }

  /** `k` rounds of the optimiser loop, each a descent step followed by repulsion and
      return-to-initial when switched on: the joints after the last round and the cost of its
      descent. The rounds keep the number of joints. */
  function Rounds<Pose(!new)>(js: seq<Pose>, k: nat, num: Numerics<Pose>, cfg: Config): (r: (seq<Pose>, real))
    requires k >= 1
    ensures num.Valid() ==> |r.0| == |js|
  {
    var prev := if k == 1 then js else Rounds(js, k - 1, num, cfg).0;
    var (descended, cost) := num.descend(prev);
    var repulsed := if cfg.repulsion then num.repulse(descended) else descended;
    var back := if cfg.returnToInitial then num.returnToInitial(repulsed) else repulsed;
    (back, cost)
  }

  /** `optimize`: `steps` rounds, returning the last round's cost. */
  method Optimize<Pose(!new)>(chain: seq<Pose>, steps: nat, num: Numerics<Pose>, cfg: Config)
    returns (result: seq<Pose>, lastCost: real)
    requires steps >= 1
    ensures (result, lastCost) == Rounds(chain, steps, num, cfg)
  {
    result := chain;
    lastCost := 0.0;  // the source starts from infinity; at least one round overwrites it
    for t := 0 to steps
      invariant t == 0 ==> result == chain
      invariant t >= 1 ==> (result, lastCost) == Rounds(chain, t, num, cfg)
    {
      var (descended, cost) := num.descend(result);
      lastCost := cost;
      result := descended;
      if cfg.repulsion {
        result := num.repulse(result);
      }
      if cfg.returnToInitial {
        result := num.returnToInitial(result);
      }
    }
  }

  // ---------------------------------------------------------------------------------------
  // The trial of one epoch
  // ---------------------------------------------------------------------------------------

  /** Number of joints the epoch turns: three when the coin exceeds TWO_WEIGHT, else two. */
  function Window(coin: real): (w: nat)
    ensures w == 2 || w == 3
  {
    if coin > TWO_WEIGHT then 3 else 2
  }

  /** A chain of `len` joints can take the window the draw chooses. */
  predicate Fits(len: nat, d: Draw)
  {
    len >= Window(d.windowCoin)
  }

  /** The first joint of the window: the byte modulo `len - 2` for three joints, modulo
      `len - 1` for two; the whole window lies inside the chain. */
  function JointOf(len: nat, d: Draw): (r: nat)
    requires Fits(len, d)
    ensures r + Window(d.windowCoin) <= len
    ensures Window(d.windowCoin) == 3 ==> r == d.x % (len - 2)
    ensures Window(d.windowCoin) == 2 ==> r == d.x % (len - 1)
  {
    d.x % (len - (Window(d.windowCoin) - 1))
  }

  /** The turn: a sixteenth of a full turn with the drawn sign, halved at the first joint. */
  function AngleOf(d: Draw, r: nat): (angle: real)
    ensures d.positive ==> angle > 0.0
    ensures !d.positive ==> angle < 0.0
    ensures r == 0 ==> angle == (if d.positive then TAU / 32.0 else -TAU / 32.0)
  {
    var base := if d.positive then TAU / 16.0 else -1.0 * TAU / 16.0;
    if r == 0 then base * 0.5 else base
  }

  /** The logged step, in sixteenths of a full turn: +1 or -1 with the drawn sign, halved at the
      first joint. */
  function StepOffset(d: Draw, r: nat): (offset: real)
    ensures offset == 1.0 || offset == -1.0 || offset == 0.5 || offset == -0.5
  {
    var unit := if d.positive then 1.0 else -1.0;
    if r == 0 then unit * 0.5 else unit
  }

  /** The step the source logs, `angle * 16 / TAU`, is the drawn turn in sixteenths. */
  lemma AngleOffset(d: Draw, r: nat)
    ensures AngleOf(d, r) * 16.0 / TAU == StepOffset(d, r)
  {
    var angle := AngleOf(d, r);
    if d.positive {
      if r == 0 {
        assert angle == TAU / 32.0;
      } else {
        assert angle == TAU / 16.0;
      }
    } else {
      if r == 0 {
        assert angle == -TAU / 32.0;
      } else {
        assert angle == -TAU / 16.0;
      }
    }
  }

  /** The trial chain: joint `r` turned by `angle`; the next joint (two joints) is the turned
      joint `r` turned back by `angle`; with three joints, the next is joint `r` turned by
      `-2 * angle` and the one after joint `r` turned by `angle`. */
  function Perturbed<Pose(!new)>(js: seq<Pose>, r: nat, angle: real, w: nat, rotate: (Pose, real) -> Pose): (p: seq<Pose>)
    requires (w == 2 || w == 3) && r + w <= |js|
    ensures |p| == |js|
    ensures forall k :: 0 <= k < |js| && (k < r || k >= r + w) ==> p[k] == js[k]
    ensures p[r] == rotate(js[r], angle)
    ensures w == 3 ==> p[r + 1] == rotate(p[r], -2.0 * angle) && p[r + 2] == rotate(p[r], angle)
    ensures w == 2 ==> p[r + 1] == rotate(p[r], -1.0 * angle)
  {
    var turned := rotate(js[r], angle);
    if w == 3 then js[r := turned][r + 1 := rotate(turned, -2.0 * angle)][r + 2 := rotate(turned, angle)]
    else js[r := turned][r + 1 := rotate(turned, -1.0 * angle)]
  }

  /** The perturbation of an epoch on a clone of the current joints: the window's first joint,
      the turn, and the turned window. */
  method Perturb<Pose(!new)>(joints: seq<Pose>, d: Draw, rotate: (Pose, real) -> Pose)
    returns (offsetChain: seq<Pose>, randJoint: nat, angle: real)
    requires Fits(|joints|, d)
    ensures randJoint == JointOf(|joints|, d) && angle == AngleOf(d, randJoint)
    ensures offsetChain == Perturbed(joints, randJoint, angle, Window(d.windowCoin), rotate)
  {
    angle := if d.positive then TAU / 16.0 else -1.0 * TAU / 16.0;
    offsetChain := joints;
    if d.windowCoin > TWO_WEIGHT {
      randJoint := d.x % (|joints| - 2);
      if randJoint == 0 {
        angle := angle * 0.5;
      }
      offsetChain := offsetChain[randJoint := rotate(offsetChain[randJoint], angle)];
      offsetChain := offsetChain[randJoint + 1 := rotate(offsetChain[randJoint], -2.0 * angle)];
      offsetChain := offsetChain[randJoint + 2 := rotate(offsetChain[randJoint], angle)];
    } else {
      randJoint := d.x % (|joints| - 1);
      if randJoint == 0 {
        angle := angle * 0.5;
      }
      offsetChain := offsetChain[randJoint := rotate(offsetChain[randJoint], angle)];
      offsetChain := offsetChain[randJoint + 1 := rotate(offsetChain[randJoint], -1.0 * angle)];
    }
  }

  /** The trial of an epoch: the window's first joint, the turn, and the optimised trial chain
      with its cost. */
  datatype Trial<Pose(!new)> = Trial(joint: nat, offset: real, chain: seq<Pose>, cost: real)

  function TrialOf<Pose(!new)>(js: seq<Pose>, d: Draw, num: Numerics<Pose>, cfg: Config): (t: Trial<Pose>)
    requires Fits(|js|, d) && cfg.steps >= 1
    ensures t.joint + Window(d.windowCoin) <= |js|
  {
    var r := JointOf(|js|, d);
    var angle := AngleOf(d, r);
    var optimised := Rounds(Perturbed(js, r, angle, Window(d.windowCoin), num.rotate), cfg.steps, num, cfg);
    Trial(r, StepOffset(d, r), optimised.0, optimised.1)
  }

  /** The trial of an epoch as the driver computes it: the perturbation of a clone of the
      current joints, the logged step `angle * 16 / TAU`, and the optimisation of the clone. */
  method RunTrial<Pose(!new)>(chain: seq<Pose>, d: Draw, num: Numerics<Pose>, cfg: Config)
    returns (t: Trial<Pose>)
    requires Fits(|chain|, d) && cfg.steps >= 1
    ensures t == TrialOf(chain, d, num, cfg)
  {
    var offsetChain, randJoint, angle := Perturb(chain, d, num.rotate);
    var offset := angle * 16.0 / TAU;
    AngleOffset(d, randJoint);
    var trialCost;
    offsetChain, trialCost := Optimize(offsetChain, cfg.steps, num, cfg);
    t := Trial(randJoint, offset, offsetChain, trialCost);
  }

  // ---------------------------------------------------------------------------------------
  // Acceptance bookkeeping
  // ---------------------------------------------------------------------------------------

  /** The counter an acceptance at `epoch` increments: 0 up to EPOCHS / 4, then EPOCHS / epoch
      (the source floors the quotient of the two as doubles, which is exact here). */
  function ChangeIndex(epoch: int): (q: int)
    requires 0 <= epoch < EPOCHS
    ensures 0 <= q < 4
    ensures q == 0 <==> epoch <= EPOCHS / 4
  {
    if epoch <= EPOCHS / 4 then 0
    else
      QuotientBounds(epoch);
      EPOCHS / epoch
  }

  /** After the first quarter, EPOCHS / epoch lies in 1 to 3. */
  lemma QuotientBounds(epoch: int)
    requires EPOCHS / 4 < epoch < EPOCHS
    ensures 1 <= EPOCHS / epoch < 4
  {
    var q := EPOCHS / epoch;
    ModUnique(EPOCHS, epoch, q, EPOCHS % epoch);
    if q >= 4 {
      MulMonotone(4, q, epoch);
    } else if q < 1 {
      MulMonotone(q + 1, 1, epoch);
    }
  }

  lemma {:induction false} MulMonotone(a: int, b: int, n: int)
    requires a <= b && n >= 0
    ensures a * n <= b * n
  {
    assert b * n - a * n == (b - a) * n;
    if a < b && n > 0 {
      MulAtLeast(b - a, n);
    }
  }

  /** The four counters are not quarters of the run: counter 0 takes epochs 0 to 250, counter 3
      epochs 251 to 333, counter 2 epochs 334 to 500 and counter 1 epochs 501 to 999. */
  lemma ChangeIndexRanges(epoch: int)
    requires 0 <= epoch < EPOCHS
    ensures 251 <= epoch <= 333 ==> ChangeIndex(epoch) == 3
    ensures 334 <= epoch <= 500 ==> ChangeIndex(epoch) == 2
    ensures 501 <= epoch ==> ChangeIndex(epoch) == 1
  {
    if 251 <= epoch <= 333 {
      ModUnique(EPOCHS, epoch, 3, EPOCHS - 3 * epoch);
    } else if 334 <= epoch <= 500 {
      ModUnique(EPOCHS, epoch, 2, EPOCHS - 2 * epoch);
    } else if 501 <= epoch {
      ModUnique(EPOCHS, epoch, 1, EPOCHS - epoch);
    }
  }

  /** The driver's state between epochs. */
  datatype State<Pose(!new)> = State(
    chain: seq<Pose>, cost: real, bestCost: real, bestEpoch: int,
    steps: seq<(nat, real)>, change: seq<int>)

  /** What an epoch produced: its trial and the cooling schedule's decision on it. */
  datatype Outcome<Pose(!new)> = Outcome(trial: Trial<Pose>, accepted: bool)

  /** The outcome of an epoch run on state `s` with draws `d`. */
  function OutcomeOf<Pose(!new)>(s: State<Pose>, epoch: int, d: Draw, num: Numerics<Pose>, cfg: Config): (o: Outcome<Pose>)
    requires Fits(|s.chain|, d) && cfg.steps >= 1
    ensures o.trial == TrialOf(s.chain, d, num, cfg)
    ensures o.accepted == CoolingSchedule(epoch, s.cost - o.trial.cost, d.acceptDraw, num.exp)
    ensures o.trial.cost < s.cost ==> o.accepted
    ensures epoch == 0 && num.Valid() && d.Valid() ==> o.accepted
  {
    var t := TrialOf(s.chain, d, num, cfg);
    Outcome(t, CoolingSchedule(epoch, s.cost - t.cost, d.acceptDraw, num.exp))
  }

  /** One epoch's bookkeeping. A rejected trial changes nothing; an accepted one becomes the
      current chain and cost, lowers the best cost (and moves its epoch) on a strict
      improvement, is logged, and counts in the counter of its epoch. */
  function Record<Pose(!new)>(s: State<Pose>, epoch: int, o: Outcome<Pose>): (r: State<Pose>)
    requires |s.change| == 4 && 0 <= epoch < EPOCHS
    ensures |r.change| == 4
    ensures !o.accepted ==> r == s
    ensures o.accepted ==> r.chain == o.trial.chain && r.cost == o.trial.cost
  {
    if !o.accepted then s
    else
      var t := o.trial;
      var better := s.bestCost > t.cost;
      var q := ChangeIndex(epoch);
      State(t.chain, t.cost,
            if better then t.cost else s.bestCost,
            if better then epoch else s.bestEpoch,
            s.steps + [(t.joint, t.offset)],
            s.change[q := s.change[q] + 1])
  }

  /** Every accepted trial has `len` joints. */
  predicate KeepLength<Pose(!new)>(outs: seq<Outcome<Pose>>, len: nat)
  {
    forall i :: 0 <= i < |outs| && outs[i].accepted ==> |outs[i].trial.chain| == len
  }

  /** The state after recording the outcomes of epochs 0, 1, ... in order. */
  function Bookkeep<Pose(!new)>(s0: State<Pose>, outs: seq<Outcome<Pose>>): (r: State<Pose>)
    requires |s0.change| == 4 && |outs| <= EPOCHS
    ensures |r.change| == 4
    ensures KeepLength(outs, |s0.chain|) ==> |r.chain| == |s0.chain|
  {
    if outs == [] then s0
    else Record(Bookkeep(s0, outs[..|outs| - 1]), |outs| - 1, outs[|outs| - 1])
  }

  /** Every draw fits a chain of `len` joints. */
  predicate AllFit(len: nat, draws: seq<Draw>)
  {
    forall i :: 0 <= i < |draws| ==> Fits(len, draws[i])
  }

  /** The outcomes of the first `k` epochs, each run on the state the earlier ones left. */
  function Outcomes<Pose(!new)>(s0: State<Pose>, draws: seq<Draw>, k: nat, num: Numerics<Pose>, cfg: Config): (outs: seq<Outcome<Pose>>)
    requires k <= |draws| <= EPOCHS && AllFit(|s0.chain|, draws) && |s0.change| == 4
    requires num.Valid() && cfg.steps >= 1
    ensures |outs| == k && KeepLength(outs, |s0.chain|)
  {
    if k == 0 then []
    else
      var prev := Outcomes(s0, draws, k - 1, num, cfg);
      var s := Bookkeep(s0, prev);
      assert Fits(|s.chain|, draws[k - 1]);
      prev + [OutcomeOf(s, k - 1, draws[k - 1], num, cfg)]
  }

  /** One more epoch: the state after `k + 1` epochs is the record of the outcome of epoch `k`
      in the state after `k` epochs. */
  lemma OutcomesNext<Pose(!new)>(s0: State<Pose>, draws: seq<Draw>, k: nat, num: Numerics<Pose>, cfg: Config)
    requires k < |draws| <= EPOCHS && AllFit(|s0.chain|, draws) && |s0.change| == 4
    requires num.Valid() && cfg.steps >= 1
    ensures var s := Bookkeep(s0, Outcomes(s0, draws, k, num, cfg));
            Fits(|s.chain|, draws[k]) &&
            Bookkeep(s0, Outcomes(s0, draws, k + 1, num, cfg))
            == Record(s, k, OutcomeOf(s, k, draws[k], num, cfg))
  {
    var prev := Outcomes(s0, draws, k, num, cfg);
    var s := Bookkeep(s0, prev);
    var outs := Outcomes(s0, draws, k + 1, num, cfg);
    assert Fits(|s.chain|, draws[k]);
    assert outs == prev + [OutcomeOf(s, k, draws[k], num, cfg)];
    assert outs[..k] == prev;
  }

  /** The accepted trials, as (epoch, cost) pairs in order. */
  function Acceptances<Pose(!new)>(outs: seq<Outcome<Pose>>): (acc: seq<(int, real)>)
    ensures |acc| <= |outs|
  {
    if outs == [] then []
    else
      var last := outs[|outs| - 1];
      Acceptances(outs[..|outs| - 1]) + if last.accepted then [(|outs| - 1, last.trial.cost)] else []
  }

  /** The (joint, logged step) of each accepted trial, in order. */
  function AcceptedSteps<Pose(!new)>(outs: seq<Outcome<Pose>>): (log: seq<(nat, real)>)
    ensures |log| <= |outs|
  {
    if outs == [] then []
    else
      var last := outs[|outs| - 1];
      AcceptedSteps(outs[..|outs| - 1]) + if last.accepted then [(last.trial.joint, last.trial.offset)] else []
  }

  /** The number of acceptances whose epoch counts in counter `q`. */
  function CountIn(acc: seq<(int, real)>, q: int): nat
  {
    if acc == [] then 0
    else CountIn(acc[..|acc| - 1], q)
         + if 0 <= acc[|acc| - 1].0 < EPOCHS && ChangeIndex(acc[|acc| - 1].0) == q then 1 else 0
  }

  // ---------------------------------------------------------------------------------------
  // Properties of the run
  // ---------------------------------------------------------------------------------------

  /** Each counter counts the acceptances of its epochs, the log has one entry per acceptance,
      and so the counters add up to the length of the log. */
  lemma {:induction false} CountersCountAcceptances<Pose(!new)>(s0: State<Pose>, outs: seq<Outcome<Pose>>)
    requires |s0.change| == 4 && |outs| <= EPOCHS
    ensures var r := Bookkeep(s0, outs);
            var acc := Acceptances(outs);
            |r.steps| == |s0.steps| + |acc|
            && (forall q :: 0 <= q < 4 ==> r.change[q] == s0.change[q] + CountIn(acc, q))
            && Sum(r.change) == Sum(s0.change) + |acc|
  {
    if outs != [] {
      var init := outs[..|outs| - 1];
      var last := outs[|outs| - 1];
      CountersCountAcceptances(s0, init);
      var prev := Bookkeep(s0, init);
      var r := Bookkeep(s0, outs);
      var accPrev := Acceptances(init);
      var acc := Acceptances(outs);
      if last.accepted {
        var q0 := ChangeIndex(|outs| - 1);
        assert acc == accPrev + [(|outs| - 1, last.trial.cost)];
        assert acc[..|acc| - 1] == accPrev;
        assert r.change == prev.change[q0 := prev.change[q0] + 1];
        forall q | 0 <= q < 4
          ensures r.change[q] == s0.change[q] + CountIn(acc, q)
        {
          assert CountIn(acc, q) == CountIn(accPrev, q) + if q0 == q then 1 else 0;
        }
        SumUpdate(prev.change, q0, prev.change[q0] + 1);
      } else {
        assert acc == accPrev;
      }
    }
  }

  /** The log holds, after what it started with, the joint and step of every accepted trial, in
      order. */
  lemma {:induction false} LogIsAcceptedSteps<Pose(!new)>(s0: State<Pose>, outs: seq<Outcome<Pose>>)
    requires |s0.change| == 4 && |outs| <= EPOCHS
    ensures Bookkeep(s0, outs).steps == s0.steps + AcceptedSteps(outs)
  {
    if outs != [] {
      LogIsAcceptedSteps(s0, outs[..|outs| - 1]);
    }
  }

  /** `best` and `epoch` are where the running minimum of `start` and the accepted costs
      `acc` was last strictly lowered. If no accepted cost is below `start`, they are `start`
      and `startEpoch`; otherwise `best` is below `start` and is the first acceptance that
      reached the minimum, every earlier acceptance costing strictly more. */
  ghost predicate IsBest(best: real, epoch: int, start: real, startEpoch: int, acc: seq<(int, real)>)
  {
    best <= start
    && (forall i :: 0 <= i < |acc| ==> best <= acc[i].1)
    && ((forall i :: 0 <= i < |acc| ==> start <= acc[i].1) ==> best == start && epoch == startEpoch)
    && ((exists i :: 0 <= i < |acc| && acc[i].1 < start) ==>
          best < start && FirstReaching(acc, epoch, best))
  }

  /** Some acceptance is `(epoch, best)`, and every acceptance before it costs more than `best`. */
  ghost predicate FirstReaching(acc: seq<(int, real)>, epoch: int, best: real)
  {
    exists i :: 0 <= i < |acc| && acc[i] == (epoch, best) && forall j :: 0 <= j < i ==> best < acc[j].1
  }

  /** The best cost is the least of the starting best and every accepted cost, and the best
      epoch is that of the first acceptance reaching it, or the starting epoch when no
      acceptance beat the start; the best cost never exceeds the current cost. */
  lemma {:induction false} BestIsMinimum<Pose(!new)>(s0: State<Pose>, outs: seq<Outcome<Pose>>)
    requires |s0.change| == 4 && |outs| <= EPOCHS && s0.bestCost <= s0.cost
    ensures IsBest(Bookkeep(s0, outs).bestCost, Bookkeep(s0, outs).bestEpoch, s0.bestCost, s0.bestEpoch, Acceptances(outs))
    ensures Bookkeep(s0, outs).bestCost <= Bookkeep(s0, outs).cost
  {
    if outs != [] {
      var init := outs[..|outs| - 1];
      var last := outs[|outs| - 1];
      BestIsMinimum(s0, init);
      var prev := Bookkeep(s0, init);
      var r := Bookkeep(s0, outs);
      var accPrev := Acceptances(init);
      var acc := Acceptances(outs);
      var start := s0.bestCost;
      assert IsBest(prev.bestCost, prev.bestEpoch, start, s0.bestEpoch, accPrev);
      assert r == Record(prev, |outs| - 1, last);
      if last.accepted {
        var c := last.trial.cost;
        assert acc == accPrev + [(|outs| - 1, c)];
        forall i | 0 <= i < |accPrev|
          ensures acc[i] == accPrev[i]
        {
        }
        if prev.bestCost > c {
          assert r.bestCost == c && r.bestEpoch == |outs| - 1;
          assert acc[|accPrev|] == (r.bestEpoch, r.bestCost);
          assert FirstReaching(acc, r.bestEpoch, r.bestCost);
          assert acc[|accPrev|].1 < start;
        } else {
          assert r.bestCost == prev.bestCost && r.bestEpoch == prev.bestEpoch;
          if exists i :: 0 <= i < |accPrev| && accPrev[i].1 < start {
            var i :| 0 <= i < |accPrev| && accPrev[i] == (prev.bestEpoch, prev.bestCost)
                     && forall j :: 0 <= j < i ==> prev.bestCost < accPrev[j].1;
            assert acc[i] == accPrev[i];
            assert FirstReaching(acc, r.bestEpoch, r.bestCost);
          } else {
            assert prev.bestCost == start;
          }
        }
      } else {
        assert r == prev;
        assert acc == accPrev;
      }
    }
  }

  /** The current chain and cost are those of the last acceptance, or the start if none. */
  lemma {:induction false} CurrentIsLastAccepted<Pose(!new)>(s0: State<Pose>, outs: seq<Outcome<Pose>>)
    requires |s0.change| == 4 && |outs| <= EPOCHS
    ensures var r := Bookkeep(s0, outs);
            var acc := Acceptances(outs);
            r.cost == if acc == [] then s0.cost else acc[|acc| - 1].1
  {
    if outs != [] {
      var init := outs[..|outs| - 1];
      CurrentIsLastAccepted(s0, init);
      if outs[|outs| - 1].accepted {
        assert Acceptances(outs) == Acceptances(init) + [(|outs| - 1, outs[|outs| - 1].trial.cost)];
      } else {
        assert Acceptances(outs) == Acceptances(init);
      }
    }
  }

  /** The first epoch always keeps its trial: its cooling exponent is 0 and the draw is below 1. */
  lemma FirstEpochAccepts<Pose(!new)>(s0: State<Pose>, draws: seq<Draw>, num: Numerics<Pose>, cfg: Config)
    requires 1 <= |draws| <= EPOCHS && AllFit(|s0.chain|, draws) && |s0.change| == 4
    requires num.Valid() && cfg.steps >= 1 && draws[0].Valid()
    ensures Outcomes(s0, draws, 1, num, cfg)[0].accepted
  {
    assert Outcomes(s0, draws, 1, num, cfg) == [OutcomeOf(s0, 0, draws[0], num, cfg)];
  }

  // ---------------------------------------------------------------------------------------
  // The driver
  // ---------------------------------------------------------------------------------------

  /** The state the epoch loop starts from: the optimised initial chain, its cost as the best
      cost at epoch 0, an empty log and zero counters. */
  function Start<Pose(!new)>(chain: seq<Pose>, cost: real): State<Pose>
  {
    State(chain, cost, cost, 0, [], [0, 0, 0, 0])
  }

  /** The acceptance counter of an accepted trial: `change[0]` up to epoch `EPOCHS / 4`,
      `change[EPOCHS / epoch]` after it. */
  method Tally(change: array<int>, epoch: int)
    requires change.Length == 4 && 0 <= epoch < EPOCHS
    modifies change
    ensures change[..] == old(change[..])[ChangeIndex(epoch) := old(change[ChangeIndex(epoch)]) + 1]
  {
    if epoch <= EPOCHS / 4 {
      change[0] := change[0] + 1;
    } else {
      var q := EPOCHS / epoch;
      assert q == ChangeIndex(epoch);
      change[q] := change[q] + 1;
    }
  }

  /** One pass of the epoch loop: a trial on the current chain, kept or dropped by the cooling
      schedule; a kept trial replaces the current chain and cost, may lower the best cost, is
      logged and counted. */
  method Epoch<Pose(!new)>(chain: seq<Pose>, cost: real, bestCost: real, bestEpoch: int,
                           steps: seq<(nat, real)>, change: array<int>, epoch: int, d: Draw,
                           num: Numerics<Pose>, cfg: Config)
    returns (chain': seq<Pose>, cost': real, bestCost': real, bestEpoch': int, steps': seq<(nat, real)>)
    requires change.Length == 4 && 0 <= epoch < EPOCHS && Fits(|chain|, d) && cfg.steps >= 1
    modifies change
    ensures var before := State(chain, cost, bestCost, bestEpoch, steps, old(change[..]));
            State(chain', cost', bestCost', bestEpoch', steps', change[..])
            == Record(before, epoch, OutcomeOf(before, epoch, d, num, cfg))
  {
    ghost var before := State(chain, cost, bestCost, bestEpoch, steps, change[..]);
    chain', cost', bestCost', bestEpoch', steps' := chain, cost, bestCost, bestEpoch, steps;
    var trial := RunTrial(chain, d, num, cfg);
    var accept := CoolingSchedule(epoch, cost - trial.cost, d.acceptDraw, num.exp);
    ghost var o := Outcome(trial, accept);
    assert o == OutcomeOf(before, epoch, d, num, cfg);
    if accept {
      chain' := trial.chain;
      cost' := trial.cost;
      if bestCost' > cost' {
        bestCost' := cost';
        bestEpoch' := epoch;
      }
      steps' := steps' + [(trial.joint, trial.offset)];
      Tally(change, epoch);
    }
  }

  /** The optimisation and epoch loop of the driver's `main`. */
  method Anneal<Pose(!new)>(initial: seq<Pose>, draws: seq<Draw>, num: Numerics<Pose>, cfg: Config)
    returns (chain: seq<Pose>, cost: real, bestCost: real, bestEpoch: int,
             steps: seq<(nat, real)>, counts: seq<int>, originalCost: real)
    requires |draws| == EPOCHS && AllFit(|initial|, draws)
    requires num.Valid() && cfg.steps >= 1
    ensures originalCost == Rounds(initial, cfg.steps, num, cfg).1
    ensures State(chain, cost, bestCost, bestEpoch, steps, counts)
            == Bookkeep(Start(Rounds(initial, cfg.steps, num, cfg).0, originalCost),
                        Outcomes(Start(Rounds(initial, cfg.steps, num, cfg).0, originalCost), draws, EPOCHS, num, cfg))
    ensures |chain| == |initial| && |counts| == 4
    ensures Sum(counts) == |steps|
    ensures bestCost <= originalCost && bestCost <= cost
    ensures steps == AcceptedSteps(Outcomes(Start(Rounds(initial, cfg.steps, num, cfg).0, originalCost), draws, EPOCHS, num, cfg))
    ensures IsBest(bestCost, bestEpoch, originalCost, 0,
                   Acceptances(Outcomes(Start(Rounds(initial, cfg.steps, num, cfg).0, originalCost), draws, EPOCHS, num, cfg)))
  {
    chain, cost := Optimize(initial, cfg.steps, num, cfg);
    originalCost := cost;
    steps := [];
    var change := new int[4](_ => 0);
    bestCost := cost;
    bestEpoch := 0;
    ghost var s0 := Start(chain, cost);
    assert change[..] == [0, 0, 0, 0];
    for epoch := 0 to EPOCHS
      invariant State(chain, cost, bestCost, bestEpoch, steps, change[..])
                == Bookkeep(s0, Outcomes(s0, draws, epoch, num, cfg))
    {
      OutcomesNext(s0, draws, epoch, num, cfg);
      chain, cost, bestCost, bestEpoch, steps := Epoch(chain, cost, bestCost, bestEpoch, steps, change, epoch, draws[epoch], num, cfg);
    }
    counts := change[..];
    CountersCountAcceptances(s0, Outcomes(s0, draws, EPOCHS, num, cfg));
    BestIsMinimum(s0, Outcomes(s0, draws, EPOCHS, num, cfg));
    LogIsAcceptedSteps(s0, Outcomes(s0, draws, EPOCHS, num, cfg));
  }
}
