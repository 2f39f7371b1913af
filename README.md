# Knot catalogue, move distance and annealing driver

This project models three pieces of the knot-optimisation repository in Dafny and proves
properties of them.

- **The discrete knot catalogue** (`cost-analysis/knot.py`), in `knot_catalogue.dfy`.
  - A knot is a list of integer angles taken modulo the catalogue's parity count (16 by default).
  - The catalogue (`KnotSet`) keeps one bucket of knots per parity and finds a knot by its exact
    angle list.
  - It lists the knots one *move* away from a knot. A move adds +1 or -1 to one angle and takes
    the same amount from the next angle, cyclically; both results are reduced.
  - `Knot` and `KnotSet` are classes:
    - a knot's angles, cost, parity and ranking never change after construction;
    - its neighbour list `adjacent` is assigned by `AdjacentKnots`;
    - the catalogue's buckets are filled by the loading constructor.
- **The move distance** (`distance` in `cost-analysis/analysis.py`), in `move_distance.dfy`.
  - A greedy left-to-right sweep. It turns each angle of a copy of the first knot onto the
    second knot by the shortest turn modulo 16, pushes the opposite turn onto the next angle,
    and adds up the sizes of the turns.
  - `Distance` is the source's loop. `Sweep` is the recursive specification it is proved
    against.
- **The simulated-annealing driver** (`knot/src/bin/control_simulated_annealing.rs`), in
  `annealing.dfy`. This covers:
  - `cooling_schedule`;
  - the `optimize` step loop;
  - the epoch loop of `main`: window choice, perturbation, accept/reject, tracking of the best
    cost and its epoch, the log of accepted steps, and the four acceptance counters.

  How the driver is modelled:
  - Joints are values of an abstract type `Pose`.
  - The quaternion rotation, the chain's descent, repulsion and return-to-initial steps, and
    `E.powf` are functions the driver is given (`Numerics`). The driver relies only on two
    facts about them: the chain steps keep the number of joints, and e^0 = 1.
  - Every random draw of an epoch is a parameter (`Draw`): the byte, the sign, the window coin
    and the acceptance draw.
  - The loop is proved against a fold over per-epoch outcomes:
    - `Record` is one epoch's bookkeeping;
    - `Bookkeep` applies it epoch by epoch;
    - `Outcomes` runs each epoch's trial on the state the earlier epochs left.
  - The bookkeeping lemmas then hold for every sequence of outcomes.

`integers.dfy` holds shared arithmetic: `Abs`, `Sum`, congruence modulo `m`, and lemmas on
Euclidean `%`. Python's `%` with a positive modulus agrees with Dafny's `%`.

The four acceptance counters are not quarters of the run. This model follows the code, as
`ChangeIndexRanges` states:
- counter 0 takes epochs 0-250;
- counter 3 takes epochs 251-333;
- counter 2 takes epochs 334-500;
- counter 1 takes epochs 501-999.

The program's own output labels these counters "Changes per Quarter of Total Steps"
(knot/src/bin/control_simulated_annealing.rs:230).

## Model

| member | source | states |
|---|---|---|
| `KnotCatalogue.Knot.constructor` | cost-analysis/knot.py:8-13 | A new knot holds the given angles, cost, parity and ranking, and no neighbours. |
| `KnotCatalogue.Knot.IsAdjacent` | cost-analysis/knot.py:16-21 | True exactly when some recorded neighbour has the other knot's angle list. |
| `KnotCatalogue.Knot.InSet` | cost-analysis/knot.py:24-28 | True exactly when some member of the collection has this knot's angle list. |
| `KnotCatalogue.Knot.WithinOne` | cost-analysis/knot.py:30-37 | True exactly when the lists differ, the other list is at least as long, and every position differs by 0, 1 or 15 modulo 16 (`AnglesWithinOne`). Equal lists give false. A shorter other list gives false when one of its positions fails the test; only the inputs on which the scan runs past its end (`WithinOneOverruns`) are excluded. |
| `KnotCatalogue.WithinOneSymmetric` | cost-analysis/knot.py:30-37 | For lists of equal length, `within_one` does not depend on the order of the two lists. |
| `KnotCatalogue.KnotSet.constructor` | cost-analysis/knot.py:41-44 | A catalogue built without a file has parity count 16 and exactly 16 empty buckets. |
| `KnotCatalogue.Round` | cost-analysis/knot.py:55 | Python's `round`: the result is within 1/2 of `x`, and the even neighbour on a tie. |
| `KnotCatalogue.RoundUnique` | cost-analysis/knot.py:55 | Any integer nearest to `x` (the even one on a tie) is `Round(x)`, so `Round` is Python's rounding and nothing else. |
| `KnotCatalogue.Bucket` | cost-analysis/knot.py:53-57 | Every record in a bucket has the bucket's parity and comes from the file. |
| `KnotCatalogue.BucketHoldsAll` | cost-analysis/knot.py:53-57 | Every record of a parity is in that parity's bucket. |
| `KnotCatalogue.BucketCounts` | cost-analysis/knot.py:53-57 | A bucket holds each record of its parity exactly as many times as the file does, and no record of another parity. |
| `KnotCatalogue.BucketInOrder` | cost-analysis/knot.py:53-57 | A bucket keeps the file order: it is a subsequence of the records. |
| `KnotCatalogue.KnotSet.Load` | cost-analysis/knot.py:50-57 | Bucket `p` holds one fresh knot per record of parity `p`, in file order. Each knot's angles are the record's angles with the rounded final angle appended. Its cost and parity are the record's. Its ranking is its bucket position counted from 1 (`Valid`). |
| `KnotCatalogue.Move` | cost-analysis/knot.py:65-70 | A move keeps the length and changes only angle `i`, to `(a[i] + shift) % n`, and the cyclically next angle, to `(a[next] - shift) % n`, for two or more angles. On a single angle both updates fall on it in turn (`MoveOnSingleAngle`). |
| `KnotCatalogue.MovePreservesSum` | cost-analysis/knot.py:65-70 | A move keeps the angle sum modulo `n`. (That a neighbour has its knot's parity comes from the bucket it is looked up in, as `NeighbourParity` states.) |
| `KnotCatalogue.MoveInverse` | cost-analysis/knot.py:64-70 | On a reduced list of two or more angles, the opposite move at the same position gives back the original list. |
| `KnotCatalogue.MoveOnSingleAngle` | cost-analysis/knot.py:67-68 | On a one-angle knot whose angle is reduced (in [0, n)), both updates fall on the same angle, so every move gives back the knot's own list. |
| `KnotCatalogue.MoveIsWithinOne` | cost-analysis/knot.py:30-37 | With a parity count of 16, on a list of two or more angles in [0, 16), each +1/-1 move gives a different list that is within one step of the original at every position. |
| `KnotCatalogue.FindAngles` | cost-analysis/knot.py:87-90 | The index of the first knot with the angle list, or None exactly when no knot from `from` on has it. |
| `KnotCatalogue.FindFirst` | cost-analysis/knot.py:87-89 | A match at `j` with none before it is what the search returns. |
| `KnotCatalogue.KnotSet.MatchIsFirst` | cost-analysis/knot.py:84-90 | The lookup (`Match`) searches bucket `parity`, or `sum % 16` for parity -1. It finds the first knot there with the angle list. It returns None exactly when no knot of that bucket has the list. |
| `KnotCatalogue.KnotSet.RetrieveFromAngles` | cost-analysis/knot.py:84-90 | The scanning loop returns `Match`: the first knot of the searched bucket with the angle list, or None. |
| `KnotCatalogue.KnotSet.Neighbour` | cost-analysis/knot.py:65-78 | One entry of `adjacent_knots` is found by looking up the move's angles in the knot's own bucket. If they are found, the entry is the stored knot. If not, it is a fresh placeholder with those angles, cost 3, the parent's parity, ranking -1 and no neighbours. |
| `KnotCatalogue.KnotSet.NeighbourParity` | cost-analysis/knot.py:72-78 | In a valid catalogue every neighbour has its knot's parity, and it ranks -1 exactly when the lookup found nothing. |
| `KnotCatalogue.KnotSet.AdjacentKnots` | cost-analysis/knot.py:61-81 | Exactly `2 * len(angles)` neighbours, ordered by position and then +1 before -1. Entry `j` is the `j`-th move, resolved as in `Neighbour`. The list is also stored as the knot's neighbours. |
| `KnotCatalogue.IsAdjacentIffOneMove` | cost-analysis/knot.py:16-21 | After `adjacent_knots`, a knot is adjacent to another exactly when the other's angles are one +1/-1 move away. |
| `KnotCatalogue.KnotSet.OneDKnotList` | cost-analysis/knot.py:93-97 | The buckets concatenated in parity order; the length is the sum of the bucket sizes. |
| `KnotCatalogue.FlattenLength` | cost-analysis/knot.py:93-97 | The concatenation is as long as all buckets together. |
| `KnotCatalogue.FlattenMembers` | cost-analysis/knot.py:93-97 | A knot is in the flattened list exactly when it is in some bucket. |
| `MoveDistance.Normalise` | cost-analysis/analysis.py:14-18 | The turn is congruent to the raw difference modulo 16. It lies in [-8, 8] for raw differences in [-24, 24]. It leaves differences already in [-8, 8] alone. |
| `Integers.PyMod` | cost-analysis/analysis.py:21 | Python's `%`: Dafny's `%` for a positive modulus; for a negative one the remainder lies in (m, 0] and differs from `x` by a multiple of `m`. |
| `MoveDistance.Sweep` | cost-analysis/analysis.py:13-22 | The sweep's move count is non-negative and its copy keeps the length. |
| `MoveDistance.Distance` | cost-analysis/analysis.py:8-23 | Returns -1 when the parities differ. Otherwise returns the sweep's move count, which is non-negative, so -1 occurs exactly for different parities. The first knot's angles are untouched. |
| `MoveDistance.SweepBound` | cost-analysis/analysis.py:13-22 | With angles in [0, 16) and a parity count of at most 16, `0 <= moves <= 8 * (len - 1)`. |
| `MoveDistance.SweepAligns` | cost-analysis/analysis.py:13-21 | The copy is untouched before the sweep's start, and after the sweep it agrees with the target modulo 16 at every aligned position. |
| `MoveDistance.SweepKeepsSum` | cost-analysis/analysis.py:19-21 | The sweep keeps the copy's angle sum modulo the parity count. |
| `MoveDistance.SweepReachesTarget` | cost-analysis/analysis.py:13-21 | With a parity count of 16, for equal-length knots whose sums agree modulo 16, the copy agrees with the target modulo 16 everywhere, including the last position, which the loop never aligns. |
| `MoveDistance.SweepZeroIff` | cost-analysis/analysis.py:13-22 | With a parity count from 1 to 16, the first knot's angles in [0, n) and the target's in [0, 16), the distance is 0 exactly when the two lists agree at every aligned position. |
| `MoveDistance.SweepIdentical` | cost-analysis/analysis.py:13-22 | For any positive parity count, lists in [0, n) that agree at every aligned position are distance 0 apart, and the copy is left as it was. |
| `MoveDistance.SweepOnlyPrefix` | cost-analysis/analysis.py:13-14 | Only the target's first `len - 1` angles matter: targets that agree there give the same moves and the same copy. |
| `Annealing.CoolingSchedule` | knot/src/bin/control_simulated_annealing.rs:32-43 | A strict improvement is always accepted. At epoch 0 with e^0 = 1, every draw below 1 is accepted. A trial is rejected exactly when there is no improvement and the draw is at or above e^(diff * epoch * 50 / 1000). |
| `Annealing.Rounds` | knot/src/bin/control_simulated_annealing.rs:45-59 | The optimiser's rounds keep the number of joints. |
| `Annealing.Optimize` | knot/src/bin/control_simulated_annealing.rs:45-59 | The step loop returns the chain after `steps` rounds (descent, then repulsion and return-to-initial when switched on) and the last round's cost. |
| `Annealing.Window` | knot/src/bin/control_simulated_annealing.rs:153 | The window has three joints when the coin exceeds 0.5, else two. |
| `Annealing.JointOf` | knot/src/bin/control_simulated_annealing.rs:153-168 | The window's first joint is `x % (len - 2)` for three joints and `x % (len - 1)` for two, and the whole window lies inside the chain. |
| `Annealing.AngleOf` | knot/src/bin/control_simulated_annealing.rs:143-170 | The turn has the drawn sign, and it is ±TAU/32 (halved) when the window starts at joint 0. |
| `Annealing.StepOffset` | knot/src/bin/control_simulated_annealing.rs:190 | The logged step is one of +1, -1, +0.5 and -0.5. |
| `Annealing.AngleOffset` | knot/src/bin/control_simulated_annealing.rs:190 | The logged `angle * 16 / TAU` equals `StepOffset`. |
| `Annealing.Perturbed` | knot/src/bin/control_simulated_annealing.rs:149-178 | The trial chain keeps the length and differs from the current chain only inside the window. Joint `r` is turned by `angle`. The later joints of the window are derived from the already-turned joint `r` (by `-2 * angle` and then `angle` for three joints, by `-angle` for two). |
| `Annealing.Perturb` | knot/src/bin/control_simulated_annealing.rs:142-178 | The clone-and-assign code yields `JointOf`, `AngleOf` and `Perturbed`. |
| `Annealing.TrialOf` | knot/src/bin/control_simulated_annealing.rs:142-180 | The trial's window lies inside the chain. |
| `Annealing.RunTrial` | knot/src/bin/control_simulated_annealing.rs:142-190 | The trial the driver computes (perturbation, logged step, optimisation of the clone) is `TrialOf`. |
| `Annealing.ChangeIndex` | knot/src/bin/control_simulated_annealing.rs:191-196 | The counter index is in bounds (0 to 3), and it is 0 exactly for epochs up to 250. |
| `Annealing.QuotientBounds` | knot/src/bin/control_simulated_annealing.rs:194-195 | After epoch 250, `1000 / epoch` lies in 1 to 3, so the division never fails and the index is in bounds. |
| `Annealing.ChangeIndexRanges` | knot/src/bin/control_simulated_annealing.rs:191-196 | Counter 3 takes epochs 251-333, counter 2 takes 334-500, and counter 1 takes 501-999. |
| `Annealing.OutcomeOf` | knot/src/bin/control_simulated_annealing.rs:180-182 | An epoch's outcome holds `TrialOf` of the current chain, and it is accepted exactly when `CoolingSchedule` accepts the cost difference with the epoch's acceptance draw. A cheaper trial is always accepted. The first epoch accepts. |
| `Annealing.Record` | knot/src/bin/control_simulated_annealing.rs:182-202 | A rejection leaves the whole state unchanged. An acceptance makes the trial's chain and cost current. |
| `Annealing.Bookkeep` | knot/src/bin/control_simulated_annealing.rs:140-204 | The loop state keeps four counters, and the chain keeps its length when every accepted trial does. |
| `Annealing.Outcomes` | knot/src/bin/control_simulated_annealing.rs:140-204 | One outcome per epoch run so far, and every accepted trial keeps the chain's length. |
| `Annealing.OutcomesNext` | knot/src/bin/control_simulated_annealing.rs:140-204 | The state after `k + 1` epochs is epoch `k`'s outcome recorded in the state after `k` epochs. |
| `Annealing.Acceptances` | knot/src/bin/control_simulated_annealing.rs:182-190 | The accepted (epoch, cost) pairs number at most the epochs. |
| `Annealing.AcceptedSteps` | knot/src/bin/control_simulated_annealing.rs:190 | The (joint, logged step) pairs of the accepted trials, in order, at most one per epoch. |
| `Annealing.LogIsAcceptedSteps` | knot/src/bin/control_simulated_annealing.rs:182-190 | The log is what it started with followed by the joint and logged step of every accepted trial, in the order they were accepted. |
| `Annealing.CountersCountAcceptances` | knot/src/bin/control_simulated_annealing.rs:190-196 | The log has one entry per acceptance. Counter `q` grows by the number of acceptances whose epoch maps to `q`. The counters' sum grows by the number of acceptances. |
| `Annealing.BestIsMinimum` | knot/src/bin/control_simulated_annealing.rs:185-188 | The best cost is at most the starting cost and every accepted cost (`IsBest`). If no accepted cost is strictly below the start, the best cost and epoch stay the start's, so a tie leaves the epoch alone. Otherwise the best cost is below the start, and the best epoch is that of the first acceptance with that cost: every earlier acceptance cost strictly more. The best cost never exceeds the current cost. |
| `Annealing.CurrentIsLastAccepted` | knot/src/bin/control_simulated_annealing.rs:183-184 | The current cost is the last accepted cost, or the starting cost if nothing was accepted. |
| `Annealing.FirstEpochAccepts` | knot/src/bin/control_simulated_annealing.rs:36 | The trial of epoch 0 is always accepted. |
| `Annealing.Tally` | knot/src/bin/control_simulated_annealing.rs:191-196 | An acceptance increments exactly counter `ChangeIndex(epoch)`. |
| `Annealing.Epoch` | knot/src/bin/control_simulated_annealing.rs:142-202 | One pass of the loop body leaves the state that `Record` gives for that epoch's outcome. |
| `Annealing.Anneal` | knot/src/bin/control_simulated_annealing.rs:131-204 | The original cost is the optimised initial chain's cost. The final state is `Bookkeep` of all 1000 epochs' outcomes. The chain keeps its length. The log is exactly the joint and logged step of each accepted trial, in order (`AcceptedSteps`). The counters add up to the log's length. The best cost is at most the original cost and at most the current cost. The best cost and epoch satisfy `IsBest` against the accepted costs, starting from the original cost at epoch 0: the epoch stays 0 unless some accepted cost is strictly below the original, and is otherwise the first acceptance reaching the minimum. |

## Left out

- Python negative indexing and `IndexError`:
  - the loading constructor requires every record's parity to lie in [0, num_angles);
  - `WithinOne` excludes exactly the inputs on which the source raises `IndexError`: the other list is shorter and every position it has passes the test. A shorter other list with a failing position gives false, as in the source;
  - `Distance` requires the second knot to have all but at most one of the first knot's angles.
- `KnotCatalogue.KnotSet.Neighbour` and `KnotCatalogue.KnotSet.AdjacentKnots` require:
  - a knot parity that is a bucket index, so a knot of parity -1 (which the source would look up by its sum modulo 16) is not covered;
  - a catalogue whose parity count equals its bucket count, as both constructors leave it.
- `KnotCatalogue.KnotSet.RetrieveFromAngles` requires the searched bucket to exist. This excludes two source behaviours:
  - a negative parity other than -1, which Python indexes from the end of the bucket list;
  - a default bucket (the angle sum modulo 16) at or beyond a smaller catalogue's bucket count, where Python raises `IndexError`.

  Every call in the source passes a loaded knot's parity.
- The default lookup parity and the `within_one` comparison use the hard-wired 16, even when a loaded catalogue has another parity count. This is modelled as written.
- `MoveDistance.Distance` requires a nonzero parity count: with 0 the source raises `ZeroDivisionError` at cost-analysis/analysis.py:21. A negative count is modelled with Python's `%` (`PyMod`); the sweep lemmas are stated for positive counts.
- Reading the JSON catalogue file is I/O. `Load` starts from the parsed records.
- Costs, angles and cooling draws are exact reals, not IEEE doubles. `TAU` is 6.283185307179586, the shortest decimal that rounds to the double `TAU`, not that double's exact value.
- Python's placeholder cost is the integer 3; here it is the real 3.0.
- The numeric chain (`Chain::optimize`, `repulse`, `return_to_initial`, the quaternion product, `powf`) is not part of this model; uninterpreted functions stand for it. Of the `RepulsionChain` only its joints are modelled, as `Pose` values. Its other state is dropped: the initial joints, the descent rate and the repulsion strength, which `repulse` may raise. So `descend`, `repulse` and `returnToInitial` see only the joints, and `TrialOf` and `Outcomes` assume that a trial depends on nothing but the current joints, and that a rejected clone leaves no state behind.
- `Annealing.Optimize` requires at least one step. With zero steps the source returns its starting infinity, and then compares against it.
- `rand::random` is not modelled; each epoch's draws are parameters.
- `Draw.Valid` also states the `u8` range of the byte and the window coin's range, but no proof uses them. The first-epoch property uses only the acceptance draw's bound below 1.
- A window that does not fit the chain makes the source panic (underflow or division by zero). `Annealing.Anneal` requires every draw to fit.
- `eprintln!` logging, argument parsing, geometry construction and the final serialisation are I/O.
- `KnotCatalogue.KnotSet.AdjacentKnots` runs the source's two nested loops (positions, then shifts +1 and -1) as one loop over the entry index, in the same order.
