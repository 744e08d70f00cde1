/** Choosing how far ahead of a schedule to be instead of choosing a fraction. */
module Residual {
  import opened Arith
  import opened Actions
  import opened Rate
  import opened AlmgrenChriss

  // ----- Offsets from the schedule -----

  /** The schedule entry an offset of `delta` episodes points at. */
  function Entry(totalSteps: nat, t: real, delta: real): int {
    Round((1.0 - t) * (totalSteps as real)) + Round(delta * (totalSteps as real))
  }

  function ResidualAction(fractions: seq<real>, schedule: seq<real>, totalSteps: nat, delta: real,
                          q: real, t: real): nat
    requires fractions != [] && schedule != []
  {
    if EndGame(q, t) then NearestAction(1.0, fractions)
    else NearestAction(CatchUp(q, TargetAfter(schedule, Entry(totalSteps, t, delta))), fractions)
  }

  class ResidualAcMapper {
    const fractions: seq<real>
    const build: nat -> seq<real>
    var totalSteps: nat
    var schedule: seq<real>

    constructor (fractions: seq<real>, build: nat -> seq<real>, steps: nat)
      ensures this.fractions == fractions && this.build == build && totalSteps == steps && schedule == build(steps)
    {
      this.fractions, this.build, totalSteps, schedule := fractions, build, steps, build(steps);
    }

    /** Rebuilding only on a change keeps the schedule the one for the horizon. */
    method SetHorizon(steps: nat)
      requires schedule == build(totalSteps)
      modifies this`totalSteps, this`schedule
      ensures totalSteps == steps && schedule == build(totalSteps)
    {
      if steps != totalSteps {
        totalSteps, schedule := steps, build(steps);
      }
    }

    method RawAction(delta: real, q: real, t: real) returns (action: nat)
      requires fractions != [] && schedule != []
      ensures action == ResidualAction(fractions, schedule, totalSteps, delta, q, t)
    {
      if t < 0.001 || q < 0.001 {
        return NearestAction(1.0, fractions);
      }
      var k := Round((1.0 - t) * (totalSteps as real)) + Round(delta * (totalSteps as real));
      var after;
      if k < 0 {
        after := 1.0;
      } else {
        k := if k < |schedule| - 1 then k else |schedule| - 1;
        after := Max(0.0, 1.0 - Sum(schedule[..k + 1]));
      }
      var target := if q > 0.000001 then Max(0.0, (q - after) / q) else 1.0;
      return NearestAction(target, fractions);
    }
  }

  /** An offset of nothing reproduces the closed-loop policy action for action. */
  lemma ZeroOffsetIsThePolicy(fractions: seq<real>, schedule: seq<real>, totalSteps: nat, q: real, t: real)
    requires fractions != [] && schedule != [] && 0.0 <= t <= 1.0
    ensures ResidualAction(fractions, schedule, totalSteps, 0.0, q, t)
         == AcAction(fractions, schedule, totalSteps, true, q, t)
  {
  }

  /** Being further ahead of the schedule never sells a smaller fraction. */
  lemma LargerOffsetSellsNoLess(fractions: seq<real>, gap: real, schedule: seq<real>, totalSteps: nat,
                                small: real, large: real, q: real, t: real)
    requires IsTable(fractions, gap) && schedule != [] && NonNegative(schedule) && small <= large
    ensures fractions[ResidualAction(fractions, schedule, totalSteps, small, q, t)]
         <= fractions[ResidualAction(fractions, schedule, totalSteps, large, q, t)]
  {
    hide TargetAfter, NearestAction, Round;
    if !EndGame(q, t) {
      assert small * (totalSteps as real) <= large * (totalSteps as real);
      RoundIsMonotone(small * (totalSteps as real), large * (totalSteps as real));
      var j, k := Entry(totalSteps, t, small), Entry(totalSteps, t, large);
      TargetFalls(schedule, j, k);
      CatchUpRises(q, TargetAfter(schedule, k), TargetAfter(schedule, j));
      NearestIsMonotone(fractions, gap, CatchUp(q, TargetAfter(schedule, j)), CatchUp(q, TargetAfter(schedule, k)));
    }
  }
}
