/** Choosing a pace instead of a fraction: the tracker sells toward the inventory the chosen paces imply. */
module Rate {
  import opened Arith
  import opened Actions

  /** Near the end, of the episode or of the inventory, everything is sold. */
  predicate EndGame(q: real, t: real) {
    t < 0.001 || q < 0.001
  }

  /** The inventory that should be left after one more step at `rate`. */
  function Desired(desired: real, rate: real, totalSteps: nat): real
    requires totalSteps > 0
  {
    Max(0.0, desired - rate / (totalSteps as real))
  }

  class RateTracker {
    const fractions: seq<real>
    var totalSteps: nat
    var desiredRemaining: real

    constructor (fractions: seq<real>)
      ensures this.fractions == fractions && desiredRemaining == 1.0
    {
      this.fractions := fractions;
      totalSteps, desiredRemaining := 0, 1.0;
    }

    method StartEpisode(steps: nat)
      modifies this
      ensures totalSteps == steps && desiredRemaining == 1.0
    {
      totalSteps, desiredRemaining := steps, 1.0;
    }

    method RawAction(rate: real, q: real, t: real) returns (action: nat)
      requires totalSteps > 0 && fractions != []
      modifies this`desiredRemaining
      ensures EndGame(q, t) ==> action == NearestAction(1.0, fractions) && desiredRemaining == old(desiredRemaining)
      ensures !EndGame(q, t) ==>
                && desiredRemaining == Desired(old(desiredRemaining), rate, totalSteps)
                && action == NearestAction(CatchUp(q, desiredRemaining), fractions)
    {
      if t < 0.001 || q < 0.001 {
        return NearestAction(1.0, fractions);
      }
      desiredRemaining := Max(0.0, desiredRemaining - rate / (totalSteps as real));
      var target := Max(0.0, (q - desiredRemaining) / q);
      return NearestAction(target, fractions);
    }
  }

  // ----- An episode -----

  /** What the agent chose and the time it saw. */
  datatype Choice = Choice(rate: real, time: real)

  datatype Ride = Ride(q: real, desired: real, ended: bool)

  /** An episode in which each sale executes exactly the chosen fraction; `ended` once an end-game branch fired. */
  function Episode(fractions: seq<real>, totalSteps: nat, choices: seq<Choice>): Ride
    requires fractions != [] && totalSteps > 0
  {
    if choices == [] then Ride(1.0, 1.0, false)
    else
      var r, c := Episode(fractions, totalSteps, choices[..|choices| - 1]), choices[|choices| - 1];
      if EndGame(r.q, c.time) then Ride(Sold(fractions, r.q, 1.0), r.desired, true)
      else
        var desired := Desired(r.desired, c.rate, totalSteps);
        Ride(Sold(fractions, r.q, CatchUp(r.q, desired)), desired, r.ended)
  }

  function Rates(choices: seq<Choice>): seq<real> {
    seq(|choices|, i requires 0 <= i < |choices| => choices[i].rate)
  }

  /**
    * Rounding never accumulates: however long the episode and whatever the paces, until an end-game branch fires the
    * inventory is within half the widest table gap of what the paces imply; and an end-game sale leaves nothing.
    */
  lemma {:induction false} TrackerStaysOnPace(fractions: seq<real>, gap: real, totalSteps: nat, choices: seq<Choice>)
    requires IsTable(fractions, gap) && totalSteps > 0 && NonNegative(Rates(choices))
    ensures var r := Episode(fractions, totalSteps, choices);
            && 0.0 <= r.q <= 1.0 && 0.0 <= r.desired <= 1.0
            && (!r.ended ==> Abs(r.q - r.desired) <= 0.5 * gap
                             && r.desired == Max(0.0, 1.0 - Sum(Rates(choices)) / (totalSteps as real)))
            && (r.ended ==> r.q == 0.0)
  {
    hide Sold, Sum, NearestAction, IsTable;
    GapIsNonNegative(fractions, gap);
    if choices == [] {
      SumOfNone(choices);
      assert 0.0 / (totalSteps as real) == 0.0;
    } else {
      var n := |choices| - 1;
      var r, c := Episode(fractions, totalSteps, choices[..n]), choices[n];
      assert Rates(choices)[..n] == Rates(choices[..n]);
      TrackerStaysOnPace(fractions, gap, totalSteps, choices[..n]);
      if EndGame(r.q, c.time) {
        SellingEverything(fractions, gap, r.q);
      } else {
        assert Rates(choices)[n] >= 0.0;
        DesiredFalls(r.desired, c.rate, totalSteps);
        TrackingStep(fractions, gap, r.q, r.desired, Desired(r.desired, c.rate, totalSteps));
        PaceAddsUp(Rates(choices), totalSteps);
      }
    }
  }

  lemma SumOfNone(choices: seq<Choice>)
    requires choices == []
    ensures Sum(Rates(choices)) == 0.0
  {
  }

  lemma GapIsNonNegative(fractions: seq<real>, gap: real)
    requires IsTable(fractions, gap)
    ensures gap >= 0.0 && fractions != []
  {
    assert fractions[0] <= fractions[1];
  }

  lemma SellingEverything(fractions: seq<real>, gap: real, q: real)
    requires IsTable(fractions, gap)
    ensures Sold(fractions, q, 1.0) == 0.0
  {
  }

  lemma DesiredFalls(desired: real, rate: real, totalSteps: nat)
    requires totalSteps > 0 && rate >= 0.0 && desired >= 0.0
    ensures 0.0 <= Desired(desired, rate, totalSteps) <= desired
  {
  }

  lemma PaceStep(sum: real, rate: real, t: real)
    requires t > 0.0 && rate >= 0.0
    ensures Max(0.0, Max(0.0, 1.0 - sum / t) - rate / t) == Max(0.0, 1.0 - (sum + rate) / t)
  {
  }

  lemma SumOfLast(xs: seq<real>)
    requires xs != []
    ensures Sum(xs) == Sum(xs[..|xs| - 1]) + xs[|xs| - 1]
  {
  }

  lemma PaceAddsUp(rates: seq<real>, totalSteps: nat)
    requires rates != [] && totalSteps > 0 && NonNegative(rates)
    ensures var n := |rates| - 1;
            Desired(Max(0.0, 1.0 - Sum(rates[..n]) / (totalSteps as real)), rates[n], totalSteps)
            == Max(0.0, 1.0 - Sum(rates) / (totalSteps as real))
  {
    hide Max, Sum;
    SumOfLast(rates);
    PaceStep(Sum(rates[..|rates| - 1]), rates[|rates| - 1], totalSteps as real);
  }
}
