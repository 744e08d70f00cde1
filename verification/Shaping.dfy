/** Charging a trade at once for the impact it leaves: potential-based shaping of an episode's rewards. */
module Shaping {
  import opened Arith

  /** What the wrapped environment returns for one step; impact is in percent. */
  datatype Outcome = Outcome(q: real, t: real, reward: real, terminated: bool, truncated: bool, depthPct: real,
                             permanentPct: real)

  datatype Terms = Terms(k: real, gamma: real, rhoDt: real, exp: real -> real)

  /** The average remaining strength of a temporary impact over the next `n` steps. */
  function DecayWeight(terms: Terms, n: real): real {
    var x := Times(terms.rhoDt, Max(n, 0.0));
    if x < 0.000000001 then 1.0 else (1.0 - terms.exp(-x)) / x
  }

  function Exposure(terms: Terms, o: Outcome, n: real): real {
    var total, permanent := o.depthPct / 100.0, o.permanentPct / 100.0;
    var temporary := Max(total - permanent, 0.0);
    Times(o.q, permanent + Times(temporary, DecayWeight(terms, n)))
  }

  predicate Done(o: Outcome) {
    o.terminated || o.truncated
  }

  function Potential(terms: Terms, horizon: real, o: Outcome): real {
    if Done(o) then 0.0 else -Times(terms.k, Exposure(terms, o, Times(o.t, horizon)))
  }

  class ImpactPotentialShaping {
    const terms: Terms
    var phi: real
    var horizon: real

    constructor (terms: Terms)
      ensures this.terms == terms && phi == 0.0
    {
      this.terms, phi, horizon := terms, 0.0, 0.0;
    }

    method Reset(episodeHorizon: real)
      modifies this
      ensures phi == 0.0 && horizon == episodeHorizon
    {
      horizon, phi := episodeHorizon, 0.0;
    }

    method Step(o: Outcome) returns (reward: real, shaping: real)
      modifies this`phi
      ensures phi == Potential(terms, horizon, o)
      ensures shaping == Times(terms.gamma, phi) - old(phi) && reward == o.reward + shaping
    {
      var next := Potential(terms, horizon, o);
      shaping := Times(terms.gamma, next) - phi;
      phi := next;
      reward := o.reward + shaping;
    }
  }

  /** The stored potential after a run of steps from a reset. */
  function PhiAfter(terms: Terms, horizon: real, os: seq<Outcome>): real {
    if os == [] then 0.0 else Potential(terms, horizon, os[|os| - 1])
  }

  /** The rewards the wrapper returns, starting from a stored potential. */
  function Shaped(terms: Terms, horizon: real, phi: real, os: seq<Outcome>): seq<real>
    decreases |os|
  {
    if os == [] then []
    else
      var next := Potential(terms, horizon, os[0]);
      [os[0].reward + (Times(terms.gamma, next) - phi)] + Shaped(terms, horizon, next, os[1..])
  }

  function Rewards(os: seq<Outcome>): seq<real> {
    seq(|os|, i requires 0 <= i < |os| => os[i].reward)
  }

  /** The discounted return of a run of rewards. */
  function Return(gamma: real, rewards: seq<real>): real {
    if rewards == [] then 0.0 else rewards[0] + Times(gamma, Return(gamma, rewards[1..]))
  }

  function Power(gamma: real, n: nat): real {
    if n == 0 then 1.0 else Times(gamma, Power(gamma, n - 1))
  }

  function LastPhi(terms: Terms, horizon: real, phi: real, os: seq<Outcome>): real {
    if os == [] then phi else Potential(terms, horizon, os[|os| - 1])
  }

  lemma ShapingStep(gamma: real, reward: real, phi: real, next: real, rest: real, power: real, last: real)
    ensures (reward + (Times(gamma, next) - phi)) + Times(gamma, rest + Times(power, last) - next)
         == reward + Times(gamma, rest) + Times(Times(gamma, power), last) - phi
  {
  }

  /** The potential telescopes: only its discounted last value and its first value are left in the return. */
  lemma {:induction false} ShapingTelescopes(terms: Terms, horizon: real, phi: real, os: seq<Outcome>)
    ensures Return(terms.gamma, Shaped(terms, horizon, phi, os))
         == Return(terms.gamma, Rewards(os)) + Times(Power(terms.gamma, |os|), LastPhi(terms, horizon, phi, os)) - phi
    decreases |os|
  {
    hide Times, Potential;
    if os == [] {
      TimesOne(phi);
    } else {
      var next := Potential(terms, horizon, os[0]);
      ShapingTelescopes(terms, horizon, next, os[1..]);
      assert Rewards(os)[1..] == Rewards(os[1..]);
      assert Shaped(terms, horizon, phi, os)[1..] == Shaped(terms, horizon, next, os[1..]);
      ShapingStep(terms.gamma, os[0].reward, phi, next, Return(terms.gamma, Rewards(os[1..])),
                  Power(terms.gamma, |os| - 1), LastPhi(terms, horizon, next, os[1..]));
    }
  }

  lemma {:induction false} PowerVanishes(gamma: real, n: nat)
    ensures Power(gamma, n) == 0.0 <==> n > 0 && gamma == 0.0
  {
    if n > 0 {
      PowerVanishes(gamma, n - 1);
      TimesVanishes(gamma, Power(gamma, n - 1));
    }
  }

  lemma TimesVanishes(a: real, b: real)
    ensures Times(a, b) == 0.0 <==> a == 0.0 || b == 0.0
  {
  }

  /**
    * From a reset, the shaped return differs from the original one by the discounted potential of the last step. The
    * two are the same for every episode that ran to its end; for a run broken off earlier, if and only if nothing is
    * discounted forward, nothing is charged, or the rest is exposed to no impact.
    */
  lemma EpisodeReturnIsUnchanged(terms: Terms, horizon: real, os: seq<Outcome>)
    ensures var shaped := Return(terms.gamma, Shaped(terms, horizon, 0.0, os));
            var original := Return(terms.gamma, Rewards(os));
            && shaped == original + Times(Power(terms.gamma, |os|), PhiAfter(terms, horizon, os))
            && (os == [] || os[|os| - 1].terminated || os[|os| - 1].truncated ==> shaped == original)
            && (os != [] && !os[|os| - 1].terminated && !os[|os| - 1].truncated ==>
                  var last := os[|os| - 1];
                  (shaped == original <==>
                   terms.gamma == 0.0 || terms.k == 0.0 || Exposure(terms, last, Times(last.t, horizon)) == 0.0))
  {
    hide Times, Return, Shaped, Power, Exposure;
    ShapingTelescopes(terms, horizon, 0.0, os);
    TimesZero(Power(terms.gamma, |os|));
    PowerVanishes(terms.gamma, |os|);
    TimesVanishes(Power(terms.gamma, |os|), PhiAfter(terms, horizon, os));
    if os != [] {
      var last := os[|os| - 1];
      TimesVanishes(terms.k, Exposure(terms, last, Times(last.t, horizon)));
    }
  }

  /** Which of two complete episodes is the better one does not change, whatever the potential. */
  lemma RankingIsKept(terms: Terms, h1: real, os1: seq<Outcome>, h2: real, os2: seq<Outcome>)
    requires os1 != [] && Done(os1[|os1| - 1]) && os2 != [] && Done(os2[|os2| - 1])
    ensures Return(terms.gamma, Shaped(terms, h1, 0.0, os1)) <= Return(terms.gamma, Shaped(terms, h2, 0.0, os2))
            <==> Return(terms.gamma, Rewards(os1)) <= Return(terms.gamma, Rewards(os2))
  {
    hide Return, Shaped;
    EpisodeReturnIsUnchanged(terms, h1, os1);
    EpisodeReturnIsUnchanged(terms, h2, os2);
  }

  // ----- The size of the charge -----

  /** What is used of the exponential. */
  ghost predicate IsExp(exp: real -> real) {
    forall y: real :: y <= 0.0 ==> 0.0 < exp(y) <= 1.0 && exp(y) >= 1.0 + y
  }

  lemma WeightIsFraction(terms: Terms, n: real)
    requires IsExp(terms.exp)
    ensures 0.0 <= DecayWeight(terms, n) <= 1.0
  {
  }

  /**
    * While an episode lasts the stored potential is minus `k` times what is left times its impact in percent: the
    * permanent part and the average over the steps that remain of a temporary part that fades exponentially.
    */
  lemma PotentialIsCharge(terms: Terms, horizon: real, o: Outcome) returns (weight: real)
    requires !Done(o)
    ensures var x := Times(terms.rhoDt, Max(Times(o.t, horizon), 0.0));
            if x < 0.000000001 then weight == 1.0 else Times(weight, x) == 1.0 - terms.exp(-x)
    ensures 100.0 * Potential(terms, horizon, o)
         == -Times(terms.k, Times(o.q, o.permanentPct + Times(Max(o.depthPct - o.permanentPct, 0.0), weight)))
  {
    weight := DecayWeight(terms, Times(o.t, horizon));
    WeightIsAverage(terms, Times(o.t, horizon));
    hide DecayWeight, Times;
    ChargeInPercent(terms.k, o.q, o.permanentPct, o.depthPct, weight);
  }

  lemma WeightIsAverage(terms: Terms, n: real)
    ensures var x := Times(terms.rhoDt, Max(n, 0.0));
            if x < 0.000000001 then DecayWeight(terms, n) == 1.0
            else Times(DecayWeight(terms, n), x) == 1.0 - terms.exp(-x)
  {
    var x := Times(terms.rhoDt, Max(n, 0.0));
    hide Times;
    if x >= 0.000000001 {
      QuotientTimes(1.0 - terms.exp(-x), x);
    }
  }

  lemma QuotientTimes(n: real, x: real)
    requires x > 0.0
    ensures Times(n / x, x) == n
  {
  }

  lemma ChargeInPercent(k: real, q: real, permanent: real, depth: real, w: real)
    ensures 100.0 * Times(k, Times(q, permanent / 100.0 + Times(Max(depth / 100.0 - permanent / 100.0, 0.0), w)))
         == Times(k, Times(q, permanent + Times(Max(depth - permanent, 0.0), w)))
  {
    var a, b := permanent / 100.0, Max(depth / 100.0 - permanent / 100.0, 0.0);
    assert permanent == 100.0 * a && Max(depth - permanent, 0.0) == 100.0 * b;
    assert 100.0 * (k * (q * (a + b * w))) == k * (q * (100.0 * a + 100.0 * b * w));
  }

  /** The stored potential is never a gain and never exceeds `k` times the remaining inventory's total impact. */
  lemma PotentialIsBounded(terms: Terms, horizon: real, o: Outcome)
    requires IsExp(terms.exp) && terms.k >= 0.0 && o.q >= 0.0 && o.permanentPct >= 0.0
    ensures -Times(terms.k, Times(o.q, Max(o.depthPct, o.permanentPct) / 100.0)) <= Potential(terms, horizon, o) <= 0.0
  {
    hide Times, DecayWeight, IsExp;
    var total, permanent := o.depthPct / 100.0, o.permanentPct / 100.0;
    var temporary := Max(total - permanent, 0.0);
    var n := Times(o.t, horizon);
    WeightIsFraction(terms, n);
    Shrinks(temporary, DecayWeight(terms, n));
    var inner, outer := permanent + Times(temporary, DecayWeight(terms, n)), Max(o.depthPct, o.permanentPct) / 100.0;
    assert 0.0 <= inner <= outer;
    Nested(terms.k, o.q, inner, outer);
  }

  lemma Shrinks(x: real, w: real)
    requires x >= 0.0 && 0.0 <= w <= 1.0
    ensures 0.0 <= Times(x, w) <= x
  {
  }

  lemma Nested(k: real, q: real, inner: real, outer: real)
    requires k >= 0.0 && q >= 0.0 && 0.0 <= inner <= outer
    ensures 0.0 <= Times(k, Times(q, inner)) <= Times(k, Times(q, outer))
  {
  }
}
