/**
  * Lingering price impact of past trades, and the error made by forgetting old ones.
  *
  * The decay of a unit impact over a time span is a parameter: the program uses exp(-rho * dt). All that
  * the proofs use of it is stated in `IsDecay`.
  */
module TransientImpact {
  import opened Arith

  const PRUNE_LEVEL := 0.00000001

  datatype TradeEvent = TradeEvent(timestamp: int, baseImpact: real)

  // ----- The decay curve -----

  ghost predicate Multiplies(decay: int -> real, a: nat, b: nat) {
    decay(a + b) == decay(a) * decay(b)
  }

  /** A positive decreasing homomorphism that is at most PRUNE_LEVEL exactly from `cutoff` on. */
  ghost predicate IsDecay(decay: int -> real, cutoff: int) {
    && decay(0) == 1.0
    && (forall d: nat :: decay(d) > 0.0)
    && (forall a: nat, b: nat :: Multiplies(decay, a, b))
    && (forall a: nat, b: nat :: a <= b ==> decay(b) <= decay(a))
    && (forall d: nat :: d >= cutoff <==> decay(d) <= PRUNE_LEVEL)
  }

  /** The part of `IsDecay` that bounds the pruning error. */
  ghost predicate FadesFrom(decay: int -> real, cutoff: int) {
    forall d: nat :: 0.0 < decay(d) && (d >= cutoff ==> decay(d) <= PRUNE_LEVEL)
  }

  lemma DecayFades(decay: int -> real, cutoff: int)
    requires IsDecay(decay, cutoff)
    ensures FadesFrom(decay, cutoff)
  {
  }

  lemma CutoffIsPositive(decay: int -> real, cutoff: int)
    requires IsDecay(decay, cutoff)
    ensures decay(0) == 1.0 && cutoff > 0
  {
  }

  /** Halving at every tick: a curve that meets `IsDecay`, so the predicate is satisfiable. */
  function Halving(d: int): real {
    if d <= 0 then 1.0 else 0.5 * Halving(d - 1)
  }

  lemma HalfProduct(x: real, y: real, p: real)
    requires p == x * y
    ensures 0.5 * p == x * (0.5 * y)
  {
  }

  lemma HalvingStep(d: nat)
    ensures Halving(d) == if d == 0 then 1.0 else 0.5 * Halving(d - 1)
  {
  }

  lemma {:induction false} HalvingMultiplies(a: nat, b: nat)
    ensures Halving(a + b) == Halving(a) * Halving(b)
  {
    hide Halving;
    HalvingStep(b);
    if b == 0 {
      assert a + b == a;
    } else {
      HalvingMultiplies(a, b - 1);
      HalvingStep(a + b);
      HalfProduct(Halving(a), Halving(b - 1), Halving(a + (b - 1)));
    }
  }

  lemma {:induction false} HalvingPositive(a: nat, b: nat)
    requires a <= b
    ensures 0.0 < Halving(b) <= Halving(a)
  {
    if a < b {
      HalvingPositive(a, b - 1);
    } else if a > 0 {
      HalvingPositive(a - 1, a - 1);
    }
  }

  lemma HalvingAtCutoff()
    ensures Halving(27) <= PRUNE_LEVEL < Halving(26)
  {
    assert Halving(3) == 0.125;
    HalvingMultiplies(3, 3);
    HalvingMultiplies(6, 6);
    HalvingMultiplies(12, 12);
    HalvingMultiplies(24, 3);
    assert Halving(26) == 2.0 * Halving(27);
  }

  lemma HalvingCutoff(d: nat)
    ensures Halving(d) > 0.0 && (d >= 27 <==> Halving(d) <= PRUNE_LEVEL)
  {
    HalvingPositive(d, d);
    HalvingAtCutoff();
    if d >= 27 {
      HalvingPositive(27, d);
    } else {
      HalvingPositive(d, 26);
    }
  }

  lemma HalvingMultipliesPair(a: nat, b: nat)
    ensures Multiplies(Halving, a, b)
  {
    HalvingMultiplies(a, b);
    hide Halving;
  }

  lemma HalvingMultipliesAll()
    ensures forall a: nat, b: nat :: Multiplies(Halving, a, b)
  {
    hide Halving, Multiplies;
    forall a: nat, b: nat ensures Multiplies(Halving, a, b) {
      HalvingMultipliesPair(a, b);
    }
  }

  lemma HalvingIsDecay()
    ensures IsDecay(Halving, 27)
  {
    HalvingStep(0);
    HalvingMultipliesAll();
    hide Halving, Multiplies;
    forall a: nat, b: nat | a <= b ensures Halving(b) <= Halving(a) {
      HalvingPositive(a, b);
    }
    forall d: nat ensures Halving(d) > 0.0 && (d >= 27 <==> Halving(d) <= PRUNE_LEVEL) {
      HalvingCutoff(d);
    }
  }

  // ----- Specification -----

  function Elapsed(now: int, e: TradeEvent): nat {
    if now - e.timestamp > 0 then now - e.timestamp else 0
  }

  /** What is left at time `now` of one trade's impact. */
  function Lingering(e: TradeEvent, decay: int -> real, now: int): real {
    e.baseImpact * decay(Elapsed(now, e))
  }

  /** Total decayed impact at time `now`. */
  function Impact(history: seq<TradeEvent>, decay: int -> real, now: int): real {
    if history == [] then 0.0
    else
      var e := history[|history| - 1];
      Impact(history[..|history| - 1], decay, now) + Lingering(e, decay, now)
  }

  /** The trades that pruning at `now` keeps. */
  function Retained(history: seq<TradeEvent>, cutoff: int, now: int): seq<TradeEvent> {
    if history == [] then []
    else
      var e := history[|history| - 1];
      var front := Retained(history[..|history| - 1], cutoff, now);
      if now - e.timestamp < cutoff then front + [e] else front
  }

  /** The trades that pruning at `now` forgets. */
  function Dropped(history: seq<TradeEvent>, cutoff: int, now: int): seq<TradeEvent> {
    if history == [] then []
    else
      var e := history[|history| - 1];
      var front := Dropped(history[..|history| - 1], cutoff, now);
      if now - e.timestamp < cutoff then front else front + [e]
  }

  function Recorded(history: seq<TradeEvent>, cutoff: int, now: int, base: real): seq<TradeEvent> {
    if base <= 0.0 then history else Retained(history + [TradeEvent(now, base)], cutoff, now)
  }

  function TotalBase(history: seq<TradeEvent>): real {
    if history == [] then 0.0
    else TotalBase(history[..|history| - 1]) + history[|history| - 1].baseImpact
  }

  ghost predicate UpTo(history: seq<TradeEvent>, now: int) {
    forall i :: 0 <= i < |history| ==> history[i].timestamp <= now && history[i].baseImpact > 0.0
  }

  // ----- The tracker -----

  class TransientImpactTracker {
    var history: seq<TradeEvent>
    const decay: int -> real
    const cutoff: int

    constructor (decay: int -> real, cutoff: int)
      ensures history == [] && this.decay == decay && this.cutoff == cutoff
    {
      history := [];
      this.decay, this.cutoff := decay, cutoff;
    }

    method RecordTrade(now: int, baseImpact: real)
      modifies this
      ensures history == Recorded(old(history), cutoff, now, baseImpact)
    {
      if baseImpact <= 0.0 {
        return;
      }
      history := history + [TradeEvent(now, baseImpact)];
      var kept := [];
      for i := 0 to |history|
        invariant kept == Retained(history[..i], cutoff, now)
        invariant history == old(history) + [TradeEvent(now, baseImpact)]
      {
        assert history[..i + 1][..i] == history[..i];
        if now - history[i].timestamp < cutoff {
          kept := kept + [history[i]];
        }
      }
      assert history[..|history|] == history;
      history := kept;
    }

    method CurrentImpact(now: int) returns (total: real)
      ensures total == Impact(history, decay, now)
    {
      total := 0.0;
      for i := 0 to |history|
        invariant total == Impact(history[..i], decay, now)
      {
        assert history[..i + 1][..i] == history[..i];
        total := total + history[i].baseImpact * decay(Elapsed(now, history[i]));
      }
      assert history[..|history|] == history;
    }
  }

  // ----- Decay between trades -----

  lemma LingeringDecays(e: TradeEvent, decay: int -> real, cutoff: int, now: int, d: nat)
    requires IsDecay(decay, cutoff) && e.timestamp <= now
    ensures Lingering(e, decay, now + d) == Lingering(e, decay, now) * decay(d)
  {
    assert Multiplies(decay, Elapsed(now, e), d);
    assert Elapsed(now + d, e) == Elapsed(now, e) + d;
    var x, y, z := e.baseImpact, decay(Elapsed(now, e)), decay(d);
    assert x * (y * z) == (x * y) * z;
  }

  lemma Distributes(x: real, y: real, f: real)
    ensures (x + y) * f == x * f + y * f
  {
  }

  lemma {:induction false} ImpactDecays(history: seq<TradeEvent>, decay: int -> real, cutoff: int, now: int, d: nat)
    requires IsDecay(decay, cutoff) && UpTo(history, now)
    ensures Impact(history, decay, now + d) == Impact(history, decay, now) * decay(d)
  {
    hide Lingering, IsDecay;
    if history != [] {
      var e := history[|history| - 1];
      ImpactDecays(history[..|history| - 1], decay, cutoff, now, d);
      LingeringDecays(e, decay, cutoff, now, d);
      Distributes(Impact(history[..|history| - 1], decay, now), Lingering(e, decay, now), decay(d));
    }
  }

  // ----- Pruning error -----

  lemma ImpactSnoc(history: seq<TradeEvent>, e: TradeEvent, decay: int -> real, at: int)
    ensures Impact(history + [e], decay, at) == Impact(history, decay, at) + Lingering(e, decay, at)
    ensures TotalBase(history + [e]) == TotalBase(history) + e.baseImpact
  {
  }

  lemma LingeringFades(e: TradeEvent, decay: int -> real, cutoff: int, at: int)
    requires FadesFrom(decay, cutoff) && e.baseImpact > 0.0 && at - e.timestamp >= cutoff
    ensures 0.0 <= Lingering(e, decay, at) <= PRUNE_LEVEL * e.baseImpact
  {
  }

  lemma {:induction false} PruningPartitions(history: seq<TradeEvent>, cutoff: int, now: int)
    requires UpTo(history, now)
    ensures UpTo(Retained(history, cutoff, now), now)
    ensures multiset(history) == multiset(Retained(history, cutoff, now)) + multiset(Dropped(history, cutoff, now))
  {
    if history != [] {
      var front := history[..|history| - 1];
      assert history == front + [history[|history| - 1]];
      PruningPartitions(front, cutoff, now);
    }
  }

  /** One pruning loses at most PRUNE_LEVEL of what it drops, now and at every later time. */
  lemma {:induction false} PruneOnce(history: seq<TradeEvent>, decay: int -> real, cutoff: int, now: int, at: int)
    requires FadesFrom(decay, cutoff) && UpTo(history, now) && now <= at
    ensures var lost := Impact(history, decay, at) - Impact(Retained(history, cutoff, now), decay, at);
            0.0 <= lost <= PRUNE_LEVEL * TotalBase(Dropped(history, cutoff, now))
  {
    hide Lingering;
    if history != [] {
      var front := history[..|history| - 1];
      var e := history[|history| - 1];
      PruneOnce(front, decay, cutoff, now, at);
      if now - e.timestamp < cutoff {
        ImpactSnoc(Retained(front, cutoff, now), e, decay, at);
      } else {
        ImpactSnoc(Dropped(front, cutoff, now), e, decay, at);
        LingeringFades(e, decay, cutoff, at);
      }
    }
  }

  /** What a tracker holds, has dropped and would hold without pruning, after recording `trades` in turn. */
  datatype Ledger = Ledger(kept: seq<TradeEvent>, dropped: seq<TradeEvent>, all: seq<TradeEvent>)

  function RecordAll(trades: seq<TradeEvent>, cutoff: int): Ledger {
    if trades == [] then Ledger([], [], [])
    else
      var l := RecordAll(trades[..|trades| - 1], cutoff);
      var e := trades[|trades| - 1];
      if e.baseImpact <= 0.0 then l
      else Ledger(Recorded(l.kept, cutoff, e.timestamp, e.baseImpact),
                  l.dropped + Dropped(l.kept + [e], cutoff, e.timestamp),
                  l.all + [e])
  }

  ghost predicate Monotone(trades: seq<TradeEvent>) {
    forall i, j :: 0 <= i <= j < |trades| ==> trades[i].timestamp <= trades[j].timestamp
  }

  lemma {:induction false} TotalBaseAppend(a: seq<TradeEvent>, b: seq<TradeEvent>)
    ensures TotalBase(a + b) == TotalBase(a) + TotalBase(b)
  {
    if b == [] {
      assert a + b == a;
    } else {
      assert (a + b)[..|a + b| - 1] == a + b[..|b| - 1];
      TotalBaseAppend(a, b[..|b| - 1]);
    }
  }

  lemma {:induction false} KeptUpTo(trades: seq<TradeEvent>, cutoff: int)
    requires Monotone(trades)
    ensures trades == [] ==> RecordAll(trades, cutoff).kept == []
    ensures trades != [] ==> UpTo(RecordAll(trades, cutoff).kept, trades[|trades| - 1].timestamp)
  {
    if trades != [] {
      var front := trades[..|trades| - 1];
      var e := trades[|trades| - 1];
      KeptUpTo(front, cutoff);
      if e.baseImpact > 0.0 {
        KeptBeforeNext(trades, cutoff);
        PruningPartitions(RecordAll(front, cutoff).kept + [e], cutoff, e.timestamp);
      }
    }
  }

  lemma KeptBeforeNext(trades: seq<TradeEvent>, cutoff: int)
    requires Monotone(trades) && trades != [] && trades[|trades| - 1].baseImpact > 0.0
    requires var front := trades[..|trades| - 1];
             && (front == [] ==> RecordAll(front, cutoff).kept == [])
             && (front != [] ==> UpTo(RecordAll(front, cutoff).kept, front[|front| - 1].timestamp))
    ensures UpTo(RecordAll(trades[..|trades| - 1], cutoff).kept + [trades[|trades| - 1]],
                 trades[|trades| - 1].timestamp)
  {
  }

  lemma PartitionSnoc(all: seq<TradeEvent>, kept: seq<TradeEvent>, dropped: seq<TradeEvent>, e: TradeEvent,
                      retained: seq<TradeEvent>, lost: seq<TradeEvent>)
    requires multiset(all) == multiset(kept) + multiset(dropped)
    requires multiset(kept + [e]) == multiset(retained) + multiset(lost)
    ensures multiset(all + [e]) == multiset(retained) + multiset(dropped + lost)
  {
    assert multiset(kept + [e]) == multiset(kept) + multiset([e]);
    assert multiset(all + [e]) == multiset(kept) + multiset(dropped) + multiset([e])
                               == (multiset(kept) + multiset([e])) + multiset(dropped);
    assert multiset(dropped + lost) == multiset(dropped) + multiset(lost);
  }

  /** Every recorded trade is either still held or was dropped. */
  lemma {:induction false} RecordAllPartitions(trades: seq<TradeEvent>, cutoff: int)
    requires Monotone(trades)
    ensures var l := RecordAll(trades, cutoff); multiset(l.all) == multiset(l.kept) + multiset(l.dropped)
  {
    if trades != [] {
      var front := trades[..|trades| - 1];
      var e := trades[|trades| - 1];
      RecordAllPartitions(front, cutoff);
      if e.baseImpact > 0.0 {
        KeptUpTo(front, cutoff);
        KeptBeforeNext(trades, cutoff);
        hide UpTo, Monotone;
        var l := RecordAll(front, cutoff);
        var seen := l.kept + [e];
        PruningPartitions(seen, cutoff, e.timestamp);
        hide Retained, Dropped;
        PartitionSnoc(l.all, l.kept, l.dropped, e,
                      Retained(seen, cutoff, e.timestamp), Dropped(seen, cutoff, e.timestamp));
      }
    }
  }

  /** The pruned tracker never overstates, and understates by at most PRUNE_LEVEL times what it dropped. */
  lemma {:induction false} PruningError(trades: seq<TradeEvent>, decay: int -> real, cutoff: int, at: int)
    requires FadesFrom(decay, cutoff) && Monotone(trades)
    requires trades != [] ==> trades[|trades| - 1].timestamp <= at
    ensures var l := RecordAll(trades, cutoff);
            0.0 <= Impact(l.all, decay, at) - Impact(l.kept, decay, at) <= PRUNE_LEVEL * TotalBase(l.dropped)
  {
    if trades != [] {
      var front := trades[..|trades| - 1];
      var e := trades[|trades| - 1];
      PruningError(front, decay, cutoff, at);
      if e.baseImpact > 0.0 {
        var l := RecordAll(front, cutoff);
        KeptUpTo(front, cutoff);
        KeptBeforeNext(trades, cutoff);
        hide Impact, TotalBase, Lingering, UpTo, Monotone, FadesFrom, Retained, Dropped;
        PruneOnce(l.kept + [e], decay, cutoff, e.timestamp, at);
        ImpactSnoc(l.all, e, decay, at);
        ImpactSnoc(l.kept, e, decay, at);
        TotalBaseAppend(l.dropped, Dropped(l.kept + [e], cutoff, e.timestamp));
      }
    }
  }
}
