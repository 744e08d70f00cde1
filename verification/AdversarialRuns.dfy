/**
  * Runs of sales against the adversarial book with fresh books swapped in between: when what was pulled comes back,
  * when it is stranded, and what a fresh book adds.
  */
module AdversarialRuns {
  import opened Arith
  import opened Books
  import opened Adversarial

  // ----- Runs -----

  /**
    * A sale, or a fresh book in which one unit owed counts as `unit` units: 1 when the book of the adversary is
    * updated, the rescaling of quantities when a historical snapshot arrives, 0 when a new episode ignores what is
    * owed.
    */
  datatype Move = Sale(quantity: real) | Refresh(levels: seq<PriceLevel>, unit: real)

  function Next(p: Adversary, s: State, m: Move): State {
    match m
    case Sale(quantity) => Fill(p, s, quantity).state
    case Refresh(levels, unit) => State(Swapped(s.held, levels, unit), s.flow)
  }

  function Run(p: Adversary, s: State, moves: seq<Move>): State {
    if moves == [] then s else Next(p, Run(p, s, moves[..|moves| - 1]), moves[|moves| - 1])
  }

  /** Every fresh book is a ladder under `cap`. */
  ghost predicate Supplied(moves: seq<Move>, cap: real) {
    forall i :: 0 <= i < |moves| && moves[i].Refresh? ==> IsLadder(moves[i].levels, cap) && moves[i].unit >= 0.0
  }

  predicate OnlySales(moves: seq<Move>) {
    forall i :: 0 <= i < |moves| ==> moves[i].Sale?
  }

  lemma {:induction false} RunAppend(p: Adversary, s: State, a: seq<Move>, b: seq<Move>)
    ensures Run(p, s, a + b) == Run(p, Run(p, s, a), b)
  {
    hide Next;
    if b == [] {
      assert a + b == a;
    } else {
      RunAppend(p, s, a, b[..|b| - 1]);
      assert (a + b)[..|a + b| - 1] == a + b[..|b| - 1];
    }
  }

  lemma SwappedIsSound(s: State, levels: seq<PriceLevel>, unit: real, cap: real)
    requires IsLadder(levels, cap) && unit >= 0.0 && NonNegative(s.held.deficits)
    ensures Sound(State(Swapped(s.held, levels, unit), s.flow), cap)
  {
    hide IsLadder, Times;
    var r := Swapped(s.held, levels, unit).levels;
    forall i | 0 <= i < |levels| ensures r[i].price == levels[i].price && r[i].quantity >= 0.0 {
      LadderQuantity(levels, cap, i);
    }
    SamePricesKeepLadder(levels, r, cap);
  }

  lemma NextIsSound(p: Adversary, s: State, cap: real, m: Move)
    requires Sound(s, cap) && 0.0 <= p.withdrawalPct <= 1.0
    requires m.Refresh? ==> IsLadder(m.levels, cap) && m.unit >= 0.0
    ensures Sound(Next(p, s, m), cap)
  {
    match m
    case Sale(quantity) =>
      hide Fill;
      FillAccounts(p, s, cap, quantity);
    case Refresh(levels, unit) =>
      hide Swapped;
      SwappedIsSound(s, levels, unit, cap);
  }

  lemma {:induction false} RunIsSound(p: Adversary, s: State, cap: real, moves: seq<Move>)
    requires Sound(s, cap) && 0.0 <= p.withdrawalPct <= 1.0 && Supplied(moves, cap)
    ensures Sound(Run(p, s, moves), cap)
  {
    if moves != [] {
      hide Next, Sound, IsLadder;
      var n := |moves| - 1;
      RunIsSound(p, s, cap, moves[..n]);
      NextIsSound(p, Run(p, s, moves[..n]), cap, moves[n]);
    }
  }

  // ----- Which positions a sale takes away -----

  /** The walk of `q` leaves no position `i`: it is past a speck at the level that closes it, and takes that level. */
  predicate Loses(levels: seq<PriceLevel>, q: real, i: nat)
    requires i < |levels|
  {
    var m := |levels| - i;
    q - Depth(levels[..m - 1]) > SPECK && Depth(levels[..m]) <= q
  }

  lemma LosesBeyond(levels: seq<PriceLevel>, q: real, i: nat)
    requires i + 1 < |levels|
    ensures Loses(levels, q, i) <==> Loses(levels[1..], q - levels[0].quantity, i)
  {
    var m := |levels| - i;
    DepthOfPrefix(levels, m);
    DepthOfPrefix(levels, m - 1);
  }

  /** Levels go from the top, positions from the end. */
  lemma {:induction false} WalkLoses(levels: seq<PriceLevel>, cap: real, q: real, i: nat)
    requires IsLadder(levels, cap) && i < |levels|
    ensures |Walk(levels, q).levels| <= |levels|
    ensures i >= |Walk(levels, q).levels| <==> Loses(levels, q, i)
    decreases |levels|
  {
    hide Times, Loses;
    NoLossWithoutFirst(levels, cap, q, i);
    if q <= SPECK {
    } else if levels[0].quantity <= q {
      if i + 1 < |levels| {
        WalkLoses(levels[1..], levels[0].price, q - levels[0].quantity, i);
        LosesBeyond(levels, q, i);
      } else {
        WalkShrinks(levels[1..], q - levels[0].quantity);
        LastPosition(levels, q);
      }
    }
  }

  lemma {:induction false} WalkShrinks(levels: seq<PriceLevel>, q: real)
    ensures |Walk(levels, q).levels| <= |levels|
    decreases |levels|
  {
    hide Times;
    if levels != [] && q > SPECK && levels[0].quantity <= q {
      WalkShrinks(levels[1..], q - levels[0].quantity);
    }
  }

  lemma LastPosition(levels: seq<PriceLevel>, q: real)
    requires levels != []
    ensures Loses(levels, q, |levels| - 1) <==> q > SPECK && levels[0].quantity <= q
  {
    assert |levels| - (|levels| - 1) == 1;
    FirstDepths(levels);
    hide Depth;
  }

  lemma FirstDepths(levels: seq<PriceLevel>)
    requires levels != []
    ensures Depth(levels[..0]) == 0.0 && Depth(levels[..1]) == levels[0].quantity
  {
    assert levels[..1][1..] == [];
  }

  lemma NoLossWithoutFirst(levels: seq<PriceLevel>, cap: real, q: real, i: nat)
    requires IsLadder(levels, cap) && i < |levels|
    ensures Loses(levels, q, i) ==> q > SPECK && levels[0].quantity <= q
  {
    var m := |levels| - i;
    PrefixDepthRises(levels, cap, m - 1);
    PrefixDepthMono(levels, cap, 1, m);
    FirstDepths(levels);
    hide Depth;
  }

  // ----- What one sale does to what is owed -----

  predicate Triggers(p: Adversary, f: Filled) {
    Depth(f.open) > 0.0 && f.ours.filled > p.sensitivity * Depth(f.open)
  }

  /** The counter that the sale's recovery step sees. */
  function Counter(p: Adversary, s: State, f: Filled): nat {
    if Triggers(p, f) then p.recoverySteps else s.held.counter
  }

  /** What is owed at a position before the sale's recovery step. */
  function OwedAt(p: Adversary, s: State, f: Filled, i: nat): real {
    At(s.held.deficits, i)
    + if Triggers(p, f) && i < |f.ours.levels| then Pull(f.ours.levels[i], p.withdrawalPct) else 0.0
  }

  /** A deficit after one recovery step. */
  function Eased(d: real, counter: nat): real {
    if counter > 0 && d > 0.0 then d - Share(d, counter) else d
  }

  lemma SaleOwes(p: Adversary, s: State, cap: real, qty: real)
    requires Sound(s, cap)
    ensures var f := Fill(p, s, qty);
            var h, c := f.state.held, Counter(p, s, f);
            && |h.levels| == |f.ours.levels| <= |f.open| <= |s.held.levels|
            && |h.deficits| >= |s.held.deficits|
            && h.counter == (if c == 0 then 0 else c - 1)
            && (forall i: nat :: At(h.deficits, i)
                  == if i < |f.ours.levels| then Eased(OwedAt(p, s, f, i), c) else At(s.held.deficits, i))
  {
    var f := Fill(p, s, qty);
    WalkShrinks(s.held.levels, f.copy);
    WalkShrinks(f.open, qty);
    hide Walk, Depth, IsLadder, Observed, Pull, Share, CopyQty;
    var h0 := s.held.(levels := f.ours.levels);
    var held := PostFill(h0, p.sensitivity, p.withdrawalPct, p.recoverySteps, f.ours.filled, Depth(f.open));
    forall i: nat ensures At(held.deficits, i) == OwedAt(p, s, f, i) {
    }
  }

  // ----- Nothing is owed when the counter has run out -----

  ghost predicate OwesNothing(h: Held) {
    forall i: nat :: At(h.deficits, i) == 0.0
  }

  /** The sale takes away position `i`: the front-runner's part of it, or else ours. */
  predicate Vanishes(p: Adversary, s: State, qty: real, i: nat)
    requires i < |s.held.levels|
  {
    var f := Fill(p, s, qty);
    if f.copy > MIN_COPY && Loses(s.held.levels, f.copy, i) then true
    else i < |f.open| && Loses(f.open, qty, i)
  }

  /** The ladder has position `i`, and the sale does not take it away. */
  predicate Survives(p: Adversary, s: State, qty: real, i: nat) {
    i < |s.held.levels| && !Vanishes(p, s, qty, i)
  }

  lemma SurvivingPositions(p: Adversary, s: State, cap: real, qty: real, i: nat)
    requires Sound(s, cap)
    ensures Survives(p, s, qty, i) <==> i < |Fill(p, s, qty).ours.levels|
  {
    hide Walk, Depth, IsLadder, PostFill, Recovered, Observed, Loses, CopyQty;
    var f := Fill(p, s, qty);
    CopyLeaves(s.held.levels, cap, f.copy);
    if f.copy > MIN_COPY {
      WalkShrinks(s.held.levels, f.copy);
    }
    WalkShrinks(f.open, qty);
    if i < |s.held.levels| {
      WalkLoses(s.held.levels, cap, f.copy, i);
      if i < |f.open| {
        WalkLoses(f.open, cap, qty, i);
      }
    }
  }

  lemma EasedIsNonNegative(d: real, counter: nat)
    requires d >= 0.0
    ensures Eased(d, counter) >= 0.0 && (counter == 1 ==> Eased(d, counter) == 0.0)
  {
    if counter > 0 {
      ShareIsPart(d, counter);
    }
  }

  lemma SoundDeficit(s: State, cap: real, i: nat)
    requires Sound(s, cap)
    ensures At(s.held.deficits, i) >= 0.0
  {
  }

  lemma EasedNothing(d: real)
    ensures Eased(d, 0) == d
  {
  }

  lemma OwedIsNonNegative(p: Adversary, s: State, cap: real, qty: real, i: nat)
    requires Sound(s, cap) && 0.0 <= p.withdrawalPct <= 1.0
    ensures OwedAt(p, s, Fill(p, s, qty), i) >= 0.0
  {
    hide Walk, IsLadder, PostFill, Recovered, Observed, AfterCopy, CopyQty, Pull;
    var f := Fill(p, s, qty);
    CopyLeaves(s.held.levels, cap, f.copy);
    WalkFills(f.open, cap, qty);
    if i < |f.ours.levels| {
      LadderQuantity(f.ours.levels, cap, i);
      PullIsPart(f.ours.levels[i], p.withdrawalPct);
    }
  }

  /**
    * A sale whose recovery step sees the counter at one leaves nothing owed at a position if and only if nothing was
    * owed there, or the position survives the sale. Without a trigger a counter at zero changes nothing.
    */
  lemma CountdownSettles(p: Adversary, s: State, cap: real, qty: real, i: nat)
    requires Sound(s, cap) && 0.0 <= p.withdrawalPct <= 1.0
    ensures var f := Fill(p, s, qty);
            var h, c := f.state.held, Counter(p, s, f);
            && h.counter == (if c == 0 then 0 else c - 1)
            && (c == 1 ==> (At(h.deficits, i) == 0.0 <==> At(s.held.deficits, i) == 0.0 || Survives(p, s, qty, i)))
            && (c == 0 && !Triggers(p, f) ==> At(h.deficits, i) == At(s.held.deficits, i))
  {
    hide Fill, Eased, Sound, Survives;
    var f := Fill(p, s, qty);
    SaleOwes(p, s, cap, qty);
    SurvivingPositions(p, s, cap, qty, i);
    OwedIsNonNegative(p, s, cap, qty, i);
    EasedIsNonNegative(OwedAt(p, s, f, i), 1);
    EasedNothing(OwedAt(p, s, f, i));
  }

  /**
    * What a run has settled at position `i`: the last sale to bring the counter to zero found nothing owed there, or
    * left the position in the book.
    */
  ghost predicate SettledAt(p: Adversary, s: State, moves: seq<Move>, i: nat) {
    if moves == [] then At(s.held.deficits, i) == 0.0
    else
      var front, t := moves[..|moves| - 1], Run(p, s, moves[..|moves| - 1]);
      match moves[|moves| - 1]
      case Refresh(_, _) => SettledAt(p, s, front, i)
      case Sale(quantity) =>
        if Counter(p, t, Fill(p, t, quantity)) == 1 then
          At(t.held.deficits, i) == 0.0 || Survives(p, t, quantity, i)
        else SettledAt(p, s, front, i)
  }

  /**
    * Over every run of sales and fresh books: with the counter at zero, a position is owed nothing if and only if
    * settled.
    */
  lemma {:induction false} RunSettlesPosition(p: Adversary, s: State, cap: real, moves: seq<Move>, i: nat)
    requires Sound(s, cap) && Supplied(moves, cap) && 0.0 <= p.withdrawalPct <= 1.0 && p.recoverySteps > 0
    ensures var h := Run(p, s, moves).held;
            h.counter == 0 ==> (At(h.deficits, i) == 0.0 <==> SettledAt(p, s, moves, i))
  {
    hide Fill, Sound, Survives, Swapped, IsLadder;
    if moves != [] {
      var n := |moves| - 1;
      RunSettlesPosition(p, s, cap, moves[..n], i);
      RunIsSound(p, s, cap, moves[..n]);
      if moves[n].Sale? {
        CountdownSettles(p, Run(p, s, moves[..n]), cap, moves[n].quantity, i);
      } else {
        SwappedKeepsDeficits(Run(p, s, moves[..n]).held, moves[n].levels, moves[n].unit);
      }
    }
  }

  lemma SwappedKeepsDeficits(h: Held, levels: seq<PriceLevel>, unit: real)
    ensures var r := Swapped(h, levels, unit);
            r.deficits == h.deficits && r.counter == h.counter && |r.levels| == |levels|
  {
  }

  ghost predicate Settled(p: Adversary, s: State, moves: seq<Move>) {
    forall i: nat :: SettledAt(p, s, moves, i)
  }

  /**
    * Over every run of sales and fresh books, when the counter has run out nothing is owed if and only if the last sale
    * to bring it there found what was owed at positions that survived it.
    */
  lemma RunStaysClean(p: Adversary, s: State, cap: real, moves: seq<Move>)
    requires Sound(s, cap) && Supplied(moves, cap) && 0.0 <= p.withdrawalPct <= 1.0 && p.recoverySteps > 0
    ensures var h := Run(p, s, moves).held;
            h.counter == 0 ==> (OwesNothing(h) <==> Settled(p, s, moves))
  {
    hide Run, Sound, Supplied, SettledAt;
    var h := Run(p, s, moves).held;
    if h.counter == 0 && Settled(p, s, moves) {
      forall i: nat ensures At(h.deficits, i) == 0.0 {
        RunSettlesPosition(p, s, cap, moves, i);
      }
    }
    if h.counter == 0 && OwesNothing(h) {
      forall i: nat ensures SettledAt(p, s, moves, i) {
        RunSettlesPosition(p, s, cap, moves, i);
      }
    }
  }

  // ----- One book -----

  /** With the counter at zero nothing is owed at a position that has a level. */
  ghost predicate Clean(h: Held) {
    h.counter == 0 ==> forall i :: 0 <= i < |h.levels| ==> At(h.deficits, i) == 0.0
  }

  /** Nothing is owed past the end of the ladder. */
  ghost predicate OwedWithin(h: Held) {
    forall i: nat :: i >= |h.levels| ==> At(h.deficits, i) == 0.0
  }

  /** The sale takes away a position that is owed something. */
  ghost predicate Strands(p: Adversary, s: State, qty: real) {
    exists i :: 0 <= i < |s.held.levels| && At(s.held.deficits, i) != 0.0 && Vanishes(p, s, qty, i)
  }

  /** A sale keeps the ladder's positions clean, and strands something exactly when it takes away what is owed. */
  lemma SaleStaysClean(p: Adversary, s: State, cap: real, qty: real)
    requires Sound(s, cap) && 0.0 <= p.withdrawalPct <= 1.0 && p.recoverySteps > 0 && Clean(s.held)
    ensures var h := Fill(p, s, qty).state.held;
            Clean(h) && (OwedWithin(h) <==> OwedWithin(s.held) && !Strands(p, s, qty))
  {
    var f := Fill(p, s, qty);
    var h := f.state.held;
    SaleOwes(p, s, cap, qty);
    hide Fill, Eased, Sound, Vanishes;
    forall i | 0 <= i < |h.levels| && h.counter == 0 ensures At(h.deficits, i) == 0.0 {
      SurvivingPositions(p, s, cap, qty, i);
      CountdownSettles(p, s, cap, qty, i);
    }
    forall i: nat | i < |s.held.levels| ensures Vanishes(p, s, qty, i) <==> i >= |h.levels| {
      SurvivingPositions(p, s, cap, qty, i);
    }
  }

  /** Some sale of the run takes away a position that is owed something. */
  ghost predicate RunStrands(p: Adversary, s: State, moves: seq<Move>)
    requires OnlySales(moves)
  {
    moves != [] &&
    var front := moves[..|moves| - 1];
    RunStrands(p, s, front) || Strands(p, Run(p, s, front), moves[|moves| - 1].quantity)
  }

  /**
    * On one book: when the counter has run out nothing is owed if and only if no sale of the run took away a position
    * that was owed something.
    */
  lemma {:induction false} OneBookStaysClean(p: Adversary, s: State, cap: real, moves: seq<Move>)
    requires Sound(s, cap) && 0.0 <= p.withdrawalPct <= 1.0 && p.recoverySteps > 0
    requires OnlySales(moves) && Clean(s.held) && OwedWithin(s.held)
    ensures var h := Run(p, s, moves).held;
            && Clean(h) && (OwedWithin(h) <==> !RunStrands(p, s, moves))
            && (h.counter == 0 ==> (OwesNothing(h) <==> !RunStrands(p, s, moves)))
  {
    if moves != [] {
      var n := |moves| - 1;
      OneBookStaysClean(p, s, cap, moves[..n]);
      RunIsSound(p, s, cap, moves[..n]);
      hide Fill, Sound, Strands, Clean, OwedWithin;
      SaleStaysClean(p, Run(p, s, moves[..n]), cap, moves[n].quantity);
    }
    hide Run, RunStrands, Sound, Fill, Strands;
  }

  // ----- What is stranded stays stranded -----

  /** No fresh book of the run has more than `n` levels. */
  predicate NoneLonger(moves: seq<Move>, n: nat) {
    forall i :: 0 <= i < |moves| && moves[i].Refresh? ==> |moves[i].levels| <= n
  }

  /** What is owed past the end of the ladder does not move until a fresh book has the position. */
  lemma {:induction false} StrandedStays(p: Adversary, s: State, cap: real, moves: seq<Move>, i: nat)
    requires Sound(s, cap) && 0.0 <= p.withdrawalPct <= 1.0 && Supplied(moves, cap)
    requires i >= |s.held.levels| && NoneLonger(moves, i)
    ensures var h := Run(p, s, moves).held;
            |h.levels| <= i && At(h.deficits, i) == At(s.held.deficits, i)
  {
    if moves != [] {
      var n := |moves| - 1;
      StrandedStays(p, s, cap, moves[..n], i);
      RunIsSound(p, s, cap, moves[..n]);
      hide Fill, Sound, Eased, OwedAt, Swapped, IsLadder;
      if moves[n].Sale? {
        SaleOwes(p, Run(p, s, moves[..n]), cap, moves[n].quantity);
      } else {
        SwappedKeepsDeficits(Run(p, s, moves[..n]).held, moves[n].levels, moves[n].unit);
      }
    }
  }

  // ----- What is not stranded comes back in equal parts -----

  /** No sale of the run triggers a withdrawal. */
  ghost predicate Quiet(p: Adversary, s: State, moves: seq<Move>) {
    moves != [] ==>
      var front, last := moves[..|moves| - 1], moves[|moves| - 1];
      Quiet(p, s, front) && (last.Sale? ==> !Triggers(p, Fill(p, Run(p, s, front), last.quantity)))
  }

  /** Position `i` survives every sale of the run. */
  ghost predicate AlwaysSurvives(p: Adversary, s: State, moves: seq<Move>, i: nat) {
    moves != [] ==>
      var front, last := moves[..|moves| - 1], moves[|moves| - 1];
      AlwaysSurvives(p, s, front, i) && (last.Sale? ==> Survives(p, Run(p, s, front), last.quantity, i))
  }

  function Sales(moves: seq<Move>): nat {
    if moves == [] then 0 else Sales(moves[..|moves| - 1]) + if moves[|moves| - 1].Sale? then 1 else 0
  }

  function Fewer(a: nat, b: nat): nat {
    if a < b then a else b
  }

  /** What has come back of a deficit after `k` sales, when the counter started at `counter`. */
  function BackAfter(d: real, counter: nat, k: nat): real {
    Back(d, counter, Fewer(k, counter))
  }

  lemma EasedStep(d: real, counter: nat, k: nat)
    requires d >= 0.0
    ensures Eased(d - BackAfter(d, counter, k), if k < counter then counter - k else 0)
         == d - BackAfter(d, counter, k + 1)
  {
    if k < counter {
      EasedShare(d, counter, k);
      BackOneMore(d, counter, k);
    }
  }

  lemma EasedShare(d: real, counter: nat, k: nat)
    requires d >= 0.0 && k < counter
    ensures Eased(d - Back(d, counter, k), counter - k) == d - Back(d, counter, k) - Share(d, counter)
  {
    var x, s := (counter - k) as real, Share(d, counter);
    assert s * (counter as real) == d;
    assert d - (k as real) * s == s * x;
    assert (s * x) / x == s;
    PartIsPositive(s, x, d);
  }

  lemma PartIsPositive(s: real, x: real, d: real)
    requires x > 0.0
    ensures s > 0.0 ==> s * x > 0.0
    ensures s == 0.0 ==> s * x == 0.0
  {
  }

  /**
    * A trigger's withdrawal comes back in equal parts, one a sale, whatever books are swapped in between: after `k`
    * sales that trigger nothing, a position that survived them all has got back `k` parts of its deficit out of as
    * many as the counter stood at, all of it once the counter has run out.
    */
  lemma {:induction false} QuietRunRestores(p: Adversary, s: State, cap: real, moves: seq<Move>, i: nat)
    requires Sound(s, cap) && 0.0 <= p.withdrawalPct <= 1.0 && Supplied(moves, cap) && Quiet(p, s, moves)
    ensures var h := Run(p, s, moves).held;
            var d, c, k := At(s.held.deficits, i), s.held.counter, Sales(moves);
            && h.counter == (if k < c then c - k else 0)
            && (AlwaysSurvives(p, s, moves, i) ==>
                  At(h.deficits, i) == d - BackAfter(d, c, k) && (0 < c <= k ==> At(h.deficits, i) == 0.0))
  {
    hide Eased, Back, Fill, Sound, Swapped, Survives, IsLadder;
    var d, c := At(s.held.deficits, i), s.held.counter;
    SoundDeficit(s, cap, i);
    BackOfNone(d, c);
    if c > 0 {
      BackOfAll(d, c);
    }
    if moves != [] {
      var n := |moves| - 1;
      var t := Run(p, s, moves[..n]);
      QuietRunRestores(p, s, cap, moves[..n], i);
      RunIsSound(p, s, cap, moves[..n]);
      if moves[n].Sale? {
        SaleOwes(p, t, cap, moves[n].quantity);
        SurvivingPositions(p, t, cap, moves[n].quantity, i);
        EasedStep(d, c, Sales(moves[..n]));
      } else {
        SwappedKeepsDeficits(t.held, moves[n].levels, moves[n].unit);
      }
    }
  }

  lemma BackOfNone(d: real, counter: nat)
    ensures BackAfter(d, counter, 0) == 0.0
  {
  }

  // ----- Without recovery steps -----

  /** All that was ever withdrawn over a run. */
  function Withdrawn(p: Adversary, s: State, moves: seq<Move>): real {
    if moves == [] then 0.0
    else
      var front, last := moves[..|moves| - 1], moves[|moves| - 1];
      Withdrawn(p, s, front) + if last.Sale? then Fill(p, Run(p, s, front), last.quantity).withdrawn else 0.0
  }

  lemma SaleWithdraws(p: Adversary, s: State, cap: real, qty: real)
    requires Sound(s, cap) && 0.0 <= p.withdrawalPct <= 1.0 && p.recoverySteps == 0 && s.held.counter == 0
    ensures var f := Fill(p, s, qty);
            && f.state.held.counter == 0 && f.withdrawn >= 0.0
            && Sum(f.state.held.deficits) == Sum(s.held.deficits) + f.withdrawn
  {
    hide Walk, Depth, IsLadder, PostFill, Observed, AfterCopy, KeepsPositions, Sum, CopyQty;
    var f := Fill(p, s, qty);
    var h := s.held.(levels := f.ours.levels);
    CopyLeaves(s.held.levels, cap, f.copy);
    WalkFills(f.open, cap, qty);
    DepthIsNonNegative(f.ours.levels, cap);
    TriggerPullsFraction(h, p.sensitivity, p.withdrawalPct, p.recoverySteps, f.ours.filled, Depth(f.open));
    TimesSwap(p.withdrawalPct, Depth(h.levels));
    TimesMono(0.0, Depth(h.levels), p.withdrawalPct);
    TimesZero(p.withdrawalPct);
  }

  lemma {:induction false} SumVanishes(xs: seq<real>)
    requires NonNegative(xs)
    ensures Sum(xs) >= 0.0 && (Sum(xs) == 0.0 <==> forall i :: 0 <= i < |xs| ==> xs[i] == 0.0)
  {
    if xs != [] {
      var n := |xs| - 1;
      SumVanishes(xs[..n]);
      assert forall i :: 0 <= i < n ==> xs[..n][i] == xs[i];
    }
  }

  /**
    * With no recovery steps the counter never leaves zero and everything withdrawn stays owed, whatever books are
    * swapped in: nothing is owed after a run if and only if nothing was ever withdrawn.
    */
  lemma {:induction false} NoStepsNoRecovery(p: Adversary, s: State, cap: real, moves: seq<Move>)
    requires Sound(s, cap) && 0.0 <= p.withdrawalPct <= 1.0 && p.recoverySteps == 0 && Supplied(moves, cap)
    requires s.held.counter == 0 && s.held.deficits == []
    ensures var h := Run(p, s, moves).held;
            && h.counter == 0 && Sum(h.deficits) == Withdrawn(p, s, moves)
            && ((forall i :: 0 <= i < |h.deficits| ==> h.deficits[i] == 0.0) <==> Withdrawn(p, s, moves) == 0.0)
  {
    if moves != [] {
      hide Fill, Sum, Swapped, IsLadder;
      var n := |moves| - 1;
      NoStepsNoRecovery(p, s, cap, moves[..n]);
      RunIsSound(p, s, cap, moves[..n]);
      if moves[n].Sale? {
        SaleWithdraws(p, Run(p, s, moves[..n]), cap, moves[n].quantity);
      } else {
        SwappedKeepsDeficits(Run(p, s, moves[..n]).held, moves[n].levels, moves[n].unit);
      }
    }
    RunIsSound(p, s, cap, moves);
    hide Run, Withdrawn;
    SumVanishes(Run(p, s, moves).held.deficits);
  }

  // ----- Depth over a run -----

  /** How much the deficits exceed the levels they are held back from. */
  function Excess(levels: seq<PriceLevel>, ds: seq<real>): real {
    if ds == [] then 0.0
    else
      Max(ds[0] - (if levels == [] then 0.0 else levels[0].quantity), 0.0)
      + Excess(if levels == [] then [] else levels[1..], ds[1..])
  }

  function QuantityAt(levels: seq<PriceLevel>, i: nat): real {
    if i < |levels| then levels[i].quantity else 0.0
  }

  lemma {:induction false} ExcessVanishes(levels: seq<PriceLevel>, ds: seq<real>)
    ensures Excess(levels, ds) >= 0.0
    ensures Excess(levels, ds) == 0.0 <==> forall i :: 0 <= i < |ds| ==> ds[i] <= QuantityAt(levels, i)
  {
    if ds != [] {
      var rest := if levels == [] then [] else levels[1..];
      ExcessVanishes(rest, ds[1..]);
      forall i | 0 <= i < |ds| - 1 ensures ds[1..][i] == ds[i + 1] && QuantityAt(rest, i) == QuantityAt(levels, i + 1) {
      }
      if forall i :: 0 <= i < |ds| - 1 ==> ds[1..][i] <= QuantityAt(rest, i) {
        forall i | 0 < i < |ds| ensures ds[i] <= QuantityAt(levels, i) {
          assert ds[1..][i - 1] <= QuantityAt(rest, i - 1);
        }
      }
    }
  }

  lemma HeldBackTail(h: Held, levels: seq<PriceLevel>)
    requires levels != []
    ensures Refreshed(h, levels).levels
         == [HeldBack(levels[0], At(h.deficits, 0))] + Refreshed(Tail(h), levels[1..]).levels
  {
    assert forall i: nat :: At(Tail(h).deficits, i) == At(h.deficits, i + 1);
  }

  lemma {:induction false} RefreshAdds(h: Held, levels: seq<PriceLevel>, cap: real)
    requires IsLadder(levels, cap) && NonNegative(h.deficits)
    ensures Depth(Refreshed(h, levels).levels) + Sum(h.deficits) == Depth(levels) + Excess(levels, h.deficits)
    decreases |levels| + |h.deficits|
  {
    SumHead(h.deficits);
    if levels == [] && h.deficits == [] {
    } else if levels == [] {
      RefreshAdds(Tail(h), [], cap);
    } else {
      RefreshAdds(Tail(h), levels[1..], levels[0].price);
      HeldBackTail(h, levels);
      var r := Refreshed(Tail(h), levels[1..]).levels;
      assert ([HeldBack(levels[0], At(h.deficits, 0))] + r)[1..] == r;
      hide Refreshed;
    }
  }

  /** What the fresh book and what is owed come to, over the fresh book itself. */
  function Surplus(h: Held, levels: seq<PriceLevel>, unit: real): real {
    Excess(levels, InUnits(h.deficits, unit)) + Times(1.0 - unit, Sum(h.deficits))
  }

  lemma {:induction false} SumInUnits(ds: seq<real>, unit: real)
    ensures Sum(InUnits(ds, unit)) == Times(unit, Sum(ds))
  {
    hide Times;
    if ds == [] {
      TimesZero(unit);
    } else {
      var n := |ds| - 1;
      SumInUnits(ds[..n], unit);
      assert InUnits(ds, unit)[..n] == InUnits(ds[..n], unit);
      TimesSwap(unit, Sum(ds));
      TimesSwap(unit, Sum(ds[..n]));
      TimesSwap(unit, ds[n]);
      TimesSplit(Sum(ds[..n]), ds[n], unit);
    }
  }

  lemma SwapAdds(h: Held, levels: seq<PriceLevel>, unit: real, cap: real)
    requires IsLadder(levels, cap) && unit >= 0.0 && NonNegative(h.deficits)
    ensures Depth(Swapped(h, levels, unit).levels) + Sum(h.deficits) == Depth(levels) + Surplus(h, levels, unit)
  {
    hide Depth, Sum, Excess, IsLadder, Refreshed;
    var scaled := h.(deficits := InUnits(h.deficits, unit));
    RefreshAdds(scaled, levels, cap);
    SumInUnits(h.deficits, unit);
    hide InUnits;
    TimesSplit(1.0 - unit, unit, Sum(h.deficits));
    TimesOne(Sum(h.deficits));
    assert 1.0 - unit + unit == 1.0;
  }

  /** What is in the book and owed to it. */
  function Total(h: Held): real {
    Depth(h.levels) + Sum(h.deficits)
  }

  /** What a run sold, our part and the front-runner's; what its fresh books replaced, brought, and brought too much. */
  datatype Ledger = Ledger(taken: real, replaced: real, brought: real, surplus: real)

  function Booked(p: Adversary, s: State, moves: seq<Move>): Ledger {
    if moves == [] then Ledger(0.0, 0.0, 0.0, 0.0)
    else
      var front, t := Booked(p, s, moves[..|moves| - 1]), Run(p, s, moves[..|moves| - 1]);
      match moves[|moves| - 1]
      case Sale(quantity) =>
        var f := Fill(p, t, quantity);
        front.(taken := front.taken + f.taken + f.ours.filled)
      case Refresh(levels, unit) =>
        front.(replaced := front.replaced + Total(t.held), brought := front.brought + Depth(levels),
               surplus := front.surplus + Surplus(t.held, levels, unit))
  }

  /** Over every run, sales create and lose no depth, and a fresh book adds its own and its surplus. */
  lemma {:induction false} RunAccounts(p: Adversary, s: State, cap: real, moves: seq<Move>)
    requires Sound(s, cap) && 0.0 <= p.withdrawalPct <= 1.0 && Supplied(moves, cap)
    ensures var b := Booked(p, s, moves);
            Total(s.held) + b.brought + b.surplus == b.taken + b.replaced + Total(Run(p, s, moves).held)
  {
    if moves != [] {
      hide Fill, Depth, Sum, Swapped, Surplus, IsLadder;
      var n := |moves| - 1;
      var t := Run(p, s, moves[..n]);
      RunAccounts(p, s, cap, moves[..n]);
      RunIsSound(p, s, cap, moves[..n]);
      if moves[n].Sale? {
        FillAccounts(p, t, cap, moves[n].quantity);
      } else {
        SwapAdds(t.held, moves[n].levels, moves[n].unit, cap);
        SwappedKeepsDeficits(t.held, moves[n].levels, moves[n].unit);
      }
    }
  }

  /** Some fresh book of the run has a level smaller than what is owed at its position, or lacks the position. */
  ghost predicate Overdrawn(p: Adversary, s: State, moves: seq<Move>) {
    moves != [] &&
    var front, last := moves[..|moves| - 1], moves[|moves| - 1];
    var ds := Run(p, s, front).held.deficits;
    || Overdrawn(p, s, front)
    || (last.Refresh? && exists i :: 0 <= i < |ds| && ds[i] > QuantityAt(last.levels, i))
  }

  lemma SurplusInItsUnits(h: Held, levels: seq<PriceLevel>)
    ensures Surplus(h, levels, 1.0) >= 0.0
    ensures Surplus(h, levels, 1.0) == 0.0
            <==> forall i :: 0 <= i < |h.deficits| ==> h.deficits[i] <= QuantityAt(levels, i)
  {
    assert InUnits(h.deficits, 1.0) == h.deficits;
    hide Excess;
    ExcessVanishes(levels, h.deficits);
    TimesZero(Sum(h.deficits));
  }

  /**
    * When fresh books are held back in the units of what is owed, a run creates no depth if and only if no fresh book
    * has a level smaller than what is owed at its position; otherwise it creates some.
    */
  lemma {:induction false} NothingCreatedIff(p: Adversary, s: State, moves: seq<Move>)
    requires forall i :: 0 <= i < |moves| && moves[i].Refresh? ==> moves[i].unit == 1.0
    ensures Booked(p, s, moves).surplus >= 0.0
    ensures Booked(p, s, moves).surplus == 0.0 <==> !Overdrawn(p, s, moves)
  {
    if moves != [] {
      hide Run, Surplus, QuantityAt;
      var n := |moves| - 1;
      NothingCreatedIff(p, s, moves[..n]);
      if moves[n].Refresh? {
        SurplusInItsUnits(Run(p, s, moves[..n]).held, moves[n].levels);
      }
    }
  }

  // ----- Waiting -----

  /** Sales of nothing. */
  function Idle(n: nat): seq<Move> {
    seq(n, _ => Sale(0.0))
  }

  lemma SaleOfNothing(p: Adversary, s: State)
    requires p.sensitivity >= 0.0
    ensures Fill(p, s, 0.0).state == State(Recovered(s.held), s.flow)
  {
    hide Recovered, Depth;
    var f := Fill(p, s, 0.0);
    assert f.ours == Walked(s.held.levels, 0.0, 0.0, 0, 0.0);
    var d := Depth(f.open);
    assert d > 0.0 ==> p.sensitivity * d >= 0.0;
    assert s.held.(levels := s.held.levels) == s.held;
  }

  /** Sales of nothing are recovery steps, so the laws of recovery steps are laws of runs. */
  lemma {:induction false} IdleRecovers(p: Adversary, s: State, n: nat)
    requires p.sensitivity >= 0.0
    ensures Run(p, s, Idle(n)) == State(RecoveredTimes(s.held, n), s.flow)
  {
    hide Fill, Recovered;
    if n > 0 {
      IdleRecovers(p, s, n - 1);
      assert Idle(n)[..n - 1] == Idle(n - 1);
      SaleOfNothing(p, Run(p, s, Idle(n - 1)));
    }
  }

  // ----- Runs that strand, and runs that add depth -----

  /** The book of the witnesses, and the state a sale of 8 leaves with the default parameters. */
  const TWO_BIDS := [PriceLevel(100.0, 10.0), PriceLevel(99.0, 10.0)]

  const START := State(Held(TWO_BIDS, [], 0), Flow([], 0.0))

  lemma FirstSale()
    ensures var s := Run(DEFAULTS, START, [Sale(8.0)]);
            && s.held == Held([PriceLevel(100.0, 1.64), PriceLevel(99.0, 8.20)], [0.36, 1.80], 9)
            && |s.flow.recent| == 1
  {
    var levels := TWO_BIDS;
    assert [Sale(8.0)][..0] == [] && levels[1..] == [PriceLevel(99.0, 10.0)];
    var ours := Walk(levels, 8.0);
    assert Depth(levels[1..]) == 10.0 && Depth(levels) == 20.0;
    var h := PostFill(Held(ours.levels, [], 0), 0.30, 0.20, 10, 8.0, 20.0);
    assert h.levels == [PriceLevel(100.0, 1.60), PriceLevel(99.0, 8.0)];
    assert h.deficits == [0.40, 2.0];
    assert Given(h, 0) == 0.04 && Given(h, 1) == 0.20;
  }

  lemma SecondSale(s: State)
    requires s.held == Held([PriceLevel(100.0, 1.64), PriceLevel(99.0, 8.20)], [0.36, 1.80], 9)
    requires |s.flow.recent| == 1
    ensures var e := Next(DEFAULTS, s, Sale(1.64));
            e.held == Held([PriceLevel(99.0, 8.24)], [0.32, 1.80], 8)
  {
  }

  lemma RunSnoc(s: State, moves: seq<Move>, m: Move)
    ensures Run(DEFAULTS, s, moves + [m]) == Next(DEFAULTS, Run(DEFAULTS, s, moves), m)
  {
    hide Next;
    assert (moves + [m])[..|moves|] == moves;
  }

  /** Eight sales of nothing, or nine, bring the counter of the witnesses to zero. */
  lemma IdleEnds(s: State, n: nat)
    requires s.held.counter == n && NonNegative(s.held.deficits)
    ensures Run(DEFAULTS, s, Idle(n)).held.counter == 0
  {
    IdleRecovers(DEFAULTS, s, n);
    RecoveryIsLinear(s.held, n);
  }

  /**
    * Two sales with the default parameters, the second of which takes the best bid away: whatever is sold next and
    * whatever books with one bid are swapped in, 1.80 stays owed at the position that is gone, and eight sales of
    * nothing bring the counter to zero all the same. Swapping in a book with one bid after the first sale strands as
    * much without a sale taking anything away.
    */
  lemma DeficitCanBeStranded(more: seq<Move>)
    requires Supplied(more, 100.0) && NoneLonger(more, 1)
    ensures At(Run(DEFAULTS, START, [Sale(8.0), Sale(1.64)] + more).held.deficits, 1) == 1.80
    ensures more == Idle(8) ==> Run(DEFAULTS, START, [Sale(8.0), Sale(1.64)] + more).held.counter == 0
    ensures At(Run(DEFAULTS, START, [Sale(8.0), Refresh(TWO_BIDS[..1], 1.0)] + more).held.deficits, 1) == 1.80
    ensures more == Idle(9) ==> Run(DEFAULTS, START, [Sale(8.0), Refresh(TWO_BIDS[..1], 1.0)] + more).held.counter == 0
  {
    hide Fill, Run, Next, Refreshed;
    FirstSale();
    var s1 := Run(DEFAULTS, START, [Sale(8.0)]);
    SecondSale(s1);
    StrandedBy(s1, Sale(1.64), more);
    SwappedInItsUnits(s1.held, TWO_BIDS[..1]);
    RefreshedByOne(s1);
    StrandedBy(s1, Refresh(TWO_BIDS[..1], 1.0), more);
  }

  lemma RefreshedByOne(s: State)
    requires s.held.deficits == [0.36, 1.80]
    ensures var e := Next(DEFAULTS, s, Refresh(TWO_BIDS[..1], 1.0));
            e.held == Held([PriceLevel(100.0, 9.64)], [0.36, 1.80], s.held.counter)
  {
    SwappedInItsUnits(s.held, TWO_BIDS[..1]);
    hide Swapped;
  }

  lemma StrandedBy(s: State, m: Move, more: seq<Move>)
    requires s == Run(DEFAULTS, START, [Sale(8.0)])
    requires Supplied(more, 100.0) && NoneLonger(more, 1)
    requires var h := Next(DEFAULTS, s, m).held;
             Sound(State(h, s.flow), 100.0) && |h.levels| == 1 && At(h.deficits, 1) == 1.80
    ensures At(Run(DEFAULTS, START, [Sale(8.0), m] + more).held.deficits, 1) == 1.80
    ensures more == Idle(Next(DEFAULTS, s, m).held.counter) ==>
              Run(DEFAULTS, START, [Sale(8.0), m] + more).held.counter == 0
  {
    hide Next, Run;
    RunSnoc(START, [Sale(8.0)], m);
    assert [Sale(8.0)] + [m] == [Sale(8.0), m];
    var t := Next(DEFAULTS, s, m);
    RunAppend(DEFAULTS, START, [Sale(8.0), m], more);
    StrandedStays(DEFAULTS, t, 100.0, more, 1);
    if more == Idle(t.held.counter) {
      IdleEnds(t, t.held.counter);
    }
  }

  /** A fresh book that is followed by sales of nothing until the counter is out. */
  lemma FreshThenIdle(before: seq<Move>, levels: seq<PriceLevel>, h: Held)
    requires Run(DEFAULTS, START, before).held == h && h.counter > 0 && NonNegative(h.deficits)
    requires |h.deficits| == |levels| && forall i :: 0 <= i < |levels| ==> levels[i].quantity >= 0.0
    ensures var r := Run(DEFAULTS, START, before + [Refresh(levels, 1.0)] + Idle(h.counter)).held;
            && OwesNothing(r) && |r.levels| == |levels|
            && forall i :: 0 <= i < |levels| ==>
                 r.levels[i] == PriceLevel(levels[i].price, Max(levels[i].quantity, h.deficits[i]))
  {
    hide Run, RecoveredTimes;
    var s := Run(DEFAULTS, START, before);
    RunSnoc(START, before, Refresh(levels, 1.0));
    RunAppend(DEFAULTS, START, before + [Refresh(levels, 1.0)], Idle(h.counter));
    SwappedInItsUnits(h, levels);
    IdleRecovers(DEFAULTS, State(Refreshed(h, levels), s.flow), h.counter);
    RefreshThenRecover(h, levels);
    RecoveryEndsClean(Refreshed(h, levels));
    RecoveryKeepsPrices(Refreshed(h, levels), h.counter);
  }

  lemma {:induction false} RecoveryKeepsPrices(h: Held, k: nat)
    ensures var r := RecoveredTimes(h, k);
            |r.levels| == |h.levels| && forall i :: 0 <= i < |h.levels| ==> r.levels[i].price == h.levels[i].price
  {
    if k > 0 {
      RecoveryKeepsPrices(h, k - 1);
    }
  }

  /**
    * A position that a sale took away is owed nothing once a book that has it is swapped in and the counter runs out;
    * and a fresh book whose second bid is smaller than what is owed there ends up deeper than it was.
    */
  lemma FreshBookRestores()
    ensures OwesNothing(Run(DEFAULTS, START, [Sale(8.0), Sale(1.64)] + [Refresh(TWO_BIDS, 1.0)] + Idle(8)).held)
    ensures var small := [PriceLevel(100.0, 10.0), PriceLevel(99.0, 1.0)];
            var h := Run(DEFAULTS, START, [Sale(8.0)] + [Refresh(small, 1.0)] + Idle(9)).held;
            OwesNothing(h) && h.levels == [PriceLevel(100.0, 10.0), PriceLevel(99.0, 1.80)]
  {
    hide Run, Next, Idle;
    FirstSale();
    SecondSale(Run(DEFAULTS, START, [Sale(8.0)]));
    RunSnoc(START, [Sale(8.0)], Sale(1.64));
    assert [Sale(8.0)] + [Sale(1.64)] == [Sale(8.0), Sale(1.64)];
    FreshThenIdle([Sale(8.0), Sale(1.64)], TWO_BIDS, Held([PriceLevel(99.0, 8.24)], [0.32, 1.80], 8));
    FreshThenIdle([Sale(8.0)], [PriceLevel(100.0, 10.0), PriceLevel(99.0, 1.0)],
                  Run(DEFAULTS, START, [Sale(8.0)]).held);
  }
}
