/**
  * Counter-parties that react to our sales: one pulls bids after a large fill and restores them step by step,
  * one sells ahead of us.
  */
module Adversarial {
  import opened Arith
  import opened Books

  /** The smallest quantity the front-runner acts on. */
  const MIN_COPY := 0.000000001

  // ----- Withdrawing and restoring depth -----

  /** The bid ladder, what has been pulled from each of its positions, and the recovery steps still to come. */
  datatype Held = Held(levels: seq<PriceLevel>, deficits: seq<real>, counter: nat)

  function At(ds: seq<real>, i: nat): real {
    if i < |ds| then ds[i] else 0.0
  }

  function Longer(a: nat, b: nat): nat {
    if a < b then b else a
  }

  /** What a trigger takes from one level. */
  function Pull(l: PriceLevel, pct: real): real {
    pct * l.quantity
  }

  function Thin(l: PriceLevel, pct: real): PriceLevel {
    l.(quantity := l.quantity - Pull(l, pct))
  }

  function Thinned(levels: seq<PriceLevel>, pct: real): seq<PriceLevel> {
    seq(|levels|, i requires 0 <= i < |levels| => Thin(levels[i], pct))
  }

  function Owed(levels: seq<PriceLevel>, ds: seq<real>, pct: real): seq<real> {
    seq(Longer(|ds|, |levels|), i requires 0 <= i < Longer(|ds|, |levels|) =>
      if i < |levels| then At(ds, i) + Pull(levels[i], pct) else ds[i])
  }

  /** Too small a part of the depth to react to. */
  predicate IsSmall(sensitivity: real, filled: real, depth: real) {
    depth <= 0.0 || filled <= sensitivity * depth
  }

  function PostFill(h: Held, sensitivity: real, pct: real, steps: nat, filled: real, depth: real): Held {
    if IsSmall(sensitivity, filled, depth) then h
    else Held(Thinned(h.levels, pct), Owed(h.levels, h.deficits, pct), steps)
  }

  /** One step's part of a deficit when `counter` steps are left. */
  function Share(d: real, counter: nat): real
    requires counter > 0
  {
    d / (counter as real)
  }

  /** What one recovery step gives back at position `i`. */
  function Given(h: Held, i: nat): real {
    if h.counter > 0 && i < |h.levels| && At(h.deficits, i) > 0.0 then Share(At(h.deficits, i), h.counter) else 0.0
  }

  function Recovered(h: Held): Held {
    if h.counter == 0 then h
    else Held(seq(|h.levels|, i requires 0 <= i < |h.levels| =>
                h.levels[i].(quantity := h.levels[i].quantity + Given(h, i))),
              seq(|h.deficits|, i requires 0 <= i < |h.deficits| => h.deficits[i] - Given(h, i)),
              h.counter - 1)
  }

  class LiquidityWithdrawer {
    var sensitivity: real
    var withdrawalPct: real
    var recoverySteps: nat
    var deficits: seq<real>
    var counter: nat

    constructor ()
      ensures sensitivity == 0.30 && withdrawalPct == 0.20 && recoverySteps == 10
      ensures deficits == [] && counter == 0
    {
      sensitivity, withdrawalPct, recoverySteps := 0.30, 0.20, 10;
      deficits, counter := [], 0;
    }

    method AfterFill(book: OrderBook, filled: real, depth: real) returns (withdrawn: real)
      modifies this`deficits, this`counter, book`bids
      ensures Held(book.bids, deficits, counter)
           == PostFill(old(Held(book.bids, deficits, counter)), sensitivity, withdrawalPct, recoverySteps,
                       filled, depth)
      ensures withdrawn == Depth(old(book.bids)) - Depth(book.bids)
    {
      hide IsSmall, Pull, Depth, Thinned, Owed, PulledUpTo;
      withdrawn := 0.0;
      if IsSmall(sensitivity, filled, depth) {
        return;
      }
      DepthOfNone();
      ghost var levels, ds := book.bids, deficits;
      var n := |book.bids|;
      if |deficits| < n {
        deficits := deficits + seq(n - |deficits|, _ => 0.0);
      }
      PullingStarts(levels, ds, withdrawalPct, deficits);
      for i := 0 to n
        modifies this`deficits, book`bids
        invariant |book.bids| == n <= |deficits|
        invariant PulledUpTo(levels, ds, withdrawalPct, i, book.bids, deficits)
        invariant withdrawn == Depth(levels[..i]) - Depth(book.bids[..i])
      {
        PullOneMore(levels, ds, withdrawalPct, i, book.bids, deficits);
        var pull := Pull(book.bids[i], withdrawalPct);
        book.bids := book.bids[i := book.bids[i].(quantity := book.bids[i].quantity - pull)];
        deficits := deficits[i := deficits[i] + pull];
        withdrawn := withdrawn + pull;
      }
      counter := recoverySteps;
      PulledIs(levels, ds, withdrawalPct, book.bids, deficits);
    }

    method RecoverStep(book: OrderBook)
      modifies this`deficits, this`counter, book`bids
      ensures Held(book.bids, deficits, counter) == Recovered(old(Held(book.bids, deficits, counter)))
    {
      if counter == 0 {
        return;
      }
      hide Share;
      ghost var h := Held(book.bids, deficits, counter);
      var n := if |book.bids| <= |deficits| then |book.bids| else |deficits|;
      for i := 0 to n
        modifies this`deficits, book`bids
        invariant |book.bids| == |h.levels| && |deficits| == |h.deficits|
        invariant forall j :: 0 <= j < |h.levels| ==>
                    book.bids[j] == if j < i then Recovered(h).levels[j] else h.levels[j]
        invariant forall j :: 0 <= j < |h.deficits| ==>
                    deficits[j] == if j < i then Recovered(h).deficits[j] else h.deficits[j]
      {
        if deficits[i] > 0.0 {
          var share := Share(deficits[i], counter);
          book.bids := book.bids[i := book.bids[i].(quantity := book.bids[i].quantity + share)];
          deficits := deficits[i := deficits[i] - share];
        }
      }
      counter := counter - 1;
      assert book.bids == Recovered(h).levels;
      assert deficits == Recovered(h).deficits;
    }

    method Deficit() returns (total: real)
      ensures total == Sum(deficits)
    {
      total := 0.0;
      for i := 0 to |deficits|
        invariant total == Sum(deficits[..i])
      {
        assert deficits[..i + 1][..i] == deficits[..i];
        total := total + deficits[i];
      }
      assert deficits[..|deficits|] == deficits;
    }
  }

  /** The first `n` levels have been pulled and booked as owed. */
  ghost predicate PulledUpTo(levels: seq<PriceLevel>, ds: seq<real>, pct: real, n: nat, thin: seq<PriceLevel>,
                             owed: seq<real>) {
    && |thin| == |levels| && |owed| == Longer(|ds|, |levels|)
    && (forall j :: 0 <= j < |levels| ==> thin[j] == if j < n then Thin(levels[j], pct) else levels[j])
    && (forall j :: 0 <= j < |owed| ==>
          owed[j] == At(ds, j) + if j < |levels| && j < n then Pull(levels[j], pct) else 0.0)
  }

  lemma PullingStarts(levels: seq<PriceLevel>, ds: seq<real>, pct: real, owed: seq<real>)
    requires owed == if |ds| < |levels| then ds + seq(|levels| - |ds|, _ => 0.0) else ds
    ensures PulledUpTo(levels, ds, pct, 0, levels, owed)
  {
  }

  lemma PullOneMore(levels: seq<PriceLevel>, ds: seq<real>, pct: real, i: nat, thin: seq<PriceLevel>, owed: seq<real>)
    requires i < |levels| && PulledUpTo(levels, ds, pct, i, thin, owed)
    ensures thin[i] == levels[i]
    ensures var pull := Pull(levels[i], pct);
            var next := thin[i := thin[i].(quantity := thin[i].quantity - pull)];
            && PulledUpTo(levels, ds, pct, i + 1, next, owed[i := owed[i] + pull])
            && Depth(levels[..i + 1]) - Depth(next[..i + 1]) == Depth(levels[..i]) - Depth(thin[..i]) + pull
  {
    var pull := Pull(levels[i], pct);
    var next := thin[i := thin[i].(quantity := thin[i].quantity - pull)];
    DepthSnoc(levels, i);
    DepthSnoc(next, i);
    assert next[..i] == thin[..i];
    hide Depth, Pull;
  }

  lemma PulledIs(levels: seq<PriceLevel>, ds: seq<real>, pct: real, thin: seq<PriceLevel>, owed: seq<real>)
    requires PulledUpTo(levels, ds, pct, |levels|, thin, owed)
    ensures thin == Thinned(levels, pct) && owed == Owed(levels, ds, pct)
    ensures thin[..|levels|] == thin && levels[..|levels|] == levels
  {
  }

  lemma DepthOfNone()
    ensures Depth([]) == 0.0
  {
  }

  lemma {:induction false} DepthSnoc(levels: seq<PriceLevel>, i: nat)
    requires i < |levels|
    ensures Depth(levels[..i + 1]) == Depth(levels[..i]) + levels[i].quantity
  {
    if i == 0 {
      assert levels[..1][1..] == [];
    } else {
      DepthSnoc(levels[1..], i - 1);
      assert levels[..i + 1][1..] == levels[1..][..i];
      assert levels[..i][1..] == levels[1..][..i - 1];
    }
  }

  // ----- Nothing is created or lost by pulling and restoring -----

  /** Between two states every position keeps its price and its quantity plus deficit. */
  ghost predicate KeepsPositions(before: Held, after: Held) {
    && |after.levels| == |before.levels| && |before.deficits| <= |after.deficits|
    && (forall i :: 0 <= i < |before.levels| ==> after.levels[i].price == before.levels[i].price)
    && (forall i :: 0 <= i < |before.levels| ==>
          after.levels[i].quantity + At(after.deficits, i) == before.levels[i].quantity + At(before.deficits, i))
    && (forall i :: |before.levels| <= i < |after.deficits| ==> after.deficits[i] == At(before.deficits, i))
  }

  lemma PostFillKeepsPositions(h: Held, sensitivity: real, pct: real, steps: nat, filled: real, depth: real)
    ensures KeepsPositions(h, PostFill(h, sensitivity, pct, steps, filled, depth))
  {
  }

  lemma RecoveredKeepsPositions(h: Held)
    ensures KeepsPositions(h, Recovered(h))
  {
  }

  lemma {:induction false} KeptPositionsKeepTotal(before: Held, after: Held)
    requires KeepsPositions(before, after)
    ensures Depth(after.levels) + Sum(after.deficits) == Depth(before.levels) + Sum(before.deficits)
    decreases |before.levels| + |after.deficits|
  {
    if before.levels == [] && after.deficits == [] {
    } else {
      KeptPositionsKeepTotal(Tail(before), Tail(after)) by {
        TailKeepsPositions(before, after);
      }
      SumHead(before.deficits);
      SumHead(after.deficits);
    }
  }

  function Tail(h: Held): Held {
    Held(if h.levels == [] then [] else h.levels[1..], if h.deficits == [] then [] else h.deficits[1..], h.counter)
  }

  lemma TailKeepsPositions(before: Held, after: Held)
    requires KeepsPositions(before, after)
    ensures KeepsPositions(Tail(before), Tail(after))
    ensures before.levels == [] && after.deficits != [] ==> after.deficits[0] == At(before.deficits, 0)
  {
  }

  lemma {:induction false} ThinnedDepth(levels: seq<PriceLevel>, pct: real)
    ensures Depth(Thinned(levels, pct)) == Depth(levels) - Times(pct, Depth(levels))
  {
    if levels == [] {
      TimesZero(pct);
    } else {
      ThinnedDepth(levels[1..], pct);
      assert Thinned(levels, pct)[1..] == Thinned(levels[1..], pct);
      TimesSwap(pct, Depth(levels));
      TimesSwap(pct, Depth(levels[1..]));
      TimesSplit(levels[0].quantity, Depth(levels[1..]), pct);
      PullIs(levels[0], pct);
    }
  }

  lemma PullIs(l: PriceLevel, pct: real)
    ensures Pull(l, pct) == Times(l.quantity, pct)
  {
  }

  /** Exactly the fills above the sensitivity share of a real depth trigger, and then that fraction of all bids goes. */
  lemma TriggerPullsFraction(h: Held, sensitivity: real, pct: real, steps: nat, filled: real, depth: real)
    ensures var a := PostFill(h, sensitivity, pct, steps, filled, depth);
            if depth > 0.0 && filled > sensitivity * depth then
              && Depth(h.levels) - Depth(a.levels) == Times(pct, Depth(h.levels))
              && Sum(a.deficits) - Sum(h.deficits) == Times(pct, Depth(h.levels))
              && a.counter == steps
            else a == h
  {
    hide Depth, Sum, Thinned, Owed, KeepsPositions;
    ThinnedDepth(h.levels, pct);
    PostFillKeepsPositions(h, sensitivity, pct, steps, filled, depth);
    KeptPositionsKeepTotal(h, PostFill(h, sensitivity, pct, steps, filled, depth));
  }

  // ----- Restoring is linear -----

  function RecoveredTimes(h: Held, k: nat): Held {
    if k == 0 then h else Recovered(RecoveredTimes(h, k - 1))
  }

  /** What `k` equal steps out of `counter` give back of a deficit. */
  function Back(d: real, counter: nat, k: nat): real
    requires k <= counter
  {
    if k == 0 then 0.0 else k as real * Share(d, counter)
  }

  lemma BackOneMore(d: real, counter: nat, k: nat)
    requires k < counter
    ensures Back(d, counter, k + 1) == Back(d, counter, k) + Share(d, counter)
  {
  }

  /**
    * `k` recovery steps: every position the ladder still has got back `k` equal parts of its deficit, a position
    * past the end of the ladder got none.
    */
  ghost predicate RestoredBy(h: Held, r: Held, k: nat)
    requires k <= h.counter
  {
    && r.counter == h.counter - k && |r.levels| == |h.levels| && |r.deficits| == |h.deficits|
    && (forall i :: 0 <= i < |h.levels| ==>
          r.levels[i].quantity == h.levels[i].quantity + Back(At(h.deficits, i), h.counter, k))
    && (forall i :: 0 <= i < |h.deficits| ==>
          r.deficits[i] == if i < |h.levels| then h.deficits[i] - Back(h.deficits[i], h.counter, k) else h.deficits[i])
  }

  lemma {:induction false} RecoveryIsLinear(h: Held, k: nat)
    requires k <= h.counter && NonNegative(h.deficits)
    ensures RestoredBy(h, RecoveredTimes(h, k), k)
  {
    hide Back;
    if k == 0 {
      BackNothing(h);
    } else {
      RecoveryIsLinear(h, k - 1);
      RecoveryStep(h, RecoveredTimes(h, k - 1), k - 1);
    }
  }

  lemma BackNothing(h: Held)
    ensures RestoredBy(h, h, 0)
  {
  }

  lemma RecoveryStep(h: Held, r: Held, k: nat)
    requires k < h.counter && NonNegative(h.deficits) && RestoredBy(h, r, k)
    ensures RestoredBy(h, Recovered(r), k + 1)
  {
    hide Back, Given;
    var s := Recovered(r);
    forall i | 0 <= i < |h.levels|
      ensures s.levels[i].quantity == h.levels[i].quantity + Back(At(h.deficits, i), h.counter, k + 1)
    {
      GivenStays(h, r, k, i);
      BackOneMore(At(h.deficits, i), h.counter, k);
    }
    forall i | 0 <= i < |h.deficits|
      ensures s.deficits[i] == if i < |h.levels| then h.deficits[i] - Back(h.deficits[i], h.counter, k + 1)
                               else h.deficits[i]
    {
      GivenStays(h, r, k, i);
      BackOneMore(h.deficits[i], h.counter, k);
    }
  }

  lemma GivenStays(h: Held, r: Held, k: nat, i: nat)
    requires k < h.counter && NonNegative(h.deficits) && RestoredBy(h, r, k)
    ensures Given(r, i) == if i < |h.levels| then Share(At(h.deficits, i), h.counter) else 0.0
  {
  }

  /**
    * When the counter runs out nothing is owed any more if and only if nothing was owed at a position past the end
    * of the ladder.
    */
  lemma RecoveryEndsClean(h: Held)
    requires h.counter > 0 && NonNegative(h.deficits)
    ensures var r := RecoveredTimes(h, h.counter);
            && r.counter == 0
            && ((forall i :: 0 <= i < |r.deficits| ==> r.deficits[i] == 0.0)
                <==> (forall i :: |h.levels| <= i < |h.deficits| ==> h.deficits[i] == 0.0))
  {
    hide Back, RecoveredTimes;
    var r := RecoveredTimes(h, h.counter);
    RecoveryIsLinear(h, h.counter);
    forall i | 0 <= i < |h.deficits|
      ensures r.deficits[i] == if i < |h.levels| then 0.0 else h.deficits[i]
    {
      BackOfAll(h.deficits[i], h.counter);
    }
  }

  lemma BackOfAll(d: real, counter: nat)
    requires counter > 0
    ensures Back(d, counter, counter) == d
  {
  }

  // ----- Selling ahead -----

  /** What the front-runner remembers: its last observed trades and a rolling average of their size. */
  datatype Flow = Flow(recent: seq<real>, average: real)

  datatype Runner = Runner(window: nat, threshold: real, aggression: real)

  /** The flow over a whole window above which the front-runner acts. */
  function Trigger(p: Runner, average: real): real {
    p.threshold * average * (p.window as real)
  }

  /** How much of `intended` the front-runner decides to copy. */
  function CopyQty(p: Runner, flow: Flow, intended: real): real {
    if |flow.recent| < p.window || Sum(flow.recent) <= Trigger(p, flow.average) || intended <= MIN_COPY then 0.0
    else Max(p.aggression * intended, 0.0)
  }

  /** What that leaves of the bids. */
  function AfterCopy(bids: seq<PriceLevel>, copy: real): seq<PriceLevel> {
    if copy > MIN_COPY then Walk(bids, copy).levels else bids
  }

  function LastOf(xs: seq<real>, n: nat): seq<real> {
    if |xs| <= n then xs else xs[|xs| - n..]
  }

  function Observed(p: Runner, flow: Flow, qty: real): Flow {
    if qty <= 0.0 then flow
    else Flow(LastOf(flow.recent + [qty], p.window),
              if flow.average == 0.0 then qty else 0.90 * flow.average + 0.10 * qty)
  }

  class FrontRunner {
    var params: Runner
    var flow: Flow

    constructor ()
      ensures params == Runner(5, 0.30, 0.40) && flow == Flow([], 0.0)
    {
      params, flow := Runner(5, 0.30, 0.40), Flow([], 0.0);
    }

    method PreFill(book: OrderBook, intended: real) returns (copy: real)
      modifies book`bids
      ensures copy == CopyQty(params, flow, intended) && book.bids == AfterCopy(old(book.bids), copy)
    {
      if |flow.recent| < params.window {
        return 0.0;
      }
      var sum := 0.0;
      for i := 0 to |flow.recent|
        invariant sum == Sum(flow.recent[..i])
        modifies {}
      {
        assert flow.recent[..i + 1][..i] == flow.recent[..i];
        sum := sum + flow.recent[i];
      }
      assert flow.recent[..|flow.recent|] == flow.recent;
      if sum <= Trigger(params, flow.average) || intended <= MIN_COPY {
        return 0.0;
      }
      copy := Max(params.aggression * intended, 0.0);
      if copy > MIN_COPY {
        var _ := book.FillMarketSell(copy);
      }
    }

    method UpdateVolume(qty: real)
      modifies this`flow
      ensures flow == Observed(params, old(flow), qty)
    {
      if qty <= 0.0 {
        return;
      }
      ghost var before := flow;
      var recent := flow.recent + [qty];
      while |recent| > params.window
        invariant |recent| <= |before.recent| + 1
        invariant recent == LastOf(before.recent + [qty], |recent|)
        invariant |recent| >= if |before.recent| + 1 < params.window then |before.recent| + 1 else params.window
      {
        recent := recent[1..];
      }
      flow := Flow(recent, if flow.average == 0.0 then qty else (1.0 - 0.10) * flow.average + 0.10 * qty);
    }
  }

  // ----- The adversarial book -----

  datatype Adversary = Adversary(sensitivity: real, withdrawalPct: real, recoverySteps: nat, runner: Runner)

  const DEFAULTS := Adversary(0.30, 0.20, 10, Runner(5, 0.30, 0.40))

  datatype State = State(held: Held, flow: Flow)

  datatype Filled = Filled(state: State, depth: real, copy: real, taken: real, open: seq<PriceLevel>, ours: Walked,
                           withdrawn: real)

  /**
    * One sale against the adversarial book: sell ahead, fill ours, pull depth, restore a slice, observe.
    * `copy` is what the front-runner is reported to have taken and `taken` what left the book.
    */
  function Fill(p: Adversary, s: State, qty: real): Filled {
    var bids := s.held.levels;
    var copy := CopyQty(p.runner, s.flow, qty);
    var open := AfterCopy(bids, copy);
    var ours := Walk(open, qty);
    var held := PostFill(s.held.(levels := ours.levels), p.sensitivity, p.withdrawalPct, p.recoverySteps,
                         ours.filled, Depth(open));
    Filled(State(Recovered(held), Observed(p.runner, s.flow, ours.filled)),
           Depth(bids), copy, Depth(bids) - Depth(open), open, ours, Depth(ours.levels) - Depth(held.levels))
  }

  class AdversarialBook {
    var base: OrderBook
    const withdrawer: LiquidityWithdrawer
    const frontRunner: FrontRunner
    var lastFrontRunnerQty: real
    var lastDepthWithdrawn: real
    var lastPreFillDepth: real

    constructor (base: OrderBook)
      ensures this.base == base && fresh(withdrawer) && fresh(frontRunner)
      ensures Params() == Adversary(0.30, 0.20, 10, Runner(5, 0.30, 0.40))
      ensures Now() == State(Held(base.bids, [], 0), Flow([], 0.0))
    {
      this.base := base;
      withdrawer := new LiquidityWithdrawer();
      frontRunner := new FrontRunner();
      lastFrontRunnerQty, lastDepthWithdrawn, lastPreFillDepth := 0.0, 0.0, 0.0;
    }

    ghost function Params(): Adversary
      reads this, withdrawer, frontRunner
    {
      Adversary(withdrawer.sensitivity, withdrawer.withdrawalPct, withdrawer.recoverySteps, frontRunner.params)
    }

    ghost function Now(): State
      reads this, base, withdrawer, frontRunner
    {
      State(Held(base.bids, withdrawer.deficits, withdrawer.counter), frontRunner.flow)
    }

    method Sell(qty: real) returns (r: FillResult)
      modifies this`lastFrontRunnerQty, this`lastDepthWithdrawn, this`lastPreFillDepth
      modifies base`bids, withdrawer`deficits, withdrawer`counter, frontRunner`flow
      ensures var f := Fill(Params(), old(Now()), qty);
              && Now() == f.state
              && lastFrontRunnerQty == f.copy && lastDepthWithdrawn == f.withdrawn && lastPreFillDepth == f.depth
              && r == ResultOf(f.ours, true, MidPrice(base.asks, f.open), HalfSpread(base.asks, f.open))
    {
      hide CopyQty, AfterCopy, Walk, PostFill, Recovered, Observed, Depth;
      lastPreFillDepth := base.TotalBidDepth();
      lastFrontRunnerQty := frontRunner.PreFill(base, qty);
      var depth := base.TotalBidDepth();
      r := base.FillMarketSell(qty);
      lastDepthWithdrawn := withdrawer.AfterFill(base, r.filledQty, depth);
      withdrawer.RecoverStep(base);
      frontRunner.UpdateVolume(r.filledQty);
    }

    /** Swap in a fresh book, holding back from it what is still owed. */
    method UpdateBook(newBook: OrderBook)
      modifies this`base, newBook`bids
      ensures base == newBook
      ensures Now() == old(Now()).(held := Refreshed(old(Now()).held, old(newBook.bids)))
    {
      base := newBook;
      ghost var levels := newBook.bids;
      var deficits := withdrawer.deficits;
      var n := |base.bids|;
      for i := 0 to n
        modifies base`bids
        invariant base == newBook && |base.bids| == n
        invariant forall j :: 0 <= j < n ==>
                    base.bids[j] == if j < i then HeldBack(levels[j], At(deficits, j)) else levels[j]
      {
        if i < |deficits| && deficits[i] > 0.0 {
          base.bids := base.bids[i := base.bids[i].(quantity := Max(base.bids[i].quantity - deficits[i], 0.0))];
        }
      }
      assert base.bids == Refreshed(old(Now()).held, levels).levels;
    }
  }

  function HeldBack(l: PriceLevel, d: real): PriceLevel {
    if d > 0.0 then l.(quantity := Max(l.quantity - d, 0.0)) else l
  }

  function Refreshed(h: Held, levels: seq<PriceLevel>): Held {
    h.(levels := seq(|levels|, i requires 0 <= i < |levels| => HeldBack(levels[i], At(h.deficits, i))))
  }

  /** The deficits as a book counts them in which one unit owed is `unit` units. */
  function InUnits(ds: seq<real>, unit: real): seq<real> {
    seq(|ds|, i requires 0 <= i < |ds| => Times(unit, ds[i]))
  }

  /** The fresh book held back in its own units; what is owed stays as it was counted. */
  function Swapped(h: Held, levels: seq<PriceLevel>, unit: real): Held {
    h.(levels := Refreshed(h.(deficits := InUnits(h.deficits, unit)), levels).levels)
  }

  function Rescaled(levels: seq<PriceLevel>, price: real, unit: real): seq<PriceLevel> {
    seq(|levels|, i requires 0 <= i < |levels| =>
      PriceLevel(Times(price, levels[i].price), Times(unit, levels[i].quantity)))
  }

  /** Rescaling a ladder rescales what any part of it brings by both factors. */
  lemma {:induction false} RescaledProceeds(levels: seq<PriceLevel>, price: real, unit: real, x: real)
    requires unit > 0.0
    ensures Proceeds(Rescaled(levels, price, unit), Times(unit, x)) == Times(Times(price, unit), Proceeds(levels, x))
    ensures Depth(Rescaled(levels, price, unit)) == Times(unit, Depth(levels))
    decreases |levels|
  {
    hide Times;
    if levels == [] {
      TimesZero(unit);
      TimesZero(Times(price, unit));
    } else {
      var l, all := levels[0], Rescaled(levels, price, unit);
      assert all[1..] == Rescaled(levels[1..], price, unit);
      RescaledProceeds(levels[1..], price, unit, x - l.quantity);
      ScaledOrder(unit, l.quantity, x);
      ScaledSum(unit, l.quantity, Depth(levels[1..]));
      ScaledSum(Times(price, unit), Times(l.quantity, l.price), Proceeds(levels[1..], x - l.quantity));
      ScaledWorth(price, unit, l.quantity, l.price);
      ScaledWorth(price, unit, x, l.price);
      TimesZero(Times(price, unit));
    }
  }

  lemma ScaledOrder(unit: real, q: real, x: real)
    requires unit > 0.0
    ensures Times(unit, x) <= 0.0 <==> x <= 0.0
    ensures Times(unit, q) <= Times(unit, x) <==> q <= x
    ensures Times(unit, x) - Times(unit, q) == Times(unit, x - q)
  {
    ScaledSum(unit, x - q, q);
    SameSign(unit, x - q);
    SameSign(unit, x);
    hide Times;
  }

  lemma SameSign(unit: real, x: real)
    requires unit > 0.0
    ensures x < 0.0 ==> Times(unit, x) < 0.0
    ensures x == 0.0 ==> Times(unit, x) == 0.0
    ensures x > 0.0 ==> Times(unit, x) > 0.0
  {
  }

  lemma ScaledSum(k: real, a: real, b: real)
    ensures Times(k, a + b) == Times(k, a) + Times(k, b)
  {
  }

  lemma ScaledWorth(price: real, unit: real, q: real, p: real)
    ensures Times(Times(unit, q), Times(price, p)) == Times(Times(price, unit), Times(q, p))
  {
    assert (unit * q) * (price * p) == (price * unit) * (q * p);
  }

  /** `update_book` and the synthetic market hold back in the units of what is owed, a new episode not at all. */
  lemma SwappedInItsUnits(h: Held, levels: seq<PriceLevel>)
    ensures Swapped(h, levels, 1.0) == Refreshed(h, levels)
    ensures Swapped(h, levels, 0.0).levels == levels
  {
    assert InUnits(h.deficits, 1.0) == h.deficits;
  }

  /** The historical market holds back from the raw book and rescales after, which holds back rescaled deficits. */
  lemma HeldBackThenRescaled(h: Held, raw: seq<PriceLevel>, price: real, unit: real)
    requires unit > 0.0
    ensures Rescaled(Refreshed(h, raw).levels, price, unit) == Swapped(h, Rescaled(raw, price, unit), unit).levels
  {
    hide Times;
    var a, b := Rescaled(Refreshed(h, raw).levels, price, unit), Swapped(h, Rescaled(raw, price, unit), unit).levels;
    forall i | 0 <= i < |raw| ensures a[i] == b[i] {
      HeldBackScales(raw[i], At(h.deficits, i), price, unit);
      TimesZero(unit);
    }
  }

  lemma HeldBackScales(l: PriceLevel, d: real, price: real, unit: real)
    requires unit > 0.0
    ensures var k := HeldBack(l, d);
            PriceLevel(Times(price, k.price), Times(unit, k.quantity))
            == HeldBack(PriceLevel(Times(price, l.price), Times(unit, l.quantity)), Times(unit, d))
  {
    assert d > 0.0 <==> unit * d > 0.0;
    assert unit * (l.quantity - d) == unit * l.quantity - unit * d;
    assert l.quantity >= d ==> unit * (l.quantity - d) >= 0.0;
    assert l.quantity < d ==> unit * (l.quantity - d) < 0.0;
  }

  /**
    * What is owed is counted in the rescaled book's units, so the historical market holds back what is owed if and only
    * if rescaling changes no quantity, or every level that is owed something is emptied either way.
    */
  lemma HistoricalHoldsBackWhatIsOwedIff(h: Held, raw: seq<PriceLevel>, price: real, unit: real)
    requires unit > 0.0
    ensures Rescaled(Refreshed(h, raw).levels, price, unit) == Refreshed(h, Rescaled(raw, price, unit)).levels
            <==> unit == 1.0
                 || forall i :: 0 <= i < |raw| && At(h.deficits, i) > 0.0 ==>
                      At(h.deficits, i) >= raw[i].quantity && At(h.deficits, i) >= Times(unit, raw[i].quantity)
  {
    hide Times;
    var a, b := Rescaled(Refreshed(h, raw).levels, price, unit), Refreshed(h, Rescaled(raw, price, unit)).levels;
    forall i | 0 <= i < |raw|
      ensures a[i] == b[i]
              <==> unit == 1.0 || (At(h.deficits, i) > 0.0 ==>
                     At(h.deficits, i) >= raw[i].quantity && At(h.deficits, i) >= Times(unit, raw[i].quantity))
    {
      HeldBackAlike(raw[i].quantity, At(h.deficits, i), unit);
    }
  }

  lemma HeldBackAlike(q: real, d: real, unit: real)
    requires unit > 0.0
    ensures d > 0.0 ==> (Times(unit, Max(q - d, 0.0)) == Max(Times(unit, q) - d, 0.0)
                         <==> unit == 1.0 || (d >= q && d >= Times(unit, q)))
  {
    TimesZero(unit);
    if d > 0.0 && q > d {
      var left := Times(unit, q - d);
      assert left == Times(unit, q) - Times(unit, d);
      assert left > 0.0;
      assert Times(unit, d) == d <==> unit == 1.0;
      hide Times;
    } else if d > 0.0 {
      assert unit == 1.0 ==> Times(unit, q) == q;
      hide Times;
    }
  }

  // ----- What every sale keeps -----

  /** The ladder is in order, nothing is negative, the parameters are proper fractions. */
  ghost predicate Sound(s: State, cap: real) {
    IsLadder(s.held.levels, cap) && NonNegative(s.held.deficits)
  }

  lemma {:induction false} SamePricesKeepLadder(a: seq<PriceLevel>, b: seq<PriceLevel>, cap: real)
    requires IsLadder(a, cap) && |a| == |b|
    requires forall i :: 0 <= i < |a| ==> a[i].price == b[i].price && b[i].quantity >= 0.0
    ensures IsLadder(b, cap)
  {
    if a != [] {
      SamePricesKeepLadder(a[1..], b[1..], a[0].price);
    }
  }

  lemma {:induction false} LadderQuantity(levels: seq<PriceLevel>, cap: real, i: nat)
    requires IsLadder(levels, cap) && i < |levels|
    ensures levels[i].quantity >= 0.0
  {
    if i > 0 {
      LadderQuantity(levels[1..], levels[0].price, i - 1);
    }
  }

  lemma PullIsPart(l: PriceLevel, pct: real)
    requires 0.0 <= pct <= 1.0 && l.quantity >= 0.0
    ensures 0.0 <= Pull(l, pct) <= l.quantity
  {
    TimesMono(pct, 1.0, l.quantity);
    TimesMono(0.0, pct, l.quantity);
    assert Times(pct, l.quantity) == Pull(l, pct);
  }

  lemma PostFillKeepsSound(h: Held, cap: real, sensitivity: real, pct: real, steps: nat, filled: real, depth: real)
    requires IsLadder(h.levels, cap) && NonNegative(h.deficits) && 0.0 <= pct <= 1.0
    ensures var a := PostFill(h, sensitivity, pct, steps, filled, depth);
            IsLadder(a.levels, cap) && NonNegative(a.deficits)
  {
    hide Pull, IsLadder;
    var a := PostFill(h, sensitivity, pct, steps, filled, depth);
    forall i | 0 <= i < |h.levels| ensures 0.0 <= Pull(h.levels[i], pct) <= h.levels[i].quantity {
      LadderQuantity(h.levels, cap, i);
      PullIsPart(h.levels[i], pct);
    }
    SamePricesKeepLadder(h.levels, a.levels, cap);
  }

  lemma ShareIsPart(d: real, counter: nat)
    requires d >= 0.0 && counter > 0
    ensures 0.0 <= Share(d, counter) <= d
  {
  }

  lemma RecoveredKeepsSound(h: Held, cap: real)
    requires IsLadder(h.levels, cap) && NonNegative(h.deficits)
    ensures var a := Recovered(h); IsLadder(a.levels, cap) && NonNegative(a.deficits)
  {
    hide Share, IsLadder;
    var a := Recovered(h);
    forall i: nat ensures 0.0 <= Given(h, i) <= Max(At(h.deficits, i), 0.0) {
      if h.counter > 0 && i < |h.levels| && At(h.deficits, i) > 0.0 {
        ShareIsPart(At(h.deficits, i), h.counter);
      }
    }
    forall i | 0 <= i < |h.levels| ensures a.levels[i].price == h.levels[i].price && a.levels[i].quantity >= 0.0 {
      LadderQuantity(h.levels, cap, i);
    }
    SamePricesKeepLadder(h.levels, a.levels, cap);
  }

  lemma CopyLeaves(bids: seq<PriceLevel>, cap: real, copy: real)
    requires IsLadder(bids, cap)
    ensures var open := AfterCopy(bids, copy);
            && IsLadder(open, cap)
            && Depth(bids) - Depth(open) == (if copy > MIN_COPY then Walk(bids, copy).filled else 0.0)
  {
    hide Walk, Depth, IsLadder;
    WalkFills(bids, cap, copy);
  }

  /**
    * What was in the book or owed to it is now in the front-runner's hands, in ours, in the book or owed to it;
    * and the book is still a ladder.
    */
  lemma FillAccounts(p: Adversary, s: State, cap: real, qty: real)
    requires Sound(s, cap) && 0.0 <= p.withdrawalPct <= 1.0
    ensures var f := Fill(p, s, qty);
            && Sound(f.state, cap)
            && Depth(s.held.levels) + Sum(s.held.deficits)
               == f.taken + f.ours.filled + Depth(f.state.held.levels) + Sum(f.state.held.deficits)
  {
    hide Walk, Depth, IsLadder, PostFill, Recovered, Observed, AfterCopy, KeepsPositions, NonNegative, Sum;
    var f := Fill(p, s, qty);
    CopyLeaves(s.held.levels, cap, f.copy);
    WalkFills(f.open, cap, qty);
    var h := s.held.(levels := f.ours.levels);
    var held := PostFill(h, p.sensitivity, p.withdrawalPct, p.recoverySteps, f.ours.filled, Depth(f.open));
    PostFillKeepsSound(h, cap, p.sensitivity, p.withdrawalPct, p.recoverySteps, f.ours.filled, Depth(f.open));
    PostFillKeepsPositions(h, p.sensitivity, p.withdrawalPct, p.recoverySteps, f.ours.filled, Depth(f.open));
    KeptPositionsKeepTotal(h, held);
    RecoveredKeepsSound(held, cap);
    RecoveredKeepsPositions(held);
    KeptPositionsKeepTotal(held, Recovered(held));
  }

  /**
    * The front-runner took what it is reported to have taken exactly when it sat still, or the book held all it wanted
    * and met it at no level with only a speck to sell.
    */
  lemma ReportedIsTaken(p: Adversary, s: State, cap: real, qty: real)
    requires Sound(s, cap)
    ensures var f := Fill(p, s, qty);
            var levels := s.held.levels;
            f.copy == f.taken
            <==> f.copy == 0.0 || (f.copy > MIN_COPY && f.copy <= Depth(levels) && NoSpeck(levels, f.copy))
  {
    hide Walk, Depth, IsLadder, PostFill, Recovered, Observed, AfterCopy, NoSpeck;
    var f := Fill(p, s, qty);
    CopyLeaves(s.held.levels, cap, f.copy);
    WalkFills(s.held.levels, cap, f.copy);
    if f.copy > 0.0 {
      FillsExactly(s.held.levels, cap, f.copy);
    }
  }

  /** A warmed-up front-runner that wants 40 of a book of 10 takes 10 and is reported to have taken 40. */
  lemma ReportedMayExceedTaken()
    ensures var flow := ObserveAll(DEFAULTS.runner, Flow([], 0.0), seq(5, _ => 10.0));
            var f := Fill(DEFAULTS, State(Held([PriceLevel(100.0, 10.0)], [], 0), flow), 100.0);
            f.copy == 40.0 && f.taken == 10.0
  {
    hide ObserveAll, PostFill, Recovered, Observed;
    var flow := ObserveAll(DEFAULTS.runner, Flow([], 0.0), seq(5, _ => 10.0));
    SteadyFlowIsFrontRun(DEFAULTS.runner, seq(5, _ => 10.0), 10.0, 10.0, 100.0);
    var levels := [PriceLevel(100.0, 10.0)];
    assert levels[1..] == [];
    assert Walk(levels, 40.0).levels == [];
    hide CopyQty;
  }

  /** Our price per unit is never better than against the same book without the adversary. */
  lemma AdversaryNeverImprovesPrice(p: Adversary, s: State, cap: real, qty: real)
    requires Sound(s, cap)
    ensures var f := Fill(p, s, qty);
            var alone := Walk(s.held.levels, qty);
            && Times(f.ours.notional, alone.filled) <= Times(alone.notional, f.ours.filled)
            && (qty > 2.0 * SPECK ==>
                  AveragePrice(f.ours.filled, f.ours.notional) <= AveragePrice(alone.filled, alone.notional))
  {
    hide Walk, Depth, IsLadder, PostFill, Recovered, Observed, AveragePrice, Times;
    var f := Fill(p, s, qty);
    var alone := Walk(s.held.levels, qty);
    if f.copy > MIN_COPY {
      SecondSellerPrice(s.held.levels, cap, f.copy, qty);
      SecondSellerProceeds(s.held.levels, cap, f.copy, qty);
      OnlySellerProceeds(s.held.levels, cap, qty);
      ProceedsArePositive(s.held.levels, cap, alone.filled);
      if qty > 2.0 * SPECK {
        AverageOfBoth(f.ours.filled, f.ours.notional, alone.filled, alone.notional);
      }
    }
  }

  /** Our takings from a book, with the adversary and without, after whatever the adversary has seen. */
  ghost predicate NeverPays(levels: seq<PriceLevel>, q: real) {
    forall p: Adversary, s: State :: s.held.levels == levels ==>
      Fill(p, s, q).ours.notional <= Walk(levels, q).notional
  }

  /** A front-runner with no window to wait for copies any quantity. */
  lemma SomeoneCopies(levels: seq<PriceLevel>, c: real, q: real) returns (p: Adversary, s: State)
    requires c > 0.0 && q > MIN_COPY
    ensures s.held.levels == levels && Fill(p, s, q).copy == c
  {
    hide Walk, Depth, PostFill, Recovered, Observed;
    var a := c / q;
    assert a * q == c;
    p := Adversary(0.0, 0.0, 0, Runner(0, 0.0, a));
    s := State(Held(levels, [], 0), Flow([1.0], 0.0));
    assert [1.0][..0] == [];
  }

  lemma CopiedThenSold(p: Adversary, s: State, q: real)
    ensures var f := Fill(p, s, q);
            f.ours.notional == if f.copy > MIN_COPY then SecondTakings(s.held.levels, f.copy, q)
                               else Walk(s.held.levels, q).notional
  {
    hide Walk, Depth, PostFill, Recovered, Observed, CopyQty;
  }

  /**
    * In a book every level of which holds more than the smallest copied quantity and a speck, no front-runner, whatever
    * its parameters and whatever it has seen, raises our takings if and only if no level is met with a speck that pays.
    */
  lemma FrontRunningNeverPaysIff(levels: seq<PriceLevel>, cap: real, q: real)
    requires IsLadder(levels, cap) && NoDust(levels, MIN_COPY)
    ensures NeverPays(levels, q) <==> forall k: nat :: !SpeckPaysAt(levels, MIN_COPY, q, k)
  {
    hide Walk, SecondTakings, SpeckPaysAt, NoDust, IsLadder, Fill;
    SecondSellerNeverGainsIff(levels, cap, MIN_COPY, q);
    if forall k: nat :: !SpeckPaysAt(levels, MIN_COPY, q, k) {
      forall p: Adversary, s: State | s.held.levels == levels
        ensures Fill(p, s, q).ours.notional <= Walk(levels, q).notional
      {
        CopiedThenSold(p, s, q);
      }
    } else {
      var k: nat :| SpeckPaysAt(levels, MIN_COPY, q, k);
      SpeckIsBeyond(levels, cap, q, k);
      var c: real :| c > MIN_COPY && SecondTakings(levels, c, q) > Walk(levels, q).notional;
      var p, s := SomeoneCopies(levels, c, q);
      CopiedThenSold(p, s, q);
    }
  }

  lemma SpeckIsBeyond(levels: seq<PriceLevel>, cap: real, q: real, k: nat)
    requires IsLadder(levels, cap) && NoDust(levels, MIN_COPY) && SpeckPaysAt(levels, MIN_COPY, q, k)
    ensures q > MIN_COPY
  {
    hide Times;
    PrefixDepthMono(levels, cap, 1, k);
    assert levels[..1][1..] == [];
  }

  /** The default front-runner, warmed up, sells 0.4 of ours ahead of us, and we take more than alone. */
  lemma FrontRunningMayPay()
    ensures var flow := ObserveAll(DEFAULTS.runner, Flow([], 0.0), seq(5, _ => 10.0));
            var f := Fill(DEFAULTS, State(Held(SPECK_BOOK, [], 0), flow), SPECK_SALE);
            && f.copy == 0.40 * SPECK_SALE && f.copy > MIN_COPY
            && f.ours.notional > Walk(SPECK_BOOK, SPECK_SALE).notional
  {
    hide ObserveAll, PostFill, Recovered, Observed, Walk;
    var flow := ObserveAll(DEFAULTS.runner, Flow([], 0.0), seq(5, _ => 10.0));
    SteadyFlowIsFrontRun(DEFAULTS.runner, seq(5, _ => 10.0), 10.0, 10.0, SPECK_SALE);
    SecondSellerMayTakeMore();
    CopiedThenSold(DEFAULTS, State(Held(SPECK_BOOK, [], 0), flow), SPECK_SALE);
    hide CopyQty;
  }

  lemma ProceedsArePositive(levels: seq<PriceLevel>, cap: real, x: real)
    requires IsLadder(levels, cap) && x >= 0.0
    ensures Proceeds(levels, x) >= 0.0
  {
  }

  lemma AverageOfBoth(f: real, nf: real, g: real, ng: real)
    requires f >= 0.0 && ng >= 0.0 && Times(nf, g) <= Times(ng, f)
    requires f > SPECK ==> g > SPECK
    ensures AveragePrice(f, nf) <= AveragePrice(g, ng)
  {
  }

  // ----- A fresh book while depth is owed -----

  /**
    * Swapping in a fresh book and letting the counter run out leaves each position with the larger of its own
    * quantity and what was owed there: the fresh book comes back exactly when no deficit exceeded its level.
    */
  lemma RefreshThenRecover(h: Held, levels: seq<PriceLevel>)
    requires h.counter > 0 && NonNegative(h.deficits)
    requires forall i :: 0 <= i < |levels| ==> levels[i].quantity >= 0.0
    ensures var r := RecoveredTimes(Refreshed(h, levels), h.counter);
            && |r.levels| == |levels|
            && (forall i :: 0 <= i < |levels| ==>
                  r.levels[i].quantity == Max(levels[i].quantity, At(h.deficits, i)))
            && ((forall i :: 0 <= i < |levels| ==> r.levels[i].quantity == levels[i].quantity)
                <==> (forall i :: 0 <= i < |levels| ==> At(h.deficits, i) <= levels[i].quantity))
  {
    hide Back, RecoveredTimes;
    var f := Refreshed(h, levels);
    var r := RecoveredTimes(f, h.counter);
    RecoveryIsLinear(f, h.counter);
    forall i | 0 <= i < |levels|
      ensures r.levels[i].quantity == Max(levels[i].quantity, At(h.deficits, i))
    {
      BackOfAll(At(h.deficits, i), h.counter);
    }
  }

  // ----- When the front-runner acts -----

  function ObserveAll(p: Runner, flow: Flow, quantities: seq<real>): Flow {
    if quantities == [] then flow
    else Observed(p, ObserveAll(p, flow, quantities[..|quantities| - 1]), quantities[|quantities| - 1])
  }

  /** After sales that all lie between `low` and `high` the average does too, and the window holds the last of them. */
  lemma {:induction false} FlowStaysBetween(p: Runner, quantities: seq<real>, low: real, high: real)
    requires 0.0 < low <= high && p.window > 0
    requires forall i :: 0 <= i < |quantities| ==> low <= quantities[i] <= high
    ensures var f := ObserveAll(p, Flow([], 0.0), quantities);
            && f.recent == LastOf(quantities, p.window)
            && (if quantities == [] then f.average == 0.0 else low <= f.average <= high)
  {
    if quantities == [] {
      LastOfNone(p.window);
    } else {
      hide Observed, LastOf;
      var n := |quantities| - 1;
      var before := quantities[..n];
      FlowStaysBetween(p, before, low, high);
      assert quantities == before + [quantities[n]];
      LastOfSnoc(before, quantities[n], p.window);
      ObservedBetween(p, ObserveAll(p, Flow([], 0.0), before), quantities[n], low, high);
    }
  }

  lemma LastOfNone(n: nat)
    ensures LastOf([], n) == []
  {
  }

  lemma ObservedBetween(p: Runner, flow: Flow, qty: real, low: real, high: real)
    requires 0.0 < low <= qty <= high && (flow.average == 0.0 || low <= flow.average <= high)
    ensures Observed(p, flow, qty).recent == LastOf(flow.recent + [qty], p.window)
    ensures low <= Observed(p, flow, qty).average <= high
  {
  }

  lemma LastOfSnoc(xs: seq<real>, x: real, n: nat)
    requires n > 0
    ensures LastOf(LastOf(xs, n) + [x], n) == LastOf(xs + [x], n)
  {
  }

  /** How much of a trade is left in the average after `k` more. */
  function Fade(k: nat): real {
    if k == 0 then 1.0 else 0.9 * Fade(k - 1)
  }

  /** The weight of trade `i` of `n`: a tenth when it was made, all of it for the first, fading by a tenth a trade. */
  function AverageWeight(n: nat, i: nat): real
    requires i < n
  {
    if i == 0 then Fade(n - 1) else 0.1 * Fade(n - 1 - i)
  }

  function Weighted(quantities: seq<real>): seq<real> {
    seq(|quantities|, i requires 0 <= i < |quantities| => Times(AverageWeight(|quantities|, i), quantities[i]))
  }

  lemma {:induction false} SumOfFaded(xs: seq<real>, ys: seq<real>)
    requires |xs| == |ys| && forall i :: 0 <= i < |xs| ==> ys[i] == 0.9 * xs[i]
    ensures Sum(ys) == 0.9 * Sum(xs)
  {
    if xs != [] {
      SumOfFaded(xs[..|xs| - 1], ys[..|ys| - 1]);
    }
  }

  lemma WeightedNext(quantities: seq<real>)
    requires |quantities| > 1
    ensures var n := |quantities| - 1;
            Sum(Weighted(quantities)) == 0.9 * Sum(Weighted(quantities[..n])) + 0.1 * quantities[n]
  {
    hide Sum;
    var n := |quantities| - 1;
    var all, front := Weighted(quantities), Weighted(quantities[..n]);
    forall i | 0 <= i < n ensures all[..n][i] == 0.9 * front[i] {
      assert AverageWeight(n + 1, i) == 0.9 * AverageWeight(n, i);
      WeightFades(AverageWeight(n, i), quantities[i]);
    }
    SumOfFaded(front, all[..n]);
    SumSnoc(all[..n], all[n]);
    assert all == all[..n] + [all[n]] && Fade(0) == 1.0;
  }

  lemma WeightFades(w: real, x: real)
    ensures Times(0.9 * w, x) == 0.9 * Times(w, x)
  {
  }

  /** The average of trades that are all positive is the sum of the trades by these weights. */
  lemma {:induction false} AverageIsWeighted(p: Runner, quantities: seq<real>)
    requires quantities != [] && forall i :: 0 <= i < |quantities| ==> quantities[i] > 0.0
    ensures ObserveAll(p, Flow([], 0.0), quantities).average == Sum(Weighted(quantities)) > 0.0
  {
    var n := |quantities| - 1;
    if n == 0 {
      assert quantities[..0] == [] && Weighted(quantities)[..0] == [];
    } else {
      AverageIsWeighted(p, quantities[..n]);
      WeightedNext(quantities);
      hide Weighted, Sum, LastOf;
    }
  }

  lemma {:induction false} SumAtLeast(xs: seq<real>, low: real)
    requires forall i :: 0 <= i < |xs| ==> xs[i] >= low
    ensures Sum(xs) >= (|xs| as real) * low
  {
    if xs != [] {
      var n := |xs| - 1;
      SumAtLeast(xs[..n], low);
      assert (|xs| as real) == (n as real) + 1.0;
      assert (|xs| as real) * low == (n as real) * low + low;
    }
  }

  /**
    * A seller whose last `window` or more sales stay within a factor `1 / threshold` of each other is always
    * front-run, by exactly the aggression share of the order.
    */
  lemma SteadyFlowIsFrontRun(p: Runner, quantities: seq<real>, low: real, high: real, intended: real)
    requires 0.0 < low <= high && p.threshold * high < low && p.threshold >= 0.0 && p.aggression >= 0.0
    requires |quantities| >= p.window > 0 && intended > MIN_COPY
    requires forall i :: 0 <= i < |quantities| ==> low <= quantities[i] <= high
    ensures CopyQty(p, ObserveAll(p, Flow([], 0.0), quantities), intended) == p.aggression * intended
  {
    hide Trigger, ObserveAll, Sum;
    var f := ObserveAll(p, Flow([], 0.0), quantities);
    FlowStaysBetween(p, quantities, low, high);
    SumAtLeast(f.recent, low);
    assert |f.recent| == p.window;
    TriggerIsBelow(p, f.average, high, low);
    assert p.aggression * intended >= 0.0;
  }

  /**
    * The front-runner sells ahead of an order exactly when its window is full, the trades in it average more than the
    * threshold's part of the long-run average, and the order is more than 1e-9; and then its aggression's part of it.
    */
  lemma CopiesExactlyWhen(p: Runner, flow: Flow, intended: real)
    requires p.aggression > 0.0 && |flow.recent| > 0 && |flow.recent| <= p.window
    ensures var copies := |flow.recent| == p.window && intended > 0.000000001
                          && Sum(flow.recent) / (p.window as real) > p.threshold * flow.average;
            CopyQty(p, flow, intended) == if copies then p.aggression * intended else 0.0
  {
    hide Sum;
    var n := p.window as real;
    assert p.threshold * flow.average * n == Trigger(p, flow.average);
    AverageAbove(Sum(flow.recent), n, p.threshold * flow.average);
    if intended > 0.0 {
      assert p.aggression * intended > 0.0;
    }
    hide Trigger;
  }

  lemma AverageAbove(sum: real, n: real, level: real)
    requires n > 0.0
    ensures sum / n > level <==> sum > level * n
  {
    assert (sum / n) * n == sum;
  }

  lemma TriggerIsBelow(p: Runner, average: real, high: real, low: real)
    requires p.threshold >= 0.0 && average <= high && p.threshold * high < low && p.window > 0
    ensures Trigger(p, average) < (p.window as real) * low
  {
  }
}
