/** Walking the bid ladder of a limit order book, and how proceeds depend on where the walk starts. */
module Books {
  import opened Wrappers
  import opened Arith

  /** A walk stops once no more than this is left to fill. */
  const SPECK := 0.000000000001

  datatype PriceLevel = PriceLevel(price: real, quantity: real)

  function Depth(levels: seq<PriceLevel>): real {
    if levels == [] then 0.0 else levels[0].quantity + Depth(levels[1..])
  }

  // ----- The walk -----

  datatype Walked = Walked(levels: seq<PriceLevel>, filled: real, notional: real, touched: nat, residual: real)

  function Walk(levels: seq<PriceLevel>, remaining: real): Walked {
    if levels == [] || remaining <= SPECK then Walked(levels, 0.0, 0.0, 0, remaining)
    else
      var l := levels[0];
      if l.quantity <= remaining then
        var w := Walk(levels[1..], remaining - l.quantity);
        Walked(w.levels, l.quantity + w.filled, Times(l.quantity, l.price) + w.notional, 1 + w.touched, w.residual)
      else
        Walked([l.(quantity := l.quantity - remaining)] + levels[1..], remaining, Times(remaining, l.price), 1, 0.0)
  }

  datatype FillResult = FillResult(filledQty: real, avgFillPrice: real, levelsConsumed: nat, residualQty: real,
                                   spreadCost: real, slippageFromMid: real)

  function AveragePrice(filled: real, notional: real): real {
    if filled > SPECK then notional / filled else 0.0
  }

  function ResultOf(w: Walked, sell: bool, mid: Option<real>, halfSpread: Option<real>): FillResult {
    var avg := AveragePrice(w.filled, w.notional);
    FillResult(w.filled, avg, w.touched, w.residual,
               Times(if halfSpread.Some? then halfSpread.value else 0.0, w.filled),
               if mid.None? then 0.0 else if sell then mid.value - avg else avg - mid.value)
  }

  function MidPrice(asks: seq<PriceLevel>, bids: seq<PriceLevel>): Option<real> {
    if asks == [] || bids == [] then None else Some(0.5 * (asks[0].price + bids[0].price))
  }

  function HalfSpread(asks: seq<PriceLevel>, bids: seq<PriceLevel>): Option<real> {
    if asks == [] || bids == [] then None else Some(0.5 * (asks[0].price - bids[0].price))
  }

  /** Walk a ladder from its best level, removing what is consumed. */
  method FillSide(ladder: seq<PriceLevel>, quantity: real) returns (left: seq<PriceLevel>, w: Walked)
    ensures w == Walk(ladder, quantity) && left == w.levels
  {
    hide Times;
    left := ladder;
    var remaining, notional, filled, touched := quantity, 0.0, 0.0, 0;
    var i := 0;
    while i < |left| && remaining > SPECK
      invariant i == 0 || (i == 1 && remaining == 0.0)
      invariant i <= |left|
      invariant var rest := Walk(left, remaining);
                Walk(ladder, quantity) ==
                  Walked(rest.levels, filled + rest.filled, notional + rest.notional, touched + rest.touched,
                         rest.residual)
      decreases |left| - i, remaining
    {
      var available, price := left[i].quantity, left[i].price;
      if available <= remaining {
        notional := notional + Times(available, price);
        filled := filled + available;
        remaining := remaining - available;
        touched := touched + 1;
        left := left[1..];
      } else {
        notional := notional + Times(remaining, price);
        filled := filled + remaining;
        touched := touched + 1;
        left := left[i := left[i].(quantity := available - remaining)];
        remaining := 0.0;
        i := i + 1;
      }
    }
    w := Walked(left, filled, notional, touched, remaining);
  }

  class OrderBook {
    var asks: seq<PriceLevel>
    var bids: seq<PriceLevel>

    constructor (asks: seq<PriceLevel>, bids: seq<PriceLevel>)
      ensures this.asks == asks && this.bids == bids
    {
      this.asks, this.bids := asks, bids;
    }

    method TotalBidDepth() returns (depth: real)
      ensures depth == Depth(bids)
    {
      depth := 0.0;
      var i := |bids|;
      while i > 0
        invariant 0 <= i <= |bids| && depth == Depth(bids[i..])
      {
        i := i - 1;
        depth := bids[i].quantity + depth;
      }
    }

    method FillMarketSell(quantity: real) returns (r: FillResult)
      modifies this`bids
      ensures var w := Walk(old(bids), quantity);
              && bids == w.levels
              && r == ResultOf(w, true, MidPrice(asks, old(bids)), HalfSpread(asks, old(bids)))
              && Reports(r, w, asks, old(bids), true)
    {
      var mid, halfSpread := MidPrice(asks, bids), HalfSpread(asks, bids);
      ResultReports(Walk(bids, quantity), asks, bids, true);
      hide Walk, Reports, ResultOf;
      var w;
      bids, w := FillSide(bids, quantity);
      r := ResultOf(w, true, mid, halfSpread);
    }

    method FillMarketBuy(quantity: real) returns (r: FillResult)
      modifies this`asks
      ensures var w := Walk(old(asks), quantity);
              && asks == w.levels
              && r == ResultOf(w, false, MidPrice(old(asks), bids), HalfSpread(old(asks), bids))
              && Reports(r, w, old(asks), bids, false)
    {
      var mid, halfSpread := MidPrice(asks, bids), HalfSpread(asks, bids);
      ResultReports(Walk(asks, quantity), asks, bids, false);
      hide Walk, Reports, ResultOf;
      var w;
      asks, w := FillSide(asks, quantity);
      r := ResultOf(w, false, mid, halfSpread);
    }
  }

  // ----- What a fill reports -----

  /**
    * The average is what is paid for the quantity filled, the slippage how far it is from the mid on the wrong side,
    * and the spread cost half the spread on that quantity; without one of the sides there is no mid and no spread.
    */
  ghost predicate Reports(r: FillResult, w: Walked, asks: seq<PriceLevel>, bids: seq<PriceLevel>, sell: bool) {
    && r.filledQty == w.filled && r.residualQty == w.residual && r.levelsConsumed == w.touched
    && (if w.filled > 0.000000000001 then Times(r.avgFillPrice, w.filled) == w.notional else r.avgFillPrice == 0.0)
    && (if asks == [] || bids == [] then r.spreadCost == 0.0 && r.slippageFromMid == 0.0
        else
          && 2.0 * r.spreadCost == Times(asks[0].price - bids[0].price, w.filled)
          && 2.0 * (if sell then r.slippageFromMid else -r.slippageFromMid)
             == asks[0].price + bids[0].price - 2.0 * r.avgFillPrice)
  }

  lemma ResultReports(w: Walked, asks: seq<PriceLevel>, bids: seq<PriceLevel>, sell: bool)
    ensures Reports(ResultOf(w, sell, MidPrice(asks, bids), HalfSpread(asks, bids)), w, asks, bids, sell)
  {
  }

  // ----- Exact proceeds -----

  /** A bid ladder no price of which exceeds `cap`: prices do not rise along it and nothing is negative. */
  predicate IsLadder(levels: seq<PriceLevel>, cap: real) {
    levels == [] ||
    (0.0 <= levels[0].price <= cap && 0.0 <= levels[0].quantity && IsLadder(levels[1..], levels[0].price))
  }

  /** What selling exactly `x` brings, the best bids first. */
  function Proceeds(levels: seq<PriceLevel>, x: real): real {
    if levels == [] || x <= 0.0 then 0.0
    else if levels[0].quantity <= x then
      Times(levels[0].quantity, levels[0].price) + Proceeds(levels[1..], x - levels[0].quantity)
    else Times(x, levels[0].price)
  }

  lemma ProceedsThrough(levels: seq<PriceLevel>, x: real)
    requires levels != [] && 0.0 <= levels[0].quantity <= x
    ensures Proceeds(levels, x)
         == Times(levels[0].quantity, levels[0].price) + Proceeds(levels[1..], x - levels[0].quantity)
  {
  }

  lemma ProceedsWithin(levels: seq<PriceLevel>, x: real)
    requires levels != [] && 0.0 <= x < levels[0].quantity
    ensures Proceeds(levels, x) == Times(x, levels[0].price)
  {
  }

  lemma ProceedsOfNothing(levels: seq<PriceLevel>)
    ensures Proceeds(levels, 0.0) == 0.0
  {
  }

  lemma CapUp(levels: seq<PriceLevel>, p: real, cap: real)
    requires IsLadder(levels, p) && p <= cap
    ensures IsLadder(levels, cap)
  {
  }

  /** Selling `c` more brings something between nothing and `c` at the best price. */
  lemma {:induction false} Lipschitz(levels: seq<PriceLevel>, cap: real, y: real, c: real)
    requires IsLadder(levels, cap) && cap >= 0.0 && y >= 0.0 && c >= 0.0
    ensures Proceeds(levels, y) <= Proceeds(levels, y + c) <= Proceeds(levels, y) + Times(c, cap)
    decreases |levels|
  {
    TimesMono(0.0, c, cap);
    if levels == [] {
    } else {
      hide Proceeds, Times;
      var rest, k, q := levels[1..], levels[0].quantity, levels[0].price;
      CapUp(rest, q, cap);
      if k <= y {
        Lipschitz(rest, cap, y - k, c);
        ProceedsThrough(levels, y);
        ProceedsThrough(levels, y + c);
        assert y + c - k == y - k + c;
      } else if k <= y + c {
        Lipschitz(rest, cap, 0.0, y + c - k);
        ProceedsOfNothing(rest);
        ProceedsWithin(levels, y);
        ProceedsThrough(levels, y + c);
        assert 0.0 + (y + c - k) == y + c - k;
        LipschitzStep(k, q, cap, y, c);
      } else {
        ProceedsWithin(levels, y);
        ProceedsWithin(levels, y + c);
        LipschitzStep(y + c, q, cap, y, c);
      }
    }
  }

  lemma LipschitzStep(k: real, q: real, p: real, y: real, c: real)
    requires 0.0 <= q <= p && y <= k <= y + c
    ensures Times(y, q) <= Times(k, q)
    ensures Times(k, q) + Times(y + c - k, p) <= Times(y, q) + Times(c, p)
  {
  }

  /** Proceeds are concave: the further into the book a sale of `x` starts, the less it brings. */
  lemma {:induction false} Diminishing(levels: seq<PriceLevel>, cap: real, a: real, b: real, x: real)
    requires IsLadder(levels, cap) && 0.0 <= a <= b && x >= 0.0
    ensures Proceeds(levels, b + x) - Proceeds(levels, b) <= Proceeds(levels, a + x) - Proceeds(levels, a)
    decreases |levels|, 1
  {
    if levels == [] {
    } else {
      hide Proceeds, Times;
      var rest, k, q := levels[1..], levels[0].quantity, levels[0].price;
      if k <= a {
        Diminishing(rest, q, a - k, b - k, x);
        ProceedsThrough(levels, a);
        ProceedsThrough(levels, b);
        ProceedsThrough(levels, a + x);
        ProceedsThrough(levels, b + x);
        assert a - k + x == a + x - k && b - k + x == b + x - k;
      } else if k <= b {
        DiminishingAcross(levels, cap, a, b, x);
      } else {
        DiminishingWithin(levels, cap, a, b, x);
      }
    }
  }

  /** The earlier sale starts inside the best level, the later one beyond it. */
  lemma {:induction false} DiminishingAcross(levels: seq<PriceLevel>, cap: real, a: real, b: real, x: real)
    requires levels != [] && IsLadder(levels, cap) && x >= 0.0 && 0.0 <= a < levels[0].quantity <= b
    ensures Proceeds(levels, b + x) - Proceeds(levels, b) <= Proceeds(levels, a + x) - Proceeds(levels, a)
    decreases |levels|, 0
  {
    hide Proceeds, Times;
    var rest, k, q := levels[1..], levels[0].quantity, levels[0].price;
    ProceedsThrough(levels, b);
    ProceedsThrough(levels, b + x);
    ProceedsWithin(levels, a);
    if k <= a + x {
      var y, d := a + x - k, k - a;
      Diminishing(rest, q, 0.0, b - k, y);
      ProceedsOfNothing(rest);
      Lipschitz(rest, q, b - k + y, d);
      ProceedsThrough(levels, a + x);
      assert 0.0 + y == y && b - k + y + d == b + x - k;
      TimesSplit(a, d, q);
    } else {
      Lipschitz(rest, q, b - k, x);
      ProceedsWithin(levels, a + x);
      assert b - k + x == b + x - k;
      TimesSplit(a, x, q);
    }
  }

  /** Both sales start inside the best level. */
  lemma DiminishingWithin(levels: seq<PriceLevel>, cap: real, a: real, b: real, x: real)
    requires levels != [] && IsLadder(levels, cap) && x >= 0.0 && 0.0 <= a <= b < levels[0].quantity
    ensures Proceeds(levels, b + x) - Proceeds(levels, b) <= Proceeds(levels, a + x) - Proceeds(levels, a)
  {
    hide Proceeds, Times;
    var rest, k, q := levels[1..], levels[0].quantity, levels[0].price;
    ProceedsWithin(levels, a);
    ProceedsWithin(levels, b);
    if b + x < k {
      ProceedsWithin(levels, a + x);
      ProceedsWithin(levels, b + x);
      TimesSplit(a, x, q);
      TimesSplit(b, x, q);
    } else if k <= a + x {
      ProceedsThrough(levels, a + x);
      ProceedsThrough(levels, b + x);
      Lipschitz(rest, q, a + x - k, b - a);
      assert a + x - k + (b - a) == b + x - k;
      TimesSplit(a, b - a, q);
    } else {
      ProceedsWithin(levels, a + x);
      ProceedsThrough(levels, b + x);
      Lipschitz(rest, q, 0.0, b + x - k);
      ProceedsOfNothing(rest);
      assert 0.0 + (b + x - k) == b + x - k;
      TimesSplit(a, x, q);
      TimesSplit(b, k - b, q);
      TimesSplit(k - b, b + x - k, q);
    }
  }

  /** The average price does not rise with the quantity sold. */
  lemma {:induction false} AverageFalls(levels: seq<PriceLevel>, cap: real, x: real, y: real)
    requires IsLadder(levels, cap) && 0.0 <= x <= y
    ensures Times(Proceeds(levels, y), x) <= Times(Proceeds(levels, x), y)
    decreases |levels|
  {
    if levels == [] {
    } else {
      hide Proceeds, Times;
      var rest, k, q := levels[1..], levels[0].quantity, levels[0].price;
      if k <= x {
        ProceedsThrough(levels, x);
        ProceedsThrough(levels, y);
        AverageFalls(rest, q, x - k, y - k);
        Lipschitz(rest, q, x - k, y - x);
        assert x - k + (y - x) == y - k;
        AverageStep(k, q, x, y, Proceeds(rest, x - k), Proceeds(rest, y - k));
      } else {
        HeadCap(levels, cap);
        Lipschitz(levels, q, 0.0, y);
        ProceedsOfNothing(levels);
        ProceedsWithin(levels, x);
        assert 0.0 + y == y;
        TimesMono(Proceeds(levels, y), Times(y, q), x);
        Regroup(x, y, q);
      }
    }
  }

  lemma HeadCap(levels: seq<PriceLevel>, cap: real)
    requires levels != [] && IsLadder(levels, cap)
    ensures IsLadder(levels, levels[0].price)
  {
  }

  lemma Regroup(x: real, y: real, q: real)
    ensures Times(Times(y, q), x) == Times(Times(x, q), y)
  {
  }

  lemma AverageStep(k: real, q: real, x: real, y: real, px: real, py: real)
    requires 0.0 <= k <= x <= y && py <= px + Times(y - x, q) && Times(py, x - k) <= Times(px, y - k)
    ensures Times(Times(k, q) + py, x) <= Times(Times(k, q) + px, y)
  {
  }

  // ----- The walk computes exact proceeds -----

  /** What a walk fills: all of the request but at most a speck, or the whole book. */
  ghost predicate Fills(w: Walked, levels: seq<PriceLevel>, quantity: real) {
    && 0.0 <= w.filled <= Max(quantity, 0.0)
    && w.residual == quantity - w.filled
    && (w.residual <= SPECK || w.levels == [])
    && Depth(w.levels) == Depth(levels) - w.filled
  }

  lemma {:induction false} DepthIsNonNegative(levels: seq<PriceLevel>, cap: real)
    requires IsLadder(levels, cap)
    ensures Depth(levels) >= 0.0
  {
    if levels != [] {
      DepthIsNonNegative(levels[1..], levels[0].price);
    }
  }

  lemma {:induction false} WalkFills(levels: seq<PriceLevel>, cap: real, quantity: real)
    requires IsLadder(levels, cap)
    ensures Fills(Walk(levels, quantity), levels, quantity)
    ensures IsLadder(Walk(levels, quantity).levels, cap)
    decreases |levels|
  {
    hide Times;
    if levels == [] || quantity <= SPECK {
    } else if levels[0].quantity <= quantity {
      WalkFills(levels[1..], levels[0].price, quantity - levels[0].quantity);
    } else {
      assert ([levels[0].(quantity := levels[0].quantity - quantity)] + levels[1..])[1..] == levels[1..];
    }
  }

  /** The notional a walk reports is what selling exactly its filled quantity brings. */
  lemma {:induction false} WalkBringsProceeds(levels: seq<PriceLevel>, cap: real, quantity: real)
    requires IsLadder(levels, cap)
    ensures var w := Walk(levels, quantity); w.notional == Proceeds(levels, w.filled)
    decreases |levels|
  {
    hide Times, Proceeds;
    if levels == [] || quantity <= SPECK {
      ProceedsOfNothing(levels);
    } else if levels[0].quantity <= quantity {
      var rest, k := levels[1..], levels[0].quantity;
      var w := Walk(rest, quantity - k);
      WalkBringsProceeds(rest, levels[0].price, quantity - k);
      WalkFills(rest, levels[0].price, quantity - k);
      ProceedsThrough(levels, k + w.filled);
      assert k + w.filled - k == w.filled;
    } else {
      ProceedsWithin(levels, quantity);
    }
  }

  /** Selling `x` into what a walk left brings what the deeper stretch of the untouched book brings. */
  lemma {:induction false} WalkShiftsProceeds(levels: seq<PriceLevel>, cap: real, quantity: real, x: real)
    requires IsLadder(levels, cap) && x >= 0.0
    ensures var w := Walk(levels, quantity);
            Proceeds(w.levels, x) == Proceeds(levels, w.filled + x) - Proceeds(levels, w.filled)
    decreases |levels|
  {
    hide Times, Proceeds;
    if levels == [] || quantity <= SPECK {
      ProceedsOfNothing(levels);
      assert 0.0 + x == x;
    } else if levels[0].quantity <= quantity {
      var rest, k := levels[1..], levels[0].quantity;
      var w := Walk(rest, quantity - k);
      WalkShiftsProceeds(rest, levels[0].price, quantity - k, x);
      WalkFills(rest, levels[0].price, quantity - k);
      ProceedsThrough(levels, k + w.filled);
      ProceedsThrough(levels, k + w.filled + x);
      assert k + w.filled - k == w.filled && k + w.filled + x - k == w.filled + x;
    } else {
      WalkShiftsWithin(levels, quantity, x);
    }
  }

  lemma WalkShiftsWithin(levels: seq<PriceLevel>, quantity: real, x: real)
    requires levels != [] && 0.0 <= quantity < levels[0].quantity && x >= 0.0
    ensures Proceeds([levels[0].(quantity := levels[0].quantity - quantity)] + levels[1..], x)
         == Proceeds(levels, quantity + x) - Proceeds(levels, quantity)
  {
  }

  // ----- Selling after someone else -----

  lemma DepthOfRest(levels: seq<PriceLevel>, cap: real, w: Walked)
    requires IsLadder(w.levels, cap)
    ensures Depth(w.levels) >= 0.0 && (w.levels == [] ==> Depth(w.levels) == 0.0)
  {
    DepthIsNonNegative(w.levels, cap);
  }

  /** A seller who comes second gets what the deeper stretch of the original book pays. */
  lemma SecondSellerProceeds(levels: seq<PriceLevel>, cap: real, c: real, q: real)
    requires IsLadder(levels, cap)
    ensures var first := Walk(levels, c);
            var second := Walk(first.levels, q);
            && second.notional == Proceeds(levels, first.filled + second.filled) - Proceeds(levels, first.filled)
            && first.filled >= 0.0 && 0.0 <= second.filled <= Max(q, 0.0)
            && first.filled + second.filled <= Depth(levels)
            && (second.filled < q - SPECK ==> first.filled + second.filled == Depth(levels))
            && (first.filled < c - SPECK ==> second.filled == 0.0)
  {
    hide Proceeds, Walk, Times;
    var first := Walk(levels, c);
    var second := Walk(first.levels, q);
    WalkFills(levels, cap, c);
    WalkFills(first.levels, cap, q);
    WalkBringsProceeds(first.levels, cap, q);
    WalkShiftsProceeds(levels, cap, c, second.filled);
    DepthOfRest(levels, cap, first);
    DepthOfRest(first.levels, cap, second);
  }

  /** Walking the untouched book, for comparison. */
  lemma OnlySellerProceeds(levels: seq<PriceLevel>, cap: real, q: real)
    requires IsLadder(levels, cap)
    ensures var only := Walk(levels, q);
            && only.notional == Proceeds(levels, only.filled) && only.residual == q - only.filled
            && 0.0 <= only.filled <= Max(q, 0.0) && only.filled <= Depth(levels)
            && (only.levels == [] ==> only.filled == Depth(levels))
            && (only.filled < q - SPECK ==> only.filled == Depth(levels))
  {
  }

  /**
    * Selling second never improves the price per unit: cross-multiplied, so that nothing is said of an empty fill.
    * `c > 2 * SPECK` is well below the smallest quantity a front-runner acts on.
    */
  lemma SecondSellerPrice(levels: seq<PriceLevel>, cap: real, c: real, q: real)
    requires IsLadder(levels, cap) && c > 2.0 * SPECK
    ensures var second, only := Walk(Walk(levels, c).levels, q), Walk(levels, q);
            Times(second.notional, only.filled) <= Times(only.notional, second.filled)
  {
    hide Proceeds, Walk, Times;
    var first, only := Walk(levels, c), Walk(levels, q);
    var second := Walk(first.levels, q);
    SecondSellerProceeds(levels, cap, c, q);
    OnlySellerProceeds(levels, cap, q);
    var a, f, g := first.filled, second.filled, only.filled;
    if f == 0.0 {
      assert a + f == a;
      TimesZero(g);
      TimesZero(only.notional);
    } else {
      assert g <= a + f;
      AverageFalls(levels, cap, a, a + f);
      AverageFalls(levels, cap, g, a + f);
      TailBelowHead(a, f, g, Proceeds(levels, a), Proceeds(levels, g), Proceeds(levels, a + f));
    }
  }

  lemma TailBelowHead(a: real, f: real, g: real, pa: real, pg: real, p: real)
    requires a >= 0.0 && f > 0.0 && g >= 0.0
    requires Times(p, a) <= Times(pa, a + f) && Times(p, g) <= Times(pg, a + f)
    ensures Times(p - pa, g) <= Times(pg, f)
  {
  }

  // ----- Where a walk stops short -----

  /** No level is reached with something left to sell that is no more than a speck. */
  ghost predicate NoSpeck(levels: seq<PriceLevel>, q: real) {
    forall k :: 0 <= k < |levels| ==> !(0.0 < q - Depth(levels[..k]) <= SPECK)
  }

  lemma DepthOfPrefix(levels: seq<PriceLevel>, k: nat)
    requires 0 < k <= |levels|
    ensures Depth(levels[..k]) == levels[0].quantity + Depth(levels[1..][..k - 1])
  {
    assert levels[..k][1..] == levels[1..][..k - 1];
  }

  lemma {:induction false} PrefixDepthRises(levels: seq<PriceLevel>, cap: real, k: nat)
    requires IsLadder(levels, cap) && k <= |levels|
    ensures 0.0 <= Depth(levels[..k]) <= Depth(levels)
  {
    if k == 0 {
      DepthIsNonNegative(levels, cap);
    } else {
      PrefixDepthRises(levels[1..], levels[0].price, k - 1);
      DepthOfPrefix(levels, k);
    }
  }

  /** Specks of a ladder without its best level are those of the ladder beyond it. */
  lemma SpecksBeyond(levels: seq<PriceLevel>, q: real)
    requires levels != []
    ensures NoSpeck(levels, q) <==> !(0.0 < q <= SPECK) && NoSpeck(levels[1..], q - levels[0].quantity)
  {
    var rest := levels[1..];
    assert Depth(levels[..0]) == 0.0;
    forall k | 0 <= k < |rest|
      ensures Depth(levels[..k + 1]) == levels[0].quantity + Depth(rest[..k])
    {
      DepthOfPrefix(levels, k + 1);
    }
    if NoSpeck(levels, q) {
      forall k | 0 <= k < |rest| ensures !(0.0 < q - levels[0].quantity - Depth(rest[..k]) <= SPECK) {
        assert !(0.0 < q - Depth(levels[..k + 1]) <= SPECK);
      }
    }
    if !(0.0 < q <= SPECK) && NoSpeck(rest, q - levels[0].quantity) {
      forall k | 0 <= k < |levels| ensures !(0.0 < q - Depth(levels[..k]) <= SPECK) {
        assert k > 0 ==> !(0.0 < q - levels[0].quantity - Depth(rest[..k - 1]) <= SPECK);
      }
    }
  }

  lemma {:induction false} NoSpeckBelow(levels: seq<PriceLevel>, cap: real, q: real)
    requires IsLadder(levels, cap) && q <= 0.0
    ensures NoSpeck(levels, q)
  {
    forall k | 0 <= k < |levels| ensures Depth(levels[..k]) >= 0.0 {
      PrefixDepthRises(levels, cap, k);
    }
  }

  /** Within the best level there is nothing to trip over: the next level is never reached. */
  lemma NoSpeckWithin(levels: seq<PriceLevel>, cap: real, q: real)
    requires levels != [] && IsLadder(levels, cap) && SPECK < q < levels[0].quantity
    ensures NoSpeck(levels, q)
  {
    SpecksBeyond(levels, q);
    NoSpeckBelow(levels[1..], levels[0].price, q - levels[0].quantity);
  }

  /** A walk leaves something unfilled beside a level exactly when it reaches that level with only a speck to sell. */
  lemma {:induction false} SpeckStopsWalk(levels: seq<PriceLevel>, cap: real, q: real)
    requires IsLadder(levels, cap)
    ensures var w := Walk(levels, q);
            (w.residual <= 0.0 || w.levels == [] <==> NoSpeck(levels, q))
    decreases |levels|
  {
    hide Times;
    if levels == [] {
    } else if q <= SPECK {
      SpecksBeyond(levels, q);
      if q <= 0.0 {
        NoSpeckBelow(levels, cap, q);
      }
    } else if levels[0].quantity <= q {
      hide NoSpeck;
      SpeckStopsWalk(levels[1..], levels[0].price, q - levels[0].quantity);
      SpecksBeyond(levels, q);
    } else {
      NoSpeckWithin(levels, cap, q);
    }
  }

  /** A positive quantity is filled to the last bit exactly when the book holds it and no level is met with a speck. */
  lemma FillsExactly(levels: seq<PriceLevel>, cap: real, q: real)
    requires IsLadder(levels, cap) && q > 0.0
    ensures Walk(levels, q).residual == 0.0 <==> q <= Depth(levels) && NoSpeck(levels, q)
  {
    hide Walk, NoSpeck;
    var w := Walk(levels, q);
    WalkFills(levels, cap, q);
    DepthOfRest(levels, cap, w);
    SpeckStopsWalk(levels, cap, q);
  }

  /**
    * Selling second never brings more, except for the speck a walk may leave unfilled; and never at all when the sale
    * alone meets no level with only a speck left to sell.
    */
  lemma SecondSellerTakings(levels: seq<PriceLevel>, cap: real, c: real, q: real)
    requires IsLadder(levels, cap) && cap >= 0.0
    ensures var second, only := Walk(Walk(levels, c).levels, q), Walk(levels, q);
            && second.notional <= only.notional + Times(SPECK, cap)
            && (NoSpeck(levels, q) ==> second.notional <= only.notional)
  {
    hide Proceeds, Walk, Times, NoSpeck;
    var first, only := Walk(levels, c), Walk(levels, q);
    var second := Walk(first.levels, q);
    SecondSellerProceeds(levels, cap, c, q);
    OnlySellerProceeds(levels, cap, q);
    SpeckStopsWalk(levels, cap, q);
    var f, g := second.filled, only.filled;
    Diminishing(levels, cap, 0.0, first.filled, f);
    ProceedsOfNothing(levels);
    assert 0.0 + f == f;
    TimesZero(cap);
    if f <= g {
      Lipschitz(levels, cap, f, g - f);
      assert f + (g - f) == g;
      TimesMono(0.0, SPECK, cap);
    } else {
      Lipschitz(levels, cap, g, f - g);
      assert g + (f - g) == f;
      TimesMono(f - g, SPECK, cap);
    }
  }

  /** A book, and a sale that meets its second bid with half a speck. */
  const SPECK_BOOK := [PriceLevel(100.0, 0.000000003), PriceLevel(99.99, 5.0)]

  const SPECK_SALE := 0.000000003 + 0.5 * SPECK

  /** The speck matters: a sale that stops just short of the second bid brings more once the first bid is thinned. */
  lemma SecondSellerMayTakeMore()
    ensures var c := 0.40 * SPECK_SALE;
            && IsLadder(SPECK_BOOK, 100.0) && Walk(SPECK_BOOK, c).filled == c
            && Walk(Walk(SPECK_BOOK, c).levels, SPECK_SALE).notional > Walk(SPECK_BOOK, SPECK_SALE).notional
  {
  }

  // ----- Exactly when selling second can pay -----

  /** Every level holds more than a sale of `m` and a speck. */
  ghost predicate NoDust(levels: seq<PriceLevel>, m: real) {
    forall k :: 0 <= k < |levels| ==> levels[k].quantity > m + SPECK
  }

  /** What a seller of `q` takes after someone else has sold `c`. */
  function SecondTakings(levels: seq<PriceLevel>, c: real, q: real): real {
    Walk(Walk(levels, c).levels, q).notional
  }

  /**
    * The sale alone stops with a speck in front of level `k`, and that speck and another `m` are worth more there than
    * `m` at the best bid.
    */
  ghost predicate SpeckPaysAt(levels: seq<PriceLevel>, m: real, q: real, k: nat) {
    && 1 <= k < |levels| && 0.0 < q - Depth(levels[..k]) <= SPECK
    && Times(q - Depth(levels[..k]) + m, levels[k].price) > Times(m, levels[0].price)
  }

  lemma {:induction false} PrefixDepthMono(levels: seq<PriceLevel>, cap: real, j: nat, k: nat)
    requires IsLadder(levels, cap) && j <= k <= |levels|
    ensures Depth(levels[..j]) <= Depth(levels[..k])
  {
    if j == 0 {
      PrefixDepthRises(levels, cap, k);
    } else {
      PrefixDepthMono(levels[1..], levels[0].price, j - 1, k - 1);
      DepthOfPrefix(levels, j);
      DepthOfPrefix(levels, k);
    }
  }

  lemma {:induction false} PrefixDepthNext(levels: seq<PriceLevel>, k: nat)
    requires k < |levels|
    ensures Depth(levels[..k + 1]) == Depth(levels[..k]) + levels[k].quantity
  {
    DepthOfPrefix(levels, k + 1);
    if k > 0 {
      DepthOfPrefix(levels, k);
      PrefixDepthNext(levels[1..], k - 1);
    }
  }

  /** Selling into level `k` after everything before it. */
  lemma {:induction false} ProceedsInto(levels: seq<PriceLevel>, cap: real, k: nat, x: real)
    requires IsLadder(levels, cap) && k < |levels| && 0.0 <= x <= levels[k].quantity
    ensures Proceeds(levels, Depth(levels[..k]) + x) == Proceeds(levels, Depth(levels[..k])) + Times(x, levels[k].price)
  {
    hide Proceeds, Times;
    var rest := levels[1..];
    if k == 0 {
      ProceedsOfNothing(levels);
      assert 0.0 + x == x;
      if x < levels[0].quantity {
        ProceedsWithin(levels, x);
      } else {
        ProceedsThrough(levels, x);
        ProceedsOfNothing(rest);
      }
    } else {
      ProceedsInto(rest, levels[0].price, k - 1, x);
      DepthOfPrefix(levels, k);
      PrefixDepthRises(rest, levels[0].price, k - 1);
      var d := Depth(rest[..k - 1]);
      ProceedsThrough(levels, levels[0].quantity + d);
      ProceedsThrough(levels, levels[0].quantity + d + x);
      assert levels[0].quantity + d - levels[0].quantity == d;
      assert levels[0].quantity + d + x - levels[0].quantity == d + x;
    }
  }

  /** A walk that meets level `k` with a speck has filled exactly the levels before it. */
  lemma {:induction false} SpeckFill(levels: seq<PriceLevel>, cap: real, q: real, k: nat)
    requires IsLadder(levels, cap) && NoDust(levels, SPECK) && k < |levels| && 0.0 < q - Depth(levels[..k]) <= SPECK
    ensures Walk(levels, q).filled == Depth(levels[..k])
  {
    hide Times;
    if k > 0 {
      DepthOfPrefix(levels, k);
      PrefixDepthRises(levels[1..], levels[0].price, k - 1);
      SpeckFill(levels[1..], levels[0].price, q - levels[0].quantity, k - 1);
    }
  }

  /** A step so small that it does not use up a positive gain. */
  lemma SmallStep(gain: real, p: real, room: real) returns (e: real)
    requires gain > 0.0 && p >= 0.0 && room > 0.0
    ensures 0.0 < e <= room && Times(e, p) < gain
  {
    var x := gain / (p + 1.0);
    assert x * (p + 1.0) == gain;
    assert x > 0.0;
    e := Min(room, 0.5 * x);
    TimesMono(e, 0.5 * x, p);
    assert Times(0.5 * x, p) < gain;
  }

  /** What is left after a sale of less than the best level. */
  lemma ThinnedBook(levels: seq<PriceLevel>, cap: real, c: real, j: nat)
    requires IsLadder(levels, cap) && levels != [] && SPECK < c < levels[0].quantity && j <= |levels|
    ensures var w := Walk(levels, c);
            && w.filled == c && |w.levels| == |levels| && IsLadder(w.levels, cap)
            && Depth(w.levels) == Depth(levels) - c
            && Depth(w.levels[..j]) == if j == 0 then 0.0 else Depth(levels[..j]) - c
  {
    hide Times;
    var w := Walk(levels, c);
    WalkFills(levels, cap, c);
    assert w.levels[1..] == levels[1..];
    if j > 0 {
      DepthOfPrefix(levels, j);
      DepthOfPrefix(w.levels, j);
    }
  }

  /** Thinning the best bid by a little more than a speck carries the second seller over the level it tripped on. */
  lemma ThinnedFill(levels: seq<PriceLevel>, cap: real, c: real, q: real, k: nat)
    requires IsLadder(levels, cap) && 1 <= k < |levels| && 0.0 < q - Depth(levels[..k]) <= SPECK
    requires SPECK < c < levels[0].quantity && q - Depth(levels[..k]) + c <= levels[k].quantity
    ensures Walk(Walk(levels, c).levels, q).filled == q
  {
    hide Walk, Times, Proceeds;
    var thin := Walk(levels, c).levels;
    ThinnedBook(levels, cap, c, k);
    PrefixDepthNext(levels, k);
    PrefixDepthNext(levels, 0);
    PrefixDepthMono(levels, cap, 1, k);
    PrefixDepthRises(levels, cap, k + 1);
    forall j | 0 <= j < |thin| ensures !(0.0 < q - Depth(thin[..j]) <= SPECK) {
      ThinnedBook(levels, cap, c, j);
      if 0 < j <= k {
        PrefixDepthMono(levels, cap, j, k);
      } else if j > k {
        PrefixDepthMono(levels, cap, k + 1, j);
      }
    }
    FillsExactly(thin, cap, q);
    WalkFills(thin, cap, q);
  }

  lemma SpeckGain(levels: seq<PriceLevel>, cap: real, m: real, q: real, k: nat) returns (c: real)
    requires IsLadder(levels, cap) && m >= SPECK && NoDust(levels, m) && SpeckPaysAt(levels, m, q, k)
    ensures c > m && SecondTakings(levels, c, q) > Walk(levels, q).notional
  {
    hide Walk, Times, Proceeds;
    var d, p, best := Depth(levels[..k]), levels[k].price, levels[0].price;
    var r := q - d;
    LadderPrice(levels, cap, k);
    LadderPrice(levels, cap, 0);
    var room := Min(levels[0].quantity, levels[k].quantity) - m - SPECK;
    var e := SmallStep(Times(r + m, p) - Times(m, best), best, 0.5 * room);
    c := m + e;
    ThinnedBook(levels, cap, c, 0);
    ThinnedFill(levels, cap, c, q, k);
    SecondSellerProceeds(levels, cap, c, q);
    SpeckFill(levels, cap, q, k);
    OnlySellerProceeds(levels, cap, q);
    ProceedsInto(levels, cap, k, r + c);
    ProceedsWithin(levels, c);
    assert c + q == d + (r + c);
    TimesSplit(m, e, best);
    TimesSplit(r + m, e, p);
    assert r + c == r + m + e;
    TimesMono(0.0, e, p);
    TimesZero(p);
  }

  lemma {:induction false} LadderPrice(levels: seq<PriceLevel>, cap: real, i: nat)
    requires IsLadder(levels, cap) && i < |levels|
    ensures levels[i].price >= 0.0
  {
    if i > 0 {
      LadderPrice(levels[1..], levels[0].price, i - 1);
    }
  }

  lemma FirstTakesMore(levels: seq<PriceLevel>, cap: real, m: real, c: real)
    requires IsLadder(levels, cap) && m >= SPECK && NoDust(levels, m) && levels != [] && c > m
    ensures Walk(levels, c).filled > m
  {
    hide Times;
    WalkFills(levels[1..], levels[0].price, c - levels[0].quantity);
  }

  lemma SpeckLoss(levels: seq<PriceLevel>, cap: real, m: real, c: real, q: real)
    requires IsLadder(levels, cap) && m >= SPECK && NoDust(levels, m) && c > m
    requires forall k: nat :: !SpeckPaysAt(levels, m, q, k)
    ensures SecondTakings(levels, c, q) <= Walk(levels, q).notional
  {
    CapUp(levels, cap, Max(cap, 0.0));
    if NoSpeck(levels, q) {
      hide Walk, Times;
      SecondSellerTakings(levels, Max(cap, 0.0), c, q);
    } else if q <= SPECK {
      hide Times;
    } else {
      var k: nat :| 0 <= k < |levels| && 0.0 < q - Depth(levels[..k]) <= SPECK;
      assert !SpeckPaysAt(levels, m, q, k);
      assert Depth(levels[..0]) == 0.0;
      SpeckLossAt(levels, Max(cap, 0.0), m, c, q, k);
    }
  }

  lemma SpeckLossAt(levels: seq<PriceLevel>, cap: real, m: real, c: real, q: real, k: nat)
    requires IsLadder(levels, cap) && cap >= 0.0 && m >= SPECK && NoDust(levels, m) && c > m
    requires 1 <= k < |levels| && 0.0 < q - Depth(levels[..k]) <= SPECK && !SpeckPaysAt(levels, m, q, k)
    ensures SecondTakings(levels, c, q) <= Walk(levels, q).notional
  {
    hide Walk, Times, Proceeds;
    var d := Depth(levels[..k]);
    var r, a, f := q - d, Walk(levels, c).filled, Walk(Walk(levels, c).levels, q).filled;
    PrefixDepthRises(levels, cap, k);
    FirstTakesMore(levels, cap, m, c);
    SecondSellerProceeds(levels, cap, c, q);
    Lipschitz(levels, cap, a + f, q - f);
    assert a + f + (q - f) == a + q;
    Diminishing(levels, cap, m, a, q);
    SpeckFill(levels, cap, q, k);
    OnlySellerProceeds(levels, cap, q);
    ProceedsInto(levels, cap, k, r + m);
    assert m + q == d + (r + m);
    ProceedsWithin(levels, m);
  }

  /**
    * In a book every level of which holds more than `m` and a speck, no earlier sale of more than `m` lets the second
    * seller take more than alone if and only if no level is met with a speck that pays.
    */
  lemma SecondSellerNeverGainsIff(levels: seq<PriceLevel>, cap: real, m: real, q: real)
    requires IsLadder(levels, cap) && m >= SPECK && NoDust(levels, m)
    ensures (forall c: real :: c > m ==> SecondTakings(levels, c, q) <= Walk(levels, q).notional)
            <==> (forall k: nat :: !SpeckPaysAt(levels, m, q, k))
  {
    hide Walk, SecondTakings, SpeckPaysAt, NoDust, IsLadder;
    if forall k: nat :: !SpeckPaysAt(levels, m, q, k) {
      forall c: real | c > m ensures SecondTakings(levels, c, q) <= Walk(levels, q).notional {
        SpeckLoss(levels, cap, m, c, q);
      }
    } else {
      var k: nat :| SpeckPaysAt(levels, m, q, k);
      var c := SpeckGain(levels, cap, m, q, k);
    }
  }

  // ----- Slippage -----

  /** Asking for more never fills less. */
  lemma {:induction false} FilledRises(levels: seq<PriceLevel>, cap: real, p: real, q: real)
    requires IsLadder(levels, cap) && p <= q
    ensures Walk(levels, p).filled <= Walk(levels, q).filled
    decreases |levels|
  {
    hide Times;
    WalkFills(levels, cap, p);
    WalkFills(levels, cap, q);
    if levels == [] || p <= SPECK {
    } else if levels[0].quantity <= p {
      FilledRises(levels[1..], levels[0].price, p - levels[0].quantity, q - levels[0].quantity);
    } else if levels[0].quantity <= q {
      WalkFills(levels[1..], levels[0].price, q - levels[0].quantity);
    }
  }

  lemma AverageWithin(levels: seq<PriceLevel>, cap: real, q: real)
    requires levels != [] && IsLadder(levels, cap)
    ensures var w := Walk(levels, q); AveragePrice(w.filled, w.notional) <= levels[0].price
  {
    hide Walk, Proceeds, Times;
    var w, best := Walk(levels, q), levels[0].price;
    WalkFills(levels, cap, q);
    WalkBringsProceeds(levels, cap, q);
    HeadCap(levels, cap);
    Lipschitz(levels, best, 0.0, w.filled);
    ProceedsOfNothing(levels);
    assert 0.0 + w.filled == w.filled;
    if w.filled > SPECK {
      QuotientAtMost(w.notional, w.filled, best);
    }
  }

  lemma QuotientAtMost(n: real, f: real, p: real)
    requires f > 0.0 && n <= Times(f, p)
    ensures n / f <= p
  {
  }

  lemma QuotientsInOrder(nx: real, x: real, ny: real, y: real)
    requires x > 0.0 && y > 0.0 && Times(ny, x) <= Times(nx, y)
    ensures ny / y <= nx / x
  {
    assert (ny / y) * y == ny && (nx / x) * x == nx;
    assert (ny / y) * (x * y) <= (nx / x) * (x * y);
  }

  /**
    * For a sale into an uncrossed book slippage is never negative, and a larger sale that fills more than a speck
    * never slips less than a smaller one that does.
    */
  lemma SlippageRises(asks: seq<PriceLevel>, bids: seq<PriceLevel>, cap: real, p: real, q: real)
    requires asks != [] && bids != [] && IsLadder(bids, cap) && asks[0].price >= bids[0].price
    requires p <= q
    ensures var mid, half := MidPrice(asks, bids), HalfSpread(asks, bids);
            var small, large := ResultOf(Walk(bids, p), true, mid, half), ResultOf(Walk(bids, q), true, mid, half);
            && 0.0 <= small.slippageFromMid && 0.0 <= small.spreadCost <= large.spreadCost
            && (small.filledQty > SPECK ==> small.slippageFromMid <= large.slippageFromMid)
  {
    hide Walk, Proceeds, Times;
    var v, w := Walk(bids, p), Walk(bids, q);
    AverageWithin(bids, cap, p);
    FilledRises(bids, cap, p, q);
    WalkFills(bids, cap, p);
    var half := 0.5 * (asks[0].price - bids[0].price);
    TimesMono(0.0, v.filled, half);
    TimesMono(v.filled, w.filled, half);
    TimesZero(half);
    TimesSwap(half, v.filled);
    TimesSwap(half, w.filled);
    if v.filled > SPECK {
      WalkBringsProceeds(bids, cap, p);
      WalkBringsProceeds(bids, cap, q);
      AverageFalls(bids, cap, v.filled, w.filled);
      QuotientsInOrder(v.notional, v.filled, w.notional, w.filled);
    }
  }
}
