/** Traded volume in half-open time windows, computed by a scan, by binary search and by a moving cursor. */
module AggTrades {
  import opened Arith

  /** Largest 64-bit timestamp, the open end of the last cursor window. */
  const FOREVER: nat := 0xFFFF_FFFF_FFFF_FFFF

  const NEGLIGIBLE := 0.000000000001

  datatype AggTrade = AggTrade(timestamp: nat, quantity: real, isSell: bool)

  datatype Volume = Volume(buy: real, sell: real) {
    function Total(): real {
      buy + sell
    }
  }

  const NONE := Volume(0.0, 0.0)

  function Plus(v: Volume, w: Volume): Volume {
    Volume(v.buy + w.buy, v.sell + w.sell)
  }

  function Count(v: Volume, t: AggTrade): Volume {
    if t.isSell then v.(sell := v.sell + t.quantity) else v.(buy := v.buy + t.quantity)
  }

  // ----- The plain filter -----

  /** Volume of those among the first `n` trades that lie in [start, end). */
  function Filtered(trades: seq<AggTrade>, n: nat, start: nat, end: nat): Volume
    requires n <= |trades|
  {
    if n == 0 then NONE
    else
      var v := Filtered(trades, n - 1, start, end);
      if start <= trades[n - 1].timestamp < end then Count(v, trades[n - 1]) else v
  }

  function InWindow(trades: seq<AggTrade>, start: nat, end: nat): Volume {
    Filtered(trades, |trades|, start, end)
  }

  ghost predicate Sorted(trades: seq<AggTrade>) {
    forall i, j :: 0 <= i <= j < |trades| ==> trades[i].timestamp <= trades[j].timestamp
  }

  ghost predicate NonDecreasing(times: seq<nat>) {
    forall i, j :: 0 <= i <= j < |times| ==> times[i] <= times[j]
  }

  lemma FilteredUnfolds(trades: seq<AggTrade>, n: nat, start: nat, end: nat)
    requires 0 < n <= |trades|
    ensures var v := Filtered(trades, n - 1, start, end);
            Filtered(trades, n, start, end)
            == if start <= trades[n - 1].timestamp < end then Count(v, trades[n - 1]) else v
  {
  }

  /** Adjacent windows add up. */
  lemma {:induction false} WindowsAdd(trades: seq<AggTrade>, n: nat, a: nat, b: nat, c: nat)
    requires n <= |trades| && a <= b <= c
    ensures Filtered(trades, n, a, c) == Plus(Filtered(trades, n, a, b), Filtered(trades, n, b, c))
  {
    if n > 0 {
      WindowsAdd(trades, n - 1, a, b, c);
      FilteredUnfolds(trades, n, a, b);
      FilteredUnfolds(trades, n, b, c);
      FilteredUnfolds(trades, n, a, c);
      hide Filtered;
    }
  }

  /** The quantities of the sells, or of the buys, that lie in [start, end). */
  function Quantities(trades: seq<AggTrade>, sells: bool, start: nat, end: nat): seq<real> {
    if trades == [] then []
    else
      var t := trades[|trades| - 1];
      Quantities(trades[..|trades| - 1], sells, start, end)
      + if t.isSell == sells && start <= t.timestamp < end then [t.quantity] else []
  }

  function Sells(trades: seq<AggTrade>, start: nat, end: nat): real {
    Sum(Quantities(trades, true, start, end))
  }

  function Buys(trades: seq<AggTrade>, start: nat, end: nat): real {
    Sum(Quantities(trades, false, start, end))
  }

  lemma {:induction false} FilteredIsTrades(trades: seq<AggTrade>, n: nat, start: nat, end: nat)
    requires n <= |trades|
    ensures Filtered(trades, n, start, end) == Volume(Buys(trades[..n], start, end), Sells(trades[..n], start, end))
  {
    hide Sum, Quantities;
    if n == 0 {
      NoTrades(start, end);
    } else {
      FilteredIsTrades(trades, n - 1, start, end);
      assert trades[..n][..n - 1] == trades[..n - 1];
      LastTrade(trades[..n], true, start, end);
      LastTrade(trades[..n], false, start, end);
    }
  }

  lemma NoTrades(start: nat, end: nat)
    ensures Buys([], start, end) == 0.0 && Sells([], start, end) == 0.0
  {
  }

  lemma LastTrade(trades: seq<AggTrade>, sells: bool, start: nat, end: nat)
    requires trades != []
    ensures var n := |trades| - 1;
            Sum(Quantities(trades, sells, start, end))
            == Sum(Quantities(trades[..n], sells, start, end))
               + if trades[n].isSell == sells && start <= trades[n].timestamp < end then trades[n].quantity else 0.0
  {
    hide Sum;
    var front, t := Quantities(trades[..|trades| - 1], sells, start, end), trades[|trades| - 1];
    SumSnoc(front, t.quantity);
    assert front + [] == front;
  }

  /** Of the volume in a window the sell part is what the sells in it add up to, the buy part what the buys do. */
  lemma WindowIsTrades(trades: seq<AggTrade>, start: nat, end: nat)
    ensures var v := InWindow(trades, start, end);
            && v.sell == Sells(trades, start, end) && v.buy == Buys(trades, start, end)
            && v.Total() == Sells(trades, start, end) + Buys(trades, start, end)
  {
    FilteredIsTrades(trades, |trades|, start, end);
    assert trades[..|trades|] == trades;
  }

  // ----- Where a time falls in the list -----

  /** Position of the first trade, from `i` on, that is not before `t`. */
  function FirstFrom(trades: seq<AggTrade>, i: nat, t: nat): (k: nat)
    requires i <= |trades|
    ensures i <= k <= |trades|
    ensures forall j :: i <= j < k ==> trades[j].timestamp < t
    ensures k < |trades| ==> trades[k].timestamp >= t
    decreases |trades| - i
  {
    if i < |trades| && trades[i].timestamp < t then FirstFrom(trades, i + 1, t) else i
  }

  function FirstNotBefore(trades: seq<AggTrade>, t: nat): nat {
    FirstFrom(trades, 0, t)
  }

  lemma FirstIsUnique(trades: seq<AggTrade>, t: nat, k: nat)
    requires Sorted(trades) && k <= |trades|
    requires k > 0 ==> trades[k - 1].timestamp < t
    requires k < |trades| ==> trades[k].timestamp >= t
    ensures k == FirstNotBefore(trades, t)
  {
  }

  lemma FirstMonotone(trades: seq<AggTrade>, s: nat, t: nat)
    requires Sorted(trades) && s <= t
    ensures FirstNotBefore(trades, s) <= FirstNotBefore(trades, t) <= |trades|
  {
  }

  /** Volume of the trades at positions [i, j). */
  function Range(trades: seq<AggTrade>, i: nat, j: nat): Volume
    requires j <= |trades|
    decreases j
  {
    if j <= i then NONE else Count(Range(trades, i, j - 1), trades[j - 1])
  }

  lemma {:induction false} RangeIsFiltered(trades: seq<AggTrade>, n: nat, start: nat, end: nat)
    requires Sorted(trades) && n <= |trades| && start <= end
    ensures var lo, hi := FirstNotBefore(trades, start), FirstNotBefore(trades, end);
            hi <= |trades| &&
            Filtered(trades, n, start, end) == Range(trades, lo, if n < hi then n else hi)
  {
    hide FirstFrom;
    var lo, hi := FirstNotBefore(trades, start), FirstNotBefore(trades, end);
    FirstMonotone(trades, start, end);
    if n > 0 {
      RangeIsFiltered(trades, n - 1, start, end);
      if n - 1 < lo {
        assert trades[n - 1].timestamp < start;
      } else if n - 1 < hi {
        assert start <= trades[lo].timestamp <= trades[n - 1].timestamp < end;
      } else {
        assert trades[n - 1].timestamp >= trades[hi].timestamp >= end;
      }
    }
  }

  /** For sorted trades a window is a contiguous range. */
  lemma WindowIsRange(trades: seq<AggTrade>, start: nat, end: nat)
    requires Sorted(trades) && start <= end
    ensures FirstNotBefore(trades, start) <= FirstNotBefore(trades, end) <= |trades|
    ensures InWindow(trades, start, end) == Range(trades, FirstNotBefore(trades, start), FirstNotBefore(trades, end))
  {
    RangeIsFiltered(trades, |trades|, start, end);
    FirstMonotone(trades, start, end);
  }

  lemma {:induction false} NothingAfter(trades: seq<AggTrade>, n: nat, start: nat, end: nat)
    requires Sorted(trades) && FirstNotBefore(trades, end) <= n <= |trades|
    ensures Filtered(trades, n, start, end) == Filtered(trades, FirstNotBefore(trades, end), start, end)
  {
    hide FirstFrom;
    if n > FirstNotBefore(trades, end) {
      NothingAfter(trades, n - 1, start, end);
    }
  }

  // ----- The three computations -----

  /** Scan from the start and stop at the first trade at or after the end. */
  method VolumeInWindow(trades: seq<AggTrade>, start: nat, end: nat) returns (v: Volume)
    ensures v == Filtered(trades, FirstNotBefore(trades, end), start, end)
    ensures Sorted(trades) ==> v == InWindow(trades, start, end)
  {
    v := NONE;
    var i := 0;
    while i < |trades|
      invariant i <= |trades| && v == Filtered(trades, i, start, end)
      invariant FirstFrom(trades, 0, end) == FirstFrom(trades, i, end)
    {
      if start <= trades[i].timestamp < end {
        v := Count(v, trades[i]);
      } else if trades[i].timestamp >= end {
        break;
      }
      i := i + 1;
    }
    if Sorted(trades) {
      NothingAfter(trades, |trades|, start, end);
    }
  }

  /** Binary search for the first trade that is not before `t`. */
  method PartitionPoint(trades: seq<AggTrade>, t: nat) returns (k: nat)
    requires Sorted(trades)
    ensures k == FirstNotBefore(trades, t)
  {
    var lo, hi := 0, |trades|;
    while lo < hi
      invariant 0 <= lo <= hi <= |trades|
      invariant lo > 0 ==> trades[lo - 1].timestamp < t
      invariant hi < |trades| ==> trades[hi].timestamp >= t
    {
      var mid := lo + (hi - lo) / 2;
      if trades[mid].timestamp < t {
        lo := mid + 1;
      } else {
        hi := mid;
      }
    }
    FirstIsUnique(trades, t, lo);
    k := lo;
  }

  method SliceVolume(trades: seq<AggTrade>, start: nat, end: nat) returns (v: Volume)
    requires Sorted(trades) && start <= end
    ensures v == InWindow(trades, start, end)
  {
    var left := PartitionPoint(trades, start);
    var right := PartitionPoint(trades, end);
    WindowIsRange(trades, start, end);
    v := NONE;
    for i := left to right
      invariant v == Range(trades, left, i)
    {
      v := Count(v, trades[i]);
    }
  }

  function SaturatingSub(a: nat, b: nat): nat {
    if a >= b then a - b else 0
  }

  function Ofi(v: Volume): real {
    if v.Total() < NEGLIGIBLE then 0.0 else (v.buy - v.sell) / v.Total()
  }

  method BuildOfiSeries(trades: seq<AggTrade>, snapshots: seq<nat>, window: nat) returns (series: seq<real>)
    requires Sorted(trades)
    ensures |series| == |snapshots|
    ensures forall k :: 0 <= k < |snapshots| ==>
              series[k] == Ofi(InWindow(trades, SaturatingSub(snapshots[k], window), snapshots[k]))
    ensures forall k :: 0 <= k < |snapshots| ==>
              IsImbalance(series[k], trades, if snapshots[k] >= window then snapshots[k] - window else 0, snapshots[k])
  {
    series := [];
    for k := 0 to |snapshots|
      invariant |series| == k
      invariant forall j :: 0 <= j < k ==>
        series[j] == Ofi(InWindow(trades, SaturatingSub(snapshots[j], window), snapshots[j]))
    {
      var v := SliceVolume(trades, SaturatingSub(snapshots[k], window), snapshots[k]);
      series := series + [Ofi(v)];
    }
    forall k | 0 <= k < |snapshots|
      ensures IsImbalance(series[k], trades, if snapshots[k] >= window then snapshots[k] - window else 0, snapshots[k])
    {
      OfiIsImbalance(trades, SaturatingSub(snapshots[k], window), snapshots[k]);
    }
  }

  /** Of a window's total the imbalance is the part by which its buys exceed its sells; nothing of next to nothing. */
  ghost predicate IsImbalance(x: real, trades: seq<AggTrade>, start: nat, end: nat) {
    var total := Buys(trades, start, end) + Sells(trades, start, end);
    if total < 0.000000000001 then x == 0.0
    else Times(x, total) == Buys(trades, start, end) - Sells(trades, start, end)
  }

  lemma OfiIsImbalance(trades: seq<AggTrade>, start: nat, end: nat)
    ensures IsImbalance(Ofi(InWindow(trades, start, end)), trades, start, end)
  {
    WindowIsTrades(trades, start, end);
    hide Filtered, Quantities, Sum;
  }

  /** Start of the k-th volume interval: the previous snapshot, or one bar before the first. */
  function IntervalStart(snapshots: seq<nat>, k: nat): nat
    requires k < |snapshots|
  {
    if k > 0 then snapshots[k - 1]
    else SaturatingSub(snapshots[0], if |snapshots| > 1 then SaturatingSub(snapshots[1], snapshots[0]) else 0)
  }

  method BuildVolumeSeries(trades: seq<AggTrade>, snapshots: seq<nat>) returns (series: seq<real>)
    requires Sorted(trades) && NonDecreasing(snapshots)
    ensures |series| == |snapshots|
    ensures forall k :: 0 <= k < |snapshots| ==>
              series[k] == InWindow(trades, IntervalStart(snapshots, k), snapshots[k]).Total()
  {
    series := [];
    for k := 0 to |snapshots|
      invariant |series| == k
      invariant forall j :: 0 <= j < k ==>
        series[j] == InWindow(trades, IntervalStart(snapshots, j), snapshots[j]).Total()
    {
      var v := SliceVolume(trades, IntervalStart(snapshots, k), snapshots[k]);
      series := series + [v.Total()];
    }
  }

  function CursorEnd(snapshots: seq<nat>, k: nat): nat
    requires k < |snapshots|
  {
    if k + 1 < |snapshots| then snapshots[k + 1] else FOREVER
  }

  ghost predicate Timestamps64(snapshots: seq<nat>) {
    forall k :: 0 <= k < |snapshots| ==> snapshots[k] <= FOREVER
  }

  /** Advance the cursor over one window. */
  method CursorWindow(trades: seq<AggTrade>, from: nat, start: nat, end: nat) returns (v: Volume, cursor: nat)
    requires Sorted(trades) && start <= end && from <= FirstNotBefore(trades, start)
    ensures v == InWindow(trades, start, end) && cursor == FirstNotBefore(trades, end)
  {
    hide FirstFrom;
    WindowIsRange(trades, start, end);
    cursor := from;
    while cursor < |trades| && trades[cursor].timestamp < start
      invariant cursor <= FirstNotBefore(trades, start)
    {
      cursor := cursor + 1;
    }
    assert cursor == FirstNotBefore(trades, start);
    v := NONE;
    while cursor < |trades| && trades[cursor].timestamp < end
      invariant FirstNotBefore(trades, start) <= cursor <= FirstNotBefore(trades, end)
      invariant v == Range(trades, FirstNotBefore(trades, start), cursor)
    {
      v := Count(v, trades[cursor]);
      cursor := cursor + 1;
    }
  }

  /** The volumes that one moving cursor feeds to the VPIN estimator, one window per snapshot. */
  method CursorWindows(trades: seq<AggTrade>, snapshots: seq<nat>) returns (windows: seq<Volume>)
    requires Sorted(trades) && NonDecreasing(snapshots) && Timestamps64(snapshots)
    ensures |windows| == |snapshots|
    ensures forall k :: 0 <= k < |snapshots| ==> windows[k] == InWindow(trades, snapshots[k], CursorEnd(snapshots, k))
  {
    windows := [];
    var cursor: nat := 0;
    for k := 0 to |snapshots|
      invariant |windows| == k
      invariant k < |snapshots| ==> cursor <= FirstNotBefore(trades, snapshots[k])
      invariant forall j :: 0 <= j < k ==> windows[j] == InWindow(trades, snapshots[j], CursorEnd(snapshots, j))
    {
      var v;
      v, cursor := CursorWindow(trades, cursor, snapshots[k], CursorEnd(snapshots, k));
      windows := windows + [v];
    }
  }

  // ----- What the series add up to -----

  function SumVolumes(windows: seq<Volume>): Volume {
    if windows == [] then NONE else Plus(SumVolumes(windows[..|windows| - 1]), windows[|windows| - 1])
  }

  lemma {:induction false} CursorPrefixSum(trades: seq<AggTrade>, snapshots: seq<nat>, windows: seq<Volume>, n: nat)
    requires NonDecreasing(snapshots) && Timestamps64(snapshots) && 0 < n <= |windows| == |snapshots|
    requires forall k :: 0 <= k < |snapshots| ==> windows[k] == InWindow(trades, snapshots[k], CursorEnd(snapshots, k))
    ensures SumVolumes(windows[..n]) == InWindow(trades, snapshots[0], CursorEnd(snapshots, n - 1))
  {
    hide Filtered;
    assert windows[..n][..n - 1] == windows[..n - 1];
    if n > 1 {
      CursorPrefixSum(trades, snapshots, windows, n - 1);
      WindowsAdd(trades, |trades|, snapshots[0], snapshots[n - 1], CursorEnd(snapshots, n - 1));
    }
  }

  /** The cursor's windows partition all volume from the first snapshot on. */
  lemma CursorWindowsPartition(trades: seq<AggTrade>, snapshots: seq<nat>, windows: seq<Volume>)
    requires NonDecreasing(snapshots) && Timestamps64(snapshots) && 0 < |windows| == |snapshots|
    requires forall k :: 0 <= k < |snapshots| ==> windows[k] == InWindow(trades, snapshots[k], CursorEnd(snapshots, k))
    ensures SumVolumes(windows) == InWindow(trades, snapshots[0], 0xFFFF_FFFF_FFFF_FFFF)
  {
    CursorPrefixSum(trades, snapshots, windows, |windows|);
    assert windows[..|windows|] == windows;
  }

  lemma {:induction false} VolumePrefixSum(trades: seq<AggTrade>, snapshots: seq<nat>, series: seq<real>, n: nat)
    requires NonDecreasing(snapshots) && 0 < n <= |series| == |snapshots|
    requires forall k :: 0 <= k < |snapshots| ==>
               series[k] == InWindow(trades, IntervalStart(snapshots, k), snapshots[k]).Total()
    ensures Sum(series[..n]) == InWindow(trades, IntervalStart(snapshots, 0), snapshots[n - 1]).Total()
  {
    hide Filtered;
    assert series[..n][..n - 1] == series[..n - 1];
    if n > 1 {
      VolumePrefixSum(trades, snapshots, series, n - 1);
      WindowsAdd(trades, |trades|, IntervalStart(snapshots, 0), snapshots[n - 2], snapshots[n - 1]);
    }
  }

  /** One bar before the first snapshot, as wide as the first bar, and not before the start of time. */
  ghost predicate OneBarBefore(from: int, snapshots: seq<nat>)
    requires snapshots != [] && NonDecreasing(snapshots)
  {
    var bar := if |snapshots| > 1 then snapshots[1] - snapshots[0] else 0;
    from == if snapshots[0] >= bar then snapshots[0] - bar else 0
  }

  /** The volume series adds up to all that was bought and sold from one bar before the first snapshot to the last. */
  lemma VolumeSeriesTotal(trades: seq<AggTrade>, snapshots: seq<nat>, series: seq<real>)
    requires NonDecreasing(snapshots) && 0 < |series| == |snapshots|
    requires forall k :: 0 <= k < |snapshots| ==>
               series[k] == InWindow(trades, IntervalStart(snapshots, k), snapshots[k]).Total()
    ensures var from := IntervalStart(snapshots, 0);
            var last := snapshots[|snapshots| - 1];
            OneBarBefore(from, snapshots) && Sum(series) == Buys(trades, from, last) + Sells(trades, from, last)
  {
    hide Sum, Filtered, Quantities;
    VolumePrefixSum(trades, snapshots, series, |series|);
    assert series[..|series|] == series;
    WindowIsTrades(trades, IntervalStart(snapshots, 0), snapshots[|snapshots| - 1]);
  }

  // ----- Order-flow imbalance -----

  lemma Ratio(x: real, total: real)
    requires total > 0.0 && -total <= x <= total
    ensures -1.0 <= x / total <= 1.0
    ensures x / total == 1.0 <==> x == total
    ensures x / total == -1.0 <==> x == -total
  {
  }

  /** Every trade in [start, end) is a sell, or every one a buy. */
  ghost predicate OneSided(trades: seq<AggTrade>, sells: bool, start: nat, end: nat) {
    forall i :: 0 <= i < |trades| && start <= trades[i].timestamp < end ==> trades[i].isSell == sells
  }

  lemma {:induction false} QuantitiesArePositive(trades: seq<AggTrade>, sells: bool, start: nat, end: nat)
    requires forall i :: 0 <= i < |trades| ==> trades[i].quantity > 0.0
    ensures var total := Sum(Quantities(trades, sells, start, end));
            total >= 0.0 && (total == 0.0 <==> OneSided(trades, !sells, start, end))
  {
    if trades != [] {
      var n := |trades| - 1;
      QuantitiesArePositive(trades[..n], sells, start, end);
      LastTrade(trades, sells, start, end);
      assert forall i :: 0 <= i < n ==> trades[..n][i] == trades[i];
      hide Sum, Quantities;
    }
  }

  /**
    * The imbalance lies in [-1, 1]. It reaches an end exactly when the window's total is not negligible and every trade
    * in it is a buy, or every one a sell.
    */
  lemma OfiBounds(trades: seq<AggTrade>, start: nat, end: nat)
    requires forall i :: 0 <= i < |trades| ==> trades[i].quantity > 0.0
    ensures var x := Ofi(InWindow(trades, start, end));
            var counts := Buys(trades, start, end) + Sells(trades, start, end) >= 0.000000000001;
            && -1.0 <= x <= 1.0
            && (x == 1.0 <==> counts && OneSided(trades, false, start, end))
            && (x == -1.0 <==> counts && OneSided(trades, true, start, end))
  {
    WindowIsTrades(trades, start, end);
    QuantitiesArePositive(trades, true, start, end);
    QuantitiesArePositive(trades, false, start, end);
    hide Filtered, Quantities, Sum, OneSided;
    var v := InWindow(trades, start, end);
    if v.Total() >= NEGLIGIBLE {
      Ratio(v.buy - v.sell, v.Total());
    }
  }
}
