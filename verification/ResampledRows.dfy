/** What the rows of the conversion list: the best quotes of either side at their boundary, best first. */
module ResampledRows {
  import opened Wrappers
  import opened Resampler

  // ----- What a row must show -----

  /** On the bid side a higher price is at least as good, on the ask side a lower one. */
  predicate AsGood(bid: bool, num: Number, price: string, other: string) {
    if bid then num(price) >= num(other) else num(price) <= num(other)
  }

  /** The `i`-th price and quantity of a side's cells. */
  function PriceIn(cells: seq<string>, i: nat): string
    requires i < 500 && |cells| == 1000
  {
    cells[2 * i]
  }

  function QuantityIn(cells: seq<string>, i: nat): string
    requires i < 500 && |cells| == 1000
  {
    cells[2 * i + 1]
  }

  /**
    * One side of a row at time `at`, the first `n` of its 500 pairs of cells filled: each is a quote of that side, best
    * first and no price twice; the others are empty; and a quote that is missing finds the row full of prices as good.
    */
  ghost predicate Lists(cells: seq<string>, n: nat, messages: seq<Message>, bid: bool, at: int, num: Number) {
    && |cells| == 1000 && n <= 500
    && (forall i: nat :: i < n ==> Quote(messages, bid, PriceIn(cells, i), at, num) == Some(QuantityIn(cells, i)))
    && BestComesFirst(cells, n, bid, num)
    && (forall i :: 2 * n <= i < 1000 ==> cells[i] == "")
    && (forall price: string :: Quote(messages, bid, price, at, num) != None ==>
          Listed(cells, n, price) || (n == 500 && NoneWorse(cells, n, bid, num, price)))
  }

  ghost predicate BestComesFirst(cells: seq<string>, n: nat, bid: bool, num: Number)
    requires n <= 500 && |cells| == 1000
  {
    forall i: nat, j: nat :: i < j < n ==>
      PriceIn(cells, i) != PriceIn(cells, j) && AsGood(bid, num, PriceIn(cells, i), PriceIn(cells, j))
  }

  ghost predicate Listed(cells: seq<string>, n: nat, price: string)
    requires n <= 500 && |cells| == 1000
  {
    exists i: nat :: i < n && PriceIn(cells, i) == price
  }

  ghost predicate NoneWorse(cells: seq<string>, n: nat, bid: bool, num: Number, price: string)
    requires n <= 500 && |cells| == 1000
  {
    forall i: nat :: i < n ==> AsGood(bid, num, PriceIn(cells, i), price)
  }

  ghost predicate ListsSide(cells: seq<string>, messages: seq<Message>, bid: bool, at: int, num: Number) {
    exists n: nat :: Lists(cells, n, messages, bid, at, num)
  }

  /** A row stamped `at` lists the best bids in its first 1000 cells and the best asks in its last. */
  ghost predicate ShowsBook(row: Row, messages: seq<Message>, at: int, num: Number) {
    && row.ts == at && |row.cells| == 2000
    && ListsSide(row.cells[..1000], messages, true, at, num)
    && ListsSide(row.cells[1000..], messages, false, at, num)
  }

  // ----- No price twice -----

  ghost predicate DistinctPrices(d: seq<Level>) {
    forall i, j :: 0 <= i < j < |d| ==> d[i].price != d[j].price
  }

  lemma {:induction false} PutPrices(d: seq<Level>, l: Level)
    ensures forall i :: 0 <= i < |Put(d, l)| ==>
              Put(d, l)[i].price == l.price || exists j :: 0 <= j < |d| && d[j].price == Put(d, l)[i].price
  {
    if d != [] && d[0].price != l.price {
      PutPrices(d[1..], l);
      forall i | 0 <= i < |Put(d, l)|
        ensures Put(d, l)[i].price == l.price || exists j :: 0 <= j < |d| && d[j].price == Put(d, l)[i].price
      {
        if i > 0 && Put(d, l)[i].price != l.price {
          var j :| 0 <= j < |d[1..]| && d[1..][j].price == Put(d[1..], l)[i - 1].price;
          assert d[j + 1].price == Put(d, l)[i].price;
        }
      }
    }
  }

  lemma {:induction false} PutDistinct(d: seq<Level>, l: Level)
    requires DistinctPrices(d)
    ensures DistinctPrices(Put(d, l))
  {
    if d != [] && d[0].price != l.price {
      PutDistinct(d[1..], l);
      PutPrices(d[1..], l);
      hide Put;
      var t := Put(d[1..], l);
      forall i | 0 <= i < |t| ensures t[i].price != d[0].price {
        if t[i].price != l.price {
          var j :| 0 <= j < |d[1..]| && d[1..][j].price == t[i].price;
          assert d[j + 1].price == t[i].price;
        }
      }
      DistinctCons(d[0], t);
      PutBeyond(d, l);
    }
  }

  lemma PutBeyond(d: seq<Level>, l: Level)
    requires d != [] && d[0].price != l.price
    ensures Put(d, l) == [d[0]] + Put(d[1..], l)
  {
  }

  lemma DistinctCons(l: Level, t: seq<Level>)
    requires DistinctPrices(t) && forall i :: 0 <= i < |t| ==> t[i].price != l.price
    ensures DistinctPrices([l] + t)
  {
  }

  lemma {:induction false} RemoveMembers(d: seq<Level>, price: string, l: Level)
    requires l in Remove(d, price)
    ensures l in d
  {
    if d != [] && l in Remove(d[1..], price) {
      RemoveMembers(d[1..], price, l);
    }
  }

  lemma {:induction false} RemoveDistinct(d: seq<Level>, price: string)
    requires DistinctPrices(d)
    ensures DistinctPrices(Remove(d, price))
  {
    if d != [] {
      RemoveDistinct(d[1..], price);
      var t := Remove(d[1..], price);
      forall i | 0 <= i < |t| ensures t[i].price != d[0].price {
        RemoveMembers(d[1..], price, t[i]);
        var j :| 0 <= j < |d[1..]| && d[1..][j] == t[i];
        assert d[j + 1] == t[i];
      }
      DistinctCons(d[0], t);
    }
  }

  lemma {:induction false} DictDistinct(levels: seq<Level>)
    ensures DistinctPrices(Dict(levels))
  {
    if levels != [] {
      DictDistinct(levels[..|levels| - 1]);
      PutDistinct(Dict(levels[..|levels| - 1]), levels[|levels| - 1]);
    }
  }

  lemma {:induction false} UpdateDistinct(d: seq<Level>, levels: seq<Level>, num: Number)
    requires DistinctPrices(d)
    ensures DistinctPrices(Update(d, levels, num))
  {
    if levels != [] {
      var front, l := levels[..|levels| - 1], levels[|levels| - 1];
      UpdateDistinct(d, front, num);
      PutDistinct(Update(d, front, num), l);
      RemoveDistinct(Update(d, front, num), l.price);
      hide Put, Remove, DistinctPrices;
    }
  }

  lemma {:induction false} BookDistinct(messages: seq<Message>, at: int, num: Number)
    ensures var b := BookAt(messages, at, num); DistinctPrices(b.bids) && DistinctPrices(b.asks)
  {
    if messages != [] {
      var front, m := messages[..|messages| - 1], messages[|messages| - 1];
      BookDistinct(front, at, num);
      var b := BookAt(front, at, num);
      DictDistinct(m.bids);
      DictDistinct(m.asks);
      UpdateDistinct(b.bids, m.bids, num);
      UpdateDistinct(b.asks, m.asks, num);
      hide Dict, Update, DistinctPrices;
    }
  }

  /** With no price twice the entries are what a lookup gives. */
  lemma {:induction false} GetIsEntry(d: seq<Level>, i: nat)
    requires DistinctPrices(d) && i < |d|
    ensures Get(d, d[i].price) == Some(d[i].quantity)
  {
    if i > 0 {
      GetIsEntry(d[1..], i - 1);
    }
  }

  lemma {:induction false} GetFinds(d: seq<Level>, price: string) returns (i: nat)
    requires Get(d, price) != None
    ensures i < |d| && d[i].price == price
  {
    if d[0].price == price {
      i := 0;
    } else {
      i := GetFinds(d[1..], price);
      i := i + 1;
    }
  }

  // ----- Sorting -----

  lemma {:induction false} PlaceDistinct(s: seq<Level>, l: Level, key: Level -> real)
    requires DistinctPrices(s) && forall i :: 0 <= i < |s| ==> s[i].price != l.price
    ensures DistinctPrices(Place(s, l, key))
  {
    if s == [] || key(s[0]) > key(l) {
      DistinctCons(l, s);
    } else {
      PlaceDistinct(s[1..], l, key);
      PlaceElements(s[1..], l, key);
      hide Place;
      var t := Place(s[1..], l, key);
      forall i | 0 <= i < |t| ensures t[i].price != s[0].price {
        assert t[i] in multiset(t);
        if t[i] != l {
          var j :| 0 <= j < |s[1..]| && s[1..][j] == t[i];
          assert s[j + 1] == t[i];
        }
      }
      DistinctCons(s[0], t);
      PlaceBeyond(s, l, key);
    }
  }

  lemma PlaceBeyond(s: seq<Level>, l: Level, key: Level -> real)
    requires s != [] && key(s[0]) <= key(l)
    ensures Place(s, l, key) == [s[0]] + Place(s[1..], l, key)
  {
  }

  lemma {:induction false} SortDistinct(levels: seq<Level>, key: Level -> real)
    requires DistinctPrices(levels)
    ensures DistinctPrices(SortBy(levels, key))
  {
    if levels != [] {
      var front, last := levels[..|levels| - 1], levels[|levels| - 1];
      SortDistinct(front, key);
      SortBySorts(front, key);
      var s := SortBy(front, key);
      forall i | 0 <= i < |s| ensures s[i].price != last.price {
        assert s[i] in multiset(s);
        var j :| 0 <= j < |front| && front[j] == s[i];
        assert levels[j] == s[i];
      }
      PlaceDistinct(s, last, key);
    }
  }

  // ----- One side -----

  /** Of a dictionary with distinct prices the kept levels are entries, in order, and what is left out is no better. */
  lemma BestOfDict(d: seq<Level>, key: Level -> real)
    requires DistinctPrices(d)
    ensures var kept := Best(d, key);
            && |kept| <= LEVELS && DistinctPrices(kept) && Ascending(kept, key)
            && (forall i :: 0 <= i < |kept| ==> Get(d, kept[i].price) == Some(kept[i].quantity))
            && (forall j :: 0 <= j < |d| ==>
                  d[j] in kept || (|kept| == LEVELS && forall i :: 0 <= i < |kept| ==> key(kept[i]) <= key(d[j])))
  {
    var rest := BestKeepsTheBest(d, key);
    SortDistinct(d, key);
    var kept := Best(d, key);
    assert DistinctPrices(kept);
    hide Best, SortBy, Get;
    forall i | 0 <= i < |kept| ensures Get(d, kept[i].price) == Some(kept[i].quantity) {
      assert kept[i] in multiset(kept) + multiset(rest);
      var j :| 0 <= j < |d| && d[j] == kept[i];
      GetIsEntry(d, j);
    }
    forall j | 0 <= j < |d|
      ensures d[j] in kept || (|kept| == LEVELS && forall i :: 0 <= i < |kept| ==> key(kept[i]) <= key(d[j]))
    {
      assert d[j] in multiset(d);
      if d[j] !in kept {
        assert d[j] in multiset(rest);
        assert |multiset(d)| == |multiset(kept)| + |multiset(rest)|;
        var k :| 0 <= k < |rest| && rest[k] == d[j];
      }
    }
  }

  /** Which key sorts a side best first. */
  ghost predicate BestFirst(bid: bool, num: Number, key: Level -> real) {
    forall k: Level, l: Level :: key(k) <= key(l) <==> AsGood(bid, num, k.price, l.price)
  }

  /** The cells of the kept levels, and empty ones up to a thousand. */
  ghost predicate CellsOf(cells: seq<string>, kept: seq<Level>) {
    && |cells| == 1000 && |kept| <= 500
    && (forall i: nat :: i < |kept| ==> PriceIn(cells, i) == kept[i].price && QuantityIn(cells, i) == kept[i].quantity)
    && (forall i :: 2 * |kept| <= i < 1000 ==> cells[i] == "")
  }

  lemma PaddedCells(kept: seq<Level>)
    requires |kept| <= 500
    ensures CellsOf(Padded(Cells(kept)), kept)
  {
    CellsLength(kept);
    var flat, cells := Cells(kept), Padded(Cells(kept));
    hide Cells;
    assert cells[..|flat|] == flat;
    forall i: nat | i < |kept|
      ensures PriceIn(cells, i) == kept[i].price && QuantityIn(cells, i) == kept[i].quantity
    {
      assert cells[2 * i] == flat[2 * i] && cells[2 * i + 1] == flat[2 * i + 1];
    }
  }

  lemma SideLists(d: seq<Level>, key: Level -> real, messages: seq<Message>, bid: bool, at: int, num: Number)
    requires DistinctPrices(d) && BestFirst(bid, num, key)
    requires forall price: string :: Get(d, price) == Quote(messages, bid, price, at, num)
    ensures Lists(Padded(Cells(Best(d, key))), |Best(d, key)|, messages, bid, at, num)
  {
    var kept := Best(d, key);
    BestOfDict(d, key);
    PaddedCells(kept);
    hide Best, Cells, Padded, Quote, Get, PriceIn, QuantityIn, Listed, NoneWorse, BestComesFirst, BestFirst;
    var cells := Padded(Cells(kept));
    KeptInOrder(kept, key, cells, bid, num);
    forall i: nat | i < |kept| ensures Quote(messages, bid, PriceIn(cells, i), at, num) == Some(QuantityIn(cells, i)) {
      assert Get(d, kept[i].price) == Some(kept[i].quantity);
    }
    forall price: string | Quote(messages, bid, price, at, num) != None
      ensures Listed(cells, |kept|, price) || (|kept| == 500 && NoneWorse(cells, |kept|, bid, num, price))
    {
      MissingIsNoBetter(d, key, kept, cells, bid, num, price);
    }
  }

  lemma KeptInOrder(kept: seq<Level>, key: Level -> real, cells: seq<string>, bid: bool, num: Number)
    requires BestFirst(bid, num, key) && CellsOf(cells, kept) && DistinctPrices(kept) && Ascending(kept, key)
    ensures BestComesFirst(cells, |kept|, bid, num)
  {
    hide PriceIn, QuantityIn;
  }

  lemma MissingIsNoBetter(d: seq<Level>, key: Level -> real, kept: seq<Level>, cells: seq<string>, bid: bool,
                          num: Number, price: string)
    requires BestFirst(bid, num, key) && CellsOf(cells, kept) && Get(d, price) != None
    requires forall j :: 0 <= j < |d| ==>
               d[j] in kept || (|kept| == LEVELS && forall i :: 0 <= i < |kept| ==> key(kept[i]) <= key(d[j]))
    ensures Listed(cells, |kept|, price) || (|kept| == 500 && NoneWorse(cells, |kept|, bid, num, price))
  {
    var j := GetFinds(d, price);
    hide Get, PriceIn, QuantityIn;
    if d[j] in kept {
      var i :| 0 <= i < |kept| && kept[i] == d[j];
      assert PriceIn(cells, i) == price;
    }
  }

  /** A row written of the book as of `at` lists the best quotes of both sides at that time. */
  lemma RowShowsBook(messages: seq<Message>, at: int, num: Number)
    ensures ShowsBook(RowOf(at, BookAt(messages, at, num), num), messages, at, num)
  {
    var b := BookAt(messages, at, num);
    var row := RowOf(at, b, num);
    BookDistinct(messages, at, num);
    forall price: string
      ensures Get(b.bids, price) == Quote(messages, true, price, at, num)
      ensures Get(b.asks, price) == Quote(messages, false, price, at, num)
    {
      LastWriterWins(messages, price, at, num);
    }
    var high, low := (l: Level) => -num(l.price), (l: Level) => num(l.price);
    SideLists(b.bids, high, messages, true, at, num);
    SideLists(b.asks, low, messages, false, at, num);
    var bids, asks := Padded(Cells(BestBids(b, num))), Padded(Cells(BestAsks(b, num)));
    assert BestBids(b, num) == Best(b.bids, high) && BestAsks(b, num) == Best(b.asks, low);
    hide Best, Cells, Padded, BookAt, Quote, Lists, BestBids, BestAsks;
    assert Lists(bids, |Best(b.bids, high)|, messages, true, at, num);
    assert Lists(asks, |Best(b.asks, low)|, messages, false, at, num);
    SidesOfRow(row, bids, asks);
  }

  lemma SidesOfRow(row: Row, bids: seq<string>, asks: seq<string>)
    requires row.cells == bids + asks && |bids| == |asks| == 1000
    ensures |row.cells| == 2000 && row.cells[..1000] == bids && row.cells[1000..] == asks
  {
  }

  // ----- All rows -----

  /**
    * The rows show the book at the boundaries from `first` on, every half minute up to but without the day's end; that
    * has a row exactly when a message after the first snapshot runs past it.
    */
  ghost predicate ShowsDay(rows: seq<Row>, first: int, messages: seq<Message>, start: int, num: Number) {
    var end := start + 2880 * 30000;
    && (forall i :: 0 <= i < |rows| ==> ShowsBook(rows[i], messages, first + i * 30000, num))
    && (if first > end then rows == []
        else first + |rows| * 30000 == if RunsPast(messages, end) then end + 30000 else end)
  }

  /**
    * For a feed in time order: without a snapshot there is no row; otherwise the rows show the day from the first
    * boundary that is not before the first snapshot.
    */
  lemma RowsShowBooks(messages: seq<Message>, start: int, num: Number)
    requires InOrder(messages)
    ensures match FirstSnapshot(messages)
            case None => Converted(messages, start, num) == []
            case Some(t) => ShowsDay(Converted(messages, start, num), FirstBoundary(start, t), messages, start, num)
  {
    RowsAreBoundaryBooks(messages, start, num);
    hide Converted, RowsFrom, RunsPast, FirstSnapshot, FirstBoundary, InOrder, ShowsDay;
    if FirstSnapshot(messages) != None {
      var first := FirstBoundary(start, FirstSnapshot(messages).value);
      RowsFromShow(Converted(messages, start, num), first, messages, start, num);
    }
  }

  lemma RowsFromShow(rows: seq<Row>, first: int, messages: seq<Message>, start: int, num: Number)
    requires RowsFrom(rows, first, messages, num)
    requires var end := DayEnd(start);
             if first > end then rows == []
             else first + |rows| * INTERVAL == if RunsPast(messages, end) then end + INTERVAL else end
    ensures ShowsDay(rows, first, messages, start, num)
  {
    hide BookAt, RowOf, ShowsBook, RunsPast;
    forall i | 0 <= i < |rows| ensures ShowsBook(rows[i], messages, first + i * 30000, num) {
      RowShowsBook(messages, first + i * 30000, num);
    }
  }
}
