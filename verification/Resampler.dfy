/**
  * Replay of an order-book feed (snapshots and deltas) sampled at fixed boundaries.
  *
  * A dictionary is a list of levels in insertion order with one entry per price text. The conversion of a
  * text to a number is a parameter.
  */
module Resampler {
  import opened Wrappers

  const LEVELS := 500
  const INTERVAL := 30000
  const PER_DAY := 2880

  datatype Level = Level(price: string, quantity: string)

  datatype Book = Book(bids: seq<Level>, asks: seq<Level>)

  datatype Message = Message(ts: int, snapshot: bool, bids: seq<Level>, asks: seq<Level>)

  type Number = string -> real

  // ----- Dictionaries -----

  function Get(d: seq<Level>, price: string): Option<string> {
    if d == [] then None else if d[0].price == price then Some(d[0].quantity) else Get(d[1..], price)
  }

  function Put(d: seq<Level>, l: Level): seq<Level> {
    if d == [] then [l]
    else if d[0].price == l.price then [l] + d[1..]
    else [d[0]] + Put(d[1..], l)
  }

  function Remove(d: seq<Level>, price: string): seq<Level> {
    if d == [] then []
    else if d[0].price == price then Remove(d[1..], price)
    else [d[0]] + Remove(d[1..], price)
  }

  lemma {:induction false} GetPut(d: seq<Level>, l: Level, price: string)
    ensures Get(Put(d, l), price) == if price == l.price then Some(l.quantity) else Get(d, price)
  {
    if d != [] && d[0].price != l.price {
      GetPut(d[1..], l, price);
      assert Put(d, l)[1..] == Put(d[1..], l);
    } else if d != [] {
      assert Put(d, l)[1..] == d[1..];
    }
  }

  lemma {:induction false} GetRemove(d: seq<Level>, gone: string, price: string)
    ensures Get(Remove(d, gone), price) == if price == gone then None else Get(d, price)
  {
    if d != [] {
      GetRemove(d[1..], gone, price);
      if d[0].price != gone {
        assert Remove(d, gone)[1..] == Remove(d[1..], gone);
      }
    }
  }

  /** A dictionary built from a list of levels. */
  function Dict(levels: seq<Level>): seq<Level> {
    if levels == [] then [] else Put(Dict(levels[..|levels| - 1]), levels[|levels| - 1])
  }

  /** A delta replaces the quantity of a level, and removes the level when the quantity is zero. */
  function Update(d: seq<Level>, levels: seq<Level>, num: Number): seq<Level> {
    if levels == [] then d
    else
      var l := levels[|levels| - 1];
      var front := Update(d, levels[..|levels| - 1], num);
      if num(l.quantity) == 0.0 then Remove(front, l.price) else Put(front, l)
  }

  function Applied(book: Book, m: Message, num: Number): Book {
    if m.snapshot then Book(Dict(m.bids), Dict(m.asks))
    else Book(Update(book.bids, m.bids, num), Update(book.asks, m.asks, num))
  }

  // ----- Rows -----

  function Place(sorted: seq<Level>, l: Level, key: Level -> real): seq<Level> {
    if sorted == [] then [l]
    else if key(sorted[0]) <= key(l) then [sorted[0]] + Place(sorted[1..], l, key)
    else [l] + sorted
  }

  /** Stable sort by ascending key. */
  function SortBy(levels: seq<Level>, key: Level -> real): seq<Level> {
    if levels == [] then [] else Place(SortBy(levels[..|levels| - 1], key), levels[|levels| - 1], key)
  }

  function Best(levels: seq<Level>, key: Level -> real): seq<Level> {
    var s := SortBy(levels, key);
    if |s| <= LEVELS then s else s[..LEVELS]
  }

  function BestBids(book: Book, num: Number): seq<Level> {
    Best(book.bids, (l: Level) => -num(l.price))
  }

  function BestAsks(book: Book, num: Number): seq<Level> {
    Best(book.asks, (l: Level) => num(l.price))
  }

  function Cells(levels: seq<Level>): seq<string> {
    if levels == [] then [] else [levels[0].price, levels[0].quantity] + Cells(levels[1..])
  }

  function Padded(cells: seq<string>): seq<string> {
    cells + seq(if |cells| <= 2 * LEVELS then 2 * LEVELS - |cells| else 0, _ => "")
  }

  datatype Row = Row(ts: int, cells: seq<string>)

  function RowOf(ts: int, book: Book, num: Number): Row {
    Row(ts, Padded(Cells(BestBids(book, num))) + Padded(Cells(BestAsks(book, num))))
  }

  ghost predicate Ascending(s: seq<Level>, key: Level -> real) {
    forall i, j :: 0 <= i < j < |s| ==> key(s[i]) <= key(s[j])
  }

  lemma {:induction false} PlaceElements(s: seq<Level>, l: Level, key: Level -> real)
    ensures multiset(Place(s, l, key)) == multiset(s) + multiset{l}
  {
    if s != [] {
      assert s == [s[0]] + s[1..];
      PlaceElements(s[1..], l, key);
    }
  }

  lemma {:induction false} PlaceSorts(s: seq<Level>, l: Level, key: Level -> real)
    requires Ascending(s, key)
    ensures Ascending(Place(s, l, key), key)
  {
    if s != [] && key(s[0]) <= key(l) {
      PlaceSorts(s[1..], l, key);
      PlaceElements(s[1..], l, key);
      var t := Place(s[1..], l, key);
      forall j | 0 <= j < |t| ensures key(s[0]) <= key(t[j]) {
        assert t[j] in multiset(t);
        assert t[j] == l || t[j] in s[1..];
      }
    }
  }

  lemma {:induction false} SortBySorts(levels: seq<Level>, key: Level -> real)
    ensures multiset(SortBy(levels, key)) == multiset(levels) && Ascending(SortBy(levels, key), key)
  {
    if levels != [] {
      var front := levels[..|levels| - 1];
      var last := levels[|levels| - 1];
      assert levels == front + [last];
      SortBySorts(front, key);
      PlaceSorts(SortBy(front, key), last, key);
      PlaceElements(SortBy(front, key), last, key);
    }
  }

  /** A row side holds the best levels in order: nothing left out is better than anything kept. */
  lemma BestKeepsTheBest(levels: seq<Level>, key: Level -> real) returns (rest: seq<Level>)
    ensures var kept := Best(levels, key);
            && multiset(kept) + multiset(rest) == multiset(levels)
            && |kept| == (if |levels| <= LEVELS then |levels| else LEVELS)
            && Ascending(kept, key)
            && (forall i, j :: 0 <= i < |kept| && 0 <= j < |rest| ==> key(kept[i]) <= key(rest[j]))
  {
    SortBySorts(levels, key);
    var s := SortBy(levels, key);
    assert |multiset(s)| == |multiset(levels)|;
    rest := s[|Best(levels, key)|..];
    assert s == Best(levels, key) + rest;
  }

  lemma {:induction false} CellsLength(levels: seq<Level>)
    ensures |Cells(levels)| == 2 * |levels|
    ensures forall i :: 0 <= i < |levels| ==>
              Cells(levels)[2 * i] == levels[i].price && Cells(levels)[2 * i + 1] == levels[i].quantity
  {
    if levels != [] {
      CellsLength(levels[1..]);
      forall i | 0 <= i < |levels|
        ensures Cells(levels)[2 * i] == levels[i].price && Cells(levels)[2 * i + 1] == levels[i].quantity
      {
        if i > 0 {
          assert Cells(levels[1..])[2 * (i - 1)] == levels[1..][i - 1].price;
        }
      }
    }
  }

  // ----- The book as of a time -----

  /** Fold of all messages with a timestamp of at most `at`. */
  function BookAt(messages: seq<Message>, at: int, num: Number): Book {
    if messages == [] then Book([], [])
    else
      var front := BookAt(messages[..|messages| - 1], at, num);
      var m := messages[|messages| - 1];
      if m.ts <= at then Applied(front, m, num) else front
  }

  /** The last quantity a list of levels gives for a price. */
  function LastMention(levels: seq<Level>, price: string): Option<string> {
    if levels == [] then None
    else if levels[|levels| - 1].price == price then Some(levels[|levels| - 1].quantity)
    else LastMention(levels[..|levels| - 1], price)
  }

  function SideOf(m: Message, bid: bool): seq<Level> {
    if bid then m.bids else m.asks
  }

  /** The quantity quoted at a price, found by searching backwards for the last message that decides it. */
  function Quote(messages: seq<Message>, bid: bool, price: string, at: int, num: Number): Option<string> {
    if messages == [] then None
    else
      var m := messages[|messages| - 1];
      var earlier := messages[..|messages| - 1];
      if m.ts > at then Quote(earlier, bid, price, at, num)
      else
        match LastMention(SideOf(m, bid), price)
        case Some(q) => if !m.snapshot && num(q) == 0.0 then None else Some(q)
        case None => if m.snapshot then None else Quote(earlier, bid, price, at, num)
  }

  lemma {:induction false} GetDict(levels: seq<Level>, price: string)
    ensures Get(Dict(levels), price) == LastMention(levels, price)
  {
    if levels != [] {
      GetDict(levels[..|levels| - 1], price);
      GetPut(Dict(levels[..|levels| - 1]), levels[|levels| - 1], price);
    }
  }

  lemma {:induction false} GetUpdate(d: seq<Level>, levels: seq<Level>, price: string, num: Number)
    ensures Get(Update(d, levels, num), price) ==
              match LastMention(levels, price)
              case Some(q) => if num(q) == 0.0 then None else Some(q)
              case None => Get(d, price)
  {
    if levels != [] {
      var front := levels[..|levels| - 1];
      var l := levels[|levels| - 1];
      GetUpdate(d, front, price, num);
      GetPut(Update(d, front, num), l, price);
      GetRemove(Update(d, front, num), l.price, price);
    }
  }

  /** The replayed dictionary quotes what the last deciding message says. */
  lemma {:induction false} LastWriterWins(messages: seq<Message>, price: string, at: int, num: Number)
    ensures Get(BookAt(messages, at, num).bids, price) == Quote(messages, true, price, at, num)
    ensures Get(BookAt(messages, at, num).asks, price) == Quote(messages, false, price, at, num)
  {
    if messages != [] {
      var front := messages[..|messages| - 1];
      var m := messages[|messages| - 1];
      LastWriterWins(front, price, at, num);
      var b := BookAt(front, at, num);
      GetDict(m.bids, price);
      GetDict(m.asks, price);
      GetUpdate(b.bids, m.bids, price, num);
      GetUpdate(b.asks, m.asks, price, num);
      hide Get, Dict, Update, LastMention;
    }
  }

  // ----- The conversion -----

  datatype State = State(book: Book, haveBook: bool, next: int, rows: seq<Row>)

  /** Emit the current book at every boundary below `bound`. */
  function EmitBelow(s: State, bound: int, num: Number): State
    decreases bound - s.next
  {
    if s.next < bound then
      EmitBelow(s.(next := s.next + INTERVAL, rows := s.rows + [RowOf(s.next, s.book, num)]), bound, num)
    else s
  }

  /** The first boundary, counting from `next`, that is not before `ts`. */
  function SkipBelow(next: int, ts: int): int
    decreases ts - next
  {
    if next < ts then SkipBelow(next + INTERVAL, ts) else next
  }

  function DayEnd(start: int): int {
    start + PER_DAY * INTERVAL
  }

  function EmitBefore(s: State, ts: int, end: int, num: Number): State {
    if s.haveBook then EmitBelow(s, if ts <= end then ts else end + 1, num) else s
  }

  function Received(s: State, m: Message, end: int, num: Number): State {
    var e := EmitBefore(s, m.ts, end, num);
    State(Applied(e.book, m, num), e.haveBook || m.snapshot,
          if m.snapshot then SkipBelow(e.next, m.ts) else e.next, e.rows)
  }

  function Replay(messages: seq<Message>, start: int, num: Number): State {
    if messages == [] then State(Book([], []), false, start + INTERVAL, [])
    else Received(Replay(messages[..|messages| - 1], start, num), messages[|messages| - 1], DayEnd(start), num)
  }

  function Converted(messages: seq<Message>, start: int, num: Number): seq<Row> {
    var s := Replay(messages, start, num);
    if s.haveBook then EmitBelow(s, DayEnd(start) - INTERVAL + 1, num).rows else s.rows
  }

  // ----- Boundaries -----

  /** The number of rows that `EmitBelow` adds, and where it stops. */
  lemma {:induction false} EmitSteps(s: State, bound: int, num: Number) returns (c: nat)
    ensures var r := EmitBelow(s, bound, num);
            && r.book == s.book && r.haveBook == s.haveBook
            && r.next == s.next + c * INTERVAL && r.next >= bound
            && (c > 0 ==> r.next - INTERVAL < bound)
            && |r.rows| == |s.rows| + c
            && (forall i :: 0 <= i < |s.rows| ==> r.rows[i] == s.rows[i])
            && (forall i :: 0 <= i < c ==> r.rows[|s.rows| + i] == RowOf(s.next + i * INTERVAL, s.book, num))
    decreases bound - s.next
  {
    if s.next < bound {
      hide RowOf;
      var t := s.(next := s.next + INTERVAL, rows := s.rows + [RowOf(s.next, s.book, num)]);
      c := EmitSteps(t, bound, num);
      var r := EmitBelow(t, bound, num);
      forall i | 0 <= i < c + 1
        ensures r.rows[|s.rows| + i] == RowOf(s.next + i * INTERVAL, s.book, num)
      {
        if i > 0 {
          assert r.rows[|t.rows| + (i - 1)] == RowOf(t.next + (i - 1) * INTERVAL, t.book, num);
        } else {
          assert r.rows[|s.rows|] == t.rows[|s.rows|];
        }
      }
      c := c + 1;
    } else {
      c := 0;
    }
  }

  lemma {:induction false} SkipSteps(next: int, ts: int) returns (c: nat)
    ensures SkipBelow(next, ts) == next + c * INTERVAL && SkipBelow(next, ts) >= ts
    ensures c > 0 ==> SkipBelow(next, ts) - INTERVAL < ts
    decreases ts - next
  {
    if next < ts {
      c := SkipSteps(next + INTERVAL, ts);
      c := c + 1;
    } else {
      c := 0;
    }
  }

  // ----- What the rows are -----

  ghost predicate InOrder(messages: seq<Message>) {
    forall i, j :: 0 <= i <= j < |messages| ==> messages[i].ts <= messages[j].ts
  }

  /** Timestamp of the first snapshot. */
  function FirstSnapshot(messages: seq<Message>): Option<int> {
    if messages == [] then None
    else
      match FirstSnapshot(messages[..|messages| - 1])
      case Some(t) => Some(t)
      case None => if messages[|messages| - 1].snapshot then Some(messages[|messages| - 1].ts) else None
  }

  /** A message after the first snapshot is later than `end`. */
  predicate RunsPast(messages: seq<Message>, end: int) {
    messages != [] &&
    (RunsPast(messages[..|messages| - 1], end)
     || (FirstSnapshot(messages[..|messages| - 1]) != None && messages[|messages| - 1].ts > end))
  }

  /** The first boundary of the day that is not before `ts`. */
  function FirstBoundary(start: int, ts: int): int {
    SkipBelow(start + INTERVAL, ts)
  }

  /** Row `i` is the book as of boundary `first + i * INTERVAL`. */
  ghost predicate RowsFrom(rows: seq<Row>, first: int, messages: seq<Message>, num: Number) {
    forall i :: 0 <= i < |rows| ==>
      rows[i] == RowOf(first + i * INTERVAL, BookAt(messages, first + i * INTERVAL, num), num)
  }

  lemma {:induction false} BookAtEveryMessage(messages: seq<Message>, start: int, at: int, num: Number)
    requires forall i :: 0 <= i < |messages| ==> messages[i].ts <= at
    ensures Replay(messages, start, num).book == BookAt(messages, at, num)
  {
    if messages != [] {
      var front := messages[..|messages| - 1];
      var m := messages[|messages| - 1];
      BookAtEveryMessage(front, start, at, num);
      hide Applied;
      var s := Replay(front, start, num);
      if s.haveBook {
        var c := EmitSteps(s, if m.ts <= DayEnd(start) then m.ts else DayEnd(start) + 1, num);
      }
    }
  }

  /** Rows emitted strictly before a new message are unaffected by it. */
  lemma RowsSurvive(rows: seq<Row>, first: int, messages: seq<Message>, num: Number)
    requires messages != [] && RowsFrom(rows, first, messages[..|messages| - 1], num)
    requires |rows| > 0 ==> first + (|rows| - 1) * INTERVAL < messages[|messages| - 1].ts
    ensures RowsFrom(rows, first, messages, num)
  {
  }

  /** The bookkeeping that every message keeps once a snapshot has been seen. */
  ghost predicate Sampled(s: State, messages: seq<Message>, start: int, num: Number)
    requires messages != []
  {
    var end := DayEnd(start);
    match FirstSnapshot(messages)
    case None => !s.haveBook && s.rows == [] && s.next == start + INTERVAL
    case Some(t) =>
      var first := FirstBoundary(start, t);
      && s.haveBook
      && RowsFrom(s.rows, first, messages, num)
      && (|s.rows| > 0 ==> first + (|s.rows| - 1) * INTERVAL < messages[|messages| - 1].ts)
      && (if first > end then s.rows == [] && s.next > end
          else if RunsPast(messages, end) then first + |s.rows| * INTERVAL == end + INTERVAL && s.next > end
          else s.next == first + |s.rows| * INTERVAL <= end && s.next >= messages[|messages| - 1].ts)
  }

  /** Appending rows that show the whole of `messages` at boundaries no earlier than its last message. */
  lemma RowsExtend(s: State, bound: int, c: nat, first: int, messages: seq<Message>, start: int, num: Number)
    requires InOrder(messages) && messages != [] && s.book == Replay(messages, start, num).book
    requires RowsFrom(s.rows, first, messages, num) && s.next == first + |s.rows| * INTERVAL
    requires s.next >= messages[|messages| - 1].ts
    requires var r := EmitBelow(s, bound, num);
             && |r.rows| == |s.rows| + c
             && (forall i :: 0 <= i < |s.rows| ==> r.rows[i] == s.rows[i])
             && (forall i :: 0 <= i < c ==> r.rows[|s.rows| + i] == RowOf(s.next + i * INTERVAL, s.book, num))
    ensures RowsFrom(EmitBelow(s, bound, num).rows, first, messages, num)
  {
    var r := EmitBelow(s, bound, num);
    hide EmitBelow, RowOf, BookAt, Replay;
    forall i | 0 <= i < |r.rows|
      ensures r.rows[i] == RowOf(first + i * INTERVAL, BookAt(messages, first + i * INTERVAL, num), num)
    {
      if i >= |s.rows| {
        assert r.rows[|s.rows| + (i - |s.rows|)] == RowOf(s.next + (i - |s.rows|) * INTERVAL, s.book, num);
        BookAtEveryMessage(messages, start, first + i * INTERVAL, num);
      }
    }
  }

  lemma {:induction false} ReplaySamples(messages: seq<Message>, start: int, num: Number)
    requires InOrder(messages) && messages != []
    ensures Sampled(Replay(messages, start, num), messages, start, num)
  {
    var front := messages[..|messages| - 1];
    var m := messages[|messages| - 1];
    if front == [] {
      FirstMessageSamples(messages, start, num);
    } else {
      ReplaySamples(front, start, num);
      if FirstSnapshot(front) == None {
        FirstMessageSamples(messages, start, num);
      } else {
        NextMessageSamples(messages, start, num);
      }
    }
  }

  lemma FirstMessageSamples(messages: seq<Message>, start: int, num: Number)
    requires messages != [] && FirstSnapshot(messages[..|messages| - 1]) == None
    requires var s := Replay(messages[..|messages| - 1], start, num);
             !s.haveBook && s.rows == [] && s.next == start + INTERVAL
    ensures Sampled(Replay(messages, start, num), messages, start, num)
  {
    hide Applied, BookAt, SkipBelow;
    var c := SkipSteps(start + INTERVAL, messages[|messages| - 1].ts);
    NeverPast(messages[..|messages| - 1], DayEnd(start));
  }

  lemma {:induction false} NeverPast(messages: seq<Message>, end: int)
    requires FirstSnapshot(messages) == None
    ensures !RunsPast(messages, end)
  {
    if messages != [] {
      NeverPast(messages[..|messages| - 1], end);
    }
  }

  lemma BookIsKept(s: State, bound: int, num: Number)
    ensures EmitBelow(s, bound, num).book == s.book && EmitBelow(s, bound, num).haveBook == s.haveBook
  {
    var c := EmitSteps(s, bound, num);
  }

  lemma LastTwo(messages: seq<Message>)
    requires |messages| > 1 && InOrder(messages)
    ensures InOrder(messages[..|messages| - 1])
    ensures messages[..|messages| - 1][|messages| - 2].ts <= messages[|messages| - 1].ts
  {
  }

  lemma NextMessageSamples(messages: seq<Message>, start: int, num: Number)
    requires |messages| > 1 && InOrder(messages) && FirstSnapshot(messages[..|messages| - 1]) != None
    requires Sampled(Replay(messages[..|messages| - 1], start, num), messages[..|messages| - 1], start, num)
    ensures Sampled(Replay(messages, start, num), messages, start, num)
  {
    hide Applied, BookAt, SkipBelow, RowOf, RowsFrom, InOrder, EmitBelow;
    var front := messages[..|messages| - 1];
    var m := messages[|messages| - 1];
    var s := Replay(front, start, num);
    LastTwo(messages);
    var end := DayEnd(start);
    var first := FirstBoundary(start, FirstSnapshot(front).value);
    var k := SkipSteps(start + INTERVAL, FirstSnapshot(front).value);
    var bound := if m.ts <= end then m.ts else end + 1;
    var e := EmitBelow(s, bound, num);
    var skipped := SkipSteps(e.next, m.ts);
    BookIsKept(s, bound, num);
    if first <= end && !RunsPast(front, end) {
      var c := ExtendRows(s, bound, first, front, start, num);
    } else {
      NothingToEmit(s, bound, num);
    }
    RowsSurvive(e.rows, first, messages, num);
  }

  /**
    * For a feed in time order: no row without a snapshot; otherwise the rows are the books as of the
    * consecutive boundaries from the first one not before the first snapshot, up to and excluding the day's
    * end, and the day's end itself exactly when a message after the first snapshot runs past it.
    */
  lemma RowsAreBoundaryBooks(messages: seq<Message>, start: int, num: Number)
    requires InOrder(messages)
    ensures var rows := Converted(messages, start, num);
            var end := DayEnd(start);
            match FirstSnapshot(messages)
            case None => rows == []
            case Some(t) =>
              var first := FirstBoundary(start, t);
              && RowsFrom(rows, first, messages, num)
              && (if first > end then rows == []
                  else first + |rows| * INTERVAL == if RunsPast(messages, end) then end + INTERVAL else end)
  {
    if messages != [] {
      ReplaySamples(messages, start, num);
      if FirstSnapshot(messages) != None {
        LastRows(Replay(messages, start, num), messages, start, num);
      }
    }
  }

  /** The rows emitted after the last message complete the day. */
  lemma LastRows(s: State, messages: seq<Message>, start: int, num: Number)
    requires InOrder(messages) && messages != [] && s.book == Replay(messages, start, num).book
    requires FirstSnapshot(messages) != None && Sampled(s, messages, start, num)
    ensures var end := DayEnd(start);
            var first := FirstBoundary(start, FirstSnapshot(messages).value);
            var rows := EmitBelow(s, end - INTERVAL + 1, num).rows;
            && RowsFrom(rows, first, messages, num)
            && (if first > end then rows == []
                else first + |rows| * INTERVAL == if RunsPast(messages, end) then end + INTERVAL else end)
  {
    hide BookAt, SkipBelow, RowOf, RowsFrom, Replay, RunsPast, EmitBelow, FirstSnapshot, InOrder;
    var end := DayEnd(start);
    var first := FirstBoundary(start, FirstSnapshot(messages).value);
    if first > end || RunsPast(messages, end) {
      NothingToEmit(s, end - INTERVAL + 1, num);
    } else {
      var k := SkipSteps(start + INTERVAL, FirstSnapshot(messages).value);
      var c := ExtendRows(s, end - INTERVAL + 1, first, messages, start, num);
    }
  }

  lemma NothingToEmit(s: State, bound: int, num: Number)
    requires s.next >= bound
    ensures EmitBelow(s, bound, num) == s
  {
  }

  lemma ExtendRows(s: State, bound: int, first: int, messages: seq<Message>, start: int, num: Number) returns (c: nat)
    requires InOrder(messages) && messages != [] && s.book == Replay(messages, start, num).book
    requires RowsFrom(s.rows, first, messages, num) && s.next == first + |s.rows| * INTERVAL
    requires s.next >= messages[|messages| - 1].ts
    ensures var r := EmitBelow(s, bound, num);
            && r.next == s.next + c * INTERVAL && r.next >= bound && (c > 0 ==> r.next - INTERVAL < bound)
            && |r.rows| == |s.rows| + c
            && RowsFrom(r.rows, first, messages, num)
  {
    c := EmitSteps(s, bound, num);
    hide BookAt, RowOf, RowsFrom, Replay, EmitBelow, InOrder;
    RowsExtend(s, bound, c, first, messages, start, num);
  }

  /** `FirstBoundary` is a boundary of the day, and the first that is not before `ts`. */
  lemma FirstBoundaryIsFirst(start: int, ts: int, k: nat)
    ensures var b := FirstBoundary(start, ts);
            && b >= ts && b >= start + INTERVAL && (b - start) % INTERVAL == 0
            && (start + (k + 1) * INTERVAL < b ==> start + (k + 1) * INTERVAL < ts)
  {
    hide SkipBelow;
    var c := SkipSteps(start + INTERVAL, ts);
    assert FirstBoundary(start, ts) - start == (c + 1) * INTERVAL;
  }

  // ----- The streaming conversion -----

  lemma EmitUnfolds(s: State, bound: int, num: Number)
    requires s.next < bound
    ensures EmitBelow(s, bound, num)
         == EmitBelow(s.(next := s.next + INTERVAL, rows := s.rows + [RowOf(s.next, s.book, num)]), bound, num)
  {
  }

  /** Emit the book at the boundaries that a message at `ts` has passed, up to the day's end. */
  method EmitPassed(book: Book, haveBook: bool, nextBoundary: int, rows: seq<Row>, ts: int, end: int, num: Number)
    returns (next: int, emitted: seq<Row>)
    ensures State(book, haveBook, next, emitted) == EmitBefore(State(book, haveBook, nextBoundary, rows), ts, end, num)
  {
    next, emitted := nextBoundary, rows;
    ghost var bound := if ts <= end then ts else end + 1;
    while haveBook && ts > next && next <= end
      invariant haveBook ==>
        EmitBelow(State(book, true, next, emitted), bound, num)
        == EmitBelow(State(book, true, nextBoundary, rows), bound, num)
      invariant !haveBook ==> next == nextBoundary && emitted == rows
      decreases end - next
    {
      EmitUnfolds(State(book, true, next, emitted), bound, num);
      emitted := emitted + [RowOf(next, book, num)];
      next := next + INTERVAL;
    }
  }

  method SkipBoundaries(nextBoundary: int, ts: int) returns (next: int)
    ensures next == SkipBelow(nextBoundary, ts)
  {
    next := nextBoundary;
    while next < ts
      invariant SkipBelow(next, ts) == SkipBelow(nextBoundary, ts)
    {
      next := next + INTERVAL;
    }
  }

  method UpdateSide(side: seq<Level>, levels: seq<Level>, num: Number) returns (d: seq<Level>)
    ensures d == Update(side, levels, num)
  {
    d := side;
    for i := 0 to |levels|
      invariant d == Update(side, levels[..i], num)
    {
      assert levels[..i + 1][..i] == levels[..i];
      if num(levels[i].quantity) == 0.0 {
        d := Remove(d, levels[i].price);
      } else {
        d := Put(d, levels[i]);
      }
    }
    assert levels[..|levels|] == levels;
  }

  /** One message: emit what it passes, then replace or update the book. */
  method Receive(bids: seq<Level>, asks: seq<Level>, haveBook: bool, nextBoundary: int, rows: seq<Row>,
                 m: Message, end: int, num: Number)
    returns (bids': seq<Level>, asks': seq<Level>, haveBook': bool, next: int, rows': seq<Row>)
    ensures State(Book(bids', asks'), haveBook', next, rows')
         == Received(State(Book(bids, asks), haveBook, nextBoundary, rows), m, end, num)
  {
    hide EmitBelow, SkipBelow, Dict, Update;
    next, rows' := EmitPassed(Book(bids, asks), haveBook, nextBoundary, rows, m.ts, end, num);
    haveBook' := haveBook;
    if m.snapshot {
      bids', asks' := Dict(m.bids), Dict(m.asks);
      haveBook' := true;
      next := SkipBoundaries(next, m.ts);
    } else {
      bids' := UpdateSide(bids, m.bids, num);
      asks' := UpdateSide(asks, m.asks, num);
    }
  }

  /** Emit the last book at the boundaries that remain before the day's end. */
  method FlushDay(book: Book, haveBook: bool, nextBoundary: int, rows: seq<Row>, end: int, num: Number)
    returns (all: seq<Row>)
    ensures all == if haveBook then EmitBelow(State(book, true, nextBoundary, rows), end - INTERVAL + 1, num).rows
                   else rows
  {
    all := rows;
    var next := nextBoundary;
    while haveBook && next <= end - INTERVAL
      invariant haveBook ==>
        EmitBelow(State(book, true, next, all), end - INTERVAL + 1, num)
        == EmitBelow(State(book, true, nextBoundary, rows), end - INTERVAL + 1, num)
      invariant !haveBook ==> all == rows
    {
      EmitUnfolds(State(book, true, next, all), end - INTERVAL + 1, num);
      hide RowOf;
      all := all + [RowOf(next, book, num)];
      next := next + INTERVAL;
    }
  }

  /** Replay the feed once and write the book as of every boundary; returns the number of rows too. */
  method ConvertBook(messages: seq<Message>, start: int, num: Number) returns (rows: seq<Row>, count: nat)
    ensures rows == Converted(messages, start, num) && count == |rows|
  {
    var end := DayEnd(start);
    var bids, asks, haveBook := [], [], false;
    var nextBoundary := start + INTERVAL;
    rows := [];
    for i := 0 to |messages|
      invariant State(Book(bids, asks), haveBook, nextBoundary, rows) == Replay(messages[..i], start, num)
    {
      assert messages[..i + 1][..i] == messages[..i];
      hide Received;
      bids, asks, haveBook, nextBoundary, rows :=
        Receive(bids, asks, haveBook, nextBoundary, rows, messages[i], end, num);
    }
    assert messages[..|messages|] == messages;
    rows := FlushDay(Book(bids, asks), haveBook, nextBoundary, rows, end, num);
    count := |rows|;
  }
}
