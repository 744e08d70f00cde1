/**
  * The simulator's priority queue: a binary heap ordered by a reversed comparator, proved to refine
  * a list kept in order by stable insertion.
  */
module Queue {
  import opened Wrappers
  import opened SimEvents

  // ----- Order -----

  datatype Ordering = Less | Equal | Greater

  /** `a` is processed before `b`: earlier time, or the same time and an earlier sequence number. */
  predicate Before(a: TimestampedEvent, b: TimestampedEvent) {
    a.time < b.time || (a.time == b.time && a.seqNo < b.seqNo)
  }

  /** The comparator handed to the max-heap: it compares `b` with `a`, so earlier means greater. */
  function Compare(a: TimestampedEvent, b: TimestampedEvent): (o: Ordering)
    ensures o == Greater <==> Before(a, b)
    ensures o == Less <==> Before(b, a)
  {
    if b.time < a.time then Less
    else if b.time > a.time then Greater
    else if b.seqNo < a.seqNo then Less
    else if b.seqNo > a.seqNo then Greater
    else Equal
  }

  ghost predicate Sorted(q: seq<TimestampedEvent>) {
    forall i, j :: 0 <= i < j < |q| ==> Before(q[i], q[j])
  }

  // ----- Specification: stable insertion into an ordered list -----

  /** Insert after every event that is not later. */
  function Insert(q: seq<TimestampedEvent>, e: TimestampedEvent): seq<TimestampedEvent> {
    if q == [] then [e]
    else if q[0].time <= e.time then [q[0]] + Insert(q[1..], e)
    else [e] + q
  }

  ghost predicate Numbered(q: seq<TimestampedEvent>, n: nat) {
    forall i :: 0 <= i < |q| ==> q[i].seqNo < n
  }

  lemma {:induction false} InsertElements(q: seq<TimestampedEvent>, e: TimestampedEvent)
    ensures multiset(Insert(q, e)) == multiset(q) + multiset{e}
    ensures |Insert(q, e)| == |q| + 1
  {
    if q != [] {
      assert q == [q[0]] + q[1..];
      InsertElements(q[1..], e);
    }
  }

  lemma MemberOfInsert(q: seq<TimestampedEvent>, e: TimestampedEvent, i: nat)
    requires i < |Insert(q, e)|
    ensures Insert(q, e)[i] == e || Insert(q, e)[i] in q
  {
    InsertElements(q, e);
    assert Insert(q, e)[i] in multiset(Insert(q, e));
  }

  /** A fresh event keeps the list strictly ordered, because its number exceeds every pending one. */
  lemma {:induction false} InsertSorted(q: seq<TimestampedEvent>, e: TimestampedEvent)
    requires Sorted(q) && Numbered(q, e.seqNo)
    ensures Sorted(Insert(q, e)) && Numbered(Insert(q, e), e.seqNo + 1)
  {
    var r := Insert(q, e);
    forall i | 0 <= i < |r| ensures r[i].seqNo < e.seqNo + 1 {
      MemberOfInsert(q, e, i);
    }
    if q != [] && q[0].time <= e.time {
      InsertSorted(q[1..], e);
      forall j | 0 < j < |r| ensures Before(r[0], r[j]) {
        MemberOfInsert(q[1..], e, j - 1);
      }
    }
  }

  // ----- Heap algorithms -----

  function Parent(i: int): int {
    (i - 1) / 2
  }

  /** Heap order on every edge except those into node `k`. */
  ghost predicate HeapExceptInto(h: seq<TimestampedEvent>, k: int) {
    forall j :: 0 < j < |h| && j != k ==> !Before(h[j], h[Parent(j)])
  }

  /** Heap order on every edge except those out of node `k`. */
  ghost predicate HeapExceptFrom(h: seq<TimestampedEvent>, k: int) {
    forall j :: 0 < j < |h| && Parent(j) != k ==> !Before(h[j], h[Parent(j)])
  }

  /** The children of `k` do not precede the parent of `k`. */
  ghost predicate Bridged(h: seq<TimestampedEvent>, k: int) {
    forall j :: 0 < j < |h| && Parent(j) == k && 0 < k < |h| ==> !Before(h[j], h[Parent(k)])
  }

  ghost predicate IsHeap(h: seq<TimestampedEvent>) {
    HeapExceptInto(h, -1)
  }

  lemma {:induction false} RootIsLeast(h: seq<TimestampedEvent>, i: nat)
    requires IsHeap(h) && i < |h|
    ensures !Before(h[i], h[0])
  {
    if i != 0 {
      RootIsLeast(h, Parent(i));
    }
  }

  function Swap(h: seq<TimestampedEvent>, i: int, k: int): (r: seq<TimestampedEvent>)
    requires 0 <= i < |h| && 0 <= k < |h|
    ensures multiset(r) == multiset(h)
    ensures |r| == |h| && r[i] == h[k] && r[k] == h[i]
    ensures forall j :: 0 <= j < |h| && j != i && j != k ==> r[j] == h[j]
  {
    h[i := h[k]][k := h[i]]
  }

  lemma SwapUp(h: seq<TimestampedEvent>, i: int)
    requires 0 < i < |h| && HeapExceptInto(h, i) && Bridged(h, i)
    requires Before(h[i], h[Parent(i)])
    ensures HeapExceptInto(Swap(h, i, Parent(i)), Parent(i)) && Bridged(Swap(h, i, Parent(i)), Parent(i))
  {
  }

  /** Move the last element up to its place. */
  method SiftUp(heap: seq<TimestampedEvent>) returns (h: seq<TimestampedEvent>)
    requires heap != [] && HeapExceptInto(heap, |heap| - 1)
    ensures IsHeap(h) && multiset(h) == multiset(heap)
  {
    h := heap;
    var i := |h| - 1;
    while i > 0 && Compare(h[i], h[Parent(i)]) == Greater
      invariant 0 <= i < |h| == |heap|
      invariant multiset(h) == multiset(heap)
      invariant HeapExceptInto(h, i) && Bridged(h, i)
    {
      SwapUp(h, i);
      h := Swap(h, i, Parent(i));
      i := Parent(i);
    }
  }

  lemma SwapDown(h: seq<TimestampedEvent>, i: int, child: int)
    requires 0 <= i < child < |h| && Parent(child) == i && HeapExceptFrom(h, i) && Bridged(h, i)
    requires forall j :: 0 < j < |h| && Parent(j) == i ==> !Before(h[j], h[child])
    requires Before(h[child], h[i])
    ensures HeapExceptFrom(Swap(h, i, child), child) && Bridged(Swap(h, i, child), child)
  {
  }

  /** The child of `i` that nothing precedes among the children of `i`. */
  function GreaterChild(h: seq<TimestampedEvent>, i: nat): (c: nat)
    requires 2 * i + 1 < |h|
    ensures i < c < |h| && Parent(c) == i
    ensures forall j :: 0 < j < |h| && Parent(j) == i ==> !Before(h[j], h[c])
  {
    var left := 2 * i + 1;
    assert forall j {:trigger Parent(j)} :: Parent(j) == i ==> j == left || j == left + 1;
    if left + 1 < |h| && Compare(h[left + 1], h[left]) == Greater then left + 1 else left
  }

  lemma InPlace(h: seq<TimestampedEvent>, i: nat)
    requires i < |h| && HeapExceptFrom(h, i)
    requires 2 * i + 1 < |h| ==> !Before(h[GreaterChild(h, i)], h[i])
    ensures IsHeap(h)
  {
  }

  /** Move the root down to its place, always towards the greater child. */
  method SiftDown(heap: seq<TimestampedEvent>) returns (h: seq<TimestampedEvent>)
    requires heap != [] && HeapExceptFrom(heap, 0)
    ensures IsHeap(h) && multiset(h) == multiset(heap)
  {
    h := heap;
    var i := 0;
    assert Bridged(h, 0);
    hide *;
    while 2 * i + 1 < |h|
      invariant 0 <= i < |h| == |heap|
      invariant multiset(h) == multiset(heap)
      invariant HeapExceptFrom(h, i) && Bridged(h, i)
      decreases |h| - i
    {
      var child := GreaterChild(h, i);
      if Compare(h[child], h[i]) != Greater {
        break;
      }
      SwapDown(h, i, child);
      h := Swap(h, i, child);
      i := child;
    }
    InPlace(h, i);
  }

  lemma LeastIsUnique(h: seq<TimestampedEvent>, q: seq<TimestampedEvent>)
    requires IsHeap(h) && Sorted(q) && multiset(h) == multiset(q) && h != []
    ensures q != [] && h[0] == q[0]
  {
    assert h[0] in multiset(q);
    assert q[0] in multiset(h);
    var i :| 0 <= i < |h| && h[i] == q[0];
    RootIsLeast(h, i);
  }

  lemma WithoutRoot(root: TimestampedEvent, tail: seq<TimestampedEvent>, last: TimestampedEvent,
                    q: seq<TimestampedEvent>)
    requires q != [] && q[0] == root && multiset([root] + tail + [last]) == multiset(q)
    ensures multiset([last] + tail) == multiset(q[1..])
  {
    assert q == [root] + q[1..];
    assert multiset(q) - multiset{root} == multiset(q[1..]);
    assert multiset([root] + tail + [last]) - multiset{root} == multiset([last] + tail);
  }

  lemma RootReplaced(heap: seq<TimestampedEvent>, h: seq<TimestampedEvent>, q: seq<TimestampedEvent>)
    requires |heap| > 1 && h == heap[..|heap| - 1][0 := heap[|heap| - 1]]
    requires IsHeap(heap) && q != [] && heap[0] == q[0] && multiset(heap) == multiset(q)
    ensures HeapExceptFrom(h, 0) && multiset(h) == multiset(q[1..])
  {
    var tail := heap[1..|heap| - 1];
    var last := heap[|heap| - 1];
    assert h == [last] + tail;
    assert heap == [heap[0]] + tail + [last];
    WithoutRoot(heap[0], tail, last, q);
  }

  /** Replace the root by the last element and restore the order. */
  method RemoveRoot(heap: seq<TimestampedEvent>, ghost q: seq<TimestampedEvent>)
    returns (h: seq<TimestampedEvent>)
    requires heap != [] && IsHeap(heap) && q != [] && heap[0] == q[0] && multiset(heap) == multiset(q)
    ensures IsHeap(h) && multiset(h) == multiset(q[1..])
  {
    assert |multiset(heap)| == |heap| && |multiset(q)| == |q|;
    if |heap| == 1 {
      h := [];
    } else {
      h := heap[..|heap| - 1][0 := heap[|heap| - 1]];
      RootReplaced(heap, h, q);
      h := SiftDown(h);
    }
  }

  // ----- The queue -----

  /** The heap holds the pending events, which carry distinct numbers below `nextSeq`. */
  ghost predicate Holds(heap: seq<TimestampedEvent>, pending: seq<TimestampedEvent>, nextSeq: nat) {
    && IsHeap(heap)
    && multiset(heap) == multiset(pending)
    && Sorted(pending)
    && Numbered(pending, nextSeq)
  }

  class EventQueue {
    var heap: seq<TimestampedEvent>
    var nextSeq: nat
    /** The pending events in processing order. */
    ghost var pending: seq<TimestampedEvent>

    constructor ()
      ensures Holds(heap, pending, nextSeq) && pending == [] && nextSeq == 0
    {
      heap, nextSeq := [], 0;
      pending := [];
    }

    method Schedule(time: int, event: SimEvent)
      requires Holds(heap, pending, nextSeq)
      modifies this
      ensures Holds(heap, pending, nextSeq)
      ensures pending == Insert(old(pending), TimestampedEvent(time, old(nextSeq), event))
      ensures nextSeq == old(nextSeq) + 1
    {
      var e := TimestampedEvent(time, nextSeq, event);
      InsertSorted(pending, e);
      InsertElements(pending, e);
      nextSeq := nextSeq + 1;
      heap := SiftUp(heap + [e]);
      pending := Insert(pending, e);
    }

    method Pop() returns (r: Option<TimestampedEvent>)
      requires Holds(heap, pending, nextSeq)
      modifies this
      ensures Holds(heap, pending, nextSeq) && nextSeq == old(nextSeq)
      ensures old(pending) == [] ==> r == None && pending == []
      ensures old(pending) != [] ==> r == Some(old(pending)[0]) && pending == old(pending)[1..]
    {
      if heap == [] {
        assert |multiset(pending)| == 0;
        return None;
      }
      LeastIsUnique(heap, pending);
      r := Some(heap[0]);
      heap := RemoveRoot(heap, pending);
      pending := pending[1..];
    }

    method IsEmpty() returns (empty: bool)
      requires Holds(heap, pending, nextSeq)
      ensures empty <==> pending == []
    {
      empty := heap == [];
      assert |multiset(heap)| == |multiset(pending)|;
    }
  }

  // ----- Any interleaving of schedule and pop -----

  datatype Op = Push(time: int, event: SimEvent) | Take

  /** Everything scheduled, everything popped and everything pending after a list of operations. */
  datatype History = History(pending: seq<TimestampedEvent>, nextSeq: nat,
                             popped: seq<TimestampedEvent>, scheduled: seq<TimestampedEvent>)

  function After(ops: seq<Op>): History {
    if ops == [] then History([], 0, [], [])
    else
      var h := After(ops[..|ops| - 1]);
      match ops[|ops| - 1]
      case Push(t, ev) =>
        var e := TimestampedEvent(t, h.nextSeq, ev);
        History(Insert(h.pending, e), h.nextSeq + 1, h.popped, h.scheduled + [e])
      case Take =>
        if h.pending == [] then h
        else h.(pending := h.pending[1..], popped := h.popped + [h.pending[0]])
  }

  lemma {:induction false} PendingStaysSorted(ops: seq<Op>)
    ensures var h := After(ops); Sorted(h.pending) && Numbered(h.pending, h.nextSeq)
  {
    if ops != [] {
      PendingStaysSorted(ops[..|ops| - 1]);
      match ops[|ops| - 1] {
        case Push(t, ev) =>
          var g := After(ops[..|ops| - 1]);
          InsertSorted(g.pending, TimestampedEvent(t, g.nextSeq, ev));
        case Take =>
      }
    }
  }

  /** Nothing is lost or duplicated over any interleaving. */
  lemma {:induction false} InterleavingConserves(ops: seq<Op>)
    ensures var h := After(ops); multiset(h.scheduled) == multiset(h.popped) + multiset(h.pending)
  {
    if ops != [] {
      InterleavingConserves(ops[..|ops| - 1]);
      var g := After(ops[..|ops| - 1]);
      match ops[|ops| - 1] {
        case Push(t, ev) =>
          InsertElements(g.pending, TimestampedEvent(t, g.nextSeq, ev));
        case Take =>
          if g.pending != [] {
            assert g.pending == [g.pending[0]] + g.pending[1..];
          }
      }
    }
  }

  /** Each pop returns the least, by time and then number, of what is scheduled and not yet popped. */
  lemma PopIsLeast(ops: seq<Op>, e: TimestampedEvent)
    requires var h := After(ops); e in multiset(h.scheduled) - multiset(h.popped)
    ensures var h := After(ops);
            var g := After(ops + [Take]);
            && h.pending != []
            && g.popped == h.popped + [h.pending[0]]
            && h.pending[0] in multiset(h.scheduled) - multiset(h.popped)
            && (e == h.pending[0] || Before(h.pending[0], e))
  {
    var h := After(ops);
    InterleavingConserves(ops);
    PendingStaysSorted(ops);
    assert e in multiset(h.pending);
    assert h.pending[0] in multiset(h.pending);
    assert (ops + [Take])[..|ops|] == ops;
  }

  function AtTime(q: seq<TimestampedEvent>, t: int): seq<SimEvent> {
    if q == [] then []
    else if q[0].time == t then [q[0].event] + AtTime(q[1..], t)
    else AtTime(q[1..], t)
  }

  function EventsAtTime(items: seq<Emission>, t: int): seq<SimEvent> {
    if items == [] then []
    else
      var front := EventsAtTime(items[..|items| - 1], t);
      if items[|items| - 1].time == t then front + [items[|items| - 1].event] else front
  }

  /** Schedule a list of emissions in turn. */
  function ScheduleAll(q: seq<TimestampedEvent>, n: nat, items: seq<Emission>): seq<TimestampedEvent> {
    if items == [] then q
    else
      Insert(ScheduleAll(q, n, items[..|items| - 1]),
             TimestampedEvent(items[|items| - 1].time, n + |items| - 1, items[|items| - 1].event))
  }

  lemma {:induction false} InsertAtTime(q: seq<TimestampedEvent>, e: TimestampedEvent, t: int)
    requires Sorted(q)
    ensures AtTime(Insert(q, e), t) == if e.time == t then AtTime(q, t) + [e.event] else AtTime(q, t)
  {
    if q == [] {
    } else if q[0].time <= e.time {
      InsertAtTime(q[1..], e, t);
      assert Insert(q, e)[1..] == Insert(q[1..], e);
    } else {
      assert Insert(q, e)[1..] == q;
      if e.time == t {
        NothingAtOrBefore(q, t);
      }
    }
  }

  lemma {:induction false} NothingAtOrBefore(q: seq<TimestampedEvent>, t: int)
    requires forall i :: 0 <= i < |q| ==> q[i].time != t
    ensures AtTime(q, t) == []
  {
    if q != [] {
      NothingAtOrBefore(q[1..], t);
    }
  }

  lemma {:induction false} ScheduleAllSorted(q: seq<TimestampedEvent>, n: nat, items: seq<Emission>)
    requires Sorted(q) && Numbered(q, n)
    ensures var r := ScheduleAll(q, n, items); Sorted(r) && Numbered(r, n + |items|)
  {
    if items != [] {
      var front := items[..|items| - 1];
      ScheduleAllSorted(q, n, front);
      InsertSorted(ScheduleAll(q, n, front),
                   TimestampedEvent(items[|items| - 1].time, n + |items| - 1, items[|items| - 1].event));
    }
  }

  function Pushes(items: seq<Emission>): seq<Op> {
    seq(|items|, i requires 0 <= i < |items| => Push(items[i].time, items[i].event))
  }

  function Takes(k: nat): seq<Op> {
    seq(k, _ => Take)
  }

  lemma {:induction false} AfterPushes(items: seq<Emission>)
    ensures After(Pushes(items)).pending == ScheduleAll([], 0, items)
    ensures After(Pushes(items)).nextSeq == |items| && After(Pushes(items)).popped == []
  {
    if items != [] {
      var n := |items| - 1;
      AfterPushes(items[..n]);
      assert Pushes(items)[..n] == Pushes(items[..n]);
    }
  }

  lemma {:induction false} AfterTakes(items: seq<Emission>, k: nat)
    requires k <= |ScheduleAll([], 0, items)|
    ensures var r := ScheduleAll([], 0, items);
            var h := After(Pushes(items) + Takes(k));
            h.popped == r[..k] && h.pending == r[k..]
  {
    var ops := Pushes(items) + Takes(k);
    if k == 0 {
      assert ops == Pushes(items);
      AfterPushes(items);
    } else {
      AfterTakes(items, k - 1);
      assert ops[..|ops| - 1] == Pushes(items) + Takes(k - 1) && ops[|ops| - 1] == Take;
      hide ScheduleAll, Pushes;
    }
  }

  lemma {:induction false} SchedulingIsStableSort(items: seq<Emission>, t: int)
    ensures var r := ScheduleAll([], 0, items);
            && (forall i, j :: 0 <= i < j < |r| ==> r[i].time <= r[j].time)
            && AtTime(r, t) == EventsAtTime(items, t)
            && |r| == |items|
  {
    ScheduleAllSorted([], 0, items);
    if items != [] {
      var front := items[..|items| - 1];
      var last := items[|items| - 1];
      SchedulingIsStableSort(front, t);
      ScheduleAllSorted([], 0, front);
      var e := TimestampedEvent(last.time, |items| - 1, last.event);
      InsertAtTime(ScheduleAll([], 0, front), e, t);
      InsertElements(ScheduleAll([], 0, front), e);
    }
  }

  /**
    * Scheduling a list of events and then popping as often returns them all, in order of time, and those of one time in
    * the order in which they were scheduled.
    */
  lemma DrainIsStableSort(items: seq<Emission>, t: int)
    ensures var h := After(Pushes(items) + Takes(|items|));
            && h.pending == [] && |h.popped| == |items|
            && (forall i, j :: 0 <= i < j < |h.popped| ==> h.popped[i].time <= h.popped[j].time)
            && AtTime(h.popped, t) == EventsAtTime(items, t)
  {
    hide After, ScheduleAll, AtTime, EventsAtTime;
    SchedulingIsStableSort(items, t);
    AfterTakes(items, |items|);
    var r := ScheduleAll([], 0, items);
    assert r[..|items|] == r && r[|items|..] == [];
  }
}
