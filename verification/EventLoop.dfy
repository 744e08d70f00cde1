/**
  * The discrete-event loop: pop the earliest event, let the market, the execution engine and every
  * strategy react to it, schedule what they emit, and stop at SimulationEnd.
  *
  * A strategy is any function from what it has observed so far to the orders it submits now.
  */
module EventLoop {
  import opened Wrappers
  import opened SimEvents
  import opened Queue
  import opened Markets
  import opened TransientImpact
  import opened Execution
  import opened ExecutionLaws
  import opened ExecutionCharges

  const SUBMIT_DELAY := 1000

  datatype Observation = Observation(event: SimEvent, market: Market)

  /** A strategy; its own state is whatever it derives from the observations so far. */
  type Strategy = seq<Observation> -> seq<Order>

  datatype Sim = Sim(queue: seq<TimestampedEvent>, nextSeq: nat, market: Market,
                     pending: seq<Order>, history: seq<TradeEvent>, seen: seq<Observation>)

  // ----- One iteration -----

  function Submissions(now: int, orders: seq<Order>): seq<Emission> {
    seq(|orders|, i requires 0 <= i < |orders| => Emission(now + SUBMIT_DELAY, SubmitOrder(orders[i])))
  }

  /** What the strategies schedule, in turn, after the observations `seen`. */
  function React(strategies: seq<Strategy>, seen: seq<Observation>, now: int): seq<Emission> {
    if strategies == [] then []
    else
      React(strategies[..|strategies| - 1], seen, now)
      + Submissions(now, strategies[|strategies| - 1](seen))
  }

  datatype LoopConfig = LoopConfig(exec: ExecConfig, strategies: seq<Strategy>)

  function StrategyEmissions(cfg: LoopConfig, seen: seq<Observation>, now: int): seq<Emission> {
    React(cfg.strategies, seen, now)
  }

  /** The pending events once `items` have been scheduled. */
  function Enqueued(q: seq<TimestampedEvent>, n: nat, items: seq<Emission>): seq<TimestampedEvent> {
    ScheduleAll(q, n, items)
  }

  /** Everything scheduled while the head of the queue is processed. */
  function Emitted(cfg: LoopConfig, s: Sim): seq<Emission>
    requires s.queue != []
  {
    var tse := s.queue[0];
    var m := MarketAfter(s.market, tse.event);
    HandleOutcome(s.pending, s.history, cfg.exec, tse, m).emitted
    + StrategyEmissions(cfg, s.seen + [Observation(tse.event, m)], tse.time)
  }

  function Step(cfg: LoopConfig, s: Sim): Sim
    requires s.queue != []
  {
    var tse := s.queue[0];
    var m := MarketAfter(s.market, tse.event);
    var o := HandleOutcome(s.pending, s.history, cfg.exec, tse, m);
    Sim(ScheduleAll(s.queue[1..], s.nextSeq, Emitted(cfg, s)), s.nextSeq + |Emitted(cfg, s)|, m,
        o.pending, o.history, s.seen + [Observation(tse.event, m)])
  }

  // ----- Follow-on events are strictly later -----

  ghost predicate Follows(items: seq<Emission>, now: int) {
    forall i :: 0 <= i < |items| ==> items[i].time > now && !items[i].event.SimulationEnd?
  }

  lemma {:induction false} PassFollows(orders: seq<Order>, history: seq<TradeEvent>,
                                       cfg: ExecConfig, now: int, m: Market)
    ensures Follows(FillPass(orders, history, cfg, now, m).emitted, now)
  {
    if orders != [] {
      PassFollows(orders[..|orders| - 1], history, cfg, now, m);
      hide BaseImpact, Impact, ExecPrice, Recorded;
    }
  }

  lemma {:induction false} ReactFollows(strategies: seq<Strategy>, seen: seq<Observation>, now: int)
    ensures Follows(React(strategies, seen, now), now)
  {
    if strategies != [] {
      ReactFollows(strategies[..|strategies| - 1], seen, now);
    }
  }

  lemma HandleFollows(pending: seq<Order>, history: seq<TradeEvent>, cfg: ExecConfig, tse: TimestampedEvent, m: Market)
    ensures Follows(HandleOutcome(pending, history, cfg, tse, m).emitted, tse.time)
  {
    PassFollows(PassedOver(pending, tse.event), history, cfg, tse.time, m);
    hide FillPass, Without;
  }

  lemma EmittedFollows(cfg: LoopConfig, s: Sim)
    requires s.queue != []
    ensures Follows(Emitted(cfg, s), s.queue[0].time)
  {
    hide HandleOutcome, React;
    var tse := s.queue[0];
    var m := MarketAfter(s.market, tse.event);
    ReactFollows(cfg.strategies, s.seen + [Observation(tse.event, m)], tse.time);
    HandleFollows(s.pending, s.history, cfg.exec, tse, m);
  }

  // ----- Termination -----

  predicate HasEnd(q: seq<TimestampedEvent>) {
    q != [] && (q[0].event.SimulationEnd? || HasEnd(q[1..]))
  }

  function EndTime(q: seq<TimestampedEvent>): int
    requires HasEnd(q)
  {
    if q[0].event.SimulationEnd? then q[0].time else EndTime(q[1..])
  }

  function CountAt(q: seq<TimestampedEvent>, t: int): nat {
    if q == [] then 0 else (if q[0].time == t then 1 else 0) + CountAt(q[1..], t)
  }

  lemma {:induction false} InsertMeasures(q: seq<TimestampedEvent>, e: TimestampedEvent, t: int)
    requires !e.event.SimulationEnd?
    ensures HasEnd(Insert(q, e)) <==> HasEnd(q)
    ensures HasEnd(q) ==> EndTime(Insert(q, e)) == EndTime(q)
    ensures CountAt(Insert(q, e), t) == CountAt(q, t) + (if e.time == t then 1 else 0)
  {
    if q != [] && q[0].time <= e.time {
      InsertMeasures(q[1..], e, t);
      assert Insert(q, e)[1..] == Insert(q[1..], e);
    } else {
      assert Insert(q, e)[1..] == q;
    }
  }

  lemma {:induction false} ScheduleMeasures(q: seq<TimestampedEvent>, n: nat, items: seq<Emission>, t: int)
    requires Follows(items, t)
    ensures HasEnd(ScheduleAll(q, n, items)) <==> HasEnd(q)
    ensures HasEnd(q) ==> EndTime(ScheduleAll(q, n, items)) == EndTime(q)
    ensures CountAt(ScheduleAll(q, n, items), t) == CountAt(q, t)
  {
    if items != [] {
      var last := items[|items| - 1];
      ScheduleMeasures(q, n, items[..|items| - 1], t);
      InsertMeasures(ScheduleAll(q, n, items[..|items| - 1]),
                     TimestampedEvent(last.time, n + |items| - 1, last.event), t);
    }
  }

  /** The events that a list of emissions becomes, numbered from `n`. */
  function Stamped(items: seq<Emission>, n: nat): seq<TimestampedEvent> {
    seq(|items|, i requires 0 <= i < |items| => TimestampedEvent(items[i].time, n + i, items[i].event))
  }

  lemma StampedSnoc(front: seq<Emission>, last: Emission, n: nat)
    ensures Stamped(front + [last], n) == Stamped(front, n) + [TimestampedEvent(last.time, n + |front|, last.event)]
  {
  }

  lemma {:induction false} ScheduleElements(q: seq<TimestampedEvent>, n: nat, items: seq<Emission>)
    ensures multiset(ScheduleAll(q, n, items)) == multiset(q) + multiset(Stamped(items, n))
    ensures |ScheduleAll(q, n, items)| == |q| + |items|
  {
    hide Stamped, Insert;
    if items == [] {
      NothingStamped(n);
    } else {
      var front := items[..|items| - 1];
      var last := items[|items| - 1];
      ScheduleElements(q, n, front);
      assert items == front + [last];
      StampedSnoc(front, last, n);
      var e := TimestampedEvent(last.time, n + |front|, last.event);
      InsertElements(ScheduleAll(q, n, front), e);
      OneMore(multiset(q), Stamped(front, n), e);
    }
  }

  lemma NothingStamped(n: nat)
    ensures Stamped([], n) == []
  {
  }

  lemma OneMore(q: multiset<TimestampedEvent>, stamped: seq<TimestampedEvent>, e: TimestampedEvent)
    ensures q + multiset(stamped + [e]) == q + multiset(stamped) + multiset{e}
  {
  }

  lemma {:induction false} EndTimeBound(q: seq<TimestampedEvent>)
    requires HasEnd(q) && Sorted(q)
    ensures q[0].time <= EndTime(q)
  {
    if !q[0].event.SimulationEnd? {
      EndTimeBound(q[1..]);
    }
  }

  ghost predicate Sound(s: Sim) {
    Sorted(s.queue) && Numbered(s.queue, s.nextSeq)
  }

  ghost predicate Ready(s: Sim) {
    Sound(s) && HasEnd(s.queue)
  }

  /** Every event pending after an iteration comes after the one processed. */
  lemma StepIsCausal(cfg: LoopConfig, s: Sim, e: TimestampedEvent)
    requires Sound(s) && s.queue != []
    requires e in Step(cfg, s).queue
    ensures Before(s.queue[0], e)
  {
    hide React, HandleOutcome, Emitted;
    var items := Emitted(cfg, s);
    EmittedFollows(cfg, s);
    ScheduleElements(s.queue[1..], s.nextSeq, items);
    assert e in multiset(Step(cfg, s).queue);
    if e in s.queue[1..] {
      var i :| 0 <= i < |s.queue[1..]| && s.queue[1..][i] == e;
      assert s.queue[i + 1] == e;
    } else {
      assert e in Stamped(items, s.nextSeq);
    }
  }

  lemma StepIsSound(cfg: LoopConfig, s: Sim)
    requires Sound(s) && s.queue != []
    ensures Sound(Step(cfg, s))
    ensures HasEnd(Step(cfg, s).queue) <==> HasEnd(s.queue[1..])
  {
    hide React, HandleOutcome, Emitted;
    EmittedFollows(cfg, s);
    ScheduleMeasures(s.queue[1..], s.nextSeq, Emitted(cfg, s), s.queue[0].time);
    ScheduleAllSorted(s.queue[1..], s.nextSeq, Emitted(cfg, s));
  }

  /** Ticks from the next event to the first SimulationEnd. */
  function TicksLeft(s: Sim): nat
    requires Ready(s)
  {
    EndTimeBound(s.queue);
    EndTime(s.queue) - s.queue[0].time
  }

  /** Events pending at the time of the next event. */
  function PendingNow(s: Sim): nat
    requires s.queue != []
  {
    CountAt(s.queue, s.queue[0].time)
  }

  /** Ticks left to the end, then events pending at the current tick, decrease. */
  lemma StepDecreases(cfg: LoopConfig, s: Sim)
    requires Ready(s) && !s.queue[0].event.SimulationEnd?
    ensures var r := Step(cfg, s);
            && Ready(r)
            && TicksLeft(r) <= TicksLeft(s)
            && (TicksLeft(r) == TicksLeft(s) ==> PendingNow(r) < PendingNow(s))
  {
    var r := Step(cfg, s);
    StepIsSound(cfg, s);
    EndTimeBound(r.queue);
    StepIsCausal(cfg, s, r.queue[0]);
    EmittedFollows(cfg, s);
    hide React, HandleOutcome, Emitted;
    ScheduleMeasures(s.queue[1..], s.nextSeq, Emitted(cfg, s), s.queue[0].time);
  }

  // ----- Runs -----

  /**
    * What a run processed, scheduled and fed to the execution engine, the state it left, and whether it ended
    * because SimulationEnd was processed.
    */
  datatype RunResult = RunResult(trace: seq<TimestampedEvent>, born: seq<TimestampedEvent>,
                                 inputs: seq<Input>, final: Sim, stopped: bool)

  /** The first `n` iterations of the loop, fewer if it ends before. */
  function RunFor(cfg: LoopConfig, s: Sim, n: nat): RunResult
    decreases n
  {
    if n == 0 || s.queue == [] then RunResult([], [], [], s, false)
    else
      var tse := s.queue[0];
      if tse.event.SimulationEnd? then RunResult([tse], [], [], s.(queue := s.queue[1..]), true)
      else
        var r := RunFor(cfg, Step(cfg, s), n - 1);
        RunResult([tse] + r.trace, Stamped(Emitted(cfg, s), s.nextSeq) + r.born,
                  [Input(tse, MarketAfter(s.market, tse.event))] + r.inputs, r.final, r.stopped)
  }

  /** The loop ends within `n` iterations: at SimulationEnd, or because nothing is pending. */
  predicate Halts(cfg: LoopConfig, s: Sim, n: nat) {
    var r := RunFor(cfg, s, n);
    r.stopped || r.final.queue == []
  }

  function TraceOf(cfg: LoopConfig, s: Sim, n: nat): seq<TimestampedEvent> {
    RunFor(cfg, s, n).trace
  }

  function FinalOf(cfg: LoopConfig, s: Sim, n: nat): Sim {
    RunFor(cfg, s, n).final
  }

  /** One unfolding of a run that does not stop at once. */
  lemma RunUnfolds(cfg: LoopConfig, s: Sim, n: nat)
    requires n > 0 && s.queue != [] && !s.queue[0].event.SimulationEnd?
    ensures var r := RunFor(cfg, Step(cfg, s), n - 1);
            RunFor(cfg, s, n) == RunResult([s.queue[0]] + r.trace, Stamped(Emitted(cfg, s), s.nextSeq) + r.born,
              [Input(s.queue[0], MarketAfter(s.market, s.queue[0].event))] + r.inputs, r.final, r.stopped)
  {
  }

  /** A run that ends at once. */
  lemma RunEnds(cfg: LoopConfig, s: Sim, n: nat)
    ensures n == 0 || s.queue == [] ==> RunFor(cfg, s, n) == RunResult([], [], [], s, false)
    ensures n > 0 && s.queue != [] && s.queue[0].event.SimulationEnd? ==>
              RunFor(cfg, s, n) == RunResult([s.queue[0]], [], [], s.(queue := s.queue[1..]), true)
  {
  }

  // ----- Termination -----

  /** With a SimulationEnd pending the loop ends, and it ends at the time of the first one. */
  lemma {:induction false} EndIsReached(cfg: LoopConfig, s: Sim) returns (n: nat)
    requires Ready(s)
    ensures var r := RunFor(cfg, s, n);
            r.stopped && r.trace != [] && r.trace[|r.trace| - 1].time == EndTime(s.queue)
    decreases TicksLeft(s), PendingNow(s)
  {
    if s.queue[0].event.SimulationEnd? {
      n := 1;
    } else {
      StepDecreases(cfg, s);
      EmittedFollows(cfg, s);
      n := EndIsReached(cfg, Step(cfg, s));
      n := n + 1;
      RunUnfolds(cfg, s, n);
      hide RunFor, Emitted, React, HandleOutcome;
      ScheduleMeasures(s.queue[1..], s.nextSeq, Emitted(cfg, s), s.queue[0].time);
    }
  }

  /** A run that has ended is the whole run: more iterations change nothing. */
  lemma {:induction false} EndedRunIsWhole(cfg: LoopConfig, s: Sim, n: nat, m: nat)
    requires Halts(cfg, s, n) && n <= m
    ensures RunFor(cfg, s, m) == RunFor(cfg, s, n)
    decreases n
  {
    hide RunFor, Step, Emitted, Stamped, MarketAfter;
    if n == 0 || s.queue == [] || s.queue[0].event.SimulationEnd? {
      RunEnds(cfg, s, n);
      RunEnds(cfg, s, m);
    } else {
      RunUnfolds(cfg, s, n);
      RunUnfolds(cfg, s, m);
      EndedRunIsWhole(cfg, Step(cfg, s), n - 1, m - 1);
    }
  }

  // ----- Causality and exactness -----

  /**
    * What was processed from `s` is strictly ordered, only its last event can be SimulationEnd, and everything still
    * pending comes later.
    */
  ghost predicate Causal(s: Sim, n: nat, r: RunResult) {
    && (if n == 0 || s.queue == [] then r.trace == [] && r.final == s && !r.stopped
        else r.trace != [] && r.trace[0] == s.queue[0])
    && Sorted(r.trace)
    && (forall i :: 0 <= i < |r.trace| ==> (r.trace[i].event.SimulationEnd? <==> r.stopped && i == |r.trace| - 1))
    && (r.trace != [] ==>
          forall i :: 0 <= i < |r.final.queue| ==> Before(r.trace[|r.trace| - 1], r.final.queue[i]))
  }

  /** However far a run gets, it is causal. */
  lemma {:induction false} RunIsCausal(cfg: LoopConfig, s: Sim, n: nat)
    requires Sound(s)
    ensures Causal(s, n, RunFor(cfg, s, n))
    decreases n
  {
    hide RunFor, Step;
    if n == 0 || s.queue == [] || s.queue[0].event.SimulationEnd? {
      RunEnds(cfg, s, n);
    } else {
      StepIsSound(cfg, s);
      RunIsCausal(cfg, Step(cfg, s), n - 1);
      hide Causal, Sound;
      CausalStep(cfg, s, n);
    }
  }

  lemma CausalStep(cfg: LoopConfig, s: Sim, n: nat)
    requires Sound(s) && n > 0 && s.queue != [] && !s.queue[0].event.SimulationEnd?
    requires Causal(Step(cfg, s), n - 1, RunFor(cfg, Step(cfg, s), n - 1))
    ensures Causal(s, n, RunFor(cfg, s, n))
  {
    RunUnfolds(cfg, s, n);
    hide RunFor, Step, Emitted, Stamped, MarketAfter, Sound, Sorted;
    var next := Step(cfg, s);
    var r := RunFor(cfg, next, n - 1);
    if r.trace != [] {
      StepIsCausal(cfg, s, next.queue[0]);
      ConsIsSorted(s.queue[0], r.trace);
    } else {
      ConsIsSorted(s.queue[0], []);
      forall i | 0 <= i < |next.queue| ensures Before(s.queue[0], next.queue[i]) {
        StepIsCausal(cfg, s, next.queue[i]);
      }
    }
  }

  lemma ConsIsSorted(e: TimestampedEvent, q: seq<TimestampedEvent>)
    requires q != [] ==> Sorted(q) && Before(e, q[0])
    ensures Sorted([e] + q)
  {
  }

  lemma ConservationUnfolds(h: TimestampedEvent, tail: seq<TimestampedEvent>, next: seq<TimestampedEvent>,
                            stamped: seq<TimestampedEvent>, trace: seq<TimestampedEvent>,
                            born: seq<TimestampedEvent>, left: seq<TimestampedEvent>)
    requires multiset(trace) + multiset(left) == multiset(next) + multiset(born)
    requires multiset(next) == multiset(tail) + multiset(stamped)
    ensures multiset([h] + trace) + multiset(left) == multiset([h] + tail) + multiset(stamped + born)
  {
    assert multiset([h] + trace) + multiset(left) == multiset([h]) + (multiset(trace) + multiset(left));
    assert multiset([h] + tail) + multiset(stamped + born)
        == multiset([h]) + ((multiset(tail) + multiset(stamped)) + multiset(born));
  }

  /** Nothing pending or injected is lost or processed twice. */
  lemma {:induction false} RunConservesEvents(cfg: LoopConfig, s: Sim, n: nat)
    ensures var r := RunFor(cfg, s, n);
            multiset(r.trace) + multiset(r.final.queue) == multiset(s.queue) + multiset(r.born)
    decreases n
  {
    hide RunFor, Emitted, React, HandleOutcome, Stamped;
    assert s.queue != [] ==> s.queue == [s.queue[0]] + s.queue[1..];
    if n == 0 || s.queue == [] || s.queue[0].event.SimulationEnd? {
      RunEnds(cfg, s, n);
    } else {
      var next := Step(cfg, s);
      RunConservesEvents(cfg, next, n - 1);
      ScheduleElements(s.queue[1..], s.nextSeq, Emitted(cfg, s));
      RunUnfolds(cfg, s, n);
      var r := RunFor(cfg, next, n - 1);
      ConservationUnfolds(s.queue[0], s.queue[1..], next.queue, Stamped(Emitted(cfg, s), s.nextSeq),
                          r.trace, r.born, r.final.queue);
    }
  }

  /**
    * An event that was pending at the start or injected later has been processed exactly when it is not after the
    * last processed one: after SimulationEnd, when that ended the run.
    */
  lemma ProcessedIffNotAfterLast(cfg: LoopConfig, s: Sim, n: nat, e: TimestampedEvent)
    requires Sound(s) && n > 0
    requires e in s.queue || e in RunFor(cfg, s, n).born
    ensures var r := RunFor(cfg, s, n);
            && r.trace != []
            && (e in r.trace <==> !Before(r.trace[|r.trace| - 1], e))
            && (e in r.trace <==> e !in r.final.queue)
  {
    hide RunFor, Sound;
    NothingBornOfNothing(cfg, s, n);
    RunIsCausal(cfg, s, n);
    RunConservesEvents(cfg, s, n);
    var r := RunFor(cfg, s, n);
    assert e in multiset(s.queue) + multiset(r.born);
    SplitByEnd(r.trace, r.final.queue, e);
  }

  lemma NothingBornOfNothing(cfg: LoopConfig, s: Sim, n: nat)
    ensures s.queue == [] ==> RunFor(cfg, s, n).born == []
  {
  }

  lemma SplitByEnd(trace: seq<TimestampedEvent>, left: seq<TimestampedEvent>, e: TimestampedEvent)
    requires trace != [] && Sorted(trace) && e in multiset(trace) + multiset(left)
    requires forall i :: 0 <= i < |left| ==> Before(trace[|trace| - 1], left[i])
    ensures e in trace <==> !Before(trace[|trace| - 1], e)
    ensures e in trace <==> e !in left
  {
  }

  // ----- The execution engine inside a run -----

  predicate IsReport(ev: SimEvent) {
    ev.OrderFilled? || ev.PartialFill?
  }

  /** The fill reports among a list of events, in order. */
  function Reports(events: seq<TimestampedEvent>): seq<Emission> {
    if events == [] then []
    else
      var front, e := Reports(events[..|events| - 1]), events[|events| - 1];
      if IsReport(e.event) then front + [Emission(e.time, e.event)] else front
  }

  lemma {:induction false} ReportsAppend(a: seq<TimestampedEvent>, b: seq<TimestampedEvent>)
    ensures Reports(a + b) == Reports(a) + Reports(b)
  {
    if b == [] {
      assert a + b == a;
    } else {
      var n := |b| - 1;
      ReportsAppend(a, b[..n]);
      assert (a + b)[..|a + b| - 1] == a + b[..n];
    }
  }

  ghost predicate AllReports(items: seq<Emission>) {
    forall i :: 0 <= i < |items| ==> IsReport(items[i].event)
  }

  ghost predicate AllSubmissions(items: seq<Emission>) {
    forall i :: 0 <= i < |items| ==> items[i].event.SubmitOrder?
  }

  lemma {:induction false} StampedReports(items: seq<Emission>, n: nat)
    requires AllReports(items)
    ensures Reports(Stamped(items, n)) == items
  {
    if items != [] {
      var front := items[..|items| - 1];
      StampedReports(front, n);
      assert Stamped(items, n)[..|items| - 1] == Stamped(front, n);
    }
  }

  lemma {:induction false} StampedSubmissions(items: seq<Emission>, n: nat)
    requires AllSubmissions(items)
    ensures Reports(Stamped(items, n)) == []
  {
    if items != [] {
      var front := items[..|items| - 1];
      StampedSubmissions(front, n);
      assert Stamped(items, n)[..|items| - 1] == Stamped(front, n);
    }
  }

  lemma {:induction false} PassReports(orders: seq<Order>, history: seq<TradeEvent>,
                                       cfg: ExecConfig, now: int, m: Market)
    ensures AllReports(FillPass(orders, history, cfg, now, m).emitted)
  {
    if orders != [] {
      PassReports(orders[..|orders| - 1], history, cfg, now, m);
      hide BaseImpact, Impact, ExecPrice, Recorded;
    }
  }

  lemma {:induction false} ReactSubmits(strategies: seq<Strategy>, seen: seq<Observation>, now: int)
    ensures AllSubmissions(React(strategies, seen, now))
  {
    if strategies != [] {
      ReactSubmits(strategies[..|strategies| - 1], seen, now);
    }
  }

  lemma HandleReports(pending: seq<Order>, history: seq<TradeEvent>, cfg: ExecConfig, tse: TimestampedEvent, m: Market)
    ensures AllReports(HandleOutcome(pending, history, cfg, tse, m).emitted)
  {
    PassReports(PassedOver(pending, tse.event), history, cfg, tse.time, m);
    hide FillPass, Without;
  }

  lemma StampedAppend(a: seq<Emission>, b: seq<Emission>, n: nat)
    ensures Stamped(a + b, n) == Stamped(a, n) + Stamped(b, n + |a|)
  {
  }

  /** Of what one iteration injects, the fill reports are the engine's. */
  lemma StepReports(cfg: LoopConfig, s: Sim)
    requires s.queue != []
    ensures var tse := s.queue[0];
            Reports(Stamped(Emitted(cfg, s), s.nextSeq))
            == HandleOutcome(s.pending, s.history, cfg.exec, tse, MarketAfter(s.market, tse.event)).emitted
  {
    var tse := s.queue[0];
    var m := MarketAfter(s.market, tse.event);
    var a := HandleOutcome(s.pending, s.history, cfg.exec, tse, m).emitted;
    var b := StrategyEmissions(cfg, s.seen + [Observation(tse.event, m)], tse.time);
    hide HandleOutcome, React, MarketAfter, Stamped, Reports, AllReports, AllSubmissions;
    HandleReports(s.pending, s.history, cfg.exec, tse, m);
    ReactSubmits(cfg.strategies, s.seen + [Observation(tse.event, m)], tse.time);
    StampedReports(a, s.nextSeq);
    StampedSubmissions(b, s.nextSeq + |a|);
    StampedAppend(a, b, s.nextSeq);
    ReportsAppend(Stamped(a, s.nextSeq), Stamped(b, s.nextSeq + |a|));
  }

  ghost predicate SameEngine(cfg: LoopConfig, s: Sim, past: seq<Input>) {
    var e := RunEngine(cfg.exec, past);
    e.pending == s.pending && e.history == s.history
  }

  lemma StepDrivesEngine(cfg: LoopConfig, s: Sim, past: seq<Input>)
    requires s.queue != [] && SameEngine(cfg, s, past)
    ensures var now := past + [Input(s.queue[0], MarketAfter(s.market, s.queue[0].event))];
            && SameEngine(cfg, Step(cfg, s), now)
            && RunEngine(cfg.exec, now).log
               == RunEngine(cfg.exec, past).log + Reports(Stamped(Emitted(cfg, s), s.nextSeq))
  {
    StepReports(cfg, s);
    hide HandleOutcome, React, Emitted, ScheduleAll, Stamped, Reports;
    var x := Input(s.queue[0], MarketAfter(s.market, s.queue[0].event));
    assert (past + [x])[..|past|] == past;
  }

  /**
    * The loop drives the engine through the run's inputs and injects exactly the reports the engine logs, so every law
    * of engine runs applies.
    */
  lemma {:induction false} RunDrivesEngine(cfg: LoopConfig, s: Sim, n: nat, past: seq<Input>)
    requires SameEngine(cfg, s, past)
    ensures var r := RunFor(cfg, s, n);
            && SameEngine(cfg, r.final, past + r.inputs)
            && RunEngine(cfg.exec, past + r.inputs).log == RunEngine(cfg.exec, past).log + Reports(r.born)
    decreases n
  {
    hide RunFor, Step, MarketAfter, RunEngine, Emitted, Stamped;
    if n == 0 || s.queue == [] || s.queue[0].event.SimulationEnd? {
      RunEnds(cfg, s, n);
      assert past + [] == past;
    } else {
      StepDrivesEngine(cfg, s, past);
      RunUnfolds(cfg, s, n);
      hide SameEngine, Reports;
      var x := Input(s.queue[0], MarketAfter(s.market, s.queue[0].event));
      RunDrivesEngine(cfg, Step(cfg, s), n - 1, past + [x]);
      var rest := RunFor(cfg, Step(cfg, s), n - 1);
      assert past + ([x] + rest.inputs) == past + [x] + rest.inputs;
      ReportsAppend(Stamped(Emitted(cfg, s), s.nextSeq), rest.born);
    }
  }

  /** From an idle engine, what the loop injects as fill reports is the engine's log over the run's inputs. */
  lemma InjectedReportsAreLog(cfg: LoopConfig, s: Sim, n: nat)
    requires s.pending == [] && s.history == []
    ensures var r := RunFor(cfg, s, n);
            Reports(r.born) == RunEngine(cfg.exec, r.inputs).log && SameEngine(cfg, r.final, r.inputs)
  {
    hide RunFor, Reports;
    StartsIdle(cfg, s);
    RunDrivesEngine(cfg, s, n, []);
    assert [] + RunFor(cfg, s, n).inputs == RunFor(cfg, s, n).inputs;
  }

  /** The run's inputs are its trace without the closing SimulationEnd. */
  lemma {:induction false} InputsAreTrace(cfg: LoopConfig, s: Sim, n: nat)
    ensures var r := RunFor(cfg, s, n);
            && |r.inputs| == |r.trace| - (if r.stopped then 1 else 0)
            && (forall i :: 0 <= i < |r.inputs| ==> r.inputs[i].tse == r.trace[i])
    decreases n
  {
    hide RunFor, Step, MarketAfter, Emitted, Stamped;
    if n == 0 || s.queue == [] || s.queue[0].event.SimulationEnd? {
      RunEnds(cfg, s, n);
    } else {
      RunUnfolds(cfg, s, n);
      InputsAreTrace(cfg, Step(cfg, s), n - 1);
    }
  }

  function EventsOf(inputs: seq<Input>): seq<SimEvent> {
    seq(|inputs|, i requires 0 <= i < |inputs| => inputs[i].tse.event)
  }

  /**
    * Every event of a run is handled in the market that the events up to it show: the price of the last update or
    * trade, the volatility of the last update, the step of the last tick. So is the market that the run leaves.
    */
  lemma RunShowsMarket(cfg: LoopConfig, s: Sim, n: nat)
    ensures var r := RunFor(cfg, s, n);
            && r.final.market == Shown(s.market, EventsOf(r.inputs))
            && (forall j :: 0 <= j < |r.inputs| ==> r.inputs[j].market == Shown(s.market, EventsOf(r.inputs[..j + 1])))
  {
    RunShowsMarketFrom(cfg, s, n, s.market, []);
    hide RunFor, Shown;
    var r := RunFor(cfg, s, n);
    assert [] + EventsOf(r.inputs) == EventsOf(r.inputs);
    forall j | 0 <= j < |r.inputs| ensures r.inputs[j].market == Shown(s.market, EventsOf(r.inputs[..j + 1])) {
      assert [] + EventsOf(r.inputs[..j + 1]) == EventsOf(r.inputs[..j + 1]);
    }
  }

  lemma {:induction false} RunShowsMarketFrom(cfg: LoopConfig, s: Sim, n: nat, from: Market, past: seq<SimEvent>)
    requires s.market == Shown(from, past)
    ensures var r := RunFor(cfg, s, n);
            && r.final.market == Shown(from, past + EventsOf(r.inputs))
            && (forall j :: 0 <= j < |r.inputs| ==>
                  r.inputs[j].market == Shown(from, past + EventsOf(r.inputs[..j + 1])))
    decreases n
  {
    hide RunFor, Step, Emitted, Stamped, Shown, MarketAfter;
    if n == 0 || s.queue == [] || s.queue[0].event.SimulationEnd? {
      RunEnds(cfg, s, n);
      assert past + EventsOf([]) == past;
    } else {
      RunUnfolds(cfg, s, n);
      StepMarket(cfg, s);
      var x := Input(s.queue[0], MarketAfter(s.market, s.queue[0].event));
      var now := past + [x.tse.event];
      ShownNext(from, past, x.tse.event);
      RunShowsMarketFrom(cfg, Step(cfg, s), n - 1, from, now);
      var rest, all := RunFor(cfg, Step(cfg, s), n - 1).inputs, RunFor(cfg, s, n).inputs;
      assert past + EventsOf(all) == now + EventsOf(rest);
      forall j | 0 <= j < |all| ensures all[j].market == Shown(from, past + EventsOf(all[..j + 1])) {
        assert past + EventsOf(all[..j + 1]) == now + EventsOf(rest[..j]);
        if j == 0 {
          assert now + EventsOf(rest[..j]) == now;
        } else {
          assert all[j] == rest[j - 1] && rest[j - 1].market == Shown(from, now + EventsOf(rest[..j - 1 + 1]));
        }
      }
    }
  }

  lemma StepMarket(cfg: LoopConfig, s: Sim)
    requires s.queue != []
    ensures Step(cfg, s).market == MarketAfter(s.market, s.queue[0].event)
  {
  }

  /** No two of the events submit an order under one identifier. */
  predicate DistinctIds(events: seq<TimestampedEvent>) {
    forall i, j :: 0 <= i < j < |events| && events[i].event.SubmitOrder? && events[j].event.SubmitOrder? ==>
      events[i].event.order.id != events[j].event.order.id
  }

  /** Events all found at different places of a list with distinct identifiers have distinct identifiers. */
  lemma TakenIdsDiffer(all: seq<TimestampedEvent>, taken: seq<TimestampedEvent>)
    requires DistinctIds(all)
    requires forall i :: 0 <= i < |taken| ==> taken[i] in all
    requires forall i, j :: 0 <= i < j < |taken| ==> taken[i] != taken[j]
    ensures DistinctIds(taken)
  {
    forall i, j | 0 <= i < j < |taken| && taken[i].event.SubmitOrder? && taken[j].event.SubmitOrder?
      ensures taken[i].event.order.id != taken[j].event.order.id
    {
      var x :| 0 <= x < |all| && all[x] == taken[i];
      var y :| 0 <= y < |all| && all[y] == taken[j];
    }
  }

  lemma TraceIdsDiffer(cfg: LoopConfig, s: Sim, n: nat)
    requires Sound(s) && DistinctIds(s.queue + RunFor(cfg, s, n).born)
    ensures DistinctIds(RunFor(cfg, s, n).trace)
  {
    RunConservesEvents(cfg, s, n);
    RunIsCausal(cfg, s, n);
    hide RunFor, DistinctIds, Sound;
    var r := RunFor(cfg, s, n);
    forall i | 0 <= i < |r.trace| ensures r.trace[i] in s.queue + r.born {
      assert r.trace[i] in multiset(r.trace);
      assert r.trace[i] in multiset(s.queue) + multiset(r.born);
    }
    forall i, j | 0 <= i < j < |r.trace| ensures r.trace[i] != r.trace[j] {
      assert Before(r.trace[i], r.trace[j]);
    }
    TakenIdsDiffer(s.queue + r.born, r.trace);
  }

  lemma {:induction false} NoneSubmits(inputs: seq<Input>, id: nat)
    ensures Submitted(inputs, id) != None ==>
              exists i :: 0 <= i < |inputs| && inputs[i].tse.event.SubmitOrder? && inputs[i].tse.event.order.id == id
  {
    if inputs != [] {
      NoneSubmits(inputs[..|inputs| - 1], id);
    }
  }

  lemma {:induction false} DistinctIdsAreUnique(inputs: seq<Input>, trace: seq<TimestampedEvent>)
    requires DistinctIds(trace) && |inputs| <= |trace|
    requires forall i :: 0 <= i < |inputs| ==> inputs[i].tse == trace[i]
    ensures UniqueSubmissions(inputs)
  {
    if inputs != [] {
      var n := |inputs| - 1;
      DistinctIdsAreUnique(inputs[..n], trace);
      if inputs[n].tse.event.SubmitOrder? {
        NoneSubmits(inputs[..n], inputs[n].tse.event.order.id);
      }
    }
  }

  /**
    * In every simulation started with an idle engine, when no identifier is used twice by what was pending at the
    * start and what the strategies submitted, after any number of iterations the fills injected into the loop account
    * for each submitted quantity: it is filled, pending, or ended as `Accounted` says.
    */
  lemma SimulationConservesQuantity(cfg: LoopConfig, s: Sim, n: nat, id: nat)
    requires Sound(s) && s.pending == [] && s.history == []
    requires DistinctIds(s.queue + RunFor(cfg, s, n).born)
    ensures var r := RunFor(cfg, s, n);
            Accounted(Submitted(r.inputs, id), Cancelled(r.inputs, id), Find(r.final.pending, id),
                      TallyOf(Reports(r.born), id))
  {
    hide RunFor, Reports, Sound, DistinctIds;
    var r := RunFor(cfg, s, n);
    InjectedReportsAreLog(cfg, s, n);
    InputsAreTrace(cfg, s, n);
    TraceIdsDiffer(cfg, s, n);
    DistinctIdsAreUnique(r.inputs, r.trace);
    Conservation(cfg.exec, r.inputs, id);
  }

  /**
    * In every simulation from an idle engine, the injected report for the k-th order of the pass made at the j-th
    * processed event is its charge: own impact plus a transient within the pruning bound of all earlier trades of the
    * simulation and the earlier fills of the pass.
    */
  lemma SimulationCharges(cfg: LoopConfig, s: Sim, n: nat, j: nat, k: nat) returns (transient: real)
    requires Sound(s) && s.pending == [] && s.history == [] && IsDecay(cfg.exec.decay, cfg.exec.cutoff)
    requires j < |RunFor(cfg, s, n).inputs| && IsTrigger(RunFor(cfg, s, n).inputs[j].tse.event)
    requires k < |PassAt(cfg.exec, RunFor(cfg, s, n).inputs, j)|
    requires PassAt(cfg.exec, RunFor(cfg, s, n).inputs, j)[k].quantity > 0.0
    ensures var r := RunFor(cfg, s, n);
            var os, x := PassAt(cfg.exec, r.inputs, j), r.inputs[j];
            && ReportAt(cfg.exec, r.inputs, j, k) < |Reports(r.born)|
            && Reports(r.born)[ReportAt(cfg.exec, r.inputs, j, k)]
               == Charge(os[k], cfg.exec, x.tse.time, x.market, transient)
    ensures var r := RunFor(cfg, s, n);
            var os, x := PassAt(cfg.exec, r.inputs, j), r.inputs[j];
            var l := RecordAll(RunTrades(cfg.exec, r.inputs[..j]), cfg.exec.cutoff);
            var expected := Impact(l.all, cfg.exec.decay, x.tse.time) + BasesRecorded(os[..k], cfg.exec, x.market);
            var lost := TotalBase(l.dropped)
              + TotalBase(Dropped(RunEngine(cfg.exec, r.inputs[..j]).history, cfg.exec.cutoff, x.tse.time));
            expected - PRUNE_LEVEL * lost <= transient <= expected
  {
    hide RunFor, Reports, IsDecay, PassAt, ReportAt, Charge, RecordAll, RunTrades, Impact, BasesRecorded, TotalBase,
         Dropped, RunEngine, Sound;
    InjectedReportsAreLog(cfg, s, n);
    InputTimesIncrease(cfg, s, n);
    transient := EveryFillIsCharged(cfg.exec, RunFor(cfg, s, n).inputs, j, k);
  }

  lemma InputTimesIncrease(cfg: LoopConfig, s: Sim, n: nat)
    requires Sound(s)
    ensures var r := RunFor(cfg, s, n);
            && TimesIncrease(r.inputs) && (r.inputs != [] ==> r.trace != [])
            && (r.inputs != [] ==> r.inputs[|r.inputs| - 1].tse.time <= r.trace[|r.trace| - 1].time)
  {
    RunIsCausal(cfg, s, n);
    InputsAreTrace(cfg, s, n);
    hide RunFor;
    var r := RunFor(cfg, s, n);
    forall i, j | 0 <= i <= j < |r.inputs| ensures r.inputs[i].tse.time <= r.inputs[j].tse.time {
      assert i < j ==> Before(r.trace[i], r.trace[j]);
    }
    if r.inputs != [] && r.stopped {
      assert Before(r.trace[|r.inputs| - 1], r.trace[|r.trace| - 1]);
    }
  }

  /**
    * Causality gives the impact tracker the monotone times it asks for, so in every simulation, from its last event
    * on, the impact it reports is within the pruning bound of the sum over all trades of the run.
    */
  lemma SimulationPruningError(cfg: LoopConfig, s: Sim, n: nat, at: int)
    requires Sound(s) && s.pending == [] && s.history == [] && IsDecay(cfg.exec.decay, cfg.exec.cutoff)
    requires var r := RunFor(cfg, s, n); r.trace != [] ==> at >= r.trace[|r.trace| - 1].time
    ensures var r := RunFor(cfg, s, n);
            var l := RecordAll(RunTrades(cfg.exec, r.inputs), cfg.exec.cutoff);
            var lost := Impact(l.all, cfg.exec.decay, at) - Impact(r.final.history, cfg.exec.decay, at);
            0.0 <= lost <= PRUNE_LEVEL * TotalBase(l.dropped)
  {
    hide RunFor, IsDecay, Sound;
    var r := RunFor(cfg, s, n);
    InjectedReportsAreLog(cfg, s, n);
    InputTimesIncrease(cfg, s, n);
    hide RecordAll, RunTrades, TotalBase, Impact;
    RunPruningError(cfg.exec, r.inputs, at);
  }

  lemma StartsIdle(cfg: LoopConfig, s: Sim)
    requires s.pending == [] && s.history == []
    ensures SameEngine(cfg, s, [])
  {
  }

  // ----- Without SimulationEnd -----

  /** Every strategy answers every event with an order. */
  ghost predicate AlwaysTrades(strategies: seq<Strategy>) {
    forall i, seen :: 0 <= i < |strategies| ==> strategies[i](seen) != []
  }

  /**
    * The loop does not end by itself: without SimulationEnd, strategies that answer every event keep it going
    * forever.
    */
  lemma {:induction false} NeverHalts(cfg: LoopConfig, s: Sim, n: nat)
    requires AlwaysTrades(cfg.strategies) && cfg.strategies != [] && Sound(s) && s.queue != [] && !HasEnd(s.queue)
    ensures !Halts(cfg, s, n)
    decreases n
  {
    hide RunFor, Step;
    if n == 0 {
      RunEnds(cfg, s, n);
    } else {
      StepStaysBusy(cfg, s);
      StepIsSound(cfg, s);
      RunUnfolds(cfg, s, n);
      NeverHalts(cfg, Step(cfg, s), n - 1);
    }
  }

  lemma StepStaysBusy(cfg: LoopConfig, s: Sim)
    requires AlwaysTrades(cfg.strategies) && cfg.strategies != [] && s.queue != []
    ensures Step(cfg, s).queue != []
  {
  }

  /** A strategy that always wants to sell, and a queue that holds one tick. */
  const EAGER: Strategy := seen => [Order(0, "eager", Sell, 1.0, None)]

  lemma OneTickKeepsEagerBusy(exec: ExecConfig, m: Market, n: nat)
    ensures !Halts(LoopConfig(exec, [EAGER]), Sim([TimestampedEvent(0, 0, TimeTick(0))], 1, m, [], [], []), n)
  {
    var s := Sim([TimestampedEvent(0, 0, TimeTick(0))], 1, m, [], [], []);
    assert s.queue[1..] == [];
    NeverHalts(LoopConfig(exec, [EAGER]), s, n);
  }

  predicate IsInjected(ev: SimEvent) {
    ev.SubmitOrder? || IsReport(ev)
  }

  /** No strategy answers an event that the loop itself injects. */
  ghost predicate SilentOnInjected(strategies: seq<Strategy>) {
    forall i, seen: seq<Observation> :: 0 <= i < |strategies| && seen != [] && IsInjected(seen[|seen| - 1].event) ==>
      strategies[i](seen) == []
  }

  /** 0 for what only comes from outside, 1 for submissions, 2 for fill reports. */
  function Rank(ev: SimEvent): nat {
    if ev.SubmitOrder? then 1 else if IsReport(ev) then 2 else 0
  }

  function Ranked(q: seq<TimestampedEvent>, rank: nat): nat {
    if q == [] then 0 else (if Rank(q[0].event) == rank then 1 else 0) + Ranked(q[1..], rank)
  }

  lemma {:induction false} InsertRanked(q: seq<TimestampedEvent>, e: TimestampedEvent, rank: nat)
    ensures Ranked(Insert(q, e), rank) == Ranked(q, rank) + if Rank(e.event) == rank then 1 else 0
  {
    if q != [] && q[0].time <= e.time {
      InsertRanked(q[1..], e, rank);
      assert Insert(q, e)[1..] == Insert(q[1..], e);
    } else {
      assert Insert(q, e)[1..] == q;
    }
  }

  /** Scheduling what all has another rank changes no count. */
  lemma {:induction false} ScheduleRanked(q: seq<TimestampedEvent>, n: nat, items: seq<Emission>, rank: nat)
    requires forall i :: 0 <= i < |items| ==> Rank(items[i].event) != rank
    ensures Ranked(ScheduleAll(q, n, items), rank) == Ranked(q, rank)
  {
    if items != [] {
      var front, last := items[..|items| - 1], items[|items| - 1];
      ScheduleRanked(q, n, front, rank);
      InsertRanked(ScheduleAll(q, n, front), TimestampedEvent(last.time, n + |items| - 1, last.event), rank);
    }
  }

  lemma {:induction false} ReactSilently(strategies: seq<Strategy>, seen: seq<Observation>, now: int)
    requires SilentOnInjected(strategies) && seen != [] && IsInjected(seen[|seen| - 1].event)
    ensures React(strategies, seen, now) == []
  {
    if strategies != [] {
      ReactSilently(strategies[..|strategies| - 1], seen, now);
      assert strategies[|strategies| - 1](seen) == [];
    }
  }

  /** Whatever one iteration injects ranks above the event processed. */
  lemma EmittedRanksHigher(cfg: LoopConfig, s: Sim)
    requires SilentOnInjected(cfg.strategies) && s.queue != []
    ensures forall i :: 0 <= i < |Emitted(cfg, s)| ==> Rank(Emitted(cfg, s)[i].event) > Rank(s.queue[0].event)
  {
    var tse := s.queue[0];
    var m := MarketAfter(s.market, tse.event);
    var seen := s.seen + [Observation(tse.event, m)];
    HandleReports(s.pending, s.history, cfg.exec, tse, m);
    ReportsCauseNothing(s.pending, s.history, cfg.exec, tse, m);
    ReactSubmits(cfg.strategies, seen, tse.time);
    if IsInjected(tse.event) {
      ReactSilently(cfg.strategies, seen, tse.time);
    }
    hide HandleOutcome, React, MarketAfter, SilentOnInjected;
  }

  lemma ReportsCauseNothing(pending: seq<Order>, history: seq<TradeEvent>, cfg: ExecConfig, tse: TimestampedEvent,
                            m: Market)
    ensures IsReport(tse.event) ==> HandleOutcome(pending, history, cfg, tse, m).emitted == []
  {
  }

  /** Each iteration takes one event of its rank away and adds none of that rank or a lower one. */
  lemma StepLowersRank(cfg: LoopConfig, s: Sim, rank: nat)
    requires SilentOnInjected(cfg.strategies) && s.queue != [] && rank <= Rank(s.queue[0].event)
    ensures Ranked(Step(cfg, s).queue, rank)
         == Ranked(s.queue, rank) - if rank == Rank(s.queue[0].event) then 1 else 0
  {
    EmittedRanksHigher(cfg, s);
    hide Emitted, SilentOnInjected, HandleOutcome;
    ScheduleRanked(s.queue[1..], s.nextSeq, Emitted(cfg, s), rank);
  }

  /**
    * When no strategy answers what the loop injects, the loop ends without any SimulationEnd: events from outside, then
    * submissions, then reports run out.
    */
  lemma {:induction false} QuietStrategiesHalt(cfg: LoopConfig, s: Sim) returns (n: nat)
    requires SilentOnInjected(cfg.strategies)
    ensures Halts(cfg, s, n)
    decreases Ranked(s.queue, 0), Ranked(s.queue, 1), Ranked(s.queue, 2)
  {
    hide RunFor, Step, SilentOnInjected;
    if s.queue == [] || s.queue[0].event.SimulationEnd? {
      n := 1;
      RunEnds(cfg, s, n);
    } else {
      StepLowersRank(cfg, s, Rank(s.queue[0].event));
      StepLowersRank(cfg, s, 0);
      if Rank(s.queue[0].event) > 0 {
        StepLowersRank(cfg, s, 1);
      }
      n := QuietStrategiesHalt(cfg, Step(cfg, s));
      n := n + 1;
      RunUnfolds(cfg, s, n);
    }
  }

  // ----- The simulator -----

  lemma {:induction false} ScheduleAllAppend(q: seq<TimestampedEvent>, n: nat, a: seq<Emission>, b: seq<Emission>)
    ensures ScheduleAll(q, n, a + b) == ScheduleAll(ScheduleAll(q, n, a), n + |a|, b)
  {
    if b == [] {
      assert a + b == a;
    } else {
      assert (a + b)[..|a + b| - 1] == a + b[..|b| - 1];
      ScheduleAllAppend(q, n, a, b[..|b| - 1]);
    }
  }

  lemma EnqueueAdvances(q: seq<TimestampedEvent>, n: nat, items: seq<Emission>, i: nat)
    requires i < |items|
    ensures Insert(Enqueued(q, n, items[..i]), TimestampedEvent(items[i].time, n + i, items[i].event))
         == Enqueued(q, n, items[..i + 1])
  {
    assert items[..i + 1][..i] == items[..i];
  }

  /** What the first `i` strategies schedule. */
  function FirstEmissions(cfg: LoopConfig, i: nat, seen: seq<Observation>, now: int): seq<Emission>
    requires i <= |cfg.strategies|
  {
    React(cfg.strategies[..i], seen, now)
  }

  lemma FirstAndLast(cfg: LoopConfig, seen: seq<Observation>, now: int, q: seq<TimestampedEvent>, n: nat)
    ensures FirstEmissions(cfg, 0, seen, now) == [] && Enqueued(q, n, []) == q
    ensures FirstEmissions(cfg, |cfg.strategies|, seen, now) == StrategyEmissions(cfg, seen, now)
  {
    assert cfg.strategies[..|cfg.strategies|] == cfg.strategies;
  }

  /** Scheduling the orders of strategy `i` extends what the strategies before it scheduled. */
  lemma ReactAdvances(cfg: LoopConfig, i: nat, seen: seq<Observation>, now: int, q: seq<TimestampedEvent>, n: nat)
    requires i < |cfg.strategies|
    ensures var before := FirstEmissions(cfg, i, seen, now);
            var after := FirstEmissions(cfg, i + 1, seen, now);
            var submitted := Submissions(now, cfg.strategies[i](seen));
            && Enqueued(Enqueued(q, n, before), n + |before|, submitted) == Enqueued(q, n, after)
            && |before| + |submitted| == |after|
  {
    assert cfg.strategies[..i + 1][..i] == cfg.strategies[..i];
    ScheduleAllAppend(q, n, FirstEmissions(cfg, i, seen, now), Submissions(now, cfg.strategies[i](seen)));
  }

  lemma StepIs(cfg: LoopConfig, s: Sim)
    requires s.queue != []
    ensures var tse := s.queue[0];
            var m := MarketAfter(s.market, tse.event);
            var o := HandleOutcome(s.pending, s.history, cfg.exec, tse, m);
            var seen := s.seen + [Observation(tse.event, m)];
            var r := StrategyEmissions(cfg, seen, tse.time);
            Step(cfg, s) == Sim(Enqueued(Enqueued(s.queue[1..], s.nextSeq, o.emitted),
                                         s.nextSeq + |o.emitted|, r),
                                s.nextSeq + |o.emitted| + |r|, m, o.pending, o.history, seen)
  {
    hide React, HandleOutcome, ScheduleAll;
    var m := MarketAfter(s.market, s.queue[0].event);
    ScheduleAllAppend(s.queue[1..], s.nextSeq,
                      HandleOutcome(s.pending, s.history, cfg.exec, s.queue[0], m).emitted,
                      StrategyEmissions(cfg, s.seen + [Observation(s.queue[0].event, m)], s.queue[0].time));
  }

  class DesSimulator {
    const queue: EventQueue
    const market: MarketState
    const execution: ExecutionEngine
    const cfg: LoopConfig
    /** What the strategies have been shown. */
    var seen: seq<Observation>

    ghost predicate Wired() {
      execution.Valid() && execution.cfg == cfg.exec
    }

    constructor (queue: EventQueue, market: MarketState, execution: ExecutionEngine, cfg: LoopConfig)
      requires execution.Valid() && execution.cfg == cfg.exec
      ensures Wired() && this.queue == queue && this.market == market && this.execution == execution
      ensures seen == [] && this.cfg == cfg
    {
      this.queue, this.market, this.execution := queue, market, execution;
      this.seen, this.cfg := [], cfg;
    }

    /** Schedule every emission in turn. */
    method Inject(items: seq<Emission>)
      requires Holds(queue.heap, queue.pending, queue.nextSeq)
      modifies queue
      ensures Holds(queue.heap, queue.pending, queue.nextSeq)
      ensures queue.pending == Enqueued(old(queue.pending), old(queue.nextSeq), items)
      ensures queue.nextSeq == old(queue.nextSeq) + |items|
    {
      ghost var q, n := queue.pending, queue.nextSeq;
      assert items[..0] == [] && items[..|items|] == items && Enqueued(q, n, []) == q;
      hide *;
      for i := 0 to |items|
        invariant Holds(queue.heap, queue.pending, queue.nextSeq)
        invariant queue.pending == Enqueued(q, n, items[..i]) && queue.nextSeq == n + i
      {
        EnqueueAdvances(q, n, items, i);
        queue.Schedule(items[i].time, items[i].event);
      }
    }

    /** Show the event to every strategy in turn and schedule the orders it submits. */
    method NotifyStrategies(tse: TimestampedEvent, m: Market)
      requires Holds(queue.heap, queue.pending, queue.nextSeq)
      modifies queue, this`seen
      ensures Holds(queue.heap, queue.pending, queue.nextSeq)
      ensures seen == old(seen) + [Observation(tse.event, m)]
      ensures queue.pending == Enqueued(old(queue.pending), old(queue.nextSeq),
                                        StrategyEmissions(cfg, seen, tse.time))
      ensures queue.nextSeq == old(queue.nextSeq) + |StrategyEmissions(cfg, seen, tse.time)|
    {
      hide *;
      seen := seen + [Observation(tse.event, m)];
      ghost var q, seqNo := queue.pending, queue.nextSeq;
      FirstAndLast(cfg, seen, tse.time, q, seqNo);
      for i := 0 to |cfg.strategies|
        invariant Holds(queue.heap, queue.pending, queue.nextSeq) && seen == old(seen) + [Observation(tse.event, m)]
        invariant queue.pending == Enqueued(q, seqNo, FirstEmissions(cfg, i, seen, tse.time))
        invariant queue.nextSeq == seqNo + |FirstEmissions(cfg, i, seen, tse.time)|
      {
        ReactAdvances(cfg, i, seen, tse.time, q, seqNo);
        Inject(Submissions(tse.time, cfg.strategies[i](seen)));
      }
    }

    /** The market's and the execution engine's part of one iteration. */
    method UpdateAndFill(tse: TimestampedEvent) returns (m: Market)
      requires Wired() && Holds(queue.heap, queue.pending, queue.nextSeq)
      modifies queue, market, execution, execution.tracker
      ensures Holds(queue.heap, queue.pending, queue.nextSeq)
      ensures m == Market(market.price, market.volatility, market.step)
      ensures m == MarketAfter(old(Market(market.price, market.volatility, market.step)), tse.event)
      ensures var o := HandleOutcome(old(execution.pendingOrders), old(execution.tracker.history), cfg.exec, tse, m);
              && execution.pendingOrders == o.pending && execution.tracker.history == o.history
              && queue.pending == Enqueued(old(queue.pending), old(queue.nextSeq), o.emitted)
              && queue.nextSeq == old(queue.nextSeq) + |o.emitted|
    {
      hide HandleOutcome, MarketAfter;
      var marketEvents := market.Handle(tse);
      Inject(marketEvents);
      m := Market(market.price, market.volatility, market.step);
      var execEvents := execution.Handle(tse, m);
      Inject(execEvents);
    }

    /** One iteration of the loop, after `tse` was popped. */
    method Process(tse: TimestampedEvent, ghost s: Sim)
      requires Wired() && Holds(queue.heap, queue.pending, queue.nextSeq)
      requires s.queue != [] && tse == s.queue[0] && queue.pending == s.queue[1..]
      requires s == Sim(s.queue, queue.nextSeq, Market(market.price, market.volatility, market.step),
                        execution.pendingOrders, execution.tracker.history, seen)
      modifies this`seen, queue, market, execution, execution.tracker
      ensures Holds(queue.heap, queue.pending, queue.nextSeq)
      ensures Step(cfg, s) == Sim(queue.pending, queue.nextSeq, Market(market.price, market.volatility, market.step),
                                  execution.pendingOrders, execution.tracker.history, seen)
    {
      StepIs(cfg, s);
      hide *;
      var m := UpdateAndFill(tse);
      NotifyStrategies(tse, m);
    }

    /**
      * Run until SimulationEnd or until nothing is pending; returns the number of events processed. The run from the
      * state `s` must end, within some number `n` of iterations.
      */
    method Run(ghost s: Sim, ghost n: nat) returns (processed: nat)
      requires Wired() && Holds(queue.heap, queue.pending, queue.nextSeq) && Halts(cfg, s, n)
      requires s == Sim(queue.pending, queue.nextSeq, Market(market.price, market.volatility, market.step),
                        execution.pendingOrders, execution.tracker.history, seen)
      modifies this`seen, queue, market, execution, execution.tracker
      ensures Holds(queue.heap, queue.pending, queue.nextSeq)
      ensures processed == |TraceOf(cfg, s, n)|
      ensures FinalOf(cfg, s, n)
           == Sim(queue.pending, queue.nextSeq, Market(market.price, market.volatility, market.step),
                  execution.pendingOrders, execution.tracker.history, seen)
    {
      hide *;
      processed := 0;
      ghost var now, left := s, n;
      var tse := queue.Pop();
      while tse.Some? && !tse.value.event.SimulationEnd?
        invariant Holds(queue.heap, queue.pending, queue.nextSeq)
        invariant if tse.None? then now.queue == [] && queue.pending == []
                  else now.queue != [] && tse == Some(now.queue[0]) && queue.pending == now.queue[1..]
        invariant now == Sim(now.queue, queue.nextSeq, Market(market.price, market.volatility, market.step),
                             execution.pendingOrders, execution.tracker.history, seen)
        invariant Halts(cfg, now, left)
        invariant FinalOf(cfg, now, left) == FinalOf(cfg, s, n)
        invariant processed + |TraceOf(cfg, now, left)| == |TraceOf(cfg, s, n)|
        decreases left
      {
        RunAdvances(cfg, now, left);
        Process(tse.value, now);
        now, left := Step(cfg, now), left - 1;
        processed := processed + 1;
        tse := queue.Pop();
      }
      RunStops(cfg, now, left);
      if tse.Some? {
        processed := processed + 1;
      }
    }
  }

  lemma RunAdvances(cfg: LoopConfig, s: Sim, n: nat)
    requires Halts(cfg, s, n) && s.queue != [] && !s.queue[0].event.SimulationEnd?
    ensures n > 0 && Halts(cfg, Step(cfg, s), n - 1)
    ensures FinalOf(cfg, s, n) == FinalOf(cfg, Step(cfg, s), n - 1)
    ensures |TraceOf(cfg, s, n)| == 1 + |TraceOf(cfg, Step(cfg, s), n - 1)|
  {
  }

  lemma RunStops(cfg: LoopConfig, s: Sim, n: nat)
    requires Halts(cfg, s, n) && (s.queue == [] || s.queue[0].event.SimulationEnd?)
    ensures s.queue == [] ==> TraceOf(cfg, s, n) == [] && FinalOf(cfg, s, n) == s
    ensures s.queue != [] ==> TraceOf(cfg, s, n) == [s.queue[0]] && FinalOf(cfg, s, n) == s.(queue := s.queue[1..])
  {
  }
}
