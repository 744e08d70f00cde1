/** What the loop submits for the strategies: exactly the orders they answer with, and what becomes of them. */
module Answers {
  import opened Wrappers
  import opened SimEvents
  import opened Queue
  import opened Markets
  import opened Execution
  import opened ExecutionLaws
  import opened EventLoop

  /** An order and the time at which it is submitted. */
  datatype Wish = Wish(time: int, order: Order)

  /** The orders submitted among a list of events, in order. */
  function Submitting(events: seq<TimestampedEvent>): seq<Wish> {
    if events == [] then []
    else
      var front, e := Submitting(events[..|events| - 1]), events[|events| - 1];
      if e.event.SubmitOrder? then front + [Wish(e.time, e.event.order)] else front
  }

  /** What a strategy has seen once these inputs have been processed: each event and the market after it. */
  function Observed(inputs: seq<Input>): seq<Observation> {
    seq(|inputs|, i requires 0 <= i < |inputs| => Observation(inputs[i].tse.event, inputs[i].market))
  }

  /** The strategies' answers to what they have seen, one strategy after the other, as they are. */
  function Answered(strategies: seq<Strategy>, seen: seq<Observation>, time: int): seq<Wish> {
    if strategies == [] then []
    else
      var answer := strategies[0](seen);
      seq(|answer|, i requires 0 <= i < |answer| => Wish(time, answer[i])) + Answered(strategies[1..], seen, time)
  }

  /** All their answers over a run that they began having seen `before`, each a thousand ticks after its cause. */
  function Asked(strategies: seq<Strategy>, before: seq<Observation>, inputs: seq<Input>): seq<Wish> {
    if inputs == [] then []
    else
      Asked(strategies, before, inputs[..|inputs| - 1])
      + Answered(strategies, before + Observed(inputs), inputs[|inputs| - 1].tse.time + 1000)
  }

  // ----- One iteration -----

  lemma {:induction false} SubmittingAppend(a: seq<TimestampedEvent>, b: seq<TimestampedEvent>)
    ensures Submitting(a + b) == Submitting(a) + Submitting(b)
  {
    if b == [] {
      assert a + b == a;
    } else {
      var n := |b| - 1;
      SubmittingAppend(a, b[..n]);
      assert (a + b)[..|a + b| - 1] == a + b[..n];
    }
  }

  lemma {:induction false} ReportsSubmitNothing(items: seq<Emission>, n: nat)
    requires AllReports(items)
    ensures Submitting(Stamped(items, n)) == []
  {
    if items != [] {
      var front := items[..|items| - 1];
      ReportsSubmitNothing(front, n);
      assert Stamped(items, n)[..|items| - 1] == Stamped(front, n);
    }
  }

  lemma {:induction false} StampedOrders(orders: seq<Order>, now: int, n: nat)
    ensures Submitting(Stamped(Submissions(now, orders), n))
         == seq(|orders|, i requires 0 <= i < |orders| => Wish(now + 1000, orders[i]))
  {
    if orders != [] {
      var k := |orders| - 1;
      var all := Stamped(Submissions(now, orders), n);
      StampedOrders(orders[..k], now, n);
      assert all[..k] == Stamped(Submissions(now, orders[..k]), n);
      assert all[k] == TimestampedEvent(now + 1000, n + k, SubmitOrder(orders[k]));
    }
  }

  lemma {:induction false} AnsweredSnoc(strategies: seq<Strategy>, last: Strategy, seen: seq<Observation>, time: int)
    ensures Answered(strategies + [last], seen, time)
         == Answered(strategies, seen, time) + Answered([last], seen, time)
  {
    if strategies == [] {
      assert strategies + [last] == [last];
    } else {
      AnsweredSnoc(strategies[1..], last, seen, time);
      assert (strategies + [last])[1..] == strategies[1..] + [last];
    }
  }

  lemma AnsweredOne(s: Strategy, seen: seq<Observation>, time: int)
    ensures Answered([s], seen, time) == seq(|s(seen)|, i requires 0 <= i < |s(seen)| => Wish(time, s(seen)[i]))
  {
    assert [s][1..] == [];
  }

  /** The strategies' reactions submit their answers. */
  lemma {:induction false} ReactAnswers(strategies: seq<Strategy>, seen: seq<Observation>, now: int, n: nat)
    ensures Submitting(Stamped(React(strategies, seen, now), n)) == Answered(strategies, seen, now + 1000)
  {
    hide Stamped, Submitting, Submissions, Answered;
    if strategies == [] {
      NoAnswers(seen, now, n);
    } else {
      var k := |strategies| - 1;
      var front, last := React(strategies[..k], seen, now), Submissions(now, strategies[k](seen));
      ReactAnswers(strategies[..k], seen, now, n);
      StampedAppend(front, last, n);
      SubmittingAppend(Stamped(front, n), Stamped(last, n + |front|));
      StampedOrders(strategies[k](seen), now, n + |front|);
      AnsweredOne(strategies[k], seen, now + 1000);
      AnsweredSnoc(strategies[..k], strategies[k], seen, now + 1000);
      assert strategies[..k] + [strategies[k]] == strategies;
    }
  }

  lemma NoAnswers(seen: seq<Observation>, now: int, n: nat)
    ensures Submitting(Stamped([], n)) == Answered([], seen, now + 1000) == []
  {
  }

  lemma EmittedIs(cfg: LoopConfig, s: Sim)
    requires s.queue != []
    ensures var tse := s.queue[0];
            var m := MarketAfter(s.market, tse.event);
            Emitted(cfg, s) == HandleOutcome(s.pending, s.history, cfg.exec, tse, m).emitted
                               + React(cfg.strategies, s.seen + [Observation(tse.event, m)], tse.time)
  {
    hide HandleOutcome, React, MarketAfter;
  }

  /** Of what one iteration injects, the submissions are the strategies' answers. */
  lemma StepSubmits(cfg: LoopConfig, s: Sim)
    requires s.queue != []
    ensures var tse := s.queue[0];
            var seen := s.seen + [Observation(tse.event, MarketAfter(s.market, tse.event))];
            Submitting(Stamped(Emitted(cfg, s), s.nextSeq)) == Answered(cfg.strategies, seen, tse.time + 1000)
  {
    var tse := s.queue[0];
    var m := MarketAfter(s.market, tse.event);
    var seen := s.seen + [Observation(tse.event, m)];
    var a, b := HandleOutcome(s.pending, s.history, cfg.exec, tse, m).emitted, React(cfg.strategies, seen, tse.time);
    EmittedIs(cfg, s);
    hide HandleOutcome, React, MarketAfter, Stamped, Submitting, Answered, AllReports, Emitted;
    HandleReports(s.pending, s.history, cfg.exec, tse, m);
    ReportsSubmitNothing(a, s.nextSeq);
    ReactAnswers(cfg.strategies, seen, tse.time, s.nextSeq + |a|);
    StampedAppend(a, b, s.nextSeq);
    SubmittingAppend(Stamped(a, s.nextSeq), Stamped(b, s.nextSeq + |a|));
  }

  lemma {:induction false} AskedCons(strategies: seq<Strategy>, before: seq<Observation>, x: Input, rest: seq<Input>)
    ensures Asked(strategies, before, [x] + rest)
         == Answered(strategies, before + [Observation(x.tse.event, x.market)], x.tse.time + 1000)
            + Asked(strategies, before + [Observation(x.tse.event, x.market)], rest)
  {
    hide Answered;
    var o := Observation(x.tse.event, x.market);
    if rest == [] {
      assert [x] + rest == [x] && [x][..0] == [] && Observed([x]) == [o];
    } else {
      var n := |rest| - 1;
      AskedCons(strategies, before, x, rest[..n]);
      assert ([x] + rest)[..|rest|] == [x] + rest[..n];
      assert before + Observed([x] + rest) == before + [o] + Observed(rest);
    }
  }

  // ----- Whole runs -----

  /**
    * In every run the orders submitted are exactly, in order, what the strategies in their order answer to the
    * observations up to each processed event: the same orders, a thousand ticks after it, none dropped or added.
    */
  lemma {:induction false} RunSubmitsAnswers(cfg: LoopConfig, s: Sim, n: nat)
    ensures var r := RunFor(cfg, s, n);
            Submitting(r.born) == Asked(cfg.strategies, s.seen, r.inputs)
    decreases n
  {
    hide RunFor, Step, Emitted, Stamped, Submitting, Answered, Asked;
    if n == 0 || s.queue == [] || s.queue[0].event.SimulationEnd? {
      RunEnds(cfg, s, n);
      NothingAsked(cfg, s);
    } else {
      RunUnfolds(cfg, s, n);
      StepSubmits(cfg, s);
      var x := Input(s.queue[0], MarketAfter(s.market, s.queue[0].event));
      StepSeen(cfg, s);
      hide MarketAfter;
      RunSubmitsAnswers(cfg, Step(cfg, s), n - 1);
      var rest := RunFor(cfg, Step(cfg, s), n - 1);
      AskedCons(cfg.strategies, s.seen, x, rest.inputs);
      SubmittingAppend(Stamped(Emitted(cfg, s), s.nextSeq), rest.born);
    }
  }

  lemma NothingAsked(cfg: LoopConfig, s: Sim)
    ensures Submitting([]) == Asked(cfg.strategies, s.seen, []) == []
  {
  }

  lemma StepSeen(cfg: LoopConfig, s: Sim)
    requires s.queue != []
    ensures var e := s.queue[0].event;
            Step(cfg, s).seen == s.seen + [Observation(e, MarketAfter(s.market, e))]
  {
  }

  /** One iteration more extends what was injected, by the answers to the event it processes and by fill reports. */
  lemma {:induction false} RunGrows(cfg: LoopConfig, s: Sim, n: nat)
    ensures RunFor(cfg, s, n).inputs <= RunFor(cfg, s, n + 1).inputs
    ensures RunFor(cfg, s, n).born <= RunFor(cfg, s, n + 1).born
    ensures |RunFor(cfg, s, n).inputs| <= n && |RunFor(cfg, s, n + 1).inputs| <= |RunFor(cfg, s, n).inputs| + 1
    ensures |RunFor(cfg, s, n + 1).inputs| == n + 1 ==> |RunFor(cfg, s, n).inputs| == n
    decreases n
  {
    hide RunFor, Step, Emitted, Stamped, MarketAfter;
    RunEnds(cfg, s, n);
    RunEnds(cfg, s, n + 1);
    if s.queue != [] && !s.queue[0].event.SimulationEnd? {
      RunUnfolds(cfg, s, n + 1);
      if n > 0 {
        RunUnfolds(cfg, s, n);
        RunGrows(cfg, Step(cfg, s), n - 1);
      } else {
        RunEnds(cfg, Step(cfg, s), 0);
      }
    }
  }

  /**
    * Of what iteration `j` injects, the submissions are the answers to the observations up to the event it processes.
    */
  lemma IterationSubmitsAnswers(cfg: LoopConfig, s: Sim, j: nat)
    requires |RunFor(cfg, s, j + 1).inputs| == j + 1
    ensures var before, after := RunFor(cfg, s, j), RunFor(cfg, s, j + 1);
            && before.born <= after.born && before.inputs == after.inputs[..j]
            && Submitting(after.born[|before.born|..])
               == Answered(cfg.strategies, s.seen + Observed(after.inputs), after.inputs[j].tse.time + 1000)
  {
    hide RunFor, Submitting, Answered;
    RunGrows(cfg, s, j);
    RunSubmitsAnswers(cfg, s, j);
    RunSubmitsAnswers(cfg, s, j + 1);
    var before, after := RunFor(cfg, s, j), RunFor(cfg, s, j + 1);
    assert after.born == before.born + after.born[|before.born|..];
    SubmittingAppend(before.born, after.born[|before.born|..]);
    assert after.inputs[..j] == before.inputs;
    assert Asked(cfg.strategies, s.seen, after.inputs)
        == Asked(cfg.strategies, s.seen, before.inputs)
           + Answered(cfg.strategies, s.seen + Observed(after.inputs), after.inputs[j].tse.time + 1000);
    hide Asked;
    SameTail(Submitting(before.born), Submitting(after.born[|before.born|..]),
             Answered(cfg.strategies, s.seen + Observed(after.inputs), after.inputs[j].tse.time + 1000));
  }

  lemma SameTail(a: seq<Wish>, x: seq<Wish>, y: seq<Wish>)
    requires a + x == a + y
    ensures x == y
  {
    assert (a + x)[|a|..] == x && (a + y)[|a|..] == y;
  }

  /** Whatever the loop injects is a fill report or a submission. */
  lemma {:induction false} InjectedIsReportOrOrder(cfg: LoopConfig, s: Sim, n: nat)
    ensures forall i :: 0 <= i < |RunFor(cfg, s, n).born| ==> IsInjected(RunFor(cfg, s, n).born[i].event)
    decreases n
  {
    hide RunFor, Step, Emitted;
    if n == 0 || s.queue == [] || s.queue[0].event.SimulationEnd? {
      RunEnds(cfg, s, n);
    } else {
      RunUnfolds(cfg, s, n);
      InjectedIsReportOrOrder(cfg, Step(cfg, s), n - 1);
      EmittedIsInjected(cfg, s);
    }
  }

  lemma EmittedIsInjected(cfg: LoopConfig, s: Sim)
    requires s.queue != []
    ensures forall i :: 0 <= i < |Emitted(cfg, s)| ==> IsInjected(Emitted(cfg, s)[i].event)
  {
    var tse := s.queue[0];
    var m := MarketAfter(s.market, tse.event);
    HandleReports(s.pending, s.history, cfg.exec, tse, m);
    ReactSubmits(cfg.strategies, s.seen + [Observation(tse.event, m)], tse.time);
    hide HandleOutcome, React, MarketAfter;
  }

  // ----- What becomes of an answer -----

  lemma {:induction false} WishIsSubmitted(events: seq<TimestampedEvent>, k: nat) returns (i: nat)
    requires k < |Submitting(events)|
    ensures i < |events| && events[i].time == Submitting(events)[k].time
    ensures events[i].event == SubmitOrder(Submitting(events)[k].order)
  {
    var n := |events| - 1;
    if k < |Submitting(events[..n])| {
      i := WishIsSubmitted(events[..n], k);
    } else {
      i := n;
    }
  }

  lemma {:induction false} SubmittedOnce(inputs: seq<Input>, i: nat)
    requires UniqueSubmissions(inputs) && i < |inputs| && inputs[i].tse.event.SubmitOrder?
    ensures Submitted(inputs, inputs[i].tse.event.order.id) == Some(inputs[i].tse.event.order)
  {
    var n := |inputs| - 1;
    if i < n {
      SubmittedOnce(inputs[..n], i);
    }
  }

  lemma OnlyOneSubmits(all: seq<TimestampedEvent>, e: TimestampedEvent, d: TimestampedEvent)
    requires DistinctIds(all) && e in all && d in all && e.event.SubmitOrder? && d.event.SubmitOrder?
    requires e.event.order.id == d.event.order.id
    ensures e == d
  {
    var i :| 0 <= i < |all| && all[i] == e;
    var j :| 0 <= j < |all| && all[j] == d;
  }

  /** The order submitted under an identifier of an event pending or injected is that event's, once it is processed. */
  lemma SubmittedIfProcessed(cfg: LoopConfig, s: Sim, n: nat, e: TimestampedEvent)
    requires Sound(s) && DistinctIds(s.queue + RunFor(cfg, s, n).born)
    requires e in s.queue + RunFor(cfg, s, n).born && e.event.SubmitOrder?
    ensures var r := RunFor(cfg, s, n);
            Submitted(r.inputs, e.event.order.id) == if e in r.trace then Some(e.event.order) else None
  {
    hide RunFor, Sound, DistinctIds;
    var r, id := RunFor(cfg, s, n), e.event.order.id;
    InputsAreTrace(cfg, s, n);
    RunIsCausal(cfg, s, n);
    TraceIdsDiffer(cfg, s, n);
    DistinctIdsAreUnique(r.inputs, r.trace);
    if e in r.trace {
      var i :| 0 <= i < |r.trace| && r.trace[i] == e;
      SubmittedOnce(r.inputs, i);
    } else if Submitted(r.inputs, id) != None {
      NoneSubmits(r.inputs, id);
      var i :| 0 <= i < |r.inputs| && r.inputs[i].tse.event.SubmitOrder? && r.inputs[i].tse.event.order.id == id;
      RunConservesEvents(cfg, s, n);
      assert r.trace[i] in multiset(r.trace);
      assert r.trace[i] in multiset(s.queue) + multiset(r.born);
      OnlyOneSubmits(s.queue + r.born, e, r.trace[i]);
    }
  }

  /**
    * In every simulation from an idle engine in which no identifier is used twice, every order a strategy answers with
    * is submitted under its own event. Once that has been processed the injected fills account for the quantity the
    * strategy asked for; until then nothing is filled.
    */
  lemma AnswersAreAccounted(cfg: LoopConfig, s: Sim, n: nat, k: nat) returns (e: TimestampedEvent)
    requires Sound(s) && s.pending == [] && s.history == []
    requires DistinctIds(s.queue + RunFor(cfg, s, n).born)
    requires k < |Asked(cfg.strategies, s.seen, RunFor(cfg, s, n).inputs)|
    ensures var r := RunFor(cfg, s, n);
            var w := Asked(cfg.strategies, s.seen, r.inputs)[k];
            && e in r.born && e.time == w.time && e.event == SubmitOrder(w.order) && r.trace != []
            && (e in r.trace <==> !Before(r.trace[|r.trace| - 1], e))
            && Accounted(if e in r.trace then Some(w.order) else None, Cancelled(r.inputs, w.order.id),
                         Find(r.final.pending, w.order.id), TallyOf(Reports(r.born), w.order.id))
  {
    hide RunFor, Reports, Sound, DistinctIds, Asked, Submitting, Accounted;
    var r := RunFor(cfg, s, n);
    RunSubmitsAnswers(cfg, s, n);
    var i := WishIsSubmitted(r.born, k);
    e := r.born[i];
    NothingBornWithoutTime(cfg, s, n);
    ProcessedIffNotAfterLast(cfg, s, n, e);
    SubmittedIfProcessed(cfg, s, n, e);
    SimulationConservesQuantity(cfg, s, n, e.event.order.id);
  }

  lemma NothingBornWithoutTime(cfg: LoopConfig, s: Sim, n: nat)
    ensures n == 0 ==> RunFor(cfg, s, n).born == []
  {
  }
}
