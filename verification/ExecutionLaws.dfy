/** What holds over every run of the execution engine whose submissions carry distinct identifiers. */
module ExecutionLaws {
  import opened Wrappers
  import opened Arith
  import opened SimEvents
  import opened TransientImpact
  import opened Markets
  import opened Execution

  // ----- Runs -----

  datatype Input = Input(tse: TimestampedEvent, market: Market)

  datatype Run = Run(pending: seq<Order>, history: seq<TradeEvent>, log: seq<Emission>)

  function RunEngine(cfg: ExecConfig, inputs: seq<Input>): Run {
    if inputs == [] then Run([], [], [])
    else
      var r := RunEngine(cfg, inputs[..|inputs| - 1]);
      var x := inputs[|inputs| - 1];
      var o := HandleOutcome(r.pending, r.history, cfg, x.tse, x.market);
      Run(o.pending, o.history, r.log + o.emitted)
  }

  /** The order last submitted under an identifier. */
  function Submitted(inputs: seq<Input>, id: nat): Option<Order> {
    if inputs == [] then None
    else
      var ev := inputs[|inputs| - 1].tse.event;
      if ev.SubmitOrder? && ev.order.id == id then Some(ev.order) else Submitted(inputs[..|inputs| - 1], id)
  }

  /** Position of the last submission under an identifier, -1 when there is none. */
  function SubmissionIndex(inputs: seq<Input>, id: nat): (k: int)
    ensures -1 <= k < |inputs|
    ensures k == -1 <==> Submitted(inputs, id) == None
  {
    if inputs == [] then -1
    else
      var ev := inputs[|inputs| - 1].tse.event;
      if ev.SubmitOrder? && ev.order.id == id then |inputs| - 1 else SubmissionIndex(inputs[..|inputs| - 1], id)
  }

  predicate Cancelled(inputs: seq<Input>, id: nat) {
    inputs != [] &&
    var front := inputs[..|inputs| - 1];
    Cancelled(front, id) || (inputs[|inputs| - 1].tse.event == CancelOrder(id) && Submitted(front, id) != None)
  }

  /** No identifier is submitted twice. */
  predicate UniqueSubmissions(inputs: seq<Input>) {
    inputs != [] ==>
      && UniqueSubmissions(inputs[..|inputs| - 1])
      && var ev := inputs[|inputs| - 1].tse.event;
         (ev.SubmitOrder? ==> Submitted(inputs[..|inputs| - 1], ev.order.id) == None)
  }

  // ----- What one order has been told -----

  datatype Tally = Tally(filled: real, fills: nat, closings: nat)

  const NOTHING := Tally(0.0, 0, 0)

  function Count(t: Tally, ev: SimEvent, id: nat): Tally {
    match ev
    case OrderFilled(i, filled, _, _) =>
      if i == id then Tally(t.filled + filled, t.fills + 1, t.closings + 1) else t
    case PartialFill(i, filled, _, _) =>
      if i == id then Tally(t.filled + filled, t.fills + 1, t.closings) else t
    case _ => t
  }

  function TallyFrom(t: Tally, log: seq<Emission>, id: nat): Tally {
    if log == [] then t else Count(TallyFrom(t, log[..|log| - 1], id), log[|log| - 1].event, id)
  }

  function TallyOf(log: seq<Emission>, id: nat): Tally {
    TallyFrom(NOTHING, log, id)
  }

  lemma {:induction false} TallyAppend(t: Tally, a: seq<Emission>, b: seq<Emission>, id: nat)
    ensures TallyFrom(t, a + b, id) == TallyFrom(TallyFrom(t, a, id), b, id)
  {
    if b == [] {
      assert a + b == a;
    } else {
      assert (a + b)[..|a + b| - 1] == a + b[..|b| - 1];
      TallyAppend(t, a, b[..|b| - 1], id);
    }
  }

  // ----- Finding an order -----

  function Find(orders: seq<Order>, id: nat): Option<Order> {
    if orders == [] then None
    else if orders[|orders| - 1].id == id then Some(orders[|orders| - 1])
    else Find(orders[..|orders| - 1], id)
  }

  predicate Distinct(orders: seq<Order>) {
    orders != [] ==>
      Distinct(orders[..|orders| - 1]) && Find(orders[..|orders| - 1], orders[|orders| - 1].id) == None
  }

  lemma {:induction false} FindWithout(orders: seq<Order>, ids: seq<nat>, id: nat)
    ensures Find(Without(orders, ids), id) == if id in ids then None else Find(orders, id)
  {
    if orders != [] {
      FindWithout(orders[..|orders| - 1], ids, id);
    }
  }

  lemma {:induction false} WithoutDistinct(orders: seq<Order>, ids: seq<nat>)
    requires Distinct(orders)
    ensures Distinct(Without(orders, ids))
  {
    if orders != [] {
      WithoutDistinct(orders[..|orders| - 1], ids);
      FindWithout(orders[..|orders| - 1], ids, orders[|orders| - 1].id);
    }
  }

  // ----- One pass -----

  function FillOf(o: Order, cfg: ExecConfig): real {
    Min(o.quantity, cfg.maxFill)
  }

  /** Effect of one pass on the order found under `id`: filled once, by at most the limit, or dropped. */
  ghost predicate PassAccounts(found: Option<Order>, p: Pass, cfg: ExecConfig, id: nat) {
    match found
    case None =>
      Find(p.orders, id) == None && TallyOf(p.emitted, id) == NOTHING && id !in p.filledIds
    case Some(o) =>
      if o.quantity <= 0.0 then
        Find(p.orders, id) == Some(o) && TallyOf(p.emitted, id) == NOTHING && id in p.filledIds
      else
        var left := o.quantity - FillOf(o, cfg);
        && Find(p.orders, id) == Some(o.(quantity := left))
        && TallyOf(p.emitted, id) == Tally(FillOf(o, cfg), 1, if left <= DUST then 1 else 0)
        && (id in p.filledIds <==> left <= DUST)
  }

  /** What one order adds to the pass: its remainder, its report and, when it is done, its identifier. */
  lemma FillNextAdds(p: Pass, o: Order, cfg: ExecConfig, now: int, m: Market, id: nat)
    ensures var q := FillNext(p, o, cfg, now, m);
            var left := if o.quantity > 0.0 then o.quantity - FillOf(o, cfg) else o.quantity;
            && Find(q.orders, id) == (if o.id == id then Some(o.(quantity := left)) else Find(p.orders, id))
            && TallyOf(q.emitted, id)
               == (if o.id == id && o.quantity > 0.0 then Count(TallyOf(p.emitted, id),
                     if left <= DUST then OrderFilled(id, FillOf(o, cfg), 0.0, 0.0)
                     else PartialFill(id, FillOf(o, cfg), left, 0.0), id)
                   else TallyOf(p.emitted, id))
            && (id in q.filledIds <==> id in p.filledIds || (o.id == id && left <= DUST))
  {
    var q := FillNext(p, o, cfg, now, m);
    FindSnoc(p.orders, q.orders[|p.orders|], id);
    if o.quantity > 0.0 {
      TallySnoc(p.emitted, q.emitted[|p.emitted|], id);
    }
    hide BaseImpact, Impact, ExecPrice, Recorded, Find, TallyOf;
  }

  lemma FindSnoc(orders: seq<Order>, o: Order, id: nat)
    ensures Find(orders + [o], id) == if o.id == id then Some(o) else Find(orders, id)
  {
    assert (orders + [o])[..|orders|] == orders;
  }

  lemma TallySnoc(log: seq<Emission>, e: Emission, id: nat)
    ensures TallyOf(log + [e], id) == Count(TallyOf(log, id), e.event, id)
  {
    assert (log + [e])[..|log|] == log;
  }

  lemma FillNextAccounts(p: Pass, o: Order, cfg: ExecConfig, now: int, m: Market, found: Option<Order>, id: nat)
    requires PassAccounts(found, p, cfg, id) && (o.id == id ==> found == None)
    ensures PassAccounts(if o.id == id then Some(o) else found, FillNext(p, o, cfg, now, m), cfg, id)
  {
    hide FillNext, Find, TallyOf, FillOf;
    FillNextAdds(p, o, cfg, now, m, id);
  }

  lemma {:induction false} PassAccount(orders: seq<Order>, history: seq<TradeEvent>, cfg: ExecConfig, now: int,
                                       m: Market, id: nat)
    requires Distinct(orders)
    ensures PassAccounts(Find(orders, id), FillPass(orders, history, cfg, now, m), cfg, id)
  {
    if orders != [] {
      PassAccount(orders[..|orders| - 1], history, cfg, now, m, id);
      hide FillNext, PassAccounts;
      FillNextAccounts(FillPass(orders[..|orders| - 1], history, cfg, now, m), orders[|orders| - 1], cfg, now, m,
                       Find(orders[..|orders| - 1], id), id);
    }
  }

  /** A pass changes quantities only. */
  lemma {:induction false} PassKeepsOrder(orders: seq<Order>, history: seq<TradeEvent>,
                                          cfg: ExecConfig, now: int, m: Market)
    ensures var p := FillPass(orders, history, cfg, now, m);
            |p.orders| == |orders| && forall i :: 0 <= i < |orders| ==> p.orders[i].id == orders[i].id
  {
    if orders != [] {
      PassKeepsOrder(orders[..|orders| - 1], history, cfg, now, m);
      hide BaseImpact, Impact, ExecPrice, Recorded;
    }
  }

  lemma {:induction false} SameIdsDistinct(a: seq<Order>, b: seq<Order>, id: nat)
    requires |a| == |b| && forall i :: 0 <= i < |a| ==> a[i].id == b[i].id
    ensures Find(a, id) == None <==> Find(b, id) == None
    ensures Distinct(a) <==> Distinct(b)
  {
    if a != [] {
      SameIdsDistinct(a[..|a| - 1], b[..|b| - 1], id);
      SameIdsDistinct(a[..|a| - 1], b[..|b| - 1], a[|a| - 1].id);
    }
  }

  // ----- Conservation -----

  /**
    * Every unit submitted is filled, still pending, or accounted for by the way the order ended: filled to
    * within 1e-10, cancelled with more than that unfilled, or never positive.
    */
  predicate Accounted(submitted: Option<Order>, cancelled: bool, found: Option<Order>, t: Tally) {
    match submitted
    case None => found == None && t == NOTHING
    case Some(o) =>
      match found
      case Some(left) =>
        left == o.(quantity := o.quantity - t.filled) && t.closings == 0 && left.quantity > 0.0000000001
      case None =>
        if t.closings == 0 then
          (cancelled && o.quantity - t.filled > 0.0000000001) || (o.quantity <= 0.0 && t == NOTHING)
        else t.closings == 1 && 0.0 <= o.quantity - t.filled <= 0.0000000001
  }

  /** What one pass does to an order and to its tally. */
  predicate PassEffect(cfg: ExecConfig, found: Option<Order>, t: Tally, found': Option<Order>, t': Tally) {
    match found
    case None => found' == None && t' == t
    case Some(x) =>
      if x.quantity <= 0.0 then found' == None && t' == t
      else
        var left := x.quantity - FillOf(x, cfg);
        && t'.filled == t.filled + FillOf(x, cfg) && t'.fills == t.fills + 1
        && (left <= DUST ==> t'.closings == t.closings + 1 && found' == None)
        && (left > DUST ==> t'.closings == t.closings && found' == Some(x.(quantity := left)))
  }

  lemma PassKeepsAccounts(cfg: ExecConfig, submitted: Option<Order>, cancelled: bool,
                          found: Option<Order>, t: Tally, found': Option<Order>, t': Tally)
    requires PassEffect(cfg, found, t, found', t')
    requires Accounted(submitted, cancelled, found, t) || (submitted != None && found == submitted && t == NOTHING)
    ensures Accounted(submitted, cancelled, found', t')
  {
  }

  lemma EffectOfPass(p: Pass, found: Option<Order>, cfg: ExecConfig, log: seq<Emission>, id: nat)
    requires PassAccounts(found, p, cfg, id)
    ensures PassEffect(cfg, found, TallyOf(log, id), Find(Without(p.orders, p.filledIds), id),
                       TallyOf(log + p.emitted, id))
  {
    FindWithout(p.orders, p.filledIds, id);
    TallyAppend(NOTHING, log, p.emitted, id);
    TallyShift(TallyOf(log, id), p.emitted, id);
    hide Find, Without, TallyFrom;
  }

  lemma {:induction false} TallyShift(t: Tally, log: seq<Emission>, id: nat)
    ensures var d := TallyOf(log, id);
            TallyFrom(t, log, id) == Tally(t.filled + d.filled, t.fills + d.fills, t.closings + d.closings)
  {
    if log != [] {
      TallyShift(t, log[..|log| - 1], id);
    }
  }

  lemma FillAccounts(orders: seq<Order>, history: seq<TradeEvent>, cfg: ExecConfig, now: int, m: Market,
                     log: seq<Emission>, id: nat)
    requires Distinct(orders)
    ensures var o := TryFillOutcome(orders, history, cfg, now, m);
            && Distinct(o.pending)
            && PassEffect(cfg, Find(orders, id), TallyOf(log, id), Find(o.pending, id), TallyOf(log + o.emitted, id))
  {
    var p := FillPass(orders, history, cfg, now, m);
    PassAccount(orders, history, cfg, now, m, id);
    EffectOfPass(p, Find(orders, id), cfg, log, id);
    PassKeepsOrder(orders, history, cfg, now, m);
    hide FillPass, PassEffect, PassAccounts, TallyOf;
    SameIdsDistinct(orders, p.orders, id);
    WithoutDistinct(p.orders, p.filledIds);
  }

  predicate IsTrigger(ev: SimEvent) {
    ev.SubmitOrder? || ev.TimeTick? || ev.PriceUpdate?
  }

  /** The orders the engine passes over when it handles an event. */
  function PassedOver(pending: seq<Order>, ev: SimEvent): seq<Order> {
    if ev.SubmitOrder? then pending + [ev.order] else pending
  }

  /** Conservation for every identifier, over every run. */
  lemma {:induction false} Conservation(cfg: ExecConfig, inputs: seq<Input>, id: nat)
    requires UniqueSubmissions(inputs)
    ensures var r := RunEngine(cfg, inputs);
            Accounted(Submitted(inputs, id), Cancelled(inputs, id), Find(r.pending, id), TallyOf(r.log, id))
    ensures Distinct(RunEngine(cfg, inputs).pending)
  {
    if inputs != [] {
      var front := inputs[..|inputs| - 1];
      var x := inputs[|inputs| - 1];
      Conservation(cfg, front, id);
      if IsTrigger(x.tse.event) {
        if x.tse.event.SubmitOrder? {
          Conservation(cfg, front, x.tse.event.order.id);
          assert PassedOver(RunEngine(cfg, front).pending, x.tse.event)[..|RunEngine(cfg, front).pending|]
              == RunEngine(cfg, front).pending;
        }
        TriggerConserves(cfg, inputs, id);
      } else {
        OtherConserves(cfg, inputs, id);
      }
    }
  }

  ghost predicate Conserved(cfg: ExecConfig, inputs: seq<Input>, id: nat) {
    var r := RunEngine(cfg, inputs);
    && Accounted(Submitted(inputs, id), Cancelled(inputs, id), Find(r.pending, id), TallyOf(r.log, id))
    && Distinct(r.pending)
  }

  lemma TriggerConserves(cfg: ExecConfig, inputs: seq<Input>, id: nat)
    requires UniqueSubmissions(inputs) && inputs != [] && IsTrigger(inputs[|inputs| - 1].tse.event)
    requires Conserved(cfg, inputs[..|inputs| - 1], id)
    requires Distinct(PassedOver(RunEngine(cfg, inputs[..|inputs| - 1]).pending, inputs[|inputs| - 1].tse.event))
    ensures Conserved(cfg, inputs, id)
  {
    hide TryFillOutcome, PassEffect, Accounted, Distinct, TallyOf;
    var front := inputs[..|inputs| - 1];
    var x := inputs[|inputs| - 1];
    var r := RunEngine(cfg, front);
    var orders := PassedOver(r.pending, x.tse.event);
    var o := TryFillOutcome(orders, r.history, cfg, x.tse.time, x.market);
    assert RunEngine(cfg, inputs) == Run(o.pending, o.history, r.log + o.emitted);
    FillAccounts(orders, r.history, cfg, x.tse.time, x.market, r.log, id);
    SubmissionStarts(cfg, inputs, id);
    PassKeepsAccounts(cfg, Submitted(inputs, id), Cancelled(inputs, id), Find(orders, id), TallyOf(r.log, id),
                      Find(o.pending, id), TallyOf(r.log + o.emitted, id));
  }

  /** Just before a pass the accounts hold, or the order under `id` is the one being submitted. */
  lemma SubmissionStarts(cfg: ExecConfig, inputs: seq<Input>, id: nat)
    requires UniqueSubmissions(inputs) && inputs != [] && IsTrigger(inputs[|inputs| - 1].tse.event)
    requires Conserved(cfg, inputs[..|inputs| - 1], id)
    ensures var r := RunEngine(cfg, inputs[..|inputs| - 1]);
            var found := Find(PassedOver(r.pending, inputs[|inputs| - 1].tse.event), id);
            var submitted := Submitted(inputs, id);
            || Accounted(submitted, Cancelled(inputs, id), found, TallyOf(r.log, id))
            || (submitted != None && found == submitted && TallyOf(r.log, id) == NOTHING)
  {
  }

  lemma OtherConserves(cfg: ExecConfig, inputs: seq<Input>, id: nat)
    requires inputs != [] && !IsTrigger(inputs[|inputs| - 1].tse.event)
    requires Conserved(cfg, inputs[..|inputs| - 1], id)
    ensures Conserved(cfg, inputs, id)
  {
    var r := RunEngine(cfg, inputs[..|inputs| - 1]);
    var ev := inputs[|inputs| - 1].tse.event;
    assert r.log + [] == r.log;
    hide TryFillOutcome, TallyOf, Without, Find, Distinct;
    if ev.CancelOrder? {
      FindWithout(r.pending, [ev.orderId], id);
      WithoutDistinct(r.pending, [ev.orderId]);
    }
  }

  // ----- After the end of an order -----

  /** Nothing is emitted for an order that has left the pending list, whatever comes later. */
  lemma {:induction false} SilentAfterEnd(cfg: ExecConfig, inputs: seq<Input>, n: nat, id: nat)
    requires UniqueSubmissions(inputs) && n <= |inputs|
    requires Submitted(inputs[..n], id) != None && Find(RunEngine(cfg, inputs[..n]).pending, id) == None
    ensures Submitted(inputs, id) != None
    ensures Find(RunEngine(cfg, inputs).pending, id) == None
    ensures TallyOf(RunEngine(cfg, inputs).log, id) == TallyOf(RunEngine(cfg, inputs[..n]).log, id)
    decreases |inputs|
  {
    if n == |inputs| {
      assert inputs[..n] == inputs;
    } else {
      var front := inputs[..|inputs| - 1];
      assert front[..n] == inputs[..n];
      SilentAfterEnd(cfg, front, n, id);
      Conservation(cfg, front, id);
      EndedStaysSilent(cfg, inputs, id);
    }
  }

  lemma EndedStaysSilent(cfg: ExecConfig, inputs: seq<Input>, id: nat)
    requires UniqueSubmissions(inputs) && inputs != []
    requires var r := RunEngine(cfg, inputs[..|inputs| - 1]);
             Submitted(inputs[..|inputs| - 1], id) != None && Find(r.pending, id) == None && Distinct(r.pending)
    ensures var r := RunEngine(cfg, inputs[..|inputs| - 1]);
            && Find(RunEngine(cfg, inputs).pending, id) == None
            && TallyOf(RunEngine(cfg, inputs).log, id) == TallyOf(r.log, id)
            && Submitted(inputs, id) != None
  {
    hide TryFillOutcome, TallyOf;
    var front := inputs[..|inputs| - 1];
    var x := inputs[|inputs| - 1];
    var r := RunEngine(cfg, front);
    var ev := x.tse.event;
    if IsTrigger(ev) {
      var orders := PassedOver(r.pending, ev);
      var o := TryFillOutcome(orders, r.history, cfg, x.tse.time, x.market);
      assert RunEngine(cfg, inputs) == Run(o.pending, o.history, r.log + o.emitted);
      FreshIsDistinct(cfg, inputs);
      if ev.SubmitOrder? {
        assert orders[..|r.pending|] == r.pending;
      }
      FillAccounts(orders, r.history, cfg, x.tse.time, x.market, r.log, id);
    } else {
      assert r.log + [] == r.log;
      if ev.CancelOrder? {
        FindWithout(r.pending, [ev.orderId], id);
      }
    }
  }

  lemma FreshIsDistinct(cfg: ExecConfig, inputs: seq<Input>)
    requires UniqueSubmissions(inputs) && inputs != []
    ensures Distinct(PassedOver(RunEngine(cfg, inputs[..|inputs| - 1]).pending, inputs[|inputs| - 1].tse.event))
  {
    hide RunEngine;
    var front := inputs[..|inputs| - 1];
    var ev := inputs[|inputs| - 1].tse.event;
    var pending := RunEngine(cfg, front).pending;
    if ev.SubmitOrder? {
      Conservation(cfg, front, ev.order.id);
      assert (pending + [ev.order])[..|pending|] == pending;
    } else {
      Conservation(cfg, front, 0);
    }
  }

  /** An OrderFilled report is final and unique, and so is a cancellation. */
  lemma ClosedOnce(cfg: ExecConfig, inputs: seq<Input>, n: nat, id: nat)
    requires UniqueSubmissions(inputs) && n <= |inputs|
    requires Submitted(inputs[..n], id) != None
    requires TallyOf(RunEngine(cfg, inputs[..n]).log, id).closings > 0
             || (n > 0 && inputs[n - 1].tse.event == CancelOrder(id))
    ensures TallyOf(RunEngine(cfg, inputs).log, id) == TallyOf(RunEngine(cfg, inputs[..n]).log, id)
    ensures TallyOf(RunEngine(cfg, inputs).log, id).closings <= 1
  {
    UniquePrefix(inputs, n);
    Conservation(cfg, inputs[..n], id);
    if n > 0 && inputs[n - 1].tse.event == CancelOrder(id) {
      assert inputs[..n][n - 1] == inputs[n - 1];
      FindWithout(RunEngine(cfg, inputs[..n][..n - 1]).pending, [id], id);
    }
    SilentAfterEnd(cfg, inputs, n, id);
  }

  lemma {:induction false} UniquePrefix(inputs: seq<Input>, n: nat)
    requires UniqueSubmissions(inputs) && n <= |inputs|
    ensures UniqueSubmissions(inputs[..n])
    decreases |inputs|
  {
    if n == |inputs| {
      assert inputs[..n] == inputs;
    } else {
      assert inputs[..|inputs| - 1][..n] == inputs[..n];
      UniquePrefix(inputs[..|inputs| - 1], n);
    }
  }

  // ----- Size of fills -----

  ghost predicate FillsAtMost(log: seq<Emission>, limit: real) {
    forall i :: 0 <= i < |log| ==>
      (log[i].event.OrderFilled? || log[i].event.PartialFill?) && log[i].event.filled <= limit
  }

  lemma {:induction false} PassFillsAtMost(orders: seq<Order>, history: seq<TradeEvent>,
                                           cfg: ExecConfig, now: int, m: Market)
    ensures FillsAtMost(FillPass(orders, history, cfg, now, m).emitted, cfg.maxFill)
  {
    if orders != [] {
      PassFillsAtMost(orders[..|orders| - 1], history, cfg, now, m);
      hide BaseImpact, Impact, ExecPrice, Recorded;
    }
  }

  lemma {:induction false} FillsNeverExceedLimit(cfg: ExecConfig, inputs: seq<Input>)
    ensures FillsAtMost(RunEngine(cfg, inputs).log, cfg.maxFill)
  {
    if inputs != [] {
      FillsNeverExceedLimit(cfg, inputs[..|inputs| - 1]);
      var r := RunEngine(cfg, inputs[..|inputs| - 1]);
      var x := inputs[|inputs| - 1];
      hide FillPass, Without, Impact, BaseImpact;
      PassFillsAtMost(PassedOver(r.pending, x.tse.event), r.history, cfg, x.tse.time, x.market);
    }
  }

  // ----- Submission order -----

  /** The listed orders appear in the order in which they were submitted. */
  ghost predicate InSubmissionOrder(orders: seq<Order>, inputs: seq<Input>) {
    forall i, j :: 0 <= i < j < |orders| ==>
      SubmissionIndex(inputs, orders[i].id) < SubmissionIndex(inputs, orders[j].id)
  }

  lemma {:induction false} WithoutMembers(orders: seq<Order>, ids: seq<nat>, o: Order)
    requires o in Without(orders, ids)
    ensures o in orders
  {
    var front := orders[..|orders| - 1];
    if o in Without(front, ids) {
      WithoutMembers(front, ids, o);
    }
  }

  lemma {:induction false} WithoutInOrder(orders: seq<Order>, ids: seq<nat>, inputs: seq<Input>)
    requires InSubmissionOrder(orders, inputs)
    ensures InSubmissionOrder(Without(orders, ids), inputs)
  {
    if orders != [] {
      var front := orders[..|orders| - 1];
      WithoutInOrder(front, ids, inputs);
      var kept := Without(front, ids);
      forall i | 0 <= i < |kept|
        ensures SubmissionIndex(inputs, kept[i].id) < SubmissionIndex(inputs, orders[|orders| - 1].id)
      {
        WithoutMembers(front, ids, kept[i]);
        var k :| 0 <= k < |front| && front[k] == kept[i];
      }
    }
  }

  lemma {:induction false} FindMember(orders: seq<Order>, o: Order)
    requires o in orders
    ensures Find(orders, o.id) != None
  {
    if orders[|orders| - 1].id != o.id {
      FindMember(orders[..|orders| - 1], o);
    }
  }

  lemma OrderSurvivesExtension(cfg: ExecConfig, inputs: seq<Input>)
    requires UniqueSubmissions(inputs) && inputs != []
    requires InSubmissionOrder(RunEngine(cfg, inputs[..|inputs| - 1]).pending, inputs[..|inputs| - 1])
    ensures InSubmissionOrder(PassedOver(RunEngine(cfg, inputs[..|inputs| - 1]).pending,
                                         inputs[|inputs| - 1].tse.event), inputs)
  {
    var front := inputs[..|inputs| - 1];
    var pending := RunEngine(cfg, front).pending;
    var ev := inputs[|inputs| - 1].tse.event;
    hide RunEngine;
    forall i | 0 <= i < |pending|
      ensures SubmissionIndex(inputs, pending[i].id) == SubmissionIndex(front, pending[i].id)
    {
      FindMember(pending, pending[i]);
      Conservation(cfg, front, pending[i].id);
    }
  }

  /** Pending orders keep the order of their submissions over every run. */
  lemma {:induction false} PendingIsFifo(cfg: ExecConfig, inputs: seq<Input>)
    requires UniqueSubmissions(inputs)
    ensures InSubmissionOrder(RunEngine(cfg, inputs).pending, inputs)
  {
    if inputs != [] {
      var x := inputs[|inputs| - 1];
      var r := RunEngine(cfg, inputs[..|inputs| - 1]);
      PendingIsFifo(cfg, inputs[..|inputs| - 1]);
      OrderSurvivesExtension(cfg, inputs);
      hide FillPass, Without, UniqueSubmissions, InSubmissionOrder;
      var orders := PassedOver(r.pending, x.tse.event);
      if IsTrigger(x.tse.event) {
        PassInOrder(orders, r.history, cfg, x.tse.time, x.market, inputs);
      } else if x.tse.event.CancelOrder? {
        WithoutInOrder(r.pending, [x.tse.event.orderId], inputs);
      }
    }
  }

  lemma PassInOrder(orders: seq<Order>, history: seq<TradeEvent>, cfg: ExecConfig, now: int,
                    m: Market, inputs: seq<Input>)
    requires InSubmissionOrder(orders, inputs)
    ensures InSubmissionOrder(TryFillOutcome(orders, history, cfg, now, m).pending, inputs)
  {
    PassKeepsOrder(orders, history, cfg, now, m);
    hide FillPass, Without, SubmissionIndex;
    var p := FillPass(orders, history, cfg, now, m);
    WithoutInOrder(p.orders, p.filledIds, inputs);
  }

  // ----- What a fill is charged -----

  /** Total base impact recorded by a pass over `orders`. */
  function BasesRecorded(orders: seq<Order>, cfg: ExecConfig, m: Market): real {
    if orders == [] then 0.0
    else
      var o := orders[|orders| - 1];
      BasesRecorded(orders[..|orders| - 1], cfg, m)
      + (if o.quantity <= 0.0 then 0.0 else Max(0.0, BaseImpact(cfg, FillOf(o, cfg), m.volatility)))
  }

  /** The history during a pass: untouched, or the start pruned once at `now` plus trades at `now`. */
  ghost predicate PassHistory(start: seq<TradeEvent>, h: seq<TradeEvent>, cfg: ExecConfig, now: int, bases: real) {
    if bases == 0.0 then h == start
    else
      && bases > 0.0
      && Retained(h, cfg.cutoff, now) == h
      && Impact(h, cfg.decay, now) == Impact(Retained(start, cfg.cutoff, now), cfg.decay, now) + bases
  }

  lemma {:induction false} RetainedTwice(h: seq<TradeEvent>, cutoff: int, now: int)
    ensures Retained(Retained(h, cutoff, now), cutoff, now) == Retained(h, cutoff, now)
  {
    if h != [] {
      var front := Retained(h[..|h| - 1], cutoff, now);
      RetainedTwice(h[..|h| - 1], cutoff, now);
      assert (front + [h[|h| - 1]])[..|front|] == front;
    }
  }

  lemma RecordAtNow(start: seq<TradeEvent>, h: seq<TradeEvent>, cfg: ExecConfig, now: int, bases: real, base: real)
    requires PassHistory(start, h, cfg, now, bases) && cfg.decay(0) == 1.0 && cfg.cutoff > 0
    ensures PassHistory(start, Recorded(h, cfg.cutoff, now, base), cfg, now, bases + Max(0.0, base))
  {
    if base > 0.0 {
      var e := TradeEvent(now, base);
      assert (h + [e])[..|h|] == h;
      RetainedTwice(h, cfg.cutoff, now);
      var kept := Retained(h, cfg.cutoff, now);
      assert (kept + [e])[..|kept|] == kept;
      ImpactSnoc(kept, e, cfg.decay, now);
      assert Elapsed(now, e) == 0;
    }
  }

  lemma {:induction false} PassHistoryIs(orders: seq<Order>, start: seq<TradeEvent>,
                                         cfg: ExecConfig, now: int, m: Market)
    requires cfg.decay(0) == 1.0 && cfg.cutoff > 0
    ensures PassHistory(start, FillPass(orders, start, cfg, now, m).history, cfg, now, BasesRecorded(orders, cfg, m))
  {
    if orders != [] {
      var front := orders[..|orders| - 1];
      var o := orders[|orders| - 1];
      var h := FillPass(front, start, cfg, now, m).history;
      PassHistoryIs(front, start, cfg, now, m);
      hide PassHistory, Recorded, BaseImpact, Impact;
      if o.quantity > 0.0 {
        RecordAtNow(start, h, cfg, now, BasesRecorded(front, cfg, m), BaseImpact(cfg, FillOf(o, cfg), m.volatility));
      }
    }
  }

  /** The report of a fill that is charged its own impact plus `transient`. */
  function Charge(o: Order, cfg: ExecConfig, now: int, m: Market, transient: real): Emission {
    var impact := BaseImpact(cfg, FillOf(o, cfg), m.volatility) + transient;
    var price := ExecPrice(o.side, m.price, impact);
    var left := o.quantity - FillOf(o, cfg);
    Emission(now + 1, if left <= DUST then OrderFilled(o.id, FillOf(o, cfg), price, impact)
                      else PartialFill(o.id, FillOf(o, cfg), left, price))
  }

  lemma LastEmission(front: seq<Order>, o: Order, start: seq<TradeEvent>, cfg: ExecConfig, now: int, m: Market)
    requires o.quantity > 0.0
    ensures var p := FillPass(front + [o], start, cfg, now, m);
            var transient := Impact(FillPass(front, start, cfg, now, m).history, cfg.decay, now);
            p.emitted != [] && p.emitted[|p.emitted| - 1] == Charge(o, cfg, now, m, transient)
  {
    assert (front + [o])[..|front|] == front;
    hide Impact, BaseImpact, ExecPrice, Recorded;
  }

  ghost predicate AllPositive(history: seq<TradeEvent>) {
    forall i :: 0 <= i < |history| ==> history[i].baseImpact > 0.0
  }

  lemma {:induction false} RetainedPositive(history: seq<TradeEvent>, cutoff: int, now: int)
    requires AllPositive(history)
    ensures AllPositive(Retained(history, cutoff, now))
  {
    if history != [] {
      RetainedPositive(history[..|history| - 1], cutoff, now);
    }
  }

  lemma {:induction false} PassPositive(orders: seq<Order>, history: seq<TradeEvent>,
                                        cfg: ExecConfig, now: int, m: Market)
    requires AllPositive(history)
    ensures AllPositive(FillPass(orders, history, cfg, now, m).history)
  {
    hide Impact, ExecPrice, BaseImpact, Retained;
    if orders == [] {
    } else {
      var n := |orders| - 1;
      PassPositive(orders[..n], history, cfg, now, m);
      var h := FillPass(orders[..n], history, cfg, now, m).history;
      var base := BaseImpact(cfg, FillOf(orders[n], cfg), m.volatility);
      if base > 0.0 {
        RetainedPositive(h + [TradeEvent(now, base)], cfg.cutoff, now);
      }
    }
  }

  lemma {:induction false} ImpactIsNonNegative(history: seq<TradeEvent>, decay: int -> real, now: int)
    requires AllPositive(history) && forall d: nat :: decay(d) > 0.0
    ensures Impact(history, decay, now) >= 0.0
  {
    if history != [] {
      ImpactIsNonNegative(history[..|history| - 1], decay, now);
      LingeringIsPositive(history[|history| - 1], decay, now);
    }
  }

  lemma LingeringIsPositive(e: TradeEvent, decay: int -> real, now: int)
    requires e.baseImpact > 0.0 && decay(Elapsed(now, e)) > 0.0
    ensures Lingering(e, decay, now) > 0.0
  {
  }

  lemma BaseIsNonNegative(cfg: ExecConfig, quantity: real, volatility: real)
    requires cfg.impactCoefficient >= 0.0 && volatility >= 0.0 && forall x: real :: cfg.sqrt(x) >= 0.0
    ensures BaseImpact(cfg, quantity, volatility) >= 0.0
  {
  }

  lemma ImpactMovesPrice(side: Side, price: real, impact: real)
    requires price >= 0.0 && impact >= 0.0
    ensures side.Sell? ==> ExecPrice(side, price, impact) <= price
    ensures side.Buy? ==> ExecPrice(side, price, impact) >= price
  {
  }

  lemma TransientBounds(start: seq<TradeEvent>, h: seq<TradeEvent>, cfg: ExecConfig, now: int, bases: real)
    requires PassHistory(start, h, cfg, now, bases)
    requires var lost := Impact(start, cfg.decay, now) - Impact(Retained(start, cfg.cutoff, now), cfg.decay, now);
             0.0 <= lost <= PRUNE_LEVEL * TotalBase(Dropped(start, cfg.cutoff, now))
    ensures var expected := Impact(start, cfg.decay, now) + bases;
            expected - PRUNE_LEVEL * TotalBase(Dropped(start, cfg.cutoff, now))
              <= Impact(h, cfg.decay, now) <= expected
  {
  }

  // ----- Pruning over whole runs -----

  /** The trades that one pass over `orders` reports to the impact tracker. */
  function PassTrades(orders: seq<Order>, cfg: ExecConfig, now: int, m: Market): seq<TradeEvent> {
    if orders == [] then []
    else
      var front := PassTrades(orders[..|orders| - 1], cfg, now, m);
      var o := orders[|orders| - 1];
      if o.quantity <= 0.0 then front
      else front + [TradeEvent(now, BaseImpact(cfg, FillOf(o, cfg), m.volatility))]
  }

  /** Every trade reported to the tracker in a run, in order. */
  function RunTrades(cfg: ExecConfig, inputs: seq<Input>): seq<TradeEvent> {
    if inputs == [] then []
    else
      var front := RunTrades(cfg, inputs[..|inputs| - 1]);
      var x := inputs[|inputs| - 1];
      if IsTrigger(x.tse.event) then
        front + PassTrades(PassedOver(RunEngine(cfg, inputs[..|inputs| - 1]).pending, x.tse.event), cfg,
                           x.tse.time, x.market)
      else front
  }

  lemma RecordAllSnoc(trades: seq<TradeEvent>, e: TradeEvent, cutoff: int)
    ensures RecordAll(trades + [e], cutoff).kept
         == Recorded(RecordAll(trades, cutoff).kept, cutoff, e.timestamp, e.baseImpact)
  {
  }

  /** What the last order of a pass adds to the trades and to the history. */
  lemma PassUnfolds(orders: seq<Order>, start: seq<TradeEvent>, cfg: ExecConfig, now: int, m: Market)
    requires orders != []
    ensures var front, o := orders[..|orders| - 1], orders[|orders| - 1];
            var base := BaseImpact(cfg, FillOf(o, cfg), m.volatility);
            var h := FillPass(front, start, cfg, now, m).history;
            if o.quantity > 0.0 then
              && FillPass(orders, start, cfg, now, m).history == Recorded(h, cfg.cutoff, now, base)
              && PassTrades(orders, cfg, now, m) == PassTrades(front, cfg, now, m) + [TradeEvent(now, base)]
            else
              && FillPass(orders, start, cfg, now, m).history == h
              && PassTrades(orders, cfg, now, m) == PassTrades(front, cfg, now, m)
  {
  }

  lemma {:induction false} PassRecords(orders: seq<Order>, trades: seq<TradeEvent>,
                                       cfg: ExecConfig, now: int, m: Market)
    ensures FillPass(orders, RecordAll(trades, cfg.cutoff).kept, cfg, now, m).history
         == RecordAll(trades + PassTrades(orders, cfg, now, m), cfg.cutoff).kept
  {
    if orders == [] {
      assert trades + [] == trades;
    } else {
      hide *;
      var front := orders[..|orders| - 1];
      var o := orders[|orders| - 1];
      PassRecords(front, trades, cfg, now, m);
      PassUnfolds(orders, RecordAll(trades, cfg.cutoff).kept, cfg, now, m);
      if o.quantity > 0.0 {
        var e := TradeEvent(now, BaseImpact(cfg, FillOf(o, cfg), m.volatility));
        RecordAllSnoc(trades + PassTrades(front, cfg, now, m), e, cfg.cutoff);
        assert trades + (PassTrades(front, cfg, now, m) + [e]) == trades + PassTrades(front, cfg, now, m) + [e];
      }
    }
  }

  lemma HandledHistory(pending: seq<Order>, history: seq<TradeEvent>, cfg: ExecConfig, tse: TimestampedEvent, m: Market)
    ensures HandleOutcome(pending, history, cfg, tse, m).history ==
              if IsTrigger(tse.event) then
                FillPass(PassedOver(pending, tse.event), history, cfg, tse.time, m).history
              else history
  {
    hide FillPass;
  }

  lemma HistoryStep(cfg: ExecConfig, inputs: seq<Input>)
    requires inputs != []
    ensures var r := RunEngine(cfg, inputs[..|inputs| - 1]);
            var x := inputs[|inputs| - 1];
            RunEngine(cfg, inputs).history ==
              if IsTrigger(x.tse.event) then
                FillPass(PassedOver(r.pending, x.tse.event), r.history, cfg, x.tse.time, x.market).history
              else r.history
  {
    var r, x := RunEngine(cfg, inputs[..|inputs| - 1]), inputs[|inputs| - 1];
    HandledHistory(r.pending, r.history, cfg, x.tse, x.market);
    hide FillPass, PassedOver, HandleOutcome;
  }

  /** The engine's history is what a tracker keeps of the run's trades. */
  lemma {:induction false} RunRecords(cfg: ExecConfig, inputs: seq<Input>)
    ensures RunEngine(cfg, inputs).history == RecordAll(RunTrades(cfg, inputs), cfg.cutoff).kept
  {
    if inputs != [] {
      var x := inputs[|inputs| - 1];
      var front := inputs[..|inputs| - 1];
      RunRecords(cfg, front);
      HistoryStep(cfg, inputs);
      hide FillPass, RecordAll, PassTrades, RunEngine;
      if IsTrigger(x.tse.event) {
        PassRecords(PassedOver(RunEngine(cfg, front).pending, x.tse.event), RunTrades(cfg, front), cfg,
                    x.tse.time, x.market);
      }
    }
  }

  ghost predicate TimesIncrease(inputs: seq<Input>) {
    forall i, j :: 0 <= i <= j < |inputs| ==> inputs[i].tse.time <= inputs[j].tse.time
  }

  lemma {:induction false} PassTradesAtNow(orders: seq<Order>, cfg: ExecConfig, now: int, m: Market)
    ensures forall i :: 0 <= i < |PassTrades(orders, cfg, now, m)| ==>
              PassTrades(orders, cfg, now, m)[i].timestamp == now
  {
    if orders != [] {
      PassTradesAtNow(orders[..|orders| - 1], cfg, now, m);
      hide BaseImpact;
    }
  }

  /** Times never decrease and none is after `at`. */
  ghost predicate MonotoneUpTo(trades: seq<TradeEvent>, at: int) {
    Monotone(trades) && forall i :: 0 <= i < |trades| ==> trades[i].timestamp <= at
  }

  lemma MonotoneAppend(a: seq<TradeEvent>, b: seq<TradeEvent>, at: int)
    requires MonotoneUpTo(a, at) && forall i :: 0 <= i < |b| ==> b[i].timestamp == at
    ensures MonotoneUpTo(a + b, at)
  {
  }

  lemma {:induction false} RunTradesMonotone(cfg: ExecConfig, inputs: seq<Input>, at: int)
    requires TimesIncrease(inputs) && (inputs != [] ==> inputs[|inputs| - 1].tse.time <= at)
    ensures MonotoneUpTo(RunTrades(cfg, inputs), at)
  {
    if inputs != [] {
      var x := inputs[|inputs| - 1];
      var front := inputs[..|inputs| - 1];
      RunTradesMonotone(cfg, front, x.tse.time);
      assert MonotoneUpTo(RunTrades(cfg, front), x.tse.time);
      var orders := PassedOver(RunEngine(cfg, front).pending, x.tse.event);
      PassTradesAtNow(orders, cfg, x.tse.time, x.market);
      hide PassTrades, RunEngine, TimesIncrease;
      MonotoneAppend(RunTrades(cfg, front), PassTrades(orders, cfg, x.tse.time, x.market), x.tse.time);
    }
  }

  /** At any later time the impact the engine charges is within PRUNE_LEVEL of what it dropped of the full sum. */
  lemma RunPruningError(cfg: ExecConfig, inputs: seq<Input>, at: int)
    requires IsDecay(cfg.decay, cfg.cutoff)
    requires TimesIncrease(inputs) && (inputs != [] ==> inputs[|inputs| - 1].tse.time <= at)
    ensures var l := RecordAll(RunTrades(cfg, inputs), cfg.cutoff);
            var lost := Impact(l.all, cfg.decay, at) - Impact(RunEngine(cfg, inputs).history, cfg.decay, at);
            0.0 <= lost <= PRUNE_LEVEL * TotalBase(l.dropped)
  {
    RunRecords(cfg, inputs);
    RunTradesMonotone(cfg, inputs, at);
    DecayFades(cfg.decay, cfg.cutoff);
    hide RunEngine, RunTrades, RecordAll, IsDecay, FadesFrom, Monotone, TimesIncrease;
    PruningError(RunTrades(cfg, inputs), cfg.decay, cfg.cutoff, at);
  }
}
