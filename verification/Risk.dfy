/** The slippage gate: every chunk must fit a share of the budget, a running average, the budget and a reserve. */
module Risk {
  import opened Arith

  datatype Ledger = Ledger(total: real, pct: real, budget: real, executed: real, used: real, reserve: real,
                           emergencyUsed: real)

  function Opening(total: real, pct: real, reserveFrac: real): Ledger {
    var budget := Times(total, pct);
    Ledger(total, pct, budget, 0.0, 0.0, Times(reserveFrac, budget), 0.0)
  }

  function RemainingBudget(r: Ledger): real {
    Max(r.budget - r.used, 0.0)
  }

  function Allocation(r: Ledger, chunk: real): real {
    if r.total <= 0.0 then 0.0 else Times(chunk / r.total, r.budget)
  }

  function CapRunning(r: Ledger, chunk: real): real {
    Max(Times(r.pct, r.executed + chunk) - r.used, 0.0)
  }

  function AllowedForNext(r: Ledger, chunk: real): real {
    var ceiling := Allocation(r, chunk) + Max(r.reserve - r.emergencyUsed, 0.0);
    Min(Min(ceiling, CapRunning(r, chunk)), RemainingBudget(r))
  }

  datatype Request = Request(chunk: real, slippage: real)

  predicate Accepts(r: Ledger, q: Request) {
    q.slippage <= AllowedForNext(r, q.chunk)
  }

  function Booked(r: Ledger, q: Request): Ledger {
    var share := Allocation(r, q.chunk);
    r.(executed := r.executed + q.chunk, used := r.used + q.slippage,
       emergencyUsed := r.emergencyUsed + (if q.slippage > share then q.slippage - share else 0.0))
  }

  function After(r: Ledger, q: Request): Ledger {
    if Accepts(r, q) then Booked(r, q) else r
  }

  class RiskManager {
    const total: real
    const pct: real
    const budget: real
    const reserve: real
    var executed: real
    var used: real
    var emergencyUsed: real

    constructor (total: real, pct: real, reserveFrac: real)
      ensures Now() == Opening(total, pct, reserveFrac)
    {
      this.total, this.pct, this.budget := total, pct, Times(total, pct);
      this.reserve := Times(reserveFrac, Times(total, pct));
      executed, used, emergencyUsed := 0.0, 0.0, 0.0;
    }

    function Now(): Ledger
      reads this
    {
      Ledger(total, pct, budget, executed, used, reserve, emergencyUsed)
    }

    /** Refusal leaves everything as it was. */
    method RequestExecuteChunk(chunk: real, slippage: real) returns (ok: bool)
      modifies this`executed, this`used, this`emergencyUsed
      ensures ok == Accepts(old(Now()), Request(chunk, slippage))
      ensures Now() == After(old(Now()), Request(chunk, slippage))
    {
      hide Times, Max, Min;
      var allowed := AllowedForNext(Now(), chunk);
      if slippage > allowed {
        return false;
      }
      executed := executed + chunk;
      used := used + slippage;
      var share := Allocation(Now(), chunk);
      if slippage > share {
        var draw := slippage - share;
        emergencyUsed := emergencyUsed + draw;
      }
      return true;
    }
  }

  // ----- What one request keeps -----

  function RunAll(r: Ledger, qs: seq<Request>): Ledger {
    if qs == [] then r else After(RunAll(r, qs[..|qs| - 1]), qs[|qs| - 1])
  }

  ghost predicate Proper(qs: seq<Request>) {
    forall i :: 0 <= i < |qs| ==> qs[i].chunk >= 0.0 && qs[i].slippage >= 0.0
  }

  /** By how much accepted chunks went over, and stayed under, their proportional share. */
  function Overshoot(r: Ledger, qs: seq<Request>): real {
    if qs == [] then 0.0
    else
      var before, q := RunAll(r, qs[..|qs| - 1]), qs[|qs| - 1];
      Overshoot(r, qs[..|qs| - 1])
      + if Accepts(before, q) then Max(q.slippage - Times(r.pct, q.chunk), 0.0) else 0.0
  }

  function Undershoot(r: Ledger, qs: seq<Request>): real {
    if qs == [] then 0.0
    else
      var before, q := RunAll(r, qs[..|qs| - 1]), qs[|qs| - 1];
      Undershoot(r, qs[..|qs| - 1])
      + if Accepts(before, q) then Max(Times(r.pct, q.chunk) - q.slippage, 0.0) else 0.0
  }

  /** A chunk's share of the budget is the permitted rate on the chunk. */
  lemma ShareIsRate(total: real, pct: real, chunk: real)
    requires total > 0.0
    ensures Times(chunk / total, Times(total, pct)) == Times(pct, chunk)
  {
  }

  /** The limits a manager lives by, whatever it has booked so far. */
  ghost predicate WithinLimits(r: Ledger) {
    && r.used <= Max(r.budget, 0.0)
    && r.used <= Times(r.pct, r.executed)
    && r.emergencyUsed <= Max(r.reserve, 0.0)
    && r.executed >= 0.0
  }

  ghost predicate SameTerms(r: Ledger, s: Ledger) {
    s.total == r.total && s.pct == r.pct && s.budget == r.budget && s.reserve == r.reserve
  }

  lemma RequestKeepsLimits(r: Ledger, q: Request)
    requires WithinLimits(r) && r.pct >= 0.0 && q.chunk >= 0.0 && q.slippage >= 0.0
    ensures WithinLimits(After(r, q)) && SameTerms(r, After(r, q))
  {
  }

  /**
    * Over any run of non-negative requests the slippage used stays within the budget and within the permitted rate
    * on what was executed, the emergency draw stays within the reserve, equals what accepted chunks went over
    * their share and never exceeds what accepted chunks had saved.
    */
  lemma {:induction false} EveryRunStaysWithinLimits(total: real, pct: real, reserveFrac: real, qs: seq<Request>)
    requires total > 0.0 && pct >= 0.0 && Proper(qs)
    ensures var o := Opening(total, pct, reserveFrac);
            var r := RunAll(o, qs);
            && WithinLimits(r) && SameTerms(o, r)
            && r.used <= Times(total, pct) && r.emergencyUsed <= Max(Times(reserveFrac, Times(total, pct)), 0.0)
            && r.emergencyUsed == Overshoot(o, qs)
            && r.used == Times(pct, r.executed) + Overshoot(o, qs) - Undershoot(o, qs)
            && Overshoot(o, qs) <= Undershoot(o, qs)
  {
    var o := Opening(total, pct, reserveFrac);
    if qs == [] {
      TimesZero(pct);
    } else {
      var n := |qs| - 1;
      var r, q := RunAll(o, qs[..n]), qs[n];
      EveryRunStaysWithinLimits(total, pct, reserveFrac, qs[..n]);
      RequestBalances(o, r, q);
    }
  }

  /** One request moves usage by the permitted rate on the chunk, plus its overshoot, less its undershoot. */
  lemma RequestBalances(o: Ledger, r: Ledger, q: Request)
    requires WithinLimits(r) && SameTerms(o, r) && o.total > 0.0 && o.pct >= 0.0 && o.budget == Times(o.total, o.pct)
    requires q.chunk >= 0.0 && q.slippage >= 0.0
    ensures var s := After(r, q);
            && WithinLimits(s) && SameTerms(o, s)
            && (Accepts(r, q) ==>
                  && s.emergencyUsed == r.emergencyUsed + Max(q.slippage - Times(o.pct, q.chunk), 0.0)
                  && s.used - Times(o.pct, s.executed) == r.used - Times(o.pct, r.executed)
                       + Max(q.slippage - Times(o.pct, q.chunk), 0.0) - Max(Times(o.pct, q.chunk) - q.slippage, 0.0))
  {
    hide Times, AllowedForNext;
    RequestKeepsLimits(r, q);
    ShareIsRate(r.total, r.pct, q.chunk);
    TimesSwap(o.pct, r.executed);
    TimesSwap(o.pct, q.chunk);
    TimesSwap(o.pct, r.executed + q.chunk);
    TimesSplit(r.executed, q.chunk, o.pct);
  }

  // ----- What is accepted -----

  /**
    * A positive slippage is accepted exactly when booking it keeps the three limits, the draw it would make
    * included.
    */
  lemma AcceptsExactlyWhatKeepsLimits(r: Ledger, q: Request)
    requires WithinLimits(r) && r.emergencyUsed <= r.reserve && q.slippage > 0.0
    ensures var s := Booked(r, q);
            Accepts(r, q) <==> s.used <= r.budget && s.used <= Times(r.pct, s.executed) && s.emergencyUsed <= r.reserve
  {
  }

  /** Within its proportional share, and within the total, a chunk is never refused. */
  lemma ShareIsNeverRefused(total: real, pct: real, reserveFrac: real, qs: seq<Request>, q: Request)
    requires total > 0.0 && pct >= 0.0 && Proper(qs)
    requires q.chunk >= 0.0 && 0.0 <= q.slippage <= Times(pct, q.chunk)
    requires var r := RunAll(Opening(total, pct, reserveFrac), qs); r.executed + q.chunk <= total
    ensures Accepts(RunAll(Opening(total, pct, reserveFrac), qs), q)
  {
    hide RunAll;
    var r := RunAll(Opening(total, pct, reserveFrac), qs);
    EveryRunStaysWithinLimits(total, pct, reserveFrac, qs);
    WithinShareIsAccepted(r, q);
  }

  lemma WithinShareIsAccepted(r: Ledger, q: Request)
    requires WithinLimits(r) && r.total > 0.0 && r.pct >= 0.0 && r.budget == Times(r.total, r.pct)
    requires q.chunk >= 0.0 && 0.0 <= q.slippage <= Times(r.pct, q.chunk) && r.executed + q.chunk <= r.total
    ensures Accepts(r, q)
  {
  }

  /** With no notional at all every chunk that costs anything must come out of the reserve, which is empty. */
  lemma NothingToExecute(total: real, pct: real, reserveFrac: real, qs: seq<Request>)
    requires total <= 0.0 && pct >= 0.0 && Proper(qs)
    ensures RunAll(Opening(total, pct, reserveFrac), qs).used == 0.0
  {
    if qs == [] {
    } else {
      var n := |qs| - 1;
      NothingToExecute(total, pct, reserveFrac, qs[..n]);
      var o, r := Opening(total, pct, reserveFrac), RunAll(Opening(total, pct, reserveFrac), qs[..n]);
      TermsStay(o, qs[..n]);
      TimesMono(total, 0.0, pct);
      TimesZero(pct);
    }
  }

  lemma TermsStay(o: Ledger, qs: seq<Request>)
    ensures SameTerms(o, RunAll(o, qs))
  {
  }
}
