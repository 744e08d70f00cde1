/**
  * A batch of environments stepped together, in which only the finished ones start a new episode.
  *
  * An environment is deterministic: everything it returns is a function of the seed of its last reset (None
  * for an environment as constructed) and of the actions taken since.
  */
module VecEnv {
  import opened Wrappers

  type Obs = seq<real>

  datatype Episode = Episode(seed: Option<int>, actions: seq<int>)

  datatype Dynamics = Dynamics(obs: Episode -> Obs, reward: Episode -> real, done: Episode -> bool)

  function Advance(e: Episode, action: int): Episode {
    e.(actions := e.actions + [action])
  }

  function Started(seed: int): Episode {
    Episode(Some(seed), [])
  }

  datatype LogEntry = LogEntry(step: nat, slot: nat, seed: int)

  /** What a slot reports for one reset or step. */
  datatype Report = Report(obs: Obs, reward: real, done: bool, terminal: Option<Obs>)

  // ----- One environment on its own -----

  datatype SlotOp = SlotReset | SlotStep(action: int)

  datatype Solo = Solo(current: Episode, episodes: nat, reports: seq<Report>)

  function SeedAt(seeds: seq<int>, k: nat): int {
    if k < |seeds| then seeds[k] else 0
  }

  function SoloNext(dyn: Dynamics, seeds: seq<int>, s: Solo, op: SlotOp): Solo {
    match op
    case SlotReset =>
      var e := Started(SeedAt(seeds, s.episodes));
      Solo(e, s.episodes + 1, s.reports + [Report(dyn.obs(e), 0.0, false, None)])
    case SlotStep(a) =>
      var e := Advance(s.current, a);
      if dyn.done(e) then
        var next := Started(SeedAt(seeds, s.episodes));
        Solo(next, s.episodes + 1,
             s.reports + [Report(dyn.obs(next), dyn.reward(e), true, Some(dyn.obs(e)))])
      else
        Solo(e, s.episodes, s.reports + [Report(dyn.obs(e), dyn.reward(e), false, None)])
  }

  /** A single environment that starts its k-th episode with the k-th seed. */
  function RunSolo(dyn: Dynamics, seeds: seq<int>, ops: seq<SlotOp>): Solo {
    if ops == [] then Solo(Episode(None, []), 0, [])
    else SoloNext(dyn, seeds, RunSolo(dyn, seeds, ops[..|ops| - 1]), ops[|ops| - 1])
  }

  // ----- The batch -----

  datatype Batch = Batch(envs: seq<Episode>, nextSeed: int, pending: Option<seq<int>>, stepCount: nat,
                         log: seq<LogEntry>)

  function CountDone(dones: seq<bool>): nat {
    if dones == [] then 0 else CountDone(dones[..|dones| - 1]) + (if dones[|dones| - 1] then 1 else 0)
  }

  /** Log entries for the finished slots, in slot order, with consecutive seeds from `first`. */
  function ResetEntries(dones: seq<bool>, step: nat, first: int): seq<LogEntry> {
    if dones == [] then []
    else
      var front := dones[..|dones| - 1];
      ResetEntries(front, step, first)
      + (if dones[|dones| - 1] then [LogEntry(step, |front|, first + CountDone(front))] else [])
  }

  function Stepped(envs: seq<Episode>, actions: seq<int>): seq<Episode>
    requires |envs| == |actions|
  {
    seq(|envs|, i requires 0 <= i < |envs| => Advance(envs[i], actions[i]))
  }

  function Dones(dyn: Dynamics, envs: seq<Episode>): seq<bool> {
    seq(|envs|, i requires 0 <= i < |envs| => dyn.done(envs[i]))
  }

  /** Restart the finished environments with consecutive seeds, leaving the others untouched. */
  function Restarted(envs: seq<Episode>, dones: seq<bool>, first: int): seq<Episode>
    requires |envs| == |dones|
  {
    seq(|envs|, i requires 0 <= i < |envs| => if dones[i] then Started(first + CountDone(dones[..i])) else envs[i])
  }

  function StepReports(dyn: Dynamics, stepped: seq<Episode>, restarted: seq<Episode>): seq<Report>
    requires |stepped| == |restarted|
  {
    seq(|stepped|, i requires 0 <= i < |stepped| =>
          Report(dyn.obs(restarted[i]), dyn.reward(stepped[i]), dyn.done(stepped[i]),
                 if dyn.done(stepped[i]) then Some(dyn.obs(stepped[i])) else None))
  }

  function StartAll(seeds: seq<int>): seq<Episode> {
    seq(|seeds|, i requires 0 <= i < |seeds| => Started(seeds[i]))
  }

  function AllEntries(seeds: seq<int>, step: nat): seq<LogEntry> {
    seq(|seeds|, i requires 0 <= i < |seeds| => LogEntry(step, i, seeds[i]))
  }

  function Consecutive(first: int, n: nat): seq<int> {
    seq(n, i => first + i)
  }

  function AfterReset(b: Batch): Batch {
    var n := |b.envs|;
    var seeds := match b.pending case Some(s) => s case None => Consecutive(b.nextSeed, n);
    Batch(StartAll(seeds),
          if b.pending == None then b.nextSeed + n else b.nextSeed, None, b.stepCount,
          b.log + AllEntries(seeds, b.stepCount))
  }

  function AfterStep(dyn: Dynamics, b: Batch, actions: seq<int>): Batch
    requires |actions| == |b.envs|
  {
    var stepped := Stepped(b.envs, actions);
    var dones := Dones(dyn, stepped);
    Batch(Restarted(stepped, dones, b.nextSeed), b.nextSeed + CountDone(dones), b.pending, b.stepCount + 1,
          b.log + ResetEntries(dones, b.stepCount + 1, b.nextSeed))
  }

  // ----- The server process -----

  class BatchServer {
    var envs: seq<Episode>
    const dyn: Dynamics

    constructor (dyn: Dynamics, batchSize: nat)
      ensures this.dyn == dyn && envs == seq(batchSize, _ => Episode(None, []))
    {
      this.dyn := dyn;
      envs := seq(batchSize, _ => Episode(None, []));
    }

    method ResetBatch(seeds: seq<int>) returns (obs: array<Obs>)
      requires |seeds| == |envs|
      modifies this
      ensures fresh(obs) && obs.Length == |seeds|
      ensures envs == StartAll(seeds)
      ensures forall i :: 0 <= i < |seeds| ==> obs[i] == dyn.obs(envs[i])
    {
      obs := new Obs[|seeds|](_ => []);
      for i := 0 to |seeds|
        invariant |envs| == |seeds|
        invariant forall j :: 0 <= j < i ==> envs[j] == Started(seeds[j]) && obs[j] == dyn.obs(envs[j])
      {
        envs := envs[i := Started(seeds[i])];
        obs[i] := dyn.obs(envs[i]);
      }
    }

    method StepBatch(actions: seq<int>) returns (obs: array<Obs>, rewards: seq<real>, dones: seq<bool>)
      requires |actions| == |envs|
      modifies this
      ensures envs == Stepped(old(envs), actions)
      ensures fresh(obs) && obs.Length == |envs| && |rewards| == |envs| && dones == Dones(dyn, envs)
      ensures forall i :: 0 <= i < |envs| ==> obs[i] == dyn.obs(envs[i]) && rewards[i] == dyn.reward(envs[i])
    {
      obs := new Obs[|actions|](_ => []);
      rewards, dones := [], [];
      ghost var before := envs;
      for i := 0 to |actions|
        invariant |envs| == |actions| && |rewards| == |dones| == i
        invariant forall j :: 0 <= j < i ==>
          envs[j] == Advance(before[j], actions[j]) && obs[j] == dyn.obs(envs[j])
          && rewards[j] == dyn.reward(envs[j]) && dones[j] == dyn.done(envs[j])
        invariant forall j :: i <= j < |envs| ==> envs[j] == before[j]
      {
        envs := envs[i := Advance(envs[i], actions[i])];
        obs[i] := dyn.obs(envs[i]);
        rewards := rewards + [dyn.reward(envs[i])];
        dones := dones + [dyn.done(envs[i])];
      }
    }

    /** Reset only the listed instances. */
    method ResetIndices(indices: seq<nat>, seeds: seq<int>) returns (obs: seq<Obs>)
      requires |indices| == |seeds|
      requires forall k :: 0 <= k < |indices| ==> indices[k] < |envs|
      requires forall k, l :: 0 <= k < l < |indices| ==> indices[k] != indices[l]
      modifies this
      ensures |envs| == |old(envs)| && |obs| == |indices|
      ensures forall k :: 0 <= k < |indices| ==>
                envs[indices[k]] == Started(seeds[k]) && obs[k] == dyn.obs(Started(seeds[k]))
      ensures forall i :: 0 <= i < |envs| && i !in indices ==> envs[i] == old(envs)[i]
    {
      obs := [];
      ghost var before := envs;
      for k := 0 to |indices|
        invariant |envs| == |before| && |obs| == k
        invariant forall l :: 0 <= l < k ==>
                  envs[indices[l]] == Started(seeds[l]) && obs[l] == dyn.obs(Started(seeds[l]))
        invariant forall i :: 0 <= i < |envs| && i !in indices[..k] ==> envs[i] == before[i]
      {
        assert indices[..k + 1] == indices[..k] + [indices[k]];
        envs := envs[indices[k] := Started(seeds[k])];
        obs := obs + [dyn.obs(envs[indices[k]])];
      }
      assert indices[..|indices|] == indices;
    }
  }

  // ----- The finished slots -----

  function DoneIndices(dones: seq<bool>): seq<nat> {
    if dones == [] then []
    else
      var front := dones[..|dones| - 1];
      DoneIndices(front) + (if dones[|dones| - 1] then [|front|] else [])
  }

  /** The k-th finished slot is the one before which k slots have finished. */
  lemma {:induction false} DoneIndicesRank(dones: seq<bool>)
    ensures |DoneIndices(dones)| == CountDone(dones)
    ensures forall k :: 0 <= k < |DoneIndices(dones)| ==>
              var i := DoneIndices(dones)[k]; i < |dones| && dones[i] && CountDone(dones[..i]) == k
    ensures forall i :: 0 <= i < |dones| && dones[i] ==>
              CountDone(dones[..i]) < CountDone(dones) && DoneIndices(dones)[CountDone(dones[..i])] == i
  {
    if dones != [] {
      var front := dones[..|dones| - 1];
      DoneIndicesRank(front);
      forall i | 0 <= i <= |front| ensures dones[..i] == front[..i] {
      }
      assert front[..|front|] == front;
    }
  }

  lemma DoneIndicesDistinct(dones: seq<bool>)
    ensures forall k, l :: 0 <= k < l < |DoneIndices(dones)| ==> DoneIndices(dones)[k] != DoneIndices(dones)[l]
    ensures forall i :: 0 <= i < |dones| ==> (dones[i] <==> i in DoneIndices(dones))
  {
    DoneIndicesRank(dones);
    hide DoneIndices, CountDone;
    forall i | 0 <= i < |dones| && dones[i] ensures i in DoneIndices(dones) {
      assert DoneIndices(dones)[CountDone(dones[..i])] == i;
    }
  }

  lemma {:induction false} EntriesOfIndices(dones: seq<bool>, step: nat, first: int)
    ensures |ResetEntries(dones, step, first)| == |DoneIndices(dones)|
    ensures forall k :: 0 <= k < |DoneIndices(dones)| ==>
              ResetEntries(dones, step, first)[k] == LogEntry(step, DoneIndices(dones)[k], first + k)
  {
    if dones != [] {
      EntriesOfIndices(dones[..|dones| - 1], step, first);
      DoneIndicesRank(dones[..|dones| - 1]);
    }
  }

  // ----- The vectorised environment -----

  class BatchedVecEnv {
    const server: BatchServer
    const numEnvs: nat
    var nextSeed: int
    var seedsPending: Option<seq<int>>
    var actions: Option<seq<int>>
    var stepCount: nat
    var resetLog: seq<LogEntry>

    constructor (server: BatchServer, seedBase: int)
      ensures this.server == server && numEnvs == |server.envs|
      ensures nextSeed == seedBase && seedsPending == None && actions == None && stepCount == 0 && resetLog == []
    {
      this.server, numEnvs := server, |server.envs|;
      nextSeed, seedsPending, actions, stepCount, resetLog := seedBase, None, None, 0, [];
    }

    method DrawSeeds(n: nat) returns (seeds: seq<int>)
      modifies this`nextSeed
      ensures seeds == Consecutive(old(nextSeed), n) && nextSeed == old(nextSeed) + n
    {
      seeds := Consecutive(nextSeed, n);
      nextSeed := nextSeed + n;
    }

    /** Without an explicit base, `drawn` is what the random generator gives. */
    method Seed(base: Option<int>, drawn: int) returns (seeds: seq<int>)
      modifies this`seedsPending
      ensures seeds == Consecutive(if base.Some? then base.value else drawn, numEnvs)
      ensures seedsPending == Some(seeds)
    {
      var first := if base.None? then drawn else base.value;
      seeds := Consecutive(first, numEnvs);
      seedsPending := Some(seeds);
    }

    method Reset() returns (obs: array<Obs>)
      requires |server.envs| == numEnvs && (seedsPending != None ==> |seedsPending.value| == numEnvs)
      modifies this`nextSeed, this`seedsPending, this`resetLog, server
      ensures Batch(server.envs, nextSeed, seedsPending, stepCount, resetLog)
           == AfterReset(old(Batch(server.envs, nextSeed, seedsPending, stepCount, resetLog)))
      ensures obs.Length == numEnvs == |server.envs|
      ensures forall i :: 0 <= i < numEnvs ==> obs[i] == server.dyn.obs(server.envs[i])
    {
      var seeds;
      if seedsPending != None {
        seeds := seedsPending.value;
        seedsPending := None;
      } else {
        seeds := DrawSeeds(numEnvs);
      }
      obs := server.ResetBatch(seeds);
      ghost var log := resetLog;
      for i := 0 to |seeds|
        modifies this`resetLog
        invariant resetLog == log + AllEntries(seeds, stepCount)[..i]
      {
        resetLog := resetLog + [LogEntry(stepCount, i, seeds[i])];
      }
      assert AllEntries(seeds, stepCount)[..|seeds|] == AllEntries(seeds, stepCount);
    }

    method StepAsync(chosen: seq<int>)
      modifies this`actions
      ensures actions == Some(chosen)
    {
      actions := Some(chosen);
    }

    /** Put the first observations of the new episodes into the rows of the finished slots, and log the seeds. */
    method Splice(obs: array<Obs>, dones: seq<bool>, newObs: seq<Obs>, seeds: seq<int>, ghost first: int)
      requires obs.Length == |dones| && seeds == Consecutive(first, CountDone(dones))
      requires |newObs| == |DoneIndices(dones)|
      modifies obs, this`resetLog
      ensures forall i :: 0 <= i < |dones| ==>
                CountDone(dones[..i]) <= CountDone(dones) &&
                if dones[i] then CountDone(dones[..i]) < |newObs| && obs[i] == newObs[CountDone(dones[..i])]
                else obs[i] == old(obs[i])
      ensures resetLog == old(resetLog) + ResetEntries(dones, stepCount, first)
    {
      var indices := DoneIndices(dones);
      DoneIndicesRank(dones);
      DoneIndicesDistinct(dones);
      EntriesOfIndices(dones, stepCount, first);
      CountDoneMonotone(dones);
      hide DoneIndices, CountDone, ResetEntries;
      ghost var entries := ResetEntries(dones, stepCount, first);
      for k := 0 to |indices|
        invariant resetLog == old(resetLog) + entries[..k]
        invariant forall l :: 0 <= l < k ==> obs[indices[l]] == newObs[l]
        invariant forall i :: 0 <= i < obs.Length && i !in indices[..k] ==> obs[i] == old(obs[i])
      {
        assert indices[..k + 1] == indices[..k] + [indices[k]];
        assert entries[..k + 1] == entries[..k] + [entries[k]];
        obs[indices[k]] := newObs[k];
        resetLog := resetLog + [LogEntry(stepCount, indices[k], seeds[k])];
      }
      assert entries[..|indices|] == entries;
      assert indices[..|indices|] == indices;
    }

    /** Step every instance; restart the finished ones and keep their last observation aside. */
    method StepWait() returns (obs: array<Obs>, rewards: seq<real>, dones: seq<bool>, terminal: seq<Option<Obs>>)
      requires actions != None && |actions.value| == numEnvs == |server.envs|
      modifies this`nextSeed, this`stepCount, this`resetLog, server
      ensures Batch(server.envs, nextSeed, seedsPending, stepCount, resetLog)
           == AfterStep(server.dyn, old(Batch(server.envs, nextSeed, seedsPending, stepCount, resetLog)), actions.value)
      ensures obs.Length == |rewards| == |dones| == |terminal| == numEnvs == |server.envs|
      ensures var stepped := Stepped(old(server.envs), actions.value);
              forall i :: 0 <= i < numEnvs ==>
                Report(obs[i], rewards[i], dones[i], terminal[i]) == StepReports(server.dyn, stepped, server.envs)[i]
    {
      hide DoneIndices, CountDone, ResetEntries;
      obs, rewards, dones := server.StepBatch(actions.value);
      stepCount := stepCount + 1;
      ghost var stepped := server.envs;
      terminal := Terminals(obs, dones);
      var indices := DoneIndices(dones);
      DoneIndicesFacts(dones);
      var seeds := DrawSeeds(|indices|);
      var newObs := server.ResetIndices(indices, seeds);
      RestartedBy(stepped, server.envs, dones, seeds, old(nextSeed), server.dyn, newObs);
      Splice(obs, dones, newObs, seeds, old(nextSeed));
    }

    /** The last observations of the finished slots, copied before their rows are overwritten. */
    method Terminals(obs: array<Obs>, dones: seq<bool>) returns (terminal: seq<Option<Obs>>)
      requires obs.Length == |dones|
      ensures |terminal| == |dones|
      ensures forall i :: 0 <= i < |dones| ==> terminal[i] == if dones[i] then Some(obs[i]) else None
    {
      terminal := [];
      for i := 0 to |dones|
        invariant |terminal| == i
        invariant forall j :: 0 <= j < i ==> terminal[j] == if dones[j] then Some(obs[j]) else None
      {
        terminal := terminal + [if dones[i] then Some(obs[i]) else None];
      }
    }
  }

  /** Everything `StepWait` needs about the finished slots. */
  lemma DoneIndicesFacts(dones: seq<bool>)
    ensures |DoneIndices(dones)| == CountDone(dones)
    ensures forall k :: 0 <= k < |DoneIndices(dones)| ==> DoneIndices(dones)[k] < |dones|
    ensures forall k, l :: 0 <= k < l < |DoneIndices(dones)| ==> DoneIndices(dones)[k] != DoneIndices(dones)[l]
  {
  }

  /** Restarting exactly the listed slots with consecutive seeds is `Restarted`. */
  lemma RestartedBy(stepped: seq<Episode>, envs: seq<Episode>, dones: seq<bool>, seeds: seq<int>, first: int,
                    dyn: Dynamics, newObs: seq<Obs>)
    requires |stepped| == |envs| == |dones| && |newObs| == |seeds| == |DoneIndices(dones)|
    requires seeds == Consecutive(first, CountDone(dones))
    requires forall k :: 0 <= k < |DoneIndices(dones)| ==>
               DoneIndices(dones)[k] < |envs| && envs[DoneIndices(dones)[k]] == Started(seeds[k])
               && newObs[k] == dyn.obs(Started(seeds[k]))
    requires forall i :: 0 <= i < |envs| && i !in DoneIndices(dones) ==> envs[i] == stepped[i]
    ensures envs == Restarted(stepped, dones, first)
    ensures forall i :: 0 <= i < |dones| && dones[i] ==>
              CountDone(dones[..i]) < |newObs| && newObs[CountDone(dones[..i])] == dyn.obs(envs[i])
  {
    DoneIndicesRank(dones);
    DoneIndicesDistinct(dones);
    hide DoneIndices, CountDone;
    forall i | 0 <= i < |dones|
      ensures envs[i] == (if dones[i] then Started(first + CountDone(dones[..i])) else stepped[i])
    {
      if dones[i] {
        assert DoneIndices(dones)[CountDone(dones[..i])] == i;
      }
    }
  }

  lemma {:induction false} CountDoneMonotone(dones: seq<bool>)
    ensures forall i :: 0 <= i <= |dones| ==> CountDone(dones[..i]) <= CountDone(dones)
  {
    if dones != [] {
      var front := dones[..|dones| - 1];
      CountDoneMonotone(front);
      forall i | 0 <= i <= |dones| ensures CountDone(dones[..i]) <= CountDone(dones) {
        if i < |dones| {
          assert dones[..i] == front[..i];
        } else {
          assert dones[..i] == dones;
        }
      }
    }
  }

  // ----- Runs -----

  datatype Op = Seed(base: int) | Reset | Step(actions: seq<int>)

  /** The state after a list of operations, and what each operation reported for every slot. */
  datatype Run = Run(batch: Batch, reports: seq<seq<Report>>)

  predicate Fits(ops: seq<Op>, n: nat) {
    forall i :: 0 <= i < |ops| && ops[i].Step? ==> |ops[i].actions| == n
  }

  function ResetReports(dyn: Dynamics, envs: seq<Episode>): seq<Report> {
    seq(|envs|, i requires 0 <= i < |envs| => Report(dyn.obs(envs[i]), 0.0, false, None))
  }

  function Next(dyn: Dynamics, n: nat, r: Run, op: Op): (next: Run)
    requires |r.batch.envs| == n && (r.batch.pending != None ==> |r.batch.pending.value| == n)
    requires op.Step? ==> |op.actions| == n
    ensures |next.batch.envs| == n && (next.batch.pending != None ==> |next.batch.pending.value| == n)
    ensures op.Seed? || (next.reports != [] && |next.reports[|next.reports| - 1]| == n)
  {
    match op
    case Seed(base) => Run(r.batch.(pending := Some(Consecutive(base, n))), r.reports)
    case Reset =>
      var b := AfterReset(r.batch);
      Run(b, r.reports + [ResetReports(dyn, b.envs)])
    case Step(actions) =>
      var b := AfterStep(dyn, r.batch, actions);
      Run(b, r.reports + [StepReports(dyn, Stepped(r.batch.envs, actions), b.envs)])
  }

  function RunBatch(dyn: Dynamics, n: nat, seedBase: int, ops: seq<Op>): (r: Run)
    requires Fits(ops, n)
    ensures |r.batch.envs| == n && (r.batch.pending != None ==> |r.batch.pending.value| == n)
    ensures forall k :: 0 <= k < |r.reports| ==> |r.reports[k]| == n
  {
    if ops == [] then Run(Batch(seq(n, _ => Episode(None, [])), seedBase, None, 0, []), [])
    else Next(dyn, n, RunBatch(dyn, n, seedBase, ops[..|ops| - 1]), ops[|ops| - 1])
  }

  // ----- Slot independence -----

  /** The operations as slot `i` sees them. */
  function SlotOps(ops: seq<Op>, n: nat, i: nat): seq<SlotOp>
    requires Fits(ops, n) && i < n
  {
    if ops == [] then []
    else
      SlotOps(ops[..|ops| - 1], n, i) +
      match ops[|ops| - 1]
      case Seed(_) => []
      case Reset => [SlotReset]
      case Step(actions) => [SlotStep(actions[i])]
  }

  /** The seeds that the reset log lists for slot `i`. */
  function SlotSeeds(log: seq<LogEntry>, i: nat): seq<int> {
    if log == [] then []
    else
      SlotSeeds(log[..|log| - 1], i) + (if log[|log| - 1].slot == i then [log[|log| - 1].seed] else [])
  }

  function SlotReports(reports: seq<seq<Report>>, i: nat): seq<Report>
    requires forall k :: 0 <= k < |reports| ==> i < |reports[k]|
  {
    seq(|reports|, k requires 0 <= k < |reports| => reports[k][i])
  }

  lemma {:induction false} SlotSeedsAppend(a: seq<LogEntry>, b: seq<LogEntry>, i: nat)
    ensures SlotSeeds(a + b, i) == SlotSeeds(a, i) + SlotSeeds(b, i)
  {
    if b == [] {
      assert a + b == a;
    } else {
      assert (a + b)[..|a + b| - 1] == a + b[..|b| - 1];
      SlotSeedsAppend(a, b[..|b| - 1], i);
    }
  }

  lemma ResetEntriesStep(dones: seq<bool>, step: nat, first: int)
    requires dones != []
    ensures var front := dones[..|dones| - 1];
            ResetEntries(dones, step, first) == ResetEntries(front, step, first)
              + (if dones[|front|] then [LogEntry(step, |front|, first + CountDone(front))] else [])
  {
  }

  lemma {:induction false} SlotSeedsOfResets(dones: seq<bool>, step: nat, first: int, i: nat)
    ensures SlotSeeds(ResetEntries(dones, step, first), i)
         == if i < |dones| && dones[i] then [first + CountDone(dones[..i])] else []
  {
    hide SlotSeeds, CountDone, ResetEntries;
    if dones == [] {
      NoResets(step, first);
      SlotSeedsOfOne([], i);
    } else {
      ResetEntriesStep(dones, step, first);
      var front := dones[..|dones| - 1];
      SlotSeedsOfResets(front, step, first, i);
      var last := if dones[|front|] then [LogEntry(step, |front|, first + CountDone(front))] else [];
      SlotSeedsOfOne(last, i);
      SlotSeedsAppend(ResetEntries(front, step, first), last, i);
      if i < |front| {
        assert dones[..i] == front[..i];
      } else if i == |front| {
        assert dones[..i] == front;
      }
    }
  }

  lemma SlotSeedsOfOne(entries: seq<LogEntry>, i: nat)
    requires |entries| <= 1
    ensures SlotSeeds(entries, i) == if entries != [] && entries[0].slot == i then [entries[0].seed] else []
  {
  }

  lemma {:induction false} SlotSeedsOfAll(seeds: seq<int>, step: nat, i: nat)
    ensures SlotSeeds(AllEntries(seeds, step), i) == if i < |seeds| then [seeds[i]] else []
  {
    hide SlotSeeds;
    if seeds == [] {
      SlotSeedsOfOne(AllEntries(seeds, step), i);
    } else {
      var n := |seeds| - 1;
      var front, last := AllEntries(seeds[..n], step), [LogEntry(step, n, seeds[n])];
      SlotSeedsOfAll(seeds[..n], step, i);
      SlotSeedsOfOne(last, i);
      SlotSeedsAppend(front, last, i);
      assert AllEntries(seeds, step) == front + last;
      hide AllEntries;
    }
  }

  /** Later seeds do not change a run that has not started that many episodes. */
  lemma {:induction false} SoloIgnoresLaterSeeds(dyn: Dynamics, seeds: seq<int>, more: seq<int>, ops: seq<SlotOp>)
    requires RunSolo(dyn, seeds, ops).episodes <= |seeds|
    ensures RunSolo(dyn, seeds + more, ops) == RunSolo(dyn, seeds, ops)
  {
    if ops != [] {
      SoloIgnoresLaterSeeds(dyn, seeds, more, ops[..|ops| - 1]);
    }
  }

  /** Slot `i` is where a single environment would be that was given its operations and its logged seeds. */
  ghost predicate SlotMatches(dyn: Dynamics, n: nat, seedBase: int, ops: seq<Op>, i: nat)
    requires Fits(ops, n) && i < n
  {
    var r := RunBatch(dyn, n, seedBase, ops);
    var seeds := SlotSeeds(r.batch.log, i);
    var solo := RunSolo(dyn, seeds, SlotOps(ops, n, i));
    && solo.current == r.batch.envs[i]
    && solo.reports == SlotReports(r.reports, i)
    && solo.episodes == |seeds|
  }

  /** One operation seen from slot `i`: the new seeds it logs and the next state and report. */
  ghost predicate SlotAdvanced(dyn: Dynamics, r: Run, next: Run, i: nat, slotOp: SlotOp, solo: Solo)
    requires i < |next.batch.envs| && next.reports != [] && i < |next.reports[|next.reports| - 1]|
  {
    var seeds := SlotSeeds(next.batch.log, i);
    var t := SoloNext(dyn, seeds, solo, slotOp);
    && SlotSeeds(r.batch.log, i) <= seeds
    && t.current == next.batch.envs[i] && t.episodes == |seeds|
    && t.reports == solo.reports + [next.reports[|next.reports| - 1][i]]
  }

  lemma ResetAdvances(dyn: Dynamics, n: nat, r: Run, i: nat, solo: Solo)
    requires |r.batch.envs| == n && (r.batch.pending != None ==> |r.batch.pending.value| == n)
    requires i < n && solo.episodes == |SlotSeeds(r.batch.log, i)|
    ensures SlotAdvanced(dyn, r, Next(dyn, n, r, Reset), i, SlotReset, solo)
  {
    var seeds := match r.batch.pending case Some(s) => s case None => Consecutive(r.batch.nextSeed, n);
    SlotSeedsAppend(r.batch.log, AllEntries(seeds, r.batch.stepCount), i);
    SlotSeedsOfAll(seeds, r.batch.stepCount, i);
    hide SlotSeeds, AllEntries;
    assert SlotSeeds(AfterReset(r.batch).log, i) == SlotSeeds(r.batch.log, i) + [seeds[i]];
  }

  lemma StepAdvances(dyn: Dynamics, n: nat, r: Run, actions: seq<int>, i: nat, solo: Solo)
    requires |r.batch.envs| == n && (r.batch.pending != None ==> |r.batch.pending.value| == n)
    requires i < n == |actions|
    requires solo.current == r.batch.envs[i] && solo.episodes == |SlotSeeds(r.batch.log, i)|
    ensures SlotAdvanced(dyn, r, Next(dyn, n, r, Step(actions)), i, SlotStep(actions[i]), solo)
  {
    StepLogsSlot(dyn, r.batch, actions, i);
    hide SlotSeeds, ResetEntries, CountDone;
    var stepped := Stepped(r.batch.envs, actions);
    var b := AfterStep(dyn, r.batch, actions);
    assert StepReports(dyn, stepped, b.envs)[i]
        == Report(dyn.obs(b.envs[i]), dyn.reward(stepped[i]), dyn.done(stepped[i]),
                  if dyn.done(stepped[i]) then Some(dyn.obs(stepped[i])) else None);
    hide AfterStep, StepReports;
  }

  lemma StepLogsSlot(dyn: Dynamics, b: Batch, actions: seq<int>, i: nat)
    requires |actions| == |b.envs| && i < |actions|
    ensures var after := AfterStep(dyn, b, actions);
            var e := Advance(b.envs[i], actions[i]);
            if dyn.done(e) then
              var rank := CountDone(Dones(dyn, Stepped(b.envs, actions))[..i]);
              && SlotSeeds(after.log, i) == SlotSeeds(b.log, i) + [b.nextSeed + rank]
              && after.envs[i] == Started(b.nextSeed + rank)
            else SlotSeeds(after.log, i) == SlotSeeds(b.log, i) && after.envs[i] == e
  {
    hide SlotSeeds, ResetEntries, CountDone;
    var dones := Dones(dyn, Stepped(b.envs, actions));
    var entries := ResetEntries(dones, b.stepCount + 1, b.nextSeed);
    SlotSeedsAppend(b.log, entries, i);
    SlotSeedsOfResets(dones, b.stepCount + 1, b.nextSeed, i);
    StepGives(dyn, b, actions);
    hide AfterStep, SlotSeeds;
    assert SlotSeeds(b.log, i) + [] == SlotSeeds(b.log, i);
  }

  lemma StepGives(dyn: Dynamics, b: Batch, actions: seq<int>)
    requires |actions| == |b.envs|
    ensures var after := AfterStep(dyn, b, actions);
            var dones := Dones(dyn, Stepped(b.envs, actions));
            && after.log == b.log + ResetEntries(dones, b.stepCount + 1, b.nextSeed)
            && |dones| == |after.envs| == |actions|
            && forall i :: 0 <= i < |actions| ==>
                 var e := Advance(b.envs[i], actions[i]);
                 && dones[i] == dyn.done(e)
                 && after.envs[i] == if dones[i] then Started(b.nextSeed + CountDone(dones[..i])) else e
  {
    hide ResetEntries, CountDone;
  }

  /**
    * Any batched run is, slot by slot, a run of one environment that starts its episodes with the seeds the
    * reset log lists for that slot: observations, rewards, done flags and terminal observations agree.
    */
  lemma {:induction false} SlotsAreIndependent(dyn: Dynamics, n: nat, seedBase: int, ops: seq<Op>, i: nat)
    requires Fits(ops, n) && i < n
    ensures SlotMatches(dyn, n, seedBase, ops, i)
  {
    if ops != [] {
      var front := ops[..|ops| - 1];
      SlotsAreIndependent(dyn, n, seedBase, front, i);
      if ops[|ops| - 1].Seed? {
        assert SlotOps(ops, n, i) == SlotOps(front, n, i) + [] == SlotOps(front, n, i);
      } else {
        SlotStepMatches(dyn, n, seedBase, ops, i);
      }
    }
  }

  lemma SoloExtends(dyn: Dynamics, before: seq<int>, after: seq<int>, ops: seq<SlotOp>, op: SlotOp)
    requires before <= after && RunSolo(dyn, before, ops).episodes <= |before|
    ensures RunSolo(dyn, after, ops + [op]) == SoloNext(dyn, after, RunSolo(dyn, before, ops), op)
  {
    assert (ops + [op])[..|ops|] == ops;
    assert after == before + after[|before|..];
    SoloIgnoresLaterSeeds(dyn, before, after[|before|..], ops);
  }

  lemma RunUnfolds(dyn: Dynamics, n: nat, seedBase: int, ops: seq<Op>, i: nat)
    requires Fits(ops, n) && i < n && ops != [] && !ops[|ops| - 1].Seed?
    ensures var r := RunBatch(dyn, n, seedBase, ops[..|ops| - 1]);
            var next := RunBatch(dyn, n, seedBase, ops);
            var op := ops[|ops| - 1];
            && next == Next(dyn, n, r, op)
            && next.reports != [] && i < |next.reports[|next.reports| - 1]|
            && SlotReports(next.reports, i) == SlotReports(r.reports, i) + [next.reports[|next.reports| - 1][i]]
            && SlotOps(ops, n, i)
               == SlotOps(ops[..|ops| - 1], n, i) + [if op.Reset? then SlotReset else SlotStep(op.actions[i])]
  {
  }

  lemma SlotStepMatches(dyn: Dynamics, n: nat, seedBase: int, ops: seq<Op>, i: nat)
    requires Fits(ops, n) && i < n && ops != [] && !ops[|ops| - 1].Seed?
    requires SlotMatches(dyn, n, seedBase, ops[..|ops| - 1], i)
    ensures SlotMatches(dyn, n, seedBase, ops, i)
  {
    var front := ops[..|ops| - 1];
    var op := ops[|ops| - 1];
    hide RunBatch, SlotSeeds, SlotOps, Next, SoloNext, RunSolo, SlotReports;
    var r := RunBatch(dyn, n, seedBase, front);
    var next := RunBatch(dyn, n, seedBase, ops);
    var slotOp := if op.Reset? then SlotReset else SlotStep(op.actions[i]);
    var slotOps := SlotOps(front, n, i);
    var solo := RunSolo(dyn, SlotSeeds(r.batch.log, i), slotOps);
    RunUnfolds(dyn, n, seedBase, ops, i);
    if op.Reset? {
      ResetAdvances(dyn, n, r, i, solo);
    } else {
      StepAdvances(dyn, n, r, op.actions, i, solo);
    }
    SoloExtends(dyn, SlotSeeds(r.batch.log, i), SlotSeeds(next.batch.log, i), slotOps, slotOp);
  }

  // ----- When episodes start -----

  function StepsIn(ops: seq<Op>): nat {
    if ops == [] then 0 else StepsIn(ops[..|ops| - 1]) + if ops[|ops| - 1].Step? then 1 else 0
  }

  lemma {:induction false} EntriesCarryStep(dones: seq<bool>, step: nat, first: int)
    ensures forall k :: 0 <= k < |ResetEntries(dones, step, first)| ==> ResetEntries(dones, step, first)[k].step == step
  {
    if dones != [] {
      EntriesCarryStep(dones[..|dones| - 1], step, first);
    }
  }

  lemma NextCarriesSteps(dyn: Dynamics, n: nat, r: Run, op: Op)
    requires |r.batch.envs| == n && (r.batch.pending != None ==> |r.batch.pending.value| == n)
    requires op.Step? ==> |op.actions| == n
    ensures var b := Next(dyn, n, r, op).batch;
            && b.stepCount == r.batch.stepCount + (if op.Step? then 1 else 0)
            && r.batch.log <= b.log
            && forall k :: |r.batch.log| <= k < |b.log| ==> b.log[k].step == b.stepCount
  {
    if op.Step? {
      EntriesCarryStep(Dones(dyn, Stepped(r.batch.envs, op.actions)), r.batch.stepCount + 1, r.batch.nextSeed);
    }
    hide ResetEntries, CountDone, Dones, Stepped, Restarted;
  }

  /** Every operation logs the episodes it starts under the number of steps taken by then, its own included. */
  lemma {:induction false} LogCarriesSteps(dyn: Dynamics, n: nat, seedBase: int, ops: seq<Op>)
    requires Fits(ops, n)
    ensures var b := RunBatch(dyn, n, seedBase, ops).batch;
            && b.stepCount == StepsIn(ops)
            && (ops != [] ==>
                  var before := RunBatch(dyn, n, seedBase, ops[..|ops| - 1]).batch;
                  && before.log <= b.log
                  && forall k :: |before.log| <= k < |b.log| ==> b.log[k].step == StepsIn(ops))
  {
    if ops != [] {
      LogCarriesSteps(dyn, n, seedBase, ops[..|ops| - 1]);
      NextCarriesSteps(dyn, n, RunBatch(dyn, n, seedBase, ops[..|ops| - 1]), ops[|ops| - 1]);
      hide Next;
    }
  }

  /** The actions that slot `i` was given, in order. */
  function ActionsOf(ops: seq<Op>, n: nat, i: nat): seq<int>
    requires Fits(ops, n) && i < n
  {
    if ops == [] then []
    else
      var front, op := ActionsOf(ops[..|ops| - 1], n, i), ops[|ops| - 1];
      if op.Step? then front + [op.actions[i]] else front
  }

  /** The log entries of slot `i`. */
  function EntriesOf(log: seq<LogEntry>, i: nat): seq<LogEntry> {
    if log == [] then []
    else EntriesOf(log[..|log| - 1], i) + if log[|log| - 1].slot == i then [log[|log| - 1]] else []
  }

  function LastN(xs: seq<int>, k: nat): seq<int>
    requires k <= |xs|
  {
    xs[|xs| - k..]
  }

  /** The slot is in the episode its last entry started, and its actions are those it was given since. */
  ghost predicate InLastEpisode(e: Episode, last: LogEntry, steps: nat, given: seq<int>) {
    && e.seed == Some(last.seed)
    && last.step <= steps == |given|
    && e.actions == LastN(given, steps - last.step)
  }

  lemma {:induction false} EntriesAppend(a: seq<LogEntry>, b: seq<LogEntry>, i: nat)
    ensures EntriesOf(a + b, i) == EntriesOf(a, i) + EntriesOf(b, i)
  {
    if b == [] {
      assert a + b == a;
    } else {
      EntriesAppend(a, b[..|b| - 1], i);
      assert (a + b)[..|a + b| - 1] == a + b[..|b| - 1];
    }
  }

  lemma EntriesOfOne(entries: seq<LogEntry>, i: nat)
    requires |entries| <= 1
    ensures EntriesOf(entries, i) == if entries != [] && entries[0].slot == i then entries else []
  {
    if entries != [] {
      assert entries[..0] == [];
    }
  }

  lemma {:induction false} EntriesOfAll(seeds: seq<int>, step: nat, i: nat)
    ensures EntriesOf(AllEntries(seeds, step), i) == if i < |seeds| then [LogEntry(step, i, seeds[i])] else []
  {
    hide EntriesOf;
    if seeds == [] {
      EntriesOfOne(AllEntries(seeds, step), i);
    } else {
      var n := |seeds| - 1;
      var front, last := AllEntries(seeds[..n], step), [LogEntry(step, n, seeds[n])];
      EntriesOfAll(seeds[..n], step, i);
      EntriesOfOne(last, i);
      EntriesAppend(front, last, i);
      assert AllEntries(seeds, step) == front + last;
      hide AllEntries;
    }
  }

  lemma {:induction false} EntriesOfResets(dones: seq<bool>, step: nat, first: int, i: nat)
    ensures EntriesOf(ResetEntries(dones, step, first), i)
         == if i < |dones| && dones[i] then [LogEntry(step, i, first + CountDone(dones[..i]))] else []
  {
    hide EntriesOf, CountDone, ResetEntries;
    if dones == [] {
      NoResets(step, first);
      EntriesOfOne([], i);
    } else {
      ResetEntriesStep(dones, step, first);
      var front := dones[..|dones| - 1];
      EntriesOfResets(front, step, first, i);
      var last := if dones[|front|] then [LogEntry(step, |front|, first + CountDone(front))] else [];
      EntriesOfOne(last, i);
      EntriesAppend(ResetEntries(front, step, first), last, i);
      if i < |front| {
        assert dones[..i] == front[..i];
      } else if i == |front| {
        assert dones[..i] == front;
      }
    }
  }

  lemma NoResets(step: nat, first: int)
    ensures ResetEntries([], step, first) == []
  {
  }

  /** The slot was restarted with a seed logged under this number of steps. */
  ghost predicate Restarts(before: Batch, after: Batch, i: nat, step: nat)
    requires i < |after.envs|
  {
    exists seed: int ::
      && EntriesOf(after.log, i) == EntriesOf(before.log, i) + [LogEntry(step, i, seed)]
      && after.envs[i] == Episode(Some(seed), [])
  }

  ghost predicate Continues(before: Batch, after: Batch, i: nat, action: int)
    requires i < |after.envs| == |before.envs|
  {
    && EntriesOf(after.log, i) == EntriesOf(before.log, i)
    && after.envs[i] == Episode(before.envs[i].seed, before.envs[i].actions + [action])
  }

  lemma ResetRestarts(b: Batch, i: nat)
    requires (b.pending != None ==> |b.pending.value| == |b.envs|) && i < |b.envs|
    ensures |AfterReset(b).envs| == |b.envs| && Restarts(b, AfterReset(b), i, b.stepCount)
  {
    var seeds := match b.pending case Some(s) => s case None => Consecutive(b.nextSeed, |b.envs|);
    EntriesAppend(b.log, AllEntries(seeds, b.stepCount), i);
    EntriesOfAll(seeds, b.stepCount, i);
    hide EntriesOf, AllEntries;
    assert EntriesOf(AfterReset(b).log, i) == EntriesOf(b.log, i) + [LogEntry(b.stepCount, i, seeds[i])];
  }

  lemma StepMoves(dyn: Dynamics, b: Batch, actions: seq<int>, i: nat)
    requires |actions| == |b.envs| && i < |b.envs|
    ensures var after := AfterStep(dyn, b, actions);
            && |after.envs| == |b.envs|
            && (Restarts(b, after, i, b.stepCount + 1) || Continues(b, after, i, actions[i]))
  {
    hide EntriesOf, ResetEntries, CountDone, AfterStep, Dones, Stepped, Restarted, Restarts;
    var dones := Dones(dyn, Stepped(b.envs, actions));
    var after := AfterStep(dyn, b, actions);
    StepGivesSlot(dyn, b, actions, i);
    EntriesAppend(b.log, ResetEntries(dones, b.stepCount + 1, b.nextSeed), i);
    EntriesOfResets(dones, b.stepCount + 1, b.nextSeed, i);
    if dones[i] {
      RestartsWith(b, after, i, b.stepCount + 1, b.nextSeed + CountDone(dones[..i]));
    } else {
      assert EntriesOf(b.log, i) + [] == EntriesOf(b.log, i);
    }
  }

  lemma StepGivesSlot(dyn: Dynamics, b: Batch, actions: seq<int>, i: nat)
    requires |actions| == |b.envs| && i < |b.envs|
    ensures var after, dones := AfterStep(dyn, b, actions), Dones(dyn, Stepped(b.envs, actions));
            && after.log == b.log + ResetEntries(dones, b.stepCount + 1, b.nextSeed)
            && |dones| == |after.envs| == |b.envs|
            && after.envs[i] == if dones[i] then Episode(Some(b.nextSeed + CountDone(dones[..i])), [])
                                else Episode(b.envs[i].seed, b.envs[i].actions + [actions[i]])
  {
    hide ResetEntries, CountDone;
    StepGives(dyn, b, actions);
    hide AfterStep, Dones, Stepped, Restarted;
  }

  lemma RestartsWith(before: Batch, after: Batch, i: nat, step: nat, seed: int)
    requires i < |after.envs| && after.envs[i] == Episode(Some(seed), [])
    requires EntriesOf(after.log, i) == EntriesOf(before.log, i) + [LogEntry(step, i, seed)]
    ensures Restarts(before, after, i, step)
  {
  }

  ghost predicate InEpisode(b: Batch, i: nat, given: seq<int>)
    requires i < |b.envs|
  {
    var entries := EntriesOf(b.log, i);
    && |given| == b.stepCount
    && if entries == [] then b.envs[i] == Episode(None, given)
       else InLastEpisode(b.envs[i], entries[|entries| - 1], b.stepCount, given)
  }

  lemma RestartedIsInEpisode(before: Batch, after: Batch, i: nat, given: seq<int>)
    requires i < |after.envs| && after.stepCount == |given| && Restarts(before, after, i, after.stepCount)
    ensures InEpisode(after, i, given)
  {
    hide EntriesOf;
  }

  lemma ContinuedIsInEpisode(before: Batch, after: Batch, i: nat, given: seq<int>, action: int)
    requires i < |after.envs| == |before.envs| && after.stepCount == before.stepCount + 1
    requires InEpisode(before, i, given) && Continues(before, after, i, action)
    ensures InEpisode(after, i, given + [action])
  {
    hide EntriesOf;
    var entries := EntriesOf(before.log, i);
    if entries != [] {
      var k := before.stepCount - entries[|entries| - 1].step;
      assert LastN(given + [action], k + 1) == LastN(given, k) + [action];
    }
  }

  /**
    * Over every run a slot is in the episode that its last log entry started: seeded as logged, and with the actions it
    * was given since, as many as steps were taken after the number of steps the entry carries. Before the first entry
    * it is as constructed but for its actions.
    */
  lemma {:induction false} SlotsAreInTheirEpisodes(dyn: Dynamics, n: nat, seedBase: int, ops: seq<Op>, i: nat)
    requires Fits(ops, n) && i < n
    ensures InEpisode(RunBatch(dyn, n, seedBase, ops).batch, i, ActionsOf(ops, n, i))
  {
    if ops != [] {
      var front, op := ops[..|ops| - 1], ops[|ops| - 1];
      SlotsAreInTheirEpisodes(dyn, n, seedBase, front, i);
      RunSnoc(dyn, n, seedBase, ops);
      var r := RunBatch(dyn, n, seedBase, front);
      hide RunBatch;
      NextBatch(dyn, n, r, op);
      hide Next, InEpisode, Restarts, Continues, AfterReset, AfterStep;
      var given := ActionsOf(front, n, i);
      StepCounts(r.batch, i, given);
      match op
      case Seed(base) => SameEpisode(r.batch, Next(dyn, n, r, op).batch, i, given);
      case Reset =>
        ResetRestarts(r.batch, i);
        ResetKeepsSteps(r.batch);
        RestartedIsInEpisode(r.batch, AfterReset(r.batch), i, given);
      case Step(actions) =>
        StepMoves(dyn, r.batch, actions, i);
        StepAddsStep(dyn, r.batch, actions);
        if Restarts(r.batch, AfterStep(dyn, r.batch, actions), i, r.batch.stepCount + 1) {
          RestartedIsInEpisode(r.batch, AfterStep(dyn, r.batch, actions), i, given + [actions[i]]);
        } else {
          ContinuedIsInEpisode(r.batch, AfterStep(dyn, r.batch, actions), i, given, actions[i]);
        }
    }
  }

  lemma NextBatch(dyn: Dynamics, n: nat, r: Run, op: Op)
    requires |r.batch.envs| == n && (r.batch.pending != None ==> |r.batch.pending.value| == n)
    requires op.Step? ==> |op.actions| == n
    ensures var b := Next(dyn, n, r, op).batch;
            match op
            case Seed(_) => b.envs == r.batch.envs && b.log == r.batch.log && b.stepCount == r.batch.stepCount
            case Reset => b == AfterReset(r.batch)
            case Step(actions) => b == AfterStep(dyn, r.batch, actions)
  {
  }

  lemma StepCounts(b: Batch, i: nat, given: seq<int>)
    requires i < |b.envs| && InEpisode(b, i, given)
    ensures |given| == b.stepCount
  {
  }

  lemma SameEpisode(b: Batch, c: Batch, i: nat, given: seq<int>)
    requires i < |b.envs| && c.envs == b.envs && c.log == b.log && c.stepCount == b.stepCount
    requires InEpisode(b, i, given)
    ensures InEpisode(c, i, given)
  {
  }

  lemma ResetKeepsSteps(b: Batch)
    ensures AfterReset(b).stepCount == b.stepCount
  {
  }

  lemma StepAddsStep(dyn: Dynamics, b: Batch, actions: seq<int>)
    requires |actions| == |b.envs|
    ensures AfterStep(dyn, b, actions).stepCount == b.stepCount + 1
  {
  }

  // ----- Seeds -----

  /** No call to `seed`. */
  predicate Unseeded(ops: seq<Op>) {
    forall i :: 0 <= i < |ops| ==> !ops[i].Seed?
  }

  /** Log entries from position `from` on carry consecutive seeds, and the counter is just past them. */
  ghost predicate Counted(b: Batch, from: nat, seedBase: int) {
    && from <= |b.log| && b.pending == None
    && b.nextSeed == seedBase + (|b.log| - from)
    && forall k :: from <= k < |b.log| ==> b.log[k].seed == seedBase + (k - from)
  }

  lemma {:induction false} ResetEntriesCounted(dones: seq<bool>, step: nat, first: int)
    ensures |ResetEntries(dones, step, first)| == CountDone(dones)
    ensures forall k :: 0 <= k < CountDone(dones) ==> ResetEntries(dones, step, first)[k].seed == first + k
  {
    if dones != [] {
      ResetEntriesCounted(dones[..|dones| - 1], step, first);
    }
  }

  lemma NextCounted(dyn: Dynamics, n: nat, r: Run, op: Op, from: nat, seedBase: int)
    requires |r.batch.envs| == n && !op.Seed? && (op.Step? ==> |op.actions| == n)
    requires Counted(r.batch, from, seedBase)
    ensures Counted(Next(dyn, n, r, op).batch, from, seedBase)
  {
    if op.Step? {
      var dones := Dones(dyn, Stepped(r.batch.envs, op.actions));
      ResetEntriesCounted(dones, r.batch.stepCount + 1, r.batch.nextSeed);
      hide ResetEntries, CountDone;
    }
  }

  /** If `seed` is never called, the drawn seeds are consecutive from the base, hence distinct. */
  lemma {:induction false} DrawnSeedsAreConsecutive(dyn: Dynamics, n: nat, seedBase: int, ops: seq<Op>)
    requires Fits(ops, n) && Unseeded(ops)
    ensures Counted(RunBatch(dyn, n, seedBase, ops).batch, 0, seedBase)
  {
    if ops != [] {
      var front := ops[..|ops| - 1];
      DrawnSeedsAreConsecutive(dyn, n, seedBase, front);
      NextCounted(dyn, n, RunBatch(dyn, n, seedBase, front), ops[|ops| - 1], 0, seedBase);
    }
  }

  // ----- Seeds when `seed` is called -----

  ghost predicate SeedsDistinct(log: seq<LogEntry>) {
    forall k, l :: 0 <= k < l < |log| ==> log[k].seed != log[l].seed
  }

  ghost predicate Occurs(log: seq<LogEntry>, seed: int) {
    exists k :: 0 <= k < |log| && log[k].seed == seed
  }

  /** None of the `n` seeds from `low` is in the log. */
  ghost predicate NoneOccurs(log: seq<LogEntry>, low: int, n: nat) {
    forall x: int :: low <= x < low + n ==> !Occurs(log, x)
  }

  /** The base that the last call to `seed` set aside, unless a reset has used it. */
  function SetAside(ops: seq<Op>): Option<int> {
    if ops == [] then None
    else
      match ops[|ops| - 1]
      case Seed(base) => Some(base)
      case Reset => None
      case Step(_) => SetAside(ops[..|ops| - 1])
  }

  /** The bases of the seedings that a reset has used, in order. */
  function HandedOut(ops: seq<Op>): seq<int> {
    if ops == [] then []
    else
      var front := ops[..|ops| - 1];
      HandedOut(front) + if ops[|ops| - 1].Reset? && SetAside(front).Some? then [SetAside(front).value] else []
  }

  /** Those, and the base still set aside. */
  function Bases(ops: seq<Op>): seq<int> {
    HandedOut(ops) + if SetAside(ops).Some? then [SetAside(ops).value] else []
  }

  /** No two of the ranges of `n` seeds from these bases meet. */
  ghost predicate Apart(bases: seq<int>, n: nat) {
    forall j, k :: 0 <= j < k < |bases| ==> bases[j] + n <= bases[k] || bases[k] + n <= bases[j]
  }

  /** The `n` seeds from `base` are none of those from `low` to below `high`. */
  predicate Clear(base: int, n: nat, low: int, high: int) {
    high <= low || base + n <= low || high <= base
  }

  ghost predicate NoneRepeats(bases: seq<int>, n: nat, low: int, high: int) {
    Apart(bases, n) && forall j :: 0 <= j < |bases| ==> Clear(bases[j], n, low, high)
  }

  ghost predicate HandedOutSeed(bases: seq<int>, n: nat, seed: int) {
    exists j :: 0 <= j < |bases| && bases[j] <= seed < bases[j] + n
  }

  /** The counter has passed the seed, or a seeding has handed it out. */
  ghost predicate Taken(bases: seq<int>, n: nat, low: int, high: int, seed: int) {
    low <= seed < high || HandedOutSeed(bases, n, seed)
  }

  /** What the log holds: the counter's seeds so far and the ranges handed out; and when it repeats none. */
  ghost predicate LogHolds(b: Batch, bases: seq<int>, n: nat, seedBase: int) {
    && seedBase <= b.nextSeed
    && (forall x: int :: Occurs(b.log, x) <==> Taken(bases, n, seedBase, b.nextSeed, x))
    && (SeedsDistinct(b.log) <==> NoneRepeats(bases, n, seedBase, b.nextSeed))
  }

  /** New entries with the seeds from `low` to below `low + |more|`. */
  lemma LogExtended(log: seq<LogEntry>, more: seq<LogEntry>, low: int)
    requires forall k :: 0 <= k < |more| ==> more[k].seed == low + k
    ensures forall x: int :: Occurs(log + more, x) <==> Occurs(log, x) || low <= x < low + |more|
    ensures SeedsDistinct(log + more)
            <==> SeedsDistinct(log) && NoneOccurs(log, low, |more|)
  {
    var all := log + more;
    forall x: int ensures Occurs(all, x) <==> Occurs(log, x) || low <= x < low + |more| {
      if Occurs(log, x) {
        var k :| 0 <= k < |log| && log[k].seed == x;
        assert all[k].seed == x;
      }
      if low <= x < low + |more| {
        assert all[|log| + (x - low)].seed == x;
      }
    }
    assert forall k :: 0 <= k < |log| ==> all[k] == log[k];
    if SeedsDistinct(all) {
      forall x: int | low <= x < low + |more| ensures !Occurs(log, x) {
        assert all[|log| + (x - low)].seed == x;
      }
    }
    if SeedsDistinct(log) && NoneOccurs(log, low, |more|) {
      forall k, l | 0 <= k < l < |all| ensures all[k].seed != all[l].seed {
        if k < |log| <= l {
          assert !Occurs(log, low + (l - |log|));
        }
      }
    }
  }

  lemma DrawnHolds(b: Batch, more: seq<LogEntry>, bases: seq<int>, n: nat, seedBase: int)
    requires n > 0 && LogHolds(b, bases, n, seedBase)
    requires forall k :: 0 <= k < |more| ==> more[k].seed == b.nextSeed + k
    ensures LogHolds(b.(log := b.log + more, nextSeed := b.nextSeed + |more|), bases, n, seedBase)
  {
    hide Occurs, SeedsDistinct;
    LogExtended(b.log, more, b.nextSeed);
    DrawMeetsRanges(bases, n, seedBase, b.nextSeed, |more|);
    NoneTakenAlike(b, bases, b.nextSeed, |more|, n, seedBase);
    hide NoneOccurs, NoneTaken, NoneRepeats;
  }

  lemma SeededHolds(b: Batch, more: seq<LogEntry>, bases: seq<int>, base: int, n: nat, seedBase: int)
    requires n > 0 && LogHolds(b, bases, n, seedBase) && |more| == n
    requires forall k :: 0 <= k < |more| ==> more[k].seed == base + k
    ensures LogHolds(b.(log := b.log + more), bases + [base], n, seedBase)
  {
    hide Occurs, SeedsDistinct;
    LogExtended(b.log, more, base);
    var all := bases + [base];
    forall x: int ensures HandedOutSeed(all, n, x) <==> HandedOutSeed(bases, n, x) || base <= x < base + n {
      if HandedOutSeed(bases, n, x) {
        var j :| 0 <= j < |bases| && bases[j] <= x < bases[j] + n;
        assert all[j] == bases[j];
      }
      assert all[|bases|] == base;
    }
    SeparateRanges(bases, base, n, seedBase, b.nextSeed);
    NoneTakenAlike(b, bases, base, n, n, seedBase);
    hide NoneOccurs, NoneTaken, NoneRepeats;
  }

  lemma NoneTakenAlike(b: Batch, bases: seq<int>, first: int, count: nat, n: nat, seedBase: int)
    requires LogHolds(b, bases, n, seedBase)
    ensures NoneOccurs(b.log, first, count) <==> NoneTaken(bases, n, seedBase, b.nextSeed, first, count)
  {
    hide Occurs, SeedsDistinct, NoneRepeats, Taken;
  }

  /** None of the `count` seeds from `first` is the counter's or was handed out. */
  ghost predicate NoneTaken(bases: seq<int>, n: nat, low: int, high: int, first: int, count: nat) {
    forall x: int :: first <= x < first + count ==> !Taken(bases, n, low, high, x)
  }

  /** Drawing further repeats nothing exactly when none of the seeds drawn is there yet. */
  lemma DrawMeetsRanges(bases: seq<int>, n: nat, low: int, high: int, count: nat)
    requires n > 0 && low <= high
    ensures NoneRepeats(bases, n, low, high + count)
            <==> NoneRepeats(bases, n, low, high) && NoneTaken(bases, n, low, high, high, count)
  {
    if NoneRepeats(bases, n, low, high) && NoneTaken(bases, n, low, high, high, count) {
      forall j | 0 <= j < |bases| ensures Clear(bases[j], n, low, high + count) {
        var x := if bases[j] >= high then bases[j] else high;
        assert high <= x < high + count ==> !Taken(bases, n, low, high, x);
      }
    }
  }

  /** One range more meets nothing exactly when none of its seeds is there yet. */
  lemma SeparateRanges(bases: seq<int>, base: int, n: nat, low: int, high: int)
    requires n > 0 && low <= high
    ensures NoneRepeats(bases + [base], n, low, high)
            <==> NoneRepeats(bases, n, low, high) && NoneTaken(bases, n, low, high, base, n)
  {
    var all := bases + [base];
    assert all[|bases|] == base && forall j :: 0 <= j < |bases| ==> all[j] == bases[j];
    if NoneRepeats(all, n, low, high) {
      assert Clear(all[|bases|], n, low, high);
      forall x: int | base <= x < base + n ensures !Taken(bases, n, low, high, x) {
        assert forall j :: 0 <= j < |bases| ==> all[j] + n <= all[|bases|] || all[|bases|] + n <= all[j];
      }
      forall j | 0 <= j < |bases| ensures Clear(bases[j], n, low, high) {
        assert Clear(all[j], n, low, high);
      }
    }
    if NoneTaken(bases, n, low, high, base, n) {
      forall j | 0 <= j < |bases| ensures bases[j] + n <= base || base + n <= bases[j] {
        assert !Taken(bases, n, low, high, if bases[j] >= base && bases[j] < base + n then bases[j] else base);
      }
      var x := if base >= low then base else low;
      assert base <= x < base + n ==> !Taken(bases, n, low, high, x);
    }
  }

  /** The seeds set aside are those of the base set aside. */
  ghost predicate Pending(b: Batch, aside: Option<int>, n: nat) {
    b.pending == match aside case Some(base) => Some(Consecutive(base, n)) case None => None
  }

  lemma RunSnoc(dyn: Dynamics, n: nat, seedBase: int, ops: seq<Op>)
    requires Fits(ops, n) && ops != []
    ensures RunBatch(dyn, n, seedBase, ops)
         == Next(dyn, n, RunBatch(dyn, n, seedBase, ops[..|ops| - 1]), ops[|ops| - 1])
  {
    hide Next;
  }

  lemma StartHolds(b: Batch, n: nat, seedBase: int)
    requires b.log == [] && b.nextSeed == seedBase
    ensures LogHolds(b, [], n, seedBase)
  {
  }

  lemma ResetHolds(dyn: Dynamics, n: nat, r: Run, bases: seq<int>, aside: Option<int>, seedBase: int)
    requires |r.batch.envs| == n && (r.batch.pending != None ==> |r.batch.pending.value| == n)
    requires n > 0 && LogHolds(r.batch, bases, n, seedBase) && Pending(r.batch, aside, n)
    ensures var b := Next(dyn, n, r, Reset).batch;
            && Pending(b, None, n) && b.nextSeed == r.batch.nextSeed + (if aside.None? then n else 0)
            && LogHolds(b, bases + (if aside.Some? then [aside.value] else []), n, seedBase)
  {
    var b := r.batch;
    var seeds := match b.pending case Some(s) => s case None => Consecutive(b.nextSeed, n);
    var more := AllEntries(seeds, b.stepCount);
    assert bases + [] == bases;
    if aside.None? {
      DrawnHolds(b, more, bases, n, seedBase);
    } else {
      SeededHolds(b, more, bases, aside.value, n, seedBase);
    }
    hide NoneRepeats, HandedOutSeed, SeedsDistinct, Occurs;
  }

  lemma StepHolds(dyn: Dynamics, n: nat, r: Run, actions: seq<int>, bases: seq<int>, seedBase: int)
    requires |r.batch.envs| == n == |actions| && (r.batch.pending != None ==> |r.batch.pending.value| == n)
    requires n > 0 && LogHolds(r.batch, bases, n, seedBase)
    ensures var b := Next(dyn, n, r, Step(actions)).batch;
            b.pending == r.batch.pending && b.nextSeed >= r.batch.nextSeed && LogHolds(b, bases, n, seedBase)
  {
    var b := r.batch;
    var dones := Dones(dyn, Stepped(b.envs, actions));
    var more := ResetEntries(dones, b.stepCount + 1, b.nextSeed);
    ResetEntriesCounted(dones, b.stepCount + 1, b.nextSeed);
    hide ResetEntries, CountDone, NoneRepeats, HandedOutSeed, SeedsDistinct, Occurs;
    DrawnHolds(b, more, bases, n, seedBase);
  }

  /** Over every run the log is what the counter and the seedings handed out. */
  lemma {:induction false} LogOfRun(dyn: Dynamics, n: nat, seedBase: int, ops: seq<Op>)
    requires Fits(ops, n) && n > 0
    ensures var b := RunBatch(dyn, n, seedBase, ops).batch;
            LogHolds(b, HandedOut(ops), n, seedBase) && Pending(b, SetAside(ops), n)
  {
    hide LogHolds, Next;
    if ops == [] {
      StartHolds(RunBatch(dyn, n, seedBase, []).batch, n, seedBase);
    } else {
      var front := ops[..|ops| - 1];
      LogOfRun(dyn, n, seedBase, front);
      RunSnoc(dyn, n, seedBase, ops);
      var r := RunBatch(dyn, n, seedBase, front);
      hide RunBatch;
      assert HandedOut(front) + [] == HandedOut(front);
      match ops[|ops| - 1]
      case Seed(base) => SeedSetsAside(dyn, n, r, base, HandedOut(front), seedBase);
      case Reset => ResetHolds(dyn, n, r, HandedOut(front), SetAside(front), seedBase);
      case Step(actions) => StepHolds(dyn, n, r, actions, HandedOut(front), seedBase);
    }
  }

  lemma SeedSetsAside(dyn: Dynamics, n: nat, r: Run, base: int, bases: seq<int>, seedBase: int)
    requires |r.batch.envs| == n && (r.batch.pending != None ==> |r.batch.pending.value| == n)
    requires LogHolds(r.batch, bases, n, seedBase)
    ensures var b := Next(dyn, n, r, Seed(base)).batch;
            Pending(b, Some(base), n) && LogHolds(b, bases, n, seedBase)
  {
  }

  /**
    * A run, however often it was seeded, repeats no seed if and only if the ranges that were handed out are apart from
    * each other and from what the counter has passed. Seedings that no reset used hand out nothing.
    */
  lemma SeededRunReusesSeeds(dyn: Dynamics, n: nat, seedBase: int, ops: seq<Op>)
    requires Fits(ops, n) && n > 0
    ensures var b := RunBatch(dyn, n, seedBase, ops).batch;
            SeedsDistinct(b.log) <==> NoneRepeats(HandedOut(ops), n, seedBase, b.nextSeed)
  {
    hide RunBatch, SeedsDistinct, NoneRepeats, Occurs;
    LogOfRun(dyn, n, seedBase, ops);
  }

  // ----- When seeding is safe -----

  /** The log of `ops` and then `rest`. */
  function LogAfter(dyn: Dynamics, n: nat, seedBase: int, ops: seq<Op>, rest: seq<Op>): seq<LogEntry>
    requires Fits(ops, n) && Fits(rest, n)
  {
    RunBatch(dyn, n, seedBase, ops + rest).batch.log
  }

  /** Nothing more is seeded, so at most what is set aside is still handed out. */
  lemma {:induction false} UnseededHandsOut(ops: seq<Op>, rest: seq<Op>)
    requires Unseeded(rest)
    ensures || (SetAside(ops + rest) == SetAside(ops) && HandedOut(ops + rest) == HandedOut(ops))
            || (SetAside(ops + rest) == None && HandedOut(ops + rest) == Bases(ops))
  {
    if rest == [] {
      assert ops + rest == ops;
    } else {
      UnseededHandsOut(ops, rest[..|rest| - 1]);
      assert (ops + rest)[..|ops + rest| - 1] == ops + rest[..|rest| - 1];
    }
  }

  function Resets(m: nat): seq<Op> {
    seq(m, _ => Reset)
  }

  /** A reset hands out what is set aside, and each one after it draws. */
  lemma {:induction false} ResetsDraw(dyn: Dynamics, n: nat, seedBase: int, ops: seq<Op>, m: nat)
    requires Fits(ops, n) && n > 0
    ensures Fits(ops + Resets(m + 1), n)
    ensures HandedOut(ops + Resets(m + 1)) == Bases(ops) && SetAside(ops + Resets(m + 1)) == None
    ensures RunBatch(dyn, n, seedBase, ops + Resets(m + 1)).batch.nextSeed
            >= RunBatch(dyn, n, seedBase, ops).batch.nextSeed + m + if SetAside(ops).None? then 1 else 0
  {
    hide RunBatch, Next;
    var all := ops + Resets(m + 1);
    var front := ops + Resets(m);
    assert all[..|all| - 1] == front && all[|all| - 1] == Reset;
    RunSnoc(dyn, n, seedBase, all);
    LogOfRun(dyn, n, seedBase, front);
    if m > 0 {
      ResetsDraw(dyn, n, seedBase, ops, m - 1);
    } else {
      assert front == ops;
    }
    ResetHolds(dyn, n, RunBatch(dyn, n, seedBase, front), HandedOut(front), SetAside(front), seedBase);
  }

  /** The ranges are apart from each other, and all of them below the base of construction. */
  ghost predicate Safe(bases: seq<int>, n: nat, seedBase: int) {
    Apart(bases, n) && forall j :: 0 <= j < |bases| ==> bases[j] + n <= seedBase
  }

  lemma SafeStaysClear(bases: seq<int>, n: nat, seedBase: int, high: int, k: nat)
    requires Safe(bases, n, seedBase) && k <= |bases|
    ensures NoneRepeats(bases[..k], n, seedBase, high)
  {
  }

  /**
    * After any run, however often it was seeded, no seed is ever repeated whatever is run next without seeding again,
    * if and only if the ranges handed out or still set aside are apart and lie below the base given at construction:
    * the counter may have passed that base, and otherwise enough resets take it there.
    */
  lemma SeedingIsSafeIff(dyn: Dynamics, n: nat, seedBase: int, ops: seq<Op>)
    requires Fits(ops, n) && n > 0
    ensures (forall rest: seq<Op> :: Fits(rest, n) && Unseeded(rest) ==>
               SeedsDistinct(LogAfter(dyn, n, seedBase, ops, rest)))
            <==> Safe(Bases(ops), n, seedBase)
  {
    hide RunBatch, SeedsDistinct, NoneRepeats, Safe, HandedOut, SetAside, Unseeded;
    if Safe(Bases(ops), n, seedBase) {
      forall rest: seq<Op> | Fits(rest, n) && Unseeded(rest)
        ensures SeedsDistinct(LogAfter(dyn, n, seedBase, ops, rest))
      {
        SeededRunReusesSeeds(dyn, n, seedBase, ops + rest);
        UnseededHandsOut(ops, rest);
        var high := RunBatch(dyn, n, seedBase, ops + rest).batch.nextSeed;
        SafeStaysClear(Bases(ops), n, seedBase, high, |HandedOut(ops)|);
        SafeStaysClear(Bases(ops), n, seedBase, high, |Bases(ops)|);
        assert Bases(ops)[..|HandedOut(ops)|] == HandedOut(ops) && Bases(ops)[..|Bases(ops)|] == Bases(ops);
      }
    } else {
      var m := UnsafeWithin(Bases(ops), n, seedBase);
      ResetsDraw(dyn, n, seedBase, ops, m);
      LogOfRun(dyn, n, seedBase, ops);
      SeededRunReusesSeeds(dyn, n, seedBase, ops + Resets(m + 1));
      ResetsAreUnseeded(m + 1, n);
      assert !SeedsDistinct(LogAfter(dyn, n, seedBase, ops, Resets(m + 1)));
    }
  }

  lemma ResetsAreUnseeded(m: nat, n: nat)
    ensures Unseeded(Resets(m)) && Fits(Resets(m), n)
  {
  }

  /** Ranges that are not safe meet each other, or what the counter has passed after `m` seeds. */
  lemma UnsafeWithin(bases: seq<int>, n: nat, seedBase: int) returns (m: nat)
    requires n > 0 && !Safe(bases, n, seedBase)
    ensures forall high :: high >= seedBase + m ==> !NoneRepeats(bases, n, seedBase, high)
  {
    m := 0;
    if Apart(bases, n) {
      var j :| 0 <= j < |bases| && bases[j] + n > seedBase;
      m := if bases[j] >= seedBase then bases[j] - seedBase + 1 else 1;
      assert forall high :: high >= seedBase + m ==> !Clear(bases[j], n, seedBase, high);
    }
  }

  /**
    * Seeding with the base of construction and resetting twice hands out every seed twice; so does seeding with it
    * after a reset, though the seeds then lie below the counter.
    */
  lemma SeedZeroRepeats(dyn: Dynamics, n: nat)
    requires n > 0
    ensures !SeedsDistinct(RunBatch(dyn, n, 0, [Seed(0), Reset, Reset]).batch.log)
    ensures !SeedsDistinct(RunBatch(dyn, n, 0, [Reset, Seed(0), Reset]).batch.log)
  {
    hide RunBatch, Next, SeedsDistinct, NoneRepeats, HandedOut, SetAside;
    var early, late := [Seed(0)], [Reset, Seed(0)];
    assert early + Resets(2) == [Seed(0), Reset, Reset] && late + Resets(1) == [Reset, Seed(0), Reset];
    assert [] + Resets(1) == [Reset];
    BasesOfZero();
    ResetsDraw(dyn, n, 0, early, 1);
    LogOfRun(dyn, n, 0, early);
    SeededRunReusesSeeds(dyn, n, 0, early + Resets(2));
    ZeroMeets(n, RunBatch(dyn, n, 0, early + Resets(2)).batch.nextSeed);
    ResetsDraw(dyn, n, 0, [], 0);
    LogOfRun(dyn, n, 0, []);
    SeedKeepsCounter(dyn, n, 0, late);
    assert late[..1] == [Reset];
    ResetsDraw(dyn, n, 0, late, 0);
    SeededRunReusesSeeds(dyn, n, 0, late + Resets(1));
    ZeroMeets(n, RunBatch(dyn, n, 0, late + Resets(1)).batch.nextSeed);
  }

  lemma BasesOfZero()
    ensures Bases([Seed(0)]) == Bases([Reset, Seed(0)]) == [0] && SetAside([]) == None
  {
    assert [Seed(0)][..0] == [] && [Reset, Seed(0)][..1] == [Reset] && [Reset][..0] == [];
  }

  lemma ZeroMeets(n: nat, high: int)
    requires n > 0 && high > 0
    ensures !NoneRepeats([0], n, 0, high)
  {
    assert [0][0] == 0;
  }

  lemma SeedKeepsCounter(dyn: Dynamics, n: nat, seedBase: int, ops: seq<Op>)
    requires Fits(ops, n) && ops != [] && ops[|ops| - 1].Seed?
    ensures var before := RunBatch(dyn, n, seedBase, ops[..|ops| - 1]).batch;
            RunBatch(dyn, n, seedBase, ops).batch.nextSeed == before.nextSeed
  {
  }
}
