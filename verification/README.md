# Execution simulators: model and proofs

Under the execution research in this repository lie small deterministic machines: a discrete-event simulator that
fills orders, an order book that adversaries thin out, a replay of exchange data, a batch of training environments,
a risk-gated scheduler, agents that chase a schedule with discrete actions, and streaming accumulators that report
cost and tail risk. This project models those machines in Dafny and proves what they keep over every run.

Prices and quantities are exact reals, times are integer ticks of one nanosecond, so a fill lands one tick and a
strategy's order a thousand ticks after the event that caused it. Square root, exponential and the scheduler's
inventory curve are parameters; where a proof needs a fact about one it is a named predicate (`IsDecay`, `IsExp`,
`IsExponential`, `IsSqrt`, `Falls`). `HalvingIsDecay` shows that `IsDecay` can be met.

## The modules

- `Queue` is an array-shaped binary heap under a reversed comparator. It refines a list kept in order by
  stable insertion, and that list is what the laws are about.
- `TransientImpact`, `Execution`, `Markets` and `EventLoop` are the simulator. Every object has a value function that
  says what one event does; methods are proved to compute it, and `ExecutionLaws`, `ExecutionCharges` and `EventLoop`
  prove what holds over all runs of it, finished or not. `Answers` ties what the loop submits to what the strategies
  answer, and `SquareRootLaw` reads the impact formula off the fill reports. A strategy is any function from the events
  and market snapshots it has been shown to the orders it submits.
- `Resampler` replays snapshots and deltas and writes the book at every half-minute boundary. It is compared with a
  fold over the messages up to the boundary, and the fold with a backward search for the message that decides a
  price. `ResampledRows` says what the cells of a row list, in terms of that search alone.
- `VecEnv` is the batch of environments that restarts only finished slots; `Framing` is the length-prefixed
  transport below it, over a socket that splits the stream as it likes.
- `AggTrades` sums traded volume over windows by scan, binary search and moving cursor.
- `Books` walks a bid ladder; `Adversarial` adds a party that pulls and restores depth and one that sells ahead, and
  `AdversarialRuns` follows it over runs of sales with fresh books swapped in between.
- `Risk` and `Scheduling` are the slippage gate and the block-by-block execution under it.
- `AlmgrenChriss` builds a schedule from an inventory curve; `Actions`, `Rate` and `Residual` turn paces and schedules
  into discrete actions.
- `Distribution`, `Moments`, `Metrics` and `Shaping` are the reports: order statistics and tail averages, spread and
  shape, cost accounting, reward shaping.
- `Arith`, `SimEvents` and `Wrappers` hold what they share.

## Where the code and its documentation part

- `DesSimulator::run` says it runs until the queue is exhausted or the simulation ends. With a pending
  SimulationEnd it always ends (`EndIsReached`). Without one it ends when no strategy answers the events the loop
  itself injects (`QuietStrategiesHalt`), as the strategies of the repository do not; one that answers everything
  keeps it going forever (`NeverHalts`, with `OneTickKeepsEagerBusy` as the witness).
- `FrontRunner::pre_fill` says it returns what the front-runner consumed. It returns what it wanted. The two agree
  exactly when it sat still, or the book held all it wanted and the walk met no level with a remainder of at most
  1e-12, a speck, left to sell (`ReportedIsTaken`, with `ReportedMayExceedTaken` as a witness).
- Front-running is said to worsen our fill. The price per unit never improves; the takings can, by at most what a
  speck is worth (`SecondSellerTakings`). `FrontRunningMayPay` shows the default front-runner doing so. For books whose
  levels each hold more than the smallest quantity it copies, 1e-9, and a speck, `FrontRunningNeverPaysIff` says for
  which book and sale no front-runner can.
- The recovery counter is said to reach zero when the deficit does. Over every run of sales and fresh books a position
  is still owed something then exactly when the last sale that brought the counter to zero found it owed and past the
  ladder, or took it away (`RunSettlesPosition`, `RunStaysClean`). On one book that means that some sale took away a
  position that was owed something (`OneBookStaysClean`). What is stranded waits for a book that has the position again
  (`StrandedStays`); `DeficitCanBeStranded` strands by a sale and by a short fresh book, and `FreshBookRestores` gives
  it back. With no recovery steps everything withdrawn stays owed (`NoStepsNoRecovery`).
- Recovery is said to restore what was pulled. Over every run no depth is created if and only if no fresh book has a
  level smaller than what is owed at its position (`RunAccounts`, `NothingCreatedIff`); the second half of
  `FreshBookRestores` is a witness.
- The historical environment says that deficits are in raw quantity units and holds them back before rescaling. They
  are booked on the rescaled book, so what is held back is what is owed if and only if rescaling changes no quantity,
  or every level that is owed something is emptied either way (`HistoricalHoldsBackWhatIsOwedIff`). A new episode holds
  nothing back. Both are fresh books of the run laws, counted in other units.
- `seed` does not advance the seed counter, so a seeded run can repeat seeds (`SeedZeroRepeats`). After any run, however
  often it was seeded, whatever is run next repeats no seed if and only if the ranges handed out or set aside are apart
  from each other and lie below the base given at construction (`SeedingIsSafeIff`). Lying below the counter is not
  enough: once it has moved, what is below it may have been drawn.
- `cost_variance` is the variance of the recorded costs if and only if every forced liquidation cost nothing
  (`StreamingVarianceIsExactIff`); it can be negative otherwise. The conditional shortfalls leave forced
  liquidations out in the same way.
- The entries of the schedule of `ACOptimalPolicy` are said to sum to one. They do if and only if the inventory curve
  starts above 1e-10 (`ScheduleSumsToOne` gives the condition on kappa and the horizon). Without risk aversion or
  volatility they are all nothing (`NoRiskNoSchedule`), and then even the tracked policy sells nothing before the end
  game (`UnnormalisedStalls`, `NoRiskStalls`).

## Model

| member | source | states |
|---|---|---|
| `Queue.Compare` | src/events/queue.rs:34-43 | the comparator calls an event greater exactly when it is earlier by time and then by sequence number |
| `Queue.SiftUp` | src/events/queue.rs:70-74 | pushing restores the heap order and keeps the elements |
| `Queue.SiftDown` | src/events/queue.rs:77-79 | popping restores the heap order and keeps the elements |
| `Queue.EventQueue.Schedule` | src/events/queue.rs:70-74 | the pending list gains the event after every event not later, under the next number |
| `Queue.EventQueue.Pop` | src/events/queue.rs:77-79 | the heap gives up the head of the sorted pending list, nothing when none is pending |
| `Queue.EventQueue.IsEmpty` | src/events/queue.rs:82-84 | empty exactly when nothing is pending |
| `Queue.PendingStaysSorted` | src/events/queue.rs:61-90 | over any interleaving the pending list is strictly ordered and its numbers are below the counter |
| `Queue.InterleavingConserves` | src/events/queue.rs:61-90 | over any interleaving what was scheduled is what was popped plus what is pending |
| `Queue.PopIsLeast` | src/events/queue.rs:76-79 | each pop returns the least, by time and then number, of what is scheduled and not yet popped |
| `Queue.DrainIsStableSort` | src/events/queue.rs:34-43 | scheduling a list and popping as often returns all of it in order of time, and those of one time in the order they were scheduled |
| `TransientImpact.TransientImpactTracker.RecordTrade` | src/execution/transient_impact.rs:33-49 | records positive impacts and drops trades at least a cutoff old |
| `TransientImpact.TransientImpactTracker.CurrentImpact` | src/execution/transient_impact.rs:52-60 | the loop adds up what is left of every held trade |
| `TransientImpact.ImpactDecays` | src/execution/transient_impact.rs:52-60 | between trades the impact later is the impact now times the decay over the gap |
| `TransientImpact.PruneOnce` | src/execution/transient_impact.rs:43-48 | one pruning loses, now and ever after, at most 1e-8 of the base impact it drops |
| `TransientImpact.RecordAllPartitions` | src/execution/transient_impact.rs:33-49 | every recorded trade is held or was dropped |
| `TransientImpact.PruningError` | src/execution/transient_impact.rs:33-60 | over every run the tracker never overstates and understates by at most 1e-8 of what it dropped |
| `TransientImpact.HalvingIsDecay` | src/execution/transient_impact.rs:43-57 | the facts assumed of the decay can be met |
| `Markets.MarketState.Handle` | src/market/state.rs:33-51 | price, volatility and step follow the event and nothing is injected |
| `EventLoop.RunShowsMarket` | src/market/state.rs:33-51 | in every run an event is handled at the price of the last update or trade, the volatility of the last update and the step of the last tick |
| `Execution.ExecutionEngine.Handle` | src/execution/engine.rs:42-59 | what each event does to the pending list, the impact history and the reports |
| `Execution.ExecutionEngine.TryFill` | src/execution/engine.rs:63-130 | one pass fills every pending order in place and keeps the unfinished ones; what its reports charge is `SquareRootLaw.RunObeysLaw` |
| `Execution.ExecutionEngine.FillOrder` | src/execution/engine.rs:67-124 | one order loses at most the limit, is charged and reported; by how much is `SquareRootLaw.RunObeysLaw` |
| `ExecutionLaws.Conservation` | src/execution/engine.rs:42-130 | for unique identifiers, over every run, what was submitted is filled, pending, or ended: filled up to dust, or cancelled after its submission with more than dust unfilled |
| `ExecutionLaws.SilentAfterEnd` | src/execution/engine.rs:42-130 | nothing is ever reported for an order that has left the pending list |
| `ExecutionLaws.ClosedOnce` | src/execution/engine.rs:49-127 | a final fill is reported at most once, and nothing after it or after a cancel |
| `ExecutionLaws.FillsNeverExceedLimit` | src/execution/engine.rs:73 | no fill exceeds the maximum |
| `ExecutionLaws.PendingIsFifo` | src/execution/engine.rs:42-130 | pending orders keep submission order over every run |
| `ExecutionCharges.EveryFillIsCharged` | src/execution/engine.rs:63-130 | in every run the report for the k-th order of a pass stands at its place in the log and charges its own impact, the decayed impact of every earlier trade of the run and the base impacts of the earlier fills of the pass, less at most the pruning error; the impact it reports is the one charged |
| `SquareRootLaw.RunObeysLaw` | src/execution/engine.rs:63-130 | in every run the part of the market price by which a fill was worse, less what lingers of the own impacts of the reports before it and up to 1e-8 of those, is its own impact: not negative, its square times the volume the squared coefficient times volatility times the quantity filled |
| `SquareRootLaw.RootLaw` | src/execution/impact.rs:30-37 | the square of the impact grows in proportion to the quantity as a part of the daily volume; nothing for no quantity or no volume |
| `ExecutionCharges.EveryFillIsAdverse` | src/execution/engine.rs:84-111 | in every run sales fill at or below the market price and purchases at or above it, and the reported impact is not negative |
| `ExecutionLaws.RunRecords` | src/execution/engine.rs:93-95 | the engine's history is what the tracker keeps of the run's trades |
| `ExecutionLaws.RunPruningError` | src/execution/engine.rs:80-81 | the impact an engine run charges is within the pruning bound of the full sum |
| `EventLoop.StepIsCausal` | src/engine/event_loop.rs:53-74 | everything pending after an iteration comes after the event processed |
| `EventLoop.StepDecreases` | src/engine/event_loop.rs:46-77 | ticks left to the end, then events pending at this tick, decrease |
| `EventLoop.EndIsReached` | src/engine/event_loop.rs:43-80 | with SimulationEnd pending the loop ends, at the time of the first one |
| `EventLoop.EndedRunIsWhole` | src/engine/event_loop.rs:43-80 | a run that has ended is the whole run |
| `EventLoop.NeverHalts` | src/engine/event_loop.rs:39-46 | without SimulationEnd, strategies that answer every event keep the loop going forever |
| `EventLoop.OneTickKeepsEagerBusy` | src/engine/event_loop.rs:39-46 | one tick and one strategy that always sells never end |
| `EventLoop.QuietStrategiesHalt` | src/engine/event_loop.rs:39-46 | strategies that do not answer injected events let the loop end without SimulationEnd |
| `EventLoop.RunIsCausal` | src/engine/event_loop.rs:43-80 | popped events are strictly ordered, only the last can be SimulationEnd, everything left over is later |
| `EventLoop.RunConservesEvents` | src/engine/event_loop.rs:43-80 | nothing pending or injected is lost or processed twice |
| `EventLoop.ProcessedIffNotAfterLast` | src/engine/event_loop.rs:48-51 | an event is processed exactly when it does not come after the last processed one |
| `EventLoop.RunDrivesEngine` | src/engine/event_loop.rs:59-63 | the loop drives the engine through the trace, so the laws of engine runs apply |
| `EventLoop.InjectedReportsAreLog` | src/engine/event_loop.rs:59-63 | the fill reports the loop injects are exactly the log of the engine over the processed events |
| `EventLoop.SimulationCharges` | src/engine/event_loop.rs:43-80 | in every simulation each injected report carries the charge of its pass, within the pruning bound |
| `EventLoop.InputsAreTrace` | src/engine/event_loop.rs:46-77 | market and engine see every processed event but SimulationEnd, in order |
| `EventLoop.SimulationConservesQuantity` | src/engine/event_loop.rs:43-80 | when no identifier is used twice among the events pending at the start and those injected, the fills injected into the loop account for the quantity of every order |
| `Answers.RunSubmitsAnswers` | src/engine/event_loop.rs:65-74 | in every run the orders submitted are, in order, exactly those the strategies answer with to the observations up to each processed event, unchanged, a thousand ticks after it |
| `Answers.IterationSubmitsAnswers` | src/engine/event_loop.rs:65-74 | the same of what each iteration injects |
| `Answers.InjectedIsReportOrOrder` | src/engine/event_loop.rs:59-74 | nothing else is injected than fill reports and submissions |
| `Answers.AnswersAreAccounted` | src/engine/event_loop.rs:43-80 | every order a strategy answers with is submitted; once that is processed the fills injected account for the quantity it asked for, and nothing is filled before |
| `EventLoop.SimulationPruningError` | src/engine/event_loop.rs:43-80 | causality gives the tracker monotone times, so the pruning bound holds in every simulation |
| `EventLoop.DesSimulator.NotifyStrategies` | src/engine/event_loop.rs:65-74 | the strategies' orders are scheduled in turn, a thousand ticks later; that they are the orders as answered is `Answers.RunSubmitsAnswers` |
| `EventLoop.DesSimulator.UpdateAndFill` | src/engine/event_loop.rs:53-63 | market first, then the engine on the new market, whose reports are scheduled |
| `EventLoop.DesSimulator.Process` | src/engine/event_loop.rs:53-76 | one iteration is one step of the model |
| `EventLoop.DesSimulator.Run` | src/engine/event_loop.rs:43-80 | a run that ends processes exactly its trace and leaves exactly its final state |
| `Resampler.BestKeepsTheBest` | rl/experiments/fetch_bybit.py:49-56 | for every key the best 500 levels are kept in order; nothing left out is better |
| `Resampler.CellsLength` | rl/experiments/fetch_bybit.py:53-55 | price and quantity alternate in a row |
| `Resampler.LastWriterWins` | rl/experiments/fetch_bybit.py:81-93 | the replayed dictionaries quote what the last message deciding a price says |
| `Resampler.RowsAreBoundaryBooks` | rl/experiments/fetch_bybit.py:59-99 | rows are the books as of consecutive boundaries from the first not before the first snapshot, the day's end included exactly when a later message runs past it |
| `ResampledRows.RowsShowBooks` | rl/experiments/fetch_bybit.py:49-99 | every row is stamped with its boundary and lists in 2000 cells the quotes at that time, highest bids first and then lowest asks first, no price twice; a quote is missing only when 500 as good are listed; unused cells are empty |
| `ResampledRows.BookDistinct` | rl/experiments/fetch_bybit.py:81-93 | a replayed dictionary never has two entries for one price |
| `Resampler.FirstBoundaryIsFirst` | rl/experiments/fetch_bybit.py:66-86 | the first row's boundary is the first of the day not before the snapshot |
| `Resampler.UpdateSide` | rl/experiments/fetch_bybit.py:88-93 | a delta replaces quantities and removes levels of quantity zero |
| `Resampler.EmitPassed` | rl/experiments/fetch_bybit.py:76-79 | emits the book at every boundary the message has passed, up to the day's end |
| `Resampler.Receive` | rl/experiments/fetch_bybit.py:74-93 | one message: emit what it passes, then replace or update the book |
| `Resampler.FlushDay` | rl/experiments/fetch_bybit.py:94-97 | the last book fills the boundaries that remain before the end |
| `Resampler.ConvertBook` | rl/experiments/fetch_bybit.py:59-99 | the one-pass loop computes the replay and counts its rows; what they show is `ResampledRows.RowsShowBooks` |
| `VecEnv.BatchedVecEnv.DrawSeeds` | rl/batched_vec_env.py:77-80 | consecutive seeds from the counter, which moves past them |
| `VecEnv.BatchedVecEnv.Seed` | rl/batched_vec_env.py:82-86 | sets aside and returns one seed for each slot, from the given or the drawn base, and leaves the counter alone |
| `VecEnv.BatchedVecEnv.Reset` | rl/batched_vec_env.py:88-97 | restarts every slot with the set-aside or drawn seeds and logs them |
| `VecEnv.BatchedVecEnv.Splice` | rl/batched_vec_env.py:121-123 | overwrites exactly the rows of finished slots and logs their seeds |
| `VecEnv.BatchedVecEnv.StepWait` | rl/batched_vec_env.py:102-125 | restarts only finished slots, keeps their last observation aside and leaves the others alone |
| `VecEnv.SlotsAreIndependent` | rl/batched_vec_env.py:77-125 | slot by slot a batched run is a single environment's run with the seeds logged for the slot |
| `VecEnv.SlotsAreInTheirEpisodes` | rl/batched_vec_env.py:88-125 | a slot is in the episode its last log entry started: with its seed, and with the actions given since, as many as steps were taken after the number the entry carries |
| `VecEnv.LogCarriesSteps` | rl/batched_vec_env.py:88-125 | every entry carries the number of steps taken when its episode started |
| `VecEnv.DrawnSeedsAreConsecutive` | rl/batched_vec_env.py:77-97 | without explicit seeding all logged seeds are consecutive from the base |
| `VecEnv.LogOfRun` | rl/batched_vec_env.py:77-125 | over every run the log holds the seeds the counter has passed and the ranges of the seedings a reset has used, and nothing else |
| `VecEnv.SeededRunReusesSeeds` | rl/batched_vec_env.py:82-97 | a run, however often seeded, repeats a seed exactly when two ranges handed out meet, or one meets what the counter has passed |
| `VecEnv.SeedingIsSafeIff` | rl/batched_vec_env.py:77-125 | after any run, however often seeded, no run without further seeding repeats a seed if and only if the ranges handed out or set aside are apart from each other and below the base of construction |
| `VecEnv.SeedZeroRepeats` | rl/batched_vec_env.py:77-97 | seeding with the base of construction repeats seeds, before a first reset or after it |
| `Framing.UnpackPacked` | rl/batched_environment.py:150-152 | four little-endian bytes give back every length below 2^32 |
| `Framing.PackUnpacked` | rl/batched_environment.py:150-152 | every four bytes are the prefix of exactly one length |
| `Framing.FramesReadBack` | rl/batched_environment.py:148-153 | payloads sent as frames read back in order and nothing after them is touched |
| `Framing.ReadsOnlyFrames` | rl/batched_environment.py:148-153 | a stream that reads as some payloads is exactly their frames |
| `Framing.Connection.RecvExact` | rl/batched_environment.py:123-130 | however the stream is split, exactly the first n bytes, or an error when it is too short |
| `Framing.Connection.RecvFrame` | rl/batched_environment.py:152-153 | one frame is consumed exactly |
| `Framing.Connection.SendAndRecv` | rl/batched_environment.py:132-157 | one frame out and one in; an oversized payload is refused before sending |
| `Framing.Connection.RecvFrames` | rl/batched_environment.py:123-157 | repeated reads give the frames of the stream whatever the splitting |
| `AggTrades.WindowIsRange` | src/market/agg_trades.rs:288-300 | in sorted trades a window is a contiguous range |
| `AggTrades.WindowIsTrades` | src/market/agg_trades.rs:162-177 | the sell volume of a window is what the sells in it add up to, the buy volume what the buys do |
| `AggTrades.VolumeInWindow` | src/market/agg_trades.rs:162-177 | the early break loses nothing on sorted trades |
| `AggTrades.PartitionPoint` | src/market/agg_trades.rs:288-290 | binary search finds the first trade not before the time |
| `AggTrades.SliceVolume` | src/market/agg_trades.rs:288-300 | the slice between two partition points is the filter |
| `AggTrades.BuildOfiSeries` | src/market/agg_trades.rs:275-311 | each entry is the part of its window's total by which its buys exceed its sells, nothing of a total below 1e-12 |
| `AggTrades.BuildVolumeSeries` | src/market/agg_trades.rs:318-345 | each entry is the filter's volume over its interval |
| `AggTrades.CursorWindow` | src/market/agg_trades.rs:224-239 | the cursor stops at the window's end having summed the filter |
| `AggTrades.CursorWindows` | src/market/agg_trades.rs:212-240 | the moving cursor's windows are those of the filter |
| `AggTrades.CursorWindowsPartition` | src/market/agg_trades.rs:212-240 | the cursor windows sum to all volume from the first snapshot on |
| `AggTrades.VolumeSeriesTotal` | src/market/agg_trades.rs:313-345 | the series sums to all that was bought and sold from one bar before the first snapshot to the last |
| `AggTrades.OfiBounds` | src/market/agg_trades.rs:266-307 | the imbalance lies in [-1, 1] and reaches an end exactly when the total is not negligible and every trade is a buy, or every one a sell |
| `Books.FillSide` | src/market/order_book.rs:186-255 | the in-place walk removes and reports what the recursive walk does |
| `Books.OrderBook.FillMarketSell` | src/market/order_book.rs:166-170 | bids are walked; the average is what is paid for the quantity filled, the slippage how far below the mid before the fill it is, the spread cost half the spread on the quantity |
| `Books.OrderBook.FillMarketBuy` | src/market/order_book.rs:176-180 | asks are walked; the average is what is paid for the quantity filled, the slippage how far above the mid before the fill it is, the spread cost half the spread on the quantity |
| `Books.WalkFills` | src/market/order_book.rs:206-227 | a walk fills all but at most 1e-12 or takes the whole book, and depth falls by what it fills |
| `Books.WalkBringsProceeds` | src/market/order_book.rs:206-233 | the notional is what selling exactly the filled quantity from the top brings |
| `Books.WalkShiftsProceeds` | src/market/order_book.rs:206-227 | the book left behind pays what the deeper stretch of the original pays |
| `Books.SpeckStopsWalk` | src/market/order_book.rs:206-227 | a walk leaves something unfilled beside a level exactly when it meets a level with only a speck to sell |
| `Books.FillsExactly` | src/market/order_book.rs:206-251 | a quantity is filled to the last bit exactly when the book holds it and no level is met with a speck |
| `Books.Lipschitz` | src/market/order_book.rs:206-227 | selling more brings something between nothing and the best price on the extra |
| `Books.Diminishing` | src/market/order_book.rs:206-227 | proceeds are concave: a sale brings less the deeper it starts |
| `Books.AverageFalls` | src/market/order_book.rs:229-233 | the average price does not rise with the quantity |
| `Books.SlippageRises` | src/market/order_book.rs:237-245 | a sale's slippage is never negative, and a larger sale never slips less |
| `Books.SecondSellerPrice` | src/market/adversarial.rs:142-159 | for every ladder, every earlier sale of more than two specks and every sale of ours, selling second never improves the price per unit |
| `Books.SecondSellerTakings` | src/market/adversarial.rs:222-236 | selling second never brings more, up to what a speck is worth, and not at all when the sale alone meets no level with a speck |
| `Books.SecondSellerNeverGainsIff` | src/market/order_book.rs:206-227 | in a book whose levels hold more than m and a speck, no earlier sale of more than m lets the second seller take more if and only if no level is met with a speck that pays |
| `Books.SecondSellerMayTakeMore` | src/market/order_book.rs:206-227 | the remainder matters: a book and two successive sales of which the second takes more than alone |
| `Adversarial.LiquidityWithdrawer.AfterFill` | src/market/adversarial.rs:56-77 | a large fill pulls a fraction of every level, books it as owed and restarts the counter; a small one changes nothing |
| `Adversarial.LiquidityWithdrawer.RecoverStep` | src/market/adversarial.rs:80-95 | one step restores the counter's share of every deficit that still has a level |
| `Adversarial.LiquidityWithdrawer.Deficit` | src/market/adversarial.rs:98-100 | the sum of what is owed |
| `Adversarial.PostFillKeepsPositions` | src/market/adversarial.rs:56-77 | pulling leaves quantity plus deficit of every position unchanged |
| `Adversarial.RecoveredKeepsPositions` | src/market/adversarial.rs:80-95 | restoring leaves quantity plus deficit of every position unchanged |
| `Adversarial.TriggerPullsFraction` | src/market/adversarial.rs:54-77 | exactly the fills above the sensitivity share pull depth, and then that fraction of all bids |
| `Adversarial.RecoveryIsLinear` | src/market/adversarial.rs:322-350 | k of R recovery steps taken one after another restore exactly k/R of every deficit that has a level, nothing of the others |
| `Adversarial.RecoveryEndsClean` | src/market/adversarial.rs:322-350 | recovery steps taken one after another leave nothing owed if and only if nothing was owed past the end of the ladder |
| `AdversarialRuns.WalkLoses` | src/market/order_book.rs:206-217 | which positions a walk takes away, in terms of the depth before them |
| `AdversarialRuns.SurvivingPositions` | src/market/adversarial.rs:222-229 | which positions a sale leaves in the book, in terms of the depth before them, the front-runner's part and then ours |
| `AdversarialRuns.CountdownSettles` | src/market/adversarial.rs:80-95 | a sale that sees the counter at one leaves nothing owed at a position if and only if nothing was owed there or the position survives the sale |
| `AdversarialRuns.RunSettlesPosition` | src/market/adversarial.rs:222-250 | the same of every position over every run of sales and fresh books |
| `AdversarialRuns.SaleStaysClean` | src/market/adversarial.rs:222-236 | one sale leaves nothing owed at a level once the counter is out, and strands a deficit exactly when it takes away a position that is owed something |
| `AdversarialRuns.RunStaysClean` | src/market/adversarial.rs:222-250 | over every run of sales and fresh books, with the counter out nothing is owed if and only if the last sale to bring it to zero found what was owed at positions that survived it |
| `AdversarialRuns.OneBookStaysClean` | src/market/adversarial.rs:222-236 | on one book, with the counter out nothing is owed if and only if no sale took away a position that was owed something |
| `AdversarialRuns.StrandedStays` | src/market/adversarial.rs:80-95 | what is owed past the end of the ladder does not move over any run whose fresh books lack the position |
| `AdversarialRuns.QuietRunRestores` | src/market/adversarial.rs:222-250 | over every run in which nothing triggers, with fresh books or without, a position that survives k sales has back k parts in R of its deficit, all of it in the end |
| `AdversarialRuns.NoStepsNoRecovery` | src/market/adversarial.rs:74-83 | with no recovery steps everything withdrawn stays owed, over every run of sales and fresh books |
| `AdversarialRuns.DeficitCanBeStranded` | src/market/adversarial.rs:222-250 | a sale, or a fresh book with one bid, after which a deficit outlives the counter whatever is sold and whatever books with one bid come next |
| `AdversarialRuns.FreshBookRestores` | src/market/adversarial.rs:238-250 | a fresh book gives a stranded deficit back, and one with a level smaller than the deficit ends up deeper than it was |
| `Adversarial.FrontRunner.PreFill` | src/market/adversarial.rs:142-159 | sells the aggression share ahead when the window's flow exceeds the trigger, and not otherwise |
| `Adversarial.FrontRunner.UpdateVolume` | src/market/adversarial.rs:162-176 | keeps the last trades of the window and the rolling average; ignores empty fills |
| `Adversarial.CopiesExactlyWhen` | src/market/adversarial.rs:142-159 | it sells ahead exactly when the window is full and its trades average more than the threshold's part of the long-run average, and then the aggression's part of the order |
| `Adversarial.AverageIsWeighted` | src/market/adversarial.rs:170-175 | the long-run average is the sum of the trades, each weighing a tenth when made and a tenth less with every trade after it, the first in full |
| `Adversarial.SteadyFlowIsFrontRun` | src/market/adversarial.rs:142-176 | a seller whose sales stay within a factor of each other is always front-run, by exactly the aggression share |
| `Adversarial.FlowStaysBetween` | src/market/adversarial.rs:162-176 | the average stays between the smallest and largest trade and the window holds the last ones |
| `Adversarial.AdversarialBook.Sell` | src/market/adversarial.rs:222-236 | the five steps in order, and what each diagnostic field then says |
| `Adversarial.AdversarialBook.UpdateBook` | src/market/adversarial.rs:241-250 | the fresh book is held back by what is owed, never below nothing |
| `Adversarial.HeldBackThenRescaled` | src/bin/rl_env/env/state.rs:46-57 | holding back from a raw book and rescaling it is holding back rescaled deficits from the rescaled book |
| `Adversarial.RescaledProceeds` | src/market/order_book.rs:106-116 | rescaling a ladder rescales its depth and what any part of it brings |
| `Adversarial.HistoricalHoldsBackWhatIsOwedIff` | src/bin/rl_env/env/state.rs:46-57 | the historical market holds back what is owed if and only if rescaling changes no quantity or every level that is owed something is emptied either way |
| `Adversarial.FillAccounts` | src/market/adversarial.rs:222-236 | depth before is what the front-runner took, what we filled, depth after and the change in what is owed |
| `Adversarial.ReportedIsTaken` | src/market/adversarial.rs:140-159 | the reported quantity left the book if and only if the front-runner sat still, or the book held all of it and met it at no level with only a speck |
| `Adversarial.ReportedMayExceedTaken` | src/market/adversarial.rs:154-158 | a warmed-up default front-runner reports 40 from a book of 10 |
| `Adversarial.AdversaryNeverImprovesPrice` | src/market/adversarial.rs:222-236 | our average price is never better than against the same book alone |
| `Adversarial.FrontRunningNeverPaysIff` | src/market/adversarial.rs:142-159 | in a book whose levels hold more than 1e-9 and a speck, no front-runner, whatever its parameters and history, raises our takings if and only if no level is met with a speck that pays |
| `Adversarial.FrontRunningMayPay` | src/market/adversarial.rs:142-159 | the default front-runner, warmed up, sells ahead of us and we take more than alone |
| `Adversarial.RefreshThenRecover` | src/market/adversarial.rs:238-250 | after a refresh and recovery steps taken one after another each level has the larger of its quantity and what was owed; it is the fresh book if and only if no deficit exceeded its level |
| `AdversarialRuns.RunAccounts` | src/market/adversarial.rs:222-250 | over every run of sales and fresh books, what is sold, replaced, left and owed is the depth at the start, the depth of the fresh books and their surplus |
| `AdversarialRuns.SwapAdds` | src/bin/rl_env/env/mod.rs:144-159 | what a fresh book and what is owed come to: its own depth, the excess of deficits over levels, and what counting in other units adds |
| `AdversarialRuns.NothingCreatedIff` | src/market/adversarial.rs:238-250 | over every run with fresh books in the units of what is owed no depth is created if and only if no fresh book has a level smaller than what is owed at its position |
| `AdversarialRuns.IdleRecovers` | src/market/adversarial.rs:222-236 | sales of nothing are recovery steps, so the laws of steps hold of such runs |
| `Risk.RiskManager.RequestExecuteChunk` | src/engine/risk.rs:75-99 | accepted requests are booked as a whole, refused ones change nothing |
| `Risk.EveryRunStaysWithinLimits` | src/engine/risk.rs:3-8 | over every run usage stays within the total at the permitted rate and within the rate on what was executed, the emergency draw within the reserve fraction of that budget, equal to the overshoots and funded by earlier savings |
| `Risk.AcceptsExactlyWhatKeepsLimits` | src/engine/risk.rs:56-87 | a request is accepted if and only if booking it keeps all limits |
| `Risk.ShareIsNeverRefused` | src/engine/risk.rs:41-99 | within its proportional share and the total a chunk is never refused |
| `Risk.NothingToExecute` | src/engine/risk.rs:42-44 | with no notional no slippage is ever used |
| `Scheduling.ScheduleExecutesEverything` | src/strategies/optimal.rs:110-176 | a schedule has one trade a step, none negative, and sums to the inventory |
| `Scheduling.ScheduleFollowsCurve` | src/strategies/optimal.rs:110-176 | after every trade but the last the schedule leaves what the curve leaves of the inventory, in equal parts when it degenerates |
| `Scheduling.Scheduler.Book` | src/engine/scheduler.rs:321-327 | inventory falls by the chunk and snaps to nothing at 1e-8 |
| `Scheduling.Scheduler.OnBlockTwap` | src/engine/scheduler.rs:165-173 | a fixed slice, without asking the gate |
| `Scheduling.Scheduler.OnBlockHeuristic` | src/engine/scheduler.rs:175-213 | the adaptive chunk, and on refusal half of it |
| `Scheduling.Scheduler.OnBlockOptimal` | src/engine/scheduler.rs:215-273 | plans once, then the next trade of the plan if the gate accepts it; what the plan leaves is `Scheduling.PlanFollowsCurve` |
| `Scheduling.Scheduler.OnBlockAdaptive` | src/engine/scheduler.rs:275-301 | the clamped receding-horizon trade if the gate accepts it |
| `Scheduling.Scheduler.OnBlock` | src/engine/scheduler.rs:147-163 | dispatch by mode; nothing once completed; an error exactly when no plan can be made |
| `Scheduling.EveryRunBooks` | src/engine/scheduler.rs:175-301 | in every gated mode nothing is oversold, what is gone was executed up to the snap, all limits hold; in Optimal mode the rest is the plan ahead and the write-off branch is never taken |
| `Scheduling.PlanFollowsCurve` | src/engine/scheduler.rs:220-243 | a plan is made exactly for a positive inventory and impact, no negative aversion or volatility and some steps; it has the steps asked for and leaves what the curve leaves |
| `Scheduling.OptimalHoldsCurve` | src/engine/scheduler.rs:215-273 | in Optimal mode, over every run until it completes, the inventory after k accepted trades is what the curve leaves after k steps, for the volatility of the first block a plan could be made on |
| `Scheduling.HeuristicResponds` | src/strategies/heuristic.rs:50-70 | the chunk is the base chunk times depth over its reference times average over present volatility, each kept between a quarter and two, and no more than is left |
| `Scheduling.HeuristicIsMonotone` | src/strategies/heuristic.rs:50-70 | more depth, a higher average and a calmer block never make the chunk smaller |
| `Scheduling.PredictedParts` | src/strategies/heuristic.rs:44-48 | a chunk is expected to cost a hundredth of what it is to the depth and a two-hundredth of the volatility |
| `Scheduling.OptimalCompletes` | src/engine/scheduler.rs:215-273 | with every trade within its share, the whole inventory is executed in as many blocks as the plan has trades |
| `Scheduling.TwapSellsSlices` | src/engine/scheduler.rs:165-173 | after n blocks n slices or everything is sold; dust slices never sell |
| `Actions.NearestAction` | rl/evaluation/actions.py:28-32 | the first action nearest to the clamped target |
| `Actions.NearestIsMonotone` | rl/evaluation/actions.py:28-32 | a larger target never picks an earlier action |
| `Actions.RoundingIsHalfGap` | rl/evaluation/actions.py:28-32 | rounding to the table costs at most half its widest gap |
| `Actions.RoundIsNearest` | rl/evaluation/actions.py:53 | rounding gives the nearest whole number, the even one of two as near |
| `Actions.DeployedTable` | src/bin/rl_env/config.rs:18-21 | the deployed table ascends from 0 to 1 with gaps of at most 0.2 |
| `Actions.TargetFalls` | rl/evaluation/actions.py:53-54 | the scheduled path never rises and stays between nothing and everything |
| `Actions.TrackingStep` | rl/evaluation/actions.py:47-55 | one tracking step from within half a gap of the path ends within half a gap of it |
| `Rate.RateTracker.RawAction` | rl/evaluation/rate.py:40-46 | sells out in the end game, otherwise toward the inventory the paces imply |
| `Rate.TrackerStaysOnPace` | rl/evaluation/rate.py:36-46 | for every episode and every choice of paces, inventory stays within half a gap of the pace until the end game |
| `Residual.ResidualAcMapper.SetHorizon` | rl/evaluation/residual.py:39-40 | the schedule is always the one for the horizon |
| `Residual.ResidualAcMapper.RawAction` | rl/evaluation/residual.py:42-56 | the action toward the scheduled inventory at the shifted time |
| `Residual.ZeroOffsetIsThePolicy` | rl/evaluation/residual.py:9-11 | an offset of nothing reproduces the closed-loop policy action for action |
| `Residual.LargerOffsetSellsNoLess` | rl/evaluation/residual.py:42-56 | a larger offset never picks a smaller fraction |
| `AlmgrenChriss.PolicyStaysOnSchedule` | rl/evaluation/actions.py:47-55 | inventory stays within half a gap of the schedule for every horizon until the end game |
| `AlmgrenChriss.OpenLoopCanStall` | rl/evaluation/actions.py:41-57 | without tracking, a schedule of trades below half the table's first step sells nothing before the end game |
| `AlmgrenChriss.OpenLoopSellsItsShare` | rl/evaluation/actions.py:56-57 | at each step the open loop aims at that step's share of the original order, or at all that is left |
| `AlmgrenChriss.ScheduleSumsToOne` | rl/evaluation/policies/almgren_chriss.py:84-108 | one entry a step, none negative; they sum to one, and the schedule ends at no inventory, if and only if kappa T > 20 or (1 - 1e-10) sinh(kappa T) > 1e-20 |
| `AlmgrenChriss.ScheduleRunsAlongCurve` | rl/evaluation/policies/almgren_chriss.py:84-108 | the part of a steep schedule still ahead is to the whole as the curve there is to where it starts |
| `AlmgrenChriss.KappaIsRoot` | rl/evaluation/policies/almgren_chriss.py:75 | risk aversion times variance is the square of kappa times the impact and 1e-10 |
| `AlmgrenChriss.StableFormIsRatio` | rl/evaluation/policies/almgren_chriss.py:42-52 | the form for large arguments is the ratio of hyperbolic sines |
| `AlmgrenChriss.LeftFalls` | rl/evaluation/policies/almgren_chriss.py:93-97 | what is left never rises, whichever form computes it |
| `AlmgrenChriss.FallingCurveSums` | rl/evaluation/policies/almgren_chriss.py:93-108 | the schedule of any falling curve sums to one if it starts above 1e-10, else to where it starts |
| `AlmgrenChriss.NoRiskNoSchedule` | rl/evaluation/policies/almgren_chriss.py:75-108 | without risk aversion or volatility the schedule sums to nothing |
| `AlmgrenChriss.UnnormalisedStalls` | rl/evaluation/actions.py:47-55 | the tracked policy sells nothing before the end game when its schedule was not normalised |
| `AlmgrenChriss.NoRiskStalls` | rl/evaluation/policies/almgren_chriss.py:75-123 | a policy without risk aversion leaves the whole order to the end game |
| `Distribution.SortedIsAscendingPermutation` | src/analytics/distribution.rs:84-86 | the sorted copy is an ascending permutation |
| `Distribution.PercentileRises` | src/analytics/distribution.rs:124-139 | percentiles rise with p and lie within the sample |
| `Distribution.PercentileInterpolates` | src/analytics/distribution.rs:124-139 | between neighbouring ranks a percentile moves from one value to the next in proportion |
| `Distribution.CvarSorted` | src/analytics/distribution.rs:150-175 | the accumulating loop averages the values at or below the threshold |
| `Distribution.CvarIsPrefixMean` | src/analytics/distribution.rs:143-175 | the tail average is the mean of a non-empty prefix, none of which exceeds the VaR |
| `Distribution.TailIsNeverEmpty` | src/analytics/distribution.rs:170-172 | the fallback for an empty tail is never taken |
| `Distribution.CvarFalls` | src/analytics/distribution.rs:150-175 | a deeper tail averages no higher, and no tail above the mean |
| `Distribution.FromSamples` | src/analytics/distribution.rs:50-116 | nothing for an empty sample, otherwise the summary of the sample, the moments summed in one pass |
| `Distribution.SummaryIsOrdered` | src/analytics/distribution.rs:42-47 | min, CVaR 99, CVaR 95, mean, max and CVaR, VaR, median, upper percentiles are in order |
| `Distribution.SkewnessBoundsKurtosis` | src/analytics/distribution.rs:61-88 | the kurtosis of a sample that is not flat is at least its squared skewness plus one, and the excess kurtosis never below minus two |
| `Moments.Accumulate` | src/analytics/distribution.rs:68-74 | one pass sums the second, third and fourth powers of the deviations |
| `Moments.ShapeIsMoments` | src/analytics/distribution.rs:76-88 | spread, skewness and excess kurtosis are the standardised mean square, cube and fourth power of the deviations |
| `Distribution.SummaryAffine` | src/analytics/distribution.rs:50-175 | order statistics, tail means and spread commute with a positive change of unit; skewness and kurtosis stay the same unless the sample is flat in one unit and not in the other |
| `Metrics.ExecutionMetrics.RecordTrade` | src/analytics/metrics.rs:124-169 | each accumulator moves by its part of the trade |
| `Metrics.ExecutionMetrics.RecordForcedLiquidation` | src/analytics/metrics.rs:226-232 | the forced cost enters the total and its own account only |
| `Metrics.EverySessionAddsUp` | src/analytics/metrics.rs:1-6 | after any mix of records the five components sum to the cumulative cost, and each accumulator is the sum it stands for |
| `Metrics.DecompositionAddsUp` | src/analytics/metrics.rs:171-220 | the reported components are the sums of the trades' own parts and of the forced costs, and make up the total, which is also reported in percent of the notional |
| `Metrics.VarianceIdentity` | src/analytics/metrics.rs:292-303 | the one-pass formula is the two-pass variance and is not negative |
| `Metrics.StreamingVarianceIsExactIff` | src/analytics/metrics.rs:292-303 | the streaming variance is that of all recorded costs if and only if every forced cost is nil, and otherwise falls short by their mean square |
| `Metrics.VarianceCanBeNegative` | src/analytics/metrics.rs:296-303 | one forced liquidation alone reports a negative variance |
| `Metrics.ExecutionMetrics.ConditionalShortfallPercent` | src/analytics/metrics.rs:348-377 | the loop computes the two buckets, absent when empty |
| `Metrics.BucketsSumToShortfall` | src/analytics/metrics.rs:343-377 | the buckets sum to the shortfall less what they do not see; with one estimate a trade, to it if and only if the forced cost is nil |
| `Metrics.ExecutionMetrics.IsByRegime` | src/analytics/metrics.rs:427-453 | the loop groups costs by label and sorts the report |
| `Metrics.RowsAreConditionalCosts` | src/analytics/metrics.rs:435-442 | each label's row holds exactly the cost and number of its executions |
| `Metrics.ReportIsConditional` | src/analytics/metrics.rs:427-453 | every row of the report has the number of executions with its label and their cost in percent of the notional, and every label that occurs has a row |
| `Metrics.RegimesSumToShortfall` | src/analytics/metrics.rs:423-453 | the report has most executions first and ties by name, counts every execution once and sums to the shortfall under the same condition |
| `Shaping.ImpactPotentialShaping.Reset` | rl/training/shaping.py:57-61 | an episode starts with no potential |
| `Shaping.ImpactPotentialShaping.Step` | rl/training/shaping.py:63-69 | the reward gains the discounted new potential less the stored one |
| `Shaping.ShapingTelescopes` | rl/training/shaping.py:63-69 | only the discounted last potential and the first are left in the return |
| `Shaping.EpisodeReturnIsUnchanged` | rl/training/shaping.py:18-20 | from a reset the returns are equal at every end of an episode; for a run broken off earlier, if and only if nothing is discounted forward, charged or exposed |
| `Shaping.RankingIsKept` | rl/training/shaping.py:18-21 | shaping never changes which of two complete episodes is better |
| `Shaping.PotentialIsBounded` | rl/training/shaping.py:29-55 | the potential is never a gain and never more than k times the impact on the rest |
| `Shaping.PotentialIsCharge` | rl/training/shaping.py:29-55 | while an episode lasts the potential is minus k times what is left times the permanent impact and the average of the fading temporary impact over the steps that remain |

## Left out

- Floating-point rounding and NaN: prices, quantities and rewards are exact reals, and `t + 1e-9` is one tick.
- `u64` counters (sequence numbers, order identifiers) do not wrap.
- The standard library's binary heap is modelled with the usual sift-up and sift-down; only its contents and order
  are observable.
- EventLoop.DesSimulator.Run: asks for a run that ends, because one without SimulationEnd need not; the laws of runs
  do not ask for it.
- Strategies with hidden state, such as a shared counter of identifiers: a strategy is a function of what it was
  shown, and the uniqueness of identifiers is a condition of the laws that need it.
- The order book's timestamp, depth queries and rescaling of asks, and the liquidity pool inside the market state.
- `update_book` and `recover_step` do not move deficits when levels disappear; the model keeps that. A reset of the
  reinforcement-learning environment does not reset the adversary, so replay from seeds is stated for environments
  that are a function of seed and actions.
- The Rust batch server, Arrow encoding, sockets and subprocesses; `Connection` keeps the stream and any splitting
  of it. The explicit-seed default drawn from a random generator is a parameter.
- The VPIN estimator fed by the cursor windows, CSV and zip reading, and the trades file.
- RegimeAc mode is modelled in `Scheduling` but has no clamp there; no law is stated for it. The formulas of the
  adaptive and regime strategies are parameters, clamped where the code clamps.
- Scheduling.EveryRunBooks: assumes a positive order, a base chunk and volatilities that are not negative, and an
  inventory curve that falls.
- Risk.EveryRunStaysWithinLimits: assumes a positive order and a rate that is not negative; a manager without an order
  is covered by `NothingToExecute`.
- The errors of an empty action table or schedule and of an episode of no steps.
- A `liquidity_ref` of zero, for which the heuristic chunk is undefined.
- Scheduling.TwapSellsSlices: needs an order larger than the snap of 1e-8, below which the first block sells all.
- The risk-penalty accumulator of the metrics.
- AdaptiveACPolicy, decoders, the agents around the mappers, PPO training, bootstrap statistics and report scripts.
- Books.SecondSellerTakings: gives a sufficient condition for books with smaller levels than
  `SecondSellerNeverGainsIff` asks for, where the speck an earlier sale leaves behind moves too.
- Books.SecondSellerNeverGainsIff: asks that every level hold more than the earlier sale's lower bound and a speck.
- Adversarial.FrontRunningNeverPaysIff: asks that every level hold more than the smallest copied quantity and a speck;
  `SecondSellerTakings` bounds the gain in every book.
- Adversarial.RecoveryIsLinear: takes the recovery steps one after another, as a caller of `recover_step` may;
  `QuietRunRestores` is the law for runs.
- Adversarial.RecoveryEndsClean: takes the recovery steps one after another; `RunStaysClean` is the law for runs.
- Adversarial.RefreshThenRecover: takes the recovery steps one after another; `RunAccounts` and `NothingCreatedIff` are
  the laws for runs.
- AdversarialRuns.OneBookStaysClean: no fresh books; `RunStaysClean` is the law with them.
- AdversarialRuns.NothingCreatedIff: fresh books in the units of what is owed; `RunAccounts` holds in all units.
- The forced liquidation that ends an episode sells to the book without the adversary; the next episode replaces both
  book and order.
