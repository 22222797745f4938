# Continuum producers and engine tick, in Dafny

This project models the simulation core of a small incremental ("idle") game.

**Producers.** A producer turns elapsed wall-clock milliseconds into output. Each call to `on_tick(delta)` adds `delta` to the accumulator `time_elapsed`. When the accumulator strictly exceeds the production period `production_time_ms`, the producer pays out one cycle's quantity for every whole period in the accumulator and keeps only the leftover milliseconds. Otherwise it pays out nothing and keeps everything.

**Engine.** The engine keeps its producers in a vector. `add_producer` appends to it, and `process_tick(elapsed)` advances every producer once, in order, by the same elapsed time.

The model has two modules, one per source file:

- `Entities` (`Entities.dfy`) covers `src/continuum/entities.rs`.
  - `Tick` is the value-level meaning of one `on_tick`. It returns the next state and the number of cycles drained.
  - `Run` is a series of ticks.
  - The class `ProducerEntity` updates its `timeElapsed` in place. Its `OnTick` is proved against `Tick`.
  - The getters `Id`, `ProductionTime`, `ProductionQuantity` and `Product` are plain field reads. The setters' contracts state what they return afterwards.
- `Engine` (`Engine.dfy`) covers `src/continuum/engine.rs`.
  - The class `EngineInner` holds a sequence of `ProducerEntity` objects. `ProcessTick` is a loop over that sequence, proved against `TickAll`, which ticks each producer state on its own.
  - The class `Engine` owns an `EngineInner`, like the source's `Engine` owns its inner state.

The quantity paid out is `cycles × production_quantity`, a `real` returned by `OnTick`. The specification functions count whole cycles.

The source recovers the drained cycle count by dividing the quantity back out (`(quantity / production_quantity) as u64`). `CycleCount` models that cast in exact arithmetic. For a zero quantity the produced amount is 0.0 too, and 0.0 / 0.0 is NaN, which the cast turns into 0. So a producer whose quantity is 0.0 never drains its accumulator, and the model keeps that behaviour rather than excluding it. The proved bound on the accumulator therefore holds only for nonzero quantities.

## Behaviour notes

- **Splitting ticks can defer a cycle.** The strict `>` at `src/continuum/entities.rs:60` means the output depends on how elapsed time is split into ticks, by at most one cycle. Total output is often expected to be independent of the split, and here it is not quite. With a 1000 ms period, one 2000 ms tick pays two cycles. Ticks of 1500 ms and 500 ms pay one cycle and leave exactly 1000 ms in the accumulator (`ExampleSplitDefersCycle`). `CyclesOfTotal` proves that this one held-back cycle is the only difference, and that it happens exactly when the accumulator ends on a full period. The model follows the code.
- **No validation in `add_producer`.** A zero period could be rejected when a producer is added, but `add_producer` at `src/continuum/engine.rs:49-51` validates nothing. The model's `AddProducer` accepts any producer, and `ProcessTick` requires every period to be positive.
- **No inventory.** The outputs are not added into any inventory: `process_tick` at `src/continuum/engine.rs:40-47` discards them, and the model discards them too.
- **Type mismatch.** `process_tick` passes a `u128` elapsed value to `on_tick`, which takes a `u64`. It also calls the mutating `on_tick` through a shared reference. The model treats elapsed time as a `nat` and performs the in-place update that is evidently intended.

## Model

| member | source | states |
|---|---|---|
| `Entities.Tick` | src/continuum/entities.rs:56-71 | only the accumulator changes; cycles × period + new accumulator = old accumulator + delta; a cycle is paid iff old + delta strictly exceeds the period and the quantity is nonzero, and then the count is (old + delta) / period; afterwards the accumulator is at most one period for a nonzero quantity, and strictly less after a payout |
| `Entities.WholeCycles` | src/continuum/entities.rs:60-63 | when the total strictly exceeds the period it holds at least one whole period, and taking the whole periods out leaves less than one period |
| `Entities.RecoverCount` | src/continuum/entities.rs:61-63 | in exact arithmetic, dividing the paid quantity back by the quantity per cycle and casting (`as u64`) recovers the cycle count, or 0 for a zero quantity (in `f64` it can come out one short, see Left out) |
| `Entities.CycleCount` | src/continuum/entities.rs:63 | the `as u64` recovery: 0 for a zero quantity (NaN) and for a negative ratio, otherwise the whole part of produced / quantity (at most the ratio, and the ratio less than one more) |
| `Entities.Run` | src/continuum/entities.rs:56-71 | a series of ticks changes only the accumulator: id, product and period are kept |
| `Entities.PeriodReachedExactlyPaysNothing` | src/continuum/entities.rs:60-67 | a total exactly equal to the period pays nothing and keeps the whole period |
| `Entities.RunConservation` | src/continuum/entities.rs:56-71 | over any series of ticks, total cycles × period + final accumulator = initial accumulator + sum of the deltas: no time is lost |
| `Entities.RunSplit` | src/continuum/entities.rs:56-71 | ticking with `a` and then `b` equals ticking with `a + b`, with the cycle counts added |
| `Entities.RunBound` | src/continuum/entities.rs:60-63 | after at least one tick with a nonzero quantity the accumulator holds at most one period |
| `Entities.CyclesOfTotal` | src/continuum/entities.rs:57-63 | however the time is split, the cycles paid are total / period, except one fewer exactly when the accumulator ends on a full period |
| `Entities.ExampleBacklogTick` | src/continuum/entities.rs:56-71 | a 2500 ms tick on a 1000 ms producer drains 2 cycles and keeps 500 ms |
| `Entities.ExampleThreeTicks` | src/continuum/entities.rs:56-71 | three 800 ms ticks drain 0, 1 and 1 cycles and keep 400 ms |
| `Entities.ExampleSplitDefersCycle` | src/continuum/entities.rs:60 | 2000 ms as one tick pays 2 cycles, but as 1500 + 500 pays 1 and ends on a full period |
| `Entities.ExampleBacklogOnTick` | src/continuum/entities.rs:56-71 | the class returns 2.0 and keeps 500 ms for one 2500 ms tick with one unit per cycle |
| `Entities.ExampleThreeOnTicks` | src/continuum/entities.rs:56-71 | the class returns 0.0, 1.0, 1.0 and keeps 400 ms for three 800 ms ticks |
| `Entities.ProducerEntity.Id` | src/continuum/entities.rs:32-34 | returns the producer's id |
| `Entities.ProducerEntity.ProductionTime` | src/continuum/entities.rs:36-38 | returns the production period in milliseconds |
| `Entities.ProducerEntity.ProductionQuantity` | src/continuum/entities.rs:44-46 | returns the product's quantity per cycle |
| `Entities.ProducerEntity.Product` | src/continuum/entities.rs:52-54 | returns the producer's product type |
| `Entities.ProducerEntity.constructor` | src/continuum/entities.rs:21-29 | a producer holds exactly the id, product, period and accumulator it was built with |
| `Entities.ProducerEntity.SetProductionTime` | src/continuum/entities.rs:40-42 | the getter then returns the new period and every other field is unchanged |
| `Entities.ProducerEntity.SetProductionQuantity` | src/continuum/entities.rs:48-50 | the getter then returns the new quantity; the product's name and value, the id, period and accumulator are unchanged |
| `Entities.ProducerEntity.OnTick` | src/continuum/entities.rs:56-71 | the new state is `Tick` of the old one, the returned quantity is the drained cycles × quantity, and it is non-negative for a non-negative quantity |
| `Engine.TickAll` | src/continuum/engine.rs:40-47 | one engine tick keeps the number of producers, and slot i becomes exactly what ticking producer i alone gives, whatever the other slots hold |
| `Engine.TickEach` | src/continuum/engine.rs:80-91 | ticks processed one after another keep the number of producers and keep every period positive |
| `Engine.TickAllBounded` | src/continuum/engine.rs:40-47 | after an engine tick every id, product and period is unchanged, and every producer with a nonzero quantity holds at most one period |
| `Engine.TickEachIsRunPerProducer` | src/continuum/engine.rs:40-47 | after any series of engine ticks each producer is where ticking it alone with the same series leaves it |
| `Engine.EngineInner.constructor` | src/continuum/engine.rs:62-67 | the inner state starts with no producers, no consumer-thread handle and a stopped timer with the configured interval |
| `Engine.EngineInner.AddProducer` | src/continuum/engine.rs:49-51 | the producer is appended at the end; earlier slots, their states, the configuration and the timer are unchanged |
| `Engine.EngineInner.ProcessTick` | src/continuum/engine.rs:40-47 | the same producers stay in the same slots; each is advanced once by the same elapsed time (`TickAll`); afterwards each producer with a nonzero quantity holds at most one period |
| `Engine.Engine.New` | src/continuum/engine.rs:60-68 | a new engine has an empty producer collection, no consumer-thread handle and a stopped timer |
| `Engine.Engine.AddProducer` | src/continuum/engine.rs:120-122 | delegates to the inner state: append at the end, nothing else changes |

## Left out

- The background timer thread (`src/continuum/timer.rs`) is not modelled: sleeping, reading the clock, sending on a channel and joining are concurrency and I/O. The engine's timer is reduced to its configured interval and its initial `Stopped` state.
- `Engine::start` and `Engine::stop` (src/continuum/engine.rs:71-118) are not modelled: they are thread spawning and joining, lock handling, a channel receive loop and logging. `TickEach` states what the receive loop's repeated `process_tick` calls do to the producers.
- `start_timer`, `stop_timer` and `timer_state` are not modelled: they only forward to the timer under its lock.
- `Tick`, `OnTick`, `RecoverCount`: floating point is not modelled; the model uses exact integer division and exact reals. In `f64` the recovery `(quantity_produced / production_quantity) as u64` can come out one short for ordinary values: with quantity 0.7, a 1000 ms period and one 3500 ms tick, `floor(3.5) * 0.7` is 2.0999999999999996, dividing by 0.7 gives 2.9999999999999996, and the cast gives 2 (quantities 1.4, 1.9 and 2.8 behave the same at 3 cycles). The source then pays three cycles but drains only two periods, keeps 1500 ms (more than a period) and pays that cycle again on the next tick. Conservation and the one-period bound therefore hold only in exact arithmetic. Totals above 2^53 ms also round.
- A zero period is not modelled: the source then divides by 0.0, which pays out infinity for a positive quantity, NaN for a zero quantity and minus infinity for a negative one, so `Tick` and `OnTick` require a positive period.
- `u64` overflow of `time_elapsed += delta` is not modelled: the accumulator and delta are unbounded `nat`s.
- `base_cost` and `cost_coefficient` are not modelled: no code in the core reads them. `value_per_unit` is carried in `ProductType` but never read.
- `AddProducer` requires that the producer is not already registered. The source moves a `Box` into the vector, so one producer cannot fill two slots.
- The terminal UI (`src/ui.rs`, `src/custom_widgets.rs`), the command loop (`src/main.rs`) and the module declarations (`src/continuum.rs`) are not part of this model.
- `get_producer` and `get_products` do not exist in this revision of `engine.rs` and are not modelled.
