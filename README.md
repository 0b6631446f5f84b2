# FilaSimples: a verified model of the queue simulator's engine

FilaSimples.py simulates a G/G/c/K queue, meaning general arrivals and
service times, `servers` servers and room for `capacity` customers in the
system. It is driven by a linear-congruential generator that may be drawn
from `num_randoms` times. This project models the engine of
`simulate_queue` and proves properties of it:

- the generator (`reset_random`, `next_random`);
- the `heapq` event list;
- the event loop with its arrival and departure rules;
- the aggregation into probabilities and mean population.

Modules:

- `Lcg`: the recurrence `previous' = (1664525 * previous + 1013904223) mod 2^32`.
  - `Draw` is its pure semantics. It fails on a spent budget and then changes nothing.
  - `Generator` is a class holding the two module globals.
  - `DrawMany` and `Stream` describe k successive draws after a reset.
- `EventList`: the pending `(time, kind)` tuples as a sequence.
  - `Push` appends an event.
  - `Pop` removes a least event under Python's tuple order. On equal times `"arrival"` sorts before `"departure"`.
- `Statistics`: `Probabilities` and `AvgPopulation`, with 0 when no time has passed. Also the sum and weighted-moment lemmas that bound them.
- `Engine`:
  - `Step` is one iteration of the `while` loop. `Simulate` runs Step until the guard fails or a draw fails. Together they are the reference semantics.
  - `HandleEvent` is the loop body, written against the `Generator` object and the `time_in_state` array.
  - `SimulateQueue` is the function itself. It is proved to return `Report(Simulate(p, Init(p)))` and the promises of the result record.

The loop invariant `Inv` says:

- `0 <= state <= capacity`;
- `sum(time_in_state) == current_time`, with every dwell time non-negative and every pending event no earlier than the clock;
- at most `num_randoms` draws are made;
- `losses` is at most the number of draws;
- the event list holds exactly one arrival and `min(state, servers)` departures.

Separately, `OnStream` says that the generator's `previous` is the seed
advanced once per draw made. Every iteration and the whole run keep it.

Because the loop guard demands `random_count > 0`, the first draw of an
iteration always succeeds. The only draw that can fail is the interarrival
draw of an accepted arrival that also drew a service time, when one draw was
left (`StepHalts`). So the `break` after `next_random()` at lines 81 and 108
of FilaSimples.py is never reached; only the one at line 93 is.

Every run consumes the whole budget (`Simulate` ensures
`Used(p, f) == Budget(p)`). The event list never runs empty, because it
always holds one arrival.

`ValidParams` states what the loop assumes but never checks:

- `servers >= 1`;
- `capacity >= 0`;
- `first_arrival >= 0`;
- `0 <= min <= max` for both intervals.

FilaSimples.py does not validate its parameters; the model makes these
conditions preconditions of the engine. It allows `num_randoms <= 0`, for
which the loop never runs.

Ties between equal event times are broken by Python tuple order, not by
insertion order: an arrival comes first on equal times, and two events of the
same kind at the same time are interchangeable. `Pop` promises only a least
event under that order, which is all `heappop` promises.

## Model

| member | source | states |
|---|---|---|
| `Lcg.Advance` | FilaSimples.py:27 | the new `previous` lies in [0, 2^32) |
| `Lcg.Iterate` | FilaSimples.py:27 | after at least one step of the recurrence the value lies in [0, 2^32) |
| `Lcg.Variate` | FilaSimples.py:28 | for `previous` in [0, 2^32) the variate `previous / M` is in [0,1), and multiplying it by 2^32 gives back `previous` |
| `Lcg.Draw` | FilaSimples.py:21-28 | a draw fails exactly when `random_count <= 0`; otherwise the budget drops by one, `previous` advances by the recurrence, and the variate is in [0,1) and equals `previous / M` |
| `Lcg.DrawMany` | FilaSimples.py:21-28 | k successive draws that all succeed return k variates, each in [0,1), and use k of the budget |
| `Lcg.BudgetIsExact` | FilaSimples.py:15-28 | after `reset_random(seed, n)`, k successive draws all succeed if and only if k <= n, so the (n+1)-th draw fails |
| `Lcg.DrawManyIsStream` | FilaSimples.py:15-28 | k <= n draws after a reset return a sequence determined by the seed alone and leave the seed advanced k times, with n - k draws left |
| `Lcg.Stream` | FilaSimples.py:27-28 | the k variates that follow a seed, each in [0,1) |
| `Lcg.StreamAt` | FilaSimples.py:27-28 | the j-th variate of the stream is the seed advanced j + 1 times, divided by 2^32 |
| `Lcg.Generator.constructor` | FilaSimples.py:12-13 | the globals start at `previous = 0`, `random_count = 0` |
| `Lcg.Generator.Reset` | FilaSimples.py:15-19 | the generator holds exactly the new seed and count |
| `Lcg.Generator.Next` | FilaSimples.py:21-28 | on a spent budget it fails and leaves the state unchanged; otherwise it returns Draw's variate and moves to Draw's state |
| `EventList.PrecedesIsTotalPreorder` | FilaSimples.py:64 | the tuple order on events is total, transitive and antisymmetric |
| `EventList.MinIndex` | FilaSimples.py:64 | the index found holds an event that precedes every pending event |
| `EventList.Push` | FilaSimples.py:60 | heappush lengthens the list by one and adds one event of the pushed kind |
| `EventList.PushContents` | FilaSimples.py:60 | heappush adds exactly the pushed event to the multiset of pending events |
| `EventList.Pop` | FilaSimples.py:64 | heappop returns an event that precedes every pending one; the rest plus it is the old multiset, and the per-kind counts drop by one for its kind |
| `Statistics.Probabilities` | FilaSimples.py:116-117 | one entry per state; with positive time, entry times time equals dwell times 100; with no time, every entry is 0 |
| `Statistics.ProbabilitiesArePercentages` | FilaSimples.py:116-117 | when the dwell times are non-negative and sum to a positive total, every probability is in [0, 100] and they sum to 100 |
| `Statistics.AvgPopulation` | FilaSimples.py:120-121 | with positive time, the mean times the time is the time-weighted sum of the state indices; with no time it is 0 |
| `Statistics.AvgPopulationBounds` | FilaSimples.py:120-121 | under the same conditions the mean population lies between 0 and the highest state index |
| `Engine.ServiceTime` | FilaSimples.py:82 | a variate in [0,1) gives a service time within [min_service, max_service] |
| `Engine.Interarrival` | FilaSimples.py:94 | a variate in [0,1) gives an interarrival time within [min_arrival, max_arrival] |
| `Engine.Init` | FilaSimples.py:46-60 | the initial variables satisfy the loop invariant: clock, state and losses are 0, and the only event is the first arrival |
| `Engine.Accrue` | FilaSimples.py:64-69 | one event leaves the list, the dwell times keep their length and their sum grows by exactly `event_time - current_time`; state, losses and generator are unchanged |
| `Engine.AccrueEffect` | FilaSimples.py:64-69 | under the loop invariant the popped event is the earliest pending one and no earlier than the clock, the clock becomes its time, the accounting invariant is kept, and the popped event's kind loses one count |
| `Engine.ScheduleDepartureEffect` | FilaSimples.py:78-84 | a service draw (here and at lines 105-111) breaks exactly when no draws are left and then changes nothing; otherwise one more draw is used, one departure is added and nothing else changes |
| `Engine.ScheduleArrivalEffect` | FilaSimples.py:90-96 | an interarrival draw breaks exactly when no draws are left and then changes nothing; otherwise one more draw is used, one arrival is added and nothing else changes |
| `Engine.Step` | FilaSimples.py:64-111 | one iteration sets the clock to the popped event's time and keeps the dwell vector's length; an arrival raises the state below capacity and otherwise adds a loss, and a departure lowers the state by one |
| `Engine.StepPreservesInv` | FilaSimples.py:63-111 | every iteration keeps the accounting invariant; one that does not break keeps one arrival and min(state, servers) departures pending |
| `Engine.ArrivalPreservesInv` | FilaSimples.py:71-96 | the arrival branch keeps the invariant |
| `Engine.ServedArrivalPreservesInv` | FilaSimples.py:73-96 | an arrival that finds a free server draws its service time successfully, and the interarrival draw after it keeps the invariant |
| `Engine.QueuedArrivalPreservesInv` | FilaSimples.py:73-96 | an arrival that has to wait never breaks, and keeps the invariant |
| `Engine.LostArrivalPreservesInv` | FilaSimples.py:85-96 | an arrival at full capacity never breaks, and keeps the invariant |
| `Engine.DeparturePreservesInv` | FilaSimples.py:98-111 | the departure branch keeps the invariant |
| `Engine.DepartureKeepsInv` | FilaSimples.py:98-111 | a departure never breaks; its service draw, when somebody waits, keeps the invariant |
| `Engine.StepDecreases` | FilaSimples.py:63-111 | each iteration draws at least once or shrinks the event list, and an arrival always draws, so the loop terminates |
| `Engine.Running` | FilaSimples.py:63 | the loop guard: the event list is non-empty and draws remain; it is the halting test of Simulate and SimulateQueue, whose contracts state its effect |
| `Engine.Simulate` | FilaSimples.py:62-111 | the loop ends with the accounting invariant, the clock and the losses no lower than at the start, and exactly the budget of draws consumed |
| `Engine.StepFollowsStream` | FilaSimples.py:63-111 | every iteration leaves the generator at the seed advanced once per draw made so far |
| `Engine.SimulateFollowsStream` | FilaSimples.py:62-111 | the whole loop keeps the generator on the seed's stream |
| `Engine.RunConsumesStream` | FilaSimples.py:46-111 | a run ends with all of its num_randoms draws taken from the seed's stream and none left |
| `Engine.StepClock` | FilaSimples.py:64-69 | the clock becomes the popped event's time, never goes back, and is no later than any pending event, so every accrued delta is >= 0 |
| `Engine.StepAccrual` | FilaSimples.py:66-69 | the elapsed time is added to the state before the transition and to no other state |
| `Engine.StepOccupancy` | FilaSimples.py:71-100 | an arrival raises the state by one only below capacity; a departure finds the state >= 1 and lowers it by one; the state stays within [0, capacity] |
| `Engine.StepLosses` | FilaSimples.py:85-87 | losses grow by exactly one on an arrival at full capacity and by nothing otherwise |
| `Engine.StepHalts` | FilaSimples.py:63-108 | an iteration breaks if and only if it is an accepted arrival that starts service with exactly one draw left |
| `Engine.RunReachesFirstArrival` | FilaSimples.py:59-69 | a run with a positive budget lasts at least until first_arrival |
| `Engine.Report` | FilaSimples.py:113-128 | the result record of a final state; what it promises is stated by ReportIsWellFormed |
| `Engine.ReportIsWellFormed` | FilaSimples.py:113-128 | the record has capacity + 1 non-negative dwell times summing to the simulation time, and losses within the budget; with positive time the probabilities sum to 100 and the mean is within [0, capacity]; with no time the probabilities and the mean are 0 |
| `Engine.HandleEvent` | FilaSimples.py:64-111 | one pass of the loop body over the generator object and the array yields exactly the variables and the break that Step gives |
| `Engine.SimulateQueue` | FilaSimples.py:33-128 | the loop returns the report of the reference run, with dwell times summing to the simulation time, losses within the budget, a simulation time >= first_arrival when anything is drawn, and probabilities summing to 100 when time has passed |

## Left out

- `print_report` and the `__main__` scenarios only print, so they are not modelled.
- The echoed parameters in the result dictionary (`servers`, `capacity` and the interval bounds) copy the inputs. `SimulationResult` omits them.
- Times, variates and probabilities are exact `real`s, not IEEE doubles. So "sum of probabilities is 100" holds exactly here, and only approximately in the source.
- `heapq` internals are abstracted. The event list is a sequence, and `Pop` takes a least element under tuple order. The heap layout, and which of two equal tuples comes out first, are not modelled.
- The exception raised by `next_random` and caught at the draw sites becomes `None` from `Generator.Next` and the `halted` flag of `HandleEvent`. In `SimulateQueue` the loop guard tests that flag where the source executes `break`.
- The generator's module-level globals become one `Generator` object, created by `SimulateQueue` and reset at its start. Other code sharing the globals is not modelled.
- Losses are not shown to be monotone in the number of servers. This code does not guarantee it: with more servers the draws for service and interarrival times interleave differently, so two runs see different durations.
