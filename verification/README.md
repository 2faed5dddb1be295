# Call admission and handover in a mall-to-road cellular strip

A Dafny model of the core of a discrete-time simulator of two cell towers
covering a straight strip: a shopping mall, its parking lot and a road. The
strip has a small cell at the origin inside the mall and a macro base station
at the far end of the road. Users appear at random, ask a tower for a channel,
and while connected walk or drive one tick (one second) at a time. A tower's
hold on a call ends in one of four ways: the call finishes, the user leaves the
strip, the signal drops below the user's threshold, or the call is handed over
to the stronger tower, which moves the call there rather than ending it. Every
tower keeps counters of what happened to its calls. One run sums them into a
statistics record, and several runs are aggregated into a grade of service and
a split of blocked calls by cause.

The model follows the structure of the program:

| file | module | models |
|---|---|---|
| prelude.dfy | `Prelude` | option/result types, the exceptions the core raises, Python's `int()` on floats |
| tower.dfy | `Towers` | `tower.py`: the admission controller (a class proved against pure step functions) |
| cfg.dfy | `Cfg` | `cfg.py`: derived configuration fields, `set_duration`, `valid_distance` |
| rf.dfy | `Rf` | `rf.py`: interpolation, wall penetration, shadow table, call-arrival table, RSL composition, k-th smallest |
| user.dfy | `Users` | `user.py`: the per-user tick state machine (a class proved against pure step functions) |
| simulation.dfy | `Simulation` | `simulation.py`: `simulate`, the tick loop and the statistics record |
| output.dfy | `Output` | `output.py`: the arithmetic of `print_aggregate_stats` |

Objects the source updates in place are Dafny classes: `Tower`, `User`,
`SimOptions`, and the module globals of `rf.py` as `Tables`. Each method of
these classes is proved to leave the object in the state that a pure function
of the old state computes (`ensures State() == Admit(old(State()), ...).state`).
The properties are then proved about those functions. The random draws and the
received signal levels of a tick come in as a `Draws` value.

The headline property is `Simulation.Balanced`. It states that each tower has
exactly as many channels in use as there are users connected to it. `Users.Tick`
preserves it for one user and one tick, and `Simulation.Simulate` keeps it over
a whole run. Because of it, the only exception of the channel release in
`tower.py:91-92` cannot happen during a simulation.

Two places where the code and its own documentation disagree; the model follows
the code:

- `valid_distance` is documented to require a non-negative distance. The code
  accepts every multiple of 100 outside 100..2900, including 0 and negative
  values (`Cfg.ValidDistanceAcceptsNonPositive`).
- `get_kth_smallest` is documented to return the k-th smallest entry for any
  array. It cannot return the largest entry and relies on an order numpy does
  not promise (see Findings).

The averages of `simulate` divide the occupancy totals by the last loop index,
`iterations - 1`, not by the number of ticks. The model keeps that, so a run of
one tick raises a division by zero.

## Model

| member | source | states |
|---|---|---|
| Prelude.Trunc | rf.py:30 | `int(x)` truncates toward zero: the result is within one of `x`, on the side of zero |
| Towers.Admit | tower.py:53-80 | low signal is checked before capacity; a refused primary attempt counts one attempt and exactly one block counter; a refused secondary attempt changes nothing; a success counts one attempt whatever the flag, takes one channel and one established connection; occupancy stays within capacity |
| Towers.ReleasesFreeOneChannel | tower.py:89-129 | disconnect, drop and hand-over free exactly one channel; handover failure, attempt, rescue and failed-connect leave occupancy alone; a hang-up is counted iff the call is done |
| Towers.Tower.constructor | tower.py:19-33 | a tower built from options has every counter at zero and no recorded locations |
| Towers.Tower.Default | tower.py:10-17 | a tower built without options is a 30-channel small cell at the origin, 10 m high, 30 dBm, 1000 MHz |
| Towers.Tower.ResetCounters | tower.py:35-51 | all counters, the occupancy and both location lists return to zero/empty |
| Towers.Tower.Connect | tower.py:53-80 | the in-place update and the outcome are those of `Admit` |
| Towers.Tower.Add | tower.py:82-87 | one more channel in use, nothing else changes |
| Towers.Tower.Remove | tower.py:89-99 | raises ValueError without change when no channel is in use, else frees exactly one |
| Towers.Tower.Disconnect | tower.py:101-105 | releases through `Remove`; counts a successful connection and a hang-up iff `callDone` |
| Towers.Tower.Drop | tower.py:107-110 | releases through `Remove`; counts a dropped call |
| Towers.Tower.FailedToConnect | tower.py:112-114 | counts one failed connection, nothing else changes |
| Towers.Tower.HandOver | tower.py:116-119 | releases through `Remove`; counts a handover success and appends the user's position |
| Towers.Tower.HandoverFailure | tower.py:121-123 | counts a failure and appends the position; channels untouched |
| Towers.Tower.HandoverAttempt | tower.py:125-126 | counts one handover attempt, nothing else changes |
| Towers.Tower.SavedBySecondary | tower.py:128-129 | counts one rescue by the secondary tower, nothing else changes |
| Towers.Tower.DumpHandoffData | tower.py:131-132 | returns the success and failure location lists, in that order |
| Cfg.MakeGeometry | cfg.py:18-32 | mall starts at 0; mall end = parking start; hall end = mall end; road start = parking end; road end = base-station distance |
| Cfg.SimOptions.constructor | cfg.py:38-56 | `iterations = 3600 * duration`; the three spawn probabilities sum to 1 |
| Cfg.SimOptions.SetDuration | cfg.py:58-60 | re-establishes `iterations = 3600 * duration` for the new duration |
| Cfg.MakeUserOptions | cfg.py:66-73 | the parking-lot speed equals the mall speed |
| Cfg.MakeTowerOptions | cfg.py:79-92 | the small cell stands at 0, the base station at the configured distance; the tower type is recorded |
| Cfg.ValidDistance | cfg.py:95-111 | accepted iff an int of the form 100·m with m ≤ 0 or m ≥ 30 |
| Cfg.ValidDistanceAcceptsNonPositive | cfg.py:95-111 | 0 and every negative multiple of 100 are accepted |
| Rf.Near | rf.py:99-103 | true iff the two distances differ by at most the threshold |
| Rf.NearSymmetric | rf.py:99-103 | the test is symmetric in the two distances |
| Rf.Interpolate | rf.py:141-153 | ValueError when `dist > length` or `min > max`, division by zero for an empty interval; otherwise on the line through (0, min) and (length, max), min at 0, max at length, within [min, max] for non-negative `dist` |
| Rf.Penetration | rf.py:156-182 | inside: 0 for the small cell, the wall loss for the base station; outside: the reverse; fails only in the hallway with a negative wall loss; in the hallway the loss is linear in the position, rising from 0 at the hallway start to the wall loss at the mall end for the small cell and the reverse for the base station; always within [0, wall loss] |
| Rf.PenetrationComplementary | rf.py:174-182 | in the hallway the two towers' losses sum to the wall loss, and each is half of it in the middle |
| Rf.PenetrationReferenceHallway | rf_test.py:61-89 | the values at 189 m, 195 m and 201 m with the hallway 190..200 m and 21 dB of wall |
| Rf.Repeat | rf.py:22 | `np.repeat` yields `len(samples) * seg` entries |
| Rf.RepeatAt | rf.py:22 | entry `k*seg + j` (with `j < seg`) is sample `k` |
| Rf.ShadowInit | rf.py:11-24 | division by zero for a zero segment, ValueError for negative counts, scale, repeat or size; the table has `int(mall_end) + unique*seg` entries |
| Rf.ShadowLayout | rf.py:18-24 | the mall part is all zeros and each segment holds one sample |
| Rf.ShadowAt | rf.py:27-33 | for a non-negative position the lookup succeeds iff it is inside the table and returns entry `int(pos)`; every miss is an InitializationError |
| Rf.NoShadowInsideMall | rf.py:190-193 | with a built table, positions inside the mall see no shadowing |
| Rf.Rsl | rf.py:185-197 | EIRP − path loss − shadowing (base station only) + fading − wall loss; a failed shadow lookup is reported before a failed wall loss |
| Rf.Bernoulli | rf.py:49 | entry i is true iff draw i is below the probability |
| Rf.InitCalls | rf.py:44-51 | the probability is set even when numpy refuses a negative size; on success the table has `size` entries, the flag is set, and the cursor is kept |
| Rf.NextCall | rf.py:54-71 | InitializationError before initialisation; the cursor advances; the size doubles iff the advanced cursor is a multiple of the old size, and then the new table is the Bernoulli draw of `redraw` at the call probability, otherwise the table is kept; the bit read is always an entry of the table, whose length stays equal to the size |
| Rf.NoRedrawBeforeWrap | rf.py:64-71 | before the cursor wraps, `want_call` reads the next entry of the same table |
| Rf.Tables.constructor | rf.py:8-41 | the module globals start with no shadow table and no call table |
| Rf.Tables.InitShadowing | rf.py:11-24 | the global table becomes the built table, or stays unchanged when numpy raises |
| Rf.Tables.Shadowing | rf.py:27-33 | a non-negative position is found iff it is inside the global table |
| Rf.Tables.InitCallProbabilities | rf.py:44-51 | the globals are updated as `InitCalls` says |
| Rf.Tables.WantCall | rf.py:54-71 | the globals and the result are those of `NextCall` |
| Rf.KthSmallest | rf.py:128-133 | the documented k-th smallest: an entry with fewer than k entries below it and at least k at or below it |
| Rf.FirstSmallestIsMin | rf.py:128-130 | the first smallest is the minimum |
| Rf.GetKthSmallest | rf.py:128-138 | TypeError for a non-int k; IndexError for an empty array whatever k is (numpy partitions it without checking k); otherwise ValueError for k outside −n..n−1 and IndexError for k = 0 or k = −n; a result exactly when 0 < k < n or −n < k < 0, and it is an entry of the array |
| Rf.GetKthSmallestFirstIsMin | rf.py:134-138 | with k = 1 on an array of two or more entries the result is the minimum |
| Rf.GetKthSmallestRejectsLargest | rf.py:137-138 | k = len(array) raises where the 2nd smallest of [1, 2] is 2 |
| Rf.GetKthSmallestUnorderedPrefix | rf.py:137-138 | with a valid partition order the result can be the 1st smallest when the 2nd is asked for |
| Users.Reset | user.py:124-136 | a disconnected or dropped user is unplaced, unconnected, not calling, with no time left, and keeps its direction |
| Users.IsOutside | user.py:41-45 | InitializationError for an unplaced user, else past the parking start |
| Users.OnRoad | user.py:47-51 | InitializationError for an unplaced user, else past the parking end |
| Users.RoadIsOutside | user.py:41-51 | a user on the road is outside the mall |
| Users.MovedPos | user.py:53-57 | InitializationError for an unplaced user; road speed iff the old position is on the road, walking speed otherwise, times the direction |
| Users.Scaled | user.py:108-115 | a uniform draw in [0, 1) times a positive segment length lies in [0, length) |
| Users.RandomPos | user.py:93-117 | sector in (0, 0.2): road, heading −1; [0.2, 0.5): parking, heading −1; otherwise (0.0 included): mall, heading +1; a draw in [0, 1) lands inside the chosen segment |
| Users.CallAttempt | user.py:59-91 | the three outcomes: primary admits; primary refuses and secondary admits (rescue credited to the primary); both refuse (failure counted on the primary, user unchanged); each tower's occupancy moves exactly with the user's connection |
| Users.ConnectedSteps | user.py:155-207 | the order of the connected checks: call over, exit within 1 m of the tower ahead, drop below threshold, handover to a strictly stronger tower with success or failure recorded on the old tower, the timer one second less and only the connection changed (to the new tower iff it admits the call); otherwise only the timer runs down |
| Users.Tick | user.py:138-207 | each tower's occupancy changes exactly as the user's hold on it; capacity is respected; the only exception is an unplaced position, with the towers untouched; an idle user spawning outside tries the base station first, otherwise the small cell |
| Users.TickMovesAtMostOneChannel | user.py:138-207 | one tick changes the total occupancy of both towers by at most one |
| Users.User.constructor | user.py:23-39 | a new user is idle and still; the average call duration is converted to seconds |
| Users.User.UpdatePos | user.py:53-57 | the position is moved as `MovedPos` says, or left alone when it raises |
| Users.User.UpdateCalltime | user.py:119-122 | one second less; done iff the time left is negative |
| Users.User.Disconnect | user.py:124-129 | the user becomes `Reset` of its old state |
| Users.User.Drop | user.py:131-136 | same as disconnect |
| Users.User.AttemptCall | user.py:59-91 | user and both towers end as `CallAttempt` says |
| Users.User.IdleStep | user.py:139-152 | the idle branch ends as `Tick` says |
| Users.User.Steps | user.py:155-207 | the connected checks end as `ConnectedSteps` says |
| Users.User.OnTimestep | user.py:138-207 | user and both towers end as `Tick` says |
| Users.InitUsers | user.py:14-19 | n distinct new users with ids 0..n−1, all idle and unplaced (none for n ≤ 0) |
| Simulation.OccupancyUpdate | simulation.py:32-33 | changing one user's state changes a tower's occupancy by that user's hold only |
| Simulation.OccupancyCountsHolder | simulation.py:32-33 | a connected user is counted in its tower's occupancy |
| Simulation.IdleOccupancy | user.py:14-19 | idle users hold no channel |
| Simulation.Summarize | simulation.py:45-67 | each total is the base-station counter plus the small-cell counter; failures = no-signal + no-channel |
| Simulation.BalancedHolds | simulation.py:32-33 | under the bookkeeping invariant, the tower a user is connected to has a channel in use for it |
| Simulation.TickKeepsBalance | simulation.py:32-33 | one user's tick keeps each tower's channels in use equal to the number of users connected to it |
| Simulation.TickUsers | simulation.py:32-33 | `for u in users` as a fold: users tick in list order and the first exception ends the round with the state reached; users before the cursor are untouched; the invariant, the tower kinds and capacity are kept; the only exception is an unplaced position |
| Simulation.NextRun | simulation.py:29-33 | one pass of the loop body: the user states it starts from go to the trace, each tower's channels in use go to its per-tick record and its total, then all users tick |
| Simulation.RunFrom | simulation.py:18-33 | the loop from tick `t` on: one record per tick run, all remaining ticks when nothing raises; a raise ends the run right after the tick that raised; earlier records stay; tick `t` starts from the current users |
| Simulation.RunTicks | simulation.py:17-33 | the whole loop: at most one record per tick and exactly one each without exception; the first record is the initial user states; the invariant holds at the end |
| Simulation.RunFromRecords | simulation.py:29-33 | each tick from `t` on records the occupancies of the user states it starts from |
| Simulation.RunFromTotals | simulation.py:29-30 | the running totals stay the sums of the per-tick records |
| Simulation.RunTicksRecordsOccupancy | simulation.py:29-30 | what a tick adds to `tot_bstn` (`tot_cell`) is the number of users connected to the base station (small cell) at the start of that tick, and the totals are the sums of those |
| Simulation.TickLoop | simulation.py:17-33 | users, towers, outcome, totals and per-tick records end as `RunTicks` computes from the initial state |
| Simulation.RecordTick | simulation.py:29-33 | one pass of the loop body ends as `NextRun` computes |
| Simulation.OneTick | simulation.py:32-33 | the ticking user's tower holds a channel for it beforehand; afterwards user `j` and both towers are as `Tick` computes from their old states and every other user is unchanged; the invariant is kept |
| Simulation.UsersTick | simulation.py:32-33 | users and towers end as `TickUsers` computes from the old states, and the outcome is its outcome; the invariant is kept |
| Simulation.Simulate | simulation.py:13-85 | users, towers and per-tick occupancies are those of `RunTicks` over the first `iterations` ticks; an exception of a tick is returned as is; a result exactly when no tick raised and `iterations` ≥ 2; UnboundLocalError without ticks and a failure with one tick; the invariant holds at the end; averages are the occupancy sums over `iterations - 1`; the statistics are the counters of both towers summed |
| Output.AggregateStats | output.py:101-132 | division by zero for no runs; otherwise the field-wise sums over the runs with the two averages divided by the number of runs |
| Output.SingleRun | output.py:117-132 | aggregating one run reproduces its record |
| Output.TotalsAppend | output.py:117-129 | the aggregate of two batches of runs is the sum of their aggregates |
| Output.FailuresSplit | output.py:117-121 | failures = no-signal + no-channel carries over from the runs to the aggregate |
| Output.Gos | output.py:159-163 | −1 without attempts, else 100·(failed − saved)/attempts |
| Output.BlockedShares | output.py:170-176 | −1/−1 when nothing was blocked; otherwise both shares lie in [0, 100], sum to 100, and the capacity share is 100·no-channel/blocked |

## Findings

| source | as written | input that shows it | evidently intended | confidence | as-written member | corrected member |
|---|---|---|---|---|---|---|
| rf.py:137-138 | `np.argpartition(array, k)` needs `k < len(array)`, so asking for the largest entry raises ValueError | `get_kth_smallest([1.0, 2.0], 2)` | the 2nd smallest, 2.0 | high; not executed | Rf.GetKthSmallestRejectsLargest | Rf.KthSmallest |
| rf.py:137-138 | `indexes[:k][-1]` is the last of the k smallest in an order argpartition leaves unspecified | `get_kth_smallest([1.0, 2.0, 3.0], 2)` when argpartition returns `[1, 0, 2]` | the 2nd smallest, 2.0, not 1.0 | low: numpy's selection routine sorts the prefix when k < 3, and the program only asks for k = 2, so this order comes from a different conforming implementation; not executed | Rf.GetKthSmallestUnorderedPrefix | Rf.KthSmallest |

## Left out

- Path loss (`okamura_hata`) and `mag2dB`: logarithms over floats. `Rf.Rsl` takes the path loss as a real input.
- Fading (`get_fading`, `get_fading_complex`, `rayleigh`), `call_time` and every numpy draw: random-number generation. The samples, uniforms, sectors and call times are inputs (`Draws`, `samples`, `uniforms`, `redraw`).
- Users.Tick: takes the two signal levels of a tick and the want-call bit as `Draws` fields. So the errors that `RSL` and `want_call` can raise are not propagated into a tick. These errors are a failed shadow lookup, a negative wall loss and a call table never initialised; `Rf.Rsl` and `Rf.Tables.WantCall` model them on their own. The ValueError of `log10(0)` in `okamura_hata` for a user standing at a tower (rf.py:187-188, 208) is not modelled at all, as the path loss is left out.
- Users.Tick: requires that a connected user's tower has a channel in use. Under that requirement the `_remove` ValueError inside `on_timestep` cannot occur. `Towers.Tower.Remove` models the raise itself, and `Simulation.Simulate` proves the requirement holds throughout a run.
- Floating point: all arithmetic is exact over `real`. Rounding in the interpolation, the averages and the percentages is not modelled.
- Python's dynamic types: the tower's channel count is a `nat` (the source converts it to float), and `valid_distance` and `get_kth_smallest` see either an int or "anything else" (`PyArg`).
- `concurrent_sim`, `multi_sim` and the seed update they do: multiprocessing and output redirection.
- All printing: status updates inside `simulate`, the summaries and tables of `output.py`, and `handover_histogram` (plotting).
- `main.py` (argument parsing and wiring), `cfg.read_json` (file I/O) and the JSON access inside the option constructors. The constructors take the values they would read.
- Tower debug mode and the write-only `users` dictionary of a tower. Debug mode prints, and it skips the negative-channel check of `_remove`: a release at zero occupancy then drives `_channels_in_use` to −1 instead of raising (tower.py:91-96). No caller enables it (tower.py:19 defaults it to off), the `nat` occupancy cannot represent −1, and `Simulation.Balanced` shows that such a release cannot arise during a run. The `users` dictionary is never read.
- The wall-clock runtime of `simulate` is an input.
- The `ConnectionError` exception of `connect` is an `Outcome` (`LowSignal` / `NoFreeChannels`).
