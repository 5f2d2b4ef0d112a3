# PoWA collector worker and statistics extraction, modelled in Dafny

PoWA's `powa.c` holds two pieces of decision logic under PostgreSQL plumbing.
This project models both.

- **The background worker** (module `Scheduler`). The worker validates
  `powa.frequency`, leaves if it is disabled, then loops. Each iteration
  checks the disabled sentinel, triggers one snapshot, and waits for what is
  left of the period. A SIGHUP reloads the frequency and validates it again.
  The class `Scheduler.Worker` holds the frequency and the worker's state.
  Ghost fields record the snapshots taken and the timeouts of the waits
  performed. The pure functions `Launch`, `Apply` and `Replay` describe the
  same behaviour as values, and the lemmas about whole runs are stated over
  them. `Worker.Run` is proved to follow `Replay`.
- **The statistics extraction** (module `StatExtract`). This is the code
  behind `powa_stat_user_functions` and `powa_stat_all_rel`. The class
  `StatExtract.Backend` holds the process-wide `MyDatabaseId` and the cached
  statistics view. `Backend.Extract` clears the cache and points
  `MyDatabaseId` at the target database for the fetch only. It then restores
  `MyDatabaseId`, builds one row per entry and clears the cache again. The
  row mappings are pure functions with round-trip lemmas: every counter
  survives into its row, `blocks_read` is `blocks_fetched - blocks_hit`, and a
  timestamp is NULL exactly when its raw value is 0.

Elapsed time is an input in microseconds. It is the difference of two clock
readings (powa.c:217, powa.c:229-230), so it is negative when the clock is set
back during a snapshot; the model allows that. The wait then exceeds the
period, and a frequency of 0 can wait (`ZeroFrequencyWaitsAfterClockSetBack`). The source measures it as a double
number of milliseconds and converts `frequency - elapsed` to a `long`, so
`time_to_wait` truncates toward zero. `TimeToWait` models that conversion.

The statistics file is a parameter: a map from database id to that
database's function and table counters. A backend reads it once and keeps
it until `pgstat_clear_snapshot`. Only the database the backend was
connected to at read time gets its function and table hashes (powa.c:322-347
describes this). `LoadView` models that read. This is why the override is
needed: `HomeViewHidesOtherDatabases` shows that without it the target's
rows are never seen.

Four behaviours of the code that a reader may not expect; the model keeps each as written:

- A frequency of 0 passes validation. The worker then takes snapshots back
  to back and never waits (`ZeroFrequencyRunsBackToBack`). The comments at
  powa.c:165 and powa.c:173 say the worker connects only when the frequency
  is positive, and the message at powa.c:78 speaks of a minimum of 5000 ms.
- A reload does not wake a wait in progress: `powa_sighup` does not set the
  latch. A reload to a negative frequency therefore takes effect at the next
  iteration boundary (`ReloadToDisabledStopsAtNextIteration`). A reload to a
  value from 1 to 4999 is different: the handler itself calls
  `die_on_too_small_frequency`, which exits at once, even in the middle of a
  wait (powa.c:263-264, powa.c:80).
- `MyDatabaseId` is restored on the normal path only. The source has no
  cleanup block around the fetch.
- Row generation is guarded by the function hash for both kinds
  (`TableRowsGuardedByFunctionHash`).

## Model

| member | source | states |
|---|---|---|
| `Scheduler.Worker.constructor` | powa.c:96-103 | the worker starts with the configured `powa.frequency`, within its bounds -1 to INT_MAX/1000, with no snapshot and no wait |
| `Scheduler.Worker.DieOnTooSmallFrequency` | powa.c:74-82 | the worker exits exactly when the frequency is positive and below 5000 ms; otherwise nothing changes |
| `Scheduler.Validate` | powa.c:74-82 | validation changes only the state, and ends the worker exactly when `0 < frequency < 5000` |
| `Scheduler.Launch` | powa.c:156-172 | after start-up the worker runs exactly when the frequency is 0 or at least 5000; it is stopped for a too-small frequency exactly when `0 < frequency < 5000`, and deactivated exactly when the frequency is negative; no snapshot has been taken |
| `Scheduler.Worker.Startup` | powa.c:156-192 | the start-up sequence ends in the state `Launch` gives; it is running exactly for 0 or at least 5000 |
| `Scheduler.TimeToWait` | powa.c:238-240 | a wait happens exactly when at least one whole millisecond of the period is left; snapshot time plus wait then equals the period to within 1 ms; with a non-negative elapsed time the wait never exceeds the frequency, while a clock set back by 1 ms or more makes it exceed the frequency; for whole milliseconds the wait is `frequency - elapsed` |
| `Scheduler.Apply` | powa.c:200-265 | an event changes only a running worker; an iteration with a negative frequency exits with no snapshot; otherwise it adds one snapshot and a wait of `TimeToWait` exactly when that is positive; a reload replaces the frequency, keeps the counters, and exits exactly when the new frequency is too small |
| `Scheduler.Replay` | powa.c:200-257 | the loop with reloads between iterations leaves a worker that is not running unchanged, and adds at most one snapshot per event |
| `Scheduler.Worker.Tick` | powa.c:200-257 | a negative frequency ends the worker with no snapshot; otherwise one snapshot is counted and a wait of `TimeToWait` is recorded exactly when it is positive; the frequency is unchanged |
| `Scheduler.Worker.Reload` | powa.c:261-265 | the new frequency replaces the old one and is validated again; the worker exits exactly when it is too small; counters are unchanged |
| `Scheduler.Worker.Run` | powa.c:148-258 | start-up followed by the loop, with reloads between iterations, ends in the state `Replay` gives from `Launch`; the worker invariant holds, and every wait is at most INT_MAX/1000 when no elapsed time was negative |
| `Scheduler.ExitIsFinal` | powa.c:80 | after any of the three exits (powa.c:80, powa.c:171, powa.c:210) no further event changes the worker |
| `Scheduler.LaunchKeepsInv` | powa.c:156-172 | after start-up the frequency is within its bounds and a running worker has an accepted frequency |
| `Scheduler.ReplayKeepsInv` | powa.c:200-265 | every sequence of iterations and in-range reloads keeps the invariant: the frequency stays in the setting's range, a running worker's frequency is 0, negative or at least 5000, and every wait timeout is positive |
| `Scheduler.ForwardClockBoundsWaits` | powa.c:229-255 | while no elapsed time is negative, every wait timeout stays at most INT_MAX/1000 |
| `Scheduler.DisabledAtStartup` | powa.c:167-172 | a negative frequency at start-up ends the worker as deactivated, and no snapshot is ever taken |
| `Scheduler.TooSmallAtStartup` | powa.c:156 | a frequency in 1..4999 at start-up ends the worker before any snapshot |
| `Scheduler.DisabledTakesNoSnapshot` | powa.c:207-211 | while the frequency is negative and no reload occurs, no snapshot and no wait happen, and the first iteration ends a running worker |
| `Scheduler.ReloadToDisabledStopsAtNextIteration` | powa.c:261-265 | a reload to a negative frequency stops the worker at the next iteration, before another snapshot |
| `Scheduler.ZeroFrequencyRunsBackToBack` | powa.c:238-256 | with frequency 0, no reload and a clock that does not go back, every iteration takes a snapshot, none waits, and the worker keeps running |
| `Scheduler.ZeroFrequencyWaitsAfterClockSetBack` | powa.c:229-255 | with frequency 0, an elapsed time of -2 ms gives a wait of 2 ms |
| `Scheduler.WaitsFollowSnapshots` | powa.c:217-256 | snapshots and waits only accumulate, at most one snapshot per event, and there are never more new waits than new snapshots |
| `Scheduler.SteadyCadence` | powa.c:231-256 | with a constant snapshot duration and no reload, n iterations take n snapshots and wait the same compensated time each |
| `Scheduler.FiveSecondPeriodWaitsFourPointEight` | powa.c:238-255 | a 5000 ms period with 200 ms snapshots gives ten snapshots and ten waits of 4800 ms |
| `StatExtract.LoadView` | powa.c:327-341 | a read of the statistics has an entry for every database in the file, with hashes only for the current database, holding exactly its counters |
| `StatExtract.ContextError` | powa.c:291-307 | the call proceeds exactly when the caller accepts a set, allows materialize mode and expects a row type; the first two failures are told apart as in the source |
| `StatExtract.Millis` | powa.c:379-380 | a time in milliseconds times 1000 is the raw microsecond value |
| `StatExtract.FunctionRow` | powa.c:363-384 | a function row has 4 non-NULL columns: id, call count, and total and self time whose product with 1000 is the raw value |
| `StatExtract.TimestampDatum` | powa.c:421-425 | a timestamp column is NULL exactly when the raw value is 0, and the raw value otherwise |
| `StatExtract.RelationRow` | powa.c:388-451 | a relation row has 21 columns; `blocks_read` is `blocks_fetched - blocks_hit`; the four timestamps are NULL exactly when their raw value is 0; every other column is non-NULL |
| `StatExtract.FunctionRowRoundTrip` | powa.c:377-380 | a function row reads back as its entry: no counter is lost |
| `StatExtract.FunctionRowDecodeExact` | powa.c:377-380 | a row that reads back as a function entry is exactly that entry's row: the two times are the raw microseconds divided by 1000, with nothing rounded |
| `StatExtract.RelationRowRoundTrip` | powa.c:402-447 | a relation row reads back as its entry, `blocks_fetched` being `blocks_read + blocks_hit` and a NULL timestamp 0 |
| `StatExtract.RowsFor` | powa.c:359-456 | no row when the entry or its function hash is NULL, for either kind; otherwise one row per entry of the selected hash, in order, each that entry's function or relation row |
| `StatExtract.OverrideReadsTarget` | powa.c:350-359 | a fresh read with `MyDatabaseId` set to the target yields exactly the target's rows |
| `StatExtract.HomeViewHidesOtherDatabases` | powa.c:337-341 | a read made while connected to another database yields no row for the target |
| `StatExtract.TableRowsGuardedByFunctionHash` | powa.c:359 | the relation kind yields nothing when the function hash is NULL, even with a non-empty table hash |
| `StatExtract.ExpectedRowsAreTargetEntries` | powa.c:359-456 | each row of a result reads back as the entry of the requested database at the same position, so no row comes from another database |
| `StatExtract.PutFunctionRows` | powa.c:367-385 | the loop emits one row per function entry, in order, each the entry's function row |
| `StatExtract.PutRelationRows` | powa.c:392-452 | the loop emits one row per table entry, in order, each the entry's relation row |
| `StatExtract.Backend.ClearSnapshot` | powa.c:350 | the cached statistics are gone afterwards |
| `StatExtract.Backend.FetchDbEntry` | powa.c:355 | a cached view is reused; otherwise the statistics are read for the current `MyDatabaseId`; the answer is the entry for the asked database, or NULL |
| `StatExtract.Backend.Extract` | powa.c:279-469 | a bad calling context fails with its error and changes nothing; otherwise the result is one row per entry of the selected kind for the target, empty when it has no entry; `MyDatabaseId` is restored; the cache is cleared; the calls are clear, fetch as the target, clear |
| `StatExtract.Backend.StatUserFunctions` | powa.c:267-271 | exactly the rows of `Expected` for the function kind: one 4-column row per function of the target, each reading back as that function's counters, times exactly the raw value divided by 1000; state restored and cache cleared |
| `StatExtract.Backend.StatAllRel` | powa.c:273-277 | exactly the rows of `Expected` for the table kind: one 21-column row per table or index of the target, each reading back as its counters; state restored and cache cleared |

## Left out

- Worker registration, the definition of the other settings (`powa.coalesce`, `powa.retention`, `powa.database`, `powa.ignored_users`) and the `shared_preload_libraries` check: host set-up with no decision logic.
- Connecting to the database, SPI, transactions, `SET application_name` and `pgstat_report_activity`: host I/O. A snapshot is an opaque step counted in the ghost field `snapshots`.
- Latches, signal installation and `ProcessConfigFile`: a reload is an atomic event between iterations that carries the new value, and only in-range values are considered. Elapsed time is an input.
- A reload that arrives while a snapshot runs: in the source the wait after that snapshot already uses the new frequency, while the disabled check before it used the old one. The model applies every reload between iterations.
- SIGTERM: the host's default handler ends the process; it is not an event of the model.
- Postmaster death and any other wake-up of the latch: `WaitLatch` is asked to return on postmaster death (powa.c:253-255), but its result is ignored and nothing in the loop exits on it, so after the postmaster dies every wait returns at once and the loop keeps taking snapshots without pause. The model does not capture a wait cut short: `waits` records the timeouts passed to `WaitLatch`, not the time actually slept.
- `exit(1)`: a terminal state tagged with its reason. All three exits use process status 1.
- Restart after an exit: the worker is registered with a restart time of 10 seconds (powa.c:139), so the postmaster starts a new process after an `exit(1)`. That process reads `powa.frequency` again and repeats start-up. The model covers one process's life: an exit ends that process, not the collector, and "deactivated" is not a permanent stop.
- The "-- sleeping for %li seconds" activity message and the debug log lines: cosmetic.
- Scheduler.ZeroFrequencyRunsBackToBack: holds only while the clock does not go back; `ZeroFrequencyWaitsAfterClockSetBack` shows the wait that a clock set back causes.
- Scheduler.ForwardClockBoundsWaits: the bound on wait timeouts holds only while no elapsed time is negative; after a clock set back, a wait can exceed every frequency the setting allows.
- Scheduler.TimeToWait: double-precision rounding of the elapsed milliseconds is not modelled. Elapsed time is a whole, possibly negative, number of microseconds.
- StatExtract.FunctionRow: the times are exact rationals, not doubles.
- 64-bit counter ranges: counters are unbounded integers. `blocks_fetched - blocks_hit` of two non-negative 64-bit counters cannot overflow.
- Memory contexts, tuple descriptors, the tuplestore and the `rsinfo` fields it sets: the result is a sequence of rows. Hash iteration order is some fixed order of the entries.
- The statistics collector's own file reading: `LoadView` only describes which databases get their hashes. Shared-catalog entries (database id 0) are not singled out.
- StatExtract.HomeViewHidesOtherDatabases: for the shared-catalog id 0 it states what `LoadView` gives, not what the collector does, since the model does not single that id out.
- An error raised inside `pgstat_fetch_stat_dbentry`: the fetch always returns. In the source such an error would leave `MyDatabaseId` overridden.
- Concurrency: one backend per process, so nothing can observe the override window.
