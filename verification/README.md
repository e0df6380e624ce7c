# pirytLogger data saver, modelled in Dafny

pirytLogger reads NMEA 0183 sentences from a boat's instrument multiplexer over TCP and stores them in PostgreSQL.
Its data saver has five parts:

- It receives chunks of text and drops each chunk's first and last line, which may be partial.
- It keeps the sentences whose six-character code (such as `$GPMWV` or `$GPRMC`) is on a whitelist.
- It folds each kept sentence into one snapshot dictionary (`handle_data`). A field is copied only when it is truthy, and the last write wins.
- Every `save_interval` seconds it flushes the snapshot: it computes the true wind (TWS, TWA) from the apparent wind and the boat speed, and inserts the snapshot as one row of `navigation_data` (`send_data`).
- When a flush falls within the first `save_interval` seconds of a UTC hour, it also writes a summary of the previous hour to `hourly_navigation_summary` (`send_hourly_summary`).

The modules follow that structure:

| file | module | what it holds |
|---|---|---|
| `wrappers.dfy` | `Wrappers` | `Option` and `Result` |
| `values.dfy` | `Values` | field values, parsed sentences, the insertion-ordered dictionary `Dict` and `d[k] = v` |
| `nmea.dfy` | `Nmea` | the whitelist, `sentence[:6]`, and the per-sentence copy table of `handle_data` |
| `snapshot.dfy` | `Snapshot` | `handle_data`, both as a fold over the copy table (`Dispatch`) and as the class `SortedData`, whose method `HandleData` updates the dictionary in place |
| `framing.dfy` | `Framing` | `str.splitlines`, the `[1:-1]` slice, and the per-chunk ingest loop |
| `schedule.dfy` | `Schedule` | the flush test, the summary test, `int`, `math.floor`, and the start of the hour |
| `records.dfy` | `Records` | `send_data` with its failure modes, the INSERT it builds, and the summary row and its time window |
| `saver.dfy` | `Saver` | the `data_saver` loop: one iteration (`Step`) and a run (`Run`) as functions, and the imperative loop `DataSaver` proved equal to `Run` |

The outside world enters the loop as one `Tick` per loop iteration. A tick holds:

- the received chunk;
- the three clock readings of the iteration: after ingesting, inside the summary, and for the new `start`;
- the two summary query results.

The sentence parser, `float` on text and `calculate_true_wind` are parameters of the model (`Config`).

The model follows the code in `save_data.py` in three places where a prose description of the program might differ:

- The snapshot is never cleared after a flush. Every field stored once stays in the snapshot, so the columns of every row extend those of the rows before it (`Saver.InsertColumnsGrow`, `Saver.SnapshotNeverCleared`).
- `$GPZDA` stores `local_zone`, which is not a column of `navigation_data`. Once a nonzero zone arrives, every later flush raises and ends the loop (`Records.ZoneKeyRejected`).
- `$GPGSV` has a `case` in `handle_data` but is not on the whitelist, so it never runs (`Nmea.GsvUnreachable`). `$GPHDT` is on the whitelist but has no `case`, so it changes nothing (`Nmea.OnlyHdtUnhandled`).

## Model

| member | source | states |
|---|---|---|
| Nmea.IsKnown | save_data.py:320-321 | definition without a contract: the whitelist test; characterised by `Nmea.KnownIff` |
| Nmea.DevicePrefix | save_data.py:318 | the device code is a prefix of the line, six characters long or the whole line when it is shorter |
| Nmea.KnownIff | save_data.py:14-27 | a line passes the whitelist exactly when it has at least six characters and its first six are one of the twelve codes |
| Nmea.Rule | save_data.py:40-130 | definition without a contract: the copy table, one `Field(attribute, key)` per guarded assignment, in source order; stated over by `Nmea.RuleKeysDistinct`, `Nmea.OnlyHdtUnhandled`, `Nmea.NoDeviceWritesTrueWind` and `Records.RuleKeysAreColumns` |
| Nmea.GsvUnreachable | save_data.py:71-73 | no line that passes the whitelist has the code `$GPGSV`, so that `case` is dead |
| Nmea.OnlyHdtUnhandled | save_data.py:40-130 | of the twelve whitelisted codes, exactly `$GPHDT` has no copies |
| Nmea.RuleKeysDistinct | save_data.py:40-130 | no sentence kind writes the same snapshot key twice |
| Nmea.NoDeviceWritesTrueWind | save_data.py:40-130 | no sentence kind writes TWS or TWA |
| Values.Truthy | save_data.py:43-44 | definition without a contract: Python truthiness of an attribute (None, 0 and "" are falsy); its effect is stated by `Snapshot.DispatchField` and `Snapshot.OverwriteLaw` |
| Values.Put | save_data.py:198-204 | dict assignment: a new key goes to the end of the key order, an existing key keeps its place; the lookup changes at that key only; well-formedness is preserved |
| Snapshot.Copy | save_data.py:43-44 | definition without a contract: one guarded assignment `if device_data.x: sorted_data[k] = device_data.x`; stated over by `Snapshot.ApplyRuleAt` and `Snapshot.DispatchField`, and implemented by `Snapshot.SortedData.CopyIfTruthy` |
| Snapshot.Dispatch | save_data.py:40-130 | definition without a contract: `handle_data` as the fold of the copy table; stated over by `Snapshot.ApplyRuleAt`, `Snapshot.DispatchField`, `Snapshot.DispatchFrame`, `Snapshot.DispatchGrows`, `Snapshot.DispatchIdempotent`, and implemented by `Snapshot.SortedData.HandleData` |
| Snapshot.ApplyRuleAt | save_data.py:40-130 | after the guarded copies, each key holds the value of the last copy with a truthy attribute that targets it, or else its old value (reference definition `Written`) |
| Snapshot.ApplyRuleOrder | save_data.py:40-130 | the copies keep the dict well formed, only append to the key order, and append nothing when every truthy copy targets a key already present |
| Snapshot.DispatchField | save_data.py:40-130 | at each key a sentence kind targets, a truthy attribute overwrites the value and a falsy one (0, "", None) leaves the key as it was |
| Snapshot.DispatchFrame | save_data.py:40-130 | keys that the sentence kind does not target keep their values |
| Snapshot.OverwriteLaw | save_data.py:40-130 | for two sentences of the same kind, at each target key: the second's truthy value, else the first's, else the old value |
| Snapshot.DispatchGrows | save_data.py:40-130 | `handle_data` keeps the dict well formed and never removes a key or reorders the keys |
| Snapshot.DispatchIdempotent | save_data.py:40-130 | handling the same parsed sentence twice equals handling it once |
| Snapshot.UnhandledUnchanged | save_data.py:40-130 | a code with no `case` leaves the snapshot unchanged |
| Snapshot.SortedData.constructor | save_data.py:300 | the snapshot starts empty and well formed |
| Snapshot.SortedData.Store | save_data.py:198-204 | in-place `sorted_data[k] = v` equals `Put` on the old dict |
| Snapshot.SortedData.CopyIfTruthy | save_data.py:43-44 | one `if device_data.x: sorted_data[k] = device_data.x`, the guarded copy |
| Snapshot.SortedData.HandleData | save_data.py:40-130 | the in-place `match` leaves the dict equal to the copy-table fold `Dispatch` of the old dict, and keeps it well formed |
| Framing.FirstBreak | save_data.py:315 | the first line boundary: every character before it is not a boundary |
| Framing.SplitLines | save_data.py:315 | `splitlines` yields lines without boundaries, and no lines exactly for the empty text |
| Framing.Interior | save_data.py:315 | `[1:-1]` has two fewer elements (none for at most two) and is the list shifted by one |
| Framing.Framed | save_data.py:315 | definition without a contract: `splitlines()[1:-1]`; stated over by `Framing.FramedTerminated`, `Framing.FramedChunk` and `Framing.ShortChunkUnchanged` |
| Framing.SplitTerminated | save_data.py:315 | round trip: splitting lines each ended by "\n" or by the NMEA "\r\n", followed by any text, gives those lines back, then the text's lines |
| Framing.FramedTerminated | save_data.py:315 | of a chunk of complete lines ("\n" or "\r\n" ended), exactly the lines between the first and the last are looked at |
| Framing.FramedChunk | save_data.py:315 | of a chunk cut from the stream in mid-line (a partial line, complete lines, a partial line), exactly the complete lines are looked at |
| Framing.IngestLine | save_data.py:318-324 | definition without a contract: one pass of the sentence loop, a whitelisted line dispatched to `handle_data` and any other line skipped; stated over by `Framing.IngestKnownOnly`, `Framing.IngestFrame` and `Framing.IngestGrows` |
| Framing.Ingest | save_data.py:317-324 | definition without a contract: the sentence loop over a chunk's lines; stated over by `Framing.IngestKnownOnly`, `Framing.IngestFrame`, `Framing.IngestGrows`, `Framing.IngestKeepsTrueWind`, and implemented by `Saver.IngestChunk` |
| Framing.ShortChunkUnchanged | save_data.py:315-324 | a chunk of at most two lines changes nothing |
| Framing.IngestKnownOnly | save_data.py:317-324 | dropping the lines that are not whitelisted before the loop changes nothing |
| Framing.IngestFrame | save_data.py:317-324 | a key that no sentence kind writes keeps its value through the loop |
| Framing.IngestGrows | save_data.py:317-324 | the loop keeps the snapshot well formed and never removes or reorders keys |
| Framing.IngestKeepsTrueWind | save_data.py:317-324 | ingesting sentences never changes TWS or TWA |
| Schedule.FlushDue | save_data.py:328 | definition without a contract: `now - start > save_interval`; used by `Saver.Step` and `Schedule.FlushedSummaryIsNewHour` |
| Schedule.SummaryDue | save_data.py:331 | definition without a contract: `int(now) % 3600 < save_interval`; characterised by `Schedule.SummaryDueIff` |
| Schedule.Trunc | save_data.py:331 | `int()` truncates toward zero: within one of the argument, on its side of zero |
| Schedule.Restart | save_data.py:334 | `math.floor` gives a whole second at most one second below the clock, and not negative for a non-negative clock |
| Schedule.HourStart | save_data.py:230-232 | the start of the UTC hour is a multiple of 3600 at or below the clock and less than an hour away |
| Schedule.HourStartUnique | save_data.py:230-232 | exactly one hour boundary lies within the hour at or below a clock reading |
| Schedule.HourStartMonotone | save_data.py:230-232 | a later clock reading never falls in an earlier hour |
| Schedule.RestartSameHour | save_data.py:334 | the floored start lies in the same hour as the clock reading |
| Schedule.SummaryDueIff | save_data.py:331 | for a clock past the epoch, the summary test holds exactly when fewer than `save_interval` whole seconds have passed since the hour began |
| Schedule.FlushedSummaryIsNewHour | save_data.py:328-331 | for a start at or after the epoch, a flush that writes a summary closes an interval that started in an earlier hour |
| Records.FloatOf | save_data.py:200-202 | `float(sorted_data[key])`: KeyError exactly for a missing key; a number converts to itself; a text converts exactly when `float` accepts it, to `float`'s value, and raises ValueError otherwise |
| Records.WindInputs | save_data.py:199-203 | the three arguments convert in order AWS, AWA, speed; success exactly when all three convert; otherwise the error is that of the first of the three that fails |
| Records.WithTrueWind | save_data.py:198-204 | fails exactly when the arguments fail, with the same error; otherwise the snapshot gains TWS and TWA from `calculate_true_wind` and nothing else changes |
| Records.TrueWindOrder | save_data.py:198-204 | the first flush appends TWS then TWA to the key order; later flushes keep the order; earlier keys keep their places |
| Records.TrueWindKeys | save_data.py:198-204 | after the true wind is added the keys are the old keys plus TWS and TWA |
| Records.BuildInsert | save_data.py:212-214 | one column per snapshot key, each with its own value and one `%s` placeholder; the columns are exactly the keys |
| Records.InsertRoundTrip | save_data.py:212-220 | round trip: the INSERT's columns paired with its parameters read back as the snapshot |
| Records.InsertedRow | save_data.py:197-221 | the stored row is the snapshot with TWS and TWA computed from its own AWS, AWA and speed |
| Records.FlushedSnapshot | save_data.py:197-221 | after a flush the snapshot is well formed, keeps its earlier columns in place, holds TWS and TWA, and the row's columns are its keys in order |
| Records.FirstUnknown | save_data.py:215-221 | finds a column the table lacks exactly when there is one |
| Records.SendData | save_data.py:197-221 | a wind-input failure is passed through; on success the snapshot is the one with the true wind and the row is built from it |
| Records.InsertAccepted | save_data.py:140-169 | the INSERT is accepted exactly when every snapshot key is a column of the table |
| Records.SendDataSucceedsIff | save_data.py:197-221 | a flush succeeds exactly when the wind inputs convert and every snapshot key is a column of `navigation_data` |
| Records.ColumnsDecide | save_data.py:208-221 | once the true wind is computed, the column check alone decides the flush |
| Records.SendDataRejects | save_data.py:208-221 | past the wind inputs, a flush fails only by naming a missing column, which is a snapshot key, TWS or TWA |
| Records.RuleKeysAreColumns | save_data.py:140-169 | every key `handle_data` writes is a `navigation_data` column, except `local_zone` |
| Records.KeyRejected | save_data.py:215-221 | a snapshot key the table lacks makes every flush fail |
| Records.ZoneKeyRejected | save_data.py:128-130 | once a zone is stored, no flush into `navigation_data` can succeed |
| Records.SummaryValues | save_data.py:288-292 | the summary row has 14 cells: the hour first, then six NULLs without an averages result and seven NULLs without a last row |
| Records.SummaryAligned | save_data.py:237-292 | every averaged or last-row cell lands in the summary column that names the quantity it was computed from |
| Records.Window | save_data.py:230-233 | the window is one hour long and ends at the hour boundary at or below the clock |
| Records.InWindow | save_data.py:246 | definition without a contract: `timestamp >= time_from AND timestamp < time_to`; characterised by `Records.InWindowIff` |
| Records.InWindowIff | save_data.py:246 | a row is summarised exactly when its timestamp lies in the hour before the clock's hour |
| Saver.Step | save_data.py:309-334 | an empty chunk changes nothing; otherwise the chunk is ingested, and without a flush the new snapshot is `Ingest` of the framed chunk; a flush happens exactly when the interval has passed; a flush crashes exactly when `SendData` fails, with its error, keeping the rows written before; a successful flush keeps `SendData`'s snapshot, appends its row, restarts the interval and adds the previous hour's summary exactly when the summary test holds |
| Saver.Initial | save_data.py:300-307 | definition without a contract: the empty snapshot, no rows, and `start` read from the clock; the start state of `Saver.SummaryHoursIncrease` and `Saver.InsertColumnsGrow`, and of `Saver.DataSaver` |
| Saver.Summarised | save_data.py:331-332 | definition without a contract: the summary rows after a flush; stated over by `Saver.Step` and `Saver.FlushSummaries` |
| Saver.Run | save_data.py:309-336 | the loop over a sequence of iterations up to the first exception; rows once written stay written, crash or not |
| Saver.IngestChunk | save_data.py:315-324 | the in-place sentence loop leaves the snapshot equal to `Ingest` of the framed chunk |
| Saver.SendDataTo | save_data.py:197-221 | the in-place `send_data` succeeds exactly when `SendData` does, with the same snapshot, row and error; after a failed conversion the dict is unchanged, and after a refused INSERT it already holds TWS and TWA |
| Saver.DataSaver | save_data.py:299-336 | the imperative loop ends with the snapshot, rows and error that `Run` describes |
| Saver.NoFlushInv | save_data.py:317-328 | an iteration without a flush keeps the invariant |
| Saver.FlushSummaries | save_data.py:326-334 | with the iteration's three clock readings in order (start, then `now`, then the summary clock, then the restart clock), a flush keeps summary hours increasing, each at least an hour before the new start's hour |
| Saver.FlushInv | save_data.py:326-334 | with the iteration's three clock readings in order, a successful flush keeps the invariant |
| Saver.StepInv | save_data.py:309-334 | with the iteration's three clock readings in order, each iteration keeps the invariant, and a crash leaves consistent tables |
| Saver.RunInv | save_data.py:309-336 | with a clock that never goes back, the invariant holds through a whole run |
| Saver.SummaryHoursIncrease | save_data.py:326-334 | the summary hours a run writes strictly increase: no hour is summarised twice |
| Saver.InsertColumnsGrow | save_data.py:326-334 | every navigation row holds TWS and TWA, and names every column of the rows before it, in the same order |
| Saver.SnapshotNeverCleared | save_data.py:326-334 | a run only adds snapshot keys and keeps their order |

## Left out

- The TCP socket, `recv`, the host and port, and the 4096-byte limit: the received text is the `chunk` of a `Tick`.
- ASCII decoding: chunks are already text, so a `UnicodeDecodeError` on a non-ASCII byte is not modelled.
- `pynmea2.parse` is the parameter `parse`, a total function. Its `ParseError` and checksum errors, and the exception that would end the loop, are not modelled.
- `calculate_true_wind` is the parameter `trueWind`. Its trigonometry and `round(_, 2)` use floating point and are not modelled.
- `float` on a text is the parameter `toFloat`. Parsed numbers are exact reals, not IEEE doubles.
- The SQL text, its whitespace, `print`, `commit` and connection errors are left out. The database is modelled only as the rows written to it, and the `navigation_data` column set from `create_tables`.
- The `AVG` and `ROUND` summary queries are not evaluated: their results come in as the `avg` and `last` of a `Tick`. `Records.InWindowIff` states which rows they range over.
- Records.SummaryValues: the `Hour` cell is the whole-second start of the window, not a timezone-aware `datetime`.
- `sleep(0.1)`, the `main.py` thread start and the DDL of `create_tables` (apart from the column set) are left out.
- The endless `while True` is modelled over a finite sequence of iterations (`Run`, `DataSaver`). The wall clock is three readings per iteration, given as inputs.
- Saver.RunInv: assumes a clock that never goes back (`Monotone`) and a start at or after the epoch. Adjusting the system clock backwards could repeat a summary hour.
- Schedule.FlushedSummaryIsNewHour: assumes a start at or after the epoch; for a negative clock `int` truncates toward zero and the summary test no longer means "early in the hour".
- Saver.FlushSummaries: assumes the iteration reads its clocks in order; a clock set back between the test at save_data.py:326 and the read at save_data.py:230 could summarise an hour twice.
- Saver.FlushInv: assumes the iteration reads its clocks in order, as `Saver.FlushSummaries` does.
- Saver.StepInv: assumes the iteration reads its clocks in order, as `Saver.FlushSummaries` does.
- Saver.SummaryHoursIncrease: assumes the same monotone clock as `Saver.RunInv`.
- Saver.InsertColumnsGrow: assumes the same monotone clock as `Saver.RunInv`.
- Saver.DataSaver: after a crash it reports the error and the rows written so far. It says nothing about the snapshot left behind, which the source abandons with the exception.
- The `$GPGSV` copy is kept in the table, but no whitelisted line reaches it.
