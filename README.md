# PLC poller acquisition core, in Dafny

This project models the acquisition core of a small PLC polling service. Two
pollers read industrial controllers and write each reading to an InfluxDB
sink:

- **`ModbusPoller`** reads one holding register per tag with Modbus function
  code 0x03 (Read Holding Registers, section 6.3 of the Modbus Application
  Protocol Specification V1.1b3). It decodes the raw word as
  `raw * mult / 10**dec` and writes one point per successful read. Each tag
  runs inside its own `try`, so a failure on one tag never reaches the next.
  `run` connects, polls forever, and closes in a `finally`.
- **`CipPoller`** issues one batch read of all tags over EtherNet/IP. It skips
  results whose value is `None` and writes the rest under the tag's own name.
  It catches nothing: the first exception ends the batch, `poll_once` and
  `run`. There is no `close`.
- **`InfluxClient`** is a process-wide singleton. Its class attribute
  `_client` is `None` until `init`. `write_point` builds a one-field point
  record and hands it to the client library.

Modules and files:

- `common.dfy` (`Common`): `Option`, `Result` and a `Repeat` helper for
  sequences.
- `influx.dfy` (`Influx`): the singleton, the point record and the outcome of
  a `write_point` call.
- `modbus.dfy` (`Modbus`): decoding, the per-tag step, one poll cycle as a
  pure function, and the imperative `ModbusPoller` class proved against it.
- `cip.dfy` (`Cip`): the same for the EtherNet/IP poller.

The protocol libraries (pymodbus `ModbusTcpClient`, pycomm3 `LogixDriver`,
influxdb_client `InfluxDBClient`) are small classes. Each one records what the
poller asked of it: read requests, batch reads, connect and close calls, and
records delivered to the store. Whatever the outside world answers is a
parameter. A Modbus `Probe` carries, for one tag, the read reply, the
timestamp and whether the store accepts the record. A CIP `WriteProbe` does
the same for one result. The unbounded `while True` loops are modelled over a
finite sequence of cycle inputs.

The Modbus write call site carries a flag, `passTags`. When it is true, the
call is as written, with the `tags=` keyword. When it is false, the call is
the corrected one, without that keyword. The pure cycle functions, `PollOnce`
and `Run` take the flag, so both behaviours are proved. The Findings section
explains why the difference matters.

Some of what the code does is worth stating plainly, because a reader would
expect otherwise. The model follows the code in each case:

- The tag configuration stores a unit id per tag, presumably so that one poller
  can reach several Modbus units. The code always reads with the poller's own
  `unit` (`backend/app/pollers/modbus_poller.py:29`).
  `Modbus.ReadsIgnoreTagUnit` states this.
- The Modbus poller isolates each tag, but the CIP poller does not. A failed
  batch read, a value `float()` rejects, or a failed write aborts the rest of
  the batch and ends `run` (`backend/app/pollers/cip_poller.py:22-36`).
  `Cip.ErrorEndsBatch` and `Cip.FailureAfterCleanPrefix` state this.
- The Modbus poller writes every reading under the measurement
  `"modbus_data"`. The CIP poller uses the tag name as both measurement and
  field (`backend/app/pollers/cip_poller.py:28`).
- Neither poller reconnects, backs off or restarts after an error. The Modbus
  poller tries to attach `plc` and `protocol` tags to its samples, and that
  attempt fails; see Findings.
- A missing sink (`_client` still None) is caught per tag by the Modbus
  poller. The CIP poller lets the `AttributeError` escape.

## Model

| member | source | states |
|---|---|---|
| `Influx.InfluxClient.constructor` | backend/app/influx.py:5-6 | Before any `init`, `_client` is None. |
| `Influx.InfluxClient.Init` | backend/app/influx.py:8-10 | `_client` becomes a freshly allocated client carrying the given url, token and org, with nothing delivered yet. A second call replaces the first client. |
| `Influx.MakePoint` | backend/app/influx.py:15-19 | The point's measurement and time are the `measurement` and `timestamp_ns` arguments. Its field map has exactly one key, `field`, which holds the value. |
| `Influx.MakePointInjective` | backend/app/influx.py:15-19 | Two points are equal exactly when they were built from the same measurement, field, value and timestamp: the record loses none of them. |
| `Influx.WriteResult` | backend/app/influx.py:12-20 | A call succeeds iff it passes no undeclared `tags` keyword, `_client` is set and the store accepts. On success the delivered record is `MakePoint` of the call's arguments in the call's bucket. Otherwise the error says which of the three failed: TypeError before the body, AttributeError on None, or the store. |
| `Influx.InfluxClient.WritePoint` | backend/app/influx.py:12-20 | Returns the outcome given by `WriteResult`. The client's delivered records grow by exactly the record written on success and are unchanged on failure. |
| `Influx.DbClient.constructor` | backend/app/influx.py:10 | A new influxdb_client client carrying the given url, token and org, with nothing delivered. |
| `Influx.DbClient.Write` | backend/app/influx.py:20 | The library's `write_api().write(...)`: it succeeds exactly when the store accepts, and only then adds the record, with its bucket, to what was delivered. |
| `Modbus.ModbusPoller.constructor` | backend/app/pollers/modbus_poller.py:13-18 | Stores host, protocol, unit (default 1) and poll interval (default 5.0) unchanged. Creates a fresh, unconnected client for the host. |
| `Modbus.ModbusPoller.Connect` | backend/app/pollers/modbus_poller.py:20-24 | Raises `ConnectionError` for the host exactly when the client's `connect()` returns false, and returns normally otherwise. Issues no reads. |
| `Modbus.ModbusTcpClient.constructor` | backend/app/pollers/modbus_poller.py:18 | A new pymodbus client for the host: unconnected, no request issued, never closed. |
| `Modbus.ModbusTcpClient.Connect` | backend/app/pollers/modbus_poller.py:21 | `connect()` returns whether the transport came up, and the client is connected exactly then. No request or close is recorded. |
| `Modbus.ModbusTcpClient.ReadHoldingRegisters` | backend/app/pollers/modbus_poller.py:29 | Records exactly one read request with the given address, count and unit, and returns the reply the device gave. |
| `Modbus.ModbusTcpClient.Close` | backend/app/pollers/modbus_poller.py:49 | Records one `close()` call. It reports whether it raised, and disconnects only when it did not. |
| `Modbus.Pow10` | backend/app/pollers/modbus_poller.py:34 | In real arithmetic, `10 ** dec` is positive for every integer `dec`, negative ones included, so the division is always defined. Python's float underflow and overflow for extreme `dec` are not covered; see Left out. |
| `Modbus.Pow10Reciprocal` | backend/app/pollers/modbus_poller.py:34 | `10 ** -k` is the reciprocal of `10 ** k`. |
| `Modbus.Decode` | backend/app/pollers/modbus_poller.py:33-34 | The decoded value times `10 ** dec` equals the raw word times `mult`, with `mult` defaulting to 1 and `dec` to 0. |
| `Modbus.DecodeDefaultIsIdentity` | backend/app/pollers/modbus_poller.py:34 | A tag with neither `mult` nor `dec` decodes to the raw word itself. |
| `Modbus.DecodeNegativeShift` | backend/app/pollers/modbus_poller.py:34 | A negative `dec` of -k multiplies the scaled raw value by `10 ** k`. |
| `Modbus.DecodeOneDecimal` | backend/app/pollers/modbus_poller.py:34 | Raw 235 with multiplier 1 and one decimal decodes to 23.5. |
| `Modbus.RequestsFor` | backend/app/pollers/modbus_poller.py:27-29 | One read request per tag, in tag-list order. Each request is for the tag's address, with count 1 and the poller's own unit. |
| `Modbus.ReadsIgnoreTagUnit` | backend/app/pollers/modbus_poller.py:29 | A tag's own unit id never reaches the read. The request for that tag carries the poller's unit. |
| `Modbus.WriteCallFor` | backend/app/pollers/modbus_poller.py:35-42 | The `write_point` call for a tag: the bucket, measurement `"modbus_data"`, the tag name as field, the decoded value and the timestamp. It carries the `tags=` keyword exactly when the call site is the one as written. |
| `Modbus.TagStep` | backend/app/pollers/modbus_poller.py:28-45 | One tag's `try` body: a raised read and an error response attempt no write, and a write is attempted exactly on a good read. The attempt is the call `WriteCallFor` builds from the decoded first register, and its result is what `write_point` gives for that call. |
| `Modbus.CycleOutcomes` | backend/app/pollers/modbus_poller.py:27-45 | One outcome per tag. |
| `Modbus.OutcomeIsolated` | backend/app/pollers/modbus_poller.py:27-45 | The outcome of tag i depends only on tag i and what the world answered for it. An exception on an earlier tag is caught and does not affect it. |
| `Modbus.AttemptExactlyOnGoodRead` | backend/app/pollers/modbus_poller.py:30-42 | Whether a write is attempted for a tag: yes when the read returned a register, no when it was an error response, raised, or returned no register. An error response is a skip. An attempt writes measurement `"modbus_data"`, field equal to the tag name, the decoded first register and the tag's timestamp. |
| `Modbus.Delivered` | backend/app/pollers/modbus_poller.py:35-42 | At most one stored record per tag outcome. |
| `Modbus.ExpectedDeliveries` | backend/app/pollers/modbus_poller.py:27-45 | Reference definition of the intended cycle: one record per good read the store accepts, in tag order. It holds at most one record per tag, each in the requested bucket under `"modbus_data"`. |
| `Modbus.AsWrittenDeliversNothing` | backend/app/pollers/modbus_poller.py:35-45 | As written, every attempted write fails with the unexpected-keyword error and the cycle stores nothing. |
| `Modbus.CorrectedDeliversGoodReads` | backend/app/pollers/modbus_poller.py:27-45 | Without the `tags=` keyword, a cycle stores exactly the reference sequence: one record per good read the store accepts, in tag order. Nothing is stored while `_client` is None. |
| `Modbus.StoreFailureSparesNextTag` | backend/app/pollers/modbus_poller.py:35-45 | With the corrected call, without `tags=`: if the store rejects tag A's record, tag B's record is still written in the same cycle. |
| `Modbus.OneFailedReadSparesTheRest` | backend/app/pollers/modbus_poller.py:30-32 | With N tags, one failed read and a store that accepts everything, the reference sequence holds N-1 records. |
| `Modbus.AllGoodAllStored` | backend/app/pollers/modbus_poller.py:27-42 | When every read is good and the store accepts everything, the reference sequence holds one record per tag. |
| `Modbus.AsWrittenRunDeliversNothing` | backend/app/pollers/modbus_poller.py:53-62 | As written, a run of any number of cycles stores nothing. |
| `Modbus.RunDelivered` | backend/app/pollers/modbus_poller.py:56-58 | The records stored by the first n cycles of `run`, cycle after cycle. |
| `Modbus.RunDeliveredBound` | backend/app/pollers/modbus_poller.py:56-58 | Over n cycles, `run` stores at most one record per tag per cycle. |
| `Modbus.CyclesRun` | backend/app/pollers/modbus_poller.py:54-58 | How many cycles `run` polls: none when the connect fails, at most one with a negative interval because `time.sleep` then raises, and otherwise every cycle available. |
| `Modbus.ModbusPoller.PollTag` | backend/app/pollers/modbus_poller.py:28-45 | One tag's `try` block issues exactly one read (count 1, poller's unit). The sink gains at most the single record of that tag's outcome. It never raises. |
| `Modbus.ModbusPoller.PollOnce` | backend/app/pollers/modbus_poller.py:26-45 | Issues exactly the requests `RequestsFor(tags, unit)`. Stores exactly the records of `CycleOutcomes`, in order. Leaves the connection and close count alone. Never raises. |
| `Modbus.ModbusPoller.Close` | backend/app/pollers/modbus_poller.py:47-51 | Calls the client's `close` exactly once and never raises, whether or not the library does. The client ends up disconnected unless the library's `close()` raised. |
| `Modbus.ModbusPoller.Run` | backend/app/pollers/modbus_poller.py:53-62 | `close` runs exactly once on every way out, a failed connect included, and leaves the client disconnected unless the library's `close()` raised. The exit is ConnectFailed, SleepFailed (negative interval) or Interrupted. The requests and stored records are those of the cycles actually polled. |
| `Modbus.ModbusPoller.PollForever` | backend/app/pollers/modbus_poller.py:56-58 | Polls every cycle in order. With a negative interval it stops after the first, when `time.sleep` raises. |
| `Cip.CipPoller.constructor` | backend/app/pollers/cip_poller.py:13-16 | Stores host and poll interval (default 5.0) unchanged. Creates a fresh, unopened driver for the host. |
| `Cip.CipPoller.Connect` | backend/app/pollers/cip_poller.py:18-20 | Calls `open()` exactly once. The driver is open exactly when `open()` succeeds, and a failure propagates as `OpenFailed`. |
| `Cip.LogixDriver.constructor` | backend/app/pollers/cip_poller.py:16 | A new pycomm3 driver for the host: not open, never opened, with no batch read issued. |
| `Cip.LogixDriver.Open` | backend/app/pollers/cip_poller.py:19 | Counts one `open()` call. It succeeds exactly when the transport comes up, and the driver is open exactly then. |
| `Cip.LogixDriver.Read` | backend/app/pollers/cip_poller.py:23 | Records one batch read of the whole tag list. It either raises or returns the results the controller gave. |
| `Cip.ResultStep` | backend/app/pollers/cip_poller.py:25-30 | One result of the loop. A None value is skipped. A value `float()` rejects raises `ConversionFailed` for that tag, before the sink is touched. Otherwise an unset `_client` raises, then a rejecting store raises. A success writes one record to the bucket with measurement and field equal to the tag, value `float(r.value)` and the result's timestamp. |
| `Cip.CipCycle` | backend/app/pollers/cip_poller.py:22-30 | A batch writes at most one record per result. |
| `Cip.ErrorEndsBatch` | backend/app/pollers/cip_poller.py:24-30 | Once one result has raised, no later result is converted or written: the batch's outcome is fixed at that point. |
| `Cip.FailureAfterCleanPrefix` | backend/app/pollers/cip_poller.py:24-30 | If result k is the first to fail (a value `float()` rejects, or a store rejection), the batch has already written exactly the reference records of the results before k, and raises k's error. |
| `Cip.UnsetSinkWritesNothing` | backend/app/pollers/cip_poller.py:24-29 | With `_client` unset, a batch writes nothing. It completes exactly when every value is None; otherwise an exception escapes. |
| `Cip.WrittenUnderTagName` | backend/app/pollers/cip_poller.py:24-29 | Every written record goes to the requested bucket, and its measurement equals the name of its only field. Each is the point built from some result whose value converts: measurement and field are that result's tag, the value is `float(r.value)`, and the time is that result's timestamp. |
| `Cip.ExpectedWrites` | backend/app/pollers/cip_poller.py:24-30 | Reference definition: one record per non-None result, in result order. It holds at most one record per result, each in the requested bucket with its measurement equal to its only field's name. |
| `Cip.CleanBatchWritesEveryValue` | backend/app/pollers/cip_poller.py:24-30 | Assume the sink is set, no value is one `float()` rejects, and the store accepts every record it is given (None results are never sent). Then the batch completes and writes exactly the reference sequence `ExpectedWrites`: one record per non-None result, in result order. |
| `Cip.RunProgress` | backend/app/pollers/cip_poller.py:32-36 | After n cycles' worth of inputs, `run` has polled at most n cycles, and exactly n when no exception has escaped. |
| `Cip.CycleOf` | backend/app/pollers/cip_poller.py:22-30 | One `poll_once`. A batch read that raises writes nothing and raises `ReadFailed`. In every case there is at most one record per result. |
| `Cip.ReadFailureEndsRun` | backend/app/pollers/cip_poller.py:23-35 | A batch read that raises in cycle k ends `run`: k+1 cycles were polled, and that cycle added no record. |
| `Cip.StopIsFinal` | backend/app/pollers/cip_poller.py:32-36 | Once an exception has escaped `run`, later cycles change nothing. |
| `Cip.NegativeIntervalPollsOnce` | backend/app/pollers/cip_poller.py:34-36 | With a negative poll interval, `run` polls exactly once and then stops with an exception. |
| `Cip.CipPoller.PollOnce` | backend/app/pollers/cip_poller.py:22-30 | Performs exactly one batch read, of the whole tag list. If that read raises, `ReadFailed` escapes before anything is written. Otherwise the exception it raises and the records it stores are those of `CipCycle`. |
| `Cip.CipPoller.Run` | backend/app/pollers/cip_poller.py:32-36 | Calls `open()` exactly once. A failed open escapes with no read and nothing stored. Otherwise it does one batch read per polled cycle and stores the records of `RunProgress`; the first exception, from a read, a result or `time.sleep`, escapes. `Interrupted` means every cycle was read. The driver is never closed. |
| `Cip.CipPoller.PollForever` | backend/app/pollers/cip_poller.py:34-36 | Poll, then sleep, until `poll_once` or `time.sleep` raises or the inputs run out. |

## Left out

- Logging: the `logger` calls have no effect on state, so they are not modelled.
- `time.time_ns()` is a timestamp parameter. `time.sleep` is a step that does nothing, except that a negative interval raises, as Python's does.
- The `while True` loops run over a finite sequence of cycle inputs. When the inputs run out, that stands for an interruption from outside the loop. The model places such an interruption only between cycles, never inside a read or a sleep.
- Floating point: decoding and `float(...)` are modelled in real arithmetic. Rounding, NaN and infinities are not modelled. In Python, `10 ** dec` underflows to `0.0` for `dec <= -324`, which makes the division at `modbus_poller.py:34` raise ZeroDivisionError. With a float `mult` and `dec >= 309`, the division raises OverflowError, because `10 ** dec` is an int too large to convert to float. Both are caught at line 44 and the tag is skipped. The model decodes such tags instead.
- Tag `mult` and `dec`, when present, are numbers, and `dec` is an integer. A key that is present but not a number (`'mult': None`, say) makes line 34 raise TypeError, so the tag is skipped. The model treats it like an absent key and applies the default. A float `dec` is not representable.
- Tag entries are records that always have `name` and `address`. A Modbus tag without a `name` key would make the handler at `modbus_poller.py:45` raise out of `poll_once`; that case is not modelled.
- Register words are the unsigned 16-bit values the Modbus client returns. Only `registers[0]` is used, because each read asks for one register.
- A CIP result value is either None, a value `float()` converts, or one it rejects. The parsing of numeric strings and the library's exact result types are abstracted away.
- The shape of `driver.read(*tags)`'s return value comes from pycomm3, which is not part of this model. The model takes it as a list of results, or an exception that escapes `poll_once` and `run`.
- Wire protocols (Modbus/TCP framing, CIP, InfluxDB line protocol) and the libraries' own behaviour are out: their answers are parameters.
- `InfluxDBClient.write_api()` is assumed to return a writer. Only the write itself can fail.
- The singleton is one `InfluxClient` object passed to the pollers explicitly, rather than a class attribute reached globally.
- Modbus.ModbusPoller.Close: whether the socket counts as closed after the library's `close()` raises is unknown. The model leaves the connection flag unchanged in that case. When `close()` does not raise, the client is disconnected.
- The configuration API, database layer and web front end supply the tag lists and sink settings. They are outside this model.

## Findings

| source | as written | input that shows it | evidently intended | confidence | as-written member | corrected member |
|---|---|---|---|---|---|---|
| backend/app/pollers/modbus_poller.py:35-42 | `write_point` is called with a `tags=` keyword that its signature (`backend/app/influx.py:13`) does not declare. Every call raises TypeError, which the handler at line 44 catches, so no Modbus reading is ever stored. | any tag whose read returns a register, e.g. raw 235 for tag `temp` | one record stored per good read the store accepts | high (not executed) | `Modbus.AsWrittenDeliversNothing` | `Modbus.CorrectedDeliversGoodReads` |
