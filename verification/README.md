# Gas-sensor telemetry: server tick and dashboard ingest, in Dafny

This project models the two pieces of sequential logic in a gas-sensor telemetry demo.

- **The server (`app/main.py`, module `GasServer`).** Each websocket loop pass generates one batch of CO2/SO2/HF readings. There is one reading per (checkpoint, gas) pair. Sensor ids count up from 1. All readings in a batch share one timestamp, and every value is clamped at 0. The pass then deletes every stored reading older than three hours, adds the batch to the `gas_data` table and sends one JSON message per reading. The two read endpoints return the stored readings of the last minute and of the last 30 minutes.
- **The dashboard (`monitor.py`, module `Monitor`).** `process_queue` drains the FIFO of `status`, `error` and `data` messages that the websocket callbacks fill. It updates the connection status and the banner that `update_status` draws for it. Data rows are appended to a rolling buffer of at most 100 rows. Both payload shapes are normalised. The latest-value view keeps one row per (gas, checkpoint) pair.
- **The link (module `Feed`).** `on_message` turns one server message into a queue message. A lemma shows that one tick's messages, once drained, end up at the end of the dashboard buffer in generation order.

Modelling choices:
- Instants are integers counting microseconds, the resolution of Python's `datetime`. An ISO-8601 timestamp text is modelled by the instant it denotes.
- Random draws are an input. `samples[k]` is the draw for sensor id `k + 1`. Only the clamp `max(sample, 0.0)` is modelled.
- Clock readings are parameters. The batch timestamp (`app/main.py:52`) and the prune clock (`app/main.py:77`) are two separate `utcnow()` calls, so `Tick` takes `generatedAt` and `now`.
- A failing websocket send is modelled by `accepted`, the number of messages the subscriber takes. When the batch is longer, the next send raises. The prune was already committed at line 79. The session then closes without the commit at line 100, so the batch's rows are rolled back. The messages sent before the failure have still gone out.
- A data payload is a JSON object, and which keys it has matters. Each key is an `Option`. A missing key raises `KeyError` inside the loop of `process_queue`. The outer handler at `monitor.py:185` catches it. That message is consumed, nothing changes, and the rest of the queue stays queued. `Drain` reports this as `failed`.
- Behaviour of the code worth knowing:
  - Generation runs inside each websocket connection's loop. With no subscriber nothing is generated. With two subscribers, two batches are generated and pruned per period.
  - Messages are sent before the batch is committed. A failed send therefore publishes readings that are never stored.
  - The dashboard sniffs the two payload shapes. In the stored-row shape, its `datetime` column is filled from the row's `id` (`monitor.py:157`). The model copies `id` as written.

## Model

| member | source | states |
|---|---|---|
| `GasServer.Clamp` | app/main.py:60 | the value is at least 0 and at least the sample, and it is either the sample or 0 |
| `GasServer.Batch` | app/main.py:51-69 | a batch has exactly 3 readings per configured checkpoint |
| `GasServer.BatchLayout` | app/main.py:54-68 | reading k of a batch has sensor id k+1, the location of checkpoint k/3, gas k%3 of co2, so2, hf, the shared timestamp and the clamped k-th sample |
| `GasServer.ZeroNoiseYieldsMeans` | app/main.py:58-60 | when every draw equals its configured mean and the means are non-negative, each reading's value is that mean |
| `GasServer.GenerateGasData` | app/main.py:51-69 | the nested loop returns the batch: 3 readings per checkpoint, ids 1..N in enumeration order, gases in order co2, so2, hf, one shared timestamp, values clamped to be non-negative |
| `GasServer.ToMessage` | app/main.py:91-97 | a message copies sensor id, value and instant, with checkpoint_name renamed to checkpoint and gas_type renamed to gas |
| `GasServer.ConfiguredTableBatch` | app/main.py:30-68 | the configured three-checkpoint table gives 9 readings with ids 1..9, three per location in table order |
| `GasServer.Messages` | app/main.py:81-98 | one message per reading, in batch order, each the renamed copy of its reading |
| `GasServer.Since` | app/main.py:78 | the result holds exactly the rows whose timestamp is at or after the cutoff, and it is no longer than the input |
| `GasServer.SinceAppend` | app/main.py:78 | filtering commutes with concatenation, so kept rows keep their relative order |
| `GasServer.SinceKeepsRecent` | app/main.py:78 | rows that are all at or after the cutoff are kept unchanged and in order |
| `GasServer.SinceNested` | app/main.py:107-115 | applying the narrower window to the wider window's result gives the narrower window's result |
| `GasServer.PruneIsStableAfterTick` | app/main.py:77-100 | when the batch is stamped no earlier than the cutoff, pruning again with that cutoff after a tick removes nothing |
| `GasServer.SendBatch` | app/main.py:81-98 | each reading is added to the session and then its message is sent, in batch order; the loop completes exactly when the subscriber takes the whole batch, and otherwise stops at the first refused send with that reading already added |
| `GasServer.GasStore.constructor` | app/main.py:13-27 | opening the database keeps the rows the file already holds (none for a fresh file); those rows are taken to have non-negative values |
| `GasServer.GasStore.Prune` | app/main.py:77-79 | the table becomes the old rows with timestamp at or after the cutoff, and values stay non-negative |
| `GasServer.GasStore.Tick` | app/main.py:75-100 | after pruning at now minus 3 hours, the table is the pruned old table followed by the batch when every send succeeds, and only the pruned old table when a send fails; the sent messages are those of the batch up to the failed send, in order |
| `GasServer.GasStore.LastMinute` | app/main.py:104-109 | the result holds exactly the stored readings with timestamp at or after now minus one minute |
| `GasServer.GasStore.LastThirtyMinutes` | app/main.py:111-116 | the result holds exactly the stored readings with timestamp at or after now minus 30 minutes |
| `GasServer.LastMinuteWithinLastThirtyMinutes` | app/main.py:104-116 | for the same instant, the last-minute result is the last-30-minutes result narrowed to the last minute, and so a subset of it |
| `Monitor.UpdateStatus` | monitor.py:36-44 | the banner is success exactly for "Connected", error exactly for other statuses starting with "Error", warning exactly for "Closed", and info otherwise, with the fixed texts for success and warning |
| `Monitor.Normalise` | monitor.py:148-170 | a payload without `gas` is read from checkpoint_name, gas_type and id; any other payload is read from checkpoint, gas and datetime; the row exists exactly when every key that shape reads is present |
| `Monitor.Tail` | monitor.py:175-176 | the trimmed buffer is the last min(n, 100) rows of a buffer of n rows, in order |
| `Monitor.Retain` | monitor.py:172-176 | after a row arrives, the buffer is the last min(100, n+1) rows of the old buffer plus the row, in arrival order, and it ends with the row |
| `Monitor.TailOfTail` | monitor.py:175-176 | trimming after every step gives the same buffer as trimming once at the end |
| `Monitor.Step` | monitor.py:139-176 | status sets the status verbatim and error sets it to "Error: " plus the payload, both redrawing the banner and leaving the buffer alone; data leaves status and banner alone and retains the row; a data message fails exactly when a key is missing; any other type changes nothing |
| `Monitor.Drain` | monitor.py:131-186 | a drain that did not fail empties the queue and met only well-formed messages; a failed drain stops right after the first malformed data message and leaves the rest of the queue in order |
| `Monitor.DrainConcat` | monitor.py:134-137 | draining q1 then q2 is draining q1 and, unless that failed, then draining q2 (FIFO) |
| `Monitor.DrainKeepsBound` | monitor.py:172-176 | a drain never leaves more than 100 rows in a buffer that started within the bound |
| `Monitor.DrainBuffer` | monitor.py:134-176 | after a drain that did not fail, the buffer is the last 100 rows of the old buffer and the new rows together, in arrival order |
| `Monitor.DrainWithoutDataKeepsBuffer` | monitor.py:139-145 | draining only status, error and other messages leaves the buffer unchanged and empties the queue |
| `Monitor.DrainWithoutStatusKeepsStatus` | monitor.py:147-176 | draining only data and other messages leaves the connection status and banner unchanged |
| `Monitor.DrainKeepsBannerInSync` | monitor.py:139-145 | when the banner shows the current status before a drain, it still does after the drain |
| `Monitor.ErrorMessageShowsFailure` | monitor.py:143-145 | an error message always produces the error banner with text "Error: " plus the payload |
| `Monitor.Latest` | monitor.py:383 | the view has exactly one entry per (gas, checkpoint) pair present; each entry is a row of that pair, and no row of that pair has a later datetime |
| `Monitor.Dashboard.constructor` | monitor.py:25-47 | the first run starts with an empty buffer, status "Initializing..." and its banner |
| `Monitor.Dashboard.StartFeed` | monitor.py:124-128 | starting the feed thread sets the status to "Connecting..." without redrawing the banner |
| `Monitor.Dashboard.Put` | monitor.py:85-108 | a callback's message joins the back of the queue |
| `Monitor.Dashboard.ProcessQueue` | monitor.py:131-186 | the new status, banner, buffer, remaining queue and failure flag are exactly those of the drain of the old queue, and the buffer stays within 100 rows |
| `Feed.OnMessage` | monitor.py:74-85 | a server message becomes a well-formed data message whose row carries the same id, checkpoint, gas, value and instant, with datetime parsed from the timestamp |
| `Feed.RowsOfBatch` | monitor.py:163-170 | the rows taken from a batch's messages are the batch's readings, renamed, in batch order |
| `Feed.BatchReachesBuffer` | monitor.py:134-176 | draining one tick's messages does not fail, leaves the status unchanged, and leaves the buffer as the last 100 rows of the old buffer and the batch together, the batch in generation order |

## Left out

- Web routing, the websocket accept/send calls and the 3-second sleep (`app/main.py:71-74`, `98`, `102`) are I/O and scheduling. One loop pass is modelled as `Tick`. A failed send is modelled only through `accepted`. Ending the connection's loop after a failure is not modelled.
- The SQL engine, sessions and commits are replaced by a sequence of committed rows. The autoincrement `id` primary key is not modelled.
- `np.random.normal` and `sigma = abs(mu) * std_frac` are not modelled. The draws are an input. Floating point is modelled by exact reals, so NaN and negative zero are out.
- ISO-8601 formatting and parsing (`isoformat`, `fromisoformat`) are not modelled. A timestamp is the instant it denotes. In `on_message`, the error path for an unparsable timestamp cannot arise for the typed messages of the model.
- Script reruns are not modelled: `Dashboard` covers one run of the script, with one queue shared by the callbacks and `ProcessQueue`. A rerun keeps `session_state` (status and data) but replaces `data_queue`, which is created at module level without a guard (`monitor.py:14`). The websocket thread is started only once (`monitor.py:124-126`), so its callbacks keep filling the first run's queue. After a rerun, `process_queue` drains a queue that nothing fills, and the live status and buffer stop changing.
- The websocket client thread, its other callbacks and the reconnect loop (`monitor.py:92-128`) are concurrency and network I/O. Only their effect is modelled: a message joins the queue (`Put`), and the status is set when the thread starts (`StartFeed`). `process_queue` drains a snapshot of the queue. Messages that arrive during its 0.1 s wait are not modelled.
- `fetch_historical_data`, the Streamlit UI, and the Altair line and pie charts (`monitor.py:48-72`, `189-423` apart from line 383) are HTTP, rendering and float arithmetic. The display sort at line 385 is also left out.
- Monitor.Latest: when two rows of a pair share the greatest datetime, the model keeps the later arrival. pandas' default sort is not stable, so its contract leaves the tie open. Sorting mixed datetime types, which raises in pandas, is not modelled.
- `test_api.py`, `app/test_api.py` and `app/test_websocket.py` only print and make no assertions.
