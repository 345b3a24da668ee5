# Water-quality sensing pipeline: verified model of its core

This project models, in Dafny, the sequential logic at the heart of a
voltammetric water-quality pipeline: the TCP device server that registers
devices, stores live readings and receives measurement files; the in-process
event bus with its heartbeat sweep; the IoT publisher that turns bus events
into `(topic, payload)` messages; the normaliser of classification labels;
and the decision rules of the measurement-session processor (limit loading,
choice of the third cycle, percent-of-limit estimates, contamination level
and label, CSV matrix layout).

One module per source file, plus two shared ones:

- `values.dfy` (`Values`): the JSON/Python values the code passes around,
  `dict.get`, truthiness, hashability, `int()`/`float()` conversion,
  `str(n)`, the key a value stands for in a dict (`1 == 1.0 == True`) and
  the key text `json.dump` writes for it.
- `text.dfy` (`Text`): `str.strip()`, ASCII case mapping, the `in` test
  on strings and the "keep only ASCII" filter.
- `servidor_iot.dfy` (`ServidorIot`): `handle_client` as an `IotServer` class
  over a `Connection` whose peer sends a fixed byte string cut into chunks
  by a chunking function; `iot_devices`, the stored readings and the
  received files are maps the methods update.
- `device_events.dfy` (`DeviceEvents`): `DeviceEventManager` as a class;
  `emit_event` returns the trace of deliveries it makes.
- `iot_publisher.dfy` (`IotPublisher`): `IoTPublisher` as a class sharing
  one `DeviceEventManager`; its handlers append to `published`.
- `canonical.dfy` (`Canonical`): the pure label functions.
- `pstrace_session.dfy` (`PstraceSession`): the session rules; loops become
  methods proved against specification functions.

Library routines the code calls but does not define are parameters of the
model: `json.loads`, `bytes.decode`, `hashlib.sha256`, `os.path.join`, file
open/read success and the clock (`ServidorIot.Env`); `json.dumps` and
`datetime.isoformat` (constructor arguments of the publisher); NFKD
decomposition and the combining-mark test (`Canonical.UnicodeData`, with
`AsciiStable` stating what Unicode guarantees for ASCII); `float()` on a
string (`parseFloat`).

Where the code and its written description disagree, the model follows the
code:

- The default serial of a `hello` is `"DESCONOCIDO"`, not `"UNKNOWN"`.
- There is no action-less "legacy" `send_file` path (`NoActionlessSendFile`).
- The file name is joined to the destination directory verbatim, with no
  path sanitising.
- `total_received` may exceed the announced size when the last chunk
  carries extra bytes.
- Event subscriptions have no `"*"` wildcard, and there is no `emit_nowait`.
- The heartbeat timeout compares `timedelta.seconds`, the seconds within the
  last day of the difference, not the total. A device silent for just over a
  day is not late (`SilentForADayIsNotLate`). A heartbeat stamped up to a day
  in the future is late unless it is more than 86389 seconds ahead
  (`TimedOut`).
- The registry is keyed by Python equality, so serials `1`, `1.0` and `true`
  share one entry (`OneSerialForOneTrue`). The readings file is reloaded on
  every call, so its keys are the texts `json.dump` writes: serials `5` and
  `"5"` share one entry (`IntAndTextSerialsMerge`).
- `int(size)` skips surrounding white space other than the ASCII separators
  U+001C..U+001F, accepts underscores between digits (`"1_000"`) and refuses
  strings of more than 4300 digits; a size too large for `size / 1e6` raises
  `OverflowError`. Each of these ends the connection with nothing sent.
- The session label uses 80 as the ANOMALA threshold. The 100 threshold of
  the estimates collapses into it (`SessionLabelAgrees`).

## Model

| member | source | states |
|---|---|---|
| ServidorIot.ReadHeader | servidor_iot.py:108-116 | the header loop consumes exactly `Header(rest)` of what the peer sends, one byte per `recv(1)`, and sends nothing |
| ServidorIot.HeaderShape | servidor_iot.py:110-116 | the header is a prefix of the input of at most 64 KiB + 1 bytes with no newline before its last byte, and it ends at the first newline, at the end of input or at the size cap |
| ServidorIot.HeaderEndShape | servidor_iot.py:110-116 | the byte-at-a-time loop stops at the first newline, at end of input, or once the buffer exceeds 64 KiB |
| ServidorIot.Route | servidor_iot.py:118-154 | only an empty header routes to "no header" |
| ServidorIot.RouteJson | servidor_iot.py:157-239 | a header that decoded as JSON is never routed as text ping, invalid header or empty header |
| ServidorIot.Response | servidor_iot.py:118-234 | at most one token answers a header before any body; `ACK` exactly for a file transfer; `PONG` exactly for a text or JSON ping |
| ServidorIot.ActionReplies | servidor_iot.py:155-221 | a JSON ping gets `PONG`; a hello `ACK_HELLO` when its serial is hashable and nothing otherwise (the dict assignment raises); a data message `ACK_DATA`; any action other than those and `send_file` gets `ERR_UNKNOWN_ACTION` |
| ServidorIot.HugeSizeIsRejected | servidor_iot.py:237-240 | a size that `size / 1e6` cannot turn into a float ends the connection with nothing sent |
| ServidorIot.PingTextSkipsJson | servidor_iot.py:126-139 | a header reading "ping" after strip and lower-casing is answered `PONG` alone, whatever the JSON parser would say |
| ServidorIot.InvalidJsonIsRejected | servidor_iot.py:142-154 | a non-ping header that does not decode as JSON gets exactly `ERR_INVALID_HEADER` |
| ServidorIot.NoActionlessSendFile | servidor_iot.py:211-221 | a JSON object without `action` is an unknown action, even if it carries filename, size and checksum |
| ServidorIot.ErrorTokens | servidor_iot.py:118-234 | `ERR_UNKNOWN_ACTION` and `ERR_INCOMPLETE_HEADER` are sent exactly for those routes; nothing is sent exactly for an empty header, a bad size, a bad filename or an unhashable hello serial; at most one token precedes a body |
| ServidorIot.HelloUpserts | servidor_iot.py:170-178 | `hello` upserts one entry per serial under Python equality: a second hello for an equal serial (`1`, `1.0`, `true`) equals the last one alone, the key set grows by that serial only, and other serials keep their entries |
| ServidorIot.OneSerialForOneTrue | servidor_iot.py:174 | serials `1`, `1.0` and `true` are one registry key |
| ServidorIot.LastReadingWins | servidor_iot.py:61-78 | two readings whose serials write the same JSON key text leave only the last one; every other key keeps its entry |
| ServidorIot.IntAndTextSerialsMerge | servidor_iot.py:71-76 | serials `5` and `"5"` write the same key `"5"` |
| ServidorIot.IotServer.SaveSensorData | servidor_iot.py:61-78 | the readings map gets `key text -> {timestamp, payload}` when `json.dump` can write the serial as a key, and is otherwise unchanged; nothing else changes |
| ServidorIot.IotServer.ReceiveBody | servidor_iot.py:252-259 | the bytes written are exactly the bytes received; the loop stops only once at least `size` bytes arrived or the peer closed; nothing is read for `size <= 0`; the overshoot is below one buffer |
| ServidorIot.IotServer.ReceiveFile | servidor_iot.py:245-282 | `ACK` is sent before any body byte; if the file cannot be opened nothing more happens; otherwise the file holds the body and the one verdict token follows |
| ServidorIot.Verdict | servidor_iot.py:263-282 | the verdict is `ERR_CHECKSUM` exactly when the written file can be read back and its digest differs from the declared checksum, and `EOF_OK` otherwise |
| ServidorIot.IotServer.HandleJson | servidor_iot.py:157-282 | for a decoded header: the registry, the readings, the files and the tokens sent are those the route prescribes |
| ServidorIot.IotServer.HandleClient | servidor_iot.py:105-290 | one connection: the header read, its route, the registry and readings after it, the tokens sent, the file written, and the connection closed on every path |
| DeviceEvents.Appended | src/device_events.py:39-43 | `subscribe` appends the callback to its type's list, creating it when absent, and leaves other types unchanged |
| DeviceEvents.Without | src/device_events.py:45-51 | the filtered list holds no occurrence of the callback and every other callback as many times as before |
| DeviceEvents.WithoutKeepsOrder | src/device_events.py:48-51 | filtering a concatenation is concatenating the filtered parts, so kept callbacks stay in their original order |
| DeviceEvents.Removed | src/device_events.py:45-51 | `unsubscribe` filters only the given type's list and is a no-op for an unknown type |
| DeviceEvents.SubscribeThenUnsubscribe | src/device_events.py:39-51 | subscribing a new callback and unsubscribing it restores the list |
| DeviceEvents.WithoutAbsent | src/device_events.py:45-51 | unsubscribing a callback that is not listed changes nothing |
| DeviceEvents.DeviceEventManager.Subscribe | src/device_events.py:39-43 | the table becomes `Appended` of the old one; flag and heartbeats unchanged |
| DeviceEvents.DeviceEventManager.Unsubscribe | src/device_events.py:45-51 | the table becomes `Removed` of the old one; flag and heartbeats unchanged |
| DeviceEvents.Deliveries | src/device_events.py:55-60 | one delivery per listed callback, in order, to the same event, marked raised exactly for raising callbacks, which do not stop the rest |
| DeviceEvents.DeviceEventManager.EmitEvent | src/device_events.py:53-60 | the deliveries made are exactly the listeners of the event's type, in subscription order; none for a type with no list |
| DeviceEvents.BroadcastOnlyListeners | src/device_events.py:53-58 | every delivery of a sequence of emits goes to a listener of that event's own type (no wildcard) |
| DeviceEvents.DeviceEventManager.RegisterHeartbeat | src/device_events.py:76-78 | the device's timestamp is overwritten and no entry is removed; a new device goes last in iteration order |
| DeviceEvents.TimedeltaSeconds | src/device_events.py:67 | `.seconds` lies in [0, 86400) and equals the whole seconds of a difference shorter than a day |
| DeviceEvents.DeviceEventManager.HeartbeatSweep | src/device_events.py:65-73 | one sweep returns the timeout events of the table in insertion order and the deliveries of emitting them in turn |
| DeviceEvents.TimeoutEventsExact | src/device_events.py:66-73 | a sweep emits an event exactly for registered devices whose `(now - last).seconds > 10`, carrying id, `now` and `{"last_seen": last}` |
| DeviceEvents.TimedOut | src/device_events.py:67 | for a heartbeat less than a day old, late means at least 11 whole seconds; for one stamped up to a day in the future, late means at most 86389 seconds ahead |
| DeviceEvents.SilentForADayIsNotLate | src/device_events.py:67 | a device silent for a day and five seconds is not reported |
| DeviceEvents.DeviceEventManager.Start | src/device_events.py:28-32 | `start` sets the flag and changes nothing else; the monitor it spawns is modelled by `MonitorStep` |
| DeviceEvents.DeviceEventManager.Stop | src/device_events.py:34-37 | `stop` clears the flag and changes nothing else |
| DeviceEvents.DeviceEventManager.MonitorStep | src/device_events.py:64-74 | a monitor iteration sweeps while the flag is set and emits nothing once it is cleared |
| IotPublisher.IoTPublisher.constructor | src/iot_publisher.py:20-24 | a new publisher, none of whose bound methods is on the bus yet, starts stopped with nothing published, and already satisfies the invariant that `Start`, `Stop` and `PublishedOnce` rely on |
| IotPublisher.IoTPublisher.Start | src/iot_publisher.py:26-33 | a running publisher is left as is; otherwise the flag is set and the three handlers are appended under their three types; the "each handler listed once while running" invariant is kept |
| IotPublisher.IoTPublisher.Stop | src/iot_publisher.py:36-47 | a stopped publisher is left as is; otherwise its three handlers are unsubscribed and the flag cleared; the invariant is kept |
| IotPublisher.StartKeepsSubscribed | src/iot_publisher.py:26-33 | after a start from stopped, each of the three types lists this publisher's handler exactly once |
| IotPublisher.StopKeepsSubscribed | src/iot_publisher.py:36-47 | after a stop, none of the three types lists any handler of this publisher |
| IotPublisher.OwnedWithout | src/iot_publisher.py:41-43 | unsubscribing one callback and selecting one publisher's callbacks commute |
| IotPublisher.IoTPublisher.Publish | src/iot_publisher.py:73-77 | exactly one message, the topic and the serialised payload, is appended; earlier entries are unchanged |
| IotPublisher.IoTPublisher.OnCvDataPoint | src/iot_publisher.py:49-52 | appends one message under `root/device/data_point` |
| IotPublisher.IoTPublisher.OnCvConfig | src/iot_publisher.py:54-57 | appends one message under `root/device/config` |
| IotPublisher.IoTPublisher.OnCvComplete | src/iot_publisher.py:59-62 | appends one message under `root/device/measurement_complete` |
| IotPublisher.IoTPublisher.Dispatch | src/iot_publisher.py:49-62 | a delivery to one of this publisher's handlers that did not raise appends that handler's message; any other appends nothing |
| IotPublisher.IoTPublisher.Deliver | src/iot_publisher.py:49-77 | running the handlers of a delivery trace appends exactly the messages of that trace, in order: `published` only grows at its end |
| IotPublisher.IoTPublisher.PublicationsOfOwned | src/iot_publisher.py:49-62 | only this publisher's own callbacks contribute to what it publishes |
| IotPublisher.IoTPublisher.PublishedOnce | src/iot_publisher.py:26-62 | while running, an event of each of the three types yields exactly one message under its suffix; while stopped, none |
| IotPublisher.MakePayload | src/iot_publisher.py:64-71 | the payload has exactly the keys type, timestamp, device_id and data |
| IotPublisher.PayloadRoundTrip | src/iot_publisher.py:64-71 | the payload carries the event's type, device id and data unchanged |
| IotPublisher.TopicInjective | src/iot_publisher.py:51-61 | for slash-free device ids and suffixes, distinct (device, suffix) pairs give distinct topics |
| Canonical.ClassifyText | src/canonical.py:64-88 | the keyword search always yields one of SEGURA, ANOMALA, CONTAMINADA |
| Canonical.NormalizeClassification | src/canonical.py:55-88 | `normalize_classification` always returns a canonical label |
| Canonical.FirstLabelIn | src/canonical.py:76-85 | the scan returns a label contained in the text with no earlier label contained, and none only when no label is contained |
| Canonical.DropCombining | src/canonical.py:48 | the result never is longer than the text, and a character occurs in it exactly when it occurs in the text and is not a combining mark |
| Canonical.DropCombiningAscii | src/canonical.py:48 | ASCII text has no combining marks to drop |
| Canonical.NormalizeText | src/canonical.py:39-50 | `None` gives the empty text, and the result is already upper-case: upper-casing it again changes nothing |
| Canonical.NormalizeTextAscii | src/canonical.py:39-50 | for ASCII input, `_normalize_text` is strip then upper |
| Canonical.BlankIsSegura | src/canonical.py:39-41 | `None`, the empty string and white-space-only text map to SEGURA |
| Canonical.ContaminWins | src/canonical.py:68-69 | any text whose normalised form contains "CONTAMIN" maps to CONTAMINADA, before the ANOM and SEGUR checks |
| Canonical.NegatedContaminadaIsContaminada | src/canonical.py:68-69 | "no contaminada" maps to CONTAMINADA |
| Canonical.UnrecognisedIsSegura | src/canonical.py:70-88 | text with none of the keywords or labels falls back to SEGURA |
| Canonical.ClassifyCanonical | src/canonical.py:18-22 | each canonical label classifies as itself |
| Canonical.CanonicalIsFixed | src/canonical.py:18-22 | each canonical label normalises to itself |
| Canonical.NormalizeIdempotent | src/canonical.py:55-88 | normalising a normalised label changes nothing |
| Canonical.CaseInsensitive | src/canonical.py:49 | two ASCII texts with the same upper-case form normalise alike |
| Canonical.GroupFromLabel | src/canonical.py:91-93 | the group is 0, 1 or 2 |
| Canonical.GroupAgreesWithNormalize | src/canonical.py:32-36 | the group is `GROUP_MAP` of the normalised label |
| Canonical.DisplayFromLabel | src/canonical.py:96-98 | the display text is one of the table's values |
| Canonical.DisplayAgreesWithNormalize | src/canonical.py:25-29 | the display text is `DISPLAY_LABELS` of the normalised label |
| PstraceSession.LimitValue | src/pstrace_session.py:168-183 | a limit is kept as a positive float equal to `float(raw)`, or becomes `None`; every positive convertible value is kept |
| PstraceSession.LoadLimits | src/pstrace_session.py:94-206 | the result has exactly the five metals plus `_limits_version`; each metal gets its validated value from a parsed dict, `None` on a missing file or a decoding error |
| PstraceSession.LoadedLimitsAreUsable | src/pstrace_session.py:168-183 | a loaded limit never makes an estimate report an invalid limit: each metal is estimated or reports a missing limit |
| PstraceSession.ThirdCycle | src/pstrace_session.py:328-346 | fewer than three curves give `[]`; otherwise the Y values of the curve at index 2 |
| PstraceSession.Peak | src/pstrace_session.py:401 | `max` of a non-empty list is one of its elements and at least every element |
| PstraceSession.EstimateFor | src/pstrace_session.py:416-463 | `ppm` is always `None`; a percentage is present exactly when there is no note; the missing, invalid and non-positive limit notes; otherwise the percentage is `peak / limit * 100` |
| PstraceSession.MaxValid | src/pstrace_session.py:411-467 | the running maximum is at least 0, at least every present percentage, and is 0 or one of them |
| PstraceSession.EstimateEach | src/pstrace_session.py:411-467 | the loop fills exactly the entries of `EstimatesFor` and leaves `max_pct` at the running maximum of the percentages |
| PstraceSession.EstimatesForEntries | src/pstrace_session.py:414-418 | the entries filled for the first n metals are those metals, each with its own estimate |
| PstraceSession.Estimation | src/pstrace_session.py:394-482 | empty data give `{}`; otherwise exactly the five metals each with its own estimate, `max_pct` at least 0 and at least every present percentage and either 0 or one of them, the classification of `max_pct` and the method name |
| PstraceSession.ClassifyPct | src/pstrace_session.py:470-477 | CONTAMINADA exactly from 120, ANÓMALA exactly in [100, 120), EN ATENCIÓN exactly in [80, 100) and SEGURA exactly below 80 |
| PstraceSession.Estimate | src/pstrace_session.py:394-482 | the loop-based computation returns exactly `Estimation` |
| PstraceSession.ClassifyPctMonotone | src/pstrace_session.py:470-477 | the global classification never gets milder as `max_pct` grows |
| PstraceSession.ContaminationLevel | src/pstrace_session.py:1223-1255 | the level is the running maximum of the percentages read back from the estimates, in either stored format |
| PstraceSession.PctReadBack | src/pstrace_session.py:1231-1238 | the percentage read back from a metal's entry is the one it was built with |
| PstraceSession.EntryOfMetal | src/pstrace_session.py:416-418 | the summary keys do not overwrite any metal's entry |
| PstraceSession.LevelMatchesMaxPct | src/pstrace_session.py:1220-1255 | the contamination level of a measurement equals the `max_pct` of its estimates |
| PstraceSession.SessionLabel | src/pstrace_session.py:1258-1265 | the raw label is a canonical label |
| PstraceSession.SessionLabelAgrees | src/pstrace_session.py:1258-1265 | the raw label is CONTAMINADA or SEGURA exactly when the global classification is, and ANOMALA exactly when it is ANÓMALA or EN ATENCIÓN |
| PstraceSession.SessionLabelIsStable | src/pstrace_session.py:1268-1270 | normalising the raw label leaves it unchanged, and its display text is the table's entry for it |
| PstraceSession.ProcessMeasurement | src/pstrace_session.py:1210-1283 | a measurement without third-cycle data is skipped; otherwise its scores, its estimates equal to `Estimation` of the third cycle, its level equal to their `max_pct`, its canonical classification and its display label |
| PstraceSession.CsvHeader | src/pstrace_session.py:759-776 | the header has n + 15 names: sensor id, title, `punto_1`…`punto_n` and the fixed tail |
| PstraceSession.PointNamesDistinct | src/pstrace_session.py:760 | the PCA column names are pairwise distinct |
| PstraceSession.Fit | src/pstrace_session.py:806-810 | the PCA cells are the scores padded with `None` up to n or cut to n |
| PstraceSession.Blank | src/pstrace_session.py:861 | `None` cells become empty strings, others are kept |
| PstraceSession.RawCells | src/pstrace_session.py:795-858 | a row has n + 15 cells and its PCA cells are the fitted scores |
| PstraceSession.Row | src/pstrace_session.py:795-861 | a row that can be built has exactly n + 15 cells, none of them `None` |
| PstraceSession.RowPadsAndTruncates | src/pstrace_session.py:803-812 | PCA cell i of a row is score i when there is one and empty otherwise |
| PstraceSession.ZeroPctIsBlank | src/pstrace_session.py:817-821 | a percentage of exactly 0 is written as an empty cell, since `or` treats 0.0 as absent |
| PstraceSession.SafeGetPct | src/pstrace_session.py:817-826 | a missing metal gives `None`; a dict entry gives its truthy `pct_of_limit`, else its truthy `pct`, else `None`; any other entry gives `None` or a float |
| PstraceSession.WriteRows | src/pstrace_session.py:794-864 | the rows written are those of the measurements in order, up to the first whose row cannot be built; each has n + 15 cells |
| PstraceSession.GenerateCsv | src/pstrace_session.py:745-874 | no results or no PCA data write nothing; otherwise the header of n + 15 names and rows of exactly that length; success exactly when every row was written |
| Values.DecimalStringValue | src/pstrace_session.py:760 | the decimal digits of `str(n)` spell n |
| Values.DecimalStringInjective | src/pstrace_session.py:760 | distinct numbers have distinct decimal forms |
| Values.ParseInt | servidor_iot.py:237 | a parsed integer comes from a text that is not blank once the white space `int()` skips is removed (every `str.isspace()` character but U+001C..U+001F), and a negative one from such a text starting with `-` |
| Values.SeparatorIsNotSpace | servidor_iot.py:237 | `int("\x1c5")` raises: the ASCII separators are not skipped |
| Values.NoBreakSpaceIsStripped | servidor_iot.py:237 | `int("\xa05")` is 5: non-ASCII white space is skipped |
| Values.ParseDecimalString | servidor_iot.py:237 | `int(str(n))` is n for every n of at most 4300 digits |
| Values.TooManyDigits | servidor_iot.py:237 | `int()` refuses the decimal form of a number with more than 4300 digits |
| Values.UnderscoresAreSkipped | servidor_iot.py:237 | `int("1_000")` is 1000 |
| Values.IntOf | servidor_iot.py:237 | `int(v)`: `None`, lists, dicts and instants are refused; an int is itself; a bool is 0 or 1; a float truncates to an integer less than 1 away with the same sign |
| Values.PyKey | servidor_iot.py:174 | the dict key a value stands for is never a bool, is a float only when not integral, is hashable exactly when the value is, and leaves strings, ints and `None` unchanged |
| Values.JsonKey | servidor_iot.py:71-76 | `json.dump` can write a key exactly for `None`, bools, numbers and strings, and a string key is written as itself |
| Text.StripUpperCommute | src/canonical.py:46-49 | stripping and upper-casing commute |
| Text.UpperIdempotent | src/canonical.py:49 | upper-casing twice is upper-casing once |

## Left out

- The socket accept loop, per-connection threads and `try_launch_remote_session` (a dynamic import run on a thread) are not modelled. The hook has no effect on the connection.
- Writing `iot_devices.json` and the readings file, and loading them at start-up, are not modelled. The registry and readings are maps, and the received files a map from path to bytes.
- Failures of `sendall` and `close` are swallowed by the source and are not modelled; every token is recorded as sent.
- `bytes.decode`, `json.loads`, `json.dumps`, SHA-256, `os.path.join`, `datetime.isoformat`, NFKD and `unicodedata.combining` are parameters without a body. The model fixes only what Unicode guarantees for ASCII.
- `str.upper`, `str.lower` and `str.strip` case-map ASCII letters only. Non-ASCII case mapping is not modelled, so the case-insensitivity lemmas are stated for ASCII text.
- Canonical.NormalizeText: the `except` fallback of `_normalize_text` is not modelled; the library routines are total here.
- Asyncio is not modelled: callbacks run synchronously in `emit_event`, and the monitor loop is one sweep per call. `asyncio.sleep` and `create_task` are left out.
- A callback's own behaviour is not modelled by the bus; a raising callback is given by the `raises` set. The publisher's handlers run on the resulting trace through `IoTPublisher.Deliver`.
- Floating point is modelled by reals. NaN and infinities are not modelled, so the `calc_error` note and the NaN/Inf filter of the contamination level never apply.
- PstraceSession.Peak: `float(max(datos_pca))` is taken over reals; a non-numeric element (the `except` returning `{}`) is not modelled.
- PstraceSession.ThirdCycle: the curves are given by their Y values, so the `GetYValues` failure path and the .NET curve objects are not modelled.
- PstraceSession.LoadLimits: reading the file, its SHA-256 and the contents of the `_limits_version` metadata are not modelled; the metadata is a parameter, and a missing or undecodable file is `None`.
- PstraceSession.GenerateCsv: the directory creation, the file writing and the logging are not modelled. The rows are returned; an exception during a row stops the writing, which the model reports as not ok.
- PstraceSession.PcaItems: a `pca_scores` dict (whose key order the model does not have) is treated like a raising value.
- The instrument SDK, the trained-model prediction (`predecir_con_modelo_entrenado`), `WaterClassifier`, the GUI, the database code and the duplicated second half of `src/pstrace_session.py` are not part of this model.
- Logging and `print` output are not modelled.
- Values.ParseInt: non-ASCII decimal digits (Arabic-Indic digits, for example), which `int()` also accepts, are not accepted by the model. The white space it skips is the same as `int()`'s: every `str.isspace()` character except U+001C..U+001F.
- ServidorIot.ReadHeader: an error raised by `recv` (a reset connection) is not modelled; the peer's input ends instead.
- ServidorIot.IotServer.ReceiveFile: an error raised by `recv` during the body is not modelled; the peer's input ends instead.
- DeviceEvents.DeviceEventManager.Start: each call spawns another monitor task even when already running, so repeated starts make every sweep run more than once per tick; the model has one monitor (`MonitorStep`).
- ServidorIot.IotServer.SaveSensorData: `json.dump` raises after truncating the file when a key has more than 4300 digits or a serial cannot be written as a key by the `default=str` fallback; the model leaves the readings unchanged in the latter case and writes the key in the former.
