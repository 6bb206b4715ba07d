# Aqua-net client core, modelled in Dafny

This project models the realtime core of the Aqua-net mobile client. The
client monitors and controls water pumps over MQTT.

- `mqtt.dfy` models the MQTT service (`src/lib/mqtt.ts`). It holds one broker
  session, issues per-device and wildcard subscriptions, and keeps reconnect
  bookkeeping with exponential backoff. Messages fan out to registered handlers in
  registration order. Commands are published at QoS 1; while offline they go
  to a persisted outbox, which is replayed on the next connect.
- `storage.dfy` models the key-value storage layer (`src/lib/storage.ts`). It
  stores JSON values under string keys and holds the session, per-device
  snapshots and the outbox.
- `auth.dfy` models the auth store (`src/store/auth.ts`).
- `dashboard.dfy` models the dashboard's realtime logic
  (`src/pages/Dashboard.tsx`): the sensor-topic regular expression, the
  latest-payload map, loading cached snapshots, and merging devices.
- `device_detail.dfy` models the device detail view
  (`src/pages/DeviceDetail.tsx`): its topic filter, the 20-point chart window,
  the cached snapshot and the three command shapes.
- `reports.dfy` models the text of the CSV export (`src/pages/Reports.tsx`).
- `json.dfy` models the JSON values the code passes around. It covers
  JavaScript truthiness, property access, object spread and
  `JSON.stringify`. It also has a decoder for string literals, which proves
  that string quoting round-trips.

The MQTT library is foreign code. Each call the service makes on the client is
appended to the ghost log `MqttService.calls`. The library's callbacks
(`connect`, `reconnect`, `error`, `offline`, `close`, `message`) become event
methods that the environment calls. Each handler invocation is appended to
the ghost log `MqttService.deliveries`.

Inputs taken as parameters:

- the current time;
- the random client id;
- whether the library creates the client when the service connects;
- whether the transport reports a publish error;
- whether reading the store fails;
- the parsed body of an inbound message;
- which handlers throw.

Subscriptions and the connection:

- The service keeps no subscription registry and does not re-subscribe after
  a reconnect. It relies on the broker's persistent session (`clean: false`,
  `src/lib/mqtt.ts` line 47).
- On `connect` the service sets itself online, resets the backoff and starts
  the outbox flush (lines 52-58), as `MqttService.FlushOfflineQueue` does it. Views subscribe when they mount (lines 100-132).
- So `MqttService.OnConnect` re-subscribes nothing, and `MqttService` keeps no
  subscription set.
- `connect` is private and runs once, from the constructor (lines 37-39).

## Model

| member | source | states |
|---|---|---|
| Json.Lookup | src/lib/mqtt.ts:189 | property access finds a field with that key, and `undefined` means no field has the key |
| Json.Keys | src/pages/Reports.tsx:39 | `Object.keys` lists the object's keys in the object's property order, one per field |
| Json.Assign | src/lib/storage.ts:66 | `{...obj, key: val}` reads `val` under `key` and every other key as before; a new key is appended after the existing ones in the object's property order |
| Json.Truthy | src/lib/storage.ts:65 | definition: JavaScript truthiness of a parsed value, used by every `\|\|` and `if (x)` test of the core |
| Json.TruthyIff | src/store/auth.ts:42 | a value is falsy exactly when it is null, false, the number 0 or the empty string |
| Json.ZeroText | src/lib/storage.ts:65 | the number text `0` is the only one that denotes zero |
| Json.NumberTextAccepts | src/pages/DeviceDetail.tsx:104-107 | `-3` and `1.5e+21` are number text as JavaScript prints numbers |
| Json.NumberTextRejects | src/pages/DeviceDetail.tsx:127-130 | `-0`, `1e`, `07` and `2.50` are not number text: JavaScript never prints them |
| Json.Quote | src/lib/mqtt.ts:158 | definition: `JSON.stringify` of a string, a double-quoted literal with `"`, `\\` and control characters escaped |
| Json.Stringify | src/lib/mqtt.ts:158 | definition: `JSON.stringify` of a value, with object fields in property order and array items in order |
| Json.UnquoteQuote | src/lib/storage.ts:12-22 | a string written as JSON text reads back as the same string, so string values survive `set` then `get` |
| Json.QuoteInjective | src/lib/mqtt.ts:158 | distinct strings are written as distinct JSON literals |
| Json.StringifyHasNoNewline | src/pages/Reports.tsx:43 | `JSON.stringify` never writes a raw line break |
| Storage.Read | src/lib/storage.ts:19-22 | definition: what `get` returns for a key, the stored value or null when the key is absent |
| Storage.QueueOf | src/lib/storage.ts:65 | definition of `(stored) \|\| []`: a falsy stored outbox is the empty queue, an array is the queue, and nothing else is a queue |
| Storage.Stamped | src/lib/storage.ts:66 | an outbox entry carries `now` under `timestamp` and the command's value under every other key |
| Storage.DeviceStateKey | src/lib/storage.ts:56 | definition: a snapshot's key is `device.state.` followed by the device id |
| Storage.DeviceStateKeyInjective | src/lib/storage.ts:55-61 | distinct devices never share a snapshot key |
| Storage.DeviceStateKeyIsolated | src/lib/storage.ts:3-9 | no snapshot key collides with the token, user, outbox or language key |
| Storage.Store.Set | src/lib/storage.ts:12-17 | `set` stores the value under the key and leaves other keys alone |
| Storage.Store.Get | src/lib/storage.ts:19-22 | `get` returns the stored value, or null for an absent key |
| Storage.Store.Remove | src/lib/storage.ts:24-26 | `remove` drops exactly that key |
| Storage.Store.Clear | src/lib/storage.ts:28-30 | `clear` empties the store |
| Storage.Store.SetToken | src/lib/storage.ts:33-35 | the token is stored as a string under `auth.token` |
| Storage.Store.GetToken | src/lib/storage.ts:37-39 | the token read is whatever is stored under `auth.token`, or null |
| Storage.Store.SetUser | src/lib/storage.ts:41-43 | the user is stored under `auth.user` |
| Storage.Store.GetUser | src/lib/storage.ts:45-47 | the user read is whatever is stored under `auth.user`, or null |
| Storage.Store.ClearAuth | src/lib/storage.ts:49-52 | `clearAuth` removes both auth keys and keeps every other entry |
| Storage.Store.SetDeviceState | src/lib/storage.ts:55-57 | a snapshot is stored under `device.state.` followed by the device id |
| Storage.Store.GetDeviceState | src/lib/storage.ts:59-61 | the snapshot read is the one stored under the device's key, or null |
| Storage.Store.QueueCommand | src/lib/storage.ts:64-68 | with a readable outbox the stamped command is appended at the end; with an unreadable one the call fails and nothing changes |
| Storage.Store.GetOfflineQueue | src/lib/storage.ts:70-72 | returns the queue as `QueueOf` reads it; with no stored outbox it is empty |
| Storage.Store.ClearOfflineQueue | src/lib/storage.ts:74-76 | the outbox is stored as `[]` and then reads as the empty queue |
| Mqtt.SensorTopic | src/lib/mqtt.ts:104 | definition: a device's telemetry topic `devices/<id>/sensor` |
| Mqtt.StatusTopic | src/lib/mqtt.ts:105 | definition: a device's status topic `devices/<id>/status` |
| Mqtt.ReportAckTopic | src/lib/mqtt.ts:106 | definition: a device's report acknowledgement topic `devices/<id>/report_ack` |
| Mqtt.CommandTopic | src/lib/mqtt.ts:157 | definition: a device's command topic `devices/<id>/command` |
| Mqtt.DeviceTopics | src/lib/mqtt.ts:103-107 | definition: a device's sensor, status and report-ack topics, in the order they are subscribed |
| Mqtt.DeviceTopicsDistinct | src/lib/mqtt.ts:103-107 | a device's sensor, status and report-ack topics are pairwise distinct |
| Mqtt.SensorTopicInjective | src/lib/mqtt.ts:104 | a sensor topic determines its device |
| Mqtt.CommandTopicNeverSubscribed | src/lib/mqtt.ts:103-157 | a command topic string differs from every topic filter the client subscribes: each per-device topic and the wildcard |
| Mqtt.BackoffDelay | src/lib/mqtt.ts:79-87 | definition: the delay after a number of reconnect attempts, 1000 for the first ten and then doubled per attempt up to 60000 |
| Mqtt.BackoffBounds | src/lib/mqtt.ts:79-87 | the reconnect delay always stays between 1000 and 60000 |
| Mqtt.BackoffMonotone | src/lib/mqtt.ts:79-87 | more reconnect attempts never shorten the delay |
| Mqtt.BackoffClosedForm | src/lib/mqtt.ts:83-86 | after more than ten attempts the delay is 1000 doubled once per extra attempt, capped at 60000 |
| Mqtt.BackoffReachesCeiling | src/lib/mqtt.ts:83-86 | from the sixteenth attempt on, the delay is 60000 |
| Mqtt.FlushCalls | src/lib/mqtt.ts:181-197 | definition: the client calls a flush makes, one replay per entry up to the first `null` entry when there is a client, none otherwise or when the outbox is unreadable |
| Mqtt.FlushPrefs | src/lib/mqtt.ts:181-197 | definition: the store a flush leaves, the outbox reset to `[]` unless it was empty or unreadable, or the replay threw on a `null` entry |
| Mqtt.Replayable | src/lib/mqtt.ts:188-190 | the entries replayed before `item.topic` throws: the longest prefix of the outbox with no `null` entry |
| Mqtt.ReplayableUpTo | src/lib/mqtt.ts:188-190 | the replayed prefix ends exactly at the first `null` entry, or is the whole outbox when there is none |
| Mqtt.FlushStopsAtNull | src/lib/mqtt.ts:181-197 | with a client, a first `null` entry ends the replay: the entries before it are published and the outbox is kept |
| Mqtt.FlushEmptiesOutbox | src/lib/mqtt.ts:181-197 | after a flush of a readable outbox, the outbox reads as empty exactly when there is no client or no `null` entry; otherwise the store is unchanged |
| Mqtt.QueuedCommandReplaysAsDirect | src/lib/mqtt.ts:157-189 | a queued command is replayed as exactly the publish an online send would make: same topic, same payload, QoS 1 |
| Mqtt.FlushAfterAppend | src/lib/mqtt.ts:181-192 | flushing an outbox with no `null` entry whose last entry is `item` publishes the earlier entries, then `item`, and empties the outbox |
| Mqtt.QueuedCommandsReplayInOrder | src/lib/mqtt.ts:188-190 | commands queued in turn are replayed in queue order, each as its online publish |
| Mqtt.DirectPublish | src/lib/mqtt.ts:157-166 | definition: the online publish of a command, QoS 1 to the command topic with the command's JSON text |
| Mqtt.OutboxItem | src/lib/mqtt.ts:173-176 | definition: the entry queued offline, holding the topic, the payload text and the command |
| Mqtt.ReplayOf | src/lib/mqtt.ts:189 | definition: the publish for one stored entry, QoS 1 with the entry's `topic` and `payload` |
| Mqtt.ReplayAll | src/lib/mqtt.ts:188-190 | definition: one QoS 1 publish per entry, in queue order, with the entry's stored topic and payload; the reference the flush loop is proved against |
| Mqtt.Reached | src/lib/mqtt.ts:61-66 | fan-out reaches a prefix of the handlers in order; it stops only at the first handler that throws |
| Mqtt.DeliveriesTo | src/lib/mqtt.ts:63 | definition: each handler reached is called once with the topic and the parsed message, in order |
| Mqtt.Without | src/lib/mqtt.ts:202 | removing a handler drops exactly that handler, keeps the others, and keeps the set duplicate-free |
| Mqtt.DistinctOccursOnce | src/lib/mqtt.ts:200-203 | each registered handler occurs once in the handler set |
| Mqtt.DeliveredExactlyOnce | src/lib/mqtt.ts:60-67 | when no handler throws, a message reaches every registered handler exactly once and no one else |
| Mqtt.ReachedStopsAt | src/lib/mqtt.ts:61-66 | the first throwing handler is the last one called |
| Mqtt.ReachedAll | src/lib/mqtt.ts:63 | with no throwing handler, every handler is called |
| Mqtt.MqttService.constructor | src/lib/mqtt.ts:30-50 | the session opens with client id `earena_client_` plus the suffix, keepalive 60, a persistent session and a 1000 ms reconnect period; it starts offline with no handlers |
| Mqtt.MqttService.OnConnect | src/lib/mqtt.ts:52-58 | a connect, which only a service with a client receives, sets the service online, resets the backoff and flushes the outbox as `FlushOfflineQueue` does; the delay invariant holds |
| Mqtt.MqttService.OnReconnect | src/lib/mqtt.ts:79-87 | a reconnect counts one attempt; past ten attempts the delay doubles, capped at 60000; the delay never shrinks and stays a function of the attempt count |
| Mqtt.MqttService.OnError | src/lib/mqtt.ts:69-72 | an error sets the service offline |
| Mqtt.MqttService.OnOffline | src/lib/mqtt.ts:74-77 | going offline sets the service offline |
| Mqtt.MqttService.OnClose | src/lib/mqtt.ts:89-92 | a close sets the service offline |
| Mqtt.MqttService.OnMessageEvent | src/lib/mqtt.ts:60-67 | an unparsable message reaches no handler; a parsed one reaches the handlers in registration order, up to the first that throws |
| Mqtt.MqttService.SubscribeToDevice | src/lib/mqtt.ts:100-118 | with a client, subscribes the device's sensor, status and report-ack topics at QoS 1, in that order; without one, does nothing |
| Mqtt.MqttService.SubscribeToAllDevices | src/lib/mqtt.ts:121-132 | with a client, subscribes `devices/+/sensor` at QoS 1 |
| Mqtt.MqttService.UnsubscribeFromDevice | src/lib/mqtt.ts:135-153 | with a client, unsubscribes the same three topics in the same order |
| Mqtt.MqttService.PublishCommand | src/lib/mqtt.ts:156-178 | online, makes one QoS 1 publish of the command's JSON to `devices/<id>/command`, resolving true or rejecting on a transport error; offline, makes no client call, appends the command to the outbox and resolves false |
| Mqtt.MqttService.FlushOfflineQueue | src/lib/mqtt.ts:181-197 | replays the outbox entries in order with their stored topics and payloads, then resets the outbox unless it was empty; with a client, a `null` entry ends the replay and the outbox is kept |
| Mqtt.MqttService.OnMessage | src/lib/mqtt.ts:200-203 | registers the handler once, keeping the set duplicate-free, and returns the capability that removes it |
| Mqtt.MqttService.Unregister | src/lib/mqtt.ts:202 | removes exactly that handler and reports whether it was registered |
| Mqtt.MqttService.IsConnected | src/lib/mqtt.ts:206-208 | reports the connection flag |
| Mqtt.MqttService.Disconnect | src/lib/mqtt.ts:211-217 | with a client, ends the session, drops the client and goes offline; without one, does nothing |
| Auth.AuthStore.constructor | src/store/auth.ts:20-24 | the store starts signed out and loading |
| Auth.AuthStore.SetAuth | src/store/auth.ts:26-30 | persists the token, then the user, and signs in; the store is authenticated exactly when it holds both |
| Auth.AuthStore.ClearAuth | src/store/auth.ts:32-35 | removes both persisted keys and signs out |
| Auth.AuthStore.LoadAuth | src/store/auth.ts:37-51 | signs in only when the stored token and user are both truthy and the read succeeds; otherwise signs out; loading ends either way |
| Auth.AuthStore.SetAuthThenLoadAuth | src/store/auth.ts:26-51 | signing in and then restoring from the store gives back the same user and token when the token is not empty |
| Dashboard.MatchesAt | src/pages/Dashboard.tsx:29 | definition: the pattern's meaning, `devices/` then a nonempty slash-free group then `/sensor`, starting at a given position |
| Dashboard.RunEnd | src/pages/Dashboard.tsx:29 | `[^\/]+` runs up to the next slash or the end of the topic |
| Dashboard.MatchAtIff | src/pages/Dashboard.tsx:29 | at a given position the pattern matches with group `id` exactly when the greedy run finds a match whose group is `id` |
| Dashboard.FirstMatch | src/pages/Dashboard.tsx:29 | finds the leftmost position where the unanchored pattern matches, or none |
| Dashboard.SensorDeviceId | src/pages/Dashboard.tsx:29-31 | the captured id is nonempty, has no slash and comes from the leftmost match; when nothing is captured the topic has no match at all |
| Dashboard.SensorTopicYieldsId | src/pages/Dashboard.tsx:29-31 | a device's own sensor topic yields that device's id, for any slash-free id |
| Dashboard.PumpExample | src/pages/Dashboard.tsx:29-31 | `devices/pump-7/sensor` yields `pump-7` |
| Dashboard.NoSuffixNoMatch | src/pages/Dashboard.tsx:29-30 | a topic without `/sensor` is ignored |
| Dashboard.StatusExample | src/pages/Dashboard.tsx:29-30 | a status topic is ignored |
| Dashboard.MergedDevices | src/pages/Dashboard.tsx:68-71 | definition: keeps the device list's length and order, pairing each device with its latest payload; before the list loads the result is empty |
| Dashboard.CacheOne | src/pages/Dashboard.tsx:52-60 | definition: the update for one device, its truthy cached snapshot stored under its id |
| Dashboard.WithCached | src/pages/Dashboard.tsx:52-60 | definition: the updates for the listed devices, applied in list order |
| Dashboard.WithCachedLoads | src/pages/Dashboard.tsx:52-60 | after the load, a listed device with a truthy cached snapshot shows that snapshot, and every other entry is unchanged |
| Dashboard.MergedShowsLatest | src/pages/Dashboard.tsx:32-71 | after a telemetry message, the merged entry of every listed device with that id shows the new payload |
| Dashboard.DashboardView.constructor | src/pages/Dashboard.tsx:14 | the realtime map starts empty |
| Dashboard.DashboardView.OnSensorMessage | src/pages/Dashboard.tsx:27-40 | a matching topic sets that device's entry and its stored snapshot to the payload; other topics change nothing |
| Dashboard.DashboardView.LoadCachedStates | src/pages/Dashboard.tsx:48-65 | walks the device list in order and applies each truthy snapshot; before the list loads, does nothing |
| DeviceDetail.PointOf | src/pages/DeviceDetail.tsx:52-57 | definition: a chart point carries the time and the payload's `power`, `flowRate` and `waterDepth` |
| DeviceDetail.LastN | src/pages/DeviceDetail.tsx:58 | `slice(-n)` keeps the last `min(length, n)` elements |
| DeviceDetail.AppendPoint | src/pages/DeviceDetail.tsx:49-60 | the chart grows by one up to 20 points, and then drops its oldest point; the new point is last |
| DeviceDetail.LastNOfLastN | src/pages/DeviceDetail.tsx:58 | trimming before appending gives the same window as trimming after |
| DeviceDetail.ChartKeepsLatest | src/pages/DeviceDetail.tsx:49-60 | whatever arrives, the chart holds the last 20 points of everything appended, in arrival order |
| DeviceDetail.MotorCommand | src/pages/DeviceDetail.tsx:81-84 | definition: the motor command object, `type` then `state` |
| DeviceDetail.TimerCommand | src/pages/DeviceDetail.tsx:104-107 | definition: the timer command object, `type` then `duration` |
| DeviceDetail.HeightCommand | src/pages/DeviceDetail.tsx:127-130 | definition: the height command object, `type` then `value` |
| DeviceDetail.MotorPayload | src/pages/DeviceDetail.tsx:81-84 | the motor command goes out as `{"type":"motor","state":"ON"}` or `"OFF"` |
| DeviceDetail.TimerPayload | src/pages/DeviceDetail.tsx:104-107 | the timer command goes out as `{"type":"timer","duration":<n>}` with a bare number |
| DeviceDetail.HeightPayload | src/pages/DeviceDetail.tsx:127-130 | the height command goes out as `{"type":"height","value":<n>}` with a bare number |
| DeviceDetail.QuotePlain | src/lib/mqtt.ts:158 | a word of letters and underscores is written between quotes with no escapes |
| DeviceDetail.PlainTwoField | src/lib/mqtt.ts:158 | a two-field object with plain keys is written as its fields in order, with no escapes |
| DeviceDetail.DetailView.constructor | src/pages/DeviceDetail.tsx:25-26 | the view starts with no sensor data and an empty chart |
| DeviceDetail.DetailView.OnSensorMessage | src/pages/DeviceDetail.tsx:43-62 | only the device's own sensor topic counts; it replaces the sensor data, stores the snapshot and appends a chart point |
| DeviceDetail.DetailView.LoadCached | src/pages/DeviceDetail.tsx:65-69 | a truthy stored snapshot replaces the sensor data; otherwise it is kept |
| DeviceDetail.DetailView.Mount | src/pages/DeviceDetail.tsx:38-69 | without an id, does nothing; with one, subscribes the three topics, registers the handler once and loads the snapshot |
| DeviceDetail.DetailView.Unmount | src/pages/DeviceDetail.tsx:71-74 | for a view with a device id, removes the handler, then unsubscribes the three topics |
| DeviceDetail.Sent | src/pages/DeviceDetail.tsx:77-98 | definition: the outcome of a send, given as the toast, the client calls and the store for a missing id, an online send and an offline send with a readable or unreadable outbox |
| DeviceDetail.DetailView.SendCommand | src/pages/DeviceDetail.tsx:77-98 | without an id, does nothing; online, publishes and shows success unless the transport fails; offline, queues and shows success, or shows an error when the outbox is unreadable |
| DeviceDetail.DetailView.HandleMotorControl | src/pages/DeviceDetail.tsx:77-98 | sends the motor command with the outcomes above |
| DeviceDetail.DetailView.HandleTimerSet | src/pages/DeviceDetail.tsx:100-121 | sends the timer command with the outcomes above |
| DeviceDetail.DetailView.HandleHeightSet | src/pages/DeviceDetail.tsx:123-144 | sends the height command with the outcomes above |
| DeviceDetail.OfflineSendThenFlush | src/lib/mqtt.ts:156-192 | a command sent offline joins the back of a readable outbox and the send reports success; the next flush publishes the earlier entries, then this command exactly as an online send would, and leaves the outbox empty |
| Reports.Join | src/pages/Reports.tsx:40-45 | definition: `Array.prototype.join`, the parts with the separator between each two |
| Reports.Split | src/pages/Reports.tsx:40-45 | splitting on a character gives at least one piece, and no piece contains that character |
| Reports.SplitJoin | src/pages/Reports.tsx:40-45 | joining on a character and splitting on it gives back the parts when no part contains it |
| Reports.JoinAvoids | src/pages/Reports.tsx:40-45 | a join contains a character only if a part or the separator does |
| Reports.CellText | src/pages/Reports.tsx:43 | definition: a missing or falsy value is written as `""`; any other value as its JSON text |
| Reports.Cells | src/pages/Reports.tsx:42-44 | definition: a row has one cell per header, in header order |
| Reports.RowLine | src/pages/Reports.tsx:43 | definition: a record line is the row's cells joined by commas |
| Reports.RowLines | src/pages/Reports.tsx:42-44 | definition: there is one record line per row, in row order |
| Reports.ExportToCsv | src/pages/Reports.tsx:36-45 | there is no output exactly when the data is null or empty |
| Reports.RowLineHasNoNewline | src/pages/Reports.tsx:42-44 | a record line never contains a line break |
| Reports.CsvLines | src/pages/Reports.tsx:36-45 | the output has exactly `1 + data.length` lines: the header line, then each row's line in input order |
| Reports.RowCells | src/pages/Reports.tsx:42-44 | a record line splits into one cell per header, in header order, when no cell's JSON contains a comma |
| Reports.LineDependsOnHeadersOnly | src/pages/Reports.tsx:39-44 | a row's line depends only on its values under the first row's keys, so keys only later rows have are dropped |

## Left out

- Network I/O, the broker URL and the credentials are left out. The service's requests to the MQTT library are recorded, not carried out.
- Timers are left out. The real reconnect timing is one too: the library keeps the `reconnectPeriod` it was given at connect, so the doubled delay never reaches it (`src/lib/mqtt.ts` line 48). The model tracks the delay value only.
- Asynchronous interleaving is left out. Each library event and each public method runs to completion as one atomic step, with the awaits inside it in program order. The flush that the connect handler starts without awaiting it (`src/lib/mqtt.ts` line 57) runs entirely inside `MqttService.OnConnect`.
- Mqtt.MqttService.OnConnect: two orders the source allows are not modelled, because the flush is atomic here. A command queued after an `offline` event that arrives while a flush is in progress is erased by the flush's clear (line 192). A `publishCommand` made after `connected` is set (line 54) but before the replay ends goes out ahead of older queued commands.
- Json.Lookup: only own properties are modelled. JavaScript property access also finds names inherited from `Object.prototype`. For `row["constructor"]` on `{}`, the CSV export (`src/pages/Reports.tsx` line 43) gets a truthy function, which `JSON.stringify` turns into `undefined`, so `join` writes an empty cell where the model writes `""`. `toString`, `valueOf` and the other inherited names behave the same way, and `__proto__` gives `{}`.
- Acknowledgement callbacks of subscribe and unsubscribe are left out: they only log.
- JSON text parsing of inbound messages is left out. `OnMessageEvent` receives the parse result.
- The store holds JSON values. Writing a value with `JSON.stringify` and parsing it back is taken to give the same value, which is proved only for strings (`Json.UnquoteQuote`). Values JSON cannot represent (`undefined`, functions) are not modelled.
- Numbers are kept as the text JavaScript prints for them. There is no arithmetic on readings, and NaN and Infinity are left out. `Json.IsNumberText` fixes the shape of that text (sign, no leading or trailing zeros, signed exponent) but not which magnitudes JavaScript writes with an exponent, so `1e+5` is accepted although JavaScript prints `100000`.
- Json.Assign: integer-like keys are not reordered. JavaScript lists such keys first, in ascending order, before the string keys, so `{...{a: 1}, "5": 2}` puts `"5"` first; the model appends it. `Json.Keys` and `Json.Stringify` follow the model's field order. The core only spreads the key `timestamp`, which is not integer-like.
- `Json.Quote` escapes characters below U+0020, `"` and `\`. Lone UTF-16 surrogates, which `JSON.stringify` writes as `\uXXXX`, are not modelled: Dafny's `char` excludes them.
- Storage.Store.QueueCommand: a stored outbox that is truthy but not an array is treated as unreadable. The call fails and nothing is written. JavaScript would fail the same way for most such values, but a stored string would be iterated character by character by the flush. That case is not modelled.
- Mqtt.MqttService.FlushOfflineQueue: an unreadable outbox makes the flush do nothing. This stands for the exception caught at `src/lib/mqtt.ts` lines 194-196. With a client, a `null` entry throws at `item.topic` in the same way. Any other non-object entry is replayed with an undefined topic and payload. What the MQTT library does with such a publish is not modelled.
- Handler exceptions are modelled by the `throwing` parameter. The code has no subscription registry and no re-subscription on reconnect, so neither is modelled (see the introduction).
- `DeviceDetail.PointOf` reads `power`, `flowRate` and `waterDepth` with property access. A `null` payload would make `payload.power` throw in JavaScript; the model reads it as absent.
- Reports.ExportToCsv: rows are modelled as objects. Header names are joined without quoting, so `Reports.CsvLines` assumes no header key contains a line break.
- Reports.RowCells: the cell count is proved only when no cell's JSON contains a comma, because JSON quoting is not the quote-doubling of section 2 of RFC 4180.
- The `Blob` download, the file name and its ISO date (`src/pages/Reports.tsx` lines 47-51) are browser I/O and are left out.
- Rendering, toasts' wording, translations, animation, the chart drawing and the REST API calls are left out. The toast's kind (`DeviceDetail.Toast`) is modelled.
- Auth.AuthStore.SetAuthThenLoadAuth requires a nonempty token. An empty token signs in, but reads back as falsy and signs out on reload.
