# IoT sensor relay: verified model of its state updates

This project models the deterministic core of a small IoT relay:

- MQTT sensors publish batches of readings.
- A broker keeps per-client bookkeeping.
- A subscriber keeps per-topic and per-device statistics and classifies payloads.
- A bridge server folds `sensors/combined` batches into a dashboard snapshot and a device registry, then broadcasts them.
- A backend stores readings, either in a bounded in-memory buffer or through parameterised SQL.

There is one Dafny module per source file, plus shared helpers:

| module | file | models |
|---|---|---|
| `Js` | js.dfy | JSON values, JavaScript truthiness, `String()` on values, `parseFloat`, `Number.prototype.toFixed` on reals, `slice` with negative starts |
| `Seqs`, `OrderedMaps`, `Sorting` | seqs.dfy, ordered_maps.dfy, sorting.dfy | suffixes; a `Map` as a dictionary plus its insertion order; the stable sort behind `Array.prototype.sort` with a numeric comparator |
| `ReadingStore` | reading_store.dfy | `backend/timescaledb-simple.js` |
| `SqlQueries` | sql_queries.dfy | `backend/timescaledb.js` |
| `Network` | network.dfy | `getServerIPs` (`mqtt-broker.js`) and `getLocalIP` (`mqtt_subscriber.js`) |
| `Payloads`, `Subscriber` | payloads.dfy, subscriber.dfy | `mqtt_services/mqtt_subscriber.js` |
| `Broker` | broker.dfy | `mqtt_services/mqtt-broker.js` |
| `Bridge` | bridge.dfy | `mqtt_services/server.js` |

How the environment is represented:

- The clock is a parameter: milliseconds plus the ISO text that `new Date().toISOString()` would give.
- `os.networkInterfaces()` is a parameter.
- The `pg` pool is a function from a statement to its rows or a failure.
- `JSON.parse` is its result: `None` when it throws.
- The JavaScript runtime's number-to-text and text-to-number conversions sit in a `Runtime` value.
- Broadcasts (`io.emit`) are appended to an `emitted` trace.

## Model

| member | source | states |
|---|---|---|
| `Js.Get` | mqtt_services/server.js:178-207 | a property read yields a value exactly when the object has that own key, and then that key's value |
| `Js.ParseFloat` | mqtt_services/server.js:179 | `parseFloat` of a missing or `null` property is NaN, of a number is that number; it throws only on a value whose text conversion throws |
| `Js.Add` | mqtt_services/server.js:195 | a sum is finite exactly when both terms are, and is then their real sum |
| `Js.ToFixed` | mqtt_services/server.js:179 | `toFixed` yields a finite number exactly for a finite argument |
| `Js.ToFixedIsNearest` | mqtt_services/server.js:179 | `toFixed(d)` of a finite value lies within half a unit of the d-th decimal place of that value |
| `Js.ToFixedHasDecimals` | mqtt_services/server.js:179 | below 10^21 in magnitude, `toFixed(d)` yields a whole number of units of 10^-d, i.e. exactly d decimals |
| `ReadingStore.NewReading` | backend/timescaledb-simple.js:10-16 | the stored object has the fields of `data` plus the three identifying fields and `timestamp`; `data` overrides `device_id`, `device_type` and `location`; `timestamp` is always the insertion time |
| `ReadingStore.Compact` | backend/timescaledb-simple.js:19-21 | compaction keeps a suffix of the buffer (the newest entries, in order), exactly 500 entries when more than 1000 were held, otherwise all of them |
| `ReadingStore.OfType` | backend/timescaledb-simple.js:39-40 | the filter keeps only buffer entries whose `device_type` is the requested one |
| `ReadingStore.OfTypeKeepsAll` | backend/timescaledb-simple.js:39-40 | the filter keeps every occurrence of each reading of the requested type and drops every other reading (multiset completeness) |
| `ReadingStore.OfTypeAppend` | backend/timescaledb-simple.js:39-40 | filtering distributes over concatenation, so buffer order is kept |
| `ReadingStore.Matching` | backend/timescaledb-simple.js:46-51 | the filter keeps only buffer entries that pass the truthy `deviceId`/`deviceType` tests |
| `ReadingStore.MatchingKeepsAll` | backend/timescaledb-simple.js:46-51 | the filter keeps every occurrence of each reading that passes the tests and drops every other reading (multiset completeness) |
| `ReadingStore.MatchingAppend` | backend/timescaledb-simple.js:46-51 | filtering distributes over concatenation, so buffer order is kept |
| `ReadingStore.MatchingUnfiltered` | backend/timescaledb-simple.js:47-51 | with both filters empty, every reading matches, in order |
| `ReadingStore.MatchingByTypeIsOfType` | backend/timescaledb-simple.js:37-51 | filtering by type alone selects exactly what the by-type query filters |
| `ReadingStore.Store.constructor` | backend/timescaledb-simple.js:61 | the buffer starts empty |
| `ReadingStore.Store.InsertSensorReading` | backend/timescaledb-simple.js:8-27 | the buffer becomes the compacted old buffer plus the new reading; the reading is last and is the value returned; the buffer never holds more than 1001 entries, and always holds the newest 501 (or all) readings ever inserted |
| `ReadingStore.NewestRetained` | backend/timescaledb-simple.js:19-24 | any of the 501 newest readings ever inserted is still in the buffer |
| `ReadingStore.Store.GetDeviceSummary` | backend/timescaledb-simple.js:29-31 | the summary is the constant zero counts |
| `ReadingStore.Store.GetAllLatestReadings` | backend/timescaledb-simple.js:33-35 | the newest min(10, n) readings, in insertion order |
| `ReadingStore.Store.GetLatestReadingsByType` | backend/timescaledb-simple.js:37-42 | at most 10 readings, all of the requested type: the newest of that type, in insertion order |
| `ReadingStore.Store.GetSensorReadings` | backend/timescaledb-simple.js:44-53 | the newest `limit` matches (100 by default); `limit` 0 gives every match; a negative limit drops that many of the oldest matches; time bounds are ignored |
| `ReadingStore.Store.GetHourlyAverages` | backend/timescaledb-simple.js:55-57 | the in-memory variant returns no rows |
| `SqlQueries.RowsOrEmpty` | backend/timescaledb.js:53-59 | a failed query yields `[]`, a successful one its rows |
| `SqlQueries.Succeeded` | backend/timescaledb.js:37-44 | a pool call that throws makes the write's `catch` return `false`; a pool call that returns lets the write go on to its success log line |
| `SqlQueries.InsertSensorReading` | backend/timescaledb.js:32-45 | the insert sends its five arguments, `data` and `metadata` serialised, and reports success exactly when the pool returns rows and the success log line at :39 can print `deviceId` |
| `SqlQueries.GetLatestReadingsByType` | backend/timescaledb.js:48-60 | the query binds the type as `$1`; failure yields `[]` |
| `SqlQueries.GetAllLatestReadings` | backend/timescaledb.js:63-82 | the query has no parameters; failure yields `[]` |
| `SqlQueries.GetDeviceSummary` | backend/timescaledb.js:85-97 | the query has no parameters; failure yields `[]` |
| `SqlQueries.UpdateDeviceStatus` | backend/timescaledb.js:158-181 | the upsert sends its four arguments, `metadata` serialised, and reports success exactly when the pool returns rows and the log line at :175 can print `deviceId` and `status` |
| `SqlQueries.UnprintableIdFailsWrite` | backend/timescaledb.js:37-44 | a device id whose own `toString` is not callable makes both writes report failure even when the database accepts them |
| `SqlQueries.GetHourlyAverages` | backend/timescaledb.js:184-209 | the query binds type, start and end as `$1..$3`; failure yields `[]` |
| `SqlQueries.DecimalRoundTrip` | backend/timescaledb.js:118 | the decimal text of a placeholder number reads back as that number |
| `SqlQueries.ClausePrefixShape` | backend/timescaledb.js:128-138 | each filter clause starts with a space and ends at its `$` |
| `SqlQueries.ActiveFiltersMembers` | backend/timescaledb.js:116-138 | a filter clause is present exactly when its argument is truthy |
| `SqlQueries.ActiveFiltersRanked` | backend/timescaledb.js:116-138 | the clauses appear in the fixed order deviceId, deviceType, startTime, endTime |
| `SqlQueries.ParametersAreTruthyArguments` | backend/timescaledb.js:113-146 | the parameters are exactly the truthy filter arguments, in order, followed by the limit when it is truthy |
| `SqlQueries.StatementPlaceholders` | backend/timescaledb.js:113-146 | the placeholders in the text are `$1..$n` consecutively in text order, one per filter clause plus one for a truthy limit |
| `SqlQueries.SensorReadingsStatementSpec` | backend/timescaledb.js:100-146 | `params` is exactly the truthy arguments, the limit last, and the text's placeholders are `$1..$len(params)` in order, so the k-th placeholder binds the k-th parameter |
| `SqlQueries.NoFiltersDefaultLimit` | backend/timescaledb.js:100-146 | with no filters and the default limit, the parameters are exactly `[100]`, bound to `$1` |
| `SqlQueries.FalsyLimitHasNoLimit` | backend/timescaledb.js:140-146 | a falsy limit leaves `LIMIT` out; the text ends with `ORDER BY time DESC` after the filters |
| `SqlQueries.OrderByLimitPlaceholders` | backend/timescaledb.js:140-146 | `ORDER BY` carries no placeholder, and `LIMIT` carries the next one exactly when the limit is truthy |
| `SqlQueries.AddFilter` | backend/timescaledb.js:116-138 | one `if` of the builder appends the clause with the next placeholder and pushes the argument exactly when it is truthy |
| `SqlQueries.OrderAndLimit` | backend/timescaledb.js:140-146 | the builder's tail yields the specified statement |
| `SqlQueries.SensorReadingsCall` | backend/timescaledb.js:100-146 | the step-by-step builder yields exactly the specified statement |
| `SqlQueries.GetSensorReadings` | backend/timescaledb.js:100-155 | the builder's statement is sent to the pool; failure yields `[]`, success its rows |
| `Network.ExternalOfMembers` | mqtt_services/mqtt-broker.js:34-38 | an entry is listed for an interface exactly when one of its addresses is IPv4 and not internal |
| `Network.ExternalMembers` | mqtt_services/mqtt-broker.js:33-39 | an entry is listed exactly when its interface has that IPv4, non-internal address |
| `Network.GetServerIPs` | mqtt_services/mqtt-broker.js:29-42 | the nested loops return exactly the IPv4, non-internal addresses, interface by interface in enumeration order |
| `Network.FirstExternalSpec` | mqtt_services/mqtt_subscriber.js:17-27 | `'localhost'` when no address qualifies, otherwise a qualifying address |
| `Network.FirstFound` | mqtt_services/mqtt_subscriber.js:19-23 | the first qualifying address met in enumeration order is the answer |
| `Network.GetLocalIP` | mqtt_services/mqtt_subscriber.js:17-27 | the early-returning loop answers the first qualifying address, or `'localhost'` |
| `Payloads.NumericMatchesRegex` | mqtt_services/mqtt_subscriber.js:204 | the scanner accepts exactly the strings of `^\d+\.?\d*$` |
| `Payloads.NumericChars` | mqtt_services/mqtt_subscriber.js:204 | a numeric payload holds only digits and dots |
| `Payloads.BooleanStartsWithLetter` | mqtt_services/mqtt_subscriber.js:206 | a boolean payload is at least 4 characters long and starts with a letter |
| `Payloads.RawPatternsDisjoint` | mqtt_services/mqtt_subscriber.js:204-212 | the three patterns accept disjoint sets of payloads |
| `Payloads.ClassifyExact` | mqtt_services/mqtt_subscriber.js:204-212 | the raw payload is Numeric, Boolean, Timestamp or Text exactly when it matches that pattern (and, for Text, none of them) |
| `Payloads.DispatchCases` | mqtt_services/mqtt_subscriber.js:105-213 | a device reading exactly for parsed JSON with truthy `deviceId` and `deviceType` whose log lines print, keyed `deviceType:deviceId`; publisher status, generic JSON and raw outcomes each under their exact conditions; raw payloads classified |
| `Payloads.DeviceKeyCollides` | mqtt_services/mqtt_subscriber.js:155 | two different devices can share one statistics key |
| `Subscriber.Subscriber.constructor` | mqtt_services/mqtt_subscriber.js:41-44 | the counters and tables start empty |
| `Subscriber.Subscriber.HandleMessage` | mqtt_services/mqtt_subscriber.js:86-216 | every message adds 1 to `messageCount` and to its topic's count, keeping the topic counts summing to `messageCount`; only a device reading touches `deviceStats`, and then only its key's entry; `firstSeen <= lastSeen <= now` is kept under a monotone clock |
| `Subscriber.Subscriber.CountMessage` | mqtt_services/mqtt_subscriber.js:87-96 | `messageCount` and the topic's entry advance by one; the entry is created with count 0 and `firstSeen` on first sight, and `lastSeen` is refreshed |
| `Subscriber.Subscriber.CountReading` | mqtt_services/mqtt_subscriber.js:155-168 | the device entry is created with count 0 on first sight, then incremented and its `lastSeen` refreshed |
| `Subscriber.CountTopic` | mqtt_services/mqtt_subscriber.js:91-96 | the topic table gains exactly the updated entry, in first-seen order |
| `Subscriber.TopicSumStep` | mqtt_services/mqtt_subscriber.js:87-96 | one message adds exactly one to the sum of the topic counts |
| `Subscriber.TopicCountStep` | mqtt_services/mqtt_subscriber.js:91-96 | each topic's count equals the number of messages received on it |
| `Subscriber.TopicTableStep` | mqtt_services/mqtt_subscriber.js:87-96 | the topic table stays consistent with the messages received |
| `Subscriber.DeviceTableStep` | mqtt_services/mqtt_subscriber.js:155-168 | the device table stays consistent with the readings counted, each entry keyed by its own type and id |
| `Subscriber.DeviceTypeSummary` | mqtt_services/mqtt_subscriber.js:278-287 | the `forEach` builds, per device type, the number of devices of that type and the sum of their message counts, and lists exactly the types that occur |
| `Subscriber.CountType` | mqtt_services/mqtt_subscriber.js:279-286 | one device adds one to its type's device count and its own count to the type's message count |
| `Subscriber.TypeSummarySpec` | mqtt_services/mqtt_subscriber.js:278-287 | a type is listed exactly when some device has it; its `devices` is how many do, and its `count` is the sum of their counts |
| `Subscriber.TypeSummaryExact` | mqtt_services/mqtt_subscriber.js:278-287 | the same, for every type at once |
| `Subscriber.TypeDevicesTotal` | mqtt_services/mqtt_subscriber.js:278-287 | the per-type device counts add up to the number of devices |
| `Subscriber.TypeMessagesTotal` | mqtt_services/mqtt_subscriber.js:278-287 | the per-type message counts add up to the device messages counted |
| `Subscriber.TopTopicsSpec` | mqtt_services/mqtt_subscriber.js:265-267 | the top-N list has min(N, topics) entries of the table, by count descending, and no topic left out has more messages than one listed; the list is a sub-multiset of the table's entries and names each topic at most once (N is 5, and 10 at shutdown at 342-344) |
| `Subscriber.ActivityThresholds` | mqtt_services/mqtt_subscriber.js:310-313 | Active under 60 whole seconds since the last message, Quiet under 300, otherwise Inactive |
| `Subscriber.ElapsedMonotone` | mqtt_services/mqtt_subscriber.js:310 | a later last-seen time never gives more elapsed seconds |
| `Subscriber.DeviceReportSpec` | mqtt_services/mqtt_subscriber.js:306-318 | the report has one line per device and each line is its own device's entry (key, label, seconds since, seconds active, count, type, id, location); lines are ordered by `lastSeen` in milliseconds, most recent first, so the seconds since the last message and the staleness label never decrease down the list |
| `Subscriber.DeviceReportLines` | mqtt_services/mqtt_subscriber.js:309-318 | every line prints the entry of the device it names, and there are as many lines as devices |
| `Subscriber.DeviceReportKeys` | mqtt_services/mqtt_subscriber.js:306-309 | every device of the table has a line, and no device has two |
| `Subscriber.DeviceReportOrder` | mqtt_services/mqtt_subscriber.js:306-307 | down the report `lastSeen` never grows, nor do the whole seconds since it or the staleness |
| `Subscriber.ReportRankings` | mqtt_services/mqtt_subscriber.js:265-267 | the 30-second report ranks min(5, topics) topics and the shutdown summary (342-344) min(10, topics); the first is the head of the second |
| `Sorting.SortDescendingSpec` | mqtt_services/mqtt_subscriber.js:265-266 | the sort orders by key descending, is a permutation, and is stable |
| `Sorting.TopNSpec` | mqtt_services/mqtt_subscriber.js:265-267 | sort then `slice(0, n)` keeps min(n, len) entries, descending, each from the input |
| `Sorting.TopNLeftOut` | mqtt_services/mqtt_subscriber.js:265-267 | an entry cut by the slice has a key no greater than any kept one |
| `Broker.ClientIP` | mqtt_services/mqtt-broker.js:46 | `'unknown'` exactly when the remote address is missing or falsy, otherwise that address |
| `Broker.ConnectKeepsTable` | mqtt_services/mqtt-broker.js:49-55 | storing an entry keeps the table keyed by id, and the total changes by the new entry's count minus that of the entry it replaces |
| `Broker.Broker.constructor` | mqtt_services/mqtt-broker.js:20 | `connectedClients` starts empty |
| `Broker.Broker.OnClient` | mqtt_services/mqtt-broker.js:45-62 | a connect stores an entry with `messageCount` 0 under the client id, replacing any previous one, and the total loses that entry's count |
| `Broker.Broker.OnClientDisconnect` | mqtt_services/mqtt-broker.js:64-74 | a disconnect removes that id's entry, leaves the others unchanged, and loses its messages from the total and its id from the clients served |
| `Broker.Broker.OnPublish` | mqtt_services/mqtt-broker.js:92-126 | a `$SYS/` topic, no client or an unknown id change nothing; otherwise exactly that entry's count goes up by one, as does the total |
| `Broker.Authenticate` | mqtt_services/mqtt-broker.js:138-145 | every connection is accepted |
| `Broker.AuthorizePublish` | mqtt_services/mqtt-broker.js:148-152 | every publication is allowed |
| `Broker.AuthorizeSubscribe` | mqtt_services/mqtt-broker.js:154-158 | every subscription is allowed, unchanged |
| `Bridge.AllOperationalCount` | mqtt_services/server.js:109-145 | when every device is operational, the count is the category size |
| `Bridge.AllOfflineCount` | mqtt_services/server.js:51-92 | when every device is offline, the count is 0 |
| `Bridge.ActivatedSpec` | mqtt_services/server.js:109-145 | activating a category keeps `active` equal to its operational devices and `total` to its size; every device becomes operational with its id kept and reading `base + index × offset` (NaN stays NaN) |
| `Bridge.Category.constructor` | mqtt_services/server.js:51-92 | a category starts with its ids, all offline with reading 0, `active` 0 |
| `Bridge.Category.Activate` | mqtt_services/server.js:111-144 | the `forEach` over the array performs exactly the activation and keeps the category consistent |
| `Bridge.MeanOfProbes` | mqtt_services/server.js:194-205 | the average of one probe is its value, of two their midpoint (NaN if either is) |
| `Bridge.PowerConversion` | mqtt_services/server.js:178-181 | `powerConsumption` is the meter's watts in kW to within 0.005, with two decimals below 10^21 kW |
| `Bridge.FlowConversion` | mqtt_services/server.js:184-187 | `flowRate` is the probe's L/min in L/h to within 0.05, with one decimal below 10^21 L/h |
| `Bridge.StatusAfterSpec` | mqtt_services/server.js:109-145 | a status update keeps every category consistent and never takes a device back offline |
| `Bridge.HandleKeepsRegistry` | mqtt_services/server.js:166-235 | every message keeps all categories consistent and never resets a device to offline or a set flow rate to `'--'`; the registry changes only for a `sensors/combined` batch with `devices` whose probe reads all succeed |
| `Bridge.HandleEvents` | mqtt_services/server.js:166-235 | a message broadcasts exactly when it is such a batch: `deviceData`, `deviceStatus`, `mqttSensorData`, then `activityLog` exactly when `flowRate` is set; any other topic, a missing `devices` or bad JSON changes nothing |
| `Bridge.Bridge.constructor` | mqtt_services/server.js:30-92 | the snapshot starts all `'--'` with `lastUpdate` null; the registry is seeded with FR001–FR003, ORP001–ORP006, PH001–PH006 and PM001 (totals 3/6/6/1), every device `offline` with reading 0 and every category inactive; nothing emitted |
| `Bridge.Bridge.HandleMessage` | mqtt_services/server.js:166-235 | the handler leaves the snapshot, the registry and the broadcast trace exactly as `Handle` specifies, and keeps every category consistent |
| `Bridge.Bridge.ReadProbes` | mqtt_services/server.js:177-207 | the probe statements update only the readings whose sources are present, in order, until one throws |
| `Bridge.Bridge.PushProbes` | mqtt_services/server.js:190-192 | each present probe pushes its parsed value, stopping at the first read that throws |
| `Bridge.Bridge.CompleteBatch` | mqtt_services/server.js:209-225 | `lastUpdate` becomes `data.timestamp` when truthy, else now; the registry is updated; the four broadcasts follow in order |
| `Bridge.Bridge.UpdateDeviceStatus` | mqtt_services/server.js:109-145 | the registry becomes `StatusAfter` and stays consistent |
| `Bridge.Bridge.UpdateMeters` | mqtt_services/server.js:110-126 | the power meter and flow categories are activated exactly when their sources are present |
| `Bridge.Bridge.UpdateProbes` | mqtt_services/server.js:128-144 | the ORP and pH categories are activated exactly when a probe of theirs was read |
| `Bridge.Bridge.EmitActivityLog` | mqtt_services/server.js:148-163 | no log entry while `flowRate` is `'--'`, otherwise one with the four readings and the time |
| `Bridge.Bridge.OnConnection` | mqtt_services/server.js:254-261 | a new socket receives `deviceData` then `deviceStatus` |
| `Bridge.Bridge.OnRequestDeviceStatus` | mqtt_services/server.js:266-268 | a status request receives the current `deviceStatus` |
| `Bridge.EndpointsAgree` | mqtt_services/server.js:272-314 | each per-sensor endpoint reports its own sensor's reading, device category and unit from `/api/devices` (flow rate, ORP, pH, power with L/h, mV, pH, kW), with `lastUpdate` as its timestamp; no two sensors share a unit |

## Left out

- Console output and log texts are not modelled: every `console.log`/`console.error` line, the uptime and msg/sec rates, and the broker's 30-second printout. A log line matters only where evaluating it can throw, and that is modelled.
- Timers, signal handlers, `process.exit`, the express routing, the socket.io and MQTT transports, and the aedes protocol handling are not modelled. Their effects come in as method calls or parameters.
- The 30-second and 60-second report guards (`client.connected`, non-empty tables) are not modelled; only the report contents are.
- Wall-clock time comes in as parameters, one clock value per handler call. The source reads the clock several times within one handler; the model assumes those reads agree.
- Numbers are reals with an explicit NaN, not IEEE doubles. `toFixed` rounds exactly, half away from zero, and keeps magnitudes of 1e21 and above unrounded. The model keeps the result as a number, not as its text.
- `Bridge.Bridge.HandleMessage`: stores `toFixed` results as numbers and reads them back unchanged, which the source does through text and `parseFloat`.
- `JSON.parse` is a parameter, and the payload text is given independently of it. The model does not relate a message's bytes to its parse.
- `String()` on values, and `parseFloat` on text, come from the `Runtime` parameter, so the contracts hold for any conversion.
- The `pg` pool is a function. Whatever the database does with a statement is outside the model.
- The backend's `backend/server.js`, the random publishers, the test client and the front end are not part of this model: they hold no deterministic state beyond what is modelled here.
- The MQTT wildcard subscriptions and QoS handling are not modelled: messages arrive as (topic, payload) calls.
- `Broker.Broker.OnClient` logs `Object.keys(aedes.clients).length`, which is aedes's count rather than `connectedClients.size`; only `connectedClients` is modelled.
- The broker's `clientError`, `connectionError`, `subscribe` and `unsubscribe` handlers only log, so they are not modelled.
- `ReadingStore.Store.GetSensorReadings` takes `limit` as an integer or absent; non-integer and non-numeric limits are not modelled.
- `Bridge.PowerStep` is 0.0: "no offset" for the one power meter is written as an offset of zero, which gives the same readings.
- Unicode normalisation and JavaScript's UTF-16 string details are not modelled: strings are sequences of characters.
