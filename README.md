# sysevent: a verified model of collectd's syslog-to-event bridge

This project models the core of collectd's `sysevent` plugin
(`src/sysevent.c`). The plugin receives rsyslog datagrams on a UDP socket in a
producer thread and stores each one, with its arrival time, in a fixed-size
ring buffer. On every read interval it drains the ring. Each drained message is
decoded as JSON where possible and passed through an optional regular-expression
filter. Each message that passes becomes a notification whose metadata is a
"ves" event header with a nested "syslogFields" object.

The model is split by concern:

- `ring.dfy` (module `RingBuffer`): the `circbuf_t` ring as a class over two
  arrays, its abstraction to a FIFO queue (`Window`), and the abstract effect
  of pushes (`Pushed`, `PushedAll`).
- `classify.dfy` (module `Classify`): the severity-to-priority table, the
  priority labels, and the notification severity. The severities are those of
  section 6.2.1 of RFC 5424.
- `payload.dfy` (module `Payload`): `gen_metadata_payload` as a chain of
  metadata calls, any of which may fail. It comes in two forms: the corrected
  chain `Build` and the chain as written, `BuildAsWritten`.
- `config.dfy` (module `Config`): the option handlers and `sysevent_config`.
- `lifecycle.dfy` (module `Lifecycle`): the thread flags and what
  `start_thread`, `stop_thread`, a receive failure and the read-time restart
  do to them.
- `collector.dfy` (module `Collector`): the per-entry decisions of
  `sysevent_read` and `sysevent_dispatch_notification`, as functions over a
  drained batch.
- `sysevent.dfy` (module `Sysevent`): the plugin state as a class (`Plugin`)
  that owns the ring, the event counter and the flags, and whose methods are
  the producer step, init, the thread control and the read callback. Each
  method is proved against the functions above.

The environment is passed in as parameters:

- the JSON parser
- the regular-expression filter (`ignored(s)` means `ignorelist_match` returned
  non-zero)
- `atoi`
- the host name
- which metadata calls fail
- whether the thread could be created, joined or cancelled
- whether the socket could be set up
- the clock reading at each push

Where the plugin's documented behaviour and its code disagree, the model
follows the code, with one exception: the two defects listed under
"## Findings". `Payload.BuildAsWritten` builds the metadata as the code does,
with truncated priority labels and the two appends that lack `goto err`. The
rest of the plugin (`Collector.Handle`, `Collector.Collect` and the methods of
`Sysevent.Plugin`) builds its payloads with the corrected chain,
`Payload.Build`. The other differences are these:

- **Oversized datagrams.** A datagram that fills the whole receive buffer is
  dropped, even though its warning says "truncated". The receive buffer and the
  ring slots have the same size, so a stored text always fits with its NUL.
  `Sysevent.Plugin.Valid` keeps this as an invariant: no truncation ever
  happens.
- **Event ids.** `event_id` is incremented once the "domain" append succeeds,
  not once per emitted event. A notification whose payload failed before that
  point takes no id. A payload that failed after it still consumes one.
- **Failed payloads.** The notification is dispatched even when
  `gen_metadata_payload` fails, because its return value is ignored.
- **Invalid regular expression.** An invalid `RegexFilter` pattern returns 1,
  not -1. `sysevent_config` ignores every handler status and always returns 0.
- **Host fields.** The notification's host is always the local host name.
  "@source_host" only feeds "eventName" and "eventSourceHost".

## Model

| member | source | states |
|---|---|---|
| RingBuffer.Window | src/sysevent.c:96-102 | the queue held by the ring is the slots from `tail` up to `head`, oldest first, and never holds as many entries as there are slots |
| RingBuffer.FullIffCount | src/sysevent.c:345-349 | `next(head) == tail` (the "ring buffer full" test) holds exactly when the ring holds `maxLen - 1` entries |
| RingBuffer.WindowPush | src/sysevent.c:353-357 | writing slot `head` and advancing it appends exactly the new entry at the back of the queue |
| RingBuffer.WindowPop | src/sysevent.c:778-781 | advancing `tail` over a non-empty ring removes exactly the oldest entry |
| RingBuffer.Pushed | src/sysevent.c:345-358 | a push never changes what is stored; it adds its entry at the back exactly when fewer than `n - 1` entries are stored, so the queue never exceeds `n - 1` entries |
| RingBuffer.PushedAllKeepsOldest | src/sysevent.c:345-358 | under overload the pushes that fit are kept in arrival order and every later push is dropped without disturbing what is stored |
| RingBuffer.PushedAllIntoEmpty | src/sysevent.c:345-358 | FIFO: up to `maxLen - 1` pushes into an empty ring come back in push order; beyond that only the first `maxLen - 1` survive |
| RingBuffer.Ring.constructor | src/sysevent.c:475-485 | a new ring has `maxLen` slots, `head == tail == 0` and holds nothing |
| RingBuffer.Ring.Push | src/sysevent.c:345-358 | a push is accepted exactly when the ring is not full; if accepted, the entry is appended; otherwise nothing changes |
| RingBuffer.Ring.TakeOldest | src/sysevent.c:776-786 | taking from a non-empty ring returns its oldest entry and leaves the rest in order |
| RingBuffer.Ring.DrainAll | src/sysevent.c:774-861 | the drain returns every stored entry oldest first and leaves the ring empty (`head == tail`) |
| Classify.SeverityOfCode | src/sysevent.c:194-212 | exactly the codes 0 to 7 name an RFC 5424 severity, and the severity's code is the input |
| Classify.SeverityCodeRoundTrip | src/sysevent.c:194-212 | every RFC 5424 severity reads back from its code |
| Classify.PriorityBySeverity | src/sysevent.c:194-212 | warning is medium, notice normal, informational and debug low; everything else, including no severity, is unknown |
| Classify.PriorityClasses | src/sysevent.c:194-212 | each class is an if-and-only-if on the numeric severity: 4 medium, 5 normal, 6 or 7 low, every other integer unknown |
| Classify.PriorityOf | src/sysevent.c:194-213 | a numeric severity gets a class other than unknown exactly when it is an RFC 5424 code of warning or a less severe level (4 to 7) |
| Classify.PriorityLabel | src/sysevent.c:66-69 | the intended labels "medium", "normal", "low", "unknown" tell the classes apart: each reads back to its class |
| Classify.Snprintf | src/sysevent.c:196-197 | `snprintf` writes a prefix of the string: the whole string when it is shorter than the size bound, otherwise exactly its first `size - 1` characters, and nothing when the size is 0 |
| Classify.PriorityLabelAsWrittenTruncates | src/sysevent.c:194-212 | with the bound `strlen(label)`, every label loses its last character ("mediu") and none reads back as a class |
| Classify.NotificationSeverity | src/sysevent.c:671-683 | the notification is FAILURE exactly when "severity-num" is present and its `atoi` value is below 4 |
| Classify.SeverityNumber | src/sysevent.c:671-683 | the numeric severity is the `atoi` of the field, or -1 when the field is absent |
| Classify.FailureIsUnknownPriority | src/sysevent.c:679-683 | a FAILURE notification always carries the unknown priority; a present severity that stays OKAY is at least 4 |
| Payload.BuildSpec | src/sysevent.c:135-311 | the header and fields are prefixes of the complete lists in order; the payload succeeds exactly when none of the calls made for these arguments (`AttemptedSteps`, "syslogSev" only when a severity text is given) fails, and is then complete; an event id is taken exactly when the first three calls succeed |
| Payload.BuildTracks | src/sysevent.c:135-311 | the whole intended chain has made every call of `AttemptedSteps`, holds a prefix of the complete header and fields, and is ok exactly when none of those calls failed |
| Payload.Build | src/sysevent.c:135-311 | the intended chain: every append in order, each ending the chain on failure (its contract is `Payload.BuildSpec`) |
| Payload.BuildAsWritten | src/sysevent.c:135-311 | the chain as written: the truncated "priority" label and the two appends without `goto err` (its contract is in the lemmas below) |
| Payload.HeadAsWrittenTracks | src/sysevent.c:143-217 | as written, the calls up to "priority" behave like the intended ones, except that "priority" holds the truncated label |
| Payload.BuildAsWrittenDropsFields | src/sysevent.c:194-238 | as written, a payload with no failures has "priority" with the truncated label and lacks "sequence" and "startEpochMicrosec", so it differs from the intended header |
| Payload.AppendsTrack | src/sysevent.c:162-217 | a run of appends that each `goto err` on failure extends the metadata by exactly its entries while every one succeeds, stops at the first failure and never touches the event id |
| Payload.OpeningTracks | src/sysevent.c:143-167 | creating "ves", acquiring it and appending "domain" succeed or fail together with those three calls, and the event id is taken exactly when they all succeed |
| Payload.AsWrittenSkipsReportingEntity | src/sysevent.c:219-238 | as written, a failing "reportingEntityName" append lets the chain run on to completion |
| Payload.BuildAsWrittenHidesFailure | src/sysevent.c:219-238 | as written, a failing "reportingEntityName" append is not reported, while the intended chain fails |
| Config.AddBufferSize | src/sysevent.c:544-559 | `BufferSize` is accepted (status 0) exactly for an integer in [1024, 65535]; otherwise -1 and nothing changes |
| Config.AddBufferLength | src/sysevent.c:561-575 | `BufferLength` is accepted exactly for an integer in [3, 4096]; otherwise -1 and nothing changes |
| Config.AddRegexFilter | src/sysevent.c:577-605 | a malformed option gives -1 and an invalid pattern gives 1, neither changing anything; a valid pattern is appended and turns off monitoring of all messages |
| Config.DefaultValid | src/sysevent.c:119-122 | the initial settings (4096, 10, monitor all) are in range |
| Config.HandlersPreserveValid | src/sysevent.c:544-605 | no option handler can put the settings out of range, or out of step with the filtering mode |
| Config.ApplyItems | src/sysevent.c:607-626 | the settings after each child is handed to its handler in order, statuses ignored, unknown keys and `Listen` changing nothing (specified by the four lemmas below) |
| Config.ApplyItemsValid | src/sysevent.c:544-626 | from valid settings, any sequence of options leaves them in range, with all messages monitored exactly when they were before and no valid pattern was accepted |
| Config.ApplyItemsLength | src/sysevent.c:561-626 | the last accepted `BufferLength` decides the number of ring slots; with none accepted the number is unchanged |
| Config.ApplyItemsSize | src/sysevent.c:544-626 | the last accepted `BufferSize` decides the buffer size; with none accepted the size is unchanged |
| Config.ApplyItemsPatterns | src/sysevent.c:577-626 | the filter patterns are those held before together with every accepted pattern, and no other |
| Config.ConfigureScenario | src/sysevent.c:561-626 | `BufferLength 5`, an invalid pattern and an out-of-range `BufferLength 2` leave 5 slots, the default size, no pattern and all messages monitored |
| Config.Configure | src/sysevent.c:607-626 | the loop leaves exactly the settings of `ApplyItems` from the defaults, which are in range, with all messages monitored exactly when no valid pattern was given |
| Lifecycle.Start | src/sysevent.c:383-411 | when the thread is already marked running, a start does nothing and returns 0; otherwise it resets both flags, and fails with -1, leaving the loop flag clear, exactly when creation fails |
| Lifecycle.Stop | src/sysevent.c:413-464 | stopping a stopped thread returns -1 and changes nothing; otherwise both flags are cleared and 0 is returned exactly when join or cancel succeeded |
| Lifecycle.Fault | src/sysevent.c:367-370 | a receive failure raises the error flag and leaves the loop flag as it was |
| Lifecycle.Restart | src/sysevent.c:744-754 | the restart always clears the error flag, and marks the thread running exactly when it was recreated |
| Lifecycle.TransitionsKeepConsistent | src/sysevent.c:365-411 | the error flag is only ever set while the loop flag is set, through start, stop and receive failure |
| Lifecycle.RestartStopsRunningThread | src/sysevent.c:744-754 | under that invariant, the restart's stop always finds a running thread, so its status is the join's |
| Lifecycle.StartIdempotent | src/sysevent.c:389-392 | a start after a successful start changes nothing and returns 0 |
| Collector.FilterSubject | src/sysevent.c:800-826 | no subject when all messages are monitored; otherwise "@message" of a JSON entry, and the raw text of any other |
| Collector.RouteOf | src/sysevent.c:828-850 | an entry is skipped exactly when it has a filter subject that the filter ignores; the parsed path carries the parsed entry, and the raw path is taken only for text that is not JSON |
| Collector.RouteDecision | src/sysevent.c:828-858 | with no filter every entry is dispatched; otherwise an entry is dropped exactly when the filter rejects its subject; JSON entries that pass take the parsed path |
| Collector.ArgsOf | src/sysevent.c:640-726 | a parsed entry hands its fields to the payload, with -1 for a missing severity number and the local host name for a missing "@source_host"; a raw entry hands only its text |
| Collector.SeverityOfRoute | src/sysevent.c:671-683 | a raw entry is OKAY; a notification is FAILURE exactly when it was parsed and carries a "severity-num" whose `atoi` value is below 4 |
| Collector.SeverityAndPriority | src/sysevent.c:679-726 | raw entries are OKAY with unknown priority, and a FAILURE notification always has unknown priority |
| Collector.Handle | src/sysevent.c:776-861 | an entry yields a notification exactly when it is not skipped; the notification's host is the local host name; the counter moves by one exactly when the notification took an id |
| Collector.Collect | src/sysevent.c:774-862 | a batch gives at most one notification per entry, and the event counter grows by at most one per notification |
| Collector.CollectMonitorAll | src/sysevent.c:815-836 | with no filter configured, every drained entry yields a notification |
| Collector.HandleTakesNextId | src/sysevent.c:166-168 | one entry takes at most the next event id, and the counter moves exactly when it does |
| Collector.IdsExtend | src/sysevent.c:166-168 | ids that run `id + 1` up to the counter stay consecutive when one more notification takes the next id, or none |
| Collector.CollectIdsConsecutive | src/sysevent.c:166-168 | across a batch the event ids taken are `id + 1`, `id + 2`, ... in order, with no reuse and no gap |
| Collector.DiskFullScenario | src/sysevent.c:640-726 | with the intended chain, a JSON message "disk full" with "severity-num" "4" gives one OKAY notification with priority "medium" and that message |
| Collector.RawTextScenario | src/sysevent.c:713-720 | a non-JSON message gives one notification whose syslog fields hold the raw text, a NULL process and no severity |
| Sysevent.CString | src/sysevent.c:354 | the stored text is the received bytes up to their first NUL |
| Sysevent.Plugin.constructor | src/sysevent.c:475-485 | the plugin starts with an empty ring of `BufferLength` slots, counter 0 and both flags clear |
| Sysevent.Plugin.Init | src/sysevent.c:466-525 | a socket that cannot be set up gives -1 without starting the thread; otherwise the result is that of starting it |
| Sysevent.Plugin.StartThread | src/sysevent.c:383-411 | the new flags and status are those of `Lifecycle.Start` |
| Sysevent.Plugin.StopThread | src/sysevent.c:413-464 | the new flags and status are those of `Lifecycle.Stop` |
| Sysevent.Plugin.ProducerIteration | src/sysevent.c:317-375 | it runs only while the error flag is clear; a cleared loop flag ends the loop; a receive error raises the error flag and ends it; a datagram that fills the buffer is dropped; any other is pushed as in `Ring.Push`; stored texts always fit a slot |
| Sysevent.Plugin.GenMetadataPayload | src/sysevent.c:135-311 | the payload is the intended chain with the counter's next value, and the counter advances exactly when the payload took that id |
| Sysevent.Plugin.DispatchNotification | src/sysevent.c:628-740 | the notification has the route's severity, the local host name and the payload built from the entry's arguments, whatever the payload's outcome |
| Sysevent.Plugin.HandleEntry | src/sysevent.c:776-861 | one pass of the drain loop does what `Collector.Handle` says for that entry |
| Sysevent.Plugin.HandleBatch | src/sysevent.c:774-862 | the drain loop's notifications and the final counter are those of `Collector.Collect` over the batch |
| Sysevent.Plugin.Read | src/sysevent.c:742-881 | with the error flag set: restart, -1, nothing drained; otherwise 0, the ring emptied, and the notifications of the whole stored batch in arrival order |
| Sysevent.ThreeSlotScenario | src/sysevent.c:345-358 | with three slots and five datagrams, the first two are accepted, the other three are reported full, and a drain gives back the first two |

## Left out

- Sockets: resolving, opening and binding the socket, and `recvfrom`, are inputs (`socketReady`, `Received`). The producer's early exit when the socket is closed is not modelled.
- Threads and the mutex: each method is one critical section, taken as atomic. `usleep` and the thread's own scheduling are not modelled. Neither is the cancel-versus-join distinction, beyond which outcome the caller passes in.
- `Sysevent.Plugin.Read`: the drain is modelled as `DrainAll` followed by handling the batch. This is equivalent to the source's interleaving, because handling never touches the ring and the lock is held throughout.
- JSON decoding (yajl), `atoi`, the regular-expression engine and the ignorelist's inverted matching (`utils_ignorelist.c`) are not part of this model. They enter as functions of `Collector.Env`. Builds without yajl or without regex support are not modelled.
- `Collector.RouteOf`: for a JSON entry with a filter configured, the code copies "@message" into `json_val`. That is a variable-length array local to the block at src/sysevent.c:800-812. The code then points `match_str` at it, and `ignorelist_match` reads it at line 832, after its lifetime has ended, which is undefined behaviour. The model assumes the "@message" text is still intact when it is matched.
- `Collector.FilterSubject`: when a filter is configured and a JSON entry has no "@message", the source passes a NULL string to `snprintf`, which is undefined. The model uses the empty string there.
- Fixed-size copies of decoded fields: the `snprintf` into `listen_buffer_size` buffers and into `DATA_MAX_NAME_LEN` (the "eventName" text) are not modelled. The values are kept whole.
- `Classify.NotificationSeverity`: the notification's time, plugin name and type strings are not modelled.
- `Sysevent.Plugin.GenMetadataPayload` builds the corrected payload (`Payload.Build`). The code writes "priority" with its last character cut off and, when no call fails, leaves out "sequence" and "startEpochMicrosec". That payload is `Payload.BuildAsWritten`, described by `Payload.BuildAsWrittenDropsFields`.
- `Sysevent.Plugin.DispatchNotification`, `Sysevent.Plugin.HandleEntry`, `Sysevent.Plugin.HandleBatch` and `Sysevent.Plugin.Read` dispatch notifications carrying that corrected payload, not the one the code builds.
- `Collector.Handle` and `Collector.Collect` use the corrected payload, for the same reason.
- `Collector.DiskFullScenario` states the corrected priority "medium". The code writes "mediu" (`Classify.PriorityLabelAsWrittenTruncates`).
- `Payload.BuildSpec`: "lastEpochMicrosec" is a clock reading, represented by the constant `Clock`.
- `event_id` is a C `int`. Its overflow after 2^31 - 1 events is not modelled, and the counter is unbounded.
- Timestamps are unbounded integers. The 64-bit microsecond clock and its conversion are not modelled.
- Profiling and logging: the `before`/`after` timings, `profile_scale` and every log message are left out, because they do not change state that the model tracks.
- `sysevent_shutdown`, `module_register` and `Listen` (address storage) are left out. They touch nothing the model tracks. `Listen` is an `Other` item in `Config.Configure`.
- Freeing memory (`plugin_notification_meta_free`, `yajl_tree_free`) is not modelled.

## Findings

| source | as written | input that shows it | evidently intended | confidence | as-written member | corrected member |
|---|---|---|---|---|---|---|
| src/sysevent.c:194-212 | each priority label is written with `snprintf` bound `strlen(label)`, which drops its last character | a severity number of 4 gives the priority "mediu" | the bound is the buffer size, so the label is "medium" | high; not executed | Classify.PriorityLabelAsWrittenTruncates | Classify.PriorityLabel |
| src/sysevent.c:219-238 | the "reportingEntityName" and "sourceName" appends lack `goto err`, so the next append runs only when they fail | a payload with no failing call has no "sequence" and no "startEpochMicrosec" entries | every append runs in order and a failure aborts the chain | high; not executed | Payload.BuildAsWrittenDropsFields | Payload.BuildSpec |
