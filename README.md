# heka-docker attacher, modelled in Dafny

This project models the attachment core of heka-docker (`attacher.go`, itself based on Logspout).
That core has three parts:

- **The attach manager.** It keeps a registry from short container IDs to log pumps, and a set of lifecycle-event subscriber channels. It registers a pump when an attach succeeds and drops it when the stream ends cleanly, and it broadcasts `attach`/`detach` events.
- **The log pump.** Each attached container has one. It cuts its stdout and stderr byte streams into newline-delimited `Log` records and broadcasts every record to its registered log channels.
- **The `Listen` subscription.** It registers an event channel with the manager. It selects over that channel and a closer signal. It adds the caller's log channel to the pump of every matching `attach` event, and on return it undoes every registration it made.

Concurrency is abstracted away:

- Each locked section is one atomic step.
- A channel is a value handle (`EventChan`, `LogChan`).
- A channel send is recorded as a `Delivery(ch, msg)`.
- What a blocking receive would deliver is given as a finite input sequence.

Modules:

- `Types`: the records `AttachEvent`, `Log` and `Source`, the channel handles, and the runtime event.
- `GoStrings`: `strings.HasPrefix` and `strings.Contains`, each proved equal to an occurrence-based definition.
- `Fanout`: the `for ch := range channels { ch <- msg }` loop shared by both `send` methods. It is proved to deliver exactly once to each registered channel.
- `Filter`: `Source.All`, the attach-match condition and the detach-termination condition of `Listen`, and the rules they obey.
- `Lines`: `ReadBytes('\n')`, `TrimSuffix(…, "\n")` and the record sequence the pump loop emits, with framing, round-trip and inverse lemmas.
- `Pump`: the `LogPump` class, with its listener set as a `set<LogChan>` field.
- `Subscription`: `Listen`'s select loop as a pure state machine (`RunListen`) over a sequence of `Input`s, with lemmas about where it stops and what it registers.
- `Manager`: short IDs and names, the startup discovery, and the `AttachManager` class. The class has maps and sets changed in place, and `Listen` is proved against `RunListen`.

Choices made where the Go program does something a sequential model cannot express directly, or where the code does not do what it evidently means to do:

- **Nil pump.** If `Get` returns nil for a matching attach event, Go faults at `pump.AddListener` (attacher.go:178), before the nil check at line 180. During the panic, every deferred cleanup registered so far still runs. The model has no precondition here. It ends the call with `Faulted` and still performs that cleanup.
- **Inputs run out.** If the input sequence ends with no closer and no terminating detach, the Go call would stay blocked in `select`. The model returns `Blocked` with both registrations still in place and nothing cleaned up.
- **Stream ended by error.** The code evidently means every stream end to broadcast `detach`: the send at attacher.go:115 comes after the error branch. On an error, though, the goroutine first closes `success` and then blocks for ever on `failure <- err` (attacher.go:111-114), because nothing ever receives from `failure`. So neither the broadcast at line 115 nor the delete at lines 116-118 happens. `StreamEnded` follows the code: with `failed` set, it changes nothing.
- **Log data.** A `Log`'s `data` is the line's bytes (`seq<byte>`). Converting bytes to a Go `string` does not change them. IDs, names and filters are Dafny `string`s, that is, sequences of characters rather than of bytes (see "## Left out").

## Model

| member | source | states |
|---|---|---|
| `Filter.All` | attacher.go:55-57 | Definition: a source is match-all exactly when its ID, name and filter are all empty. |
| `Filter.AttachMatches` | attacher.go:173-176 | Definition: the attach test of the select's event case. The event type is "attach", and the source is match-all, or a non-empty ID prefixes the event ID, or a non-empty name equals the event name, or a non-empty filter is contained in the event name. |
| `Filter.DetachTerminates` | attacher.go:184-185 | Definition: the stop test. The source ID is non-empty, the event type is "detach", and the source ID prefixes the event ID. |
| `Filter.Classify` | attacher.go:173-187 | Definition: the if / else-if on one event. The attach test is tried first (Register), then the stop test (Stop); otherwise the event is ignored (Skip). |
| `Filter.Normalize` | attacher.go:164-166 | An absent source becomes one for which `All` holds and whose `types` is empty; a present source is used unchanged. |
| `Filter.AttachMatchRule` | attacher.go:173-176 | An event registers the log stream exactly when its type is "attach" and one of these holds: the filter is match-all; a non-empty ID is followed in the event ID by some rest; a non-empty name equals the event name; a non-empty filter occurs at some offset of the event name. |
| `Filter.StopRule` | attacher.go:184-186 | Listen stops on an event exactly when the source ID is non-empty, the event is a "detach", and its ID is the source ID followed by some rest. |
| `Filter.MatchAllRule` | attacher.go:55-57 | When `All` holds, every attach event registers and no event stops the loop. |
| `Filter.TypesNotConsulted` | attacher.go:48-53 | Replacing the `Types` field by any other list does not change what an event makes Listen do. |
| `GoStrings.HasPrefix` | attacher.go:174 | Definition of `strings.HasPrefix`: the prefix is no longer than the string and equals its first characters. |
| `GoStrings.Contains` | attacher.go:176 | Definition of `strings.Contains`: the substring is a prefix of the string or of one of its suffixes. |
| `GoStrings.HasPrefixIff` | attacher.go:174 | `HasPrefix(s, p)` holds exactly when `s` is `p` followed by something. |
| `GoStrings.ContainsIff` | attacher.go:176 | `Contains(s, sub)` holds exactly when `sub` occurs in `s` at some offset (the empty string occurs everywhere). |
| `Fanout.Send` | attacher.go:134-137 | The deliveries carry the message, reach every registered channel, reach no other channel, and reach each at most once. |
| `Fanout.BroadcastCount` | attacher.go:230-233 | A broadcast makes exactly as many deliveries as there are registered channels. |
| `Lines.IndexOf` | attacher.go:210 | The position of the first delimiter, or the length when there is none: every earlier byte differs from the delimiter, and the byte found is the delimiter. |
| `Lines.ReadBytes` | attacher.go:210-213 | At end of input the read fails with the whole remaining input, which contains no delimiter; a successful read leaves strictly less to read. |
| `Lines.ReadBytesLine` | attacher.go:210 | A successful read returns the input up to and including its first delimiter, and the rest follows it. |
| `Lines.TrimNewline` | attacher.go:215 | A trailing delimiter is removed exactly once; data without one is returned unchanged. |
| `Lines.Records` | attacher.go:209-219 | Definition of the read loop's output: a read error ends it, and a line is emitted as a record of its trimmed data before the loop goes on with the rest. |
| `Lines.RecordsShape` | attacher.go:214-219 | Every emitted record carries the pump's ID and name and the loop's stream type, and its data contains no delimiter. |
| `Lines.RecordsRoundTrip` | attacher.go:209-219 | Writing each record's data followed by "\n", in order, gives exactly the input up to its last delimiter. What follows it (the dropped partial line) has no delimiter. |
| `Lines.RecordsOfJoined` | attacher.go:209-219 | Delimiter-free lines, each written with "\n" and then a delimiter-free tail, are split back into exactly those lines in order, empty lines included. |
| `Lines.RecordsCount` | attacher.go:209-219 | The loop emits one record per delimiter in the input. |
| `Lines.EmptyLines` | attacher.go:210-215 | "\n\n" gives two records with empty data. |
| `Lines.HelloLine` | attacher.go:210-219 | "hello\nbye" on stdout gives one record "hello"; the unterminated "bye" is not emitted. |
| `Lines.StderrLine` | attacher.go:209-219 | "oops\n" read by the stderr loop gives one record "oops" tagged "stderr". |
| `Pump.LogPump.constructor` | attacher.go:201-206 | A new pump has the given ID and name and no listeners. |
| `Pump.LogPump.AddListener` | attacher.go:236-240 | The listener set gains exactly the given channel; adding a present channel changes nothing. |
| `Pump.LogPump.RemoveListener` | attacher.go:242-246 | The listener set loses exactly the given channel; removing an absent channel changes nothing. |
| `Pump.LogPump.Send` | attacher.go:227-234 | The record is delivered once to each registered log channel and to no other. |
| `Pump.LogPump.Pump` | attacher.go:207-221 | The records emitted from one stream are exactly `Records` of its bytes, in input order, and each is broadcast to all listeners. |
| `Subscription.Effect` | attacher.go:170-190 | Definition of what one input does. The closer returns (Closed); a stop event returns (Detached); a matching attach goes on if its pump is registered and faults on the nil pump otherwise; any other event goes on (Blocked). |
| `Subscription.RunFrom` | attacher.go:170-191 | Definition of the loop from an input position. It goes on while the effect is Blocked, collecting the IDs registered. It ends on the first other effect, or stays Blocked when the inputs run out. |
| `Subscription.RunListen` | attacher.go:163-191 | Definition of a whole call: the loop from the first input with nothing registered. |
| `Subscription.RunFromShape` | attacher.go:170-191 | The loop ends at the first input that closes, stops, or finds no pump, and ends with that input's effect; if no such input comes, it consumes everything and stays blocked. The registered IDs are the attach matches among the inputs before the end. |
| `Subscription.RegistrationsIff` | attacher.go:173-183 | An ID is registered exactly when some handled input is an attach event with that ID that the filter matches. |
| `Subscription.NilSourceNeverDetaches` | attacher.go:164-166 | A nil source never makes Listen return on a detach. |
| `Subscription.DetachedOnlyWhenIdScoped` | attacher.go:184-187 | A detach-triggered return happens only for a non-empty source ID that starts the detach's container ID. |
| `Subscription.IdScopedAttachThenDetach` | attacher.go:172-187 | An ID-scoped Listen that sees its container's attach and then its detach registers once on that pump and returns on the detach. |
| `Manager.ShortId` | attacher.go:75 | The short ID is 12 characters long and is a prefix of the full ID. |
| `Manager.ContainerName` | attacher.go:93 | The name is the inspected name without its first character. |
| `Manager.StartedIds` | attacher.go:80-84 | The IDs for which an attach is started from runtime events are exactly the short IDs of the events whose status is "start". |
| `Manager.StartedIdsAppend` | attacher.go:80-84 | The IDs started by a sequence of events are those started by its first part followed by those started by the rest: the loop starts one attach per "start" event, in event order, duplicates kept. Those attaches run concurrently. |
| `Manager.StartedIdsOne` | attacher.go:81-83 | One "start" event starts an attach for its short ID exactly once; an event with any other status starts none. |
| `Manager.Discovered` | attacher.go:74-76 | Definition of startup discovery: the listed containers are attached in order, a successful attach maps the short ID to the name, and a later success replaces an earlier one. |
| `Manager.DiscoveredKeys` | attacher.go:72-76 | After startup the registry keys are exactly the short IDs of the listed containers whose attach succeeded. |
| `Manager.DiscoveredLast` | attacher.go:74-76 | Every registered short ID is named after a listed container that attached successfully under that ID, with no later success under the same ID. |
| `Manager.AttachManager.Valid` | attacher.go:121-124 | Definition of the registry invariant: the pump stored under an ID carries that ID, since `attach` stores `NewLogPump(…, id, name)` under `id`; `Get` (line 160) relies on it. |
| `Manager.AttachManager.constructor` | attacher.go:66-76 | Startup attaches the listed containers in order; each registered pump is fresh, has the name of the last successful container with that short ID, and has no listeners; there are no subscribers. |
| `Manager.AttachManager.Attach` | attacher.go:90-129 | On success, a fresh pump with this ID and name and no listeners is stored under the ID, other entries are unchanged, and an attach event is broadcast. On failure nothing changes and nothing is sent. |
| `Manager.AttachManager.StreamEnded` | attacher.go:109-118 | After a clean stream end, a detach event is broadcast and only that ID leaves the registry. After an error the goroutine blocks, so nothing changes. |
| `Manager.AttachManager.Send` | attacher.go:131-138 | The event is delivered once to each subscriber channel and to no other. |
| `Manager.AttachManager.Replay` | attacher.go:144-147 | One attach event per registry entry, carrying that entry's ID and its pump's name, with each ID exactly once. |
| `Manager.AttachManager.AddListener` | attacher.go:140-149 | The subscriber set gains exactly the channel (idempotent), the registry is untouched, and the replay covers every entry. |
| `Manager.AttachManager.RemoveListener` | attacher.go:151-155 | The subscriber set loses exactly the channel (idempotent). |
| `Manager.AttachManager.Get` | attacher.go:157-161 | The result is non-nil exactly when the ID is registered; then it is the registered pump, whose own ID is the one asked for. |
| `Manager.AttachManager.Unwind` | attacher.go:169-183 | The deferred calls remove the log stream from every pump it was added to and the event channel from the subscriber set. No other listener set changes. |
| `Manager.AttachManager.Serve` | attacher.go:170-191 | The select loop ends as `RunListen` says. The log stream has been added to exactly the pumps of the registered IDs, and every other pump is unchanged. |
| `Manager.AttachManager.Listen` | attacher.go:163-192 | The call ends as `RunListen` says. After any return, the subscriber set and every pump's listeners are as before, except that the log stream is gone from the pumps it was added to. While blocked, the event channel and the log-stream registrations remain. |

## Left out

- The Docker client calls `ListContainers`, `InspectContainer`, `AttachToContainer` and `AddEventListener` are foreign I/O. Their results are parameters: `Container` values for startup, the inspected name and success flag for `Attach`, the failure flag for `StreamEnded`, and `APIEvent`s for the event goroutine.
- Goroutines, `io.Pipe`, blocking channel sends and mutexes are not modelled. Each locked section is one atomic method call. The `success` handshake appears only as the `attachOk` flag.
- Races are not modelled: stdout against stderr, replayed against live attach events, the completion order of attaches started by runtime events (each may also fail), and the window between a detach broadcast and its registry delete.
- Manager.AttachManager.Listen: the registry is a fixed snapshot for the whole call. Attaches and detaches that happen concurrently while a subscription runs are not modelled. Replayed and live events reach the loop only as ordinary `Receive` inputs.
- Pump.LogPump.Pump: the listener set is fixed while one stream is pumped. Listeners added or removed between two lines are not modelled. Stream bytes are a finite sequence, and both a pipe error and end of input appear as the end of that sequence.
- `assert` / `log.Fatal` process termination (attacher.go:73, 79, 85, 92, 248-252) is not modelled. Three slices would panic: a listing ID shorter than 12 (attacher.go:75), a "start" event ID shorter than 12 (attacher.go:82), and an empty inspected name (attacher.go:93). All three are preconditions: `Admissible`, `ShortId`, `ContainerName`, `Attach`, and `StartedIds` with its lemmas.
- Go strings are byte sequences, but IDs, names and filters here are Dafny `string`s, which are sequences of Unicode characters. `len`, `[:12]`, `[1:]`, `strings.HasPrefix` and `strings.Contains` all work on bytes in Go. The two views agree on ASCII, which covers Docker's hex IDs and `/name` names, and prefix and substring tests also agree on valid UTF-8. They differ when a name's first character is multi-byte: Go's `Name[1:]` keeps that character's continuation bytes, while `ContainerName` drops the whole character. The `>= 12` and `>= 1` preconditions count characters, not bytes.
- A listener set lives in a Go map. Iteration order over it is not modelled: the broadcast loops pick channels in an unspecified order.
- `input.go` (the Heka plugin glue that consumes `Listen`) is not part of this model.
