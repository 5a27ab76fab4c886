# goreplay-udp, modelled in Dafny

goreplay-udp captures live UDP traffic and replays it. Each captured datagram
becomes a message. A message has a one-line text header: a type byte, the
correlation id, the capture time in nanoseconds and the source address. The
datagram's payload follows the header. An HTTP input also produces messages,
one per received HTTP request.

The fan-out loop (`CopyMulty`) reads from every input and writes each message
to every output. There are three outputs:

- The UDP output re-sends request payloads through a pool of workers that grows
  and shrinks with the load.
- The HTTP output POSTs request payloads to a URL through a pool of workers. It
  can record the responses and hand them back as type-`3` messages.
- The null output swallows everything.

The plugin registry decides which plugins run and in which order.

This project models that core:

| file | module | models |
|---|---|---|
| `bytes.dfy` | `Bytes` | byte strings, int64/int32 wrap-around, `bytes.IndexByte`, split/join, decimal (`strconv`) and hex (`hex.Encode`) texts, with their round trips |
| `proto.dfy` | `Proto` | `proto/goreplay.go`: header building (`PayloadHeader`, which fills an array in place) and header parsing (`PayloadBody`, `PayloadMeta`, `PayloadMetaWithBody`, `IsRequestPayload`) |
| `udp.dfy` | `Udp` | `proto/udp.go`: `NewUDPMessage`, `UUID`, `Data` |
| `capability.dfy` | `Capability` | the Reader/Writer results and the error values |
| `input_udp.dfy` | `UdpInput` | `input/input_udp.go` `PluginRead` |
| `input_http.dfy` | `HttpInput` | `input/input_http.go` handler, and `PluginRead` with the stop state left by `Close` as a parameter |
| `emitter.dfy` | `Emitter` | `emitter.go` `CopyMulty` |
| `plugins.dfy` | `Plugins` | `plugins.go`: `extractLimitOptions`, `registerPlugin`, `InitPlugins` (the class `Registry`) |
| `output_null.dfy` | `NullOutput` | `output/output_null.go` |
| `output_http.dfy` | `HttpOutput` | `output/output_http.go`: configuration defaults (class `HTTPOutputConfig`), the worker pool and queues (class `HTTPOutput`), `sendRequest`, the header decision in `Send`, `CheckRedirect` |
| `output_udp.dfy` | `UdpOutput` | `output/output_udp.go`: the worker master, the idle/death counter of each worker, `PluginWrite`, `PluginRead`, `sendRequest` (class `UDPOutput`) |
| `replay.dfy` | `Replay` | end-to-end facts: what a captured datagram becomes in each output |

## How the model is built

- The model only blocks where a call would block in Go, and it is explicit
  about those places:
  - a write to a full queue returns `Blocked` and changes nothing;
  - a read with nothing to read returns `None`.
- Where Go's `select` may pick either of two ready cases, a `pickStop`
  parameter says which one was picked.
- Libraries the core calls on are parameters:
  - SHA-1 is `sha: seq<byte> -> Digest`;
  - `net.IP.String` is `ipText`;
  - `net.ParseIP` is `parseIP`;
  - the HTTP client's outcome is a `SendOutcome` value;
  - clock readings are `int64` arguments.
- Go's integers are explicit:
  - `stop - start` wraps around as an int64 (`WrapInt64`);
  - `int32(WorkersMax)` truncates (`Int32`).

Facts about the code that the proofs bring out:

- `NewUDPMessage` never sets `Start`. A message that the listener does not
  stamp afterwards therefore keeps Go's zero time, whose `UnixNano()` wraps
  around to -6795364578871345152 (`Udp.ZeroTimeWraps`).
- The id hashes four decimal texts with nothing between them. Ports 1/23 and
  12/3 therefore give the same id (`Udp.PortsCollide`).
- A reply with swapped ports gets a different id whenever the two ports
  differ, have the same number of digits, and the digest does not collide
  (`Udp.ReplyIdDiffers`). It gets the same id for ports 1 and 11
  (`Udp.SwappedKeyCollides`).
- `sendRequest` in the HTTP output builds its `Response` with a positional
  literal. `RoundTripTime` receives the start time and `StartedAt` receives the
  elapsed time. The type-`3` message `PluginRead` builds therefore carries the
  elapsed time in its timestamp field. The model keeps this as written
  (`HttpOutput.SendRequest`, `HttpOutput.HTTPOutput.PluginRead`).
- `net/http` calls `CheckRedirect` with the requests made so far, the original
  request included (so `len(via) >= 1`).
  `len(via) < RedirectLimit` then follows at most `RedirectLimit - 1`
  redirects (`HttpOutput.RedirectsFollowed`).
- A `WorkersMax` of 2^31 or more is truncated by `int32(...)`. It can become
  negative, so the pool never grows past `WorkersMin`
  (`HttpOutput.TruncatedWorkersMax`).
- The HTTP input's "reading stopped" error is a different value from the one
  the outputs use. `CopyMulty` treats only the output's value and `io.EOF` as a
  clean stop, so a closed HTTP input ends the loop with an error
  (`Emitter.InputStoppedIsAnError`).
- The UDP output looks as if it returns responses. Unless `IgnoreResponse` is
  set, it creates a `responses` channel (output/output_udp.go:48-50), and its
  `PluginRead` reads from that channel (output/output_udp.go:130-142). No code
  ever writes to it: the worker discards the reply of `Send`
  (output/output_udp.go:144-151). The model follows the code, so
  `UdpOutput.UDPOutput.PluginRead` only ever returns `OutputStopped` (with
  `IgnoreResponse`) or nothing.

## Model

| member | source | states |
|---|---|---|
| Bytes.SplitJoin | proto/goreplay.go:52-58 | splitting a join of separator-free pieces gives back the pieces |
| Bytes.JoinSplit | proto/goreplay.go:52-58 | joining the pieces of `bytes.Split` with the separator gives back the original text |
| Bytes.DecimalRoundTrip | proto/goreplay.go:21 | the text `strconv.FormatInt` writes is digits, after a minus sign for a negative number, and parses back to the same number |
| Bytes.DecimalInjective | proto/udp.go:63-66 | different numbers have different decimal texts |
| Bytes.HexRoundTrip | proto/udp.go:68-70 | hex-encoding writes two lower-case digits per byte and decodes back to the bytes |
| Bytes.HexInjective | proto/udp.go:68-70 | different digests give different hex texts |
| Proto.DottedQuadRoundTrip | proto/goreplay.go:22-26 | the dotted-quad text of a 4-byte address has four 1–3 digit parts below 256 and parses back to the address |
| Proto.PayloadHeader | proto/goreplay.go:17-45 | the header has length 1+1+len(uuid)+1+len(time)+1+len(ip)+1 and is the type byte, the id, the time and the address separated by spaces and ended by a newline |
| Proto.HeaderLayout | proto/goreplay.go:34-42 | where every field and every separator sits in a header |
| Proto.PayloadBody | proto/goreplay.go:47-50 | the body is the suffix after the first newline, or the whole payload when there is no newline |
| Proto.PayloadMeta | proto/goreplay.go:52-58 | the header fields hold no space or newline, their join is the text before the first newline, and there is one empty field when there is no newline |
| Proto.PayloadMetaWithBody | proto/goreplay.go:60-68 | the two parts concatenate to the payload; the header part is empty exactly when there is no newline, the newline is the first byte, or nothing follows it |
| Proto.HeaderMetaRoundTrip | proto/goreplay.go:52-58 | the fields of a built header come back from PayloadMeta, whatever body follows |
| Proto.HeaderBodyRoundTrip | proto/goreplay.go:47-50 | the body of a built header plus a body is that body |
| Proto.HeaderMetaWithBody | proto/goreplay.go:60-68 | PayloadMetaWithBody recovers a header and a non-empty body, and treats a header with an empty body as a payload without header |
| Proto.IpString | proto/goreplay.go:22-26 | a 4-byte address is written as a dotted quad that parses back to it, any other non-empty address by net.IP.String, and an empty one as nothing |
| Proto.IsRequestPayload | proto/goreplay.go:70-72 | a request payload is neither a response nor a replayed response, and its header line, when there is one, starts with the request type |
| Proto.RequestType | proto/goreplay.go:70-72 | a framed payload is a request exactly when its type byte is `1` |
| Proto.ReplayedMessage | output/output_http.go:196-199 | a replayed response is a type-`3` message, not a request, with the response as data and the fields [3, id, timing, empty address] |
| Udp.NewUDPMessage | proto/udp.go:39-58 | the message holds copies of both addresses, the decoded ports, length, checksum, payload and direction, and the zero start time |
| Udp.Data | proto/udp.go:75-77 | Data returns the stored payload unchanged; NewUDPMessage stores the decoded UDP payload there |
| Udp.ZeroTimeWraps | proto/udp.go:63 | Go's zero time in nanoseconds wraps around to -6795364578871345152 |
| Udp.UUID | proto/udp.go:60-73 | the id is 40 hex digits that decode to the digest of the four concatenated decimal texts |
| Udp.UUIDDependsOnKeyFieldsOnly | proto/udp.go:63-66 | two messages with the same time, ports and length have the same id |
| Udp.PortsCollide | proto/udp.go:63-66 | ports 1/23 and 12/3 give the same key and the same id |
| Udp.SwappedKeyIff | proto/udp.go:63-66 | swapping the ports keeps the key exactly when the two port texts commute |
| Udp.SwappedKeyDiffers | proto/udp.go:63-66 | different ports with the same number of digits give a reply a different key |
| Udp.SwappedKeyCollides | proto/udp.go:63-66 | ports 1 and 11 give a request and its reply the same id |
| Udp.ReplyIdDiffers | proto/udp.go:60-73 | with a digest that does not collide on the two keys, a reply's id differs from its request's |
| UdpInput.PluginRead | input/input_udp.go:28-40 | a datagram becomes a request message exactly when it is incoming; its fields are [type, id, start time, source address] and its body is the payload |
| HttpInput.RemoteIp | input/input_http.go:58-66 | X-Real-IP when present; otherwise RemoteAddr up to its first colon, or the whole of it when there is none |
| HttpInput.IPv6PeerIsCut | input/input_http.go:62-64 | an IPv6 peer `[::1]:8080` becomes `[` |
| HttpInput.Handle | input/input_http.go:53-73 | each request becomes a type-`1` message with fields [1, id, time, address text of the parsed remote address] and the request body as data, which PayloadBody recovers from header plus data |
| HttpInput.PluginRead | input/input_http.go:38-51 | a ready request is returned unless the input is closed and the stop case is picked; the only failure is the input's stop error after Close; the read waits exactly when the input is open and nothing is ready |
| Emitter.Classify | emitter.go:32-37 | the output's stop error and io.EOF end the loop cleanly, and every other error is returned |
| Emitter.CopyMulty | emitter.go:27-44 | the loop's status and delivery log are those of the reference run `Run` |
| Emitter.WriteRound | emitter.go:36-40 | the writers receive the message in order until the first failing write, whose error is returned; with no failure every writer receives it |
| Emitter.CleanRun | emitter.go:27-44 | when all writes succeed, every message read before the first failed read goes to every writer in order, and the read error decides the outcome |
| Emitter.WriteFailureStops | emitter.go:38-41 | the first failing write ends the loop with that error after the writers before it got the message |
| Emitter.ProjectRounds | emitter.go:38-41 | each writer receives exactly the sequence of messages read |
| Emitter.EachWriterInReadOrder | emitter.go:27-44 | writer `w` receives the messages in the order they were read, each once |
| Emitter.InputStoppedIsAnError | emitter.go:32-37 | the HTTP input's stop error ends the loop with an error, not cleanly |
| Plugins.ExtractLimitOptions | plugins.go:42-50 | without `|` the options are the address and there is no limit; with one or more, the address is the text before the first `|` and the limit the text between the first and the second `|` (the rest of the text after the first `|` when there is no second one) |
| Plugins.InputsOfMembers | plugins.go:80-90 | a plugin is in Inputs exactly when it is registered and is a reader and not a writer |
| Plugins.OutputsOfMembers | plugins.go:80-90 | a plugin is in Outputs exactly when it is registered and is a writer |
| Plugins.InputsAndOutputsDisjoint | plugins.go:80-90 | no plugin is both an input and an output |
| Plugins.InputsInOrder | plugins.go:80-92 | inputs appear in registration order |
| Plugins.OutputsInOrder | plugins.go:80-92 | outputs appear in registration order |
| Plugins.PlanOrdered | plugins.go:96-131 | InitPlugins registers plugins grouped by kind, in the order of its eight statements (stdout, null, UDP input, file input, file output, UDP output, HTTP input, HTTP output) |
| Plugins.Registry.Register | plugins.go:55-93 | the new plugin is appended to All with the next id and the options split by extractLimitOptions, and Inputs/Outputs stay the filters of All |
| Plugins.Registry.Append | plugins.go:80-92 | the plugin goes to the end of All, and to Inputs when it is a reader and not a writer or to Outputs when it is a writer, so Inputs and Outputs stay the filters of All |
| Plugins.Registry.RegisterAll | plugins.go:96-131 | one plugin per address, in order, each appended to All |
| Plugins.Registry.RegisterFlagged | plugins.go:96-131 | a plugin turned on by a flag is registered once, with no options |
| Plugins.Registry.InitPlugins | plugins.go:96-131 | All grows by exactly the registrations of the settings' plan, and Inputs/Outputs stay its filters |
| NullOutput.PluginWrite | output/output_null.go:14-16 | the write succeeds and reports header, separator and body length |
| NullOutput.LengthsOnly | output/output_null.go:14-16 | the result depends only on the lengths |
| HttpOutput.Defaults | output/output_http.go:74-100 | the result is normalised. A timeout under 100ms becomes 1s. WorkersMin is clamped to 1..1000. A non-positive WorkersMax becomes MaxInt32, and one below WorkersMin is raised to it. A non-positive QueueLen becomes 1000, a negative RedirectLimit 0, and a non-positive WorkerTimeout 2s. Every field already in range is kept |
| HttpOutput.DefaultsIdempotent | output/output_http.go:74-100 | applying the defaults twice is applying them once |
| HttpOutput.DefaultsFixedPoints | output/output_http.go:74-100 | a configuration is left unchanged by the defaults exactly when it is normalised |
| HttpOutput.HTTPOutputConfig.ApplyDefaults | output/output_http.go:74-100 | the in-place field updates leave the configuration equal to `Defaults` of the old one |
| HttpOutput.TruncatedWorkersMax | output/output_http.go:178 | WorkersMax = 2^31 truncates to a negative int32 and caps the pool at WorkersMin |
| HttpOutput.SendRequest | output/output_http.go:204-225 | a response is recorded exactly for a request whose send succeeded with a body while responses are tracked; it carries the body, the message's id, the start time and the wrapped elapsed time |
| HttpOutput.SendHeaders | output/output_http.go:283-292 | X-Real-IP is set exactly when the header has four fields, to the fourth; Host is set exactly when the original host is not kept |
| HttpOutput.CheckRedirect | output/output_http.go:251-260 | a redirect is followed exactly when fewer than RedirectLimit requests were made; with a limit of 0 or 1 none is followed |
| HttpOutput.RedirectsFollowed | output/output_http.go:251-260 | with limit L ≥ 1 and R redirects offered, min(R, L-1) are followed |
| HttpOutput.HTTPOutput.constructor | output/output_http.go:63-125 | the configuration is normalised and WorkersMin workers are running |
| HttpOutput.HTTPOutput.Rollback | output/output_http.go:143-149 | with the output running and the queue empty, workers are stopped down to WorkersMin; otherwise the count is unchanged |
| HttpOutput.HTTPOutput.PluginWrite | output/output_http.go:166-184 | after Close a write fails with the stop error when the queue is full or the stop case is picked; before Close a full queue blocks; otherwise (even after Close) the message is queued, a worker is added while below int32(WorkersMax), and the body plus header length is returned |
| HttpOutput.HTTPOutput.WorkerSend | output/output_http.go:154-163 | a worker takes the oldest queued message, sends it only if it is a request, and appends what sendRequest recorded to the responses |
| HttpOutput.HTTPOutput.PluginRead | output/output_http.go:187-202 | without tracking the read fails; after Close the read fails with the stop error when no response is waiting or the stop case is picked; otherwise the oldest response comes back as a type-`3` message with its id and timing, and before Close with no response waiting the read waits |
| HttpOutput.HTTPOutput.Close | output/output_http.go:232-236 | Close marks the output stopped and leaves the queue, the responses and the worker count unchanged |
| UdpOutput.SendRequest | output/output_udp.go:144-151 | only requests are sent, and what is sent is the message body |
| UdpOutput.CountIsIdleRun | output/output_udp.go:86-102 | a worker's death count is the length of the run of idle ticks since its last received message |
| UdpOutput.ExitAfterTwentyOneIdleTicks | output/output_udp.go:86-102 | the count exceeds 20 on an idle tick exactly when the previous 20 ticks were idle |
| UdpOutput.UDPOutput.constructor | output/output_udp.go:36-61 | no worker runs yet and the master is asked for `workers` workers, or 10 in dynamic mode |
| UdpOutput.UDPOutput.MasterStep | output/output_udp.go:63-75 | the master takes one request, starts that many workers (none for a negative count) with zero counts, and stops after the first batch when the pool size is fixed |
| UdpOutput.UDPOutput.WorkerIdle | output/output_udp.go:86-102 | an idle dynamic worker exits exactly when its count reached 20 and it is not the last one; otherwise its count goes up by one; a fixed pool never changes |
| UdpOutput.UDPOutput.WorkerReceive | output/output_udp.go:83-85 | a worker takes the oldest queued message, sends its body and resets its count |
| UdpOutput.UDPOutput.PluginWrite | output/output_udp.go:107-127 | a non-request is dropped and reports its body length; a full queue blocks; a request is queued, the master is asked for more workers when the queue is longer than the pool in dynamic mode, and the body plus header length is returned |
| UdpOutput.UDPOutput.PluginRead | output/output_udp.go:130-142 | with IgnoreResponse the read fails with the stop error; otherwise the oldest response comes back as a type-`3` message |
| Replay.UdpRequestResent | output/output_udp.go:144-151 | a captured incoming datagram is re-sent by the UDP output with its original payload |
| Replay.UdpReplyNotResent | output/output_udp.go:144-151 | a captured outgoing datagram is sent by neither output |
| Replay.HttpResponseKeepsId | output/output_http.go:204-225 | a response to a replayed datagram carries the datagram's capture id, and reading it back yields that id in field 1 |
| Replay.ResponseIdIsCaptureId | output/output_http.go:220 | the recorded response's id is the captured datagram's id |
| Replay.CapturedRequest | input/input_udp.go:28-40 | a captured incoming datagram is a request with four header fields, the id in field 1 |
| Replay.UdpSourceBecomesRealIp | output/output_http.go:283-288 | replaying a captured datagram over HTTP sets X-Real-IP to its source address text |
| Replay.HttpClientBecomesRealIp | output/output_http.go:283-288 | replaying a request from the HTTP input sets X-Real-IP to the client's address |

## Left out

- Goroutines, channels and `select` are not modelled as concurrency. Each
  method is one atomic step of one goroutine. A blocked send or receive is a
  result (`Blocked`, `None`). Go's choice between two ready `select` cases is
  the `pickStop` parameter. Data races, such as the unsynchronised
  `activeWorkers` counters, are not modelled.
- The channels have capacities, and the model does not keep them:
  - UdpOutput.UDPOutput.PluginWrite: `needWorker` holds one request in the
    source, so a second request blocks the writer until the master takes the
    first. The model keeps a sequence of pending requests.
  - the `responses` channels (capacity QueueLen in the HTTP output, 10000 in
    the UDP output) are sequences without a bound.
- UdpOutput.UDPOutput.MasterStep: the source counts a worker when its
  goroutine starts running. The model counts it when the master starts it.
- HttpOutput.HTTPOutput.Close: the source also closes `stopWorker`
  (output/output_http.go:234). From then on every worker's `select` may take
  the stop case and exit. The model does not let workers exit after Close:
  `WorkerSend` stays enabled, and the worker count is not reduced.
- HttpOutput.HTTPOutput.Rollback: the source sends one `stopWorker` message per
  surplus worker and some worker takes it. The model decrements the count,
  without naming the worker that stops.
- Panics are not modelled:
  - a second `Close` on a closed channel is excluded (`Close` requires an open
    output);
  - an empty header (`Sendable`, and `|meta| > 0` on the UDP output) is
    excluded, because indexing it panics in Go;
  - a request header with fewer than two fields (for instance the meta `1`
    with no newline) is excluded from the HTTP output's `sendRequest`
    (`Sendable`), because Go panics on `PayloadMeta(...)[1]`.
- The emitter's `Start` loop, one goroutine per input, and `Close`/`finalize`
  are left out. `CopyMulty` is modelled for one input.
- The library code the core relies on is represented by parameters or values,
  not modelled:
  - `gopacket` decoding (the decoded header is the input);
  - SHA-1 (`sha`);
  - `net.ParseIP` and `net.IP.String` (`parseIP`, `ipText`);
  - the uuid generator of the HTTP input (`uuid`);
  - `time.Now` (time arguments);
  - `url.Parse`, `net/http`'s client and transport, `httputil.DumpRequest` and
    `DumpResponse` (the dump is the `body`, the send outcome is `SendOutcome`);
  - the UDP client's dial and write (`UdpOutput.SendRequest` returns what would
    be sent).
- HttpOutput.HTTPOutput.constructor: plugins.go:129 passes the same
  `&Settings.outputHttpConfig` to every HTTP output. `NewHTTPOutput` then
  overwrites its `url` and `rawURL` (output/output_http.go:66-73), and `Send`
  posts to `rawURL` with `Host` taken from `url.Host` (output/output_http.go:278,
  291). So every HTTP output sends to the address registered last. The model
  gives each output a snapshot of the configuration, and the target host
  (`urlHost`) is a free parameter of `SendHeaders`. This sharing is not
  captured.
- The `Content-Type` header and the request method, path and body handling in
  `Send` are left out. Only the `X-Real-IP` and `Host` decisions are modelled.
- Plugins.KindCaps: the Reader/Writer capabilities of each plugin kind are a
  table. For the UDP and HTTP inputs and outputs and the null output, the table
  follows the methods modelled here. For the file input, the file output and
  the stdout output it is assumed, because their code is not part of this
  model. The limiter that wraps a plugin with a limit is not part of this
  model either; its capabilities are the parameter `limiter`.
- Logging, statistics, `String()` methods, the settings parser and the
  listeners that accept traffic are not part of this model.
- UdpInput.PluginRead: the UDP listener that builds each message and hands it
  on (input/input_udp.go:51-64) is not part of this model. In particular the
  model does not know whether the listener sets the exported `Start` field;
  the capture time is whatever the message carries.
