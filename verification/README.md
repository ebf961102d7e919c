# Verification of the ESP32 Wiimote firmware

A Dafny 4.11 model of the parts of the ESP32 Wiimote firmware that decide what
it does, under the hardware glue: the request parser, the Wi-Fi start-up and
shut-down, the event streams, the Bluetooth connection procedure, the serial
command line and the byte-level packet and document writers. Check it with
`dafny verify dfyconfig.toml`.

## How it is built

Code that changes state step by step is modelled in that form: classes with the
source's fields, arrays of the source's sizes, loops with invariants. Each method
is proved equal to a function on values, and what the source promises is proved
about that function as lemmas over every input or every run.

| files | part of the firmware | main theorems |
|---|---|---|
| `WebRequestParser`, `WebRequestGrammar`, `WebRequestErrors` | JSON request parser | `ParserMeetsGrammar`, `RoundTrip`, `RefusalTold` |
| `WifiLifecycle`, `WifiLifecycleProperties`, `WifiCallProperties` | Wi-Fi control in `ESP32Wiimote` | `ReachableStates`, `DeferralEqualsImmediacy`, `StartUpLength`, `WaitEnds`, `TaskIsItsCalls`, `CredentialsStay`, `OffStaysOff` |
| `WebEventStream`, `WebEventStreamProperties` | sequenced event ring with replay | `ReplayExactIff`, `ClientsSeeNoGap` |
| `HciCommands`, `HciEvents`, `HciEventsProperties`, `HciResponses` | HCI connection procedure | `BringUp`, `ConnectionProvenance`, `NameDecides`, `AttemptIff`, `FastReconnectToken`, `OneRequestPerClear` |
| `SerialLines`, `SerialTokens`, `SerialDispatch`, `SerialDispatchProperties`, `SerialNumbers`, `SerialMeaning`, `SerialPipeline` | serial commands | `ChunkingIndependence`, `WordsAreMaximalRuns`, `SaidIsDone`, `NumberRead`, `ChangesComeInsideTheWindow`, `UnlockedIff`, `CommandsAreHandedOn`, `LineIsDone` |
| `L2capPackets`, `WiimoteProtocol`, `WiimoteExtensions` | packets, memory requests, extension handshake | `FramingRoundTrip`, `ReceivedIsFramedIff`, `WriteSurvivesFraming`, `HandshakeInOrder`, `HandshakeCompletes` |
| `OpenApi`, `OpenApiReader` | OpenAPI document writer | `EveryRouteOnce`, `KeysDistinctIff`, `BuildOpenApiJson`, `DocumentIsRead` |

The grammar is not written as a second parser. `WebRequestGrammar` has derivation
trees that record white space and the choice of each escape, and a function that
spells a tree out; the parser is then proved sound and complete for spelling. The
ring buffer's reference is the plain list of everything accepted; the line
assembler's is filtering and splitting the whole stream at once; the session's is
the list of all requests, locks and token changes with true, unbounded times. What
commands, packets, reports, calls and numbers mean is told by tables and bytes of
their own in `SerialMeaning`, `SerialNumbers`, `HciResponses`, `WiimoteExtensions` and
`WifiCallProperties`, apart from the functions that act on them.

## Where the code does less than one would expect

The model follows the code in each point below.

- `configure()` assigns the delivery mode in use from the stored configuration
  without a restart (`src/ESP32Wiimote.cpp:459`), although the documentation says
  fields left out keep their values. A ready server can so be left with web-socket
  routes in RestOnly mode: `ConfigureStrandsRoutes` is such a run,
  `ConfigureKeepsModeIff` says for each call exactly when it cannot happen, and
  `ReachableStates` covers every run whose calls meet that condition.
- Replay with the cursor 2^32-1 on a non-empty log asks for recovery although
  nothing was missed, since the cursor plus one wraps to 0 (`ReplayExactIff`).
- The event stream's header calls publishing without a client a no-op; the code
  numbers and keeps the frame, and that is what makes replay gap-free.
- Receiving an ACL packet checks neither its ACL length field nor what follows the
  payload: `UnframedIsReceived` is such a packet, `ReceivedIsFramedIff` says which
  packets are as sent.
- The unlock test is modular and the flag is not cleared on expiry, so a session
  counts as unlocked again at each multiple of 2^32 ms after the unlock, for as long
  as its window (`WindowReopens`); `UnlockedIff` states the test for all times,
  `ChangesComeInsideTheWindow` the exact window below 2^32 ms. A new token does not
  close a window opened with the old one.
- The OpenAPI document is printed without escaping: `QuotesMislead` gives two tables
  with one document, and `DocumentIsRead` holds for all tables without quotes.
- JSON escapes other than `\n`, `\r` and `\t` stand for the escaped character
  itself, so `\b`, `\f` and `\u` do not decode as in section 7 of RFC 8259, and a
  comma may precede the closing brace.

## Choices made

- Clocks, network status, whether the server can be started, answers of the device
  and incoming bytes are parameters.
- 8-, 16- and 32-bit values are bounded types, and each wrap, shift and cast of the
  source is written out.
- Null and empty strings count as one in the Wi-Fi calls, which treat them alike.
- The Wi-Fi flags are grouped into records by subject (phase, network, routes,
  server); both build variants, with and without the hardware network, are covered
  by a setting.
- Verb, keys and values of a parsed request are held as C strings; the bytes behind
  a terminator are not part of the state.
- Dispatch handlers are functions whose at most one call on the device is recorded;
  the device's answers are fixed during one dispatch.
- Numbers in commands are read as `strtol` reads them, with sign, white space and `0x`;
  its saturation needs no width, since all callers refuse values outside 0 to 65535.

## Model

| member | source | states |
|---|---|---|
| `WebRequestGrammar.ParserMeetsGrammar` | src/wifi/web_request_parser.cpp:131-223 | For every body of 1 to 1024 bytes and whatever the command held before: the parser reaches the closing brace without an error exactly when some prefix of the body is the spelling of a derivation of the string-only grammar (trailing comma allowed, at most 254 decoded characters a string, at most 16 pairs not named command, a backslash before n, t and r decoding to line feed, tab and carriage return and before any other character to that character); for every such derivation the result is Ok exactly when the last command pair is non-empty, and then the command holds that verb and the other pairs in order, after the 63-character cuts |
| `WebRequestGrammar.RoundTrip` | src/wifi/web_request_parser.cpp:78-223 | Printing any non-empty verb of at most 63 characters and up to 16 regular fields as a JSON object, with quotes, backslashes, line feeds, tabs and carriage returns escaped, with the command pair at any position and at most 1024 bytes in all, then parsing it, gives Ok with exactly that verb and those fields in order |
| `WebRequestGrammar.DerivationIsParsed` | src/wifi/web_request_parser.cpp:131-223 | Soundness half on its own: any text that starts with the spelling of a derivation is parsed to the meaning of that derivation's pairs, whatever follows and whatever the white space and the choice of escapes |
| `WebRequestGrammar.AcceptedDerives` | src/wifi/web_request_parser.cpp:131-223 | Completeness half: from any accepted body a derivation of one of its prefixes can be rebuilt |
| `WebRequestGrammar.MembersParsed` | src/wifi/web_request_parser.cpp:149-223 | The pair loop on a spelled member list folds exactly its decoded pairs into the command, for any text behind it |
| `WebRequestGrammar.MembersDerive` | src/wifi/web_request_parser.cpp:149-223 | Where the pair loop ends at a brace, the bytes it read are the spelling of a member list with room for its fields |
| `WebRequestGrammar.PairDerives` | src/wifi/web_request_parser.cpp:149-223 | One accepted turn of the loop spells one key, colon, value and separator, with its decoded key and value |
| `WebRequestGrammar.ScanSpelled` | src/wifi/web_request_parser.cpp:78-124 | Scanning a spelled string up to its quote yields the decoded characters and leaves what follows |
| `WebRequestGrammar.ScanDerives` | src/wifi/web_request_parser.cpp:78-124 | Conversely, whenever scanning yields a string, the bytes read are a spelling of it of at most 254 units |
| `WebRequestErrors.RefusalTold` | src/wifi/web_request_parser.cpp:131-223 | For every body of 1 to 1024 bytes: it is refused as an invalid field type exactly when, after an opened object and some spelled pairs, a key and its colon are followed by a token that is no string; as too large exactly when a pair that is not a command stands where 16 fields are stored; as malformed exactly when it derives and stops in neither way |
| `WebRequestErrors.SizeTold` | src/wifi/web_request_parser.cpp:131-147 | An empty body or one of more than 1024 bytes is too large and leaves the command as it was, and no other body is refused before its first token |
| `Common.CStringIsPrefix` | src/wifi/web_request_parser.cpp:182-203 | A C string ends before the first NUL, or with the buffer |
| `Common.TruncateIsPrefix` | src/wifi/web_request_parser.cpp:182-203 | What a bounded copy leaves is a prefix without NUL, as long as the bound, the text before its first NUL or the whole text allows |
| `WebRequestParser.NextToken` | src/wifi/web_request_parser.cpp:37-64 | Every token other than end and error takes at least one byte: the measure that makes the token loop end |
| `WebRequestParser.JsonParser.SkipWhitespace` | src/wifi/web_request_parser.cpp:71-76 | The loop on the read position drops exactly the leading white space the grammar allows |
| `WebRequestParser.JsonParser.ParseChar` | src/wifi/web_request_parser.cpp:96-119 | One turn of the string loop leaves the scan of the whole string what it was, with one more decoded character in the token's buffer; it fails exactly on a lone final backslash, where that scan is an error |
| `WebRequestParser.JsonParser.ParseString` | src/wifi/web_request_parser.cpp:78-124 | The loop over the 255-byte value buffer gives the token and the unread bytes of the recursive scan that the grammar lemmas are about, with its length limit and errors |
| `WebRequestParser.JsonParser.Next` | src/wifi/web_request_parser.cpp:37-64 | The tokenizer object returns the token and leaves the position that the token function gives |
| `WebRequestParser.WebParsedCommand.StorePair` | src/wifi/web_request_parser.cpp:182-203 | A command pair replaces the verb, another pair goes to the next free slot; refused exactly when it is not a command and 16 fields are stored, and then nothing changes |
| `WebRequestParser.ParsePairs` | src/wifi/web_request_parser.cpp:149-223 | The loop ends on every input and leaves the result and the stored fields of the recursive reading, on errors too |
| `WebRequestParser.WebRequestParse` | src/wifi/web_request_parser.cpp:131-223 | Null data, empty body, oversized body and null command are told apart in the source's order; otherwise result and command are those of the parsing function the grammar theorems are about |
| `WifiLifecycleProperties.ReachableStates` | src/ESP32Wiimote.cpp:928-1090 | After any sequence of calls, calls made inside requests and task() passes, from any configuration: each stage determines its flags, the lifecycle's server flag equals the server's own, end() was never called during a dispatch; ready implies connected, not failed, both route sets registered and the server running; and if every configure() so far fitted the state it was made in, ready with nothing pending implies web-socket routes exactly when the mode is RestAndWebSocket |
| `WifiLifecycleProperties.RunKeeps` | src/ESP32Wiimote.cpp:635-682 | The inductive form: one invariant is kept by every step of every run, and the mode part by every run whose configure() calls fit |
| `WifiLifecycleProperties.ConfigureFreeFits` | src/ESP32Wiimote.cpp:635-682 | A run without configure() fits, from any state |
| `WifiLifecycleProperties.DoKeeps` | src/ESP32Wiimote.cpp:483-554 | Each public call keeps the lifecycle invariant, inside a dispatch or outside it, and the mode part if it fits |
| `WifiLifecycleProperties.StageKeeps` | src/ESP32Wiimote.cpp:928-1036 | Each start-up stage, on any network and server answers, keeps the invariant |
| `WifiLifecycleProperties.ConfigureKeepsModeIff` | src/ESP32Wiimote.cpp:415-481 | From any state where routes and mode agree, configure() keeps them so if and only if something is pending, start-up has not passed the API stage, or what it asks for is the mode in use: web sockets while the mode is that, or nothing while the stored mode is the mode in use |
| `WifiLifecycleProperties.ConfigureStrandsRoutes` | src/ESP32Wiimote.cpp:459 | A concrete run: a ready server with web-socket routes whose mode becomes RestOnly through configure(), with nothing pending to correct it |
| `WifiLifecycleProperties.DeferralEqualsImmediacy` | src/ESP32Wiimote.cpp:483-554 | From any state with nothing pending, any list of calls made while a request is dispatched, then applied, ends in the same lifecycle, settings and server state, with the same return values, as the same calls made outside a dispatch |
| `WifiLifecycleProperties.DoSimulates` | src/ESP32Wiimote.cpp:483-554 | One call keeps the put-off state and the immediate state in step, whatever was put off before, in spite of the early return of enableWifiControl |
| `WifiLifecycleProperties.StartingStep` | src/ESP32Wiimote.cpp:928-1036 | Each task() of a start-up that does not wait for the network lowers the number of steps left by exactly one, and the last one makes the server ready |
| `WifiLifecycleProperties.ReadyAfter` | src/ESP32Wiimote.cpp:928-1036 | Without the hardware network, a start-up is ready after some number of task() passes if and only if there were at least as many as its steps left, and stays ready |
| `WifiLifecycleProperties.StartUpLength` | src/ESP32Wiimote.cpp:483-504 | From any reachable idle state with credentials, enabling and then polling is ready exactly from the 4th pass on in RestOnly and from the 5th on in RestAndWebSocket |
| `WifiLifecycleProperties.WaitEnds` | src/ESP32Wiimote.cpp:942-1001 | On the hardware build, after the first task() at any time and any number of passes without a link within 15000 ms of it, the next pass moves on if the link is up, fails and disables if 15000 ms have passed, and waits otherwise, on a clock that wraps at 2^32 |
| `WifiCallProperties.CredentialsStored` | src/ESP32Wiimote.cpp:506-522 | Made directly or during a dispatch and then applied: both non-empty or refused with nothing changed; ssid and password are the first 128 characters of their own arguments, no other setting but the configured flag changes, and control that is on restarts |
| `WifiCallProperties.CredentialsStay` | src/ESP32Wiimote.cpp:506-522 | Accepted credentials are those in place after every run of calls, requests and task() passes that names no others |
| `WifiCallProperties.RunKeepsNetwork` | src/ESP32Wiimote.cpp:415-554 | No run changes ssid or password but by a call that brings both |
| `WifiCallProperties.DisablingStops` | src/ESP32Wiimote.cpp:483-504 | Disabling leaves control off, the mode stored, the stage, network and route flags cleared and the server down |
| `WifiCallProperties.EnablingStarts` | src/ESP32Wiimote.cpp:483-504 | Enabling stores the mode, turns control on, and Wi-Fi with its configuration if it was off; it starts over unless control was ready in that mode, and then nothing is touched |
| `WifiCallProperties.WebSwitch` | src/ESP32Wiimote.cpp:122-125 | The web switch is enabling or disabling in the stored mode, and reports success |
| `WifiCallProperties.RestartRestarts` | src/ESP32Wiimote.cpp:524-531 | Accepted exactly when Wi-Fi and control are on; then start-up begins again and no setting changes |
| `WifiCallProperties.ModeStored` | src/ESP32Wiimote.cpp:545-554 | The mode asked for is the mode stored and the mode in use, nothing else in the settings changes, and control that is on starts over |
| `WifiCallProperties.ConfigurationMerged` | src/ESP32Wiimote.cpp:415-481 | Configuring only ever turns Wi-Fi and web sockets on, takes credentials only in pairs and each in its own place, and stops everything exactly when Wi-Fi is off |
| `WifiCallProperties.InitiallyOff` | src/ESP32Wiimote.cpp:356-405 | After construction Wi-Fi, mode, ssid and password are those of the configuration, each in its own place, credentials count as configured exactly when both are there, and control, stages and server are off |
| `WifiCallProperties.OffStaysOff` | src/ESP32Wiimote.cpp:635-654 | Control that is off, with no restart pending, stays off with the server down over every run without an enabling call |
| `WifiCallProperties.TaskIsItsCalls` | src/ESP32Wiimote.cpp:635-654 | A task() with its serial calls and its request is, once settled: the pending action, the serial calls made directly, a quiet start-up pass, and then the calls of the request made directly if the server is up, in this order |
| `WifiCallProperties.StartFailsIff` | src/ESP32Wiimote.cpp:942-980 | The first stage fails exactly without an ssid or a password or with the ssid kept for failing in tests; else the build decides what follows |
| `WifiCallProperties.ServerFailsIff` | src/ESP32Wiimote.cpp:1006-1018 | The API stage fails exactly when the server cannot be started; else web-socket routes follow exactly in RestAndWebSocket mode |
| `WifiLifecycle.WifiHttpServer.Begin` | src/wifi/http_server.cpp:43-103 | Starting succeeds when already started or when a server can be made, and only the started flag changes |
| `WifiLifecycle.WifiHttpServer.End` | src/wifi/http_server.cpp:105-119 | Stopping a started server, counting the stops made while a handler runs |
| `WifiLifecycle.WifiControl.constructor` | src/ESP32Wiimote.cpp:356-405 | The initial lifecycle: everything off, configuration and credentials as given |
| `WifiLifecycle.WifiControl.ResetWifiLifecycleState` | src/ESP32Wiimote.cpp:1038-1053 | Clears stage, network, route and server flags, stopping the server, and keeps what the source keeps |
| `WifiLifecycle.WifiControl.StopWifiHttpServer` | src/ESP32Wiimote.cpp:1079-1090 | Server and lifecycle flag go down together; nothing happens when it was not running |
| `WifiLifecycle.WifiControl.StartWifiHttpServer` | src/ESP32Wiimote.cpp:1055-1077 | Begins the server unless the lifecycle says it runs, and records a failed start |
| `WifiLifecycle.WifiControl.QueueWifiLifecycleAction` | src/ESP32Wiimote.cpp:656-667 | During a dispatch the last of stop and restart stays pending; otherwise it is applied at once |
| `WifiLifecycle.WifiControl.ApplyQueuedWifiLifecycleAction` | src/ESP32Wiimote.cpp:669-682 | Applies the pending action, or nothing |
| `WifiLifecycle.WifiControl.EnableWifiControl` | src/ESP32Wiimote.cpp:483-504 | Mode and flags of an enabling or disabling call, with the early return when it is already running in that mode |
| `WifiLifecycle.WifiControl.ApplyRuntimeConfig` | src/ESP32Wiimote.cpp:415-481 | The merged configuration, mode and credentials and the resulting enable call |
| `WifiLifecycle.WifiControl.MergeConfig` | src/ESP32Wiimote.cpp:415-481 | Which Wi-Fi fields a configuration call replaces |
| `WifiLifecycle.WifiControl.UpdateWifiNetworkCredentials` | src/ESP32Wiimote.cpp:506-522 | Refuses missing or empty credentials; else stores them, and restarts when control is enabled |
| `WifiLifecycle.WifiControl.RestartWifiControl` | src/ESP32Wiimote.cpp:524-531 | Restart when enabled, refused otherwise |
| `WifiLifecycle.WifiControl.SetWifiDeliveryMode` | src/ESP32Wiimote.cpp:545-554 | The mode is stored in the configuration and in use at once, and control that is enabled is restarted, whether or not the mode changed |
| `WifiLifecycle.WifiControl.FailStartup` | src/ESP32Wiimote.cpp:991-999 | What a failed start-up leaves |
| `WifiLifecycle.WifiControl.StartWifiStage` | src/ESP32Wiimote.cpp:942-980 | First stage: credentials, mock and hardware network |
| `WifiLifecycle.WifiControl.WaitNetworkStage` | src/ESP32Wiimote.cpp:981-1001 | The wait stage: link, timeout or stay |
| `WifiLifecycle.WifiControl.ApiRoutesStage` | src/ESP32Wiimote.cpp:1006-1018 | API routes, server start and the choice of the web-socket stage |
| `WifiLifecycle.WifiControl.ProcessWifiControl` | src/ESP32Wiimote.cpp:928-1036 | One pass of the staged start-up on the object equals the step of the state machine the run theorems are about |
| `WifiLifecycle.WifiControl.Poll` | src/wifi/http_server.cpp:83-85 | Calls made inside a request handler run with the dispatch flag up |
| `WifiLifecycle.WifiControl.RunTask` | src/ESP32Wiimote.cpp:635-654 | task(): pending action, start-up pass, server poll, in that order |
| `WifiLifecycle.WifiControl.PerformAll` | src/ESP32Wiimote.cpp:483-554 | A list of calls on the object is the list of steps of the state machine |
| `WebEventStreamProperties.ClientsSeeNoGap` | src/wifi/web_event_stream.cpp:119-317 | In any run of publishes, connects by replay and disconnects on both channels, with fewer than 2^32-1 accepted frames each, what a client received live and by replay since its last recovery is the published frames of 1 to 223 bytes after its base, each once, in order and with its number; a connected client is up to date; with no recovery the base is 0 |
| `WebEventStreamProperties.LogIsOffered` | src/wifi/web_event_stream.cpp:119-154 | The log that a channel numbers is exactly the frames of 1 to 223 bytes published on that channel, in order, with or without a client |
| `WebEventStreamProperties.RunKeepsGapFree` | src/wifi/web_event_stream.cpp:119-317 | The invariant behind it, over every run of both channels |
| `WebEventStreamProperties.ReplayExactIff` | src/wifi/web_event_stream.cpp:275-317 | Replay asks for recovery exactly when an event after the cursor is not among the last 16 and else sends exactly the log after the cursor, if and only if the log is empty or the cursor is not 2^32-1, where the cursor plus one wraps |
| `WebEventStreamProperties.ReplayIsExact` | src/wifi/web_event_stream.cpp:275-317 | The same, from the caller's side, for every cursor below 2^32-1 |
| `WebEventStreamProperties.ReplayReports` | src/wifi/web_event_stream.cpp:275-317 | The reported count is the number of frames sent and the reported numbers are those of the whole log, for every cursor |
| `WebEventStreamProperties.ReconnectKeeps` | src/wifi/web_event_stream.cpp:186-317 | A reconnect keeps the client gap-free, and needs no recovery when nothing after its cursor is lost, that is older than the last 16 |
| `WebEventStream.PushedHolds` | src/wifi/web_event_stream.cpp:74-102 | Writing one frame into the 16-slot ring, with head and count moved as in the source, makes it hold the last min(n,16) frames of the longer log |
| `WebEventStream.ChannelState.AppendFrame` | src/wifi/web_event_stream.cpp:74-102 | The channel's ring is kept as the last 16 of its log with one frame more; a frame that is too long or empty changes nothing and uses up no number |
| `WebEventStream.ChannelState.ChannelFrameAt` | src/wifi/web_event_stream.cpp:49-52 | The n-th retained frame is that entry of the log |
| `WebEventStream.ChannelState.LatestSeq` | src/wifi/web_event_stream.cpp:104-111 | The number of the last log entry |
| `WebEventStream.ChannelState.OldestSeq` | src/wifi/web_event_stream.cpp:113-117 | The number of the oldest retained entry |
| `WebEventStream.ChannelState.ResetChannel` | src/wifi/web_event_stream.cpp:54-72 | Empty log, numbering from 1 |
| `WebEventStream.ChannelState.Publish` | src/wifi/web_event_stream.cpp:119-154 | Accepted frames get the next number and are sent to a connected client; rejected ones leave the channel as it was |
| `WebEventStream.ChannelState.ReplaySince` | src/wifi/web_event_stream.cpp:275-317 | The loop over ring offsets sends exactly what replay on the plain log sends |
| `WebEventStream.EventStream.constructor` | src/wifi/web_event_stream.cpp:54-72 | Both channels start empty |
| `WebEventStream.EventStream.PublishEvent` | src/wifi/web_event_stream.cpp:119-154 | The named channel gains the frame; the other channel is untouched |
| `WebEventStream.EventStream.Connect` | src/wifi/web_event_stream.cpp:186-202 | Marks the client of one channel present and changes nothing else |
| `WebEventStream.EventStream.Disconnect` | src/wifi/web_event_stream.cpp:204-217 | Marks the client of one channel gone and keeps its log |
| `WebEventStream.EventStream.ReplaySince` | src/wifi/web_event_stream.cpp:275-317 | Replay on the named channel reads its log and changes neither channel |
| `HciEventsProperties.ConnectionProvenance` | src/tinywiimote/hci/hci_events.cpp:85-97 | Over every run of events and entry-point calls, every command sent has an encoding, and the address bytes in each packet that reads as Create Connection are the bytes of an address reported in an earlier inquiry result and confirmed after that by a Remote Name Request Complete event naming the Wiimote, targets from the fast-reconnect cache included |
| `HciEventsProperties.RunKnown` | src/tinywiimote/hci/hci_events.cpp:260-353 | Table, target and cache only ever hold addresses with that history |
| `HciEventsProperties.CreateConnectionPacket` | src/tinywiimote/hci/hci_commands.cpp:95-108 | A packet that reads as Create Connection is the encoding of that command and carries its target's address reversed |
| `HciEventsProperties.AttemptIff` | src/tinywiimote/hci/hci_events.cpp:64-75 | A fast reconnect starts exactly on a successful Write Scan Enable completion while scanning or before bring-up, with auto-reconnect on, a cached device and a non-zero lifetime not exceeded by the elapsed time modulo 2^32; it then sends only Create Connection to the cached device |
| `HciEventsProperties.FastReconnectToken` | src/tinywiimote/hci/hci_events.cpp:99-107 | In every reachable state a pending fast reconnect has a cached device that is the current target; fallback inquiries plus a pending attempt never exceed attempts; a cache carries the time of the last connection |
| `HciEventsProperties.OneRequestPerClear` | src/tinywiimote/hci/hci_events.cpp:260-297 | Over every run the scanned table has distinct addresses and at most 16 entries, and between two equal Remote Name Requests there is a command at which the table was cleared |
| `HciEventsProperties.HandleShape` | src/tinywiimote/hci/hci_events.cpp:367-408 | All events but inquiry results do one of a short list of things to the table, target and commands |
| `HciEventsProperties.HandleToken` | src/tinywiimote/hci/hci_events.cpp:99-353 | Each event keeps the token invariant and uses up at most one attempt |
| `HciEventsProperties.DiscoverTable` | src/tinywiimote/hci/hci_events.cpp:260-297 | Any inquiry result, from any response on, keeps the table invariant |
| `HciResponses.BringUp` | src/tinywiimote/hci/hci_events.cpp:160-237 | From any state and whatever sent the Reset packet: if each packet sent is answered by a successful Command Complete carrying its own opcode bytes, the packets are in order Reset, Read BD_ADDR, Write Local Name with the 15 bytes of ESP32-BT-L2CAP, Write Class of Device 04 05 00 and Write Scan Enable 3; after the fifth answer the controller is initialised and scanning and has sent Create Connection to a fresh cached device, or else the inquiry |
| `HciResponses.OthersAreSilent` | src/tinywiimote/hci/hci_events.cpp:160-237 | A command that failed, or whose opcode bytes are none of the five, is followed by nothing |
| `HciResponses.RefusalFallsBack` | src/tinywiimote/hci/hci_events.cpp:239-353 | A refused Create Connection or a failed connection sends the inquiry and clears the table exactly when a fast reconnect was pending, and else does nothing |
| `HciResponses.OtherStatusIsSilent` | src/tinywiimote/hci/hci_events.cpp:239-253 | No other Command Status does anything |
| `HciResponses.ConnectionCached` | src/tinywiimote/hci/hci_events.cpp:322-353 | A connection made puts the last target into the cache with the time, sends nothing and settles a pending attempt |
| `HciResponses.NameDecides` | src/tinywiimote/hci/hci_events.cpp:299-320 | A remote name makes the driver cancel the inquiry and connect, in that order, exactly when the address is listed and the name is Nintendo RVL-CNT-01, terminator included; the packets are given byte for byte |
| `HciResponses.ResponseTaken` | src/tinywiimote/hci/hci_events.cpp:260-297 | A response of an inquiry result is listed with its address, page scan mode and clock offset exactly when it is new and there is room, and asked for its name exactly when its class bytes are 04 25 00 |
| `HciResponses.EveryResponseListed` | src/tinywiimote/hci/hci_events.cpp:260-297 | After an inquiry result every address in it is listed, unless the table is full |
| `HciResponses.ResetCauses` | src/tinywiimote/hci/hci_events.cpp:149-158 | The end of an inquiry, a disconnection and the application's reset send the Reset packet, empty the table and stop scanning |
| `HciResponses.SwitchesSend` | src/TinyWiimote.cpp:198-475 | Which packet each of scan, start and stop of discovery sends, and exactly when; nothing else changes but the scanning flag |
| `HciResponses.SettingsKept` | src/TinyWiimote.cpp:198-475 | Auto-reconnect and the cache change only once the controller has started, the lifetime at any time; the first input report marks the Wiimote connected and ends scanning |
| `HciEvents.HciEventContext.constructor` | src/tinywiimote/hci/hci_events.cpp:109-120 | Initial context |
| `HciEvents.HciEventContext.HciSend` | src/tinywiimote/hci/hci_events.cpp:46-50 | The first bytes of the transmit buffer become the next packet sent |
| `HciEvents.HciEventContext.FindScannedDevice` | src/tinywiimote/hci/hci_events.cpp:25-32 | The index of the entry with that address, or -1 when there is none |
| `HciEvents.HciEventContext.AddScannedDevice` | src/tinywiimote/hci/hci_events.cpp:34-40 | Appends below 16 entries, refuses otherwise with the table unchanged |
| `HciEvents.HciEventContext.IsFastReconnectCacheValid` | src/tinywiimote/hci/hci_events.cpp:64-75 | The freshness test, with the 32-bit difference of times |
| `HciEvents.HciEventContext.BeginInquiry` | src/tinywiimote/hci/hci_events.cpp:77-83 | Table cleared, inquiry packet sent |
| `HciEvents.HciEventContext.BeginCreateConnection` | src/tinywiimote/hci/hci_events.cpp:85-97 | Target and pending flag set, Create Connection sent to that device |
| `HciEvents.HciEventContext.FallbackToInquiry` | src/tinywiimote/hci/hci_events.cpp:99-107 | Only a pending attempt is given up for an inquiry |
| `HciEvents.HciEventContext.ResetHciDevice` | src/tinywiimote/hci/hci_events.cpp:149-158 | Table cleared, scanning off, Reset sent |
| `HciEvents.HciEventContext.HandleScanEnabled` | src/tinywiimote/hci/hci_events.cpp:209-224 | Which of fast reconnect, inquiry and nothing follows Write Scan Enable |
| `HciEvents.HciEventContext.HandleCommandComplete` | src/tinywiimote/hci/hci_events.cpp:160-237 | The bring-up chain: each completed command is followed by the next one; a failed one sends nothing and changes nothing |
| `HciEvents.HciEventContext.HandleCommandStatus` | src/tinywiimote/hci/hci_events.cpp:239-253 | A refused Create Connection gives up a pending fast reconnect; every other status changes nothing |
| `HciEvents.HciEventContext.HandleResponse` | src/tinywiimote/hci/hci_events.cpp:266-296 | One response of an inquiry result: known, table full, not a Wiimote class, or asked for its name |
| `HciEvents.HciEventContext.HandleInquiryResult` | src/tinywiimote/hci/hci_events.cpp:260-297 | All announced responses in order, whatever their number |
| `HciEvents.HciEventContext.HandleRemoteNameRequestComplete` | src/tinywiimote/hci/hci_events.cpp:299-320 | Inquiry cancelled and connection made only for a scanned device with the Wiimote's name |
| `HciEvents.HciEventContext.HandleConnectionComplete` | src/tinywiimote/hci/hci_events.cpp:322-353 | Success replaces the cache by the target with the time; failure falls back |
| `HciEvents.HciEventContext.HandleDisconnectionComplete` | src/tinywiimote/hci/hci_events.cpp:355-365 | Forgets the connected Wiimote and resets the controller |
| `HciEvents.HciEventContext.HandleHciEvent` | src/tinywiimote/hci/hci_events.cpp:367-408 | Dispatch on the event code: the object goes to the state, and has sent the packets, of the event function the run theorems are about |
| `HciEvents.HciEventContext.RequestRemoteName` | src/tinywiimote/hci/hci_events.cpp:288-294 | Remote Name Request sent for that device, and nothing else |
| `HciEvents.HciEventContext.TinyWiimoteSetFastReconnectTtlMs` | src/TinyWiimote.cpp:358-360 | The lifetime is set at any time |
| `HciEvents.HciEventContext.HandleHidInputReport` | src/TinyWiimote.cpp:122-134 | The first HID input report marks the Wiimote connected and ends scanning; later ones change neither |
| `HciEvents.HciEventContext.TinyWiimoteResetDevice` | src/TinyWiimote.cpp:198-209 | Reset, and the controller counts as started |
| `HciEvents.HciEventContext.TinyWiimoteSetScanEnabled` | src/TinyWiimote.cpp:362-385 | Rejected before bring-up and, while disconnected, when nothing would change; else Write Scan Enable is sent and the flag set |
| `HciEvents.HciEventContext.TinyWiimoteStartDiscovery` | src/TinyWiimote.cpp:387-409 | Rejected before bring-up, when connected or scanning; else an inquiry of its own parameters, the scanned table kept |
| `HciEvents.HciEventContext.TinyWiimoteStopDiscovery` | src/TinyWiimote.cpp:411-431 | Rejected before bring-up, when connected or not scanning; else the inquiry is cancelled |
| `HciEvents.HciEventContext.TinyWiimoteSetAutoReconnectEnabled` | src/TinyWiimote.cpp:456-464 | The flag is set once the controller has started; the cache stays |
| `HciEvents.HciEventContext.TinyWiimoteClearReconnectCache` | src/TinyWiimote.cpp:466-475 | Drops cache and pending attempt once the controller has started |
| `HciCommands.AddressKeepsBytes` | src/tinywiimote/utils/hci_utils.h:33-43 | An address read from the wire and written into a command gives back the same six bytes at the address field, under the command's opcode |
| `HciCommands.Le16RoundTrip` | src/tinywiimote/utils/hci_utils.h:61-63 | Reading the little-endian bytes of any 16-bit value gives it back, whatever follows |
| `HciCommands.StreamU16` | src/tinywiimote/utils/hci_utils.h:24-27 | Two little-endian bytes at the pointer; nothing else changes |
| `HciCommands.StreamBdAddr` | src/tinywiimote/utils/hci_utils.h:33-37 | Six bytes in reverse order at the pointer |
| `HciCommands.StreamToBdAddr` | src/tinywiimote/utils/hci_utils.h:39-43 | The address read from the wire, reversed |
| `HciCommands.StreamArray` | src/tinywiimote/utils/hci_utils.h:45-49 | The loop copies all bytes to the pointer |
| `HciCommands.MakeCmdReset` | src/tinywiimote/hci/hci_commands.cpp:12-17 | The packet written is the encoding of Reset |
| `HciCommands.MakeCmdReadBdAddr` | src/tinywiimote/hci/hci_commands.cpp:19-24 | The packet written is the encoding of Read BD_ADDR |
| `HciCommands.MakeCmdWriteLocalName` | src/tinywiimote/hci/hci_commands.cpp:26-37 | Name field of 248 bytes, padded with zeros |
| `HciCommands.MakeCmdWriteClassOfDevice` | src/tinywiimote/hci/hci_commands.cpp:39-49 | Three class bytes, little-endian |
| `HciCommands.MakeCmdWriteScanEnable` | src/tinywiimote/hci/hci_commands.cpp:51-58 | One mode byte |
| `HciCommands.MakeCmdInquiry` | src/tinywiimote/hci/hci_commands.cpp:60-72 | Access code, length and count |
| `HciCommands.MakeCmdInquiryCancel` | src/tinywiimote/hci/hci_commands.cpp:74-80 | Empty parameters |
| `HciCommands.MakeCmdRemoteNameRequest` | src/tinywiimote/hci/hci_commands.cpp:82-93 | The scanned device's address, page scan mode and clock offset in the order of section 7.1.19 of Volume 4 Part E of the Bluetooth Core Specification 5.3 |
| `HciCommands.MakeCmdCreateConnection` | src/tinywiimote/hci/hci_commands.cpp:95-108 | The target's address and parameters in the order of section 7.1.5 of the same part |
| `SerialLines.ChunkingIndependence` | src/ESP32Wiimote.cpp:848-889 | For every way a byte stream arrives over task() calls, the lines handed on and the too-long replies are those of the batch reading of the consumed prefix (drop CR, split at LF, drop empty lines, accept at most 128 characters), and the buffered partial line is the one that prefix leaves |
| `SerialLines.ProcessContinues` | src/ESP32Wiimote.cpp:848-889 | One call continues the batch reading of whatever was consumed before it |
| `SerialLines.BatchAppend` | src/ESP32Wiimote.cpp:848-889 | One more byte changes the batch reading exactly as the assembler's state changes |
| `SerialLines.OneLinePerTask` | src/ESP32Wiimote.cpp:848-889 | At most one completed line in one call |
| `SerialLines.BacklogDrains` | src/ESP32Wiimote.cpp:848-889 | With no new bytes, more calls than there are line feeds waiting read everything |
| `SerialLines.SerialControl.ClearLine` | src/ESP32Wiimote.cpp:799-808 | Switching serial control off forgets the line begun, and touches nothing that is still unread |
| `SerialLines.SerialControl.ProcessSerialControl` | src/ESP32Wiimote.cpp:848-889 | The loop on the 129-byte line buffer and its discarding flag does one step of that assembler and leaves the rest unread |
| `SerialTokens.SerialCommandParse` | src/serial/serial_command_parser.cpp:5-56 | The result code follows the line's length, word count and first word, and on success the tokens, read back as C strings from the mutated buffer, are the first 10 maximal non-blank runs of the line |
| `SerialTokens.SplitTokens` | src/serial/serial_command_parser.cpp:11-41 | The two nested pointer loops stop after 10 tokens and leave terminators that keep all earlier tokens intact |
| `SerialTokens.SerialParsedCommand.CutToken` | src/serial/serial_command_parser.cpp:31-40 | One token recorded and terminated in place without disturbing those before it |
| `SerialTokens.SerialParsedCommand.CopyLine` | src/serial/serial_command_parser.cpp:6-12 | The buffer holds the line and a terminator |
| `SerialTokens.SerialParsedCommand.SkipBlanks` | src/serial/serial_command_parser.cpp:18-24 | The pointer moves to the next non-blank |
| `SerialTokens.SerialParsedCommand.SkipBody` | src/serial/serial_command_parser.cpp:33-36 | The pointer moves over a maximal run |
| `SerialTokens.WordsOfSpaced` | src/serial/serial_command_parser.cpp:17-41 | Splitting gives back words set apart by any number of spaces, tabs and carriage returns, before, between and behind them |
| `SerialTokens.WordsOfJoin` | src/serial/serial_command_parser.cpp:17-41 | Splitting words joined by single spaces gives the words back |
| `SerialTokens.WordsAreMaximalRuns` | src/serial/serial_command_parser.cpp:17-41 | The words of a line are its maximal runs of non-blanks, in order: each stands at a place in the line, followed by a blank or the end, and those places increase and are exactly the places where a run starts |
| `SerialTokens.SpacedCommandParses` | src/serial/serial_command_parser.cpp:5-56 | Up to 10 words that start with wm, set apart by any blanks on a line of at most 128 characters, parse to Ok with exactly those tokens |
| `SerialTokens.RefusalsTold` | src/serial/serial_command_parser.cpp:5-56 | For every line, when each refusal is given: too long above 128 characters, else empty exactly when all is blank, else no command exactly when the first word is not wm, else too many tokens exactly above 10 words |
| `SerialTokens.JoinedCommandParses` | src/serial/serial_command_parser.cpp:5-56 | Up to 10 words that start with wm and fit a line, joined by spaces, parse to Ok with exactly those tokens |
| `SerialPipeline.CommandsAreHandedOn` | src/ESP32Wiimote.cpp:848-889 | Any list of sendable commands printed one a line, arriving in any chunks, has been handed on as exactly those lines, in order and with nothing left over, after one more idle task() than there are commands |
| `SerialPipeline.LineReachesDispatch` | src/ESP32Wiimote.cpp:891-926 | A line printed from a sendable command is dispatched on exactly its words, or answered with the Wi-Fi status |
| `SerialPipeline.LineIsDone` | src/ESP32Wiimote.cpp:891-926 | A line whose words, set apart by any blanks, say a call makes exactly that call if the session is open and the device permits it, and is answered with the reason for that call and device |
| `SerialPipeline.RepliesTold` | src/ESP32Wiimote.cpp:891-926 | For every line: too long above 128 characters, silence for a blank line or one that does not start with wm, too many tokens above 10 words, the Wi-Fi status, and dispatch of all its words otherwise |
| `SerialPipeline.ProcessSerialCommandLine` | src/ESP32Wiimote.cpp:891-926 | Reply, session and device calls for any line: silence for what is no command, a parse error, the Wi-Fi status, or the dispatch of its tokens read back from the mutated buffer |
| `SerialDispatchProperties.ChangesComeInsideTheWindow` | src/serial/serial_command_dispatcher.cpp:397-423 | From a locked session, over any run of dispatches, locks and token changes at any non-decreasing true times, a call other than requestStatus is made on the device only at a time covered by an unlock accepted with the token configured then, with no lock or other accepted unlock since: strictly less than its seconds times 1000 ms after it, modulo 2^32, and exactly so within 2^32 ms of it |
| `SerialDispatchProperties.UnlockedIff` | src/serial/serial_command_session.cpp:25-43 | After any such run, the session counts as unlocked if and only if an accepted unlock is in force and the elapsed time since it modulo 2^32 is strictly inside its window |
| `SerialDispatchProperties.LastUnlockInForce` | src/serial/serial_command_dispatcher.cpp:325-350 | The unlock in force is the accepted one that no lock and no accepted unlock follows: there is one exactly when the search from the end finds it |
| `SerialDispatchProperties.WindowReopens` | src/serial/serial_command_session.cpp:36-43 | After any accepted unlock with a window, the session counts as unlocked at every multiple of 2^32 ms after it |
| `SerialDispatchProperties.LockedIff` | src/serial/serial_command_dispatcher.cpp:397-423 | A privileged command is answered with locked if and only if that window is not open |
| `SerialDispatchProperties.SessionFromHistory` | src/serial/serial_command_dispatcher.cpp:325-350 | The session fields are a function of the unlock in force alone; a token change leaves them |
| `SerialDispatchProperties.UnlockedIsCovered` | src/serial/serial_command_session.cpp:36-43 | An open session is covered by the last accepted unlock, with exact times below 2^32 ms |
| `SerialDispatchProperties.ModularElapsed` | src/serial/serial_command_session.cpp:36-43 | The 32-bit difference of two clock readings is the true difference modulo 2^32, and exact below 2^32 |
| `SerialDispatchProperties.WindowFits` | src/serial/serial_command_dispatcher.cpp:325-350 | The product of seconds and 1000 never overflows 32 bits |
| `SerialDispatchProperties.HandlerCalls` | src/serial/serial_command_dispatcher.cpp:127-322 | Every handler makes at most one call on the device; success without a call is status only; refusals use the listed reasons; commands for a connected Wiimote need one |
| `SerialDispatchProperties.MutatorsArePrivileged` | src/serial/serial_command_dispatcher.cpp:352-359 | Every command of the table but status and requestStatus is privileged |
| `SerialDispatchProperties.MutationNeedsUnlock` | src/serial/serial_command_dispatcher.cpp:397-423 | A dispatch that calls a mutator found the session open at that time |
| `SerialDispatchProperties.LookupNames` | src/serial/serial_command_dispatcher.cpp:370-385 | Searching the table yields the entry of that name |
| `SerialMeaning.SaidIsDone` | src/serial/serial_command_dispatcher.cpp:127-423 | With the gate open, words that say one of the 15 calls, by a table of words, decimal or 0x numbers and defaults written apart from the handlers, make exactly that call with those arguments in that order, if the device permits it, and none otherwise; the reason is Ok on acceptance and else the one for that call and state of the device; the session stays |
| `SerialMeaning.UnsaidIsTold` | src/serial/serial_command_dispatcher.cpp:127-423 | Words that say no call make none, and are answered unknown, Ok for status, missing argument, invalid verb or bad argument by a rule on the words alone |
| `SerialMeaning.ClosedIsLocked` | src/serial/serial_command_dispatcher.cpp:397-423 | With the gate closed, every known verb but the two status verbs is answered Locked, with no call and the session unchanged |
| `SerialMeaning.UnlockOpens` | src/serial/serial_command_dispatcher.cpp:325-350 | An unlock with the configured token opens the session at the given time for 1000 ms a second asked for, 60 seconds when left out, and closes it for 0 |
| `SerialMeaning.UnlockRefused` | src/serial/serial_command_dispatcher.cpp:325-350 | Any other unlock leaves the session as it was and is answered by what is wrong first: words, session, token, number |
| `SerialMeaning.DefaultWindow` | src/serial/serial_command_dispatcher.cpp:325-350 | The window of an unlock without a number, as used in the run theorems, is 60000 ms |
| `SerialMeaning.PrintedWindow` | src/serial/serial_command_dispatcher.cpp:325-350 | With n up to 65535 printed in decimal, or in hexadecimal behind 0x, that window is n times 1000 ms |
| `SerialNumbers.NumberRead` | src/serial/serial_command_dispatcher.cpp:22-54 | A token is read as n, up to a maximum, if and only if it is the decimal digits of n behind any zeros, white space and sign, a minus only for 0, or the hexadecimal digits of n behind 0x or 0X and any zeros |
| `SerialNumbers.PrintedRead` | src/serial/serial_command_dispatcher.cpp:22-54 | The decimal printing of any n up to the maximum, and its hexadecimal printing behind 0x, are read as n |
| `SerialDispatch.SerialCommandSession.SetToken` | src/serial/serial_command_session.cpp:7-9 | Changes the token only |
| `SerialDispatch.SerialCommandSession.ValidateToken` | src/serial/serial_command_session.cpp:11-17 | True exactly for the configured token |
| `SerialDispatch.SerialCommandSession.Lock` | src/serial/serial_command_session.cpp:19-23 | Clears flag, start and length |
| `SerialDispatch.SerialCommandSession.Unlock` | src/serial/serial_command_session.cpp:25-34 | A zero window locks, any other opens at the given time |
| `SerialDispatch.SerialCommandSession.Unlocked` | src/serial/serial_command_session.cpp:36-43 | The modular window test, and the session unchanged by it |
| `SerialDispatch.UnlockSession` | src/serial/serial_command_dispatcher.cpp:325-350 | Reply and session of an unlock request: argument count, session present, token, then the seconds, 60 when left out |
| `SerialDispatch.SerialCommandDispatch` | src/serial/serial_command_dispatcher.cpp:397-423 | Reply, calls made on the device and session after a dispatch are those of the dispatch function the run theorems are about, with and without a session |
| `L2capPackets.PacketLayout` | src/tinywiimote/l2cap/l2cap_packets.cpp:19-66 | Every byte of a packet for a handle below 4096, in numbers: type 2, handle with the first-fragment flag, the two lengths and the channel low byte first, payload |
| `L2capPackets.FramingRoundTrip` | src/TinyWiimote.cpp:149-196 | For every handle below 4096, channel and payload, the packet built is received as the same handle, channel and payload, and its two length fields agree with each other and its size |
| `L2capPackets.ReceivedIsFramedIff` | src/TinyWiimote.cpp:149-196 | Any bytes at all are a packet that sending builds if and only if they start as an ACL packet with the first fragment of a point-to-point frame, their size is 9 more than the L2CAP length field, and their ACL length field is 4 more than it |
| `L2capPackets.ReceivedIff` | src/TinyWiimote.cpp:149-196 | Bytes are received as a frame if and only if they start that way and are at least 9 longer than the L2CAP length field says: the ACL length field plays no part |
| `L2capPackets.EventReceivedIff` | src/TinyWiimote.cpp:173-196 | Bytes are passed on as an event with a code and parameters if and only if they are of type 4 with that code and those parameters, which are at least as long as announced |
| `L2capPackets.UnframedIsReceived` | src/TinyWiimote.cpp:149-171 | Eleven bytes with an ACL length of 0 and a byte behind the payload are received as a frame, and are no packet that sending builds |
| `L2capPackets.MakeL2capPacket` | src/tinywiimote/l2cap/l2cap_packets.cpp:19-24 | Header and payload at the pointer; bytes before and behind untouched |
| `L2capPackets.MakeAclL2capPacket` | src/tinywiimote/l2cap/l2cap_packets.cpp:26-42 | The whole H4 packet, though the header is written after the payload |
| `L2capPackets.SendAclL2capPacket` | src/tinywiimote/l2cap/l2cap_packets.cpp:44-66 | Sends that packet, or nothing without a callback or with too long a payload |
| `WiimoteProtocol.WriteReportRoundTrip` | src/tinywiimote/protocol/wiimote_protocol.cpp:147-184 | Every write report is 23 bytes, starts with A2 16 and decodes to its address space, offset modulo 2^24 and data, the unused data bytes being zero |
| `WiimoteProtocol.ReadReportRoundTrip` | src/tinywiimote/protocol/wiimote_protocol.cpp:192-224 | Every read report is 8 bytes, starts with A2 17 and decodes to its address space, offset modulo 2^24 and length |
| `WiimoteProtocol.WriteSurvivesFraming` | src/tinywiimote/protocol/wiimote_protocol.cpp:147-184 | A write report sent through ACL and L2CAP framing and received again decodes to the same request |
| `WiimoteProtocol.U24RoundTrip` | src/tinywiimote/utils/payload_builder.h:74-78 | Three big-endian bytes keep a value modulo 2^24 |
| `WiimoteProtocol.PayloadBuilder.Append` | src/tinywiimote/utils/payload_builder.h:46-50 | Appends one byte, or nothing when full |
| `WiimoteProtocol.PayloadBuilder.AppendU16Be` | src/tinywiimote/utils/payload_builder.h:65-68 | Two bytes, high first |
| `WiimoteProtocol.PayloadBuilder.AppendU24Be` | src/tinywiimote/utils/payload_builder.h:74-78 | Three bytes, high first |
| `WiimoteProtocol.PayloadBuilder.AppendBytes` | src/tinywiimote/utils/payload_builder.h:85-89 | As many bytes as fit |
| `WiimoteProtocol.PayloadBuilder.ReserveZeroed` | src/tinywiimote/utils/payload_builder.h:106-111 | All the zero bytes asked for, or nothing when they do not fit |
| `WiimoteProtocol.Protocol.WriteMemory` | src/tinywiimote/protocol/wiimote_protocol.cpp:147-184 | Sends exactly the write report, or nothing for more than 16 bytes or without a channel |
| `WiimoteProtocol.Protocol.ReadMemory` | src/tinywiimote/protocol/wiimote_protocol.cpp:192-224 | Sends exactly the read report, or nothing for more than 16 bytes or without a channel |
| `WiimoteExtensions.HandshakeInOrder` | src/tinywiimote/protocol/wiimote_extensions.cpp:34-116 | In any run of reports and re-initialisations, 0x00 is written to FB only when the last handshake action was 0x55 to F0, FA is read only right after FB, and connected is set only right after the read of FA; the waiting stage tells which action was last |
| `WiimoteExtensions.HandshakeStartsIff` | src/tinywiimote/protocol/wiimote_extensions.cpp:34-66 | One report writes 55 to F0 if and only if the driver is in its first stage and the report is a status report of at least 8 bytes with bit 02 of byte 4 set; exactly one without that bit marks the Nunchuk disconnected; both, and nothing else, store the battery byte |
| `WiimoteExtensions.HandshakeGoesOnIff` | src/tinywiimote/protocol/wiimote_extensions.cpp:68-93 | FB is written, and FA read, exactly on an acknowledgement of a write without an error in the stage that waits for it |
| `WiimoteExtensions.HandshakeEndsIff` | src/tinywiimote/protocol/wiimote_extensions.cpp:68-116 | A handshake ends exactly with a failed acknowledgement or the awaited answer from FA |
| `WiimoteExtensions.ModeFollows` | src/tinywiimote/protocol/wiimote_extensions.cpp:34-116 | The reporting mode is set exactly when the Nunchuk comes or goes: 31 or 30 without it, 35 or 32 with it, with and without the accelerometer |
| `WiimoteExtensions.HandshakeCompletes` | src/tinywiimote/protocol/wiimote_extensions.cpp:34-116 | A status report with the bit, two good acknowledgements and an answer from FA naming the Nunchuk end connected and back in the first stage, with exactly the actions of a handshake in order, whatever short or foreign reports come between |
| `WiimoteExtensions.ConnectedIff` | src/tinywiimote/protocol/wiimote_extensions.cpp:95-110 | One report marks the Nunchuk connected if and only if the handshake waits for the read response and the report is a long enough answer from FA naming the Nunchuk |
| `WiimoteExtensions.StepOrdered` | src/tinywiimote/protocol/wiimote_extensions.cpp:34-116 | Each report keeps that order from any stage and history that fit |
| `WiimoteExtensions.Extensions.Initialize` | src/tinywiimote/protocol/wiimote_extensions.cpp:25-32 | Back to the first stage |
| `WiimoteExtensions.Extensions.Handle` | src/tinywiimote/protocol/wiimote_extensions.cpp:34-116 | Stage, actions and connected flag after a report are those of the function the order theorem is about |
| `OpenApi.EveryRouteOnce` | src/wifi/web_api_router.cpp:217-254 | For any route table: each route is emitted exactly once, under the key of its own path together with all others of that path in table order, with one key per distinct path in the order of first appearance |
| `OpenApiReader.DocumentIsRead` | src/wifi/web_api_router.cpp:173-270 | For any tables whose texts hold no quote and whose methods are not the lower-case get and post: reading the document back, with its opening and closing, gives every path in order and for each operation its method, path, summary and responses |
| `OpenApiReader.QuotesMislead` | src/wifi/web_api_router.cpp:189-201 | Texts are printed without escaping, so a description with a quote can stand for two responses: two different tables have one document |
| `OpenApi.FlattenGroups` | src/wifi/web_api_router.cpp:217-254 | The grouped routes are a permutation of the table |
| `OpenApi.GroupsOnPath` | src/wifi/web_api_router.cpp:217-254 | Each group is non-empty and holds exactly the routes on its path |
| `OpenApi.GroupsInOrder` | src/wifi/web_api_router.cpp:217-254 | Keys are strictly ordered by first appearance |
| `OpenApi.FirstOnPath` | src/wifi/web_api_router.cpp:217-254 | The position that orders the keys is that of the first route on the path, or the table's length when there is none |
| `OpenApi.KeysDistinctIff` | src/wifi/web_api_router.cpp:217-270 | The paths object is one list of keys, the table's groups and then one for each extra route, and all of them are distinct if and only if the extra paths are pairwise distinct and none is in the table |
| `OpenApi.WriteText` | src/wifi/web_api_router.cpp:63-74 | Printing at the end of what is kept keeps a terminated prefix of the longer text, and gives the full length and the room there was |
| `OpenApi.BuildOpenApiJson` | src/wifi/web_api_router.cpp:1037-1056 | For any buffer of at least one byte: a terminated prefix of the full document stays in the buffer, cut only where it ends, and the result is the full length |
| `OpenApi.JsonWriter.AppendFormat` | src/wifi/web_api_router.cpp:53-96 | A terminated prefix of all text so far stays in the buffer, the count grows by the full length, and true means the text fitted |
| `OpenApi.JsonWriter.AppendOpenApiPaths` | src/wifi/web_api_router.cpp:217-254 | The nested loops with their look-back for duplicates emit exactly the groups of the table, with commas between them |
| `OpenApi.JsonWriter.AppendOpenApiExtra` | src/wifi/web_api_router.cpp:256-270 | Extra routes get one key each, after a comma where one is due |
| `OpenApi.JsonWriter.AppendOpenApiOperation` | src/wifi/web_api_router.cpp:203-215 | Method key, summary, security and responses in order |
| `OpenApi.JsonWriter.AppendOpenApiResponses` | src/wifi/web_api_router.cpp:189-201 | All responses, comma-separated |
| `OpenApi.HoldsMore` | src/wifi/web_api_router.cpp:53-96 | Writing at the end of a kept prefix keeps a prefix of the longer text |
| `OpenApi.GroupsStep` | src/wifi/web_api_router.cpp:217-254 | One turn of the outer loop moves exactly one group, or none for a path seen before |

## Left out

- Arduino `WiFi`, `WebServer`, VHCI, FreeRTOS queues, NVS and logging: calls into code that is not part of this model.
- HTML, CSS and JavaScript assets, code-to-string tables, getters and forwarding wrappers: no hard property.
- `WiimoteReports`, `web_command_queue`, `L2capConnectionTable`, battery scaling and change flags of `data_parser`: simpler cases of what is modelled.
- The route table, authentication and handlers of `web_api_router.cpp`: only the OpenAPI writer is modelled, for any route table; HTTP status codes appear as their printed text.
- The text of event frames: frames are opaque, and the builder's failure or result is an input, since it is called with source and destination in one buffer.
- The default branch of `processWifiControl`, reached by no stage.
- `hciEventsInit` in the middle of a run.
- SerialLines.ChunkingIndependence: runs in which serial control is switched off are outside it; what that does to the line buffer is `ClearLine`.
- WifiLifecycle.WifiControl.ApplyRuntimeConfig: the tokens and authentication flags of the same call, and the log line about a missing token, are not part of this lifecycle; the session's share of it is the token change of the serial runs.
- WifiLifecycle.WifiControl.MergeConfig: merges the Wi-Fi fields only, for the same reason.
- HciEvents.HciEventContext.HandleConnectionComplete: without the callback that sends an L2CAP connection request, which touches none of this state.
- HciEvents.HciEventContext.HandleDisconnectionComplete: without clearing the L2CAP connection table and initialising protocol and extensions again; the last is the re-initialisation of the handshake runs.
- HciEvents.HciEventContext.TinyWiimoteResetDevice: the same as for a disconnection.
- HciEvents.HciEventContext.HandleHciEvent: requires events as long as what they announce, since the source reads past the end of shorter ones.
- `tinyWiimoteDisconnect`: it neither touches the connection state nor sends a Create Connection.
- The disconnect, LED and reporting-mode packets: only the memory requests are encoded.
- WebEventStreamProperties.ClientsSeeNoGap: runs of 2^32-1 or more publishes on a channel are outside it, since sequence numbers wrap there.
- HciEventsProperties.ConnectionProvenance: event packets shorter than their announced contents are outside it, since the source reads past their end.
- HciEvents.HciEventContext.HandleResponse: makes no claim about what the inquiry clock offset means, only that the source's value is carried on.
- HciEvents.HciEventContext.HandleRemoteNameRequestComplete: does not look at the event's status byte, as the source does not.
- L2capPackets.SendAclL2capPacket: payloads of 248 to 255 bytes pass the source's length check but overrun its buffer; no caller makes them and a precondition excludes them.
- WifiLifecycle.WifiHttpServer.Begin: the causes of a failed start are one input, not told apart as in the source.
- OpenApiReader.DocumentIsRead: routes whose method is the lower-case get or post are outside it, since they print like the upper-case ones.
- OpenApi.JsonWriter.AppendFormat: the text is given as formatted; a failing or null-buffer `vsnprintf` is not modelled.
