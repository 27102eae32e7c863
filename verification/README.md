# Drone simulator relay and client, modelled in Dafny

This project models the two halves of a drone-simulator SDK.

- **The relay** (`proxy.py`, class `WebSocketProxy`). It sits between one
  browser-hosted simulator (the *browser*) and any number of external
  controller programs (the *clients*). The first connection accepted while no
  browser is held becomes the browser. Every other connection becomes a client.
  Browser messages are broadcast to all clients. Client messages go to the
  browser, or are answered with an `error` envelope when there is none. The
  relay also tracks disconnects and shutdown.
- **The client helpers** (`client.py`, classes `DroneState`, `DroneCamera`,
  `DroneClient`). These cover the guards, clamping, defaulting and stamping
  applied to outgoing messages, the base64 padding of camera frames, the
  telemetry merge, and the type dispatch of incoming messages.

The relay is modelled as a pure state machine. `Relay.Step(proxy, event)`
returns the new registry and the set of actions (sends and closes) it issues.
Connections are abstract ids (`nat`) and payloads are opaque strings. The two
envelopes the relay makes itself are the constructors `Status` and `Error`.
A send that raises during a broadcast is a nondeterministic input: the
`failed` set carried by the event.

The client is modelled with pure functions. The clock is the parameter
`nowMs`, and the success of a websocket send is the parameter `delivered`.

Files:

| file | module | contents |
|---|---|---|
| `wrappers.dfy` | `Wrappers` | `Option`, `Result` |
| `relay.dfy` | `Relay` | registry, events, per-event handlers, `Step`, the broadcast loops, the as-written removal |
| `relay_properties.dfy` | `RelayProperties` | role, routing, fan-out, browser-loss, idempotence lemmas; scenarios; the removal fault |
| `json.dfy` | `Json` | decoded JSON values, `dict.get` |
| `frames.dfy` | `Frames` | base64 padding and the frame-text step of `process_frame` |
| `telemetry.dfy` | `Telemetry` | `DroneState` and its `update` |
| `client.dfy` | `DroneClient` | send helpers, dispatch, the receive loop |
| `client_properties.dfy` | `ClientProperties` | lemmas relating the client helpers |

Modelling choices:

- **Atomic steps.** Each event is handled in one step. A broadcast iterates a
  snapshot of the client set, so no other handler can run in the middle of it.
- **Outbox as a set.** Within one step the outbox is a set, because Python
  iterates a `set` in no specified order. `Step` is proved to address each
  connection at most once per step (`OnePerRecipient`). The imperative
  `BroadcastToClients` produces a sequence with exactly one send per client.
- **Client loop endings.** A client's receive loop can end because its peer
  closed, or because forwarding to the browser (proxy.py:111) or sending the
  `error` reply (proxy.py:114) raised `ConnectionClosed`. All of these reach
  the same `finally` block, and all are the event `ClientDisconnect`. The same
  holds for the browser's loop and `BrowserDisconnect`.
- **The status envelope is always true.** The `status` envelope a new client
  receives reports whether a browser is held (proxy.py:101). That branch is
  only reached while a browser is held, so the flag is always true.
- **Stale client on a failed status send.** The status send at proxy.py:98 is
  outside the `try`/`finally`. If it raises, the client stays registered with
  no receive loop, until a later broadcast fails to reach it and evicts it.
  `OnConnect` models this as written: a failure does not change the registry.
- **No client before a browser.** The first connection after start always
  takes the browser slot, whichever program opened it. A client without a
  browser exists only after the browser has left. So the `error` reply is
  reachable only on that path (`RelayProperties.NoBrowserScenario`).
- **Connections after shutdown.** `handle_connection` does not look at
  `running`, so `Connect` registers a connection whatever the flag says.
- **Helpers report success on a failed send.** `start_camera`, `stop_camera`
  and `send_control` return true whenever the client is connected, even if
  the send failed. `send_message` swallows every exception, so their own
  `except` branches are never taken. The failure shows only in the dropped
  `connected` flag (`DroneClient.SendGuarded`).

## Model

| member | source | states |
|---|---|---|
| Relay.Broadcast | proxy.py:127-142 | Every client of the snapshot is sent the envelope exactly once. Nothing goes to anyone else. Afterwards exactly the clients whose send failed are gone. An empty client set sends nothing and changes nothing. |
| Relay.SendToEach | proxy.py:133-138 | The send loop sends to each client exactly once (as many sends as clients, no repeats). It collects exactly the clients whose send failed. |
| Relay.RemoveEach | proxy.py:140-142 | The clean-up loop removes exactly the collected clients, which are all registered, so the set shrinks by their number. |
| Relay.BroadcastToClients | proxy.py:127-142 | The imperative broadcast issues one send per client, never two to the same client. It leaves the same outbox and registry as `Broadcast`. |
| Relay.OnStart | proxy.py:36-38 | Starting sets the running flag and changes nothing else. |
| Relay.OnConnect | proxy.py:58-104 | With the browser slot empty, the new connection becomes the browser and nothing is sent. Otherwise it joins the clients, the browser is unchanged, and it gets exactly one `status` envelope with `connected` true. |
| Relay.OnBrowserMessage | proxy.py:71-75 | A browser message reaches exactly the clients, unchanged, and never the browser. Afterwards the clients whose send failed are removed. |
| Relay.OnClientMessage | proxy.py:106-119 | The registry is unchanged and exactly one action is issued. It forwards the text verbatim to the browser when one is held. Otherwise it sends one `error` envelope to the sender. |
| Relay.OnBrowserDisconnect | proxy.py:78-88 | The browser slot is cleared. Every client then registered gets one `status` envelope with `connected` false. Only clients whose send failed are removed. |
| Relay.OnClientDisconnect | proxy.py:122-125 | Exactly that client is removed. Browser and running flag are kept and nothing is sent. This is the corrected removal, a no-op when the client is absent. |
| Relay.CloseAll | proxy.py:152-159 | The shutdown closes reach exactly the registered connections (every client, plus the browser if held). They are all closes. |
| Relay.OnShutdown | proxy.py:144-163 | Shutdown when not running sends nothing. Otherwise it clears the flag, keeps the registry, and closes exactly the registered connections. |
| Relay.Step | proxy.py:58-163 | Each step keeps the invariant that the browser is never a client, as long as connecting ids are new. It addresses each connection at most once. It never replaces a held browser, and it adds no client except the connecting one. |
| Relay.RunKeepsValid | proxy.py:61-93 | Over any sequence of events whose connects bring new ids, the browser is never also a client. |
| Relay.Outboxes | proxy.py:58-163 | Outbox k is exactly what event k emits from the registry the earlier events left, and none of them addresses a connection twice. |
| Relay.RemoveAsWritten | proxy.py:124 | Python's `set.remove` succeeds exactly when the client is present, shrinking the set by one. Otherwise it raises `KeyError` for that client. |
| Relay.StepAsWritten | proxy.py:120-125 | The step with the as-written removal faults exactly on a disconnect of a client no longer in the set. In every other case it agrees with `Step`. |
| RelayProperties.RoleAssignment | proxy.py:58-64 | A new connection becomes the browser iff no browser is held. It becomes a client iff one is held. The invariant is kept. |
| RelayProperties.ClientStatusMatchesBrowser | proxy.py:97-104 | A new client is the only recipient. Its `status` flag equals whether a browser is held after the step. |
| RelayProperties.FanoutReachesExactlyClients | proxy.py:73-75 | A browser message is sent, verbatim, to a connection iff it is a client, and never to the browser. |
| RelayProperties.FailedSendsEvictExactlyThose | proxy.py:133-142 | A failing send does not stop delivery to the rest. A client survives the broadcast iff its send did not fail. |
| RelayProperties.NoBrowserRepliesOnlyToSender | proxy.py:112-119 | Without a browser, the only recipient is the sender. It gets only the `error` envelope and the registry is unchanged. |
| RelayProperties.ClientMessageReachesBrowser | proxy.py:110-111 | With a browser, the only recipient is the browser. It gets the client's text verbatim. |
| RelayProperties.BrowserLossThenNextConnectionIsBrowser | proxy.py:78-88 | After the browser leaves, each remaining client gets exactly one `connected`-false status. The next new connection becomes the browser, and no client is promoted. |
| RelayProperties.ShutdownIdempotent | proxy.py:146-150 | A second shutdown sends nothing and changes nothing. |
| RelayProperties.ClientReleaseIdempotent | proxy.py:124 | Releasing a client twice has the effect of releasing it once (corrected removal). |
| RelayProperties.EvictedClientReleaseFaults | proxy.py:124 | As written, a client evicted by a failed broadcast send makes its own clean-up raise `KeyError`. |
| RelayProperties.EvictionTraceFaults | proxy.py:142 | The concrete trace start, connect 0, connect 1, then a browser message whose send to 1 fails. It ends with no clients, and client 1's clean-up then raises `KeyError`. |
| RelayProperties.FanoutScenario | proxy.py:61-75 | Connections 0, 1, 2 make 0 the browser and 1, 2 the clients. A browser message reaches exactly 1 and 2. |
| RelayProperties.BrowserReplacementScenario | proxy.py:61-119 | After browser 0 leaves, client 1 gets one false status. Connection 2 becomes the browser, and client 1's next message reaches 2. |
| RelayProperties.FirstConnectionIsBrowser | proxy.py:58-68 | The first connection after start becomes the browser, with no clients. |
| RelayProperties.NoBrowserScenario | proxy.py:78-119 | After browser 0 leaves, client 1 remains. Its message comes back to it alone as one `error` envelope, and the registry is unchanged. |
| Frames.Fill | client.py:54 | `'=' * n` has length n and contains only `'='`. |
| Frames.Pad | client.py:51-54 | The result extends the input by fewer than four `'='` to a multiple of four. Already aligned input is unchanged. |
| Frames.PadUnique | client.py:51-54 | Any string that pads the input this way is the padding step's result. |
| Frames.PadIdempotent | client.py:51-54 | Padding a padded string changes nothing. |
| Frames.FrameText | client.py:44-87 | A frame string is produced iff the frame is an object whose `data` is a non-empty string, and it is that string's padding. A frame that is not an object, or a missing, empty or non-string `data`, gives `None`. |
| Telemetry.Update | client.py:27-33 | Each of position, orientation, velocity and rotation rates (key `rotationRates`) is replaced iff its key is present, else kept. The timestamp comes from the telemetry when present, else from the clock. |
| DroneClient.SendMessage | client.py:204-217 | Nothing is sent unless connected. Otherwise it sends exactly once, stamped `sender="client"` with the clock. It returns true iff connected and delivered. Afterwards connected equals the returned value and nothing else changes. |
| DroneClient.Clamp | client.py:192-195 | The result lies in [-1, 1]. An input already there is unchanged. Inputs above or below the range go to 1 or -1. |
| DroneClient.SendGuarded | client.py:136-202 | When not connected: false, nothing sent, client unchanged. When connected: true, the command goes out stamped, and the client is unchanged except that it stays connected iff the send was delivered. |
| DroneClient.StartCamera | client.py:136-157 | When not connected: false, nothing sent, client unchanged. Otherwise it returns true and sends, stamped, an active camera-stream command with the given settings; the client stays connected iff the send was delivered and is otherwise unchanged. |
| DroneClient.StopCamera | client.py:159-173 | When not connected: false, nothing sent, client unchanged. Otherwise it returns true and sends, stamped, an inactive camera-stream command without settings; the client stays connected iff the send was delivered and is otherwise unchanged. |
| DroneClient.SendControl | client.py:175-202 | When not connected: false, nothing sent, client unchanged. Otherwise it returns true and sends a stamped control command; each value is its input when in [-1, 1], 1 when above and -1 when below. The client stays connected iff the send was delivered and is otherwise unchanged. |
| DroneClient.Field | client.py:273-285 | A position-request field is the given value when its group and key are present, else 0. |
| DroneClient.SendPosition | client.py:252-290 | Raises iff no websocket was opened. Otherwise it sends setPosition built from the five fields, each defaulting to 0. |
| DroneClient.RequestCameraParameters | client.py:292-307 | Raises iff no websocket was opened. Otherwise a request becomes pending. When connected it sends exactly a stamped `get_camera_parameters` message and stays connected iff that was delivered; otherwise nothing is sent. Nothing else changes. |
| DroneClient.CollectCameraParameters | client.py:309-325 | The requester gets an answer iff one has arrived, and it is that message. Either way the request is dropped and nothing else changes. |
| DroneClient.Dispatch | client.py:231-250 | Telemetry whose `data` is an object updates the state and notifies iff a callback is set. A frame with `data` yields its padded text. `camera_parameters` answers a pending request. A second answer before the requester resumes raises. Other types, `null` included, change nothing. A message that is not an object, has no type, is telemetry without object `data`, or is a frame without `data` raises and disconnects. |
| DroneClient.Drain | client.py:229-250 | At most one reaction per message, and only the last may be a fault; stopping before the messages run out means it was. A running, connected client always ends disconnected. A client not running or not connected handles nothing. |
| DroneClient.DrainAnswersEachMessage | client.py:229-250 | Reaction i is the handling of message i: a state update iff message i is well-formed telemetry (notifying iff a callback is set), a frame iff it is a well-formed frame, carrying that frame's text, and a fault whenever it is malformed. Only a malformed or a `camera_parameters` message can fault or deliver an answer. |
| DroneClient.DrainHandlesWellFormedInbox | client.py:229-250 | A running, connected client handles every message of an inbox with no malformed and no `camera_parameters` message. |
| DroneClient.DrainAppliesTelemetry | client.py:229-250 | After the loop the drone state is the in-order merge of the handled well-formed telemetry messages, each at its own clock reading, and the socket and callback flag are unchanged. |
| DroneClient.ReceiveMessages | client.py:223-250 | When not connected, nothing happens. Otherwise the loop gives exactly the client and reactions of `Drain`. |
| ClientProperties.ClampIdempotent | client.py:192-195 | Clamping twice equals clamping once. |
| ClientProperties.ClampMonotone | client.py:192-195 | Clamping preserves order. |
| ClientProperties.FailedSendLatchesDisconnected | client.py:136-217 | After a failed send, every later send, `start_camera`, `stop_camera` and `send_control` (any four values) is refused and sends nothing. |
| ClientProperties.GuardsRefuseWhenDisconnected | client.py:136-186 | `start_camera`, `stop_camera` and `send_control` (any four values) return false, send nothing and change nothing when not connected. |
| ClientProperties.NewClientRefusesEverything | client.py:104-186 | A client not yet connected refuses `start_camera` (with its default settings), `stop_camera` and `send_control`. Its position and parameter requests raise, and its receive loop handles nothing. |
| ClientProperties.GuardedSuccessDespiteFailedSend | client.py:164-170 | A connected `stop_camera` whose send fails still returns true, and the client is then disconnected. |
| ClientProperties.AltitudeNotForwarded | client.py:273-287 | Changing or adding an altitude in the request does not change the outcome. |
| ClientProperties.EmptyPositionDefaultsToZero | client.py:273-287 | An empty request sends setPosition with all five values 0. |
| ClientProperties.UpdateIdempotent | client.py:27-33 | Applying the same telemetry twice at the same clock equals applying it once. |
| ClientProperties.UpdateReadsOnlyTelemetryKeys | client.py:27-33 | Keys other than the five telemetry keys do not affect the update. |
| ClientProperties.UpdateWithoutPartsOnlyStamps | client.py:27-33 | Telemetry without any part key keeps every part and only sets the timestamp. |
| ClientProperties.SnakeCaseRotationRatesIgnored | client.py:32 | A `rotation_rates` key (snake case) does not update the rotation rates. |
| ClientProperties.ParametersOnlyWhenRequested | client.py:241-243 | A `camera_parameters` message is ignored without a request. With a pending request it becomes that request's answer. |
| ClientProperties.RequestThenAnswer | client.py:292-325 | A request followed by a `camera_parameters` message stores that message as the answer. The requester then collects exactly it, and the request is dropped. |
| ClientProperties.AnswerAfterCollectIgnored | client.py:241-325 | Once the requester has resumed, a later `camera_parameters` message is ignored. |
| ClientProperties.LateAnswerIgnored | client.py:309-325 | A request without an answer times out with nothing, and an answer arriving afterwards is ignored. |
| ClientProperties.SecondAnswerBeforeCollectFaults | client.py:241-250 | A second answer before the requester resumes raises and disconnects. |
| ClientProperties.UnknownTypesIgnored | client.py:233-243 | An object message whose `type` is not one of the three handled strings leaves the client unchanged. |
| ClientProperties.NullTypeIgnored | client.py:233-243 | A message whose `type` is `null` is ignored. |
| ClientProperties.NotAnObjectFaults | client.py:231-250 | A received text that is not a JSON object raises and disconnects. |
| ClientProperties.NonObjectTelemetryFaults | client.py:233-250 | Telemetry whose `data` is not an object raises inside `update` and disconnects. |
| ClientProperties.NonObjectFrameGivesNoImage | client.py:44-87 | A frame whose `data` is not an object yields no frame text and keeps the connection. |
| ClientProperties.TelemetryUpdatesThenNotifies | client.py:233-236 | A telemetry message with object `data` updates the state, then notifies iff a callback is set. |

## Left out

- Websocket I/O: the `websockets.serve` accept loop, `async for` receive loops, and real send and close calls (proxy.py:36-56, 73, 108, 136, 155-168). These appear only as events, the `failed` set and outbox actions. Stopping the listening server (proxy.py:165-168) is not modelled.
- Interleaving inside `broadcast_to_clients`. The live client set can change across the `await` at proxy.py:136. In Python that can raise "set changed size during iteration". It can also let a client's own clean-up at proxy.py:124 run first, so that the removal at proxy.py:142 raises `KeyError` inside the browser's loop (proxy.py:75); the browser's `finally` (proxy.py:78-88) then ends its session. The model takes each broadcast as one atomic step over a snapshot, so it shows only the other order (see Findings).
- Signal handlers, argument parsing, logging and the exit code (proxy.py:40-44, 172-196): process plumbing.
- Relay.Step: the outbox is a set, so the order of the sends within one broadcast (Python set order) is not stated. Per-step delivery is stated exactly.
- Image decoding with OpenCV and PIL, the display window, the frame callback, `frame_count` and `latest_frame` (client.py:56-100). These are foreign libraries and UI. `Frames.FrameText` stops at the string handed to the decoder.
- `connect` and `disconnect` (client.py:118-134): socket lifecycle. Their effect is only the `hasSocket`, `connected` and `running` fields.
- The 3-second clock of the camera-parameters wait, and the numpy conversion of the answer (client.py:311-321): time and a foreign library. `DroneClient.CollectCameraParameters` is the requester resuming, with the answer if one arrived and as a timeout otherwise; when that happens is up to the caller.
- JSON encoding and decoding. Incoming messages are decoded values; a text that fails to parse is treated like any other non-object (`NotAnObject`), which raises in the same way. JSON numbers are unbounded integers and reals. Position requests are maps of numbers, so a non-dictionary group, which would raise, is not modelled.
- DroneClient.DrainAppliesTelemetry: the camera-parameters request after the loop is not stated as a fold over the messages; each message's effect on it is stated by `DroneClient.Dispatch`.
- DroneClient.Clamp: Python floats are modelled as reals, so NaN is not represented. `max(-1, min(1, nan))` returns 1, since `nan < 1` is false; the model has no such input. Infinities behave as any out-of-range value.
- The callbacks themselves (state and frame). The state callback is a flag, so an exception raised inside a callback is not modelled.
- The demo scripts under `examples/` and the package's `__init__.py`, which only re-exports.

## Findings

| source | as written | input that shows it | evidently intended | confidence | as-written member | corrected member |
|---|---|---|---|---|---|---|
| proxy.py:124 | The client clean-up calls `set.remove`. That raises `KeyError` when a broadcast already evicted the client at proxy.py:142. | Browser 0 and client 1 connect. The browser sends "x" and the send to 1 fails, so 1 is evicted. Client 1's receive loop then ends. | Removal is idempotent (a `discard`), so the clean-up cannot raise. | not executed; high | RelayProperties.EvictionTraceFaults | Relay.OnClientDisconnect |

The same pair of removals can also run in the other order. If client 1's
clean-up at proxy.py:124 runs while the broadcast is suspended at the `await`
of proxy.py:136, the removal at proxy.py:142 is the one that raises `KeyError`.
It raises inside the browser's receive loop (proxy.py:75), whose `finally`
(proxy.py:78-88) then ends the browser's session. The atomic model does not
represent that order (see "## Left out"); a `discard` at both places is the
evidently intended behaviour there too.
