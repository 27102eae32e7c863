/**
 * DroneClient (client.py:102-325): the guards, defaults and stamping the
 * client applies to what it sends, and the dispatch of what it receives.
 *
 * The websocket is abstract: `hasSocket` says whether one was opened, a send
 * is an attempt whose success is the parameter `delivered`, and the clock is
 * the parameter `nowMs` (milliseconds since the epoch).
 */
module DroneClient {
  import opened Wrappers
  import opened Json
  import opened Telemetry
  import Frames

  /** A received text after `json.loads` (client.py:231): a JSON object with
      its fields, or anything else (a text that does not parse, or an array,
      string, number, boolean or null at top level), which the dispatch
      cannot index by `type`. */
  datatype Incoming = Message(fields: map<string, Value>) | NotAnObject

  /** The message is an object whose `type` field is the string `name`. A
      `type` of any other JSON value, `null` included, matches no name. */
  predicate IsType(m: Incoming, name: string) {
    m.Message? && "type" in m.fields && m.fields["type"] == Text(name)
  }

  /** One received message together with the clock reading when it is handled. */
  datatype Arrival = Arrival(message: Incoming, nowMs: int)

  /** The camera-parameters request (`_camera_params_future`): none, waiting
      for its answer, or answered but not yet collected by the requester.
      The requester's `finally` (client.py:323-325) returns it to `NoRequest`. */
  datatype ParamsRequest = NoRequest | Awaiting | Answered(response: Incoming)

  datatype Client = Client(
    hasSocket: bool,
    connected: bool,
    running: bool,
    drone: DroneState,
    notifyState: bool,
    params: ParamsRequest)

  /** A client just constructed (client.py:104-116), before `connect`. */
  const NewClient: Client := Client(false, false, true, InitialState, false, NoRequest)

  datatype StreamSettings = StreamSettings(rate: int, quality: real, width: int, height: int)

  /** The default arguments of start_camera (client.py:136-137). */
  const DefaultStream: StreamSettings := StreamSettings(60, 0.8, 640, 480)

  /** The `type` and `data` of the messages the client builds. */
  datatype Command =
    | CameraStream(active: bool, settings: Option<StreamSettings>)
    | Control(roll: real, pitch: real, yaw: real, throttle: real)
    | SetPosition(longitude: real, latitude: real, roll: real, pitch: real, yaw: real)
    | GetCameraParameters

  /** A message as send_message puts it on the wire. */
  datatype Outgoing = Outgoing(command: Command, sender: string, timestamp: int)

  /** The outcome of a send: the value returned, the client afterwards, and the
      message handed to the websocket, if any. */
  datatype Sent = Sent(ok: bool, client: Client, attempted: Option<Outgoing>)

  const SenderTag: string := "client"

  datatype ClientError = NotConnectedToServer

  /** send_message (client.py:204-217): nothing is sent unless connected;
      otherwise the message is stamped with the sender and the clock and sent,
      and a failed send drops the connected flag and returns false. */
  function SendMessage(c: Client, command: Command, nowMs: int, delivered: bool): (r: Sent)
    ensures r.attempted.Some? <==> c.connected
    ensures r.attempted.Some? ==> r.attempted.value == Outgoing(command, SenderTag, nowMs)
    ensures r.ok <==> c.connected && delivered
    ensures r.client.connected == r.ok
    ensures r.client == c.(connected := r.client.connected)
  {
    if !c.connected then Sent(false, c, None)
    else Sent(delivered, c.(connected := delivered), Some(Outgoing(command, SenderTag, nowMs)))
  }

  predicate InUnit(x: real) {
    -1.0 <= x <= 1.0
  }

  /** Python's `max(-1, min(1, x))` (client.py:192-195). */
  function Clamp(x: real): (r: real)
    ensures InUnit(r)
    ensures InUnit(x) ==> r == x
    ensures x > 1.0 ==> r == 1.0
    ensures x < -1.0 ==> r == -1.0
  {
    var upper := if x < 1.0 then x else 1.0;
    if upper > -1.0 then upper else -1.0
  }

  /** The part of a send helper shared by start_camera, stop_camera and
      send_control: false and nothing sent when not connected; otherwise the
      command goes through send_message and the helper returns true. The
      result of send_message is ignored there, so a failed send still reports
      success and shows only in the dropped connected flag. */
  function SendGuarded(c: Client, command: Command, nowMs: int, delivered: bool): (r: Sent)
    ensures !c.connected ==> r == Sent(false, c, None)
    ensures c.connected ==> r.ok && r.attempted == Some(Outgoing(command, SenderTag, nowMs))
    ensures c.connected ==> r.client == c.(connected := delivered)
    ensures r.client.connected == (c.connected && delivered)
  {
    if !c.connected then Sent(false, c, None)
    else
      var s := SendMessage(c, command, nowMs, delivered);
      Sent(true, s.client, s.attempted)
  }

  /** start_camera (client.py:136-157). */
  function StartCamera(c: Client, settings: StreamSettings, nowMs: int, delivered: bool): (r: Sent)
    ensures !c.connected ==> r == Sent(false, c, None)
    ensures c.connected ==> r.ok && r.attempted == Some(Outgoing(CameraStream(true, Some(settings)), SenderTag, nowMs))
    ensures c.connected ==> r.client == c.(connected := delivered)
  {
    SendGuarded(c, CameraStream(true, Some(settings)), nowMs, delivered)
  }

  /** stop_camera (client.py:159-173). */
  function StopCamera(c: Client, nowMs: int, delivered: bool): (r: Sent)
    ensures !c.connected ==> r == Sent(false, c, None)
    ensures c.connected ==> r.ok && r.attempted == Some(Outgoing(CameraStream(false, None), SenderTag, nowMs))
    ensures c.connected ==> r.client == c.(connected := delivered)
  {
    SendGuarded(c, CameraStream(false, None), nowMs, delivered)
  }

  /** A control input `x` goes on the wire as `y`: unchanged when in [-1, 1],
      saturated to 1 above the range and to -1 below it. */
  predicate SentAs(x: real, y: real) {
    && (InUnit(x) ==> y == x)
    && (x > 1.0 ==> y == 1.0)
    && (x < -1.0 ==> y == -1.0)
  }

  /** send_control (client.py:175-202): every input is clamped into [-1, 1],
      and an input already in range is sent unchanged. */
  function SendControl(c: Client, roll: real, pitch: real, yaw: real, throttle: real, nowMs: int, delivered: bool): (r: Sent)
    ensures !c.connected ==> r == Sent(false, c, None)
    ensures c.connected ==> r.ok && r.attempted.Some? && r.attempted.value.command.Control?
    ensures c.connected ==> r.client == c.(connected := delivered)
    ensures r.attempted.Some? ==> r.attempted.value.sender == SenderTag && r.attempted.value.timestamp == nowMs
    ensures r.attempted.Some? ==>
      var m := r.attempted.value.command;
      && m.Control?
      && InUnit(m.roll) && InUnit(m.pitch) && InUnit(m.yaw) && InUnit(m.throttle)
      && SentAs(roll, m.roll) && SentAs(pitch, m.pitch) && SentAs(yaw, m.yaw) && SentAs(throttle, m.throttle)
  {
    SendGuarded(c, Control(Clamp(roll), Clamp(pitch), Clamp(yaw), Clamp(throttle)), nowMs, delivered)
  }

  /** A field of the position request, 0 when the group or the key is missing
      (`position_data.get(group, {}).get(key, 0)`). */
  function Field(request: map<string, map<string, real>>, group: string, key: string): (v: real)
    ensures group in request && key in request[group] ==> v == request[group][key]
    ensures !(group in request && key in request[group]) ==> v == 0.0
  {
    Get(Get(request, group, map[]), key, 0.0)
  }

  /** send_position (client.py:252-290): raises when no websocket was ever
      opened; otherwise sends a setPosition command built from longitude,
      latitude, roll, pitch and yaw, each defaulting to 0. The altitude is
      never read. The `ok` of the outcome is send_message's result, which the
      source discards. */
  function SendPosition(c: Client, request: map<string, map<string, real>>, nowMs: int, delivered: bool): (r: Result<Sent, ClientError>)
    ensures r.Failure? <==> !c.hasSocket
    ensures r.Success? ==> r.value == SendMessage(c, SetPosition(
      Field(request, "position", "longitude"),
      Field(request, "position", "latitude"),
      Field(request, "orientation", "roll"),
      Field(request, "orientation", "pitch"),
      Field(request, "orientation", "yaw")), nowMs, delivered)
  {
    if !c.hasSocket then Failure(NotConnectedToServer)
    else
      var pos := Get(request, "position", map[]);
      var orient := Get(request, "orientation", map[]);
      var command := SetPosition(
        Get(pos, "longitude", 0.0),
        Get(pos, "latitude", 0.0),
        Get(orient, "roll", 0.0),
        Get(orient, "pitch", 0.0),
        Get(orient, "yaw", 0.0));
      Success(SendMessage(c, command, nowMs, delivered))
  }

  /** The request half of get_camera_parameters (client.py:295-307): raises
      when no websocket was opened; otherwise a request becomes pending and a
      `get_camera_parameters` message goes through send_message. Waiting for
      the answer is not modelled. */
  function RequestCameraParameters(c: Client, nowMs: int, delivered: bool): (r: Result<Sent, ClientError>)
    ensures r.Failure? <==> !c.hasSocket
    ensures r.Success? ==> r.value.client.params == Awaiting
    ensures r.Success? ==> (r.value.attempted.Some? <==> c.connected)
    ensures r.Success? && c.connected ==>
      && r.value.attempted == Some(Outgoing(GetCameraParameters, SenderTag, nowMs))
      && r.value.client == c.(params := Awaiting, connected := delivered)
    ensures r.Success? && !c.connected ==> r.value.client == c.(params := Awaiting)
  {
    if !c.hasSocket then Failure(NotConnectedToServer)
    else Success(SendMessage(c.(params := Awaiting), GetCameraParameters, nowMs, delivered))
  }

  /** The requester resuming: the answer it collects, if any, and the client
      afterwards. */
  datatype Collected = Collected(answer: Option<Incoming>, client: Client)

  /** The waiting half of get_camera_parameters (client.py:309-325): the
      requester takes the answer when one has arrived and otherwise times out;
      either way its `finally` drops the request. */
  function CollectCameraParameters(c: Client): (r: Collected)
    ensures r.answer.Some? <==> c.params.Answered?
    ensures c.params.Answered? ==> r.answer == Some(c.params.response)
    ensures r.client.params.NoRequest?
    ensures r.client == c.(params := r.client.params)
  {
    match c.params
    case Answered(response) => Collected(Some(response), c.(params := NoRequest))
    case _ => Collected(None, c.(params := NoRequest))
  }

  /** What handling one received message did. */
  datatype Reaction =
    | StateUpdated(notified: bool)
    | FrameReceived(base64: Option<string>)
    | ParametersDelivered
    | Ignored
    | Faulted

  datatype Received = Received(client: Client, reaction: Reaction)

  /** A message whose handling raises whatever the client's state: it is not
      an object (client.py:231-233), it has no `type` (client.py:233), it is
      telemetry whose `data` is missing or is not an object, so that `update`
      has no `.get` (client.py:29, 234), or it is a frame without `data`
      (client.py:239). */
  predicate Malformed(m: Incoming) {
    || m.NotAnObject?
    || "type" !in m.fields
    || (IsType(m, "telemetry") && !("data" in m.fields && m.fields["data"].Object?))
    || (IsType(m, "camera_frame") && "data" !in m.fields)
  }

  /** A message whose handling raises inside the receive loop: a malformed
      one, or a second answer to a request already answered (setting the
      result of a finished future). */
  predicate Raises(c: Client, m: Incoming) {
    Malformed(m) || (IsType(m, "camera_parameters") && c.params.Answered?)
  }

  /** What the reaction to `m` must be whatever the client's state: telemetry
      updates the state (notifying iff `notify`), a frame yields its text, a
      malformed message faults, and only a malformed or a `camera_parameters`
      message can fault or deliver an answer. */
  predicate Answers(m: Incoming, x: Reaction, notify: bool) {
    && (x.StateUpdated? <==> IsType(m, "telemetry") && !Malformed(m))
    && (x.StateUpdated? ==> x.notified == notify)
    && (x.FrameReceived? <==> IsType(m, "camera_frame") && !Malformed(m))
    && (x.FrameReceived? ==> x.base64 == Frames.FrameText(m.fields["data"]))
    && (Malformed(m) ==> x.Faulted?)
    && (x.Faulted? ==> Malformed(m) || IsType(m, "camera_parameters"))
    && (x.ParametersDelivered? ==> IsType(m, "camera_parameters"))
  }

  /** The dispatch inside receive_messages (client.py:231-250). */
  function Dispatch(c: Client, m: Incoming, nowMs: int): (r: Received)
    ensures r.reaction.Faulted? <==> Raises(c, m)
    ensures r.reaction.Faulted? ==> r.client == c.(connected := false)
    ensures r.reaction.StateUpdated? <==> IsType(m, "telemetry") && !Malformed(m)
    ensures r.reaction.StateUpdated? ==>
      r.client == c.(drone := Update(c.drone, m.fields["data"].fields, nowMs)) && r.reaction.notified == c.notifyState
    ensures r.reaction.FrameReceived? <==> IsType(m, "camera_frame") && !Malformed(m)
    ensures r.reaction.FrameReceived? ==> r.client == c && r.reaction.base64 == Frames.FrameText(m.fields["data"])
    ensures r.reaction.ParametersDelivered? <==> IsType(m, "camera_parameters") && c.params.Awaiting?
    ensures r.reaction.ParametersDelivered? ==> r.client == c.(params := Answered(m))
    ensures r.reaction.Ignored? ==> r.client == c
    ensures Answers(m, r.reaction, c.notifyState)
  {
    match m
    case NotAnObject => Received(c.(connected := false), Faulted)
    case Message(fields) =>
      if "type" !in fields then Received(c.(connected := false), Faulted)
      else if fields["type"] == Text("telemetry") then
        if "data" in fields && fields["data"].Object? then
          Received(c.(drone := Update(c.drone, fields["data"].fields, nowMs)), StateUpdated(c.notifyState))
        else Received(c.(connected := false), Faulted)
      else if fields["type"] == Text("camera_frame") then
        if "data" in fields then Received(c, FrameReceived(Frames.FrameText(fields["data"])))
        else Received(c.(connected := false), Faulted)
      else if fields["type"] == Text("camera_parameters") && !c.params.NoRequest? then
        if c.params.Awaiting? then Received(c.(params := Answered(m)), ParametersDelivered)
        else Received(c.(connected := false), Faulted)
      else
        Received(c, Ignored)
  }

  /** The client after a run of the receive loop, and the reaction to each
      message it handled, in order. */
  datatype Drained = Drained(client: Client, reactions: seq<Reaction>)

  /** The receive loop (client.py:229-250) over the messages that arrive before
      the connection closes: it runs while running and connected, stops at the
      first message whose handling raises, and when the messages run out the
      next receive raises ConnectionClosed, which drops the connected flag.
      Reaction `i` is the handling of message `i`. */
  function Drain(c: Client, inbox: seq<Arrival>): (r: Drained)
    ensures |r.reactions| <= |inbox|
    ensures forall i | 0 <= i < |r.reactions| - 1 :: !r.reactions[i].Faulted?
    ensures c.running && c.connected ==> !r.client.connected
    ensures !(c.running && c.connected) ==> r == Drained(c, [])
    ensures r.client.running == c.running
    ensures |r.reactions| < |inbox| && c.running && c.connected ==> |r.reactions| > 0 && r.reactions[|r.reactions| - 1].Faulted?
    decreases |inbox|
  {
    if !(c.running && c.connected) then Drained(c, [])
    else if inbox == [] then Drained(c.(connected := false), [])
    else
      var d := Dispatch(c, inbox[0].message, inbox[0].nowMs);
      var rest := Drain(d.client, inbox[1..]);
      Drained(rest.client, [d.reaction] + rest.reactions)
  }

  /** Reaction `i` of the receive loop is the handling of message `i`: what
      `Answers` demands of it holds for every reaction. */
  lemma {:induction false} DrainAnswersEachMessage(c: Client, inbox: seq<Arrival>)
    ensures var r := Drain(c, inbox);
      forall i | 0 <= i < |r.reactions| :: Answers(inbox[i].message, r.reactions[i], c.notifyState)
    decreases |inbox|
  {
    if c.running && c.connected && inbox != [] {
      var d := Dispatch(c, inbox[0].message, inbox[0].nowMs);
      var rest := Drain(d.client, inbox[1..]);
      DrainAnswersEachMessage(d.client, inbox[1..]);
      var reactions := [d.reaction] + rest.reactions;
      assert Drain(c, inbox).reactions == reactions;
      forall i | 1 <= i < |reactions|
        ensures Answers(inbox[i].message, reactions[i], c.notifyState)
      {
        assert reactions[i] == rest.reactions[i - 1] && inbox[i] == inbox[1..][i - 1];
      }
    }
  }

  /** The drone state after handling `inbox`: each well-formed telemetry
      message, in order, is merged by `Update` at its own clock reading, and
      every other message leaves the state alone. */
  function Applied(s: DroneState, inbox: seq<Arrival>): DroneState
    decreases |inbox|
  {
    if inbox == [] then s
    else
      var m := inbox[0].message;
      var next := if IsType(m, "telemetry") && !Malformed(m) then Update(s, m.fields["data"].fields, inbox[0].nowMs) else s;
      Applied(next, inbox[1..])
  }

  /** After the receive loop the drone state is what the handled telemetry left
      behind, and the socket and the callback flag are as they were. */
  lemma {:induction false} DrainAppliesTelemetry(c: Client, inbox: seq<Arrival>)
    ensures var r := Drain(c, inbox);
      && r.client.hasSocket == c.hasSocket
      && r.client.notifyState == c.notifyState
      && r.client.drone == Applied(c.drone, inbox[..|r.reactions|])
    decreases |inbox|
  {
    if c.running && c.connected && inbox != [] {
      var d := Dispatch(c, inbox[0].message, inbox[0].nowMs);
      var rest := Drain(d.client, inbox[1..]);
      DrainAppliesTelemetry(d.client, inbox[1..]);
      var k := |rest.reactions|;
      DrainHead(c, inbox);
      var handled := inbox[..k + 1];
      assert handled[0] == inbox[0] && handled[1..] == inbox[1..][..k];
      var m := inbox[0].message;
      var next := if IsType(m, "telemetry") && !Malformed(m) then Update(c.drone, m.fields["data"].fields, inbox[0].nowMs) else c.drone;
      assert d.client.drone == next;
      assert Applied(c.drone, handled) == Applied(next, inbox[1..][..k]);
    }
  }

  /** A running, connected client handles every message of an inbox with no
      malformed and no `camera_parameters` message. */
  lemma DrainHandlesWellFormedInbox(c: Client, inbox: seq<Arrival>)
    requires c.running && c.connected
    requires forall i | 0 <= i < |inbox| :: !Malformed(inbox[i].message) && !IsType(inbox[i].message, "camera_parameters")
    ensures |Drain(c, inbox).reactions| == |inbox|
  {
    DrainAnswersEachMessage(c, inbox);
  }

  /** Draining a non-empty inbox handles its first message, then drains the rest. */
  lemma DrainHead(c: Client, inbox: seq<Arrival>)
    requires c.running && c.connected && inbox != []
    ensures var d := Dispatch(c, inbox[0].message, inbox[0].nowMs);
      var rest := Drain(d.client, inbox[1..]);
      Drain(c, inbox) == Drained(rest.client, [d.reaction] + rest.reactions)
  {
  }

  /** When the messages run out, the next receive raises ConnectionClosed. */
  lemma DrainEnd(c: Client)
    requires c.running && c.connected
    ensures Drain(c, []) == Drained(c.(connected := false), [])
  {
  }

  /** One turn of the receive loop keeps the loop's account: the reactions so
      far, then those of draining the rest, make up the whole run `whole`. */
  lemma DrainTurn(whole: Drained, r: Client, tail: seq<Arrival>, reactions: seq<Reaction>)
    requires r.running && r.connected && tail != []
    requires whole == Drained(Drain(r, tail).client, reactions + Drain(r, tail).reactions)
    ensures var d := Dispatch(r, tail[0].message, tail[0].nowMs);
      var rest := Drain(d.client, tail[1..]);
      whole == Drained(rest.client, (reactions + [d.reaction]) + rest.reactions)
  {
    DrainHead(r, tail);
    var d := Dispatch(r, tail[0].message, tail[0].nowMs);
    var rest := Drain(d.client, tail[1..]);
    assert reactions + ([d.reaction] + rest.reactions) == (reactions + [d.reaction]) + rest.reactions;
  }

  /** receive_messages (client.py:223-250) as the source writes it, with a loop:
      nothing happens unless connected; otherwise it behaves as `Drain`. */
  method ReceiveMessages(c: Client, inbox: seq<Arrival>) returns (r: Client, reactions: seq<Reaction>)
    ensures !c.connected ==> r == c && reactions == []
    ensures c.connected ==> Drained(r, reactions) == Drain(c, inbox)
  {
    if !c.connected {
      return c, [];
    }
    r := c;
    reactions := [];
    var i := 0;
    while r.running && r.connected
      invariant 0 <= i <= |inbox|
      invariant Drain(c, inbox) == Drained(Drain(r, inbox[i..]).client, reactions + Drain(r, inbox[i..]).reactions)
      decreases |inbox| - i, if r.connected then 1 else 0
    {
      if i == |inbox| {
        assert inbox[i..] == [];
        DrainEnd(r);
        r := r.(connected := false);
      } else {
        var d := Dispatch(r, inbox[i].message, inbox[i].nowMs);
        assert inbox[i..][0] == inbox[i] && inbox[i..][1..] == inbox[i + 1..];
        DrainTurn(Drain(c, inbox), r, inbox[i..], reactions);
        r := d.client;
        reactions := reactions + [d.reaction];
        i := i + 1;
      }
    }
  }
}
