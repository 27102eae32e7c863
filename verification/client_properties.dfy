/**
 * Properties of the client helpers that relate several calls: clamping is
 * idempotent and monotone, a failed send latches the client disconnected,
 * the position request ignores altitude, telemetry updates read only their
 * own keys, and a camera-parameters answer is taken only when requested.
 */
module ClientProperties {
  import opened Wrappers
  import opened Json
  import opened Telemetry
  import opened DroneClient

  /** Clamping a clamped value changes nothing. */
  lemma ClampIdempotent(x: real)
    ensures Clamp(Clamp(x)) == Clamp(x)
  {
  }

  /** Clamping keeps the order of its inputs. */
  lemma ClampMonotone(x: real, y: real)
    requires x <= y
    ensures Clamp(x) <= Clamp(y)
  {
  }

  /** After a failed send the client is disconnected, so every later send,
      camera command and control command is refused without touching the
      websocket. */
  lemma FailedSendLatchesDisconnected(c: Client, first: Command, later: Command, s: StreamSettings,
                                      roll: real, pitch: real, yaw: real, throttle: real,
                                      t1: int, t2: int, delivered: bool)
    requires c.connected
    ensures var after := SendMessage(c, first, t1, false).client;
      && !after.connected
      && SendMessage(after, later, t2, delivered) == Sent(false, after, None)
      && StartCamera(after, s, t2, delivered) == Sent(false, after, None)
      && StopCamera(after, t2, delivered) == Sent(false, after, None)
      && SendControl(after, roll, pitch, yaw, throttle, t2, delivered) == Sent(false, after, None)
  {
  }

  /** start_camera, stop_camera and send_control refuse and send nothing when
      not connected. */
  lemma GuardsRefuseWhenDisconnected(c: Client, s: StreamSettings, roll: real, pitch: real, yaw: real, throttle: real,
                                     t: int, delivered: bool)
    requires !c.connected
    ensures StartCamera(c, s, t, delivered) == Sent(false, c, None)
    ensures StopCamera(c, t, delivered) == Sent(false, c, None)
    ensures SendControl(c, roll, pitch, yaw, throttle, t, delivered) == Sent(false, c, None)
  {
  }

  /** A client that has not connected yet refuses everything: the helpers,
      `start_camera()` with its default settings included, return false and
      send nothing, the position and parameter requests raise, and the receive
      loop handles nothing. */
  lemma NewClientRefusesEverything(request: map<string, map<string, real>>, inbox: seq<Arrival>,
                                   roll: real, pitch: real, yaw: real, throttle: real, t: int, delivered: bool)
    ensures StartCamera(NewClient, DefaultStream, t, delivered) == Sent(false, NewClient, None)
    ensures StopCamera(NewClient, t, delivered) == Sent(false, NewClient, None)
    ensures SendControl(NewClient, roll, pitch, yaw, throttle, t, delivered) == Sent(false, NewClient, None)
    ensures SendPosition(NewClient, request, t, delivered) == Failure(NotConnectedToServer)
    ensures RequestCameraParameters(NewClient, t, delivered) == Failure(NotConnectedToServer)
    ensures Drain(NewClient, inbox) == Drained(NewClient, [])
  {
  }

  /** A connected client's helper reports success even when the send fails;
      the failure is visible only in the connected flag. */
  lemma GuardedSuccessDespiteFailedSend(c: Client, t: int)
    requires c.connected
    ensures var r := StopCamera(c, t, false);
      r.ok && !r.client.connected
  {
  }

  /** The altitude in a position request never changes what is sent. */
  lemma AltitudeNotForwarded(c: Client, request: map<string, map<string, real>>, altitude: real, t: int, delivered: bool)
    ensures var pos := Get(request, "position", map[]);
      SendPosition(c, request["position" := pos["altitude" := altitude]], t, delivered)
        == SendPosition(c, request, t, delivered)
  {
  }

  /** An empty position request sends all-zero coordinates and angles. */
  lemma EmptyPositionDefaultsToZero(c: Client, t: int, delivered: bool)
    requires c.hasSocket && c.connected
    ensures var r := SendPosition(c, map[], t, delivered);
      r.Success? && r.value.attempted == Some(Outgoing(SetPosition(0.0, 0.0, 0.0, 0.0, 0.0), SenderTag, t))
  {
  }

  /** Applying the same telemetry twice at the same clock reading is the same
      as applying it once. */
  lemma UpdateIdempotent(s: DroneState, telemetry: map<string, Value>, t: int)
    ensures Update(Update(s, telemetry, t), telemetry, t) == Update(s, telemetry, t)
  {
  }

  /** Keys other than the five telemetry keys are ignored. */
  lemma UpdateReadsOnlyTelemetryKeys(s: DroneState, telemetry: map<string, Value>, t: int)
    ensures Update(s, telemetry, t) == Update(s, map k | k in telemetry && k in TelemetryKeys :: telemetry[k], t)
  {
  }

  /** Telemetry carrying none of the part keys keeps every part and only
      restamps; a snake-case `rotation_rates` key is one such key. */
  lemma UpdateWithoutPartsOnlyStamps(s: DroneState, telemetry: map<string, Value>, t: int)
    requires forall part: Part :: Key(part) !in telemetry
    ensures Update(s, telemetry, t) == s.(timestamp := Get(telemetry, "timestamp", Int(t)))
  {
    assert Key(Position) !in telemetry && Key(Orientation) !in telemetry;
    assert Key(Velocity) !in telemetry && Key(RotationRates) !in telemetry;
  }

  /** The rotation rates are read from the camel-case key `rotationRates`
      only; a snake-case `rotation_rates` key leaves them as they were. */
  lemma SnakeCaseRotationRatesIgnored(s: DroneState, v: Value, t: int)
    ensures Update(s, map["rotation_rates" := v], t).rotationRates == s.rotationRates
  {
  }

  /** A `camera_parameters` message is taken only while a request is pending;
      without a request it is ignored and nothing changes. */
  lemma ParametersOnlyWhenRequested(c: Client, m: Incoming, t: int)
    requires IsType(m, "camera_parameters")
    ensures c.params.NoRequest? ==> Dispatch(c, m, t) == Received(c, Ignored)
    ensures c.params.Awaiting? ==> Dispatch(c, m, t) == Received(c.(params := Answered(m)), ParametersDelivered)
  {
  }

  /** A request followed by its answer leaves the answer for the requester,
      who collects exactly that message and drops the request. */
  lemma RequestThenAnswer(c: Client, m: Incoming, t1: int, t2: int, delivered: bool)
    requires c.hasSocket
    requires IsType(m, "camera_parameters")
    ensures var waiting := RequestCameraParameters(c, t1, delivered).value.client;
      var answered := Dispatch(waiting, m, t2);
      && answered == Received(waiting.(params := Answered(m)), ParametersDelivered)
      && CollectCameraParameters(answered.client) == Collected(Some(m), waiting.(params := NoRequest))
  {
  }

  /** Once the requester has resumed, with its answer or after the timeout,
      a further `camera_parameters` message is ignored rather than raising. */
  lemma AnswerAfterCollectIgnored(c: Client, m: Incoming, t: int)
    requires IsType(m, "camera_parameters")
    ensures var after := CollectCameraParameters(c).client;
      Dispatch(after, m, t) == Received(after, Ignored)
  {
  }

  /** A request whose answer has not arrived times out: the requester gets
      nothing, and an answer arriving later is ignored. */
  lemma LateAnswerIgnored(c: Client, m: Incoming, t1: int, t2: int, delivered: bool)
    requires c.hasSocket
    requires IsType(m, "camera_parameters")
    ensures var waiting := RequestCameraParameters(c, t1, delivered).value.client;
      var timedOut := CollectCameraParameters(waiting);
      && timedOut.answer == None
      && Dispatch(timedOut.client, m, t2) == Received(timedOut.client, Ignored)
  {
  }

  /** Before the requester resumes, a second answer raises and drops the
      connection (setting the result of a finished future). */
  lemma SecondAnswerBeforeCollectFaults(c: Client, first: Incoming, second: Incoming, t: int)
    requires c.params.Awaiting?
    requires IsType(first, "camera_parameters") && IsType(second, "camera_parameters")
    ensures var answered := Dispatch(c, first, t).client;
      Dispatch(answered, second, t) == Received(answered.(connected := false), Faulted)
  {
  }

  /** An object message whose `type` is none of the three handled names,
      `null` or a non-string included, leaves the client as it was. */
  lemma UnknownTypesIgnored(c: Client, m: Incoming, t: int)
    requires m.Message? && "type" in m.fields
    requires !IsType(m, "telemetry") && !IsType(m, "camera_frame") && !IsType(m, "camera_parameters")
    ensures Dispatch(c, m, t) == Received(c, Ignored)
  {
  }

  /** A `"type": null` message is ignored. */
  lemma NullTypeIgnored(c: Client, t: int)
    ensures Dispatch(c, Message(map["type" := Null]), t) == Received(c, Ignored)
  {
  }

  /** A received text that is not a JSON object cannot be indexed by `type`:
      handling it raises and drops the connection. */
  lemma NotAnObjectFaults(c: Client, t: int)
    ensures Dispatch(c, NotAnObject, t) == Received(c.(connected := false), Faulted)
  {
  }

  /** Telemetry whose `data` is present but not an object makes `update` raise,
      which drops the connection. */
  lemma NonObjectTelemetryFaults(c: Client, m: Incoming, t: int)
    requires IsType(m, "telemetry") && "data" in m.fields && !m.fields["data"].Object?
    ensures Dispatch(c, m, t) == Received(c.(connected := false), Faulted)
  {
  }

  /** A frame whose `data` is not an object reaches process_frame, whose own
      try block turns the failure into no frame; the connection stays. */
  lemma NonObjectFrameGivesNoImage(c: Client, m: Incoming, t: int)
    requires IsType(m, "camera_frame") && "data" in m.fields && !m.fields["data"].Object?
    ensures Dispatch(c, m, t) == Received(c, FrameReceived(None))
  {
  }

  /** A well-formed telemetry message updates the state and notifies exactly
      when a callback is set. */
  lemma TelemetryUpdatesThenNotifies(c: Client, data: map<string, Value>, t: int)
    ensures Dispatch(c, Message(map["type" := Text("telemetry"), "data" := Object(data)]), t)
      == Received(c.(drone := Update(c.drone, data, t)), StateUpdated(c.notifyState))
  {
  }
}
