/**
 * The live dashboard's connection and subscription controller
 * (frontend/src/Dashboard.tsx, the component state and the callbacks created
 * before its markup). Each React callback is a method of `Dashboard`; each
 * browser event on a socket (open, close, error, message) is a method that
 * names the socket it fired on, because every socket the dashboard has ever
 * created keeps its own handlers and may still fire after it was replaced.
 */
module LiveDashboard {
  import opened Wrappers
  import opened Telemetry
  import opened History

  /** `WebSocket.readyState`. */
  datatype ReadyState = Connecting | Open | Closing | Closed

  /** The two control messages the dashboard sends: `{type, sensor_id}`. */
  datatype Msg = Subscribe(sensorId: string) | Unsubscribe(sensorId: string)

  /**
   * What `onmessage` finds in `event.data`: text `JSON.parse` rejects, the
   * JSON literal `null` (reading `created_at` from it throws), or a reading
   * together with what `new Date(created_at)` makes of its timestamp.
   */
  datatype Inbound = Unparseable | NullPayload | Payload(raw: Reading, clock: Clock)

  /** The `sensor_id` sent for a selection: "all" travels as the empty string. */
  function Topic(selection: string): (t: string)
    ensures t == "" <==> selection == All || selection == ""
    ensures t != "" ==> t == selection
  {
    if selection == All then "" else selection
  }

  class Dashboard {
    /** Every socket created so far, by creation order, with its ready state. */
    var sockets: seq<ReadyState>
    /** The selection each socket's `onopen` closure captured when it was created. */
    var captured: seq<string>
    /** `websocketRef.current`: an index into `sockets`, or null before the first connect. */
    var current: Option<nat>
    var connected: bool
    var connecting: bool
    var selectedSensor: string
    var currentData: Option<Sample>
    var historicalData: seq<Sample>
    /** Every message sent so far, in order; each went to the socket `current` named at the time. */
    var outbox: seq<Msg>

    ghost predicate Valid()
      reads this
    {
      && |captured| == |sockets|
      && current == (if sockets == [] then None else Some(|sockets| - 1))
      && |historicalData| <= Capacity
      && (historicalData != [] ==> currentData == Some(historicalData[|historicalData| - 1]))
    }

    /** `websocketRef.current?.readyState === WebSocket.OPEN`. */
    predicate IsOpen()
      reads this
    {
      current.Some? && current.value < |sockets| && sockets[current.value] == Open
    }

    /** The component's initial state: no socket, both flags false, "all" selected, no data. */
    constructor ()
      ensures Valid()
      ensures sockets == [] && current == None && !connected && !connecting
      ensures selectedSensor == All && currentData == None && historicalData == [] && outbox == []
    {
      sockets, captured, current := [], [], None;
      connected, connecting := false, false;
      selectedSensor, currentData, historicalData := All, None, [];
      outbox := [];
    }

    /**
     * `connectWebSocket`, created while `selection` was the selected sensor:
     * nothing happens when the current socket is open; otherwise a new socket
     * replaces the handle (the old one is not closed) and `connecting` is set.
     */
    method ConnectWebSocket(selection: string)
      requires Valid()
      modifies this`sockets, this`captured, this`current, this`connecting
      ensures Valid()
      ensures old(IsOpen()) ==> unchanged(this)
      ensures !old(IsOpen()) ==>
        && sockets == old(sockets) + [Connecting]
        && captured == old(captured) + [selection]
        && current == Some(|old(sockets)|)
        && connecting
    {
      if IsOpen() {
        return;
      }
      connecting := true;
      sockets := sockets + [Connecting];
      captured := captured + [selection];
      current := Some(|sockets| - 1);
    }

    /**
     * `subscribeToSensor`: sends a subscribe for the sensor ("all" as "") when
     * the current socket is open, and nothing otherwise.
     */
    method SubscribeToSensor(sensorId: string)
      requires Valid()
      modifies this`outbox
      ensures Valid()
      ensures outbox == old(outbox) + if IsOpen() then [Subscribe(Topic(sensorId))] else []
    {
      if IsOpen() {
        outbox := outbox + [Subscribe(Topic(sensorId))];
      }
    }

    /**
     * Socket `sock` opened: both flags are updated, then the selection that
     * socket's `connectWebSocket` captured is subscribed, on the current
     * socket, which sends only if that socket is open.
     */
    method OnOpen(sock: nat)
      requires Valid()
      requires sock < |sockets| && sockets[sock] == Connecting
      modifies this`sockets, this`connected, this`connecting, this`outbox
      ensures Valid()
      ensures sockets == old(sockets)[sock := Open]
      ensures connected && !connecting
      ensures outbox == old(outbox) + if IsOpen() then [Subscribe(Topic(captured[sock]))] else []
      ensures sock == |sockets| - 1 ==> IsOpen()
    {
      sockets := sockets[sock := Open];
      connected := true;
      connecting := false;
      SubscribeToSensor(captured[sock]);
    }

    /**
     * The open handler as it is evidently meant to behave: a socket that has
     * already been replaced updates the flags like any other, but its
     * captured selection is subscribed only when it is still the current
     * socket, so a stale socket's open sends nothing.
     */
    method OnOpenCurrentOnly(sock: nat)
      requires Valid()
      requires sock < |sockets| && sockets[sock] == Connecting
      modifies this`sockets, this`connected, this`connecting, this`outbox
      ensures Valid()
      ensures sockets == old(sockets)[sock := Open]
      ensures connected && !connecting
      ensures sock == |sockets| - 1 ==> IsOpen() && outbox == old(outbox) + [Subscribe(Topic(captured[sock]))]
      ensures sock != |sockets| - 1 ==> outbox == old(outbox)
    {
      sockets := sockets[sock := Open];
      connected := true;
      connecting := false;
      if current == Some(sock) {
        SubscribeToSensor(captured[sock]);
      }
    }

    /** Socket `sock` closed, whether or not it is still the current one: both flags go false. */
    method OnClose(sock: nat)
      requires Valid()
      requires sock < |sockets|
      modifies this`sockets, this`connected, this`connecting
      ensures Valid()
      ensures sockets == old(sockets)[sock := Closed]
      ensures !connected && !connecting
    {
      sockets := sockets[sock := Closed];
      connected := false;
      connecting := false;
    }

    /** Socket `sock` failed (the browser has already marked it closed): both flags go false. */
    method OnError(sock: nat)
      requires Valid()
      requires sock < |sockets|
      modifies this`sockets, this`connected, this`connecting
      ensures Valid()
      ensures sockets == old(sockets)[sock := Closed]
      ensures !connected && !connecting
    {
      sockets := sockets[sock := Closed];
      connected := false;
      connecting := false;
    }

    /**
     * `onmessage`: a payload that makes the `try` block throw is dropped with
     * no change; any other becomes the current sample and is appended to the
     * window, whose oldest entries give way beyond the capacity.
     */
    method OnMessage(event: Inbound)
      requires Valid()
      modifies this`currentData, this`historicalData
      ensures Valid()
      ensures !event.Payload? ==> currentData == old(currentData) && historicalData == old(historicalData)
      ensures event.Payload? ==>
        && currentData == Some(Normalize(event.raw, event.clock))
        && historicalData == AppendCapped(old(historicalData), Normalize(event.raw, event.clock))
        && historicalData[|historicalData| - 1] == Normalize(event.raw, event.clock)
    {
      if event.Payload? {
        var s := Normalize(event.raw, event.clock);
        var h := AppendCapped(historicalData, s);
        assert |h| <= Capacity && h[|h| - 1] == s;
        currentData := Some(s);
        historicalData := h;
      }
    }

    /**
     * `disconnectWebSocket`, created while `selection` was selected: when the
     * current socket is open, one unsubscribe for that selection and then
     * `close()`, which leaves the socket closing until its close event;
     * otherwise nothing. The flags are left to the close event.
     */
    method DisconnectWebSocket(selection: string)
      requires Valid()
      modifies this`outbox, this`sockets
      ensures Valid()
      ensures !old(IsOpen()) ==> unchanged(this)
      ensures old(IsOpen()) ==>
        && outbox == old(outbox) + [Unsubscribe(Topic(selection))]
        && sockets == old(sockets)[old(current).value := Closing]
      ensures !IsOpen()
    {
      if IsOpen() {
        outbox := outbox + [Unsubscribe(Topic(selection))];
        sockets := sockets[current.value := Closing];
      }
    }

    /**
     * `handleReconnect`: disconnect, then connect, both with the selection in
     * force. Because the disconnect leaves the current socket not open, a new
     * socket is always created, capturing the current selection; `connected`
     * is left as it was, so both flags can be true until an event clears them.
     */
    method HandleReconnect()
      requires Valid()
      modifies this`outbox, this`sockets, this`captured, this`current, this`connecting
      ensures Valid()
      ensures old(IsOpen()) ==>
        && outbox == old(outbox) + [Unsubscribe(Topic(old(selectedSensor)))]
        && sockets == old(sockets)[old(current).value := Closing] + [Connecting]
      ensures !old(IsOpen()) ==> outbox == old(outbox) && sockets == old(sockets) + [Connecting]
      ensures captured == old(captured) + [old(selectedSensor)]
      ensures connecting
    {
      DisconnectWebSocket(selectedSensor);
      ConnectWebSocket(selectedSensor);
    }

    /**
     * The mount effect re-running after the selection changed from
     * `previous`: React first runs the cleanup the previous render returned,
     * a `disconnectWebSocket` that still names `previous`, then the new
     * render's `connectWebSocket`. The disconnect leaves the current socket
     * not open, so a new socket always replaces it, capturing the selection
     * now in force. Mounting is `ConnectWebSocket` alone and unmounting is
     * `DisconnectWebSocket` alone, both with the selection in force.
     */
    method EffectRerun(previous: string)
      requires Valid()
      modifies this`outbox, this`sockets, this`captured, this`current, this`connecting
      ensures Valid()
      ensures old(IsOpen()) ==>
        && outbox == old(outbox) + [Unsubscribe(Topic(previous))]
        && sockets == old(sockets)[old(current).value := Closing] + [Connecting]
      ensures !old(IsOpen()) ==> outbox == old(outbox) && sockets == old(sockets) + [Connecting]
      ensures captured == old(captured) + [selectedSensor]
      ensures current == Some(|sockets| - 1) && connecting
    {
      DisconnectWebSocket(previous);
      ConnectWebSocket(selectedSensor);
    }

    /**
     * `changeSensor`: choosing the selected sensor again does nothing. A new
     * choice sends, only while the current socket is open, an unsubscribe for
     * the old selection followed by a subscribe for the new one; in every
     * case the selection changes and the window is emptied, while the current
     * sample stays.
     */
    method ChangeSensor(sensorId: string)
      requires Valid()
      modifies this`outbox, this`selectedSensor, this`historicalData
      ensures Valid()
      ensures sensorId == old(selectedSensor) ==> unchanged(this)
      ensures sensorId != old(selectedSensor) ==>
        && selectedSensor == sensorId
        && historicalData == []
        && outbox == old(outbox) + if old(IsOpen())
             then [Unsubscribe(Topic(old(selectedSensor))), Subscribe(Topic(sensorId))]
             else []
    {
      if sensorId == selectedSensor {
        return;
      }
      if IsOpen() {
        outbox := outbox + [Unsubscribe(Topic(selectedSensor))];
        SubscribeToSensor(sensorId);
      }
      selectedSensor := sensorId;
      historicalData := [];
    }
  }

  /** The reading that the end-to-end run below delivers. */
  const SensorOneReading := Reading("sensor-1", 21.5, 40.0, 1013.0, 10.0, 42, 3, 0.9, "2024-01-01T10:05:00Z")

  /** A new dashboard, connected and opened: one subscribe for all sensors has gone out. */
  method OpenedDashboard() returns (d: Dashboard)
    ensures fresh(d) && d.Valid()
    ensures d.sockets == [Open] && d.captured == [All] && d.IsOpen() && d.connected && !d.connecting
    ensures d.selectedSensor == All && d.outbox == [Subscribe("")] && d.historicalData == []
  {
    d := new Dashboard();
    d.ConnectWebSocket(d.selectedSensor);
    assert d.sockets == [Connecting] && d.captured == [All];
    d.OnOpenCurrentOnly(0);
  }

  /**
   * Connect, open, one reading, then a switch to "sensor-2": one subscribe
   * for all sensors on open, the reading as current sample and sole window
   * entry, then exactly the unsubscribe-then-subscribe pair and an empty
   * window.
   */
  method EndToEnd() returns (sent: seq<Msg>, sample: Option<Sample>, windowAfterReading: nat,
                                        windowAfterSwitch: nat, live: bool)
    ensures sent == [Subscribe(""), Unsubscribe(""), Subscribe("sensor-2")]
    ensures sample.Some? && sample.value.temperature == 21.5
    ensures windowAfterReading == 1 && windowAfterSwitch == 0
    ensures live
  {
    var d := OpenedDashboard();
    d.OnMessage(Payload(SensorOneReading, WallClock(10, 5, "10:05:00 AM")));
    windowAfterReading := |d.historicalData|;
    d.ChangeSensor("sensor-2");
    sent, sample, windowAfterSwitch, live := d.outbox, d.currentData, |d.historicalData|, d.connected;
  }

  /**
   * Reconnecting an open dashboard: both flags are true while the new socket
   * connects; the old socket's late close event then clears both although the
   * new socket is still connecting; the new socket's open subscribes again.
   */
  method ReconnectWhileOpen() returns (bothDuringReconnect: bool, clearedByStaleClose: bool,
                                      newSocketConnecting: bool, sent: seq<Msg>, sockets: nat)
    ensures bothDuringReconnect && clearedByStaleClose && newSocketConnecting
    ensures sent == [Subscribe(""), Unsubscribe(""), Subscribe("")]
    ensures sockets == 2
  {
    var d := new Dashboard();
    d.ConnectWebSocket(d.selectedSensor);
    d.OnOpenCurrentOnly(0);
    d.ConnectWebSocket(d.selectedSensor);
    d.HandleReconnect();
    bothDuringReconnect := d.connected && d.connecting;
    d.OnClose(0);
    clearedByStaleClose := !d.connected && !d.connecting;
    newSocketConnecting := d.sockets[1] == Connecting;
    d.OnOpenCurrentOnly(1);
    sent, sockets := d.outbox, |d.sockets|;
  }

  /**
   * The run of `EndToEnd` as the component goes on after the switch: the
   * selection change re-runs the mount effect, whose cleanup sends a second
   * unsubscribe for the old selection and closes the socket, and whose
   * connect opens a new socket that subscribes to the new selection.
   */
  method SwitchThenEffect() returns (sent: seq<Msg>, firstClosed: bool, live: bool, sockets: nat)
    ensures sent == [Subscribe(""), Unsubscribe(""), Subscribe("sensor-2"), Unsubscribe(""), Subscribe("sensor-2")]
    ensures firstClosed && live && sockets == 2
  {
    var d := OpenedDashboard();
    d.ChangeSensor("sensor-2");
    d.EffectRerun(All);
    assert d.captured[1] == "sensor-2";
    d.OnClose(0);
    d.OnOpenCurrentOnly(1);
    sent, firstClosed, live, sockets := d.outbox, d.sockets[0] == Closed, d.connected, |d.sockets|;
  }
}
