/**
 * The two ends of the control protocol together: the messages the live
 * dashboard sends on one socket, decoded and applied by the server to the
 * client that socket belongs to.
 */
module Protocol {
  import opened LiveDashboard
  import opened SubscriptionServer
  import opened Telemetry

  /** The JSON the dashboard sends, as the server decodes it. */
  function Wire(m: Msg): (c: ClientMsg)
    ensures c.sensorId == m.sensorId
    ensures c.kind == (if m.Subscribe? then SubscribeType else UnsubscribeType)
  {
    match m
    case Subscribe(id) => ClientMsg(SubscribeType, id)
    case Unsubscribe(id) => ClientMsg(UnsubscribeType, id)
  }

  function Wires(ms: seq<Msg>): (cs: seq<ClientMsg>)
    ensures |cs| == |ms| && forall i :: 0 <= i < |ms| ==> cs[i] == Wire(ms[i])
  {
    seq(|ms|, i requires 0 <= i < |ms| => Wire(ms[i]))
  }

  /** The server-side state of a fresh client after the subscribe that `onopen` sends for a selection. */
  function SubscribedTo(selection: string): ClientState {
    Apply(Initial, Wire(Subscribe(Topic(selection))))
  }

  /** That state receives exactly the selected sensor, or every sensor for "all". */
  lemma SubscribedToReceives(selection: string, sensorId: string)
    ensures SubscribedTo(selection).Receives(sensorId) <==> Topic(selection) == "" || sensorId == Topic(selection)
  {
  }

  /**
   * The messages `changeSensor` sends on an open socket as the operator
   * picks `choices` one after another, starting from `selection`: none for
   * a repeated choice, otherwise unsubscribe the old one, subscribe the new.
   * `SwitchRun` below shows that a run of `Dashboard.ChangeSensor` calls
   * sends exactly these.
   */
  function SwitchMessages(selection: string, choices: seq<string>): seq<Msg>
    decreases |choices|
  {
    if choices == [] then []
    else SwitchSend(selection, choices[0]) + SwitchMessages(choices[0], choices[1..])
  }

  /** What one switch from `selection` to `next` sends on an open socket. */
  function SwitchSend(selection: string, next: string): seq<Msg> {
    if next == selection then [] else [Unsubscribe(Topic(selection)), Subscribe(Topic(next))]
  }

  function LastChoice(selection: string, choices: seq<string>): string {
    if choices == [] then selection else choices[|choices| - 1]
  }

  lemma {:induction false} ApplyAllConcat(st: ClientState, a: seq<ClientMsg>, b: seq<ClientMsg>)
    ensures ApplyAll(st, a + b) == ApplyAll(ApplyAll(st, a), b)
    decreases |a|
  {
    if a != [] {
      assert (a + b)[0] == a[0] && (a + b)[1..] == a[1..] + b;
      ApplyAllConcat(Apply(st, a[0]), a[1..], b);
    } else {
      assert a + b == b;
    }
  }

  lemma WiresConcat(a: seq<Msg>, b: seq<Msg>)
    ensures Wires(a + b) == Wires(a) + Wires(b)
  {
  }

  /** One switch from `prev` to a different `next` leaves the client subscribed to `next` alone. */
  lemma SwitchOnce(prev: string, next: string)
    ensures ApplyAll(SubscribedTo(prev), Wires([Unsubscribe(Topic(prev)), Subscribe(Topic(next))]))
         == SubscribedTo(next)
  {
    var ws := Wires([Unsubscribe(Topic(prev)), Subscribe(Topic(next))]);
    var mid := Apply(SubscribedTo(prev), ws[0]);
    assert mid == Initial;
    assert ws[1..] == [ws[1]] && ws[1..][1..] == [];
    assert ApplyAll(mid, ws[1..]) == ApplyAll(Apply(mid, ws[1]), []);
  }

  /**
   * However many times the operator switches sensors on one open socket,
   * the server ends up with that client subscribed to the last choice and
   * nothing else: no earlier subscription survives a switch.
   */
  lemma {:induction false} SwitchesLeaveLastChoice(selection: string, choices: seq<string>)
    ensures ApplyAll(SubscribedTo(selection), Wires(SwitchMessages(selection, choices)))
         == SubscribedTo(LastChoice(selection, choices))
    decreases |choices|
  {
    if choices != [] {
      var next := choices[0];
      var step := SwitchSend(selection, next);
      var rest := SwitchMessages(next, choices[1..]);
      assert SwitchMessages(selection, choices) == step + rest;
      WiresConcat(step, rest);
      ApplyAllConcat(SubscribedTo(selection), Wires(step), Wires(rest));
      if next != selection {
        SwitchOnce(selection, next);
      } else {
        assert Wires(step) == [];
      }
      SwitchesLeaveLastChoice(next, choices[1..]);
      assert LastChoice(next, choices[1..]) == LastChoice(selection, choices);
    } else {
      assert Wires([]) == [];
    }
  }

  /** The first switch of the remaining choices, and the messages it contributes. */
  lemma SwitchStep(selection: string, choices: seq<string>, i: nat)
    requires i < |choices|
    ensures SwitchMessages(selection, choices[i..])
         == SwitchSend(selection, choices[i]) + SwitchMessages(choices[i], choices[i + 1..])
  {
    assert choices[i..][0] == choices[i] && choices[i..][1..] == choices[i + 1..];
  }

  /**
   * The `i`th of a run of switches on an open dashboard, as one
   * `changeSensor` call: what it sends followed by what the rest of the run
   * will send is what the run from the old selection sends.
   */
  method SwitchNext(d: Dashboard, choices: seq<string>, i: nat)
    requires d.Valid() && d.IsOpen() && i < |choices|
    modifies d`outbox, d`selectedSensor, d`historicalData
    ensures d.Valid() && d.IsOpen()
    ensures d.outbox + SwitchMessages(choices[i], choices[i + 1..])
         == old(d.outbox) + SwitchMessages(old(d.selectedSensor), choices[i..])
    ensures d.selectedSensor == choices[i]
  {
    var before, sel := d.outbox, d.selectedSensor;
    SwitchStep(sel, choices, i);
    d.ChangeSensor(choices[i]);
    assert d.outbox == before + SwitchSend(sel, choices[i]);
  }

  /**
   * A run of sensor switches on a dashboard whose socket is open, handler by
   * handler: it sends exactly `SwitchMessages` and leaves the last choice
   * selected. Only the handler's own sends are counted here; the effect
   * re-run each switch triggers in the component is `EffectRerun`.
   */
  method SwitchRun(d: Dashboard, choices: seq<string>)
    requires d.Valid() && d.IsOpen()
    modifies d`outbox, d`selectedSensor, d`historicalData
    ensures d.Valid() && d.IsOpen()
    ensures d.outbox == old(d.outbox) + SwitchMessages(old(d.selectedSensor), choices)
    ensures d.selectedSensor == LastChoice(old(d.selectedSensor), choices)
  {
    ghost var sel0 := d.selectedSensor;
    ghost var target := d.outbox + SwitchMessages(sel0, choices);
    var i := 0;
    while i < |choices|
      invariant 0 <= i <= |choices|
      invariant d.Valid() && d.IsOpen()
      invariant d.outbox + SwitchMessages(d.selectedSensor, choices[i..]) == target
      invariant d.selectedSensor == if i == 0 then sel0 else choices[i - 1]
    {
      SwitchNext(d, choices, i);
      i := i + 1;
    }
    assert choices[i..] == [];
  }

  /** A subscribe for "" arriving after a subscribe for one sensor makes that client receive every sensor. */
  lemma LateSubscribeToAll(first: string, other: string)
    ensures ApplyAll(Initial, Wires([Subscribe(first), Subscribe("")])).Receives(other)
  {
    var ws := Wires([Subscribe(first), Subscribe("")]);
    var st := Apply(Initial, ws[0]);
    assert ws[1..] == [ws[1]] && ws[1..][1..] == [];
    assert ApplyAll(st, ws[1..]) == Apply(st, ws[1]);
  }

  /**
   * A new dashboard switched to "sensor-1" while its first socket is still
   * connecting: nothing is sent, and the effect re-run leaves two connecting
   * sockets, the first capturing "all" and the second "sensor-1".
   */
  method SwitchWhileConnecting() returns (d: Dashboard)
    ensures fresh(d) && d.Valid()
    ensures d.sockets == [Connecting, Connecting] && d.captured == [All, "sensor-1"]
    ensures d.selectedSensor == "sensor-1" && d.outbox == []
  {
    d := new Dashboard();
    d.ConnectWebSocket(d.selectedSensor);
    d.ChangeSensor("sensor-1");
    d.EffectRerun(All);
  }

  /**
   * The open handler as written, after a switch made while the first socket
   * was still connecting: the effect re-run replaces the socket, the new one
   * opens and subscribes to "sensor-1", and then the replaced socket opens
   * and subscribes its own captured "all" on the current socket. That one
   * server client then receives every sensor while "sensor-1" is selected.
   */
  method StaleOpenSubscribesAll() returns (sent: seq<Msg>, selection: string, receivesOther: bool)
    ensures sent == [Subscribe("sensor-1"), Subscribe("")]
    ensures selection == "sensor-1"
    ensures ApplyAll(Initial, Wires(sent)) != SubscribedTo(selection)
    ensures receivesOther
  {
    var d := SwitchWhileConnecting();
    d.OnOpen(1);
    d.OnOpen(0);
    sent, selection := d.outbox, d.selectedSensor;
    LateSubscribeToAll("sensor-1", "sensor-3");
    receivesOther := ApplyAll(Initial, Wires(sent)).Receives("sensor-3");
    assert !SubscribedTo(selection).Receives("sensor-3");
  }

  /**
   * The same run with the open handler that ignores a replaced socket: only
   * the new socket subscribes, and the server client receives exactly the
   * selected sensor.
   */
  method StaleOpenIgnored() returns (sent: seq<Msg>, selection: string)
    ensures sent == [Subscribe("sensor-1")]
    ensures selection == "sensor-1"
    ensures ApplyAll(Initial, Wires(sent)) == SubscribedTo(selection)
  {
    var d := SwitchWhileConnecting();
    d.OnOpenCurrentOnly(1);
    d.OnOpenCurrentOnly(0);
    sent, selection := d.outbox, d.selectedSensor;
    var ws := Wires(sent);
    assert ws[1..] == [];
  }
}
