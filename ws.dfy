/**
 * The WebSocket server's per-client subscription table and its broadcast
 * filter (backend/ws/ws.go). Each client holds the sensors it subscribed to
 * and an "all sensors" flag; control messages update them, and a broadcast
 * for a sensor goes to every registered client that wants it.
 */
module SubscriptionServer {

  /** The `type` strings the server recognises (`MessageType`). */
  const SubscribeType := "subscribe"
  const UnsubscribeType := "unsubscribe"
  const SensorUpdateType := "sensor_update"

  /** A decoded control message: its `type` and its `sensor_id` ("" when omitted). */
  datatype ClientMsg = ClientMsg(kind: string, sensorId: string)

  /** A client's subscription state as a value. */
  datatype ClientState = ClientState(subscribed: set<string>, allSensors: bool) {
    /** The broadcast filter: `subscribed[sensorID] || allSensors`. */
    predicate Receives(sensorId: string) {
      sensorId in subscribed || allSensors
    }
  }

  /** A client as it is registered: no sensors and no "all" flag. */
  const Initial := ClientState({}, false)

  /**
   * The `switch` on a control message. Subscribing to "" turns on every
   * sensor, to an id adds that id; unsubscribing from "" turns everything
   * off, from an id removes only that id (a client in "all" mode keeps
   * receiving it); any other type changes nothing.
   */
  function Apply(st: ClientState, msg: ClientMsg): (r: ClientState)
    ensures msg.kind == SubscribeType && msg.sensorId == "" ==>
      r.subscribed == st.subscribed && forall x :: r.Receives(x)
    ensures msg.kind == SubscribeType && msg.sensorId != "" ==>
      r.allSensors == st.allSensors && msg.sensorId in r.subscribed &&
      forall x :: r.Receives(x) <==> st.Receives(x) || x == msg.sensorId
    ensures msg.kind == UnsubscribeType && msg.sensorId == "" ==>
      r == Initial && forall x :: !r.Receives(x)
    ensures msg.kind == UnsubscribeType && msg.sensorId != "" ==>
      r.allSensors == st.allSensors && msg.sensorId !in r.subscribed &&
      forall x :: r.Receives(x) <==> st.Receives(x) && (x != msg.sensorId || st.allSensors)
    ensures msg.kind != SubscribeType && msg.kind != UnsubscribeType ==> r == st
  {
    if msg.kind == SubscribeType then
      if msg.sensorId == "" then st.(allSensors := true)
      else st.(subscribed := st.subscribed + {msg.sensorId})
    else if msg.kind == UnsubscribeType then
      if msg.sensorId == "" then Initial
      else st.(subscribed := st.subscribed - {msg.sensorId})
    else st
  }

  /** A run of control messages, applied in arrival order. */
  function ApplyAll(st: ClientState, msgs: seq<ClientMsg>): ClientState
    decreases |msgs|
  {
    if msgs == [] then st else ApplyAll(Apply(st, msgs[0]), msgs[1..])
  }

  /** Every control message is idempotent: a repeated message changes nothing more. */
  lemma ApplyIdempotent(st: ClientState, msg: ClientMsg)
    ensures Apply(Apply(st, msg), msg) == Apply(st, msg)
  {
  }

  /** A registered client receives nothing until it subscribes. */
  lemma InitialReceivesNothing(sensorId: string)
    ensures !Initial.Receives(sensorId)
  {
  }

  class Client {
    var subscribed: set<string>
    var allSensors: bool

    function State(): ClientState
      reads this
    {
      ClientState(subscribed, allSensors)
    }

    constructor ()
      ensures State() == Initial
    {
      subscribed, allSensors := {}, false;
    }

    /** One pass of the read loop: the control message updates this client in place. */
    method Handle(msg: ClientMsg)
      modifies this
      ensures State() == Apply(old(State()), msg)
    {
      if msg.kind == SubscribeType {
        if msg.sensorId == "" {
          allSensors := true;
        } else {
          subscribed := subscribed + {msg.sensorId};
        }
      } else if msg.kind == UnsubscribeType {
        if msg.sensorId == "" {
          allSensors := false;
          subscribed := {};
        } else {
          subscribed := subscribed - {msg.sensorId};
        }
      }
    }
  }

  class Server {
    /** The registered clients (the keys of `s.clients`). */
    var clients: set<Client>

    constructor ()
      ensures clients == {}
    {
      clients := {};
    }

    /** A connection is upgraded: a new client with no subscriptions is registered. */
    method Connect() returns (c: Client)
      modifies this
      ensures fresh(c) && c.State() == Initial
      ensures clients == old(clients) + {c}
    {
      c := new Client();
      clients := clients + {c};
    }

    /** The read loop ended: the client is removed, on any exit path. */
    method Disconnect(c: Client)
      modifies this
      ensures clients == old(clients) - {c}
    {
      clients := clients - {c};
    }

    /**
     * `BroadcastUpdate`: writes to exactly the registered clients that
     * receive this sensor, and removes those of them whose write fails
     * (`failing` stands for the clients whose connection errors on write);
     * every other client stays registered.
     */
    method BroadcastUpdate(sensorId: string, failing: set<Client>) returns (written: set<Client>)
      modifies this
      ensures written == set c | c in old(clients) && c.State().Receives(sensorId)
      ensures clients == old(clients) - (written * failing)
    {
      var pending := clients;
      written := {};
      while pending != {}
        invariant pending <= old(clients)
        invariant written == set c | c in old(clients) - pending && c.State().Receives(sensorId)
        invariant clients == old(clients) - (written * failing)
        decreases pending
      {
        var c :| c in pending;
        if c.State().Receives(sensorId) {
          written := written + {c};
          if c in failing {
            clients := clients - {c};
          }
        }
        pending := pending - {c};
      }
    }
  }
}
