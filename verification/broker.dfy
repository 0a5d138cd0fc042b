/** The broker connection flags of redalert.py (lines 57-58 and 77-98):
    `connected_flag`, set by a successful CONNACK and cleared on every
    disconnect, `disconnect_flag`, set on every disconnect, and the
    reconnect request `on_disconnect` issues. The MQTT client library is
    not modelled: its callbacks become events and its `connect` calls
    become request values. Any order of events is allowed, including
    CONNACKs after line 64 stops the network loop, which the program
    never handles. */
module Broker {

  /** The broker the configuration names: `MQTT_HOST` and `MQTT_PORT`. */
  datatype Endpoint = Endpoint(host: string, port: int)

  /** One `client.connect(host, port, keepalive)` call. */
  datatype Request = Connect(host: string, port: int, keepalive: int)

  /** The flags the program keeps on the client object. */
  datatype Flags = Flags(connected: bool, disconnectFlag: bool)

  /** What the transport reports: a CONNACK with its return code, or a lost session. */
  datatype Event = ConnAck(rc: int) | Dropped

  /** The keep-alive interval of the initial connect, in seconds. */
  const StartupKeepalive := 3600
  /** The defaults of the client library's `connect(host)`. */
  const LibraryDefaultPort := 1883
  const LibraryDefaultKeepalive := 60

  /** Startup (lines 57-58): both flags down, one connect to the
      configured broker with the long keep-alive. */
  const Initial: Flags := Flags(false, false)

  function StartupConnect(broker: Endpoint): (req: Request)
    ensures req.host == broker.host && req.port == broker.port
  {
    Connect(broker.host, broker.port, StartupKeepalive)
  }

  /** `on_connect`: return code 0 raises `connected_flag`; every refusal
      code (1 to 5 are logged with a reason) leaves the flags alone. */
  function OnConnect(f: Flags, rc: int): (f': Flags)
    ensures f'.connected <==> rc == 0 || f.connected
    ensures f'.disconnectFlag == f.disconnectFlag
    ensures rc != 0 ==> f' == f
  {
    if rc == 0 then f.(connected := true) else f
  }

  /** `on_disconnect` as written: both flags change and the client
      reconnects with `client.connect(MQTT_HOST)`, which takes the
      library's default port and keep-alive instead of the configured
      ones. */
  function OnDisconnectAsWritten(f: Flags, broker: Endpoint): (r: (Flags, Request))
    ensures !r.0.connected && r.0.disconnectFlag
    ensures r.1.host == broker.host && r.1.keepalive != StartupKeepalive
  {
    (Flags(false, true), Connect(broker.host, LibraryDefaultPort, LibraryDefaultKeepalive))
  }

  /** The as-written reconnect reaches the configured port only when that
      port is the library default, and it never repeats the startup
      request, whose keep-alive differs. */
  lemma AsWrittenReconnectIgnoresPort(f: Flags, broker: Endpoint)
    ensures OnDisconnectAsWritten(f, broker).1.host == broker.host
    ensures OnDisconnectAsWritten(f, broker).1.port == broker.port <==> broker.port == LibraryDefaultPort
    ensures OnDisconnectAsWritten(f, broker).1 != StartupConnect(broker)
  {
  }

  /** A broker on the TLS port 8883: the reconnect goes to port 1883. */
  lemma AsWrittenReconnectCounterexample()
    ensures OnDisconnectAsWritten(Initial, Endpoint("broker", 8883)).1.port != 8883
  {
  }

  /** `on_disconnect` with the reconnect the program evidently intends:
      the same request as at startup. */
  function OnDisconnect(f: Flags, broker: Endpoint): (r: (Flags, Request))
    ensures !r.0.connected && r.0.disconnectFlag
    ensures r.1 == StartupConnect(broker)
  {
    (Flags(false, true), StartupConnect(broker))
  }

  /** The flags and the requests issued after a run of transport events. */
  datatype Session = Session(flags: Flags, requests: seq<Request>)

  function Replay(f: Flags, broker: Endpoint, events: seq<Event>): (s: Session)
    ensures |s.requests| == Drops(events)
    ensures forall i :: 0 <= i < |s.requests| ==> s.requests[i] == StartupConnect(broker)
    decreases |events|
  {
    if |events| == 0 then Session(f, [])
    else
      var last := events[|events| - 1];
      var before := Replay(f, broker, events[..|events| - 1]);
      match last
      case ConnAck(rc) => Session(OnConnect(before.flags, rc), before.requests)
      case Dropped =>
        var (f', req) := OnDisconnect(before.flags, broker);
        Session(f', before.requests + [req])
  }

  /** Number of lost sessions among `events`. */
  function Drops(events: seq<Event>): nat {
    if |events| == 0 then 0
    else Drops(events[..|events| - 1]) + (if events[|events| - 1] == Dropped then 1 else 0)
  }

  /** No `Dropped` event after index `i`; `NoDropAfter(events, -1)`
      says no session was lost at all. */
  predicate NoDropAfter(events: seq<Event>, i: int) {
    forall j :: i < j < |events| && 0 <= j ==> events[j] != Dropped
  }

  /** The client is connected after a run of events exactly when a
      successful CONNACK came after the last lost session, or it was
      connected at the start and no session was lost. The disconnect flag
      is up exactly when it started up or a session was lost. */
  lemma {:induction false} ReplayTracksConnection(f: Flags, broker: Endpoint, events: seq<Event>)
    ensures Replay(f, broker, events).flags.connected
            <==> (|| (exists i :: 0 <= i < |events| && events[i] == ConnAck(0) && NoDropAfter(events, i))
                  || (f.connected && NoDropAfter(events, -1)))
    ensures Replay(f, broker, events).flags.disconnectFlag
            <==> f.disconnectFlag || !NoDropAfter(events, -1)
    decreases |events|
  {
    if |events| > 0 {
      var n := |events| - 1;
      var init := events[..n];
      ReplayTracksConnection(f, broker, init);
      var before := Replay(f, broker, init);
      if events[n] == Dropped {
        assert !NoDropAfter(events, -1);
        forall i | 0 <= i < |events| ensures !NoDropAfter(events, i) || i == n {
          assert events[n] == Dropped;
        }
      } else {
        assert NoDropAfter(events, -1) <==> NoDropAfter(init, -1);
        forall i | 0 <= i < n ensures NoDropAfter(events, i) <==> NoDropAfter(init, i) {
        }
        if events[n] == ConnAck(0) {
          assert NoDropAfter(events, n);
        } else {
          assert events[n].ConnAck? && events[n].rc != 0;
          if exists i :: 0 <= i < |events| && events[i] == ConnAck(0) && NoDropAfter(events, i) {
            var i :| 0 <= i < |events| && events[i] == ConnAck(0) && NoDropAfter(events, i);
            assert i < n;
            assert init[i] == ConnAck(0) && NoDropAfter(init, i);
          }
        }
      }
    }
  }

}
