/**
 * mqtt.py: the MqttClient session holder. Its properties notify their
 * listeners only when a value changes, publish and subscribe reach the
 * transport only while connected, and the transport's callbacks drive the
 * connection state. The paho client is an abstract sink: every call made on
 * it is appended to a ghost log, as is every signal the holder emits.
 */
module Mqtt {
  import opened Wrappers

  /** The four connection states, numbered 0 to 3 as in the source. */
  datatype ConnState = Disconnected | Connecting | Connected | ConnectError {
    function Code(): (c: nat)
      ensures c <= 3
    {
      match this
      case Disconnected => 0
      case Connecting => 1
      case Connected => 2
      case ConnectError => 3
    }
  }

  /** The state with a given number, if there is one. */
  function FromCode(c: int): (s: Option<ConnState>)
    ensures s.Some? <==> 0 <= c <= 3
    ensures s.Some? ==> s.value.Code() == c
  {
    if c == 0 then Some(Disconnected)
    else if c == 1 then Some(Connecting)
    else if c == 2 then Some(Connected)
    else if c == 3 then Some(ConnectError)
    else None
  }

  /** Numbering the states loses nothing: each number names one state. */
  lemma CodeRoundTrip(s: ConnState)
    ensures FromCode(s.Code()) == Some(s)
  {
  }

  lemma CodeInjective(a: ConnState, b: ConnState)
    requires a.Code() == b.Code()
    ensures a == b
  {
    CodeRoundTrip(a);
    CodeRoundTrip(b);
  }

  /** paho's `MQTTv31` and `MQTTv311`, the protocol levels of MQTT 3.1 and 3.1.1. */
  const MQTT_3_1: int := 3
  const MQTT_3_1_1: int := 4

  predicate IsProtocolVersion(v: int) {
    v == MQTT_3_1 || v == MQTT_3_1_1
  }

  /** The signals of MqttClient, with the value each one carries. */
  datatype Notification =
    | StateChanged(state: ConnState)
    | RcChanged(resultCode: Option<int>)
    | HostnameChanged(hostname: string)
    | PortChanged(port: int)
    | KeepAliveChanged(keepAlive: int)
    | CleanSessionChanged(cleanSession: bool)
    | ProtocolVersionChanged(protocolVersion: int)
    | ConnectedSignal
    | DisconnectedSignal
    | ConnectFailed
    | MessageSignal(topic: string, payload: string)

  /** The calls MqttClient makes on its paho client. */
  datatype TransportCall =
    | NewClient(cleanSession: bool, protocol: int)
    | ConnectAsync(host: string, port: int, keepAlive: int)
    | LoopStart
    | Disconnect
    | SubscribeCall(topic: string)
    | PublishCall(topic: string, payload: string)

  /** The values behind the client's properties. */
  datatype Properties = Properties(
    state: ConnState,
    resultCode: Option<int>,
    hostname: string,
    port: int,
    keepAlive: int,
    cleanSession: bool,
    protocolVersion: int)

  /** What `__init__` sets up. */
  const InitialProperties: Properties := Properties(Disconnected, None, "", 1883, 60, true, MQTT_3_1)

  /** A listener's picture of the properties after hearing one more notification. */
  function Apply(p: Properties, n: Notification): Properties {
    match n
    case StateChanged(s) => p.(state := s)
    case RcChanged(rc) => p.(resultCode := rc)
    case HostnameChanged(h) => p.(hostname := h)
    case PortChanged(port) => p.(port := port)
    case KeepAliveChanged(k) => p.(keepAlive := k)
    case CleanSessionChanged(c) => p.(cleanSession := c)
    case ProtocolVersionChanged(v) => p.(protocolVersion := v)
    case _ => p
  }

  /** A listener's picture after hearing a whole log, starting from the initial values. */
  function Replay(log: seq<Notification>): Properties {
    if log == [] then InitialProperties
    else Apply(Replay(log[..|log| - 1]), log[|log| - 1])
  }

  lemma ReplaySnoc(log: seq<Notification>, n: Notification)
    ensures Replay(log + [n]) == Apply(Replay(log), n)
  {
    assert (log + [n])[..|log|] == log;
  }

  /** The transport calls `publish` and `subscribe` let through in a given state. */
  function Gate(state: ConnState, call: TransportCall): (g: seq<TransportCall>)
    ensures |g| <= 1 && (g != [] <==> state == Connected)
    ensures forall k :: 0 <= k < |g| ==> g[k] == call
  {
    if state == Connected then [call] else []
  }

  class MqttClient {
    var hostname: string
    var port: int
    var keepAlive: int
    var cleanSession: bool
    var protocolVersion: int
    var state: ConnState
    var resultCode: Option<int>
    /** Every signal emitted, in order. */
    ghost var emitted: seq<Notification>
    /** Every call made on the paho client, in order. */
    ghost var transport: seq<TransportCall>

    function Snapshot(): Properties
      reads this
    {
      Properties(state, resultCode, hostname, port, keepAlive, cleanSession, protocolVersion)
    }

    /**
     * The protocol version is one the setter accepts, and a listener that
     * applies every change notification to the initial values knows every
     * property except the result code, which `on_connect` writes without
     * notifying.
     */
    ghost predicate Valid()
      reads this
    {
      IsProtocolVersion(protocolVersion)
      && Replay(emitted).(resultCode := resultCode) == Snapshot()
    }

    constructor()
      ensures Valid()
      ensures Snapshot() == InitialProperties
      ensures emitted == []
      ensures transport == [NewClient(true, MQTT_3_1)]
    {
      hostname, port, keepAlive, cleanSession := "", 1883, 60, true;
      protocolVersion := MQTT_3_1;
      state, resultCode := Disconnected, None;
      emitted := [];
      transport := [NewClient(true, MQTT_3_1)];
    }

    /** The notification is recorded and the listener's picture moves with it. */
    method Emit(n: Notification)
      modifies this
      ensures Snapshot() == old(Snapshot()) && transport == old(transport)
      ensures emitted == old(emitted) + [n]
      ensures Replay(emitted) == Apply(old(Replay(emitted)), n)
    {
      ReplaySnoc(emitted, n);
      emitted := emitted + [n];
    }

    /** The `state` setter. */
    method SetState(s: ConnState)
      requires Valid()
      modifies this
      ensures Valid()
      ensures Snapshot() == old(Snapshot()).(state := s)
      ensures emitted == old(emitted) + (if old(state) == s then [] else [StateChanged(s)])
      ensures transport == old(transport)
      ensures Replay(emitted) == old(Replay(emitted)).(state := s)
    {
      if state == s {
        return;
      }
      state := s;
      Emit(StateChanged(s));
    }

    /** The `result_code` setter. */
    method SetResultCode(rc: Option<int>)
      requires Valid()
      modifies this
      ensures Valid()
      ensures Snapshot() == old(Snapshot()).(resultCode := rc)
      ensures emitted == old(emitted) + (if old(resultCode) == rc then [] else [RcChanged(rc)])
      ensures transport == old(transport)
    {
      if resultCode == rc {
        return;
      }
      resultCode := rc;
      Emit(RcChanged(rc));
    }

    /** The `hostname` setter. */
    method SetHostname(h: string)
      requires Valid()
      modifies this
      ensures Valid()
      ensures Snapshot() == old(Snapshot()).(hostname := h)
      ensures emitted == old(emitted) + (if old(hostname) == h then [] else [HostnameChanged(h)])
      ensures transport == old(transport)
    {
      if hostname == h {
        return;
      }
      hostname := h;
      Emit(HostnameChanged(h));
    }

    /** The `port` setter. */
    method SetPort(p: int)
      requires Valid()
      modifies this
      ensures Valid()
      ensures Snapshot() == old(Snapshot()).(port := p)
      ensures emitted == old(emitted) + (if old(port) == p then [] else [PortChanged(p)])
      ensures transport == old(transport)
    {
      if port == p {
        return;
      }
      port := p;
      Emit(PortChanged(p));
    }

    /** The `keepAlive` setter. */
    method SetKeepAlive(k: int)
      requires Valid()
      modifies this
      ensures Valid()
      ensures Snapshot() == old(Snapshot()).(keepAlive := k)
      ensures emitted == old(emitted) + (if old(keepAlive) == k then [] else [KeepAliveChanged(k)])
      ensures transport == old(transport)
    {
      if keepAlive == k {
        return;
      }
      keepAlive := k;
      Emit(KeepAliveChanged(k));
    }

    /** The `cleanSession` setter. */
    method SetCleanSession(c: bool)
      requires Valid()
      modifies this
      ensures Valid()
      ensures Snapshot() == old(Snapshot()).(cleanSession := c)
      ensures emitted == old(emitted) + (if old(cleanSession) == c then [] else [CleanSessionChanged(c)])
      ensures transport == old(transport)
    {
      if cleanSession == c {
        return;
      }
      cleanSession := c;
      Emit(CleanSessionChanged(c));
    }

    /** The `protocolVersion` setter: only MQTT 3.1 and 3.1.1 are taken, anything else is ignored. */
    method SetProtocolVersion(v: int)
      requires Valid()
      modifies this
      ensures Valid()
      ensures IsProtocolVersion(protocolVersion)
      ensures old(protocolVersion) == v || !IsProtocolVersion(v) ==>
                Snapshot() == old(Snapshot()) && emitted == old(emitted)
      ensures old(protocolVersion) != v && IsProtocolVersion(v) ==>
                Snapshot() == old(Snapshot()).(protocolVersion := v)
                && emitted == old(emitted) + [ProtocolVersionChanged(v)]
      ensures transport == old(transport)
    {
      if protocolVersion == v {
        return;
      }
      if IsProtocolVersion(v) {
        protocolVersion := v;
        Emit(ProtocolVersionChanged(v));
      }
    }

    /**
     * `connectToHost`: with a hostname, start an asynchronous connect and
     * the network loop and move to Connecting; without one, do nothing.
     */
    method ConnectToHost()
      requires Valid()
      modifies this
      ensures Valid()
      ensures old(hostname) == "" ==>
                Snapshot() == old(Snapshot()) && emitted == old(emitted) && transport == old(transport)
      ensures old(hostname) != "" ==>
                Snapshot() == old(Snapshot()).(state := Connecting)
                && emitted == old(emitted) + (if old(state) == Connecting then [] else [StateChanged(Connecting)])
                && transport == old(transport) + [ConnectAsync(hostname, port, keepAlive), LoopStart]
    {
      if hostname != "" {
        transport := transport + [ConnectAsync(hostname, port, keepAlive)];
        SetState(Connecting);
        transport := transport + [LoopStart];
      }
    }

    /** `disconnectFromHost`: ask the transport to disconnect; the state follows in `on_disconnect`. */
    method DisconnectFromHost()
      modifies this
      ensures Snapshot() == old(Snapshot()) && emitted == old(emitted)
      ensures transport == old(transport) + [Disconnect]
    {
      transport := transport + [Disconnect];
    }

    /** `subscribe`: dropped unless connected. */
    method Subscribe(topic: string)
      modifies this
      ensures Snapshot() == old(Snapshot()) && emitted == old(emitted)
      ensures transport == old(transport) + Gate(state, SubscribeCall(topic))
    {
      if state == Connected {
        transport := transport + [SubscribeCall(topic)];
      }
    }

    /** `publish`: dropped unless connected. */
    method Publish(topic: string, payload: string)
      modifies this
      ensures Snapshot() == old(Snapshot()) && emitted == old(emitted)
      ensures transport == old(transport) + Gate(state, PublishCall(topic, payload))
    {
      if state == Connected {
        transport := transport + [PublishCall(topic, payload)];
      }
    }

    /** `on_message`: re-emit the message as (topic, text). */
    method OnMessage(topic: string, payload: string)
      requires Valid()
      modifies this
      ensures Valid()
      ensures Snapshot() == old(Snapshot()) && transport == old(transport)
      ensures emitted == old(emitted) + [MessageSignal(topic, payload)]
    {
      Emit(MessageSignal(topic, payload));
    }

    /**
     * `on_connect`: a CONNACK return code other than 0 is a refused
     * connection (section 3.2.2.3 of MQTT Version 3.1.1). The code is stored
     * directly, so no `rcChanged` goes out and a listener keeps its old idea
     * of the result code.
     */
    method OnConnect(rc: int)
      requires Valid()
      modifies this
      ensures Valid()
      ensures transport == old(transport)
      ensures rc != 0 ==>
                Snapshot() == old(Snapshot()).(state := ConnectError, resultCode := Some(rc))
                && emitted == old(emitted)
                   + (if old(state) == ConnectError then [] else [StateChanged(ConnectError)])
                   + [ConnectFailed]
      ensures rc == 0 ==>
                Snapshot() == old(Snapshot()).(state := Connected)
                && emitted == old(emitted)
                   + (if old(state) == Connected then [] else [StateChanged(Connected)])
                   + [ConnectedSignal]
      ensures Replay(emitted).resultCode == old(Replay(emitted).resultCode)
    {
      if rc != 0 {
        SetState(ConnectError);
        resultCode := Some(rc);
        Emit(ConnectFailed);
        return;
      }
      SetState(Connected);
      Emit(ConnectedSignal);
    }

    /** `on_disconnect`: back to Disconnected from any state. */
    method OnDisconnect()
      requires Valid()
      modifies this
      ensures Valid()
      ensures transport == old(transport)
      ensures Snapshot() == old(Snapshot()).(state := Disconnected)
      ensures emitted == old(emitted)
                + (if old(state) == Disconnected then [] else [StateChanged(Disconnected)])
                + [DisconnectedSignal]
    {
      SetState(Disconnected);
      Emit(DisconnectedSignal);
    }
  }
}
