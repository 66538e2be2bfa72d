/**
 * MainWindow of main.py without its widgets: the connection poll run by the
 * one-second timer, the page it leaves the window on, the power toggle, the
 * publishes the animation and brightness controls make, and the handling of
 * the client's `connected` and `messageSignal` signals. What the window
 * knows about the strip changes as Reducer.Receive says.
 */
module Window {
  import opened Wrappers
  import opened Json
  import opened Decimal
  import opened AnimationData
  import opened Animations
  import opened Mqtt
  import opened Reducer

  /** The pages of the root stacked widget. */
  const ConnectionPage: nat := 0
  const ControlPage: nat := 1
  const AboutPage: nat := 2
  const SettingsPage: nat := 3
  const AnimConfPage: nat := 4

  /**
   * The page a poll leaves the window on. Connected: the control page,
   * unless the user is on the about, settings or animation-configuration
   * page. Connecting: the connection page, unless on about or settings.
   * Otherwise: the connection page.
   */
  function PollPage(state: ConnState, page: nat): (p: nat)
    ensures p == page || p == ControlPage || p == ConnectionPage
    ensures state != Connected ==> p != ControlPage && p != AnimConfPage
  {
    match state
    case Connected => if page == AboutPage || page == AnimConfPage || page == SettingsPage then page else ControlPage
    case Connecting => if page == AboutPage || page == SettingsPage then page else ConnectionPage
    case _ => ConnectionPage
  }

  /** The pages a poll can leave the window on, and which pages it leaves alone. */
  lemma PollPageCases(state: ConnState, page: nat)
    ensures state == Connected ==> PollPage(state, page) in {ControlPage, AboutPage, SettingsPage, AnimConfPage}
    ensures state == Connecting ==> PollPage(state, page) in {ConnectionPage, AboutPage, SettingsPage}
    ensures state == ConnectError || state == Disconnected ==> PollPage(state, page) == ConnectionPage
    ensures PollPage(state, page) == page <==>
              (state == Connected && page in {ControlPage, AboutPage, SettingsPage, AnimConfPage})
              || (state == Connecting && page in {ConnectionPage, AboutPage, SettingsPage})
              || ((state == ConnectError || state == Disconnected) && page == ConnectionPage)
  {
  }

  /** Polling twice in the same state moves the page no further than polling once. */
  lemma PollPageIdempotent(state: ConnState, page: nat)
    ensures PollPage(state, PollPage(state, page)) == PollPage(state, page)
  {
    PollPageCases(state, page);
  }

  /** A poll counts an attempt in every state but Connected. */
  function PollIncrement(state: ConnState): (k: nat)
    ensures k <= 1
    ensures k == 0 <==> state == Connected
  {
    if state == Connected then 0 else 1
  }

  /** The calls `publish` makes for each of some messages, in a given state. */
  function Publishes(state: ConnState, msgs: seq<Message>): seq<TransportCall> {
    if msgs == [] then []
    else Gate(state, PublishCall(msgs[0].topic, msgs[0].payload)) + Publishes(state, msgs[1..])
  }

  /** Nothing goes out unless connected; when connected, every message goes out, in order. */
  lemma {:induction false} PublishesGated(state: ConnState, msgs: seq<Message>)
    ensures state != Connected ==> Publishes(state, msgs) == []
    ensures state == Connected ==>
              |Publishes(state, msgs)| == |msgs|
              && forall i :: 0 <= i < |msgs| ==>
                   Publishes(state, msgs)[i] == PublishCall(msgs[i].topic, msgs[i].payload)
    decreases |msgs|
  {
    if msgs != [] {
      PublishesGated(state, msgs[1..]);
      if state == Connected {
        var p := Publishes(state, msgs);
        assert p == [PublishCall(msgs[0].topic, msgs[0].payload)] + Publishes(state, msgs[1..]);
        forall i | 0 <= i < |msgs|
          ensures p[i] == PublishCall(msgs[i].topic, msgs[i].payload)
        {
          if i > 0 {
            assert p[i] == Publishes(state, msgs[1..])[i - 1];
            assert msgs[1..][i - 1] == msgs[i];
          }
        }
      }
    }
  }

  /** A new client with the configured host and port, not yet connecting. */
  method ConfiguredClient(host: string, port: int) returns (c: MqttClient)
    ensures fresh(c) && c.Valid()
    ensures c.Snapshot() == InitialProperties.(hostname := host, port := port)
    ensures c.emitted == (if host == InitialProperties.hostname then [] else [HostnameChanged(host)])
                         + (if port == InitialProperties.port then [] else [PortChanged(port)])
    ensures c.transport == [NewClient(true, MQTT_3_1)]
  {
    c := new MqttClient();
    c.SetHostname(host);
    c.SetPort(port);
  }

  class MainWindow {
    const client: MqttClient
    const topics: Topics
    const decoders: Decoders
    var connectionAttempts: int
    var currentPage: nat
    var led: PowerState
    var brightnessValue: int
    var brightnessKnown: BrightnessState
    var slider: int
    var args: AnimationArgs
    var numLeds: Json
    var animationName: string
    var sidebarEnabled: bool
    var animConfPage: nat

    /** What the window knows about the strip. */
    function State(): Device
      reads this
    {
      Device(led, brightnessValue, brightnessKnown, slider, args, numLeds, animationName, sidebarEnabled, animConfPage)
    }

    ghost predicate Valid()
      reads this, client
    {
      client.Valid() && connectionAttempts >= 1 && currentPage <= AnimConfPage
    }

    /**
     * `__init__`: the client gets the configured host and port, the counter
     * starts at 1, and the first poll runs at once, so on a fresh
     * (disconnected) client it tries to connect and counts a second attempt.
     */
    constructor(host: string, port: int, topics: Topics, decoders: Decoders)
      ensures Valid()
      ensures fresh(client)
      ensures this.topics == topics && this.decoders == decoders
      ensures State() == InitialDevice
      ensures connectionAttempts == 2 && currentPage == ConnectionPage
      ensures client.hostname == host && client.port == port
      ensures client.state == (if host == "" then Disconnected else Connecting)
      ensures client.transport == [NewClient(true, MQTT_3_1)]
                + (if host == "" then [] else [ConnectAsync(host, port, 60), LoopStart])
    {
      var c := ConfiguredClient(host, port);
      client := c;
      this.topics := topics;
      this.decoders := decoders;
      connectionAttempts := 1;
      led, brightnessValue, brightnessKnown := PowerUnknown, 0, BrightnessUnknown;
      slider, args, numLeds := SliderMin, AnimationArgs(), JInt(100);
      animationName, sidebarEnabled, animConfPage := "Unknown", false, UnknownPage;
      currentPage := ConnectionPage;
      new;
      Poll();
    }

    /**
     * `check_mqtt_connection`: count an attempt unless connected, pick the
     * page, and ask the client to connect exactly when it is disconnected.
     */
    method Poll()
      requires Valid()
      modifies this, client
      ensures Valid()
      ensures State() == old(State())
      ensures connectionAttempts == old(connectionAttempts) + PollIncrement(old(client.state))
      ensures currentPage == PollPage(old(client.state), old(currentPage))
      ensures old(client.state) != Disconnected || client.hostname == "" ==>
                client.Snapshot() == old(client.Snapshot()) && client.emitted == old(client.emitted)
                && client.transport == old(client.transport)
      ensures old(client.state) == Disconnected && client.hostname != "" ==>
                client.Snapshot() == old(client.Snapshot()).(state := Connecting)
                && client.emitted == old(client.emitted) + [StateChanged(Connecting)]
                && client.transport == old(client.transport)
                   + [ConnectAsync(client.hostname, client.port, client.keepAlive), LoopStart]
    {
      match client.state
      case Connected =>
        if currentPage !in {AboutPage, AnimConfPage, SettingsPage} {
          currentPage := ControlPage;
        }
        return;
      case Connecting =>
        if currentPage !in {AboutPage, SettingsPage} {
          currentPage := ConnectionPage;
        }
        connectionAttempts := connectionAttempts + 1;
      case ConnectError =>
        currentPage := ConnectionPage;
        connectionAttempts := connectionAttempts + 1;
      case Disconnected =>
        client.ConnectToHost();
        currentPage := ConnectionPage;
        connectionAttempts := connectionAttempts + 1;
    }

    /** `on_client_connect`: subscribe to the four return topics, then ask for the full state. */
    method OnClientConnect()
      requires Valid()
      modifies client
      ensures Valid()
      ensures client.Snapshot() == old(client.Snapshot()) && client.emitted == old(client.emitted)
      ensures client.transport == old(client.transport)
                + Gate(client.state, SubscribeCall(topics.returnState))
                + Gate(client.state, SubscribeCall(topics.returnBrightness))
                + Gate(client.state, SubscribeCall(topics.returnAnimation))
                + Gate(client.state, SubscribeCall(topics.returnDataRequest))
                + Gate(client.state, PublishCall(topics.dataRequest, "request_type_full"))
    {
      client.Subscribe(topics.returnState);
      client.Subscribe(topics.returnBrightness);
      client.Subscribe(topics.returnAnimation);
      client.Subscribe(topics.returnDataRequest);
      client.Publish(topics.dataRequest, "request_type_full");
    }

    /**
     * The transport reports a CONNACK: the client's `on_connect` runs, and
     * on success its `connected` signal runs `on_client_connect`, whose
     * subscriptions and request all go out because the client is now
     * connected.
     */
    method ClientConnected(rc: int)
      requires Valid()
      modifies client
      ensures Valid()
      ensures rc != 0 ==>
                client.Snapshot() == old(client.Snapshot()).(state := ConnectError, resultCode := Some(rc))
                && client.emitted == old(client.emitted)
                   + (if old(client.state) == ConnectError then [] else [StateChanged(ConnectError)])
                   + [ConnectFailed]
                && client.transport == old(client.transport)
      ensures rc == 0 ==>
                client.Snapshot() == old(client.Snapshot()).(state := Connected)
                && client.emitted == old(client.emitted)
                   + (if old(client.state) == Connected then [] else [StateChanged(Connected)])
                   + [ConnectedSignal]
                && client.transport == old(client.transport)
                             + [SubscribeCall(topics.returnState), SubscribeCall(topics.returnBrightness),
                                SubscribeCall(topics.returnAnimation), SubscribeCall(topics.returnDataRequest),
                                PublishCall(topics.dataRequest, "request_type_full")]
    {
      client.OnConnect(rc);
      if rc == 0 {
        OnClientConnect();
      }
    }

    /** `toggle_led_power`: ask for the opposite of the known state, and forget the state. */
    method ToggleLedPower()
      requires Valid()
      modifies this, client
      ensures Valid()
      ensures State() == old(State()).(led := PowerUnknown)
      ensures connectionAttempts == old(connectionAttempts) && currentPage == old(currentPage)
      ensures client.Snapshot() == old(client.Snapshot()) && client.emitted == old(client.emitted)
      ensures client.transport == old(client.transport) + Gate(client.state, PublishCall(topics.state, TogglePayload(old(led))))
    {
      var payload := if led == PowerOn then "OFF" else if led == PowerOff then "ON" else "OFF";
      led := PowerUnknown;
      client.Publish(topics.state, payload);
    }

    /** `update_brightness`: the slider moved, so the brightness is unknown until confirmed; send the value. */
    method UpdateBrightness()
      requires Valid()
      modifies this, client
      ensures Valid()
      ensures State() == old(State()).(brightnessKnown := BrightnessUnknown)
      ensures connectionAttempts == old(connectionAttempts) && currentPage == old(currentPage)
      ensures client.Snapshot() == old(client.Snapshot()) && client.emitted == old(client.emitted)
      ensures client.transport == old(client.transport) + Gate(client.state, PublishCall(topics.brightness, IntToString(slider)))
    {
      brightnessKnown := BrightnessUnknown;
      client.Publish(topics.brightness, IntToString(slider));
    }

    /**
     * `set_animation(name)`: disable the sidebar until the strip confirms,
     * and send the device name of a display name; a name missing from the
     * table raises KeyError after the sidebar is disabled.
     */
    method SetAnimation(name: string) returns (outcome: Outcome)
      requires Valid()
      modifies this, client
      ensures Valid()
      ensures State() == old(State()).(sidebarEnabled := false)
      ensures connectionAttempts == old(connectionAttempts) && currentPage == old(currentPage)
      ensures client.Snapshot() == old(client.Snapshot()) && client.emitted == old(client.emitted)
      ensures name in Keys() ==>
                outcome == Done
                && client.transport == old(client.transport)
                   + Gate(client.state, PublishCall(topics.animation, DeviceName(name).value))
      ensures name !in Keys() ==> outcome == Raised(KeyError) && client.transport == old(client.transport)
    {
      sidebarEnabled := false;
      match DeviceName(name)
      case None =>
        return Raised(KeyError);
      case Some(deviceName) =>
        client.Publish(topics.animation, deviceName);
        return Done;
    }

    /** `update_animation_page(name)`: the configuration page of a device name, or the unknown page. */
    method UpdateAnimationPage(name: string)
      modifies this
      ensures State() == old(State()).(animConfPage := ConfPage(name))
      ensures connectionAttempts == old(connectionAttempts) && currentPage == old(currentPage)
    {
      animConfPage := ConfPage(name);
    }

    /** `publish_and_update_args`: send the args change, then ask for the args back. */
    method PublishAndUpdateArgs(topic: string, data: string)
      requires Valid()
      modifies client
      ensures Valid()
      ensures client.Snapshot() == old(client.Snapshot()) && client.emitted == old(client.emitted)
      ensures client.transport == old(client.transport)
                + Gate(client.state, PublishCall(topic, data))
                + Gate(client.state, PublishCall(topics.dataRequest, "request_type_args"))
    {
      client.Publish(topic, data);
      client.Publish(topics.dataRequest, "request_type_args");
    }

    /** `show_about`. */
    method ShowAbout()
      modifies this
      ensures State() == old(State()) && connectionAttempts == old(connectionAttempts)
      ensures currentPage == AboutPage
    {
      currentPage := AboutPage;
    }

    /** `show_settings`. */
    method ShowSettings()
      modifies this
      ensures State() == old(State()) && connectionAttempts == old(connectionAttempts)
      ensures currentPage == SettingsPage
    {
      currentPage := SettingsPage;
    }

    /** `anim_conf`. */
    method ShowAnimConf()
      modifies this
      ensures State() == old(State()) && connectionAttempts == old(connectionAttempts)
      ensures currentPage == AnimConfPage
    {
      currentPage := AnimConfPage;
    }

    /** Publish each message, in order, through the client. */
    method SendAll(msgs: seq<Message>)
      requires Valid()
      modifies client
      ensures Valid()
      ensures client.Snapshot() == old(client.Snapshot()) && client.emitted == old(client.emitted)
      ensures client.transport == old(client.transport) + Publishes(client.state, msgs)
      decreases |msgs|
    {
      if msgs != [] {
        client.Publish(msgs[0].topic, msgs[0].payload);
        ghost var sent := client.transport;
        SendAll(msgs[1..]);
        assert client.transport == sent + Publishes(client.state, msgs[1..]);
        assert Publishes(client.state, msgs)
               == Gate(client.state, PublishCall(msgs[0].topic, msgs[0].payload)) + Publishes(client.state, msgs[1..]);
      }
    }

    /** Store a new picture of the strip. */
    method Load(d: Device)
      modifies this
      ensures State() == d
      ensures connectionAttempts == old(connectionAttempts) && currentPage == old(currentPage)
    {
      led, brightnessValue, brightnessKnown := d.led, d.brightnessValue, d.brightnessKnown;
      slider, args, numLeds := d.slider, d.args, d.numLeds;
      animationName, sidebarEnabled, animConfPage := d.animationName, d.sidebarEnabled, d.animConfPage;
    }

    /**
     * `on_client_message(topic, payload)`: the strip state moves as
     * Reducer.Receive says, and the brightness the slider sends back in a
     * snapshot goes out through the client.
     */
    method OnClientMessage(topic: string, payload: string) returns (outcome: Outcome)
      requires Valid()
      modifies this, client
      ensures Valid()
      ensures State() == Receive(old(State()), topics, decoders, topic, payload).device
      ensures outcome == Receive(old(State()), topics, decoders, topic, payload).outcome
      ensures connectionAttempts == old(connectionAttempts) && currentPage == old(currentPage)
      ensures client.Snapshot() == old(client.Snapshot()) && client.emitted == old(client.emitted)
      ensures client.transport == old(client.transport)
                + Publishes(client.state, Receive(old(State()), topics, decoders, topic, payload).sent)
    {
      var r := Receive(State(), topics, decoders, topic, payload);
      Load(r.device);
      SendAll(r.sent);
      outcome := r.outcome;
    }

    /** A message from the transport: the client re-emits it and the window handles it. */
    method Deliver(topic: string, payload: string) returns (outcome: Outcome)
      requires Valid()
      modifies this, client
      ensures Valid()
      ensures State() == Receive(old(State()), topics, decoders, topic, payload).device
      ensures outcome == Receive(old(State()), topics, decoders, topic, payload).outcome
      ensures connectionAttempts == old(connectionAttempts) && currentPage == old(currentPage)
      ensures client.Snapshot() == old(client.Snapshot())
      ensures client.emitted == old(client.emitted) + [MessageSignal(topic, payload)]
      ensures client.transport == old(client.transport)
                + Publishes(client.state, Receive(old(State()), topics, decoders, topic, payload).sent)
    {
      client.OnMessage(topic, payload);
      outcome := OnClientMessage(topic, payload);
    }
  }
}
