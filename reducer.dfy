/**
 * The device-state part of MainWindow in main.py, without its widgets: how
 * an inbound MQTT message, or a full-state snapshot on the data-return
 * topic, changes what the window knows about the LED strip, and which
 * messages the window publishes in reaction.
 */
module Reducer {
  import opened Wrappers
  import opened Json
  import opened Decimal
  import opened AnimationData
  import opened ArgsDecode
  import opened Animations

  /** `PowerStates`. */
  datatype PowerState = PowerOff | PowerOn | PowerUnknown

  /** `BrightnessStates`. */
  datatype BrightnessState = BrightnessKnown | BrightnessUnknown

  /** The Python exceptions a handler can end with. */
  datatype ErrorKind = ValueError | TypeError | KeyError | AttributeError | OverflowError

  /**
   * How a handler ends: normally, by the early return on JSON it cannot
   * parse, or by an exception that leaves the rest of the handler unrun.
   */
  datatype Outcome = Done | Malformed | Raised(error: ErrorKind)

  /** The topic names the window reads from its settings. */
  datatype Topics = Topics(
    returnState: string,
    returnBrightness: string,
    returnAnimation: string,
    returnDataRequest: string,
    dataRequest: string,
    state: string,
    brightness: string,
    animation: string)

  /**
   * Python's `int(payload)` and `json.loads(text)`, given as parameters;
   * None stands for the ValueError (or JSONDecodeError) they raise.
   */
  datatype Decoders = Decoders(parseInt: string -> Option<int>, parseJson: string -> Option<Json>)

  /** A publish the window asks its client for. */
  datatype Message = Message(topic: string, payload: string)

  /** The range of the brightness slider. */
  const SliderMin: int := 1
  const SliderMax: int := 255

  /** The range of the C int a QSlider value is converted to. */
  const IntMin: int := -0x8000_0000
  const IntMax: int := 0x7fff_ffff

  /** What the window knows about the strip. */
  datatype Device = Device(
    led: PowerState,
    brightnessValue: int,
    brightnessKnown: BrightnessState,
    slider: int,
    args: AnimationArgs,
    numLeds: Json,
    animationName: string,
    sidebarEnabled: bool,
    animConfPage: nat)

  /**
   * The values `__init__` starts with. The slider is created with range
   * 1..255, which moves its value from 0 to 1 before anything listens.
   */
  const InitialDevice: Device :=
    Device(PowerUnknown, 0, BrightnessUnknown, SliderMin, AnimationArgs(), JInt(100), "Unknown", false, UnknownPage)

  /** The new device state, the publishes asked for, and how the handler ended. */
  datatype Reaction = Reaction(device: Device, sent: seq<Message>, outcome: Outcome)

  /** A power report: "ON" is on, anything else is off. */
  function PowerOf(report: string): PowerState {
    if report == "ON" then PowerOn else PowerOff
  }

  /**
   * An animation report: a known device name shows its display name,
   * enables the sidebar and selects its configuration page; anything else
   * shows "Unknown" and leaves the sidebar and the page as they were.
   */
  function ShowAnimation(d: Device, name: string): (r: Device)
    ensures r.animationName == DisplayName(name)
    ensures r.(animationName := d.animationName, sidebarEnabled := d.sidebarEnabled,
               animConfPage := d.animConfPage) == d
    ensures name !in Values() ==> r.sidebarEnabled == d.sidebarEnabled && r.animConfPage == d.animConfPage
  {
    if name in Values() then d.(animationName := DisplayName(name), sidebarEnabled := true, animConfPage := ConfPage(name))
    else d.(animationName := "Unknown")
  }

  /** `QSlider.setValue` keeps the value inside the slider's range. */
  function Clamp(v: int): (c: int)
    ensures SliderMin <= c <= SliderMax
    ensures SliderMin <= v <= SliderMax ==> c == v
  {
    if v < SliderMin then SliderMin else if v > SliderMax then SliderMax else v
  }

  /**
   * The slider moved to `value`: when that is a change, `valueChanged` runs
   * `update_brightness`, which marks the brightness unknown and publishes
   * the new value; either way the snapshot handler then marks it known.
   */
  function MoveSlider(d: Device, brightnessTopic: string, value: int): (r: Reaction)
    ensures r.outcome == Done && r.device == d.(slider := value, brightnessKnown := BrightnessKnown)
    ensures r.sent == [] <==> value == d.slider
    ensures r.sent != [] ==> r.sent == [Message(brightnessTopic, IntToString(value))]
  {
    if value == d.slider then Reaction(d.(brightnessKnown := BrightnessKnown), [], Done)
    else Reaction(d.(slider := value, brightnessKnown := BrightnessKnown),
                  [Message(brightnessTopic, IntToString(value))], Done)
  }

  /** `setValue(data["brightness"])`: a Python int (a bool is one) that fits a C int, or an exception. */
  function SnapshotBrightness(d: Device, brightnessTopic: string, v: Json): (r: Reaction)
    ensures r.outcome == Done <==> v.JBool? || (v.JInt? && IntMin <= v.i <= IntMax)
    ensures r.outcome == Done ==>
              SliderMin <= r.device.slider <= SliderMax && r.device.brightnessKnown == BrightnessKnown
    ensures r.outcome != Done ==> r.device == d && r.sent == []
    ensures r.device.(slider := d.slider, brightnessKnown := d.brightnessKnown) == d
    ensures forall k :: 0 <= k < |r.sent| ==> r.sent[k] == Message(brightnessTopic, IntToString(r.device.slider))
    ensures |r.sent| <= 1
  {
    match v
    case JInt(i) =>
      if i < IntMin || i > IntMax then Reaction(d, [], Raised(OverflowError))
      else MoveSlider(d, brightnessTopic, Clamp(i))
    case JBool(b) => MoveSlider(d, brightnessTopic, Clamp(if b then 1 else 0))
    case _ => Reaction(d, [], Raised(TypeError))
  }

  /**
   * `dict_to_dataclass(json.loads(data["args"]), AnimationArgs)` and the
   * `set_rgb` call after it. The text must be a string that parses and
   * decodes; the decoded args are stored, and then `set_rgb`, which
   * ColorBlock does not define, raises AttributeError.
   */
  function SnapshotArgs(r: Reaction, parseJson: string -> Option<Json>, v: Json): (t: Reaction)
    ensures t.sent == r.sent && t.outcome.Raised?
    ensures t.device.(args := r.device.args) == r.device
    ensures t.outcome == Raised(AttributeError) <==>
              v.JStr? && parseJson(v.s).Some? && DecodeArgs(parseJson(v.s).value).Some?
    ensures t.outcome == Raised(AttributeError) ==> t.device.args == DecodeArgs(parseJson(v.s).value).value
    ensures t.outcome != Raised(AttributeError) ==> t.device == r.device
  {
    if !v.JStr? then r.(outcome := Raised(TypeError))
    else match parseJson(v.s)
      case None => r.(outcome := Raised(ValueError))
      case Some(j) =>
        match DecodeArgs(j)
        case None => r.(outcome := Raised(TypeError))
        case Some(a) => r.(device := r.device.(args := a), outcome := Raised(AttributeError))
  }

  /** Python's `key in s` on strings. */
  predicate IsSubstring(key: string, s: string)
    decreases |s|
  {
    |key| <= |s| && (s[..|key|] == key || (s != [] && IsSubstring(key, s[1..])))
  }

  /** The result of `key in data` followed, when true, by `data[key]`. */
  datatype Lookup = Absent | Present(value: Json) | Unindexable

  /**
   * Python's `in` and `[]` on whatever `json.loads` returned: a dict looks
   * the key up; a list or a string answers `in` (by element, by substring)
   * but cannot be indexed by a string; a number, a bool or None raises on
   * `in` already. Every failure is a TypeError.
   */
  function Find(key: string, data: Json): (l: Lookup)
    ensures data.JObj? ==> l == (if key in data.fields then Present(data.fields[key]) else Absent)
    ensures l.Present? ==> data.JObj?
  {
    match data
    case JObj(m) => if key in m then Present(m[key]) else Absent
    case JArr(items) => if JStr(key) in items then Unindexable else Absent
    case JStr(s) => if IsSubstring(key, s) then Unindexable else Absent
    case _ => Unindexable
  }

  /** `if "state" in data`: the power is set from the value, "ON" meaning on. */
  function StateStep(d: Device, data: Json): (r: Reaction)
    ensures r.sent == [] && r.device.(led := d.led) == d
    ensures data.JObj? ==> r.outcome == Done
    ensures data.JObj? && "state" in data.fields ==>
              (r.device.led == PowerOn <==> data.fields["state"] == JStr("ON")) && r.device.led != PowerUnknown
    ensures data.JObj? && "state" !in data.fields ==> r.device == d
  {
    match Find("state", data)
    case Unindexable => Reaction(d, [], Raised(TypeError))
    case Absent => Reaction(d, [], Done)
    case Present(v) => Reaction(d.(led := if v == JStr("ON") then PowerOn else PowerOff), [], Done)
  }

  /** `if "animation" in data`: a device name as a separate animation report is; anything else reads "Unknown". */
  function AnimationStep(d: Device, data: Json): (r: Reaction)
    ensures r.sent == []
    ensures r.device.(animationName := d.animationName, sidebarEnabled := d.sidebarEnabled,
                      animConfPage := d.animConfPage) == d
    ensures data.JObj? ==> r.outcome == Done
    ensures data.JObj? && "animation" in data.fields && data.fields["animation"].JStr? ==>
              r.device == ShowAnimation(d, data.fields["animation"].s)
    ensures data.JObj? && "animation" in data.fields && !data.fields["animation"].JStr? ==>
              r.device == d.(animationName := "Unknown")
    ensures data.JObj? && "animation" !in data.fields ==> r.device == d
  {
    match Find("animation", data)
    case Unindexable => Reaction(d, [], Raised(TypeError))
    case Absent => Reaction(d, [], Done)
    case Present(v) =>
      if v.JStr? then Reaction(ShowAnimation(d, v.s), [], Done)
      else Reaction(d.(animationName := "Unknown"), [], Done)
  }

  /** `if "brightness" in data`: the slider is set, which may publish, and the brightness marked known. */
  function BrightnessStep(d: Device, brightnessTopic: string, data: Json): (r: Reaction)
    ensures r.device.(slider := d.slider, brightnessKnown := d.brightnessKnown) == d
    ensures |r.sent| <= 1
    ensures forall k :: 0 <= k < |r.sent| ==> r.sent[k] == Message(brightnessTopic, IntToString(r.device.slider))
    ensures data.JObj? && "brightness" !in data.fields ==> r == Reaction(d, [], Done)
    ensures data.JObj? && "brightness" in data.fields ==>
              r == SnapshotBrightness(d, brightnessTopic, data.fields["brightness"])
  {
    match Find("brightness", data)
    case Unindexable => Reaction(d, [], Raised(TypeError))
    case Absent => Reaction(d, [], Done)
    case Present(v) => SnapshotBrightness(d, brightnessTopic, v)
  }

  /**
   * `if "args" in data` and `if "num_leds" in data`: args always end the
   * handler with an exception, so the LED count is stored only without them.
   */
  function TailStep(r: Reaction, parseJson: string -> Option<Json>, data: Json): (t: Reaction)
    ensures t.sent == r.sent
    ensures t.device.(args := r.device.args, numLeds := r.device.numLeds) == r.device
    ensures data.JObj? && "args" in data.fields ==>
              t == SnapshotArgs(r, parseJson, data.fields["args"]) && t.outcome.Raised?
    ensures data.JObj? && "args" !in data.fields ==> t.device.args == r.device.args && t.outcome == r.outcome
    ensures data.JObj? && "args" !in data.fields && "num_leds" in data.fields ==>
              t.device.numLeds == data.fields["num_leds"]
    ensures data.JObj? && "args" !in data.fields && "num_leds" !in data.fields ==> t == r
  {
    match Find("args", data)
    case Unindexable => r.(outcome := Raised(TypeError))
    case Present(v) => SnapshotArgs(r, parseJson, v)
    case Absent =>
      match Find("num_leds", data)
      case Unindexable => r.(outcome := Raised(TypeError))
      case Absent => r
      case Present(v) => r.(device := r.device.(numLeds := v))
  }

  /** The state-snapshot branch of `on_client_message`, from the parsed payload on: each key in turn, until one raises. */
  function Snapshot(d: Device, brightnessTopic: string, parseJson: string -> Option<Json>, data: Json): (r: Reaction)
    ensures |r.sent| <= 1
    ensures forall k :: 0 <= k < |r.sent| ==> r.sent[k] == Message(brightnessTopic, IntToString(r.device.slider))
    ensures r.outcome != Malformed
    ensures r.device.(led := d.led, brightnessKnown := d.brightnessKnown, slider := d.slider, args := d.args,
                      numLeds := d.numLeds, animationName := d.animationName,
                      sidebarEnabled := d.sidebarEnabled, animConfPage := d.animConfPage) == d
  {
    var r1 := StateStep(d, data);
    if r1.outcome != Done then r1 else
    var r2 := AnimationStep(r1.device, data);
    if r2.outcome != Done then r2 else
    var r3 := BrightnessStep(r2.device, brightnessTopic, data);
    if r3.outcome != Done then r3 else
    TailStep(r3, parseJson, data)
  }

  /** `on_client_message(topic, payload)`: the first topic that matches decides. */
  function Receive(d: Device, topics: Topics, decoders: Decoders, topic: string, payload: string): (r: Reaction)
    ensures r.sent != [] ==> topic == topics.returnDataRequest && |r.sent| == 1 && r.sent[0].topic == topics.brightness
    ensures r.outcome == Malformed ==> r.device == d && r.sent == []
    ensures (topic != topics.returnState && topic != topics.returnBrightness && topic != topics.returnAnimation
             && topic != topics.returnDataRequest) ==> r == Reaction(d, [], Done)
  {
    if topic == topics.returnState then
      Reaction(d.(led := PowerOf(payload)), [], Done)
    else if topic == topics.returnBrightness then
      match decoders.parseInt(payload)
      case None => Reaction(d.(brightnessKnown := BrightnessKnown), [], Raised(ValueError))
      case Some(v) => Reaction(d.(brightnessKnown := BrightnessKnown, brightnessValue := v), [], Done)
    else if topic == topics.returnAnimation then
      Reaction(ShowAnimation(d, payload), [], Done)
    else if topic == topics.returnDataRequest then
      match decoders.parseJson(payload)
      case None => Reaction(d, [], Malformed)
      case Some(data) => Snapshot(d, topics.brightness, decoders.parseJson, data)
    else
      Reaction(d, [], Done)
  }

  /** A power report sets the power to on exactly for "ON", to off otherwise, and touches nothing else. */
  lemma ReceivePower(d: Device, topics: Topics, decoders: Decoders, payload: string)
    ensures var r := Receive(d, topics, decoders, topics.returnState, payload);
      && (r.device.led == PowerOn <==> payload == "ON")
      && r.device.led != PowerUnknown
      && r.device.(led := d.led) == d
      && r.sent == [] && r.outcome == Done
  {
  }

  /**
   * A brightness report marks the brightness known and stores the number;
   * a payload `int` rejects raises ValueError with only the mark made.
   */
  lemma ReceiveBrightness(d: Device, topics: Topics, decoders: Decoders, payload: string)
    requires topics.returnBrightness != topics.returnState
    ensures var r := Receive(d, topics, decoders, topics.returnBrightness, payload);
      && r.device.brightnessKnown == BrightnessKnown
      && r.device.(brightnessKnown := d.brightnessKnown, brightnessValue := d.brightnessValue) == d
      && r.sent == []
      && (decoders.parseInt(payload).Some? ==>
            r.outcome == Done && r.device.brightnessValue == decoders.parseInt(payload).value)
      && (decoders.parseInt(payload).None? ==>
            r.outcome == Raised(ValueError) && r.device.brightnessValue == d.brightnessValue)
  {
  }

  /**
   * A known animation report shows the display name that maps to it, opens
   * its configuration page and enables the sidebar.
   */
  lemma ShowKnownAnimation(d: Device, i: nat)
    requires i < |AnimationList|
    ensures var e := ShowAnimation(d, AnimationList[i].1);
      e == d.(animationName := AnimationList[i].0, sidebarEnabled := true, animConfPage := i + 1)
  {
    DisplayNameAt(i);
    ConfPagesMatchList();
    assert AnimationList[i].1 == Values()[i];
  }

  /** Any other report shows "Unknown" and changes nothing else. */
  lemma ShowUnknownAnimation(d: Device, name: string)
    requires name !in Values()
    ensures ShowAnimation(d, name) == d.(animationName := "Unknown")
  {
  }

  /** JSON the handler cannot parse ends it before anything changes. */
  lemma ReceiveMalformed(d: Device, topics: Topics, decoders: Decoders, payload: string)
    requires topics.returnDataRequest !in {topics.returnState, topics.returnBrightness, topics.returnAnimation}
    requires decoders.parseJson(payload).None?
    ensures Receive(d, topics, decoders, topics.returnDataRequest, payload) == Reaction(d, [], Malformed)
  {
  }

  /** A message on any other topic is ignored. */
  lemma ReceiveOtherTopic(d: Device, topics: Topics, decoders: Decoders, topic: string, payload: string)
    requires topic !in {topics.returnState, topics.returnBrightness, topics.returnAnimation, topics.returnDataRequest}
    ensures Receive(d, topics, decoders, topic, payload) == Reaction(d, [], Done)
  {
  }

  /**
   * A snapshot object leaves every part of the state whose key it lacks as
   * it was, never touches the number from the brightness topic, and only
   * asks to publish when it moves the slider.
   */
  lemma SnapshotAbsentKeys(d: Device, topic: string, parseJson: string -> Option<Json>, m: map<string, Json>)
    ensures var r := Snapshot(d, topic, parseJson, JObj(m));
      && ("state" !in m ==> r.device.led == d.led)
      && ("animation" !in m ==>
            r.device.animationName == d.animationName && r.device.sidebarEnabled == d.sidebarEnabled
            && r.device.animConfPage == d.animConfPage)
      && ("brightness" !in m ==>
            r.device.slider == d.slider && r.device.brightnessKnown == d.brightnessKnown && r.sent == [])
      && ("args" !in m ==> r.device.args == d.args)
      && ("num_leds" !in m ==> r.device.numLeds == d.numLeds)
      && r.device.brightnessValue == d.brightnessValue
      && |r.sent| <= 1
  {
  }

  /** A snapshot's power and animation keys are applied as the separate reports are. */
  lemma SnapshotPowerAndAnimation(d: Device, topic: string, parseJson: string -> Option<Json>, m: map<string, Json>)
    ensures var r := Snapshot(d, topic, parseJson, JObj(m));
      && ("state" in m ==> (r.device.led == PowerOn <==> m["state"] == JStr("ON")) && r.device.led != PowerUnknown)
      && ("animation" in m && m["animation"].JStr? ==>
            r.device.animationName == ShowAnimation(d, m["animation"].s).animationName
            && r.device.sidebarEnabled == ShowAnimation(d, m["animation"].s).sidebarEnabled
            && r.device.animConfPage == ShowAnimation(d, m["animation"].s).animConfPage)
      && ("animation" in m && !m["animation"].JStr? ==> r.device.animationName == "Unknown")
  {
  }

  /**
   * A brightness that is an int in C range puts the slider at that value,
   * cut to 1..255, marks the brightness known, and publishes the slider
   * value exactly when it moved.
   */
  lemma SnapshotBrightnessValue(d: Device, topic: string, parseJson: string -> Option<Json>,
                                m: map<string, Json>, b: int)
    requires "brightness" in m && m["brightness"] == JInt(b) && IntMin <= b <= IntMax
    ensures var r := Snapshot(d, topic, parseJson, JObj(m));
      && r.device.slider == Clamp(b)
      && r.device.brightnessKnown == BrightnessKnown
      && r.sent == (if Clamp(b) == d.slider then [] else [Message(topic, IntToString(Clamp(b)))])
  {
  }

  /**
   * With an "args" key the handler never completes: whatever happens to the
   * args, it raises, and the number of LEDs is left as it was.
   */
  lemma SnapshotArgsRaises(d: Device, topic: string, parseJson: string -> Option<Json>, m: map<string, Json>)
    requires "args" in m
    ensures var r := Snapshot(d, topic, parseJson, JObj(m));
      r.outcome.Raised? && r.device.numLeds == d.numLeds
  {
  }

  /**
   * Args text that decodes is stored before the handler raises; in
   * particular args the window encoded itself come back unchanged. A
   * brightness the slider takes (an int in C range or a bool) does not stop
   * the handler before it reaches the args.
   */
  lemma SnapshotArgsStored(d: Device, topic: string, parseJson: string -> Option<Json>,
                           m: map<string, Json>, a: AnimationArgs)
    requires "args" in m && m["args"].JStr? && parseJson(m["args"].s) == Some(EncodeArgs(a))
    requires ("brightness" !in m || m["brightness"].JBool?
             || (m["brightness"].JInt? && IntMin <= m["brightness"].i <= IntMax))
    ensures var r := Snapshot(d, topic, parseJson, JObj(m));
      r.device.args == a && r.outcome == Raised(AttributeError)
  {
    DecodeEncode(a);
  }

  /** Without "args", a "num_leds" key is stored as it came, also after a brightness the slider takes. */
  lemma SnapshotNumLeds(d: Device, topic: string, parseJson: string -> Option<Json>, m: map<string, Json>)
    requires "num_leds" in m && "args" !in m
    requires ("brightness" !in m || m["brightness"].JBool?
             || (m["brightness"].JInt? && IntMin <= m["brightness"].i <= IntMax))
    ensures var r := Snapshot(d, topic, parseJson, JObj(m));
      r.device.numLeds == m["num_leds"] && r.outcome == Done
  {
  }

  /** A number, a bool or null as the snapshot raises on the first `in` and changes nothing. */
  lemma SnapshotScalar(d: Device, topic: string, parseJson: string -> Option<Json>, data: Json)
    requires data.JNull? || data.JBool? || data.JInt? || data.JReal?
    ensures Snapshot(d, topic, parseJson, data) == Reaction(d, [], Raised(TypeError))
  {
  }

  /** A list that holds none of the key names is searched and ignored. */
  lemma SnapshotPlainList(d: Device, topic: string, parseJson: string -> Option<Json>, items: seq<Json>)
    requires forall k :: k in ["state", "animation", "brightness", "args", "num_leds"] ==> JStr(k) !in items
    ensures Snapshot(d, topic, parseJson, JArr(items)) == Reaction(d, [], Done)
  {
    assert "state" in ["state", "animation", "brightness", "args", "num_leds"];
    assert "animation" in ["state", "animation", "brightness", "args", "num_leds"];
    assert "brightness" in ["state", "animation", "brightness", "args", "num_leds"];
    assert "args" in ["state", "animation", "brightness", "args", "num_leds"];
    assert "num_leds" in ["state", "animation", "brightness", "args", "num_leds"];
  }

  /**
   * A fresh window told `{"state": "ON", "brightness": 200}` shows the strip
   * on at brightness 200 and, as the slider moved, publishes 200 back.
   */
  lemma FirstSnapshot(topic: string, parseJson: string -> Option<Json>)
    ensures var r := Snapshot(InitialDevice, topic, parseJson,
                              JObj(map["state" := JStr("ON"), "brightness" := JInt(200)]));
      && r.device == InitialDevice.(led := PowerOn, slider := 200, brightnessKnown := BrightnessKnown)
      && r.sent == [Message(topic, "200")]
      && r.outcome == Done
  {
    assert NatToString(200) == "200" by {
      assert NatToString(2) == "2";
      assert NatToString(20) == "20";
    }
  }

  /** The payload `toggle_led_power` publishes: "ON" exactly when the strip was known to be off. */
  function TogglePayload(p: PowerState): (payload: string)
    ensures payload == "ON" <==> p == PowerOff
    ensures payload == "ON" || payload == "OFF"
  {
    if p == PowerOff then "ON" else "OFF"
  }

  /** When the strip echoes the toggle request, a known power state flips and an unknown one becomes off. */
  lemma ToggleEcho(d: Device, topics: Topics, decoders: Decoders)
    ensures var r := Receive(d, topics, decoders, topics.returnState, TogglePayload(d.led));
      && (d.led == PowerOn ==> r.device.led == PowerOff)
      && (d.led == PowerOff ==> r.device.led == PowerOn)
      && (d.led == PowerUnknown ==> r.device.led == PowerOff)
  {
  }
}
