# NeoPixel Animator client core, in Dafny

This project models the non-graphical core of the NeoPixel Animator desktop client. The client is a Qt
application that drives an LED-strip controller over MQTT. The model has five parts:

- **The MQTT session holder** (`MqttClient` of mqtt.py), a class in module `Mqtt`:
  - its notifying properties, which emit a change signal only when the value changes;
  - `connectToHost`, `disconnectFromHost`, and `subscribe`/`publish`, which pass only while
    connected;
  - the paho callbacks `on_connect`, `on_disconnect` and `on_message`.

  The paho client is an abstract sink: every call made on it is logged in the ghost field
  `transport`, and every signal in the ghost field `emitted`. The class invariant says one thing:
  a listener that replays the change signals from the initial values knows every property except
  `result_code`, which `on_connect` writes without notifying.
- **The supervisor of the main window** (`MainWindow` of main.py), as class `Window.MainWindow`:
  - the one-second connection poll, with its attempt counter and the page it selects;
  - the power toggle and the brightness, animation and args publishers;
  - the page switches;
  - the handling of the client's `connected` and `messageSignal` signals.

  How an inbound message changes what the window knows about the strip is the pure reducer
  `Reducer.Receive`. It covers the power, brightness and animation reports and the full-state
  snapshot. Each key of the snapshot is handled in turn, with Python's `in` and `[]` on whatever
  the JSON decoder returned. The brightness slider's range clamp and its feedback publish are
  modelled too.
- **Colour conversion.** `hex_to_rgb` (main.py) and `rgb_to_hex` plus the `ColorBlock` style
  sheets (widgets.py) live in modules `Convert`, `Widgets` and `Hex`. They come with round trips
  in both directions.
- **The palettes** (palette.py), in module `Palette`:
  - the named palettes;
  - the placement loops of the grid and of the horizontal and vertical palettes, proved against
    a cell function with injectivity and row-major order;
  - the `selected` signal of a pressed button.
- **The animation options** (animation_data.py), in module `AnimationData`: the option records
  with their defaults. Module `ArgsDecode` holds `dict_to_dataclass` applied to
  `AnimationArgs`. Module `Payloads` holds the `key,{"field": value}` text the animation pages
  publish.

Python's `int(text)` and `json.loads(text)` are parameters of the window (`Reducer.Decoders`), and
`None` stands for the exception they raise. The topic names come from the settings and are a
parameter too (`Reducer.Topics`). How a handler ends is an `Outcome`:

- it completes;
- it returns early on unparsable JSON;
- it raises a named Python exception, which leaves the rest of the handler unrun. What happens to the
  application after that depends on the Qt binding (see "## Left out").

## Model

| member | source | states |
|---|---|---|
| Hex.ParseHex | main.py:142 | `int(t, 16)` succeeds exactly on non-empty runs of hex digits of either case |
| Hex.ParseHexPair | main.py:142 | two digits read back as 16 × first + second |
| Hex.Format02 | widgets.py:5 | `%02x` is at least two characters wide, three outside -255..255; a non-negative number gives only lowercase hex digits, a negative one a minus and then digits |
| Hex.Format02Byte | widgets.py:4-5 | `%02x` of a value in 0..255 is exactly its two lowercase digits, high digit first |
| Decimal.NatToStringDigits | main.py:705 | `str` of a natural number is non-empty and made only of decimal digits |
| Widgets.RgbToHex | widgets.py:4-5 | `rgb_to_hex` is at least six characters, all lowercase hex digits when no component is negative; the exact text for a byte triple is RgbToHexOfBytes |
| Widgets.RgbToHexOfBytes | widgets.py:4-5 | `rgb_to_hex` of a byte triple is six lowercase hex digits, two per component in r, g, b order |
| Widgets.RgbToHexWide | widgets.py:4-5 | whenever any component is above 255 the text is longer than six characters, because `%02x` pads to two digits and never truncates |
| Widgets.ColorStyle | widgets.py:22-26 | the sheet is `background-color: `, then the colour exactly as given, then `;`, so the colour can be read back from it |
| Widgets.RgbStyle | widgets.py:22-33 | `setRGB` sets the same style sheet as `setColor` of `#` followed by the hex text |
| Convert.Slice | main.py:142 | Python slicing clips both bounds at the end of the string, and the slice holds the characters of the string from the start bound on |
| Convert.HexToRgb | main.py:133-142 | `hex_to_rgb` gives a triple exactly when all three two-character slices parse |
| Convert.HexToRgbShort | main.py:142 | four or fewer characters always fail, because the blue slice is empty |
| Convert.HexToRgbOfSixDigits | main.py:133-142 | six hex digits give the triple of their pair values, each in 0..255 |
| Convert.HexToRgbOfRgbToHex | main.py:133-142 | round trip: `hex_to_rgb(rgb_to_hex(c)) == c` for every byte triple |
| Convert.PairDigits | widgets.py:4-5 | `%02x` of the value of two hex digits writes those digits back, lowercased |
| Convert.RgbToHexOfHexToRgb | widgets.py:4-5 | reverse round trip: `rgb_to_hex(hex_to_rgb(h))` is `h` lowercased, for six hex digits |
| Convert.RgbStyleRoundTrip | widgets.py:28-33 | the colour inside a `setRGB` style sheet (characters 19..25) reads back as the triple |
| Convert.StripHashes | main.py:493 | `lstrip('#')` removes exactly the leading run of `#`, leaving a suffix that does not start with one |
| AnimationData.Defaults | animation_data.py:4-44 | each record's defaults are the declared ones; AnimationArgs defaults to default sub-records |
| ArgsDecode.DecodeArgs | main.py:145-152 | conversion succeeds iff the value is an object whose keys are AnimationArgs fields, and each nested value is an object whose keys are fields of its record; otherwise TypeError |
| ArgsDecode.DecodeEncode | main.py:145-152 | decoding the fully spelled-out object of any AnimationArgs gives it back |
| ArgsDecode.DecodeEmpty | main.py:152 | `{}` decodes to all defaults |
| ArgsDecode.DecodeArgsFields | main.py:147-152 | absent keys keep their default record; a present record takes each given field and the default for the rest |
| ArgsDecode.DecodeFlashSpeed | main.py:145-152 | an object naming only the flash speed changes that field and nothing else |
| Animations.IndexOf | main.py:972 | `list.index`: defined iff present, and it is the first position holding the value |
| Animations.DeviceName | main.py:1067 | `ANIMATION_LIST[name]` is defined exactly for the display names |
| Animations.ConfPage | main.py:1080-1084 | the configuration page index is at most 13 |
| Animations.TablesDistinct | main.py:64-78 | 13 entries; neither display names nor device names repeat |
| Animations.DisplayName | main.py:970-977 | a reported device name in the table shows one of the display names, any other shows "Unknown"; DisplayNameAt pins which one |
| Animations.DisplayNameAt | main.py:969-978 | the reverse lookup of the i-th device name gives the i-th display name |
| Animations.DisplayNameUnknown | main.py:976-977 | a device name outside the table is shown as "Unknown" |
| Animations.DisplayNameOfDeviceName | main.py:969-978 | selecting a display name and reading the device's echo shows the same display name |
| Animations.ConfPagesMatchList | main.py:101-115 | the page table's keys are exactly the device names, and the i-th one gets page i + 1 |
| Animations.ConfPageUnknown | main.py:1083-1084 | a name outside the table selects the unknown page |
| Payloads.ArgsPayload | main.py:493 | the f-string is the key, a comma and a one-field object ending in `}`; SplitArgsPayload reads key and object back |
| Payloads.ListText | main.py:493 | `str(list(...))` of a triple is bracketed; ColorNamePayload pins its contents for palette colours |
| Payloads.ColorNamePayload | main.py:489-494 | a `#rrggbb` colour name gives a payload whose list holds the bytes the six digits spell, and that triple formats back to the name's digits in lower case |
| Payloads.PalettePressPayload | main.py:489-494 | pressing any colour of any shipped palette gives a payload |
| Payloads.FlashSpeedTwelve | main.py:703-712 | the flash slider at 12 sends exactly `flash,{"speed": 12}` |
| Payloads.NumberArgsPayload | main.py:703-712 | a slider payload starts with the key and a comma and holds at least one digit of the value; FlashSpeedTwelve gives one literal wire text |
| Payloads.WipeSliderPayloads | main.py:780-790 | the wipe slider names record `wipe` both times, with `leds_iter` while moving and `speed` on release |
| Payloads.SplitAtComma | main.py:493 | splitting at the first comma: None iff there is no comma; otherwise the key before it holds no comma and the parts join back to the text |
| Payloads.SplitKeyed | main.py:493 | a comma-free key followed by a comma is split off exactly |
| Payloads.SplitArgsPayload | main.py:493 | the args payload is unambiguous: the first comma separates the key from the one-field object |
| Payloads.EchoDecodes | main.py:1013-1016 | a one-field echo of a known record field decodes |
| Payloads.KnownColorTargets | main.py:489-813 | every palette target except the random one names an AnimationArgs record field |
| Payloads.ColorTargetsDecode | main.py:1013-1016 | the echo of every colour target but the random one gets through the decoder |
| Payloads.UndecodableEdits | main.py:786-790 | the decoder refuses the wipe slider's release field `speed`, and the random colour (main.py:807-813) |
| Mqtt.ConnState.Code | mqtt.py:6-9 | the states are numbered 0..3 |
| Mqtt.FromCode | mqtt.py:6-9 | exactly the numbers 0..3 name a state, and each names the state it encodes |
| Mqtt.CodeRoundTrip | mqtt.py:6-9 | numbering a state and reading it back gives the state |
| Mqtt.CodeInjective | mqtt.py:6-9 | distinct states have distinct numbers |
| Mqtt.ReplaySnoc | mqtt.py:48-57 | replaying one more notification applies it to the replayed picture |
| Mqtt.MqttClient.constructor | mqtt.py:28-46 | initial properties (Disconnected, no code, "", 1883, 60, clean, MQTT 3.1); one paho client, created with clean session and protocol 3.1; no signals |
| Mqtt.MqttClient.SetState | mqtt.py:52-57 | sets the state; emits `stateChanged` only on a change; the invariant is kept |
| Mqtt.MqttClient.SetResultCode | mqtt.py:67-72 | sets the code; emits `rcChanged` only on a change |
| Mqtt.MqttClient.SetHostname | mqtt.py:82-87 | sets the hostname; notifies only on a change |
| Mqtt.MqttClient.SetPort | mqtt.py:93-98 | sets the port; notifies only on a change |
| Mqtt.MqttClient.SetKeepAlive | mqtt.py:104-109 | sets keep-alive; notifies only on a change |
| Mqtt.MqttClient.SetCleanSession | mqtt.py:115-120 | sets clean-session; notifies only on a change |
| Mqtt.MqttClient.SetProtocolVersion | mqtt.py:126-132 | only 3 and 4 are accepted, and only a change notifies; anything else leaves everything unchanged; the version is always valid |
| Mqtt.MqttClient.ConnectToHost | mqtt.py:139-147 | with a hostname: connect_async(host, port, keepalive), then Connecting, then loop_start; without one: nothing |
| Mqtt.MqttClient.DisconnectFromHost | mqtt.py:149-151 | one `disconnect` call; the state is not touched |
| Mqtt.Gate | mqtt.py:153-159 | a call reaches paho exactly when the state is Connected, and then it is that call alone |
| Mqtt.MqttClient.Subscribe | mqtt.py:153-155 | reaches paho exactly when connected |
| Mqtt.MqttClient.Publish | mqtt.py:157-159 | reaches paho exactly when connected |
| Mqtt.MqttClient.OnMessage | mqtt.py:163-166 | re-emits (topic, text) and changes nothing else |
| Mqtt.MqttClient.OnConnect | mqtt.py:168-175 | rc ≠ 0: ConnectError, the code is stored silently, `connect_failed` fires; rc = 0: Connected, `connected` fires |
| Mqtt.MqttClient.OnDisconnect | mqtt.py:177-180 | Disconnected from any state, then `disconnected` fires |
| Palette.Resolve | palette.py:81-83 | a palette name is replaced by its list, a list is used as it is, and any other string gives one entry per character (the linear palette does the same at palette.py:52-54) |
| Palette.ResolveUnnamed | palette.py:81-88 | a string that is not a palette name is iterated character by character |
| Palette.ColorNameConverts | main.py:493 | a `#rrggbb` name survives `lstrip('#')` and `hex_to_rgb` |
| Palette.KevinbotColorNames | palette.py:17-25 | the kevinbot palette has 35 entries, each `#` and six hex digits |
| Palette.Paired12ColorNames | palette.py:8-9 | every paired12 entry is `#` and six hex digits |
| Palette.Category10ColorNames | palette.py:11-12 | every category10 entry is `#` and six hex digits |
| Palette.Undertones17ColorNames | palette.py:14-16 | every 17undertones entry is `#` and six hex digits |
| Palette.PaletteColorsConvert | palette.py:6-26 | every colour of every named palette converts with `hex_to_rgb` after `lstrip('#')` |
| Palette.GridCell | palette.py:94-98 | a button never lands beyond its index in row or column, and a column count below one keeps every button in row 0; GridCellBounds, GridCellInjective and GridCellOrder pin the rest |
| Palette.GridCellBounds | palette.py:94-98 | with n ≥ 1 columns the column stays below n and row·n + col is the index |
| Palette.GridCellOfIndex | palette.py:94-98 | every cell with col < n is reached by its index |
| Palette.GridCellInjective | palette.py:94-98 | no two buttons share a cell, for any column count |
| Palette.GridCellOrder | palette.py:94-98 | placement is row-major: a later colour goes further down, or further right in the same row |
| Palette.GridCellNext | palette.py:94-98 | one step of the counters: the column moves on and wraps to the next row exactly at n |
| Palette.KevinbotFillsFiveRows | palette.py:78-98 | with the default 7 columns, the 35 kevinbot colours fill exactly the 5 × 7 grid |
| Palette.PlaceGrid | palette.py:86-98 | the loop places one button per colour, in order, in the cell its index gives |
| Palette.PlaceLine | palette.py:58-63 | the box loop places one button per colour, in order, along the box |
| Palette.LineCellInjective | palette.py:68-73 | a box layout never puts two buttons in one place |
| Palette.PaletteWidget.Grid | palette.py:78-100 | a resolved palette laid out by the grid loop; nothing selected yet |
| Palette.PaletteWidget.Linear | palette.py:49-73 | a resolved palette laid out in a row or a column |
| Palette.PaletteWidget.Press | palette.py:43-44 | pressing button i emits exactly the colour it was made for |
| Reducer.Clamp | main.py:312 | the slider keeps its value in 1..255 and leaves values in range unchanged |
| Reducer.Find | main.py:987-988 | on a dict, `in` and `[]` look the key up; only a dict can yield a value |
| Reducer.StateStep | main.py:987-993 | on a dict with "state": on iff the value is "ON", never unknown; only the power changes |
| Reducer.AnimationStep | main.py:995-1004 | a string value is applied as an animation report; another value shows "Unknown"; only the animation fields change |
| Reducer.BrightnessStep | main.py:1006-1011 | only the slider and the known flag change; at most one publish; an absent key changes nothing |
| Reducer.TailStep | main.py:1013-1042 | "args" always ends with an exception; "num_leds" is stored only when "args" is absent |
| Reducer.Receive | main.py:953-1042 | `on_client_message`: other topics change nothing; only the snapshot topic can publish, at most one brightness message; an unparsable snapshot changes nothing |
| Reducer.Snapshot | main.py:980-1042 | the snapshot branch publishes at most the brightness feedback, for the value the slider ends on, and never changes the brightness value that the brightness topic reports |
| Reducer.ShowAnimation | main.py:969-978 | the shown name is DisplayName of the report; only the name, the sidebar and the page change, and an unknown name leaves the sidebar and page alone |
| Reducer.MoveSlider | main.py:1006-1011 | the slider takes the value and the brightness is marked known; the feedback publish goes out exactly when the value moved |
| Reducer.SnapshotBrightness | main.py:1006-1011 | `setValue` completes exactly on a bool or an int in C int range, leaving the slider in 1..255; otherwise it raises and changes nothing |
| Reducer.SnapshotArgs | main.py:1013-1028 | args always raise; the args are stored, with AttributeError, exactly when the text parses and decodes, and otherwise nothing changes |
| Reducer.ReceivePower | main.py:954-960 | a power report is on iff "ON", never unknown, and touches nothing else |
| Reducer.ReceiveBrightness | main.py:962-967 | the brightness is marked known; the number is stored if `int` accepts the payload, otherwise ValueError |
| Reducer.ShowKnownAnimation | main.py:969-978 | a known device name shows its display name, enables the sidebar and opens page i + 1 |
| Reducer.ShowUnknownAnimation | main.py:976-978 | any other name shows "Unknown" and changes nothing else |
| Reducer.ReceiveMalformed | main.py:980-985 | unparsable snapshot JSON returns early with nothing changed |
| Reducer.ReceiveOtherTopic | main.py:953-980 | a message on any other topic is ignored |
| Reducer.SnapshotAbsentKeys | main.py:987-1042 | each part of the state whose key is absent stays as it was; the reported number is never touched; at most one publish |
| Reducer.SnapshotPowerAndAnimation | main.py:987-1004 | a snapshot's "state" and "animation" act as the separate reports do |
| Reducer.SnapshotBrightnessValue | main.py:1006-1011 | an int brightness puts the slider at its clamped value and marks it known; the value is published back exactly when the slider moved |
| Reducer.SnapshotArgsRaises | main.py:1013-1042 | with "args" the handler raises, and the LED count stays unchanged |
| Reducer.SnapshotArgsStored | main.py:1006-1017 | decodable args are stored before AttributeError, and encoded args come back unchanged, whenever any brightness present is one the slider takes |
| Reducer.SnapshotNumLeds | main.py:1006-1042 | without "args", "num_leds" is stored as it came, whenever any brightness present is one the slider takes |
| Reducer.SnapshotScalar | main.py:987 | a number, bool or null raises TypeError at the first `in` and changes nothing |
| Reducer.SnapshotPlainList | main.py:987-1042 | a list holding none of the key names is searched and ignored |
| Reducer.FirstSnapshot | main.py:980-1011 | a fresh window sent `{"state":"ON","brightness":200}` shows on at 200 and publishes "200" |
| Reducer.TogglePayload | main.py:1044-1056 | the toggle sends "ON" exactly when the strip is known to be off, otherwise "OFF" |
| Reducer.ToggleEcho | main.py:1044-1056 | when the strip echoes the toggle, on becomes off, off becomes on, and unknown becomes off |
| Window.PollPage | main.py:910-944 | a poll keeps the page or selects the control or the connection page, and shows neither the control nor the configuration page unless connected |
| Window.PollPageCases | main.py:910-944 | the pages a poll can select in each state, and exactly when the page stays |
| Window.PollPageIdempotent | main.py:910-944 | polling twice in one state moves the page no further than polling once |
| Window.PollIncrement | main.py:910-944 | an attempt is counted exactly when not connected |
| Window.PublishesGated | mqtt.py:157-159 | a run of publishes: nothing unless connected; when connected, every message, in order |
| Window.ConfiguredClient | main.py:181-184 | a fresh client with the host and port set and every other property initial, having signalled exactly the host and port changes |
| Window.MainWindow.constructor | main.py:180-242 | initial device state and counter 1; the first poll then counts a second attempt and, with a host, starts the connect and the loop (Connecting) |
| Window.MainWindow.Poll | main.py:910-944 | the counter, the page and the connect request, per client state |
| Window.MainWindow.OnClientConnect | main.py:946-951 | four subscriptions, then the full-state request, each gated on the state |
| Window.MainWindow.ClientConnected | main.py:186 | on a good CONNACK the client becomes Connected, signals the change and `connected`, and all four subscriptions and the request go out; on a refusal it records the code, signals the change and `connect_failed`, and nothing goes out |
| Window.MainWindow.ToggleLedPower | main.py:1044-1056 | the power becomes unknown, and the opposite of the known state is published |
| Window.MainWindow.UpdateBrightness | main.py:1058-1063 | the brightness becomes unknown, and the slider value is published |
| Window.MainWindow.SetAnimation | main.py:1065-1067 | the sidebar is disabled; a known name publishes its device name, an unknown one raises KeyError |
| Window.MainWindow.UpdateAnimationPage | main.py:1080-1084 | the configuration page is set from the table |
| Window.MainWindow.PublishAndUpdateArgs | main.py:1086-1088 | the change is published, then the args request |
| Window.MainWindow.ShowAbout | main.py:1069-1070 | the about page is shown |
| Window.MainWindow.ShowSettings | main.py:1072-1075 | the settings page is shown |
| Window.MainWindow.ShowAnimConf | main.py:1077-1078 | the animation-configuration page is shown |
| Window.MainWindow.OnClientMessage | main.py:953-1042 | the state becomes what Reducer.Receive gives; its publishes go out through the gated client |
| Window.MainWindow.Deliver | main.py:187 | a transport message is re-emitted by the client and then handled by the window; the client's state, the connection attempts and the page stay as they were |

## Left out

- The widgets, icons, theming, sound effects, the settings pages and settings.py are not part of
  this model. Only the widget state the core reads is modelled: the page index, the sidebar's
  enabled flag, the animation label, the brightness slider and the configuration page.
- The paho client, its network thread and the timer are left out. paho is a logged sink, and the
  timer's callback is the `Poll` method.
- `json.loads` and `int(text)` are parameters. The model does not restate their grammars.
- Hex.ParseHex: on a two-character slice Python's `int(t, 16)` also accepts a leading or trailing
  space, a sign before one digit, and non-ASCII Unicode digits. The model rejects them, so
  `HexToRgb` is `None` on a few inputs Python reads. None of the palettes contains them.
- Window.MainWindow.ClientConnected and Window.MainWindow.Deliver: paho calls `on_connect` and
  `on_message` on its network thread, and the `connected` and `messageSignal` signals reach the
  window's slots through Qt's queued connections. The model runs the client handler and the window
  slot as one step, so nothing can interleave between them, and the gated publishes of the reaction
  see the client state of the handler rather than of the later slot call.
- Window.MainWindow.OnClientMessage and Window.MainWindow.Deliver: a handler that ends with
  `Raised(...)` leaves the window valid, and the model lets it handle further messages. The model
  thus assumes the event loop survives a slot that raises. Nothing in main.py catches the
  exception or installs `sys.excepthook`; PyQt6 (which palette.py imports) aborts the process by
  default when an exception escapes a slot, while PySide prints it and carries on. Under PyQt6 the
  first full-state reply that carries "args" (Reducer.SnapshotArgsRaises) would end the process.
- Floating point is left out: `map_range`, the glitter ratio's `* 100` and `round`, and the sound
  volume. The glitter ratio is carried as an opaque JSON value.
- The glitter, flash-speed and colour widget updates after `set_rgb` (main.py:1017-1039) are left
  out. As written, the first `set_rgb` call raises AttributeError, because ColorBlock only defines
  `setRGB`, so none of them runs. The model stores the args and then ends with
  `Raised(AttributeError)`. It also never applies "num_leds" when "args" is present.
- The palette grids of main.py are built with the sound-effect object in the `n_columns`
  position. The grid loop then never wraps, which the model states as a column count ≤ 0: a
  single row.
- The `size` argument of PaletteGrid and the button sizes and style sheets are left out. They do
  not affect placement.
- A default colour is a Python tuple. The model writes it as a JSON array, and nothing in the
  core compares the two.
- Mqtt.MqttClient.OnMessage: the payload is taken as already decoded text. The ASCII decode, and
  the UnicodeDecodeError it can raise, are left out.
- Window.MainWindow.UpdateBrightness: Python publishes the slider value as an int, and paho
  writes it as its decimal text. The model publishes that text (`IntToString`).
- The wipe slider sends `leds_iter` while moving but `speed` on release. `speed` is not a field
  of WipeArgs, so an echo of it does not decode (Payloads.UndecodableEdits). The random colour is
  refused the same way, because AnimationArgs has no `random` record. These are stated as the
  code behaves. The intended behaviour is not evident enough to call them defects.
