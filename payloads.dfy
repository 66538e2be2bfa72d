/**
 * The payloads the animation pages of main.py send on the args topic: the
 * animation key, a comma, and a one-field JSON object, as in
 * `flash,{"speed": 12}`. Colours are sent as Python writes a list of three
 * ints, `[255, 0, 0]`.
 */
module Payloads {
  import opened Wrappers
  import opened Json
  import opened Hex
  import opened Decimal
  import opened Widgets
  import opened Convert
  import opened ArgsDecode
  import Palette

  /** The f-string `f'{key},{{"{field}": {value}}}'`. */
  function ArgsPayload(key: string, field: string, value: string): (p: string)
    ensures |p| == |key| + |field| + |value| + 7
    ensures p[..|key|] == key && p[|key|] == ',' && p[|p| - 1] == '}'
  {
    key + ",{\"" + field + "\": " + value + "}"
  }

  /** `str(list(rgb))` for a tuple of ints. */
  function ListText(c: Rgb): (t: string)
    ensures |t| >= 2 && t[0] == '[' && t[|t| - 1] == ']'
  {
    "[" + IntToString(c.r) + ", " + IntToString(c.g) + ", " + IntToString(c.b) + "]"
  }

  /** A palette choice: the colour name with its `#` stripped, read as (r, g, b). */
  function ColorArgsPayload(key: string, field: string, color: string): Option<string> {
    match HexToRgb(StripHashes(color))
    case Some(c) => Some(ArgsPayload(key, field, ListText(c)))
    case None => None
  }

  /**
   * Pressing a palette button whose colour is `#` and six hex digits sends
   * the list text of the triple those digits spell, pair by pair; that
   * triple is a byte triple whose `rgb_to_hex` gives the digits back in
   * lowercase.
   */
  lemma ColorNamePayload(key: string, field: string, c: string)
    requires Palette.IsColorName(c)
    ensures var rgb := Rgb(16 * DigitValue(c[1]) + DigitValue(c[2]),
                           16 * DigitValue(c[3]) + DigitValue(c[4]),
                           16 * DigitValue(c[5]) + DigitValue(c[6]));
      && ColorArgsPayload(key, field, c) == Some(ArgsPayload(key, field, ListText(rgb)))
      && IsByteTriple(rgb)
      && RgbToHex(rgb) == Lower(c[1..])
  {
    Palette.ColorNameConverts(c);
    var h := c[1..];
    assert h[0] == c[1] && h[1] == c[2] && h[2] == c[3] && h[3] == c[4] && h[4] == c[5] && h[5] == c[6];
    assert AllHexDigits(h);
    HexToRgbOfSixDigits(h);
    RgbToHexOfHexToRgb(h);
  }

  /** Every button of every named palette sends a payload when pressed. */
  lemma PalettePressPayload(key: string, field: string, name: string, i: nat)
    requires name in Palette.Palettes && i < |Palette.Palettes[name]|
    ensures ColorArgsPayload(key, field, Palette.Palettes[name][i]).Some?
  {
    Palette.PaletteColorsConvert(name, i);
  }

  /** A slider position sent as a whole number. */
  function NumberArgsPayload(key: string, field: string, value: int): (p: string)
    ensures |p| > |key| + |field| + 7
    ensures p[..|key|] == key && p[|key|] == ','
  {
    NatToStringDigits(if value < 0 then -value else value);
    ArgsPayload(key, field, IntToString(value))
  }

  /** The (key, field) each colour palette of the animation pages edits. */
  const ColorTargets: seq<(string, string)> := [
    ("single_color", "color"),
    ("fade", "colora"), ("fade", "colorb"),
    ("flash", "colora"), ("flash", "colorb"),
    ("wipe", "colora"), ("wipe", "colorb"),
    ("random", "color")
  ]

  /** The flash speed slider sends `speed` both while moving and on release. */
  function FlashSpeedPayload(value: int): string { NumberArgsPayload("flash", "speed", value) }

  /** The wipe slider sends `leds_iter` while it moves ... */
  function WipeChangedPayload(value: int): string { NumberArgsPayload("wipe", "leds_iter", value) }

  /** ... and `speed` when it is released. */
  function WipeReleasedPayload(value: int): string { NumberArgsPayload("wipe", "speed", value) }

  /** The literal wire form of a flash speed of twelve. */
  lemma FlashSpeedTwelve()
    ensures FlashSpeedPayload(12) == "flash,{\"speed\": 12}"
  {
    assert NatToString(12) == "12" by {
      assert NatToString(1) == "1";
    }
  }

  /** The key before the first comma, and the rest after it. */
  function SplitAtComma(p: string): (r: Option<(string, string)>)
    ensures r.Some? ==> ',' !in r.value.0 && p == r.value.0 + "," + r.value.1
    ensures r.None? <==> ',' !in p
  {
    if p == [] then None
    else if p[0] == ',' then Some(([], p[1..]))
    else match SplitAtComma(p[1..])
      case Some((k, rest)) => Some(([p[0]] + k, rest))
      case None => None
  }

  /** A key without a comma is split off exactly. */
  lemma {:induction false} SplitKeyed(key: string, rest: string)
    requires ',' !in key
    ensures SplitAtComma(key + "," + rest) == Some((key, rest))
    decreases |key|
  {
    var p := key + "," + rest;
    if key == [] {
      assert p == [','] + rest;
    } else {
      assert p[0] == key[0] && key[0] != ',';
      assert p[1..] == key[1..] + "," + rest;
      SplitKeyed(key[1..], rest);
      assert [key[0]] + key[1..] == key;
    }
  }

  /**
   * The wire form is not ambiguous: for a key without a comma, splitting at
   * the first comma gives the key and the one-field JSON object.
   */
  lemma SplitArgsPayload(key: string, field: string, value: string)
    requires ',' !in key
    ensures SplitAtComma(ArgsPayload(key, field, value))
            == Some((key, "{\"" + field + "\": " + value + "}"))
  {
    var obj := "{\"" + field + "\": " + value + "}";
    assert ArgsPayload(key, field, value) == key + "," + obj;
    SplitKeyed(key, obj);
  }

  /** What a device reporting back just the edited field sends as its args. */
  function EchoOf(key: string, field: string, value: Json): Json {
    JObj(map[key := JObj(map[field := value])])
  }

  /** A one-field echo decodes when the key is an AnimationArgs field and the field is one of its record. */
  lemma EchoDecodes(key: string, field: string, value: Json)
    requires key in AnimationFields && field in FieldsOf(key)
    ensures DecodeArgs(EchoOf(key, field, value)).Some?
  {
    var m := EchoOf(key, field, value).fields;
    assert m.Keys == {key};
    assert m[key].fields.Keys == {field};
  }

  /** A (key, field) the snapshot decoder knows: a record of AnimationArgs and one of its fields. */
  predicate KnownField(t: (string, string)) {
    t.0 in AnimationFields && t.1 in FieldsOf(t.0)
  }

  lemma KnownColorTargets()
    ensures forall i :: 0 <= i < |ColorTargets| - 1 ==> KnownField(ColorTargets[i])
    ensures ColorTargets[|ColorTargets| - 1] == ("random", "color")
  {
  }

  /** The colours every palette edits, except the random one, come back through the decoder. */
  lemma ColorTargetsDecode(value: Json)
    ensures forall i :: 0 <= i < |ColorTargets| - 1 ==>
              DecodeArgs(EchoOf(ColorTargets[i].0, ColorTargets[i].1, value)).Some?
  {
    KnownColorTargets();
    forall i | 0 <= i < |ColorTargets| - 1
      ensures DecodeArgs(EchoOf(ColorTargets[i].0, ColorTargets[i].1, value)).Some?
    {
      EchoDecodes(ColorTargets[i].0, ColorTargets[i].1, value);
    }
  }

  /**
   * The wipe slider's two payloads: both name the record `wipe`, the one sent
   * while moving edits `leds_iter` and the one sent on release edits `speed`.
   */
  lemma WipeSliderPayloads(v: int)
    ensures SplitAtComma(WipeChangedPayload(v)) == Some(("wipe", "{\"" + "leds_iter" + "\": " + IntToString(v) + "}"))
    ensures SplitAtComma(WipeReleasedPayload(v)) == Some(("wipe", "{\"" + "speed" + "\": " + IntToString(v) + "}"))
  {
    assert ',' !in "wipe";
    SplitArgsPayload("wipe", "leds_iter", IntToString(v));
    SplitArgsPayload("wipe", "speed", IntToString(v));
  }

  /**
   * The two fields the client edits that the decoder refuses: the random
   * colour, which AnimationArgs has no record for, and the wipe slider's
   * release field `speed` (WipeSliderPayloads), which WipeArgs does not have.
   */
  lemma UndecodableEdits(value: Json)
    ensures DecodeArgs(EchoOf("random", "color", value)) == None
    ensures DecodeArgs(EchoOf("wipe", "speed", value)) == None
  {
    assert "random" in EchoOf("random", "color", value).fields;
    var w := EchoOf("wipe", "speed", value).fields["wipe"];
    assert "speed" in w.fields;
  }
}
