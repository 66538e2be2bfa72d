/**
 * `dict_to_dataclass(json.loads(args), AnimationArgs)` of main.py: the
 * snapshot's `args` object turned into an `AnimationArgs`. A field whose
 * declared type is a dataclass is converted first when its key is present;
 * then the record is built from the keys present, every other field taking
 * its default. Python raises TypeError when a value is not a mapping or
 * holds a key the record has no field for; that is None here. The source
 * converts in place in the freshly decoded dictionary, which nothing else
 * sees, so the model builds the record from the value.
 */
module ArgsDecode {
  import opened Wrappers
  import opened Json
  import opened AnimationData

  const SingleColorFields: set<string> := {"color"}
  const GlitterRainbowFields: set<string> := {"glitter_ratio"}
  const FadeFields: set<string> := {"colora", "colorb"}
  const FlashFields: set<string> := {"colora", "colorb", "speed"}
  const WipeFields: set<string> := {"colora", "colorb", "leds_iter"}
  const AnimationFields: set<string> := {"single_color", "glitter_rainbow", "fade", "flash", "wipe"}

  /** The field names of the record stored under a top-level key. */
  function FieldsOf(key: string): set<string> {
    match key
    case "single_color" => SingleColorFields
    case "glitter_rainbow" => GlitterRainbowFields
    case "fade" => FadeFields
    case "flash" => FlashFields
    case "wipe" => WipeFields
    case _ => {}
  }

  /** `T(**d)` accepts d: a mapping whose every key names a field of T. */
  predicate Accepts(fields: set<string>, j: Json) {
    j.JObj? && j.fields.Keys <= fields
  }

  function DecodeSingleColor(j: Json): Option<SingleColorArgs> {
    if Accepts(SingleColorFields, j) then
      Some(SingleColorArgs(FieldOr(j.fields, "color", SingleColorArgs().color)))
    else None
  }

  function DecodeGlitterRainbow(j: Json): Option<GlitterRainbowArgs> {
    if Accepts(GlitterRainbowFields, j) then
      Some(GlitterRainbowArgs(FieldOr(j.fields, "glitter_ratio", GlitterRainbowArgs().glitterRatio)))
    else None
  }

  function DecodeFade(j: Json): Option<FadeArgs> {
    if Accepts(FadeFields, j) then
      Some(FadeArgs(FieldOr(j.fields, "colora", FadeArgs().colorA),
                    FieldOr(j.fields, "colorb", FadeArgs().colorB)))
    else None
  }

  function DecodeFlash(j: Json): Option<FlashArgs> {
    if Accepts(FlashFields, j) then
      Some(FlashArgs(FieldOr(j.fields, "colora", FlashArgs().colorA),
                     FieldOr(j.fields, "colorb", FlashArgs().colorB),
                     FieldOr(j.fields, "speed", FlashArgs().speed)))
    else None
  }

  function DecodeWipe(j: Json): Option<WipeArgs> {
    if Accepts(WipeFields, j) then
      Some(WipeArgs(FieldOr(j.fields, "colora", WipeArgs().colorA),
                    FieldOr(j.fields, "colorb", WipeArgs().colorB),
                    FieldOr(j.fields, "leds_iter", WipeArgs().ledsIter)))
    else None
  }

  /** A nested record: converted when its key is present, the default otherwise. */
  function Nested<T>(m: map<string, Json>, key: string, decode: Json -> Option<T>, default: T): Option<T> {
    if key in m then decode(m[key]) else Some(default)
  }

  /**
   * The whole conversion. It succeeds exactly when the value is an object
   * whose keys are AnimationArgs fields and each nested value is an object
   * whose keys are fields of its record.
   */
  function DecodeArgs(j: Json): (r: Option<AnimationArgs>)
    ensures r.Some? <==> Accepts(AnimationFields, j)
                         && forall k :: k in j.fields ==> Accepts(FieldsOf(k), j.fields[k])
  {
    if !Accepts(AnimationFields, j) then None
    else
      var m := j.fields;
      var sc := Nested(m, "single_color", DecodeSingleColor, SingleColorArgs());
      var gr := Nested(m, "glitter_rainbow", DecodeGlitterRainbow, GlitterRainbowArgs());
      var fa := Nested(m, "fade", DecodeFade, FadeArgs());
      var fl := Nested(m, "flash", DecodeFlash, FlashArgs());
      var wi := Nested(m, "wipe", DecodeWipe, WipeArgs());
      if sc.Some? && gr.Some? && fa.Some? && fl.Some? && wi.Some? then
        Some(AnimationArgs(sc.value, gr.value, fa.value, fl.value, wi.value))
      else None
  }

  /** The JSON form of each record, with every field spelled out. */
  function EncodeArgs(a: AnimationArgs): Json {
    JObj(map[
      "single_color" := JObj(map["color" := a.singleColor.color]),
      "glitter_rainbow" := JObj(map["glitter_ratio" := a.glitterRainbow.glitterRatio]),
      "fade" := JObj(map["colora" := a.fade.colorA, "colorb" := a.fade.colorB]),
      "flash" := JObj(map["colora" := a.flash.colorA, "colorb" := a.flash.colorB,
                          "speed" := a.flash.speed]),
      "wipe" := JObj(map["colora" := a.wipe.colorA, "colorb" := a.wipe.colorB,
                         "leds_iter" := a.wipe.ledsIter])])
  }

  /** Decoding the fully spelled-out form of any record gives that record back. */
  lemma DecodeEncode(a: AnimationArgs)
    ensures DecodeArgs(EncodeArgs(a)) == Some(a)
  {
    var m := EncodeArgs(a).fields;
    assert m.Keys == AnimationFields;
    assert Accepts(FlashFields, m["flash"]) by { assert m["flash"].fields.Keys == FlashFields; }
    assert Accepts(WipeFields, m["wipe"]) by { assert m["wipe"].fields.Keys == WipeFields; }
    assert Accepts(FadeFields, m["fade"]) by { assert m["fade"].fields.Keys == FadeFields; }
  }

  /** The empty object decodes to the all-defaults record. */
  lemma DecodeEmpty()
    ensures DecodeArgs(JObj(map[])) == Some(AnimationArgs())
  {
  }

  /**
   * Absent top-level keys keep their default record; a present key's record
   * takes each field the nested object has and the default for the rest.
   */
  lemma DecodeArgsFields(m: map<string, Json>)
    requires DecodeArgs(JObj(m)).Some?
    ensures var a := DecodeArgs(JObj(m)).value;
      && ("single_color" !in m ==> a.singleColor == SingleColorArgs())
      && ("glitter_rainbow" !in m ==> a.glitterRainbow == GlitterRainbowArgs())
      && ("fade" !in m ==> a.fade == FadeArgs())
      && ("flash" !in m ==> a.flash == FlashArgs())
      && ("wipe" !in m ==> a.wipe == WipeArgs())
      && ("single_color" in m ==>
            a.singleColor.color == FieldOr(m["single_color"].fields, "color", SingleColorArgs().color))
      && ("glitter_rainbow" in m ==>
            a.glitterRainbow.glitterRatio
              == FieldOr(m["glitter_rainbow"].fields, "glitter_ratio", GlitterRainbowArgs().glitterRatio))
      && ("fade" in m ==>
            && a.fade.colorA == FieldOr(m["fade"].fields, "colora", FadeArgs().colorA)
            && a.fade.colorB == FieldOr(m["fade"].fields, "colorb", FadeArgs().colorB))
      && ("flash" in m ==>
            && a.flash.colorA == FieldOr(m["flash"].fields, "colora", FlashArgs().colorA)
            && a.flash.colorB == FieldOr(m["flash"].fields, "colorb", FlashArgs().colorB)
            && a.flash.speed == FieldOr(m["flash"].fields, "speed", FlashArgs().speed))
      && ("wipe" in m ==>
            && a.wipe.colorA == FieldOr(m["wipe"].fields, "colora", WipeArgs().colorA)
            && a.wipe.colorB == FieldOr(m["wipe"].fields, "colorb", WipeArgs().colorB)
            && a.wipe.ledsIter == FieldOr(m["wipe"].fields, "leds_iter", WipeArgs().ledsIter))
  {
    assert forall k :: k in m ==> Accepts(FieldsOf(k), m[k]);
  }

  /** An args object naming only the flash speed changes that field and nothing else. */
  lemma DecodeFlashSpeed(speed: int)
    ensures DecodeArgs(JObj(map["flash" := JObj(map["speed" := JInt(speed)])]))
            == Some(AnimationArgs(flash := FlashArgs(speed := JInt(speed))))
  {
    var inner := map["speed" := JInt(speed)];
    var m := map["flash" := JObj(inner)];
    assert m.Keys == {"flash"};
    assert inner.Keys == {"speed"};
  }
}
