/**
 * The animation option records of animation_data.py. Python does not check
 * the types of dataclass fields, so every leaf holds whatever JSON value it
 * was given; the defaults are the ones the dataclasses declare. A default
 * colour is a tuple in Python and a JSON array here; nothing in the client
 * compares the two.
 */
module AnimationData {
  import opened Json

  /** An (r, g, b) colour as a JSON array of three whole numbers. */
  function ColorValue(r: int, g: int, b: int): Json {
    JArr([JInt(r), JInt(g), JInt(b)])
  }

  datatype SingleColorArgs = SingleColorArgs(color: Json := ColorValue(255, 0, 0))

  /** The ratio is a Python float; only its default, 0.1, is taken from the source. */
  datatype GlitterRainbowArgs = GlitterRainbowArgs(glitterRatio: Json := JReal(0.1))

  datatype FadeArgs = FadeArgs(
    colorA: Json := ColorValue(255, 0, 0),
    colorB: Json := ColorValue(0, 0, 0))

  datatype FlashArgs = FlashArgs(
    colorA: Json := ColorValue(255, 0, 0),
    colorB: Json := ColorValue(0, 0, 0),
    speed: Json := JInt(25))

  datatype WipeArgs = WipeArgs(
    colorA: Json := ColorValue(255, 0, 0),
    colorB: Json := ColorValue(0, 0, 255),
    ledsIter: Json := JInt(1))

  /** Each field defaults to a fresh default instance of its record. */
  datatype AnimationArgs = AnimationArgs(
    singleColor: SingleColorArgs := SingleColorArgs(),
    glitterRainbow: GlitterRainbowArgs := GlitterRainbowArgs(),
    fade: FadeArgs := FadeArgs(),
    flash: FlashArgs := FlashArgs(),
    wipe: WipeArgs := WipeArgs())

  /** The defaults, field by field, as the dataclasses declare them. */
  lemma Defaults()
    ensures SingleColorArgs().color == JArr([JInt(255), JInt(0), JInt(0)])
    ensures FadeArgs() == FadeArgs(ColorValue(255, 0, 0), ColorValue(0, 0, 0))
    ensures FlashArgs() == FlashArgs(ColorValue(255, 0, 0), ColorValue(0, 0, 0), JInt(25))
    ensures WipeArgs() == WipeArgs(ColorValue(255, 0, 0), ColorValue(0, 0, 255), JInt(1))
    ensures AnimationArgs() == AnimationArgs(SingleColorArgs(), GlitterRainbowArgs(),
                                             FadeArgs(), FlashArgs(), WipeArgs())
  {
  }
}
