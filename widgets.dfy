/**
 * The colour helpers of widgets.py: `rgb_to_hex` and the style sheets a
 * `ColorBlock` sets for a named colour and for an (r, g, b) tuple.
 */
module Widgets {
  import opened Hex

  /** An (r, g, b) tuple; Python does not restrict its components. */
  datatype Rgb = Rgb(r: int, g: int, b: int)

  predicate IsByteTriple(c: Rgb) {
    0 <= c.r < 256 && 0 <= c.g < 256 && 0 <= c.b < 256
  }

  /** `'%02x%02x%02x' % tuple(rgb)`. */
  function RgbToHex(c: Rgb): (h: string)
    ensures |h| >= 6
    ensures c.r >= 0 && c.g >= 0 && c.b >= 0 ==> forall i :: 0 <= i < |h| ==> IsLowerHexDigit(h[i])
  {
    Format02(c.r) + Format02(c.g) + Format02(c.b)
  }

  /**
   * For components in 0..255 the text is six lowercase hexadecimal digits:
   * two per component, high digit first, in r, g, b order.
   */
  lemma RgbToHexOfBytes(c: Rgb)
    requires IsByteTriple(c)
    ensures RgbToHex(c) == [Digit(c.r / 16), Digit(c.r % 16), Digit(c.g / 16),
                            Digit(c.g % 16), Digit(c.b / 16), Digit(c.b % 16)]
    ensures |RgbToHex(c)| == 6
    ensures forall i :: 0 <= i < 6 ==> IsLowerHexDigit(RgbToHex(c)[i])
  {
    Format02Byte(c.r);
    Format02Byte(c.g);
    Format02Byte(c.b);
  }

  /** A component above 255 needs a third digit, so the text grows past six characters. */
  lemma RgbToHexWide(c: Rgb)
    requires c.r > 255 || c.g > 255 || c.b > 255
    ensures |RgbToHex(c)| > 6
  {
  }

  /** `ColorBlock.setColor(color)`: the style sheet for a colour name. */
  function ColorStyle(color: string): (style: string)
    ensures |style| == |color| + 19
    ensures style[..18] == "background-color: " && style[18..|style| - 1] == color
    ensures style[|style| - 1] == ';'
  {
    "background-color: " + color + ";"
  }

  /** `ColorBlock.setRGB(rgb)`: the same style as `setColor` of `#` and the hex text. */
  function RgbStyle(c: Rgb): (style: string)
    ensures style == ColorStyle("#" + RgbToHex(c))
  {
    "background-color: #" + RgbToHex(c) + ";"
  }
}
