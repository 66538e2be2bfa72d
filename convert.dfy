/**
 * `hex_to_rgb` of main.py and its round trips with `rgb_to_hex` of
 * widgets.py.
 */
module Convert {
  import opened Wrappers
  import opened Hex
  import opened Widgets

  /** Python's `s[i:j]` for 0 <= i <= j: both bounds are cut at the end of s. */
  function Slice(s: string, i: nat, j: nat): (t: string)
    requires i <= j
    ensures |t| == (if j <= |s| then j - i else if i <= |s| then |s| - i else 0)
    ensures forall k :: 0 <= k < |t| ==> t[k] == s[i + k]
  {
    var lo := if i <= |s| then i else |s|;
    var hi := if j <= |s| then j else |s|;
    s[lo..hi]
  }

  /**
   * `tuple(int(hexa[i: i + 2], 16) for i in (0, 2, 4))`; None where one of
   * the three conversions raises ValueError.
   */
  function HexToRgb(hexa: string): (r: Option<Rgb>)
    ensures r.Some? <==> ParseHex(Slice(hexa, 0, 2)).Some? && ParseHex(Slice(hexa, 2, 4)).Some?
                         && ParseHex(Slice(hexa, 4, 6)).Some?
  {
    var r := ParseHex(Slice(hexa, 0, 2));
    var g := ParseHex(Slice(hexa, 2, 4));
    var b := ParseHex(Slice(hexa, 4, 6));
    if r.Some? && g.Some? && b.Some? then Some(Rgb(r.value, g.value, b.value)) else None
  }

  /** Fewer than five characters leave the blue slice empty, which `int` rejects. */
  lemma HexToRgbShort(hexa: string)
    requires |hexa| <= 4
    ensures HexToRgb(hexa) == None
  {
    assert Slice(hexa, 4, 6) == [];
  }

  /** Six hexadecimal digits, in either case, give a triple of bytes. */
  lemma HexToRgbOfSixDigits(hexa: string)
    requires |hexa| == 6 && AllHexDigits(hexa)
    ensures HexToRgb(hexa) == Some(Rgb(16 * DigitValue(hexa[0]) + DigitValue(hexa[1]),
                                       16 * DigitValue(hexa[2]) + DigitValue(hexa[3]),
                                       16 * DigitValue(hexa[4]) + DigitValue(hexa[5])))
    ensures IsByteTriple(HexToRgb(hexa).value)
  {
    assert Slice(hexa, 0, 2) == [hexa[0], hexa[1]];
    assert Slice(hexa, 2, 4) == [hexa[2], hexa[3]];
    assert Slice(hexa, 4, 6) == [hexa[4], hexa[5]];
    ParseHexPair(hexa[0], hexa[1]);
    ParseHexPair(hexa[2], hexa[3]);
    ParseHexPair(hexa[4], hexa[5]);
  }

  /** Round trip: reading back the hex text of a byte triple gives the triple. */
  lemma HexToRgbOfRgbToHex(c: Rgb)
    requires IsByteTriple(c)
    ensures HexToRgb(RgbToHex(c)) == Some(c)
  {
    RgbToHexOfBytes(c);
    var s := RgbToHex(c);
    assert AllHexDigits(s) by {
      forall i | 0 <= i < 6 ensures IsHexDigit(s[i]) {
        assert IsLowerHexDigit(s[i]);
      }
    }
    HexToRgbOfSixDigits(s);
  }

  /** `%02x` of a byte read from two digits gives back those digits, lowercased. */
  lemma PairDigits(a: char, b: char)
    requires IsHexDigit(a) && IsHexDigit(b)
    ensures Format02(16 * DigitValue(a) + DigitValue(b)) == [ToLower(a), ToLower(b)]
  {
    var n := 16 * DigitValue(a) + DigitValue(b);
    assert n / 16 == DigitValue(a) && n % 16 == DigitValue(b);
    Format02Byte(n);
    DigitOfDigitValue(a);
    DigitOfDigitValue(b);
  }

  /** Reverse round trip: six hex digits come back as their lowercase form. */
  lemma RgbToHexOfHexToRgb(hexa: string)
    requires |hexa| == 6 && AllHexDigits(hexa)
    ensures HexToRgb(hexa).Some?
    ensures RgbToHex(HexToRgb(hexa).value) == Lower(hexa)
  {
    HexToRgbOfSixDigits(hexa);
    PairDigits(hexa[0], hexa[1]);
    PairDigits(hexa[2], hexa[3]);
    PairDigits(hexa[4], hexa[5]);
    var l := Lower(hexa);
    assert l == [ToLower(hexa[0]), ToLower(hexa[1]), ToLower(hexa[2]),
                 ToLower(hexa[3]), ToLower(hexa[4]), ToLower(hexa[5])];
  }

  /** The colour in a `setRGB` style sheet reads back as the triple it was set from. */
  lemma RgbStyleRoundTrip(c: Rgb)
    requires IsByteTriple(c)
    ensures |RgbStyle(c)| == 26
    ensures HexToRgb(RgbStyle(c)[19..25]) == Some(c)
  {
    var prefix := "background-color: #";
    var h := RgbToHex(c);
    RgbToHexOfBytes(c);
    assert RgbStyle(c) == prefix + h + ";";
    assert |prefix| == 19;
    assert (prefix + h + ";")[19..25] == h;
    HexToRgbOfRgbToHex(c);
  }

  /** `s.lstrip('#')`: every leading `#` removed. */
  function StripHashes(s: string): (t: string)
    ensures |t| <= |s| && t == s[|s| - |t|..]
    ensures t == [] || t[0] != '#'
    ensures forall i :: 0 <= i < |s| - |t| ==> s[i] == '#'
  {
    if s != [] && s[0] == '#' then StripHashes(s[1..]) else s
  }
}
