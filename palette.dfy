/**
 * palette.py: the named colour palettes, how a palette argument is resolved
 * to a list of colours, where the grid and linear palettes place one button
 * per colour, and the colour a button emits when it is pressed.
 */
module Palette {
  import opened Hex
  import opened Convert

  /** bokeh's "paired 12", framed by black and white. */
  const Paired12: seq<string> := [
    "#000000", "#a6cee3", "#1f78b4", "#b2df8a", "#33a02c", "#fb9a99", "#e31a1c", "#fdbf6f", "#ff7f00",
    "#cab2d6", "#6a3d9a", "#ffff99", "#b15928", "#ffffff"
  ]

  /** d3's "category 10", framed by black and white. */
  const Category10: seq<string> := [
    "#000000", "#1f77b4", "#ff7f0e", "#2ca02c", "#d62728", "#9467bd", "#8c564b", "#e377c2", "#7f7f7f",
    "#bcbd22", "#17becf", "#ffffff"
  ]

  /** The "17 undertones" palette. */
  const Undertones17: seq<string> := [
    "#000000", "#141923", "#414168", "#3a7fa7", "#35e3e3", "#8fd970", "#5ebb49", "#458352", "#dcd37b",
    "#fffee5", "#ffd035", "#cc9245", "#a15c3e", "#a42f3b", "#f45b7a", "#c24998", "#81588d", "#bcb0c2",
    "#ffffff"
  ]

  /** The palette every animation page of the main window uses. */
  const Kevinbot: seq<string> := [
    "#FF0000", "#00FF00", "#0000FF", "#FFFF00", "#FF00FF", "#00FFFF",
    "#FF9900", "#9900FF", "#00FF99", "#990000", "#009900", "#000099",
    "#FFCC00", "#CC00FF", "#00FFCC", "#CC0000", "#00CC00", "#0000CC",
    "#FF6600", "#6600FF", "#00FF66", "#660000", "#006600", "#000066",
    "#FF3300", "#3300FF", "#00FF33", "#330000", "#003300", "#000033",
    "#FF6666", "#6666FF", "#66FF66", "#666666", "#FFCC99"
  ]

  /** `PALETTES`. */
  const Palettes: map<string, seq<string>> := map[
    "paired12" := Paired12,
    "category10" := Category10,
    "17undertones" := Undertones17,
    "kevinbot" := Kevinbot
  ]

  /** The `n_columns` a PaletteGrid gets when the caller passes none. */
  const DefaultColumns: int := 7

  /** The `colors` argument of a palette: a string (perhaps a palette name) or a list. */
  datatype Colors = Named(name: string) | Listed(items: seq<string>)

  /** Iterating a string: its characters, each a string of length one. */
  function Chars(s: string): seq<string> {
    seq(|s|, i requires 0 <= i < |s| => [s[i]])
  }

  /** A palette name is replaced by its list; any other argument is iterated as it is. */
  function Resolve(colors: Colors): (r: seq<string>)
    ensures colors.Listed? ==> r == colors.items
    ensures colors.Named? && colors.name in Palettes ==> r == Palettes[colors.name]
    ensures colors.Named? && colors.name !in Palettes ==> |r| == |colors.name|
  {
    match colors
    case Named(name) => if name in Palettes then Palettes[name] else Chars(name)
    case Listed(items) => items
  }

  /** A string that names no palette is taken one character at a time. */
  lemma ResolveUnnamed(s: string)
    requires s !in Palettes
    ensures |Resolve(Named(s))| == |s|
    ensures forall i :: 0 <= i < |s| ==> Resolve(Named(s))[i] == [s[i]]
  {
  }

  /** `#` and six hexadecimal digits. */
  predicate IsColorName(c: string) {
    |c| == 7 && c[0] == '#'
    && IsHexDigit(c[1]) && IsHexDigit(c[2]) && IsHexDigit(c[3])
    && IsHexDigit(c[4]) && IsHexDigit(c[5]) && IsHexDigit(c[6])
  }

  /** A colour name survives the `lstrip('#')` and `hex_to_rgb` the palettes' users apply. */
  lemma ColorNameConverts(c: string)
    requires IsColorName(c)
    ensures StripHashes(c) == c[1..]
    ensures HexToRgb(StripHashes(c)).Some?
  {
    assert StripHashes(c[1..]) == c[1..];
    assert AllHexDigits(c[1..]) by {
      forall i | 0 <= i < 6 ensures IsHexDigit(c[1..][i]) {
        assert c[1..][i] == c[i + 1];
      }
    }
    HexToRgbOfSixDigits(c[1..]);
  }

  predicate AllColorNames(cs: seq<string>) {
    forall i :: 0 <= i < |cs| ==> IsColorName(cs[i])
  }

  lemma KevinbotRow0()
    ensures |Kevinbot| == 35
    ensures forall i :: 0 <= i < 7 ==> IsColorName(Kevinbot[i])
  {
  }

  lemma KevinbotRow1()
    ensures forall i :: 7 <= i < 14 ==> IsColorName(Kevinbot[i])
  {
  }

  lemma KevinbotRow2()
    ensures forall i :: 14 <= i < 21 ==> IsColorName(Kevinbot[i])
  {
  }

  lemma KevinbotRow3()
    ensures forall i :: 21 <= i < 28 ==> IsColorName(Kevinbot[i])
  {
  }

  lemma KevinbotRow4()
    ensures forall i :: 28 <= i < 35 ==> IsColorName(Kevinbot[i])
  {
  }

  lemma KevinbotColorNames()
    ensures |Kevinbot| == 35 && AllColorNames(Kevinbot)
  {
    KevinbotRow0();
    KevinbotRow1();
    KevinbotRow2();
    KevinbotRow3();
    KevinbotRow4();
  }

  lemma Paired12Head()
    ensures |Paired12| == 14
    ensures forall i :: 0 <= i < 7 ==> IsColorName(Paired12[i])
  {
  }

  lemma Paired12Tail()
    ensures forall i :: 7 <= i < |Paired12| ==> IsColorName(Paired12[i])
  {
  }

  lemma Paired12ColorNames()
    ensures AllColorNames(Paired12)
  {
    Paired12Head();
    Paired12Tail();
  }

  lemma Category10ColorNames()
    ensures AllColorNames(Category10)
  {
  }

  lemma Undertones17Head()
    ensures |Undertones17| == 19
    ensures forall i :: 0 <= i < 9 ==> IsColorName(Undertones17[i])
  {
  }

  lemma Undertones17Tail()
    ensures forall i :: 9 <= i < |Undertones17| ==> IsColorName(Undertones17[i])
  {
  }

  lemma Undertones17ColorNames()
    ensures AllColorNames(Undertones17)
  {
    Undertones17Head();
    Undertones17Tail();
  }

  /** Every entry of every named palette is a colour that `hex_to_rgb` reads after `lstrip('#')`. */
  lemma PaletteColorsConvert(name: string, i: nat)
    requires name in Palettes && i < |Palettes[name]|
    ensures IsColorName(Palettes[name][i])
    ensures HexToRgb(StripHashes(Palettes[name][i])).Some?
  {
    KevinbotColorNames();
    Paired12ColorNames();
    Category10ColorNames();
    Undertones17ColorNames();
    ColorNameConverts(Palettes[name][i]);
  }

  /**
   * The cell of the i-th button of a grid with `nColumns` columns: row
   * `i div nColumns`, column `i mod nColumns`. The loop compares the column
   * counter with nColumns only after incrementing it, so a count below one
   * never wraps and everything lands in row 0.
   */
  function GridCell(i: nat, nColumns: int): (c: (nat, nat))
    ensures c.0 <= i && c.1 <= i
    ensures nColumns < 1 ==> c.0 == 0
  {
    if nColumns >= 1 then (i / nColumns, i % nColumns) else (0, i)
  }

  /** A cell back to its index, for a grid with at least one column. */
  function Index(row: nat, col: nat, nColumns: nat): nat {
    row * nColumns + col
  }

  lemma {:induction false} MulGap(a: nat, b: nat, n: nat)
    requires a < b
    ensures a * n + n <= b * n
    decreases b - a
  {
    if b == a + 1 {
      assert (a + 1) * n == a * n + n;
    } else {
      MulGap(a, b - 1, n);
      assert (b - 1) * n + n == b * n;
    }
  }

  /** Euclidean division has one quotient and remainder pair. */
  lemma DivModUnique(i: nat, n: nat, row: nat, col: nat)
    requires 1 <= n && col < n && i == row * n + col
    ensures i / n == row && i % n == col
  {
    var q, r := i / n, i % n;
    assert i == q * n + r;
    if q < row {
      MulGap(q, row, n);
    } else if q > row {
      MulGap(row, q, n);
    }
  }

  /** Each cell of the grid holds column numbers below nColumns and gives back its index. */
  lemma GridCellBounds(i: nat, nColumns: int)
    requires nColumns >= 1
    ensures GridCell(i, nColumns).1 < nColumns
    ensures Index(GridCell(i, nColumns).0, GridCell(i, nColumns).1, nColumns) == i
  {
  }

  /** Every cell of the grid is the cell of some index. */
  lemma GridCellOfIndex(row: nat, col: nat, nColumns: int)
    requires nColumns >= 1 && col < nColumns
    ensures GridCell(Index(row, col, nColumns), nColumns) == (row, col)
  {
    DivModUnique(Index(row, col, nColumns), nColumns, row, col);
  }

  /** No two buttons share a cell. */
  lemma GridCellInjective(i: nat, j: nat, nColumns: int)
    requires GridCell(i, nColumns) == GridCell(j, nColumns)
    ensures i == j
  {
    if nColumns >= 1 {
      GridCellBounds(i, nColumns);
      GridCellBounds(j, nColumns);
    }
  }

  /** Buttons are placed in row-major order: a later colour goes further right or further down. */
  lemma GridCellOrder(i: nat, j: nat, nColumns: int)
    requires i < j
    ensures GridCell(i, nColumns).0 < GridCell(j, nColumns).0
            || (GridCell(i, nColumns).0 == GridCell(j, nColumns).0
                && GridCell(i, nColumns).1 < GridCell(j, nColumns).1)
  {
    if nColumns >= 1 {
      var n: nat := nColumns;
      var (ri, ci) := GridCell(i, n);
      var (rj, cj) := GridCell(j, n);
      GridCellBounds(i, n);
      GridCellBounds(j, n);
      if rj < ri {
        MulGap(rj, ri, n);
      }
    }
  }

  /** The counters after one more button: the column moves on and wraps at nColumns. */
  lemma GridCellNext(i: nat, nColumns: int)
    ensures GridCell(i + 1, nColumns)
            == if GridCell(i, nColumns).1 + 1 == nColumns then (GridCell(i, nColumns).0 + 1, 0)
               else (GridCell(i, nColumns).0, GridCell(i, nColumns).1 + 1)
  {
    if nColumns >= 1 {
      var n: nat := nColumns;
      var (row, col) := GridCell(i, n);
      GridCellBounds(i, n);
      if col + 1 == n {
        DivModUnique(i + 1, n, row + 1, 0);
      } else {
        DivModUnique(i + 1, n, row, col + 1);
      }
    }
  }

  /** With the default seven columns the 35 kevinbot colours fill exactly five full rows. */
  lemma KevinbotFillsFiveRows()
    ensures |Kevinbot| == 35
    ensures forall i :: 0 <= i < |Kevinbot| ==> GridCell(i, DefaultColumns).0 < 5
    ensures forall row: nat, col: nat :: row < 5 && col < 7 ==>
              Index(row, col, 7) < |Kevinbot| && GridCell(Index(row, col, 7), DefaultColumns) == (row, col)
  {
    KevinbotColorNames();
    forall row: nat, col: nat | row < 5 && col < 7
      ensures Index(row, col, 7) < |Kevinbot| && GridCell(Index(row, col, 7), DefaultColumns) == (row, col)
    {
      GridCellOfIndex(row, col, DefaultColumns);
    }
  }

  /** A placed button: its colour and its cell in the layout. */
  datatype Button = Button(color: string, row: nat, col: nat)

  /** The grid loop: one button per colour, in order, at the cell its index gives. */
  method PlaceGrid(colors: seq<string>, nColumns: int) returns (buttons: seq<Button>)
    ensures |buttons| == |colors|
    ensures forall i :: 0 <= i < |colors| ==>
              buttons[i] == Button(colors[i], GridCell(i, nColumns).0, GridCell(i, nColumns).1)
  {
    buttons := [];
    var row: nat, col: nat := 0, 0;
    var k := 0;
    while k < |colors|
      invariant 0 <= k <= |colors|
      invariant |buttons| == k
      invariant forall i :: 0 <= i < k ==>
                  buttons[i] == Button(colors[i], GridCell(i, nColumns).0, GridCell(i, nColumns).1)
      invariant (row, col) == GridCell(k, nColumns)
    {
      buttons := buttons + [Button(colors[k], row, col)];
      GridCellNext(k, nColumns);
      col := col + 1;
      if col == nColumns {
        col := 0;
        row := row + 1;
      }
      k := k + 1;
    }
  }

  /** The cell the i-th button of a box layout takes: a column of row 0, or a row of column 0. */
  function LineCell(i: nat, horizontal: bool): (nat, nat) {
    if horizontal then (0, i) else (i, 0)
  }

  /** The linear loop: one button per colour, in order, one after the other along the box. */
  method PlaceLine(colors: seq<string>, horizontal: bool) returns (buttons: seq<Button>)
    ensures |buttons| == |colors|
    ensures forall i :: 0 <= i < |colors| ==>
              buttons[i] == Button(colors[i], LineCell(i, horizontal).0, LineCell(i, horizontal).1)
  {
    buttons := [];
    for k := 0 to |colors|
      invariant |buttons| == k
      invariant forall i :: 0 <= i < k ==>
                  buttons[i] == Button(colors[i], LineCell(i, horizontal).0, LineCell(i, horizontal).1)
    {
      buttons := buttons + [Button(colors[k], LineCell(k, horizontal).0, LineCell(k, horizontal).1)];
    }
  }

  /** A linear layout never puts two buttons in one place either. */
  lemma LineCellInjective(i: nat, j: nat, horizontal: bool)
    requires LineCell(i, horizontal) == LineCell(j, horizontal)
    ensures i == j
  {
  }

  /** A palette widget: its buttons, and the colours its `selected` signal has emitted. */
  class PaletteWidget {
    var buttons: seq<Button>
    ghost var selected: seq<string>

    /** `PaletteGrid(colors, n_columns)`. */
    constructor Grid(colors: Colors, nColumns: int)
      ensures |buttons| == |Resolve(colors)|
      ensures forall i :: 0 <= i < |buttons| ==>
                buttons[i] == Button(Resolve(colors)[i], GridCell(i, nColumns).0, GridCell(i, nColumns).1)
      ensures selected == []
    {
      var bs := PlaceGrid(Resolve(colors), nColumns);
      buttons := bs;
      selected := [];
    }

    /** `PaletteHorizontal(colors)` when horizontal holds, `PaletteVertical(colors)` otherwise. */
    constructor Linear(colors: Colors, horizontal: bool)
      ensures |buttons| == |Resolve(colors)|
      ensures forall i :: 0 <= i < |buttons| ==>
                buttons[i] == Button(Resolve(colors)[i], LineCell(i, horizontal).0, LineCell(i, horizontal).1)
      ensures selected == []
    {
      var bs := PlaceLine(Resolve(colors), horizontal);
      buttons := bs;
      selected := [];
    }

    /** Pressing a button emits the colour it was created for, and nothing else changes. */
    method Press(i: nat)
      requires i < |buttons|
      modifies this
      ensures buttons == old(buttons)
      ensures selected == old(selected) + [buttons[i].color]
    {
      selected := selected + [buttons[i].color];
    }
  }
}
