/** utils/helpers.ts: colour lookup by index into two constant palettes. */
module Palette {
  import opened Common

  const PrimaryColors: seq<string> := ["red", "green", "yellow", "blue", "purple"]

  const PrimaryColorsHex: seq<string> := [
    "#D35400", "#186A3B", "#4A148C", "#FFA000", "#1E7E34",
    "#0056B3", "#0D7377", "#C82333", "#5806A0", "#D35400"
  ]

  /** JavaScript's `a % n` on integers: the remainder carries the sign of the dividend
      (truncating division), unlike Dafny's Euclidean `%`. */
  function JsRem(a: int, n: int): (r: int)
    requires n > 0
    ensures -n < r < n
    ensures a >= 0 ==> r >= 0
    ensures a < 0 ==> r <= 0
    ensures exists q :: a == q * n + r
  {
    if a >= 0 then
      assert a == (a / n) * n + a % n;
      a % n
    else
      assert -a == ((-a) / n) * n + (-a) % n;
      assert a == (-((-a) / n)) * n + -((-a) % n);
      -((-a) % n)
  }

  /** `palette[index % palette.length]`. A negative remainder names no array element and
      reads `undefined`; a remainder of `-0` reads element 0, because the property key of
      `-0` is `"0"`. */
  function PaletteAt(palette: seq<string>, index: int): Option<string>
    requires |palette| > 0
  {
    var k := JsRem(index, |palette|);
    if k >= 0 then Some(palette[k]) else None
  }

  /** getColorByIndex. */
  function ColorByIndex(index: int): (r: Option<string>)
    ensures r.Some? <==> index >= 0 || index % |PrimaryColors| == 0
    ensures r.Some? ==> r.value in PrimaryColors
  {
    PaletteAt(PrimaryColors, index)
  }

  /** getColorHexByIndex. */
  function ColorHexByIndex(index: int): (r: Option<string>)
    ensures r.Some? <==> index >= 0 || index % |PrimaryColorsHex| == 0
    ensures r.Some? ==> r.value in PrimaryColorsHex
  {
    PaletteAt(PrimaryColorsHex, index)
  }

  /** For a natural index both lookups are the palette entry at `index mod length`. */
  lemma NaturalIndex(index: nat)
    ensures ColorByIndex(index) == Some(PrimaryColors[index % 5])
    ensures ColorHexByIndex(index) == Some(PrimaryColorsHex[index % 10])
  {
  }

  /** Both lookups repeat with the palette's length as period over the naturals. */
  lemma Periodic(index: nat)
    ensures ColorByIndex(index + |PrimaryColors|) == ColorByIndex(index)
    ensures ColorHexByIndex(index + |PrimaryColorsHex|) == ColorHexByIndex(index)
  {
    NaturalIndex(index);
    NaturalIndex(index + 5);
    NaturalIndex(index + 10);
  }

  /** Below the palette's length the lookup is a direct read. */
  lemma DirectRead(index: nat)
    ensures index < |PrimaryColors| ==> ColorByIndex(index) == Some(PrimaryColors[index])
    ensures index < |PrimaryColorsHex| ==> ColorHexByIndex(index) == Some(PrimaryColorsHex[index])
  {
    NaturalIndex(index);
  }

  /** A negative index gives a colour only when it is a multiple of the palette's length,
      and that colour is the first one. */
  lemma NegativeIndex(index: int)
    requires index < 0
    ensures ColorByIndex(index) == (if (-index) % 5 == 0 then Some("red") else None)
    ensures ColorHexByIndex(index) == (if (-index) % 10 == 0 then Some("#D35400") else None)
  {
    assert JsRem(index, 5) == -((-index) % 5);
    assert JsRem(index, 10) == -((-index) % 10);
  }

  /** The hex palette is not injective: the first and the last index share a colour. */
  lemma HexNotInjective()
    ensures exists i: nat, j: nat :: i < j && ColorHexByIndex(i) == ColorHexByIndex(j)
  {
    assert ColorHexByIndex(0) == ColorHexByIndex(9);
  }
}
