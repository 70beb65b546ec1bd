/** The designer's colour picker (`ColorPickerWindow`): three palettes of swatches, a hex box
    whose text is normalised into the selected colour, and swatch clicks that select a colour
    without going through that normalisation. */
module ColorPicker {
  import opened Strings
  import opened Platform

  type Byte = x: int | 0 <= x < 256

  datatype Rgb = Rgb(r: Byte, g: Byte, b: Byte)

  /** The swatch frame colours: #888888 around light colours, #555555 around dark ones, and
      the named colour Gray around "Transparent" or a text the converter rejects. */
  datatype Frame = Light888 | Dark555 | Gray

  /** What the preview shows: a solid colour, or nothing (transparent). */
  datatype Preview = Solid(color: Rgb) | Clear

  /** One swatch: its tag (the colour text), its size and its frame. */
  datatype Swatch = Swatch(tag: string, size: nat, frame: Frame)

  // ---------------------------------------------------------------- palettes

  /** Twelve hues, each from light to dark in five steps. */
  const BasicColors: seq<seq<string>> := [
    ["#FFCDD2", "#EF9A9A", "#EF5350", "#D32F2F", "#B71C1C"],
    ["#F8BBD0", "#F48FB1", "#EC407A", "#C2185B", "#880E4F"],
    ["#E1BEE7", "#CE93D8", "#AB47BC", "#7B1FA2", "#4A148C"],
    ["#C5CAE9", "#9FA8DA", "#5C6BC0", "#303F9F", "#1A237E"],
    ["#BBDEFB", "#90CAF9", "#42A5F5", "#1976D2", "#0D47A1"],
    ["#B2EBF2", "#80DEEA", "#26C6DA", "#0097A7", "#006064"],
    ["#B2DFDB", "#80CBC4", "#26A69A", "#00796B", "#004D40"],
    ["#C8E6C9", "#A5D6A7", "#66BB6A", "#388E3C", "#1B5E20"],
    ["#F0F4C3", "#E6EE9C", "#D4E157", "#AFB42B", "#827717"],
    ["#FFF9C4", "#FFF176", "#FFEE58", "#FBC02D", "#F57F17"],
    ["#FFE0B2", "#FFCC80", "#FFA726", "#F57C00", "#E65100"],
    ["#FFCCBC", "#FFAB91", "#FF7043", "#E64A19", "#BF360C"]]

  const GrayColors: seq<string> := [
    "#FFFFFF", "#FAFAFA", "#F5F5F5", "#EEEEEE", "#E0E0E0",
    "#BDBDBD", "#9E9E9E", "#757575", "#616161", "#424242",
    "#303030", "#212121", "#1A1A1A", "#0D0D0D", "#000000"]

  /** Neumorphic, dark-UI, glass and accent colours, then "Transparent". */
  const Recommended: seq<string> := [
    "#E3E6EC", "#EAEDF2", "#E0E3E9", "#D8DCE3", "#DDE0E6",
    "#1E1E2E", "#2A2A3C", "#252538", "#202032", "#3A3A50",
    "#E8EBF0", "#F0F2F8", "#E8EAF2", "#C8CCE0",
    "#4A6FA5", "#5868A8", "#7A8AA8", "#6878A0", "#3B82F6",
    "#60A5FA", "#8B5CF6", "#EC4899", "#10B981", "#F59E0B",
    "Transparent"]

  /** The rows of a table one after the other. */
  function Flatten(rows: seq<seq<string>>): seq<string> {
    if rows == [] then [] else Flatten(rows[..|rows| - 1]) + rows[|rows| - 1]
  }

  /** The weighted brightness `0.299 R + 0.587 G + 0.114 B`. */
  function Brightness(c: Rgb): real {
    0.299 * c.r as real + 0.587 * c.g as real + 0.114 * c.b as real
  }

  predicate IsTransparent(s: string) {
    EqualsIgnoreCase(s, "Transparent")
  }

  /** The frame `AddColorSwatch` gives a colour text; `convert` is `ColorConverter.ConvertFromString`,
      `None` where it throws. */
  function FrameOf(hex: string, convert: string -> Option<Rgb>): (f: Frame)
    ensures f == Gray <==> IsTransparent(hex) || convert(hex).None?
    ensures f == Light888 <==> !IsTransparent(hex) && convert(hex).Some? && Brightness(convert(hex).value) > 180.0
  {
    if IsTransparent(hex) then Gray
    else
      var c := convert(hex);
      if c.None? then Gray
      else if Brightness(c.value) > 180.0 then Light888 else Dark555
  }

  function SwatchOf(hex: string, size: nat, convert: string -> Option<Rgb>): Swatch {
    Swatch(hex, size, FrameOf(hex, convert))
  }

  /** One swatch per colour text, in order. */
  function Swatches(hexes: seq<string>, size: nat, convert: string -> Option<Rgb>): (r: seq<Swatch>)
    ensures |r| == |hexes|
    ensures forall i :: 0 <= i < |hexes| ==> r[i] == SwatchOf(hexes[i], size, convert)
  {
    seq(|hexes|, i requires 0 <= i < |hexes| => SwatchOf(hexes[i], size, convert))
  }

  lemma SwatchesAppend(a: seq<string>, b: seq<string>, size: nat, convert: string -> Option<Rgb>)
    ensures Swatches(a + b, size, convert) == Swatches(a, size, convert) + Swatches(b, size, convert)
  {
  }

  lemma {:induction false} FlattenLength(rows: seq<seq<string>>, width: nat)
    requires forall r :: 0 <= r < |rows| ==> |rows[r]| == width
    ensures |Flatten(rows)| == |rows| * width
  {
    if rows != [] {
      FlattenLength(rows[..|rows| - 1], width);
    }
  }

  lemma {:induction false} AtLeastOnce(k: nat, w: nat)
    requires k >= 1
    ensures k * w >= w
  {
    if k > 1 {
      AtLeastOnce(k - 1, w);
      assert k * w == (k - 1) * w + w;
    }
  }

  /** Each row of a table of equal-length rows lands at `row * width + col`. */
  lemma {:induction false} FlattenIndex(rows: seq<seq<string>>, width: nat, r: nat, c: nat)
    requires forall k :: 0 <= k < |rows| ==> |rows[k]| == width
    requires r < |rows| && c < width
    ensures r * width + c < |Flatten(rows)| && Flatten(rows)[r * width + c] == rows[r][c]
  {
    var init := rows[..|rows| - 1];
    var last := |rows| - 1;
    FlattenLength(init, width);
    assert |init| * width == last * width;
    if r < last {
      FlattenIndex(init, width, r, c);
      assert r * width + c < last * width by {
        assert last * width == r * width + (last - r) * width;
        AtLeastOnce(last - r, width);
      }
    } else {
      assert Flatten(rows) == Flatten(init) + rows[last];
    }
  }

  /** The palettes hold 12 x 5 basic, 15 gray and 25 recommended colours, "Transparent" last,
      and the basic colour of hue `r` and step `c` sits at `r * 5 + c`. */
  lemma PaletteSizes()
    ensures |Flatten(BasicColors)| == 60
    ensures forall r, c :: 0 <= r < 12 && 0 <= c < 5 ==> Flatten(BasicColors)[r * 5 + c] == BasicColors[r][c]
    ensures |GrayColors| == 15 && |Recommended| == 25
    ensures Recommended[24] == "Transparent"
  {
    FlattenLength(BasicColors, 5);
    forall r, c | 0 <= r < 12 && 0 <= c < 5 ensures Flatten(BasicColors)[r * 5 + c] == BasicColors[r][c] {
      FlattenIndex(BasicColors, 5, r, c);
    }
  }

  /** The "Transparent" swatch is framed in gray whatever the converter says. */
  lemma TransparentFramedGray(convert: string -> Option<Rgb>)
    ensures FrameOf(Recommended[24], convert) == Gray
  {
    assert Upper("Transparent") == "TRANSPARENT";
  }

  /** The frame follows brightness: white gets the light frame, black the dark one, and a
      colour at least as bright in every channel as a light-framed one is light-framed too. */
  lemma FrameByBrightness(hex: string, other: string, convert: string -> Option<Rgb>)
    requires !IsTransparent(hex) && !IsTransparent(other)
    requires convert(hex).Some? && convert(other).Some?
    requires FrameOf(hex, convert) == Light888
    requires var c, d := convert(hex).value, convert(other).value; c.r <= d.r && c.g <= d.g && c.b <= d.b
    ensures FrameOf(other, convert) == Light888
  {
    var c, d := convert(hex).value, convert(other).value;
    assert Brightness(c) <= Brightness(d);
  }

  lemma ExtremesFramed()
    ensures Brightness(Rgb(255, 255, 255)) > 180.0
    ensures Brightness(Rgb(0, 0, 0)) <= 180.0
  {
  }

  // ---------------------------------------------------------------- hex box

  /** `TxtHex_Changed`'s normalisation: trimmed, and '#' put in front unless the text is empty,
      already starts with '#', or is "Transparent" in any letter case. */
  function Normalize(text: string): (r: string)
    ensures r == [] <==> Trim(text) == []
    ensures r == [] || StartsWith(r, "#") || IsTransparent(r)
    ensures StartsWith(Trim(text), "#") || IsTransparent(Trim(text)) ==> r == Trim(text)
    ensures r != Trim(text) ==> r == "#" + Trim(text)
  {
    var hex := Trim(text);
    if !IsTransparent(hex) && !StartsWith(hex, "#") && |hex| > 0 then "#" + hex else hex
  }

  /** Normalising twice is normalising once. */
  lemma NormalizeIdempotent(text: string)
    ensures Normalize(Normalize(text)) == Normalize(text)
  {
    var hex := Trim(text);
    var r := Normalize(text);
    if r == hex {
      TrimIdempotent(text);
    } else {
      assert r == "#" + hex && hex != [];
      assert r[0] == '#' && r[|r| - 1] == hex[|hex| - 1];
      TrimKeeps(r);
      assert StartsWith(r, "#");
    }
  }

  /** A colour text written as '#' and a non-blank end is already normal. */
  lemma HashNormal(hex: string)
    requires |hex| >= 2 && hex[0] == '#' && !IsWhiteSpace(hex[|hex| - 1])
    ensures Normalize(hex) == hex
  {
    TrimKeeps(hex);
    assert StartsWith(hex, "#");
  }

  /** A colour text of the form '#' plus something not ending in blank. */
  predicate HashColor(t: string) {
    |t| >= 2 && t[0] == '#' && !IsWhiteSpace(t[|t| - 1])
  }

  lemma GrayHashColors()
    ensures forall i :: 0 <= i < |GrayColors| ==> HashColor(GrayColors[i])
  {
  }

  lemma RecommendedHashColors()
    ensures forall i :: 0 <= i < |Recommended| - 1 ==> HashColor(Recommended[i])
  {
  }

  lemma BasicHashColors()
    ensures forall r, c :: 0 <= r < |BasicColors| && 0 <= c < |BasicColors[r]| ==> HashColor(BasicColors[r][c])
  {
  }

  /** Every palette colour is already normal: typing a swatch's text selects what clicking
      the swatch selects. */
  lemma PaletteTagsNormal()
    ensures forall t :: t in Flatten(BasicColors) ==> Normalize(t) == t
    ensures forall t :: t in GrayColors ==> Normalize(t) == t
    ensures forall t :: t in Recommended ==> Normalize(t) == t
  {
    BasicHashColors();
    forall t | t in Flatten(BasicColors) ensures Normalize(t) == t {
      FlattenMember(BasicColors, t);
      var r, c :| 0 <= r < |BasicColors| && 0 <= c < |BasicColors[r]| && t == BasicColors[r][c];
      HashNormal(t);
    }
    GrayHashColors();
    forall t | t in GrayColors ensures Normalize(t) == t {
      var i :| 0 <= i < |GrayColors| && t == GrayColors[i];
      HashNormal(t);
    }
    RecommendedHashColors();
    forall t | t in Recommended ensures Normalize(t) == t {
      var i :| 0 <= i < |Recommended| && t == Recommended[i];
      if i == |Recommended| - 1 {
        TransparentNormal();
      } else {
        HashNormal(t);
      }
    }
  }

  lemma TransparentNormal()
    ensures Normalize("Transparent") == "Transparent"
  {
    var t := "Transparent";
    assert t[0] == 'T' && t[|t| - 1] == 't';
    TrimKeeps(t);
  }

  lemma {:induction false} FlattenMember(rows: seq<seq<string>>, t: string)
    requires t in Flatten(rows)
    ensures exists r, c :: 0 <= r < |rows| && 0 <= c < |rows[r]| && t == rows[r][c]
  {
    var last := |rows| - 1;
    var init := rows[..last];
    assert Flatten(rows) == Flatten(init) + rows[last];
    if t in rows[last] {
      var c :| 0 <= c < |rows[last]| && t == rows[last][c];
    } else {
      FlattenMember(init, t);
      var r, c :| 0 <= r < last && 0 <= c < |init[r]| && t == init[r][c];
      assert t == rows[r][c];
    }
  }

  /** Typing a colour without its '#' selects the same colour as typing it with one. */
  lemma HashAdded(digits: string)
    requires digits != [] && digits[0] != '#' && !IsWhiteSpace(digits[0]) && !IsWhiteSpace(digits[|digits| - 1])
    requires !IsTransparent(digits)
    ensures Normalize(digits) == "#" + digits
    ensures Normalize("#" + digits) == "#" + digits
  {
    TrimKeeps(digits);
    assert !StartsWith(digits, "#");
    var h := "#" + digits;
    assert h[|h| - 1] == digits[|digits| - 1];
    HashNormal(h);
  }

  /** The preview `UpdatePreview` shows for a selected colour text. */
  function PreviewOf(selected: string, convert: string -> Option<Rgb>): (p: Preview)
    ensures p.Solid? <==> !IsTransparent(selected) && convert(selected).Some?
    ensures p.Solid? ==> p.color == convert(selected).value
  {
    if IsTransparent(selected) then Clear
    else
      var c := convert(selected);
      if c.None? then Clear else Solid(c.value)
  }

  // ---------------------------------------------------------------- the window

  /** The colour the window opens on: the one given, "#FFFFFF" for a null one. */
  function InitialColor(given: Option<string>): (c: string)
    ensures given.Some? ==> c == given.value
    ensures given.None? ==> c == "#FFFFFF"
  {
    if given.Some? then given.value else "#FFFFFF"
  }

  /** The default colour is normal, so a window opened without one selects exactly white. */
  lemma DefaultIsWhite()
    ensures Normalize(InitialColor(None)) == "#FFFFFF"
  {
    HashNormal("#FFFFFF");
  }

  class ColorPickerWindow {
    const convert: string -> Option<Rgb>
    var selectedColor: string
    var hexText: string
    var suppressHexUpdate: bool
    var preview: Preview
    var basicSwatches: seq<Swatch>
    var graySwatches: seq<Swatch>
    var recommendedSwatches: seq<Swatch>

    /** Between events hex typing is not suppressed and the preview shows the selected colour. */
    predicate Valid()
      reads this
    {
      !suppressHexUpdate && preview == PreviewOf(selectedColor, convert)
    }

    /** The window opens on the given colour, "#FFFFFF" when none is given. Writing it into the
        hex box raises the box's change handler, so a non-empty colour is normalised. */
    constructor (initialColor: Option<string>, converter: string -> Option<Rgb>)
      ensures Valid()
      ensures convert == converter
      ensures selectedColor == Normalize(InitialColor(initialColor))
      ensures hexText == InitialColor(initialColor)
      ensures basicSwatches == Swatches(Flatten(BasicColors), 24, converter)
      ensures graySwatches == Swatches(GrayColors, 24, converter)
      ensures recommendedSwatches == Swatches(Recommended, 26, converter)
    {
      convert := converter;
      hexText := [];
      suppressHexUpdate := false;
      basicSwatches, graySwatches, recommendedSwatches := [], [], [];
      new;
      BuildPalettes();
      selectedColor := InitialColor(initialColor);
      preview := PreviewOf(selectedColor, convert);
      var shown := selectedColor;
      SetHexText(shown);
      if shown == [] {
        BlankTrimsToEmpty(shown);
      }
    }

    /** `BuildPalettes`: the basic table row by row, then the grays, then the recommended colours. */
    method BuildPalettes()
      modifies this
      ensures basicSwatches == Swatches(Flatten(BasicColors), 24, convert)
      ensures graySwatches == Swatches(GrayColors, 24, convert)
      ensures recommendedSwatches == Swatches(Recommended, 26, convert)
      ensures selectedColor == old(selectedColor) && hexText == old(hexText)
      ensures suppressHexUpdate == old(suppressHexUpdate) && preview == old(preview)
    {
      basicSwatches := SwatchTable(BasicColors, 24);
      graySwatches := SwatchRow(GrayColors, 24);
      recommendedSwatches := SwatchRow(Recommended, 26);
    }

    /** The nested loop over the basic table: one swatch per cell, row after row. */
    method SwatchTable(rows: seq<seq<string>>, size: nat) returns (panel: seq<Swatch>)
      ensures panel == Swatches(Flatten(rows), size, convert)
    {
      panel := [];
      for row := 0 to |rows|
        invariant panel == Swatches(Flatten(rows[..row]), size, convert)
      {
        ghost var done := panel;
        for col := 0 to |rows[row]|
          invariant panel == done + Swatches(rows[row][..col], size, convert)
        {
          panel := panel + [SwatchOf(rows[row][col], size, convert)];
          SwatchesAppend(rows[row][..col], [rows[row][col]], size, convert);
          assert rows[row][..col + 1] == rows[row][..col] + [rows[row][col]];
        }
        assert rows[row][..|rows[row]|] == rows[row];
        assert rows[..row + 1][..row] == rows[..row];
        SwatchesAppend(Flatten(rows[..row]), rows[row], size, convert);
      }
      assert rows[..|rows|] == rows;
    }

    /** The loop over a list of colours: one swatch each, in order. */
    method SwatchRow(hexes: seq<string>, size: nat) returns (panel: seq<Swatch>)
      ensures panel == Swatches(hexes, size, convert)
    {
      panel := [];
      for i := 0 to |hexes|
        invariant panel == Swatches(hexes[..i], size, convert)
      {
        panel := panel + [SwatchOf(hexes[i], size, convert)];
        assert hexes[..i + 1] == hexes[..i] + [hexes[i]];
      }
      assert hexes[..|hexes|] == hexes;
    }

    /** The hex box's text is set; the box raises its change handler only on a real change. */
    method SetHexText(s: string)
      requires preview == PreviewOf(selectedColor, convert)
      modifies this
      ensures hexText == s && suppressHexUpdate == old(suppressHexUpdate)
      ensures preview == PreviewOf(selectedColor, convert)
      ensures old(hexText) != s && !suppressHexUpdate ==> selectedColor == Normalize(s)
      ensures old(hexText) == s || suppressHexUpdate ==> selectedColor == old(selectedColor)
      ensures basicSwatches == old(basicSwatches) && graySwatches == old(graySwatches)
      ensures recommendedSwatches == old(recommendedSwatches)
    {
      if hexText != s {
        hexText := s;
        TxtHexChanged();
      }
    }

    /** `TxtHex_Changed`: unless suppressed, the normalised box text becomes the selection. */
    method TxtHexChanged()
      requires preview == PreviewOf(selectedColor, convert)
      modifies this
      ensures hexText == old(hexText) && suppressHexUpdate == old(suppressHexUpdate)
      ensures preview == PreviewOf(selectedColor, convert)
      ensures selectedColor == if suppressHexUpdate then old(selectedColor) else Normalize(hexText)
      ensures basicSwatches == old(basicSwatches) && graySwatches == old(graySwatches)
      ensures recommendedSwatches == old(recommendedSwatches)
    {
      if suppressHexUpdate {
        return;
      }
      selectedColor := Normalize(hexText);
      UpdatePreview();
    }

    method UpdatePreview()
      modifies this
      ensures preview == PreviewOf(selectedColor, convert)
      ensures selectedColor == old(selectedColor) && hexText == old(hexText)
      ensures suppressHexUpdate == old(suppressHexUpdate)
      ensures basicSwatches == old(basicSwatches) && graySwatches == old(graySwatches)
      ensures recommendedSwatches == old(recommendedSwatches)
    {
      if IsTransparent(selectedColor) {
        preview := Clear;
        return;
      }
      var c := convert(selectedColor);
      preview := if c.None? then Clear else Solid(c.value);
    }

    /** `Swatch_Click`: a swatch with a non-empty tag selects exactly that tag and shows it in
        the box, with the box's handler held off meanwhile; an empty or missing tag does nothing. */
    method SwatchClick(tag: Option<string>)
      requires Valid()
      modifies this
      ensures Valid()
      ensures tag.Some? && tag.value != [] ==> selectedColor == tag.value && hexText == tag.value
      ensures tag.None? || tag.value == [] ==> selectedColor == old(selectedColor) && hexText == old(hexText)
      ensures basicSwatches == old(basicSwatches) && graySwatches == old(graySwatches)
      ensures recommendedSwatches == old(recommendedSwatches)
    {
      if tag.Some? && tag.value != [] {
        var hex := tag.value;
        suppressHexUpdate := true;
        SetHexText(hex);
        selectedColor := hex;
        UpdatePreview();
        suppressHexUpdate := false;
      }
    }

    /** The user types into the hex box. */
    method TypeHex(s: string)
      requires Valid()
      modifies this
      ensures Valid()
      ensures hexText == s
      ensures old(hexText) != s ==> selectedColor == Normalize(s)
      ensures old(hexText) == s ==> selectedColor == old(selectedColor)
    {
      SetHexText(s);
    }
  }
}
