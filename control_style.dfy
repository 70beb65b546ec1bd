/** The style record edited by the designer: 22 properties with defaults, a change-detecting
    setter that raises `PropertyChanged` only on a real change, and `Clone`. */
module Styles {

  /** The value of every property at one moment; the pipeline works on such a snapshot. */
  datatype Style = Style(
    controlBackground: string,
    gradientStart: string,
    gradientMid: string,
    gradientEnd: string,
    borderColor: string,
    borderThickness: real,
    cornerRadius: real,
    shadowBlur: real,
    shadowDepth: real,
    shadowColor: string,
    shadowOpacity: real,
    highlightColor: string,
    highlightOpacity: real,
    fontFamily: string,
    fontSize: real,
    fontColor: string,
    caretColor: string,
    labelColor: string,
    labelFontSize: real,
    focusBorderColor: string,
    accentColor: string,
    cardPadding: string)

  /** The initial values of a new `ControlStyle`. */
  const Defaults: Style := Style(
    "#E3E6EC", "#EAEDF2", "#E0E3E9", "#D8DCE3", "#DDE0E6", 1.0, 12.0,
    10.0, 4.0, "#A3A9B5", 0.5,
    "#FFFFFF", 0.65,
    "Segoe UI", 14.0, "#3A3F50", "#5A6070",
    "#8A90A0", 11.0,
    "#B0B8C8", "#7A8AA8",
    "12,8,12,6")

  /** The string-valued properties. */
  datatype TextProperty =
    | ControlBackground | GradientStart | GradientMid | GradientEnd | BorderColor
    | ShadowColor | HighlightColor | FontFamily | FontColor | CaretColor
    | LabelColor | FocusBorderColor | AccentColor | CardPadding

  /** The double-valued properties. */
  datatype NumberProperty =
    | BorderThickness | CornerRadius | ShadowBlur | ShadowDepth
    | ShadowOpacity | HighlightOpacity | FontSize | LabelFontSize

  /** The name `PropertyChanged` carries (the caller member name of the setter). */
  function TextName(p: TextProperty): string {
    match p
    case ControlBackground => "ControlBackground"
    case GradientStart => "GradientStart"
    case GradientMid => "GradientMid"
    case GradientEnd => "GradientEnd"
    case BorderColor => "BorderColor"
    case ShadowColor => "ShadowColor"
    case HighlightColor => "HighlightColor"
    case FontFamily => "FontFamily"
    case FontColor => "FontColor"
    case CaretColor => "CaretColor"
    case LabelColor => "LabelColor"
    case FocusBorderColor => "FocusBorderColor"
    case AccentColor => "AccentColor"
    case CardPadding => "CardPadding"
  }

  function NumberName(p: NumberProperty): string {
    match p
    case BorderThickness => "BorderThickness"
    case CornerRadius => "CornerRadius"
    case ShadowBlur => "ShadowBlur"
    case ShadowDepth => "ShadowDepth"
    case ShadowOpacity => "ShadowOpacity"
    case HighlightOpacity => "HighlightOpacity"
    case FontSize => "FontSize"
    case LabelFontSize => "LabelFontSize"
  }

  function GetText(s: Style, p: TextProperty): string {
    match p
    case ControlBackground => s.controlBackground
    case GradientStart => s.gradientStart
    case GradientMid => s.gradientMid
    case GradientEnd => s.gradientEnd
    case BorderColor => s.borderColor
    case ShadowColor => s.shadowColor
    case HighlightColor => s.highlightColor
    case FontFamily => s.fontFamily
    case FontColor => s.fontColor
    case CaretColor => s.caretColor
    case LabelColor => s.labelColor
    case FocusBorderColor => s.focusBorderColor
    case AccentColor => s.accentColor
    case CardPadding => s.cardPadding
  }

  function GetNumber(s: Style, p: NumberProperty): real {
    match p
    case BorderThickness => s.borderThickness
    case CornerRadius => s.cornerRadius
    case ShadowBlur => s.shadowBlur
    case ShadowDepth => s.shadowDepth
    case ShadowOpacity => s.shadowOpacity
    case HighlightOpacity => s.highlightOpacity
    case FontSize => s.fontSize
    case LabelFontSize => s.labelFontSize
  }

  /** Two snapshots that agree on every property are the same snapshot. */
  lemma SameProperties(s: Style, t: Style)
    requires forall p :: GetText(s, p) == GetText(t, p)
    requires forall p :: GetNumber(s, p) == GetNumber(t, p)
    ensures s == t
  {
    assert GetText(s, ControlBackground) == GetText(t, ControlBackground);
    assert GetText(s, GradientStart) == GetText(t, GradientStart);
    assert GetText(s, GradientMid) == GetText(t, GradientMid);
    assert GetText(s, GradientEnd) == GetText(t, GradientEnd);
    assert GetText(s, BorderColor) == GetText(t, BorderColor);
    assert GetText(s, ShadowColor) == GetText(t, ShadowColor);
    assert GetText(s, HighlightColor) == GetText(t, HighlightColor);
    assert GetText(s, FontFamily) == GetText(t, FontFamily);
    assert GetText(s, FontColor) == GetText(t, FontColor);
    assert GetText(s, CaretColor) == GetText(t, CaretColor);
    assert GetText(s, LabelColor) == GetText(t, LabelColor);
    assert GetText(s, FocusBorderColor) == GetText(t, FocusBorderColor);
    assert GetText(s, AccentColor) == GetText(t, AccentColor);
    assert GetText(s, CardPadding) == GetText(t, CardPadding);
    assert GetNumber(s, BorderThickness) == GetNumber(t, BorderThickness);
    assert GetNumber(s, CornerRadius) == GetNumber(t, CornerRadius);
    assert GetNumber(s, ShadowBlur) == GetNumber(t, ShadowBlur);
    assert GetNumber(s, ShadowDepth) == GetNumber(t, ShadowDepth);
    assert GetNumber(s, ShadowOpacity) == GetNumber(t, ShadowOpacity);
    assert GetNumber(s, HighlightOpacity) == GetNumber(t, HighlightOpacity);
    assert GetNumber(s, FontSize) == GetNumber(t, FontSize);
    assert GetNumber(s, LabelFontSize) == GetNumber(t, LabelFontSize);
  }

  /** The snapshot after a string setter stored `v`: that property holds `v`, every other is untouched. */
  function WithText(s: Style, p: TextProperty, v: string): Style {
    match p
    case ControlBackground => s.(controlBackground := v)
    case GradientStart => s.(gradientStart := v)
    case GradientMid => s.(gradientMid := v)
    case GradientEnd => s.(gradientEnd := v)
    case BorderColor => s.(borderColor := v)
    case ShadowColor => s.(shadowColor := v)
    case HighlightColor => s.(highlightColor := v)
    case FontFamily => s.(fontFamily := v)
    case FontColor => s.(fontColor := v)
    case CaretColor => s.(caretColor := v)
    case LabelColor => s.(labelColor := v)
    case FocusBorderColor => s.(focusBorderColor := v)
    case AccentColor => s.(accentColor := v)
    case CardPadding => s.(cardPadding := v)
  }

  /** The snapshot after a double setter stored `v`: that property holds `v`, every other is untouched. */
  function WithNumber(s: Style, p: NumberProperty, v: real): Style {
    match p
    case BorderThickness => s.(borderThickness := v)
    case CornerRadius => s.(cornerRadius := v)
    case ShadowBlur => s.(shadowBlur := v)
    case ShadowDepth => s.(shadowDepth := v)
    case ShadowOpacity => s.(shadowOpacity := v)
    case HighlightOpacity => s.(highlightOpacity := v)
    case FontSize => s.(fontSize := v)
    case LabelFontSize => s.(labelFontSize := v)
  }

  /** A string setter writes only its own property: `p` holds `v` and every other property is untouched. */
  lemma WithTextFrame(s: Style, p: TextProperty, v: string)
    ensures GetText(WithText(s, p, v), p) == v
    ensures forall q :: q != p ==> GetText(WithText(s, p, v), q) == GetText(s, q)
    ensures forall q :: GetNumber(WithText(s, p, v), q) == GetNumber(s, q)
  {
  }

  /** A double setter writes only its own property. */
  lemma WithNumberFrame(s: Style, p: NumberProperty, v: real)
    ensures GetNumber(WithNumber(s, p, v), p) == v
    ensures forall q :: q != p ==> GetNumber(WithNumber(s, p, v), q) == GetNumber(s, q)
    ensures forall q :: GetText(WithNumber(s, p, v), q) == GetText(s, q)
  {
  }

  /** Storing the value a property already holds leaves the snapshot as it was. */
  lemma WithTextSame(s: Style, p: TextProperty)
    ensures WithText(s, p, GetText(s, p)) == s
  {
    WithTextFrame(s, p, GetText(s, p));
    SameProperties(WithText(s, p, GetText(s, p)), s);
  }

  lemma WithNumberSame(s: Style, p: NumberProperty)
    ensures WithNumber(s, p, GetNumber(s, p)) == s
  {
    WithNumberFrame(s, p, GetNumber(s, p));
    SameProperties(WithNumber(s, p, GetNumber(s, p)), s);
  }

  /** The colour properties of the control surface (background, gradient, border, shadow, highlight). */
  predicate IsSurfaceText(p: TextProperty)
  {
    p.ControlBackground? || p.GradientStart? || p.GradientMid? || p.GradientEnd? || p.BorderColor? || p.ShadowColor? || p.HighlightColor?
  }

  /** A live style object. `raised` lists, in order, the property names of the
      `PropertyChanged` notifications this object has raised. */
  class ControlStyle {
    var controlBackground: string
    var gradientStart: string
    var gradientMid: string
    var gradientEnd: string
    var borderColor: string
    var borderThickness: real
    var cornerRadius: real
    var shadowBlur: real
    var shadowDepth: real
    var shadowColor: string
    var shadowOpacity: real
    var highlightColor: string
    var highlightOpacity: real
    var fontFamily: string
    var fontSize: real
    var fontColor: string
    var caretColor: string
    var labelColor: string
    var labelFontSize: real
    var focusBorderColor: string
    var accentColor: string
    var cardPadding: string
    var raised: seq<string>

    function Snapshot(): Style
      reads this
    {
      Style(controlBackground, gradientStart, gradientMid, gradientEnd, borderColor,
            borderThickness, cornerRadius, shadowBlur, shadowDepth, shadowColor, shadowOpacity,
            highlightColor, highlightOpacity, fontFamily, fontSize, fontColor, caretColor,
            labelColor, labelFontSize, focusBorderColor, accentColor, cardPadding)
    }

    /** Every backing field starts at its declared default; nothing has been raised. */
    constructor ()
      ensures Snapshot() == Defaults && raised == []
    {
      controlBackground, gradientStart, gradientMid, gradientEnd := "#E3E6EC", "#EAEDF2", "#E0E3E9", "#D8DCE3";
      borderColor, borderThickness, cornerRadius := "#DDE0E6", 1.0, 12.0;
      shadowBlur, shadowDepth, shadowColor, shadowOpacity := 10.0, 4.0, "#A3A9B5", 0.5;
      highlightColor, highlightOpacity := "#FFFFFF", 0.65;
      fontFamily, fontSize, fontColor, caretColor := "Segoe UI", 14.0, "#3A3F50", "#5A6070";
      labelColor, labelFontSize := "#8A90A0", 11.0;
      focusBorderColor, accentColor := "#B0B8C8", "#7A8AA8";
      cardPadding := "12,8,12,6";
      raised := [];
    }

    /** The copy `MemberwiseClone` makes: every backing field taken from `original`. */
    constructor Copy(original: ControlStyle)
      ensures Snapshot() == original.Snapshot() && raised == []
    {
      controlBackground, gradientStart, gradientMid, gradientEnd := original.controlBackground, original.gradientStart, original.gradientMid, original.gradientEnd;
      borderColor, borderThickness, cornerRadius := original.borderColor, original.borderThickness, original.cornerRadius;
      shadowBlur, shadowDepth, shadowColor, shadowOpacity := original.shadowBlur, original.shadowDepth, original.shadowColor, original.shadowOpacity;
      highlightColor, highlightOpacity := original.highlightColor, original.highlightOpacity;
      fontFamily, fontSize, fontColor, caretColor := original.fontFamily, original.fontSize, original.fontColor, original.caretColor;
      labelColor, labelFontSize := original.labelColor, original.labelFontSize;
      focusBorderColor, accentColor, cardPadding := original.focusBorderColor, original.accentColor, original.cardPadding;
      raised := [];
    }

    /** A string property setter (`Set(ref field, value)`): an equal value changes nothing and raises
        nothing; a different value is stored and raises `PropertyChanged` once with the property's name. */
    method SetText(p: TextProperty, v: string) returns (changed: bool)
      modifies this
      ensures changed <==> GetText(old(Snapshot()), p) != v
      ensures Snapshot() == WithText(old(Snapshot()), p, v)
      ensures !changed ==> Snapshot() == old(Snapshot())
      ensures raised == old(raised) + (if changed then [TextName(p)] else [])
    {
      if GetText(Snapshot(), p) == v {
        WithTextSame(Snapshot(), p);
        return false;
      }
      StoreText(p, v);
      raised := raised + [TextName(p)];
      changed := true;
    }

    /** A double property setter, with the same change detection. */
    method SetNumber(p: NumberProperty, v: real) returns (changed: bool)
      modifies this
      ensures changed <==> GetNumber(old(Snapshot()), p) != v
      ensures Snapshot() == WithNumber(old(Snapshot()), p, v)
      ensures !changed ==> Snapshot() == old(Snapshot())
      ensures raised == old(raised) + (if changed then [NumberName(p)] else [])
    {
      if GetNumber(Snapshot(), p) == v {
        WithNumberSame(Snapshot(), p);
        return false;
      }
      StoreNumber(p, v);
      raised := raised + [NumberName(p)];
      changed := true;
    }

    /** The assignment to the backing field of `p`, and to nothing else. */
    method StoreText(p: TextProperty, v: string)
      modifies this
      ensures Snapshot() == WithText(old(Snapshot()), p, v)
      ensures raised == old(raised)
    {
      if IsSurfaceText(p) {
        StoreSurfaceText(p, v);
      } else {
        StoreTypeText(p, v);
      }
    }

    method StoreSurfaceText(p: TextProperty, v: string)
      requires IsSurfaceText(p)
      modifies this
      ensures Snapshot() == WithText(old(Snapshot()), p, v)
      ensures raised == old(raised)
    {
      ghost var before := Snapshot();
      match p {
        case ControlBackground => controlBackground := v; assert Snapshot() == before.(controlBackground := v);
        case GradientStart => gradientStart := v; assert Snapshot() == before.(gradientStart := v);
        case GradientMid => gradientMid := v; assert Snapshot() == before.(gradientMid := v);
        case GradientEnd => gradientEnd := v; assert Snapshot() == before.(gradientEnd := v);
        case BorderColor => borderColor := v; assert Snapshot() == before.(borderColor := v);
        case ShadowColor => shadowColor := v; assert Snapshot() == before.(shadowColor := v);
        case HighlightColor => highlightColor := v; assert Snapshot() == before.(highlightColor := v);
      }
    }

    method StoreTypeText(p: TextProperty, v: string)
      requires !IsSurfaceText(p)
      modifies this
      ensures Snapshot() == WithText(old(Snapshot()), p, v)
      ensures raised == old(raised)
    {
      ghost var before := Snapshot();
      match p {
        case FontFamily => fontFamily := v; assert Snapshot() == before.(fontFamily := v);
        case FontColor => fontColor := v; assert Snapshot() == before.(fontColor := v);
        case CaretColor => caretColor := v; assert Snapshot() == before.(caretColor := v);
        case LabelColor => labelColor := v; assert Snapshot() == before.(labelColor := v);
        case FocusBorderColor => focusBorderColor := v; assert Snapshot() == before.(focusBorderColor := v);
        case AccentColor => accentColor := v; assert Snapshot() == before.(accentColor := v);
        case CardPadding => cardPadding := v; assert Snapshot() == before.(cardPadding := v);
      }
    }

    method StoreNumber(p: NumberProperty, v: real)
      modifies this
      ensures Snapshot() == WithNumber(old(Snapshot()), p, v)
      ensures raised == old(raised)
    {
      ghost var before := Snapshot();
      match p {
        case BorderThickness => borderThickness := v; assert Snapshot() == before.(borderThickness := v);
        case CornerRadius => cornerRadius := v; assert Snapshot() == before.(cornerRadius := v);
        case ShadowBlur => shadowBlur := v; assert Snapshot() == before.(shadowBlur := v);
        case ShadowDepth => shadowDepth := v; assert Snapshot() == before.(shadowDepth := v);
        case ShadowOpacity => shadowOpacity := v; assert Snapshot() == before.(shadowOpacity := v);
        case HighlightOpacity => highlightOpacity := v; assert Snapshot() == before.(highlightOpacity := v);
        case FontSize => fontSize := v; assert Snapshot() == before.(fontSize := v);
        case LabelFontSize => labelFontSize := v; assert Snapshot() == before.(labelFontSize := v);
      }
    }

    /** `MemberwiseClone`: a distinct object holding the same property values. */
    method Clone() returns (c: ControlStyle)
      ensures fresh(c)
      ensures c.Snapshot() == Snapshot()
      ensures c.raised == []
    {
      c := new ControlStyle.Copy(this);
    }
  }

  /** The export boundary: the style is cloned, then the editor keeps setting properties on the
      original; the clone still holds the values of the moment it was taken. */
  method ExportSnapshot(editor: ControlStyle, p: TextProperty, v: string) returns (snapshot: ControlStyle)
    modifies editor
    ensures fresh(snapshot)
    ensures snapshot.Snapshot() == old(editor.Snapshot())
    ensures editor.Snapshot() == WithText(old(editor.Snapshot()), p, v)
  {
    snapshot := editor.Clone();
    var _ := editor.SetText(p, v);
  }
}
