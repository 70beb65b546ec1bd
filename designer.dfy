/** The decision logic of the designer window (`MainWindow`): the export-name check, the
    automatic rename on a tab switch, the card-padding parser, the wrapper type name and the
    paths of the two companion files written next to an exported DLL. */
module Designer {
  import opened Strings
  import opened Platform
  import opened ControlTypes
  import Templates

  // ---------------------------------------------------------------- export name check

  predicate IsIdentifierStart(c: char) {
    'A' <= c <= 'Z' || 'a' <= c <= 'z' || c == '_'
  }

  predicate IsIdentifierPart(c: char) {
    IsIdentifierStart(c) || '0' <= c <= '9'
  }

  /** The language of `[A-Za-z_][A-Za-z0-9_]*`. */
  predicate IsIdentifier(s: string) {
    |s| > 0 && IsIdentifierStart(s[0]) && forall i :: 1 <= i < |s| ==> IsIdentifierPart(s[i])
  }

  /** `Regex.IsMatch(s, "^[A-Za-z_][A-Za-z0-9_]*$")`: in .NET `$` also matches just before a
      final line feed, so one trailing '\n' is tolerated. */
  predicate MatchesNamePattern(s: string) {
    IsIdentifier(s) || (|s| > 0 && s[|s| - 1] == '\n' && IsIdentifier(s[..|s| - 1]))
  }

  datatype NameCheck = EmptyName | InvalidName | Accepted(name: string)

  /** The checks `BtnExport_Click` makes on the name box before anything is exported: the text
      is trimmed, an empty name is refused, then a name that is not an identifier. Because the
      name is trimmed, the trailing line feed the pattern tolerates never reaches it. */
  function CheckControlName(text: string): (r: NameCheck)
    ensures r.EmptyName? <==> Trim(text) == []
    ensures r.Accepted? <==> IsIdentifier(Trim(text))
    ensures r.Accepted? ==> r.name == Trim(text)
  {
    var name := Trim(text);
    if name == [] then EmptyName
    else if !MatchesNamePattern(name) then InvalidName
    else Accepted(name)
  }

  /** Only the trimmed text matters: checking the trimmed name gives the same verdict, and an
      accepted name is passed on exactly as checked. */
  lemma CheckIgnoresBlanks(text: string)
    ensures CheckControlName(Trim(text)) == CheckControlName(text)
  {
    TrimIdempotent(text);
  }

  /** A name without blanks at either end is checked as it stands. */
  lemma CheckBareName(s: string)
    requires s != [] && !IsWhiteSpace(s[0]) && !IsWhiteSpace(s[|s| - 1])
    ensures CheckControlName(s) == if IsIdentifier(s) then Accepted(s) else InvalidName
  {
    TrimKeeps(s);
  }

  /** The example of a valid name. */
  lemma AcceptsIdentifier()
    ensures CheckControlName("MySlider1") == Accepted("MySlider1")
  {
    CheckBareName("MySlider1");
  }

  /** A leading digit makes a name invalid. */
  lemma RejectsLeadingDigit()
    ensures CheckControlName("1Slider") == InvalidName
  {
    var s := "1Slider";
    CheckBareName(s);
    assert !IsIdentifierStart(s[0]);
  }

  /** So does a blank inside it. */
  lemma RejectsInnerBlank()
    ensures CheckControlName("My Slider") == InvalidName
  {
    var s := "My Slider";
    CheckBareName(s);
    assert !IsIdentifierPart(s[2]);
  }

  /** An empty or blank box is reported as empty. */
  lemma RejectsBlank()
    ensures CheckControlName("") == EmptyName
    ensures CheckControlName(" \t") == EmptyName
  {
    BlankTrimsToEmpty(" \t");
  }

  // ---------------------------------------------------------------- tab switch rename

  /** The five navigation tabs. */
  datatype Tab = TextInputTab | NumericTab | ComboBoxTab | SliderTab | ButtonTab

  /** The control type a tab selects. */
  function TabType(tab: Tab): (t: ControlType)
    ensures tab == TextInputTab <==> t == TextInput
    ensures tab == NumericTab <==> t == NumericDisplay
    ensures tab == ComboBoxTab <==> t == ComboBoxInput
    ensures tab == SliderTab <==> t == SliderInput
    ensures tab == ButtonTab <==> t == ButtonInput
  {
    match tab
    case TextInputTab => TextInput
    case NumericTab => NumericDisplay
    case ComboBoxTab => ComboBoxInput
    case SliderTab => SliderInput
    case ButtonTab => ButtonInput
  }

  /** The name a tab proposes. */
  function AutoName(tab: Tab): string {
    match tab
    case TextInputTab => "MyTextInput"
    case NumericTab => "MyNumericDisplay"
    case ComboBoxTab => "MyComboBox"
    case SliderTab => "MySlider"
    case ButtonTab => "MyButton"
  }

  /** `isDefaultText`: a (trimmed) name the user has evidently not chosen. */
  predicate IsDefaultText(name: string) {
    name == [] || StartsWith(name, "My")
    || name == "TextInput" || name == "NumericDisplay" || name == "ComboBox" || name == "Slider"
  }

  /** Whether switching to `tab` replaces the (trimmed) name; the button tab also replaces
      "Button". */
  predicate Renames(tab: Tab, name: string) {
    IsDefaultText(name) || (tab == ButtonTab && name == "Button")
  }

  /** The text of the name box after switching to `tab`: the tab's proposal exactly when the
      trimmed text is a default one, otherwise the text as it was. */
  function NextName(tab: Tab, text: string): (r: string)
    ensures r == text || r == AutoName(tab)
    ensures r == AutoName(tab) <==> Renames(tab, Trim(text))
    ensures !Renames(tab, Trim(text)) ==> r == text
  {
    if Renames(tab, Trim(text)) then AutoName(tab)
    else
      AutoNameRenamed(tab);
      text
  }

  /** A proposal is itself a default text for every tab: it trims to itself and starts with "My". */
  lemma AutoNameRenamed(tab: Tab)
    ensures forall next: Tab :: Renames(next, Trim(AutoName(tab)))
  {
    var n := AutoName(tab);
    TrimKeeps(n);
    assert n[..2] == "My";
  }

  /** Every proposed name passes the export check unchanged. */
  lemma AutoNamesAccepted(tab: Tab)
    ensures CheckControlName(AutoName(tab)) == Accepted(AutoName(tab))
  {
    var n := AutoName(tab);
    assert IsIdentifier(n);
    IdentifierHasNoBlankEnds(n);
    CheckBareName(n);
  }

  /** An identifier neither starts nor ends with white space. */
  lemma IdentifierHasNoBlankEnds(s: string)
    requires IsIdentifier(s)
    ensures !IsWhiteSpace(s[0]) && !IsWhiteSpace(s[|s| - 1])
  {
    assert IsIdentifierPart(s[|s| - 1]);
  }

  /** A proposed name starts with "My", so it is always replaced by the next tab's proposal:
      clicking through the tabs keeps the name in step with the type. */
  lemma {:induction false} AutoNameFollowsTabs(tab: Tab, next: Tab, text: string)
    requires Renames(tab, Trim(text))
    ensures NextName(next, NextName(tab, text)) == AutoName(next)
  {
    AutoNameRenamed(tab);
  }

  /** Any other text survives the switch, whether or not it would pass the export check: a
      non-empty trimmed text not starting with "My" and not one of the bare kind names, where
      "Button" counts as a kind name on the button tab only. */
  lemma UserNameKept(tab: Tab, text: string)
    requires Trim(text) != [] && !StartsWith(Trim(text), "My")
    requires Trim(text) !in ["TextInput", "NumericDisplay", "ComboBox", "Slider"]
    requires tab == ButtonTab ==> Trim(text) != "Button"
    ensures NextName(tab, text) == text
  {
  }

  /** "Button" is a default text on the button tab only. */
  lemma ButtonKeptOffButtonTab(tab: Tab)
    ensures NextName(tab, "Button") == if tab == ButtonTab then "MyButton" else "Button"
  {
    TrimKeeps("Button");
    assert "Button"[..2] != "My";
  }

  /** A name the export check would refuse is still kept by the tab switch. */
  lemma InvalidNameKept(tab: Tab)
    ensures CheckControlName("1abc") == InvalidName
    ensures NextName(tab, "1abc") == "1abc"
  {
    var s := "1abc";
    CheckBareName(s);
    assert !IsIdentifierStart(s[0]);
    assert s[..2] != "My";
  }

  /** The part of the designer window that the tab switch reads and writes. */
  class MainWindow {
    var suppressUpdate: bool
    var currentControlType: ControlType
    /** `TxtControlName.Text`. */
    var controlNameText: string

    /** The window after construction: updates are enabled again, the type is the text input
        and the name box holds its initial text. */
    constructor(initialName: string)
      ensures !suppressUpdate && currentControlType == TextInput && controlNameText == initialName
    {
      suppressUpdate := false;
      currentControlType := TextInput;
      controlNameText := initialName;
    }

    /** `Navigation_Checked`: ignored while the window is synchronising itself; otherwise the
        tab's type is selected and an evidently default name is replaced. */
    method NavigationChecked(tab: Tab)
      modifies this
      ensures suppressUpdate == old(suppressUpdate)
      ensures old(suppressUpdate) ==> currentControlType == old(currentControlType)
                                      && controlNameText == old(controlNameText)
      ensures !old(suppressUpdate) ==> currentControlType == TabType(tab)
                                       && controlNameText == NextName(tab, old(controlNameText))
    {
      if suppressUpdate {
        return;
      }
      var currentName := Trim(controlNameText);
      var isDefaultText := currentName == [] || StartsWith(currentName, "My")
        || currentName == "TextInput" || currentName == "NumericDisplay"
        || currentName == "ComboBox" || currentName == "Slider";
      match tab {
        case TextInputTab =>
          currentControlType := TextInput;
          if isDefaultText { controlNameText := "MyTextInput"; }
        case NumericTab =>
          currentControlType := NumericDisplay;
          if isDefaultText { controlNameText := "MyNumericDisplay"; }
        case ComboBoxTab =>
          currentControlType := ComboBoxInput;
          if isDefaultText { controlNameText := "MyComboBox"; }
        case SliderTab =>
          currentControlType := SliderInput;
          if isDefaultText { controlNameText := "MySlider"; }
        case ButtonTab =>
          currentControlType := ButtonInput;
          if isDefaultText || currentName == "Button" { controlNameText := "MyButton"; }
      }
    }
  }

  // ---------------------------------------------------------------- card padding

  datatype Thickness = Thickness(left: real, top: real, right: real, bottom: real)

  /** What `ParseThickness` falls back to. */
  const FallbackPadding := Thickness(12.0, 8.0, 12.0, 6.0)

  /** `ParseThickness`: four comma-separated numbers give the four sides, one number gives all
      four; any other count, or a part `double.Parse` rejects (`parse` returns `None`), gives
      the fallback. */
  function ParseThickness(s: string, parse: string -> Option<real>): (r: Thickness)
    ensures CountChar(s, ',') == 0 ==>
      r == (if parse(s).Some? then Thickness(parse(s).value, parse(s).value, parse(s).value, parse(s).value)
            else FallbackPadding)
    ensures CountChar(s, ',') == 3 ==>
      var p := Split(s, ',');
      r == (if parse(p[0]).Some? && parse(p[1]).Some? && parse(p[2]).Some? && parse(p[3]).Some?
            then Thickness(parse(p[0]).value, parse(p[1]).value, parse(p[2]).value, parse(p[3]).value)
            else FallbackPadding)
    ensures CountChar(s, ',') != 0 && CountChar(s, ',') != 3 ==> r == FallbackPadding
  {
    SplitJoin(s, ',');
    var parts := Split(s, ',');
    if |parts| == 4 then
      match (parse(parts[0]), parse(parts[1]), parse(parts[2]), parse(parts[3]))
      case (Some(l), Some(t), Some(r), Some(b)) => Thickness(l, t, r, b)
      case _ => FallbackPadding
    else if |parts| == 1 then
      match parse(parts[0])
      case Some(v) => Thickness(v, v, v, v)
      case None => FallbackPadding
    else FallbackPadding
  }

  lemma NumeralHasNoComma(n: nat)
    ensures ',' !in NatToString(n)
  {
    var p := NatToString(n);
    assert forall j :: 0 <= j < |p| ==> p[j] != ',';
  }

  /** Four comma-free parts joined with commas split back into those parts. */
  lemma SplitFour(a: string, b: string, c: string, d: string)
    requires ',' !in a && ',' !in b && ',' !in c && ',' !in d
    ensures Split(Join([a, b, c, d], ','), ',') == [a, b, c, d]
  {
    var parts := [a, b, c, d];
    assert forall i :: 0 <= i < |parts| ==> ',' !in parts[i];
    JoinSplit(parts, ',');
  }

  /** Four whole numbers written as "l,t,r,b" parse back to those four sides. */
  lemma PaddingRoundTrip(l: nat, t: nat, r: nat, b: nat, parse: string -> Option<real>)
    requires ReadsNumerals(parse)
    ensures ParseThickness(Join([NatToString(l), NatToString(t), NatToString(r), NatToString(b)], ','), parse)
            == Thickness(l as real, t as real, r as real, b as real)
  {
    var parts := [NatToString(l), NatToString(t), NatToString(r), NatToString(b)];
    NumeralHasNoComma(l);
    NumeralHasNoComma(t);
    NumeralHasNoComma(r);
    NumeralHasNoComma(b);
    SplitFour(parts[0], parts[1], parts[2], parts[3]);
    assert parse(parts[0]) == Some(l as real);
    assert parse(parts[1]) == Some(t as real);
    assert parse(parts[2]) == Some(r as real);
    assert parse(parts[3]) == Some(b as real);
  }

  /** A single whole number gives the same value on all four sides. */
  lemma UniformPadding(n: nat, parse: string -> Option<real>)
    requires ReadsNumerals(parse)
    ensures ParseThickness(NatToString(n), parse) == Thickness(n as real, n as real, n as real, n as real)
  {
    var p := NatToString(n);
    NumeralHasNoComma(n);
    JoinSplit([p], ',');
    assert Join([p], ',') == p;
  }

  // ---------------------------------------------------------------- exported names

  /** The WinForms wrapper class LabVIEW is told to pick; every type other than the first four
      falls back to the button's wrapper. */
  function PanelTypeName(t: ControlType): string {
    match t
    case TextInput => "TextInputPanel"
    case NumericDisplay => "NumericDisplayPanel"
    case ComboBoxInput => "ComboBoxPanel"
    case SliderInput => "SliderPanel"
    case ButtonInput => "ButtonPanel"
  }

  /** The wrapper type named in the usage notes is the one whose source file the generator
      copies into the project. */
  lemma PanelNameMatchesSource(t: ControlType)
    ensures Templates.PanelFileName(t) == PanelTypeName(t) + ".cs"
  {
  }

  /** Index of the extension's dot in the last path segment, or -1. */
  function ExtensionDot(path: string): (r: int)
    ensures r == -1 || (0 <= r < |path| && path[r] == '.')
    ensures r >= 0 ==> forall j :: r < j < |path| ==> path[j] != '.' && !IsSeparator(path[j]) && path[j] != ':'
    ensures r == -1 ==> forall j :: 0 <= j < |path| && path[j] == '.' ==>
      exists k :: j < k < |path| && (IsSeparator(path[k]) || path[k] == ':')
  {
    if path == [] then -1
    else
      var c := path[|path| - 1];
      if c == '.' then |path| - 1
      else if IsSeparator(c) || c == ':' then -1
      else ExtensionDot(path[..|path| - 1])
  }

  /** `Path.ChangeExtension(path, ext)` for an extension given with its dot. */
  function ChangeExtension(path: string, ext: string): (r: string)
    requires StartsWith(ext, ".")
    ensures path == [] ==> r == []
    ensures path != [] ==> |ext| <= |r| && r[|r| - |ext|..] == ext
    ensures path != [] ==> |r| - |ext| <= |path| && r[..|r| - |ext|] == path[..|r| - |ext|]
    ensures path != [] ==> var k := |r| - |ext|;
      || (k == |path| && forall j :: 0 <= j < |path| && path[j] == '.' ==>
            exists m :: j < m < |path| && (IsSeparator(path[m]) || path[m] == ':'))
      || (k < |path| && path[k] == '.' &&
            forall j :: k < j < |path| ==> path[j] != '.' && !IsSeparator(path[j]) && path[j] != ':')
  {
    var dot := ExtensionDot(path);
    if path == [] then []
    else if dot < 0 then path + ext else path[..dot] + ext
  }

  /** The usage notes and the style JSON written beside the DLL after a successful export. */
  function CompanionFiles(outputPath: string): (r: (string, string))
    ensures outputPath == [] ==> r == ([], [])
    ensures outputPath != [] ==> |r.0| >= 10 && r.0[|r.0| - 10..] == ".style.txt"
    ensures outputPath != [] ==> |r.1| >= 11 && r.1[|r.1| - 11..] == ".style.json"
    ensures outputPath != [] ==> r.0[..|r.0| - 10] == r.1[..|r.1| - 11] && r.0 != r.1
  {
    (ChangeExtension(outputPath, ".style.txt"), ChangeExtension(outputPath, ".style.json"))
  }

  /** For a DLL path the extension is replaced: "C:\\out\\Gauge.dll" gets "C:\\out\\Gauge.style.txt"
      and "C:\\out\\Gauge.style.json", two distinct files neither of which is the DLL. */
  lemma CompanionsOfDll(stem: string)
    ensures CompanionFiles(stem + ".dll") == (stem + ".style.txt", stem + ".style.json")
    ensures CompanionFiles(stem + ".dll").0 != CompanionFiles(stem + ".dll").1
    ensures stem + ".dll" !in {CompanionFiles(stem + ".dll").0, CompanionFiles(stem + ".dll").1}
  {
    var p := stem + ".dll";
    assert p[|p| - 1] == 'l' && p[..|p| - 1] == stem + ".dl";
    assert ExtensionDot(p) == ExtensionDot(stem + ".dl");
    assert (stem + ".dl")[..|stem| + 2] == stem + ".d";
    assert ExtensionDot(stem + ".dl") == ExtensionDot(stem + ".d");
    assert (stem + ".d")[..|stem| + 1] == stem + ".";
    assert ExtensionDot(stem + ".d") == ExtensionDot(stem + ".");
    assert ExtensionDot(p) == |stem|;
    assert p[..|stem|] == stem;
    var txt := stem + ".style.txt";
    var json := stem + ".style.json";
    assert |txt| != |json| && |p| != |txt| && |p| != |json|;
  }
}
