/** The XAML template engine: it picks the template of a control type, fills in the style's
    `{{Token}}` placeholders, renames the `WpfTextInput` identifier to the control's name and
    writes the source files and the project file of a buildable control library.
    A directory is a map from file name to file text. */
module Templates {
  import opened Strings
  import opened Platform
  import opened Styles
  import opened ControlTypes

  /** The identifier the templates are written with; generation renames it. */
  const LegacyName := "WpfTextInput"
  const BackgroundToken := "{{ControlBackground}}"
  const CsprojTemplate := "Template.csproj"
  const HostFile := "TextInputHost.cs"
  const ArgsFile := "ValueChangedEventArgs.cs"
  const HostCompileLine := "<Compile Include=\"" + HostFile + "\" />"
  const ArgsCompileLine := "<Compile Include=\"" + ArgsFile + "\" />"
  const RootNamespaceLine := "<RootNamespace>WpfTextInput</RootNamespace>"
  const AssemblyNameLine := "<AssemblyName>WpfTextInput</AssemblyName>"
  const GuidPlaceholder := "{A1B2C3D4-E5F6-7890-ABCD-EF1234567890}"

  // ---------------------------------------------------------------- file choice per type

  /** The class name of the control's code-behind; the file names of a type derive from it. */
  function ControlBaseName(t: ControlType): string {
    match t
    case TextInput => "TextInputControl"
    case NumericDisplay => "NumericDisplayControl"
    case ComboBoxInput => "ComboBoxControl"
    case SliderInput => "SliderControl"
    case ButtonInput => "ButtonControl"
  }

  /** The name the generated XAML is written under, e.g. "SliderControl.xaml". */
  function XamlFileName(t: ControlType): string {
    ControlBaseName(t) + ".xaml"
  }

  /** The template `GenerateXaml` reads, e.g. "SliderControl.xaml.template"; the text input
      is the fallback of the switch. */
  function XamlTemplateName(t: ControlType): string {
    XamlFileName(t) + ".template"
  }

  /** The code-behind source file, e.g. "SliderControl.xaml.cs". */
  function CodeBehindName(t: ControlType): string {
    ControlBaseName(t) + ".xaml.cs"
  }

  /** The WinForms wrapper's source file. */
  function PanelFileName(t: ControlType): string {
    match t
    case NumericDisplay => "NumericDisplayPanel.cs"
    case ComboBoxInput => "ComboBoxPanel.cs"
    case SliderInput => "SliderPanel.cs"
    case ButtonInput => "ButtonPanel.cs"
    case TextInput => "TextInputPanel.cs"
  }

  /** The source files copied next to the XAML, in the order they are written. */
  function FixedFiles(t: ControlType): seq<string> {
    [CodeBehindName(t), PanelFileName(t)] + (if t == TextInput then [HostFile, ArgsFile] else [])
  }

  /** The text input copies four files and every other type two; the files copied are
      pairwise distinct and never the XAML file; the host and event-args files belong to the
      text input only. */
  lemma FixedFileList(t: ControlType)
    ensures |FixedFiles(t)| == if t == TextInput then 4 else 2
    ensures forall i, j :: 0 <= i < j < |FixedFiles(t)| ==> FixedFiles(t)[i] != FixedFiles(t)[j]
    ensures XamlFileName(t) !in FixedFiles(t)
    ensures t == TextInput <==> HostFile in FixedFiles(t)
    ensures t == TextInput <==> ArgsFile in FixedFiles(t)
  {
    var files := FixedFiles(t);
    assert |ControlBaseName(t)| == |PanelFileName(t)| - 1;
    assert |files[0]| == |ControlBaseName(t)| + 8 && |XamlFileName(t)| == |ControlBaseName(t)| + 5;
    assert files[0][|files[0]| - 1] == 's' && XamlFileName(t)[|XamlFileName(t)| - 1] == 'l';
    assert files[1][|files[1]| - 1] == 's';
    assert files[0][0] == ControlBaseName(t)[0];
    forall i, j | 0 <= i < j < |files| ensures files[i] != files[j] {
      if |files[i]| == |files[j]| {
        assert files[i][0] != files[j][0];
      }
    }
    if t != TextInput {
      forall k | 0 <= k < 2 ensures files[k] != HostFile && files[k] != ArgsFile {
        if |files[k]| == |HostFile| || |files[k]| == |ArgsFile| {
          assert files[k][0] != 'T' && files[k][0] != 'V';
        }
      }
    }
  }

  /** The text input's names as the project template spells them. */
  lemma TextInputNames()
    ensures CodeBehindName(TextInput) == "TextInputControl.xaml.cs"
    ensures XamlFileName(TextInput) == "TextInputControl.xaml"
  {
  }

  /** No two types share a template. */
  lemma TemplatesDistinct(t: ControlType, u: ControlType)
    requires t != u
    ensures XamlTemplateName(t) != XamlTemplateName(u)
  {
    var a, b := XamlTemplateName(t), XamlTemplateName(u);
    if |a| == |b| {
      // equal lengths only for the slider and the button
      assert a[0] != b[0];
    }
  }

  // ---------------------------------------------------------------- shadow margin

  datatype Margin = Margin(left: int, top: int, right: int, bottom: int)

  /** `Math.Ceiling` followed by the `(int)` cast. */
  function Ceiling(x: real): (c: int)
    ensures x <= c as real < x + 1.0
  {
    -((-x).Floor)
  }

  function Max(a: real, b: real): real {
    if a >= b then a else b
  }

  /** `CalcShadowMargin`: room for a shadow of spread 0.7·blur cast at 315° with offset 0.71·depth.
      Left and top are the least integer at or above max(spread − offset, 2); right and bottom
      the least integer at or above spread + offset. */
  function ShadowMargin(blur: real, depth: real): (m: Margin)
    ensures m.left == m.top && m.right == m.bottom
    ensures m.left >= 2
    ensures 0.7 * blur - 0.71 * depth <= m.left as real && 2.0 <= m.left as real
    ensures m.left as real < Max(0.7 * blur - 0.71 * depth, 2.0) + 1.0
    ensures 0.7 * blur + 0.71 * depth <= m.right as real < 0.7 * blur + 0.71 * depth + 1.0
  {
    var spread := blur * 0.7;
    var offset := depth * 0.71;
    var side := Ceiling(Max(spread - offset, 2.0));
    var far := Ceiling(spread + offset);
    Margin(side, side, far, far)
  }

  /** The `"left,top,right,bottom"` text. */
  function RenderMargin(m: Margin): string {
    Join([IntToString(m.left), IntToString(m.top), IntToString(m.right), IntToString(m.bottom)], ',')
  }

  /** Splitting the rendered margin at commas gives back the four numbers' texts. */
  lemma RenderMarginParts(m: Margin)
    ensures Split(RenderMargin(m), ',') == [IntToString(m.left), IntToString(m.top), IntToString(m.right), IntToString(m.bottom)]
  {
    var parts := [IntToString(m.left), IntToString(m.top), IntToString(m.right), IntToString(m.bottom)];
    forall i | 0 <= i < |parts| ensures ',' !in parts[i] {
      var p := parts[i];
      forall j | 0 <= j < |p| ensures p[j] != ',' {
        assert p[j] == '-' || '0' <= p[j] <= '9';
      }
    }
    JoinSplit(parts, ',');
  }

  /** Ceiling is monotone. */
  lemma CeilingMonotone(x: real, y: real)
    requires x <= y
    ensures Ceiling(x) <= Ceiling(y)
  {
  }

  /** Right and bottom never shrink when blur or depth grows. */
  lemma {:induction false} ShadowMarginMonotone(blur1: real, depth1: real, blur2: real, depth2: real)
    requires 0.0 <= blur1 <= blur2 && 0.0 <= depth1 <= depth2
    ensures ShadowMargin(blur1, depth1).right <= ShadowMargin(blur2, depth2).right
    ensures ShadowMargin(blur1, depth1).bottom <= ShadowMargin(blur2, depth2).bottom
  {
    CeilingMonotone(blur1 * 0.7 + depth1 * 0.71, blur2 * 0.7 + depth2 * 0.71);
  }

  /** The growth is not strict: a larger blur can give the same right margin. */
  lemma ShadowMarginNotStrict()
    ensures ShadowMargin(10.0, 4.0).right == ShadowMargin(10.1, 4.0).right == 10
  {
    assert 9.0 < 10.0 * 0.7 + 4.0 * 0.71 <= 10.0;
    assert 9.0 < 10.1 * 0.7 + 4.0 * 0.71 <= 10.0;
  }

  /** The default style (blur 10, depth 4) gets the margin "5,5,10,10". */
  lemma DefaultShadowMargin()
    ensures ShadowMargin(Defaults.shadowBlur, Defaults.shadowDepth) == Margin(5, 5, 10, 10)
    ensures RenderMargin(Margin(5, 5, 10, 10)) == "5,5,10,10"
  {
    assert 4.0 < Max(10.0 * 0.7 - 4.0 * 0.71, 2.0) <= 5.0;
    assert 9.0 < 10.0 * 0.7 + 4.0 * 0.71 <= 10.0;
    assert NatToString(10) == NatToString(1) + [DigitChar(0)];
  }

  // ---------------------------------------------------------------- style substitution

  /** The 23 placeholders, in the order `ApplyStyle` replaces them. */
  const Tokens: seq<string> := [
    "{{ControlBackground}}", "{{GradientStart}}", "{{GradientMid}}", "{{GradientEnd}}",
    "{{BorderColor}}", "{{BorderThickness}}", "{{CornerRadius}}", "{{ShadowBlur}}",
    "{{ShadowDepth}}", "{{ShadowColor}}", "{{ShadowOpacity}}", "{{ShadowMargin}}",
    "{{HighlightColor}}", "{{HighlightOpacity}}", "{{FontFamily}}", "{{FontSize}}",
    "{{FontColor}}", "{{CaretColor}}", "{{LabelColor}}", "{{LabelFontSize}}",
    "{{FocusBorderColor}}", "{{AccentColor}}", "{{CardPadding}}"]

  /** The replacement dictionary, in insertion order (the order `foreach` enumerates it). */
  function Replacements(s: Style, fmt: Formatter): seq<(string, string)> {
    [("{{ControlBackground}}", s.controlBackground),
     ("{{GradientStart}}", s.gradientStart),
     ("{{GradientMid}}", s.gradientMid),
     ("{{GradientEnd}}", s.gradientEnd),
     ("{{BorderColor}}", s.borderColor),
     ("{{BorderThickness}}", fmt.general(s.borderThickness)),
     ("{{CornerRadius}}", fmt.general(s.cornerRadius)),
     ("{{ShadowBlur}}", fmt.general(s.shadowBlur)),
     ("{{ShadowDepth}}", fmt.general(s.shadowDepth)),
     ("{{ShadowColor}}", s.shadowColor),
     ("{{ShadowOpacity}}", fmt.fixed2(s.shadowOpacity)),
     ("{{ShadowMargin}}", RenderMargin(ShadowMargin(s.shadowBlur, s.shadowDepth))),
     ("{{HighlightColor}}", s.highlightColor),
     ("{{HighlightOpacity}}", fmt.fixed2(s.highlightOpacity)),
     ("{{FontFamily}}", s.fontFamily),
     ("{{FontSize}}", fmt.general(s.fontSize)),
     ("{{FontColor}}", s.fontColor),
     ("{{CaretColor}}", s.caretColor),
     ("{{LabelColor}}", s.labelColor),
     ("{{LabelFontSize}}", fmt.general(s.labelFontSize)),
     ("{{FocusBorderColor}}", s.focusBorderColor),
     ("{{AccentColor}}", s.accentColor),
     ("{{CardPadding}}", s.cardPadding)]
  }

  /** The dictionary's keys are the 23 placeholders, pairwise distinct, each starting with '{'. */
  lemma ReplacementKeys(s: Style, fmt: Formatter)
    ensures |Replacements(s, fmt)| == |Tokens| == 23
    ensures forall i :: 0 <= i < 23 ==> Replacements(s, fmt)[i].0 == Tokens[i]
    ensures forall i :: 0 <= i < 23 ==> |Tokens[i]| > 2 && Tokens[i][0] == '{'
    ensures forall i, j :: 0 <= i < j < 23 ==> Tokens[i] != Tokens[j]
  {
    TokensDistinct();
  }

  /** No two placeholders are equal. */
  lemma TokensDistinct()
    ensures forall i, j :: 0 <= i < j < |Tokens| ==> Tokens[i] != Tokens[j]
  {
  }

  /** The placeholder of a string property. */
  function TextToken(p: TextProperty): string {
    match p
    case ControlBackground => "{{ControlBackground}}"
    case GradientStart => "{{GradientStart}}"
    case GradientMid => "{{GradientMid}}"
    case GradientEnd => "{{GradientEnd}}"
    case BorderColor => "{{BorderColor}}"
    case ShadowColor => "{{ShadowColor}}"
    case HighlightColor => "{{HighlightColor}}"
    case FontFamily => "{{FontFamily}}"
    case FontColor => "{{FontColor}}"
    case CaretColor => "{{CaretColor}}"
    case LabelColor => "{{LabelColor}}"
    case FocusBorderColor => "{{FocusBorderColor}}"
    case AccentColor => "{{AccentColor}}"
    case CardPadding => "{{CardPadding}}"
  }

  /** Every string property is substituted, unformatted, for its own placeholder, and the
      margin placeholder receives the rendered shadow margin. */
  lemma ReplacementValues(s: Style, fmt: Formatter)
    ensures Replacements(s, fmt)[11] == ("{{ShadowMargin}}", RenderMargin(ShadowMargin(s.shadowBlur, s.shadowDepth)))
    ensures forall p: TextProperty :: (TextToken(p), GetText(s, p)) in Replacements(s, fmt)
  {
    var r := Replacements(s, fmt);
    forall p: TextProperty ensures (TextToken(p), GetText(s, p)) in r {
      match p {
        case ControlBackground => assert r[0] == (TextToken(p), GetText(s, p));
        case GradientStart => assert r[1] == (TextToken(p), GetText(s, p));
        case GradientMid => assert r[2] == (TextToken(p), GetText(s, p));
        case GradientEnd => assert r[3] == (TextToken(p), GetText(s, p));
        case BorderColor => assert r[4] == (TextToken(p), GetText(s, p));
        case ShadowColor => assert r[9] == (TextToken(p), GetText(s, p));
        case HighlightColor => assert r[12] == (TextToken(p), GetText(s, p));
        case FontFamily => assert r[14] == (TextToken(p), GetText(s, p));
        case FontColor => assert r[16] == (TextToken(p), GetText(s, p));
        case CaretColor => assert r[17] == (TextToken(p), GetText(s, p));
        case LabelColor => assert r[18] == (TextToken(p), GetText(s, p));
        case FocusBorderColor => assert r[20] == (TextToken(p), GetText(s, p));
        case AccentColor => assert r[21] == (TextToken(p), GetText(s, p));
        case CardPadding => assert r[22] == (TextToken(p), GetText(s, p));
      }
    }
  }

  /** `ApplyStyle` as a function: the 23 replace-all steps in dictionary order. */
  function Styled(template: string, s: Style, fmt: Formatter): string {
    ReplacementKeys(s, fmt);
    ApplyAll(template, Replacements(s, fmt))
  }

  /** A template holding none of the placeholders is left as it is. */
  lemma {:induction false} StyledWithoutTokens(template: string, s: Style, fmt: Formatter)
    requires forall i :: 0 <= i < |Tokens| ==> !Contains(template, Tokens[i])
    ensures Styled(template, s, fmt) == template
  {
    ReplacementKeys(s, fmt);
    ApplyAllAbsent(template, Replacements(s, fmt));
  }

  /** A template that is exactly the background placeholder becomes the background value, when
      that value holds no '{' that a later placeholder could match. */
  lemma {:induction false} StyledBackground(s: Style, fmt: Formatter)
    requires '{' !in s.controlBackground
    ensures Styled(BackgroundToken, s, fmt) == s.controlBackground
  {
    var reps := Replacements(s, fmt);
    ReplacementKeys(s, fmt);
    ReplaceWhole(BackgroundToken, s.controlBackground);
    assert Replace(BackgroundToken, reps[0].0, reps[0].1) == s.controlBackground;
    var rest := reps[1..];
    forall i | 0 <= i < |rest| ensures !Contains(s.controlBackground, rest[i].0) {
      assert rest[i].0 == Tokens[i + 1];
      AbsentByFirstChar(s.controlBackground, rest[i].0, '{');
    }
    ApplyAllAbsent(s.controlBackground, rest);
  }

  // ---------------------------------------------------------------- XAML generation

  /** `GenerateXaml` as a function: the type's template, styled, then renamed. A missing
      template is the `FileNotFoundException` of `File.ReadAllText`. */
  function Xaml(dir: string, disk: map<string, string>, s: Style, name: string, t: ControlType, fmt: Formatter): Result<string> {
    var file := XamlTemplateName(t);
    if file !in disk then Err(FileNotFound(Combine(dir, file)))
    else Ok(Replace(Styled(disk[file], s, fmt), LegacyName, name))
  }

  /** Generation fails exactly when the type's template is missing, naming its path. */
  lemma XamlFailure(dir: string, disk: map<string, string>, s: Style, name: string, t: ControlType, fmt: Formatter)
    ensures Xaml(dir, disk, s, name, t, fmt).Err? <==> XamlTemplateName(t) !in disk
    ensures Xaml(dir, disk, s, name, t, fmt).Err? ==>
      Message(Xaml(dir, disk, s, name, t, fmt).fault) == "Could not find file '" + Combine(dir, XamlTemplateName(t)) + "'."
  {
  }

  /** A template without placeholders only gets the rename. */
  lemma XamlWithoutTokens(dir: string, disk: map<string, string>, s: Style, name: string, t: ControlType, fmt: Formatter)
    requires XamlTemplateName(t) in disk
    requires forall i :: 0 <= i < |Tokens| ==> !Contains(disk[XamlTemplateName(t)], Tokens[i])
    ensures Xaml(dir, disk, s, name, t, fmt) == Ok(Replace(disk[XamlTemplateName(t)], LegacyName, name))
  {
    StyledWithoutTokens(disk[XamlTemplateName(t)], s, fmt);
  }

  /** Styling comes before renaming: a `WpfTextInput` carried in by a style value is renamed too. */
  lemma StyleValuesAreRenamed(dir: string, disk: map<string, string>, s: Style, name: string, t: ControlType, fmt: Formatter)
    requires XamlTemplateName(t) in disk && disk[XamlTemplateName(t)] == BackgroundToken
    requires s.controlBackground == LegacyName
    ensures Xaml(dir, disk, s, name, t, fmt) == Ok(name)
  {
    StyledBackground(s, fmt);
    ReplaceWhole(LegacyName, name);
  }

  // ---------------------------------------------------------------- project files

  /** A copied source file gets only the rename and the background colour. */
  function Copied(content: string, name: string, background: string): string {
    ApplyAll(content, [(LegacyName, name), (BackgroundToken, background)])
  }

  /** The copies of those of `names` that exist in `disk`, written in list order. */
  function CopyFixed(disk: map<string, string>, names: seq<string>, name: string, background: string): map<string, string>
    decreases |names|
  {
    if names == [] then map[]
    else
      var earlier := CopyFixed(disk, names[..|names| - 1], name, background);
      var f := names[|names| - 1];
      if f in disk then earlier[f := Copied(disk[f], name, background)] else earlier
  }

  lemma {:induction false} CopyFixedContents(disk: map<string, string>, names: seq<string>, name: string, background: string)
    ensures CopyFixed(disk, names, name, background).Keys == set f | f in names && f in disk
    ensures forall f :: f in names && f in disk ==> CopyFixed(disk, names, name, background)[f] == Copied(disk[f], name, background)
    decreases |names|
  {
    if names != [] {
      var init := names[..|names| - 1];
      CopyFixedContents(disk, init, name, background);
      assert forall f :: f in names <==> f in init || f == names[|names| - 1];
    }
  }

  /** The rewrites that retarget the text-input project file at another control type: its
      code-behind, XAML and panel names become the type's own, and the Compile lines of the
      two files only the text input has are removed. */
  function TypeRewrites(t: ControlType): seq<(string, string)> {
    if t == TextInput then []
    else
      [(CodeBehindName(TextInput), CodeBehindName(t)),
       (XamlFileName(TextInput), XamlFileName(t)),
       (HostCompileLine, ""),
       (PanelFileName(TextInput), PanelFileName(t)),
       (ArgsCompileLine, "")]
  }

  /** Every retargeting step searches for a non-empty text. */
  lemma TypeRewritesSearch(t: ControlType)
    ensures |TypeRewrites(t)| == if t == TextInput then 0 else 5
    ensures forall i :: 0 <= i < |TypeRewrites(t)| ==> |TypeRewrites(t)[i].0| > 0
  {
  }

  /** The retargeting chain written out as the five replace-alls it performs. */
  lemma RetargetSteps(text: string, t: ControlType)
    requires t != TextInput
    ensures forall i :: 0 <= i < |TypeRewrites(t)| ==> |TypeRewrites(t)[i].0| > 0
    ensures ApplyAll(text, TypeRewrites(t)) ==
      var c1 := Replace(text, "TextInputControl.xaml.cs", ControlBaseName(t) + ".xaml.cs");
      var c2 := Replace(c1, "TextInputControl.xaml", ControlBaseName(t) + ".xaml");
      var c3 := Replace(c2, HostCompileLine, "");
      var c4 := Replace(c3, "TextInputPanel.cs", PanelFileName(t));
      Replace(c4, ArgsCompileLine, "")
  {
    var steps := TypeRewrites(t);
    TextInputNames();
    TypeRewritesSearch(t);
    assert steps[..0] == [] && steps[..5] == steps;
    ApplyAllPrefix(text, steps, 0);
    ApplyAllPrefix(text, steps, 1);
    ApplyAllPrefix(text, steps, 2);
    ApplyAllPrefix(text, steps, 3);
    ApplyAllPrefix(text, steps, 4);
  }

  /** The project GUID as `"{" + guid.ToString().ToUpper() + "}"`. */
  function GuidText(g: Guid): (r: string)
    ensures |r| == 38 && r[0] == '{' && r[37] == '}'
    ensures forall i :: 1 <= i < 37 ==> !('a' <= r[i] <= 'z')
  {
    "{" + Upper(FormatD(g)) + "}"
  }

  function CsprojRewrites(t: ControlType, name: string, g: Guid): seq<(string, string)> {
    TypeRewrites(t) +
    [(RootNamespaceLine, "<RootNamespace>" + name + "</RootNamespace>"),
     (AssemblyNameLine, "<AssemblyName>" + name + "</AssemblyName>"),
     (GuidPlaceholder, GuidText(g))]
  }

  /** Every rewrite searches for a non-empty text. */
  lemma RewritesWellFormed(t: ControlType, name: string, g: Guid)
    ensures |CsprojRewrites(t, name, g)| == if t == TextInput then 3 else 8
    ensures forall i :: 0 <= i < |CsprojRewrites(t, name, g)| ==> |CsprojRewrites(t, name, g)[i].0| > 0
  {
  }

  /** After retargeting, the project file names exactly the files generation writes: the
      renamed entries are among them, and the removed Compile lines are for files the type
      does not copy. */
  lemma ManifestMatchesFiles(t: ControlType)
    requires t != TextInput
    ensures var r := TypeRewrites(t);
      && r[0].1 in FixedFiles(t) && r[1].1 == XamlFileName(t) && r[3].1 in FixedFiles(t)
      && r[0].0 in FixedFiles(TextInput) && r[1].0 == XamlFileName(TextInput) && r[3].0 in FixedFiles(TextInput)
      && r[2] == ("<Compile Include=\"" + HostFile + "\" />", "") && HostFile !in FixedFiles(t)
      && r[4] == ("<Compile Include=\"" + ArgsFile + "\" />", "") && ArgsFile !in FixedFiles(t)
  {
    FixedFileList(t);
  }

  function Csproj(text: string, t: ControlType, name: string, g: Guid): string {
    RewritesWellFormed(t, name, g);
    ApplyAll(text, CsprojRewrites(t, name, g))
  }

  function ProjectName(name: string): string {
    name + ".csproj"
  }

  /** The files `GenerateProject` writes, by name, when the type's template exists. */
  function ProjectFiles(disk: map<string, string>, s: Style, name: string, t: ControlType, fmt: Formatter, g: Guid): map<string, string>
    requires XamlTemplateName(t) in disk
  {
    var xaml := Replace(Styled(disk[XamlTemplateName(t)], s, fmt), LegacyName, name);
    var written := map[XamlFileName(t) := xaml] + CopyFixed(disk, FixedFiles(t), name, s.controlBackground);
    if CsprojTemplate in disk then written[ProjectName(name) := Csproj(disk[CsprojTemplate], t, name, g)]
    else written
  }

  /** The project file's name ends in 'j', so it is never a source or XAML file's name. */
  lemma ProjectNameIsNew(name: string, t: ControlType)
    ensures ProjectName(name) != XamlFileName(t) && ProjectName(name) !in FixedFiles(t)
  {
    var p := ProjectName(name);
    assert p[|p| - 1] == 'j';
  }

  /** What the generated directory holds: the XAML under the type's name, a copy of each of
      the type's fixed files that exists in the template directory, and the project file
      named after the control exactly when the project template exists. */
  lemma ProjectContents(dir: string, disk: map<string, string>, s: Style, name: string, t: ControlType, fmt: Formatter, g: Guid)
    requires XamlTemplateName(t) in disk
    ensures var files := ProjectFiles(disk, s, name, t, fmt, g);
      && files.Keys == {XamlFileName(t)} + (set f | f in FixedFiles(t) && f in disk)
                       + (if CsprojTemplate in disk then {ProjectName(name)} else {})
      && Ok(files[XamlFileName(t)]) == Xaml(dir, disk, s, name, t, fmt)
      && (forall f :: f in FixedFiles(t) && f in disk ==> files[f] == Copied(disk[f], name, s.controlBackground))
      && (CsprojTemplate in disk ==> files[ProjectName(name)] == Csproj(disk[CsprojTemplate], t, name, g))
  {
    var copies := CopyFixed(disk, FixedFiles(t), name, s.controlBackground);
    CopyFixedContents(disk, FixedFiles(t), name, s.controlBackground);
    FixedFileList(t);
    ProjectNameIsNew(name, t);
    var proj := if CsprojTemplate in disk then Csproj(disk[CsprojTemplate], t, name, g) else [];
    DirectoryLayout(XamlFileName(t), Replace(Styled(disk[XamlTemplateName(t)], s, fmt), LegacyName, name),
                    copies, ProjectName(name), proj, CsprojTemplate in disk);
  }

  /** The XAML file, then the copies, then possibly the project file, under distinct names. */
  lemma DirectoryLayout(xamlName: string, xaml: string, copies: map<string, string>,
                        projName: string, proj: string, withProject: bool)
    requires xamlName !in copies && projName != xamlName && projName !in copies
    ensures var written := map[xamlName := xaml] + copies;
      var files := if withProject then written[projName := proj] else written;
      && files.Keys == {xamlName} + copies.Keys + (if withProject then {projName} else {})
      && files[xamlName] == xaml
      && (forall f :: f in copies ==> files[f] == copies[f])
      && (withProject ==> files[projName] == proj)
  {
  }

  /** `ProjectFiles` spelled out for the steps `GenerateProject` takes. */
  lemma ProjectFilesUnfold(disk: map<string, string>, s: Style, name: string, t: ControlType, fmt: Formatter, g: Guid)
    requires XamlTemplateName(t) in disk
    ensures var written := map[XamlFileName(t) := Replace(Styled(disk[XamlTemplateName(t)], s, fmt), LegacyName, name)]
                           + CopyFixed(disk, FixedFiles(t), name, s.controlBackground);
      ProjectFiles(disk, s, name, t, fmt, g) ==
        if CsprojTemplate in disk then written[ProjectName(name) := Csproj(disk[CsprojTemplate], t, name, g)] else written
  {
  }

  lemma UpdateThenUnion(a: map<string, string>, k: string, v: string, b: map<string, string>)
    ensures a[k := v] + b == a + (map[k := v] + b)
  {
  }

  lemma UnionThenUpdate(a: map<string, string>, b: map<string, string>, k: string, v: string)
    ensures (a + b)[k := v] == a + b[k := v]
  {
  }

  /** The directory a project is written into. */
  class Folder {
    const path: string
    var files: map<string, string>

    constructor (path: string)
      ensures this.path == path && files == map[]
    {
      this.path := path;
      files := map[];
    }
  }

  class TemplateEngine {
    const templateDir: string

    constructor (templateDir: string)
      ensures this.templateDir == templateDir
    {
      this.templateDir := templateDir;
    }

    /** `ApplyStyle`: replace every placeholder by the style's value, in dictionary order. */
    method ApplyStyle(template: string, style: ControlStyle, fmt: Formatter) returns (result: string)
      ensures result == Styled(template, style.Snapshot(), fmt)
    {
      var replacements := Replacements(style.Snapshot(), fmt);
      ReplacementKeys(style.Snapshot(), fmt);
      result := template;
      for i := 0 to |replacements|
        invariant ApplyAll(result, replacements[i..]) == ApplyAll(template, replacements)
      {
        assert replacements[i..][1..] == replacements[i + 1..];
        result := Replace(result, replacements[i].0, replacements[i].1);
      }
    }

    /** `GenerateXaml`: read the type's template from `disk` (the template directory), style it,
        then rename `WpfTextInput` to the control's name. */
    method GenerateXaml(style: ControlStyle, controlName: string, t: ControlType, disk: map<string, string>, fmt: Formatter)
      returns (r: Result<string>)
      ensures r == Xaml(templateDir, disk, style.Snapshot(), controlName, t, fmt)
    {
      var templateFileName := XamlTemplateName(t);
      if templateFileName !in disk {
        return Err(FileNotFound(Combine(templateDir, templateFileName)));
      }
      var xaml := ApplyStyle(disk[templateFileName], style, fmt);
      xaml := Replace(xaml, LegacyName, controlName);
      return Ok(xaml);
    }

    /** `GenerateProject`: write the XAML, the type's fixed files found in `disk` and the
        rewritten project file into `output`. `guid` is the value `Guid.NewGuid` returns.
        When the XAML template is missing nothing is written and the fault is returned. */
    method GenerateProject(style: ControlStyle, output: Folder, controlName: string, t: ControlType,
                           disk: map<string, string>, fmt: Formatter, guid: Guid)
      returns (fault: Option<Fault>)
      modifies output
      ensures fault.Some? <==> XamlTemplateName(t) !in disk
      ensures fault.Some? ==> Xaml(templateDir, disk, style.Snapshot(), controlName, t, fmt) == Err(fault.value)
      ensures fault.Some? ==> output.files == old(output.files)
      ensures fault.None? ==> output.files == old(output.files) + ProjectFiles(disk, style.Snapshot(), controlName, t, fmt, guid)
    {
      ghost var snap := style.Snapshot();
      var xaml := GenerateXaml(style, controlName, t, disk, fmt);
      if xaml.Err? {
        return Some(xaml.fault);
      }
      var xamlFileName := XamlFileName(t);
      var background := style.controlBackground;
      output.files := output.files[xamlFileName := xaml.value];
      CopySources(output, FixedFiles(t), controlName, background, disk);
      ghost var copies := CopyFixed(disk, FixedFiles(t), controlName, background);
      ghost var written := map[xamlFileName := xaml.value] + copies;
      UpdateThenUnion(old(output.files), xamlFileName, xaml.value, copies);
      if CsprojTemplate in disk {
        var csproj := RewriteCsproj(disk[CsprojTemplate], t, controlName, guid);
        UnionThenUpdate(old(output.files), written, ProjectName(controlName), csproj);
        output.files := output.files[ProjectName(controlName) := csproj];
      }
      ProjectFilesUnfold(disk, snap, controlName, t, fmt, guid);
      return None;
    }

    /** The loop over the fixed files: each one present in `disk` is copied with the rename
        and the background colour filled in; missing ones are skipped. */
    method CopySources(output: Folder, fixedFiles: seq<string>, controlName: string, background: string,
                       disk: map<string, string>)
      modifies output
      ensures output.files == old(output.files) + CopyFixed(disk, fixedFiles, controlName, background)
    {
      for i := 0 to |fixedFiles|
        invariant output.files == old(output.files) + CopyFixed(disk, fixedFiles[..i], controlName, background)
      {
        var file := fixedFiles[i];
        ghost var earlier := CopyFixed(disk, fixedFiles[..i], controlName, background);
        assert fixedFiles[..i + 1][..i] == fixedFiles[..i] && fixedFiles[..i + 1][i] == file;
        if file in disk {
          var content := disk[file];
          content := Replace(content, LegacyName, controlName);
          content := Replace(content, BackgroundToken, background);
          ApplyTwo(disk[file], (LegacyName, controlName), (BackgroundToken, background));
          assert (old(output.files) + earlier)[file := content] == old(output.files) + earlier[file := content];
          output.files := output.files[file := content];
        }
      }
      assert fixedFiles[..|fixedFiles|] == fixedFiles;
    }

    /** The chain of project-file rewrites: the type's retargeting, then the namespace, the
        assembly name and the project GUID. */
    method RewriteCsproj(text: string, t: ControlType, controlName: string, guid: Guid) returns (csproj: string)
      ensures csproj == Csproj(text, t, controlName, guid)
    {
      csproj := RetargetCsproj(text, t);
      ghost var tail := [(RootNamespaceLine, "<RootNamespace>" + controlName + "</RootNamespace>"),
                         (AssemblyNameLine, "<AssemblyName>" + controlName + "</AssemblyName>"),
                         (GuidPlaceholder, GuidText(guid))];
      ghost var retargeted := csproj;
      csproj := Replace(csproj, RootNamespaceLine, "<RootNamespace>" + controlName + "</RootNamespace>");
      ApplyAllPrefix(retargeted, tail, 0);
      csproj := Replace(csproj, AssemblyNameLine, "<AssemblyName>" + controlName + "</AssemblyName>");
      ApplyAllPrefix(retargeted, tail, 1);
      csproj := Replace(csproj, GuidPlaceholder, "{" + Upper(FormatD(guid)) + "}");
      ApplyAllPrefix(retargeted, tail, 2);
      assert tail[..0] == [] && tail[..3] == tail;
      RewritesWellFormed(t, controlName, guid);
      ApplyAllAppend(text, TypeRewrites(t), tail);
    }

    /** The per-type branch of the project-file rewrite; the text input's file is kept. */
    method RetargetCsproj(text: string, t: ControlType) returns (csproj: string)
      ensures csproj == ApplyAll(text, TypeRewrites(t))
    {
      csproj := text;
      if t != TextInput {
        var base := ControlBaseName(t);
        csproj := Replace(csproj, "TextInputControl.xaml.cs", base + ".xaml.cs");
        csproj := Replace(csproj, "TextInputControl.xaml", base + ".xaml");
        csproj := Replace(csproj, HostCompileLine, "");
        csproj := Replace(csproj, "TextInputPanel.cs", PanelFileName(t));
        csproj := Replace(csproj, ArgsCompileLine, "");
        RetargetSteps(text, t);
      }
    }
  }
}
