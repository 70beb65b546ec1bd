# LabVIEW WPF UI Generator — a verified model of its core

The designer application lets a user style a WPF control, then exports it as a .NET control
library that LabVIEW can load. This project models the parts of that pipeline that decide what
gets written and what the user is told, and it proves properties about them. It also models
the small state machines of the exported controls.

- **Control style** (`Styles`). `ControlStyle` is a class with 22 stored properties and their
  defaults. It has a change-detecting setter that raises `PropertyChanged` only on a real change,
  and a `Clone` that copies every field.
- **Template engine** (`Templates`). It picks the XAML template of each `ControlType` and fills
  in the 23 `{{Token}}` placeholders by sequential replace-all. It then renames `WpfTextInput` to
  the control's name and computes the derived shadow margin. Finally it writes the project
  directory: the XAML, the per-type fixed files and the rewritten `.csproj`.
- **Export** (`Exporter`). It covers the temporary directory name, the MSBuild command line and
  the success/failure decision after the build. It also covers the compiler-error excerpt, the
  rule that keeps the temp dir on failure, and the order in which toolchain locations are probed.
- **Designer window helpers** (`Designer`, `SimpleJson`):
  - the export-name check and the automatic rename on a tab switch;
  - `ParseThickness`, the panel type name and the companion `.style.txt`/`.style.json` paths;
  - the naive preset scanner `SimpleJsonParser`, which splits on brace depth and then looks
    keys up.
- **Exported controls** (`Button`, `TextInput`, `ColorPicker`):
  - the button's five action behaviours on press, release and leave, and its depth targets;
  - the text box's `ValueChanged` change detection;
  - the colour picker's hex normalisation, swatch palettes and `SelectedColor` state.

The file system is modelled as maps from file name to file text. The external build is modelled
as an input record: exit code, stdout, stderr and whether the DLL was produced. `Guid.NewGuid`,
`double.ToString`, `double.TryParse` and the WPF `ColorConverter` are parameters. Doubles are
modelled as `real`. .NET string operations are modelled in `Strings`, ordinal and over
`seq<char>`, and path and GUID formatting in `Platform`.

Two behaviours of the code that are easy to misread:
- The right/bottom shadow margin is only non-decreasing in blur and depth, not strictly growing,
  because the code takes a ceiling. `Templates.ShadowMarginNotStrict` exhibits equal margins for
  blur 10 and 10.1.
- The stdout fallback of a failed build is cut to 500 characters only when stdout is longer than
  that and contains `"error "`; otherwise the whole stdout is kept.

## Model

| member | source | states |
|---|---|---|
| Templates.FixedFiles | ControlDesigner/Services/TemplateEngine.cs:56-85 | the body is the model: the type's code-behind and panel files, plus `TextInputHost.cs` and `ValueChangedEventArgs.cs` for TextInput, in write order; `FixedFileList` states its properties |
| Templates.FixedFileList | ControlDesigner/Services/TemplateEngine.cs:56-85 | TextInput writes four distinct fixed files including `TextInputHost.cs` and `ValueChangedEventArgs.cs`; every other type writes exactly two, neither of them; the XAML name is never among them |
| Templates.TextInputNames | ControlDesigner/Services/TemplateEngine.cs:75-83 | the TextInput code-behind and XAML are `TextInputControl.xaml.cs` and `TextInputControl.xaml` |
| Templates.XamlTemplateName | ControlDesigner/Services/TemplateEngine.cs:26-34 | the body is the model: `<Type>Control.xaml.template` for each type, TextInput being the default branch; `TemplatesDistinct` states its property |
| Templates.TemplatesDistinct | ControlDesigner/Services/TemplateEngine.cs:26-34 | different control types read different XAML templates |
| Templates.Ceiling | ControlDesigner/Services/TemplateEngine.cs:199-202 | `Math.Ceiling`: the least integer not below x |
| Templates.ShadowMargin | ControlDesigner/Services/TemplateEngine.cs:192-205 | left == top and right == bottom; left is ceil(max(0.7·blur − 0.71·depth, 2)), so at least 2; right is ceil(0.7·blur + 0.71·depth) |
| Templates.RenderMarginParts | ControlDesigner/Services/TemplateEngine.cs:204 | the rendered margin splits on commas into exactly the four numbers, in order l,t,r,b |
| Templates.CeilingMonotone | ControlDesigner/Services/TemplateEngine.cs:201-202 | the ceiling is monotone |
| Templates.ShadowMarginMonotone | ControlDesigner/Services/TemplateEngine.cs:195-202 | for non-negative inputs, right and bottom are non-decreasing in blur and depth |
| Templates.ShadowMarginNotStrict | ControlDesigner/Services/TemplateEngine.cs:201-202 | the growth is not strict: blur 10 and 10.1 at depth 4 give the same right margin 10 |
| Templates.DefaultShadowMargin | ControlDesigner/Services/TemplateEngine.cs:192-205 | the default style (blur 10, depth 4) renders its margin as `5,5,10,10` |
| Templates.Replacements | ControlDesigner/Services/TemplateEngine.cs:153-178 | the body is the model: the 23 token/value pairs in insertion order, numbers rendered by the formatter and the margin by `RenderMargin`; `ReplacementKeys` and `ReplacementValues` state its properties |
| Templates.ReplacementKeys | ControlDesigner/Services/TemplateEngine.cs:153-178 | there are 23 replacements, in declaration order, over pairwise-distinct `{{…}}` keys |
| Templates.ReplacementValues | ControlDesigner/Services/TemplateEngine.cs:155-177 | `{{ShadowMargin}}` is the rendered derived margin, and every text property's token is replaced by that property's value |
| Templates.StyledWithoutTokens | ControlDesigner/Services/TemplateEngine.cs:180-185 | a template containing none of the 23 keys comes back unchanged |
| Templates.StyledBackground | ControlDesigner/Services/TemplateEngine.cs:155-185 | the background token alone becomes the style's background (when that value opens no further token) |
| Templates.Xaml | ControlDesigner/Services/TemplateEngine.cs:23-42 | the body is the model: a missing template is the file-not-found fault naming the combined path; otherwise the template is styled, then `WpfTextInput` is renamed; `XamlFailure`, `XamlWithoutTokens` and `StyleValuesAreRenamed` state its properties, and `GenerateXaml` is proved equal to it |
| Templates.XamlFailure | ControlDesigner/Services/TemplateEngine.cs:36-37 | generation fails exactly when the type's template is missing, with the `Could not find file` message naming the combined path |
| Templates.XamlWithoutTokens | ControlDesigner/Services/TemplateEngine.cs:37-41 | without tokens, the XAML is the template with `WpfTextInput` renamed to the control name |
| Templates.StyleValuesAreRenamed | ControlDesigner/Services/TemplateEngine.cs:38-40 | styling happens before the rename, so a style value `WpfTextInput` is renamed too |
| Templates.CopyFixed | ControlDesigner/Services/TemplateEngine.cs:89-99 | the body is the model: the listed files present in the template directory, each renamed and then background-substituted, in list order; `CopyFixedContents` states its properties |
| Templates.CopyFixedContents | ControlDesigner/Services/TemplateEngine.cs:89-99 | exactly the fixed files present in the template dir are written, each with only the rename and the background substitution |
| Templates.RetargetSteps | ControlDesigner/Services/TemplateEngine.cs:107-138 | for a non-TextInput type the csproj rewrite is the five replacements in source order, each with a non-empty key |
| Templates.GuidText | ControlDesigner/Services/TemplateEngine.cs:145-146 | the fresh GUID is 38 characters in braces with no lower-case letter |
| Templates.CsprojRewrites | ControlDesigner/Services/TemplateEngine.cs:107-146 | the body is the model: the per-type retargeting steps, then the RootNamespace, AssemblyName and GUID rewrites; `RewritesWellFormed`, `RetargetSteps` and `ManifestMatchesFiles` state its properties |
| Templates.Csproj | ControlDesigner/Services/TemplateEngine.cs:105-146 | the body is the model: the rewrites of `CsprojRewrites` applied to the template text as sequential replace-alls; `RewriteCsproj` is proved equal to it |
| Templates.RewritesWellFormed | ControlDesigner/Services/TemplateEngine.cs:107-146 | the csproj rewrite has 3 steps for TextInput and 8 otherwise, all with non-empty keys |
| Templates.ManifestMatchesFiles | ControlDesigner/Services/TemplateEngine.cs:107-138 | the csproj renames map TextInput's files onto the type's own fixed files, and the removed Compile lines are exactly the files the type does not write |
| Templates.ProjectNameIsNew | ControlDesigner/Services/TemplateEngine.cs:147 | `<name>.csproj` never collides with the XAML or a fixed file |
| Templates.ProjectContents | ControlDesigner/Services/TemplateEngine.cs:47-148 | the project holds the XAML under its canonical name, the present fixed files copied, and `<name>.csproj` exactly when `Template.csproj` exists |
| Templates.ProjectFilesUnfold | ControlDesigner/Services/TemplateEngine.cs:87-147 | the written directory is the XAML, then the copied files, then the csproj, in write order |
| Templates.Folder.constructor | ControlDesigner/Services/TemplateEngine.cs:49 | an output directory starts empty |
| Templates.TemplateEngine.constructor | ControlDesigner/Services/TemplateEngine.cs:15-18 | the engine remembers its template directory |
| Templates.TemplateEngine.ApplyStyle | ControlDesigner/Services/TemplateEngine.cs:151-186 | the replace-all loop computes the sequential substitution of the style's 23 values |
| Templates.TemplateEngine.GenerateXaml | ControlDesigner/Services/TemplateEngine.cs:23-42 | the XAML of the type's template, styled then renamed, or the file-not-found fault |
| Templates.TemplateEngine.GenerateProject | ControlDesigner/Services/TemplateEngine.cs:47-149 | fails, writing nothing, exactly when the XAML template is missing; otherwise adds exactly the project files to the output directory |
| Templates.TemplateEngine.CopySources | ControlDesigner/Services/TemplateEngine.cs:89-99 | the loop over fixed files writes exactly the copied present files |
| Templates.TemplateEngine.RewriteCsproj | ControlDesigner/Services/TemplateEngine.cs:105-146 | the chain of reassignments yields the specified csproj rewrite |
| Templates.TemplateEngine.RetargetCsproj | ControlDesigner/Services/TemplateEngine.cs:107-138 | the per-type branch applies the type's five rewrites in order |
| Exporter.TempDirName | ControlDesigner/Services/DllExporter.cs:36-37 | `LvControlExport_` followed by 8 lower-case hex characters |
| Exporter.Arguments | ControlDesigner/Services/DllExporter.cs:45 | the quoted project path, a space, then `/p:Configuration=Release /verbosity:minimal /t:Rebuild` |
| Exporter.ErrorExcerpt | ControlDesigner/Services/DllExporter.cs:81-94 | non-blank stderr verbatim; else stdout, cut to min(500, rest) characters from the first `"error "` only when stdout is longer than 500 and has the marker |
| Exporter.ExcerptBounded | ControlDesigner/Services/DllExporter.cs:85-92 | when the marker is present the excerpt never exceeds 500 characters |
| Exporter.FindMsBuild | ControlDesigner/Services/DllExporter.cs:116-133 | the first existing candidate in list order, or `MSBuild.exe` exactly when none exists |
| Exporter.DllExporter.constructor | ControlDesigner/Services/DllExporter.cs:16-20 | the toolchain path is probed once, with the same result as `FindMsBuild`: the first existing candidate in list order, or the fallback exactly when none exists |
| Exporter.DllExporter.Export | ControlDesigner/Services/DllExporter.cs:29-114 | success iff the template exists, the exit code is 0 and the DLL was built; on success the result names the output path and control and the temp dir is removed; otherwise an error message is set and the generated files are kept; a missing template yields the exception message |
| Exporter.BuildOutcome | ControlDesigner/Services/DllExporter.cs:60-106 | the body is the model: a launch failure gives the exception's message; a non-zero exit gives the build-failed message with the excerpt and the kept temp dir; a missing DLL gives its message with the kept temp dir; an exception from the copy gives its message alone; otherwise success with the DLL path and the control name; `BuildOutcomeShape` and `FailureNamesKeptSources` state its properties, and `RunBuild` is proved equal to it |
| Exporter.BuildOutcomeShape | ControlDesigner/Services/DllExporter.cs:60-106 | success iff exit 0 and the DLL exists; success iff there is no error message; DllPath and ControlName are set only on success |
| Exporter.EndsWithAppended | ControlDesigner/Services/DllExporter.cs:105 | appending the kept-dir note leaves the message ending with it |
| Exporter.FailureNamesKeptSources | ControlDesigner/Services/DllExporter.cs:74-106 | every build failure's message ends with the `[调试]` note naming the temp dir |
| Exporter.RunBuild | ControlDesigner/Services/DllExporter.cs:60-106 | the branches filling the result field by field give the specified outcome |
| Exporter.CompilerErrors | ControlDesigner/Services/DllExporter.cs:81-94 | the reassignments of `errStr` give the specified excerpt |
| Styles.SameProperties | ControlDesigner/Models/ControlStyle.cs:25-96 | two styles agreeing on every property are equal: the properties cover the whole record |
| Styles.WithTextFrame | ControlDesigner/Models/ControlStyle.cs:26-96 | a text setter stores its value and leaves every other property unchanged |
| Styles.WithNumberFrame | ControlDesigner/Models/ControlStyle.cs:42-85 | a number setter stores its value and leaves every other property unchanged |
| Styles.WithTextSame | ControlDesigner/Models/ControlStyle.cs:18 | writing a text property's current value changes nothing |
| Styles.WithNumberSame | ControlDesigner/Models/ControlStyle.cs:18 | writing a number property's current value changes nothing |
| Styles.ControlStyle.constructor | ControlDesigner/Models/ControlStyle.cs:25-96 | a new style holds the stated defaults and has raised nothing |
| Styles.ControlStyle.Copy | ControlDesigner/Models/ControlStyle.cs:101-104 | a member-wise copy with the same properties and no listeners' history |
| Styles.ControlStyle.SetText | ControlDesigner/Models/ControlStyle.cs:16-22 | returns true iff the value differs; stores it; raises `PropertyChanged` once with the property's name on a change and never otherwise |
| Styles.ControlStyle.SetNumber | ControlDesigner/Models/ControlStyle.cs:16-22 | the same for a number property |
| Styles.ControlStyle.StoreText | ControlDesigner/Models/ControlStyle.cs:19 | writes exactly the named backing field |
| Styles.ControlStyle.StoreSurfaceText | ControlDesigner/Models/ControlStyle.cs:25-62 | writes exactly the named backing field |
| Styles.ControlStyle.StoreTypeText | ControlDesigner/Models/ControlStyle.cs:68-96 | writes exactly the named backing field |
| Styles.ControlStyle.StoreNumber | ControlDesigner/Models/ControlStyle.cs:41-85 | writes exactly the named backing field |
| Styles.ControlStyle.Clone | ControlDesigner/Models/ControlStyle.cs:101-104 | a fresh object with every field equal to the original |
| Styles.ExportSnapshot | ControlDesigner/Models/ControlStyle.cs:101-104 | a clone taken before an edit keeps the old values while the original takes the edit |
| Designer.CheckControlName | ControlDesigner/MainWindow.xaml.cs:858-872 | empty iff the trimmed name is empty; accepted iff the trimmed name matches `^[A-Za-z_][A-Za-z0-9_]*$`, and then the accepted name is the trimmed one |
| Designer.CheckIgnoresBlanks | ControlDesigner/MainWindow.xaml.cs:858 | surrounding white space never changes the verdict |
| Designer.CheckBareName | ControlDesigner/MainWindow.xaml.cs:858-872 | a non-empty name without surrounding blanks is accepted iff it is an identifier |
| Designer.AcceptsIdentifier | ControlDesigner/MainWindow.xaml.cs:866 | `MySlider1` is accepted |
| Designer.RejectsLeadingDigit | ControlDesigner/MainWindow.xaml.cs:866 | `1Slider` is rejected |
| Designer.RejectsInnerBlank | ControlDesigner/MainWindow.xaml.cs:866 | `My Slider` is rejected |
| Designer.RejectsBlank | ControlDesigner/MainWindow.xaml.cs:859 | an empty or all-blank name is reported as empty |
| Designer.IsDefaultText | ControlDesigner/MainWindow.xaml.cs:765-772 | the body is the model: the trimmed name is empty, starts with `My`, or is `TextInput`, `NumericDisplay`, `ComboBox` or `Slider` |
| Designer.Renames | ControlDesigner/MainWindow.xaml.cs:774-798 | the body is the model: a default text, or `Button` on the Button tab; `NextName` renames exactly when it holds |
| Designer.TabType | ControlDesigner/MainWindow.xaml.cs:774-798 | each tab selects its own control type, one to one |
| Designer.NextName | ControlDesigner/MainWindow.xaml.cs:765-798 | the name is replaced by the tab's `My…` name if and only if the trimmed name is a default text (with `Button` on the Button tab), and kept as it is otherwise |
| Designer.AutoNameRenamed | ControlDesigner/MainWindow.xaml.cs:767-772 | every proposed `My…` name is itself a default text on every tab |
| Designer.AutoNamesAccepted | ControlDesigner/MainWindow.xaml.cs:777-797 | every automatic name passes the export-name check |
| Designer.AutoNameFollowsTabs | ControlDesigner/MainWindow.xaml.cs:765-798 | once a name was set automatically, every later tab switch renames it again |
| Designer.UserNameKept | ControlDesigner/MainWindow.xaml.cs:765-798 | any non-empty trimmed name not starting with `My` and not a bare kind name is kept, valid identifier or not; `Button` counts as a kind name on the Button tab only |
| Designer.ButtonKeptOffButtonTab | ControlDesigner/MainWindow.xaml.cs:765-798 | `Button` is replaced by `MyButton` on the Button tab and kept on the other four |
| Designer.InvalidNameKept | ControlDesigner/MainWindow.xaml.cs:765-798 | `1abc`, which the export check refuses, is still kept by every tab switch |
| Designer.MainWindow.constructor | ControlDesigner/MainWindow.xaml.cs:23-37 | the window starts on TextInput with updates enabled |
| Designer.MainWindow.NavigationChecked | ControlDesigner/MainWindow.xaml.cs:761-798 | does nothing while updates are suppressed; otherwise sets the tab's type and the rename rule's name |
| Designer.ParseThickness | ControlDesigner/MainWindow.xaml.cs:1086-1098 | no comma: the uniform thickness of the parsed text, or (12,8,12,6) if it does not parse; three commas: the four parsed parts as left, top, right, bottom, or (12,8,12,6) if any part fails; any other comma count: (12,8,12,6) |
| Designer.NumeralHasNoComma | ControlDesigner/MainWindow.xaml.cs:1090 | a rendered number never contains the separator |
| Designer.SplitFour | ControlDesigner/MainWindow.xaml.cs:1090-1092 | four comma-free parts joined by commas split back into those four |
| Designer.PaddingRoundTrip | ControlDesigner/MainWindow.xaml.cs:1090-1092 | `"l,t,r,b"` with natural numbers parses back to exactly (l,t,r,b) |
| Designer.UniformPadding | ControlDesigner/MainWindow.xaml.cs:1093-1094 | a single number parses to a uniform thickness |
| Designer.PanelTypeName | ControlDesigner/MainWindow.xaml.cs:906-911 | the body is the model: the panel class of each type, `ButtonPanel` being the last branch; `PanelNameMatchesSource` states its property |
| Designer.PanelNameMatchesSource | ControlDesigner/MainWindow.xaml.cs:906-911 | the panel type named for loading is the class of the panel file written for that type, `ButtonPanel` being the fallback |
| Designer.ExtensionDot | ControlDesigner/MainWindow.xaml.cs:996 | the extension starts at the last dot after the last separator; -1 exactly when every dot is followed by a separator or a drive colon |
| Designer.ChangeExtension | ControlDesigner/MainWindow.xaml.cs:996 | an empty path stays empty; otherwise the result is the path cut at the last dot of its last segment (or the whole path when that segment has no dot), followed by the new extension |
| Designer.CompanionFiles | ControlDesigner/MainWindow.xaml.cs:996-1021 | for a non-empty path, the two files end in `.style.txt` and `.style.json` over the same stem and are distinct; an empty path gives two empty paths |
| Designer.CompanionsOfDll | ControlDesigner/MainWindow.xaml.cs:996-1021 | the companions of `x.dll` are `x.style.txt` and `x.style.json`, distinct from each other and from the DLL |
| SimpleJson.Blocks | ControlDesigner/MainWindow.xaml.cs:1177-1188 | the body is the model: the objects closed so far, each from a `{` met at depth 0 to the `}` that brings the depth back to 0, a stray `}` only lowering the depth; `BlocksAreBraced`, `BlocksConcat` and `ObjectsRoundTrip` state its properties, and `SplitObjects` is proved equal to it |
| SimpleJson.LastTopOpen | ControlDesigner/MainWindow.xaml.cs:1184 | the remembered `start` is a `{` opened at depth 0, or −1 |
| SimpleJson.BlocksAreBraced | ControlDesigner/MainWindow.xaml.cs:1185 | every returned block starts with `{` and ends with `}` |
| SimpleJson.OpenWhileDeep | ControlDesigner/MainWindow.xaml.cs:1184-1185 | while the depth is positive an opening brace is remembered |
| SimpleJson.SplitObjects | ControlDesigner/MainWindow.xaml.cs:1177-1188 | the loop with `depth` and `start` returns exactly the depth-0 brace blocks, in order |
| SimpleJson.BraceFreeScan | ControlDesigner/MainWindow.xaml.cs:1182-1186 | text without braces yields no block and ends at depth 0 |
| SimpleJson.ObjectIsOneBlock | ControlDesigner/MainWindow.xaml.cs:1177-1188 | a balanced object is returned as one block, itself |
| SimpleJson.ScanPrefix | ControlDesigner/MainWindow.xaml.cs:1182-1186 | the scan of a prefix does not depend on what follows |
| SimpleJson.ScanSuffix | ControlDesigner/MainWindow.xaml.cs:1182-1186 | after a balanced prefix, the scan of the rest is independent of that prefix |
| SimpleJson.BlocksConcat | ControlDesigner/MainWindow.xaml.cs:1177-1188 | splitting a balanced text followed by another is splitting each, concatenated |
| SimpleJson.ObjectsRoundTrip | ControlDesigner/MainWindow.xaml.cs:1177-1188 | objects joined with commas split back into exactly those objects |
| SimpleJson.GetString | ControlDesigner/MainWindow.xaml.cs:1190-1202 | the body is the model: "" when `"key"`, the colon after it or either quote is missing, otherwise the text between the first two quotes after that colon; `GetStringShape`, `QuoteSpanBetweenQuotes` and `GetStringReadsField` state its properties |
| SimpleJson.QuoteSpan | ControlDesigner/MainWindow.xaml.cs:1197-1201 | the value lies strictly after the search start and inside the text |
| SimpleJson.QuoteSpanBetweenQuotes | ControlDesigner/MainWindow.xaml.cs:1197-1201 | the value sits between the first two quotes after the colon and contains no quote |
| SimpleJson.GetStringShape | ControlDesigner/MainWindow.xaml.cs:1190-1202 | a missing `"key"` gives `""`; a result never contains a quote |
| SimpleJson.KeyFound | ControlDesigner/MainWindow.xaml.cs:1193-1195 | in a quote-free prefix followed by `"key":`, the key and the colon are found where laid out |
| SimpleJson.GetStringReadsField | ControlDesigner/MainWindow.xaml.cs:1190-1202 | `"key":"value"` after a quote-free prefix reads back exactly `value` |
| SimpleJson.SkipBlanks | ControlDesigner/MainWindow.xaml.cs:1212 | stops at the first character that is not a space, CR or LF, having skipped only those |
| SimpleJson.NumberField | ControlDesigner/MainWindow.xaml.cs:1204-1219 | the body is the model: the run of digits, `.` and `-` after the blanks that follow the colon, as the parser reads it, and 0 when the key or the colon is missing or the parse fails; `NumberFieldReadsField` and `NumberFieldMissing` state its properties, and `GetDouble` is proved equal to it |
| SimpleJson.NumberEnd | ControlDesigner/MainWindow.xaml.cs:1214 | stops at the first character that is not a digit, `.` or `-`, having passed only those |
| SimpleJson.GetDouble | ControlDesigner/MainWindow.xaml.cs:1204-1219 | the two while loops compute the specified number lookup (0 when the key, colon or parse is missing) |
| SimpleJson.NumberAtReads | ControlDesigner/MainWindow.xaml.cs:1211-1218 | after blanks, a maximal run of digits is parsed as that run |
| SimpleJson.NumberFieldReadsField | ControlDesigner/MainWindow.xaml.cs:1204-1219 | `"key":` then blanks then a natural number reads back exactly that number |
| SimpleJson.NumberFieldMissing | ControlDesigner/MainWindow.xaml.cs:1207-1208 | a missing key gives 0 |
| SimpleJson.Presets | ControlDesigner/MainWindow.xaml.cs:1145-1173 | never more presets than blocks, and every preset has a non-empty name |
| SimpleJson.PresetsKeepNamed | ControlDesigner/MainWindow.xaml.cs:1171-1172 | every named block's preset is kept, and every kept preset comes from a block |
| SimpleJson.PresetsStep | ControlDesigner/MainWindow.xaml.cs:1145-1173 | each loop step appends the block's preset exactly when its name is non-empty |
| SimpleJson.ThemeOf | ControlDesigner/MainWindow.xaml.cs:1147-1170 | the body is the model: each of the 23 preset fields read by `GetString` or `NumberField` under its own key; `ReadTheme` is proved equal to it |
| SimpleJson.ReadTheme | ControlDesigner/MainWindow.xaml.cs:1147-1170 | the field-by-field reads build the block's preset |
| SimpleJson.ParsePresets | ControlDesigner/MainWindow.xaml.cs:1137-1175 | the presets of the named blocks of the trimmed, unbracketed text, in block order |
| SimpleJson.ReadThemes | ControlDesigner/MainWindow.xaml.cs:1145-1172 | the loop over the blocks keeps the theme read from each block whose name is non-empty, in block order |
| SimpleJson.PresetArrayRoundTrip | ControlDesigner/MainWindow.xaml.cs:1137-1175 | `[o1,…,on]` of balanced objects is read as the presets of exactly o1…on |
| SimpleJson.UnwrapBraced | ControlDesigner/MainWindow.xaml.cs:1142 | trimming and stripping the brackets of `[{…}]` gives back the braced text |
| Button.Assign | testbuild/ButtonControl.xaml.cs:57-67 | assigning `Value` fires exactly one `Click(old,new)` iff the value changes |
| Button.Pressed | testbuild/ButtonControl.xaml.cs:122-141 | press sets pressed; the value changes iff SwitchWhenPressed, or SwitchUntilReleased from false; LatchWhenPressed fires the pulse |
| Button.Released | testbuild/ButtonControl.xaml.cs:143-165 | release clears pressed and acts only when pressed: SwitchWhenReleased toggles, SwitchUntilReleased clears, LatchWhenReleased fires the pulse |
| Button.Captured | testbuild/ButtonControl.xaml.cs:171-179 | shadow defaults are captured from the part only while still at the −1 sentinel |
| Button.DepthTargets | testbuild/ButtonControl.xaml.cs:181-213 | down gives scale 0.95, translation ≥ 1, depth 0 and opacity ×0.3; up gives scale 1 and the defaults; the shadow is driven iff it exists and was captured |
| Button.HandlersReportChanges | testbuild/ButtonControl.xaml.cs:57-67 | every Click the handlers fire reports a real change |
| Button.FullCycle | testbuild/ButtonControl.xaml.cs:122-165 | after down then up: the switch modes toggle once, SwitchUntilReleased ends false, and both latch modes keep the value and fire exactly the two-event pulse |
| Button.LeaveCancelsRelease | testbuild/ButtonControl.xaml.cs:110-165 | after a press and a leave, the release does nothing |
| Button.CapturedOnce | testbuild/ButtonControl.xaml.cs:171-179 | the defaults are captured at most once |
| Button.PressFlattens | testbuild/ButtonControl.xaml.cs:186-190 | pressing never deepens, blurs or darkens the shadow beyond its defaults |
| Button.ButtonControl.constructor | testbuild/ButtonControl.xaml.cs:47-49 | SwitchWhenReleased, value false, not pressed, defaults at the sentinel |
| Button.ButtonControl.UpdatePhysicalDepthState | testbuild/ButtonControl.xaml.cs:181-214 | captures the defaults once and shows the targets for "down iff pressed or value" |
| Button.ButtonControl.SetValue | testbuild/ButtonControl.xaml.cs:54-68 | stores the value; on a change only, fires Click once and refreshes the visuals |
| Button.ButtonControl.MouseLeftButtonDown | testbuild/ButtonControl.xaml.cs:122-141 | the press step of the behaviour, shown as down, with the "on" overlay showing the resulting value |
| Button.ButtonControl.MouseLeftButtonUp | testbuild/ButtonControl.xaml.cs:143-165 | the release step of the behaviour, refreshing the visuals only when it was pressed, with the "on" overlay showing the resulting value |
| Button.ButtonControl.MouseLeave | testbuild/ButtonControl.xaml.cs:110-120 | clears pressed without firing, changing the value or touching the "on" overlay |
| Button.DefaultClick | testbuild/ButtonControl.xaml.cs:143-158 | a new button clicked once ends on, released, having fired exactly (false,true) |
| TextInput.OrEmpty | WpfTextInput/TextInputControl.xaml.cs:85 | a null text reads as `""` |
| TextInput.Notify | WpfTextInput/TextInputControl.xaml.cs:129-133 | one `ValueChanged(previous, current)` iff they differ |
| TextInput.ChainExtend | WpfTextInput/TextInputControl.xaml.cs:129-133 | reporting a real change from the last reported text extends the chain |
| TextInput.ChainedLinks | WpfTextInput/TextInputControl.xaml.cs:119-134 | across any edits, each event's old text is the previous event's new text, the first starts at `""`, none has old == new |
| TextInput.TextInputControl.constructor | WpfTextInput/TextInputControl.xaml.cs:14 | `_previousText` starts empty and nothing has been reported |
| TextInput.TextInputControl.SetScrollBarVisible | WpfTextInput/TextInputControl.xaml.cs:66-76 | Auto/wrap/accepts-return iff visible, Hidden/no-wrap otherwise, nothing else changes |
| TextInput.TextInputControl.SetText | WpfTextInput/TextInputControl.xaml.cs:82-90 | assigning `Text` writes the box only when it differs, which reports the change; a null value writes `""` |
| TextInput.TextInputControl.OnTextPropertyChanged | WpfTextInput/TextInputControl.xaml.cs:82-90 | the box is written only when it differs, so a value coming from the box does not re-enter |
| TextInput.TextInputControl.Type | WpfTextInput/TextInputControl.xaml.cs:119-134 | an edit sets `Text` to the box text and reports exactly one change from the last reported text when they differ |
| TextInput.TextInputControl.InputBoxTextChanged | WpfTextInput/TextInputControl.xaml.cs:119-134 | `Text` follows the box, `_previousText` becomes the box text, and one event is appended iff it differed |
| TextInput.TypeTwice | WpfTextInput/TextInputControl.xaml.cs:119-134 | two edits report two chained events |
| ColorPicker.FrameOf | ControlDesigner/ColorPickerWindow.xaml.cs:107-145 | gray iff Transparent or unparsable; #888888 iff brightness above 180; #555555 otherwise |
| ColorPicker.Swatches | ControlDesigner/ColorPickerWindow.xaml.cs:92-104 | one swatch per colour, in order, tagged with that colour |
| ColorPicker.SwatchesAppend | ControlDesigner/ColorPickerWindow.xaml.cs:148 | adding swatches to a panel appends them |
| ColorPicker.FlattenLength | ControlDesigner/ColorPickerWindow.xaml.cs:49-56 | a rows × width table yields rows·width swatches |
| ColorPicker.FlattenIndex | ControlDesigner/ColorPickerWindow.xaml.cs:49-56 | the nested loop visits cell (r,c) at position r·width + c |
| ColorPicker.PaletteSizes | ControlDesigner/ColorPickerWindow.xaml.cs:31-89 | 12×5 basic, 15 gray and 25 recommended colours, with `Transparent` last |
| ColorPicker.TransparentFramedGray | ControlDesigner/ColorPickerWindow.xaml.cs:109-129 | the Transparent swatch is framed gray |
| ColorPicker.FrameByBrightness | ControlDesigner/ColorPickerWindow.xaml.cs:135-138 | a colour at least as bright in every channel as a light-framed one is light-framed |
| ColorPicker.ExtremesFramed | ControlDesigner/ColorPickerWindow.xaml.cs:135-138 | white gets the dark #888888 frame and black the #555555 frame |
| ColorPicker.Normalize | ControlDesigner/ColorPickerWindow.xaml.cs:172-174 | empty iff the trimmed text is empty; the trimmed text when it already starts with `#` or is Transparent; otherwise `#` + the trimmed text |
| ColorPicker.NormalizeIdempotent | ControlDesigner/ColorPickerWindow.xaml.cs:172-174 | normalising twice is normalising once |
| ColorPicker.HashNormal | ControlDesigner/ColorPickerWindow.xaml.cs:172-174 | a `#` colour with no trailing blank is already normal |
| ColorPicker.HashAdded | ControlDesigner/ColorPickerWindow.xaml.cs:172-174 | bare digits get one `#`, and that result is a fixpoint |
| ColorPicker.PaletteTagsNormal | ControlDesigner/ColorPickerWindow.xaml.cs:31-89 | every palette tag is already normal, so a clicked colour typed back unchanged stays the same |
| ColorPicker.TransparentNormal | ControlDesigner/ColorPickerWindow.xaml.cs:173 | `Transparent` is kept as is |
| ColorPicker.PreviewOf | ControlDesigner/ColorPickerWindow.xaml.cs:179-195 | a solid preview iff not Transparent and parsable, in the parsed colour |
| ColorPicker.InitialColor | ControlDesigner/ColorPickerWindow.xaml.cs:22 | the given colour, or `#FFFFFF` for null |
| ColorPicker.DefaultIsWhite | ControlDesigner/ColorPickerWindow.xaml.cs:18-23 | without a colour the picker opens on `#FFFFFF` |
| ColorPicker.ColorPickerWindow.constructor | ControlDesigner/ColorPickerWindow.xaml.cs:18-25 | builds the three palettes, shows the initial colour in the hex box and selects its normalisation, with a matching preview |
| ColorPicker.ColorPickerWindow.BuildPalettes | ControlDesigner/ColorPickerWindow.xaml.cs:29-90 | the panels hold the basic (size 24), gray (24) and recommended (26) swatches |
| ColorPicker.ColorPickerWindow.SwatchTable | ControlDesigner/ColorPickerWindow.xaml.cs:49-56 | the nested row/column loop adds the table's swatches row by row |
| ColorPicker.ColorPickerWindow.SwatchRow | ControlDesigner/ColorPickerWindow.xaml.cs:65-68 | the loop adds one swatch per colour in order |
| ColorPicker.ColorPickerWindow.SetHexText | ControlDesigner/ColorPickerWindow.xaml.cs:169-177 | writing a different hex text selects its normalisation unless suppressed |
| ColorPicker.ColorPickerWindow.TxtHexChanged | ControlDesigner/ColorPickerWindow.xaml.cs:169-177 | suppressed: nothing; otherwise selects the normalised text and refreshes the preview |
| ColorPicker.ColorPickerWindow.UpdatePreview | ControlDesigner/ColorPickerWindow.xaml.cs:179-195 | the preview shows the selected colour |
| ColorPicker.ColorPickerWindow.SwatchClick | ControlDesigner/ColorPickerWindow.xaml.cs:155-167 | a non-empty tag becomes exactly the selected colour and the hex text, typing suppressed meanwhile; an empty or null tag changes nothing |
| ColorPicker.ColorPickerWindow.TypeHex | ControlDesigner/ColorPickerWindow.xaml.cs:169-177 | typing a different text selects its normalisation |
| Platform.Combine | ControlDesigner/Services/TemplateEngine.cs:36 | a rooted second path wins, an empty second path gives the first, and otherwise the result starts with the directory and ends with the file name |
| Platform.FormatD | ControlDesigner/Services/TemplateEngine.cs:146 | a GUID renders as 36 characters with dashes at 8, 13, 18 and 23 and hex digits elsewhere |

## Left out

- Null strings are not modelled except where the code handles them explicitly: the null `Text` property, the null swatch tag and the null initial colour.
- .NET's culture-sensitive `IndexOf(string)` and `StartsWith(string)` are modelled as ordinal comparisons.
- `double` is modelled as `real`; `double.ToString()`/`"F2"` formatting and `double.Parse`/`TryParse` are parameters whose behaviour is left open, except that the numeral round trips assume the parser reads decimal naturals.
- Templates.ShadowMargin: the `(int)` casts do not model overflow for huge inputs, and the arithmetic is exact rather than binary floating point.
- ColorPicker.FrameOf: brightness is compared in exact arithmetic, so a colour whose floating-point brightness rounds across 180 may be framed differently.
- Out-of-range `ControlType` and `ButtonActionBehavior` casts are not modelled; the enums are exact datatypes.
- Platform.Combine: invalid path characters are not modelled.
- `Directory.CreateDirectory`, `Directory.Delete` and `File.Copy` failures and the `Process.Start` mechanics are not modelled; the build is an input record and any launch exception is its fault message.
- Exporter.DllExporter.Export: the removal of the temp dir on success is modelled by returning no leftover files, not by a file-system effect.
- TextInputHost (an STA thread with a dispatcher) and the WinForms/ElementHost panel wrappers are not part of this model; they only forward properties and events. The panels matter here only as template text.
- The readme text written next to an export and the JSON serialisation of the style, which use `DateTime.Now` and `JavaScriptSerializer`, are not modelled; only the companion file names are.
- SimpleJson.GetDouble: `char.IsDigit` is modelled as ASCII `0`–`9`; the Unicode decimal digits it also accepts are left out.
- Button: animations, durations, the hover overlay, mouse capture and the label are left out. Only `PartShadow` is modelled as possibly missing; the other named XAML parts are assumed present.
- ColorPicker.ColorPickerWindow.constructor: the XAML that wires `TxtHex.TextChanged` to `TxtHex_Changed` is not available. The model assumes that wiring and an initially empty hex box, so the constructor selects the normalised initial colour.
- ColorPicker: the WPF `ColorConverter` is a parameter `convert`; its exceptions are its `None` results.
- TextInput: WPF's `TextBox.Text` is never null, so the box text is a plain string; the `Text` dependency property may be null.
- Designer.ParseThickness: `double.Parse` is the parameter `parse`, its exception a `None`; that a padded part such as `" 12"` parses is therefore not proved.
- Exporter.ErrorExcerpt: a Dafny `char` is one Unicode scalar value while .NET `Length` and `Substring` count UTF-16 code units, so on output holding characters outside the Basic Multilingual Plane the 500-character cut falls elsewhere.
- Strings.EqualsIgnoreCase: folds only the ASCII letters; `OrdinalIgnoreCase` also folds letters beyond ASCII, so `Transparent` spelled with such letters is not recognised by the model.
- Templates.XamlFailure: fixes the English `Could not find file '…'.` text; a missing template directory gives .NET's `Could not find a part of the path` message instead, and a localised runtime gives localised text.
- ColorPicker.PreviewOf: `Rgb` has no alpha channel, so a colour such as `#80FF0000` is previewed in its red, green and blue only.
- Styles.ControlStyle.Clone: `MemberwiseClone` also copies the `PropertyChanged` subscribers; the model has no subscribers, only the list of raised names, which starts empty in the clone.
- Designer: dialogs, message boxes, the preview tree, `XamlReader.Parse` of inline styles and the preview-only shadow margin are not modelled.
