/**
 * `generateWindowsTerminalTheme`: reads a VS Code colour theme and produces a
 * Windows Terminal colour scheme. Twenty keys are required; the three
 * terminal-specific keys are optional and fall back, one level deep, on an
 * editor key that is itself required.
 */
module Theme {
  import opened Wrappers
  import opened Json
  import opened Colors
  import opened Schema

  /** `colorsSchema`, in declared order. */
  const ColorsSchema: seq<FieldSpec> := [
    FieldSpec("editor.background", Required),
    FieldSpec("foreground", Required),
    FieldSpec("editor.selectionBackground", Required),
    FieldSpec("editorCursor.foreground", Required),
    FieldSpec("terminal.ansiBlack", Required),
    FieldSpec("terminal.ansiBlue", Required),
    FieldSpec("terminal.ansiBrightBlack", Required),
    FieldSpec("terminal.ansiBrightBlue", Required),
    FieldSpec("terminal.ansiBrightCyan", Required),
    FieldSpec("terminal.ansiBrightGreen", Required),
    FieldSpec("terminal.ansiBrightMagenta", Required),
    FieldSpec("terminal.ansiBrightRed", Required),
    FieldSpec("terminal.ansiBrightWhite", Required),
    FieldSpec("terminal.ansiBrightYellow", Required),
    FieldSpec("terminal.ansiCyan", Required),
    FieldSpec("terminal.ansiGreen", Required),
    FieldSpec("terminal.ansiMagenta", Required),
    FieldSpec("terminal.ansiRed", Required),
    FieldSpec("terminal.ansiWhite", Required),
    FieldSpec("terminal.ansiYellow", Required),
    FieldSpec("terminal.background", Optional),
    FieldSpec("terminal.foreground", Optional),
    FieldSpec("terminal.selectionBackground", Optional)
  ]

  /**
   * The shape of `colorsSchema`: 23 declared keys, the first 20 required and
   * the last three, the `terminal.*` fallback sources, optional.
   */
  lemma ColorsSchemaShape()
    ensures |ColorsSchema| == 23
    ensures forall i :: 0 <= i < |ColorsSchema| ==> (ColorsSchema[i].presence.Required? <==> i < 20)
    ensures ColorsSchema[20].key == "terminal.background"
    ensures ColorsSchema[21].key == "terminal.foreground"
    ensures ColorsSchema[22].key == "terminal.selectionBackground"
  {
  }

  /** The Windows Terminal colour scheme. */
  datatype WindowsTerminalTheme = WindowsTerminalTheme(
    name: string,
    background: string,
    foreground: string,
    black: string,
    blue: string,
    brightBlack: string,
    brightBlue: string,
    brightCyan: string,
    brightGreen: string,
    brightPurple: string,
    brightRed: string,
    brightWhite: string,
    brightYellow: string,
    cyan: string,
    green: string,
    purple: string,
    red: string,
    white: string,
    yellow: string,
    cursorColor: string,
    selectionBackground: string)

  /** The colour fields of a scheme, in the order they are declared. */
  function ColorFields(t: WindowsTerminalTheme): seq<string> {
    [t.background, t.foreground, t.black, t.blue, t.brightBlack, t.brightBlue,
     t.brightCyan, t.brightGreen, t.brightPurple, t.brightRed, t.brightWhite,
     t.brightYellow, t.cyan, t.green, t.purple, t.red, t.white, t.yellow,
     t.cursorColor, t.selectionBackground]
  }

  /** Every required key of `colorsSchema` is in the parsed colours. */
  predicate HasRequiredColors(colors: map<string, string>) {
    "editor.background" in colors &&
    "foreground" in colors &&
    "editor.selectionBackground" in colors &&
    "editorCursor.foreground" in colors &&
    "terminal.ansiBlack" in colors &&
    "terminal.ansiBlue" in colors &&
    "terminal.ansiBrightBlack" in colors &&
    "terminal.ansiBrightBlue" in colors &&
    "terminal.ansiBrightCyan" in colors &&
    "terminal.ansiBrightGreen" in colors &&
    "terminal.ansiBrightMagenta" in colors &&
    "terminal.ansiBrightRed" in colors &&
    "terminal.ansiBrightWhite" in colors &&
    "terminal.ansiBrightYellow" in colors &&
    "terminal.ansiCyan" in colors &&
    "terminal.ansiGreen" in colors &&
    "terminal.ansiMagenta" in colors &&
    "terminal.ansiRed" in colors &&
    "terminal.ansiWhite" in colors &&
    "terminal.ansiYellow" in colors
  }

  /** The required entries of `ColorsSchema`, read by position, are exactly the keys `HasRequiredColors` names. */
  lemma RequiredColorsPresent(colors: map<string, string>)
    requires forall i :: 0 <= i < |ColorsSchema| && ColorsSchema[i].presence.Required? ==> ColorsSchema[i].key in colors
    ensures HasRequiredColors(colors)
  {
    RequiredColorsPresentPart1(colors);
    RequiredColorsPresentPart2(colors);
    RequiredColorsPresentPart3(colors);
    RequiredColorsPresentPart4(colors);
  }

  // `RequiredColorsPresent` is split into four parts only to keep each proof
  // obligation within the solver's resource limit.

  /** Entries 0 to 4 of `ColorsSchema`. */
  lemma RequiredColorsPresentPart1(colors: map<string, string>)
    requires forall i :: 0 <= i < |ColorsSchema| && ColorsSchema[i].presence.Required? ==> ColorsSchema[i].key in colors
    ensures "editor.background" in colors
    ensures "foreground" in colors
    ensures "editor.selectionBackground" in colors
    ensures "editorCursor.foreground" in colors
    ensures "terminal.ansiBlack" in colors
  {
    assert ColorsSchema[0].key in colors;
    assert ColorsSchema[1].key in colors;
    assert ColorsSchema[2].key in colors;
    assert ColorsSchema[3].key in colors;
    assert ColorsSchema[4].key in colors;
  }

  /** Entries 5 to 9 of `ColorsSchema`. */
  lemma RequiredColorsPresentPart2(colors: map<string, string>)
    requires forall i :: 0 <= i < |ColorsSchema| && ColorsSchema[i].presence.Required? ==> ColorsSchema[i].key in colors
    ensures "terminal.ansiBlue" in colors
    ensures "terminal.ansiBrightBlack" in colors
    ensures "terminal.ansiBrightBlue" in colors
    ensures "terminal.ansiBrightCyan" in colors
    ensures "terminal.ansiBrightGreen" in colors
  {
    assert ColorsSchema[5].key in colors;
    assert ColorsSchema[6].key in colors;
    assert ColorsSchema[7].key in colors;
    assert ColorsSchema[8].key in colors;
    assert ColorsSchema[9].key in colors;
  }

  /** Entries 10 to 14 of `ColorsSchema`. */
  lemma RequiredColorsPresentPart3(colors: map<string, string>)
    requires forall i :: 0 <= i < |ColorsSchema| && ColorsSchema[i].presence.Required? ==> ColorsSchema[i].key in colors
    ensures "terminal.ansiBrightMagenta" in colors
    ensures "terminal.ansiBrightRed" in colors
    ensures "terminal.ansiBrightWhite" in colors
    ensures "terminal.ansiBrightYellow" in colors
    ensures "terminal.ansiCyan" in colors
  {
    assert ColorsSchema[10].key in colors;
    assert ColorsSchema[11].key in colors;
    assert ColorsSchema[12].key in colors;
    assert ColorsSchema[13].key in colors;
    assert ColorsSchema[14].key in colors;
  }

  /** Entries 15 to 19 of `ColorsSchema`. */
  lemma RequiredColorsPresentPart4(colors: map<string, string>)
    requires forall i :: 0 <= i < |ColorsSchema| && ColorsSchema[i].presence.Required? ==> ColorsSchema[i].key in colors
    ensures "terminal.ansiGreen" in colors
    ensures "terminal.ansiMagenta" in colors
    ensures "terminal.ansiRed" in colors
    ensures "terminal.ansiWhite" in colors
    ensures "terminal.ansiYellow" in colors
  {
    assert ColorsSchema[15].key in colors;
    assert ColorsSchema[16].key in colors;
    assert ColorsSchema[17].key in colors;
    assert ColorsSchema[18].key in colors;
    assert ColorsSchema[19].key in colors;
  }

  /** `a ?? b` on an object whose absent keys read as `undefined`. */
  function Coalesce(colors: map<string, string>, key: string, fallback: string): string
    requires fallback in colors
  {
    if key in colors then colors[key] else colors[fallback]
  }

  /** The object literal that renames the parsed colours onto the scheme's fields. */
  function ToTheme(name: string, colors: map<string, string>): WindowsTerminalTheme
    requires HasRequiredColors(colors)
  {
    WindowsTerminalTheme(
      name := name,
      background := Coalesce(colors, "terminal.background", "editor.background"),
      foreground := Coalesce(colors, "terminal.foreground", "foreground"),
      black := colors["terminal.ansiBlack"],
      blue := colors["terminal.ansiBlue"],
      brightBlack := colors["terminal.ansiBrightBlack"],
      brightBlue := colors["terminal.ansiBrightBlue"],
      brightCyan := colors["terminal.ansiBrightCyan"],
      brightGreen := colors["terminal.ansiBrightGreen"],
      brightPurple := colors["terminal.ansiBrightMagenta"],
      brightRed := colors["terminal.ansiBrightRed"],
      brightWhite := colors["terminal.ansiBrightWhite"],
      brightYellow := colors["terminal.ansiBrightYellow"],
      cyan := colors["terminal.ansiCyan"],
      green := colors["terminal.ansiGreen"],
      purple := colors["terminal.ansiMagenta"],
      red := colors["terminal.ansiRed"],
      white := colors["terminal.ansiWhite"],
      yellow := colors["terminal.ansiYellow"],
      cursorColor := colors["editorCursor.foreground"],
      selectionBackground := Coalesce(colors, "terminal.selectionBackground", "editor.selectionBackground"))
  }

  /**
   * `generateWindowsTerminalTheme(name, vsCodeThemeJson)`: read the text,
   * validate it against `colorsSchema`, and build the scheme. Either a
   * complete scheme or an error; never a partial scheme.
   */
  function GenerateWindowsTerminalTheme(name: string, vsCodeThemeJson: string, json5Parse: string -> Json5Result)
    : (r: Result<WindowsTerminalTheme, Error>)
    ensures json5Parse(vsCodeThemeJson).ParseError? ==>
      r == Failure(SyntaxError(json5Parse(vsCodeThemeJson).message))
    ensures json5Parse(vsCodeThemeJson).Ok? ==>
      var doc := json5Parse(vsCodeThemeJson).doc;
      (r.Success? <==>
        ColorsOf(doc).Some? &&
        forall i :: 0 <= i < |ColorsSchema| ==> !CheckField(ColorsSchema[i], ColorsOf(doc).value).Failed?)
    ensures json5Parse(vsCodeThemeJson).Ok? && r.Failure? ==>
      r.error == ValidationError(ParseColors(ColorsSchema, json5Parse(vsCodeThemeJson).doc).error)
    ensures r.Failure? && r.error.ValidationError? ==> r.error.issues != []
    ensures r.Success? ==> r.value.name == name
  {
    match json5Parse(vsCodeThemeJson)
    case ParseError(message) => Failure(SyntaxError(message))
    case Ok(doc) =>
      match ParseColors(ColorsSchema, doc)
      case Failure(issues) => Failure(ValidationError(issues))
      case Success(colors) =>
        ParseColorsSuccess(ColorsSchema, doc);
        RequiredColorsPresent(colors);
        Success(ToTheme(name, colors))
  }

  /** A successful conversion is the renaming of what `colorsSchema` returned for the parsed document. */
  lemma GenerateSucceeded(name: string, vsCodeThemeJson: string, json5Parse: string -> Json5Result)
    requires GenerateWindowsTerminalTheme(name, vsCodeThemeJson, json5Parse).Success?
    ensures json5Parse(vsCodeThemeJson).Ok?
    ensures ParseColors(ColorsSchema, json5Parse(vsCodeThemeJson).doc).Success?
    ensures HasRequiredColors(ParseColors(ColorsSchema, json5Parse(vsCodeThemeJson).doc).value)
    ensures GenerateWindowsTerminalTheme(name, vsCodeThemeJson, json5Parse).value ==
      ToTheme(name, ParseColors(ColorsSchema, json5Parse(vsCodeThemeJson).doc).value)
  {
    var doc := json5Parse(vsCodeThemeJson).doc;
    ParseColorsSuccess(ColorsSchema, doc);
    RequiredColorsPresent(ParseColors(ColorsSchema, doc).value);
  }

  /** Every colour field of a renamed scheme is one of the parsed colours. */
  lemma ToThemeFieldsFromColors(name: string, colors: map<string, string>)
    requires HasRequiredColors(colors)
    ensures forall c :: c in ColorFields(ToTheme(name, colors)) ==> c in colors.Values
  {
  }

  /** On success, every colour field of the scheme matches the colour pattern, so it has 4 or 7 characters. */
  lemma ThemeColorsValid(name: string, vsCodeThemeJson: string, json5Parse: string -> Json5Result)
    requires GenerateWindowsTerminalTheme(name, vsCodeThemeJson, json5Parse).Success?
    ensures var t := GenerateWindowsTerminalTheme(name, vsCodeThemeJson, json5Parse).value;
      forall c :: c in ColorFields(t) ==> IsValidColor(c) && (|c| == 4 || |c| == 7)
  {
    GenerateSucceeded(name, vsCodeThemeJson, json5Parse);
    var doc := json5Parse(vsCodeThemeJson).doc;
    ParseColorsSuccess(ColorsSchema, doc);
    var colors := ParseColors(ColorsSchema, doc).value;
    ToThemeFieldsFromColors(name, colors);
  }

  /** The renaming table applied to parsed colours that are the stripped members of `c`. */
  lemma ToThemeRenaming(name: string, colors: map<string, string>, c: map<string, Value>)
    requires HasRequiredColors(colors)
    requires forall k :: k in colors ==> colors[k] == StripAlphaChannel(RawColor(c, k))
    requires "terminal.background" in colors <==> "terminal.background" in c
    requires "terminal.foreground" in colors <==> "terminal.foreground" in c
    requires "terminal.selectionBackground" in colors <==> "terminal.selectionBackground" in c
    ensures var t := ToTheme(name, colors);
      && t.name == name
      && t.background == StripAlphaChannel(RawColor(c, if "terminal.background" in c then "terminal.background" else "editor.background"))
      && t.foreground == StripAlphaChannel(RawColor(c, if "terminal.foreground" in c then "terminal.foreground" else "foreground"))
      && t.black == StripAlphaChannel(RawColor(c, "terminal.ansiBlack"))
      && t.blue == StripAlphaChannel(RawColor(c, "terminal.ansiBlue"))
      && t.brightBlack == StripAlphaChannel(RawColor(c, "terminal.ansiBrightBlack"))
      && t.brightBlue == StripAlphaChannel(RawColor(c, "terminal.ansiBrightBlue"))
      && t.brightCyan == StripAlphaChannel(RawColor(c, "terminal.ansiBrightCyan"))
      && t.brightGreen == StripAlphaChannel(RawColor(c, "terminal.ansiBrightGreen"))
      && t.brightPurple == StripAlphaChannel(RawColor(c, "terminal.ansiBrightMagenta"))
      && t.brightRed == StripAlphaChannel(RawColor(c, "terminal.ansiBrightRed"))
      && t.brightWhite == StripAlphaChannel(RawColor(c, "terminal.ansiBrightWhite"))
      && t.brightYellow == StripAlphaChannel(RawColor(c, "terminal.ansiBrightYellow"))
      && t.cyan == StripAlphaChannel(RawColor(c, "terminal.ansiCyan"))
      && t.green == StripAlphaChannel(RawColor(c, "terminal.ansiGreen"))
      && t.purple == StripAlphaChannel(RawColor(c, "terminal.ansiMagenta"))
      && t.red == StripAlphaChannel(RawColor(c, "terminal.ansiRed"))
      && t.white == StripAlphaChannel(RawColor(c, "terminal.ansiWhite"))
      && t.yellow == StripAlphaChannel(RawColor(c, "terminal.ansiYellow"))
      && t.cursorColor == StripAlphaChannel(RawColor(c, "editorCursor.foreground"))
      && t.selectionBackground == StripAlphaChannel(RawColor(c,
           if "terminal.selectionBackground" in c then "terminal.selectionBackground" else "editor.selectionBackground"))
  {
  }

  /**
   * On success, the scheme is the fixed renaming of the document's colours,
   * each stripped of its alpha channel: `name` is the argument, magenta
   * becomes `purple`, the cursor colour comes from `editorCursor.foreground`,
   * and `background`, `foreground` and `selectionBackground` take the
   * `terminal.*` key when it is present and its editor fallback otherwise.
   */
  lemma ThemeFields(name: string, vsCodeThemeJson: string, json5Parse: string -> Json5Result)
    requires GenerateWindowsTerminalTheme(name, vsCodeThemeJson, json5Parse).Success?
    ensures json5Parse(vsCodeThemeJson).Ok? && ColorsOf(json5Parse(vsCodeThemeJson).doc).Some?
    ensures var t := GenerateWindowsTerminalTheme(name, vsCodeThemeJson, json5Parse).value;
      var c := ColorsOf(json5Parse(vsCodeThemeJson).doc).value;
      && t.name == name
      && t.background == StripAlphaChannel(RawColor(c, if "terminal.background" in c then "terminal.background" else "editor.background"))
      && t.foreground == StripAlphaChannel(RawColor(c, if "terminal.foreground" in c then "terminal.foreground" else "foreground"))
      && t.black == StripAlphaChannel(RawColor(c, "terminal.ansiBlack"))
      && t.blue == StripAlphaChannel(RawColor(c, "terminal.ansiBlue"))
      && t.brightBlack == StripAlphaChannel(RawColor(c, "terminal.ansiBrightBlack"))
      && t.brightBlue == StripAlphaChannel(RawColor(c, "terminal.ansiBrightBlue"))
      && t.brightCyan == StripAlphaChannel(RawColor(c, "terminal.ansiBrightCyan"))
      && t.brightGreen == StripAlphaChannel(RawColor(c, "terminal.ansiBrightGreen"))
      && t.brightPurple == StripAlphaChannel(RawColor(c, "terminal.ansiBrightMagenta"))
      && t.brightRed == StripAlphaChannel(RawColor(c, "terminal.ansiBrightRed"))
      && t.brightWhite == StripAlphaChannel(RawColor(c, "terminal.ansiBrightWhite"))
      && t.brightYellow == StripAlphaChannel(RawColor(c, "terminal.ansiBrightYellow"))
      && t.cyan == StripAlphaChannel(RawColor(c, "terminal.ansiCyan"))
      && t.green == StripAlphaChannel(RawColor(c, "terminal.ansiGreen"))
      && t.purple == StripAlphaChannel(RawColor(c, "terminal.ansiMagenta"))
      && t.red == StripAlphaChannel(RawColor(c, "terminal.ansiRed"))
      && t.white == StripAlphaChannel(RawColor(c, "terminal.ansiWhite"))
      && t.yellow == StripAlphaChannel(RawColor(c, "terminal.ansiYellow"))
      && t.cursorColor == StripAlphaChannel(RawColor(c, "editorCursor.foreground"))
      && t.selectionBackground == StripAlphaChannel(RawColor(c,
           if "terminal.selectionBackground" in c then "terminal.selectionBackground" else "editor.selectionBackground"))
  {
    GenerateSucceeded(name, vsCodeThemeJson, json5Parse);
    var doc := json5Parse(vsCodeThemeJson).doc;
    ParseColorsSuccess(ColorsSchema, doc);
    var colors := ParseColors(ColorsSchema, doc).value;
    var c := ColorsOf(doc).value;
    forall k | k in colors ensures colors[k] == StripAlphaChannel(RawColor(c, k)) {
      assert c[k].JString?;
    }
    OptionalKeysDeclared();
    ToThemeRenaming(name, colors, c);
  }

  /** The three `terminal.*` keys are declared by the schema. */
  lemma OptionalKeysDeclared()
    ensures "terminal.background" in Keys(ColorsSchema)
    ensures "terminal.foreground" in Keys(ColorsSchema)
    ensures "terminal.selectionBackground" in Keys(ColorsSchema)
  {
    assert ColorsSchema[20].key == "terminal.background";
    assert ColorsSchema[21].key == "terminal.foreground";
    assert ColorsSchema[22].key == "terminal.selectionBackground";
  }

  /**
   * A required key that is absent makes the conversion fail with a
   * `Missing` issue for that key, whatever the other keys hold; this covers
   * the editor fallback keys even when their `terminal.*` key is present.
   */
  lemma RequiredKeyMissing(name: string, vsCodeThemeJson: string, json5Parse: string -> Json5Result, key: string)
    requires json5Parse(vsCodeThemeJson).Ok? && ColorsOf(json5Parse(vsCodeThemeJson).doc).Some?
    requires FieldSpec(key, Required) in ColorsSchema
    requires key !in ColorsOf(json5Parse(vsCodeThemeJson).doc).value
    ensures var r := GenerateWindowsTerminalTheme(name, vsCodeThemeJson, json5Parse);
      r.Failure? && r.error.ValidationError? && Issue(["colors", key], Missing) in r.error.issues
  {
    ParseColorsReports(ColorsSchema, json5Parse(vsCodeThemeJson).doc, FieldSpec(key, Required));
  }

  /**
   * A declared key that is present but not a string, or a string that fails
   * the pattern once stripped, makes the conversion fail with an issue for
   * that key, even for an optional `terminal.*` key: there is no fallback.
   * The colour issue carries the stripped string.
   */
  lemma PresentKeyRejected(name: string, vsCodeThemeJson: string, json5Parse: string -> Json5Result,
                           key: string, presence: Presence)
    requires json5Parse(vsCodeThemeJson).Ok? && ColorsOf(json5Parse(vsCodeThemeJson).doc).Some?
    requires FieldSpec(key, presence) in ColorsSchema
    requires key in ColorsOf(json5Parse(vsCodeThemeJson).doc).value
    requires !Acceptable(ColorsOf(json5Parse(vsCodeThemeJson).doc).value, key)
    ensures var r := GenerateWindowsTerminalTheme(name, vsCodeThemeJson, json5Parse);
      var v := ColorsOf(json5Parse(vsCodeThemeJson).doc).value[key];
      r.Failure? && r.error.ValidationError? &&
      Issue(["colors", key], if v.JString? then InvalidColor(StripAlphaChannel(v.s)) else ExpectedString) in r.error.issues
  {
    ParseColorsReports(ColorsSchema, json5Parse(vsCodeThemeJson).doc, FieldSpec(key, presence));
  }

  /** Keys the schema does not declare, inside `colors` or beside it, do not affect the conversion. */
  lemma ThemeIgnoresUndeclaredKeys(name: string, text1: string, text2: string, json5Parse: string -> Json5Result)
    requires json5Parse(text1).Ok? && json5Parse(text2).Ok?
    requires ColorsOf(json5Parse(text1).doc).Some? && ColorsOf(json5Parse(text2).doc).Some?
    requires AgreeOn(Keys(ColorsSchema), ColorsOf(json5Parse(text1).doc).value, ColorsOf(json5Parse(text2).doc).value)
    ensures GenerateWindowsTerminalTheme(name, text1, json5Parse) == GenerateWindowsTerminalTheme(name, text2, json5Parse)
  {
    IgnoresUndeclaredKeys(ColorsSchema, json5Parse(text1).doc, json5Parse(text2).doc);
  }

  /** The `colors` object of a Tokyo Night document with no `terminal.*` keys. */
  function TokyoNightColors(): map<string, Value> {
    map[
      "editor.background" := JString("#16161e"),
      "foreground" := JString("#787c99"),
      "editor.selectionBackground" := JString("#515c7e4d"),
      "editorCursor.foreground" := JString("#c0caf5"),
      "terminal.ansiBlack" := JString("#363b54"),
      "terminal.ansiBlue" := JString("#7aa2f7"),
      "terminal.ansiBrightBlack" := JString("#363b54"),
      "terminal.ansiBrightBlue" := JString("#7aa2f7"),
      "terminal.ansiBrightCyan" := JString("#7dcfff"),
      "terminal.ansiBrightGreen" := JString("#41a6b5"),
      "terminal.ansiBrightMagenta" := JString("#bb9af7"),
      "terminal.ansiBrightRed" := JString("#f7768e"),
      "terminal.ansiBrightWhite" := JString("#acb0d0"),
      "terminal.ansiBrightYellow" := JString("#e0af68"),
      "terminal.ansiCyan" := JString("#7dcfff"),
      "terminal.ansiGreen" := JString("#41a6b5"),
      "terminal.ansiMagenta" := JString("#bb9af7"),
      "terminal.ansiRed" := JString("#f7768e"),
      "terminal.ansiWhite" := JString("#787c99"),
      "terminal.ansiYellow" := JString("#e0af68")
    ]
  }

  // The Tokyo Night example is split into small lemmas of one or two keys
  // each only to keep each proof obligation within the solver's resource
  // limit: every lookup in a 20-key map literal costs a string comparison
  // with each later key.

  /** The Tokyo Night members `editor.background` and `foreground` pass `colorString()`, with these stripped values. */
  lemma TokyoNightMembers1()
    ensures Acceptable(TokyoNightColors(), "editor.background") && StripAlphaChannel(RawColor(TokyoNightColors(), "editor.background")) == "#16161e"
    ensures Acceptable(TokyoNightColors(), "foreground") && StripAlphaChannel(RawColor(TokyoNightColors(), "foreground")) == "#787c99"
  {
    var c := TokyoNightColors();
    assert c["editor.background"] == JString("#16161e");
    assert IsHexTriple("#16161e"[1..4]) && IsHexTriple("#16161e"[4..7]);
    assert c["foreground"] == JString("#787c99");
    assert IsHexTriple("#787c99"[1..4]) && IsHexTriple("#787c99"[4..7]);
  }

  /** The Tokyo Night member `editor.selectionBackground` passes `colorString()`, with this stripped value. */
  lemma TokyoNightMembers2()
    ensures Acceptable(TokyoNightColors(), "editor.selectionBackground") && StripAlphaChannel(RawColor(TokyoNightColors(), "editor.selectionBackground")) == "#515c7e"
  {
    var c := TokyoNightColors();
    assert c["editor.selectionBackground"] == JString("#515c7e4d");
    assert StripAlphaChannel("#515c7e4d") == "#515c7e";
    assert IsHexTriple("#515c7e"[1..4]) && IsHexTriple("#515c7e"[4..7]);
  }

  /** The Tokyo Night member `editorCursor.foreground` passes `colorString()`, with this stripped value. */
  lemma TokyoNightMembers3()
    ensures Acceptable(TokyoNightColors(), "editorCursor.foreground") && StripAlphaChannel(RawColor(TokyoNightColors(), "editorCursor.foreground")) == "#c0caf5"
  {
    var c := TokyoNightColors();
    assert c["editorCursor.foreground"] == JString("#c0caf5");
    assert IsHexTriple("#c0caf5"[1..4]) && IsHexTriple("#c0caf5"[4..7]);
  }

  /** The Tokyo Night members `terminal.ansiBlack` and `terminal.ansiBlue` pass `colorString()`, with these stripped values. */
  lemma TokyoNightMembers4()
    ensures Acceptable(TokyoNightColors(), "terminal.ansiBlack") && StripAlphaChannel(RawColor(TokyoNightColors(), "terminal.ansiBlack")) == "#363b54"
    ensures Acceptable(TokyoNightColors(), "terminal.ansiBlue") && StripAlphaChannel(RawColor(TokyoNightColors(), "terminal.ansiBlue")) == "#7aa2f7"
  {
    var c := TokyoNightColors();
    assert c["terminal.ansiBlack"] == JString("#363b54");
    assert IsHexTriple("#363b54"[1..4]) && IsHexTriple("#363b54"[4..7]);
    assert c["terminal.ansiBlue"] == JString("#7aa2f7");
    assert IsHexTriple("#7aa2f7"[1..4]) && IsHexTriple("#7aa2f7"[4..7]);
  }

  /** The Tokyo Night members `terminal.ansiBrightBlack` and `terminal.ansiBrightBlue` pass `colorString()`, with these stripped values. */
  lemma TokyoNightMembers5()
    ensures Acceptable(TokyoNightColors(), "terminal.ansiBrightBlack") && StripAlphaChannel(RawColor(TokyoNightColors(), "terminal.ansiBrightBlack")) == "#363b54"
    ensures Acceptable(TokyoNightColors(), "terminal.ansiBrightBlue") && StripAlphaChannel(RawColor(TokyoNightColors(), "terminal.ansiBrightBlue")) == "#7aa2f7"
  {
    var c := TokyoNightColors();
    assert c["terminal.ansiBrightBlack"] == JString("#363b54");
    assert IsHexTriple("#363b54"[1..4]) && IsHexTriple("#363b54"[4..7]);
    assert c["terminal.ansiBrightBlue"] == JString("#7aa2f7");
    assert IsHexTriple("#7aa2f7"[1..4]) && IsHexTriple("#7aa2f7"[4..7]);
  }

  /** The Tokyo Night members `terminal.ansiBrightCyan` and `terminal.ansiBrightGreen` pass `colorString()`, with these stripped values. */
  lemma TokyoNightMembers6()
    ensures Acceptable(TokyoNightColors(), "terminal.ansiBrightCyan") && StripAlphaChannel(RawColor(TokyoNightColors(), "terminal.ansiBrightCyan")) == "#7dcfff"
    ensures Acceptable(TokyoNightColors(), "terminal.ansiBrightGreen") && StripAlphaChannel(RawColor(TokyoNightColors(), "terminal.ansiBrightGreen")) == "#41a6b5"
  {
    var c := TokyoNightColors();
    assert c["terminal.ansiBrightCyan"] == JString("#7dcfff");
    assert IsHexTriple("#7dcfff"[1..4]) && IsHexTriple("#7dcfff"[4..7]);
    assert c["terminal.ansiBrightGreen"] == JString("#41a6b5");
    assert IsHexTriple("#41a6b5"[1..4]) && IsHexTriple("#41a6b5"[4..7]);
  }

  /** The Tokyo Night members `terminal.ansiBrightMagenta` and `terminal.ansiBrightRed` pass `colorString()`, with these stripped values. */
  lemma TokyoNightMembers7()
    ensures Acceptable(TokyoNightColors(), "terminal.ansiBrightMagenta") && StripAlphaChannel(RawColor(TokyoNightColors(), "terminal.ansiBrightMagenta")) == "#bb9af7"
    ensures Acceptable(TokyoNightColors(), "terminal.ansiBrightRed") && StripAlphaChannel(RawColor(TokyoNightColors(), "terminal.ansiBrightRed")) == "#f7768e"
  {
    var c := TokyoNightColors();
    assert c["terminal.ansiBrightMagenta"] == JString("#bb9af7");
    assert IsHexTriple("#bb9af7"[1..4]) && IsHexTriple("#bb9af7"[4..7]);
    assert c["terminal.ansiBrightRed"] == JString("#f7768e");
    assert IsHexTriple("#f7768e"[1..4]) && IsHexTriple("#f7768e"[4..7]);
  }

  /** The Tokyo Night members `terminal.ansiBrightWhite` and `terminal.ansiBrightYellow` pass `colorString()`, with these stripped values. */
  lemma TokyoNightMembers8()
    ensures Acceptable(TokyoNightColors(), "terminal.ansiBrightWhite") && StripAlphaChannel(RawColor(TokyoNightColors(), "terminal.ansiBrightWhite")) == "#acb0d0"
    ensures Acceptable(TokyoNightColors(), "terminal.ansiBrightYellow") && StripAlphaChannel(RawColor(TokyoNightColors(), "terminal.ansiBrightYellow")) == "#e0af68"
  {
    var c := TokyoNightColors();
    assert c["terminal.ansiBrightWhite"] == JString("#acb0d0");
    assert IsHexTriple("#acb0d0"[1..4]) && IsHexTriple("#acb0d0"[4..7]);
    assert c["terminal.ansiBrightYellow"] == JString("#e0af68");
    assert IsHexTriple("#e0af68"[1..4]) && IsHexTriple("#e0af68"[4..7]);
  }

  /** The Tokyo Night members `terminal.ansiCyan` and `terminal.ansiGreen` pass `colorString()`, with these stripped values. */
  lemma TokyoNightMembers9()
    ensures Acceptable(TokyoNightColors(), "terminal.ansiCyan") && StripAlphaChannel(RawColor(TokyoNightColors(), "terminal.ansiCyan")) == "#7dcfff"
    ensures Acceptable(TokyoNightColors(), "terminal.ansiGreen") && StripAlphaChannel(RawColor(TokyoNightColors(), "terminal.ansiGreen")) == "#41a6b5"
  {
    var c := TokyoNightColors();
    assert c["terminal.ansiCyan"] == JString("#7dcfff");
    assert IsHexTriple("#7dcfff"[1..4]) && IsHexTriple("#7dcfff"[4..7]);
    assert c["terminal.ansiGreen"] == JString("#41a6b5");
    assert IsHexTriple("#41a6b5"[1..4]) && IsHexTriple("#41a6b5"[4..7]);
  }

  /** The Tokyo Night members `terminal.ansiMagenta` and `terminal.ansiRed` pass `colorString()`, with these stripped values. */
  lemma TokyoNightMembers10()
    ensures Acceptable(TokyoNightColors(), "terminal.ansiMagenta") && StripAlphaChannel(RawColor(TokyoNightColors(), "terminal.ansiMagenta")) == "#bb9af7"
    ensures Acceptable(TokyoNightColors(), "terminal.ansiRed") && StripAlphaChannel(RawColor(TokyoNightColors(), "terminal.ansiRed")) == "#f7768e"
  {
    var c := TokyoNightColors();
    assert c["terminal.ansiMagenta"] == JString("#bb9af7");
    assert IsHexTriple("#bb9af7"[1..4]) && IsHexTriple("#bb9af7"[4..7]);
    assert c["terminal.ansiRed"] == JString("#f7768e");
    assert IsHexTriple("#f7768e"[1..4]) && IsHexTriple("#f7768e"[4..7]);
  }

  /** The Tokyo Night members `terminal.ansiWhite` and `terminal.ansiYellow` pass `colorString()`, with these stripped values. */
  lemma TokyoNightMembers11()
    ensures Acceptable(TokyoNightColors(), "terminal.ansiWhite") && StripAlphaChannel(RawColor(TokyoNightColors(), "terminal.ansiWhite")) == "#787c99"
    ensures Acceptable(TokyoNightColors(), "terminal.ansiYellow") && StripAlphaChannel(RawColor(TokyoNightColors(), "terminal.ansiYellow")) == "#e0af68"
  {
    var c := TokyoNightColors();
    assert c["terminal.ansiWhite"] == JString("#787c99");
    assert IsHexTriple("#787c99"[1..4]) && IsHexTriple("#787c99"[4..7]);
    assert c["terminal.ansiYellow"] == JString("#e0af68");
    assert IsHexTriple("#e0af68"[1..4]) && IsHexTriple("#e0af68"[4..7]);
  }

  /** The declared fields 0 to 2 of the Tokyo Night document hold colours. */
  lemma TokyoNightFieldsPass1()
    ensures forall i :: 0 <= i < 3 ==> CheckField(ColorsSchema[i], TokyoNightColors()).Value?
  {
    TokyoNightMembers1();
    TokyoNightMembers2();
  }

  /** The declared fields 3 to 5 of the Tokyo Night document hold colours. */
  lemma TokyoNightFieldsPass2()
    ensures forall i :: 3 <= i < 6 ==> CheckField(ColorsSchema[i], TokyoNightColors()).Value?
  {
    TokyoNightMembers3();
    TokyoNightMembers4();
  }

  /** The declared fields 6 to 8 of the Tokyo Night document hold colours. */
  lemma TokyoNightFieldsPass3()
    ensures forall i :: 6 <= i < 9 ==> CheckField(ColorsSchema[i], TokyoNightColors()).Value?
  {
    TokyoNightMembers5();
    TokyoNightMembers6();
  }

  /** The declared fields 9 to 11 of the Tokyo Night document hold colours. */
  lemma TokyoNightFieldsPass4()
    ensures forall i :: 9 <= i < 12 ==> CheckField(ColorsSchema[i], TokyoNightColors()).Value?
  {
    TokyoNightMembers6();
    TokyoNightMembers7();
  }

  /** The declared fields 12 to 14 of the Tokyo Night document hold colours. */
  lemma TokyoNightFieldsPass5()
    ensures forall i :: 12 <= i < 15 ==> CheckField(ColorsSchema[i], TokyoNightColors()).Value?
  {
    TokyoNightMembers8();
    TokyoNightMembers9();
  }

  /** The declared fields 15 to 17 of the Tokyo Night document hold colours. */
  lemma TokyoNightFieldsPass6()
    ensures forall i :: 15 <= i < 18 ==> CheckField(ColorsSchema[i], TokyoNightColors()).Value?
  {
    TokyoNightMembers9();
    TokyoNightMembers10();
  }

  /** The declared fields 18 to 19 of the Tokyo Night document hold colours. */
  lemma TokyoNightFieldsPass7()
    ensures forall i :: 18 <= i < 20 ==> CheckField(ColorsSchema[i], TokyoNightColors()).Value?
  {
    TokyoNightMembers11();
  }

  /** Every declared field of the Tokyo Night document passes: the required ones hold colours, the optional ones are absent. */
  lemma TokyoNightFieldsPass()
    ensures forall i :: 0 <= i < |ColorsSchema| ==> !CheckField(ColorsSchema[i], TokyoNightColors()).Failed?
  {
    TokyoNightFieldsPass1();
    TokyoNightFieldsPass2();
    TokyoNightFieldsPass3();
    TokyoNightFieldsPass4();
    TokyoNightFieldsPass5();
    TokyoNightFieldsPass6();
    TokyoNightFieldsPass7();
    TokyoNightNoTerminalKeys();
    assert CheckField(ColorsSchema[20], TokyoNightColors()).Omitted?;
    assert CheckField(ColorsSchema[21], TokyoNightColors()).Omitted?;
    assert CheckField(ColorsSchema[22], TokyoNightColors()).Omitted?;
  }

  /** The Tokyo Night theme file: its `colors` object beside a top-level `name` member the schema does not declare. */
  function TokyoNightDocument(): Value {
    JObject(map["name" := JString("Tokyo Night"), "colors" := JObject(TokyoNightColors())])
  }

  /** The Tokyo Night document has none of the three `terminal.*` keys that have fallbacks. */
  lemma TokyoNightNoTerminalKeys()
    ensures "terminal.background" !in TokyoNightColors()
    ensures "terminal.foreground" !in TokyoNightColors()
    ensures "terminal.selectionBackground" !in TokyoNightColors()
  {
  }

  /**
   * End to end: the three fallbacks take the editor colours, the selection
   * colour loses its alpha, magenta is renamed to `purple`, and the
   * undeclared top-level `name` member is ignored.
   */
  lemma TokyoNightExample(text: string, json5Parse: string -> Json5Result)
    requires json5Parse(text) == Ok(TokyoNightDocument())
    ensures GenerateWindowsTerminalTheme("Tokyo Night", text, json5Parse) == Success(WindowsTerminalTheme(
      name := "Tokyo Night",
      background := "#16161e", foreground := "#787c99",
      black := "#363b54", blue := "#7aa2f7",
      brightBlack := "#363b54", brightBlue := "#7aa2f7", brightCyan := "#7dcfff", brightGreen := "#41a6b5",
      brightPurple := "#bb9af7", brightRed := "#f7768e", brightWhite := "#acb0d0", brightYellow := "#e0af68",
      cyan := "#7dcfff", green := "#41a6b5", purple := "#bb9af7", red := "#f7768e",
      white := "#787c99", yellow := "#e0af68",
      cursorColor := "#c0caf5", selectionBackground := "#515c7e"))
  {
    var c := TokyoNightColors();
    assert ColorsOf(TokyoNightDocument()) == Some(c);
    TokyoNightFieldsPass();
    ThemeFields("Tokyo Night", text, json5Parse);
    TokyoNightNoTerminalKeys();
    TokyoNightMembers1();
    TokyoNightMembers2();
    TokyoNightMembers3();
    TokyoNightMembers4();
    TokyoNightMembers5();
    TokyoNightMembers6();
    TokyoNightMembers7();
    TokyoNightMembers8();
    TokyoNightMembers9();
    TokyoNightMembers10();
    TokyoNightMembers11();
  }
}
