/**
 * The `/api/generate` handler: the earlier variant of the conversion, served
 * over HTTP. All twenty colour keys are required, including the three
 * `terminal.*` keys, and there is no fallback. The handler answers 405 to
 * anything but POST, 400 with an error to a bad body or a bad theme, and
 * otherwise the renamed colours.
 */
module GenerateApi {
  import opened Wrappers
  import opened Json
  import opened Colors
  import opened Schema
  import Theme

  /** This variant's `colorsSchema`, in declared order. */
  const ColorsSchema: seq<FieldSpec> := [
    FieldSpec("editorCursor.foreground", Required),
    FieldSpec("terminal.ansiBlack", Required),
    FieldSpec("terminal.ansiBlue", Required),
    FieldSpec("terminal.ansiBrightBlack", Required),
    FieldSpec("terminal.ansiBrightBlue", Required),
    FieldSpec("terminal.ansiBrightCyan", Required),
    FieldSpec("terminal.ansiBrightGreen", Required),
    FieldSpec("terminal.ansiBrightMagenta", Required),
    FieldSpec("terminal.ansiBrightRed", Required),
    FieldSpec("terminal.ansiBrightWhite", Required),
    FieldSpec("terminal.ansiBrightYellow", Required),
    FieldSpec("terminal.ansiCyan", Required),
    FieldSpec("terminal.ansiGreen", Required),
    FieldSpec("terminal.ansiMagenta", Required),
    FieldSpec("terminal.ansiRed", Required),
    FieldSpec("terminal.ansiWhite", Required),
    FieldSpec("terminal.ansiYellow", Required),
    FieldSpec("terminal.background", Required),
    FieldSpec("terminal.foreground", Required),
    FieldSpec("terminal.selectionBackground", Required)
  ]

  /**
   * The shape of this `colorsSchema`: 20 declared keys, all required, the
   * three `terminal.*` keys last.
   */
  lemma ColorsSchemaShape()
    ensures |ColorsSchema| == 20
    ensures forall i :: 0 <= i < |ColorsSchema| ==> ColorsSchema[i].presence.Required?
    ensures ColorsSchema[17].key == "terminal.background"
    ensures ColorsSchema[18].key == "terminal.foreground"
    ensures ColorsSchema[19].key == "terminal.selectionBackground"
  {
  }

  /** The scheme the handler answers with. */
  datatype ApiResult = ApiResult(
    name: string,
    background: string,
    foreground: string,
    black: string,
    blue: string,
    brightBlack: string,
    brightBlue: string,
    brightCyan: string,
    brightGreen: string,
    brightPurple: string,
    brightRed: string,
    brightWhite: string,
    brightYellow: string,
    cyan: string,
    green: string,
    purple: string,
    red: string,
    white: string,
    yellow: string,
    cursorColor: string,
    selectionBackground: string)

  /** The request as far as the handler looks at it: its method and its decoded JSON body. */
  datatype Request = Request(httpMethod: string, body: Value)

  /** `res.status(405).end()`, `res.status(400).json({ error })` or `res.json(result)`. */
  datatype ResponseBody = NoBody | ErrorJson(error: Error) | ResultJson(result: ApiResult)

  datatype Response = Response(status: int, body: ResponseBody)

  /** The body fields the handler reads. */
  datatype Body = Body(colorTheme: string, themeName: string)

  /** The issue for one `z.string()` member of the body, if it has one. */
  function StringMemberIssues(members: map<string, Value>, key: string): (r: seq<Issue>)
    ensures r == [] <==> key in members && members[key].JString?
  {
    if key !in members then [Issue([key], Missing)]
    else if !members[key].JString? then [Issue([key], ExpectedString)]
    else []
  }

  /**
   * `z.object({ colorTheme: z.string(), themeName: z.string() }).parse(body)`:
   * the body must be an object holding both members as strings.
   */
  function ParseBody(body: Value): (r: Result<Body, seq<Issue>>)
    ensures r.Success? <==>
      body.JObject? &&
      "colorTheme" in body.members && body.members["colorTheme"].JString? &&
      "themeName" in body.members && body.members["themeName"].JString?
    ensures r.Success? ==>
      r.value == Body(body.members["colorTheme"].s, body.members["themeName"].s)
    ensures r.Failure? ==> r.error != []
  {
    match body
    case JObject(members) =>
      var issues := StringMemberIssues(members, "colorTheme") + StringMemberIssues(members, "themeName");
      if issues == [] then Success(Body(members["colorTheme"].s, members["themeName"].s))
      else Failure(issues)
    case _ => Failure([Issue([], ExpectedObject)])
  }

  /** What the handler's `try` block establishes: the theme name and the parsed colours. */
  datatype Validated = Validated(themeName: string, colors: map<string, string>)

  /**
   * The `try` block: parse the body, read the theme text, validate it. Each
   * step that fails ends the block with its error, and later steps do not run.
   */
  function Validate(body: Value, json5Parse: string -> Json5Result): (r: Result<Validated, Error>)
    ensures ParseBody(body).Failure? ==> r == Failure(ValidationError(ParseBody(body).error))
    ensures ParseBody(body).Success? && json5Parse(ParseBody(body).value.colorTheme).ParseError? ==>
      r == Failure(SyntaxError(json5Parse(ParseBody(body).value.colorTheme).message))
    ensures r.Success? <==>
      ParseBody(body).Success? && json5Parse(ParseBody(body).value.colorTheme).Ok? &&
      ParseColors(ColorsSchema, json5Parse(ParseBody(body).value.colorTheme).doc).Success?
    ensures ParseBody(body).Success? && json5Parse(ParseBody(body).value.colorTheme).Ok? && r.Failure? ==>
      r.error == ValidationError(ParseColors(ColorsSchema, json5Parse(ParseBody(body).value.colorTheme).doc).error)
    ensures r.Success? ==> r.value.themeName == ParseBody(body).value.themeName
    ensures r.Failure? && r.error.ValidationError? ==> r.error.issues != []
  {
    match ParseBody(body)
    case Failure(issues) => Failure(ValidationError(issues))
    case Success(b) =>
      match json5Parse(b.colorTheme)
      case ParseError(message) => Failure(SyntaxError(message))
      case Ok(doc) =>
        match ParseColors(ColorsSchema, doc)
        case Failure(issues) => Failure(ValidationError(issues))
        case Success(colors) => Success(Validated(b.themeName, colors))
  }

  /** Every key of this variant's `colorsSchema` is in the parsed colours. */
  predicate HasAllColors(colors: map<string, string>) {
    "editorCursor.foreground" in colors &&
    "terminal.ansiBlack" in colors &&
    "terminal.ansiBlue" in colors &&
    "terminal.ansiBrightBlack" in colors &&
    "terminal.ansiBrightBlue" in colors &&
    "terminal.ansiBrightCyan" in colors &&
    "terminal.ansiBrightGreen" in colors &&
    "terminal.ansiBrightMagenta" in colors &&
    "terminal.ansiBrightRed" in colors &&
    "terminal.ansiBrightWhite" in colors &&
    "terminal.ansiBrightYellow" in colors &&
    "terminal.ansiCyan" in colors &&
    "terminal.ansiGreen" in colors &&
    "terminal.ansiMagenta" in colors &&
    "terminal.ansiRed" in colors &&
    "terminal.ansiWhite" in colors &&
    "terminal.ansiYellow" in colors &&
    "terminal.background" in colors &&
    "terminal.foreground" in colors &&
    "terminal.selectionBackground" in colors
  }

  /** The entries of `ColorsSchema`, read by position, are exactly the keys `HasAllColors` names. */
  lemma AllColorsPresent(colors: map<string, string>)
    requires forall i :: 0 <= i < |ColorsSchema| && ColorsSchema[i].presence.Required? ==> ColorsSchema[i].key in colors
    ensures HasAllColors(colors)
  {
    AllColorsPresentPart1(colors);
    AllColorsPresentPart2(colors);
    AllColorsPresentPart3(colors);
    AllColorsPresentPart4(colors);
  }

  // `AllColorsPresent` is split into four parts only to keep each proof
  // obligation within the solver's resource limit.

  /** Entries 0 to 4 of `ColorsSchema`. */
  lemma AllColorsPresentPart1(colors: map<string, string>)
    requires forall i :: 0 <= i < |ColorsSchema| && ColorsSchema[i].presence.Required? ==> ColorsSchema[i].key in colors
    ensures "editorCursor.foreground" in colors
    ensures "terminal.ansiBlack" in colors
    ensures "terminal.ansiBlue" in colors
    ensures "terminal.ansiBrightBlack" in colors
    ensures "terminal.ansiBrightBlue" in colors
  {
    assert ColorsSchema[0].key in colors;
    assert ColorsSchema[1].key in colors;
    assert ColorsSchema[2].key in colors;
    assert ColorsSchema[3].key in colors;
    assert ColorsSchema[4].key in colors;
  }

  /** Entries 5 to 9 of `ColorsSchema`. */
  lemma AllColorsPresentPart2(colors: map<string, string>)
    requires forall i :: 0 <= i < |ColorsSchema| && ColorsSchema[i].presence.Required? ==> ColorsSchema[i].key in colors
    ensures "terminal.ansiBrightCyan" in colors
    ensures "terminal.ansiBrightGreen" in colors
    ensures "terminal.ansiBrightMagenta" in colors
    ensures "terminal.ansiBrightRed" in colors
    ensures "terminal.ansiBrightWhite" in colors
  {
    assert ColorsSchema[5].key in colors;
    assert ColorsSchema[6].key in colors;
    assert ColorsSchema[7].key in colors;
    assert ColorsSchema[8].key in colors;
    assert ColorsSchema[9].key in colors;
  }

  /** Entries 10 to 14 of `ColorsSchema`. */
  lemma AllColorsPresentPart3(colors: map<string, string>)
    requires forall i :: 0 <= i < |ColorsSchema| && ColorsSchema[i].presence.Required? ==> ColorsSchema[i].key in colors
    ensures "terminal.ansiBrightYellow" in colors
    ensures "terminal.ansiCyan" in colors
    ensures "terminal.ansiGreen" in colors
    ensures "terminal.ansiMagenta" in colors
    ensures "terminal.ansiRed" in colors
  {
    assert ColorsSchema[10].key in colors;
    assert ColorsSchema[11].key in colors;
    assert ColorsSchema[12].key in colors;
    assert ColorsSchema[13].key in colors;
    assert ColorsSchema[14].key in colors;
  }

  /** Entries 15 to 19 of `ColorsSchema`. */
  lemma AllColorsPresentPart4(colors: map<string, string>)
    requires forall i :: 0 <= i < |ColorsSchema| && ColorsSchema[i].presence.Required? ==> ColorsSchema[i].key in colors
    ensures "terminal.ansiWhite" in colors
    ensures "terminal.ansiYellow" in colors
    ensures "terminal.background" in colors
    ensures "terminal.foreground" in colors
    ensures "terminal.selectionBackground" in colors
  {
    assert ColorsSchema[15].key in colors;
    assert ColorsSchema[16].key in colors;
    assert ColorsSchema[17].key in colors;
    assert ColorsSchema[18].key in colors;
    assert ColorsSchema[19].key in colors;
  }

  /** A successful `try` block has every declared colour. */
  lemma ValidatedHasAllColors(body: Value, json5Parse: string -> Json5Result)
    requires Validate(body, json5Parse).Success?
    ensures HasAllColors(Validate(body, json5Parse).value.colors)
  {
    var doc := json5Parse(ParseBody(body).value.colorTheme).doc;
    ParseColorsSuccess(ColorsSchema, doc);
    AllColorsPresent(ParseColors(ColorsSchema, doc).value);
  }

  /** The object literal passed to `res.json`: a fixed renaming, with no fallback. */
  function ToApiResult(themeName: string, colors: map<string, string>): ApiResult
    requires HasAllColors(colors)
  {
    ApiResult(
      name := themeName,
      background := colors["terminal.background"],
      foreground := colors["terminal.foreground"],
      black := colors["terminal.ansiBlack"],
      blue := colors["terminal.ansiBlue"],
      brightBlack := colors["terminal.ansiBrightBlack"],
      brightBlue := colors["terminal.ansiBrightBlue"],
      brightCyan := colors["terminal.ansiBrightCyan"],
      brightGreen := colors["terminal.ansiBrightGreen"],
      brightPurple := colors["terminal.ansiBrightMagenta"],
      brightRed := colors["terminal.ansiBrightRed"],
      brightWhite := colors["terminal.ansiBrightWhite"],
      brightYellow := colors["terminal.ansiBrightYellow"],
      cyan := colors["terminal.ansiCyan"],
      green := colors["terminal.ansiGreen"],
      purple := colors["terminal.ansiMagenta"],
      red := colors["terminal.ansiRed"],
      white := colors["terminal.ansiWhite"],
      yellow := colors["terminal.ansiYellow"],
      cursorColor := colors["editorCursor.foreground"],
      selectionBackground := colors["terminal.selectionBackground"])
  }

  /**
   * The handler. A non-POST request gets 405 and no body, whatever its body
   * holds. A POST request whose `try` block fails gets 400 and the error;
   * otherwise the response is 200 with the renamed colours.
   */
  method Generate(req: Request, json5Parse: string -> Json5Result) returns (res: Response)
    ensures req.httpMethod != "POST" ==> res == Response(405, NoBody)
    ensures req.httpMethod == "POST" && Validate(req.body, json5Parse).Failure? ==>
      res == Response(400, ErrorJson(Validate(req.body, json5Parse).error))
    ensures req.httpMethod == "POST" && Validate(req.body, json5Parse).Success? ==>
      HasAllColors(Validate(req.body, json5Parse).value.colors) &&
      res == Response(200, ResultJson(ToApiResult(Validate(req.body, json5Parse).value.themeName,
                                                  Validate(req.body, json5Parse).value.colors)))
    ensures res.status == 400 <==> res.body.ErrorJson?
  {
    if req.httpMethod != "POST" {
      return Response(405, NoBody);
    }

    var themeName: string;
    var colors: map<string, string>;

    var body := ParseBody(req.body);
    if body.Failure? {
      return Response(400, ErrorJson(ValidationError(body.error)));
    }
    themeName := body.value.themeName;
    var parsed := json5Parse(body.value.colorTheme);
    if parsed.ParseError? {
      return Response(400, ErrorJson(SyntaxError(parsed.message)));
    }
    var checked := ParseColors(ColorsSchema, parsed.doc);
    if checked.Failure? {
      return Response(400, ErrorJson(ValidationError(checked.error)));
    }
    colors := checked.value;

    ValidatedHasAllColors(req.body, json5Parse);
    res := Response(200, ResultJson(ToApiResult(themeName, colors)));
  }

  /** The renaming table applied to parsed colours that are the stripped members of `c`. */
  lemma ToApiResultRenaming(themeName: string, colors: map<string, string>, c: map<string, Value>)
    requires HasAllColors(colors)
    requires forall k :: k in colors ==> colors[k] == StripAlphaChannel(RawColor(c, k))
    ensures var a := ToApiResult(themeName, colors);
      && a.name == themeName
      && a.background == StripAlphaChannel(RawColor(c, "terminal.background"))
      && a.foreground == StripAlphaChannel(RawColor(c, "terminal.foreground"))
      && a.black == StripAlphaChannel(RawColor(c, "terminal.ansiBlack"))
      && a.blue == StripAlphaChannel(RawColor(c, "terminal.ansiBlue"))
      && a.brightBlack == StripAlphaChannel(RawColor(c, "terminal.ansiBrightBlack"))
      && a.brightBlue == StripAlphaChannel(RawColor(c, "terminal.ansiBrightBlue"))
      && a.brightCyan == StripAlphaChannel(RawColor(c, "terminal.ansiBrightCyan"))
      && a.brightGreen == StripAlphaChannel(RawColor(c, "terminal.ansiBrightGreen"))
      && a.brightPurple == StripAlphaChannel(RawColor(c, "terminal.ansiBrightMagenta"))
      && a.brightRed == StripAlphaChannel(RawColor(c, "terminal.ansiBrightRed"))
      && a.brightWhite == StripAlphaChannel(RawColor(c, "terminal.ansiBrightWhite"))
      && a.brightYellow == StripAlphaChannel(RawColor(c, "terminal.ansiBrightYellow"))
      && a.cyan == StripAlphaChannel(RawColor(c, "terminal.ansiCyan"))
      && a.green == StripAlphaChannel(RawColor(c, "terminal.ansiGreen"))
      && a.purple == StripAlphaChannel(RawColor(c, "terminal.ansiMagenta"))
      && a.red == StripAlphaChannel(RawColor(c, "terminal.ansiRed"))
      && a.white == StripAlphaChannel(RawColor(c, "terminal.ansiWhite"))
      && a.yellow == StripAlphaChannel(RawColor(c, "terminal.ansiYellow"))
      && a.cursorColor == StripAlphaChannel(RawColor(c, "editorCursor.foreground"))
      && a.selectionBackground == StripAlphaChannel(RawColor(c, "terminal.selectionBackground"))
  {
  }

  /** The document behind a successful `try` block, and what the schema made of its colours. */
  lemma ValidatedColors(body: Value, json5Parse: string -> Json5Result)
    requires Validate(body, json5Parse).Success?
    ensures var doc := json5Parse(ParseBody(body).value.colorTheme).doc;
      var colors := Validate(body, json5Parse).value.colors;
      && ColorsOf(doc).Some?
      && (forall k :: k in colors ==> colors[k] == StripAlphaChannel(RawColor(ColorsOf(doc).value, k)) && IsValidColor(colors[k]))
  {
    var doc := json5Parse(ParseBody(body).value.colorTheme).doc;
    ParseColorsSuccess(ColorsSchema, doc);
  }

  /**
   * A successful response carries `themeName` as its name and, field for
   * field, the stripped value of its fixed source key; `background`,
   * `foreground` and `selectionBackground` come from the `terminal.*` keys
   * only. Every field is a valid colour of 4 or 7 characters.
   */
  lemma ApiResultFields(body: Value, json5Parse: string -> Json5Result)
    requires Validate(body, json5Parse).Success?
    ensures HasAllColors(Validate(body, json5Parse).value.colors)
    ensures ParseBody(body).Success? && json5Parse(ParseBody(body).value.colorTheme).Ok?
    ensures ColorsOf(json5Parse(ParseBody(body).value.colorTheme).doc).Some?
    ensures var v := Validate(body, json5Parse).value;
      var a := ToApiResult(v.themeName, v.colors);
      var c := ColorsOf(json5Parse(ParseBody(body).value.colorTheme).doc).value;
      && a.name == body.members["themeName"].s
      && a.background == StripAlphaChannel(RawColor(c, "terminal.background"))
      && a.foreground == StripAlphaChannel(RawColor(c, "terminal.foreground"))
      && a.black == StripAlphaChannel(RawColor(c, "terminal.ansiBlack"))
      && a.blue == StripAlphaChannel(RawColor(c, "terminal.ansiBlue"))
      && a.brightBlack == StripAlphaChannel(RawColor(c, "terminal.ansiBrightBlack"))
      && a.brightBlue == StripAlphaChannel(RawColor(c, "terminal.ansiBrightBlue"))
      && a.brightCyan == StripAlphaChannel(RawColor(c, "terminal.ansiBrightCyan"))
      && a.brightGreen == StripAlphaChannel(RawColor(c, "terminal.ansiBrightGreen"))
      && a.brightPurple == StripAlphaChannel(RawColor(c, "terminal.ansiBrightMagenta"))
      && a.brightRed == StripAlphaChannel(RawColor(c, "terminal.ansiBrightRed"))
      && a.brightWhite == StripAlphaChannel(RawColor(c, "terminal.ansiBrightWhite"))
      && a.brightYellow == StripAlphaChannel(RawColor(c, "terminal.ansiBrightYellow"))
      && a.cyan == StripAlphaChannel(RawColor(c, "terminal.ansiCyan"))
      && a.green == StripAlphaChannel(RawColor(c, "terminal.ansiGreen"))
      && a.purple == StripAlphaChannel(RawColor(c, "terminal.ansiMagenta"))
      && a.red == StripAlphaChannel(RawColor(c, "terminal.ansiRed"))
      && a.white == StripAlphaChannel(RawColor(c, "terminal.ansiWhite"))
      && a.yellow == StripAlphaChannel(RawColor(c, "terminal.ansiYellow"))
      && a.cursorColor == StripAlphaChannel(RawColor(c, "editorCursor.foreground"))
      && a.selectionBackground == StripAlphaChannel(RawColor(c, "terminal.selectionBackground"))
      && forall f :: f in ResultColors(a) ==> IsValidColor(f) && (|f| == 4 || |f| == 7)
  {
    ValidatedHasAllColors(body, json5Parse);
    ValidatedColors(body, json5Parse);
    var v := Validate(body, json5Parse).value;
    var c := ColorsOf(json5Parse(ParseBody(body).value.colorTheme).doc).value;
    ToApiResultRenaming(v.themeName, v.colors, c);
    ResultColorsFromColors(v.themeName, v.colors);
  }

  /** The colour fields of a result, in the order they are declared. */
  function ResultColors(a: ApiResult): seq<string> {
    [a.background, a.foreground, a.black, a.blue, a.brightBlack, a.brightBlue,
     a.brightCyan, a.brightGreen, a.brightPurple, a.brightRed, a.brightWhite,
     a.brightYellow, a.cyan, a.green, a.purple, a.red, a.white, a.yellow,
     a.cursorColor, a.selectionBackground]
  }

  /** Every colour field of a renamed result is one of the parsed colours. */
  lemma ResultColorsFromColors(themeName: string, colors: map<string, string>)
    requires HasAllColors(colors)
    ensures forall f :: f in ResultColors(ToApiResult(themeName, colors)) ==> f in colors.Values
  {
  }

  /**
   * Every declared key is required here: an absent one, the `terminal.*`
   * keys included, fails the `try` block with a `Missing` issue for it,
   * whatever else the document holds (an `editor.background` does not stand in).
   */
  lemma ApiKeyMissing(body: Value, json5Parse: string -> Json5Result, key: string)
    requires ParseBody(body).Success? && json5Parse(ParseBody(body).value.colorTheme).Ok?
    requires ColorsOf(json5Parse(ParseBody(body).value.colorTheme).doc).Some?
    requires FieldSpec(key, Required) in ColorsSchema
    requires key !in ColorsOf(json5Parse(ParseBody(body).value.colorTheme).doc).value
    ensures var r := Validate(body, json5Parse);
      r.Failure? && r.error.ValidationError? && Issue(["colors", key], Missing) in r.error.issues
  {
    ParseColorsReports(ColorsSchema, json5Parse(ParseBody(body).value.colorTheme).doc, FieldSpec(key, Required));
  }

  /**
   * A declared key that is present but not a string, or a string that fails
   * the pattern once stripped, fails the `try` block with an issue for that
   * key; the colour issue carries the stripped string.
   */
  lemma ApiKeyRejected(body: Value, json5Parse: string -> Json5Result, key: string)
    requires ParseBody(body).Success? && json5Parse(ParseBody(body).value.colorTheme).Ok?
    requires ColorsOf(json5Parse(ParseBody(body).value.colorTheme).doc).Some?
    requires FieldSpec(key, Required) in ColorsSchema
    requires key in ColorsOf(json5Parse(ParseBody(body).value.colorTheme).doc).value
    requires !Acceptable(ColorsOf(json5Parse(ParseBody(body).value.colorTheme).doc).value, key)
    ensures var r := Validate(body, json5Parse);
      var v := ColorsOf(json5Parse(ParseBody(body).value.colorTheme).doc).value[key];
      r.Failure? && r.error.ValidationError? &&
      Issue(["colors", key], if v.JString? then InvalidColor(StripAlphaChannel(v.s)) else ExpectedString) in r.error.issues
  {
    ParseColorsReports(ColorsSchema, json5Parse(ParseBody(body).value.colorTheme).doc, FieldSpec(key, Required));
  }

  /** A scheme of the library variant and a result of the handler that hold the same name and colours. */
  predicate SameScheme(t: Theme.WindowsTerminalTheme, a: ApiResult) {
    t.name == a.name && Theme.ColorFields(t) == ResultColors(a)
  }

  /**
   * The two variants agree wherever both accept a document: the handler's
   * result and the library's scheme then hold the same name and colours,
   * because the `terminal.*` keys the handler requires leave the library's
   * fallbacks unused.
   */
  lemma VariantsAgree(name: string, doc: Value)
    requires ParseColors(Theme.ColorsSchema, doc).Success?
    requires ParseColors(ColorsSchema, doc).Success?
    ensures Theme.HasRequiredColors(ParseColors(Theme.ColorsSchema, doc).value)
    ensures HasAllColors(ParseColors(ColorsSchema, doc).value)
    ensures SameScheme(Theme.ToTheme(name, ParseColors(Theme.ColorsSchema, doc).value),
                       ToApiResult(name, ParseColors(ColorsSchema, doc).value))
  {
    var c := ColorsOf(doc).value;
    var libColors := ParseColors(Theme.ColorsSchema, doc).value;
    var apiColors := ParseColors(ColorsSchema, doc).value;
    ParseColorsSuccess(Theme.ColorsSchema, doc);
    ParseColorsSuccess(ColorsSchema, doc);
    Theme.RequiredColorsPresent(libColors);
    AllColorsPresent(apiColors);
    forall k | k in libColors ensures libColors[k] == StripAlphaChannel(RawColor(c, k)) {
      assert c[k].JString?;
    }
    forall k | k in apiColors ensures apiColors[k] == StripAlphaChannel(RawColor(c, k)) {
      assert c[k].JString?;
    }
    Theme.OptionalKeysDeclared();
    Theme.ToThemeRenaming(name, libColors, c);
    ToApiResultRenaming(name, apiColors, c);
  }
}
