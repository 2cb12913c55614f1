# VS Code theme to Windows Terminal scheme, in Dafny

This project models the converter that turns a VS Code colour theme into a
Windows Terminal colour scheme. The converter receives a theme name and the
theme's text in relaxed JSON (json5). It reads the nested `colors` object,
keeps a fixed set of keys, and drops any alpha channel from each colour by
length alone: 5 characters become 4, 9 become 7. It then checks the result
against `#` followed by three or six hex digits, and renames the keys onto the
terminal's flat fields. The result is either a complete scheme or an error.

Two variants are modelled, as they exist side by side in the repository:

- `lib/generateWindowsTerminalTheme.ts` (module `Theme`): 20 required keys.
  It also has 3 optional `terminal.*` keys. Each falls back one level on a
  required editor key (`editor.background`, `foreground`,
  `editor.selectionBackground`).
- `pages/api/generate.ts` (module `GenerateApi`): the HTTP handler. It
  requires all 20 of its keys, the `terminal.*` ones included, and has no
  fallback. Its answer is 405 for a non-POST request, 400 with an error for a
  bad body or a bad theme, and the renamed colours otherwise. The handler is a
  method with the source's mutable `themeName` and `colors`.

Shared modules:

- `Colors`: the alpha-stripping rule, the hex-colour pattern and `colorString()`.
- `Schema`: the zod object schema, written as an ordered list of field specifications.
- `Json`: the document tree and the two outcomes of the json5 reader.
- `Wrappers`: `Option` and `Result`.

The json5 reader is a function parameter `string -> Json5Result` that either
yields a tree or fails with the reader's message. zod reports every failing
field, not only the first. So a validation error carries the list of issues,
one per failing declared field. The lemmas prove that this list names exactly
the failing fields.

Two consequences of the code worth stating:

- zod collects the issues of every failing field, so a validation error
  lists them all rather than only the first.
- The invalid-colour message quotes the string after stripping: `notacolor`
  has nine characters, so the message reads `"notacol" is not a valid color`
  (`Colors.NotAColorQuotesStripped`).

## Model

| member | source | states |
|---|---|---|
| `Colors.StripAlphaChannel` | lib/generateWindowsTerminalTheme.ts:4-9 | the result is a prefix of the input: 4 characters of a 5-character string, 7 of a 9-character string, the input itself at any other length; it never has length 5 or 9 |
| `Colors.StripIdempotent` | lib/generateWindowsTerminalTheme.ts:4-9 | stripping an already stripped string changes nothing |
| `Colors.ValidColorShape` | lib/generateWindowsTerminalTheme.ts:16 | `IsValidColor`, the pattern `^#[A-Fa-f0-9]{3}(?:[A-Fa-f0-9]{3})?$`, built group by group, holds exactly of the strings of length 4 or 7 that start with `#` and have a hex digit (either case) everywhere else |
| `Colors.CheckColor` | lib/generateWindowsTerminalTheme.ts:11-18 | a string is accepted iff its stripped form matches the pattern; an accepted colour is that stripped form, a prefix of the input of 4 or 7 characters; a refused one carries the stripped string |
| `Colors.InvalidColorMessage` | lib/generateWindowsTerminalTheme.ts:17 | the message is the stripped string between double quotes, followed by ` is not a valid color` |
| `Colors.AlphaNeverChecked` | lib/generateWindowsTerminalTheme.ts:14-16 | appending any one character to a 4-character string, or any two to a 7-character string, leaves the verdict and the colour unchanged |
| `Colors.CheckColorExamples` | lib/generateWindowsTerminalTheme.ts:11-18 | `#1234` gives `#123`, `#11223344` gives `#112233`, `#123z` is accepted as `#123`, `#12` is refused as it is |
| `Colors.NotAColorQuotesStripped` | pages/api/generate.ts:9-18 | `notacolor` is cut to `notacol` before the test, and the message quotes `notacol` |
| `Schema.CheckField` | lib/generateWindowsTerminalTheme.ts:22-44 | an absent key is a `Missing` issue when required and omitted when optional; a present key yields its stripped colour iff it is a string passing the pattern, and otherwise an `ExpectedString` or `InvalidColor(stripped)` issue, optional or not |
| `Schema.FieldIssuesExact` | lib/generateWindowsTerminalTheme.ts:20-46 | `FieldIssues`, zod's collection of issues over the declared fields in order: each listed issue is the issue of a failing declared field, each failing declared field's issue is listed, and the list is empty iff no declared field fails |
| `Schema.OutputExact` | lib/generateWindowsTerminalTheme.ts:20-46 | `Output`, zod's output object with unknown keys stripped: the parsed `colors` object holds exactly the declared keys whose value is an acceptable colour, each mapped to its stripped value; undeclared keys are dropped |
| `Schema.ParseColors` | lib/generateWindowsTerminalTheme.ts:20-46 | the parse succeeds iff the document is an object whose `colors` member is an object and no declared field fails; a non-object document, an absent `colors` and a non-object `colors` each give their own single issue; a failure always has an issue, and when `colors` is an object its issues are exactly `FieldIssues` of it |
| `Schema.ParseColorsSuccess` | lib/generateWindowsTerminalTheme.ts:20-46 | after a successful parse every required key is present, the output's keys are the declared keys present in `colors`, and every output value is its input stripped and a valid colour |
| `Schema.ParseColorsReports` | lib/generateWindowsTerminalTheme.ts:20-46 | a failing declared field makes the parse fail and its issue is among the reported ones |
| `Schema.IgnoresUndeclaredKeys` | lib/generateWindowsTerminalTheme.ts:20-46 | two documents whose `colors` objects agree on the declared keys parse to the same result |
| `Schema.FieldsAgree` | lib/generateWindowsTerminalTheme.ts:21-45 | the issues and the output object depend only on the declared keys of `colors` |
| `Theme.ColorsSchemaShape` | lib/generateWindowsTerminalTheme.ts:20-46 | `colorsSchema` declares 23 keys: the first 20 required, the last three `terminal.background`, `terminal.foreground` and `terminal.selectionBackground`, optional |
| `Theme.RequiredColorsPresent` | lib/generateWindowsTerminalTheme.ts:22-41 | the 20 required entries of the schema are the keys the renaming may read, fallbacks included |
| `Theme.GenerateWindowsTerminalTheme` | lib/generateWindowsTerminalTheme.ts:72-102 | a reader error is passed on as a syntax error; otherwise the conversion succeeds iff `colors` is an object and every declared field passes; when the text was read, a failure is a validation error carrying exactly the schema's issues (so a non-object document, an absent `colors` and a non-object `colors` give their own single issue); a validation error always has an issue; the scheme's name is the argument |
| `Theme.GenerateSucceeded` | lib/generateWindowsTerminalTheme.ts:76-78 | a successful conversion is the renaming of what the schema returned, which then holds every required key |
| `Theme.ToThemeFieldsFromColors` | lib/generateWindowsTerminalTheme.ts:78-101 | every colour field of the scheme is one of the parsed colours |
| `Theme.ThemeColorsValid` | lib/generateWindowsTerminalTheme.ts:78-101 | on success every colour field matches the pattern and has 4 or 7 characters |
| `Theme.ToThemeRenaming` | lib/generateWindowsTerminalTheme.ts:78-101 | `ToTheme` with `Coalesce` for `??`: the renaming table field by field, with `??` taking the `terminal.*` colour when the key is present and the editor colour otherwise |
| `Theme.ThemeFields` | lib/generateWindowsTerminalTheme.ts:78-101 | on success: `name` is the argument; each field is the stripped value of its fixed source key (magenta to `purple`, bright magenta to `brightPurple`, `editorCursor.foreground` to `cursorColor`); `background`, `foreground` and `selectionBackground` use the `terminal.*` key when present and `editor.background`, `foreground`, `editor.selectionBackground` when absent |
| `Theme.OptionalKeysDeclared` | lib/generateWindowsTerminalTheme.ts:42-44 | the three `terminal.*` keys are declared by the schema |
| `Theme.RequiredKeyMissing` | lib/generateWindowsTerminalTheme.ts:20-41 | an absent required key fails the conversion with a `Missing` issue for that key, whatever else the document holds, fallback keys included |
| `Theme.PresentKeyRejected` | lib/generateWindowsTerminalTheme.ts:42-44 | a declared key that is present but not a string, or whose stripped string fails the pattern, fails the conversion with an issue for that key (the stripped string for a colour issue), even for an optional `terminal.*` key: no fallback is taken |
| `Theme.ThemeIgnoresUndeclaredKeys` | lib/generateWindowsTerminalTheme.ts:20-46 | keys the schema does not declare do not change the conversion's result |
| `Theme.TokyoNightFieldsPass` | lib/generateWindowsTerminalTheme.ts:20-46 | every declared field of the sample document passes |
| `Theme.TokyoNightExample` | lib/generateWindowsTerminalTheme.ts:72-102 | a Tokyo Night document without `terminal.*` keys converts to the expected scheme, with the editor fallbacks, the selection colour stripped of its alpha, and the undeclared top-level `name` member ignored |
| `GenerateApi.StringMemberIssues` | pages/api/generate.ts:84 | a body member gives no issue iff it is present and a string |
| `GenerateApi.ParseBody` | pages/api/generate.ts:83-87 | the body is accepted iff it is an object whose `colorTheme` and `themeName` are strings, and then yields both; a refused body has an issue |
| `GenerateApi.Validate` | pages/api/generate.ts:82-93 | a bad body is a validation error and the theme text is never read; a reader error is passed on; the block succeeds iff the body, the reader and the schema all do, keeping the body's `themeName`; when the body and the reader succeed, a failure is a validation error carrying exactly the schema's issues |
| `GenerateApi.ColorsSchemaShape` | pages/api/generate.ts:21-44 | this `colorsSchema` declares 20 keys, all required, the three `terminal.*` keys among them |
| `GenerateApi.AllColorsPresent` | pages/api/generate.ts:21-44 | the 20 entries of this schema are the keys the renaming reads |
| `GenerateApi.ValidatedHasAllColors` | pages/api/generate.ts:21-44 | after a successful `try` block all 20 keys are present, `terminal.*` included |
| `GenerateApi.Generate` | pages/api/generate.ts:70-118 | a non-POST request gets 405 with no body, whatever it holds; a POST whose `try` block fails gets 400 with that error; otherwise 200 with the renamed colours; status 400 goes with an error body and only with one |
| `GenerateApi.ToApiResultRenaming` | pages/api/generate.ts:95-117 | `ToApiResult`: the renaming table field by field, with `background`, `foreground` and `selectionBackground` taken from the `terminal.*` keys |
| `GenerateApi.ValidatedColors` | pages/api/generate.ts:5-19 | each colour the `try` block keeps is its document value stripped, and a valid colour |
| `GenerateApi.ApiResultFields` | pages/api/generate.ts:95-117 | on success the result's name is the body's `themeName`; each field is the stripped value of its fixed source key, with no fallback; every colour field is a valid colour of 4 or 7 characters |
| `GenerateApi.ResultColorsFromColors` | pages/api/generate.ts:95-117 | every colour field of the result is one of the parsed colours |
| `GenerateApi.ApiKeyMissing` | pages/api/generate.ts:21-44 | any absent declared key, `terminal.background`, `terminal.foreground` and `terminal.selectionBackground` included, fails the request's validation with a `Missing` issue for it |
| `GenerateApi.ApiKeyRejected` | pages/api/generate.ts:5-19 | a present declared key that is not a string, or whose stripped string fails the pattern, fails validation with an issue for it carrying the stripped string |
| `GenerateApi.VariantsAgree` | pages/api/generate.ts:95-117 | on a document both variants accept, the handler's result and the library's scheme hold the same name and colours |

## Left out

- json5 parsing: a foreign library. The reader is a function parameter that fails with a message or yields a tree.
- zod's error text: `ZodError.message` and the default messages for missing, non-string and non-object values are not modelled. The 400 body carries the structured error (reader message or issue list). Only the invalid-colour message is spelled out (`Colors.InvalidColorMessage`).
- Issue order: the model lists issues in declared field order. Under `parseAsync`, zod adds type issues synchronously and refinement issues later. `ParseColors` lists the issues in declared field order; the order zod actually reports them in is not modelled.
- Promises and `async`: the model is synchronous. No concurrency is involved.
- Next.js request and response objects: only the method, the decoded body, and the status and body of the answer are modelled. `res.json` without a status is modelled as status 200. `res.status`, `res.end` and headers are left out.
- The `String(err)` branch of the handler's `catch`: every error thrown in the `try` block is an `Error`.
- JSON numbers are reals: `NaN` and `Infinity` are not representable. Any number is refused as "not a string" anyway.
- `Colors.StripAlphaChannel`: lengths are counted in Unicode characters. JavaScript counts UTF-16 code units. The two differ only for strings with characters outside the Basic Multilingual Plane, such as `#123` followed by an emoji.
- `routes/Home.tsx`, `routes/Home.test.tsx`, `components/Input.tsx`, `lib/fetchApi.ts`, `jest/setupTests.ts`, `pages/_app.tsx`: user interface, local storage, clipboard, network glue and test harness. None of these decide the conversion.
