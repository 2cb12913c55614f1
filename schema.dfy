/**
 * The validation both variants perform with zod: a top-level object whose
 * `colors` member is an object holding one colour string per declared key.
 * The zod schema is written as an ordered list of field specifications.
 * zod reports every failing field, not only the first, so a failure carries
 * the list of issues, one per failing declared field, in declared order.
 */
module Schema {
  import opened Wrappers
  import opened Json
  import opened Colors

  /** A plain key (`colorString()`) or one wrapped in `.optional()`. */
  datatype Presence = Required | Optional

  /** One entry of the `colors` object schema. */
  datatype FieldSpec = FieldSpec(key: string, presence: Presence)

  /** Why zod refused a value: not an object, absent, not a string, or a string failing the colour pattern. */
  datatype IssueKind = ExpectedObject | Missing | ExpectedString | InvalidColor(stripped: string)

  /** A zod issue: the path of the offending value and what is wrong with it. */
  datatype Issue = Issue(path: seq<string>, kind: IssueKind)

  /** Both ways a conversion can fail: the relaxed-JSON reader's error, or the schema's issues. */
  datatype Error = SyntaxError(message: string) | ValidationError(issues: seq<Issue>)

  /** What one declared field yields: its normalised colour, nothing (an absent optional key), or an issue. */
  datatype FieldOutcome = Value(color: string) | Omitted | Failed(kind: IssueKind)

  /** The keys a schema declares. */
  function Keys(schema: seq<FieldSpec>): set<string> {
    set i | 0 <= i < |schema| :: schema[i].key
  }

  /** The nested `colors` object of a document, when the document and that member are both objects. */
  function ColorsOf(doc: Value): Option<map<string, Value>> {
    match doc
    case JObject(top) =>
      if "colors" in top && top["colors"].JObject? then Some(top["colors"].members) else None
    case _ => None
  }

  /** The member `key` of `colors` as a string, or the empty string when it is absent or not a string. */
  function RawColor(colors: map<string, Value>, key: string): string {
    if key in colors && colors[key].JString? then colors[key].s else ""
  }

  /** The member `key` is present, is a string, and matches the colour pattern once stripped. */
  predicate Acceptable(colors: map<string, Value>, key: string) {
    key in colors && colors[key].JString? && IsValidColor(StripAlphaChannel(colors[key].s))
  }

  /**
   * One declared field of the `colors` object: an absent key is an issue
   * when required and simply omitted when optional; a present key must hold
   * a string that passes `colorString()`, whether it is optional or not.
   */
  function CheckField(spec: FieldSpec, colors: map<string, Value>): (r: FieldOutcome)
    ensures r.Omitted? <==> spec.key !in colors && spec.presence == Optional
    ensures r == Failed(Missing) <==> spec.key !in colors && spec.presence == Required
    ensures r.Value? <==> Acceptable(colors, spec.key)
    ensures r.Value? ==> r.color == StripAlphaChannel(colors[spec.key].s) && IsValidColor(r.color)
    ensures spec.key in colors && colors[spec.key].JString? && r.Failed? ==>
      r.kind == InvalidColor(StripAlphaChannel(colors[spec.key].s))
    ensures spec.key in colors && !colors[spec.key].JString? ==> r == Failed(ExpectedString)
  {
    if spec.key !in colors then
      if spec.presence.Required? then Failed(Missing) else Omitted
    else
      match colors[spec.key]
      case JString(s) =>
        (match CheckColor(s)
         case Accepted(c) => Value(c)
         case Rejected(t) => Failed(InvalidColor(t)))
      case _ => Failed(ExpectedString)
  }

  /** The issues of the declared fields, in declared order, each at path `colors.<key>`. */
  function FieldIssues(schema: seq<FieldSpec>, colors: map<string, Value>): seq<Issue> {
    if schema == [] then []
    else
      var head := match CheckField(schema[0], colors)
        case Failed(k) => [Issue(["colors", schema[0].key], k)]
        case _ => [];
      head + FieldIssues(schema[1..], colors)
  }

  /** The object zod returns on success: the declared keys that yielded a colour, undeclared keys dropped. */
  function Output(schema: seq<FieldSpec>, colors: map<string, Value>): map<string, string> {
    if schema == [] then map[]
    else
      var rest := Output(schema[1..], colors);
      match CheckField(schema[0], colors)
      case Value(c) => rest[schema[0].key := c]
      case _ => rest
  }

  /** The issue zod raises for the declared field `spec`, when it raises one. */
  function IssueFor(spec: FieldSpec, colors: map<string, Value>): Issue
    requires CheckField(spec, colors).Failed?
  {
    Issue(["colors", spec.key], CheckField(spec, colors).kind)
  }

  /**
   * The issues name exactly the failing declared fields: each listed issue
   * is that of a failing field, and each failing field's issue is listed.
   */
  lemma {:induction false} FieldIssuesExact(schema: seq<FieldSpec>, colors: map<string, Value>)
    ensures forall iss :: iss in FieldIssues(schema, colors) ==>
      exists i :: 0 <= i < |schema| && CheckField(schema[i], colors).Failed? && iss == IssueFor(schema[i], colors)
    ensures forall i :: 0 <= i < |schema| && CheckField(schema[i], colors).Failed? ==>
      IssueFor(schema[i], colors) in FieldIssues(schema, colors)
    ensures FieldIssues(schema, colors) == [] <==>
      forall i :: 0 <= i < |schema| ==> !CheckField(schema[i], colors).Failed?
  {
    if schema != [] {
      FieldIssuesExact(schema[1..], colors);
      var rest := FieldIssues(schema[1..], colors);
      forall iss | iss in FieldIssues(schema, colors)
        ensures exists i :: 0 <= i < |schema| && CheckField(schema[i], colors).Failed? && iss == IssueFor(schema[i], colors)
      {
        if iss !in rest {
          assert CheckField(schema[0], colors).Failed? && iss == IssueFor(schema[0], colors);
        } else {
          var j :| 0 <= j < |schema[1..]| && CheckField(schema[1..][j], colors).Failed? && iss == IssueFor(schema[1..][j], colors);
          assert schema[1..][j] == schema[j + 1];
        }
      }
      forall i | 0 <= i < |schema| && CheckField(schema[i], colors).Failed?
        ensures IssueFor(schema[i], colors) in FieldIssues(schema, colors)
      {
        if i > 0 {
          assert schema[1..][i - 1] == schema[i];
        }
      }
      if forall i :: 0 <= i < |schema| ==> !CheckField(schema[i], colors).Failed? {
        assert !CheckField(schema[0], colors).Failed?;
        forall j | 0 <= j < |schema[1..]| ensures !CheckField(schema[1..][j], colors).Failed? {
          assert schema[1..][j] == schema[j + 1];
        }
      }
    }
  }

  /**
   * The output holds exactly the declared keys whose value is an acceptable
   * colour, each mapped to its stripped value.
   */
  lemma {:induction false} OutputExact(schema: seq<FieldSpec>, colors: map<string, Value>)
    ensures forall k :: k in Output(schema, colors) <==> k in Keys(schema) && Acceptable(colors, k)
    ensures forall k :: k in Output(schema, colors) ==>
      Acceptable(colors, k) && Output(schema, colors)[k] == StripAlphaChannel(colors[k].s)
  {
    if schema != [] {
      OutputExact(schema[1..], colors);
      assert Keys(schema) == {schema[0].key} + Keys(schema[1..]) by {
        forall k | k in Keys(schema) ensures k in {schema[0].key} + Keys(schema[1..]) {
          var i :| 0 <= i < |schema| && schema[i].key == k;
          if i > 0 {
            assert schema[1..][i - 1] == schema[i];
          }
        }
        forall k | k in Keys(schema[1..]) ensures k in Keys(schema) {
          var j :| 0 <= j < |schema[1..]| && schema[1..][j].key == k;
          assert schema[j + 1].key == k;
        }
      }
    }
  }

  /**
   * `colorsSchema.parse`: a non-object document, an absent `colors` member
   * and a non-object `colors` member each give one issue; otherwise the
   * result is the output object, or the issues of the failing declared fields.
   */
  function ParseColors(schema: seq<FieldSpec>, doc: Value): (r: Result<map<string, string>, seq<Issue>>)
    ensures r.Success? <==>
      ColorsOf(doc).Some? && forall i :: 0 <= i < |schema| ==> !CheckField(schema[i], ColorsOf(doc).value).Failed?
    ensures r.Failure? ==> r.error != []
    ensures ColorsOf(doc).Some? && r.Failure? ==> r.error == FieldIssues(schema, ColorsOf(doc).value)
    ensures !doc.JObject? ==> r == Failure([Issue([], ExpectedObject)])
    ensures doc.JObject? && "colors" !in doc.members ==> r == Failure([Issue(["colors"], Missing)])
    ensures doc.JObject? && "colors" in doc.members && !doc.members["colors"].JObject? ==>
      r == Failure([Issue(["colors"], ExpectedObject)])
  {
    match doc
    case JObject(top) =>
      if "colors" !in top then Failure([Issue(["colors"], Missing)])
      else
        (match top["colors"]
         case JObject(colors) =>
           FieldIssuesExact(schema, colors);
           var issues := FieldIssues(schema, colors);
           if issues == [] then Success(Output(schema, colors)) else Failure(issues)
         case _ => Failure([Issue(["colors"], ExpectedObject)]))
    case _ => Failure([Issue([], ExpectedObject)])
  }

  /**
   * What a successful parse guarantees: every required key is present, the
   * output's keys are the declared keys present in `colors`, and each output
   * value is its input stripped and is a valid colour.
   */
  lemma ParseColorsSuccess(schema: seq<FieldSpec>, doc: Value)
    requires ParseColors(schema, doc).Success?
    ensures ColorsOf(doc).Some?
    ensures var colors, out := ColorsOf(doc).value, ParseColors(schema, doc).value;
      && (forall k :: k in out <==> k in Keys(schema) && k in colors)
      && (forall k :: k in out ==> colors[k].JString? && out[k] == StripAlphaChannel(colors[k].s) && IsValidColor(out[k]))
      && (forall i :: 0 <= i < |schema| && schema[i].presence.Required? ==> schema[i].key in out)
  {
    var colors := ColorsOf(doc).value;
    var out := ParseColors(schema, doc).value;
    OutputExact(schema, colors);
    forall k | k in Keys(schema) && k in colors ensures k in out {
      var i :| 0 <= i < |schema| && schema[i].key == k;
      assert !CheckField(schema[i], colors).Failed?;
    }
    forall i | 0 <= i < |schema| && schema[i].presence.Required? ensures schema[i].key in out {
      assert !CheckField(schema[i], colors).Failed?;
    }
  }

  /** A declared field that fails is reported: the parse fails and lists that field's issue. */
  lemma ParseColorsReports(schema: seq<FieldSpec>, doc: Value, spec: FieldSpec)
    requires ColorsOf(doc).Some? && spec in schema
    requires CheckField(spec, ColorsOf(doc).value).Failed?
    ensures ParseColors(schema, doc).Failure?
    ensures IssueFor(spec, ColorsOf(doc).value) in ParseColors(schema, doc).error
  {
    FieldIssuesExact(schema, ColorsOf(doc).value);
  }

  /** Two `colors` objects that agree on every declared key. */
  predicate AgreeOn(keys: set<string>, c1: map<string, Value>, c2: map<string, Value>) {
    forall k :: k in keys ==> (k in c1 <==> k in c2) && (k in c1 ==> c1[k] == c2[k])
  }

  /** Keys outside the schema, in `colors` or at the top level, do not affect the parse. */
  lemma {:induction false} IgnoresUndeclaredKeys(schema: seq<FieldSpec>, d1: Value, d2: Value)
    requires ColorsOf(d1).Some? && ColorsOf(d2).Some?
    requires AgreeOn(Keys(schema), ColorsOf(d1).value, ColorsOf(d2).value)
    ensures ParseColors(schema, d1) == ParseColors(schema, d2)
  {
    FieldsAgree(schema, ColorsOf(d1).value, ColorsOf(d2).value);
  }

  /** Field by field: the issues and the output depend on the declared keys only. */
  lemma {:induction false} FieldsAgree(schema: seq<FieldSpec>, c1: map<string, Value>, c2: map<string, Value>)
    requires AgreeOn(Keys(schema), c1, c2)
    ensures FieldIssues(schema, c1) == FieldIssues(schema, c2)
    ensures Output(schema, c1) == Output(schema, c2)
  {
    if schema != [] {
      assert schema[0].key in Keys(schema);
      assert CheckField(schema[0], c1) == CheckField(schema[0], c2);
      assert Keys(schema[1..]) <= Keys(schema) by {
        forall k | k in Keys(schema[1..]) ensures k in Keys(schema) {
          var j :| 0 <= j < |schema[1..]| && schema[1..][j].key == k;
          assert schema[j + 1].key == k;
        }
      }
      FieldsAgree(schema[1..], c1, c2);
    }
  }
}
