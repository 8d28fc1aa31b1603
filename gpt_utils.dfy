/**
 * The `gpt_utils` helpers of hrai_python/__init__.py: `create_tool`, which
 * builds an OpenAI "function tool" schema, and `create_prompt`, which fills
 * the named fields of a prompt template through Python's `str.format`.
 *
 * `str.format` is modelled for a restricted grammar only: a template is plain
 * text with fields `{name}` where `name` is an identifier (ASCII letters,
 * digits and `_`, not starting with a digit). Format specs, conversions,
 * positional, index and attribute fields and the `{{`/`}}` escapes are
 * outside it; the model reports `OutsideGrammar` when it meets one.
 */
module GptUtils {
  import opened Wrappers

  // ---------------------------------------------------------------------------
  // create_tool
  // ---------------------------------------------------------------------------

  /** A Python dict as its items in insertion order. */
  type Dict<K, V> = seq<(K, V)>

  /** `list(d.keys())` */
  function Keys<K, V>(d: Dict<K, V>): seq<K>
  {
    seq(|d|, i requires 0 <= i < |d| => d[i].0)
  }

  /** `d.get(k)`: the value of the first item with key `k`. */
  function Get<K(==), V>(d: Dict<K, V>, k: K): Option<V>
  {
    if d == [] then None
    else if d[0].0 == k then Some(d[0].1)
    else Get(d[1..], k)
  }

  /** What every real dict satisfies: no key occurs twice. */
  predicate DistinctKeys<K(==), V>(d: Dict<K, V>)
  {
    forall i, j :: 0 <= i < j < |d| ==> d[i].0 != d[j].0
  }

  const FUNCTION_TYPE := "function"
  const OBJECT_TYPE := "object"
  const STRING_TYPE := "string"

  /** `{"type": kind, "description": description}` */
  datatype PropertySchema = PropertySchema(kind: string, description: string)

  /** `{"type": kind, "properties": properties, "required": required}` */
  datatype Parameters = Parameters(kind: string, properties: Dict<string, PropertySchema>, required: seq<string>)

  /** `{"name": name, "description": description, "parameters": parameters}` */
  datatype FunctionSpec = FunctionSpec(name: string, description: string, parameters: Parameters)

  /** `{"type": kind, "function": func}` */
  datatype Tool = Tool(kind: string, func: FunctionSpec)

  /** The dict comprehension that turns each description into a string-typed property. */
  function PropertySchemas(properties: Dict<string, string>): Dict<string, PropertySchema>
  {
    seq(|properties|, i requires 0 <= i < |properties| =>
      (properties[i].0, PropertySchema(STRING_TYPE, properties[i].1)))
  }

  /** `gpt_utils.create_tool(name, description, properties, require)`; `None` is Python's `None`. */
  function CreateTool(name: string, description: string, properties: Dict<string, string>,
                      require: Option<seq<string>> := None): Tool
  {
    var required := if require.Some? then require.value else Keys(properties);
    Tool(FUNCTION_TYPE,
         FunctionSpec(name, description, Parameters(OBJECT_TYPE, PropertySchemas(properties), required)))
  }

  /** The property schema a looked-up description stands for. */
  function SchemaOf(description: Option<string>): Option<PropertySchema>
  {
    match description
    case None => None
    case Some(d) => Some(PropertySchema(STRING_TYPE, d))
  }

  /** The tool copies name and description and fixes both "type" members. */
  lemma CreateToolFixedFields(name: string, description: string, properties: Dict<string, string>,
                              require: Option<seq<string>>)
    ensures var t := CreateTool(name, description, properties, require);
      && t.kind == "function"
      && t.func.name == name
      && t.func.description == description
      && t.func.parameters.kind == "object"
  {
  }

  lemma {:induction false} PropertySchemasGet(properties: Dict<string, string>, k: string)
    ensures Get(PropertySchemas(properties), k) == SchemaOf(Get(properties, k))
  {
    if properties != [] {
      assert PropertySchemas(properties)[1..] == PropertySchemas(properties[1..]);
      PropertySchemasGet(properties[1..], k);
    }
  }

  /**
   * "properties" has exactly the keys of the input, in the same order, and
   * each key maps to `{"type": "string", "description": <its description>}`.
   */
  lemma CreateToolProperties(name: string, description: string, properties: Dict<string, string>,
                             require: Option<seq<string>>)
    ensures var ps := CreateTool(name, description, properties, require).func.parameters.properties;
      && Keys(ps) == Keys(properties)
      && forall k :: Get(ps, k) == SchemaOf(Get(properties, k))
  {
    forall k: string
      ensures Get(PropertySchemas(properties), k) == SchemaOf(Get(properties, k))
    {
      PropertySchemasGet(properties, k);
    }
  }

  /** A valid dict in gives a valid dict out. */
  lemma CreateToolDistinctKeys(name: string, description: string, properties: Dict<string, string>,
                               require: Option<seq<string>>)
    requires DistinctKeys(properties)
    ensures DistinctKeys(CreateTool(name, description, properties, require).func.parameters.properties)
  {
  }

  lemma {:induction false} KeysGet<V>(d: Dict<string, V>, k: string)
    ensures k in Keys(d) <==> Get(d, k).Some?
  {
    if d != [] {
      assert Keys(d) == [d[0].0] + Keys(d[1..]);
      KeysGet(d[1..], k);
    }
  }

  /**
   * Without `require`, "required" lists the property keys in insertion order,
   * so a name is required exactly when it is a property.
   */
  lemma CreateToolDefaultRequired(name: string, description: string, properties: Dict<string, string>)
    ensures var p := CreateTool(name, description, properties).func.parameters;
      && p.required == Keys(properties)
      && forall k :: k in p.required <==> Get(p.properties, k).Some?
  {
    var p := CreateTool(name, description, properties).func.parameters;
    forall k: string
      ensures k in p.required <==> Get(p.properties, k).Some?
    {
      KeysGet(properties, k);
      PropertySchemasGet(properties, k);
    }
  }

  /** An explicit `require` (even `[]`) is used as given: neither filtered nor checked. */
  lemma CreateToolGivenRequired(name: string, description: string, properties: Dict<string, string>,
                                require: seq<string>)
    ensures CreateTool(name, description, properties, Some(require)).func.parameters.required == require
  {
  }

  /** A required name that is no property is kept: `require` is neither filtered nor checked. */
  lemma CreateToolRequiredNotChecked(name: string, description: string, properties: Dict<string, string>,
                                     require: seq<string>, k: string)
    requires k in require && Get(properties, k) == None
    ensures var p := CreateTool(name, description, properties, Some(require)).func.parameters;
      k in p.required && Get(p.properties, k) == None
  {
    PropertySchemasGet(properties, k);
  }

  /** test_create_tool_all_required */
  lemma CreateToolAllRequiredTest()
    ensures var properties := [("answer", "The answer to the tool"), ("request", "The request to the tool")];
      var t := CreateTool("test_tool", "A tool for testing", properties);
      && t.func.name == "test_tool"
      && t.func.description == "A tool for testing"
      && Get(t.func.parameters.properties, "answer").Some?
      && Get(t.func.parameters.properties, "request").Some?
      && t.func.parameters.required == ["answer", "request"]
  {
  }

  /** test_create_tool_custom_required */
  lemma CreateToolCustomRequiredTest()
    ensures var properties := [("answer", "The answer to the tool"), ("request", "The request to the tool")];
      CreateTool("test_tool", "A tool for testing", properties, Some(["answer"])).func.parameters.required == ["answer"]
  {
  }

  // ---------------------------------------------------------------------------
  // str.format on plain named fields
  // ---------------------------------------------------------------------------

  predicate IsDigit(c: char) { '0' <= c <= '9' }

  predicate IsNameChar(c: char) { 'a' <= c <= 'z' || 'A' <= c <= 'Z' || IsDigit(c) || c == '_' }

  predicate IsIdentifier(s: string)
  {
    |s| > 0 && !IsDigit(s[0]) && forall i :: 0 <= i < |s| ==> IsNameChar(s[i])
  }

  predicate IsBrace(c: char) { c == '{' || c == '}' }

  predicate NoBraces(s: string)
  {
    forall i :: 0 <= i < |s| ==> !IsBrace(s[i])
  }

  /** The longest prefix of `s` made of name characters. */
  function NamePrefix(s: string): (p: string)
    ensures |p| <= |s| && p == s[..|p|]
    ensures forall i :: 0 <= i < |p| ==> IsNameChar(p[i])
    ensures |p| < |s| ==> !IsNameChar(s[|p|])
  {
    if s == [] || !IsNameChar(s[0]) then [] else [s[0]] + NamePrefix(s[1..])
  }

  /** What the format-string scanner finds at the start of a template. */
  datatype Token =
    | End
    | Char(c: char, rest: string)
    | Name(name: string, rest: string)
    /** a brace that does not open a plain `{identifier}` field */
    | Unsupported

  /** The next piece of literal text or the next field of `template`. */
  function NextToken(template: string): (tok: Token)
    ensures tok.End? <==> template == []
    ensures tok.Char? ==> !IsBrace(tok.c) && template == [tok.c] + tok.rest
    ensures tok.Name? ==> IsIdentifier(tok.name) && template == "{" + tok.name + "}" + tok.rest
  {
    if template == [] then End
    else if template[0] == '{' then
      var name := NamePrefix(template[1..]);
      var after := template[1 + |name|..];
      if IsIdentifier(name) && after != [] && after[0] == '}' then
        assert template == "{" + name + "}" + after[1..];
        Name(name, after[1..])
      else Unsupported
    else if template[0] == '}' then Unsupported
    else
      assert template == [template[0]] + template[1..];
      Char(template[0], template[1..])
  }

  /**
   * What `template.format(**inputs)` raises: `KeyError(key)` for a field
   * whose name is not in `inputs`; `OutsideGrammar` when the template leaves
   * the modelled grammar at that point.
   */
  datatype FormatError = KeyError(key: string) | OutsideGrammar

  function Prepend(s: string, r: Result<string, FormatError>): Result<string, FormatError>
  {
    match r
    case Success(t) => Success(s + t)
    case Failure(e) => Failure(e)
  }

  /**
   * `template.format(**inputs)`, scanning left to right as CPython does, so
   * that the first field without a value is the one reported.
   */
  function Format(template: string, inputs: map<string, string>): Result<string, FormatError>
    decreases |template|
  {
    match NextToken(template)
    case End => Success("")
    case Unsupported => Failure(OutsideGrammar)
    case Char(c, rest) => Prepend([c], Format(rest, inputs))
    case Name(name, rest) =>
      if name in inputs then Prepend(inputs[name], Format(rest, inputs))
      else Failure(KeyError(name))
  }

  // The grammar, as segments: a template in it is the text of a sequence of
  // brace-free characters and `{identifier}` fields.

  datatype Segment = Lit(c: char) | Field(name: string)

  predicate ValidSegment(s: Segment)
  {
    match s
    case Lit(c) => !IsBrace(c)
    case Field(n) => IsIdentifier(n)
  }

  predicate ValidSegments(segs: seq<Segment>)
  {
    forall i :: 0 <= i < |segs| ==> ValidSegment(segs[i])
  }

  function UnparseOne(s: Segment): string
  {
    match s
    case Lit(c) => [c]
    case Field(n) => "{" + n + "}"
  }

  /** The template text of a sequence of segments. */
  function Unparse(segs: seq<Segment>): string
  {
    if segs == [] then "" else UnparseOne(segs[0]) + Unparse(segs[1..])
  }

  /** The segments of a template in the grammar, or None when it is outside it. */
  function Parse(template: string): (r: Option<seq<Segment>>)
    ensures r.Some? ==> ValidSegments(r.value) && Unparse(r.value) == template
    decreases |template|
  {
    match NextToken(template)
    case End => Some([])
    case Unsupported => None
    case Char(c, rest) =>
      (match Parse(rest)
       case None => None
       case Some(segs) =>
         assert ([Lit(c)] + segs)[1..] == segs;
         Some([Lit(c)] + segs))
    case Name(name, rest) =>
      (match Parse(rest)
       case None => None
       case Some(segs) =>
         assert ([Field(name)] + segs)[1..] == segs;
         Some([Field(name)] + segs))
  }

  /** The field name a segment contributes: none for literal text. */
  function SegmentNames(s: Segment): seq<string>
  {
    match s
    case Lit(_) => []
    case Field(n) => [n]
  }

  /** The field names of a template, left to right. */
  function FieldNames(segs: seq<Segment>): seq<string>
  {
    if segs == [] then [] else SegmentNames(segs[0]) + FieldNames(segs[1..])
  }

  predicate AllPresent(names: seq<string>, inputs: map<string, string>)
  {
    forall i :: 0 <= i < |names| ==> names[i] in inputs
  }

  /** The leftmost name that has no value. */
  function FirstMissing(names: seq<string>, inputs: map<string, string>): (k: string)
    requires !AllPresent(names, inputs)
    ensures k !in inputs
    ensures exists j :: 0 <= j < |names| && names[j] == k && AllPresent(names[..j], inputs)
  {
    if names[0] !in inputs then
      assert AllPresent(names[..0], inputs);
      names[0]
    else
      var k := FirstMissing(names[1..], inputs);
      ghost var j :| 0 <= j < |names[1..]| && names[1..][j] == k && AllPresent(names[1..][..j], inputs);
      assert names[..j + 1] == [names[0]] + names[1..][..j];
      assert names[j + 1] == k && AllPresent(names[..j + 1], inputs);
      k
  }

  lemma AllPresentConcat(a: seq<string>, b: seq<string>, inputs: map<string, string>)
    ensures AllPresent(a + b, inputs) <==> AllPresent(a, inputs) && AllPresent(b, inputs)
  {
    if AllPresent(a + b, inputs) {
      forall i | 0 <= i < |a| ensures a[i] in inputs { assert a[i] == (a + b)[i]; }
      forall i | 0 <= i < |b| ensures b[i] in inputs { assert b[i] == (a + b)[|a| + i]; }
    }
  }

  /** All names have values exactly when the first segment's and the rest's do. */
  lemma AllPresentCons(segs: seq<Segment>, inputs: map<string, string>)
    requires segs != []
    ensures AllPresent(FieldNames(segs), inputs) <==>
      AllPresent(SegmentNames(segs[0]), inputs) && AllPresent(FieldNames(segs[1..]), inputs)
  {
    AllPresentConcat(SegmentNames(segs[0]), FieldNames(segs[1..]), inputs);
  }

  /** The template with every field replaced by its value. */
  function Substitute(segs: seq<Segment>, inputs: map<string, string>): string
    requires AllPresent(FieldNames(segs), inputs)
  {
    if segs == [] then ""
    else
      AllPresentCons(segs, inputs);
      match segs[0]
      case Lit(c) => [c] + Substitute(segs[1..], inputs)
      case Field(n) => inputs[n] + Substitute(segs[1..], inputs)
  }

  /**
   * What formatting means on a template in the grammar: every field replaced
   * by its value when all are present, otherwise the leftmost missing name.
   */
  function Expand(segs: seq<Segment>, inputs: map<string, string>): Result<string, FormatError>
  {
    var names := FieldNames(segs);
    if AllPresent(names, inputs) then Success(Substitute(segs, inputs))
    else Failure(KeyError(FirstMissing(names, inputs)))
  }

  lemma {:induction false} NamePrefixOfField(n: string, rest: string)
    requires forall i :: 0 <= i < |n| ==> IsNameChar(n[i])
    ensures NamePrefix(n + "}" + rest) == n
  {
    if n != [] {
      assert (n + "}" + rest)[1..] == n[1..] + "}" + rest;
      NamePrefixOfField(n[1..], rest);
    }
  }

  lemma NextTokenOfLit(c: char, rest: string)
    requires !IsBrace(c)
    ensures NextToken([c] + rest) == Char(c, rest)
  {
    assert ([c] + rest)[1..] == rest;
  }

  lemma NextTokenOfField(n: string, rest: string)
    requires IsIdentifier(n)
    ensures NextToken("{" + n + "}" + rest) == Name(n, rest)
  {
    var t := "{" + n + "}" + rest;
    assert t[1..] == n + "}" + rest;
    NamePrefixOfField(n, rest);
    assert t[1 + |n|..] == "}" + rest;
  }

  /** The scanner reads a valid segment back from its text. */
  lemma NextTokenOfSegment(s: Segment, rest: string)
    requires ValidSegment(s)
    ensures NextToken(UnparseOne(s) + rest) == match s case Lit(c) => Char(c, rest) case Field(n) => Name(n, rest)
  {
    match s
    case Lit(c) => NextTokenOfLit(c, rest);
    case Field(n) => NextTokenOfField(n, rest);
  }

  /** Parsing a valid segment's text in front of `rest` puts that segment in front of `rest`'s parse. */
  lemma ParseCons(s: Segment, rest: string)
    requires ValidSegment(s)
    ensures Parse(UnparseOne(s) + rest) == if Parse(rest).Some? then Some([s] + Parse(rest).value) else None
  {
    NextTokenOfSegment(s, rest);
  }

  lemma ValidSegmentsTail(segs: seq<Segment>)
    requires segs != [] && ValidSegments(segs)
    ensures ValidSegment(segs[0]) && ValidSegments(segs[1..])
  {
    var rest := segs[1..];
    forall i | 0 <= i < |rest| ensures ValidSegment(rest[i]) { assert rest[i] == segs[i + 1]; }
  }

  lemma UnparseCons(segs: seq<Segment>)
    requires segs != []
    ensures Unparse(segs) == UnparseOne(segs[0]) + Unparse(segs[1..])
  {
  }

  /** The scanner carries out `Expand` on every template in the grammar. */
  lemma {:induction false} FormatUnparse(segs: seq<Segment>, inputs: map<string, string>)
    requires ValidSegments(segs)
    ensures Format(Unparse(segs), inputs) == Expand(segs, inputs)
  {
    if segs != [] {
      var rest := segs[1..];
      ValidSegmentsTail(segs);
      FormatUnparse(rest, inputs);
      UnparseCons(segs);
      NextTokenOfSegment(segs[0], Unparse(rest));
      AllPresentCons(segs, inputs);
    }
  }

  /** Every template in the grammar is the text of the segments it parses to. */
  lemma {:induction false} ParseUnparse(segs: seq<Segment>)
    requires ValidSegments(segs)
    ensures Parse(Unparse(segs)) == Some(segs)
  {
    if segs != [] {
      var rest := segs[1..];
      ValidSegmentsTail(segs);
      ParseUnparse(rest);
      UnparseCons(segs);
      ParseCons(segs[0], Unparse(rest));
      assert segs == [segs[0]] + rest;
    }
  }

  /** On a template in the grammar, formatting is `Expand` of its segments. */
  lemma FormatInGrammar(template: string, inputs: map<string, string>)
    requires Parse(template).Some?
    ensures Format(template, inputs) == Expand(Parse(template).value, inputs)
  {
    FormatUnparse(Parse(template).value, inputs);
  }

  /** Formatting succeeds only on templates in the grammar. */
  lemma {:induction false} FormatSuccessInGrammar(template: string, inputs: map<string, string>)
    ensures Format(template, inputs).Success? ==> Parse(template).Some?
    decreases |template|
  {
    match NextToken(template)
    case End =>
    case Unsupported =>
    case Char(c, rest) => FormatSuccessInGrammar(rest, inputs);
    case Name(name, rest) => FormatSuccessInGrammar(rest, inputs);
  }

  /** The key of a KeyError is always the identifier of a field that has no value. */
  lemma {:induction false} FormatKeyErrorIsIdentifier(template: string, inputs: map<string, string>)
    ensures Format(template, inputs).Failure? && Format(template, inputs).error.KeyError? ==>
      && IsIdentifier(Format(template, inputs).error.key)
      && Format(template, inputs).error.key !in inputs
    decreases |template|
  {
    match NextToken(template)
    case End =>
    case Unsupported =>
    case Char(c, rest) => FormatKeyErrorIsIdentifier(rest, inputs);
    case Name(name, rest) => FormatKeyErrorIsIdentifier(rest, inputs);
  }

  /** A string without braces formats to itself, whatever the inputs. */
  lemma {:induction false} FormatNoBraces(s: string, inputs: map<string, string>)
    requires NoBraces(s)
    ensures Format(s, inputs) == Success(s)
    decreases |s|
  {
    if s != [] {
      assert s[0] != '{' && s[0] != '}';
      assert NextToken(s) == Char(s[0], s[1..]);
      FormatNoBraces(s[1..], inputs);
    }
  }

  /** Literal text before the rest of a template is copied unchanged. */
  lemma {:induction false} FormatLiteralPrefix(p: string, t: string, inputs: map<string, string>)
    requires NoBraces(p)
    ensures Format(p + t, inputs) == Prepend(p, Format(t, inputs))
    decreases |p|
  {
    if p != [] {
      assert (p + t)[0] == p[0] && (p + t)[1..] == p[1..] + t;
      assert p[0] != '{' && p[0] != '}';
      assert NextToken(p + t) == Char(p[0], p[1..] + t);
      FormatLiteralPrefix(p[1..], t, inputs);
      match Format(t, inputs)
      case Success(r) => assert [p[0]] + (p[1..] + r) == p + r;
      case Failure(_) =>
    } else {
      assert p + t == t;
      match Format(t, inputs)
      case Success(r) => assert p + r == r;
      case Failure(_) =>
    }
  }

  /** With brace-free values, a formatted prompt has no braces left. */
  lemma {:induction false} FormatOutputNoBraces(template: string, inputs: map<string, string>)
    requires forall k :: k in inputs ==> NoBraces(inputs[k])
    ensures Format(template, inputs).Success? ==> NoBraces(Format(template, inputs).value)
    decreases |template|
  {
    match NextToken(template)
    case End =>
    case Unsupported =>
    case Char(c, rest) => FormatOutputNoBraces(rest, inputs);
    case Name(name, rest) => FormatOutputNoBraces(rest, inputs);
  }

  // ---------------------------------------------------------------------------
  // create_prompt
  // ---------------------------------------------------------------------------

  /** The exceptions `create_prompt` lets out; `UnsupportedTemplate` is the model's own. */
  datatype PromptError = ValueError(message: string) | UnsupportedTemplate

  /** `str(KeyError(key))` for an identifier key: its repr, in single quotes. */
  function KeyErrorStr(key: string): string
  {
    "'" + key + "'"
  }

  function StripLeading(s: string, c: char): string
  {
    if s != [] && s[0] == c then StripLeading(s[1..], c) else s
  }

  function StripTrailing(s: string, c: char): string
  {
    if s != [] && s[|s| - 1] == c then StripTrailing(s[..|s| - 1], c) else s
  }

  /** `s.strip(c)` */
  function Strip(s: string, c: char): string
  {
    StripTrailing(StripLeading(s, c), c)
  }

  function MissingMessage(key: string): string
  {
    "Missing value for placeholder: '" + key + "' in inputs."
  }

  /** `gpt_utils.create_prompt(template, inputs)` */
  function CreatePrompt(template: string, inputs: map<string, string>): Result<string, PromptError>
  {
    match Format(template, inputs)
    case Success(prompt) => Success(prompt)
    case Failure(KeyError(key)) => Failure(ValueError(MissingMessage(Strip(KeyErrorStr(key), '\''))))
    case Failure(OutsideGrammar) => Failure(UnsupportedTemplate)
  }

  /** Stripping the quotes from `str(e)` gives back the missing key. */
  lemma StripKeyErrorStr(key: string)
    requires IsIdentifier(key)
    ensures Strip(KeyErrorStr(key), '\'') == key
  {
    var quoted := KeyErrorStr(key);
    assert quoted[1..] == key + "'";
    assert StripLeading(quoted, '\'') == key + "'";
    assert (key + "'")[..|key|] == key;
    assert StripTrailing(key + "'", '\'') == StripTrailing(key, '\'');
  }

  /** A KeyError becomes a ValueError that names exactly the missing key. */
  lemma CreatePromptNamesMissingKey(template: string, inputs: map<string, string>, key: string)
    requires Format(template, inputs) == Failure(KeyError(key))
    ensures CreatePrompt(template, inputs) == Failure(ValueError(MissingMessage(key)))
  {
    FormatKeyErrorIsIdentifier(template, inputs);
    StripKeyErrorStr(key);
  }

  /**
   * On a template in the grammar: with a value for every field the prompt is
   * the template with each field replaced; otherwise the error names the
   * leftmost field without a value and no prompt is returned.
   */
  lemma CreatePromptInGrammar(template: string, inputs: map<string, string>)
    requires Parse(template).Some?
    ensures var segs := Parse(template).value;
      var names := FieldNames(segs);
      && (AllPresent(names, inputs) ==> CreatePrompt(template, inputs) == Success(Substitute(segs, inputs)))
      && (!AllPresent(names, inputs) ==>
            CreatePrompt(template, inputs) == Failure(ValueError(MissingMessage(FirstMissing(names, inputs)))))
  {
    var segs := Parse(template).value;
    var names := FieldNames(segs);
    FormatInGrammar(template, inputs);
    if !AllPresent(names, inputs) {
      CreatePromptNamesMissingKey(template, inputs, FirstMissing(names, inputs));
    }
  }

  /** A prompt is returned only for a template in the grammar. */
  lemma CreatePromptSuccessInGrammar(template: string, inputs: map<string, string>)
    ensures CreatePrompt(template, inputs).Success? ==> Parse(template).Some?
  {
    FormatSuccessInGrammar(template, inputs);
  }

  /**
   * With brace-free values, applying `create_prompt` again to its own result
   * (with any inputs) gives the same prompt back.
   */
  lemma CreatePromptIdempotent(template: string, inputs: map<string, string>, again: map<string, string>)
    requires forall k :: k in inputs ==> NoBraces(inputs[k])
    requires CreatePrompt(template, inputs).Success?
    ensures CreatePrompt(CreatePrompt(template, inputs).value, again) == CreatePrompt(template, inputs)
  {
    FormatOutputNoBraces(template, inputs);
    FormatNoBraces(CreatePrompt(template, inputs).value, again);
  }

  /** A template with a single field between two pieces of literal text. */
  lemma FormatOneField(prefix: string, name: string, suffix: string, inputs: map<string, string>)
    requires NoBraces(prefix) && NoBraces(suffix) && IsIdentifier(name)
    ensures Format(prefix + "{" + name + "}" + suffix, inputs)
         == if name in inputs then Success(prefix + inputs[name] + suffix) else Failure(KeyError(name))
  {
    var field := UnparseOne(Field(name));
    assert prefix + "{" + name + "}" + suffix == prefix + (field + suffix);
    FormatLiteralPrefix(prefix, field + suffix, inputs);
    NextTokenOfSegment(Field(name), suffix);
    FormatNoBraces(suffix, inputs);
    if name in inputs {
      assert prefix + (inputs[name] + suffix) == prefix + inputs[name] + suffix;
    }
  }

  /** The test template is literal text, the field `country`, and "?". */
  lemma CapitalTemplateParts(template: string)
    requires template == "What is the capital of {country}?"
    ensures template == "What is the capital of " + "{" + "country" + "}" + "?"
    ensures NoBraces("What is the capital of ") && NoBraces("?") && IsIdentifier("country")
    ensures "What is the capital of " + "France" + "?" == "What is the capital of France?"
    ensures MissingMessage("country") == "Missing value for placeholder: 'country' in inputs."
  {
  }

  /** test_create_prompt_success */
  lemma CreatePromptCapitalTest(template: string, inputs: map<string, string>)
    requires template == "What is the capital of {country}?" && inputs == map["country" := "France"]
    ensures CreatePrompt(template, inputs) == Success("What is the capital of France?")
  {
    CapitalTemplateParts(template);
    FormatOneField("What is the capital of ", "country", "?", inputs);
  }

  /** test_create_prompt_missing_input */
  lemma CreatePromptMissingInputTest(template: string, inputs: map<string, string>)
    requires template == "What is the capital of {country}?" && inputs == map["city" := "Paris"]
    ensures CreatePrompt(template, inputs) == Failure(ValueError("Missing value for placeholder: 'country' in inputs."))
  {
    CapitalTemplateParts(template);
    FormatOneField("What is the capital of ", "country", "?", inputs);
    CreatePromptNamesMissingKey(template, inputs, "country");
  }
}
