/**
 * The `python-parser` extractor's own logic, over the constructs a generic
 * syntax-tree library hands it: each construct has an optional name, a byte
 * range in the file, a first line, its source text and, possibly, parameters
 * the library already extracted.
 */
module PythonParser {
  import opened Wrappers
  import opened Text
  import opened ApiTypes

  datatype MetaParameter = MetaParameter(name: string, paramType: Option<string>, defaultValue: Option<string>)

  datatype Construct = Construct(
    name: Option<string>,
    startByte: nat,
    endByte: nat,
    startLine: nat,
    sourceCode: string,
    metadataParameters: seq<MetaParameter>)

  // ----- byte-range containment -----

  /** `inner` lies within `outer`: it starts no earlier and ends no later. */
  predicate IsWithinConstruct(inner: Construct, outer: Construct) {
    inner.startByte >= outer.startByte && inner.endByte <= outer.endByte
  }

  /** Containment is reflexive and transitive. */
  lemma WithinIsPreorder(a: Construct, b: Construct, c: Construct)
    ensures IsWithinConstruct(a, a)
    ensures IsWithinConstruct(a, b) && IsWithinConstruct(b, c) ==> IsWithinConstruct(a, c)
  {
  }

  // ----- parameters -----

  /** The metadata path: each extracted parameter in order, a missing type read as "Any". */
  function FromMetadata(ps: seq<MetaParameter>): (r: seq<Parameter>)
    ensures |r| == |ps|
    ensures forall k :: 0 <= k < |ps| ==> r[k].name == ps[k].name && r[k].defaultValue == ps[k].defaultValue
    ensures forall k :: 0 <= k < |ps| ==> r[k].typeHint == (if ps[k].paramType.Some? then ps[k].paramType.value else "Any")
  {
    seq(|ps|, k requires 0 <= k < |ps| => Parameter(ps[k].name, ps[k].paramType.UnwrapOr("Any"), ps[k].defaultValue))
  }

  /**
   * The source slices between the first '(' and the first ')'; a ')' before
   * the first '(' makes that slice panic, so callers must rule it out.
   */
  predicate ParameterSectionDefined(source: string) {
    IndexOf(source, '(').Some? && IndexOf(source, ')').Some? ==> IndexOf(source, '(').value < IndexOf(source, ')').value
  }

  /** The text between the first '(' and the first ')', when both occur. */
  function ParameterSection(source: string): (r: Option<string>)
    requires ParameterSectionDefined(source)
    ensures r.Some? ==> ')' !in r.value
  {
    match (IndexOf(source, '('), IndexOf(source, ')'))
    case (Some(open), Some(close)) =>
      assert source[open + 1..close] == source[..close][open + 1..];
      Some(source[open + 1..close])
    case _ => None
  }

  /** One comma-separated piece of the fallback path, or none when the piece is skipped. */
  function ParsePiece(piece: string): Option<Parameter> {
    var p := Trim(piece);
    if p == [] || p == "self" || p == "cls" then None
    else
      var parts := Split(p, ':');
      var name := Trim(parts[0]);
      if name == [] then None
      else WithDefault(name, if |parts| > 1 then Trim(parts[1]) else "Any")
  }

  /** A name with a default after its first '=', or a plain name. */
  function WithDefault(name: string, typeHint: string): Option<Parameter> {
    match IndexOf(name, '=')
    case Some(eq) =>
      var finalName := Trim(name[..eq]);
      if finalName == [] then None else Some(Parameter(finalName, typeHint, Some(Trim(name[eq + 1..]))))
    case None => Some(Parameter(name, typeHint, None))
  }

  /** The parameters of the pieces, in order. */
  function ParsePieces(pieces: seq<string>): seq<Parameter> {
    if pieces == [] then []
    else
      var last := ParsePiece(pieces[|pieces| - 1]);
      ParsePieces(pieces[..|pieces| - 1]) + (if last.Some? then [last.value] else [])
  }

  /** The fallback path: the parameter section split on ','. */
  function ParametersOf(source: string): seq<Parameter>
    requires ParameterSectionDefined(source)
  {
    match ParameterSection(source)
    case None => []
    case Some(section) => ParsePieces(Split(section, ','))
  }

  /** What `extract_parameters` returns: the library's parameters if any, else the fallback parse. */
  function ExtractedParameters(c: Construct): seq<Parameter>
    requires ParameterSectionDefined(c.sourceCode)
  {
    if c.metadataParameters != [] then FromMetadata(c.metadataParameters) else ParametersOf(c.sourceCode)
  }

  method ExtractParameters(c: Construct) returns (parameters: seq<Parameter>)
    requires ParameterSectionDefined(c.sourceCode)
    ensures parameters == ExtractedParameters(c)
  {
    if c.metadataParameters != [] {
      return FromMetadata(c.metadataParameters);
    }
    parameters := [];
    var source := c.sourceCode;
    var open := IndexOf(source, '(');
    var close := IndexOf(source, ')');
    if open.None? || close.None? {
      return;
    }
    var section := source[open.value + 1..close.value];
    assert ParameterSection(source) == Some(section);
    var pieces := Split(section, ',');
    for i := 0 to |pieces|
      invariant parameters == ParsePieces(pieces[..i])
    {
      assert pieces[..i + 1][..i] == pieces[..i];
      var parameter := ReadPiece(pieces[i]);
      if parameter.Some? {
        parameters := parameters + [parameter.value];
      }
    }
    assert pieces[..|pieces|] == pieces;
  }

  /** One pass of the fallback loop: the parameter a comma-separated piece yields, if any. */
  method ReadPiece(raw: string) returns (parameter: Option<Parameter>)
    ensures parameter == ParsePiece(raw)
  {
    parameter := None;
    var piece := Trim(raw);
    if piece == [] || piece == "self" || piece == "cls" {
      return;
    }
    var parts := Split(piece, ':');
    var name := Trim(parts[0]);
    if name == [] {
      return;
    }
    var typeHint := if |parts| > 1 then Trim(parts[1]) else "Any";
    var defaultValue: Option<string> := None;
    var finalName := name;
    var eq := IndexOf(name, '=');
    if eq.Some? {
      defaultValue := Some(Trim(name[eq.value + 1..]));
      finalName := Trim(name[..eq.value]);
    }
    if finalName != [] {
      parameter := Some(Parameter(finalName, typeHint, defaultValue));
    }
  }

  /** What every parameter of the fallback parse looks like. */
  predicate WellFormedName(name: string) {
    name != [] && !IsSpace(name[0]) && !IsSpace(name[|name| - 1])
      && ',' !in name && ':' !in name && '=' !in name
  }

  lemma AbsentFromPrefix(s: string, k: nat, c: char)
    requires k <= |s| && c !in s
    ensures c !in s[..k] && c !in s[k..]
  {
    assert forall j :: 0 <= j < k ==> s[..k][j] == s[j];
    assert forall j :: 0 <= j < |s| - k ==> s[k..][j] == s[k + j];
  }

  lemma WithDefaultShape(name: string, typeHint: string)
    requires name != [] && !IsSpace(name[0]) && !IsSpace(name[|name| - 1])
    requires ',' !in name && ':' !in name
    requires WithDefault(name, typeHint).Some?
    ensures WellFormedName(WithDefault(name, typeHint).value.name)
    ensures WithDefault(name, typeHint).value.defaultValue.Some? <==> '=' in name
  {
    match IndexOf(name, '=')
    case Some(eq) =>
      AbsentFromPrefix(name, eq, ',');
      AbsentFromPrefix(name, eq, ':');
      AbsentFromTrim(name[..eq], ',');
      AbsentFromTrim(name[..eq], ':');
      AbsentFromTrim(name[..eq], '=');
    case None =>
  }

  /** The first piece of a split is a prefix holding no separator. */
  lemma {:induction false} SplitHead(s: string, sep: char)
    ensures |Split(s, sep)[0]| <= |s| && Split(s, sep)[0] == s[..|Split(s, sep)[0]|]
  {
    match IndexOf(s, sep)
    case None =>
    case Some(i) =>
  }

  /** A piece that yields a parameter yields one whose name is well formed. */
  lemma ParsedPieceShape(piece: string)
    requires ',' !in piece
    requires ParsePiece(piece).Some?
    ensures WellFormedName(ParsePiece(piece).value.name)
  {
    var p := Trim(piece);
    AbsentFromTrim(piece, ',');
    var head := Split(p, ':')[0];
    SplitHead(p, ':');
    AbsentFromPrefix(p, |head|, ',');
    AbsentFromTrim(head, ',');
    AbsentFromTrim(head, ':');
    var parts := Split(p, ':');
    WithDefaultShape(Trim(head), if |parts| > 1 then Trim(parts[1]) else "Any");
  }

  lemma {:induction false} ParsedPiecesShape(pieces: seq<string>)
    requires forall k :: 0 <= k < |pieces| ==> ',' !in pieces[k]
    ensures forall k :: 0 <= k < |ParsePieces(pieces)| ==> WellFormedName(ParsePieces(pieces)[k].name)
  {
    if pieces != [] {
      ParsedPiecesShape(pieces[..|pieces| - 1]);
      if ParsePiece(pieces[|pieces| - 1]).Some? {
        ParsedPieceShape(pieces[|pieces| - 1]);
      }
    }
  }

  /** No parameter of the fallback parse has an empty name, or one holding ',', ':' or '='. */
  lemma ParametersOfShape(source: string)
    requires ParameterSectionDefined(source)
    ensures forall k :: 0 <= k < |ParametersOf(source)| ==> WellFormedName(ParametersOf(source)[k].name)
  {
    if ParameterSection(source).Some? {
      ParsedPiecesShape(Split(ParameterSection(source).value, ','));
    }
  }

  /** "self" and "cls" on their own are skipped, whatever surrounds them. */
  lemma ReceiverSkipped(piece: string)
    requires Trim(piece) == "self" || Trim(piece) == "cls"
    ensures ParsePiece(piece).None?
  {
  }

  /** A name with no whitespace at its ends and none of the separators ',', ':' and '='. */
  predicate PlainName(name: string) {
    name != [] && !IsSpace(name[0]) && !IsSpace(name[|name| - 1]) && ',' !in name && ':' !in name && '=' !in name
  }

  /** A piece holding a separator is not a receiver. */
  lemma NotReceiver(p: string, sep: char)
    requires sep == ':' || sep == '='
    requires sep in p
    ensures p != "self" && p != "cls"
  {
  }

  /** An unpadded piece `name:annotation` is read as `name` typed by the trimmed annotation. */
  lemma AnnotatedPiece(name: string, annotation: string)
    requires PlainName(name)
    requires ':' !in annotation && annotation != [] && !IsSpace(annotation[|annotation| - 1])
    ensures ParsePiece(name + ":" + annotation) == WithDefault(name, Trim(annotation))
  {
    var p := name + ":" + annotation;
    assert p[0] == name[0] && p[|p| - 1] == annotation[|annotation| - 1];
    TrimUnpadded(p);
    assert p == name + [':'] + annotation;
    NotReceiver(p, ':');
    SplitAtFirst(name, annotation, ':');
    assert Split(annotation, ':') == [annotation];
    TrimUnpadded(name);
  }

  /** An unpadded piece without ':' is read with the type "Any". */
  lemma UnannotatedPiece(p: string)
    requires p != [] && !IsSpace(p[0]) && !IsSpace(p[|p| - 1]) && ':' !in p
    requires p != "self" && p != "cls"
    ensures ParsePiece(p) == WithDefault(p, "Any")
  {
    TrimUnpadded(p);
    assert Split(p, ':') == [p];
  }

  /** A bare name is a parameter of type "Any" with no default. */
  lemma {:induction false} BareName(name: string)
    requires PlainName(name) && name != "self" && name != "cls"
    ensures ParsePiece(name) == Some(Parameter(name, "Any", None))
  {
    UnannotatedPiece(name);
    assert IndexOf(name, '=').None?;
  }

  /**
   * With an annotation, the type runs to the next ':', any default included,
   * and no default is seen: "x: int = 5" gives type "int = 5" and no default.
   */
  lemma {:induction false} AnnotatedDefaultQuirk(name: string, annotation: string)
    requires PlainName(name)
    requires ':' !in annotation && annotation != [] && !IsSpace(annotation[|annotation| - 1])
    ensures ParsePiece(name + ":" + annotation) == Some(Parameter(name, Trim(annotation), None))
  {
    AnnotatedPiece(name, annotation);
  }

  /** A default after the first '=' of an unpadded `name=value` is seen, both sides trimmed. */
  lemma DefaultAfterFirstEq(name: string, value: string, typeHint: string)
    requires PlainName(name)
    requires value != [] && !IsSpace(value[0]) && !IsSpace(value[|value| - 1])
    ensures WithDefault(name + ['='] + value, typeHint) == Some(Parameter(name, typeHint, Some(value)))
  {
    var p := name + ['='] + value;
    assert p[..|name|] == name && p[|name| + 1..] == value;
    IndexOfIsFirst(p, '=', |name|);
    TrimUnpadded(name);
    TrimUnpadded(value);
  }

  /** Without an annotation the default is seen: "x=5" gives type "Any" and default "5". */
  lemma {:induction false} UnannotatedDefault(name: string, value: string)
    requires PlainName(name)
    requires ':' !in value && value != [] && !IsSpace(value[0]) && !IsSpace(value[|value| - 1])
    ensures ParsePiece(name + "=" + value) == Some(Parameter(name, "Any", Some(value)))
  {
    var p := name + "=" + value;
    assert p == name + ['='] + value;
    assert p[0] == name[0] && p[|p| - 1] == value[|value| - 1] && p[|name|] == '=';
    assert ':' !in p;
    UnannotatedPiece(p);
    DefaultAfterFirstEq(name, value, "Any");
  }

  /** `extract_signature`: the construct's name (empty if it has none) with its extracted parameters. */
  function ExtractSignature(c: Construct): (r: string)
    requires ParameterSectionDefined(c.sourceCode)
    ensures StartsWith(r, c.name.UnwrapOr("") + "(") && EndsWith(r, ")")
    ensures forall k :: 0 <= k < |ExtractedParameters(c)| ==> Contains(r, RenderParameter(ExtractedParameters(c)[k]))
  {
    var parameters := ExtractedParameters(c);
    forall k | 0 <= k < |parameters| ensures Contains(Signature(c.name.UnwrapOr(""), parameters), RenderParameter(parameters[k])) {
      SignatureShowsEveryParameter(c.name.UnwrapOr(""), parameters, k);
    }
    Signature(c.name.UnwrapOr(""), parameters)
  }

  // ----- docstrings -----

  /**
   * Quote stripping as written: two single-character tests, then two
   * triple-quote tests. Any literal the triple-quote tests accept is already
   * accepted by a single-character test, so only one character is ever
   * stripped from each end.
   */
  function StripQuotes(content: string): (r: string)
    ensures r == (if |content| > 2 && content[0] == content[|content| - 1] && (content[0] == '"' || content[0] == '\'')
                  then content[1..|content| - 1] else content)
  {
    TripleQuotesAreQuotes(content);
    if StartsWith(content, "\"") && EndsWith(content, "\"") && |content| > 2 then Unwrapped(content, 1)
    else if StartsWith(content, "'") && EndsWith(content, "'") && |content| > 2 then Unwrapped(content, 1)
    else if StartsWith(content, "\"\"\"") && EndsWith(content, "\"\"\"") && |content| > 6 then Unwrapped(content, 3)
    else if StartsWith(content, "'''") && EndsWith(content, "'''") && |content| > 6 then Unwrapped(content, 3)
    else content
  }

  /** `content` without `n` characters at each end (unchanged when too short). */
  function Unwrapped(content: string, n: int): (r: string)
    ensures 0 <= n && 2 * n <= |content| ==> r == content[n..|content| - n]
  {
    if 0 <= n && 2 * n <= |content| then content[n..|content| - n] else content
  }

  /** A triple-quoted docstring keeps two quote characters at each end. */
  lemma TripleQuotedKeepsQuotes(body: string)
    ensures StripQuotes("\"\"\"" + body + "\"\"\"") == "\"\"" + body + "\"\""
  {
    var s := "\"\"\"" + body + "\"\"\"";
    assert s[0] == '"' && s[|s| - 1] == '"';
    assert s[1..|s| - 1] == "\"\"" + body + "\"\"";
  }

  /** A string literal the docstring search accepts: inside the construct, non-empty, within 300 bytes of its start, and not blank once stripped. */
  predicate QualifiesAsDocstring(literal: Construct, c: Construct) {
    IsWithinConstruct(literal, c) && literal.sourceCode != []
      && literal.startByte - c.startByte < 300
      && !AllSpace(StripQuotes(literal.sourceCode))
  }

  /** The stripped first qualifying literal, or "" when there is none. */
  function DocstringOf(literals: seq<Construct>, c: Construct): (doc: string)
    ensures doc != [] <==> exists k :: 0 <= k < |literals| && QualifiesAsDocstring(literals[k], c)
    ensures doc != [] ==> !AllSpace(doc)
    ensures doc != [] ==>
      exists k :: 0 <= k < |literals| && QualifiesAsDocstring(literals[k], c)
        && (forall j :: 0 <= j < k ==> !QualifiesAsDocstring(literals[j], c))
        && doc == StripQuotes(literals[k].sourceCode)
  {
    if literals == [] then []
    else if QualifiesAsDocstring(literals[0], c) then
      StripQuotes(literals[0].sourceCode)
    else
      var doc := DocstringOf(literals[1..], c);
      assert forall k :: 1 <= k < |literals| ==> literals[k] == literals[1..][k - 1];
      if doc != [] then
        var k :| 0 <= k < |literals[1..]| && QualifiesAsDocstring(literals[1..][k], c)
          && (forall j :: 0 <= j < k ==> !QualifiesAsDocstring(literals[1..][j], c))
          && doc == StripQuotes(literals[1..][k].sourceCode);
        assert forall j :: 1 <= j < k + 1 ==> !QualifiesAsDocstring(literals[j], c);
        doc
      else doc
  }

  /** `extract_docstring`: scans the file's string literals in order and returns at the first that qualifies. */
  method ExtractDocstring(literals: seq<Construct>, c: Construct) returns (doc: string)
    ensures doc == DocstringOf(literals, c)
  {
    for i := 0 to |literals|
      invariant DocstringOf(literals, c) == DocstringOf(literals[i..], c)
    {
      var literal := literals[i];
      assert literals[i..][1..] == literals[i + 1..];
      if IsWithinConstruct(literal, c) && literal.sourceCode != [] && literal.startByte - c.startByte < 300 {
        var content := StripQuotes(literal.sourceCode);
        if !AllSpace(content) {
          return content;
        }
      }
    }
    return [];
  }

  // ----- superclasses and class flags -----

  /** The names of the superclass matches lying within the class, in match order. */
  function SuperclassNames(matches: seq<Construct>, c: Construct): seq<string> {
    if matches == [] then []
    else
      var m := matches[|matches| - 1];
      SuperclassNames(matches[..|matches| - 1], c) + (if IsWithinConstruct(m, c) && m.name.Some? then [m.name.value] else [])
  }

  /** `find_superclasses`: the collected names, or none when there are none. */
  method FindSuperclasses(matches: seq<Construct>, c: Construct) returns (r: Option<seq<string>>)
    ensures r.None? <==> SuperclassNames(matches, c) == []
    ensures r.Some? ==> r.value == SuperclassNames(matches, c)
  {
    var superclasses: seq<string> := [];
    for i := 0 to |matches|
      invariant superclasses == SuperclassNames(matches[..i], c)
    {
      assert matches[..i + 1][..i] == matches[..i];
      var m := matches[i];
      if IsWithinConstruct(m, c) && m.name.Some? {
        superclasses := superclasses + [m.name.value];
      }
    }
    assert matches[..|matches|] == matches;
    if superclasses == [] {
      r := None;
    } else {
      r := Some(superclasses);
    }
  }

  /** Containment is by byte range only, so a nested class's bases are also counted as its enclosing class's. */
  lemma {:induction false} NestedBasesReachEnclosingClass(matches: seq<Construct>, inner: Construct, outer: Construct, k: nat)
    requires IsWithinConstruct(inner, outer)
    requires k < |SuperclassNames(matches, inner)|
    ensures SuperclassNames(matches, inner)[k] in SuperclassNames(matches, outer)
  {
    var init := matches[..|matches| - 1];
    if k < |SuperclassNames(init, inner)| {
      NestedBasesReachEnclosingClass(init, inner, outer, k);
    }
  }

  /** The 32-bit line number: `start_line as u32` keeps the low 32 bits. */
  function LineNumber(startLine: nat): (r: nat)
    ensures r < 0x1_0000_0000
    ensures startLine < 0x1_0000_0000 ==> r == startLine
  {
    startLine % 0x1_0000_0000
  }

  /** The class record `parse_class_definition` assembles from a class construct and its parts. */
  function ClassRecord(c: Construct, filePath: string, docstring: string, superclasses: Option<seq<string>>,
                       methods: seq<Method<string>>, properties: seq<Property<string>>): (r: PyClass<string>)
    ensures r.inherits == (if superclasses.Some? then superclasses.value else [])
    ensures r.isException <==> ExceptionBases(r.inherits)
    ensures r.isAbstract <==> AbstractBases(r.inherits)
    ensures r.lineNumber == Some(LineNumber(c.startLine))
    ensures r.name == c.name.UnwrapOr("")
  {
    var inherits := superclasses.UnwrapOr([]);
    PyClass(c.name.UnwrapOr(""), filePath, docstring, methods, properties, inherits,
      Some(LineNumber(c.startLine)), "Exception" in inherits,
      "ABC" in inherits || exists k :: 0 <= k < |inherits| && Contains(inherits[k], "Abstract"))
  }

  // ----- which files are parsed -----

  /** `Path::extension` of a file name: after the last '.', unless that '.' is the name's first character. */
  function Extension(fileName: string): Option<string> {
    match LastIndexOf(fileName, '.')
    case None => None
    case Some(i) => if i == 0 then None else Some(fileName[i + 1..])
  }

  lemma {:induction false} PyExtension(fileName: string)
    ensures Extension(fileName) == Some("py") <==> |fileName| >= 4 && EndsWith(fileName, ".py")
  {
    var n := |fileName|;
    if |fileName| >= 4 && EndsWith(fileName, ".py") {
      assert fileName[n - 3] == '.' && fileName[n - 3 + 1..] == "py";
      assert LastIndexOf(fileName, '.') == Some(n - 3);
    }
    if Extension(fileName) == Some("py") {
      var i := LastIndexOf(fileName, '.').value;
      assert fileName[i + 1..] == "py" && fileName[i] == '.';
      var tail := fileName[n - 3..];
      assert i == n - 3 && tail[0] == '.' && tail[1..] == fileName[i + 1..];
      assert tail == [tail[0]] + tail[1..];
    }
  }

  /** A file is parsed when its extension is "py" and its name does not start with '_', "__init__.py" excepted. */
  function IsCollectedFile(fileName: string): (b: bool)
    ensures b <==> |fileName| >= 4 && EndsWith(fileName, ".py") && (!StartsWith(fileName, "_") || fileName == "__init__.py")
  {
    PyExtension(fileName);
    Extension(fileName) == Some("py") && (!StartsWith(fileName, "_") || fileName == "__init__.py")
  }

  lemma InitModuleCollected()
    ensures IsCollectedFile("__init__.py")
  {
    PyExtension("__init__.py");
  }

  lemma PrivateModuleSkipped()
    ensures !IsCollectedFile("_private.py")
  {
    assert "_private.py"[1] != "__init__.py"[1];
  }

  /** A bare ".py" has no extension at all: its only '.' is its first character. */
  lemma BareExtensionSkipped()
    ensures !IsCollectedFile(".py")
  {
    PyExtension(".py");
  }
}
