/**
 * The `api-parser` extractor: walks a Python syntax tree and builds the API
 * records. A node carries its kind, the source text of its byte range, its
 * start row and its children; a node's parents are passed alongside it as
 * `ancestors`, nearest first.
 */
module ApiParser {
  import opened Wrappers
  import opened Text
  import opened ApiTypes

  datatype Node = Node(kind: string, text: string, row: nat, children: seq<Node>)

  /** A missing docstring is an absent value. */
  type Doc = Option<string>

  /**
   * A string literal whose quote tests succeed is long enough for the slice
   * that strips them; a shorter one makes that slice panic.
   */
  predicate WellQuoted(s: string) {
    && (StartsWith(s, "\"\"\"") && EndsWith(s, "\"\"\"") ==> |s| >= 6)
    && (StartsWith(s, "'''") && EndsWith(s, "'''") ==> |s| >= 6)
    && (StartsWith(s, "\"") && EndsWith(s, "\"") ==> |s| >= 2)
    && (StartsWith(s, "'") && EndsWith(s, "'") ==> |s| >= 2)
  }

  /**
   * The docstring slice succeeds: the first body literal, the only one
   * `extract_docstring_from_node` strips, is long enough for it. Later
   * literals, and literals nested deeper, are never sliced.
   */
  predicate DocSliceable(n: Node) {
    BodyStrings(n) != [] ==> WellQuoted(BodyStrings(n)[0].text)
  }

  /** A method, function or property definition parses without panicking; a nameless one fails before its docstring. */
  predicate DefinitionParsable(n: Node) {
    NodeName(n).Some? ==> DocSliceable(n)
  }

  /** Every method and property among a class body's statements parses without panicking. */
  predicate MembersParsable(items: seq<Node>) {
    forall k :: 0 <= k < |items| && (items[k].kind == "function_definition" || items[k].kind == "decorated_definition")
      ==> DefinitionParsable(items[k])
  }

  /** The members of the first `block` child, the only body `find_class_members` reads, parse without panicking. */
  predicate BodyMembersParsable(n: Node) {
    match FirstOfKind(n.children, "block")
    case None => true
    case Some(i) => MembersParsable(n.children[i].children)
  }

  /**
   * A class definition parses without panicking: a named one needs its
   * members and its docstring to parse, and its row plus one to fit in 32 bits.
   */
  predicate ClassParsable(n: Node) {
    NodeName(n).Some? ==> BodyMembersParsable(n) && DocSliceable(n) && n.row + 1 < 0x1_0000_0000
  }

  /** Every class definition in a subtree, at any depth, parses without panicking. */
  predicate ClassesParsable(n: Node) {
    && (n.kind == "class_definition" ==> ClassParsable(n))
    && forall k :: 0 <= k < |n.children| ==> ClassesParsable(n.children[k])
  }

  /** Every function definition of a subtree outside every class, the ones the function walk parses, parses without panicking. */
  predicate FunctionsParsable(n: Node, ancestors: seq<Node>) {
    && (n.kind == "function_definition" && !InsideClass(ancestors) ==> DefinitionParsable(n))
    && forall k :: 0 <= k < |n.children| ==> FunctionsParsable(n.children[k], [n] + ancestors)
  }

  // ----- first-match searches over children -----

  /** The index of the first node of kind `kind`. */
  function FirstOfKind(nodes: seq<Node>, kind: string): (r: Option<nat>)
    ensures r.None? <==> forall k :: 0 <= k < |nodes| ==> nodes[k].kind != kind
    ensures r.Some? ==> (r.value < |nodes| && nodes[r.value].kind == kind
      && forall j :: 0 <= j < r.value ==> nodes[j].kind != kind)
  {
    if nodes == [] then None
    else if nodes[0].kind == kind then Some(0)
    else match FirstOfKind(nodes[1..], kind)
      case None => None
      case Some(i) => Some(i + 1)
  }

  /** `extract_node_name`: the text of the first `identifier` child, if any. */
  function NodeName(n: Node): (r: Option<string>)
    ensures r.Some? <==> exists k :: 0 <= k < |n.children| && n.children[k].kind == "identifier"
    ensures r.Some? ==> r.value == n.children[FirstOfKind(n.children, "identifier").value].text
  {
    match FirstOfKind(n.children, "identifier")
    case None => None
    case Some(i) => Some(n.children[i].text)
  }

  /** `extract_return_type_from_node`: the text of the first `type` child, else "Any". */
  function ReturnType(n: Node): (r: string)
    ensures FirstOfKind(n.children, "type").None? ==> r == "Any"
    ensures FirstOfKind(n.children, "type").Some? ==> r == n.children[FirstOfKind(n.children, "type").value].text
  {
    match FirstOfKind(n.children, "type")
    case None => "Any"
    case Some(i) => n.children[i].text
  }

  /** `is_async_function_node`: some child is the `async` keyword. */
  function IsAsyncNode(n: Node): (b: bool)
    ensures b <==> exists k :: 0 <= k < |n.children| && n.children[k].kind == "async"
  {
    FirstOfKind(n.children, "async").Some?
  }

  // ----- walking up -----

  /** Some ancestor is a class definition. */
  predicate InsideClass(ancestors: seq<Node>) {
    ancestors != [] && (ancestors[0].kind == "class_definition" || InsideClass(ancestors[1..]))
  }

  lemma {:induction false} InsideClassMeans(ancestors: seq<Node>)
    ensures InsideClass(ancestors) <==> exists k :: 0 <= k < |ancestors| && ancestors[k].kind == "class_definition"
  {
    if ancestors != [] {
      InsideClassMeans(ancestors[1..]);
      if exists k :: 0 <= k < |ancestors| && ancestors[k].kind == "class_definition" {
        var k :| 0 <= k < |ancestors| && ancestors[k].kind == "class_definition";
        if k > 0 {
          assert ancestors[1..][k - 1] == ancestors[k];
        }
      }
    }
  }

  /** `is_inside_class_node`: walks the parent links up to the root. */
  method IsInsideClassNode(ancestors: seq<Node>) returns (inside: bool)
    ensures inside <==> InsideClass(ancestors)
  {
    var p := 0;
    while p < |ancestors|
      invariant 0 <= p <= |ancestors|
      invariant InsideClass(ancestors) == InsideClass(ancestors[p..])
    {
      assert ancestors[p..][1..] == ancestors[p + 1..];
      if ancestors[p].kind == "class_definition" {
        return true;
      }
      p := p + 1;
    }
    return false;
  }

  /** The text of the first `type` child of the nearest ancestor that has one, else "Any". */
  function TypeAnnotation(ancestors: seq<Node>): (r: string)
    ensures (forall k :: 0 <= k < |ancestors| ==> FirstOfKind(ancestors[k].children, "type").None?) ==> r == "Any"
  {
    if ancestors == [] then "Any"
    else match FirstOfKind(ancestors[0].children, "type")
      case Some(i) => ancestors[0].children[i].text
      case None =>
        assert forall k :: 1 <= k < |ancestors| ==> ancestors[k] == ancestors[1..][k - 1];
        TypeAnnotation(ancestors[1..])
  }

  /** `find_type_annotation`, given the parameter's ancestors. */
  method FindTypeAnnotation(ancestors: seq<Node>) returns (typeHint: string)
    ensures typeHint == TypeAnnotation(ancestors)
  {
    var p := 0;
    while p < |ancestors|
      invariant 0 <= p <= |ancestors|
      invariant TypeAnnotation(ancestors) == TypeAnnotation(ancestors[p..])
    {
      var current := ancestors[p];
      assert ancestors[p..][1..] == ancestors[p + 1..];
      for i := 0 to |current.children|
        invariant forall j :: 0 <= j < i ==> current.children[j].kind != "type"
      {
        if current.children[i].kind == "type" {
          return current.children[i].text;
        }
      }
      p := p + 1;
    }
    return "Any";
  }

  /** One "decorator" per `identifier` child of a node. */
  function DecorationsIn(nodes: seq<Node>): seq<string> {
    if nodes == [] then []
    else DecorationsIn(nodes[..|nodes| - 1]) + (if nodes[|nodes| - 1].kind == "identifier" then ["decorator"] else [])
  }

  /** The decorations of each `decorator` child, in order. */
  function DecoratorsIn(children: seq<Node>): seq<string> {
    if children == [] then []
    else
      var last := children[|children| - 1];
      DecoratorsIn(children[..|children| - 1]) + (if last.kind == "decorator" then DecorationsIn(last.children) else [])
  }

  /** The decorations of the nearest `decorated_definition` ancestor, if any. */
  function DecoratorsOf(ancestors: seq<Node>): seq<string> {
    if ancestors == [] then []
    else if ancestors[0].kind == "decorated_definition" then DecoratorsIn(ancestors[0].children)
    else DecoratorsOf(ancestors[1..])
  }

  /** `extract_decorators_from_node`, given the node's ancestors. */
  method ExtractDecoratorsFromNode(ancestors: seq<Node>) returns (decorators: seq<string>)
    ensures decorators == DecoratorsOf(ancestors)
  {
    decorators := [];
    var p := 0;
    while p < |ancestors|
      invariant 0 <= p <= |ancestors|
      invariant DecoratorsOf(ancestors) == DecoratorsOf(ancestors[p..])
    {
      var current := ancestors[p];
      assert ancestors[p..][1..] == ancestors[p + 1..];
      if current.kind == "decorated_definition" {
        for i := 0 to |current.children|
          invariant decorators == DecoratorsIn(current.children[..i])
        {
          assert current.children[..i + 1][..i] == current.children[..i];
          var child := current.children[i];
          if child.kind == "decorator" {
            for j := 0 to |child.children|
              invariant decorators == DecoratorsIn(current.children[..i]) + DecorationsIn(child.children[..j])
            {
              assert child.children[..j + 1][..j] == child.children[..j];
              if child.children[j].kind == "identifier" {
                decorators := decorators + ["decorator"];
              }
            }
            assert child.children[..|child.children|] == child.children;
          }
        }
        assert current.children[..|current.children|] == current.children;
        return;
      }
      p := p + 1;
    }
  }

  lemma {:induction false} DecorationsLiteral(nodes: seq<Node>)
    ensures forall k :: 0 <= k < |DecorationsIn(nodes)| ==> DecorationsIn(nodes)[k] == "decorator"
  {
    if nodes != [] {
      DecorationsLiteral(nodes[..|nodes| - 1]);
    }
  }

  lemma {:induction false} DecoratorsInLiteral(children: seq<Node>)
    ensures forall k :: 0 <= k < |DecoratorsIn(children)| ==> DecoratorsIn(children)[k] == "decorator"
  {
    if children != [] {
      DecoratorsInLiteral(children[..|children| - 1]);
      DecorationsLiteral(children[|children| - 1].children);
    }
  }

  /** Every collected decorator is the literal "decorator", never the decorator's name. */
  lemma {:induction false} DecoratorsAreLiteral(ancestors: seq<Node>)
    ensures forall k :: 0 <= k < |DecoratorsOf(ancestors)| ==> DecoratorsOf(ancestors)[k] == "decorator"
    ensures "staticmethod" !in DecoratorsOf(ancestors)
  {
    if ancestors != [] {
      if ancestors[0].kind == "decorated_definition" {
        DecoratorsInLiteral(ancestors[0].children);
      } else {
        DecoratorsAreLiteral(ancestors[1..]);
      }
    }
  }

  /** `is_static_method_node`: whether the decorators include "staticmethod", which they never do. */
  method IsStaticMethodNode(ancestors: seq<Node>) returns (isStatic: bool)
    ensures !isStatic
  {
    var decorators := ExtractDecoratorsFromNode(ancestors);
    DecoratorsAreLiteral(ancestors);
    isStatic := "staticmethod" in decorators;
  }

  /** `has_setter_node`: setter detection is not implemented. */
  function HasSetterNode(n: Node): bool {
    false
  }

  // ----- superclasses -----

  /** The texts of the `identifier` nodes, in order. */
  function IdentifierTexts(nodes: seq<Node>): seq<string> {
    if nodes == [] then []
    else IdentifierTexts(nodes[..|nodes| - 1]) + (if nodes[|nodes| - 1].kind == "identifier" then [nodes[|nodes| - 1].text] else [])
  }

  /** The identifiers of every `argument_list` child, in order. */
  function SuperclassesIn(children: seq<Node>): seq<string> {
    if children == [] then []
    else
      var last := children[|children| - 1];
      SuperclassesIn(children[..|children| - 1]) + (if last.kind == "argument_list" then IdentifierTexts(last.children) else [])
  }

  method ExtractSuperclasses(n: Node) returns (superclasses: seq<string>)
    ensures superclasses == SuperclassesIn(n.children)
  {
    superclasses := [];
    for i := 0 to |n.children|
      invariant superclasses == SuperclassesIn(n.children[..i])
    {
      assert n.children[..i + 1][..i] == n.children[..i];
      var child := n.children[i];
      if child.kind == "argument_list" {
        for j := 0 to |child.children|
          invariant superclasses == SuperclassesIn(n.children[..i]) + IdentifierTexts(child.children[..j])
        {
          assert child.children[..j + 1][..j] == child.children[..j];
          var arg := child.children[j];
          if arg.kind == "identifier" {
            superclasses := superclasses + [arg.text];
          }
        }
        assert child.children[..|child.children|] == child.children;
      }
    }
    assert n.children[..|n.children|] == n.children;
  }

  // ----- parameters -----

  /** The parameters of one `parameters` node's children; `ancestors` are theirs. */
  function ParamsOfList(params: seq<Node>, ancestors: seq<Node>): seq<Parameter> {
    if params == [] then []
    else
      var p := params[|params| - 1];
      ParamsOfList(params[..|params| - 1], ancestors)
        + (if p.kind == "identifier" && p.text != "self" && p.text != "cls"
           then [Parameter(p.text, TypeAnnotation(ancestors), None)] else [])
  }

  /** The parameters of every `parameters` child among `children` of `n`. */
  function ParametersIn(children: seq<Node>, n: Node, ancestors: seq<Node>): seq<Parameter> {
    if children == [] then []
    else
      var last := children[|children| - 1];
      ParametersIn(children[..|children| - 1], n, ancestors)
        + (if last.kind == "parameters" then ParamsOfList(last.children, [last, n] + ancestors) else [])
  }

  function ParametersOf(n: Node, ancestors: seq<Node>): seq<Parameter> {
    ParametersIn(n.children, n, ancestors)
  }

  method ExtractParametersFromNode(n: Node, ancestors: seq<Node>) returns (parameters: seq<Parameter>)
    ensures parameters == ParametersOf(n, ancestors)
  {
    parameters := [];
    for i := 0 to |n.children|
      invariant parameters == ParametersIn(n.children[..i], n, ancestors)
    {
      assert n.children[..i + 1][..i] == n.children[..i];
      var child := n.children[i];
      if child.kind == "parameters" {
        ghost var before := parameters;
        ghost var paramAncestors := [child, n] + ancestors;
        for j := 0 to |child.children|
          invariant parameters == before + ParamsOfList(child.children[..j], paramAncestors)
        {
          assert child.children[..j + 1][..j] == child.children[..j];
          var param := child.children[j];
          if param.kind == "identifier" {
            var name := param.text;
            if name == "self" || name == "cls" {
              continue;
            }
            var typeHint := FindTypeAnnotation([child, n] + ancestors);
            parameters := parameters + [Parameter(name, typeHint, None)];
          }
        }
        assert child.children[..|child.children|] == child.children;
      }
    }
    assert n.children[..|n.children|] == n.children;
  }

  /**
   * Only bare identifiers are parameters: none is a receiver, none has a
   * default, and all of one list share one type, that of the nearest
   * ancestor with a `type` child.
   */
  lemma {:induction false} ParamsOfListShape(params: seq<Node>, ancestors: seq<Node>)
    ensures forall k :: 0 <= k < |ParamsOfList(params, ancestors)| ==>
      var p := ParamsOfList(params, ancestors)[k];
      p.defaultValue.None? && p.name != "self" && p.name != "cls" && p.typeHint == TypeAnnotation(ancestors)
  {
    if params != [] {
      ParamsOfListShape(params[..|params| - 1], ancestors);
    }
  }

  lemma {:induction false} ParametersShape(n: Node, ancestors: seq<Node>)
    ensures forall k :: 0 <= k < |ParametersOf(n, ancestors)| ==>
      var p := ParametersOf(n, ancestors)[k];
      p.defaultValue.None? && p.name != "self" && p.name != "cls"
  {
    ParametersInShape(n.children, n, ancestors);
  }

  lemma {:induction false} ParametersInShape(children: seq<Node>, n: Node, ancestors: seq<Node>)
    ensures forall k :: 0 <= k < |ParametersIn(children, n, ancestors)| ==>
      var p := ParametersIn(children, n, ancestors)[k];
      p.defaultValue.None? && p.name != "self" && p.name != "cls"
  {
    if children != [] {
      var last := children[|children| - 1];
      ParametersInShape(children[..|children| - 1], n, ancestors);
      ParamsOfListShape(last.children, [last, n] + ancestors);
    }
  }

  /** `extract_signature_from_node`: the name (empty if none) and the parameters. */
  function SignatureOf(n: Node, ancestors: seq<Node>): (r: string)
    ensures StartsWith(r, NodeName(n).UnwrapOr("") + "(") && EndsWith(r, ")")
    ensures forall k :: 0 <= k < |ParametersOf(n, ancestors)| ==> Contains(r, RenderParameter(ParametersOf(n, ancestors)[k]))
  {
    var parameters := ParametersOf(n, ancestors);
    forall k | 0 <= k < |parameters| ensures Contains(Signature(NodeName(n).UnwrapOr(""), parameters), RenderParameter(parameters[k])) {
      SignatureShowsEveryParameter(NodeName(n).UnwrapOr(""), parameters, k);
    }
    Signature(NodeName(n).UnwrapOr(""), parameters)
  }

  // ----- docstrings -----

  /** The nodes of kind `kind`, in order. */
  function OfKind(nodes: seq<Node>, kind: string): (r: seq<Node>)
    ensures forall k :: 0 <= k < |r| ==> r[k].kind == kind && r[k] in nodes
  {
    if nodes == [] then []
    else OfKind(nodes[..|nodes| - 1], kind) + (if nodes[|nodes| - 1].kind == kind then [nodes[|nodes| - 1]] else [])
  }

  /** Every node of the kind is kept. */
  lemma {:induction false} OfKindComplete(nodes: seq<Node>, kind: string, k: nat)
    requires k < |nodes| && nodes[k].kind == kind
    ensures nodes[k] in OfKind(nodes, kind)
  {
    if k < |nodes| - 1 {
      OfKindComplete(nodes[..|nodes| - 1], kind, k);
    }
  }

  /** An index holding the kind, with none of the kind before it, is the first of the kind. */
  lemma FirstOfKindAt(nodes: seq<Node>, kind: string, f: nat)
    requires f < |nodes| && nodes[f].kind == kind
    requires forall j :: 0 <= j < f ==> nodes[j].kind != kind
    ensures FirstOfKind(nodes, kind) == Some(f)
  {
    var r := FirstOfKind(nodes, kind);
    assert r.Some?;
    assert !(r.value < f);
  }

  /** The first node of a kind is the prefix's first, or else the last node when it has the kind. */
  lemma FirstOfKindSnoc(nodes: seq<Node>, kind: string)
    requires nodes != []
    ensures FirstOfKind(nodes, kind) ==
      if FirstOfKind(nodes[..|nodes| - 1], kind).Some? then FirstOfKind(nodes[..|nodes| - 1], kind)
      else if nodes[|nodes| - 1].kind == kind then Some(|nodes| - 1)
      else None
  {
    var init := nodes[..|nodes| - 1];
    assert forall k :: 0 <= k < |init| ==> init[k] == nodes[k];
    match FirstOfKind(init, kind)
    case Some(i) =>
      FirstOfKindAt(nodes, kind, i);
    case None =>
      if nodes[|nodes| - 1].kind == kind {
        FirstOfKindAt(nodes, kind, |nodes| - 1);
      }
  }

  /** The nodes kept are none exactly when no node has the kind, and the first one kept is the first of the kind. */
  lemma {:induction false} OfKindFirst(nodes: seq<Node>, kind: string)
    ensures OfKind(nodes, kind) == [] <==> FirstOfKind(nodes, kind).None?
    ensures OfKind(nodes, kind) != [] ==> OfKind(nodes, kind)[0] == nodes[FirstOfKind(nodes, kind).value]
  {
    if nodes != [] {
      var init := nodes[..|nodes| - 1];
      OfKindFirst(init, kind);
      FirstOfKindSnoc(nodes, kind);
      if FirstOfKind(init, kind).Some? {
        assert init[FirstOfKind(init, kind).value] == nodes[FirstOfKind(init, kind).value];
      }
    }
  }

  /** A statement that holds a string literal: an `expression_statement` with a `string` child. */
  predicate HoldsString(statement: Node) {
    statement.kind == "expression_statement" && FirstOfKind(statement.children, "string").Some?
  }

  /** The first string literal of a statement that holds one. */
  function FirstString(statement: Node): Node
    requires HoldsString(statement)
  {
    statement.children[FirstOfKind(statement.children, "string").value]
  }

  /** The `string` children of the `expression_statement`s among `statements`, in order. */
  function StringsIn(statements: seq<Node>): (r: seq<Node>)
    ensures forall k :: 0 <= k < |r| ==> r[k].kind == "string"
  {
    if statements == [] then []
    else
      var last := statements[|statements| - 1];
      StringsIn(statements[..|statements| - 1]) + (if last.kind == "expression_statement" then OfKind(last.children, "string") else [])
  }

  /** Every string child of every expression statement is collected. */
  lemma {:induction false} StringsInComplete(statements: seq<Node>, k: nat, j: nat)
    requires k < |statements| && statements[k].kind == "expression_statement"
    requires j < |statements[k].children| && statements[k].children[j].kind == "string"
    ensures statements[k].children[j] in StringsIn(statements)
  {
    if k < |statements| - 1 {
      StringsInComplete(statements[..|statements| - 1], k, j);
    } else {
      OfKindComplete(statements[k].children, "string", j);
    }
  }

  /**
   * No literal is collected exactly when no statement holds one; otherwise the
   * first collected is the first string of the first statement that holds one.
   */
  lemma {:induction false} StringsInFirst(statements: seq<Node>)
    ensures StringsIn(statements) == [] <==> forall k :: 0 <= k < |statements| ==> !HoldsString(statements[k])
    ensures StringsIn(statements) != [] ==>
      exists k :: 0 <= k < |statements| && HoldsString(statements[k])
        && (forall j :: 0 <= j < k ==> !HoldsString(statements[j]))
        && StringsIn(statements)[0] == FirstString(statements[k])
  {
    if statements != [] {
      var init := statements[..|statements| - 1];
      var last := statements[|statements| - 1];
      StringsInFirst(init);
      OfKindFirst(last.children, "string");
      assert forall k :: 0 <= k < |init| ==> init[k] == statements[k];
      if StringsIn(init) != [] {
        var k :| 0 <= k < |init| && HoldsString(init[k]) && (forall j :: 0 <= j < k ==> !HoldsString(init[j]))
          && StringsIn(init)[0] == FirstString(init[k]);
        assert HoldsString(statements[k]) && StringsIn(statements)[0] == FirstString(statements[k]);
      } else if HoldsString(last) {
        assert StringsIn(statements)[0] == FirstString(statements[|statements| - 1]);
      }
    }
  }

  /** The string literals of the first `block` child's statements. */
  function BodyStrings(n: Node): seq<Node> {
    match FirstOfKind(n.children, "block")
    case None => []
    case Some(i) => StringsIn(n.children[i].children)
  }

  /** Quote stripping: triple quotes first, then single; trimmed; none for any other literal, such as a prefixed one. */
  function StripDocQuotes(s: string): (r: Option<string>)
    requires WellQuoted(s)
    ensures r.None? <==> !(StartsWith(s, "\"") && EndsWith(s, "\"")) && !(StartsWith(s, "'") && EndsWith(s, "'"))
  {
    TripleQuotesAreQuotes(s);
    if StartsWith(s, "\"\"\"") && EndsWith(s, "\"\"\"") then Some(Trim(s[3..|s| - 3]))
    else if StartsWith(s, "'''") && EndsWith(s, "'''") then Some(Trim(s[3..|s| - 3]))
    else if StartsWith(s, "\"") && EndsWith(s, "\"") then Some(Trim(s[1..|s| - 1]))
    else if StartsWith(s, "'") && EndsWith(s, "'") then Some(Trim(s[1..|s| - 1]))
    else None
  }

  /** `extract_docstring_from_node`: the first body string, stripped; none without a body or a string. */
  function DocstringOfNode(n: Node): (r: Doc)
    ensures BodyStrings(n) == [] ==> r.None?
    ensures BodyStrings(n) != [] && WellQuoted(BodyStrings(n)[0].text) ==> r == StripDocQuotes(BodyStrings(n)[0].text)
  {
    if BodyStrings(n) == [] then None
    else if WellQuoted(BodyStrings(n)[0].text) then StripDocQuotes(BodyStrings(n)[0].text)
    else None  // the source panics on such a node; see `DocSliceable`
  }

  method ExtractDocstringFromNode(n: Node) returns (docstring: Doc)
    requires DocSliceable(n)
    ensures docstring == DocstringOfNode(n)
  {
    var stringLiterals: seq<Node> := [];
    var body := FirstOfKind(n.children, "block");
    if body.Some? {
      var statements := n.children[body.value].children;
      for i := 0 to |statements|
        invariant stringLiterals == StringsIn(statements[..i])
      {
        assert statements[..i + 1][..i] == statements[..i];
        var child := statements[i];
        if child.kind == "expression_statement" {
          ghost var before := stringLiterals;
          for j := 0 to |child.children|
            invariant stringLiterals == before + OfKind(child.children[..j], "string")
          {
            assert child.children[..j + 1][..j] == child.children[..j];
            if child.children[j].kind == "string" {
              stringLiterals := stringLiterals + [child.children[j]];
            }
          }
          assert child.children[..|child.children|] == child.children;
        }
      }
      assert statements[..|statements|] == statements;
    }
    assert stringLiterals == BodyStrings(n);
    if stringLiterals == [] {
      return None;
    }
    assert WellQuoted(stringLiterals[0].text);
    docstring := StripDocQuotes(stringLiterals[0].text);
  }

  /** A triple-quoted literal gives its trimmed contents. */
  lemma TripleQuotedDoc(q: char, body: string)
    requires q == '"' || q == '\''
    ensures WellQuoted([q, q, q] + body + [q, q, q])
    ensures StripDocQuotes([q, q, q] + body + [q, q, q]) == Some(Trim(body))
  {
    var s := [q, q, q] + body + [q, q, q];
    assert s[..3] == [q, q, q] && s[|s| - 3..] == [q, q, q];
    assert s[3..|s| - 3] == body;
  }

  /** A literal in single quotes that is not also triple-quoted gives its trimmed contents. */
  lemma SingleQuotedDoc(q: char, body: string)
    requires q == '"' || q == '\''
    requires !(StartsWith([q] + body + [q], [q, q, q]) && EndsWith([q] + body + [q], [q, q, q]))
    ensures WellQuoted([q] + body + [q])
    ensures StripDocQuotes([q] + body + [q]) == Some(Trim(body))
  {
    var s := [q] + body + [q];
    assert s[0] == q && s[|s| - 1] == q;
    assert s[..1] == [q] && s[|s| - 1..] == [q];
    if q == '"' {
      assert [q, q, q] == "\"\"\"";
      assert !StartsWith(s, "'''");
    } else {
      assert [q, q, q] == "'''";
      assert !StartsWith(s, "\"\"\"") && !StartsWith(s, "\"");
    }
    assert s[1..|s| - 1] == body;
  }

  /** An empty literal gives an empty docstring, not an absent one; a prefixed literal gives none. */
  lemma DocQuoteEdgeCases()
    ensures StripDocQuotes("\"\"") == Some("")
    ensures StripDocQuotes("r\"raw\"").None?
  {
    assert "\"\""[1..1] == [];
    assert Trim([]) == [];
  }

  /** A definition named `name` whose body opens with the literal `doc`, followed by any statements `rest`. */
  function DocumentedDefinition(kind: string, name: string, doc: string, rest: seq<Node>): Node {
    Node(kind, "", 0, [Node("identifier", name, 0, []),
      Node("block", "", 0, [Node("expression_statement", doc, 0, [Node("string", doc, 0, [])])] + rest)])
  }

  /**
   * Only the first body literal is sliced: whatever follows it, even a lone
   * quote that would make the slice panic, the definition parses and its
   * docstring comes from that first literal.
   */
  lemma {:induction false} OnlyFirstLiteralSliced(kind: string, name: string, doc: string, rest: seq<Node>)
    requires WellQuoted(doc)
    ensures DefinitionParsable(DocumentedDefinition(kind, name, doc, rest))
    ensures DocstringOfNode(DocumentedDefinition(kind, name, doc, rest)) == StripDocQuotes(doc)
  {
    var n := DocumentedDefinition(kind, name, doc, rest);
    var statements := n.children[1].children;
    var literal := Node("string", doc, 0, []);
    assert FirstOfKind(n.children, "block") == Some(1);
    assert FirstOfKind(statements[0].children, "string") == Some(0);
    assert HoldsString(statements[0]) && FirstString(statements[0]) == literal;
    StringsInFirst(statements);
    var k :| 0 <= k < |statements| && HoldsString(statements[k])
      && (forall j :: 0 <= j < k ==> !HoldsString(statements[j]))
      && StringsIn(statements)[0] == FirstString(statements[k]);
    assert k == 0;
    assert BodyStrings(n)[0] == literal;
  }

  /** A statement holding a lone `"`, the literal an unterminated string leaves behind. */
  function StrayQuote(): Node {
    Node("expression_statement", "\"", 1, [Node("string", "\"", 1, [])])
  }

  /** A lone quote after a well-quoted docstring does not stop the function from parsing. */
  lemma StrayQuoteAfterDocstring(name: string, body: string)
    ensures !WellQuoted(StrayQuote().children[0].text)
    ensures var n := DocumentedDefinition("function_definition", name, ['"', '"', '"'] + body + ['"', '"', '"'], [StrayQuote()]);
      DefinitionParsable(n) && DocstringOfNode(n) == Some(Trim(body))
  {
    TripleQuotedDoc('"', body);
    OnlyFirstLiteralSliced("function_definition", name, ['"', '"', '"'] + body + ['"', '"', '"'], [StrayQuote()]);
  }

  // ----- records -----

  function MethodRecord(n: Node, ancestors: seq<Node>): (r: Option<Method<Doc>>)
    ensures r.Some? <==> NodeName(n).Some?
    ensures r.Some? ==> !r.value.isStatic && r.value.parameters == ParametersOf(n, ancestors)
  {
    match NodeName(n)
    case None => None
    case Some(name) =>
      DecoratorsAreLiteral(ancestors);
      Some(Method(name, SignatureOf(n, ancestors), DocstringOfNode(n), ParametersOf(n, ancestors), ReturnType(n),
        IsAsyncNode(n), "staticmethod" in DecoratorsOf(ancestors), DecoratorsOf(ancestors)))
  }

  method ParseMethodDefinition(n: Node, ancestors: seq<Node>) returns (r: Option<Method<Doc>>)
    requires DefinitionParsable(n)
    ensures r == MethodRecord(n, ancestors)
  {
    var name := NodeName(n);
    if name.None? {
      return None;
    }
    var parameters := ExtractParametersFromNode(n, ancestors);
    var isStatic := IsStaticMethodNode(ancestors);
    var decorators := ExtractDecoratorsFromNode(ancestors);
    DecoratorsAreLiteral(ancestors);
    var docstring := ExtractDocstringFromNode(n);
    r := Some(Method(name.value, SignatureOf(n, ancestors), docstring, parameters, ReturnType(n),
      IsAsyncNode(n), isStatic, decorators));
  }

  function FunctionRecord(n: Node, ancestors: seq<Node>, filePath: string): (r: Option<Function<Doc>>)
    ensures r.Some? <==> NodeName(n).Some?
    ensures r.Some? ==> r.value.filePath == filePath && r.value.parameters == ParametersOf(n, ancestors)
  {
    match NodeName(n)
    case None => None
    case Some(name) =>
      Some(Function(name, filePath, SignatureOf(n, ancestors), DocstringOfNode(n), ParametersOf(n, ancestors),
        ReturnType(n), IsAsyncNode(n)))
  }

  method ParseFunctionDefinition(n: Node, ancestors: seq<Node>, filePath: string) returns (r: Option<Function<Doc>>)
    requires DefinitionParsable(n)
    ensures r == FunctionRecord(n, ancestors, filePath)
  {
    var name := NodeName(n);
    if name.None? {
      return None;
    }
    var parameters := ExtractParametersFromNode(n, ancestors);
    var docstring := ExtractDocstringFromNode(n);
    r := Some(Function(name.value, filePath, SignatureOf(n, ancestors), docstring, parameters,
      ReturnType(n), IsAsyncNode(n)));
  }

  /** A property needs an `identifier` child of its own, and is always read-only. */
  function PropertyRecord(n: Node): (r: Option<Property<Doc>>)
    ensures r.Some? <==> NodeName(n).Some?
    ensures r.Some? ==> r.value.isReadonly
  {
    match NodeName(n)
    case None => None
    case Some(name) => Some(Property(name, ReturnType(n), DocstringOfNode(n), !HasSetterNode(n)))
  }

  method ParsePropertyDefinition(n: Node) returns (r: Option<Property<Doc>>)
    requires DefinitionParsable(n)
    ensures r == PropertyRecord(n)
  {
    var name := NodeName(n);
    if name.None? {
      return None;
    }
    var docstring := ExtractDocstringFromNode(n);
    r := Some(Property(name.value, ReturnType(n), docstring, !HasSetterNode(n)));
  }

  // ----- class members -----

  /** The methods among a class body's statements; `ancestors` are the statements'. */
  function MethodsIn(items: seq<Node>, ancestors: seq<Node>): seq<Method<Doc>>
  {
    if items == [] then []
    else
      var last := items[|items| - 1];
      MethodsIn(items[..|items| - 1], ancestors)
        + (if last.kind == "function_definition" && MethodRecord(last, ancestors).Some? then [MethodRecord(last, ancestors).value] else [])
  }

  /** The properties among a class body's statements. */
  function PropertiesIn(items: seq<Node>): seq<Property<Doc>>
  {
    if items == [] then []
    else
      var last := items[|items| - 1];
      PropertiesIn(items[..|items| - 1])
        + (if last.kind == "decorated_definition" && PropertyRecord(last).Some? then [PropertyRecord(last).value] else [])
  }

  /** The methods and properties directly in the first `block` child. */
  function MembersOf(n: Node, ancestors: seq<Node>): (seq<Method<Doc>>, seq<Property<Doc>>)
  {
    match FirstOfKind(n.children, "block")
    case None => ([], [])
    case Some(i) =>
      var block := n.children[i];
      (MethodsIn(block.children, [block, n] + ancestors), PropertiesIn(block.children))
  }

  /** The members among one class body's statements. */
  method CollectMembers(block: Node, memberAncestors: seq<Node>) returns (methods: seq<Method<Doc>>, properties: seq<Property<Doc>>)
    requires MembersParsable(block.children)
    ensures methods == MethodsIn(block.children, memberAncestors)
    ensures properties == PropertiesIn(block.children)
  {
    methods, properties := [], [];
    for j := 0 to |block.children|
      invariant methods == MethodsIn(block.children[..j], memberAncestors)
      invariant properties == PropertiesIn(block.children[..j])
    {
      assert block.children[..j + 1][..j] == block.children[..j];
      var member := block.children[j];
      assert MethodsIn(block.children[..j + 1], memberAncestors) == methods
        + (if member.kind == "function_definition" && MethodRecord(member, memberAncestors).Some? then [MethodRecord(member, memberAncestors).value] else []);
      assert PropertiesIn(block.children[..j + 1]) == properties
        + (if member.kind == "decorated_definition" && PropertyRecord(member).Some? then [PropertyRecord(member).value] else []);
      if member.kind == "function_definition" {
        var parsedMethod := ParseMethodDefinition(member, memberAncestors);
        if parsedMethod.Some? {
          methods := methods + [parsedMethod.value];
        }
      } else if member.kind == "decorated_definition" {
        var parsedProperty := ParsePropertyDefinition(member);
        if parsedProperty.Some? {
          properties := properties + [parsedProperty.value];
        }
      }
    }
    assert block.children[..|block.children|] == block.children;
  }

  /** `find_class_members`: only the first `block` child is read. */
  method FindClassMembers(n: Node, ancestors: seq<Node>) returns (methods: seq<Method<Doc>>, properties: seq<Property<Doc>>)
    requires BodyMembersParsable(n)
    ensures (methods, properties) == MembersOf(n, ancestors)
  {
    for i := 0 to |n.children|
      invariant forall j :: 0 <= j < i ==> n.children[j].kind != "block"
    {
      var child := n.children[i];
      if child.kind == "block" {
        assert FirstOfKind(n.children, "block") == Some(i);
        methods, properties := CollectMembers(child, [child, n] + ancestors);
        return;
      }
    }
    return [], [];
  }

  /** A decorated definition becomes a property only through an `identifier` child of its own. */
  lemma PropertyNeedsOwnIdentifier(n: Node)
    requires n.kind == "decorated_definition"
    requires forall k :: 0 <= k < |n.children| ==> n.children[k].kind != "identifier"
    ensures PropertyRecord(n).None?
  {
  }

  // ----- classes and enums -----

  function ClassRecord(n: Node, ancestors: seq<Node>, filePath: string): (r: Option<PyClass<Doc>>)
    ensures r.Some? <==> NodeName(n).Some?
    ensures r.Some? ==> r.value.inherits == SuperclassesIn(n.children) && r.value.lineNumber == Some(n.row + 1)
    ensures r.Some? ==> (r.value.isException <==> ExceptionBases(r.value.inherits))
    ensures r.Some? ==> (r.value.isAbstract <==> AbstractBases(r.value.inherits))
  {
    match NodeName(n)
    case None => None
    case Some(name) =>
      var inherits := SuperclassesIn(n.children);
      var members := MembersOf(n, ancestors);
      Some(PyClass(name, filePath, DocstringOfNode(n), members.0, members.1, inherits, Some(n.row + 1),
        "Exception" in inherits, AbstractBases(inherits)))
  }

  method ParseClassDefinition(n: Node, ancestors: seq<Node>, filePath: string) returns (r: Option<PyClass<Doc>>)
    requires ClassParsable(n)
    ensures r == ClassRecord(n, ancestors, filePath)
  {
    var name := NodeName(n);
    if name.None? {
      return None;
    }
    var inherits := ExtractSuperclasses(n);
    var methods, properties := FindClassMembers(n, ancestors);
    var isException := "Exception" in inherits;
    var isAbstract := "ABC" in inherits || exists k :: 0 <= k < |inherits| && Contains(inherits[k], "Abstract");
    var docstring := ExtractDocstringFromNode(n);
    r := Some(PyClass(name.value, filePath, docstring, methods, properties, inherits, Some(n.row + 1),
      isException, isAbstract));
  }

  /** `convert_class_to_enum`: keeps the name, file and docstring; values are never extracted. */
  function ConvertClassToEnum(c: PyClass<Doc>): (e: PyEnum<Doc>)
    ensures e.name == c.name && e.filePath == c.filePath && e.docstring == c.docstring
    ensures e.values == []
  {
    PyEnum(c.name, c.filePath, c.docstring, [])
  }

  // ----- the two tree walks -----

  /** The contributions of a subtree's nodes in pre-order; `visit` gives one node's from the node and its ancestors. */
  function Collected<T>(n: Node, ancestors: seq<Node>, visit: (Node, seq<Node>) -> seq<T>): seq<T>
    decreases n, 1
  {
    visit(n, ancestors) + CollectedInChildren(n, ancestors, visit, |n.children|)
  }

  /** The contributions of the first `k` children's subtrees. */
  function CollectedInChildren<T>(n: Node, ancestors: seq<Node>, visit: (Node, seq<Node>) -> seq<T>, k: nat): seq<T>
    requires k <= |n.children|
    decreases n, 0, k
  {
    if k == 0 then []
    else CollectedInChildren(n, ancestors, visit, k - 1) + Collected(n.children[k - 1], [n] + ancestors, visit)
  }

  lemma CollectStep<T>(n: Node, ancestors: seq<Node>, visit: (Node, seq<Node>) -> seq<T>, i: nat, base: seq<T>)
    requires i < |n.children|
    ensures base + CollectedInChildren(n, ancestors, visit, i + 1)
      == base + CollectedInChildren(n, ancestors, visit, i) + Collected(n.children[i], [n] + ancestors, visit)
  {
  }

  /** The class a node itself contributes: one when it is a class definition with a name. */
  function ClassAt(n: Node, ancestors: seq<Node>, filePath: string): seq<PyClass<Doc>> {
    if n.kind == "class_definition" && ClassRecord(n, ancestors, filePath).Some? then [ClassRecord(n, ancestors, filePath).value] else []
  }

  function ClassVisitor(filePath: string): (Node, seq<Node>) -> seq<PyClass<Doc>> {
    (n: Node, ancestors: seq<Node>) => ClassAt(n, ancestors, filePath)
  }

  /** The parsed classes of a subtree, in pre-order. */
  function ClassRecordsIn(n: Node, ancestors: seq<Node>, filePath: string): seq<PyClass<Doc>> {
    Collected(n, ancestors, ClassVisitor(filePath))
  }

  predicate IsEnumClass(c: PyClass<Doc>) {
    EnumBases(c.inherits)
  }

  function NonEnumClasses(cs: seq<PyClass<Doc>>): seq<PyClass<Doc>> {
    if cs == [] then []
    else NonEnumClasses(cs[..|cs| - 1]) + (if IsEnumClass(cs[|cs| - 1]) then [] else [cs[|cs| - 1]])
  }

  function EnumsOf(cs: seq<PyClass<Doc>>): seq<PyEnum<Doc>> {
    if cs == [] then []
    else EnumsOf(cs[..|cs| - 1]) + (if IsEnumClass(cs[|cs| - 1]) then [ConvertClassToEnum(cs[|cs| - 1])] else [])
  }

  /** One class goes to exactly one side of the split. */
  lemma SplitSingle(c: PyClass<Doc>)
    ensures NonEnumClasses([c]) == if IsEnumClass(c) then [] else [c]
    ensures EnumsOf([c]) == if IsEnumClass(c) then [ConvertClassToEnum(c)] else []
  {
    assert [c][..0] == [];
  }

  lemma {:induction false} SplitAppend(a: seq<PyClass<Doc>>, b: seq<PyClass<Doc>>)
    ensures NonEnumClasses(a + b) == NonEnumClasses(a) + NonEnumClasses(b)
    ensures EnumsOf(a + b) == EnumsOf(a) + EnumsOf(b)
    decreases |b|
  {
    if b == [] {
      assert a + b == a;
    } else {
      assert (a + b)[..|a + b| - 1] == a + b[..|b| - 1];
      SplitAppend(a, b[..|b| - 1]);
    }
  }

  /** Every parsed class lands in exactly one of the two lists. */
  lemma {:induction false} ClassesAndEnumsPartition(cs: seq<PyClass<Doc>>)
    ensures |NonEnumClasses(cs)| + |EnumsOf(cs)| == |cs|
  {
    if cs != [] {
      ClassesAndEnumsPartition(cs[..|cs| - 1]);
    }
  }

  /** The kept classes are exactly drawn from the parsed ones, and none is an enum. */
  lemma {:induction false} KeptClassesAreNotEnums(cs: seq<PyClass<Doc>>)
    ensures forall k :: 0 <= k < |NonEnumClasses(cs)| ==> !IsEnumClass(NonEnumClasses(cs)[k]) && NonEnumClasses(cs)[k] in cs
  {
    if cs != [] {
      var init := cs[..|cs| - 1];
      KeptClassesAreNotEnums(init);
      var kept := NonEnumClasses(cs);
      forall k | 0 <= k < |kept| ensures !IsEnumClass(kept[k]) && kept[k] in cs {
        if k < |NonEnumClasses(init)| {
          assert kept[k] == NonEnumClasses(init)[k];
          assert kept[k] in init;
        } else {
          assert kept[k] == cs[|cs| - 1];
        }
      }
    }
  }

  /** `e` is the conversion of one of `cs` that inherits from an enum. */
  predicate ConvertedFrom(e: PyEnum<Doc>, cs: seq<PyClass<Doc>>) {
    exists c :: c in cs && IsEnumClass(c) && e == ConvertClassToEnum(c)
  }

  /** Each enum is the conversion of a parsed class that inherits from an enum. */
  lemma {:induction false} EnumsComeFromEnumClasses(cs: seq<PyClass<Doc>>)
    ensures forall k :: 0 <= k < |EnumsOf(cs)| ==> ConvertedFrom(EnumsOf(cs)[k], cs)
  {
    if cs != [] {
      var init := cs[..|cs| - 1];
      EnumsComeFromEnumClasses(init);
      forall k | 0 <= k < |EnumsOf(cs)| ensures ConvertedFrom(EnumsOf(cs)[k], cs) {
        if k < |EnumsOf(init)| {
          assert EnumsOf(cs)[k] == EnumsOf(init)[k];
          var c :| c in init && IsEnumClass(c) && EnumsOf(init)[k] == ConvertClassToEnum(c);
          assert c in cs;
        } else {
          var last := cs[|cs| - 1];
          assert IsEnumClass(last) && last in cs;
          assert EnumsOf(cs)[k] == ConvertClassToEnum(last);
        }
      }
    }
  }

  /** The classes kept from one node's visit, and the enums it adds. */
  function KeptClassVisitor(filePath: string): (Node, seq<Node>) -> seq<PyClass<Doc>> {
    (n: Node, ancestors: seq<Node>) => NonEnumClasses(ClassAt(n, ancestors, filePath))
  }

  function EnumVisitor(filePath: string): (Node, seq<Node>) -> seq<PyEnum<Doc>> {
    (n: Node, ancestors: seq<Node>) => EnumsOf(ClassAt(n, ancestors, filePath))
  }

  /** `keep` and `convert` split each node's contribution under `visit`. */
  ghost predicate SplitsVisit(visit: (Node, seq<Node>) -> seq<PyClass<Doc>>,
      keep: (Node, seq<Node>) -> seq<PyClass<Doc>>, convert: (Node, seq<Node>) -> seq<PyEnum<Doc>>) {
    forall m, a :: keep(m, a) == NonEnumClasses(visit(m, a)) && convert(m, a) == EnumsOf(visit(m, a))
  }

  /** Splitting the classes of a whole subtree is splitting node by node. */
  lemma {:induction false} SplitCollected(n: Node, ancestors: seq<Node>, visit: (Node, seq<Node>) -> seq<PyClass<Doc>>,
      keep: (Node, seq<Node>) -> seq<PyClass<Doc>>, convert: (Node, seq<Node>) -> seq<PyEnum<Doc>>)
    requires SplitsVisit(visit, keep, convert)
    ensures Collected(n, ancestors, keep) == NonEnumClasses(Collected(n, ancestors, visit))
    ensures Collected(n, ancestors, convert) == EnumsOf(Collected(n, ancestors, visit))
    decreases n, 1
  {
    SplitCollectedInChildren(n, ancestors, visit, keep, convert, |n.children|);
    SplitAppend(visit(n, ancestors), CollectedInChildren(n, ancestors, visit, |n.children|));
  }

  lemma {:induction false} SplitCollectedInChildren(n: Node, ancestors: seq<Node>, visit: (Node, seq<Node>) -> seq<PyClass<Doc>>,
      keep: (Node, seq<Node>) -> seq<PyClass<Doc>>, convert: (Node, seq<Node>) -> seq<PyEnum<Doc>>, k: nat)
    requires SplitsVisit(visit, keep, convert) && k <= |n.children|
    ensures CollectedInChildren(n, ancestors, keep, k) == NonEnumClasses(CollectedInChildren(n, ancestors, visit, k))
    ensures CollectedInChildren(n, ancestors, convert, k) == EnumsOf(CollectedInChildren(n, ancestors, visit, k))
    decreases n, 0, k
  {
    if k > 0 {
      var prev := CollectedInChildren(n, ancestors, visit, k - 1);
      var sub := Collected(n.children[k - 1], [n] + ancestors, visit);
      SplitCollectedInChildren(n, ancestors, visit, keep, convert, k - 1);
      SplitCollected(n.children[k - 1], [n] + ancestors, visit, keep, convert);
      SplitAppend(prev, sub);
    }
  }

  /** `keep` and `convert` give, for every node, the classes and the enums its visit appends. */
  ghost predicate SpecifiesClassVisit(keep: (Node, seq<Node>) -> seq<PyClass<Doc>>, convert: (Node, seq<Node>) -> seq<PyEnum<Doc>>, filePath: string) {
    forall m, a {:trigger ClassAt(m, a, filePath)} ::
      keep(m, a) == NonEnumClasses(ClassAt(m, a, filePath)) && convert(m, a) == EnumsOf(ClassAt(m, a, filePath))
  }

  /** The visit of one node: a named class definition goes to `enums` when an enum, to `classes` otherwise. */
  method VisitClass(n: Node, ancestors: seq<Node>, filePath: string,
      ghost keep: (Node, seq<Node>) -> seq<PyClass<Doc>>, ghost convert: (Node, seq<Node>) -> seq<PyEnum<Doc>>,
      classes0: seq<PyClass<Doc>>, enums0: seq<PyEnum<Doc>>)
    returns (classes: seq<PyClass<Doc>>, enums: seq<PyEnum<Doc>>)
    requires n.kind == "class_definition" ==> ClassParsable(n)
    requires SpecifiesClassVisit(keep, convert, filePath)
    ensures classes == classes0 + keep(n, ancestors)
    ensures enums == enums0 + convert(n, ancestors)
  {
    classes, enums := classes0, enums0;
    ghost var here := ClassAt(n, ancestors, filePath);
    assert keep(n, ancestors) == NonEnumClasses(here) && convert(n, ancestors) == EnumsOf(here);
    if n.kind == "class_definition" {
      var parsed := ParseClassDefinition(n, ancestors, filePath);
      if parsed.Some? {
        var c := parsed.value;
        assert here == [c];
        SplitSingle(c);
        if exists k :: 0 <= k < |c.inherits| && (c.inherits[k] == "Enum" || EndsWith(c.inherits[k], "Enum")) {
          enums := enums + [ConvertClassToEnum(c)];
        } else {
          classes := classes + [c];
        }
      }
    }
  }

  /**
   * `find_class_definitions`: a pre-order walk appending non-enum classes to
   * `classes` and converted enum classes to `enums`. The ghost `keep` and
   * `convert` specify one node's visit.
   */
  method FindClassDefinitions(n: Node, ancestors: seq<Node>, filePath: string,
      ghost keep: (Node, seq<Node>) -> seq<PyClass<Doc>>, ghost convert: (Node, seq<Node>) -> seq<PyEnum<Doc>>,
      classes0: seq<PyClass<Doc>>, enums0: seq<PyEnum<Doc>>)
    returns (classes: seq<PyClass<Doc>>, enums: seq<PyEnum<Doc>>)
    requires ClassesParsable(n)
    requires SpecifiesClassVisit(keep, convert, filePath)
    ensures classes == classes0 + Collected(n, ancestors, keep)
    ensures enums == enums0 + Collected(n, ancestors, convert)
    decreases n, 1
  {
    classes, enums := VisitClass(n, ancestors, filePath, keep, convert, classes0, enums0);
    classes, enums := FindClassesInChildren(n, ancestors, filePath, keep, convert, classes, enums);
  }

  /** The recursive search over the children of `n`, in order; each child sees `n` as its nearest ancestor. */
  method FindClassesInChildren(n: Node, ancestors: seq<Node>, filePath: string,
      ghost keep: (Node, seq<Node>) -> seq<PyClass<Doc>>, ghost convert: (Node, seq<Node>) -> seq<PyEnum<Doc>>,
      classes0: seq<PyClass<Doc>>, enums0: seq<PyEnum<Doc>>)
    returns (classes: seq<PyClass<Doc>>, enums: seq<PyEnum<Doc>>)
    requires ClassesParsable(n)
    requires SpecifiesClassVisit(keep, convert, filePath)
    ensures classes == classes0 + CollectedInChildren(n, ancestors, keep, |n.children|)
    ensures enums == enums0 + CollectedInChildren(n, ancestors, convert, |n.children|)
    decreases n, 0
  {
    classes, enums := classes0, enums0;
    for i := 0 to |n.children|
      invariant classes == classes0 + CollectedInChildren(n, ancestors, keep, i)
      invariant enums == enums0 + CollectedInChildren(n, ancestors, convert, i)
    {
      CollectStep(n, ancestors, keep, i, classes0);
      CollectStep(n, ancestors, convert, i, enums0);
      classes, enums := FindClassDefinitions(n.children[i], [n] + ancestors, filePath, keep, convert, classes, enums);
    }
  }

  /** The function a node itself contributes: one when it is a named function definition outside every class. */
  function FunctionAt(n: Node, ancestors: seq<Node>, filePath: string): seq<Function<Doc>> {
    if n.kind == "function_definition" && !InsideClass(ancestors) && FunctionRecord(n, ancestors, filePath).Some?
    then [FunctionRecord(n, ancestors, filePath).value] else []
  }

  function FunctionVisitor(filePath: string): (Node, seq<Node>) -> seq<Function<Doc>> {
    (n: Node, ancestors: seq<Node>) => FunctionAt(n, ancestors, filePath)
  }

  /** The parsed module-level functions of a subtree, in pre-order. */
  function FunctionRecordsIn(n: Node, ancestors: seq<Node>, filePath: string): seq<Function<Doc>> {
    Collected(n, ancestors, FunctionVisitor(filePath))
  }

  /** `visit` gives, for every node, the functions its visit appends. */
  ghost predicate SpecifiesFunctionVisit(visit: (Node, seq<Node>) -> seq<Function<Doc>>, filePath: string) {
    forall m, a {:trigger FunctionAt(m, a, filePath)} :: visit(m, a) == FunctionAt(m, a, filePath)
  }

  /** The visit of one node: a named function definition outside every class is appended. */
  method VisitFunction(n: Node, ancestors: seq<Node>, filePath: string, ghost visit: (Node, seq<Node>) -> seq<Function<Doc>>,
      functions0: seq<Function<Doc>>)
    returns (functions: seq<Function<Doc>>)
    requires n.kind == "function_definition" && !InsideClass(ancestors) ==> DefinitionParsable(n)
    requires SpecifiesFunctionVisit(visit, filePath)
    ensures functions == functions0 + visit(n, ancestors)
  {
    functions := functions0;
    if n.kind == "function_definition" {
      var inside := IsInsideClassNode(ancestors);
      if !inside {
        var parsed := ParseFunctionDefinition(n, ancestors, filePath);
        if parsed.Some? {
          functions := functions + [parsed.value];
        }
      }
    }
    assert visit(n, ancestors) == FunctionAt(n, ancestors, filePath);
  }

  /**
   * `find_function_definitions`: a pre-order walk appending every function
   * not nested in a class. The ghost `visit` is the specification of one
   * node's visit.
   */
  method FindFunctionDefinitions(n: Node, ancestors: seq<Node>, filePath: string, ghost visit: (Node, seq<Node>) -> seq<Function<Doc>>,
      functions0: seq<Function<Doc>>)
    returns (functions: seq<Function<Doc>>)
    requires FunctionsParsable(n, ancestors)
    requires SpecifiesFunctionVisit(visit, filePath)
    ensures functions == functions0 + Collected(n, ancestors, visit)
    decreases n
  {
    functions := VisitFunction(n, ancestors, filePath, visit, functions0);
    ghost var base := functions;
    for i := 0 to |n.children|
      invariant functions == base + CollectedInChildren(n, ancestors, visit, i)
    {
      CollectStep(n, ancestors, visit, i, base);
      functions := FindFunctionDefinitions(n.children[i], [n] + ancestors, filePath, visit, functions);
    }
  }

  /** The part of `parse_python_file` that walks the tree: classes and enums from one walk, functions from another. */
  method ParseTree(root: Node, filePath: string)
    returns (classes: seq<PyClass<Doc>>, enums: seq<PyEnum<Doc>>, functions: seq<Function<Doc>>)
    requires ClassesParsable(root) && FunctionsParsable(root, [])
    ensures classes == NonEnumClasses(ClassRecordsIn(root, [], filePath))
    ensures enums == EnumsOf(ClassRecordsIn(root, [], filePath))
    ensures |classes| + |enums| == |ClassRecordsIn(root, [], filePath)|
    ensures functions == FunctionRecordsIn(root, [], filePath)
  {
    classes, enums := FindClassDefinitions(root, [], filePath, KeptClassVisitor(filePath), EnumVisitor(filePath), [], []);
    functions := FindFunctionDefinitions(root, [], filePath, FunctionVisitor(filePath), []);
    SplitCollected(root, [], ClassVisitor(filePath), KeptClassVisitor(filePath), EnumVisitor(filePath));
    ClassesAndEnumsPartition(ClassRecordsIn(root, [], filePath));
  }

  /** Nothing below a class is collected as a module-level function, however deep. */
  lemma {:induction false} NothingCollectedInsideClass(n: Node, ancestors: seq<Node>, filePath: string)
    requires InsideClass(ancestors)
    ensures FunctionRecordsIn(n, ancestors, filePath) == []
    decreases n, 1
  {
    NothingCollectedInChildren(n, ancestors, filePath, |n.children|);
  }

  lemma {:induction false} NothingCollectedInChildren(n: Node, ancestors: seq<Node>, filePath: string, k: nat)
    requires InsideClass(ancestors) && k <= |n.children|
    ensures CollectedInChildren(n, ancestors, FunctionVisitor(filePath), k) == []
    decreases n, 0, k
  {
    if k > 0 {
      NothingCollectedInChildren(n, ancestors, filePath, k - 1);
      assert InsideClass([n] + ancestors) by {
        assert ([n] + ancestors)[1..] == ancestors;
      }
      NothingCollectedInsideClass(n.children[k - 1], [n] + ancestors, filePath);
    }
  }

  /** A class written with a dotted base such as `enum.Enum` has no superclasses, so it is not an enum. */
  lemma DottedBaseIgnored()
    ensures SuperclassesIn([
      Node("class", "class", 0, []),
      Node("identifier", "Color", 0, []),
      Node("argument_list", "(enum.Enum)", 0, [Node("attribute", "enum.Enum", 0, [])])]) == []
  {
    var args := [Node("attribute", "enum.Enum", 0, [])];
    assert IdentifierTexts(args) == IdentifierTexts([]) + [];
    var children := [
      Node("class", "class", 0, []),
      Node("identifier", "Color", 0, []),
      Node("argument_list", "(enum.Enum)", 0, args)];
    var first := [children[0]];
    var two := [children[0], children[1]];
    assert first[..0] == [];
    assert SuperclassesIn(first) == [];
    assert two[..1] == first;
    assert SuperclassesIn(two) == [];
    assert children[..2] == two;
  }
}
