/**
 * The records both extractors produce for a Python source tree. The two
 * tools differ only in how a missing docstring is represented (an empty
 * string in one, an absent value in the other), so every record is generic
 * in its docstring type `D`.
 */
module ApiTypes {
  import opened Wrappers
  import opened Text

  datatype Parameter = Parameter(name: string, typeHint: string, defaultValue: Option<string>)

  datatype Method<D> = Method(
    name: string,
    signature: string,
    docstring: D,
    parameters: seq<Parameter>,
    returnType: string,
    isAsync: bool,
    isStatic: bool,
    decorators: seq<string>)

  datatype Property<D> = Property(name: string, typeHint: string, docstring: D, isReadonly: bool)

  datatype PyClass<D> = PyClass(
    name: string,
    filePath: string,
    docstring: D,
    methods: seq<Method<D>>,
    properties: seq<Property<D>>,
    inherits: seq<string>,
    lineNumber: Option<nat>,
    isException: bool,
    isAbstract: bool)

  datatype EnumValue = EnumValue(name: string, value: Option<string>)

  datatype PyEnum<D> = PyEnum(name: string, filePath: string, docstring: D, values: seq<EnumValue>)

  datatype Function<D> = Function(
    name: string,
    filePath: string,
    signature: string,
    docstring: D,
    parameters: seq<Parameter>,
    returnType: string,
    isAsync: bool)

  /** One parameter as a signature shows it: "n: t = d", "n: t" or "n". */
  function RenderParameter(p: Parameter): (r: string)
    ensures StartsWith(r, p.name)
    ensures p.defaultValue.Some? ==> EndsWith(r, " = " + p.defaultValue.value) && Contains(r, p.typeHint)
    ensures p.defaultValue.None? ==> (r == p.name <==> p.typeHint == [])
    ensures p.defaultValue.Some? ==> r == p.name + ": " + p.typeHint + " = " + p.defaultValue.value
    ensures p.defaultValue.None? && p.typeHint != [] ==> r == p.name + ": " + p.typeHint
  {
    if p.defaultValue.Some? then
      assert OccursAt(p.name + ": " + p.typeHint + " = " + p.defaultValue.value, p.typeHint, |p.name| + 2);
      p.name + ": " + p.typeHint + " = " + p.defaultValue.value
    else if p.typeHint != [] then
      p.name + ": " + p.typeHint
    else
      p.name
  }

  /** A callable's signature: its name, then its rendered parameters, comma-separated, in parentheses. */
  function Signature(name: string, parameters: seq<Parameter>): (r: string)
    ensures StartsWith(r, name + "(") && EndsWith(r, ")")
  {
    name + "(" + Join(Rendered(parameters), ", ") + ")"
  }

  /** The parameters, each rendered, in order. */
  function Rendered(parameters: seq<Parameter>): (r: seq<string>)
    ensures |r| == |parameters| && forall i :: 0 <= i < |r| ==> r[i] == RenderParameter(parameters[i])
  {
    seq(|parameters|, i requires 0 <= i < |parameters| => RenderParameter(parameters[i]))
  }

  /** Without parameters the signature is the name followed by "()". */
  lemma SignatureEmpty(name: string)
    ensures Signature(name, []) == name + "()"
  {
    assert Rendered([]) == [];
  }

  /**
   * One more parameter goes before the closing parenthesis, after ", " unless
   * it is the first: the parameters appear in order, comma-separated.
   */
  lemma SignatureSnoc(name: string, parameters: seq<Parameter>, p: Parameter)
    ensures var s := Signature(name, parameters);
      Signature(name, parameters + [p]) == s[..|s| - 1] + (if parameters == [] then "" else ", ") + RenderParameter(p) + ")"
  {
    var x := RenderParameter(p);
    var sep := if parameters == [] then "" else ", ";
    RenderedSnoc(parameters, p);
    JoinSnoc(Rendered(parameters), x, ", ");
    BeforeClosing(name + "(", Join(Rendered(parameters), ", "), sep + x);
  }

  /** Inserting before a closing parenthesis: the string without its last character, then the insertion. */
  lemma BeforeClosing(open: string, inner: string, more: string)
    ensures var s := open + inner + ")";
      open + (inner + more) + ")" == s[..|s| - 1] + more + ")"
  {
    var s := open + inner + ")";
    assert s[..|s| - 1] == open + inner;
  }

  /** Rendering one more parameter appends its rendering. */
  lemma RenderedSnoc(parameters: seq<Parameter>, p: Parameter)
    ensures Rendered(parameters + [p]) == Rendered(parameters) + [RenderParameter(p)]
  {
    var r := Rendered(parameters + [p]);
    assert forall i :: 0 <= i < |parameters| ==> r[i] == Rendered(parameters)[i];
  }

  /** Every parameter appears, rendered, in the signature. */
  lemma {:induction false} SignatureShowsEveryParameter(name: string, parameters: seq<Parameter>, i: nat)
    requires i < |parameters|
    ensures Contains(Signature(name, parameters), RenderParameter(parameters[i]))
  {
    var rendered := Rendered(parameters);
    JoinContainsEach(rendered, ", ", i);
    ContainsInFrame(name + "(", Join(rendered, ", "), ")", rendered[i]);
  }

  /** A class is an exception class when "Exception" is among its direct bases. */
  predicate ExceptionBases(inherits: seq<string>) {
    "Exception" in inherits
  }

  /** A class is abstract when "ABC" is a direct base or some base's name contains "Abstract". */
  predicate AbstractBases(inherits: seq<string>) {
    "ABC" in inherits || exists k :: 0 <= k < |inherits| && Contains(inherits[k], "Abstract")
  }

  /** A class is an enumeration when some base is named "Enum" or ends with "Enum". */
  predicate EnumBases(inherits: seq<string>) {
    exists k :: 0 <= k < |inherits| && (inherits[k] == "Enum" || EndsWith(inherits[k], "Enum"))
  }

  /** Naming a base exactly "Enum" adds nothing to the suffix test: "Enum" ends with "Enum". */
  lemma EnumSuffixSuffices(inherits: seq<string>)
    ensures EnumBases(inherits) <==> exists k :: 0 <= k < |inherits| && EndsWith(inherits[k], "Enum")
  {
    forall k | 0 <= k < |inherits| && inherits[k] == "Enum" ensures EndsWith(inherits[k], "Enum") {
      assert inherits[k][|inherits[k]| - 4..] == inherits[k];
    }
  }
}
