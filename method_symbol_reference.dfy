/** `MethodSymbolReference`: a method or constructor declared in a class. */
module MethodSymbolReference {
  import opened Wrappers
  import opened Text
  import opened Ast
  import opened AstHelpers
  import opened Symbols

  /**
   * `GetNameExtent`: on the member's lines, starting at the member's start
   * column plus the first index of the name in the member text, and ending at
   * the member's start column plus the name's length, without that index.
   */
  function NameExtent(fm: Node): (e: Extent)
    requires fm.FunctionMember?
    ensures e.text == MethodName(fm)
    ensures e.startLine == fm.ext.startLine && e.endLine == fm.ext.endLine
    ensures var k := e.startColumn - fm.ext.startColumn;
            (k == -1 && Absent(fm.ext.text, MethodName(fm))) || FirstOccurrence(fm.ext.text, MethodName(fm), k)
    ensures e.endColumn == fm.ext.startColumn + |MethodName(fm)|
  {
    var start := fm.ext.startColumn;
    var index := IndexOf(fm.ext.text, MethodName(fm));
    assert (index == -1 && Absent(fm.ext.text, MethodName(fm))) || FirstOccurrence(fm.ext.text, MethodName(fm), index);
    Extent(fm.ext.startLine, start + index, fm.ext.endLine, start + |MethodName(fm)|, MethodName(fm))
  }

  /** `StaticType.Name` of a declared parameter; an untyped parameter is an `Object`. */
  function ParameterTypeName(p: Node): string {
    if p.Parameter? then p.staticTypeName else "Object"
  }

  /** `ParameterTypes`: one static type name per declared parameter, in order. */
  function ParameterTypes(fm: Node): (r: seq<string>)
    requires fm.FunctionMember?
    ensures |r| == |MethodParameters(fm)|
    ensures forall i :: 0 <= i < |r| ==> r[i] == ParameterTypeName(MethodParameters(fm)[i])
  {
    seq(|MethodParameters(fm)|, i requires 0 <= i < |MethodParameters(fm)| => ParameterTypeName(MethodParameters(fm)[i]))
  }

  /** `GetSignatureString`: the parameter type names separated by `", "`. */
  function GetSignatureString(fm: Node): string
    requires fm.FunctionMember?
  {
    Join(", ", ParameterTypes(fm))
  }

  /**
   * `GetSignatureName`: the name followed by the parameter types in
   * parentheses; no parameters give `Name()`, one gives `Name(T)`, two give
   * `Name(T, U)`.
   */
  function GetSignatureName(fm: Node): (r: string)
    requires fm.FunctionMember?
    ensures |r| >= |MethodName(fm)| + 2 && r[..|MethodName(fm)| + 1] == MethodName(fm) + "(" && r[|r| - 1] == ')'
    ensures |MethodParameters(fm)| == 0 ==> r == MethodName(fm) + "()"
    ensures |MethodParameters(fm)| == 1 ==> r == MethodName(fm) + "(" + ParameterTypeName(MethodParameters(fm)[0]) + ")"
    ensures |MethodParameters(fm)| == 2 ==>
              r == MethodName(fm) + "(" + ParameterTypeName(MethodParameters(fm)[0]) + ", "
                   + ParameterTypeName(MethodParameters(fm)[1]) + ")"
  {
    var name := MethodName(fm);
    var r := name + "(" + GetSignatureString(fm) + ")";
    assert r[..|name| + 1] == name + "(";
    r
  }

  /** The constructor of a `MethodSymbolReference` for a member whose parents are `ancestors`. */
  function Create(fm: Node, ancestors: seq<Node>): (r: SymbolReference)
    requires fm.FunctionMember?
    ensures r.kind == Constructor <==> fm.isConstructor
    ensures r.kind == Method <==> !fm.isConstructor
    ensures r.name == MethodName(fm) && r.region == NameExtent(fm)
    ensures r.payload.MethodSymbol?
    ensures r.payload.memberOfType == EnclosingTypeName(ancestors)
    ensures r.payload.parameterTypes == ParameterTypes(fm)
    ensures r.payload.signature == GetSignatureString(fm)
    ensures r.payload.signatureName == GetSignatureName(fm)
    ensures r.payload.returnType == fm.returnType.GetOr("")
    ensures r.payload.isConstructor == fm.isConstructor && r.payload.isStatic == fm.isStatic
    ensures DisplayString(r) == r.payload.signatureName
  {
    var kind := if fm.isConstructor then Constructor else Method;
    SymbolReference(kind, MethodName(fm), NameExtent(fm),
                    MethodSymbol(MemberClassName(fm, ancestors), GetSignatureString(fm), ParameterTypes(fm),
                                 GetSignatureName(fm), fm.returnType.GetOr(""), fm.isConstructor, fm.isStatic))
  }

  /**
   * The region is `index` columns narrower than the name, where `index` is
   * where the name first occurs in the member text: it covers exactly the name
   * when the member text starts with it, and shrinks by one column for every
   * character (a return type, `static`) written before the name.
   */
  lemma RegionNarrowedByIndex(fm: Node, ancestors: seq<Node>)
    requires fm.FunctionMember?
    ensures var r := Create(fm, ancestors).region;
            r.endColumn - r.startColumn == |MethodName(fm)| - IndexOf(fm.ext.text, MethodName(fm))
    ensures var r := Create(fm, ancestors).region;
            OccursAt(fm.ext.text, MethodName(fm), 0)
            ==> r.startColumn == fm.ext.startColumn && r.endColumn == fm.ext.startColumn + |MethodName(fm)|
  {
    if OccursAt(fm.ext.text, MethodName(fm), 0) {
      IndexOfFirstOccurrence(fm.ext.text, MethodName(fm), 0);
    }
  }
}
