/** `MethodCallReference`: a method or constructor call `$x.M(...)`, `[T]::new(...)`. */
module MethodCallReference {
  import opened Text
  import opened Ast
  import opened AstHelpers
  import opened Symbols

  /** `IsAstAConstructor`: a call of `new`, in any case, on a type. */
  predicate IsAstAConstructor(call: Node)
    requires call.InvokeMember?
  {
    call.expression.TypeExpression? && call.member.StringConstant? && EqualsIgnoreCase(call.member.value, "new")
  }

  /** `GetSymbolType`: a constructor call is a `Constructor`, every other call a `Method`. */
  function GetSymbolType(call: Node): (t: SymbolType)
    requires call.InvokeMember?
    ensures t == Constructor <==> IsAstAConstructor(call)
    ensures t == Method <==> !IsAstAConstructor(call)
  {
    if IsAstAConstructor(call) then Constructor else Method
  }

  /**
   * `GetSymbolName`: the type's name for a call of exactly `new` (case-sensitive)
   * on a type, the member's source text for every other call.
   */
  function GetSymbolName(call: Node): (r: string)
    requires call.InvokeMember?
    ensures call.expression.TypeExpression? && call.member.StringConstant? && call.member.value == "new"
            ==> r == call.expression.typeName
    ensures !(call.expression.TypeExpression? && call.member.StringConstant? && call.member.value == "new")
            ==> r == call.member.ext.text
  {
    if call.member.StringConstant? && call.expression.TypeExpression? && call.member.value == "new"
    then call.expression.typeName
    else call.member.ext.text
  }

  /**
   * `GetNameExtent`: on the call's lines, starting at the call's start column
   * plus the first index of the member name in the whole call text, spanning
   * the member name's length, with the member's source text.
   */
  function NameExtent(call: Node): (e: Extent)
    requires call.InvokeMember?
    ensures e.text == call.member.ext.text
    ensures e.startLine == call.ext.startLine && e.endLine == call.ext.endLine
    ensures var k := e.startColumn - call.ext.startColumn;
            (k == -1 && Absent(call.ext.text, GetMemberName(call)))
            || FirstOccurrence(call.ext.text, GetMemberName(call), k)
    ensures e.endColumn - e.startColumn == |GetMemberName(call)|
  {
    var name := GetMemberName(call);
    var start := call.ext.startColumn;
    var index := IndexOf(call.ext.text, name);
    Extent(call.ext.startLine, start + index, call.ext.endLine, start + index + |name|, call.member.ext.text)
  }

  /**
   * `StaticType.ToString()` of an argument expression, reduced to what is
   * known without type inference: a string constant is a `System.String`,
   * anything else a `System.Object`.
   */
  function StaticTypeName(argument: Node): string {
    if argument.StringConstant? then "System.String" else "System.Object"
  }

  /** `Arguments`: one static type name per call argument, none for a `null` list. */
  function ArgumentTypes(call: Node): (r: seq<string>)
    requires call.InvokeMember?
    ensures |r| == |Items(call.arguments)|
    ensures forall i :: 0 <= i < |r| ==> r[i] == StaticTypeName(Items(call.arguments)[i])
  {
    var arguments := Items(call.arguments);
    seq(|arguments|, i requires 0 <= i < |arguments| => StaticTypeName(arguments[i]))
  }

  /** The constructor of a `MethodCallReference` for a call whose parents are `ancestors`. */
  function Create(call: Node, ancestors: seq<Node>): (r: SymbolReference)
    requires call.InvokeMember?
    ensures r.kind == Constructor <==> IsAstAConstructor(call)
    ensures r.kind == Method || r.kind == Constructor
    ensures r.name == GetSymbolName(call) && r.region == NameExtent(call)
    ensures r.payload.MethodCall?
    ensures r.payload.memberOfType == MemberClassName(call, ancestors)
    ensures r.payload.arguments == ArgumentTypes(call)
    ensures r.payload.isStatic == call.isStatic
  {
    SymbolReference(GetSymbolType(call), GetSymbolName(call), NameExtent(call),
                    MethodCall(MemberClassName(call, ancestors), ArgumentTypes(call), call.isStatic))
  }

  /** `IsConstructor`: whether the reference's kind is `Constructor`. */
  predicate IsConstructor(r: SymbolReference) {
    r.kind == Constructor
  }

  /**
   * A constructor call `[T]::new(...)` yields a `Constructor` reference named
   * `T` whose owner is `T`.
   */
  lemma ConstructorCallNamesItsType(call: Node, ancestors: seq<Node>)
    requires call.InvokeMember? && call.expression.TypeExpression?
    requires call.member.StringConstant? && call.member.value == "new"
    ensures IsConstructor(Create(call, ancestors))
    ensures Create(call, ancestors).name == call.expression.typeName
    ensures Create(call, ancestors).payload.memberOfType == call.expression.typeName
  {
  }

  /**
   * `[T]::New(...)` (any casing other than `new`) is still a `Constructor`, but
   * its name is the member text `New`, not the type's name.
   */
  lemma OtherCasedConstructorKeepsMemberText(call: Node, ancestors: seq<Node>)
    requires call.InvokeMember? && call.expression.TypeExpression?
    requires call.member.StringConstant? && call.member.value == "New"
    ensures IsConstructor(Create(call, ancestors))
    ensures Create(call, ancestors).name == call.member.ext.text
  {
    assert Lower("New") == "new";
  }
}
