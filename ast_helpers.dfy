/**
 * The owner-type and member-name helpers used by the matching rules and the
 * reference constructors. A node's `Parent` chain is passed as `ancestors`,
 * innermost first: `ancestors[0]` is the parent, the last element is the root.
 */
module AstHelpers {
  import opened Wrappers
  import opened Ast

  /**
   * The type names inferred for an expression. Type inference is currently
   * switched off and answers the single name `object` for every expression.
   */
  function InferredTypeNames(n: Node): seq<string> {
    ["object"]
  }

  /** `InferTypeOf`: the first inferred type name, or `""` when there is none. */
  function InferTypeOf(n: Node): (r: string)
    ensures r == "object"
  {
    FirstOrNone(InferredTypeNames(n)).GetOr("")
  }

  /** `ancestors[k]` is the innermost type definition among `ancestors`. */
  predicate InnermostTypeDefinition(ancestors: seq<Node>, k: int) {
    0 <= k < |ancestors| && ancestors[k].TypeDefinition?
    && forall j :: 0 <= j < k ==> !ancestors[j].TypeDefinition?
  }

  /** No ancestor is a type definition. */
  predicate OutsideTypeDefinitions(ancestors: seq<Node>) {
    forall j :: 0 <= j < |ancestors| ==> !ancestors[j].TypeDefinition?
  }

  /** The position of the innermost type definition among `ancestors`, if any. */
  function EnclosingTypeIndex(ancestors: seq<Node>): (r: Option<nat>)
    ensures r.Some? ==> InnermostTypeDefinition(ancestors, r.value)
    ensures r.None? ==> OutsideTypeDefinitions(ancestors)
  {
    if ancestors == [] then None
    else if ancestors[0].TypeDefinition? then Some(0)
    else match EnclosingTypeIndex(ancestors[1..])
      case None => None
      case Some(k) => Some(k + 1)
  }

  /** The name of the innermost enclosing type definition, or `""` outside any. */
  function EnclosingTypeName(ancestors: seq<Node>): string {
    match EnclosingTypeIndex(ancestors)
    case Some(k) => ancestors[k].name
    case None => ""
  }

  /**
   * `GetMemberClassName`: the owner type of a member. A member expression on a
   * type (`[T]::M`) belongs to that type; one on any receiver other than
   * `$this` belongs to the receiver's inferred type; everything else belongs to
   * the innermost enclosing type definition, or to no type (`""`).
   */
  function MemberClassName(ast: Node, ancestors: seq<Node>): (r: string)
    ensures IsMemberExpression(ast) && ast.expression.TypeExpression? ==> r == ast.expression.typeName
    ensures IsMemberExpression(ast) && !ast.expression.TypeExpression? && ast.expression.ext.text != "$this"
            ==> r == "object"
    ensures !IsMemberExpression(ast) || (!ast.expression.TypeExpression? && ast.expression.ext.text == "$this")
            ==> (forall k :: InnermostTypeDefinition(ancestors, k) ==> r == ancestors[k].name)
                && (OutsideTypeDefinitions(ancestors) ==> r == "")
  {
    if IsMemberExpression(ast) && ast.expression.TypeExpression? then ast.expression.typeName
    else if IsMemberExpression(ast) && ast.expression.ext.text != "$this" then InferTypeOf(ast.expression)
    else EnclosingTypeName(ancestors)
  }

  /** `GetMemberClassName` as the source computes it, walking up the parent chain. */
  method GetMemberClassName(ast: Node, ancestors: seq<Node>) returns (r: string)
    ensures r == MemberClassName(ast, ancestors)
  {
    if IsMemberExpression(ast) {
      if ast.expression.TypeExpression? {
        return ast.expression.typeName;
      }
      if ast.expression.ext.text != "$this" {
        return InferTypeOf(ast.expression);
      }
    }
    var i := 0;
    while i < |ancestors|
      invariant 0 <= i <= |ancestors|
      invariant forall j :: 0 <= j < i ==> !ancestors[j].TypeDefinition?
    {
      if ancestors[i].TypeDefinition? {
        return ancestors[i].name;
      }
      i := i + 1;
    }
    return "";
  }

  /** The value of a string-constant member, `null` for any other member. */
  function ConstantValue(member: Node): (r: Option<string>)
    ensures r.Some? <==> member.StringConstant?
    ensures r.Some? ==> r.value == member.value
  {
    if member.StringConstant? then Some(member.value) else None
  }

  /**
   * `GetMemberName`: the string-constant member of a member expression or
   * method call, the name of a property declaration, and `""` otherwise.
   */
  function GetMemberName(ast: Node): (r: string)
    ensures IsMemberExpression(ast) && ast.member.StringConstant? ==> r == ast.member.value
    ensures ast.PropertyMember? ==> r == ast.name
    ensures !(IsMemberExpression(ast) && ast.member.StringConstant?) && !ast.PropertyMember? ==> r == ""
  {
    match ast
    case InvokeMember(_, _, m, _, _) => ConstantValue(m).GetOr("")
    case MemberExpression(_, _, m, _) => ConstantValue(m).GetOr("")
    case PropertyMember(_, name, _, _, _) => name
    case _ => ""
  }
}
