/** `PropertyCallReference`: a property access `$x.P` or `[T]::P`. */
module PropertyCallReference {
  import opened Wrappers
  import opened Ast
  import opened AstHelpers
  import opened Symbols

  /** `GetNameExtent`: the member sub-expression's own extent, field by field. */
  function NameExtent(me: Node): (e: Extent)
    requires IsMemberExpression(me)
    ensures e == me.member.ext
  {
    var m := me.member.ext;
    Extent(m.startLine, m.startColumn, m.endLine, m.endColumn, m.text)
  }

  /**
   * The owner: `GetMemberClassName`, except that `object` is replaced by the
   * first type inferred for the receiver (`null` when none is inferred).
   */
  function OwnerType(me: Node, ancestors: seq<Node>): Option<string>
    requires IsMemberExpression(me)
  {
    var className := MemberClassName(me, ancestors);
    if className == "object" then
      match FirstOrNone(InferredTypeNames(me.expression))
      case Some(t) => Some(t)
      case None => None
    else Some(className)
  }

  /**
   * The constructor of a `PropertyCallReference`. Since inference answers
   * `object`, the replacement is the identity and the owner is always
   * `GetMemberClassName`.
   */
  function Create(me: Node, ancestors: seq<Node>): (r: SymbolReference)
    requires IsMemberExpression(me)
    ensures r.kind == Property && r.name == GetMemberName(me)
    ensures r.region == me.member.ext
    ensures r.payload.PropertyCall?
    ensures r.payload.memberOfType == MemberClassName(me, ancestors)
    ensures r.payload.returnType == "" && r.payload.isStatic == me.isStatic
  {
    SymbolReference(Property, GetMemberName(me), NameExtent(me),
                    PropertyCall(OwnerType(me, ancestors).GetOr(""), "", me.isStatic))
  }
}
