/**
 * `ReferenceHelperExtensions`: the `IsReferencing` rules that decide whether a
 * class, method or property reference denotes a given node. Owner types are
 * compared through `GetMemberClassName`, so every rule that looks at a node's
 * owner also takes the node's `ancestors`.
 */
module ReferenceHelperExtensions {
  import opened Wrappers
  import opened Text
  import opened Ast
  import opened AstHelpers
  import opened Symbols
  import ClassSymbolReference
  import ClassDefinitionSymbolReference
  import MethodCallReference
  import MethodSymbolReference
  import PropertyCallReference
  import PropertySymbolReference

  /** `PSEquals`: case-insensitive equality. */
  predicate PSEquals(a: string, b: string) {
    EqualsIgnoreCase(a, b)
  }

  /** `ArgumentCount`: the number of call arguments, 0 for a `null` list. */
  function ArgumentCount(call: Node): (n: nat)
    requires call.InvokeMember?
    ensures call.arguments.NullList? ==> n == 0
    ensures call.arguments.List? ==> n == |call.arguments.items|
  {
    |Items(call.arguments)|
  }

  /** `ParameterCount`: the number of declared parameters. */
  function ParameterCount(fm: Node): nat
    requires fm.FunctionMember?
  {
    |MethodParameters(fm)|
  }

  /** `IsMemberOfType`: the node's owner type equals `typeName` ignoring case. */
  predicate IsMemberOfType(n: Node, ancestors: seq<Node>, typeName: string) {
    PSEquals(MemberClassName(n, ancestors), typeName)
  }

  /** Both flavours of class reference against a type definition. */
  predicate ClassReferencesTypeDefinition(r: SymbolReference, td: Node)
    requires td.TypeDefinition?
  {
    PSEquals(r.name, td.name)
  }

  /** Both flavours of class reference against a type expression. */
  predicate ClassReferencesTypeExpression(r: SymbolReference, te: Node)
    requires te.TypeExpression?
  {
    PSEquals(r.name, te.typeName)
  }

  /** A method reference: a declaration (`MethodSymbolReference`) or a call (`MethodCallReference`). */
  predicate IsMethodReference(r: SymbolReference) {
    r.payload.MethodSymbol? || r.payload.MethodCall?
  }

  /** `ParameterTypes.Length` of a declaration, `Arguments.Length` of a call. */
  function Arity(r: SymbolReference): nat
    requires IsMethodReference(r)
  {
    if r.payload.MethodSymbol? then |r.payload.parameterTypes| else |r.payload.arguments|
  }

  /** `IsConstructor`: the stored flag of a declaration, the kind of a call. */
  predicate IsConstructorReference(r: SymbolReference)
    requires IsMethodReference(r)
  {
    if r.payload.MethodSymbol? then r.payload.isConstructor else r.kind == Constructor
  }

  /** The constructor shortcut: a constructor of the owner with the reference's arity. */
  predicate ConstructorShortcut(r: SymbolReference, fm: Node, ancestors: seq<Node>)
    requires IsMethodReference(r) && fm.FunctionMember?
  {
    fm.isConstructor && IsConstructorReference(r) && Arity(r) == ParameterCount(fm)
    && IsMemberOfType(fm, ancestors, r.payload.memberOfType)
  }

  /**
   * Either method reference against a method or constructor declaration: the
   * constructor shortcut, or equal static flags, names equal ignoring case,
   * equal arity and an `object` (wildcard) or equal owner.
   */
  predicate MethodReferencesFunctionMember(r: SymbolReference, fm: Node, ancestors: seq<Node>)
    requires IsMethodReference(r) && fm.FunctionMember?
  {
    ConstructorShortcut(r, fm, ancestors)
    || (r.payload.isStatic == fm.isStatic && EqualsIgnoreCase(r.name, MethodName(fm))
        && Arity(r) == ParameterCount(fm)
        && (r.payload.memberOfType == "object" || IsMemberOfType(fm, ancestors, r.payload.memberOfType)))
  }

  /**
   * A method declaration against a call: the owner test passes for `object`
   * or when the call's direct parent is a type definition of that name.
   */
  predicate MethodSymbolReferencesCall(r: SymbolReference, call: Node, ancestors: seq<Node>)
    requires r.payload.MethodSymbol? && call.InvokeMember?
  {
    r.payload.isStatic == call.isStatic
    && EqualsIgnoreCase(r.name, GetMemberName(call))
    && |r.payload.parameterTypes| == ArgumentCount(call)
    && (r.payload.memberOfType == "object"
        || (ancestors != [] && ancestors[0].TypeDefinition?
            && EqualsIgnoreCase(r.payload.memberOfType, ancestors[0].name)))
  }

  /** A method call against a call: static flags, names, arity and owner. */
  predicate MethodCallReferencesCall(r: SymbolReference, call: Node, ancestors: seq<Node>)
    requires r.payload.MethodCall? && call.InvokeMember?
  {
    r.payload.isStatic == call.isStatic
    && EqualsIgnoreCase(r.name, GetMemberName(call))
    && |r.payload.arguments| == ArgumentCount(call)
    && (r.payload.memberOfType == "object" || IsMemberOfType(call, ancestors, r.payload.memberOfType))
  }

  /** A property reference, of either class. */
  predicate IsPropertyReference(r: SymbolReference) {
    r.payload.PropertyCall? || r.payload.PropertySymbol?
  }

  /** Either property reference against a property declaration. */
  predicate PropertyReferencesPropertyMember(r: SymbolReference, pm: Node, ancestors: seq<Node>)
    requires IsPropertyReference(r) && pm.PropertyMember?
  {
    r.payload.isStatic == pm.isStatic
    && EqualsIgnoreCase(r.name, pm.name)
    && (r.payload.memberOfType == "object" || IsMemberOfType(pm, ancestors, r.payload.memberOfType))
  }

  /** A property access against a member expression. */
  predicate PropertyCallReferencesMemberExpression(r: SymbolReference, me: Node, ancestors: seq<Node>)
    requires r.payload.PropertyCall? && IsMemberExpression(me)
  {
    r.payload.isStatic == me.isStatic
    && EqualsIgnoreCase(r.name, GetMemberName(me))
    && (r.payload.memberOfType == "object" || IsMemberOfType(me, ancestors, r.payload.memberOfType))
  }

  /**
   * A property declaration against a member expression: no static test, and
   * the name is compared with the member's constant value, which is `null`
   * (equal to no name) for a member that is not a string constant.
   */
  predicate PropertySymbolReferencesMemberExpression(r: SymbolReference, me: Node, ancestors: seq<Node>)
    requires r.payload.PropertySymbol? && IsMemberExpression(me)
  {
    var propertyName := ConstantValue(me.member);
    propertyName.Some? && EqualsIgnoreCase(r.name, propertyName.value)
    && (r.payload.memberOfType == "object" || IsMemberOfType(me, ancestors, r.payload.memberOfType))
  }

  /**
   * Arity discrimination: no method reference matches a declaration or a call
   * whose parameter or argument count differs from its own, not even through
   * the constructor shortcut.
   */
  lemma ArityDiscrimination(r: SymbolReference, fm: Node, fmAncestors: seq<Node>, call: Node, callAncestors: seq<Node>)
    requires IsMethodReference(r) && fm.FunctionMember? && call.InvokeMember?
    ensures Arity(r) != ParameterCount(fm) ==> !MethodReferencesFunctionMember(r, fm, fmAncestors)
    ensures r.payload.MethodSymbol? && Arity(r) != ArgumentCount(call) ==> !MethodSymbolReferencesCall(r, call, callAncestors)
    ensures r.payload.MethodCall? && Arity(r) != ArgumentCount(call) ==> !MethodCallReferencesCall(r, call, callAncestors)
  {
  }

  /**
   * Outside the constructor shortcut a method reference matches a declaration
   * only with equal static flags, equal names, equal arity and a wildcard or
   * equal owner; through the shortcut neither name nor static flag matters.
   */
  lemma MethodMatchConditions(r: SymbolReference, fm: Node, ancestors: seq<Node>)
    requires IsMethodReference(r) && fm.FunctionMember?
    ensures MethodReferencesFunctionMember(r, fm, ancestors) && !ConstructorShortcut(r, fm, ancestors)
            ==> r.payload.isStatic == fm.isStatic && EqualsIgnoreCase(r.name, MethodName(fm))
                && Arity(r) == ParameterCount(fm)
                && (r.payload.memberOfType == "object" || IsMemberOfType(fm, ancestors, r.payload.memberOfType))
    ensures ConstructorShortcut(r, fm, ancestors) ==> MethodReferencesFunctionMember(r, fm, ancestors)
  {
  }

  /**
   * The two class reference flavours agree: a class declaration references a
   * type expression exactly when that expression's reference references the
   * declaration.
   */
  lemma ClassReferencesAgree(td: Node, te: Node)
    requires td.TypeDefinition? && te.TypeExpression?
    ensures ClassReferencesTypeExpression(ClassDefinitionSymbolReference.Create(td), te)
            <==> ClassReferencesTypeDefinition(ClassSymbolReference.Create(te), td)
    ensures ClassReferencesTypeDefinition(ClassDefinitionSymbolReference.Create(td), td)
    ensures ClassReferencesTypeExpression(ClassSymbolReference.Create(te), te)
  {
    EqualsIgnoreCaseIsEquivalence(td.name, te.typeName, td.name);
  }

  /** A method declaration's own reference references the declaration. */
  lemma MethodSymbolReferencesItsDeclaration(fm: Node, ancestors: seq<Node>)
    requires fm.FunctionMember?
    ensures MethodReferencesFunctionMember(MethodSymbolReference.Create(fm, ancestors), fm, ancestors)
  {
  }

  /** A property declaration's own reference references the declaration. */
  lemma PropertySymbolReferencesItsDeclaration(pm: Node, ancestors: seq<Node>)
    requires pm.PropertyMember?
    ensures PropertyReferencesPropertyMember(PropertySymbolReference.Create(pm, ancestors), pm, ancestors)
  {
  }

  /** A property access's own reference references the access. */
  lemma PropertyCallReferencesItsExpression(me: Node, ancestors: seq<Node>)
    requires IsMemberExpression(me)
    ensures PropertyCallReferencesMemberExpression(PropertyCallReference.Create(me, ancestors), me, ancestors)
  {
  }

  /**
   * A call's own reference references the call when its member text spells
   * the member name (`$x.M()`, not `$x.'M'()`) and it is not a call of `new`.
   */
  lemma MethodCallReferencesItsCall(call: Node, ancestors: seq<Node>)
    requires call.InvokeMember? && call.member.StringConstant?
    requires call.member.ext.text == call.member.value
    requires !(call.expression.TypeExpression? && call.member.value == "new")
    ensures MethodCallReferencesCall(MethodCallReference.Create(call, ancestors), call, ancestors)
  {
  }

  /**
   * A constructor call `[T]::new(...)` is named `T` while its member name is
   * `new`, so it does not reference itself unless `T` is spelt `new`.
   */
  lemma ConstructorCallMissesItself(call: Node, ancestors: seq<Node>)
    requires call.InvokeMember? && call.expression.TypeExpression?
    requires call.member.StringConstant? && call.member.value == "new"
    requires !EqualsIgnoreCase(call.expression.typeName, "new")
    ensures !MethodCallReferencesCall(MethodCallReference.Create(call, ancestors), call, ancestors)
  {
  }

  /**
   * A constructor call `[T]::new(...)` references every constructor of a
   * class named `T` (ignoring case) with as many parameters as it has
   * arguments, through the constructor shortcut.
   */
  lemma ConstructorCallFindsConstructor(call: Node, callAncestors: seq<Node>, fm: Node, fmAncestors: seq<Node>)
    requires call.InvokeMember? && call.expression.TypeExpression?
    requires call.member.StringConstant? && call.member.value == "new"
    requires fm.FunctionMember? && fm.isConstructor
    requires ParameterCount(fm) == ArgumentCount(call)
    requires EqualsIgnoreCase(EnclosingTypeName(fmAncestors), call.expression.typeName)
    ensures MethodReferencesFunctionMember(MethodCallReference.Create(call, callAncestors), fm, fmAncestors)
  {
    var r := MethodCallReference.Create(call, callAncestors);
    assert Lower("new") == "new";
    assert MethodCallReference.IsAstAConstructor(call);
    assert IsConstructorReference(r);
    assert r.payload.memberOfType == call.expression.typeName;
    assert MemberClassName(fm, fmAncestors) == EnclosingTypeName(fmAncestors);
    assert IsMemberOfType(fm, fmAncestors, r.payload.memberOfType);
    assert Arity(r) == ParameterCount(fm);
    assert ConstructorShortcut(r, fm, fmAncestors);
  }

  /**
   * A method declaration in a class not named `object` matches a call only if
   * the call's direct parent is a type definition; a call in a method body
   * has a statement as its parent, so such a declaration matches no call.
   */
  lemma MethodSymbolMatchesCallOnlyUnderTypeDefinition(fm: Node, fmAncestors: seq<Node>, call: Node, callAncestors: seq<Node>)
    requires fm.FunctionMember? && call.InvokeMember?
    requires EnclosingTypeName(fmAncestors) != "object"
    requires callAncestors == [] || !callAncestors[0].TypeDefinition?
    ensures !MethodSymbolReferencesCall(MethodSymbolReference.Create(fm, fmAncestors), call, callAncestors)
  {
  }

  /**
   * A property declaration matches no member expression whose member is not a
   * string constant (`$x.$name`), whatever the names.
   */
  lemma PropertySymbolNeedsConstantMember(r: SymbolReference, me: Node, ancestors: seq<Node>)
    requires r.payload.PropertySymbol? && IsMemberExpression(me) && !me.member.StringConstant?
    ensures !PropertySymbolReferencesMemberExpression(r, me, ancestors)
  {
  }
}
