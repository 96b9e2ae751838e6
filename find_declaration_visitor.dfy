/**
 * `FindDeclarationVisitor`: finds the declaration of a symbol (a function
 * definition, the first assignment of a variable, a class, a property or a
 * method declaration) and stops at the first one.
 */
module FindDeclarationVisitor {
  import opened Wrappers
  import opened Text
  import opened Ast
  import opened Symbols
  import opened Visiting
  import opened ReferenceHelperExtensions
  import ClassDefinitionSymbolReference
  import MethodSymbolReference
  import PropertySymbolReference

  /** The symbol searched for, and (for a variable only) its bare name. */
  datatype Config = Config(symbolRef: SymbolReference, variableName: Option<string>)

  /**
   * The bare name of a variable symbol: its name without the `$` it starts
   * with and the braces around it (`$x` and `${x}` both give `x`); `null`
   * for every other kind of symbol.
   */
  function VariableName(symbolRef: SymbolReference): (r: Option<string>)
    ensures r.Some? <==> symbolRef.kind == SymbolType.Variable
    ensures r.Some? ==> r.value == TrimBraces(TrimStartChar(symbolRef.name, '$'))
  {
    if symbolRef.kind == SymbolType.Variable then Some(TrimBraces(TrimStartChar(symbolRef.name, '$'))) else None
  }

  /** The settings a visitor for `symbolRef` holds. */
  function ConfigFor(symbolRef: SymbolReference): (cfg: Config)
    ensures cfg.symbolRef == symbolRef && cfg.variableName == VariableName(symbolRef)
  {
    Config(symbolRef, VariableName(symbolRef))
  }

  /**
   * The extent `VisitFunctionDefinition` gives a function's name: on the
   * definition's first line, from one past the name's first index
   * (case-sensitive) in the definition text, as wide as the name.
   */
  function FunctionNameExtent(fd: Node): (e: Extent)
    requires fd.FunctionDefinition?
    ensures e.text == fd.name && e.startLine == fd.ext.startLine && e.endLine == fd.ext.startLine
    ensures e.startColumn == IndexOf(fd.ext.text, fd.name) + 1
    ensures e.endColumn == e.startColumn + |fd.name|
  {
    var startColumnNumber := IndexOf(fd.ext.text, fd.name) + 1;
    Extent(fd.ext.startLine, startColumnNumber, fd.ext.startLine, startColumnNumber + |fd.name|, fd.name)
  }

  /** What visiting `n`, whose parents are `ancestors`, appends and returns. */
  function Step(cfg: Config, n: Node, ancestors: seq<Node>): Effect {
    var symbolRef := cfg.symbolRef;
    match n
    case FunctionDefinition(_, _, _, _, _) =>
      var nameExtent := FunctionNameExtent(n);
      if symbolRef.kind == Function && EqualsIgnoreCase(nameExtent.text, symbolRef.region.text)
      then Stop(FromExtent(Function, nameExtent))
      else Pass()
    case Assignment(_, left, _) =>
      if !left.Variable? || cfg.variableName.None? || !EqualsIgnoreCase(left.userPath, cfg.variableName.value)
      then Pass()
      else Stop(FromExtent(SymbolType.Variable, left.ext))
    case TypeDefinition(_, _, _) =>
      if symbolRef.kind == Class && symbolRef.payload.ClassRef? && ClassReferencesTypeDefinition(symbolRef, n)
      then Stop(ClassDefinitionSymbolReference.Create(n))
      else Pass()
    case PropertyMember(_, _, _, _, _) =>
      if symbolRef.kind == Property && IsPropertyReference(symbolRef)
         && PropertyReferencesPropertyMember(symbolRef, n, ancestors)
      then Stop(PropertySymbolReference.Create(n, ancestors))
      else Pass()
    case FunctionMember(_, _, _, _, _) =>
      if symbolRef.kind == Method && IsMethodReference(symbolRef)
         && MethodReferencesFunctionMember(symbolRef, n, ancestors)
      then Stop(MethodSymbolReference.Create(n, ancestors))
      else Pass()
    case _ => Pass()
  }

  /**
   * A visit appends nothing and goes on, or appends one declaration and
   * stops; the declaration is of the symbol's own kind, except that a method
   * symbol can find a constructor.
   */
  lemma StepFindsOneOfSameKind(cfg: Config, n: Node, ancestors: seq<Node>)
    requires cfg == ConfigFor(cfg.symbolRef)
    ensures var s := Step(cfg, n, ancestors); s.found == [] <==> s.action == Continue
    ensures |Step(cfg, n, ancestors).found| <= 1
    ensures forall r <- Step(cfg, n, ancestors).found ::
              r.kind == cfg.symbolRef.kind || (cfg.symbolRef.kind == Method && r.kind == Constructor)
  {
  }

  /**
   * Only functions, variables, classes, properties and methods have
   * declarations; the search for anything else finds nothing.
   */
  lemma OtherKindsFindNothing(cfg: Config, n: Node, ancestors: seq<Node>)
    requires cfg == ConfigFor(cfg.symbolRef)
    requires cfg.symbolRef.kind !in {Function, SymbolType.Variable, Class, Property, Method}
    ensures Step(cfg, n, ancestors).found == []
  {
  }

  /** A function definition is found by the text of the symbol's region, ignoring case. */
  lemma FunctionFoundByRegionText(cfg: Config, fd: Node, ancestors: seq<Node>)
    requires fd.FunctionDefinition? && cfg.symbolRef.kind == Function
    ensures Step(cfg, fd, ancestors).found != [] <==> EqualsIgnoreCase(fd.name, cfg.symbolRef.region.text)
    ensures forall r <- Step(cfg, fd, ancestors).found :: r.name == fd.name && r.region == FunctionNameExtent(fd)
  {
  }

  /** `$name` has the bare name `name` when `name` starts with no `$` and no brace and ends with no brace. */
  lemma DollarNameIsBare(symbolRef: SymbolReference, name: string)
    requires symbolRef.kind == SymbolType.Variable && symbolRef.name == "$" + name
    requires name == [] || (name[0] != '$' && !IsBrace(name[0]) && !IsBrace(name[|name| - 1]))
    ensures VariableName(symbolRef) == Some(name)
  {
    assert TrimStartChar(symbolRef.name, '$') == name by {
      assert symbolRef.name[1..] == name;
      assert TrimStartChar(name, '$') == name;
    }
    TrimBracesOfUnbraced(name);
  }

  /** `${name}` has the bare name `name` when `name` starts and ends with no brace. */
  lemma BracedNameIsBare(symbolRef: SymbolReference, name: string)
    requires symbolRef.kind == SymbolType.Variable && symbolRef.name == "${" + name + "}"
    requires name == [] || (!IsBrace(name[0]) && !IsBrace(name[|name| - 1]))
    ensures VariableName(symbolRef) == Some(name)
  {
    assert TrimStartChar(symbolRef.name, '$') == "{" + name + "}" by {
      assert symbolRef.name[1..] == "{" + name + "}";
    }
    TrimBracesOfBraced(name);
  }

  /** The first assignment to a variable is found by its bare name, ignoring case. */
  lemma AssignmentFoundByBareName(cfg: Config, a: Node, ancestors: seq<Node>)
    requires cfg == ConfigFor(cfg.symbolRef)
    requires a.Assignment? && a.left.Variable?
    ensures Step(cfg, a, ancestors).found != []
            <==> cfg.symbolRef.kind == SymbolType.Variable && EqualsIgnoreCase(a.left.userPath, cfg.variableName.value)
    ensures Step(cfg, a, ancestors).found != [] ==> Step(cfg, a, ancestors).found == [FromExtent(SymbolType.Variable, a.left.ext)]
  {
    assert cfg.variableName.Some? <==> cfg.symbolRef.kind == SymbolType.Variable;
    StepOnAssignment(cfg, a, ancestors);
  }

  /** Visiting an assignment to a variable compares its `UserPath` with the bare name. */
  lemma StepOnAssignment(cfg: Config, a: Node, ancestors: seq<Node>)
    requires a.Assignment? && a.left.Variable?
    ensures Step(cfg, a, ancestors).found != []
            <==> cfg.variableName.Some? && EqualsIgnoreCase(a.left.userPath, cfg.variableName.value)
    ensures Step(cfg, a, ancestors).found != [] ==> Step(cfg, a, ancestors).found == [FromExtent(SymbolType.Variable, a.left.ext)]
  {
  }

  /**
   * A class method's hidden definition answers a search for a function of the
   * method's name as any function definition does, since its parent is not
   * looked at; the method itself does not.
   */
  lemma MethodDefinitionAnswersFunction(cfg: Config, fm: Node, ancestors: seq<Node>)
    requires fm.FunctionMember? && fm.definition.FunctionDefinition?
    requires cfg.symbolRef.kind == Function && EqualsIgnoreCase(MethodName(fm), cfg.symbolRef.region.text)
    ensures Step(cfg, fm, ancestors) == Pass()
    ensures Step(cfg, fm.definition, [fm] + ancestors) == Stop(FromExtent(Function, FunctionNameExtent(fm.definition)))
  {
  }

  class FindDeclarationVisitor {
    const symbolRef: SymbolReference
    const result: ResultList
    const variableName: Option<string>

    constructor (symbolRef: SymbolReference, result: ResultList)
      ensures this.symbolRef == symbolRef && this.result == result
      ensures variableName == VariableName(symbolRef)
    {
      this.symbolRef := symbolRef;
      this.result := result;
      if symbolRef.kind == SymbolType.Variable {
        this.variableName := Some(TrimBraces(TrimStartChar(symbolRef.name, '$')));
      } else {
        this.variableName := None;
      }
    }

    function AsConfig(): Config {
      Config(symbolRef, variableName)
    }

    method AddResult(res: SymbolReference)
      modifies result
      ensures result.items == old(result.items) + [res]
    {
      result.Add(res);
    }

    method VisitFunctionDefinition(functionDefinitionAst: Node, ancestors: seq<Node>) returns (action: Action)
      requires functionDefinitionAst.FunctionDefinition?
      modifies result
      ensures result.items == old(result.items) + Step(AsConfig(), functionDefinitionAst, ancestors).found
      ensures action == Step(AsConfig(), functionDefinitionAst, ancestors).action
    {
      var startColumnNumber := IndexOf(functionDefinitionAst.ext.text, functionDefinitionAst.name) + 1;
      var nameExtent := Extent(functionDefinitionAst.ext.startLine, startColumnNumber,
                               functionDefinitionAst.ext.startLine,
                               startColumnNumber + |functionDefinitionAst.name|, functionDefinitionAst.name);
      assert nameExtent == FunctionNameExtent(functionDefinitionAst);
      if symbolRef.kind == Function && EqualsIgnoreCase(nameExtent.text, symbolRef.region.text) {
        AddResult(FromExtent(Function, nameExtent));
        return StopVisit;
      }
      return Continue;
    }

    method VisitAssignmentStatement(assignmentStatementAst: Node, ancestors: seq<Node>) returns (action: Action)
      requires assignmentStatementAst.Assignment?
      modifies result
      ensures result.items == old(result.items) + Step(AsConfig(), assignmentStatementAst, ancestors).found
      ensures action == Step(AsConfig(), assignmentStatementAst, ancestors).action
    {
      var variableExprAst := assignmentStatementAst.left;
      if !variableExprAst.Variable? || variableName.None?
         || !EqualsIgnoreCase(variableExprAst.userPath, variableName.value)
      {
        return Continue;
      }
      AddResult(FromExtent(SymbolType.Variable, variableExprAst.ext));
      return StopVisit;
    }

    method VisitTypeDefinition(typeDefinitionAst: Node, ancestors: seq<Node>) returns (action: Action)
      requires typeDefinitionAst.TypeDefinition?
      modifies result
      ensures result.items == old(result.items) + Step(AsConfig(), typeDefinitionAst, ancestors).found
      ensures action == Step(AsConfig(), typeDefinitionAst, ancestors).action
    {
      if symbolRef.kind != Class {
        return Continue;
      }
      if symbolRef.payload.ClassRef? {
        if ClassReferencesTypeDefinition(symbolRef, typeDefinitionAst) {
          AddResult(ClassDefinitionSymbolReference.Create(typeDefinitionAst));
          return StopVisit;
        }
      }
      return Continue;
    }

    method VisitPropertyMember(propertyMemberAst: Node, ancestors: seq<Node>) returns (action: Action)
      requires propertyMemberAst.PropertyMember?
      modifies result
      ensures result.items == old(result.items) + Step(AsConfig(), propertyMemberAst, ancestors).found
      ensures action == Step(AsConfig(), propertyMemberAst, ancestors).action
    {
      ghost var step := Step(AsConfig(), propertyMemberAst, ancestors);
      ghost var found := PropertySymbolReference.Create(propertyMemberAst, ancestors);
      assert step == (if symbolRef.kind == Property && IsPropertyReference(symbolRef) && PropertyReferencesPropertyMember(symbolRef, propertyMemberAst, ancestors)
                      then Stop(found) else Pass());
      if symbolRef.kind != Property {
        return Continue;
      }
      match symbolRef.payload {
      case PropertyCall(_, _, _) =>
        if PropertyReferencesPropertyMember(symbolRef, propertyMemberAst, ancestors) {
          AddResult(PropertySymbolReference.Create(propertyMemberAst, ancestors));
          return StopVisit;
        }
      case PropertySymbol(_, _, _) =>
        if PropertyReferencesPropertyMember(symbolRef, propertyMemberAst, ancestors) {
          AddResult(PropertySymbolReference.Create(propertyMemberAst, ancestors));
          return StopVisit;
        }
      case _ =>
      }
      return Continue;
    }

    method VisitFunctionMember(functionMemberAst: Node, ancestors: seq<Node>) returns (action: Action)
      requires functionMemberAst.FunctionMember?
      modifies result
      ensures result.items == old(result.items) + Step(AsConfig(), functionMemberAst, ancestors).found
      ensures action == Step(AsConfig(), functionMemberAst, ancestors).action
    {
      ghost var step := Step(AsConfig(), functionMemberAst, ancestors);
      ghost var found := MethodSymbolReference.Create(functionMemberAst, ancestors);
      assert step == (if symbolRef.kind == Method && IsMethodReference(symbolRef) && MethodReferencesFunctionMember(symbolRef, functionMemberAst, ancestors)
                      then Stop(found) else Pass());
      if symbolRef.kind != Method {
        return Continue;
      }
      match symbolRef.payload {
      case MethodCall(_, _, _) =>
        if MethodReferencesFunctionMember(symbolRef, functionMemberAst, ancestors) {
          AddResult(MethodSymbolReference.Create(functionMemberAst, ancestors));
          return StopVisit;
        }
      case MethodSymbol(_, _, _, _, _, _, _) =>
        if MethodReferencesFunctionMember(symbolRef, functionMemberAst, ancestors) {
          AddResult(MethodSymbolReference.Create(functionMemberAst, ancestors));
          return StopVisit;
        }
      case _ =>
      }
      return Continue;
    }

    /** The visitor's entry point for one node: the override for its kind, `Continue` for the rest. */
    method Visit(n: Node, ancestors: seq<Node>) returns (action: Action)
      modifies result
      ensures result.items == old(result.items) + Step(AsConfig(), n, ancestors).found
      ensures action == Step(AsConfig(), n, ancestors).action
    {
      match n
      case FunctionDefinition(_, _, _, _, _) => action := VisitFunctionDefinition(n, ancestors);
      case Assignment(_, _, _) => action := VisitAssignmentStatement(n, ancestors);
      case TypeDefinition(_, _, _) => action := VisitTypeDefinition(n, ancestors);
      case PropertyMember(_, _, _, _, _) => action := VisitPropertyMember(n, ancestors);
      case FunctionMember(_, _, _, _, _) => action := VisitFunctionMember(n, ancestors);
      case _ => action := Continue;
    }
  }
}
