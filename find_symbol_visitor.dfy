/**
 * `FindSymbolVisitor`: finds the symbol under a cursor position. Most node
 * kinds stop the walk on a hit; member accesses and method calls record a hit
 * and go on, so an inner hit can be appended after them. `FindSymbolAtPosition`
 * returns only the first entry of the list, so such an inner hit is never
 * returned (`AstOperations.SymbolAtPositionIsFirstHit`).
 */
module FindSymbolVisitor {
  import opened Text
  import opened Ast
  import opened Symbols
  import opened Visiting
  import ClassSymbolReference
  import ClassDefinitionSymbolReference
  import MethodCallReference
  import MethodSymbolReference
  import PropertyCallReference
  import PropertySymbolReference

  /** The cursor, and whether a function definition's whole first line counts as its name. */
  datatype Config = Config(lineNumber: int, columnNumber: int, includeFunctionDefinitions: bool)

  /**
   * `IsPositionInExtent`: the extent starts on the cursor's line, at or before
   * its column, and ends on a later line or at or after its column.
   */
  predicate IsPositionInExtent(cfg: Config, e: Extent) {
    e.startLine == cfg.lineNumber && e.startColumn <= cfg.columnNumber
    && (e.endLine > cfg.lineNumber || e.endColumn >= cfg.columnNumber)
  }

  /**
   * The extent `VisitFunctionDefinition` gives a function's name: on the
   * definition's first line, starting at column 1 when definitions are included
   * and otherwise one past the name's first index (ignoring case) in the
   * definition text, and as wide as the name.
   */
  function FunctionNameExtent(cfg: Config, fd: Node): (e: Extent)
    requires fd.FunctionDefinition?
    ensures e.text == fd.name && e.startLine == fd.ext.startLine && e.endLine == fd.ext.startLine
    ensures cfg.includeFunctionDefinitions ==> e.startColumn == 1
    ensures !cfg.includeFunctionDefinitions ==> e.startColumn == IndexOfIgnoreCase(fd.ext.text, fd.name) + 1
    ensures e.endColumn == e.startColumn + |fd.name|
  {
    var startColumnNumber := if cfg.includeFunctionDefinitions then 1 else IndexOfIgnoreCase(fd.ext.text, fd.name) + 1;
    Extent(fd.ext.startLine, startColumnNumber, fd.ext.startLine, startColumnNumber + |fd.name|, fd.name)
  }

  /** What visiting `n`, whose parents are `ancestors`, appends and returns. */
  function Step(cfg: Config, n: Node, ancestors: seq<Node>): Effect {
    match n
    case Command(_, _, commandName, _) =>
      if IsPositionInExtent(cfg, commandName.ext) then Stop(FromExtent(Function, commandName.ext)) else Pass()
    case FunctionDefinition(_, _, _, _, _) =>
      var nameExtent := FunctionNameExtent(cfg, n);
      if IsPositionInExtent(cfg, nameExtent) then Stop(FromExtent(Function, nameExtent)) else Pass()
    case CommandParameter(ext, _) =>
      if IsPositionInExtent(cfg, ext) then Stop(FromExtent(SymbolType.Parameter, ext)) else Pass()
    case Variable(ext, _) =>
      if IsPositionInExtent(cfg, ext) then Stop(FromExtent(SymbolType.Variable, ext)) else Pass()
    case TypeDefinition(ext, _, _) =>
      if IsPositionInExtent(cfg, ext) then Stop(ClassDefinitionSymbolReference.Create(n)) else Pass()
    case TypeExpression(ext, _) =>
      if IsPositionInExtent(cfg, ext) then Stop(ClassSymbolReference.Create(n)) else Pass()
    case PropertyMember(ext, _, _, _, _) =>
      if IsPositionInExtent(cfg, ext) then Stop(PropertySymbolReference.Create(n, ancestors)) else Pass()
    case FunctionMember(ext, _, _, _, _) =>
      if IsPositionInExtent(cfg, ext) && !IsPositionInExtent(cfg, MethodBody(n).ext)
      then Stop(MethodSymbolReference.Create(n, ancestors))
      else Pass()
    case MemberExpression(_, _, member, _) =>
      if IsPositionInExtent(cfg, member.ext) then Collect(PropertyCallReference.Create(n, ancestors)) else Pass()
    case InvokeMember(ext, expression, member, _, _) =>
      if !IsPositionInExtent(cfg, ext) then Pass()
      else if IsPositionInExtent(cfg, member.ext) then Collect(MethodCallReference.Create(n, ancestors))
      else if IsPositionInExtent(cfg, expression.ext) && expression.TypeExpression?
      then Collect(ClassSymbolReference.Create(expression))
      else Pass()
    case _ => Pass()
  }

  /**
   * One visit appends at most one reference, stops only after appending one,
   * and whatever it appends starts on the cursor's line.
   */
  lemma StepOnCursorLine(cfg: Config, n: Node, ancestors: seq<Node>)
    ensures var s := Step(cfg, n, ancestors); |s.found| <= 1
    ensures var s := Step(cfg, n, ancestors); s.action == StopVisit ==> |s.found| == 1
    ensures forall r <- Step(cfg, n, ancestors).found :: r.region.startLine == cfg.lineNumber
  {
  }

  /**
   * A plain reference (command, parameter, variable or function name) and a
   * property access cover the cursor: the cursor lies inside their region.
   */
  lemma StepRegionCoversCursor(cfg: Config, n: Node, ancestors: seq<Node>)
    ensures forall r <- Step(cfg, n, ancestors).found ::
              r.payload.Plain? || r.payload.PropertyCall? ==> IsPositionInExtent(cfg, r.region)
  {
  }

  /**
   * Only member accesses and method calls go on after a hit; every other hit
   * stops the walk.
   */
  lemma OnlyMembersGoOnAfterHit(cfg: Config, n: Node, ancestors: seq<Node>)
    requires Step(cfg, n, ancestors).found != []
    ensures Step(cfg, n, ancestors).action == Continue <==> IsMemberExpression(n)
  {
  }

  /**
   * A class definition is hit by its whole extent, but the reference it gives
   * covers only the name: with the cursor on the definition's first column
   * (on `class` in `class C { }`) the definition is hit, while the returned
   * region starts at the name and so does not contain the cursor.
   */
  lemma TypeDefinitionHitOutsideName(cfg: Config, td: Node, ancestors: seq<Node>)
    requires td.TypeDefinition? && td.ext.startLine == td.ext.endLine && td.ext.startColumn <= td.ext.endColumn
    requires cfg.lineNumber == td.ext.startLine && cfg.columnNumber == td.ext.startColumn
    requires IndexOf(td.ext.text, td.name) > 0
    ensures Step(cfg, td, ancestors) == Stop(ClassDefinitionSymbolReference.Create(td))
    ensures !IsPositionInExtent(cfg, Step(cfg, td, ancestors).found[0].region)
  {
  }

  class FindSymbolVisitor {
    const lineNumber: int
    const columnNumber: int
    const includeFunctionDefinitions: bool
    const result: ResultList

    constructor (lineNumber: int, columnNumber: int, includeFunctionDefinitions: bool, result: ResultList)
      ensures this.lineNumber == lineNumber && this.columnNumber == columnNumber
      ensures this.includeFunctionDefinitions == includeFunctionDefinitions && this.result == result
    {
      this.lineNumber := lineNumber;
      this.columnNumber := columnNumber;
      this.includeFunctionDefinitions := includeFunctionDefinitions;
      this.result := result;
    }

    /** The visitor's settings as a value. */
    function AsConfig(): Config {
      Config(lineNumber, columnNumber, includeFunctionDefinitions)
    }

    method AddResult(symRef: SymbolReference)
      modifies result
      ensures result.items == old(result.items) + [symRef]
    {
      result.Add(symRef);
    }

    method VisitCommand(commandAst: Node, ancestors: seq<Node>) returns (action: Action)
      requires commandAst.Command?
      modifies result
      ensures result.items == old(result.items) + Step(AsConfig(), commandAst, ancestors).found
      ensures action == Step(AsConfig(), commandAst, ancestors).action
    {
      var commandNameAst := commandAst.commandName;
      if IsPositionInExtent(AsConfig(), commandNameAst.ext) {
        AddResult(FromExtent(Function, commandNameAst.ext));
        return StopVisit;
      }
      return Continue;
    }

    method VisitFunctionDefinition(functionDefinitionAst: Node, ancestors: seq<Node>) returns (action: Action)
      requires functionDefinitionAst.FunctionDefinition?
      modifies result
      ensures result.items == old(result.items) + Step(AsConfig(), functionDefinitionAst, ancestors).found
      ensures action == Step(AsConfig(), functionDefinitionAst, ancestors).action
    {
      var startColumnNumber := 1;
      if !includeFunctionDefinitions {
        startColumnNumber := IndexOfIgnoreCase(functionDefinitionAst.ext.text, functionDefinitionAst.name) + 1;
      }
      var nameExtent := Extent(functionDefinitionAst.ext.startLine, startColumnNumber,
                               functionDefinitionAst.ext.startLine,
                               startColumnNumber + |functionDefinitionAst.name|, functionDefinitionAst.name);
      assert nameExtent == FunctionNameExtent(AsConfig(), functionDefinitionAst);
      if IsPositionInExtent(AsConfig(), nameExtent) {
        AddResult(FromExtent(Function, nameExtent));
        return StopVisit;
      }
      return Continue;
    }

    method VisitCommandParameter(commandParameterAst: Node, ancestors: seq<Node>) returns (action: Action)
      requires commandParameterAst.CommandParameter?
      modifies result
      ensures result.items == old(result.items) + Step(AsConfig(), commandParameterAst, ancestors).found
      ensures action == Step(AsConfig(), commandParameterAst, ancestors).action
    {
      if IsPositionInExtent(AsConfig(), commandParameterAst.ext) {
        AddResult(FromExtent(SymbolType.Parameter, commandParameterAst.ext));
        return StopVisit;
      }
      return Continue;
    }

    method VisitVariableExpression(variableExpressionAst: Node, ancestors: seq<Node>) returns (action: Action)
      requires variableExpressionAst.Variable?
      modifies result
      ensures result.items == old(result.items) + Step(AsConfig(), variableExpressionAst, ancestors).found
      ensures action == Step(AsConfig(), variableExpressionAst, ancestors).action
    {
      if IsPositionInExtent(AsConfig(), variableExpressionAst.ext) {
        AddResult(FromExtent(SymbolType.Variable, variableExpressionAst.ext));
        return StopVisit;
      }
      return Continue;
    }

    method VisitTypeDefinition(typeDefinitionAst: Node, ancestors: seq<Node>) returns (action: Action)
      requires typeDefinitionAst.TypeDefinition?
      modifies result
      ensures result.items == old(result.items) + Step(AsConfig(), typeDefinitionAst, ancestors).found
      ensures action == Step(AsConfig(), typeDefinitionAst, ancestors).action
    {
      if IsPositionInExtent(AsConfig(), typeDefinitionAst.ext) {
        AddResult(ClassDefinitionSymbolReference.Create(typeDefinitionAst));
        return StopVisit;
      }
      return Continue;
    }

    method VisitTypeExpression(typeExpressionAst: Node, ancestors: seq<Node>) returns (action: Action)
      requires typeExpressionAst.TypeExpression?
      modifies result
      ensures result.items == old(result.items) + Step(AsConfig(), typeExpressionAst, ancestors).found
      ensures action == Step(AsConfig(), typeExpressionAst, ancestors).action
    {
      if IsPositionInExtent(AsConfig(), typeExpressionAst.ext) {
        AddResult(ClassSymbolReference.Create(typeExpressionAst));
        return StopVisit;
      }
      return Continue;
    }

    method VisitPropertyMember(propertyMemberAst: Node, ancestors: seq<Node>) returns (action: Action)
      requires propertyMemberAst.PropertyMember?
      modifies result
      ensures result.items == old(result.items) + Step(AsConfig(), propertyMemberAst, ancestors).found
      ensures action == Step(AsConfig(), propertyMemberAst, ancestors).action
    {
      if IsPositionInExtent(AsConfig(), propertyMemberAst.ext) {
        AddResult(PropertySymbolReference.Create(propertyMemberAst, ancestors));
        return StopVisit;
      }
      return Continue;
    }

    method VisitFunctionMember(functionMemberAst: Node, ancestors: seq<Node>) returns (action: Action)
      requires functionMemberAst.FunctionMember?
      modifies result
      ensures result.items == old(result.items) + Step(AsConfig(), functionMemberAst, ancestors).found
      ensures action == Step(AsConfig(), functionMemberAst, ancestors).action
    {
      if IsPositionInExtent(AsConfig(), functionMemberAst.ext)
         && !IsPositionInExtent(AsConfig(), MethodBody(functionMemberAst).ext)
      {
        AddResult(MethodSymbolReference.Create(functionMemberAst, ancestors));
        return StopVisit;
      }
      return Continue;
    }

    method VisitMemberExpression(memberExpressionAst: Node, ancestors: seq<Node>) returns (action: Action)
      requires memberExpressionAst.MemberExpression?
      modifies result
      ensures result.items == old(result.items) + Step(AsConfig(), memberExpressionAst, ancestors).found
      ensures action == Step(AsConfig(), memberExpressionAst, ancestors).action
    {
      if !IsPositionInExtent(AsConfig(), memberExpressionAst.member.ext) {
        return Continue;
      }
      AddResult(PropertyCallReference.Create(memberExpressionAst, ancestors));
      return Continue;
    }

    method VisitInvokeMemberExpression(methodCallAst: Node, ancestors: seq<Node>) returns (action: Action)
      requires methodCallAst.InvokeMember?
      modifies result
      ensures result.items == old(result.items) + Step(AsConfig(), methodCallAst, ancestors).found
      ensures action == Step(AsConfig(), methodCallAst, ancestors).action
    {
      if !IsPositionInExtent(AsConfig(), methodCallAst.ext) {
        return Continue;
      }
      if IsPositionInExtent(AsConfig(), methodCallAst.member.ext) {
        AddResult(MethodCallReference.Create(methodCallAst, ancestors));
      } else if IsPositionInExtent(AsConfig(), methodCallAst.expression.ext) && methodCallAst.expression.TypeExpression? {
        AddResult(ClassSymbolReference.Create(methodCallAst.expression));
      }
      return Continue;
    }

    /** The visitor's entry point for one node: the override for its kind, `Continue` for the rest. */
    method Visit(n: Node, ancestors: seq<Node>) returns (action: Action)
      modifies result
      ensures result.items == old(result.items) + Step(AsConfig(), n, ancestors).found
      ensures action == Step(AsConfig(), n, ancestors).action
    {
      match n
      case Command(_, _, _, _) => action := VisitCommand(n, ancestors);
      case FunctionDefinition(_, _, _, _, _) => action := VisitFunctionDefinition(n, ancestors);
      case CommandParameter(_, _) => action := VisitCommandParameter(n, ancestors);
      case Variable(_, _) => action := VisitVariableExpression(n, ancestors);
      case TypeDefinition(_, _, _) => action := VisitTypeDefinition(n, ancestors);
      case TypeExpression(_, _) => action := VisitTypeExpression(n, ancestors);
      case PropertyMember(_, _, _, _, _) => action := VisitPropertyMember(n, ancestors);
      case FunctionMember(_, _, _, _, _) => action := VisitFunctionMember(n, ancestors);
      case MemberExpression(_, _, _, _) => action := VisitMemberExpression(n, ancestors);
      case InvokeMember(_, _, _, _, _) => action := VisitInvokeMemberExpression(n, ancestors);
      case _ => action := Continue;
    }
  }
}
