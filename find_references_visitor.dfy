/**
 * `FindReferencesVisitor`: collects every reference to a symbol in a script,
 * optionally treating a command and its aliases as the same symbol. It never
 * stops the walk.
 */
module FindReferencesVisitor {
  import opened Wrappers
  import opened Text
  import opened Ast
  import opened Symbols
  import opened Visiting
  import opened ReferenceHelperExtensions
  import ClassSymbolReference
  import MethodCallReference
  import MethodSymbolReference
  import PropertyCallReference
  import PropertySymbolReference

  /**
   * The alias tables of an alias-aware search: each cmdlet's aliases, each
   * alias's cmdlet, and the cmdlet of the searched symbol's own text (`""`
   * when that text is not an alias).
   */
  datatype Aliases = Aliases(cmdletToAlias: map<string, seq<string>>, aliasToCmdlet: map<string, string>,
                             symbolRefCommandName: string)

  /** The symbol searched for, and the alias tables when aliases count. */
  datatype Config = Config(symbolRef: SymbolReference, aliases: Option<Aliases>)

  /** `TryGetValue` on the cmdlet table, defaulting to no aliases. */
  function AliasesOf(cmdletToAlias: map<string, seq<string>>, name: string): (r: seq<string>)
    ensures name !in cmdletToAlias ==> r == []
    ensures name in cmdletToAlias ==> r == cmdletToAlias[name]
  {
    if name in cmdletToAlias then cmdletToAlias[name] else []
  }

  /** `TryGetValue` on the alias table, defaulting to the empty string. */
  function CmdletOf(aliasToCmdlet: map<string, string>, name: string): (r: string)
    ensures name !in aliasToCmdlet ==> r == ""
    ensures name in aliasToCmdlet ==> r == aliasToCmdlet[name]
  {
    if name in aliasToCmdlet then aliasToCmdlet[name] else ""
  }

  /** The settings of the alias-aware constructor. */
  function ConfigWithAliases(symbolRef: SymbolReference, cmdletToAlias: map<string, seq<string>>,
                             aliasToCmdlet: map<string, string>): (cfg: Config)
    ensures cfg.symbolRef == symbolRef && cfg.aliases.Some?
    ensures cfg.aliases.value.cmdletToAlias == cmdletToAlias && cfg.aliases.value.aliasToCmdlet == aliasToCmdlet
    ensures cfg.aliases.value.symbolRefCommandName == CmdletOf(aliasToCmdlet, symbolRef.region.text)
  {
    Config(symbolRef, Some(Aliases(cmdletToAlias, aliasToCmdlet, CmdletOf(aliasToCmdlet, symbolRef.region.text))))
  }

  /**
   * Whether a command named `commandName` refers to the symbol: by name,
   * ignoring case; with aliases also when the symbol's lower-cased text is one
   * of the command's aliases, when the command is an alias of the symbol's
   * text, or when both are aliases of the same cmdlet.
   */
  predicate CommandMatches(cfg: Config, commandName: string) {
    var symbolRef := cfg.symbolRef;
    match cfg.aliases
    case None => EqualsIgnoreCase(commandName, symbolRef.name)
    case Some(a) =>
      var aliases := AliasesOf(a.cmdletToAlias, commandName);
      var command := CmdletOf(a.aliasToCmdlet, commandName);
      EqualsIgnoreCase(commandName, symbolRef.name)
      || Lower(symbolRef.region.text) in aliases
      || EqualsIgnoreCase(command, symbolRef.region.text)
      || (command != "" && EqualsIgnoreCase(command, a.symbolRefCommandName))
  }

  /**
   * The extent `VisitFunctionDefinition` gives a function's name: on the
   * definition's first line, from one past the name's first index (ignoring
   * case) in the definition text, as wide as the name.
   */
  function FunctionNameExtent(fd: Node): (e: Extent)
    requires fd.FunctionDefinition?
    ensures e.text == fd.name && e.startLine == fd.ext.startLine && e.endLine == fd.ext.startLine
    ensures e.startColumn == IndexOfIgnoreCase(fd.ext.text, fd.name) + 1
    ensures e.endColumn == e.startColumn + |fd.name|
  {
    var startColumnNumber := IndexOfIgnoreCase(fd.ext.text, fd.name) + 1;
    Extent(fd.ext.startLine, startColumnNumber, fd.ext.startLine, startColumnNumber + |fd.name|, fd.name)
  }

  /** A property reference, of either class, against a member expression. */
  predicate PropertyReferencesMemberExpression(symbolRef: SymbolReference, me: Node, ancestors: seq<Node>)
    requires IsMemberExpression(me)
  {
    (symbolRef.payload.PropertyCall? && PropertyCallReferencesMemberExpression(symbolRef, me, ancestors))
    || (symbolRef.payload.PropertySymbol? && PropertySymbolReferencesMemberExpression(symbolRef, me, ancestors))
  }

  /** A method reference, of either class, against a call. */
  predicate MethodReferencesCall(symbolRef: SymbolReference, call: Node, ancestors: seq<Node>)
    requires call.InvokeMember?
  {
    (symbolRef.payload.MethodSymbol? && MethodSymbolReferencesCall(symbolRef, call, ancestors))
    || (symbolRef.payload.MethodCall? && MethodCallReferencesCall(symbolRef, call, ancestors))
  }

  /** What visiting `n`, whose parents are `ancestors`, appends; the walk always goes on. */
  function Step(cfg: Config, n: Node, ancestors: seq<Node>): Effect {
    var symbolRef := cfg.symbolRef;
    var kind := symbolRef.kind;
    match n
    case Command(_, _, commandNameAst, _) =>
      if kind == Function && CommandMatches(cfg, commandNameAst.ext.text)
      then Collect(FromExtent(Function, commandNameAst.ext))
      else Pass()
    case FunctionDefinition(_, _, _, _, _) =>
      var nameExtent := FunctionNameExtent(n);
      if kind == Function && EqualsIgnoreCase(nameExtent.text, symbolRef.name)
      then Collect(FromExtent(Function, nameExtent))
      else Pass()
    case CommandParameter(ext, _) =>
      if kind == SymbolType.Parameter && EqualsIgnoreCase(ext.text, symbolRef.name)
      then Collect(FromExtent(SymbolType.Parameter, ext))
      else Pass()
    case Variable(ext, _) =>
      if kind == SymbolType.Variable && EqualsIgnoreCase(ext.text, symbolRef.name)
      then Collect(FromExtent(SymbolType.Variable, ext))
      else Pass()
    case TypeExpression(_, typeName) =>
      if kind == Class && EqualsIgnoreCase(symbolRef.name, typeName)
         && (symbolRef.payload.ClassDefinition? || symbolRef.payload.ClassRef?)
         && ClassReferencesTypeExpression(symbolRef, n)
      then Collect(ClassSymbolReference.Create(n))
      else Pass()
    case MemberExpression(_, _, _, _) =>
      if kind == Property && PropertyReferencesMemberExpression(symbolRef, n, ancestors)
      then Collect(PropertyCallReference.Create(n, ancestors))
      else Pass()
    case InvokeMember(_, _, _, _, _) =>
      if (kind == Method || kind == Constructor || kind == Class) && MethodReferencesCall(symbolRef, n, ancestors)
      then Collect(MethodCallReference.Create(n, ancestors))
      else Pass()
    case PropertyMember(_, name, _, _, _) =>
      if kind == Property && EqualsIgnoreCase(symbolRef.name, name)
         && IsPropertyReference(symbolRef) && PropertyReferencesPropertyMember(symbolRef, n, ancestors)
      then Collect(PropertySymbolReference.Create(n, ancestors))
      else Pass()
    case FunctionMember(_, _, _, _, _) =>
      if (kind == Method || kind == Constructor) && EqualsIgnoreCase(symbolRef.name, MethodName(n))
         && IsMethodReference(symbolRef) && MethodReferencesFunctionMember(symbolRef, n, ancestors)
      then Collect(MethodSymbolReference.Create(n, ancestors))
      else Pass()
    case _ => Pass()
  }

  /** Whether two kinds are the same, counting methods and constructors as one. */
  predicate SameKind(a: SymbolType, b: SymbolType) {
    a == b || ((a == Method || a == Constructor) && (b == Method || b == Constructor))
  }

  /**
   * A visit never stops the walk and appends at most one reference; for a
   * well-kinded symbol, what it appends is well-kinded and of the symbol's
   * kind, methods and constructors counting as one.
   */
  lemma StepKeepsKind(cfg: Config, n: Node, ancestors: seq<Node>)
    requires WellKinded(cfg.symbolRef)
    ensures Step(cfg, n, ancestors).action == Continue
    ensures |Step(cfg, n, ancestors).found| <= 1
    ensures forall r <- Step(cfg, n, ancestors).found :: WellKinded(r) && SameKind(r.kind, cfg.symbolRef.kind)
  {
  }

  /**
   * The hidden definition of a class method is a reference to a function of
   * the method's name, as any function definition is; the method itself is not.
   */
  lemma MethodDefinitionIsFunctionReference(cfg: Config, fm: Node, ancestors: seq<Node>)
    requires fm.FunctionMember? && fm.definition.FunctionDefinition?
    requires cfg.symbolRef.kind == Function && EqualsIgnoreCase(MethodName(fm), cfg.symbolRef.name)
    ensures Step(cfg, fm, ancestors) == Pass()
    ensures Step(cfg, fm.definition, [fm] + ancestors) == Collect(FromExtent(Function, FunctionNameExtent(fm.definition)))
  {
  }

  /** A class symbol passes the call pre-filter but no class reference matches a call. */
  lemma ClassSymbolMatchesNoCall(cfg: Config, call: Node, ancestors: seq<Node>)
    requires WellKinded(cfg.symbolRef) && cfg.symbolRef.kind == Class && call.InvokeMember?
    ensures Step(cfg, call, ancestors).found == []
  {
  }

  /** Without aliases, a command refers to a function symbol exactly when their names agree ignoring case. */
  lemma CommandFoundByName(symbolRef: SymbolReference, command: Node, ancestors: seq<Node>)
    requires symbolRef.kind == Function && command.Command?
    ensures Step(Config(symbolRef, None), command, ancestors).found != []
            <==> EqualsIgnoreCase(command.commandName.ext.text, symbolRef.name)
    ensures forall r <- Step(Config(symbolRef, None), command, ancestors).found ::
              r == FromExtent(Function, command.commandName.ext)
  {
  }

  /** Alias tables only add references: whatever the plain search finds, the alias-aware one finds too. */
  lemma AliasesOnlyAdd(symbolRef: SymbolReference, a: Aliases, n: Node, ancestors: seq<Node>)
    ensures forall r <- Step(Config(symbolRef, None), n, ancestors).found :: r in Step(Config(symbolRef, Some(a)), n, ancestors).found
    ensures !n.Command? ==> Step(Config(symbolRef, None), n, ancestors) == Step(Config(symbolRef, Some(a)), n, ancestors)
  {
  }

  /** A cmdlet is found as a reference of one of its aliases, written in lower case. */
  lemma CmdletFoundFromAlias(symbolRef: SymbolReference, cmdletToAlias: map<string, seq<string>>,
                             aliasToCmdlet: map<string, string>, command: Node, ancestors: seq<Node>)
    requires symbolRef.kind == Function && command.Command?
    requires command.commandName.ext.text in cmdletToAlias
    requires Lower(symbolRef.region.text) in cmdletToAlias[command.commandName.ext.text]
    ensures Step(ConfigWithAliases(symbolRef, cmdletToAlias, aliasToCmdlet), command, ancestors).found
            == [FromExtent(Function, command.commandName.ext)]
  {
  }

  /** Two aliases of the same cmdlet are found as references of each other. */
  lemma SiblingAliasFound(symbolRef: SymbolReference, cmdletToAlias: map<string, seq<string>>,
                          aliasToCmdlet: map<string, string>, command: Node, ancestors: seq<Node>)
    requires symbolRef.kind == Function && command.Command?
    requires symbolRef.region.text in aliasToCmdlet && command.commandName.ext.text in aliasToCmdlet
    requires aliasToCmdlet[command.commandName.ext.text] == aliasToCmdlet[symbolRef.region.text] != ""
    ensures Step(ConfigWithAliases(symbolRef, cmdletToAlias, aliasToCmdlet), command, ancestors).found
            == [FromExtent(Function, command.commandName.ext)]
  {
    EqualsIgnoreCaseIsEquivalence(aliasToCmdlet[symbolRef.region.text], aliasToCmdlet[symbolRef.region.text],
                                  aliasToCmdlet[symbolRef.region.text]);
  }

  class FindReferencesVisitor {
    const symbolRef: SymbolReference
    const cmdletToAliasDictionary: map<string, seq<string>>
    const aliasToCmdletDictionary: map<string, string>
    const symbolRefCommandName: string
    const needsAliases: bool
    const result: ResultList

    /** The alias-aware constructor. */
    constructor WithAliases(symbolReference: SymbolReference, cmdletToAliasDictionary: map<string, seq<string>>,
                            aliasToCmdletDictionary: map<string, string>, result: ResultList)
      ensures AsConfig() == ConfigWithAliases(symbolReference, cmdletToAliasDictionary, aliasToCmdletDictionary)
      ensures this.result == result
    {
      this.symbolRef := symbolReference;
      this.needsAliases := true;
      this.cmdletToAliasDictionary := cmdletToAliasDictionary;
      this.aliasToCmdletDictionary := aliasToCmdletDictionary;
      this.result := result;
      if symbolReference.region.text in aliasToCmdletDictionary {
        this.symbolRefCommandName := aliasToCmdletDictionary[symbolReference.region.text];
      } else {
        this.symbolRefCommandName := "";
      }
    }

    /** The constructor of a search that ignores aliases. */
    constructor (foundSymbol: SymbolReference, result: ResultList)
      ensures AsConfig() == Config(foundSymbol, None)
      ensures this.result == result
    {
      this.symbolRef := foundSymbol;
      this.result := result;
      this.needsAliases := false;
      this.cmdletToAliasDictionary := map[];
      this.aliasToCmdletDictionary := map[];
      this.symbolRefCommandName := "";
    }

    function AsConfig(): Config {
      Config(symbolRef,
             if needsAliases then Some(Aliases(cmdletToAliasDictionary, aliasToCmdletDictionary, symbolRefCommandName))
             else None)
    }

    method AddResult(symRef: SymbolReference)
      modifies result
      ensures result.items == old(result.items) + [symRef]
    {
      result.Add(symRef);
    }

    method VisitCommand(commandAst: Node, ancestors: seq<Node>) returns (action: Action)
      requires commandAst.Command?
      modifies result
      ensures result.items == old(result.items) + Step(AsConfig(), commandAst, ancestors).found
      ensures action == Step(AsConfig(), commandAst, ancestors).action
    {
      var commandNameAst := commandAst.commandName;
      var commandName := commandNameAst.ext.text;
      if symbolRef.kind == Function {
        if needsAliases {
          var aliases := [];
          var command := "";
          if commandName in cmdletToAliasDictionary {
            aliases := cmdletToAliasDictionary[commandName];
          }
          if commandName in aliasToCmdletDictionary {
            command := aliasToCmdletDictionary[commandName];
          }
          if EqualsIgnoreCase(commandName, symbolRef.name)
             || Lower(symbolRef.region.text) in aliases
             || EqualsIgnoreCase(command, symbolRef.region.text)
             || (command != "" && EqualsIgnoreCase(command, symbolRefCommandName))
          {
            AddResult(FromExtent(Function, commandNameAst.ext));
          }
        } else {
          if EqualsIgnoreCase(commandName, symbolRef.name) {
            AddResult(FromExtent(Function, commandNameAst.ext));
          }
        }
      }
      return Continue;
    }

    method VisitFunctionDefinition(functionDefinitionAst: Node, ancestors: seq<Node>) returns (action: Action)
      requires functionDefinitionAst.FunctionDefinition?
      modifies result
      ensures result.items == old(result.items) + Step(AsConfig(), functionDefinitionAst, ancestors).found
      ensures action == Step(AsConfig(), functionDefinitionAst, ancestors).action
    {
      var startColumnNumber := IndexOfIgnoreCase(functionDefinitionAst.ext.text, functionDefinitionAst.name) + 1;
      var nameExtent := Extent(functionDefinitionAst.ext.startLine, startColumnNumber,
                               functionDefinitionAst.ext.startLine,
                               startColumnNumber + |functionDefinitionAst.name|, functionDefinitionAst.name);
      assert nameExtent == FunctionNameExtent(functionDefinitionAst);
      if symbolRef.kind == Function && EqualsIgnoreCase(nameExtent.text, symbolRef.name) {
        AddResult(FromExtent(Function, nameExtent));
      }
      return Continue;
    }

    method VisitCommandParameter(commandParameterAst: Node, ancestors: seq<Node>) returns (action: Action)
      requires commandParameterAst.CommandParameter?
      modifies result
      ensures result.items == old(result.items) + Step(AsConfig(), commandParameterAst, ancestors).found
      ensures action == Step(AsConfig(), commandParameterAst, ancestors).action
    {
      if symbolRef.kind == SymbolType.Parameter && EqualsIgnoreCase(commandParameterAst.ext.text, symbolRef.name) {
        AddResult(FromExtent(SymbolType.Parameter, commandParameterAst.ext));
      }
      return Continue;
    }

    method VisitVariableExpression(variableExpressionAst: Node, ancestors: seq<Node>) returns (action: Action)
      requires variableExpressionAst.Variable?
      modifies result
      ensures result.items == old(result.items) + Step(AsConfig(), variableExpressionAst, ancestors).found
      ensures action == Step(AsConfig(), variableExpressionAst, ancestors).action
    {
      if symbolRef.kind == SymbolType.Variable && EqualsIgnoreCase(variableExpressionAst.ext.text, symbolRef.name) {
        AddResult(FromExtent(SymbolType.Variable, variableExpressionAst.ext));
      }
      return Continue;
    }

    method VisitTypeExpression(typeExpressionAst: Node, ancestors: seq<Node>) returns (action: Action)
      requires typeExpressionAst.TypeExpression?
      modifies result
      ensures result.items == old(result.items) + Step(AsConfig(), typeExpressionAst, ancestors).found
      ensures action == Step(AsConfig(), typeExpressionAst, ancestors).action
    {
      ghost var found := ClassSymbolReference.Create(typeExpressionAst);
      assert Step(AsConfig(), typeExpressionAst, ancestors) == (if symbolRef.kind == Class && EqualsIgnoreCase(symbolRef.name, typeExpressionAst.typeName)
                         && (symbolRef.payload.ClassDefinition? || symbolRef.payload.ClassRef?)
                         && ClassReferencesTypeExpression(symbolRef, typeExpressionAst)
                                                    then Collect(found) else Pass());
      if symbolRef.kind != Class {
        return Continue;
      }
      if !EqualsIgnoreCase(symbolRef.name, typeExpressionAst.typeName) {
        return Continue;
      }
      match symbolRef.payload {
        case ClassDefinition =>
          if ClassReferencesTypeExpression(symbolRef, typeExpressionAst) {
            AddResult(ClassSymbolReference.Create(typeExpressionAst));
          }
        case ClassRef =>
          if ClassReferencesTypeExpression(symbolRef, typeExpressionAst) {
            AddResult(ClassSymbolReference.Create(typeExpressionAst));
          }
        case _ =>
      }
      return Continue;
    }

    method VisitMemberExpression(memberExpressionAst: Node, ancestors: seq<Node>) returns (action: Action)
      requires memberExpressionAst.MemberExpression?
      modifies result
      ensures result.items == old(result.items) + Step(AsConfig(), memberExpressionAst, ancestors).found
      ensures action == Step(AsConfig(), memberExpressionAst, ancestors).action
    {
      ghost var found := PropertyCallReference.Create(memberExpressionAst, ancestors);
      assert Step(AsConfig(), memberExpressionAst, ancestors) == (if symbolRef.kind == Property && PropertyReferencesMemberExpression(symbolRef, memberExpressionAst, ancestors)
                                                    then Collect(found) else Pass());
      if symbolRef.kind != Property {
        return Continue;
      }
      match symbolRef.payload {
        case PropertyCall(_, _, _) =>
          if PropertyCallReferencesMemberExpression(symbolRef, memberExpressionAst, ancestors) {
            AddResult(PropertyCallReference.Create(memberExpressionAst, ancestors));
          }
        case PropertySymbol(_, _, _) =>
          if PropertySymbolReferencesMemberExpression(symbolRef, memberExpressionAst, ancestors) {
            AddResult(PropertyCallReference.Create(memberExpressionAst, ancestors));
          }
        case _ =>
      }
      return Continue;
    }

    method VisitInvokeMemberExpression(methodCallAst: Node, ancestors: seq<Node>) returns (action: Action)
      requires methodCallAst.InvokeMember?
      modifies result
      ensures result.items == old(result.items) + Step(AsConfig(), methodCallAst, ancestors).found
      ensures action == Step(AsConfig(), methodCallAst, ancestors).action
    {
      ghost var found := MethodCallReference.Create(methodCallAst, ancestors);
      assert Step(AsConfig(), methodCallAst, ancestors) == (if (symbolRef.kind == Method || symbolRef.kind == Constructor || symbolRef.kind == Class)
                         && MethodReferencesCall(symbolRef, methodCallAst, ancestors)
                                                    then Collect(found) else Pass());
      if symbolRef.kind != Method && symbolRef.kind != Constructor && symbolRef.kind != Class {
        return Continue;
      }
      match symbolRef.payload {
        case MethodSymbol(_, _, _, _, _, _, _) =>
          if MethodSymbolReferencesCall(symbolRef, methodCallAst, ancestors) {
            AddResult(MethodCallReference.Create(methodCallAst, ancestors));
          }
        case MethodCall(_, _, _) =>
          if MethodCallReferencesCall(symbolRef, methodCallAst, ancestors) {
            AddResult(MethodCallReference.Create(methodCallAst, ancestors));
          }
        case _ =>
      }
      return Continue;
    }

    method VisitPropertyMember(propertyMemberAst: Node, ancestors: seq<Node>) returns (action: Action)
      requires propertyMemberAst.PropertyMember?
      modifies result
      ensures result.items == old(result.items) + Step(AsConfig(), propertyMemberAst, ancestors).found
      ensures action == Step(AsConfig(), propertyMemberAst, ancestors).action
    {
      ghost var found := PropertySymbolReference.Create(propertyMemberAst, ancestors);
      assert Step(AsConfig(), propertyMemberAst, ancestors) == (if symbolRef.kind == Property && EqualsIgnoreCase(symbolRef.name, propertyMemberAst.name)
                         && IsPropertyReference(symbolRef) && PropertyReferencesPropertyMember(symbolRef, propertyMemberAst, ancestors)
                                                    then Collect(found) else Pass());
      if symbolRef.kind != Property {
        return Continue;
      }
      if !EqualsIgnoreCase(symbolRef.name, propertyMemberAst.name) {
        return Continue;
      }
      match symbolRef.payload {
        case PropertyCall(_, _, _) =>
          if PropertyReferencesPropertyMember(symbolRef, propertyMemberAst, ancestors) {
            AddResult(PropertySymbolReference.Create(propertyMemberAst, ancestors));
          }
        case PropertySymbol(_, _, _) =>
          if PropertyReferencesPropertyMember(symbolRef, propertyMemberAst, ancestors) {
            AddResult(PropertySymbolReference.Create(propertyMemberAst, ancestors));
          }
        case _ =>
      }
      return Continue;
    }

    method VisitFunctionMember(functionMemberAst: Node, ancestors: seq<Node>) returns (action: Action)
      requires functionMemberAst.FunctionMember?
      modifies result
      ensures result.items == old(result.items) + Step(AsConfig(), functionMemberAst, ancestors).found
      ensures action == Step(AsConfig(), functionMemberAst, ancestors).action
    {
      ghost var found := MethodSymbolReference.Create(functionMemberAst, ancestors);
      assert Step(AsConfig(), functionMemberAst, ancestors) == (if (symbolRef.kind == Method || symbolRef.kind == Constructor) && EqualsIgnoreCase(symbolRef.name, MethodName(functionMemberAst))
                         && IsMethodReference(symbolRef) && MethodReferencesFunctionMember(symbolRef, functionMemberAst, ancestors)
                                                    then Collect(found) else Pass());
      if symbolRef.kind != Method && symbolRef.kind != Constructor {
        return Continue;
      }
      if !EqualsIgnoreCase(symbolRef.name, MethodName(functionMemberAst)) {
        return Continue;
      }
      match symbolRef.payload {
        case MethodSymbol(_, _, _, _, _, _, _) =>
          if MethodReferencesFunctionMember(symbolRef, functionMemberAst, ancestors) {
            AddResult(MethodSymbolReference.Create(functionMemberAst, ancestors));
          }
        case MethodCall(_, _, _) =>
          if MethodReferencesFunctionMember(symbolRef, functionMemberAst, ancestors) {
            AddResult(MethodSymbolReference.Create(functionMemberAst, ancestors));
          }
        case _ =>
      }
      return Continue;
    }

    /** The visitor's entry point for one node: the override for its kind, `Continue` for the rest. */
    method Visit(n: Node, ancestors: seq<Node>) returns (action: Action)
      modifies result
      ensures result.items == old(result.items) + Step(AsConfig(), n, ancestors).found
      ensures action == Step(AsConfig(), n, ancestors).action
    {
      match n
      case Command(_, _, _, _) => action := VisitCommand(n, ancestors);
      case FunctionDefinition(_, _, _, _, _) => action := VisitFunctionDefinition(n, ancestors);
      case CommandParameter(_, _) => action := VisitCommandParameter(n, ancestors);
      case Variable(_, _) => action := VisitVariableExpression(n, ancestors);
      case TypeExpression(_, _) => action := VisitTypeExpression(n, ancestors);
      case MemberExpression(_, _, _, _) => action := VisitMemberExpression(n, ancestors);
      case InvokeMember(_, _, _, _, _) => action := VisitInvokeMemberExpression(n, ancestors);
      case PropertyMember(_, _, _, _, _) => action := VisitPropertyMember(n, ancestors);
      case FunctionMember(_, _, _, _, _) => action := VisitFunctionMember(n, ancestors);
      case _ => action := Continue;
    }
  }
}
