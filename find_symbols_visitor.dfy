/**
 * `FindSymbolsVisitor`: collects the symbols a document declares (functions
 * and workflows, variables assigned at script scope, classes, methods and
 * properties); and `FindHashtableSymbolsVisitor`: collects the string keys
 * of hashtable literals. Neither stops the walk.
 */
module FindSymbolsVisitor {
  import opened Ast
  import opened Symbols
  import opened Visiting
  import ClassDefinitionSymbolReference
  import MethodSymbolReference
  import PropertySymbolReference

  /**
   * `IsAssignedAtScriptScope`: the variable is the direct target of an
   * assignment that has at most two nodes above it (a script's top-level
   * block and the script itself).
   */
  predicate AssignedAtScriptScope(ancestors: seq<Node>) {
    ancestors != [] && ancestors[0].Assignment? && |ancestors| <= 3
  }

  /** A function's document symbol: the whole definition's extent, with the name as its text. */
  function FunctionSymbol(fd: Node): (r: SymbolReference)
    requires fd.FunctionDefinition?
    ensures r.kind == (if fd.isWorkflow then Workflow else Function)
    ensures r.name == fd.name && r.region.text == fd.name && r.payload.Plain?
    ensures r.region.startLine == fd.ext.startLine && r.region.startColumn == fd.ext.startColumn
    ensures r.region.endLine == fd.ext.endLine && r.region.endColumn == fd.ext.endColumn
  {
    var nameExtent := Extent(fd.ext.startLine, fd.ext.startColumn, fd.ext.endLine, fd.ext.endColumn, fd.name);
    FromExtent(if fd.isWorkflow then Workflow else Function, nameExtent)
  }

  /** What visiting `n`, whose parents are `ancestors`, appends; the walk always goes on. */
  function Step(n: Node, ancestors: seq<Node>): Effect {
    match n
    case FunctionDefinition(_, _, _, _, _) =>
      if ancestors != [] && ancestors[0].FunctionMember? then Pass() else Collect(FunctionSymbol(n))
    case Variable(ext, _) =>
      if AssignedAtScriptScope(ancestors) then Collect(FromExtent(SymbolType.Variable, ext)) else Pass()
    case TypeDefinition(_, _, _) => Collect(ClassDefinitionSymbolReference.Create(n))
    case FunctionMember(_, _, _, _, _) => Collect(MethodSymbolReference.Create(n, ancestors))
    case PropertyMember(_, _, _, _, _) => Collect(PropertySymbolReference.Create(n, ancestors))
    case _ => Pass()
  }

  /**
   * The declarations a document lists: each class, method and property, each
   * function not directly under a class member, each variable a top-level
   * assignment targets.
   */
  predicate IsDeclaration(n: Node, ancestors: seq<Node>) {
    n.TypeDefinition? || n.FunctionMember? || n.PropertyMember?
    || (n.FunctionDefinition? && !(ancestors != [] && ancestors[0].FunctionMember?))
    || (n.Variable? && AssignedAtScriptScope(ancestors))
  }

  /** Every declaration is collected and nothing else is; the walk always goes on. */
  lemma StepCollectsDeclarations(n: Node, ancestors: seq<Node>)
    ensures Step(n, ancestors).action == Continue
    ensures Step(n, ancestors).found != [] <==> IsDeclaration(n, ancestors)
    ensures |Step(n, ancestors).found| <= 1
    ensures forall r <- Step(n, ancestors).found :: WellKinded(r)
  {
  }

  /**
   * A class method is listed once: the method itself is collected, and its
   * hidden function definition is skipped.
   */
  lemma MethodCollectedOnce(fm: Node, ancestors: seq<Node>)
    requires fm.FunctionMember? && fm.definition.FunctionDefinition?
    ensures Step(fm, ancestors) == Collect(MethodSymbolReference.Create(fm, ancestors))
    ensures Step(fm.definition, [fm] + ancestors) == Pass()
  {
  }

  /** A variable assigned by a script's top-level statement is a document symbol; one inside a function is not. */
  lemma TopLevelAssignmentOnly(v: Node, a: Node, block: Node, script: Node, more: seq<Node>)
    requires v.Variable? && a.Assignment?
    ensures Step(v, [a, block, script]).found == [FromExtent(SymbolType.Variable, v.ext)]
    ensures Step(v, [a, block, script] + more).found == [] <==> more != []
  {
  }

  /** The document symbol of a hashtable key: from the key's start to the value's end, with the key as its text. */
  function KeyReference(kv: KeyValue): (r: SymbolReference)
    requires kv.key.StringConstant?
    ensures r.kind == HashtableKey && r.name == kv.key.value && r.payload.Plain?
    ensures r.region.text == kv.key.value
    ensures r.region.startLine == kv.key.ext.startLine && r.region.startColumn == kv.key.ext.startColumn
    ensures r.region.endLine == kv.value.ext.endLine && r.region.endColumn == kv.value.ext.endColumn
  {
    FromExtent(HashtableKey, Extent(kv.key.ext.startLine, kv.key.ext.startColumn,
                                    kv.value.ext.endLine, kv.value.ext.endColumn, kv.key.value))
  }

  /** The key symbols of `kvs`, in entry order, one per entry whose key is a string constant. */
  function KeyReferences(kvs: seq<KeyValue>): seq<SymbolReference> {
    if kvs == [] then []
    else
      var last := kvs[|kvs| - 1];
      KeyReferences(kvs[..|kvs| - 1]) + (if last.key.StringConstant? then [KeyReference(last)] else [])
  }

  /**
   * There are no more key symbols than entries; each is the key symbol of an
   * entry with a string-constant key, and every such entry has its key symbol.
   */
  lemma {:induction false} KeyReferencesOfKeys(kvs: seq<KeyValue>)
    ensures |KeyReferences(kvs)| <= |kvs|
    ensures forall x <- KeyReferences(kvs) :: exists kv <- kvs :: kv.key.StringConstant? && x == KeyReference(kv)
    ensures forall kv <- kvs :: kv.key.StringConstant? ==> KeyReference(kv) in KeyReferences(kvs)
  {
    if kvs != [] {
      var init := kvs[..|kvs| - 1];
      var last := kvs[|kvs| - 1];
      KeyReferencesOfKeys(init);
      assert kvs == init + [last];
      assert forall kv <- init :: kv in kvs;
    }
  }

  /** The key symbols of two runs of entries are those of the first run, then those of the second. */
  lemma {:induction false} KeyReferencesAppend(a: seq<KeyValue>, b: seq<KeyValue>)
    ensures KeyReferences(a + b) == KeyReferences(a) + KeyReferences(b)
    decreases |b|
  {
    if b == [] {
      assert a + b == a;
    } else {
      var init := b[..|b| - 1];
      assert (a + b)[..|a + b| - 1] == a + init;
      assert (a + b)[|a + b| - 1] == b[|b| - 1];
      KeyReferencesAppend(a, init);
    }
  }

  /** A hashtable visit always goes on, and appends only key symbols. */
  lemma HashtableStepFindsKeys(n: Node)
    ensures HashtableStep(n).action == Continue
    ensures forall r <- HashtableStep(n).found :: r.kind == HashtableKey && r.payload.Plain?
  {
    if n.Hashtable? && n.pairs.Pairs? {
      KeyReferencesOfKeys(n.pairs.items);
      forall r <- KeyReferences(n.pairs.items) ensures r.kind == HashtableKey && r.payload.Plain? {
        var kv :| kv in n.pairs.items && kv.key.StringConstant? && r == KeyReference(kv);
      }
    }
  }

  /** What `FindHashtableSymbolsVisitor` appends on visiting `n`; it always goes on. */
  function HashtableStep(n: Node): Effect {
    match n
    case Hashtable(_, pairs) =>
      (match pairs
       case NullPairs => Pass()
       case Pairs(kvs) => Effect(KeyReferences(kvs), Continue))
    case _ => Pass()
  }

  class FindSymbolsVisitor {
    const results: ResultList

    constructor (result: ResultList)
      ensures results == result
    {
      results := result;
    }

    method AddResult(symref: SymbolReference)
      modifies results
      ensures results.items == old(results.items) + [symref]
    {
      results.Add(symref);
    }

    method VisitFunctionDefinition(functionDefinitionAst: Node, ancestors: seq<Node>) returns (action: Action)
      requires functionDefinitionAst.FunctionDefinition?
      modifies results
      ensures results.items == old(results.items) + Step(functionDefinitionAst, ancestors).found
      ensures action == Step(functionDefinitionAst, ancestors).action
    {
      if ancestors != [] && ancestors[0].FunctionMember? {
        return Continue;
      }
      var nameExtent := Extent(functionDefinitionAst.ext.startLine, functionDefinitionAst.ext.startColumn,
                               functionDefinitionAst.ext.endLine, functionDefinitionAst.ext.endColumn,
                               functionDefinitionAst.name);
      var symbolType := if functionDefinitionAst.isWorkflow then Workflow else Function;
      AddResult(FromExtent(symbolType, nameExtent));
      return Continue;
    }

    method VisitVariableExpression(variableExpressionAst: Node, ancestors: seq<Node>) returns (action: Action)
      requires variableExpressionAst.Variable?
      modifies results
      ensures results.items == old(results.items) + Step(variableExpressionAst, ancestors).found
      ensures action == Step(variableExpressionAst, ancestors).action
    {
      var atScriptScope := IsAssignedAtScriptScope(variableExpressionAst, ancestors);
      if !atScriptScope {
        return Continue;
      }
      AddResult(FromExtent(SymbolType.Variable, variableExpressionAst.ext));
      return Continue;
    }

    method VisitTypeDefinition(typeDefinitionAst: Node, ancestors: seq<Node>) returns (action: Action)
      requires typeDefinitionAst.TypeDefinition?
      modifies results
      ensures results.items == old(results.items) + Step(typeDefinitionAst, ancestors).found
      ensures action == Step(typeDefinitionAst, ancestors).action
    {
      AddResult(ClassDefinitionSymbolReference.Create(typeDefinitionAst));
      return Continue;
    }

    method VisitFunctionMember(functionMemberAst: Node, ancestors: seq<Node>) returns (action: Action)
      requires functionMemberAst.FunctionMember?
      modifies results
      ensures results.items == old(results.items) + Step(functionMemberAst, ancestors).found
      ensures action == Step(functionMemberAst, ancestors).action
    {
      AddResult(MethodSymbolReference.Create(functionMemberAst, ancestors));
      return Continue;
    }

    method VisitPropertyMember(propertyMemberAst: Node, ancestors: seq<Node>) returns (action: Action)
      requires propertyMemberAst.PropertyMember?
      modifies results
      ensures results.items == old(results.items) + Step(propertyMemberAst, ancestors).found
      ensures action == Step(propertyMemberAst, ancestors).action
    {
      AddResult(PropertySymbolReference.Create(propertyMemberAst, ancestors));
      return Continue;
    }

    /**
     * `IsAssignedAtScriptScope`, following parents: the variable's parent must
     * be an assignment, and the assignment's grandparent's parent must not
     * exist. A parent is an index into `ancestors`; `|ancestors|` or beyond is
     * `null`.
     */
    method IsAssignedAtScriptScope(variableExpressionAst: Node, ancestors: seq<Node>) returns (atScriptScope: bool)
      ensures atScriptScope == AssignedAtScriptScope(ancestors)
    {
      var parent := 0;
      if !(parent < |ancestors| && ancestors[parent].Assignment?) {
        return false;
      }
      parent := parent + 1;
      if parent >= |ancestors| || parent + 1 >= |ancestors| || parent + 2 >= |ancestors| {
        return true;
      }
      return false;
    }

    /** The visitor's entry point for one node: the override for its kind, `Continue` for the rest. */
    method Visit(n: Node, ancestors: seq<Node>) returns (action: Action)
      modifies results
      ensures results.items == old(results.items) + Step(n, ancestors).found
      ensures action == Step(n, ancestors).action
    {
      match n
      case FunctionDefinition(_, _, _, _, _) => action := VisitFunctionDefinition(n, ancestors);
      case Variable(_, _) => action := VisitVariableExpression(n, ancestors);
      case TypeDefinition(_, _, _) => action := VisitTypeDefinition(n, ancestors);
      case FunctionMember(_, _, _, _, _) => action := VisitFunctionMember(n, ancestors);
      case PropertyMember(_, _, _, _, _) => action := VisitPropertyMember(n, ancestors);
      case _ => action := Continue;
    }
  }

  class FindHashtableSymbolsVisitor {
    const symbolReferences: ResultList

    constructor ()
      ensures fresh(symbolReferences) && symbolReferences.items == []
    {
      symbolReferences := new ResultList();
    }

    method VisitHashtable(hashtableAst: Node) returns (action: Action)
      requires hashtableAst.Hashtable?
      modifies symbolReferences
      ensures symbolReferences.items == old(symbolReferences.items) + HashtableStep(hashtableAst).found
      ensures action == HashtableStep(hashtableAst).action
    {
      if hashtableAst.pairs.NullPairs? {
        return Continue;
      }
      var kvs := hashtableAst.pairs.items;
      var i := 0;
      while i < |kvs|
        invariant 0 <= i <= |kvs|
        invariant symbolReferences.items == old(symbolReferences.items) + KeyReferences(kvs[..i])
      {
        var kvp := kvs[i];
        assert kvs[..i + 1][..i] == kvs[..i];
        assert KeyReferences(kvs[..i + 1])
               == KeyReferences(kvs[..i]) + (if kvp.key.StringConstant? then [KeyReference(kvp)] else []);
        if kvp.key.StringConstant? {
          var nameExtent := Extent(kvp.key.ext.startLine, kvp.key.ext.startColumn,
                                   kvp.value.ext.endLine, kvp.value.ext.endColumn, kvp.key.value);
          assert FromExtent(HashtableKey, nameExtent) == KeyReference(kvp);
          symbolReferences.Add(FromExtent(HashtableKey, nameExtent));
        }
        i := i + 1;
      }
      assert kvs[..i] == kvs;
      return Continue;
    }

    /** The visitor's entry point for one node: only hashtables are inspected. */
    method Visit(n: Node, ancestors: seq<Node>) returns (action: Action)
      modifies symbolReferences
      ensures symbolReferences.items == old(symbolReferences.items) + HashtableStep(n).found
      ensures action == HashtableStep(n).action
    {
      if n.Hashtable? {
        action := VisitHashtable(n);
      } else {
        action := Continue;
      }
    }
  }
}
