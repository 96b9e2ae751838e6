/**
 * `AstOperations`: the queries the editor's language service asks of a parsed
 * script. Each one hands a fresh result list to a visitor, walks the whole
 * tree with it, and returns the list or its first element. The `...Of`
 * functions say what each query returns; the methods are the queries and are
 * proved to return exactly that; the lemmas say what the answers mean.
 */
module AstOperations {
  import opened Wrappers
  import opened Ast
  import opened Symbols
  import opened Visiting
  import opened Traversal
  import FindSymbolVisitor
  import FindCommandVisitor
  import FindDeclarationVisitor
  import FindReferencesVisitor
  import FindSymbolsVisitor
  import ClassDefinitionSymbolReference
  import MethodSymbolReference
  import opened Text

  /** What `FindSymbolAtPosition` returns. */
  function SymbolAtPositionOf(scriptAst: Node, lineNumber: int, columnNumber: int, includeFunctionDefinitions: bool)
    : Option<SymbolReference>
  {
    FirstOrNone(WalkNode(SymbolAt(FindSymbolVisitor.Config(lineNumber, columnNumber, includeFunctionDefinitions)),
                         scriptAst, []).found)
  }

  /** What `FindCommandAtPosition` returns. */
  function CommandAtPositionOf(scriptAst: Node, lineNumber: int, columnNumber: int): Option<SymbolReference> {
    FirstOrNone(WalkNode(CommandAt(FindCommandVisitor.Config(lineNumber, columnNumber)), scriptAst, []).found)
  }

  /** What either `FindReferencesOfSymbol` returns, for the visitor's settings. */
  function ReferencesOf(scriptAst: Node, cfg: FindReferencesVisitor.Config): seq<SymbolReference> {
    WalkNode(References(cfg), scriptAst, []).found
  }

  /** What `FindDefinitionOfSymbol` returns. */
  function DefinitionOf(scriptAst: Node, symbolReference: SymbolReference): Option<SymbolReference> {
    FirstOrNone(WalkNode(Declaration(FindDeclarationVisitor.ConfigFor(symbolReference)), scriptAst, []).found)
  }

  /** What `FindSymbolsInDocument` returns. */
  function SymbolsInDocumentOf(scriptAst: Node): seq<SymbolReference> {
    WalkNode(DocumentSymbols, scriptAst, []).found
  }

  /** The symbol at the cursor: the first one the symbol visitor records. */
  method FindSymbolAtPosition(scriptAst: Node, lineNumber: int, columnNumber: int, includeFunctionDefinitions: bool)
    returns (r: Option<SymbolReference>)
    ensures r == SymbolAtPositionOf(scriptAst, lineNumber, columnNumber, includeFunctionDefinitions)
  {
    var result := new ResultList();
    var symbolVisitor := new FindSymbolVisitor.FindSymbolVisitor(lineNumber, columnNumber, includeFunctionDefinitions, result);
    var stopped := Walk(SymbolAtWalker(symbolVisitor), scriptAst, []);
    return FirstOrNone(result.items);
  }

  /** The command at the cursor: the first one the command visitor records. */
  method FindCommandAtPosition(scriptAst: Node, lineNumber: int, columnNumber: int) returns (r: Option<SymbolReference>)
    ensures r == CommandAtPositionOf(scriptAst, lineNumber, columnNumber)
  {
    var result := new ResultList();
    var commandVisitor := new FindCommandVisitor.FindCommandVisitor(lineNumber, columnNumber, result);
    var stopped := Walk(CommandAtWalker(commandVisitor), scriptAst, []);
    return FirstOrNone(result.items);
  }

  /** All references to `symbolReference`, aliases of a command included. */
  method FindReferencesOfSymbolWithAliases(scriptAst: Node, symbolReference: SymbolReference,
                                           cmdletToAliasDictionary: map<string, seq<string>>,
                                           aliasToCmdletDictionary: map<string, string>)
    returns (r: seq<SymbolReference>)
    ensures r == ReferencesOf(scriptAst, FindReferencesVisitor.ConfigWithAliases(symbolReference, cmdletToAliasDictionary,
                                                                                 aliasToCmdletDictionary))
  {
    var results := new ResultList();
    var referencesVisitor := new FindReferencesVisitor.FindReferencesVisitor.WithAliases(
      symbolReference, cmdletToAliasDictionary, aliasToCmdletDictionary, results);
    var stopped := Walk(ReferencesWalker(referencesVisitor), scriptAst, []);
    return results.items;
  }

  /**
   * All references to `foundSymbol`, aliases left out. The script must be a
   * script block, as the parameter's type demands; `needsAliases` is unused.
   */
  method FindReferencesOfSymbol(scriptAst: Node, foundSymbol: SymbolReference, needsAliases: bool)
    returns (r: seq<SymbolReference>)
    requires scriptAst.ScriptBlock?
    ensures r == ReferencesOf(scriptAst, FindReferencesVisitor.Config(foundSymbol, None))
  {
    var result := new ResultList();
    var referencesVisitor := new FindReferencesVisitor.FindReferencesVisitor(foundSymbol, result);
    var stopped := Walk(ReferencesWalker(referencesVisitor), scriptAst, []);
    return result.items;
  }

  /** The declaration of `symbolReference`: the first one the declaration visitor records. */
  method FindDefinitionOfSymbol(scriptAst: Node, symbolReference: SymbolReference) returns (r: Option<SymbolReference>)
    ensures r == DefinitionOf(scriptAst, symbolReference)
  {
    var result := new ResultList();
    var declarationVisitor := new FindDeclarationVisitor.FindDeclarationVisitor(symbolReference, result);
    assert declarationVisitor.AsConfig() == FindDeclarationVisitor.ConfigFor(symbolReference);
    ghost var v := Declaration(FindDeclarationVisitor.ConfigFor(symbolReference));
    assert Spec(DeclarationWalker(declarationVisitor)) == v;
    var stopped := Walk(DeclarationWalker(declarationVisitor), scriptAst, []);
    assert result.items == WalkNode(v, scriptAst, []).found;
    return FirstOrNone(result.items);
  }

  /** The symbols a document declares, for its outline. */
  method FindSymbolsInDocument(scriptAst: Node) returns (r: seq<SymbolReference>)
    ensures r == SymbolsInDocumentOf(scriptAst)
  {
    var result := new ResultList();
    var findSymbolsVisitor := new FindSymbolsVisitor.FindSymbolsVisitor(result);
    var stopped := Walk(DocumentSymbolsWalker(findSymbolsVisitor), scriptAst, []);
    return result.items;
  }

  /**
   * The symbol at the cursor is the first reference any visit finds, in
   * document order, and it starts on the cursor's line; a plain reference or
   * a property access also covers the cursor.
   */
  lemma SymbolAtPositionIsFirstHit(scriptAst: Node, lineNumber: int, columnNumber: int, includeFunctionDefinitions: bool)
    ensures var cfg := FindSymbolVisitor.Config(lineNumber, columnNumber, includeFunctionDefinitions);
            SymbolAtPositionOf(scriptAst, lineNumber, columnNumber, includeFunctionDefinitions)
            == FirstFound(Effects(SymbolAt(cfg), PreOrder(scriptAst, [])))
    ensures var r := SymbolAtPositionOf(scriptAst, lineNumber, columnNumber, includeFunctionDefinitions);
            r.Some? ==> r.value.region.startLine == lineNumber
                        && (r.value.payload.Plain? || r.value.payload.PropertyCall? ==>
                              FindSymbolVisitor.IsPositionInExtent(
                                FindSymbolVisitor.Config(lineNumber, columnNumber, includeFunctionDefinitions), r.value.region))
  {
    var cfg := FindSymbolVisitor.Config(lineNumber, columnNumber, includeFunctionDefinitions);
    var v := SymbolAt(cfg);
    var vs := PreOrder(scriptAst, []);
    var es := Effects(v, vs);
    WalkIsScan(v, scriptAst, []);
    forall i | 0 <= i < |es| ensures es[i].action == StopVisit ==> es[i].found != [] {
      assert es[i] == FindSymbolVisitor.Step(cfg, vs[i].node, vs[i].ancestors);
      FindSymbolVisitor.StepOnCursorLine(cfg, vs[i].node, vs[i].ancestors);
    }
    ScanFirst(es);
    var r := FirstFound(es);
    FirstFoundIsFirst(es);
    if r.Some? {
      var k :| 0 <= k < |es| && es[k].found != [] && r.value == es[k].found[0];
      assert es[k] == FindSymbolVisitor.Step(cfg, vs[k].node, vs[k].ancestors);
      FindSymbolVisitor.StepOnCursorLine(cfg, vs[k].node, vs[k].ancestors);
      FindSymbolVisitor.StepRegionCoversCursor(cfg, vs[k].node, vs[k].ancestors);
    }
  }

  /** One visit of the command walk: it appends one command name and stops exactly on a pipeline of the cursor's line with a hit. */
  lemma CommandStep(cfg: FindCommandVisitor.Config, n: Node, ancestors: seq<Node>)
    ensures var s := StepOf(CommandAt(cfg), n, ancestors);
            s.found != [] <==> n.Pipeline? && n.ext.startLine == cfg.lineNumber
                               && exists k :: 0 <= k < |n.elements| && FindCommandVisitor.IsHit(cfg, n.elements[k])
    ensures var s := StepOf(CommandAt(cfg), n, ancestors);
            s.found != [] ==>
              s.action == StopVisit
              && exists k :: 0 <= k < |n.elements| && FindCommandVisitor.IsHit(cfg, n.elements[k])
                             && s.found == [FromExtent(Function, n.elements[k].commandName.ext)]
    ensures StepOf(CommandAt(cfg), n, ancestors).found == [] ==> StepOf(CommandAt(cfg), n, ancestors).action == Continue
  {
    assert StepOf(CommandAt(cfg), n, ancestors) == FindCommandVisitor.Step(cfg, n, ancestors);
    FindCommandVisitor.StepFindsCommandName(cfg, n, ancestors);
  }

  /**
   * The command at the cursor is the first hit in document order: the name of
   * a command, in a pipeline on the cursor's line, whose columns reach the
   * cursor; nothing is found only when no such command exists. The walk
   * stops at it, so the result list never holds more than one.
   */
  lemma CommandAtPositionIsFirstHit(scriptAst: Node, lineNumber: int, columnNumber: int)
    ensures var cfg := FindCommandVisitor.Config(lineNumber, columnNumber);
            CommandAtPositionOf(scriptAst, lineNumber, columnNumber)
            == FirstFound(Effects(CommandAt(cfg), PreOrder(scriptAst, [])))
    ensures var cfg := FindCommandVisitor.Config(lineNumber, columnNumber);
            var r := CommandAtPositionOf(scriptAst, lineNumber, columnNumber);
            r.Some? <==> exists x <- PreOrder(scriptAst, []) ::
                           x.node.Pipeline? && x.node.ext.startLine == lineNumber
                           && exists k :: 0 <= k < |x.node.elements| && FindCommandVisitor.IsHit(cfg, x.node.elements[k])
    ensures var cfg := FindCommandVisitor.Config(lineNumber, columnNumber);
            var r := CommandAtPositionOf(scriptAst, lineNumber, columnNumber);
            r.Some? ==> exists x <- PreOrder(scriptAst, []) ::
                          x.node.Pipeline? && x.node.ext.startLine == lineNumber
                          && exists k :: 0 <= k < |x.node.elements| && FindCommandVisitor.IsHit(cfg, x.node.elements[k])
                                         && r.value == FromExtent(Function, x.node.elements[k].commandName.ext)
    ensures |WalkNode(CommandAt(FindCommandVisitor.Config(lineNumber, columnNumber)), scriptAst, []).found| <= 1
  {
    var cfg := FindCommandVisitor.Config(lineNumber, columnNumber);
    var v := CommandAt(cfg);
    var vs := PreOrder(scriptAst, []);
    var es := Effects(v, vs);
    WalkIsScan(v, scriptAst, []);
    forall i | 0 <= i < |es|
      ensures es[i].action == StopVisit ==> es[i].found != []
      ensures |es[i].found| <= 1 && (es[i].found != [] ==> es[i].action == StopVisit)
    {
      CommandStep(cfg, vs[i].node, vs[i].ancestors);
    }
    ScanFirst(es);
    ScanAtMostOne(es);
    var r := FirstFound(es);
    FirstFoundIsFirst(es);
    if r.Some? {
      var k :| 0 <= k < |es| && es[k].found != [] && r.value == es[k].found[0];
      CommandStep(cfg, vs[k].node, vs[k].ancestors);
      assert vs[k] in vs;
    } else {
      forall x | x in vs
        ensures !(x.node.Pipeline? && x.node.ext.startLine == lineNumber
                  && exists k :: 0 <= k < |x.node.elements| && FindCommandVisitor.IsHit(cfg, x.node.elements[k]))
      {
        var i :| 0 <= i < |vs| && vs[i] == x;
        CommandStep(cfg, x.node, x.ancestors);
      }
    }
  }

  /** One visit of the declaration walk: it appends nothing and goes on, or one declaration of the symbol's kind and stops. */
  lemma DeclarationStep(cfg: FindDeclarationVisitor.Config, n: Node, ancestors: seq<Node>)
    requires cfg == FindDeclarationVisitor.ConfigFor(cfg.symbolRef)
    ensures var s := StepOf(Declaration(cfg), n, ancestors);
            (s.found == [] <==> s.action == Continue) && |s.found| <= 1
            && forall r <- s.found :: r.kind == cfg.symbolRef.kind || (cfg.symbolRef.kind == Method && r.kind == Constructor)
  {
    assert StepOf(Declaration(cfg), n, ancestors) == FindDeclarationVisitor.Step(cfg, n, ancestors);
    FindDeclarationVisitor.StepFindsOneOfSameKind(cfg, n, ancestors);
  }

  /**
   * The definition found is the first declaration in document order that the
   * declaration visitor accepts; it has the symbol's kind, except that a
   * method can be defined by a constructor. The walk stops at it, so the
   * result list never holds more than one.
   */
  lemma DefinitionIsFirstDeclaration(scriptAst: Node, symbolReference: SymbolReference)
    ensures var cfg := FindDeclarationVisitor.ConfigFor(symbolReference);
            DefinitionOf(scriptAst, symbolReference) == FirstFound(Effects(Declaration(cfg), PreOrder(scriptAst, [])))
    ensures var r := DefinitionOf(scriptAst, symbolReference);
            r.Some? ==> r.value.kind == symbolReference.kind || (symbolReference.kind == Method && r.value.kind == Constructor)
    ensures |WalkNode(Declaration(FindDeclarationVisitor.ConfigFor(symbolReference)), scriptAst, []).found| <= 1
  {
    var cfg := FindDeclarationVisitor.ConfigFor(symbolReference);
    var v := Declaration(cfg);
    var vs := PreOrder(scriptAst, []);
    var es := Effects(v, vs);
    WalkIsScan(v, scriptAst, []);
    forall i | 0 <= i < |es|
      ensures es[i].action == StopVisit ==> es[i].found != []
      ensures |es[i].found| <= 1 && (es[i].found != [] ==> es[i].action == StopVisit)
    {
      DeclarationStep(cfg, vs[i].node, vs[i].ancestors);
    }
    ScanFirst(es);
    ScanAtMostOne(es);
    var r := FirstFound(es);
    FirstFoundIsFirst(es);
    if r.Some? {
      var k :| 0 <= k < |es| && es[k].found != [] && r.value == es[k].found[0];
      DeclarationStep(cfg, vs[k].node, vs[k].ancestors);
    }
  }

  /** A visitor that never stops the walk collects what each visit appends, over the whole tree. */
  lemma WalkCollectsAll(v: Visitor, scriptAst: Node)
    requires forall x <- PreOrder(scriptAst, []) :: StepOf(v, x.node, x.ancestors).action == Continue
    ensures WalkNode(v, scriptAst, []) == Outcome(FoundAll(Effects(v, PreOrder(scriptAst, []))), false)
    ensures forall r <- FoundAll(Effects(v, PreOrder(scriptAst, []))) ::
              exists x <- PreOrder(scriptAst, []) :: r in StepOf(v, x.node, x.ancestors).found
  {
    var vs := PreOrder(scriptAst, []);
    var es := Effects(v, vs);
    WalkIsScan(v, scriptAst, []);
    assert NeverStops(es) by {
      forall i | 0 <= i < |es| ensures es[i].action == Continue {
        assert vs[i] in vs;
      }
    }
    ScanWithoutStop(es);
    ScanFoundComesFromVisits(es);
    forall r <- FoundAll(es) ensures exists x <- vs :: r in StepOf(v, x.node, x.ancestors).found {
      var i :| 0 <= i < |es| && r in es[i].found;
      assert vs[i] in vs;
    }
  }

  /** One visit of the reference walk: it goes on, and appends only well-kinded references of the symbol's kind. */
  lemma ReferencesStep(cfg: FindReferencesVisitor.Config, n: Node, ancestors: seq<Node>)
    requires WellKinded(cfg.symbolRef)
    ensures StepOf(References(cfg), n, ancestors).action == Continue
    ensures forall r <- StepOf(References(cfg), n, ancestors).found ::
              WellKinded(r) && FindReferencesVisitor.SameKind(r.kind, cfg.symbolRef.kind)
  {
    assert StepOf(References(cfg), n, ancestors) == FindReferencesVisitor.Step(cfg, n, ancestors);
    FindReferencesVisitor.StepKeepsKind(cfg, n, ancestors);
  }

  /**
   * The reference search visits the whole tree and keeps every reference any
   * visit finds; for a well-kinded symbol each of them is well-kinded and of
   * the symbol's kind, methods and constructors counting as one.
   */
  lemma ReferencesAreAllOfSameKind(scriptAst: Node, cfg: FindReferencesVisitor.Config)
    requires WellKinded(cfg.symbolRef)
    ensures ReferencesOf(scriptAst, cfg) == FoundAll(Effects(References(cfg), PreOrder(scriptAst, [])))
    ensures forall r <- ReferencesOf(scriptAst, cfg) ::
              WellKinded(r) && FindReferencesVisitor.SameKind(r.kind, cfg.symbolRef.kind)
  {
    var v := References(cfg);
    forall x <- PreOrder(scriptAst, []) ensures StepOf(v, x.node, x.ancestors).action == Continue {
      ReferencesStep(cfg, x.node, x.ancestors);
    }
    WalkCollectsAll(v, scriptAst);
    forall r <- ReferencesOf(scriptAst, cfg)
      ensures WellKinded(r) && FindReferencesVisitor.SameKind(r.kind, cfg.symbolRef.kind)
    {
      var x :| x in PreOrder(scriptAst, []) && r in StepOf(v, x.node, x.ancestors).found;
      ReferencesStep(cfg, x.node, x.ancestors);
    }
  }

  /** Every reference found without aliases is found again in the same place of the walk with them. */
  lemma {:induction false} FoundAllWithAliases(symbolRef: SymbolReference, a: FindReferencesVisitor.Aliases, vs: seq<Visitee>)
    ensures forall r <- FoundAll(Effects(References(FindReferencesVisitor.Config(symbolRef, None)), vs)) ::
              r in FoundAll(Effects(References(FindReferencesVisitor.Config(symbolRef, Some(a))), vs))
  {
    if vs != [] {
      var plain := FindReferencesVisitor.Config(symbolRef, None);
      var aliased := FindReferencesVisitor.Config(symbolRef, Some(a));
      var es := Effects(References(plain), vs);
      var fs := Effects(References(aliased), vs);
      assert es[1..] == Effects(References(plain), vs[1..]);
      assert fs[1..] == Effects(References(aliased), vs[1..]);
      assert es[0] == FindReferencesVisitor.Step(plain, vs[0].node, vs[0].ancestors);
      assert fs[0] == FindReferencesVisitor.Step(aliased, vs[0].node, vs[0].ancestors);
      FindReferencesVisitor.AliasesOnlyAdd(symbolRef, a, vs[0].node, vs[0].ancestors);
      FoundAllWithAliases(symbolRef, a, vs[1..]);
    }
  }

  /** The alias-aware search finds every reference the plain search finds, and maybe more. */
  lemma AliasesOnlyAddReferences(scriptAst: Node, symbolReference: SymbolReference,
                                 cmdletToAlias: map<string, seq<string>>, aliasToCmdlet: map<string, string>)
    requires WellKinded(symbolReference)
    ensures forall r <- ReferencesOf(scriptAst, FindReferencesVisitor.Config(symbolReference, None)) ::
              r in ReferencesOf(scriptAst, FindReferencesVisitor.ConfigWithAliases(symbolReference, cmdletToAlias, aliasToCmdlet))
  {
    var withAliases := FindReferencesVisitor.ConfigWithAliases(symbolReference, cmdletToAlias, aliasToCmdlet);
    ReferencesAreAllOfSameKind(scriptAst, FindReferencesVisitor.Config(symbolReference, None));
    ReferencesAreAllOfSameKind(scriptAst, withAliases);
    FoundAllWithAliases(symbolReference, withAliases.aliases.value, PreOrder(scriptAst, []));
  }

  /** One visit of the document-symbol walk: it goes on, and appends only well-kinded symbols of a declaration. */
  lemma DocumentSymbolsStep(n: Node, ancestors: seq<Node>)
    ensures StepOf(DocumentSymbols, n, ancestors).action == Continue
    ensures forall r <- StepOf(DocumentSymbols, n, ancestors).found ::
              WellKinded(r) && r in FindSymbolsVisitor.Step(n, ancestors).found
              && FindSymbolsVisitor.IsDeclaration(n, ancestors)
  {
    var s := FindSymbolsVisitor.Step(n, ancestors);
    assert StepOf(DocumentSymbols, n, ancestors) == s;
    FindSymbolsVisitor.StepCollectsDeclarations(n, ancestors);
  }

  /**
   * The document's symbols are everything the symbol collector finds over the
   * whole tree, each a well-kinded reference appended by the visit of a
   * declaration.
   */
  lemma SymbolsInDocumentAreDeclarations(scriptAst: Node)
    ensures SymbolsInDocumentOf(scriptAst) == FoundAll(Effects(DocumentSymbols, PreOrder(scriptAst, [])))
    ensures forall r <- SymbolsInDocumentOf(scriptAst) :: WellKinded(r)
    ensures forall r <- SymbolsInDocumentOf(scriptAst) ::
              exists x <- PreOrder(scriptAst, []) :: r in FindSymbolsVisitor.Step(x.node, x.ancestors).found
                                                     && FindSymbolsVisitor.IsDeclaration(x.node, x.ancestors)
  {
    var vs := PreOrder(scriptAst, []);
    forall x <- vs ensures StepOf(DocumentSymbols, x.node, x.ancestors).action == Continue {
      DocumentSymbolsStep(x.node, x.ancestors);
    }
    WalkCollectsAll(DocumentSymbols, scriptAst);
    forall r <- SymbolsInDocumentOf(scriptAst)
      ensures WellKinded(r)
      ensures exists x <- vs :: r in FindSymbolsVisitor.Step(x.node, x.ancestors).found
                                && FindSymbolsVisitor.IsDeclaration(x.node, x.ancestors)
    {
      var x :| x in vs && r in StepOf(DocumentSymbols, x.node, x.ancestors).found;
      DocumentSymbolsStep(x.node, x.ancestors);
    }
  }

  /** One visit of the hashtable-key walk: it goes on, and appends only `HashtableKey` references. */
  lemma HashtableKeysStep(n: Node, ancestors: seq<Node>)
    ensures StepOf(HashtableKeys, n, ancestors).action == Continue
    ensures forall r <- StepOf(HashtableKeys, n, ancestors).found :: r.kind == HashtableKey && r.payload.Plain?
  {
    assert StepOf(HashtableKeys, n, ancestors) == FindSymbolsVisitor.HashtableStep(n);
    FindSymbolsVisitor.HashtableStepFindsKeys(n);
  }

  /**
   * The hashtable-key visitor walks the whole tree and keeps the key symbols
   * of every hashtable, each a `HashtableKey` reference named by a
   * string-constant key.
   */
  lemma HashtableKeysAreAllFound(ast: Node)
    ensures WalkNode(HashtableKeys, ast, []) == Outcome(FoundAll(Effects(HashtableKeys, PreOrder(ast, []))), false)
    ensures forall r <- WalkNode(HashtableKeys, ast, []).found :: r.kind == HashtableKey && r.payload.Plain?
  {
    forall x <- PreOrder(ast, []) ensures StepOf(HashtableKeys, x.node, x.ancestors).action == Continue {
      HashtableKeysStep(x.node, x.ancestors);
    }
    WalkCollectsAll(HashtableKeys, ast);
    forall r <- WalkNode(HashtableKeys, ast, []).found ensures r.kind == HashtableKey && r.payload.Plain? {
      var x :| x in PreOrder(ast, []) && r in StepOf(HashtableKeys, x.node, x.ancestors).found;
      HashtableKeysStep(x.node, x.ancestors);
    }
  }

  /** The node types the data-file heuristic expects, level by level. */
  datatype NodeType = ScriptBlockAst | NamedBlockAst | PipelineAst | CommandExpressionAst | HashtableAst

  /** `node.GetType().Equals(t)`. */
  predicate HasType(n: Node, t: NodeType) {
    match t
    case ScriptBlockAst => n.ScriptBlock?
    case NamedBlockAst => n.NamedBlock?
    case PipelineAst => n.Pipeline?
    case CommandExpressionAst => n.CommandExpression?
    case HashtableAst => n.Hashtable?
  }

  /** The shape of a `.psd1` file's tree, from its root down to the hashtable. */
  const DataFileLevels: seq<NodeType> := [ScriptBlockAst, NamedBlockAst, PipelineAst, CommandExpressionAst, HashtableAst]

  /**
   * Whether `n` has the type of level `level`, and, below the last level, one
   * of its direct children matches the next level.
   */
  predicate MatchesFromLevel(n: Node, levelAstMap: seq<NodeType>, level: nat)
    requires level < |levelAstMap|
    decreases n
  {
    HasType(n, levelAstMap[level])
    && (level == |levelAstMap| - 1 || exists c <- Children(n) :: MatchesFromLevel(c, levelAstMap, level + 1))
  }

  /** Whether a tree has the shape of a data file's. */
  predicate IsDataFile(ast: Node) {
    MatchesFromLevel(ast, DataFileLevels, 0)
  }

  /** Whether `ast` is the root of a `.psd1` data file, judged by the shape of its tree alone. */
  method IsPowerShellDataFileAst(ast: Node) returns (b: bool)
    ensures b == IsDataFile(ast)
  {
    b := IsPowerShellDataFileAstNode(ast, DataFileLevels, 0);
  }

  /**
   * Checks `node` against level `level` and, below the last level, searches
   * its direct children for one that matches the next level.
   */
  method IsPowerShellDataFileAstNode(node: Node, levelAstMap: seq<NodeType>, level: nat) returns (b: bool)
    requires level < |levelAstMap|
    ensures b == MatchesFromLevel(node, levelAstMap, level)
    decreases node
  {
    var levelAstTypeMatch := HasType(node, levelAstMap[level]);
    if !levelAstTypeMatch {
      return false;
    }
    if level == |levelAstMap| - 1 {
      return levelAstTypeMatch;
    }
    // The nodes found below `node` whose parent is `node`: its direct children, in order.
    var astsFound := Children(node);
    var i := 0;
    while i < |astsFound|
      invariant 0 <= i <= |astsFound|
      invariant forall j :: 0 <= j < i ==> !MatchesFromLevel(astsFound[j], levelAstMap, level + 1)
    {
      assert astsFound[i] in astsFound;
      var childMatches := IsPowerShellDataFileAstNode(astsFound[i], levelAstMap, level + 1);
      if childMatches {
        return true;
      }
      i := i + 1;
    }
    return false;
  }

  /**
   * A tree has a data file's shape exactly when it is a script block with a
   * named block, holding a pipeline, holding a command expression whose
   * expression is a hashtable.
   */
  lemma DataFileIsChain(ast: Node)
    ensures IsDataFile(ast) <==>
              ast.ScriptBlock?
              && exists nb <- Children(ast) ::
                   nb.NamedBlock?
                   && exists p <- Children(nb) ::
                        p.Pipeline? && exists ce <- Children(p) :: ce.CommandExpression? && ce.expression.Hashtable?
  {
    forall ce: Node
      ensures MatchesFromLevel(ce, DataFileLevels, 3) <==> ce.CommandExpression? && ce.expression.Hashtable?
    {
      assert DataFileLevels[3] == CommandExpressionAst && DataFileLevels[4] == HashtableAst;
      if ce.CommandExpression? {
        assert Children(ce) == [ce.expression];
        assert ce.expression in Children(ce);
        assert MatchesFromLevel(ce.expression, DataFileLevels, 4) <==> ce.expression.Hashtable?;
      }
    }
    forall p: Node
      ensures MatchesFromLevel(p, DataFileLevels, 2) <==>
                p.Pipeline? && exists ce <- Children(p) :: ce.CommandExpression? && ce.expression.Hashtable?
    {
    }
    forall nb: Node
      ensures MatchesFromLevel(nb, DataFileLevels, 1) <==>
                nb.NamedBlock?
                && exists p <- Children(nb) ::
                     p.Pipeline? && exists ce <- Children(p) :: ce.CommandExpression? && ce.expression.Hashtable?
    {
    }
  }

  /** A manifest's tree: `@{ ... }` as the only statement of a script. */
  lemma ManifestIsDataFile(e: Extent, table: Node)
    requires table.Hashtable?
    ensures IsDataFile(ScriptBlock(e, [NamedBlock(e, [Pipeline(e, [CommandExpression(e, table)])])]))
  {
    var ce := CommandExpression(e, table);
    var p := Pipeline(e, [ce]);
    var nb := NamedBlock(e, [p]);
    DataFileIsChain(ScriptBlock(e, [nb]));
    assert nb in Children(ScriptBlock(e, [nb]));
    assert p in Children(nb);
    assert ce in Children(p);
  }

  /** A script whose pipeline runs a command is not a data file, whatever the command's arguments. */
  lemma CommandScriptIsNotDataFile(e: Extent, command: Node)
    requires command.Command?
    ensures !IsDataFile(ScriptBlock(e, [NamedBlock(e, [Pipeline(e, [command])])]))
  {
    DataFileIsChain(ScriptBlock(e, [NamedBlock(e, [Pipeline(e, [command])])]));
  }

  /**
   * The shape of a script `class C { [T] M() { } }` followed by `function F { }`:
   * the class's only member is a method without parameters whose hidden
   * definition has an empty body, and the function has no parameters and an
   * empty body.
   */
  predicate ClassThenFunction(script: Node, nb: Node, cls: Node, fm: Node, fn: Node) {
    script.ScriptBlock? && script.children == [nb]
    && nb.NamedBlock? && nb.children == [cls, fn]
    && cls.TypeDefinition? && cls.children == [fm]
    && fm.FunctionMember? && fm.definition.FunctionDefinition? && fm.definition.parameters == []
    && fm.definition.body.ScriptBlock? && fm.definition.body.children == []
    && fn.FunctionDefinition? && fn.parameters == [] && fn.body.ScriptBlock? && fn.body.children == []
  }

  /** A function without parameters and with an empty body walks as its own visit, if neither visit stops. */
  lemma EmptyFunctionWalk(v: Visitor, fn: Node, ancestors: seq<Node>)
    requires fn.FunctionDefinition? && fn.parameters == [] && fn.body.ScriptBlock? && fn.body.children == []
    requires StepOf(v, fn.body, [fn] + ancestors) == Pass()
    requires StepOf(v, fn, ancestors).action == Continue
    ensures WalkNode(v, fn, ancestors) == Outcome(StepOf(v, fn, ancestors).found, false)
  {
    assert Children(fn) == [fn.body];
    WalkLeaf(v, fn.body, [fn] + ancestors);
    WalkOneChild(v, fn, ancestors);
    assert StepOf(v, fn, ancestors).found + [] == StepOf(v, fn, ancestors).found;
  }

  /** In the document-symbol walk the class of `ClassThenFunction` yields itself, then its method once. */
  lemma ClassListsItselfAndMethod(script: Node, nb: Node, cls: Node, fm: Node, fn: Node)
    requires ClassThenFunction(script, nb, cls, fm, fn)
    ensures WalkNode(DocumentSymbols, cls, [nb, script])
            == Outcome([ClassDefinitionSymbolReference.Create(cls), MethodSymbolReference.Create(fm, [cls, nb, script])], false)
  {
    var v := DocumentSymbols;
    var a2 := [nb, script];
    var a3 := [cls] + a2;
    assert a3 == [cls, nb, script];
    var def := fm.definition;
    assert StepOf(v, def.body, [def] + ([fm] + a3)) == Pass();
    FindSymbolsVisitor.MethodCollectedOnce(fm, a3);
    assert StepOf(v, def, [fm] + a3) == Pass();
    EmptyFunctionWalk(v, def, [fm] + a3);
    assert StepOf(v, fm, a3) == Collect(MethodSymbolReference.Create(fm, a3));
    WalkOneChild(v, fm, a3);
    assert StepOf(v, cls, a2) == Collect(ClassDefinitionSymbolReference.Create(cls));
    WalkOneChild(v, cls, a2);
  }

  /**
   * `class C { [void] Go() { } }` then `function Go { }`: the search for the
   * declaration of a function `Go` stops at the method's hidden definition,
   * before it reaches the function.
   */
  lemma DefinitionStopsAtMethodDefinition(script: Node, nb: Node, cls: Node, fm: Node, fn: Node, sym: SymbolReference)
    requires ClassThenFunction(script, nb, cls, fm, fn)
    requires sym.kind == Function && EqualsIgnoreCase(MethodName(fm), sym.region.text)
    ensures DefinitionOf(script, sym) == Some(FromExtent(Function, FindDeclarationVisitor.FunctionNameExtent(fm.definition)))
  {
    var cfg := FindDeclarationVisitor.ConfigFor(sym);
    var v := Declaration(cfg);
    var a1 := [script];
    var a2 := [nb] + a1;
    var a3 := [cls] + a2;
    FindDeclarationVisitor.MethodDefinitionAnswersFunction(cfg, fm, a3);
    assert StepOf(v, fm.definition, [fm] + a3) == FindDeclarationVisitor.Step(cfg, fm.definition, [fm] + a3);
    WalkStopsAtVisit(v, fm.definition, [fm] + a3);
    assert StepOf(v, fm, a3) == FindDeclarationVisitor.Step(cfg, fm, a3);
    WalkStopsInFirstChild(v, fm, a3);
    assert StepOf(v, cls, a2) == Pass();
    WalkStopsInFirstChild(v, cls, a2);
    assert StepOf(v, nb, a1) == Pass();
    WalkStopsInFirstChild(v, nb, a1);
    assert StepOf(v, script, []) == Pass();
    assert [script] + [] == a1;
    WalkStopsInFirstChild(v, script, []);
  }

  /**
   * The document symbols of `class C { [T] M() { } }` then `function F { }`
   * are the class, the method once (its hidden definition is skipped), and
   * the function.
   */
  lemma MethodListedOnce(script: Node, nb: Node, cls: Node, fm: Node, fn: Node)
    requires ClassThenFunction(script, nb, cls, fm, fn)
    ensures SymbolsInDocumentOf(script)
            == [ClassDefinitionSymbolReference.Create(cls),
                MethodSymbolReference.Create(fm, [cls, nb, script]),
                FindSymbolsVisitor.FunctionSymbol(fn)]
  {
    var v := DocumentSymbols;
    var a1 := [script];
    var a2 := [nb] + a1;
    assert a2 == [nb, script];
    ClassListsItselfAndMethod(script, nb, cls, fm, fn);
    assert StepOf(v, fn.body, [fn] + a2) == Pass();
    assert StepOf(v, fn, a2) == Collect(FindSymbolsVisitor.FunctionSymbol(fn));
    EmptyFunctionWalk(v, fn, a2);
    assert StepOf(v, nb, a1) == Pass();
    WalkTwoChildren(v, nb, a1);
    assert StepOf(v, script, []) == Pass();
    assert [script] + [] == a1;
    WalkOneChild(v, script, []);
  }

  /**
   * The references of a function `Go` in `class C { [void] Go() { } }` then
   * `function Go { }` are the method's hidden definition and the function, in
   * that order.
   */
  lemma ReferencesIncludeMethodDefinition(script: Node, nb: Node, cls: Node, fm: Node, fn: Node, sym: SymbolReference)
    requires ClassThenFunction(script, nb, cls, fm, fn)
    requires sym.kind == Function && EqualsIgnoreCase(MethodName(fm), sym.name) && EqualsIgnoreCase(fn.name, sym.name)
    ensures ReferencesOf(script, FindReferencesVisitor.Config(sym, None))
            == [FromExtent(Function, FindReferencesVisitor.FunctionNameExtent(fm.definition)),
                FromExtent(Function, FindReferencesVisitor.FunctionNameExtent(fn))]
  {
    var cfg := FindReferencesVisitor.Config(sym, None);
    var v := References(cfg);
    var a1 := [script];
    var a2 := [nb] + a1;
    var a3 := [cls] + a2;
    var def := fm.definition;
    var m := FromExtent(Function, FindReferencesVisitor.FunctionNameExtent(def));
    var f := FromExtent(Function, FindReferencesVisitor.FunctionNameExtent(fn));
    // The method's hidden definition.
    assert StepOf(v, def.body, [def, fm] + a3) == Pass();
    WalkLeaf(v, def.body, [def] + ([fm] + a3));
    FindReferencesVisitor.MethodDefinitionIsFunctionReference(cfg, fm, a3);
    assert StepOf(v, def, [fm] + a3) == Collect(m);
    WalkOneChild(v, def, [fm] + a3);
    // The method and the class add nothing of their own.
    assert StepOf(v, fm, a3) == Pass();
    WalkOneChild(v, fm, a3);
    assert StepOf(v, cls, a2) == Pass();
    WalkOneChild(v, cls, a2);
    assert WalkNode(v, cls, a2).found == [m];
    // The function.
    assert StepOf(v, fn.body, [fn] + a2) == Pass();
    WalkLeaf(v, fn.body, [fn] + a2);
    assert StepOf(v, fn, a2) == Collect(f);
    WalkOneChild(v, fn, a2);
    assert WalkNode(v, fn, a2).found == [f];
    // The block and the script.
    assert StepOf(v, nb, a1) == Pass();
    WalkTwoChildren(v, nb, a1);
    assert StepOf(v, script, []) == Pass();
    assert [script] + [] == a1;
    WalkOneChild(v, script, []);
  }
}
