/**
 * `SymbolDetails.Create`: the hover text of a symbol. A switch on the
 * symbol's kind chooses the display string; only a function needs the
 * command lookup, which is an input here.
 */
module SymbolDetails {
  import opened Wrappers
  import opened Ast
  import opened Symbols
  import MethodSymbolReference
  import PropertySymbolReference

  /** What the command lookup returns for a function's name: nothing, an application, or any other command. */
  datatype CommandInfo = NoCommandInfo | ApplicationCommand | OtherCommand

  /** The symbol the details were gathered for and its display string, which may be left unset. */
  datatype SymbolDetails = SymbolDetails(symbolReference: SymbolReference, displayString: Option<string>)

  /** The kinds that get a display string. */
  predicate HasDisplayString(kind: SymbolType) {
    kind in {SymbolType.Variable, Function, SymbolType.Parameter, Class, Method, Property}
  }

  /** The details of `symbolReference`, given what the command lookup returns for its name. */
  function Create(symbolReference: SymbolReference, commandInfo: CommandInfo): (d: SymbolDetails)
    ensures d.symbolReference == symbolReference
    ensures d.displayString.Some? <==> HasDisplayString(symbolReference.kind)
  {
    var name := symbolReference.name;
    var displayString :=
      match symbolReference.kind
      case Unknown => None
      case Variable => Some(name)
      case Function =>
        if commandInfo == ApplicationCommand then Some("(application) " + name) else Some("function " + name)
      case Parameter => Some("(parameter) " + name)
      case Configuration => None
      case Workflow => None
      case HashtableKey => None
      case Class => Some("(class) " + name)
      case Method => Some(DisplayString(symbolReference))
      case Property => Some(DisplayString(symbolReference))
      case Constructor => None;
    SymbolDetails(symbolReference, displayString)
  }

  /**
   * Variables, functions, parameters and classes show their name, after a
   * prefix that tells the kinds apart: none for a variable, `function ` or
   * `(application) ` for a command, `(parameter) ` and `(class) `.
   */
  lemma NamedKindsShowPrefixAndName(symbolReference: SymbolReference, commandInfo: CommandInfo)
    requires symbolReference.kind in {SymbolType.Variable, Function, SymbolType.Parameter, Class}
    ensures var s := Create(symbolReference, commandInfo).displayString.value;
            exists prefix <- {"", "function ", "(application) ", "(parameter) ", "(class) "} ::
              s == prefix + symbolReference.name
              && (prefix == "" <==> symbolReference.kind == SymbolType.Variable)
              && (prefix == "(parameter) " <==> symbolReference.kind == SymbolType.Parameter)
              && (prefix == "(class) " <==> symbolReference.kind == Class)
  {
    var s := Create(symbolReference, commandInfo).displayString.value;
    var name := symbolReference.name;
    match symbolReference.kind {
      case Variable => assert s == "" + name;
      case Function =>
        if commandInfo == ApplicationCommand {
          assert s == "(application) " + name;
        } else {
          assert s == "function " + name;
        }
      case Parameter => assert s == "(parameter) " + name;
      case Class => assert s == "(class) " + name;
    }
  }

  /** The command lookup changes the display string only by telling an application from any other command. */
  lemma OnlyApplicationsDiffer(symbolReference: SymbolReference)
    ensures Create(symbolReference, NoCommandInfo) == Create(symbolReference, OtherCommand)
    ensures symbolReference.kind != Function ==> Create(symbolReference, ApplicationCommand) == Create(symbolReference, OtherCommand)
    ensures symbolReference.kind == Function ==>
              Create(symbolReference, ApplicationCommand).displayString.value
              == "(application) " + Create(symbolReference, OtherCommand).displayString.value[|"function "|..]
  {
  }

  /**
   * A method declaration shows its signature name, `Name(T, U)`; a constructor
   * declaration shows nothing.
   */
  lemma MethodDeclarationShowsSignature(fm: Node, ancestors: seq<Node>, commandInfo: CommandInfo)
    requires fm.FunctionMember?
    ensures var d := Create(MethodSymbolReference.Create(fm, ancestors), commandInfo);
            !fm.isConstructor ==> d.displayString == Some(MethodSymbolReference.GetSignatureName(fm))
    ensures fm.isConstructor ==> Create(MethodSymbolReference.Create(fm, ancestors), commandInfo).displayString.None?
  {
  }

  /** A property declaration shows its type, then the class and the property's name: `T Owner.Name`. */
  lemma PropertyDeclarationShowsTypeAndOwner(pm: Node, ancestors: seq<Node>, commandInfo: CommandInfo)
    requires pm.PropertyMember?
    ensures var r := PropertySymbolReference.Create(pm, ancestors);
            Create(r, commandInfo).displayString == Some(r.payload.returnType + " " + r.payload.memberOfType + "." + pm.name)
  {
  }
}
