/**
 * `SymbolReference` and its kinds. The base record carries a kind, a name and
 * the extent of the name (`ScriptRegion`); the six derived reference classes
 * add the metadata held in `Payload`, and the runtime class of a reference
 * (which the visitors test with `is`) is the payload's constructor.
 */
module Symbols {
  import opened Ast

  /** `SymbolType`. */
  datatype SymbolType =
    | Unknown | Variable | Function | Parameter | Configuration | Workflow
    | HashtableKey | Class | Method | Property | Constructor

  /** The class of a reference and the fields that class adds to the base record. */
  datatype Payload =
      /** A plain `SymbolReference`. */
    | Plain
      /** `ClassSymbolReference`: a use of a class name in a type expression. */
    | ClassRef
      /** `ClassDefinitionSymbolReference`: a class declaration. */
    | ClassDefinition
      /** `MethodCallReference`: a method or constructor call; one `arguments`
        * entry (the static type name) per call argument. */
    | MethodCall(memberOfType: string, arguments: seq<string>, isStatic: bool)
      /** `MethodSymbolReference`: a method or constructor declaration. */
    | MethodSymbol(memberOfType: string, signature: string, parameterTypes: seq<string>,
                   signatureName: string, returnType: string, isConstructor: bool, isStatic: bool)
      /** `PropertyCallReference`: a property access. */
    | PropertyCall(memberOfType: string, returnType: string, isStatic: bool)
      /** `PropertySymbolReference`: a property declaration. */
    | PropertySymbol(memberOfType: string, returnType: string, isStatic: bool)

  /** `SymbolReference`: kind, `SymbolName`, `ScriptRegion` and the class-specific fields. */
  datatype SymbolReference = SymbolReference(kind: SymbolType, name: string, region: Extent, payload: Payload)

  /** `new SymbolReference(kind, extent)`: a plain reference named by the extent's text. */
  function FromExtent(kind: SymbolType, ext: Extent): (r: SymbolReference)
    ensures r.kind == kind && r.region == ext && r.payload.Plain?
    ensures r.name == ext.text
  {
    SymbolReference(kind, ext.text, ext, Plain)
  }

  /**
   * The kind of a reference agrees with its class: class references are
   * `Class`, method references `Method` or `Constructor`, property
   * references `Property`; a plain reference may have any kind.
   */
  predicate WellKinded(r: SymbolReference) {
    match r.payload
    case Plain => true
    case ClassRef => r.kind == Class
    case ClassDefinition => r.kind == Class
    case MethodCall(_, _, _) => r.kind == Method || r.kind == Constructor
    case MethodSymbol(_, _, _, _, _, _, _) => r.kind == Method || r.kind == Constructor
    case PropertyCall(_, _, _) => r.kind == Property
    case PropertySymbol(_, _, _) => r.kind == Property
  }

  /**
   * `DisplayString`: a method declaration shows its signature name, a property
   * declaration its type, owner and name; every other reference shows its name.
   */
  function DisplayString(r: SymbolReference): string {
    match r.payload
    case MethodSymbol(_, _, _, signatureName, _, _, _) => signatureName
    case PropertySymbol(memberOfType, returnType, _) => returnType + " " + memberOfType + "." + r.name
    case _ => r.name
  }
}
