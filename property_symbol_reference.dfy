/** `PropertySymbolReference`: a property declared in a class. */
module PropertySymbolReference {
  import opened Wrappers
  import opened Text
  import opened Ast
  import opened AstHelpers
  import opened Symbols

  /**
   * `GetNameExtent`: on the member's lines, starting at the member's start
   * column plus the first index of the name in the member text, and spanning
   * the name's length.
   */
  function NameExtent(pm: Node): (e: Extent)
    requires pm.PropertyMember?
    ensures e.text == pm.name
    ensures e.startLine == pm.ext.startLine && e.endLine == pm.ext.endLine
    ensures var k := e.startColumn - pm.ext.startColumn;
            (k == -1 && Absent(pm.ext.text, pm.name)) || FirstOccurrence(pm.ext.text, pm.name, k)
    ensures e.endColumn - e.startColumn == |pm.name|
  {
    var start := pm.ext.startColumn;
    var index := IndexOf(pm.ext.text, pm.name);
    Extent(pm.ext.startLine, start + index, pm.ext.endLine, start + index + |pm.name|, pm.name)
  }

  /** The constructor of a `PropertySymbolReference` for a member whose parents are `ancestors`. */
  function Create(pm: Node, ancestors: seq<Node>): (r: SymbolReference)
    requires pm.PropertyMember?
    ensures r.kind == Property && r.name == pm.name && r.region == NameExtent(pm)
    ensures r.payload.PropertySymbol?
    ensures r.payload.memberOfType == EnclosingTypeName(ancestors)
    ensures pm.propertyType.Some? ==> r.payload.returnType == pm.propertyType.value
    ensures pm.propertyType.None? ==> r.payload.returnType == "object"
    ensures r.payload.isStatic == pm.isStatic
    ensures DisplayString(r) == r.payload.returnType + " " + r.payload.memberOfType + "." + pm.name
  {
    SymbolReference(Property, pm.name, NameExtent(pm),
                    PropertySymbol(MemberClassName(pm, ancestors), pm.propertyType.GetOr("object"), pm.isStatic))
  }

  /**
   * When the name occurs in the member text, as the parser guarantees, the
   * region covers exactly its first occurrence.
   */
  lemma RegionCoversName(pm: Node, ancestors: seq<Node>)
    requires pm.PropertyMember? && !Absent(pm.ext.text, pm.name)
    ensures var r := Create(pm, ancestors).region;
            OccursAt(pm.ext.text, pm.name, r.startColumn - pm.ext.startColumn)
            && r.endColumn == r.startColumn + |pm.name|
  {
  }
}
