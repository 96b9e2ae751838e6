/** `ClassDefinitionSymbolReference`: a class declaration `class Foo { ... }`. */
module ClassDefinitionSymbolReference {
  import opened Text
  import opened Ast
  import opened Symbols

  /**
   * `GetNameExtent`: on the definition's lines, starting at the definition's
   * start column plus the first index of the name in the definition text, and
   * ending at the definition's start column plus its end column.
   */
  function NameExtent(td: Node): (e: Extent)
    requires td.TypeDefinition?
    ensures e.text == td.name
    ensures e.startLine == td.ext.startLine && e.endLine == td.ext.endLine
    ensures var k := e.startColumn - td.ext.startColumn;
            (k == -1 && Absent(td.ext.text, td.name)) || FirstOccurrence(td.ext.text, td.name, k)
    ensures e.endColumn == td.ext.startColumn + td.ext.endColumn
  {
    var start := td.ext.startColumn;
    var index := IndexOf(td.ext.text, td.name);
    Extent(td.ext.startLine, start + index, td.ext.endLine, start + td.ext.endColumn, td.name)
  }

  /** The constructor: a `Class` reference named by the definition's name. */
  function Create(td: Node): (r: SymbolReference)
    requires td.TypeDefinition?
    ensures r.kind == Class && r.payload.ClassDefinition?
    ensures r.name == td.name && r.region.text == r.name
    ensures r.region == NameExtent(td)
  {
    SymbolReference(Class, td.name, NameExtent(td), ClassDefinition)
  }
}
