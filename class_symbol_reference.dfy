/** `ClassSymbolReference`: a use of a class name in a type expression such as `[Foo]`. */
module ClassSymbolReference {
  import opened Text
  import opened Ast
  import opened Symbols

  /**
   * `GetNameExtent`: on the expression's lines, starting at the expression's
   * start column plus the first index of the name in the expression text, and
   * ending at the start column plus the name's length plus one, whatever that
   * index is.
   */
  function NameExtent(te: Node): (e: Extent)
    requires te.TypeExpression?
    ensures e.text == te.typeName
    ensures e.startLine == te.ext.startLine && e.endLine == te.ext.endLine
    ensures var k := e.startColumn - te.ext.startColumn;
            (k == -1 && Absent(te.ext.text, te.typeName)) || FirstOccurrence(te.ext.text, te.typeName, k)
    ensures e.endColumn == te.ext.startColumn + |te.typeName| + 1
  {
    var name := te.typeName;
    var start := te.ext.startColumn;
    var index := IndexOf(te.ext.text, name);
    Extent(te.ext.startLine, start + index, te.ext.endLine, start + |name| + 1, name)
  }

  /** The constructor: a `Class` reference named by `TypeName.Name`. */
  function Create(te: Node): (r: SymbolReference)
    requires te.TypeExpression?
    ensures r.kind == Class && r.payload.ClassRef?
    ensures r.name == te.typeName && r.region.text == r.name
    ensures r.region == NameExtent(te)
  {
    SymbolReference(Class, te.typeName, NameExtent(te), ClassRef)
  }

  /**
   * For the usual bracketed text `[Name]`, the region starts on the first
   * letter of the name and, end columns being exclusive, covers exactly the
   * name: the `+ 1` makes up for the opening bracket.
   */
  lemma BracketedRegion(te: Node)
    requires te.TypeExpression? && te.typeName != [] && te.typeName[0] != '['
    requires te.ext.text == "[" + te.typeName + "]"
    ensures Create(te).region.startColumn == te.ext.startColumn + 1
    ensures Create(te).region.endColumn - Create(te).region.startColumn == |te.typeName|
  {
    var text, name := te.ext.text, te.typeName;
    assert text[1..1 + |name|] == name;
    IndexOfFirstOccurrence(text, name, 1);
  }
}
