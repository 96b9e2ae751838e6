/**
 * The parsed PowerShell syntax tree the symbol code works on. One constructor
 * per node kind the symbol code distinguishes; every other kind is `Other`.
 * Positions are 1-based line and column numbers, as in `IScriptExtent`.
 */
module Ast {
  import opened Wrappers

  /** `IScriptExtent`: where a node starts and ends, and the source text it covers. */
  datatype Extent = Extent(startLine: int, startColumn: int, endLine: int, endColumn: int, text: string)

  /** One `key = value` entry of a hashtable literal. */
  datatype KeyValue = KeyValue(key: Node, value: Node)

  /** A list of nodes that the tree may also leave `null`. */
  datatype NodeList = NullList | List(items: seq<Node>)

  /** The entries of a hashtable literal, which the tree may also leave `null`. */
  datatype PairList = NullPairs | Pairs(items: seq<KeyValue>)

  datatype Node =
    | ScriptBlock(ext: Extent, children: seq<Node>)
    | NamedBlock(ext: Extent, children: seq<Node>)
    | Pipeline(ext: Extent, elements: seq<Node>)
    | CommandExpression(ext: Extent, expression: Node)
    | Hashtable(ext: Extent, pairs: PairList)
      /** `CommandElements[0]` is kept apart, since every command has one;
        * `lineText` is the whole source line the command starts on. */
    | Command(ext: Extent, lineText: string, commandName: Node, elements: seq<Node>)
    | CommandParameter(ext: Extent, children: seq<Node>)
      /** `parameters` are the parenthesised parameters (`Parameters`; the tree's
        * `null` is the empty list) and `body` is the function's script block. */
    | FunctionDefinition(ext: Extent, name: string, isWorkflow: bool, parameters: seq<Node>, body: Node)
      /** A declared parameter; `staticTypeName` is `StaticType.Name`. */
    | Parameter(ext: Extent, staticTypeName: string, children: seq<Node>)
      /** `userPath` is `VariablePath.UserPath`: the name without `$` or braces. */
    | Variable(ext: Extent, userPath: string)
    | Assignment(ext: Extent, left: Node, right: Node)
    | TypeDefinition(ext: Extent, name: string, children: seq<Node>)
      /** `typeName` is `TypeName.Name`. */
    | TypeExpression(ext: Extent, typeName: string)
      /** `propertyType` is `PropertyType?.TypeName.Name`. */
    | PropertyMember(ext: Extent, name: string, isStatic: bool, propertyType: Option<string>, children: seq<Node>)
      /** A method or constructor of a class; `returnType` is `ReturnType?.TypeName.Name`.
        * The parser builds a hidden `FunctionDefinitionAst` for every class
        * member, `definition`, which holds the member's name, parameters and
        * body, and which the tree's visitor enters as the member's child. */
    | FunctionMember(ext: Extent, isStatic: bool, isConstructor: bool, returnType: Option<string>, definition: Node)
    | MemberExpression(ext: Extent, expression: Node, member: Node, isStatic: bool)
      /** A method call; in the tree library it is also a member expression. */
    | InvokeMember(ext: Extent, expression: Node, member: Node, arguments: NodeList, isStatic: bool)
    | StringConstant(ext: Extent, value: string)
    | Other(ext: Extent, children: seq<Node>)

  /** The nodes of a list; a `null` list has none. */
  function Items(l: NodeList): seq<Node> {
    match l
    case NullList => []
    case List(items) => items
  }

  /**
   * `FunctionMemberAst.Name`: the name of the member's definition. The parser
   * always makes `definition` a function definition; any other node reads as
   * a definition with no name, no parameters and that node as its body.
   */
  function MethodName(fm: Node): string
    requires fm.FunctionMember?
  {
    if fm.definition.FunctionDefinition? then fm.definition.name else ""
  }

  /** `FunctionMemberAst.Parameters`: the parameters of the member's definition. */
  function MethodParameters(fm: Node): (r: seq<Node>)
    requires fm.FunctionMember?
    ensures forall p <- r :: p < fm
  {
    if fm.definition.FunctionDefinition? then fm.definition.parameters else []
  }

  /** `FunctionMemberAst.Body`: the script block of the member's definition. */
  function MethodBody(fm: Node): (r: Node)
    requires fm.FunctionMember?
    ensures r < fm
  {
    if fm.definition.FunctionDefinition? then fm.definition.body else fm.definition
  }

  /** `ast is MemberExpressionAst`, which holds for method calls too. */
  predicate IsMemberExpression(n: Node) {
    n.MemberExpression? || n.InvokeMember?
  }

  /** The keys and values of `kvs`, in entry order, key before value. */
  function PairNodes(n: Node, kvs: seq<KeyValue>): (r: seq<Node>)
    requires n.Hashtable? && n.pairs.Pairs? && forall kv <- kvs :: kv in n.pairs.items
    ensures |r| == 2 * |kvs|
    ensures forall c <- r :: c < n
  {
    if kvs == [] then []
    else
      assert kvs[0] in n.pairs.items;
      [kvs[0].key, kvs[0].value] + PairNodes(n, kvs[1..])
  }

  /**
   * The direct children of `n` in the order the tree's visitor enters them;
   * each of them has `n` as its `Parent`.
   */
  function Children(n: Node): (r: seq<Node>)
    ensures forall c <- r :: c < n
  {
    match n
    case ScriptBlock(_, ch) => ch
    case NamedBlock(_, ch) => ch
    case Pipeline(_, es) => es
    case CommandExpression(_, e) => [e]
    case Hashtable(_, ps) => (match ps case NullPairs => [] case Pairs(kvs) => PairNodes(n, kvs))
    case Command(_, _, name, es) => [name] + es
    case CommandParameter(_, ch) => ch
    case FunctionDefinition(_, _, _, ps, body) => ps + [body]
    case Parameter(_, _, ch) => ch
    case Variable(_, _) => []
    case Assignment(_, l, r) => [l, r]
    case TypeDefinition(_, _, ch) => ch
    case TypeExpression(_, _) => []
    case PropertyMember(_, _, _, _, ch) => ch
    case FunctionMember(_, _, _, _, definition) => [definition]
    case MemberExpression(_, e, m, _) => [e, m]
    case InvokeMember(_, e, m, args, _) =>
      [e, m] + (match args case NullList => [] case List(items) => items)
    case StringConstant(_, _) => []
    case Other(_, ch) => ch
  }
}
