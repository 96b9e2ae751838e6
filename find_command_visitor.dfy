/**
 * `FindCommandVisitor`: finds the command of a pipeline that starts on the
 * cursor's line and whose extent, widened over the white space after it,
 * holds the cursor's column.
 */
module FindCommandVisitor {
  import opened Wrappers
  import opened Text
  import opened Ast
  import opened Symbols
  import opened Visiting

  datatype Config = Config(lineNumber: int, columnNumber: int)

  /**
   * The "true" end column of a command: when its end column `e` is within
   * its line, `e` plus the white space that starts at index `e` of the line,
   * plus one; otherwise `e` itself.
   */
  function TrueEndColumn(command: Node): (r: int)
    requires command.Command?
    ensures var e := command.ext.endColumn; var line := command.lineText;
            0 <= e <= |line| ==>
              e < r <= |line| + 1
              && (forall i :: e <= i < r - 1 ==> IsWhiteSpace(line[i]))
              && (r - 1 == |line| || !IsWhiteSpace(line[r - 1]))
    ensures !(0 <= command.ext.endColumn <= |command.lineText|) ==> r == command.ext.endColumn
  {
    var e := command.ext.endColumn;
    var currentLine := command.lineText;
    if 0 <= e <= |currentLine| then
      var remainingLine := currentLine[e..];
      e + (|remainingLine| - |TrimStart(remainingLine)|) + 1
    else e
  }

  /** Whether the cursor lies between a command's start column and its true end column. */
  predicate CommandMatches(cfg: Config, command: Node)
    requires command.Command?
  {
    command.ext.startColumn <= cfg.columnNumber && TrueEndColumn(command) >= cfg.columnNumber
  }

  /** Whether `element` is a command that holds the cursor. */
  predicate IsHit(cfg: Config, element: Node) {
    element.Command? && CommandMatches(cfg, element)
  }

  /** The index of the first element at or after `i` that is a command holding the cursor. */
  function FirstHit(cfg: Config, elements: seq<Node>, i: nat): (r: Option<nat>)
    requires i <= |elements|
    ensures r.Some? ==> i <= r.value < |elements| && IsHit(cfg, elements[r.value])
    ensures r.Some? ==> forall j :: i <= j < r.value ==> !IsHit(cfg, elements[j])
    ensures r.None? ==> forall j :: i <= j < |elements| ==> !IsHit(cfg, elements[j])
    decreases |elements| - i
  {
    if i == |elements| then None
    else if IsHit(cfg, elements[i]) then Some(i)
    else FirstHit(cfg, elements, i + 1)
  }

  /**
   * What visiting `n` appends and returns: a pipeline that starts on the
   * cursor's line yields the name of its first command that holds the
   * cursor, and stops the walk.
   */
  function Step(cfg: Config, n: Node, ancestors: seq<Node>): Effect {
    match n
    case Pipeline(ext, elements) =>
      if cfg.lineNumber == ext.startLine then
        match FirstHit(cfg, elements, 0)
        case Some(k) => Stop(FromExtent(Function, elements[k].commandName.ext))
        case None => Pass()
      else Pass()
    case _ => Pass()
  }

  /**
   * A visit finds something exactly when it visits a pipeline on the cursor's
   * line with a command that holds the cursor; it then appends that command's
   * name, as a `Function`, and stops.
   */
  lemma StepFindsCommandName(cfg: Config, n: Node, ancestors: seq<Node>)
    ensures var s := Step(cfg, n, ancestors);
            s.found != [] <==> n.Pipeline? && n.ext.startLine == cfg.lineNumber
                               && exists k :: 0 <= k < |n.elements| && IsHit(cfg, n.elements[k])
    ensures var s := Step(cfg, n, ancestors);
            s.found != [] ==>
              s.action == StopVisit
              && exists k :: 0 <= k < |n.elements| && IsHit(cfg, n.elements[k])
                             && s.found == [FromExtent(Function, n.elements[k].commandName.ext)]
    ensures Step(cfg, n, ancestors).found == [] ==> Step(cfg, n, ancestors).action == Continue
  {
    if n.Pipeline? && n.ext.startLine == cfg.lineNumber {
      var r := FirstHit(cfg, n.elements, 0);
      if r.Some? {
        assert IsHit(cfg, n.elements[r.value]);
      }
    }
  }

  /**
   * A command whose line goes on with white space reaches over that white
   * space and one column more: with the cursor one column past the command's
   * end followed by blanks, it still counts.
   */
  lemma TrueEndSkipsBlanks(command: Node, blanks: nat)
    requires command.Command?
    requires var e := command.ext.endColumn;
             0 <= e && e + blanks <= |command.lineText|
             && (forall i :: e <= i < e + blanks ==> IsWhiteSpace(command.lineText[i]))
             && (e + blanks == |command.lineText| || !IsWhiteSpace(command.lineText[e + blanks]))
    ensures TrueEndColumn(command) == command.ext.endColumn + blanks + 1
  {
    var e := command.ext.endColumn;
    var rest := command.lineText[e..];
    var k := |rest| - |TrimStart(rest)|;
    assert forall i :: 0 <= i < blanks ==> IsWhiteSpace(rest[i]) by {
      forall i | 0 <= i < blanks ensures IsWhiteSpace(rest[i]) {
        assert rest[i] == command.lineText[e + i];
      }
    }
    assert e + blanks < |command.lineText| ==> rest[blanks] == command.lineText[e + blanks];
    assert k == blanks;
  }

  class FindCommandVisitor {
    const lineNumber: int
    const columnNumber: int
    const result: ResultList

    constructor (lineNumber: int, columnNumber: int, result: ResultList)
      ensures this.lineNumber == lineNumber && this.columnNumber == columnNumber && this.result == result
    {
      this.lineNumber := lineNumber;
      this.columnNumber := columnNumber;
      this.result := result;
    }

    function AsConfig(): Config {
      Config(lineNumber, columnNumber)
    }

    method VisitPipeline(pipelineAst: Node, ancestors: seq<Node>) returns (action: Action)
      requires pipelineAst.Pipeline?
      modifies result
      ensures result.items == old(result.items) + Step(AsConfig(), pipelineAst, ancestors).found
      ensures action == Step(AsConfig(), pipelineAst, ancestors).action
    {
      if lineNumber == pipelineAst.ext.startLine {
        var elements := pipelineAst.elements;
        var i := 0;
        while i < |elements|
          invariant 0 <= i <= |elements|
          invariant FirstHit(AsConfig(), elements, 0) == FirstHit(AsConfig(), elements, i)
          invariant result.items == old(result.items)
        {
          var commandAst := elements[i];
          if commandAst.Command? {
            var trueEndColumnNumber := commandAst.ext.endColumn;
            var currentLine := commandAst.lineText;
            if 0 <= trueEndColumnNumber <= |currentLine| {
              var remainingLine := currentLine[commandAst.ext.endColumn..];
              var preTrimLength := |remainingLine|;
              var postTrimLength := |TrimStart(remainingLine)|;
              trueEndColumnNumber := commandAst.ext.endColumn + (preTrimLength - postTrimLength) + 1;
            }
            if commandAst.ext.startColumn <= columnNumber && trueEndColumnNumber >= columnNumber {
              result.Add(FromExtent(Function, commandAst.commandName.ext));
              return StopVisit;
            }
          }
          i := i + 1;
        }
      }
      return Continue;
    }

    /** The visitor's entry point for one node: only pipelines are inspected. */
    method Visit(n: Node, ancestors: seq<Node>) returns (action: Action)
      modifies result
      ensures result.items == old(result.items) + Step(AsConfig(), n, ancestors).found
      ensures action == Step(AsConfig(), n, ancestors).action
    {
      if n.Pipeline? {
        action := VisitPipeline(n, ancestors);
      } else {
        action := Continue;
      }
    }
  }
}
