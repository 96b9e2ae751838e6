/**
 * What the visitors share: the action a `Visit*` method returns, the result
 * list the caller hands to a visitor, and the step a single visit performs.
 */
module Visiting {
  import opened Symbols

  /** `AstVisitAction`: `Continue` enters the node's children, `StopVisit` ends the whole walk. */
  datatype Action = Continue | StopVisit

  /** What one `Visit*` call does: the references it appends, and the action it returns. */
  datatype Effect = Effect(found: seq<SymbolReference>, action: Action)

  /** Appends one reference and stops the walk. */
  function Stop(r: SymbolReference): Effect {
    Effect([r], StopVisit)
  }

  /** Appends one reference and goes on. */
  function Collect(r: SymbolReference): Effect {
    Effect([r], Continue)
  }

  /** Appends nothing and goes on. */
  function Pass(): Effect {
    Effect([], Continue)
  }

  /** `List<SymbolReference>`: the result list a visitor appends to. */
  class ResultList {
    var items: seq<SymbolReference>

    constructor ()
      ensures items == []
    {
      items := [];
    }

    /** `Add`. */
    method Add(r: SymbolReference)
      modifies this
      ensures items == old(items) + [r]
    {
      items := items + [r];
    }
  }
}
