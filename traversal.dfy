/**
 * `Ast.Visit(visitor)`: the tree's own depth-first, pre-order walk. Each node
 * is offered to the visitor before its children; `Continue` enters the
 * children in order, `StopVisit` ends the whole walk at once.
 *
 * `WalkNode` states the walk recursively over the tree; `PreOrder`, `Effects`
 * and `Scan` state it as a left-to-right scan of what the visits of the nodes
 * do, and `WalkIsScan` proves the two agree. `Walk` is the walk as a recursive method over the
 * visitor objects, proved to append exactly what `WalkNode` finds.
 */
module Traversal {
  import opened Wrappers
  import opened Ast
  import opened Symbols
  import opened Visiting
  import FindSymbolVisitor
  import FindCommandVisitor
  import FindDeclarationVisitor
  import FindReferencesVisitor
  import FindSymbolsVisitor

  /** The visitor that walks a tree, with its settings. */
  datatype Visitor =
    | SymbolAt(symbolAt: FindSymbolVisitor.Config)
    | CommandAt(commandAt: FindCommandVisitor.Config)
    | Declaration(declaration: FindDeclarationVisitor.Config)
    | References(references: FindReferencesVisitor.Config)
    | DocumentSymbols
    | HashtableKeys

  /** What one visit of `v` does. */
  function StepOf(v: Visitor, n: Node, ancestors: seq<Node>): Effect {
    match v
    case SymbolAt(cfg) => FindSymbolVisitor.Step(cfg, n, ancestors)
    case CommandAt(cfg) => FindCommandVisitor.Step(cfg, n, ancestors)
    case Declaration(cfg) => FindDeclarationVisitor.Step(cfg, n, ancestors)
    case References(cfg) => FindReferencesVisitor.Step(cfg, n, ancestors)
    case DocumentSymbols => FindSymbolsVisitor.Step(n, ancestors)
    case HashtableKeys => FindSymbolsVisitor.HashtableStep(n)
  }

  /** What a walk (or part of one) appends, and whether it ended with `StopVisit`. */
  datatype Outcome = Outcome(found: seq<SymbolReference>, stopped: bool)

  /** `first`, then `rest` unless `first` stopped. */
  function Then(first: Outcome, rest: Outcome): Outcome {
    if first.stopped then first else Outcome(first.found + rest.found, rest.stopped)
  }

  /** A visit's effect as an outcome. */
  function AsOutcome(e: Effect): Outcome {
    Outcome(e.found, e.action == StopVisit)
  }

  /** One visit as an outcome. */
  function Visited(v: Visitor, n: Node, ancestors: seq<Node>): Outcome {
    AsOutcome(StepOf(v, n, ancestors))
  }

  /** The walk of the subtree at `n`, whose parents are `ancestors`: `n` first, then its children. */
  function WalkNode(v: Visitor, n: Node, ancestors: seq<Node>): Outcome
    decreases n, 1
  {
    Then(Visited(v, n, ancestors), WalkChildren(v, n, ancestors, 0))
  }

  /** The walks of the children of `n` from the `i`-th on, each ending the rest if it stops. */
  function WalkChildren(v: Visitor, n: Node, ancestors: seq<Node>, i: nat): Outcome
    requires i <= |Children(n)|
    decreases n, 0, |Children(n)| - i
  {
    if i == |Children(n)| then Outcome([], false)
    else
      var c := Children(n)[i];
      assert c in Children(n);
      Then(WalkNode(v, c, [n] + ancestors), WalkChildren(v, n, ancestors, i + 1))
  }

  /** A node as the walk offers it: with its parents, innermost first. */
  datatype Visitee = Visitee(node: Node, ancestors: seq<Node>)

  /** The nodes of the subtree at `n` in the order the walk offers them. */
  function PreOrder(n: Node, ancestors: seq<Node>): (r: seq<Visitee>)
    ensures r != [] && r[0] == Visitee(n, ancestors)
    decreases n, 1
  {
    [Visitee(n, ancestors)] + PreOrderChildren(n, ancestors, 0)
  }

  /** The subtrees of the children of `n` from the `i`-th on, in pre-order. */
  function PreOrderChildren(n: Node, ancestors: seq<Node>, i: nat): seq<Visitee>
    requires i <= |Children(n)|
    decreases n, 0, |Children(n)| - i
  {
    if i == |Children(n)| then []
    else
      var c := Children(n)[i];
      assert c in Children(n);
      PreOrder(c, [n] + ancestors) + PreOrderChildren(n, ancestors, i + 1)
  }

  /** What `v` does on each of the visits `vs`, in order. */
  function Effects(v: Visitor, vs: seq<Visitee>): (es: seq<Effect>)
    ensures |es| == |vs|
    ensures forall i :: 0 <= i < |vs| ==> es[i] == StepOf(v, vs[i].node, vs[i].ancestors)
  {
    if vs == [] then []
    else
      var rest := Effects(v, vs[1..]);
      assert forall i :: 1 <= i < |vs| ==> vs[i] == vs[1..][i - 1];
      [StepOf(v, vs[0].node, vs[0].ancestors)] + rest
  }

  /** The effects of two runs of visits are those of the first run, then those of the second. */
  lemma {:induction false} EffectsAppend(v: Visitor, a: seq<Visitee>, b: seq<Visitee>)
    ensures Effects(v, a + b) == Effects(v, a) + Effects(v, b)
    decreases |a|
  {
    if a == [] {
      assert a + b == b;
    } else {
      assert (a + b)[0] == a[0];
      assert (a + b)[1..] == a[1..] + b;
      EffectsAppend(v, a[1..], b);
      AppendAssociates([StepOf(v, a[0].node, a[0].ancestors)], Effects(v, a[1..]), Effects(v, b));
    }
  }

  /** The walk over a flat sequence of visits: left to right, up to the first `StopVisit`. */
  function Scan(es: seq<Effect>): Outcome {
    if es == [] then Outcome([], false)
    else Then(AsOutcome(es[0]), Scan(es[1..]))
  }

  lemma ThenAssociates(a: Outcome, b: Outcome, c: Outcome)
    ensures Then(Then(a, b), c) == Then(a, Then(b, c))
  {
    if !a.stopped && !b.stopped {
      assert (a.found + b.found) + c.found == a.found + (b.found + c.found);
    }
  }

  lemma AppendAssociates<T>(a: seq<T>, b: seq<T>, c: seq<T>)
    ensures a + b + c == a + (b + c)
  {
  }

  /** Scanning two runs of visits is scanning the first, then the second unless the first stopped. */
  lemma {:induction false} ScanAppend(a: seq<Effect>, b: seq<Effect>)
    ensures Scan(a + b) == Then(Scan(a), Scan(b))
    decreases |a|
  {
    if a == [] {
      assert a + b == b;
      assert [] + Scan(b).found == Scan(b).found;
    } else {
      assert (a + b)[0] == a[0];
      assert (a + b)[1..] == a[1..] + b;
      ScanAppend(a[1..], b);
      ThenAssociates(AsOutcome(a[0]), Scan(a[1..]), Scan(b));
    }
  }

  /** The recursive walk is the scan of the effects of the pre-order visits. */
  lemma {:induction false} WalkIsScan(v: Visitor, n: Node, ancestors: seq<Node>)
    ensures WalkNode(v, n, ancestors) == Scan(Effects(v, PreOrder(n, ancestors)))
    decreases n, 1
  {
    var head := [Visitee(n, ancestors)];
    var pre := PreOrder(n, ancestors);
    assert pre == head + PreOrderChildren(n, ancestors, 0);
    EffectsAppend(v, head, PreOrderChildren(n, ancestors, 0));
    WalkChildrenIsScan(v, n, ancestors, 0);
    ScanAppend(Effects(v, head), Effects(v, PreOrderChildren(n, ancestors, 0)));
    assert Scan(Effects(v, head)) == Then(Visited(v, n, ancestors), Outcome([], false));
  }

  /** The walks of the children from the `i`-th on are the scan of the effects of their pre-order visits. */
  lemma {:induction false} WalkChildrenIsScan(v: Visitor, n: Node, ancestors: seq<Node>, i: nat)
    requires i <= |Children(n)|
    ensures WalkChildren(v, n, ancestors, i) == Scan(Effects(v, PreOrderChildren(n, ancestors, i)))
    decreases n, 0, |Children(n)| - i
  {
    if i < |Children(n)| {
      var c := Children(n)[i];
      assert c in Children(n);
      WalkIsScan(v, c, [n] + ancestors);
      WalkChildrenIsScan(v, n, ancestors, i + 1);
      EffectsAppend(v, PreOrder(c, [n] + ancestors), PreOrderChildren(n, ancestors, i + 1));
      ScanAppend(Effects(v, PreOrder(c, [n] + ancestors)), Effects(v, PreOrderChildren(n, ancestors, i + 1)));
    }
  }

  /** Everything every visit appends, in order. */
  function FoundAll(es: seq<Effect>): seq<SymbolReference> {
    if es == [] then [] else es[0].found + FoundAll(es[1..])
  }

  /** No visit returns `StopVisit`. */
  predicate NeverStops(es: seq<Effect>) {
    forall i :: 0 <= i < |es| ==> es[i].action == Continue
  }

  /** Without a `StopVisit`, the scan appends what every visit appends, and does not stop. */
  lemma {:induction false} ScanWithoutStop(es: seq<Effect>)
    requires NeverStops(es)
    ensures Scan(es) == Outcome(FoundAll(es), false)
  {
    if es != [] {
      assert NeverStops(es[1..]) by {
        forall i | 0 <= i < |es[1..]| ensures es[1..][i].action == Continue {
          assert es[1..][i] == es[i + 1];
        }
      }
      assert es[0].action == Continue;
      ScanWithoutStop(es[1..]);
    }
  }

  /** Everything the scan appends is appended by one of its visits. */
  lemma {:induction false} ScanFoundComesFromVisits(es: seq<Effect>)
    ensures forall r <- Scan(es).found :: exists i :: 0 <= i < |es| && r in es[i].found
  {
    if es != [] {
      ScanFoundComesFromVisits(es[1..]);
      forall r <- Scan(es).found ensures exists i :: 0 <= i < |es| && r in es[i].found {
        if r !in es[0].found {
          assert r in Scan(es[1..]).found;
          var i :| 0 <= i < |es[1..]| && r in es[1..][i].found;
          assert es[1..][i] == es[i + 1];
        }
      }
    }
  }

  /** Every visit appends at most one reference, and stops when it appends one. */
  predicate StopsOnEveryHit(es: seq<Effect>) {
    forall i :: 0 <= i < |es| ==> |es[i].found| <= 1 && (es[i].found != [] ==> es[i].action == StopVisit)
  }

  /** When every hit stops the walk, the scan appends at most one reference, and stops if it appends one. */
  lemma {:induction false} ScanAtMostOne(es: seq<Effect>)
    requires StopsOnEveryHit(es)
    ensures |Scan(es).found| <= 1
    ensures Scan(es).found != [] ==> Scan(es).stopped
  {
    if es != [] {
      assert StopsOnEveryHit(es[1..]) by {
        forall i | 0 <= i < |es[1..]|
          ensures |es[1..][i].found| <= 1 && (es[1..][i].found != [] ==> es[1..][i].action == StopVisit)
        {
          assert es[1..][i] == es[i + 1];
        }
      }
      assert |es[0].found| <= 1 && (es[0].found != [] ==> es[0].action == StopVisit);
      ScanAtMostOne(es[1..]);
    }
  }

  /** Every visit that stops the walk appends something. */
  predicate StopsOnlyOnHit(es: seq<Effect>) {
    forall i :: 0 <= i < |es| ==> es[i].action == StopVisit ==> es[i].found != []
  }

  /** The first reference any visit appends, in visiting order. */
  function FirstFound(es: seq<Effect>): Option<SymbolReference> {
    if es == [] then None
    else if es[0].found != [] then Some(es[0].found[0])
    else FirstFound(es[1..])
  }

  /**
   * `FirstFound` is nothing exactly when no visit appends anything, and
   * otherwise the first reference of a visit before which none appends anything.
   */
  lemma {:induction false} FirstFoundIsFirst(es: seq<Effect>)
    ensures FirstFound(es).None? <==> forall i :: 0 <= i < |es| ==> es[i].found == []
    ensures FirstFound(es).Some? ==>
              exists k :: 0 <= k < |es| && es[k].found != [] && FirstFound(es).value == es[k].found[0]
                          && forall j :: 0 <= j < k ==> es[j].found == []
  {
    if es != [] && es[0].found == [] {
      var tail := es[1..];
      FirstFoundIsFirst(tail);
      forall i | 0 <= i < |es| && es[i].found != [] ensures FirstFound(tail).Some? {
        assert es[i] == tail[i - 1];
      }
      if FirstFound(tail).Some? {
        var k :| 0 <= k < |tail| && tail[k].found != [] && FirstFound(tail).value == tail[k].found[0]
                 && forall j :: 0 <= j < k ==> tail[j].found == [];
        assert tail[k] == es[k + 1];
        forall j | 0 <= j < k + 1 ensures es[j].found == [] {
          if j > 0 {
            assert es[j] == tail[j - 1];
          }
        }
      } else {
        forall i | 0 <= i < |es| ensures es[i].found == [] {
          if i > 0 {
            assert es[i] == tail[i - 1];
          }
        }
      }
    }
  }

  /**
   * When the walk stops only on a hit, the first reference the scan yields is
   * the first one any visit appends: `FirstOrDefault` of the result list is
   * the first hit in visiting order.
   */
  lemma {:induction false} ScanFirst(es: seq<Effect>)
    requires StopsOnlyOnHit(es)
    ensures FirstOrNone(Scan(es).found) == FirstFound(es)
  {
    if es != [] && es[0].found == [] {
      assert es[0].action == Continue;
      assert StopsOnlyOnHit(es[1..]) by {
        forall i | 0 <= i < |es[1..]| ensures es[1..][i].action == StopVisit ==> es[1..][i].found != [] {
          assert es[1..][i] == es[i + 1];
        }
      }
      ScanFirst(es[1..]);
      assert Scan(es).found == [] + Scan(es[1..]).found;
    }
  }

  /** The visitor objects, each with the result list it appends to. */
  datatype Walker =
    | SymbolAtWalker(symbolAt: FindSymbolVisitor.FindSymbolVisitor)
    | CommandAtWalker(commandAt: FindCommandVisitor.FindCommandVisitor)
    | DeclarationWalker(declaration: FindDeclarationVisitor.FindDeclarationVisitor)
    | ReferencesWalker(references: FindReferencesVisitor.FindReferencesVisitor)
    | DocumentSymbolsWalker(documentSymbols: FindSymbolsVisitor.FindSymbolsVisitor)
    | HashtableKeysWalker(hashtableKeys: FindSymbolsVisitor.FindHashtableSymbolsVisitor)

  /** The visitor a visitor object behaves as. */
  function Spec(w: Walker): Visitor {
    match w
    case SymbolAtWalker(o) => SymbolAt(o.AsConfig())
    case CommandAtWalker(o) => CommandAt(o.AsConfig())
    case DeclarationWalker(o) => Declaration(o.AsConfig())
    case ReferencesWalker(o) => References(o.AsConfig())
    case DocumentSymbolsWalker(_) => DocumentSymbols
    case HashtableKeysWalker(_) => HashtableKeys
  }

  /** The result list a visitor object appends to. */
  function Results(w: Walker): ResultList {
    match w
    case SymbolAtWalker(o) => o.result
    case CommandAtWalker(o) => o.result
    case DeclarationWalker(o) => o.result
    case ReferencesWalker(o) => o.result
    case DocumentSymbolsWalker(o) => o.results
    case HashtableKeysWalker(o) => o.symbolReferences
  }

  /** Offers one node to a visitor object. */
  method VisitWith(w: Walker, n: Node, ancestors: seq<Node>) returns (action: Action)
    modifies Results(w)
    ensures Results(w).items == old(Results(w).items) + StepOf(Spec(w), n, ancestors).found
    ensures action == StepOf(Spec(w), n, ancestors).action
  {
    ghost var e := StepOf(Spec(w), n, ancestors);
    match w
    case SymbolAtWalker(o) =>
      assert e == FindSymbolVisitor.Step(o.AsConfig(), n, ancestors);
      action := o.Visit(n, ancestors);
    case CommandAtWalker(o) =>
      assert e == FindCommandVisitor.Step(o.AsConfig(), n, ancestors);
      action := o.Visit(n, ancestors);
    case DeclarationWalker(o) =>
      assert e == FindDeclarationVisitor.Step(o.AsConfig(), n, ancestors);
      action := o.Visit(n, ancestors);
    case ReferencesWalker(o) =>
      assert e == FindReferencesVisitor.Step(o.AsConfig(), n, ancestors);
      action := o.Visit(n, ancestors);
    case DocumentSymbolsWalker(o) =>
      assert e == FindSymbolsVisitor.Step(n, ancestors);
      action := o.Visit(n, ancestors);
    case HashtableKeysWalker(o) =>
      assert e == FindSymbolsVisitor.HashtableStep(n);
      action := o.Visit(n, ancestors);
  }

  /** A walk visits the node, then walks its children unless the visit stopped. */
  lemma WalkNodeUnfolds(v: Visitor, n: Node, ancestors: seq<Node>)
    ensures WalkNode(v, n, ancestors) == Then(Visited(v, n, ancestors), WalkChildren(v, n, ancestors, 0))
  {
  }

  /** The walk of the children from the `i`-th on walks the `i`-th child, then the rest unless it stopped. */
  lemma WalkChildrenUnfolds(v: Visitor, n: Node, ancestors: seq<Node>, i: nat)
    requires i < |Children(n)|
    ensures WalkChildren(v, n, ancestors, i)
            == Then(WalkNode(v, Children(n)[i], [n] + ancestors), WalkChildren(v, n, ancestors, i + 1))
  {
  }

  /** A visit that stops ends the walk of its subtree with what it appended. */
  lemma WalkStopsAtVisit(v: Visitor, n: Node, ancestors: seq<Node>)
    requires StepOf(v, n, ancestors).action == StopVisit
    ensures WalkNode(v, n, ancestors) == Outcome(StepOf(v, n, ancestors).found, true)
  {
  }

  /** A node whose visit appends nothing, and whose first child's walk stops, ends as that child's walk. */
  lemma WalkStopsInFirstChild(v: Visitor, n: Node, ancestors: seq<Node>)
    requires |Children(n)| > 0
    requires StepOf(v, n, ancestors) == Effect([], Continue)
    requires WalkNode(v, Children(n)[0], [n] + ancestors).stopped
    ensures WalkNode(v, n, ancestors) == WalkNode(v, Children(n)[0], [n] + ancestors)
  {
    WalkChildrenUnfolds(v, n, ancestors, 0);
    assert [] + WalkNode(v, Children(n)[0], [n] + ancestors).found == WalkNode(v, Children(n)[0], [n] + ancestors).found;
  }

  /** A node without children that goes on: its walk is its visit. */
  lemma WalkLeaf(v: Visitor, n: Node, ancestors: seq<Node>)
    requires Children(n) == [] && StepOf(v, n, ancestors).action == Continue
    ensures WalkNode(v, n, ancestors) == Outcome(StepOf(v, n, ancestors).found, false)
  {
    assert StepOf(v, n, ancestors).found + [] == StepOf(v, n, ancestors).found;
  }

  /** A node with one child, neither of which stops: its visit's items, then the child's. */
  lemma WalkOneChild(v: Visitor, n: Node, ancestors: seq<Node>)
    requires |Children(n)| == 1 && StepOf(v, n, ancestors).action == Continue
    requires !WalkNode(v, Children(n)[0], [n] + ancestors).stopped
    ensures WalkNode(v, n, ancestors)
            == Outcome(StepOf(v, n, ancestors).found + WalkNode(v, Children(n)[0], [n] + ancestors).found, false)
  {
    WalkChildrenUnfolds(v, n, ancestors, 0);
    var o := WalkNode(v, Children(n)[0], [n] + ancestors);
    assert o.found + [] == o.found;
  }

  /** A node with two children, none of which stops: its visit's items, then each child's. */
  lemma WalkTwoChildren(v: Visitor, n: Node, ancestors: seq<Node>)
    requires |Children(n)| == 2 && StepOf(v, n, ancestors).action == Continue
    requires !WalkNode(v, Children(n)[0], [n] + ancestors).stopped
    requires !WalkNode(v, Children(n)[1], [n] + ancestors).stopped
    ensures WalkNode(v, n, ancestors)
            == Outcome(StepOf(v, n, ancestors).found + WalkNode(v, Children(n)[0], [n] + ancestors).found
                       + WalkNode(v, Children(n)[1], [n] + ancestors).found, false)
  {
    WalkChildrenUnfolds(v, n, ancestors, 0);
    WalkChildrenUnfolds(v, n, ancestors, 1);
    var a := WalkNode(v, Children(n)[0], [n] + ancestors).found;
    var b := WalkNode(v, Children(n)[1], [n] + ancestors).found;
    assert a + (b + []) == a + b;
    AppendAssociates(StepOf(v, n, ancestors).found, a, b);
  }

  /**
   * `n.Visit(visitor)` for the subtree at `n`: appends to the visitor's result
   * list exactly what `WalkNode` finds, and reports whether the walk stopped.
   */
  method Walk(w: Walker, n: Node, ancestors: seq<Node>) returns (stopped: bool)
    modifies Results(w)
    ensures Results(w).items == old(Results(w).items) + WalkNode(Spec(w), n, ancestors).found
    ensures stopped == WalkNode(Spec(w), n, ancestors).stopped
    decreases n
  {
    var v := Spec(w);
    ghost var items0 := Results(w).items;
    var action := VisitWith(w, n, ancestors);
    ghost var first := Visited(v, n, ancestors);
    ghost var rest := WalkChildren(v, n, ancestors, 0);
    WalkNodeUnfolds(v, n, ancestors);
    assert Results(w).items == items0 + first.found;
    if action == StopVisit {
      return true;
    }
    var children := Children(n);
    ghost var acc: seq<SymbolReference> := [];
    var i := 0;
    while i < |children|
      invariant 0 <= i <= |children|
      invariant rest == Then(Outcome(acc, false), WalkChildren(v, n, ancestors, i))
      invariant Results(w).items == items0 + first.found + acc
    {
      assert children[i] in children;
      var childStopped := Walk(w, children[i], [n] + ancestors);
      ghost var o := WalkNode(v, children[i], [n] + ancestors);
      ghost var later := WalkChildren(v, n, ancestors, i + 1);
      WalkChildrenUnfolds(v, n, ancestors, i);
      ThenAssociates(Outcome(acc, false), o, later);
      if childStopped {
        assert rest == Outcome(acc + o.found, true);
        AppendAssociates(items0 + first.found, acc, o.found);
        AppendAssociates(items0, first.found, acc + o.found);
        return true;
      }
      AppendAssociates(items0 + first.found, acc, o.found);
      acc := acc + o.found;
      i := i + 1;
    }
    assert rest == Outcome(acc, false);
    assert acc + [] == acc;
    AppendAssociates(items0, first.found, acc);
    return false;
  }
}
