/** The performance profiler: deeply nested loops, and `append` and sorting
    calls inside loops. */
module PerformanceProfiler {
  import opened Outcomes
  import opened SyntaxTree

  const DeepNestingIssue := "⚠️ Deeply nested loops detected. Consider refactoring for better performance."
  const AppendIssue := "💡 Consider using list comprehension instead of append inside a loop."
  const SortIssue := "⚠️ Avoid sorting inside loops unless necessary."
  const SyntaxIssue := "❌ Unable to analyze performance due to syntax errors."

  function Max(a: int, b: int): int {
    if a >= b then a else b
  }

  /** The maximum after visiting a tree `d` loops deep, starting from maximum
      `max`, when the tree's own loop depth is `depth`. */
  function AfterVisit(max: int, d: int, depth: nat): int {
    if depth == 0 then max else Max(max, d + depth)
  }

  /** The visitor that tracks how deep in loops it is and the deepest it has
      been. */
  class LoopVisitor {
    var nestedLoopDepth: int
    var maxDepth: int

    constructor()
      ensures nestedLoopDepth == 0 && maxDepth == 0
    {
      nestedLoopDepth := 0;
      maxDepth := 0;
    }

    /** `visit`: a loop goes to `VisitLoop`, any other node to `GenericVisit`.
        The depth comes back as it was, and the maximum takes in every loop
        path of the tree. */
    method Visit(n: Node)
      modifies this
      ensures nestedLoopDepth == old(nestedLoopDepth)
      ensures maxDepth == AfterVisit(old(maxDepth), old(nestedLoopDepth), LoopDepth(n))
      decreases Size(n), 2
    {
      if IsLoop(n) {
        VisitLoop(n);
      } else {
        SizeOfChildren(n);
        GenericVisit(n);
      }
    }

    /** `visit_For` and `visit_While`. */
    method VisitLoop(n: Node)
      requires IsLoop(n)
      modifies this
      ensures nestedLoopDepth == old(nestedLoopDepth)
      ensures maxDepth == AfterVisit(old(maxDepth), old(nestedLoopDepth), LoopDepth(n))
      decreases Size(n), 1
    {
      nestedLoopDepth := nestedLoopDepth + 1;
      maxDepth := Max(maxDepth, nestedLoopDepth);
      GenericVisit(n);
      nestedLoopDepth := nestedLoopDepth - 1;
    }

    /** `generic_visit`: visit each child in turn. */
    method GenericVisit(n: Node)
      modifies this
      ensures nestedLoopDepth == old(nestedLoopDepth)
      ensures maxDepth == AfterVisit(old(maxDepth), old(nestedLoopDepth), MaxLoopDepth(Children(n)))
      decreases Size(n), 0
    {
      var children := Children(n);
      for i := 0 to |children|
        invariant nestedLoopDepth == old(nestedLoopDepth)
        invariant maxDepth == AfterVisit(old(maxDepth), old(nestedLoopDepth), MaxLoopDepth(children[..i]))
      {
        ChildSmaller(n, i);
        MaxLoopDepthLast(children[..i + 1]);
        assert children[..i + 1][..i] == children[..i];
        AfterVisitTwice(maxDepth, nestedLoopDepth, old(maxDepth), MaxLoopDepth(children[..i]), LoopDepth(children[i]));
        Visit(children[i]);
      }
      assert children[..|children|] == children;
    }
  }

  /** Visiting two trees one after the other reaches the deeper of the two. */
  lemma AfterVisitTwice(now: int, d: int, max: int, first: nat, second: nat)
    requires now == AfterVisit(max, d, first)
    ensures AfterVisit(now, d, second) == AfterVisit(max, d, Max(first, second))
  {
  }

  /** The loop depth of a list, taken from the back. */
  lemma {:induction false} MaxLoopDepthLast(ns: seq<Node>)
    requires ns != []
    ensures MaxLoopDepth(ns) == Max(MaxLoopDepth(ns[..|ns| - 1]), LoopDepth(ns[|ns| - 1]))
    decreases |ns|
  {
    if |ns| > 1 {
      MaxLoopDepthLast(ns[1..]);
      assert ns[1..][..|ns[1..]| - 1] == ns[..|ns| - 1][1..];
    } else {
      assert ns[1..] == [];
      assert ns[..0] == [];
    }
  }

  // ---- the issues

  /** What one node of a loop's walk contributes. */
  function CallIssues(c: Node): seq<string> {
    (if IsAppendCall(c) then [AppendIssue] else []) + (if IsSortCall(c) then [SortIssue] else [])
  }

  /** The issues for the nodes of one loop's walk, in order. */
  function WalkIssues(nodes: seq<Node>): seq<string>
    decreases |nodes|
  {
    if nodes == [] then []
    else WalkIssues(nodes[..|nodes| - 1]) + CallIssues(nodes[|nodes| - 1])
  }

  /** What one node of the tree's walk contributes: a loop, the issues of its
      own walk. */
  function NodeIssues(n: Node): seq<string> {
    if IsLoop(n) then WalkIssues(Walk(n)) else []
  }

  /** The issues for the nodes of the tree's walk, in order. */
  function LoopIssues(nodes: seq<Node>): seq<string>
    decreases |nodes|
  {
    if nodes == [] then []
    else LoopIssues(nodes[..|nodes| - 1]) + NodeIssues(nodes[|nodes| - 1])
  }

  /** `detect_performance_issues`, given the outcome of parsing the code
      (`None` for a syntax error). */
  function PerformanceIssues(parsed: Option<Node>): seq<string> {
    match parsed
    case None => [SyntaxIssue]
    case Some(tree) =>
      (if LoopDepth(tree) >= 3 then [DeepNestingIssue] else []) + LoopIssues(Walk(tree))
  }

  method DetectPerformanceIssues(parsed: Option<Node>) returns (issues: seq<string>)
    ensures issues == PerformanceIssues(parsed)
  {
    issues := [];
    if parsed.None? {
      issues := issues + [SyntaxIssue];
      return;
    }
    var tree := parsed.value;
    var visitor := new LoopVisitor();
    visitor.Visit(tree);
    assert visitor.maxDepth == LoopDepth(tree);
    if visitor.maxDepth >= 3 {
      issues := issues + [DeepNestingIssue];
    }
    var found := ScanLoops(Walk(tree));
    issues := issues + found;
  }

  /** The outer walk, over every node of the tree. */
  method ScanLoops(nodes: seq<Node>) returns (issues: seq<string>)
    ensures issues == LoopIssues(nodes)
  {
    issues := [];
    for i := 0 to |nodes|
      invariant issues == LoopIssues(nodes[..i])
    {
      assert nodes[..i + 1][..i] == nodes[..i];
      var node := nodes[i];
      if IsLoop(node) {
        var found := ScanLoop(node);
        issues := issues + found;
      }
    }
    assert nodes[..|nodes|] == nodes;
  }

  /** The inner walk over one loop. */
  method ScanLoop(loop: Node) returns (issues: seq<string>)
    ensures issues == WalkIssues(Walk(loop))
  {
    issues := [];
    var children := Walk(loop);
    for j := 0 to |children|
      invariant issues == WalkIssues(children[..j])
    {
      assert children[..j + 1][..j] == children[..j];
      issues := issues + CallIssues(children[j]);
    }
    assert children[..|children|] == children;
  }

  // ---- a reference count: each call once for every loop around it

  /** What `t` counts in `n`, each node counted once for every loop
      around it and including it, when `n` lies inside `d` loops. */
  function NestedWeight(t: Tally, n: Node, d: nat): nat
    decreases Size(n), 1
  {
    SizeOfChildren(n);
    var inner := d + (if IsLoop(n) then 1 else 0);
    Copies(inner, Weight(t, n)) + ForestNestedWeight(t, Children(n), inner)
  }

  function ForestNestedWeight(t: Tally, ns: seq<Node>, d: nat): nat
    decreases SizeAll(ns), 2
  {
    if ns == [] then 0 else NestedWeight(t, ns[0], d) + ForestNestedWeight(t, ns[1..], d)
  }

  /** Counting `t` inside the walk of every loop counts each node once per
      loop around it. */
  lemma {:induction false} InLoopsNested(t: Tally, n: Node, d: nat)
    requires !t.InLoops?
    ensures TreeWeight(InLoops(t), n) + Copies(d, TreeWeight(t, n)) == NestedWeight(t, n, d)
    decreases Size(n), 1
  {
    SizeOfChildren(n);
    var children := Children(n);
    var inner := d + (if IsLoop(n) then 1 else 0);
    InLoopsNestedAll(t, children, inner);
    NestedUnfold(t, n, d);
    NestedStep(d, inner, IsLoop(n), Weight(InLoops(t), n), Weight(t, n), ForestWeight(t, children), TreeWeight(t, n));
  }

  /** One level of each of the three counts. */
  lemma NestedUnfold(t: Tally, n: Node, d: nat)
    ensures TreeWeight(t, n) == Weight(t, n) + ForestWeight(t, Children(n))
    ensures TreeWeight(InLoops(t), n) == Weight(InLoops(t), n) + ForestWeight(InLoops(t), Children(n))
    ensures Weight(InLoops(t), n) == if IsLoop(n) then TreeWeight(t, n) else 0
    ensures var inner := d + (if IsLoop(n) then 1 else 0);
      NestedWeight(t, n, d) == Copies(inner, Weight(t, n)) + ForestNestedWeight(t, Children(n), inner)
  {
    InLoopsAt(t, n);
  }

  /** The arithmetic of one step of the above: a loop adds one copy of its own
      tally, anything else adds nothing. */
  lemma NestedStep(d: nat, inner: nat, loop: bool, here: nat, w: nat, f: nat, tw: nat)
    requires tw == w + f
    requires inner == d + (if loop then 1 else 0)
    requires here == if loop then tw else 0
    ensures here + Copies(d, tw) == Copies(inner, w) + Copies(inner, f)
  {
    CopiesAdd(inner, w, f);
    if loop {
      assert Copies(inner, tw) == tw + Copies(d, tw);
    }
  }

  lemma {:induction false} InLoopsNestedAll(t: Tally, ns: seq<Node>, d: nat)
    requires !t.InLoops?
    ensures ForestWeight(InLoops(t), ns) + Copies(d, ForestWeight(t, ns)) == ForestNestedWeight(t, ns, d)
    decreases SizeAll(ns), 2
  {
    if ns != [] {
      InLoopsNested(t, ns[0], d);
      InLoopsNestedAll(t, ns[1..], d);
      var head, tail := TreeWeight(t, ns[0]), ForestWeight(t, ns[1..]);
      assert ForestWeight(InLoops(t), ns) == TreeWeight(InLoops(t), ns[0]) + ForestWeight(InLoops(t), ns[1..]);
      assert ForestNestedWeight(t, ns, d) == NestedWeight(t, ns[0], d) + ForestNestedWeight(t, ns[1..], d);
      CopiesSplit(d, ForestWeight(t, ns), head, tail);
    } else {
      CopiesAdd(d, 0, 0);
    }
  }

  /** `k * w`, as `k` copies of `w` added up. */
  function Copies(k: nat, w: nat): nat {
    if k == 0 then 0 else w + Copies(k - 1, w)
  }

  lemma {:induction false} CopiesAdd(k: nat, a: nat, b: nat)
    ensures Copies(k, a + b) == Copies(k, a) + Copies(k, b)
  {
    if k > 0 {
      CopiesAdd(k - 1, a, b);
    }
  }

  lemma CopiesSplit(k: nat, w: nat, a: nat, b: nat)
    requires w == a + b
    ensures Copies(k, w) == Copies(k, a) + Copies(k, b)
  {
    CopiesAdd(k, a, b);
  }

  // ---- counting the issues

  lemma DistinctIssues()
    ensures AppendIssue != SortIssue && AppendIssue != DeepNestingIssue && SortIssue != DeepNestingIssue
  {
    assert |SortIssue| < |AppendIssue| < |DeepNestingIssue|;
  }

  /** One node gives at most one issue: an `append` call one, a sorting call
      the other. */
  lemma CallIssuesCounts(c: Node)
    ensures multiset(CallIssues(c))[AppendIssue] == Weight(AppendCalls, c)
    ensures multiset(CallIssues(c))[SortIssue] == Weight(SortCalls, c)
    ensures forall m :: m in CallIssues(c) ==> m == AppendIssue || m == SortIssue
  {
    DistinctIssues();
    if IsAppendCall(c) {
      assert CallIssues(c) == [AppendIssue];
    } else if IsSortCall(c) {
      assert CallIssues(c) == [SortIssue];
    } else {
      assert CallIssues(c) == [];
    }
  }

  lemma {:induction false} WalkIssuesCounts(nodes: seq<Node>)
    ensures multiset(WalkIssues(nodes))[AppendIssue] == ListWeight(AppendCalls, nodes)
    ensures multiset(WalkIssues(nodes))[SortIssue] == ListWeight(SortCalls, nodes)
    ensures forall m :: m in WalkIssues(nodes) ==> m == AppendIssue || m == SortIssue
    decreases |nodes|
  {
    if nodes != [] {
      WalkIssuesCounts(nodes[..|nodes| - 1]);
      CallIssuesCounts(nodes[|nodes| - 1]);
      ListWeightLast(AppendCalls, nodes);
      ListWeightLast(SortCalls, nodes);
    }
  }

  lemma NodeIssuesCounts(n: Node)
    ensures multiset(NodeIssues(n))[AppendIssue] == Weight(InLoops(AppendCalls), n)
    ensures multiset(NodeIssues(n))[SortIssue] == Weight(InLoops(SortCalls), n)
    ensures forall m :: m in NodeIssues(n) ==> m == AppendIssue || m == SortIssue
  {
    if IsLoop(n) {
      var nodes := Walk(n);
      assert NodeIssues(n) == WalkIssues(nodes);
      WalkIssuesCounts(nodes);
      WalkWeight(AppendCalls, n);
      WalkWeight(SortCalls, n);
      InLoopsAt(AppendCalls, n);
      InLoopsAt(SortCalls, n);
    } else {
      assert NodeIssues(n) == [];
      InLoopsAt(AppendCalls, n);
      InLoopsAt(SortCalls, n);
    }
  }

  lemma {:induction false} LoopIssuesCounts(nodes: seq<Node>)
    ensures multiset(LoopIssues(nodes))[AppendIssue] == ListWeight(InLoops(AppendCalls), nodes)
    ensures multiset(LoopIssues(nodes))[SortIssue] == ListWeight(InLoops(SortCalls), nodes)
    ensures forall m :: m in LoopIssues(nodes) ==> m == AppendIssue || m == SortIssue
    decreases |nodes|
  {
    if nodes != [] {
      LoopIssuesCounts(nodes[..|nodes| - 1]);
      NodeIssuesCounts(nodes[|nodes| - 1]);
      ListWeightLast(InLoops(AppendCalls), nodes);
      ListWeightLast(InLoops(SortCalls), nodes);
    }
  }

  /** A walk without loops gives no issue. */
  lemma {:induction false} NoLoopsEmpty(nodes: seq<Node>)
    ensures ListWeight(Loops, nodes) == 0 ==> LoopIssues(nodes) == []
    decreases |nodes|
  {
    if nodes != [] {
      NoLoopsEmpty(nodes[..|nodes| - 1]);
      ListWeightLast(Loops, nodes);
    }
  }

  // ---- properties

  /** Code that does not parse yields exactly one issue. */
  lemma SyntaxErrorIssue()
    ensures PerformanceIssues(None) == [SyntaxIssue]
  {
  }

  /** The deep-nesting issue appears, once and first, exactly when some path
      of the tree passes through three or more loops. */
  lemma DeepNesting(tree: Node)
    ensures var issues := PerformanceIssues(Some(tree));
      && (DeepNestingIssue in issues <==> LoopDepth(tree) >= 3)
      && (LoopDepth(tree) >= 3 ==> issues[0] == DeepNestingIssue)
      && multiset(issues)[DeepNestingIssue] <= 1
  {
    var rest := LoopIssues(Walk(tree));
    var front: seq<string> := if LoopDepth(tree) >= 3 then [DeepNestingIssue] else [];
    assert PerformanceIssues(Some(tree)) == front + rest;
    NoDeepNestingInLoops(Walk(tree));
  }

  /** The loop part never holds the deep-nesting issue. */
  lemma NoDeepNestingInLoops(nodes: seq<Node>)
    ensures DeepNestingIssue !in LoopIssues(nodes)
    ensures multiset(LoopIssues(nodes))[DeepNestingIssue] == 0
  {
    LoopIssuesCounts(nodes);
    DistinctIssues();
  }

  /** Each `append` call gives one issue for every loop around it, and so
      does each `sorted(...)` or `sort(...)` call. */
  lemma CallIssueCounts(tree: Node)
    ensures multiset(PerformanceIssues(Some(tree)))[AppendIssue] == NestedWeight(AppendCalls, tree, 0)
    ensures multiset(PerformanceIssues(Some(tree)))[SortIssue] == NestedWeight(SortCalls, tree, 0)
  {
    DistinctIssues();
    LoopIssuesCounts(Walk(tree));
    AfterDeepNesting(tree, AppendIssue);
    AfterDeepNesting(tree, SortIssue);
    WalkNested(AppendCalls, tree);
    WalkNested(SortCalls, tree);
  }

  /** Any issue other than the deep-nesting one is counted in the loop part
      alone. */
  lemma AfterDeepNesting(tree: Node, m: string)
    requires m != DeepNestingIssue
    ensures multiset(PerformanceIssues(Some(tree)))[m] == multiset(LoopIssues(Walk(tree)))[m]
  {
    var front: seq<string> := if LoopDepth(tree) >= 3 then [DeepNestingIssue] else [];
    assert PerformanceIssues(Some(tree)) == front + LoopIssues(Walk(tree));
    assert multiset(front)[m] == 0;
  }

  /** Tallying `t` inside the walk of every loop of the walk is the nested
      count. */
  lemma WalkNested(t: Tally, tree: Node)
    requires !t.InLoops?
    ensures ListWeight(InLoops(t), Walk(tree)) == NestedWeight(t, tree, 0)
  {
    WalkWeight(InLoops(t), tree);
    InLoopsNested(t, tree, 0);
  }

  /** A call of a method named `sort`, as in `xs.sort()`, is not a sorting
      call. */
  lemma MethodSortNotFlagged(c: Node)
    requires c.Call? && c.func.Attribute?
    ensures SortIssue !in CallIssues(c)
  {
  }

  /** Code without loops yields no issue. */
  lemma NoLoopsNoIssues(tree: Node)
    requires TreeWeight(Loops, tree) == 0
    ensures PerformanceIssues(Some(tree)) == []
  {
    NoLoopsNoDepth(tree);
    WalkWeight(Loops, tree);
    NoLoopsEmpty(Walk(tree));
  }

  /** A fresh visitor ends at depth 0 with the tree's loop depth as its
      maximum. */
  method VisitTree(tree: Node) returns (depth: int, max: int)
    ensures depth == 0 && max == LoopDepth(tree)
  {
    var visitor := new LoopVisitor();
    visitor.Visit(tree);
    depth, max := visitor.nestedLoopDepth, visitor.maxDepth;
  }
}
