/** Python syntax trees, as far as the tree checkers look into them, and
    `ast.walk`: the breadth-first listing of a node and all nodes below it. */
module SyntaxTree {

  /** The node kinds the checkers distinguish, each with its child nodes in the
      order of the node's fields; every other kind is `Other`. A function's
      `arguments` is its `ast.arguments` node, whose `params` are `args.args`; a
      name's `ctx` leaf is left out, as no checker looks at it and a leaf does
      not change the order in which the walk meets the other nodes. A
      function's `trailing` children are the nodes of the fields after its body,
      in field order: the decorators, the return annotation and the type
      parameters. */
  datatype Node =
    | Module(body: seq<Node>)
    | FunctionDef(name: string, arguments: Node, body: seq<Node>, trailing: seq<Node>)
    | Arguments(posonly: seq<Node>, params: seq<Node>, rest: seq<Node>)
    | Return(returned: seq<Node>)
    | Pass
    | Assign(targets: seq<Node>, value: Node)
    | Call(func: Node, args: seq<Node>, keywords: seq<Node>)
    | Name(id: string)
    | Attribute(value: Node, attr: string)
    | For(target: Node, iter: Node, body: seq<Node>, orelse: seq<Node>)
    | While(test: Node, body: seq<Node>, orelse: seq<Node>)
    | Other(children: seq<Node>)

  /** `ast.iter_child_nodes`. */
  function Children(n: Node): seq<Node> {
    match n
    case Module(body) => body
    case FunctionDef(_, args, body, trailing) => [args] + body + trailing
    case Arguments(posonly, params, rest) => posonly + params + rest
    case Return(returned) => returned
    case Pass => []
    case Assign(targets, value) => targets + [value]
    case Call(func, args, keywords) => [func] + args + keywords
    case Name(_) => []
    case Attribute(value, _) => [value]
    case For(target, iter, body, orelse) => [target, iter] + body + orelse
    case While(test, body, orelse) => [test] + body + orelse
    case Other(children) => children
  }

  /** `len(node.args.args)` of a function definition. */
  function Arity(n: Node): nat
    requires n.FunctionDef?
  {
    if n.arguments.Arguments? then |n.arguments.params| else 0
  }

  predicate IsLoop(n: Node) {
    n.For? || n.While?
  }

  /** The number of nodes in a tree. */
  function Size(n: Node): nat
    decreases n
  {
    match n
    case Module(body) => 1 + SizeAll(body)
    case FunctionDef(_, args, body, trailing) => 1 + Size(args) + SizeAll(body) + SizeAll(trailing)
    case Arguments(posonly, params, rest) => 1 + SizeAll(posonly) + SizeAll(params) + SizeAll(rest)
    case Return(returned) => 1 + SizeAll(returned)
    case Pass => 1
    case Assign(targets, value) => 1 + SizeAll(targets) + Size(value)
    case Call(func, args, keywords) => 1 + Size(func) + SizeAll(args) + SizeAll(keywords)
    case Name(_) => 1
    case Attribute(value, _) => 1 + Size(value)
    case For(target, iter, body, orelse) => 1 + Size(target) + Size(iter) + SizeAll(body) + SizeAll(orelse)
    case While(test, body, orelse) => 1 + Size(test) + SizeAll(body) + SizeAll(orelse)
    case Other(children) => 1 + SizeAll(children)
  }

  function SizeAll(ns: seq<Node>): nat
    decreases ns
  {
    if ns == [] then 0 else Size(ns[0]) + SizeAll(ns[1..])
  }

  lemma {:induction false} SizeAllConcat(a: seq<Node>, b: seq<Node>)
    ensures SizeAll(a + b) == SizeAll(a) + SizeAll(b)
    decreases |a|
  {
    if a != [] {
      assert (a + b)[1..] == a[1..] + b;
      SizeAllConcat(a[1..], b);
    } else {
      assert a + b == b;
    }
  }

  lemma SizeAllOne(n: Node)
    ensures SizeAll([n]) == Size(n)
  {
    assert [n][1..] == [];
  }

  /** A node counts itself and the nodes below its children. */
  lemma SizeOfChildren(n: Node)
    ensures Size(n) == 1 + SizeAll(Children(n))
  {
    match n
    case FunctionDef(_, args, body, trailing) =>
      SizeAllConcat([args] + body, trailing);
      SizeAllConcat([args], body);
      SizeAllOne(args);
    case Arguments(posonly, params, rest) =>
      SizeAllConcat(posonly + params, rest);
      SizeAllConcat(posonly, params);
    case Assign(targets, value) =>
      SizeAllConcat(targets, [value]);
      SizeAllOne(value);
    case Call(func, args, keywords) =>
      SizeAllConcat([func] + args, keywords);
      SizeAllConcat([func], args);
      SizeAllOne(func);
    case Attribute(value, _) =>
      SizeAllOne(value);
    case For(target, iter, body, orelse) =>
      SizeAllConcat([target, iter] + body, orelse);
      SizeAllConcat([target, iter], body);
      assert [target, iter] == [target] + [iter];
      SizeAllConcat([target], [iter]);
      SizeAllOne(target);
      SizeAllOne(iter);
    case While(test, body, orelse) =>
      SizeAllConcat([test] + body, orelse);
      SizeAllConcat([test], body);
      SizeAllOne(test);
    case _ =>
  }

  /** Every child is smaller than its parent. */
  lemma ChildSmaller(n: Node, i: nat)
    requires i < |Children(n)|
    ensures Size(Children(n)[i]) < Size(n)
  {
    var cs := Children(n);
    SizeOfChildren(n);
    assert cs == cs[..i] + [cs[i]] + cs[i + 1..];
    SizeAllConcat(cs[..i] + [cs[i]], cs[i + 1..]);
    SizeAllConcat(cs[..i], [cs[i]]);
    SizeAllOne(cs[i]);
  }

  /** `ast.walk` from a queue of nodes: take the first, queue its children at
      the back, and list it. */
  function WalkFrom(queue: seq<Node>): seq<Node>
    decreases SizeAll(queue)
  {
    if queue == [] then []
    else
      SizeOfChildren(queue[0]);
      SizeAllConcat(queue[1..], Children(queue[0]));
      [queue[0]] + WalkFrom(queue[1..] + Children(queue[0]))
  }

  /** `ast.walk(node)`. */
  function Walk(n: Node): seq<Node> {
    WalkFrom([n])
  }

  lemma WalkStartsAtRoot(n: Node)
    ensures Walk(n) != [] && Walk(n)[0] == n
  {
  }

  // ---- what the checkers count over a walk

  /** A per-node count. `InLoops(t)` counts, at each loop node, what `t` counts
      in the whole subtree of that loop. */
  datatype Tally =
    | Nodes
    | Loops
    | Passes
    | SumTargets
    | MismatchedCalls(arities: map<string, nat>)
    | AppendCalls
    | SortCalls
    | Functions
    | EarlyReturns
    | InLoops(inner: Tally)

  /** The number of targets of an assignment that are the bare name `sum`. */
  function SumTargetCount(targets: seq<Node>): nat
    decreases |targets|
  {
    if targets == [] then 0
    else SumTargetCount(targets[..|targets| - 1]) + (if targets[|targets| - 1] == Name("sum") then 1 else 0)
  }

  /** A call of a plain name that `arities` holds, with another number of
      positional arguments. */
  predicate IsMismatchedCall(n: Node, arities: map<string, nat>) {
    n.Call? && n.func.Name? && n.func.id in arities && |n.args| != arities[n.func.id]
  }

  /** A call of an attribute named `append`. */
  predicate IsAppendCall(n: Node) {
    n.Call? && n.func.Attribute? && n.func.attr == "append"
  }

  /** A call of the plain name `sorted` or `sort`. */
  predicate IsSortCall(n: Node) {
    n.Call? && n.func.Name? && (n.func.id == "sorted" || n.func.id == "sort")
  }

  /** A `return` statement before the last statement of a body. */
  predicate HasEarlyReturn(body: seq<Node>) {
    exists i :: 0 <= i < |body| - 1 && body[i].Return?
  }

  function Weight(t: Tally, n: Node): nat
    decreases t, Size(n), 0
  {
    match t
    case Nodes => 1
    case Loops => if IsLoop(n) then 1 else 0
    case Passes => if n.Pass? then 1 else 0
    case SumTargets => if n.Assign? then SumTargetCount(n.targets) else 0
    case MismatchedCalls(arities) => if IsMismatchedCall(n, arities) then 1 else 0
    case AppendCalls => if IsAppendCall(n) then 1 else 0
    case SortCalls => if IsSortCall(n) then 1 else 0
    case Functions => if n.FunctionDef? then 1 else 0
    case EarlyReturns => if n.FunctionDef? && HasEarlyReturn(n.body) then 1 else 0
    case InLoops(inner) => if IsLoop(n) then TreeWeight(inner, n) else 0
  }

  /** At a loop, `InLoops(t)` counts what `t` counts in the loop's tree. */
  lemma InLoopsAt(t: Tally, n: Node)
    ensures Weight(InLoops(t), n) == if IsLoop(n) then TreeWeight(t, n) else 0
  {
  }

  /** The tally over a whole tree, by structure. */
  function TreeWeight(t: Tally, n: Node): nat
    decreases t, Size(n), 1
  {
    SizeOfChildren(n);
    Weight(t, n) + ForestWeight(t, Children(n))
  }

  function ForestWeight(t: Tally, ns: seq<Node>): nat
    decreases t, SizeAll(ns), 2
  {
    if ns == [] then 0 else TreeWeight(t, ns[0]) + ForestWeight(t, ns[1..])
  }

  /** The tally over a list of nodes, one by one. */
  function ListWeight(t: Tally, ns: seq<Node>): nat
    decreases |ns|
  {
    if ns == [] then 0 else Weight(t, ns[0]) + ListWeight(t, ns[1..])
  }

  lemma {:induction false} ForestWeightConcat(t: Tally, a: seq<Node>, b: seq<Node>)
    ensures ForestWeight(t, a + b) == ForestWeight(t, a) + ForestWeight(t, b)
    decreases |a|
  {
    if a != [] {
      assert (a + b)[1..] == a[1..] + b;
      ForestWeightConcat(t, a[1..], b);
    } else {
      assert a + b == b;
    }
  }

  lemma {:induction false} ListWeightConcat(t: Tally, a: seq<Node>, b: seq<Node>)
    ensures ListWeight(t, a + b) == ListWeight(t, a) + ListWeight(t, b)
    decreases |a|
  {
    if a != [] {
      assert (a + b)[1..] == a[1..] + b;
      ListWeightConcat(t, a[1..], b);
    } else {
      assert a + b == b;
    }
  }

  /** Counting node by node from the back. */
  lemma ListWeightLast(t: Tally, nodes: seq<Node>)
    requires nodes != []
    ensures ListWeight(t, nodes) == ListWeight(t, nodes[..|nodes| - 1]) + Weight(t, nodes[|nodes| - 1])
  {
    var k := |nodes| - 1;
    assert nodes == nodes[..k] + [nodes[k]];
    ListWeightConcat(t, nodes[..k], [nodes[k]]);
    assert [nodes[k]][1..] == [];
  }

  /** Counting along the walk gives the count over the trees of the queue:
      whatever the walk's order, it meets every node once. */
  lemma {:induction false} WalkFromWeight(t: Tally, queue: seq<Node>)
    ensures ListWeight(t, WalkFrom(queue)) == ForestWeight(t, queue)
    decreases SizeAll(queue)
  {
    if queue != [] {
      var head, rest := queue[0], queue[1..];
      SizeOfChildren(head);
      SizeAllConcat(rest, Children(head));
      WalkFromWeight(t, rest + Children(head));
      ForestWeightConcat(t, rest, Children(head));
      assert WalkFrom(queue) == [head] + WalkFrom(rest + Children(head));
      ListWeightConcat(t, [head], WalkFrom(rest + Children(head)));
    }
  }

  lemma WalkWeight(t: Tally, n: Node)
    ensures ListWeight(t, Walk(n)) == TreeWeight(t, n)
  {
    WalkFromWeight(t, [n]);
    assert [n][1..] == [];
  }

  /** The walk lists every node of the tree once. */
  lemma WalkLength(n: Node)
    ensures |Walk(n)| == TreeWeight(Nodes, n)
  {
    WalkWeight(Nodes, n);
    ListNodes(Walk(n));
  }

  lemma {:induction false} ListNodes(ns: seq<Node>)
    ensures ListWeight(Nodes, ns) == |ns|
    decreases |ns|
  {
    if ns != [] {
      ListNodes(ns[1..]);
    }
  }

  /** The largest number of loops on a path from `n` down to a node below it. */
  function LoopDepth(n: Node): nat
    decreases Size(n), 1
  {
    SizeOfChildren(n);
    (if IsLoop(n) then 1 else 0) + MaxLoopDepth(Children(n))
  }

  function MaxLoopDepth(ns: seq<Node>): nat
    decreases SizeAll(ns), 2
  {
    if ns == [] then 0
    else
      var first, others := LoopDepth(ns[0]), MaxLoopDepth(ns[1..]);
      if first >= others then first else others
  }

  /** A tree has loop depth 0 iff it holds no loop. */
  lemma {:induction false} NoLoopsNoDepth(n: Node)
    ensures TreeWeight(Loops, n) == 0 <==> LoopDepth(n) == 0
    decreases Size(n), 1
  {
    SizeOfChildren(n);
    NoLoopsNoDepthAll(Children(n));
  }

  lemma {:induction false} NoLoopsNoDepthAll(ns: seq<Node>)
    ensures ForestWeight(Loops, ns) == 0 <==> MaxLoopDepth(ns) == 0
    decreases SizeAll(ns), 2
  {
    if ns != [] {
      NoLoopsNoDepth(ns[0]);
      NoLoopsNoDepthAll(ns[1..]);
    }
  }
}
