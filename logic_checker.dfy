/** The heuristic logic-flaw detector: calls with the wrong number of
    arguments, code after a `return`, and an assignment inside an `if`. */
module LogicChecker {
  import opened Outcomes
  import opened PyStr
  import opened Patterns
  import opened SyntaxTree

  const SyntaxFlaw := "❌ Syntax error in code; unable to analyze logic."
  const IfAssignmentFlaw := "🤖 Possible assignment in `if` statement (did you mean '==' instead of '='?)."

  function ArityFlaw(name: string, actual: nat, expected: nat): string {
    "🤖 Logic flaw: function '" + name + ArityTail(actual, expected)
  }

  /** The part of an arity message after the function's name. */
  function ArityTail(actual: nat, expected: nat): string {
    "' called with " + NatToString(actual) + " args (expected " + NatToString(expected) + ")."
  }

  function UnreachableFlaw(name: string): string {
    "🤖 Unreachable code detected after `return` in function '" + name + "'."
  }

  // ---- function name -> expected argument count

  /** The dictionary built over the walk: each function definition maps its
      name to its number of positional parameters, a later one overwriting an
      earlier one of the same name. */
  function ArityMap(nodes: seq<Node>): map<string, nat>
    decreases |nodes|
  {
    if nodes == [] then map[]
    else
      var m, n := ArityMap(nodes[..|nodes| - 1]), nodes[|nodes| - 1];
      if n.FunctionDef? then m[n.name := Arity(n)] else m
  }

  /** A name is in the dictionary only through a definition, and then with the
      arity of its last definition. */
  lemma {:induction false} ArityMapSource(nodes: seq<Node>, name: string) returns (i: nat)
    requires name in ArityMap(nodes)
    ensures i < |nodes| && nodes[i].FunctionDef? && nodes[i].name == name
    ensures ArityMap(nodes)[name] == Arity(nodes[i])
    ensures forall k :: i < k < |nodes| ==> !(nodes[k].FunctionDef? && nodes[k].name == name)
    decreases |nodes|
  {
    var last := |nodes| - 1;
    var n := nodes[last];
    if n.FunctionDef? && n.name == name {
      i := last;
    } else {
      i := ArityMapSource(nodes[..last], name);
    }
  }

  /** Every definition puts its name in the dictionary; the last one of a name
      gives the value. */
  lemma {:induction false} ArityMapListed(nodes: seq<Node>, i: nat)
    requires i < |nodes| && nodes[i].FunctionDef?
    ensures nodes[i].name in ArityMap(nodes)
    ensures (forall k :: i < k < |nodes| ==> !(nodes[k].FunctionDef? && nodes[k].name == nodes[i].name))
      ==> ArityMap(nodes)[nodes[i].name] == Arity(nodes[i])
    decreases |nodes|
  {
    var last := |nodes| - 1;
    if i < last {
      ArityMapListed(nodes[..last], i);
    }
  }

  // ---- calls with the wrong number of arguments

  /** A flaw for each call, in walk order, of a plain name the dictionary holds
      with another number of positional arguments. */
  function CallFlaws(nodes: seq<Node>, arities: map<string, nat>): seq<string>
    decreases |nodes|
  {
    if nodes == [] then []
    else
      var n := nodes[|nodes| - 1];
      CallFlaws(nodes[..|nodes| - 1], arities)
        + (if IsMismatchedCall(n, arities) then [ArityFlaw(n.func.id, |n.args|, arities[n.func.id])] else [])
  }

  lemma {:induction false} CallFlawSource(nodes: seq<Node>, arities: map<string, nat>, j: nat) returns (i: nat)
    requires j < |CallFlaws(nodes, arities)|
    ensures i < |nodes| && IsMismatchedCall(nodes[i], arities)
    ensures CallFlaws(nodes, arities)[j]
      == ArityFlaw(nodes[i].func.id, |nodes[i].args|, arities[nodes[i].func.id])
    decreases |nodes|
  {
    var last := |nodes| - 1;
    if j < |CallFlaws(nodes[..last], arities)| {
      i := CallFlawSource(nodes[..last], arities, j);
    } else {
      i := last;
    }
  }

  lemma {:induction false} CallFlawListed(nodes: seq<Node>, arities: map<string, nat>, i: nat)
    requires i < |nodes| && IsMismatchedCall(nodes[i], arities)
    ensures ArityFlaw(nodes[i].func.id, |nodes[i].args|, arities[nodes[i].func.id]) in CallFlaws(nodes, arities)
    decreases |nodes|
  {
    var last := |nodes| - 1;
    if i < last {
      CallFlawListed(nodes[..last], arities, i);
    }
  }

  lemma {:induction false} CallFlawCount(nodes: seq<Node>, arities: map<string, nat>)
    ensures |CallFlaws(nodes, arities)| == ListWeight(MismatchedCalls(arities), nodes)
    decreases |nodes|
  {
    if nodes != [] {
      CallFlawCount(nodes[..|nodes| - 1], arities);
      ListWeightLast(MismatchedCalls(arities), nodes);
    }
  }

  // ---- code after a return

  /** One flaw per function definition, in walk order, whose body has a
      `return` before its last statement. */
  function UnreachableFlaws(nodes: seq<Node>): seq<string>
    decreases |nodes|
  {
    if nodes == [] then []
    else
      var n := nodes[|nodes| - 1];
      UnreachableFlaws(nodes[..|nodes| - 1])
        + (if n.FunctionDef? && HasEarlyReturn(n.body) then [UnreachableFlaw(n.name)] else [])
  }

  lemma {:induction false} UnreachableFlawSource(nodes: seq<Node>, j: nat) returns (i: nat)
    requires j < |UnreachableFlaws(nodes)|
    ensures i < |nodes| && nodes[i].FunctionDef? && HasEarlyReturn(nodes[i].body)
    ensures UnreachableFlaws(nodes)[j] == UnreachableFlaw(nodes[i].name)
    decreases |nodes|
  {
    var last := |nodes| - 1;
    if j < |UnreachableFlaws(nodes[..last])| {
      i := UnreachableFlawSource(nodes[..last], j);
    } else {
      i := last;
    }
  }

  lemma {:induction false} UnreachableFlawListed(nodes: seq<Node>, i: nat)
    requires i < |nodes| && nodes[i].FunctionDef? && HasEarlyReturn(nodes[i].body)
    ensures UnreachableFlaw(nodes[i].name) in UnreachableFlaws(nodes)
    decreases |nodes|
  {
    var last := |nodes| - 1;
    if i < last {
      UnreachableFlawListed(nodes[..last], i);
    }
  }

  /** One flaw per such function, so never more flaws than functions. */
  lemma {:induction false} UnreachableFlawCount(nodes: seq<Node>)
    ensures |UnreachableFlaws(nodes)| == ListWeight(EarlyReturns, nodes)
    ensures ListWeight(EarlyReturns, nodes) <= ListWeight(Functions, nodes)
    decreases |nodes|
  {
    if nodes != [] {
      UnreachableFlawCount(nodes[..|nodes| - 1]);
      ListWeightLast(EarlyReturns, nodes);
      ListWeightLast(Functions, nodes);
    }
  }

  // ---- the whole detector

  /** `detect_logic_flaws`, given the code and the outcome of parsing it
      (`None` for a syntax error): the call flaws, then the unreachable-code
      flaws, then at most one assignment-in-`if` flaw. */
  function LogicFlaws(code: string, parsed: Option<Node>): seq<string> {
    match parsed
    case None => [SyntaxFlaw]
    case Some(tree) =>
      var nodes := Walk(tree);
      CallFlaws(nodes, ArityMap(nodes)) + UnreachableFlaws(nodes)
        + (if AssignInIf(code) then [IfAssignmentFlaw] else [])
  }

  method DetectLogicFlaws(code: string, parsed: Option<Node>) returns (flaws: seq<string>)
    ensures flaws == LogicFlaws(code, parsed)
  {
    flaws := [];
    if parsed.None? {
      return [SyntaxFlaw];
    }
    var nodes := Walk(parsed.value);
    var arities := ArityMap(nodes);
    flaws := CheckCalls(nodes, arities);
    var unreachable := CheckReturns(nodes);
    flaws := flaws + unreachable;
    if AssignInIf(code) {
      flaws := flaws + [IfAssignmentFlaw];
    }
  }

  method CheckCalls(nodes: seq<Node>, arities: map<string, nat>) returns (flaws: seq<string>)
    ensures flaws == CallFlaws(nodes, arities)
  {
    flaws := [];
    for i := 0 to |nodes|
      invariant flaws == CallFlaws(nodes[..i], arities)
    {
      assert nodes[..i + 1][..i] == nodes[..i];
      var node := nodes[i];
      if node.Call? && node.func.Name? {
        var name := node.func.id;
        if name in arities {
          var expected := arities[name];
          var actual := |node.args|;
          if actual != expected {
            flaws := flaws + [ArityFlaw(name, actual, expected)];
          }
        }
      }
    }
    assert nodes[..|nodes|] == nodes;
  }

  method CheckReturns(nodes: seq<Node>) returns (flaws: seq<string>)
    ensures flaws == UnreachableFlaws(nodes)
  {
    flaws := [];
    for i := 0 to |nodes|
      invariant flaws == UnreachableFlaws(nodes[..i])
    {
      assert nodes[..i + 1][..i] == nodes[..i];
      var node := nodes[i];
      if node.FunctionDef? {
        var early := FindEarlyReturn(node.body);
        if early {
          flaws := flaws + [UnreachableFlaw(node.name)];
        }
      }
    }
    assert nodes[..|nodes|] == nodes;
  }

  /** The scan of `body[:-1]` that stops at the first `return`. */
  method FindEarlyReturn(body: seq<Node>) returns (found: bool)
    ensures found == HasEarlyReturn(body)
  {
    var init := if |body| == 0 then [] else body[..|body| - 1];
    var i := 0;
    found := false;
    while i < |init|
      invariant i <= |init|
      invariant forall k :: 0 <= k < i ==> !init[k].Return?
      decreases |init| - i
    {
      if init[i].Return? {
        found := true;
        break;
      }
      i := i + 1;
    }
  }

  // ---- properties

  /** Code that does not parse yields the one syntax message and nothing else. */
  lemma SyntaxErrorFlaw(code: string)
    ensures LogicFlaws(code, None) == [SyntaxFlaw]
  {
  }

  /** For a parsed tree, the detector's list splits into its three parts:
      the call flaws count the mismatched calls of the tree, the
      unreachable-code flaws count the functions with an early `return`, and
      the last part is the assignment-in-`if` flaw exactly when the pattern
      matches. */
  lemma ParsedFlaws(code: string, tree: Node)
    ensures var nodes := Walk(tree);
      var calls, unreachable := CallFlaws(nodes, ArityMap(nodes)), UnreachableFlaws(nodes);
      var flaws := LogicFlaws(code, Some(tree));
      && flaws[..|calls|] == calls
      && flaws[|calls|..|calls| + |unreachable|] == unreachable
      && |calls| == TreeWeight(MismatchedCalls(ArityMap(nodes)), tree)
      && |unreachable| == TreeWeight(EarlyReturns, tree) <= TreeWeight(Functions, tree)
      && (flaws[|calls| + |unreachable|..] == if AssignInIf(code) then [IfAssignmentFlaw] else [])
  {
    var nodes := Walk(tree);
    var arities := ArityMap(nodes);
    CallFlawCount(nodes, arities);
    WalkWeight(MismatchedCalls(arities), tree);
    UnreachableFlawCount(nodes);
    WalkWeight(EarlyReturns, tree);
    WalkWeight(Functions, tree);
  }

  /** A call is flagged exactly when it calls a plain name that some function
      of the tree defines, with another number of positional arguments than
      the last such definition has. The converse needs only that the name holds
      no quote, which is true of every Python identifier: then a message for
      this name and this argument count, whatever the expected count, is in the
      list only when the name is defined, the counts differ and the expected
      count is the definition's. An undefined name such as `print` is never
      flagged. */
  lemma CallFlagged(tree: Node, i: nat)
    requires i < |Walk(tree)|
    requires var c := Walk(tree)[i]; c.Call? && c.func.Name?
    ensures var nodes, c := Walk(tree), Walk(tree)[i];
      (c.func.id in ArityMap(nodes) && |c.args| != ArityMap(nodes)[c.func.id])
        ==> ArityFlaw(c.func.id, |c.args|, ArityMap(nodes)[c.func.id]) in CallFlaws(nodes, ArityMap(nodes))
    ensures var nodes, c := Walk(tree), Walk(tree)[i];
      '\'' !in c.func.id ==>
        forall e: nat :: ArityFlaw(c.func.id, |c.args|, e) in CallFlaws(nodes, ArityMap(nodes)) ==>
          c.func.id in ArityMap(nodes) && |c.args| != ArityMap(nodes)[c.func.id] && e == ArityMap(nodes)[c.func.id]
  {
    var nodes := Walk(tree);
    if IsMismatchedCall(nodes[i], ArityMap(nodes)) {
      CallFlawListed(nodes, ArityMap(nodes), i);
    }
    var c := nodes[i];
    if '\'' !in c.func.id {
      forall e: nat | ArityFlaw(c.func.id, |c.args|, e) in CallFlaws(nodes, ArityMap(nodes))
        ensures c.func.id in ArityMap(nodes) && |c.args| != ArityMap(nodes)[c.func.id] && e == ArityMap(nodes)[c.func.id]
      {
        FlawedCallDefined(nodes, ArityMap(nodes), c.func.id, |c.args|, e);
      }
    }
  }

  /** A message naming a quote-free name is in the list only when some call of
      that name, with that many arguments, mismatches the dictionary's count,
      and the message's expected count is the dictionary's. */
  lemma FlawedCallDefined(nodes: seq<Node>, arities: map<string, nat>, name: string, actual: nat, expected: nat)
    requires '\'' !in name
    requires ArityFlaw(name, actual, expected) in CallFlaws(nodes, arities)
    ensures name in arities && actual != arities[name] && expected == arities[name]
  {
    var j :| 0 <= j < |CallFlaws(nodes, arities)| && CallFlaws(nodes, arities)[j] == ArityFlaw(name, actual, expected);
    var i := CallFlawSource(nodes, arities, j);
    var n := nodes[i];
    ArityFlawInjective(name, actual, expected, n.func.id, |n.args|, arities[n.func.id]);
  }

  /** An arity message determines the name, the argument count and the
      expected count, provided the first name holds no quote. */
  lemma ArityFlawInjective(n1: string, a1: nat, e1: nat, n2: string, a2: nat, e2: nat)
    requires '\'' !in n1
    requires ArityFlaw(n1, a1, e1) == ArityFlaw(n2, a2, e2)
    ensures n1 == n2 && a1 == a2 && e1 == e2
  {
    ArityTailQuote(a1, e1);
    ArityTailQuote(a2, e2);
    HeadNameTail("🤖 Logic flaw: function '", n1, ArityTail(a1, e1), n2, ArityTail(a2, e2));
    ArityTailInjective(a1, e1, a2, e2);
  }

  /** After a common head, a quote-free name and a tail that starts with the
      only quote it holds are fixed by the whole text. */
  lemma HeadNameTail(head: string, x: string, q: string, y: string, r: string)
    requires '\'' !in x
    requires q != [] && q[0] == '\'' && forall k :: 1 <= k < |q| ==> q[k] != '\''
    requires r != [] && r[0] == '\''
    requires head + x + q == head + y + r
    ensures x == y && q == r
  {
    assert x + q == (head + x + q)[|head|..];
    assert y + r == (head + y + r)[|head|..];
    NameBeforeQuote(x, q, y, r);
  }

  /** The tail starts with the name's closing quote and holds no other. */
  lemma ArityTailQuote(actual: nat, expected: nat)
    ensures var t := ArityTail(actual, expected);
      t != [] && t[0] == '\'' && forall k :: 1 <= k < |t| ==> t[k] != '\''
  {
    var d, e := NatToString(actual), NatToString(expected);
    var t := ArityTail(actual, expected);
    var p1, p2 := "' called with ", " args (expected ";
    assert t == p1 + d + p2 + e + ").";
    forall k | 1 <= k < |t| ensures t[k] != '\'' {
      if k < |p1| {
        assert t[k] == p1[k];
      } else if k < |p1| + |d| {
        assert t[k] == d[k - |p1|];
      } else if k < |p1| + |d| + |p2| {
        assert t[k] == p2[k - |p1| - |d|];
      } else if k < |p1| + |d| + |p2| + |e| {
        assert t[k] == e[k - |p1| - |d| - |p2|];
      } else {
        assert t[k] == ")."[k - |p1| - |d| - |p2| - |e|];
      }
    }
  }

  /** A quote-free name followed by a tail whose only quote is its first
      character ends where that quote is. */
  lemma NameBeforeQuote(x: string, q: string, y: string, r: string)
    requires '\'' !in x
    requires q != [] && q[0] == '\'' && forall k :: 1 <= k < |q| ==> q[k] != '\''
    requires r != [] && r[0] == '\''
    requires x + q == y + r
    ensures x == y && q == r
  {
    OnlyQuoteAt(x, q);
    assert (y + r)[|y|] == '\'';
    assert x == (x + q)[..|x|];
    assert y == (y + r)[..|y|];
  }

  /** In a quote-free text followed by such a tail, the only quote is the
      tail's first character. */
  lemma OnlyQuoteAt(x: string, q: string)
    requires '\'' !in x
    requires q != [] && q[0] == '\'' && forall k :: 1 <= k < |q| ==> q[k] != '\''
    ensures forall k :: 0 <= k < |x + q| && k != |x| ==> (x + q)[k] != '\''
  {
    forall k | 0 <= k < |x + q| && k != |x| ensures (x + q)[k] != '\'' {
      if k < |x| {
        assert (x + q)[k] == x[k];
      } else {
        assert (x + q)[k] == q[k - |x|];
      }
    }
  }

  /** The tail determines both counts. */
  lemma ArityTailInjective(a1: nat, e1: nat, a2: nat, e2: nat)
    requires ArityTail(a1, e1) == ArityTail(a2, e2)
    ensures a1 == a2 && e1 == e2
  {
    CountParts("' called with ", NatToString(a1), " args (expected ", NatToString(e1), ").",
      NatToString(a2), NatToString(e2));
    NatToStringInjective(a1, a2);
    NatToStringInjective(e1, e2);
  }

  /** Two digit strings, each between a common head and a common text that
      starts with a space, followed by a common end, are fixed by the whole. */
  lemma CountParts(head: string, d1: string, mid: string, f1: string, end: string, d2: string, f2: string)
    requires forall k :: 0 <= k < |d1| ==> '0' <= d1[k] <= '9'
    requires forall k :: 0 <= k < |d2| ==> '0' <= d2[k] <= '9'
    requires mid != [] && mid[0] == ' '
    requires head + d1 + mid + f1 + end == head + d2 + mid + f2 + end
    ensures d1 == d2 && f1 == f2
  {
    var v1, v2 := mid + f1 + end, mid + f2 + end;
    assert head + d1 + mid + f1 + end == head + (d1 + v1);
    assert head + d2 + mid + f2 + end == head + (d2 + v2);
    assert d1 + v1 == (head + (d1 + v1))[|head|..];
    assert d2 + v2 == (head + (d2 + v2))[|head|..];
    DigitsBeforeSpace(d1, v1, d2, v2);
    assert f1 + end == v1[|mid|..];
    assert f2 + end == v2[|mid|..];
    assert f1 == (f1 + end)[..|f1|];
    assert f2 == (f2 + end)[..|f2|];
  }

  /** Two digit strings, each followed by a space, end at the same place. */
  lemma DigitsBeforeSpace(x: string, q: string, y: string, r: string)
    requires forall k :: 0 <= k < |x| ==> '0' <= x[k] <= '9'
    requires forall k :: 0 <= k < |y| ==> '0' <= y[k] <= '9'
    requires q != [] && q[0] == ' ' && r != [] && r[0] == ' '
    requires x + q == y + r
    ensures x == y && q == r
  {
    DigitsFirst(x, q);
    DigitsFirst(y, r);
    assert (x + q)[|x|] == ' ';
    assert (y + r)[|y|] == ' ';
    assert x == (x + q)[..|x|];
    assert y == (y + r)[..|y|];
  }

  lemma DigitsFirst(x: string, q: string)
    requires forall k :: 0 <= k < |x| ==> '0' <= x[k] <= '9'
    ensures forall k :: 0 <= k < |x| ==> '0' <= (x + q)[k] <= '9'
  {
  }
}
