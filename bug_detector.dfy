/** The tree-based bug detector: a syntax error, assignments to the name
    `sum`, and `pass` statements. */
module BugDetector {
  import opened Outcomes
  import opened SyntaxTree

  /** One finding: the record with keys message, severity and tip. */
  datatype Bug = Bug(message: string, severity: string, tip: string)

  const SumBug := Bug(
    "Avoid using 'sum' as a variable (shadows built-in).",
    "medium",
    "Using 'sum' as a variable name overrides Python’s built-in sum() function, which can cause unexpected behavior.")

  const PassBug := Bug(
    "Consider removing unused 'pass' statement (possible dead code).",
    "low",
    "'pass' can be removed unless you're using it as a placeholder for future code.")

  const SyntaxBug := Bug(
    "Syntax Error in code. Unable to parse.",
    "high",
    "Check for typos or indentation issues in your code.")

  /** `k` copies of one finding. */
  function Repeat(b: Bug, k: nat): (bs: seq<Bug>)
    ensures |bs| == k && forall i :: 0 <= i < k ==> bs[i] == b
  {
    seq(k, _ => b)
  }

  /** What one node of the walk contributes: a finding per `sum` target of an
      assignment, then one for a `pass` statement. */
  function NodeBugs(n: Node): seq<Bug> {
    (if n.Assign? then Repeat(SumBug, SumTargetCount(n.targets)) else [])
      + (if n.Pass? then [PassBug] else [])
  }

  /** The findings for the nodes of a walk, in order. */
  function BugsFrom(nodes: seq<Node>): seq<Bug>
    decreases |nodes|
  {
    if nodes == [] then []
    else BugsFrom(nodes[..|nodes| - 1]) + NodeBugs(nodes[|nodes| - 1])
  }

  /** `detect_bugs`, given the outcome of parsing the code (`None` for a
      syntax error). */
  function Bugs(parsed: Option<Node>): seq<Bug> {
    match parsed
    case None => [SyntaxBug]
    case Some(tree) => BugsFrom(Walk(tree))
  }

  method DetectBugs(parsed: Option<Node>) returns (bugs: seq<Bug>)
    ensures bugs == Bugs(parsed)
  {
    bugs := [];
    if parsed.None? {
      bugs := bugs + [SyntaxBug];
      return;
    }
    var nodes := Walk(parsed.value);
    for i := 0 to |nodes|
      invariant bugs == BugsFrom(nodes[..i])
    {
      assert nodes[..i + 1][..i] == nodes[..i];
      var found := CheckNode(nodes[i]);
      bugs := bugs + found;
    }
    assert nodes[..|nodes|] == nodes;
  }

  /** The two checks of the loop body on one node of the walk. */
  method CheckNode(node: Node) returns (found: seq<Bug>)
    ensures found == NodeBugs(node)
  {
    found := [];
    if node.Assign? {
      found := SumTargetBugs(node.targets);
    }
    if node.Pass? {
      found := found + [PassBug];
    }
  }

  /** The loop over an assignment's targets. */
  method SumTargetBugs(targets: seq<Node>) returns (found: seq<Bug>)
    ensures found == Repeat(SumBug, SumTargetCount(targets))
  {
    found := [];
    for j := 0 to |targets|
      invariant found == Repeat(SumBug, SumTargetCount(targets[..j]))
    {
      assert targets[..j + 1][..j] == targets[..j];
      if targets[j] == Name("sum") {
        found := found + [SumBug];
      }
    }
    assert targets[..|targets|] == targets;
  }

  // ---- properties

  /** Code that does not parse yields exactly one finding, of high severity. */
  lemma SyntaxErrorBug()
    ensures Bugs(None) == [SyntaxBug] && Bugs(None)[0].severity == "high"
  {
  }

  /** Every finding is one of the three, and a parsed tree never yields the
      high-severity one. */
  lemma {:induction false} BugsFromKinds(nodes: seq<Node>)
    ensures forall b :: b in BugsFrom(nodes) ==> b == SumBug || b == PassBug
    decreases |nodes|
  {
    if nodes != [] {
      BugsFromKinds(nodes[..|nodes| - 1]);
    }
  }

  lemma BugSeverities(parsed: Option<Node>)
    ensures forall b :: b in Bugs(parsed) ==> b.severity in {"low", "medium", "high"}
    ensures parsed.Some? ==> forall b :: b in Bugs(parsed) ==> b.severity != "high"
  {
    if parsed.Some? {
      BugsFromKinds(Walk(parsed.value));
    }
  }

  /** Along the walk, the `sum` findings count the `sum` targets and the
      `pass` findings count the `pass` statements. */
  lemma {:induction false} BugsFromCounts(nodes: seq<Node>)
    ensures multiset(BugsFrom(nodes))[SumBug] == ListWeight(SumTargets, nodes)
    ensures multiset(BugsFrom(nodes))[PassBug] == ListWeight(Passes, nodes)
    ensures |BugsFrom(nodes)| == ListWeight(SumTargets, nodes) + ListWeight(Passes, nodes)
    decreases |nodes|
  {
    if nodes != [] {
      var k := |nodes| - 1;
      BugsFromCounts(nodes[..k]);
      NodeBugsCounts(nodes[k]);
      ListWeightLast(SumTargets, nodes);
      ListWeightLast(Passes, nodes);
    }
  }

  /** One node gives as many `sum` findings as it has `sum` targets, and one
      `pass` finding if it is a `pass` statement. */
  lemma NodeBugsCounts(n: Node)
    ensures multiset(NodeBugs(n))[SumBug] == Weight(SumTargets, n)
    ensures multiset(NodeBugs(n))[PassBug] == Weight(Passes, n)
    ensures |NodeBugs(n)| == Weight(SumTargets, n) + Weight(Passes, n)
  {
    assert |SumBug.severity| != |PassBug.severity|;
    if n.Assign? {
      RepeatCount(SumBug, SumTargetCount(n.targets));
      assert NodeBugs(n) == Repeat(SumBug, SumTargetCount(n.targets));
    } else if n.Pass? {
      assert NodeBugs(n) == [PassBug];
    } else {
      assert NodeBugs(n) == [];
    }
  }

  lemma RepeatCount(b: Bug, k: nat)
    ensures multiset(Repeat(b, k))[b] == k
    ensures forall c :: c != b ==> multiset(Repeat(b, k))[c] == 0
  {
    var r := Repeat(b, k);
    if k > 0 {
      RepeatCount(b, k - 1);
      assert r == Repeat(b, k - 1) + [b];
    } else {
      assert r == [];
    }
  }

  /** For a parsed tree: one `sum` finding per assignment target that is the
      name `sum`, one `pass` finding per `pass` statement, and nothing else. */
  lemma BugCounts(tree: Node)
    ensures multiset(Bugs(Some(tree)))[SumBug] == TreeWeight(SumTargets, tree)
    ensures multiset(Bugs(Some(tree)))[PassBug] == TreeWeight(Passes, tree)
    ensures |Bugs(Some(tree))| == TreeWeight(SumTargets, tree) + TreeWeight(Passes, tree)
  {
    BugsFromCounts(Walk(tree));
    WalkWeight(SumTargets, tree);
    WalkWeight(Passes, tree);
  }
}
