/** The older `analyze_python_code`: the same three Python rules as the review
    engine, with the lists returned in a dict. */
module LegacyReviewEngine {
  import opened PyStr
  import opened Outcomes
  import opened Patterns
  import opened ReviewEngine

  /** The dict of the older rule set, or the exception it raises. */
  function LegacyFindings(code: string): PyResult<map<string, seq<string>>> {
    match PythonFindings(code)
    case Raised(e) => Raised(e)
    case Ok(f) => Ok(map["suggestions" := f.suggestions, "warnings" := f.warnings, "optimizations" := f.optimizations])
  }

  /** The older `analyze_python_code`. */
  method AnalyzePythonCode(code: string) returns (r: PyResult<map<string, seq<string>>>)
    ensures r == LegacyFindings(code)
  {
    var warnings := CheckImports(code);
    var optimizations: seq<string> := [];
    if ListCompSearch(code) {
      optimizations := optimizations + [ListCompOptimization];
    }
    var docstrings := CheckDocstrings(code);
    match docstrings
    case Raised(e) => r := Raised(e);
    case Ok(suggestions) =>
      r := Ok(map["suggestions" := suggestions, "warnings" := warnings, "optimizations" := optimizations]);
  }

  /** The older version raises exactly when the review engine's does, and
      otherwise returns its three lists under the three keys and no others. */
  lemma LegacyAgrees(code: string)
    ensures LegacyFindings(code).Raised? <==> PythonFindings(code).Raised?
    ensures LegacyFindings(code).Raised? ==> LegacyFindings(code).error == PythonFindings(code).error
    ensures LegacyFindings(code).Ok? ==>
      var d, f := LegacyFindings(code).value, PythonFindings(code).value;
      d.Keys == {"suggestions", "warnings", "optimizations"} &&
      d["suggestions"] == f.suggestions && d["warnings"] == f.warnings && d["optimizations"] == f.optimizations
  {
  }

  /** Warnings come only from the unused-import rule, suggestions only from the
      docstring rule, and there is at most one optimization. */
  lemma LegacyRuleSources(code: string)
    requires LegacyFindings(code).Ok?
    ensures var d := LegacyFindings(code).value;
      (forall m :: m in d["warnings"] ==> exists n :: m == UnusedImportWarning(n)) &&
      (forall m :: m in d["suggestions"] ==> exists h :: m == DocstringSuggestion(h)) &&
      |d["optimizations"]| <= 1
  {
    var d := LegacyFindings(code).value;
    if Contains(code, "import ") {
      var kinds := Kinds(SplitOn(code, '\n'));
      UnusedWarningsNameListed(ImportedNames(kinds), UsedNames(kinds));
    }
    var lines, headers := SplitLines(code), DefHeaders(code);
    forall m | m in d["suggestions"]
      ensures exists h :: m == DocstringSuggestion(h)
    {
      var k :| 0 <= k < |d["suggestions"]| && d["suggestions"][k] == m;
      var j := DocstringSuggestionSource(lines, headers, k);
    }
  }
}
