/** The review engine: the Python and JavaScript rule sets, the dispatch on the
    language tag, and the score and remark of a review. */
module ReviewEngine {
  import opened PyStr
  import opened Outcomes
  import opened Patterns

  /** The three lists a language's rule set returns. */
  datatype Findings = Findings(suggestions: seq<string>, warnings: seq<string>, optimizations: seq<string>)

  /** The dict `analyze_code` returns. */
  datatype Review = Review(
    suggestions: seq<string>,
    warnings: seq<string>,
    optimizations: seq<string>,
    score: int,
    remark: string)

  // ---- messages

  const UnusedImportHead: string := "⚠️ Unused import detected: "

  function UnusedImportWarning(name: string): string {
    UnusedImportHead + name
  }

  const ListCompOptimization: string := "💡 Consider using list comprehension for better performance."

  const DocstringHead: string := "✅ Add a docstring to function: `"

  function DocstringSuggestion(header: string): string {
    DocstringHead + Strip(header) + "`"
  }

  const VarSuggestion: string := "✅ Consider using 'let' or 'const' instead of 'var'."
  const StrictEqualityWarning: string := "⚠️ Use '===' for strict equality in JavaScript."
  const ConsoleLogOptimization: string := "💡 Remove console.log statements in production code."
  const UnsupportedSuggestion: string := "❌ Language not supported yet."

  /** Different names give different warnings. */
  lemma UnusedImportWarningInjective(n: string, m: string)
    requires UnusedImportWarning(n) == UnusedImportWarning(m)
    ensures n == m
  {
    assert n == UnusedImportWarning(n)[|UnusedImportHead|..];
    assert m == UnusedImportWarning(m)[|UnusedImportHead|..];
  }

  // ---- the unused-import rule

  /** The stripped line starts with "import " or with "from ". */
  predicate IsImportLine(line: string) {
    StartsWith(Strip(line), "import ") || StartsWith(Strip(line), "from ")
  }

  /** `line.split()[1]` for an import line. The stripped line has a word after its
      keyword, so the index is always in range. */
  function ImportName(line: string): (name: string)
    requires IsImportLine(line)
    ensures |Words(line)| >= 2 && name == Words(line)[1]
  {
    if StartsWith(Strip(line), "import ") then
      KeywordLineWords(line, "import");
      Words(line)[1]
    else
      KeywordLineWords(line, "from");
      Words(line)[1]
  }

  /** What the loop over the lines takes from one line: the name an import line
      imports, or the words of any other line. */
  datatype LineKind = ImportOf(name: string) | UsesWords(words: set<string>)

  function WordSet(line: string): set<string> {
    set w | w in Words(line)
  }

  function KindOf(line: string): LineKind {
    if IsImportLine(line) then ImportOf(ImportName(line)) else UsesWords(WordSet(line))
  }

  function Kinds(lines: seq<string>): (kinds: seq<LineKind>)
    ensures |kinds| == |lines| && forall i :: 0 <= i < |lines| ==> kinds[i] == KindOf(lines[i])
  {
    seq(|lines|, i requires 0 <= i < |lines| => KindOf(lines[i]))
  }

  /** The keys of `imports` after the loop has seen lines of these kinds, in
      insertion order. */
  function ImportedNames(kinds: seq<LineKind>): seq<string>
    decreases |kinds|
  {
    if kinds == [] then []
    else
      var front, kind := ImportedNames(kinds[..|kinds| - 1]), kinds[|kinds| - 1];
      if kind.ImportOf? && kind.name !in front then front + [kind.name] else front
  }

  /** `used_names` after the loop has seen lines of these kinds. */
  function UsedNames(kinds: seq<LineKind>): set<string>
    decreases |kinds|
  {
    if kinds == [] then {}
    else
      var kind := kinds[|kinds| - 1];
      UsedNames(kinds[..|kinds| - 1]) + (if kind.UsesWords? then kind.words else {})
  }

  /** The warnings of the loop over `names` against `used`. */
  function UnusedWarnings(names: seq<string>, used: set<string>): seq<string>
    decreases |names|
  {
    if names == [] then []
    else
      var name := names[|names| - 1];
      UnusedWarnings(names[..|names| - 1], used) + (if name in used then [] else [UnusedImportWarning(name)])
  }

  /** The warnings of the unused-import rule. */
  function ImportWarnings(code: string): (warnings: seq<string>)
    ensures !Contains(code, "import ") ==> warnings == []
  {
    if Contains(code, "import ") then
      var kinds := Kinds(SplitOn(code, '\n'));
      UnusedWarnings(ImportedNames(kinds), UsedNames(kinds))
    else []
  }

  /** The unused-import rule of `analyze_python_code`. */
  method CheckImports(code: string) returns (warnings: seq<string>)
    ensures warnings == ImportWarnings(code)
  {
    warnings := [];
    if Contains(code, "import ") {
      var lines := SplitOn(code, '\n');
      var order, usedNames := ScanLines(lines);
      warnings := WarnUnused(order, usedNames);
    }
  }

  /** The loop over the keys of `imports`. */
  method WarnUnused(order: seq<string>, usedNames: set<string>) returns (warnings: seq<string>)
    ensures warnings == UnusedWarnings(order, usedNames)
  {
    warnings := [];
    for k := 0 to |order|
      invariant warnings == UnusedWarnings(order[..k], usedNames)
    {
      assert order[..k + 1][..k] == order[..k];
      if order[k] !in usedNames {
        warnings := warnings + [UnusedImportWarning(order[k])];
      }
    }
    assert order[..|order|] == order;
  }

  /** The loop over the lines: the keys of `imports` in insertion order, and
      `used_names`. */
  method ScanLines(lines: seq<string>) returns (order: seq<string>, usedNames: set<string>)
    ensures order == ImportedNames(Kinds(lines)) && usedNames == UsedNames(Kinds(lines))
  {
    ghost var kinds := Kinds(lines);
    usedNames := {};
    var imports: map<string, string> := map[];
    order := [];
    for i := 0 to |lines|
      invariant order == ImportedNames(kinds[..i])
      invariant usedNames == UsedNames(kinds[..i])
      invariant imports.Keys == set n | n in order
    {
      assert kinds[..i + 1][..i] == kinds[..i];
      assert kinds[..i + 1][i] == KindOf(lines[i]);
      order, usedNames, imports := ScanLine(lines[i], order, usedNames, imports);
    }
    assert kinds[..|lines|] == kinds;
  }

  /** One round of the loop over the lines. */
  method ScanLine(line: string, order: seq<string>, usedNames: set<string>, imports: map<string, string>)
      returns (order': seq<string>, usedNames': set<string>, imports': map<string, string>)
    requires imports.Keys == set n | n in order
    ensures imports'.Keys == set n | n in order'
    ensures var kind := KindOf(line);
      order' == (if kind.ImportOf? && kind.name !in order then order + [kind.name] else order) &&
      usedNames' == usedNames + (if kind.UsesWords? then kind.words else {})
  {
    order', usedNames', imports' := order, usedNames, imports;
    if IsImportLine(line) {
      var importName := ImportName(line);
      if importName !in imports {
        order' := order + [importName];
      }
      imports' := imports[importName := line];
    } else {
      usedNames' := AddWords(usedNames, line);
    }
  }

  /** `for word in line.split(): used_names.add(word)`. */
  method AddWords(usedNames: set<string>, line: string) returns (added: set<string>)
    ensures added == usedNames + WordSet(line)
  {
    var words := Words(line);
    added := usedNames;
    for j := 0 to |words|
      invariant added == usedNames + set k | 0 <= k < j :: words[k]
    {
      added := added + {words[j]};
    }
    assert (set k | 0 <= k < |words| :: words[k]) == WordSet(line);
  }

  /** A listed name comes from an import line. */
  lemma {:induction false} ImportedNameSource(kinds: seq<LineKind>, n: string) returns (i: nat)
    requires n in ImportedNames(kinds)
    ensures i < |kinds| && kinds[i] == ImportOf(n)
    decreases |kinds|
  {
    var front := kinds[..|kinds| - 1];
    if n in ImportedNames(front) {
      i := ImportedNameSource(front, n);
      assert kinds[i] == front[i];
    } else {
      i := |kinds| - 1;
    }
  }

  /** The name of every import line is listed. */
  lemma {:induction false} ImportedNameListed(kinds: seq<LineKind>, n: string, i: nat)
    requires i < |kinds| && kinds[i] == ImportOf(n)
    ensures n in ImportedNames(kinds)
    decreases |kinds|
  {
    var front := kinds[..|kinds| - 1];
    if i < |kinds| - 1 {
      assert front[i] == kinds[i];
      ImportedNameListed(front, n, i);
    }
  }

  /** Each imported name is listed once. */
  lemma {:induction false} ImportedNamesDistinct(kinds: seq<LineKind>)
    ensures forall i, j :: 0 <= i < j < |ImportedNames(kinds)| ==> ImportedNames(kinds)[i] != ImportedNames(kinds)[j]
    decreases |kinds|
  {
    if kinds != [] {
      ImportedNamesDistinct(kinds[..|kinds| - 1]);
    }
  }

  /** Names keep the position of their first import: what the loop has listed
      after a prefix of the lines stays a prefix of the final list. */
  lemma {:induction false} ImportedNamesGrow(kinds: seq<LineKind>, k: nat)
    requires k <= |kinds|
    ensures ImportedNames(kinds[..k]) <= ImportedNames(kinds)
    decreases |kinds|
  {
    if k < |kinds| {
      var front := kinds[..|kinds| - 1];
      assert front[..k] == kinds[..k];
      ImportedNamesGrow(front, k);
    } else {
      assert kinds[..k] == kinds;
    }
  }

  /** A used word is a word of a line that is not an import line. */
  lemma {:induction false} UsedNameSource(kinds: seq<LineKind>, w: string) returns (i: nat)
    requires w in UsedNames(kinds)
    ensures i < |kinds| && kinds[i].UsesWords? && w in kinds[i].words
    decreases |kinds|
  {
    var front := kinds[..|kinds| - 1];
    if w in UsedNames(front) {
      i := UsedNameSource(front, w);
      assert kinds[i] == front[i];
    } else {
      i := |kinds| - 1;
    }
  }

  /** Every word of a line that is not an import line is used. */
  lemma {:induction false} UsedNameListed(kinds: seq<LineKind>, w: string, i: nat)
    requires i < |kinds| && kinds[i].UsesWords? && w in kinds[i].words
    ensures w in UsedNames(kinds)
    decreases |kinds|
  {
    var front := kinds[..|kinds| - 1];
    if i < |kinds| - 1 {
      assert front[i] == kinds[i];
      UsedNameListed(front, w, i);
    }
  }

  /** The warning for `n` is produced iff `n` is listed and not used. */
  lemma {:induction false} UnusedWarningsIff(names: seq<string>, used: set<string>, n: string)
    ensures UnusedImportWarning(n) in UnusedWarnings(names, used) <==> n in names && n !in used
    decreases |names|
  {
    if names != [] {
      var front, last := names[..|names| - 1], names[|names| - 1];
      UnusedWarningsIff(front, used, n);
      if UnusedImportWarning(n) == UnusedImportWarning(last) {
        UnusedImportWarningInjective(n, last);
      }
      assert names == front + [last];
    }
  }

  /** With distinct names, the warnings are distinct and no more than the names. */
  lemma {:induction false} UnusedWarningsDistinct(names: seq<string>, used: set<string>)
    requires forall i, j :: 0 <= i < j < |names| ==> names[i] != names[j]
    ensures var ws := UnusedWarnings(names, used);
      |ws| <= |names| && forall i, j :: 0 <= i < j < |ws| ==> ws[i] != ws[j]
    decreases |names|
  {
    if names != [] {
      var front, last := names[..|names| - 1], names[|names| - 1];
      UnusedWarningsDistinct(front, used);
      UnusedWarningsIff(front, used, last);
    }
  }

  /** Every warning names one of the listed names. */
  lemma {:induction false} UnusedWarningsNameListed(names: seq<string>, used: set<string>)
    ensures forall m :: m in UnusedWarnings(names, used) ==>
      exists j :: 0 <= j < |names| && names[j] !in used && m == UnusedImportWarning(names[j])
    decreases |names|
  {
    if names != [] {
      var front := names[..|names| - 1];
      UnusedWarningsNameListed(front, used);
      forall m | m in UnusedWarnings(names, used)
        ensures exists j :: 0 <= j < |names| && names[j] !in used && m == UnusedImportWarning(names[j])
      {
        if m in UnusedWarnings(front, used) {
          var j :| 0 <= j < |front| && front[j] !in used && m == UnusedImportWarning(front[j]);
          assert names[j] == front[j];
        } else {
          assert m == UnusedImportWarning(names[|names| - 1]);
        }
      }
    }
  }

  /** A warning for `n` comes from code holding "import " with an import line
      that imports `n`, and no other line has `n` as a word. */
  lemma ImportWarningSound(code: string, n: string) returns (i: nat)
    requires UnusedImportWarning(n) in ImportWarnings(code)
    ensures var lines := SplitOn(code, '\n');
      Contains(code, "import ") && i < |lines| && IsImportLine(lines[i]) && ImportName(lines[i]) == n &&
      forall j :: 0 <= j < |lines| && !IsImportLine(lines[j]) ==> n !in Words(lines[j])
  {
    var lines := SplitOn(code, '\n');
    var kinds := Kinds(lines);
    UnusedWarningsIff(ImportedNames(kinds), UsedNames(kinds), n);
    i := ImportedNameSource(kinds, n);
    forall j | 0 <= j < |lines| && !IsImportLine(lines[j]) ensures n !in Words(lines[j]) {
      if n in Words(lines[j]) {
        assert kinds[j] == UsesWords(WordSet(lines[j]));
        UsedNameListed(kinds, n, j);
      }
    }
  }

  lemma UsesWordMeans(lines: seq<string>, j: nat, w: string)
    requires j < |lines|
    ensures Kinds(lines)[j].UsesWords? && w in Kinds(lines)[j].words <==> !IsImportLine(lines[j]) && w in Words(lines[j])
  {
  }

  /** For code holding "import ", a name that some import line imports and that
      no other line has as a word is warned about. */
  lemma ImportWarningComplete(code: string, n: string, i: nat)
    requires var lines := SplitOn(code, '\n');
      Contains(code, "import ") && i < |lines| && IsImportLine(lines[i]) && ImportName(lines[i]) == n &&
      forall j :: 0 <= j < |lines| && !IsImportLine(lines[j]) ==> n !in Words(lines[j])
    ensures UnusedImportWarning(n) in ImportWarnings(code)
  {
    var lines := SplitOn(code, '\n');
    var kinds := Kinds(lines);
    assert kinds[i] == ImportOf(n);
    ImportedNameListed(kinds, n, i);
    if n in UsedNames(kinds) {
      var j := UsedNameSource(kinds, n);
      UsesWordMeans(lines, j, n);
    }
    UnusedWarningsIff(ImportedNames(kinds), UsedNames(kinds), n);
  }

  /** No name is warned about twice, and there are no more warnings than
      distinct imported names. */
  lemma ImportWarningsDistinct(code: string)
    ensures forall i, j :: 0 <= i < j < |ImportWarnings(code)| ==> ImportWarnings(code)[i] != ImportWarnings(code)[j]
    ensures Contains(code, "import ") ==> |ImportWarnings(code)| <= |ImportedNames(Kinds(SplitOn(code, '\n')))|
  {
    if Contains(code, "import ") {
      var kinds := Kinds(SplitOn(code, '\n'));
      ImportedNamesDistinct(kinds);
      UnusedWarningsDistinct(ImportedNames(kinds), UsedNames(kinds));
    }
  }

  // ---- the docstring rule

  /** `lines.index(x)` from index `i` on. */
  function IndexFrom(lines: seq<string>, x: string, i: nat): (r: Option<nat>)
    requires i <= |lines|
    ensures r.Some? ==> i <= r.value < |lines| && lines[r.value] == x && forall k :: i <= k < r.value ==> lines[k] != x
    ensures r.None? ==> forall k :: i <= k < |lines| ==> lines[k] != x
    decreases |lines| - i
  {
    if i == |lines| then None else if lines[i] == x then Some(i) else IndexFrom(lines, x, i + 1)
  }

  /** `lines.index(x)`: the first index holding `x`, or none (Python raises ValueError). */
  function IndexOf(lines: seq<string>, x: string): Option<nat> {
    IndexFrom(lines, x, 0)
  }

  /** One round of the loop over the headers: `Ok(true)` when it suggests a
      docstring, `Ok(false)` when the next line opens one, or the exception. */
  function HeaderCheck(lines: seq<string>, header: string): PyResult<bool> {
    match IndexOf(lines, header)
    case None => Raised(ValueError)
    case Some(i) =>
      if i + 1 >= |lines| then Raised(IndexError)
      else Ok(!StartsWith(Strip(lines[i + 1]), "\"\"\""))
  }

  /** The suggestions of the loop over `headers`, or the first exception raised. */
  function DocstringSuggestions(lines: seq<string>, headers: seq<string>): PyResult<seq<string>>
    decreases |headers|
  {
    if headers == [] then Ok([])
    else
      var header := headers[|headers| - 1];
      match DocstringSuggestions(lines, headers[..|headers| - 1])
      case Raised(e) => Raised(e)
      case Ok(suggestions) =>
        match HeaderCheck(lines, header)
        case Raised(e) => Raised(e)
        case Ok(suggest) => Ok(AppendIf(suggestions, suggest, DocstringSuggestion(header)))
  }

  /** Once a round raises, the loop raises that exception. */
  lemma {:induction false} RaisedPersists(lines: seq<string>, headers: seq<string>, k: nat)
    requires k <= |headers| && DocstringSuggestions(lines, headers[..k]).Raised?
    ensures DocstringSuggestions(lines, headers) == DocstringSuggestions(lines, headers[..k])
    decreases |headers|
  {
    if k < |headers| {
      var front := headers[..|headers| - 1];
      assert front[..k] == headers[..k];
      RaisedPersists(lines, front, k);
    } else {
      assert headers[..k] == headers;
    }
  }

  /** One more round of the loop. */
  lemma DocstringStep(lines: seq<string>, headers: seq<string>, i: nat, suggestions: seq<string>)
    requires i < |headers| && DocstringSuggestions(lines, headers[..i]) == Ok(suggestions)
    ensures DocstringSuggestions(lines, headers[..i + 1]) ==
      match HeaderCheck(lines, headers[i])
      case Raised(e) => Raised(e)
      case Ok(suggest) => Ok(AppendIf(suggestions, suggest, DocstringSuggestion(headers[i])))
  {
    assert headers[..i + 1][..i] == headers[..i];
  }

  /** The docstring rule of `analyze_python_code`. */
  method CheckDocstrings(code: string) returns (r: PyResult<seq<string>>)
    ensures r == DocstringSuggestions(SplitLines(code), DefHeaders(code))
  {
    var functions := DefHeaders(code);
    var suggestions: seq<string> := [];
    for i := 0 to |functions|
      invariant DocstringSuggestions(SplitLines(code), functions[..i]) == Ok(suggestions)
    {
      var fn := functions[i];
      var lines := SplitLines(code);
      DocstringStep(lines, functions, i, suggestions);
      var check := HeaderCheck(lines, fn);
      if check.Raised? {
        RaisedPersists(lines, functions, i + 1);
        return Raised(check.error);
      }
      if check.value {
        suggestions := suggestions + [DocstringSuggestion(fn)];
      }
    }
    assert functions[..|functions|] == functions;
    r := Ok(suggestions);
  }

  /** The number of headers for which a docstring is suggested. */
  function CountSuggesting(lines: seq<string>, headers: seq<string>): nat
    decreases |headers|
  {
    if headers == [] then 0
    else
      CountSuggesting(lines, headers[..|headers| - 1]) +
      (if HeaderCheck(lines, headers[|headers| - 1]) == Ok(true) then 1 else 0)
  }

  /** The rule raises iff some header raises: a rule that does not raise had
      every header pass, ... */
  lemma {:induction false} DocstringOkAll(lines: seq<string>, headers: seq<string>)
    requires DocstringSuggestions(lines, headers).Ok?
    ensures forall j :: 0 <= j < |headers| ==> HeaderCheck(lines, headers[j]).Ok?
    decreases |headers|
  {
    if headers != [] {
      var front, last := headers[..|headers| - 1], headers[|headers| - 1];
      assert DocstringSuggestions(lines, front).Ok? && HeaderCheck(lines, last).Ok?;
      DocstringOkAll(lines, front);
      forall j | 0 <= j < |headers|
        ensures HeaderCheck(lines, headers[j]).Ok?
      {
        if j < |front| {
          assert headers[j] == front[j];
        } else {
          assert j == |headers| - 1;
        }
      }
    }
  }

  /** ... and headers that all pass keep the rule from raising. */
  lemma {:induction false} DocstringAllOk(lines: seq<string>, headers: seq<string>)
    requires forall j :: 0 <= j < |headers| ==> HeaderCheck(lines, headers[j]).Ok?
    ensures DocstringSuggestions(lines, headers).Ok?
    decreases |headers|
  {
    if headers != [] {
      var front := headers[..|headers| - 1];
      assert forall j :: 0 <= j < |front| ==> front[j] == headers[j];
      DocstringAllOk(lines, front);
      assert HeaderCheck(lines, headers[|headers| - 1]).Ok?;
    }
  }

  /** When the rule does not raise, it suggests once per header whose next line
      does not open a docstring. */
  lemma {:induction false} DocstringCount(lines: seq<string>, headers: seq<string>)
    requires DocstringSuggestions(lines, headers).Ok?
    ensures |DocstringSuggestions(lines, headers).value| == CountSuggesting(lines, headers)
    decreases |headers|
  {
    if headers != [] {
      DocstringCount(lines, headers[..|headers| - 1]);
    }
  }

  /** Every suggestion is the one for a header whose next line does not open a
      docstring. */
  lemma {:induction false} DocstringSuggestionSource(lines: seq<string>, headers: seq<string>, k: nat)
    returns (j: nat)
    requires DocstringSuggestions(lines, headers).Ok? && k < |DocstringSuggestions(lines, headers).value|
    ensures j < |headers| && HeaderCheck(lines, headers[j]) == Ok(true)
    ensures DocstringSuggestions(lines, headers).value[k] == DocstringSuggestion(headers[j])
    decreases |headers|
  {
    var last := |headers| - 1;
    var front := headers[..last];
    assert DocstringSuggestions(lines, front).Ok? && HeaderCheck(lines, headers[last]).Ok?;
    var prev := DocstringSuggestions(lines, front).value;
    if k < |prev| {
      j := DocstringSuggestionSource(lines, front, k);
      assert front[j] == headers[j];
    } else {
      j := last;
    }
  }

  /** The first header that raises decides the exception. */
  lemma {:induction false} FirstRaiseWins(lines: seq<string>, headers: seq<string>, j: nat)
    requires j < |headers| && HeaderCheck(lines, headers[j]).Raised?
    requires forall k :: 0 <= k < j ==> HeaderCheck(lines, headers[k]).Ok?
    ensures DocstringSuggestions(lines, headers) == Raised(HeaderCheck(lines, headers[j]).error)
    decreases |headers|
  {
    var front := headers[..|headers| - 1];
    if j < |headers| - 1 {
      assert forall k :: 0 <= k <= j ==> front[k] == headers[k];
      FirstRaiseWins(lines, front, j);
    } else {
      assert forall k :: 0 <= k < |front| ==> front[k] == headers[k];
      DocstringAllOk(lines, front);
    }
  }

  /** A header that stands alone only on the last line raises IndexError when no
      earlier header raises. */
  lemma LastLineHeaderRaises(lines: seq<string>, headers: seq<string>, j: nat)
    requires j < |headers| && IndexOf(lines, headers[j]) == Some(|lines| - 1)
    requires forall k :: 0 <= k < j ==> HeaderCheck(lines, headers[k]).Ok?
    ensures DocstringSuggestions(lines, headers) == Raised(IndexError)
  {
    FirstRaiseWins(lines, headers, j);
  }

  // ---- the Python and JavaScript rule sets

  /** What `analyze_python_code` returns, or the exception it raises. */
  function PythonFindings(code: string): PyResult<Findings> {
    var warnings := ImportWarnings(code);
    var optimizations := AppendIf([], ListCompSearch(code), ListCompOptimization);
    match DocstringSuggestions(SplitLines(code), DefHeaders(code))
    case Raised(e) => Raised(e)
    case Ok(suggestions) => Ok(Findings(suggestions, warnings, optimizations))
  }

  /** `analyze_python_code`. */
  method AnalyzePythonCode(code: string) returns (r: PyResult<Findings>)
    ensures r == PythonFindings(code)
  {
    var warnings := CheckImports(code);
    var optimizations: seq<string> := [];
    if ListCompSearch(code) {
      optimizations := optimizations + [ListCompOptimization];
    }
    var docstrings := CheckDocstrings(code);
    match docstrings
    case Raised(e) => r := Raised(e);
    case Ok(suggestions) => r := Ok(Findings(suggestions, warnings, optimizations));
  }

  /** The Python rule set gives at most one optimization, the list-comprehension
      hint, exactly when its pattern matches. */
  lemma PythonOptimizations(code: string)
    requires PythonFindings(code).Ok?
    ensures var o := PythonFindings(code).value.optimizations;
      |o| <= 1 && (o == [ListCompOptimization] <==> ListCompSearch(code)) && (o == [] <==> !ListCompSearch(code))
  {
  }

  /** What `analyze_javascript_code` returns: one finding per category at most,
      each exactly when its test passes. */
  function JavaScriptFindings(code: string): (f: Findings)
    ensures f.suggestions == [] || f.suggestions == [VarSuggestion]
    ensures f.warnings == [] || f.warnings == [StrictEqualityWarning]
    ensures f.optimizations == [] || f.optimizations == [ConsoleLogOptimization]
    ensures f.suggestions != [] <==> Contains(code, "var ")
    ensures f.warnings != [] <==> LooseEquality(code)
    ensures f.optimizations != [] <==> Contains(code, "console.log(")
  {
    Findings(
      AppendIf([], Contains(code, "var "), VarSuggestion),
      AppendIf([], LooseEquality(code), StrictEqualityWarning),
      AppendIf([], Contains(code, "console.log("), ConsoleLogOptimization))
  }

  /** `analyze_javascript_code`. */
  method AnalyzeJavaScriptCode(code: string) returns (f: Findings)
    ensures f == JavaScriptFindings(code)
  {
    var suggestions: seq<string> := [];
    var warnings: seq<string> := [];
    var optimizations: seq<string> := [];
    if Contains(code, "var ") {
      suggestions := suggestions + [VarSuggestion];
    }
    if LooseEquality(code) {
      warnings := warnings + [StrictEqualityWarning];
    }
    if Contains(code, "console.log(") {
      optimizations := optimizations + [ConsoleLogOptimization];
    }
    f := Findings(suggestions, warnings, optimizations);
  }

  /** "a === b" gets the strict-equality warning too. */
  lemma StrictOperatorWarned(code: string, i: nat)
    requires OccursAt(code, "===", i) && i + 3 < |code| && code[i + 3] != '='
    ensures JavaScriptFindings(code).warnings == [StrictEqualityWarning]
  {
    StrictEqualityIsFlagged(code, i);
  }

  // ---- analyze_code

  function Max(a: int, b: int): int {
    if a >= b then a else b
  }

  /** `max(0, 100 - deductions)`. */
  function Score(warningCount: nat, suggestionCount: nat, optimizationCount: nat): (score: int)
    ensures 0 <= score <= 100
    ensures score == 100 <==> warningCount == 0 && suggestionCount == 0 && optimizationCount == 0
    ensures var d := warningCount * 5 + suggestionCount * 2 + optimizationCount;
      (d <= 100 ==> score == 100 - d) && (d >= 100 ==> score == 0)
  {
    Max(0, 100 - (warningCount * 5 + suggestionCount * 2 + optimizationCount * 1))
  }

  function Remark(score: int): string {
    if score >= 90 then "Excellent" else if score >= 75 then "Good" else "Needs Improvement"
  }

  /** The review of a supported language's findings. */
  function Scored(f: Findings): (r: Review)
    ensures r.suggestions == f.suggestions && r.warnings == f.warnings && r.optimizations == f.optimizations
    ensures r.score == Score(|f.warnings|, |f.suggestions|, |f.optimizations|)
  {
    var score := Score(|f.warnings|, |f.suggestions|, |f.optimizations|);
    Review(f.suggestions, f.warnings, f.optimizations, score, Remark(score))
  }

  const UnsupportedReview: Review := Review([UnsupportedSuggestion], [], [], 0, "Unsupported")

  /** `analyze_code(language, code)`, or the exception the Python rules raise.
      Only the Python rules can raise; every review scores in [0, 100], and a
      supported language's review is scored on its own three lists. */
  function AnalyzeCode(language: string, code: string): (r: PyResult<Review>)
    ensures r.Raised? ==> Lower(language) == "python"
    ensures r.Ok? ==> 0 <= r.value.score <= 100
    ensures r.Ok? && (Lower(language) == "python" || Lower(language) == "javascript") ==>
      r.value.score == Score(|r.value.warnings|, |r.value.suggestions|, |r.value.optimizations|)
    ensures Lower(language) != "python" && Lower(language) != "javascript" ==> r == Ok(UnsupportedReview)
  {
    if Lower(language) == "python" then
      match PythonFindings(code)
      case Raised(e) => Raised(e)
      case Ok(f) => Ok(Scored(f))
    else if Lower(language) == "javascript" then Ok(Scored(JavaScriptFindings(code)))
    else Ok(UnsupportedReview)
  }

  predicate Supported(language: string) {
    Lower(language) == "python" || Lower(language) == "javascript"
  }

  /** Another language gets the fixed unsupported review. */
  lemma UnsupportedLanguage(language: string, code: string)
    requires !Supported(language)
    ensures AnalyzeCode(language, code) == Ok(Review(["❌ Language not supported yet."], [], [], 0, "Unsupported"))
  {
  }

  /** Only the lower-cased tag matters: "Python" and "python" give the same review. */
  lemma CaseInsensitive(language: string, code: string)
    ensures AnalyzeCode(Lower(language), code) == AnalyzeCode(language, code)
  {
    LowerIdempotent(language);
  }

  /** The score of a review lies in [0, 100] and is the capped deduction, and
      the remark is one of three tiers, each exactly on its range. */
  lemma ScoredReview(f: Findings)
    ensures var r := Scored(f);
      0 <= r.score <= 100 &&
      r.score == Max(0, 100 - (5 * |r.warnings| + 2 * |r.suggestions| + |r.optimizations|)) &&
      (r.remark == "Excellent" <==> r.score >= 90) &&
      (r.remark == "Good" <==> 75 <= r.score < 90) &&
      (r.remark == "Needs Improvement" <==> r.score < 75)
  {
    var r := Scored(f);
    assert r.remark == Remark(r.score);
  }

  /** For a supported language the review is the scored findings of its rule set. */
  lemma SupportedReview(language: string, code: string) returns (f: Findings)
    requires Supported(language) && AnalyzeCode(language, code).Ok?
    ensures AnalyzeCode(language, code) == Ok(Scored(f))
    ensures Lower(language) == "python" ==> PythonFindings(code) == Ok(f)
    ensures Lower(language) == "javascript" ==> f == JavaScriptFindings(code)
  {
    if Lower(language) == "python" {
      f := PythonFindings(code).value;
    } else {
      f := JavaScriptFindings(code);
    }
  }

  /** A JavaScript review loses at most 8 points. */
  lemma JavaScriptScore(language: string, code: string)
    requires Lower(language) == "javascript"
    ensures AnalyzeCode(language, code).Ok? && AnalyzeCode(language, code).value.score >= 92
  {
  }
}
