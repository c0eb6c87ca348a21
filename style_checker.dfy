/** `check_code_style`: per-line and file-level style rules for Python code, a
    sub-score and remark, and a cache of reports keyed by the code text alone. */
module StyleChecker {
  import opened PyStr
  import opened Patterns
  import opened PriorityMap
  import opened Formatter

  /** The dict `check_code_style` returns. */
  datatype StyleReport = StyleReport(
    suggestions: seq<string>,
    warnings: seq<string>,
    optimizations: seq<string>,
    score: int,
    remark: string)

  // ---- raw messages, before formatting

  function LinePrefix(n: nat): string {
    "Line " + NatToString(n) + ": "
  }

  function LongLineWarning(n: nat): string {
    LinePrefix(n) + ExceedsKey + "."
  }

  function TabWarning(n: nat): string {
    LinePrefix(n) + "contains " + TabKey + ". Use 4 spaces instead."
  }

  function CommentSuggestion(n: nat): string {
    LinePrefix(n) + CommentKey + " in comments."
  }

  function IndentWarning(n: nat): string {
    LinePrefix(n) + IndentKey + " spaces."
  }

  const NewlineSuggestion: string := NewlineKey + "."

  function RenameSuggestion(name: string): string {
    "🔧 Rename '" + name + "' to follow " + SnakeKey + "."
  }

  function UnsupportedWarning(language: string): string {
    "Style check for " + language + " not supported yet."
  }

  // ---- the rules for one line

  datatype LineRule = TooLong | HasTab | BadComment | BadIndent

  /** Whether `line` breaks `rule`: longer than 79 characters; holds a tab; its
      stripped form starts with "#" but not with "# "; or it starts with a
      number of spaces that is neither 0 nor a multiple of 4. */
  predicate Breaks(line: string, rule: LineRule) {
    match rule
    case TooLong => |line| > 79
    case HasTab => '\t' in line
    case BadComment => UnspacedComment(Strip(line))
    case BadIndent => LeadingSpaces(line) != 0 && LeadingSpaces(line) % 4 != 0
  }

  /** `s.startswith("#") and not s.startswith("# ")`, character by character. */
  predicate UnspacedComment(s: string) {
    |s| >= 1 && s[0] == '#' && !(|s| >= 2 && s[1] == ' ')
  }

  lemma UnspacedCommentMeans(s: string)
    ensures UnspacedComment(s) <==> StartsWith(s, "#") && !StartsWith(s, "# ")
  {
    if |s| >= 2 {
      assert s[..2] == "# " <==> s[0] == '#' && s[1] == ' ';
    }
    if |s| >= 1 {
      assert s[..1] == "#" <==> s[0] == '#';
    }
  }

  /** The raw message for line number `n` breaking `rule`. */
  function RuleMessage(rule: LineRule, n: nat): string {
    match rule
    case TooLong => LongLineWarning(n)
    case HasTab => TabWarning(n)
    case BadComment => CommentSuggestion(n)
    case BadIndent => IndentWarning(n)
  }

  /** The warnings for line number `n`, in the order the rules are tested. */
  function WarningsFor(line: string, n: nat): seq<string> {
    var afterLength := AppendIf([], Breaks(line, TooLong), RuleMessage(TooLong, n));
    var afterTab := AppendIf(afterLength, Breaks(line, HasTab), RuleMessage(HasTab, n));
    AppendIf(afterTab, Breaks(line, BadIndent), RuleMessage(BadIndent, n))
  }

  function SuggestionsFor(line: string, n: nat): seq<string> {
    AppendIf([], Breaks(line, BadComment), RuleMessage(BadComment, n))
  }

  /** The warnings the per-line loop has collected after `lines`, numbered from 1. */
  function LineWarnings(lines: seq<string>): seq<string>
    decreases |lines|
  {
    if lines == [] then []
    else LineWarnings(lines[..|lines| - 1]) + WarningsFor(lines[|lines| - 1], |lines|)
  }

  function LineSuggestions(lines: seq<string>): seq<string>
    decreases |lines|
  {
    if lines == [] then []
    else LineSuggestions(lines[..|lines| - 1]) + SuggestionsFor(lines[|lines| - 1], |lines|)
  }

  /** The rename suggestions for the captured names, in order. */
  function RenameSuggestions(names: seq<string>): seq<string>
    decreases |names|
  {
    if names == [] then []
    else
      var name := names[|names| - 1];
      RenameSuggestions(names[..|names| - 1]) +
      (if name != [] && !IsSnakeCase(name) then [RenameSuggestion(name)] else [])
  }

  /** `language.lower() == "python"`. */
  predicate IsPython(language: string) {
    Lower(language) == "python"
  }

  function RawSuggestions(code: string, language: string): seq<string> {
    if IsPython(language) then
      AppendIf(LineSuggestions(SplitOn(code, '\n')), !EndsWith(code, "\n"), NewlineSuggestion) +
      RenameSuggestions(CapturedNames(code))
    else []
  }

  function RawWarnings(code: string, language: string): seq<string> {
    if IsPython(language) then LineWarnings(SplitOn(code, '\n')) else [UnsupportedWarning(language)]
  }

  function Max(a: int, b: int): int {
    if a >= b then a else b
  }

  /** The sub-score, from the numbers of raw suggestions and warnings. */
  function StyleScore(suggestionCount: nat, warningCount: nat): (score: int)
    ensures 0 <= score <= 100
    ensures score == 100 <==> suggestionCount == 0 && warningCount == 0
    ensures suggestionCount * 2 + warningCount * 3 <= 100 ==> score == 100 - (suggestionCount * 2 + warningCount * 3)
    ensures suggestionCount * 2 + warningCount * 3 >= 100 ==> score == 0
  {
    Max(0, 100 - (suggestionCount * 2 + warningCount * 3))
  }

  function StyleRemark(suggestionCount: nat, warningCount: nat): string {
    if suggestionCount + warningCount <= 2 then "Good job!" else "Needs improvement"
  }

  /** The report an uncached call computes. */
  function StyleOf(code: string, language: string): StyleReport {
    var s := RawSuggestions(code, language);
    var w := RawWarnings(code, language);
    StyleReport(FormatAll(s), FormatAll(w), FormatAll([]), StyleScore(|s|, |w|), StyleRemark(|s|, |w|))
  }

  /** The module-level `style_cache` together with `check_code_style`. */
  class StyleChecker {
    var cache: map<string, StyleReport>

    /** Every stored report is the one some language argument gives for its code. */
    ghost predicate Valid()
      reads this
    {
      forall code :: code in cache ==> exists language :: cache[code] == StyleOf(code, language)
    }

    constructor ()
      ensures Valid() && cache == map[]
    {
      cache := map[];
    }

    /** `check_code_style(code, language)`: a stored report is returned as it is,
        whatever the language; otherwise the report is computed and stored. */
    method CheckCodeStyle(code: string, language: string) returns (result: StyleReport)
      requires Valid()
      modifies this
      ensures Valid()
      ensures code in old(cache) ==> result == old(cache)[code] && cache == old(cache)
      ensures code !in old(cache) ==> result == StyleOf(code, language) && cache == old(cache)[code := result]
    {
      if code in cache {
        return cache[code];
      }
      result := ComputeStyle(code, language);
      cache := cache[code := result];
    }
  }

  /** The body of `check_code_style` after the cache lookup misses. */
  method ComputeStyle(code: string, language: string) returns (result: StyleReport)
    ensures result == StyleOf(code, language)
  {
    var suggestions: seq<string> := [];
    var warnings: seq<string> := [];
    var optimizations: seq<string> := [];
    if Lower(language) == "python" {
      suggestions, warnings := CheckLines(SplitOn(code, '\n'));
      if !EndsWith(code, "\n") {
        suggestions := suggestions + [NewlineSuggestion];
      }
      var renames := CheckNames(CapturedNames(code));
      suggestions := suggestions + renames;
    } else {
      warnings := warnings + [UnsupportedWarning(language)];
    }
    assert suggestions == RawSuggestions(code, language) && warnings == RawWarnings(code, language);
    var formattedSuggestions := FormatIssues(suggestions);
    var formattedWarnings := FormatIssues(warnings);
    var formattedOptimizations := FormatIssues(optimizations);
    result := StyleReport(
      formattedSuggestions, formattedWarnings, formattedOptimizations,
      StyleScore(|suggestions|, |warnings|), StyleRemark(|suggestions|, |warnings|));
  }

  /** The per-line loop of `check_code_style`. */
  method CheckLines(lines: seq<string>) returns (suggestions: seq<string>, warnings: seq<string>)
    ensures suggestions == LineSuggestions(lines) && warnings == LineWarnings(lines)
  {
    suggestions, warnings := [], [];
    for i := 0 to |lines|
      invariant suggestions == LineSuggestions(lines[..i])
      invariant warnings == LineWarnings(lines[..i])
    {
      var lineSuggestions, lineWarnings := CheckLine(lines[i], i + 1);
      suggestions := suggestions + lineSuggestions;
      warnings := warnings + lineWarnings;
      assert lines[..i + 1][..i] == lines[..i];
    }
    assert lines[..|lines|] == lines;
  }

  /** The body of the per-line loop, for line number `n`. */
  method CheckLine(line: string, n: nat) returns (suggestions: seq<string>, warnings: seq<string>)
    ensures suggestions == SuggestionsFor(line, n) && warnings == WarningsFor(line, n)
  {
    suggestions, warnings := [], [];
    if |line| > 79 {
      warnings := warnings + [LongLineWarning(n)];
    }
    if '\t' in line {
      warnings := warnings + [TabWarning(n)];
    }
    var stripped := Strip(line);
    if UnspacedComment(stripped) {
      suggestions := suggestions + [CommentSuggestion(n)];
    }
    var leadingSpaces := LeadingSpaces(line);
    if leadingSpaces != 0 && leadingSpaces % 4 != 0 {
      warnings := warnings + [IndentWarning(n)];
    }
  }

  /** The loop over the captured names of `check_code_style`. */
  method CheckNames(names: seq<string>) returns (suggestions: seq<string>)
    ensures suggestions == RenameSuggestions(names)
  {
    suggestions := [];
    for j := 0 to |names|
      invariant suggestions == RenameSuggestions(names[..j])
    {
      var name := names[j];
      assert names[..j + 1][..j] == names[..j];
      if name != [] && !IsSnakeCase(name) {
        suggestions := suggestions + [RenameSuggestion(name)];
      }
    }
    assert names[..|names|] == names;
  }

  /** A second call with the same code returns the first call's report, even with
      another language, and leaves the cache as the first call left it. */
  method RepeatedCall(checker: StyleChecker, code: string, language: string, otherLanguage: string)
      returns (first: StyleReport, second: StyleReport)
    requires checker.Valid()
    modifies checker
    ensures checker.Valid() && second == first
    ensures code in checker.cache && checker.cache[code] == first
    ensures forall c :: c in old(checker.cache) ==> c in checker.cache && checker.cache[c] == old(checker.cache)[c]
  {
    first := checker.CheckCodeStyle(code, language);
    second := checker.CheckCodeStyle(code, otherLanguage);
  }

  // ---- what the per-line loop reports

  /** How many of `lines` break `rule`. */
  function CountBreaking(lines: seq<string>, rule: LineRule): nat
    decreases |lines|
  {
    if lines == [] then 0
    else CountBreaking(lines[..|lines| - 1], rule) + (if Breaks(lines[|lines| - 1], rule) then 1 else 0)
  }

  /** Every raw warning is the message of a warning rule broken by its line. */
  lemma {:induction false} LineWarningsSound(lines: seq<string>)
    ensures forall m :: m in LineWarnings(lines) ==>
      exists n: nat, rule :: 1 <= n <= |lines| && rule != BadComment && Breaks(lines[n - 1], rule) && m == RuleMessage(rule, n)
    decreases |lines|
  {
    if lines != [] {
      var front := lines[..|lines| - 1];
      LineWarningsSound(front);
      forall m | m in LineWarnings(lines)
        ensures exists n: nat, rule :: 1 <= n <= |lines| && rule != BadComment && Breaks(lines[n - 1], rule) && m == RuleMessage(rule, n)
      {
        if m in LineWarnings(front) {
          var n: nat, rule :| 1 <= n <= |front| && rule != BadComment && Breaks(front[n - 1], rule) && m == RuleMessage(rule, n);
          assert front[n - 1] == lines[n - 1];
        } else {
          assert m in WarningsFor(lines[|lines| - 1], |lines|);
        }
      }
    }
  }

  /** Every raw per-line suggestion is the comment message of a line with an unspaced comment. */
  lemma {:induction false} LineSuggestionsSound(lines: seq<string>)
    ensures forall m :: m in LineSuggestions(lines) ==>
      exists n: nat :: 1 <= n <= |lines| && Breaks(lines[n - 1], BadComment) && m == RuleMessage(BadComment, n)
    decreases |lines|
  {
    if lines != [] {
      var front := lines[..|lines| - 1];
      LineSuggestionsSound(front);
      forall m | m in LineSuggestions(lines)
        ensures exists n: nat :: 1 <= n <= |lines| && Breaks(lines[n - 1], BadComment) && m == RuleMessage(BadComment, n)
      {
        if m in LineSuggestions(front) {
          var n: nat :| 1 <= n <= |front| && Breaks(front[n - 1], BadComment) && m == RuleMessage(BadComment, n);
          assert front[n - 1] == lines[n - 1];
        } else {
          assert m in SuggestionsFor(lines[|lines| - 1], |lines|);
        }
      }
    }
  }

  /** Line `n` breaking a rule gets that rule's message, with its own number. */
  lemma {:induction false} LineMessagesComplete(lines: seq<string>, n: nat, rule: LineRule)
    requires 1 <= n <= |lines| && Breaks(lines[n - 1], rule)
    ensures rule == BadComment ==> RuleMessage(rule, n) in LineSuggestions(lines)
    ensures rule != BadComment ==> RuleMessage(rule, n) in LineWarnings(lines)
    decreases |lines|
  {
    var front := lines[..|lines| - 1];
    if n < |lines| {
      assert front[n - 1] == lines[n - 1];
      LineMessagesComplete(front, n, rule);
    }
  }

  /** One warning per warning rule a line breaks, one suggestion per unspaced comment. */
  lemma {:induction false} LineMessageCounts(lines: seq<string>)
    ensures |LineWarnings(lines)| == CountBreaking(lines, TooLong) + CountBreaking(lines, HasTab) + CountBreaking(lines, BadIndent)
    ensures |LineSuggestions(lines)| == CountBreaking(lines, BadComment)
    decreases |lines|
  {
    if lines != [] {
      LineMessageCounts(lines[..|lines| - 1]);
    }
  }

  // ---- what the rename loop reports

  lemma {:induction false} RenameSuggestionsSound(names: seq<string>)
    ensures forall m :: m in RenameSuggestions(names) ==>
      exists j :: 0 <= j < |names| && names[j] != [] && !IsSnakeCase(names[j]) && m == RenameSuggestion(names[j])
    decreases |names|
  {
    if names != [] {
      var front := names[..|names| - 1];
      RenameSuggestionsSound(front);
      forall m | m in RenameSuggestions(names)
        ensures exists j :: 0 <= j < |names| && names[j] != [] && !IsSnakeCase(names[j]) && m == RenameSuggestion(names[j])
      {
        if m in RenameSuggestions(front) {
          var j :| 0 <= j < |front| && front[j] != [] && !IsSnakeCase(front[j]) && m == RenameSuggestion(front[j]);
          assert front[j] == names[j];
        } else {
          assert names[|names| - 1] == names[|names| - 1];
        }
      }
    }
  }

  lemma {:induction false} RenameSuggestionsComplete(names: seq<string>, j: nat)
    requires j < |names| && names[j] != [] && !IsSnakeCase(names[j])
    ensures RenameSuggestion(names[j]) in RenameSuggestions(names)
    decreases |names|
  {
    var front := names[..|names| - 1];
    if j < |names| - 1 {
      assert front[j] == names[j];
      RenameSuggestionsComplete(front, j);
    }
  }

  // ---- what each raw message becomes after `format_issues`

  /** The tip `format_issues` puts in place of a rule's message. */
  function RuleTip(rule: LineRule): string {
    match rule
    case TooLong => LineTooLongTip
    case HasTab => TabTip
    case BadComment => CommentTip
    case BadIndent => IndentTip
  }

  lemma LinePrefixLacks(n: nat)
    ensures NoneOf(LinePrefix(n), "xb#F_")
  {
    var cs := "xb#F_";
    assert NoneOf("Line ", cs) && NoneOf(": ", cs);
    assert NoneOf(NatToString(n), cs);
    NoneOfConcat("Line ", NatToString(n), cs);
    NoneOfConcat("Line " + NatToString(n), ": ", cs);
  }

  lemma TabWarningFormatted(n: nat)
    ensures FormatIssue(TabWarning(n)) == TabTip
  {
    var head, tail := LinePrefix(n) + "contains ", ". Use 4 spaces instead.";
    LinePrefixLacks(n);
    NoneOfFewer(LinePrefix(n), "xb#F_", "x");
    assert NoneOf("contains ", "x") && NoneOf(TabKey, "x") && NoneOf(tail, "x");
    NoneOfConcat(LinePrefix(n), "contains ", "x");
    NoneOfConcat(head, TabKey, "x");
    NoneOfConcat(head + TabKey, tail, "x");
    MissingKey(TabWarning(n), ExceedsKey, 1, "x");
    ContainsInfix(head, TabKey, tail);
    FirstMatchWins(TabWarning(n), IssueKeys, IssueTemplates, 1);
  }

  lemma CommentSuggestionFormatted(n: nat)
    ensures FormatIssue(CommentSuggestion(n)) == CommentTip
  {
    var cs, tail := "xb", " in comments.";
    LinePrefixLacks(n);
    NoneOfFewer(LinePrefix(n), "xb#F_", cs);
    assert NoneOf(CommentKey, cs) && NoneOf(tail, cs);
    NoneOfConcat(LinePrefix(n), CommentKey, cs);
    NoneOfConcat(LinePrefix(n) + CommentKey, tail, cs);
    MissingKey(CommentSuggestion(n), ExceedsKey, 1, cs);
    MissingKey(CommentSuggestion(n), TabKey, 2, cs);
    ContainsInfix(LinePrefix(n), CommentKey, tail);
    FirstMatchWins(CommentSuggestion(n), IssueKeys, IssueTemplates, 2);
  }

  lemma IndentWarningLacks(n: nat)
    ensures NoneOf(IndentWarning(n), "xb#F_")
  {
    var cs, tail := "xb#F_", " spaces.";
    LinePrefixLacks(n);
    assert NoneOf(IndentKey, cs) && NoneOf(tail, cs);
    NoneOfConcat(LinePrefix(n), IndentKey, cs);
    NoneOfConcat(LinePrefix(n) + IndentKey, tail, cs);
  }

  lemma IndentWarningFormatted(n: nat)
    ensures FormatIssue(IndentWarning(n)) == IndentTip
  {
    var cs, m := "xb#F_", IndentWarning(n);
    IndentWarningLacks(n);
    MissingKey(m, ExceedsKey, 1, cs);
    MissingKey(m, TabKey, 2, cs);
    MissingKey(m, CommentKey, 19, cs);
    MissingKey(m, NewlineKey, 0, cs);
    MissingKey(m, SnakeKey, 5, cs);
    ContainsInfix(LinePrefix(n), IndentKey, " spaces.");
    FirstMatchWins(m, IssueKeys, IssueTemplates, 5);
  }

  /** Each rule's message, whatever its line number, becomes that rule's tip. */
  lemma RuleMessageFormatted(rule: LineRule, n: nat)
    ensures FormatIssue(RuleMessage(rule, n)) == RuleTip(rule)
  {
    match rule
    case TooLong =>
      ContainsInfix(LinePrefix(n), ExceedsKey, ".");
      ExceedsWins(LongLineWarning(n));
    case HasTab => TabWarningFormatted(n);
    case BadComment => CommentSuggestionFormatted(n);
    case BadIndent => IndentWarningFormatted(n);
  }

  lemma NewlineSuggestionFormatted()
    ensures FormatIssue(NewlineSuggestion) == NewlineTip
  {
    var cs := "xb#";
    assert NoneOf(NewlineKey, cs) && NoneOf(".", cs);
    NoneOfConcat(NewlineKey, ".", cs);
    MissingKey(NewlineSuggestion, ExceedsKey, 1, cs);
    MissingKey(NewlineSuggestion, TabKey, 2, cs);
    MissingKey(NewlineSuggestion, CommentKey, 19, cs);
    ContainsInfix([], NewlineKey, ".");
    assert NewlineSuggestion == [] + NewlineKey + ".";
    FirstMatchWins(NewlineSuggestion, IssueKeys, IssueTemplates, 3);
  }

  /** In a rename message for a captured name no space is followed by '7', 'c'
      or 'e'. */
  lemma RenameSuggestionSpaceSafe(name: string)
    requires IsName(name)
    ensures SpaceSafe(RenameSuggestion(name), "7ce")
  {
    var ds, a, b := "7ce", "🔧 Rename '", "' to follow ";
    assert SpaceSafe(a, ds) && SpaceSafe(b, ds) && SpaceSafe(SnakeKey + ".", ds);
    assert SpaceSafe(name, ds);
    SpaceSafeConcat(a, name, ds);
    SpaceSafeConcat(a + name, b, ds);
    SpaceSafeConcat(a + name + b, SnakeKey + ".", ds);
    assert RenameSuggestion(name) == a + name + b + (SnakeKey + ".");
  }

  /** A rename message for a captured name has no '#'. */
  lemma RenameSuggestionLacksHash(name: string)
    requires IsName(name)
    ensures NoneOf(RenameSuggestion(name), "#")
  {
    var a, b := "🔧 Rename '", "' to follow ";
    assert NoneOf(a, "#") && NoneOf(name, "#") && NoneOf(b, "#") && NoneOf(SnakeKey + ".", "#");
    NoneOfConcat(a, name, "#");
    NoneOfConcat(a + name, b, "#");
    NoneOfConcat(a + name + b, SnakeKey + ".", "#");
    assert RenameSuggestion(name) == a + name + b + (SnakeKey + ".");
  }

  /** A rename message for a captured name becomes the snake-case tip: the name
      has no space and no '#', so no earlier key can be formed across it. */
  lemma RenameSuggestionFormatted(name: string)
    requires IsName(name)
    ensures FormatIssue(RenameSuggestion(name)) == SnakeTip
  {
    var ds := "7ce";
    var m := RenameSuggestion(name);
    RenameSuggestionSpaceSafe(name);
    RenameSuggestionLacksHash(name);
    SpacedKeyMissing(m, ExceedsKey, 7, ds);
    SpacedKeyMissing(m, TabKey, 3, ds);
    MissingKey(m, CommentKey, 19, "#");
    SpacedKeyMissing(m, NewlineKey, 11, ds);
    ContainsInfix("🔧 Rename '" + name + "' to follow ", SnakeKey, ".");
    FirstMatchWins(m, IssueKeys, IssueTemplates, 4);
  }

  // ---- the report

  /** The score and remark follow from the numbers of formatted messages, and the
      optimizations list stays empty. */
  lemma ReportScoreFromLists(code: string, language: string)
    ensures var r := StyleOf(code, language);
      r.optimizations == [] &&
      r.score == StyleScore(|r.suggestions|, |r.warnings|) &&
      (r.remark == "Good job!" <==> |r.suggestions| + |r.warnings| <= 2) &&
      (r.score == 100 <==> r.suggestions == [] && r.warnings == [])
  {
    FormatAllEmpty();
  }

  /** Every raw per-line warning becomes the long-line, tab or indentation tip. */
  lemma LineWarningFormatted(lines: seq<string>, m: string)
    requires m in LineWarnings(lines)
    ensures FormatIssue(m) == LineTooLongTip || FormatIssue(m) == TabTip || FormatIssue(m) == IndentTip
  {
    LineWarningsSound(lines);
    var n: nat, rule :| 1 <= n <= |lines| && rule != BadComment && Breaks(lines[n - 1], rule) && m == RuleMessage(rule, n);
    RuleMessageFormatted(rule, n);
  }

  /** Every raw Python suggestion becomes the comment, newline or snake-case tip. */
  lemma PythonSuggestionFormatted(code: string, m: string)
    requires m in AppendIf(LineSuggestions(SplitOn(code, '\n')), !EndsWith(code, "\n"), NewlineSuggestion) + RenameSuggestions(CapturedNames(code))
    ensures FormatIssue(m) == CommentTip || FormatIssue(m) == NewlineTip || FormatIssue(m) == SnakeTip
  {
    var lines, names := SplitOn(code, '\n'), CapturedNames(code);
    if m in LineSuggestions(lines) {
      LineSuggestionsSound(lines);
      var n: nat :| 1 <= n <= |lines| && Breaks(lines[n - 1], BadComment) && m == RuleMessage(BadComment, n);
      RuleMessageFormatted(BadComment, n);
    } else if m in RenameSuggestions(names) {
      RenameSuggestionsSound(names);
      var j :| 0 <= j < |names| && names[j] != [] && !IsSnakeCase(names[j]) && m == RenameSuggestion(names[j]);
      RenameSuggestionFormatted(names[j]);
    } else {
      NewlineSuggestionFormatted();
    }
  }

  /** For Python every formatted message is one of the fixed tips: the line
      numbers and the names of the raw messages do not reach the report. */
  lemma PythonReportTips(code: string, language: string)
    requires IsPython(language)
    ensures forall t :: t in StyleOf(code, language).warnings ==>
      t == LineTooLongTip || t == TabTip || t == IndentTip
    ensures forall t :: t in StyleOf(code, language).suggestions ==>
      t == CommentTip || t == NewlineTip || t == SnakeTip
  {
    var rawS, rawW := RawSuggestions(code, language), RawWarnings(code, language);
    forall t | t in StyleOf(code, language).warnings
      ensures t == LineTooLongTip || t == TabTip || t == IndentTip
    {
      var i :| 0 <= i < |rawW| && t == FormatIssue(rawW[i]);
      LineWarningFormatted(SplitOn(code, '\n'), rawW[i]);
    }
    forall t | t in StyleOf(code, language).suggestions
      ensures t == CommentTip || t == NewlineTip || t == SnakeTip
    {
      var i :| 0 <= i < |rawS| && t == FormatIssue(rawS[i]);
      PythonSuggestionFormatted(code, rawS[i]);
    }
  }

  /** For Python the report holds one warning per (line, warning rule) broken,
      one suggestion per unspaced comment and per rename, and one for a missing
      final newline. */
  lemma PythonReportCounts(code: string, language: string)
    requires IsPython(language)
    ensures var lines, r := SplitOn(code, '\n'), StyleOf(code, language);
      |r.warnings| == CountBreaking(lines, TooLong) + CountBreaking(lines, HasTab) + CountBreaking(lines, BadIndent) &&
      |r.suggestions| == CountBreaking(lines, BadComment) + (if EndsWith(code, "\n") then 0 else 1) +
        |RenameSuggestions(CapturedNames(code))|
  {
    LineMessageCounts(SplitOn(code, '\n'));
  }

  /** The messages of the three kinds start differently. */
  lemma MessageHeads(lines: seq<string>, names: seq<string>)
    ensures NewlineSuggestion !in LineSuggestions(lines)
    ensures NewlineSuggestion !in RenameSuggestions(names)
  {
    assert NewlineSuggestion[0] == 'F';
    LineSuggestionsSound(lines);
    RenameSuggestionsSound(names);
    forall m | m in LineSuggestions(lines) ensures m[0] == 'L' {
      var n: nat :| 1 <= n <= |lines| && Breaks(lines[n - 1], BadComment) && m == RuleMessage(BadComment, n);
    }
    forall m | m in RenameSuggestions(names) ensures m[0] == '🔧' {
      var j :| 0 <= j < |names| && names[j] != [] && !IsSnakeCase(names[j]) && m == RenameSuggestion(names[j]);
    }
  }

  /** The newline suggestion is among the raw Python suggestions exactly when the
      code does not end with a newline, the empty code included. */
  lemma NewlineFlaggedIff(code: string, language: string)
    requires IsPython(language)
    ensures NewlineSuggestion in RawSuggestions(code, language) <==> !EndsWith(code, "\n")
  {
    MessageHeads(SplitOn(code, '\n'), CapturedNames(code));
  }

  /** A language other than Python gets no suggestion, exactly one warning, the
      sub-score 97 and "Good job!". */
  lemma UnsupportedReport(code: string, language: string)
    requires !IsPython(language)
    ensures var r := StyleOf(code, language);
      r.suggestions == [] && r.warnings == [FormatIssue(UnsupportedWarning(language))] &&
      r.optimizations == [] && r.score == 97 && r.remark == "Good job!"
  {
    FormatAllEmpty();
  }

  lemma UnsupportedWarningLacks(language: string)
    requires NoneOf(language, "xb#F_I")
    ensures NoneOf(UnsupportedWarning(language), "xb#F_I")
  {
    var cs, a, b := "xb#F_I", "Style check for ", " not supported yet.";
    assert NoneOf(a, cs) && NoneOf(b, cs);
    NoneOfConcat(a, language, cs);
    NoneOfConcat(a + language, b, cs);
  }

  /** The unsupported-language warning is kept as it is when the language text
      cannot take part in an issue key. */
  lemma UnsupportedWarningKept(language: string)
    requires NoneOf(language, "xb#F_I")
    ensures FormatIssue(UnsupportedWarning(language)) == UnsupportedWarning(language)
  {
    var cs, m := "xb#F_I", UnsupportedWarning(language);
    UnsupportedWarningLacks(language);
    MissingKey(m, ExceedsKey, 1, cs);
    MissingKey(m, TabKey, 2, cs);
    MissingKey(m, CommentKey, 19, cs);
    MissingKey(m, NewlineKey, 0, cs);
    MissingKey(m, SnakeKey, 5, cs);
    MissingKey(m, IndentKey, 0, cs);
    UnknownIssueUnchanged(m);
  }
}
